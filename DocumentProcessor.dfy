/** Loading the PDF pages of a folder into documents, one per page with text, and the
    guard in front of the text splitter. Listing the folder and parsing a PDF are foreign:
    a folder is given as its directory entries, each with what reading it produced. */
module DocumentProcessor {
  import opened Basics
  import opened Text
  import opened Documents

  /** What reading one file produced: the texts of the pages read, in page order, and the
      error that stopped the reading, if any. A file that cannot be opened at all has no
      pages and an error; one that fails on page k has the k pages read before it. */
  datatype PdfFile = PdfFile(pages: seq<string>, failure: Option<string>)

  datatype DirEntry = DirEntry(name: string, file: PdfFile)

  /** What `os.path.isdir` and `os.listdir` report for the folder path. */
  datatype Folder = NotADirectory | Directory(entries: seq<DirEntry>)

  /** The counters `load_pdfs` keeps (and reports in its summary). */
  datatype LoadStats = LoadStats(totalPagesProcessed: nat, filesProcessedSuccessfully: nat, filesWithErrors: nat)

  /** `f.lower().endswith(".pdf")`. */
  predicate IsPdfName(name: string)
  {
    EndsWith(Lower(name), ".pdf")
  }

  /** The list comprehension that keeps the PDF files of the listing, in listing order. */
  function PdfFiles(entries: seq<DirEntry>): (r: seq<DirEntry>)
    ensures |r| <= |entries|
    ensures forall e :: e in r ==> e in entries && IsPdfName(e.name)
    ensures forall e :: e in entries && IsPdfName(e.name) ==> e in r
  {
    if entries == [] then []
    else (if IsPdfName(entries[0].name) then [entries[0]] else []) + PdfFiles(entries[1..])
  }

  /** Filtering a listing in two parts keeps each part's PDF files, the first part's first. */
  lemma {:induction false} PdfFilesAppend(a: seq<DirEntry>, b: seq<DirEntry>)
    ensures PdfFiles(a + b) == PdfFiles(a) + PdfFiles(b)
  {
    if a == [] {
      assert a + b == b;
    } else {
      assert (a + b)[0] == a[0] && (a + b)[1..] == a[1..] + b;
      PdfFilesAppend(a[1..], b);
    }
  }

  /** POSIX `os.path.join(directory, name)`. */
  function PathJoin(directory: string, name: string): string
  {
    if name != [] && name[0] == '/' then name
    else if directory == [] || directory[|directory| - 1] == '/' then directory + name
    else directory + "/" + name
  }

  /** The joined path ends with the name; an absolute name replaces the folder, and a
      relative one follows the folder with at most one '/' between them. */
  lemma PathJoinShape(directory: string, name: string)
    ensures var path := PathJoin(directory, name);
            && EndsWith(path, name)
            && (name != [] && name[0] == '/' ==> path == name)
            && (!(name != [] && name[0] == '/') ==> directory <= path && |path| <= |directory| + 1 + |name|)
  {
  }

  /** The document made from page `pageNum` (counted from 0) of a file. */
  function PageDocument(name: string, path: string, pageNum: nat, text: string): Document
  {
    Document(text, map["source" := MStr(name), "page" := MInt(pageNum + 1), "file_path" := MStr(path)])
  }

  /** The documents made from the pages of one file: one per page that has text. */
  function PageDocs(name: string, path: string, pages: seq<string>): seq<Document>
  {
    if pages == [] then []
    else
      var n := |pages| - 1;
      PageDocs(name, path, pages[..n])
        + (if AllSpace(pages[n]) then [] else [PageDocument(name, path, n, pages[n])])
  }

  function FileDocs(directory: string, entry: DirEntry): seq<Document>
  {
    PageDocs(entry.name, PathJoin(directory, entry.name), entry.file.pages)
  }

  /** The documents of a sequence of files, file after file. */
  function LoadedDocs(directory: string, files: seq<DirEntry>): seq<Document>
  {
    if files == [] then []
    else LoadedDocs(directory, files[..|files| - 1]) + FileDocs(directory, files[|files| - 1])
  }

  /** The counters after a sequence of files: an error counts the file as failed (its pages
      are not counted); otherwise a file with text pages counts as processed with its pages. */
  function ExpectedStats(directory: string, files: seq<DirEntry>): LoadStats
  {
    if files == [] then LoadStats(0, 0, 0)
    else
      var s := ExpectedStats(directory, files[..|files| - 1]);
      var last := files[|files| - 1];
      var found := |FileDocs(directory, last)|;
      if last.file.failure.Some? then s.(filesWithErrors := s.filesWithErrors + 1)
      else if found > 0 then
        s.(totalPagesProcessed := s.totalPagesProcessed + found,
           filesProcessedSuccessfully := s.filesProcessedSuccessfully + 1)
      else s
  }

  /** The page loop of `load_pdfs` for one file: a document for every page whose text is
      not blank after `strip()`, counted in `pagesInCurrentDoc`. */
  method LoadPages(name: string, filePath: string, pages: seq<string>)
      returns (docs: seq<Document>, pagesInCurrentDoc: nat)
    ensures docs == PageDocs(name, filePath, pages)
    ensures pagesInCurrentDoc == |docs|
  {
    docs, pagesInCurrentDoc := [], 0;
    for pageNum := 0 to |pages|
      invariant docs == PageDocs(name, filePath, pages[..pageNum])
      invariant pagesInCurrentDoc == |docs|
    {
      var text := pages[pageNum];
      assert pages[..pageNum + 1][..pageNum] == pages[..pageNum];
      StripEmpty(text);
      if Strip(text) != "" {
        docs := docs + [PageDocument(name, filePath, pageNum, text)];
        pagesInCurrentDoc := pagesInCurrentDoc + 1;
      }
    }
    assert pages[..|pages|] == pages;
  }

  /** One more file on the batch: its documents are appended and the counters advance. */
  lemma LoadStep(directory: string, files: seq<DirEntry>, f: nat)
    requires f < |files|
    ensures LoadedDocs(directory, files[..f + 1]) == LoadedDocs(directory, files[..f]) + FileDocs(directory, files[f])
    ensures var s := ExpectedStats(directory, files[..f]);
            var found := |FileDocs(directory, files[f])|;
            ExpectedStats(directory, files[..f + 1])
              == if files[f].file.failure.Some? then s.(filesWithErrors := s.filesWithErrors + 1)
                 else if found > 0 then
                   s.(totalPagesProcessed := s.totalPagesProcessed + found,
                      filesProcessedSuccessfully := s.filesProcessedSuccessfully + 1)
                 else s
  {
    assert files[..f + 1][..f] == files[..f];
  }

  /** `load_pdfs`: every PDF file in listing order, every page in page order; a file that
      fails stops only itself, and the pages it yielded before failing stay loaded. */
  method LoadPdfs(folderPath: string, folder: Folder) returns (documents: seq<Document>, stats: LoadStats)
    ensures folder.NotADirectory? ==> documents == [] && stats == LoadStats(0, 0, 0)
    ensures folder.Directory? ==>
              && documents == LoadedDocs(folderPath, PdfFiles(folder.entries))
              && stats == ExpectedStats(folderPath, PdfFiles(folder.entries))
  {
    documents := [];
    var totalPagesProcessed, filesProcessedSuccessfully, filesWithErrors := 0, 0, 0;
    if folder.NotADirectory? {
      return documents, LoadStats(0, 0, 0);
    }
    var pdfFiles := PdfFiles(folder.entries);
    for f := 0 to |pdfFiles|
      invariant documents == LoadedDocs(folderPath, pdfFiles[..f])
      invariant LoadStats(totalPagesProcessed, filesProcessedSuccessfully, filesWithErrors)
                == ExpectedStats(folderPath, pdfFiles[..f])
    {
      var entry := pdfFiles[f];
      var filePath := PathJoin(folderPath, entry.name);
      var pageDocs, pagesInCurrentDoc := LoadPages(entry.name, filePath, entry.file.pages);
      documents := documents + pageDocs;
      LoadStep(folderPath, pdfFiles, f);
      if entry.file.failure.Some? {
        filesWithErrors := filesWithErrors + 1;
      } else if pagesInCurrentDoc > 0 {
        totalPagesProcessed := totalPagesProcessed + pagesInCurrentDoc;
        filesProcessedSuccessfully := filesProcessedSuccessfully + 1;
      }
    }
    assert pdfFiles[..|pdfFiles|] == pdfFiles;
    stats := LoadStats(totalPagesProcessed, filesProcessedSuccessfully, filesWithErrors);
  }

  // ---------------------------------------------------------------------------
  // Properties of what is loaded

  /** A loaded document names its file, carries a page number of at least 1, and has text. */
  ghost predicate WellFormedPage(d: Document)
  {
    && "source" in d.metadata && d.metadata["source"].MStr?
    && "page" in d.metadata && d.metadata["page"].MInt? && d.metadata["page"].n >= 1
    && "file_path" in d.metadata
    && !AllSpace(d.pageContent)
  }

  lemma {:induction false} PageDocsWellFormed(name: string, path: string, pages: seq<string>)
    ensures |PageDocs(name, path, pages)| <= |pages|
    ensures forall d :: d in PageDocs(name, path, pages) ==>
              WellFormedPage(d) && d.metadata["source"] == MStr(name)
              && d.metadata["file_path"] == MStr(path) && d.metadata["page"].n <= |pages|
  {
    if pages != [] {
      PageDocsWellFormed(name, path, pages[..|pages| - 1]);
    }
  }

  /** A document's page number names the page whose text it holds: the document numbered
      `page` carries the text of page `page - 1` (counted from 0). */
  lemma {:induction false} PageDocsContent(name: string, path: string, pages: seq<string>)
    ensures forall d :: d in PageDocs(name, path, pages) ==>
              1 <= PageOf(d) <= |pages| && d.pageContent == pages[PageOf(d) - 1]
  {
    if pages != [] {
      var n := |pages| - 1;
      var init := pages[..n];
      PageDocsContent(name, path, init);
      var prev := PageDocs(name, path, init);
      forall d | d in PageDocs(name, path, pages)
        ensures 1 <= PageOf(d) <= |pages| && d.pageContent == pages[PageOf(d) - 1]
      {
        if d in prev {
          assert init[PageOf(d) - 1] == pages[PageOf(d) - 1];
        } else {
          assert d == PageDocument(name, path, n, pages[n]);
        }
      }
    }
  }

  /** No page with text is lost: page k (from 0) with text yields the document numbered k + 1. */
  lemma {:induction false} PageDocsComplete(name: string, path: string, pages: seq<string>)
    ensures forall k :: 0 <= k < |pages| && !AllSpace(pages[k]) ==>
              PageDocument(name, path, k, pages[k]) in PageDocs(name, path, pages)
  {
    if pages != [] {
      var n := |pages| - 1;
      var init := pages[..n];
      PageDocsComplete(name, path, init);
      var prev := PageDocs(name, path, init);
      assert prev <= PageDocs(name, path, pages);
      forall k | 0 <= k < n && !AllSpace(pages[k])
        ensures PageDocument(name, path, k, pages[k]) in PageDocs(name, path, pages)
      {
        assert init[k] == pages[k];
        assert PageDocument(name, path, k, pages[k]) in prev;
      }
    }
  }

  /** Every loaded document is well formed and comes from a PDF file of the folder. */
  lemma {:induction false} LoadedDocsWellFormed(directory: string, files: seq<DirEntry>)
    requires forall e :: e in files ==> IsPdfName(e.name)
    ensures forall d :: d in LoadedDocs(directory, files) ==>
              WellFormedPage(d) && IsPdfName(d.metadata["source"].s)
  {
    if files != [] {
      var init, last := files[..|files| - 1], files[|files| - 1];
      assert forall e :: e in init ==> e in files;
      LoadedDocsWellFormed(directory, init);
      PageDocsWellFormed(last.name, PathJoin(directory, last.name), last.file.pages);
    }
  }

  /** The page number a document carries (0 when it has none). */
  function PageOf(d: Document): int
  {
    if "page" in d.metadata && d.metadata["page"].MInt? then d.metadata["page"].n else 0
  }

  /** Within one file, the documents come out in page order. */
  lemma {:induction false} PageDocsInPageOrder(name: string, path: string, pages: seq<string>)
    ensures var docs := PageDocs(name, path, pages);
            forall a, b :: 0 <= a < b < |docs| ==>
              PageOf(docs[a]) < PageOf(docs[b])
  {
    if pages != [] {
      var n := |pages| - 1;
      var prev := PageDocs(name, path, pages[..n]);
      PageDocsInPageOrder(name, path, pages[..n]);
      PageDocsWellFormed(name, path, pages[..n]);
      var docs := PageDocs(name, path, pages);
      forall a, b | 0 <= a < b < |docs|
        ensures PageOf(docs[a]) < PageOf(docs[b])
      {
        if b >= |prev| {
          assert docs[b] == PageDocument(name, path, n, pages[n]);
          assert docs[a] == prev[a] && prev[a] in prev;
        }
      }
    }
  }

  /** The documents of a batch are those of its first part followed by those of the rest:
      what a file yields does not depend on the files before it, failed or not. */
  lemma {:induction false} LoadedDocsAppend(directory: string, first: seq<DirEntry>, rest: seq<DirEntry>)
    ensures LoadedDocs(directory, first + rest) == LoadedDocs(directory, first) + LoadedDocs(directory, rest)
  {
    if rest == [] {
      assert first + rest == first;
    } else {
      var init, last := rest[..|rest| - 1], rest[|rest| - 1];
      assert rest == init + [last];
      LoadedDocsAppend(directory, first, init);
      LoadedDocsAppendStep(directory, first, init, last);
    }
  }

  /** The inductive step of LoadedDocsAppend: the split survives one more file. */
  lemma LoadedDocsAppendStep(directory: string, first: seq<DirEntry>, init: seq<DirEntry>, last: DirEntry)
    requires LoadedDocs(directory, first + init) == LoadedDocs(directory, first) + LoadedDocs(directory, init)
    ensures LoadedDocs(directory, first + (init + [last]))
            == LoadedDocs(directory, first) + LoadedDocs(directory, init + [last])
  {
    var front := first + init;
    assert first + (init + [last]) == front + [last];
    LoadedDocsSnoc(directory, front, last);
    LoadedDocsSnoc(directory, init, last);
    var a, b, c := LoadedDocs(directory, first), LoadedDocs(directory, init), FileDocs(directory, last);
    ConcatAssoc(a, b, c);
  }

  /** One more file appends its own documents. */
  lemma LoadedDocsSnoc(directory: string, files: seq<DirEntry>, e: DirEntry)
    ensures LoadedDocs(directory, files + [e]) == LoadedDocs(directory, files) + FileDocs(directory, e)
  {
    var w := files + [e];
    assert w[..|w| - 1] == files && w[|w| - 1] == e;
  }


  /** The pages loaded from files that failed part-way. */
  function FailedFilePages(directory: string, files: seq<DirEntry>): nat
  {
    if files == [] then 0
    else
      var last := files[|files| - 1];
      FailedFilePages(directory, files[..|files| - 1])
        + (if last.file.failure.Some? then |FileDocs(directory, last)| else 0)
  }

  /** The counters account for every file and every loaded page: the pages counted as
      processed plus those kept from failed files are all the loaded documents, and no
      file is counted both as processed and as failed. */
  lemma {:induction false} StatsAccounting(directory: string, files: seq<DirEntry>)
    ensures var s := ExpectedStats(directory, files);
            && s.totalPagesProcessed + FailedFilePages(directory, files) == |LoadedDocs(directory, files)|
            && s.filesProcessedSuccessfully + s.filesWithErrors <= |files|
            && s.filesProcessedSuccessfully <= s.totalPagesProcessed
  {
    if files != [] {
      StatsAccounting(directory, files[..|files| - 1]);
    }
  }

  // ---------------------------------------------------------------------------
  // Chunking

  const DefaultChunkSize: nat := 1000
  const DefaultChunkOverlap: nat := 200

  /** The text splitter (foreign): documents, chunk size and overlap to chunks. */
  type Splitter = (seq<Document>, nat, nat) -> seq<Document>

  /** `chunk_documents`: no documents means no chunks, without consulting the splitter. */
  function ChunkDocuments(documents: seq<Document>, split: Splitter,
                          chunkSize: nat := DefaultChunkSize, chunkOverlap: nat := DefaultChunkOverlap)
      : (chunks: seq<Document>)
    ensures documents == [] ==> chunks == []
    ensures documents != [] ==> chunks == split(documents, chunkSize, chunkOverlap)
  {
    if documents == [] then [] else split(documents, chunkSize, chunkOverlap)
  }

  /** Called with its defaults, the splitter gets chunks of 1000 characters overlapping by 200. */
  lemma ChunkWithDefaults(documents: seq<Document>, split: Splitter)
    requires documents != []
    ensures ChunkDocuments(documents, split) == split(documents, 1000, 200)
  {
  }
}
