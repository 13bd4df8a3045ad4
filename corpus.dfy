/** The file system as the detector sees it: folders of files of whitespace-separated tokens. */
module Corpus {
  import opened Wrappers

  /** The three ways a run fails. */
  datatype Error =
    | ResourceMissing     // the stop-word list cannot be opened
    | FolderMissing       // `listFiles()` returned null
    | DocumentUnreadable  // `new Scanner(file)` threw FileNotFoundException

  type Document = seq<string>

  /** A directory entry: its name and, when it can be opened, the tokens `Scanner.next()` yields. */
  datatype File = File(name: string, content: Option<Document>)

  /** What `File.listFiles()` returns: null, or the entries in enumeration order. */
  type Folder = Option<seq<File>>

  /** The five folders under the chosen main directory. */
  datatype Directory = Directory(
    trainHam: Folder, trainHam2: Folder, trainSpam: Folder,
    testHam: Folder, testSpam: Folder)

  predicate Readable(files: seq<File>) {
    forall k :: 0 <= k < |files| ==> files[k].content.Some?
  }

  /** The token sequences of a folder whose files can all be opened. */
  function Documents(files: seq<File>): (docs: seq<Document>)
    requires Readable(files)
    ensures |docs| == |files|
    ensures forall k :: 0 <= k < |files| ==> docs[k] == files[k].content.value
  {
    seq(|files|, k requires 0 <= k < |files| => files[k].content.value)
  }

  /** Where reading a folder fails, if it does: a null listing, else the first file that cannot be opened. */
  function FolderError(folder: Folder): (e: Option<Error>)
    ensures e.None? <==> folder.Some? && Readable(folder.value)
    ensures folder.None? ==> e == Some(FolderMissing)
    ensures folder.Some? && !Readable(folder.value) ==> e == Some(DocumentUnreadable)
  {
    if folder.None? then Some(FolderMissing)
    else if Readable(folder.value) then None
    else Some(DocumentUnreadable)
  }
}
