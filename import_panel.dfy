/**
 * The import panel: dropped or chosen files are checked one by one against
 * the supported extensions and the size limit, the valid ones are selected
 * in their order, and the message of the last rejected file is shown.
 */
module ImportPanel {
  import opened Opt
  import opened Text
  import opened Seqs

  /** A file as the panel sees it: its name and its size in bytes. */
  datatype FileInfo = FileInfo(name: string, size: int)

  /** The default `supportedFileTypes`. */
  const DefaultSupported: seq<string> := [".txt", ".pdf", ".docx", ".mp3", ".mp4"]
  /** The default `maxFileSize`, in megabytes. */
  const DefaultMaxSize: nat := 50

  const EmptyTextError := "Please enter some text to import"

  /** The extension a file is checked by: a dot and the lower-cased text after the last dot. */
  function DottedExtension(name: string): string
  {
    "." + Extension(name)
  }

  /** The message for a file whose extension `ext` is not among `supported`. */
  function UnsupportedMessage(ext: string, supported: seq<string>): string
  {
    "Unsupported file type: " + ext + ". Please use: " + Join(supported, ", ")
  }

  /** The message for a file named `name` over the limit of `maxSize` megabytes. */
  function TooLargeMessage(name: string, maxSize: nat): string
  {
    "File too large: " + name + ". Maximum size is " + NatToString(maxSize) + "MB"
  }

  /** A file passes when its dotted extension is supported and it has at most `maxSize` megabytes. */
  predicate Accepted(supported: seq<string>, maxSize: nat, f: FileInfo)
  {
    DottedExtension(f.name) in supported && f.size <= maxSize * 1024 * 1024
  }

  /**
   * Why a file is refused, if it is: an unsupported extension is reported
   * before an oversized file; a file within the limit of `maxSize` megabytes
   * with a supported extension is not refused.
   */
  function Rejection(supported: seq<string>, maxSize: nat, f: FileInfo): (r: Option<string>)
    ensures DottedExtension(f.name) !in supported ==>
      r == Some(UnsupportedMessage(DottedExtension(f.name), supported))
    ensures DottedExtension(f.name) in supported && f.size > maxSize * 1024 * 1024 ==>
      r == Some(TooLargeMessage(f.name, maxSize))
    ensures r.None? <==> Accepted(supported, maxSize, f)
  {
    var ext := DottedExtension(f.name);
    if ext !in supported then Some(UnsupportedMessage(ext, supported))
    else if f.size > maxSize * 1024 * 1024 then Some(TooLargeMessage(f.name, maxSize))
    else None
  }

  /** The check `validateFiles` applies to each file, as a function value. */
  function Check(supported: seq<string>, maxSize: nat): (check: FileInfo -> Option<string>)
    ensures forall f :: check(f) == Rejection(supported, maxSize, f)
  {
    f => Rejection(supported, maxSize, f)
  }

  /** The items `check` does not refuse, in their order. */
  function Kept<T>(check: T -> Option<string>, xs: seq<T>): (r: seq<T>)
    ensures |r| <= |xs|
    ensures forall i :: 0 <= i < |r| ==> r[i] in xs && check(r[i]).None?
    ensures forall i :: 0 <= i < |xs| && check(xs[i]).None? ==> xs[i] in r
  {
    if xs == [] then []
    else
      var prefix := xs[..|xs| - 1];
      assert forall i :: 0 <= i < |prefix| ==> prefix[i] == xs[i];
      Kept(check, prefix) + (if check(xs[|xs| - 1]).None? then [xs[|xs| - 1]] else [])
  }

  /** The refusal of the last refused item, if any. */
  function LastRefusal<T>(check: T -> Option<string>, xs: seq<T>): (r: Option<string>)
    ensures r.None? <==> forall i :: 0 <= i < |xs| ==> check(xs[i]).None?
  {
    if xs == [] then None
    else
      var prefix := xs[..|xs| - 1];
      assert forall i :: 0 <= i < |prefix| ==> prefix[i] == xs[i];
      if check(xs[|xs| - 1]).Some? then check(xs[|xs| - 1]) else LastRefusal(check, prefix)
  }

  /** One more item: it is kept when not refused, and its refusal becomes the last one. */
  lemma CheckOneMore<T>(check: T -> Option<string>, xs: seq<T>, k: nat)
    requires k < |xs|
    ensures Kept(check, xs[..k + 1]) == Kept(check, xs[..k]) + (if check(xs[k]).None? then [xs[k]] else [])
    ensures LastRefusal(check, xs[..k + 1])
            == if check(xs[k]).Some? then check(xs[k]) else LastRefusal(check, xs[..k])
  {
    assert xs[..k + 1][..k] == xs[..k];
  }

  /** A refusal left over is the one of a refused item after which nothing is refused. */
  lemma {:induction false} LastRefusalIsLast<T>(check: T -> Option<string>, xs: seq<T>)
    requires LastRefusal(check, xs).Some?
    ensures exists i :: 0 <= i < |xs| && LastRefusal(check, xs) == check(xs[i])
                        && forall j :: i < j < |xs| ==> check(xs[j]).None?
  {
    var n := |xs| - 1;
    if check(xs[n]).None? {
      var prefix := xs[..n];
      LastRefusalIsLast(check, prefix);
      var i :| 0 <= i < |prefix| && LastRefusal(check, prefix) == check(prefix[i])
               && forall j :: i < j < |prefix| ==> check(prefix[j]).None?;
      assert xs[i] == prefix[i];
      forall j | i < j < |xs|
        ensures check(xs[j]).None?
      {
        if j < n {
          assert xs[j] == prefix[j];
        }
      }
    }
  }

  /** Nothing refused means everything kept. */
  lemma {:induction false} KeptAll<T>(check: T -> Option<string>, xs: seq<T>)
    requires LastRefusal(check, xs).None?
    ensures Kept(check, xs) == xs
  {
    if xs != [] {
      KeptAll(check, xs[..|xs| - 1]);
      assert xs[..|xs| - 1] + [xs[|xs| - 1]] == xs;
    }
  }

  /** Each item is kept as often as it occurs if `check` lets it through, and never otherwise. */
  lemma {:induction false} KeptCount<T>(check: T -> Option<string>, xs: seq<T>, x: T)
    ensures multiset(Kept(check, xs))[x] == if check(x).None? then multiset(xs)[x] else 0
  {
    if xs != [] {
      KeptCount(check, xs[..|xs| - 1], x);
      assert xs[..|xs| - 1] + [xs[|xs| - 1]] == xs;
    }
  }

  /** The files `validateFiles` returns: the accepted ones, in input order. */
  function ValidFiles(supported: seq<string>, maxSize: nat, files: seq<FileInfo>): (r: seq<FileInfo>)
    ensures |r| <= |files|
    ensures forall i :: 0 <= i < |r| ==> r[i] in files && Accepted(supported, maxSize, r[i])
    ensures forall i :: 0 <= i < |files| && Accepted(supported, maxSize, files[i]) ==> files[i] in r
  {
    Kept(Check(supported, maxSize), files)
  }

  /**
   * The error `validateFiles` leaves: the message of the last refused file,
   * or none when every file is accepted.
   */
  function LastError(supported: seq<string>, maxSize: nat, files: seq<FileInfo>): (r: Option<string>)
    ensures r.None? <==> forall i :: 0 <= i < |files| ==> Accepted(supported, maxSize, files[i])
  {
    LastRefusal(Check(supported, maxSize), files)
  }

  /** A left error is the message of a refused file after which every file is accepted. */
  lemma LastErrorIsLastRefusal(supported: seq<string>, maxSize: nat, files: seq<FileInfo>)
    requires LastError(supported, maxSize, files).Some?
    ensures exists i :: 0 <= i < |files| && LastError(supported, maxSize, files) == Rejection(supported, maxSize, files[i])
                        && forall j :: i < j < |files| ==> Accepted(supported, maxSize, files[j])
  {
    LastRefusalIsLast(Check(supported, maxSize), files);
  }

  /** Every file is kept exactly when no error is left. */
  lemma AllKeptIffNoError(supported: seq<string>, maxSize: nat, files: seq<FileInfo>)
    ensures ValidFiles(supported, maxSize, files) == files <==> LastError(supported, maxSize, files).None?
  {
    if LastError(supported, maxSize, files).None? {
      KeptAll(Check(supported, maxSize), files);
    }
  }

  /** Each file is kept as often as it was given if it is accepted, and never otherwise. */
  lemma ValidFilesCount(supported: seq<string>, maxSize: nat, files: seq<FileInfo>, f: FileInfo)
    ensures multiset(ValidFiles(supported, maxSize, files))[f]
            == if Accepted(supported, maxSize, f) then multiset(files)[f] else 0
  {
    KeptCount(Check(supported, maxSize), files, f);
  }

  /** A dotted extension is a default type exactly when the text after the dot is one of the five. */
  lemma DefaultDotted(e: string)
    ensures "." + e in DefaultSupported <==> e in {"txt", "pdf", "docx", "mp3", "mp4"}
  {
    var d := "." + e;
    assert d[1..] == e;
    assert ".txt"[1..] == "txt" && ".pdf"[1..] == "pdf" && ".docx"[1..] == "docx";
    assert ".mp3"[1..] == "mp3" && ".mp4"[1..] == "mp4";
    if e in {"txt", "pdf", "docx", "mp3", "mp4"} {
      assert d == ".txt" || d == ".pdf" || d == ".docx" || d == ".mp3" || d == ".mp4";
    }
  }

  /** With the default settings a file is accepted iff it has one of the five extensions and at most 50 MB. */
  lemma DefaultAccepts(stem: string, ext: string, size: int)
    requires '.' !in ext
    ensures Accepted(DefaultSupported, DefaultMaxSize, FileInfo(stem + "." + ext, size))
            <==> Lower(ext) in {"txt", "pdf", "docx", "mp3", "mp4"} && size <= 52428800
  {
    ExtensionOf(stem, ext);
    DefaultDotted(Lower(ext));
  }

  /** The icon category `getFileIcon` picks. */
  datatype FileIcon = TextIcon | ImageIcon | AudioIcon | VideoIcon | GenericIcon

  /** The category `getFileIcon` gives a lower-case extension. */
  function IconOfExtension(ext: string): FileIcon
  {
    if ext in {"pdf", "txt", "doc", "docx"} then TextIcon
    else if ext in {"jpg", "jpeg", "png", "gif"} then ImageIcon
    else if ext in {"mp3", "wav", "ogg"} then AudioIcon
    else if ext in {"mp4", "mov", "avi"} then VideoIcon
    else GenericIcon
  }

  /** `getFileIcon`: the category of the lower-cased text after the last dot. */
  function IconOf(name: string): (icon: FileIcon)
  {
    IconOfExtension(Extension(name))
  }

  /** The icon of "stem.ext" depends only on `ext`, whatever its case. */
  lemma IconIgnoresStemAndCase(stem: string, ext: string)
    requires '.' !in ext
    ensures IconOf(stem + "." + ext) == IconOfExtension(Lower(ext))
  {
    ExtensionOf(stem, ext);
  }

  /** Every default file type has a specific icon: text for .txt, .pdf and .docx, audio for .mp3, video for .mp4. */
  lemma DefaultTypesHaveIcons()
    ensures IconOfExtension("txt") == TextIcon && IconOfExtension("pdf") == TextIcon
    ensures IconOfExtension("docx") == TextIcon
    ensures IconOfExtension("mp3") == AudioIcon && IconOfExtension("mp4") == VideoIcon
  {
  }

  /** The panel's own state. */
  class Panel {
    const supportedFileTypes: seq<string>
    const maxFileSize: nat
    var selectedFiles: seq<FileInfo>
    var importText: string
    var error: Option<string>

    constructor(supportedFileTypes: seq<string>, maxFileSize: nat)
      ensures this.supportedFileTypes == supportedFileTypes && this.maxFileSize == maxFileSize
      ensures selectedFiles == [] && importText == "" && error == None
    {
      this.supportedFileTypes := supportedFileTypes;
      this.maxFileSize := maxFileSize;
      selectedFiles := [];
      importText := "";
      error := None;
    }

    /** `validateFiles`: the accepted files in order; the error ends as the last refusal's message. */
    method ValidateFiles(files: seq<FileInfo>) returns (valid: seq<FileInfo>)
      modifies this
      ensures valid == ValidFiles(supportedFileTypes, maxFileSize, files)
      ensures error == LastError(supportedFileTypes, maxFileSize, files)
      ensures selectedFiles == old(selectedFiles) && importText == old(importText)
    {
      var check := Check(supportedFileTypes, maxFileSize);
      error := None;
      valid := [];
      var k := 0;
      while k < |files|
        invariant 0 <= k <= |files|
        invariant valid == Kept(check, files[..k])
        invariant error == LastRefusal(check, files[..k])
        invariant selectedFiles == old(selectedFiles) && importText == old(importText)
      {
        var file := files[k];
        CheckOneMore(check, files, k);
        var rejection := check(file);
        if rejection.Some? {
          error := rejection;
        } else {
          valid := valid + [file];
        }
        k := k + 1;
      }
      assert files[..k] == files;
    }

    /**
     * `handleDrop` / `handleFileChange`: a non-empty batch is validated; when
     * at least one file passes, the selection becomes the valid files and they
     * are reported (`reported`); otherwise nothing is selected or reported.
     */
    method HandleFiles(files: seq<FileInfo>) returns (reported: Option<seq<FileInfo>>)
      modifies this
      ensures var valid := ValidFiles(supportedFileTypes, maxFileSize, files);
        if files == [] then
          reported == None && selectedFiles == old(selectedFiles) && error == old(error)
        else
          error == LastError(supportedFileTypes, maxFileSize, files)
          && (valid != [] ==> reported == Some(valid) && selectedFiles == valid)
          && (valid == [] ==> reported == None && selectedFiles == old(selectedFiles))
      ensures importText == old(importText)
    {
      reported := None;
      if |files| > 0 {
        var valid := ValidateFiles(files);
        if |valid| > 0 {
          selectedFiles := valid;
          reported := Some(valid);
        }
      }
    }

    /**
     * `handleTextImport`: text that is not all white space is reported as
     * typed and the box is cleared; otherwise the panel shows an error.
     */
    method HandleTextImport() returns (reported: Option<string>)
      modifies this
      ensures Trim(old(importText)) != "" ==>
        reported == Some(old(importText)) && importText == "" && error == old(error)
      ensures Trim(old(importText)) == "" ==>
        reported == None && importText == old(importText) && error == Some(EmptyTextError)
      ensures selectedFiles == old(selectedFiles)
    {
      if Trim(importText) != "" {
        reported := Some(importText);
        importText := "";
      } else {
        reported := None;
        error := Some(EmptyTextError);
      }
    }

    /** `handleRemoveFile`: the selection without the file at `index`, reported as it now is. */
    method HandleRemoveFile(index: nat) returns (reported: seq<FileInfo>)
      requires index < |selectedFiles|
      modifies this
      ensures selectedFiles == RemoveAt(old(selectedFiles), index) && reported == selectedFiles
      ensures importText == old(importText) && error == old(error)
    {
      selectedFiles := RemoveAt(selectedFiles, index);
      reported := selectedFiles;
    }
  }
}
