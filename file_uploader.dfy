/**
 * The file-ingestion widget: a list of accepted files, a drag-highlight flag
 * and a single error slot, with the type-then-size acceptance policy and the
 * report of "the list is non-empty" to the owning form.
 */
module FileUploader {
  import opened Options
  import opened Text

  const MiB: nat := 1024 * 1024

  /** The default size limit, 10 MiB. */
  const DefaultMaxFileSizeMiB: nat := 10

  const AllowedExtensions: seq<string> := ["pdf", "csv", "txt"]

  /** The type message, in two literals: the verifier reads characters of a short literal but not of a long one. */
  const InvalidTypeMessage := "Invalid file type. " + "Only PDF, CSV, and TXT files are allowed."

  /** The size-limit message for a limit of a whole number of MiB. */
  function SizeMessage(limitMiB: nat): string {
    "File size exceeds " + NatToString(limitMiB) + "MB limit."
  }

  /**
   * A browser `File` handle. Only its name and size are ever read, and two
   * handles are the same file only when they are the same object.
   */
  class UploadFile {
    const name: string
    const size: nat

    constructor (name: string, size: nat)
      ensures this.name == name && this.size == size
    {
      this.name := name;
      this.size := size;
    }
  }

  /** The lower-cased text after the last '.', or the whole lower-cased name when it has no '.'. */
  function Extension(name: string): string {
    Lower(AfterLastDot(name))
  }

  predicate HasAllowedType(name: string) {
    Extension(name) in AllowedExtensions
  }

  /** The extension of `stem.ext` is `ext`, lower-cased, whatever dots the stem holds. */
  lemma ExtensionOfDottedName(stem: string, ext: string)
    requires '.' !in ext
    ensures Extension(stem + "." + ext) == Lower(ext)
  {
    var s := stem + "." + ext;
    var k := LastDot(s);
    assert s[|stem|] == '.';
    forall j | |stem| < j < |s| ensures s[j] != '.' {
      assert s[j] == ext[j - |stem| - 1];
    }
    assert s[|stem| + 1..] == ext;
  }

  /** A name with no dot at all is its own extension: a file called just "txt" has an allowed type. */
  lemma DotlessNameIsItsOwnExtension(name: string)
    requires '.' !in name
    ensures Extension(name) == Lower(name)
    ensures HasAllowedType(name) <==> Lower(name) in AllowedExtensions
  {
    AfterLastDotNoDot(name);
  }

  /** Why `validateFile` turned a file down; `Message` gives the text the error slot shows. */
  datatype Rejection = InvalidType | TooLarge {
    function Message(limitMiB: nat): (m: string)
      ensures m == InvalidTypeMessage <==> this == InvalidType
      ensures this == TooLarge ==> m == SizeMessage(limitMiB)
    {
      match this
      case InvalidType => InvalidTypeMessage
      case TooLarge =>
        assert SizeMessage(limitMiB)[0] == 'F';
        assert InvalidTypeMessage[0] == 'I';
        SizeMessage(limitMiB)
    }
  }

  /**
   * What `validateFile` leaves in the error slot: `None` when the file is
   * accepted, otherwise the first rule it breaks, the type before the size.
   */
  function FileCheck(name: string, size: nat, limitMiB: nat): (r: Option<Rejection>)
    ensures r == None <==> HasAllowedType(name) && size <= limitMiB * MiB
    ensures r == Some(InvalidType) <==> !HasAllowedType(name)
    ensures r == Some(TooLarge) <==> HasAllowedType(name) && size > limitMiB * MiB
  {
    var extension := Extension(name);
    if extension == "" || extension !in AllowedExtensions then Some(InvalidType)
    else if size > limitMiB * MiB then Some(TooLarge)
    else None
  }

  predicate Accepts(f: UploadFile, limitMiB: nat) {
    FileCheck(f.name, f.size, limitMiB) == None
  }

  /** `batch.filter(keep)`: the files `keep` holds for, in batch order. */
  function Filter(batch: seq<UploadFile>, keep: UploadFile -> bool): (r: seq<UploadFile>)
    ensures |r| <= |batch|
  {
    if batch == [] then []
    else
      var init, last := batch[..|batch| - 1], batch[|batch| - 1];
      Filter(init, keep) + (if keep(last) then [last] else [])
  }

  /** Every file kept comes from the batch and satisfies `keep`. */
  lemma {:induction false} FilterSound(batch: seq<UploadFile>, keep: UploadFile -> bool)
    ensures forall i :: 0 <= i < |Filter(batch, keep)| ==>
      Filter(batch, keep)[i] in batch && keep(Filter(batch, keep)[i])
  {
    if batch != [] {
      var init, last := batch[..|batch| - 1], batch[|batch| - 1];
      FilterSound(init, keep);
      assert batch == init + [last];
    }
  }

  /** Every file of the batch that satisfies `keep` is kept. */
  lemma {:induction false} FilterComplete(batch: seq<UploadFile>, keep: UploadFile -> bool)
    ensures forall i :: 0 <= i < |batch| && keep(batch[i]) ==> batch[i] in Filter(batch, keep)
  {
    if batch != [] {
      var init, last := batch[..|batch| - 1], batch[|batch| - 1];
      FilterComplete(init, keep);
      assert forall i :: 0 <= i < |init| ==> init[i] == batch[i];
    }
  }

  /** Filtering a batch in two parts gives the two filtered parts one after the other. */
  lemma {:induction false} FilterAppend(a: seq<UploadFile>, b: seq<UploadFile>, keep: UploadFile -> bool)
    ensures Filter(a + b, keep) == Filter(a, keep) + Filter(b, keep)
    decreases |b|
  {
    if b == [] {
      assert a + b == a;
    } else {
      assert (a + b)[..|a + b| - 1] == a + b[..|b| - 1];
      FilterAppend(a, b[..|b| - 1], keep);
    }
  }

  /** A batch whose every file satisfies `keep` is kept whole and in order. */
  lemma {:induction false} FilterAll(batch: seq<UploadFile>, keep: UploadFile -> bool)
    requires forall i :: 0 <= i < |batch| ==> keep(batch[i])
    ensures Filter(batch, keep) == batch
  {
    if batch != [] {
      var init, last := batch[..|batch| - 1], batch[|batch| - 1];
      assert forall i :: 0 <= i < |init| ==> init[i] == batch[i];
      FilterAll(init, keep);
      assert batch == init + [last];
    }
  }

  /** `uploadedFiles.filter(validateFile)`: the accepted files of a batch, in batch order. */
  function Accepted(batch: seq<UploadFile>, limitMiB: nat): seq<UploadFile> {
    Filter(batch, (f: UploadFile) => Accepts(f, limitMiB))
  }

  /**
   * The error slot after validating a batch in order: each check overwrites
   * the slot, so it is the verdict on the last file, or the old slot for an
   * empty batch.
   */
  function SlotAfter(batch: seq<UploadFile>, limitMiB: nat, before: Option<Rejection>): (r: Option<Rejection>)
    ensures batch != [] ==> (r == None <==> Accepts(batch[|batch| - 1], limitMiB))
  {
    if batch == [] then before
    else
      var last := batch[|batch| - 1];
      FileCheck(last.name, last.size, limitMiB)
  }

  /** Validating one more file of a batch: it is appended when accepted, and its verdict fills the slot. */
  lemma AcceptedStep(batch: seq<UploadFile>, i: nat, limitMiB: nat, before: Option<Rejection>)
    requires i < |batch|
    ensures Accepted(batch[..i + 1], limitMiB) ==
      Accepted(batch[..i], limitMiB) + (if Accepts(batch[i], limitMiB) then [batch[i]] else [])
    ensures SlotAfter(batch[..i + 1], limitMiB, before) == FileCheck(batch[i].name, batch[i].size, limitMiB)
  {
    assert batch[..i + 1][..i] == batch[..i];
  }

  /** `files.filter(file => file !== f)`: every entry that is `f` itself is dropped, the rest keep their order. */
  function Without(files: seq<UploadFile>, f: UploadFile): seq<UploadFile> {
    if files == [] then []
    else
      var last := files[|files| - 1];
      Without(files[..|files| - 1], f) + (if last == f then [] else [last])
  }

  /** Every copy of `f` goes and every other file keeps its number of copies. */
  lemma {:induction false} WithoutCounts(files: seq<UploadFile>, f: UploadFile)
    ensures multiset(Without(files, f)) == multiset(files)[f := 0]
  {
    if files != [] {
      var init, last := files[..|files| - 1], files[|files| - 1];
      WithoutCounts(init, f);
      assert files == init + [last];
    }
  }

  /** Removing a file that is not in the list leaves the list as it was. */
  lemma {:induction false} WithoutAbsent(files: seq<UploadFile>, f: UploadFile)
    requires f !in files
    ensures Without(files, f) == files
  {
    if files != [] {
      var init, last := files[..|files| - 1], files[|files| - 1];
      assert last in files && last != f;
      assert f !in init;
      WithoutAbsent(init, f);
      assert Without(files, f) == Without(init, f) + [last];
      assert files == init + [last];
    }
  }

  /**
   * Removal works piece by piece: removing from two lists one after the
   * other gives the two shortened lists in the same order.
   */
  lemma {:induction false} WithoutAppend(a: seq<UploadFile>, b: seq<UploadFile>, f: UploadFile)
    ensures Without(a + b, f) == Without(a, f) + Without(b, f)
    decreases |b|
  {
    if b == [] {
      assert a + b == a;
    } else {
      assert (a + b)[..|a + b| - 1] == a + b[..|b| - 1];
      WithoutAppend(a, b[..|b| - 1], f);
    }
  }

  /** Every copy of the removed file goes: the list shrinks by its number of occurrences. */
  lemma WithoutLength(files: seq<UploadFile>, f: UploadFile)
    ensures |Without(files, f)| == |files| - multiset(files)[f]
  {
    WithoutCounts(files, f);
    assert |multiset(files)| == |multiset(files)[f := 0]| + multiset(files)[f] by {
      assert multiset(files) == multiset(files)[f := 0] + multiset{}[f := multiset(files)[f]];
    }
  }

  datatype DragEventKind = DragEnter | DragOver | DragLeave

  class Uploader {
    /** The size limit, in whole MiB (the `maxFileSize` prop divided by 1024 * 1024). */
    const maxFileSizeMiB: nat
    /** Whether the owner passed an `isFileUploaded` callback. */
    const hasListener: bool

    var files: seq<UploadFile>
    var dragActive: bool
    /** The single error slot; the banner shows `error.value.Message(maxFileSizeMiB)`. */
    var error: Option<Rejection>
    /** The values handed to the owner's `isFileUploaded` callback, oldest first. */
    var reported: seq<bool>

    /** The owner has been told, last, whether the current list is non-empty. */
    ghost predicate Valid()
      reads this
    {
      if hasListener then |reported| > 0 && reported[|reported| - 1] == (|files| > 0)
      else reported == []
    }

    /** Mounting: empty list, no highlight, no error, and the mount-time effect reports `false`. */
    constructor (maxFileSizeMiB: nat, hasListener: bool)
      ensures Valid()
      ensures this.maxFileSizeMiB == maxFileSizeMiB && this.hasListener == hasListener
      ensures files == [] && !dragActive && error == None
      ensures reported == if hasListener then [false] else []
    {
      this.maxFileSizeMiB := maxFileSizeMiB;
      this.hasListener := hasListener;
      files := [];
      dragActive := false;
      error := None;
      reported := if hasListener then [false] else [];
    }

    /** The effect that runs after the list changes: the owner learns whether it is non-empty. */
    method ReportUploadState()
      requires !hasListener ==> reported == []
      modifies this`reported
      ensures Valid()
      ensures reported == old(reported) + (if hasListener then [|files| > 0] else [])
    {
      if hasListener {
        reported := reported + [|files| > 0];
      }
    }

    /** `validateFile`: checks type, then size, and overwrites the error slot either way. */
    method ValidateFile(f: UploadFile) returns (ok: bool)
      modifies this`error
      ensures error == FileCheck(f.name, f.size, maxFileSizeMiB)
      ensures ok <==> error == None
    {
      var extension := Extension(f.name);
      if extension == "" || extension !in AllowedExtensions {
        error := Some(InvalidType);
        return false;
      }
      if f.size > maxFileSizeMiB * MiB {
        error := Some(TooLarge);
        return false;
      }
      error := None;
      return true;
    }

    /** `handleDrag`: the highlight is on while a drag is over the zone and off once it leaves. */
    method HandleDrag(kind: DragEventKind)
      modifies this`dragActive
      ensures dragActive <==> kind == DragEnter || kind == DragOver
    {
      dragActive := kind == DragEnter || kind == DragOver;
    }

    /**
     * `batch.filter(validateFile)`: validates the files in order, keeping the
     * accepted ones; each check overwrites the error slot.
     */
    method ValidateBatch(batch: seq<UploadFile>) returns (valid: seq<UploadFile>)
      modifies this`error
      ensures valid == Accepted(batch, maxFileSizeMiB)
      ensures error == SlotAfter(batch, maxFileSizeMiB, old(error))
    {
      valid := [];
      var i := 0;
      while i < |batch|
        invariant 0 <= i <= |batch|
        invariant valid == Accepted(batch[..i], maxFileSizeMiB)
        invariant error == SlotAfter(batch[..i], maxFileSizeMiB, old(error))
      {
        var ok := ValidateFile(batch[i]);
        AcceptedStep(batch, i, maxFileSizeMiB, old(error));
        if ok {
          valid := valid + [batch[i]];
        }
        i := i + 1;
      }
      assert batch[..|batch|] == batch;
    }

    /** Validates a batch and appends the accepted files after the current list; the owner is told. */
    method AddFiles(batch: seq<UploadFile>)
      requires Valid()
      modifies this`files, this`error, this`reported
      ensures Valid()
      ensures files == old(files) + Accepted(batch, maxFileSizeMiB)
      ensures error == SlotAfter(batch, maxFileSizeMiB, old(error))
      ensures reported == old(reported) + (if hasListener then [|files| > 0] else [])
    {
      var valid := ValidateBatch(batch);
      files := files + valid;
      ReportUploadState();
    }

    /** `handleDrop`: the highlight goes off and the dropped files are added. */
    method HandleDrop(batch: seq<UploadFile>)
      requires Valid()
      modifies this`files, this`error, this`reported, this`dragActive
      ensures Valid()
      ensures !dragActive
      ensures files == old(files) + Accepted(batch, maxFileSizeMiB)
      ensures error == SlotAfter(batch, maxFileSizeMiB, old(error))
      ensures reported == old(reported) + (if hasListener then [|files| > 0] else [])
    {
      dragActive := false;
      AddFiles(batch);
    }

    /** `handleFileInput`: a picker event adds its files; one without a file list changes nothing. */
    method HandleFileInput(picked: Option<seq<UploadFile>>)
      requires Valid()
      modifies this`files, this`error, this`reported
      ensures Valid()
      ensures picked == None ==> files == old(files) && error == old(error) && reported == old(reported)
      ensures picked != None ==> files == old(files) + Accepted(picked.value, maxFileSizeMiB)
      ensures picked != None ==> error == SlotAfter(picked.value, maxFileSizeMiB, old(error))
      ensures picked != None ==> reported == old(reported) + (if hasListener then [|files| > 0] else [])
    {
      if picked.Some? {
        AddFiles(picked.value);
      }
    }

    /** `removeFile`: drops every entry that is this very file; the error slot is left alone. */
    method RemoveFile(f: UploadFile)
      requires Valid()
      modifies this`files, this`reported
      ensures Valid()
      ensures files == Without(old(files), f)
      ensures reported == old(reported) + (if hasListener then [|files| > 0] else [])
    {
      files := Without(files, f);
      ReportUploadState();
    }
  }
}
