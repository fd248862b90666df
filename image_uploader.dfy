/**
 * The image staging list of `ImageUploader.tsx`: MIME-type filtering of a
 * picked batch, the all-or-nothing capacity check, removal by index, clearing,
 * and the "upload disabled" gate.
 *
 * The component does not own the list: it receives `images` from its parent
 * and reports a new list through `onImagesChange` and each problem through
 * `onImageError`. The functions below compute, for one event, the list the
 * parent ends up holding and the messages reported, in order.
 */
module ImageUploader {
  import opened Common

  /** A picked file: its name and its MIME type (`File.name`, `File.type`). */
  datatype File = File(name: string, mimeType: string)

  /** The allow-list of `validateFiles`. */
  const AllowedTypes: seq<string> := ["image/jpeg", "image/png", "image/gif"]

  /** `validTypes.includes(type)`: the same three types the file input's `accept` list names. */
  predicate IsAllowedType(mimeType: string): (r: bool)
    ensures r <==> mimeType in {"image/png", "image/jpeg", "image/gif"}
    ensures r ==> |mimeType| > 6 && mimeType[..6] == "image/"
  {
    mimeType in AllowedTypes
  }

  /** The message reported for a file whose type is not allowed. */
  function InvalidTypeMessage(name: string): (m: string)
    ensures |m| == |name| + 56
    ensures m[19..19 + |name|] == name
  {
    "Invalid file type: " + name + ". Only JPG, PNG, and GIF are allowed."
  }

  /** The message reported when a batch would exceed the capacity. */
  function CapacityMessage(maxImages: nat): (m: string)
    ensures |m| > 41 && DigitsValue(m[33..|m| - 8]) == maxImages
  {
    "You can only upload a maximum of " + DecimalString(maxImages) + " images."
  }

  /** The value of a string of decimal digits, read left to right. */
  function DigitsValue(s: string): nat
  {
    if s == [] then 0
    else
      var d := s[|s| - 1] as int - '0' as int;
      DigitsValue(s[..|s| - 1]) * 10 + (if 0 <= d <= 9 then d else 0)
  }

  /** `${n}` for a non-negative integer `n`: its decimal digits, no leading zero. */
  function DecimalString(n: nat): (r: string)
    ensures r != []
    ensures forall k :: 0 <= k < |r| ==> '0' <= r[k] <= '9'
    ensures |r| > 1 ==> r[0] != '0'
    ensures DigitsValue(r) == n
  {
    if n < 10 then ['0' + n as char]
    else
      var prefix := DecimalString(n / 10);
      var r := prefix + ['0' + (n % 10) as char];
      assert r[..|r| - 1] == prefix;
      r
  }

  /** `a` is `b` with some elements left out, the others kept in order. */
  predicate IsSubsequence<T(==)>(a: seq<T>, b: seq<T>)
    decreases |b|
  {
    || a == []
    || (&& b != []
        && ((a[0] == b[0] && IsSubsequence(a[1..], b[1..])) || IsSubsequence(a, b[1..])))
  }

  /** The files of `files` whose type is allowed, in batch order. */
  function AllowedFiles(files: seq<File>): (r: seq<File>)
    ensures IsSubsequence(r, files)
    ensures forall k :: 0 <= k < |r| ==> IsAllowedType(r[k].mimeType)
    ensures forall f :: multiset(r)[f] == if IsAllowedType(f.mimeType) then multiset(files)[f] else 0
  {
    if files == [] then []
    else
      var rest := AllowedFiles(files[1..]);
      assert files == [files[0]] + files[1..];
      if IsAllowedType(files[0].mimeType) then [files[0]] + rest else rest
  }

  /** `AllowedFiles` and `Rejected` split the batch: every file lands in exactly one of them. */
  lemma {:induction false} AllowedAndRejectedPartition(files: seq<File>)
    ensures |AllowedFiles(files)| + |Rejected(files)| == |files|
  {
    if files != [] {
      AllowedAndRejectedPartition(files[1..]);
    }
  }

  /** The files of `files` whose type is not allowed, in batch order. */
  function Rejected(files: seq<File>): (r: seq<File>)
    ensures IsSubsequence(r, files)
    ensures forall k :: 0 <= k < |r| ==> !IsAllowedType(r[k].mimeType)
    ensures forall f :: multiset(r)[f] == if IsAllowedType(f.mimeType) then 0 else multiset(files)[f]
  {
    if files == [] then []
    else
      var rest := Rejected(files[1..]);
      assert files == [files[0]] + files[1..];
      if IsAllowedType(files[0].mimeType) then rest else [files[0]] + rest
  }

  /** What `validateFiles` yields: the files it kept and the messages it reported. */
  datatype Validation = Validation(valid: seq<File>, errors: seq<string>)

  /**
   * `validateFiles`: keep the files whose type is allowed, in order, and
   * report one message per rejected file.
   */
  function ValidateFiles(files: seq<File>): (r: Validation)
    ensures r.valid == AllowedFiles(files)
    ensures IsSubsequence(r.valid, files)
    ensures forall k :: 0 <= k < |r.valid| ==> IsAllowedType(r.valid[k].mimeType)
    ensures forall f :: multiset(r.valid)[f] == if IsAllowedType(f.mimeType) then multiset(files)[f] else 0
    ensures |r.valid| + |r.errors| == |files|
    ensures |r.errors| == |Rejected(files)|
    ensures forall k :: 0 <= k < |r.errors| ==> r.errors[k] == InvalidTypeMessage(Rejected(files)[k].name)
  {
    AllowedAndRejectedPartition(files);
    var rejected := Rejected(files);
    Validation(AllowedFiles(files), seq(|rejected|, k requires 0 <= k < |rejected| => InvalidTypeMessage(rejected[k].name)))
  }

  lemma OneAllowedFileIsKept(f: File)
    requires IsAllowedType(f.mimeType)
    ensures ValidateFiles([f]) == Validation([f], [])
  {
    assert [f][1..] == [];
  }

  /** The files of a picker event that `validateFiles` keeps (none when there is no file list). */
  function Kept(files: Option<seq<File>>): seq<File>
  {
    if files.Some? then ValidateFiles(files.value).valid else []
  }

  /** The list the parent holds after an event, and the messages reported, oldest first. */
  datatype Change = Change(images: seq<File>, errors: seq<string>)

  /**
   * `handleFileChange`: filter the batch; stop if nothing is left; reject the
   * whole batch with one capacity message if it does not fit; otherwise append
   * it. A missing file list does nothing.
   */
  function FileChange(images: seq<File>, files: Option<seq<File>>, maxImages: nat): (c: Change)
    ensures |images| <= maxImages ==> |c.images| <= maxImages
    ensures c.images == images || (Kept(files) != [] && c.images == images + Kept(files))
  {
    if files.None? then Change(images, [])
    else
      var v := ValidateFiles(files.value);
      if |v.valid| == 0 then Change(images, v.errors)
      else if |images| + |v.valid| > maxImages then Change(images, v.errors + [CapacityMessage(maxImages)])
      else Change(images + v.valid, v.errors)
  }

  /** If no file of the batch is allowed, the list is unchanged and no capacity message is reported. */
  lemma NothingValidChangesNothing(images: seq<File>, files: seq<File>, maxImages: nat)
    requires ValidateFiles(files).valid == []
    ensures FileChange(images, Some(files), maxImages) == Change(images, ValidateFiles(files).errors)
  {
  }

  /** A batch that does not fit is rejected whole, with the type messages and then one capacity message. */
  lemma OverflowRejectsWholeBatch(images: seq<File>, files: seq<File>, maxImages: nat)
    requires ValidateFiles(files).valid != []
    requires |images| + |ValidateFiles(files).valid| > maxImages
    ensures FileChange(images, Some(files), maxImages)
         == Change(images, ValidateFiles(files).errors + [CapacityMessage(maxImages)])
  {
  }

  /** A batch that fits is appended after the current images, in its own order. */
  lemma FittingBatchIsAppended(images: seq<File>, files: seq<File>, maxImages: nat)
    requires ValidateFiles(files).valid != []
    requires |images| + |ValidateFiles(files).valid| <= maxImages
    ensures FileChange(images, Some(files), maxImages)
         == Change(images + ValidateFiles(files).valid, ValidateFiles(files).errors)
  {
  }

  /** A type message never reads as the capacity message. */
  lemma MessagesDistinct(name: string, maxImages: nat)
    ensures InvalidTypeMessage(name) != CapacityMessage(maxImages)
  {
    assert InvalidTypeMessage(name)[0] == 'I';
    assert CapacityMessage(maxImages)[0] == 'Y';
  }

  /**
   * The capacity message is reported exactly once when a non-empty filtered
   * batch does not fit, and never otherwise.
   */
  lemma CapacityMessageOnlyOnOverflow(images: seq<File>, files: Option<seq<File>>, maxImages: nat)
    ensures var c := FileChange(images, files, maxImages);
      multiset(c.errors)[CapacityMessage(maxImages)]
        == if Kept(files) != [] && |images| + |Kept(files)| > maxImages then 1 else 0
  {
    if files.Some? {
      var v := ValidateFiles(files.value);
      forall k | 0 <= k < |v.errors| ensures v.errors[k] != CapacityMessage(maxImages) {
        MessagesDistinct(Rejected(files.value)[k].name, maxImages);
      }
      assert CapacityMessage(maxImages) !in v.errors;
    }
  }

  /**
   * `handleRemoveImage`: `images.filter((_, index) => index !== i)`. Every
   * position other than `i` is kept, so an index outside the list keeps all.
   */
  function RemoveIndex<T>(s: seq<T>, i: int): (r: seq<T>)
    ensures 0 <= i < |s| ==> r == s[..i] + s[i + 1..]
    ensures !(0 <= i < |s|) ==> r == s
  {
    if s == [] then []
    else (if i == 0 then [] else [s[0]]) + RemoveIndex(s[1..], i - 1)
  }

  /** Adding one allowed file to a list with room, then removing it by its index, restores the list. */
  lemma AddThenRemoveRestores(images: seq<File>, f: File, maxImages: nat)
    requires IsAllowedType(f.mimeType)
    requires |images| < maxImages
    ensures FileChange(images, Some([f]), maxImages).images == images + [f]
    ensures RemoveIndex(images + [f], |images|) == images
  {
    OneAllowedFileIsKept(f);
    assert (images + [f])[..|images|] == images;
  }

  /** The picker and the file input are disabled once the list holds `maxImages` files. */
  predicate UploadDisabled(images: seq<File>, maxImages: nat): (r: bool)
    ensures r <==> !(|images| < maxImages)
  {
    |images| >= maxImages
  }

  /** The gate agrees with the capacity check: while disabled, every non-empty filtered batch is rejected. */
  lemma DisabledRejectsEveryBatch(images: seq<File>, files: seq<File>, maxImages: nat)
    requires UploadDisabled(images, maxImages)
    requires ValidateFiles(files).valid != []
    ensures FileChange(images, Some(files), maxImages).images == images
    ensures CapacityMessage(maxImages) in FileChange(images, Some(files), maxImages).errors
  {
  }

  /** While enabled, one allowed file is always accepted. */
  lemma EnabledAcceptsOneFile(images: seq<File>, f: File, maxImages: nat)
    requires !UploadDisabled(images, maxImages)
    requires IsAllowedType(f.mimeType)
    ensures FileChange(images, Some([f]), maxImages) == Change(images + [f], [])
  {
    OneAllowedFileIsKept(f);
  }

  /** The events the component handles. */
  datatype Event =
    | FilesChosen(files: Option<seq<File>>)
    | RemoveClicked(index: int)
    | ClearAllClicked

  /** One event: the list the parent holds afterwards and the messages reported. */
  function Step(images: seq<File>, e: Event, maxImages: nat): (c: Change)
    ensures |images| <= maxImages ==> |c.images| <= maxImages
    ensures !e.FilesChosen? ==> c.errors == [] && |c.images| <= |images|
  {
    match e
    case FilesChosen(files) => FileChange(images, files, maxImages)
    case RemoveClicked(i) => Change(RemoveIndex(images, i), [])
    case ClearAllClicked => Change([], [])
  }

  /** A sequence of events, applied in order to the list. */
  function Run(images: seq<File>, events: seq<Event>, maxImages: nat): (r: seq<File>)
    ensures events != [] && events[|events| - 1].ClearAllClicked? ==> r == []
    ensures (forall k :: 0 <= k < |events| ==> !events[k].FilesChosen?) ==> |r| <= |images|
    decreases |events|
  {
    if events == [] then images
    else Run(Step(images, events[0], maxImages).images, events[1..], maxImages)
  }

  /** No sequence of add, remove and clear events takes the list past `maxImages`. */
  lemma {:induction false} RunStaysWithinCapacity(images: seq<File>, events: seq<Event>, maxImages: nat)
    requires |images| <= maxImages
    ensures |Run(images, events, maxImages)| <= maxImages
    decreases |events|
  {
    if events != [] {
      var next := Step(images, events[0], maxImages).images;
      assert |next| <= maxImages;
      RunStaysWithinCapacity(next, events[1..], maxImages);
    }
  }

  /** Clearing empties the list, reports nothing, and clearing again changes nothing. */
  lemma ClearAllIdempotent(images: seq<File>, maxImages: nat)
    ensures Step(images, ClearAllClicked, maxImages) == Change([], [])
    ensures Step(Step(images, ClearAllClicked, maxImages).images, ClearAllClicked, maxImages)
         == Step(images, ClearAllClicked, maxImages)
  {
  }

  /**
   * The component seen through its props: `images` is the list as the parent
   * holds it (the parent replaces it with whatever `onImagesChange` reports),
   * `errorLog` every message passed to `onImageError`, oldest first.
   */
  class Uploader {
    const maxImages: nat
    var images: seq<File>
    var errorLog: seq<string>

    ghost predicate Valid()
      reads this
    {
      |images| <= maxImages
    }

    constructor (maxImages: nat)
      ensures Valid()
      ensures this.maxImages == maxImages && images == [] && errorLog == []
    {
      this.maxImages := maxImages;
      images := [];
      errorLog := [];
    }

    /** `images.length >= maxImages`: the upload zone and the file input are disabled. */
    function Disabled(): (r: bool)
      reads this
      ensures Valid() ==> (r <==> |images| == maxImages)
    {
      UploadDisabled(images, maxImages)
    }

    /** `handleFileChange` */
    method HandleFileChange(files: Option<seq<File>>)
      requires Valid()
      modifies this
      ensures Valid()
      ensures images == FileChange(old(images), files, maxImages).images
      ensures errorLog == old(errorLog) + FileChange(old(images), files, maxImages).errors
    {
      if files.None? {
        return;
      }
      ghost var c := FileChange(images, files, maxImages);
      var validFiles := ValidateFiles(files.value);
      errorLog := errorLog + validFiles.errors;
      if |validFiles.valid| == 0 {
        assert c == Change(images, validFiles.errors);
        return;
      }
      if |images| + |validFiles.valid| > maxImages {
        assert c == Change(images, validFiles.errors + [CapacityMessage(maxImages)]);
        errorLog := errorLog + [CapacityMessage(maxImages)];
        return;
      }
      assert c == Change(images + validFiles.valid, validFiles.errors);
      images := images + validFiles.valid;
    }

    /** `handleRemoveImage` */
    method HandleRemoveImage(index: int)
      requires Valid()
      modifies this
      ensures Valid()
      ensures images == RemoveIndex(old(images), index) && errorLog == old(errorLog)
    {
      images := RemoveIndex(images, index);
    }

    /** `handleClearAllImages` */
    method HandleClearAllImages()
      requires Valid()
      modifies this
      ensures Valid()
      ensures images == [] && errorLog == old(errorLog)
    {
      images := [];
    }
  }
}
