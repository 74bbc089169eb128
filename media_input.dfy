/** The media picker (src/components/MediaInput.tsx): each picked file is compressed by
    the compressor its MIME type selects, kept only when smaller, and checked against the
    size limit. The picked files are meant to be accepted all together or not at all;
    as written, a refused file makes the handler revoke the live URLs and then throw.
    The compressors, `formatFileSize` and the object-URL registry are parameters or
    tokens. */
module MediaInput {
  import opened Wrappers
  import Strings
  import FileInput
  import Notification
  import State

  /** A blob: the picked file itself, or a compressor's output with its size. */
  datatype Blob = Original(file: FileInput.File) | Output(mimeType: string, size: int)

  function Size(b: Blob): int {
    match b
    case Original(f) => f.size
    case Output(_, size) => size
  }

  datatype Box = Box(width: int, height: int)

  /** The `dimensions` prop. */
  datatype Dimensions = Round | Fixed(box: Box)

  /** The three compressors, treated as uninterpreted functions. */
  datatype Compressors = Compressors(
    gif: (FileInput.File, Option<Box>) -> Blob,
    heic: FileInput.File -> Blob,
    image: (FileInput.File, Option<Box>) -> Blob)

  datatype Compressor = GifCompressor | HeicCompressor | ImageCompressor | NoCompressor

  /** The size asked of the GIF and image compressors: 512 by 512 for `round`. */
  function Target(dimensions: Option<Dimensions>): (r: Option<Box>)
    ensures dimensions == Some(Round) ==> r == Some(Box(512, 512))
    ensures dimensions.None? ==> r.None?
    ensures dimensions.Some? && dimensions.value.Fixed? ==> r == Some(dimensions.value.box)
  {
    match dimensions
    case None => None
    case Some(Round) => Some(Box(512, 512))
    case Some(Fixed(box)) => Some(box)
  }

  /** The compressor a MIME type selects, tested in order: GIF, HEIC, any image. */
  function CompressorFor(mimeType: string): Compressor {
    if mimeType == "image/gif" then GifCompressor
    else if Strings.Contains(mimeType, "image/heic") then HeicCompressor
    else if Strings.Contains(mimeType, "image") then ImageCompressor
    else NoCompressor
  }

  /** Exactly the image types are compressed; GIF goes only to the GIF compressor, and
      a HEIC type to the HEIC one. */
  lemma CompressorChoice(mimeType: string)
    ensures CompressorFor(mimeType) == NoCompressor <==> !Strings.Contains(mimeType, "image")
    ensures CompressorFor(mimeType) == GifCompressor <==> mimeType == "image/gif"
    ensures CompressorFor(mimeType) == HeicCompressor <==>
              mimeType != "image/gif" && Strings.Contains(mimeType, "image/heic")
  {
    if mimeType == "image/gif" {
      assert Strings.StartsWith(mimeType, "image");
    } else if Strings.Contains(mimeType, "image/heic") {
      assert "image" + "/heic" == "image/heic";
      Strings.ContainsPrefix(mimeType, "image", "/heic");
    }
  }

  /** The blob the selected compressor produces. */
  function Compressed(file: FileInput.File, dimensions: Option<Dimensions>, c: Compressors): Blob {
    match CompressorFor(file.mimeType)
    case GifCompressor => c.gif(file, Target(dimensions))
    case HeicCompressor => c.heic(file)
    case ImageCompressor => c.image(file, Target(dimensions))
    case NoCompressor => Original(file)
  }

  /** The blob kept: the compressed one unless it grew, then the original. */
  function Kept(file: FileInput.File, dimensions: Option<Dimensions>, c: Compressors): (b: Blob)
    ensures Size(b) <= file.size
    ensures b == Original(file) || b == Compressed(file, dimensions, c)
    ensures Size(Compressed(file, dimensions, c)) <= file.size ==> b == Compressed(file, dimensions, c)
  {
    var compressed := Compressed(file, dimensions, c);
    if Size(compressed) > file.size then Original(file) else compressed
  }

  function TooLargeMessage(limitText: string): string {
    "This file is too large. The maximum size is " + limitText
  }

  /** One file's outcome: its kept blob, or None when it is still over a set limit. */
  function Processed(file: FileInput.File, dimensions: Option<Dimensions>, maxSize: Option<int>, c: Compressors): (r: Option<Blob>)
    ensures r.None? <==> FileInput.SizeCheckOn(maxSize) && Size(Kept(file, dimensions, c)) > maxSize.value
    ensures r.Some? ==> r.value == Kept(file, dimensions, c) && Size(r.value) <= file.size
    ensures r.Some? && FileInput.SizeCheckOn(maxSize) ==> Size(r.value) <= maxSize.value
  {
    var kept := Kept(file, dimensions, c);
    if FileInput.SizeCheckOn(maxSize) && Size(kept) > maxSize.value then None else Some(kept)
  }

  /** The per-file step: dispatch, keep the smaller, check the limit and report. */
  method ProcessFile(file: FileInput.File, dimensions: Option<Dimensions>, maxSize: Option<int>, c: Compressors,
                     formatFileSize: int -> string)
    returns (kept: Option<Blob>, report: Option<string>)
    ensures kept == Processed(file, dimensions, maxSize, c)
    ensures report.Some? <==> kept.None?
    ensures report.Some? ==> report.value == TooLargeMessage(formatFileSize(maxSize.value))
  {
    var newFile: Blob := Original(file);
    var compressor := CompressorFor(file.mimeType);
    if compressor == GifCompressor {
      newFile := c.gif(file, Target(dimensions));
    } else if compressor == HeicCompressor {
      newFile := c.heic(file);
    } else if compressor == ImageCompressor {
      newFile := c.image(file, Target(dimensions));
    } else {
      newFile := Original(file);
    }
    if Size(newFile) > file.size {
      newFile := Original(file);
    }
    if FileInput.SizeCheckOn(maxSize) && Size(newFile) > maxSize.value {
      return None, Some(TooLargeMessage(formatFileSize(maxSize.value)));
    }
    return Some(newFile), None;
  }

  /** The picker inside is given no size limit. */
  const InnerMaxSize: Option<int> := None

  /** So the inner picker rejects a selection only for its types. */
  lemma InnerPickerChecksTypesOnly(files: seq<FileInput.File>, multiple: bool, types: Option<seq<string>>,
                                   formatFileSize: int -> string)
    ensures FileInput.Check(files, multiple, InnerMaxSize, types, formatFileSize).Rejected? <==>
              types.Some? && FileInput.SomeOfOtherType(files, types.value)
  {
  }

  /** A picked file with its object URL (an opaque token). */
  datatype MediaFile = MediaFile(blob: Blob, url: nat)

  /** What `onChange` receives: nothing, the list, or the first item. */
  datatype Handed = Nothing | List(files: seq<MediaFile>) | Item(file: MediaFile)

  /** The files the inner picker delivered: a single file is wrapped in a list. */
  function Picked(delivery: FileInput.Delivery): (files: seq<FileInput.File>)
    ensures delivery.One? ==> files == [delivery.file]
    ensures delivery.Many? ==> files == delivery.files
    ensures delivery.NoCall? ==> files == []
  {
    match delivery
    case NoCall => []
    case Many(files) => files
    case One(file) => [file]
  }

  predicate AllAccepted(files: seq<FileInput.File>, dimensions: Option<Dimensions>, maxSize: Option<int>, c: Compressors) {
    forall k :: 0 <= k < |files| ==> Processed(files[k], dimensions, maxSize, c).Some?
  }

  /** Processes every picked file in order, reporting each one still over the limit. */
  method ProcessAll(files: seq<FileInput.File>, dimensions: Option<Dimensions>, maxSize: Option<int>, c: Compressors,
                    formatFileSize: int -> string, errorState: State.Banner)
    returns (results: seq<Option<Blob>>)
    modifies errorState
    ensures |results| == |files|
    ensures forall k :: 0 <= k < |files| ==> results[k] == Processed(files[k], dimensions, maxSize, c)
    ensures AllAccepted(files, dimensions, maxSize, c) ==> unchanged(errorState)
    ensures !AllAccepted(files, dimensions, maxSize, c) ==>
              errorState.show && errorState.message == TooLargeMessage(formatFileSize(maxSize.value))
  {
    results := [];
    var i := 0;
    while i < |files|
      invariant 0 <= i <= |files|
      invariant |results| == i
      invariant forall k :: 0 <= k < i ==> results[k] == Processed(files[k], dimensions, maxSize, c)
      invariant (forall k :: 0 <= k < i ==> results[k].Some?) ==> unchanged(errorState)
      invariant (exists k :: 0 <= k < i && results[k].None?) ==>
                  errorState.show && errorState.message == TooLargeMessage(formatFileSize(maxSize.value))
    {
      var kept, report := ProcessFile(files[i], dimensions, maxSize, c, formatFileSize);
      if report.Some? {
        Notification.Error(errorState, Notification.Text(report.value));
      }
      results := results + [kept];
      i := i + 1;
    }
  }

  /** `newFiles.find((file) => !file)`: the first entry for which `!file` holds, or
      `undefined` when there is none. The entry found is itself a refused `undefined`,
      so the value is falsy either way. */
  function FindRefused(results: seq<Option<Blob>>): (r: Option<Blob>)
    ensures r.None?
  {
    if results == [] then None
    else if results[0].None? then results[0]
    else FindRefused(results[1..])
  }

  /** The index of the first refused file, or the number of files when none is. */
  function FirstRefused(files: seq<FileInput.File>, dimensions: Option<Dimensions>, maxSize: Option<int>, c: Compressors): (j: nat)
    ensures j <= |files|
    ensures forall k :: 0 <= k < j ==> Processed(files[k], dimensions, maxSize, c).Some?
    ensures j < |files| ==> Processed(files[j], dimensions, maxSize, c).None?
  {
    if files == [] || Processed(files[0], dimensions, maxSize, c).None? then 0
    else 1 + FirstRefused(files[1..], dimensions, maxSize, c)
  }

  /** The media picker's state: the live object URLs, the URLs revoked so far, and the
      next URL token the registry will mint. */
  class Input {
    var urls: seq<nat>
    var revoked: seq<nat>
    var nextUrl: nat

    constructor ()
      ensures urls == [] && revoked == [] && nextUrl == 0
      ensures Valid()
    {
      urls, revoked, nextUrl := [], [], 0;
    }

    /** Every URL was minted, and no live URL has been revoked. */
    predicate Valid()
      reads this
    {
      (forall k :: 0 <= k < |urls| ==> urls[k] < nextUrl && urls[k] !in revoked) &&
      (forall k :: 0 <= k < |revoked| ==> revoked[k] < nextUrl)
    }

    /** Revokes the live URLs and mints one new URL per accepted blob, in order. */
    method Replace(blobs: seq<Blob>) returns (value: seq<MediaFile>)
      requires Valid()
      modifies this
      ensures Valid()
      ensures revoked == old(revoked) + old(urls)
      ensures nextUrl == old(nextUrl) + |blobs|
      ensures |value| == |blobs| && |urls| == |blobs|
      ensures forall k :: 0 <= k < |blobs| ==> urls[k] == old(nextUrl) + k && value[k] == MediaFile(blobs[k], urls[k])
    {
      revoked := revoked + urls;
      var base := nextUrl;
      value := seq(|blobs|, k requires 0 <= k < |blobs| => MediaFile(blobs[k], base + k));
      urls := seq(|value|, k requires 0 <= k < |value| => value[k].url);
      nextUrl := nextUrl + |blobs|;
    }

    /** The change handler as evidently intended, with the refusal test of line 117 read
        as "some file was refused". Every picked file is processed and each one over the
        limit is reported. If any was refused nothing is handed on and the URLs stay;
        otherwise the old URLs are revoked, one new URL is minted per file in order,
        and the list (or, in single mode, its first item) is handed on. */
    method OnChange(delivery: FileInput.Delivery, multiple: bool, dimensions: Option<Dimensions>, maxSize: Option<int>,
                    c: Compressors, formatFileSize: int -> string, errorState: State.Banner)
      returns (handed: Handed)
      requires Valid()
      modifies this, errorState
      ensures Valid()
      ensures var files := Picked(delivery);
        (files == [] ==> handed == Nothing && unchanged(this) && unchanged(errorState)) &&
        (files != [] && !AllAccepted(files, dimensions, maxSize, c) ==>
           handed == Nothing && unchanged(this) &&
           errorState.show && errorState.message == TooLargeMessage(formatFileSize(maxSize.value))) &&
        (files != [] && AllAccepted(files, dimensions, maxSize, c) ==>
           unchanged(errorState) &&
           revoked == old(revoked) + old(urls) &&
           nextUrl == old(nextUrl) + |files| &&
           |urls| == |files| &&
           (forall k :: 0 <= k < |files| ==> urls[k] == old(nextUrl) + k) &&
           (multiple ==>
              handed.List? && |handed.files| == |files| &&
              (forall k :: 0 <= k < |files| ==>
                 handed.files[k] == MediaFile(Processed(files[k], dimensions, maxSize, c).value, urls[k]))) &&
           (!multiple ==> handed == Item(MediaFile(Processed(files[0], dimensions, maxSize, c).value, urls[0]))))
    {
      var files := Picked(delivery);
      handed := Nothing;
      if files == [] {
        return;
      }
      var results := ProcessAll(files, dimensions, maxSize, c, formatFileSize, errorState);
      if !AllAccepted(files, dimensions, maxSize, c) {
        return;
      }
      var blobs := seq(|results|, k requires 0 <= k < |results| && results[k].Some? => results[k].value);
      var value := Replace(blobs);
      if !multiple {
        return Item(value[0]);
      }
      handed := List(value);
    }

    /** The change handler as written. Line 117's test is `FindRefused`, which is never
        truthy, so the handler always goes on: it revokes the live URLs and mints URLs
        in order until it meets the first refused file, where
        `URL.createObjectURL(undefined)` throws before `setUrls` and `onChange` run. The
        `urls` state then still lists the revoked URLs. */
    method OnChangeAsWritten(delivery: FileInput.Delivery, multiple: bool, dimensions: Option<Dimensions>,
                             maxSize: Option<int>, c: Compressors, formatFileSize: int -> string,
                             errorState: State.Banner)
      returns (handed: Handed, threw: bool)
      requires Valid()
      modifies this, errorState
      ensures var files := Picked(delivery);
        (files == [] ==> handed == Nothing && !threw && unchanged(this) && unchanged(errorState)) &&
        (files != [] && !AllAccepted(files, dimensions, maxSize, c) ==>
           threw && handed == Nothing &&
           urls == old(urls) &&
           revoked == old(revoked) + old(urls) &&
           nextUrl == old(nextUrl) + FirstRefused(files, dimensions, maxSize, c) &&
           errorState.show && errorState.message == TooLargeMessage(formatFileSize(maxSize.value))) &&
        (files != [] && AllAccepted(files, dimensions, maxSize, c) ==>
           !threw && Valid() && unchanged(errorState) &&
           revoked == old(revoked) + old(urls) &&
           nextUrl == old(nextUrl) + |files| &&
           |urls| == |files| &&
           (forall k :: 0 <= k < |files| ==> urls[k] == old(nextUrl) + k) &&
           (multiple ==>
              handed.List? && |handed.files| == |files| &&
              (forall k :: 0 <= k < |files| ==>
                 handed.files[k] == MediaFile(Processed(files[k], dimensions, maxSize, c).value, urls[k]))) &&
           (!multiple ==> handed == Item(MediaFile(Processed(files[0], dimensions, maxSize, c).value, urls[0]))))
      ensures Picked(delivery) != [] && !AllAccepted(Picked(delivery), dimensions, maxSize, c) && old(urls) != [] ==>
                !Valid()
    {
      var files := Picked(delivery);
      handed, threw := Nothing, false;
      if files == [] {
        return;
      }
      var results := ProcessAll(files, dimensions, maxSize, c, formatFileSize, errorState);
      revoked := revoked + urls;
      var value: seq<MediaFile> := [];
      var i := 0;
      while i < |results|
        modifies this
        invariant 0 <= i <= |results|
        invariant |value| == i
        invariant forall k :: 0 <= k < i ==> results[k].Some?
        invariant forall k :: 0 <= k < i ==> value[k] == MediaFile(results[k].value, old(nextUrl) + k)
        invariant nextUrl == old(nextUrl) + i
        invariant urls == old(urls) && revoked == old(revoked) + old(urls)
      {
        if results[i].None? {
          // `URL.createObjectURL(undefined)` throws a TypeError.
          assert Processed(files[i], dimensions, maxSize, c).None?;
          assert !AllAccepted(files, dimensions, maxSize, c);
          assert i == FirstRefused(files, dimensions, maxSize, c);
          assert old(urls) != [] ==> urls[0] == revoked[|old(revoked)|];
          threw := true;
          return;
        }
        value := value + [MediaFile(results[i].value, nextUrl)];
        nextUrl := nextUrl + 1;
        i := i + 1;
      }
      assert AllAccepted(files, dimensions, maxSize, c);
      urls := seq(|value|, k requires 0 <= k < |value| => value[k].url);
      if !multiple {
        handed := Item(value[0]);
        return;
      }
      handed := List(value);
    }
  }

  /** The input that shows it: after a 500-byte file is accepted under a 1000-byte
      limit, picking a 2000-byte file throws and leaves the revoked URL live. */
  method RefusedPickRevokesLive() returns (threw: bool, valid: bool)
    ensures threw && !valid
  {
    var input := new Input();
    var banner := new State.Banner();
    var c := Compressors((f, b) => Original(f), f => Original(f), (f, b) => Original(f));
    var formatFileSize := (n: int) => "1 KB";
    var small := FileInput.File("notes.pdf", 500, "application/pdf");
    var large := FileInput.File("scan.pdf", 2000, "application/pdf");
    var handed, _ := input.OnChangeAsWritten(FileInput.One(small), false, None, Some(1000), c, formatFileSize, banner);
    assert |input.urls| == 1;
    handed, threw := input.OnChangeAsWritten(FileInput.One(large), false, None, Some(1000), c, formatFileSize, banner);
    valid := input.Valid();
  }
}
