/**
 * The upload box's file check. A chosen file must have one of three image
 * MIME types and at most 3 MiB; the type is checked first, and each failure
 * sets its own message and stops. An accepted file clears the message, is
 * recorded, and switches crop mode on. "Use Full Image" hands the recorded
 * file on and switches crop mode off.
 */
module UploadInput {
  import opened Wrappers

  /** What the component looks at in a browser `File`: its MIME type and byte size. */
  datatype File = File(mimeType: string, size: nat)

  const ValidTypes: seq<string> := ["image/jpeg", "image/png", "image/jpg"]
  const MaxSize: nat := 3 * 1024 * 1024
  const TypeMessage: string := "Please upload a JPEG or PNG file."
  const SizeMessage: string := "File size must not exceed 3MB."

  /** The two checks in order: the message a file is rejected with, or `None` when it is
      accepted. */
  function Rejection(file: File): (r: Option<string>)
    ensures r.None? <==> file.mimeType in ValidTypes && file.size <= MaxSize
    ensures r == Some(TypeMessage) <==> file.mimeType !in ValidTypes
    ensures r == Some(SizeMessage) <==> file.mimeType in ValidTypes && file.size > MaxSize
  {
    if file.mimeType !in ValidTypes then Some(TypeMessage)
    else if file.size > MaxSize then Some(SizeMessage)
    else None
  }

  /** The component's state: its own `fileError` and `currentFile`, and the crop flag that its
      parent owns and it sets through `setCropActive`. */
  class Upload {
    var fileError: Option<string>
    var currentFile: Option<File>
    var cropActive: bool

    /** Every message shown is one of the two, and a recorded file passed both checks. */
    ghost predicate Valid()
      reads this
    {
      && (fileError.Some? ==> fileError.value == TypeMessage || fileError.value == SizeMessage)
      && (currentFile.Some? ==> Rejection(currentFile.value).None?)
    }

    /** Mounting: no error and no file; the crop flag is whatever the parent holds. */
    constructor (cropActive: bool)
      ensures Valid()
      ensures fileError == None && currentFile == None && this.cropActive == cropActive
    {
      fileError := None;
      currentFile := None;
      this.cropActive := cropActive;
    }

    /** `handleFileChange` for the input's file list, `None` when it is `null`; only the first
        file is looked at. */
    method HandleFileChange(files: Option<seq<File>>)
      requires Valid()
      modifies this
      ensures Valid()
      ensures files.None? || files.value == [] ==>
        fileError == old(fileError) && currentFile == old(currentFile) && cropActive == old(cropActive)
      ensures files.Some? && files.value != [] && Rejection(files.value[0]).Some? ==>
        fileError == Rejection(files.value[0]) && currentFile == old(currentFile) && cropActive == old(cropActive)
      ensures files.Some? && files.value != [] && Rejection(files.value[0]).None? ==>
        fileError == None && currentFile == Some(files.value[0]) && cropActive
    {
      if files.None? || |files.value| == 0 {
        return;
      }
      var file := files.value[0];
      if file.mimeType !in ValidTypes {
        fileError := Some(TypeMessage);
        return;
      }
      if file.size > MaxSize {
        fileError := Some(SizeMessage);
        return;
      }
      fileError := None;
      currentFile := Some(file);
      cropActive := true;
    }

    /** `handleUseFullImage`, where `hasFullImageHandler` says whether `onFullImage` was
        given; `forwarded` is the file passed to it, if any. */
    method HandleUseFullImage(hasFullImageHandler: bool) returns (forwarded: Option<File>)
      requires Valid()
      modifies this`cropActive
      ensures Valid()
      ensures forwarded == if hasFullImageHandler then currentFile else None
      ensures cropActive == if forwarded.Some? then false else old(cropActive)
      ensures forwarded.Some? ==> Rejection(forwarded.value).None?
    {
      forwarded := None;
      if currentFile.Some? && hasFullImageHandler {
        forwarded := currentFile;
        cropActive := false;
      }
    }
  }

  /** The type check comes first: a file of a wrong type gets the type message whatever its size. */
  lemma TypeCheckFirst(file: File)
    requires file.mimeType !in ValidTypes
    ensures Rejection(file) == Some(TypeMessage)
  {
  }

  /** The size bound is inclusive at 3 * 1024 * 1024 = 3145728 bytes. */
  lemma SizeBoundary(mimeType: string)
    requires mimeType in ValidTypes
    ensures MaxSize == 3145728
    ensures Rejection(File(mimeType, 3145728)) == None
    ensures Rejection(File(mimeType, 3145729)) == Some(SizeMessage)
  {
  }

  /** Exactly the three listed strings pass the type check. */
  lemma AcceptedTypes(file: File)
    requires file.size <= MaxSize
    ensures Rejection(file) == None
            <==> file.mimeType == "image/jpeg" || file.mimeType == "image/png" || file.mimeType == "image/jpg"
  {
  }

  /**
   * A rejected file after an accepted one: the message appears, while the earlier file stays
   * recorded and crop mode stays on; then "Use Full Image" hands that earlier file on.
   */
  method RejectAfterAccept(good: File, bad: File) returns (error: Option<string>, kept: Option<File>, forwarded: Option<File>)
    requires Rejection(good).None? && Rejection(bad).Some?
    ensures error == Rejection(bad) && kept == Some(good) && forwarded == Some(good)
  {
    var upload := new Upload(false);
    upload.HandleFileChange(Some([good]));
    upload.HandleFileChange(Some([bad, good]));
    error, kept := upload.fileError, upload.currentFile;
    forwarded := upload.HandleUseFullImage(true);
  }
}
