/** `validateImageFile` of lib/image-upload.ts: the client-side check of a chosen
    file, first its MIME type and then its size. */
module ImageValidation {
  import opened Common
  import opened Strings

  /** The parts of a `File` the checks read; `size` is in bytes. */
  datatype FileInfo = FileInfo(name: string, mimeType: string, size: int)

  /** Five mebibytes. */
  const MaxImageBytes: int := 5 * 1024 * 1024

  const NotAnImage: string := "Please select an image file"
  const TooLarge: string := "Image size must be less than 5MB"

  predicate IsImageType(t: string) {
    StartsWith(t, "image/")
  }

  /** `validateImageFile`: the message for a rejected file, None for an accepted one. */
  function ValidateImageFile(f: FileInfo): Option<string> {
    if !IsImageType(f.mimeType) then Some(NotAnImage)
    else if f.size > MaxImageBytes then Some(TooLarge)
    else None
  }

  /** A file is accepted exactly when it is an image of at most 5 MiB; a non-image
      gets the type message whatever its size, and only an image can get the
      size message. */
  lemma ValidateImageFileCorrect(f: FileInfo)
    ensures ValidateImageFile(f).None? <==> IsImageType(f.mimeType) && f.size <= MaxImageBytes
    ensures !IsImageType(f.mimeType) ==> ValidateImageFile(f) == Some(NotAnImage)
    ensures ValidateImageFile(f) == Some(TooLarge) <==> IsImageType(f.mimeType) && f.size > MaxImageBytes
    ensures MaxImageBytes == 5242880
  {
  }
}
