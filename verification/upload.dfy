/**
 * The validation decision of the image-upload route: which files are
 * refused with 400, and the URL returned with 201 for the others.
 */
module Upload {
  import opened Base

  /** The form field `file`: its name, MIME type and size in bytes. */
  datatype UploadedFile = UploadedFile(name: string, mimeType: string, size: nat)

  const AllowedTypes: seq<string> := ["image/jpeg", "image/png", "image/gif", "image/webp"]

  /** 5 MiB; a file of exactly this size is accepted. */
  const MaxUploadSize: nat := 5 * 1024 * 1024

  const UploadsUrl: string := "http://localhost:3000/uploads/"

  const NoFileError: string := "No file uploaded"
  const InvalidTypeError: string := "Invalid file type"
  const TooLargeError: string := "File size exceeds 5mb limit"
  const UploadFailedError: string := "Failed to upload file"

  /** The file passes the three checks of the route. */
  predicate Acceptable(file: Option<UploadedFile>)
  {
    file.Some? && file.value.mimeType in AllowedTypes && file.value.size <= MaxUploadSize
  }

  /**
   * The route's answer. `freshId` is the value `nanoid()` yields; `written`
   * says whether creating the directory and writing the file succeeded.
   */
  function UploadImage(file: Option<UploadedFile>, freshId: string, written: bool): (r: Reply<string>)
    ensures r.status == 400 <==> !Acceptable(file)
    ensures r.Ok? <==> Acceptable(file) && written
    ensures r.Ok? ==> r.status == 201 && r.value == UploadsUrl + freshId + "-" + file.value.name
    ensures r.Error? && r.status != 400 ==> r == Error(500, UploadFailedError)
    ensures file.None? ==> r == Error(400, NoFileError)
    ensures file.Some? && file.value.mimeType !in AllowedTypes ==> r == Error(400, InvalidTypeError)
    ensures file.Some? && file.value.mimeType in AllowedTypes && file.value.size > MaxUploadSize ==>
              r == Error(400, TooLargeError)
  {
    if file.None? then Error(400, NoFileError)
    else if file.value.mimeType !in AllowedTypes then Error(400, InvalidTypeError)
    else if file.value.size > MaxUploadSize then Error(400, TooLargeError)
    else if !written then Error(500, UploadFailedError)
    else Ok(201, UploadsUrl + freshId + "-" + file.value.name)
  }

  /** The size limit is inclusive: 5 MiB passes, one byte more is refused with its own message. */
  lemma SizeLimitInclusive(name: string, mimeType: string, freshId: string)
    requires mimeType in AllowedTypes
    ensures UploadImage(Some(UploadedFile(name, mimeType, MaxUploadSize)), freshId, true).status == 201
    ensures UploadImage(Some(UploadedFile(name, mimeType, MaxUploadSize + 1)), freshId, true)
            == Error(400, TooLargeError)
  {
  }

  /** An accepted upload's URL ends with `<id>-<name>`, so two uploads with distinct ids get distinct URLs. */
  lemma UrlEndsWithIdAndName(file: Option<UploadedFile>, id1: string, id2: string)
    requires Acceptable(file)
    requires id1 != id2
    ensures var u := UploadImage(file, id1, true).value;
            u[|u| - |file.value.name| - 1 - |id1|..] == id1 + "-" + file.value.name
    ensures UploadImage(file, id1, true).value != UploadImage(file, id2, true).value
  {
    var u1, u2 := UploadImage(file, id1, true).value, UploadImage(file, id2, true).value;
    assert u1[|UploadsUrl|..|UploadsUrl| + |id1|] == id1;
    assert u2[|UploadsUrl|..|UploadsUrl| + |id2|] == id2;
  }
}
