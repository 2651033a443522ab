/** The `/api/upload` route: checks an uploaded image and derives the name
    it is stored under. Reading the form, writing the file and the WebP
    conversion are outside the model; their outcomes are parameters. */
module UploadRoute {
  import opened Common

  /** The `file` form field. */
  datatype UploadFile = UploadFile(name: string, mimeType: string, size: nat)

  datatype Uploaded = Uploaded(url: string, originalName: string, size: nat)

  /** 10 MiB. */
  const MaxUploadBytes: nat := 10 * 1024 * 1024

  const MissingFile := "No file provided"
  const TooLarge := "File too large (max 10MB)"
  const NotAnImage := "Only images are allowed"

  /** The three checks, in the handler's order: presence, size, type. The
      first that fails decides the answer. */
  function Validate(file: Option<UploadFile>): (r: Response<UploadFile>)
    ensures r.Ok? || r.BadRequest?
    ensures r.Ok? <==> file.Some? && file.value.size <= MaxUploadBytes && StartsWith(file.value.mimeType, "image/")
    ensures r.Ok? ==> r.data == file.value
    ensures file.None? ==> r == BadRequest(MissingFile)
    ensures file.Some? && file.value.size > MaxUploadBytes ==> r == BadRequest(TooLarge)
    ensures file.Some? && file.value.size <= MaxUploadBytes && !StartsWith(file.value.mimeType, "image/") ==>
      r == BadRequest(NotAnImage)
  {
    match file
    case None => BadRequest(MissingFile)
    case Some(f) =>
      if f.size > MaxUploadBytes then BadRequest(TooLarge)
      else if !StartsWith(f.mimeType, "image/") then BadRequest(NotAnImage)
      else Ok(f)
  }

  /** Exactly 10 MiB is accepted; one byte more is not. */
  lemma SizeLimitIsInclusive(name: string, mimeType: string)
    requires StartsWith(mimeType, "image/")
    ensures Validate(Some(UploadFile(name, mimeType, MaxUploadBytes))).Ok?
    ensures Validate(Some(UploadFile(name, mimeType, MaxUploadBytes + 1))) == BadRequest(TooLarge)
  {
  }

  /** `name.split('.').pop() || 'jpg'`. */
  function Extension(name: string): (ext: string)
    ensures ext != "" && '.' !in ext
  {
    var pieces := Split(name, '.');
    var last := pieces[|pieces| - 1];
    assert last in pieces;
    OrDefault(last, "jpg")
  }

  /** Without a dot the whole name is the extension (or `jpg` for an empty
      name). */
  lemma ExtensionWithoutDot(name: string)
    requires '.' !in name
    ensures Extension(name) == if name == "" then "jpg" else name
  {
    SplitNoSep(name, '.');
  }

  /** With a dot, the extension is what follows the last one. */
  lemma ExtensionAfterLastDot(stem: string, ext: string)
    requires ext != "" && '.' !in ext
    ensures Extension(stem + "." + ext) == ext
  {
    SplitLastPiece(stem, ext, '.');
  }

  /** A name ending in a dot falls back to `jpg`. */
  lemma ExtensionOfTrailingDot(stem: string)
    ensures Extension(stem + ".") == "jpg"
  {
    SplitLastPiece(stem, "", '.');
    assert stem + "." + "" == stem + ".";
  }

  /** The stored file name: `<id>.webp` when the conversion succeeded,
      otherwise `<id>.<ext>` with the original bytes. */
  function StoredName(fileId: string, fileName: string, converted: bool): (n: string)
    ensures StartsWith(n, fileId + ".")
  {
    if converted then fileId + ".webp" else fileId + "." + Extension(fileName)
  }

  /** The stored name keeps the original extension unless the image was
      converted, in which case it is `webp`. */
  lemma StoredNameKeepsExtension(fileId: string, fileName: string, converted: bool)
    ensures Extension(StoredName(fileId, fileName, converted)) == if converted then "webp" else Extension(fileName)
  {
    if converted {
      assert StoredName(fileId, fileName, converted) == fileId + "." + "webp";
      ExtensionAfterLastDot(fileId, "webp");
    } else {
      ExtensionAfterLastDot(fileId, Extension(fileName));
    }
  }

  /** How the file reached the upload directory: converted to WebP, copied
      as it came after the conversion failed, or not at all (creating the
      directory, reading the bytes or writing the copy threw). */
  datatype Stored = AsWebp | AsOriginal | NotStored

  const UploadFailed := "Failed to upload file"

  /** `POST` with whether the form body could be read, the generated file id
      and the outcome of storing the file. Every exception inside the
      handler answers 500. */
  function Upload(formRead: bool, file: Option<UploadFile>, fileId: string, stored: Stored): (r: Response<Uploaded>)
    ensures !formRead ==> r == ServerError(UploadFailed)
    ensures formRead && !Validate(file).Ok? ==> r.BadRequest? && r.message == Validate(file).message
    ensures formRead && Validate(file).Ok? && stored == NotStored ==> r == ServerError(UploadFailed)
    ensures r.Ok? <==> formRead && Validate(file).Ok? && stored != NotStored
    ensures r.Ok? ==> r.data.url == "/uploads/" + StoredName(fileId, file.value.name, stored == AsWebp)
    ensures r.Ok? ==> r.data.originalName == file.value.name && r.data.size == file.value.size
  {
    if !formRead then ServerError(UploadFailed)
    else match Validate(file)
      case Ok(f) =>
        if stored == NotStored then ServerError(UploadFailed)
        else Ok(Uploaded("/uploads/" + StoredName(fileId, f.name, stored == AsWebp), f.name, f.size))
      case BadRequest(message) => BadRequest(message)
      case ServerError(message) => ServerError(message)
  }
}
