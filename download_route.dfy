/**
 * The download route: it reads a stored photo and returns it as an
 * attachment, choosing the Content-Type from the path's extension through
 * a fixed table. The file read is outside the model: its outcome comes in
 * as a parameter.
 */
module DownloadRoute {
  import opened Text
  import opened Store

  const OctetStream := "application/octet-stream"

  /** The extension table of `getContentType`. */
  const ContentTypes: map<string, string> := map[
    "jpg" := "image/jpeg",
    "jpeg" := "image/jpeg",
    "png" := "image/png",
    "gif" := "image/gif",
    "webp" := "image/webp",
    "bmp" := "image/bmp",
    "tiff" := "image/tiff"]

  /** The table's entry for the extension, or the generic binary type. */
  function ContentType(ext: string): (t: string)
    ensures ext in ContentTypes <==> t != OctetStream
    ensures ext in ContentTypes ==> t == ContentTypes[ext] && t[..6] == "image/"
  {
    if ext in ContentTypes then ContentTypes[ext] else OctetStream
  }

  /** The extension that selects the type: the lower-cased text after the path's last '.'. */
  function PathExtension(path: string): string {
    ToLower(AfterLast(path, '.'))
  }

  /** Both spellings of JPEG give image/jpeg, the others their own image type, anything else binary. */
  lemma ContentTypeTable()
    ensures ContentType("jpg") == ContentType("jpeg") == "image/jpeg"
    ensures ContentType("png") == "image/png" && ContentType("gif") == "image/gif"
    ensures ContentType("webp") == "image/webp" && ContentType("bmp") == "image/bmp"
    ensures ContentType("tiff") == "image/tiff"
    ensures ContentType("tif") == OctetStream && ContentType("cr2") == OctetStream && ContentType("") == OctetStream
  {
  }

  /**
   * Only the segment after the last '.' decides the type, and it is
   * compared after lower-casing: whatever precedes it does not matter.
   */
  lemma TypeOfJoinedPath(prefix: string, ext: string)
    requires '.' !in ext
    ensures ContentType(PathExtension(prefix + "." + ext)) == ContentType(ToLower(ext))
  {
    PathExtensionOfJoin(prefix, ext);
  }

  /** The extension of a joined path is the lower-cased last segment. */
  lemma PathExtensionOfJoin(prefix: string, ext: string)
    requires '.' !in ext
    ensures PathExtension(prefix + "." + ext) == ToLower(ext)
  {
    assert prefix + "." + ext == prefix + ['.'] + ext;
    AfterLastJoin(prefix, '.', ext);
  }

  /** Sample paths: an upper-case extension, a path with several dots, and one with no dot at all. */
  lemma PathExtensionExamples()
    ensures PathExtension("/uploads/albums/a1/foto.JPG") == "jpg"
    ensures PathExtension("casamento.2024.tif") == "tif"
    ensures PathExtension("semextensao") == "semextensao"
  {
    UpperCaseExtension();
    var tif := "tif";
    assert '.' !in tif;
    PathExtensionOfJoin("casamento.2024", tif);
    assert "casamento.2024" + "." + tif == "casamento.2024.tif";
    ToLowerOf(tif, tif);
    NoDot();
  }

  /** The extension is lowered: `JPG` selects the same type as `jpg`. */
  lemma UpperCaseExtension()
    ensures PathExtension("/uploads/albums/a1/foto.JPG") == "jpg"
  {
    var ext := "JPG";
    assert '.' !in ext;
    PathExtensionOfJoin("/uploads/albums/a1/foto", ext);
    assert "/uploads/albums/a1/foto" + "." + ext == "/uploads/albums/a1/foto.JPG";
    ToLowerOf(ext, "jpg");
  }

  /** Without a dot, `split('.').pop()` is the whole path. */
  lemma NoDot()
    ensures PathExtension("semextensao") == "semextensao"
  {
    var path := "semextensao";
    assert '.' !in path;
    AfterLastNoSep(path, '.');
    ToLowerOf(path, path);
  }

  /** `attachment; filename="<name>"`, with `photo` when no name is given. */
  function Disposition(name: Option<string>): (d: string)
    ensures Given(name) ==> d == "attachment; filename=\"" + name.value + "\""
    ensures !Given(name) ==> d == "attachment; filename=\"photo\""
  {
    "attachment; filename=\"" + (if Given(name) then name.value else "photo") + "\""
  }

  const CacheControl := "public, max-age=31536000"

  datatype Download = Download(body: seq<bv8>, contentType: string, disposition: string, cacheControl: string)

  /**
   * GET: 400 without a path, before anything is read; 404 when the read
   * fails; otherwise the file's bytes with the headers above.
   */
  function DownloadPhoto(path: Option<string>, name: Option<string>, read: Option<seq<bv8>>): (r: Reply<Download>)
    ensures !Given(path) <==> r == Err(MissingPath)
    ensures Given(path) && read.None? <==> r == Err(FileNotFound)
    ensures r.Ok? <==> Given(path) && read.Some?
    ensures r.Ok? ==>
      && r.value.body == read.value
      && r.value.contentType == ContentType(PathExtension(path.value))
      && r.value.disposition == Disposition(name)
      && r.value.cacheControl == CacheControl
  {
    if !Given(path) then Err(MissingPath)
    else match read
      case None => Err(FileNotFound)
      case Some(bytes) => Ok(Download(bytes, ContentType(PathExtension(path.value)), Disposition(name), CacheControl))
  }
}
