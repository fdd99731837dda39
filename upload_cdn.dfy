/**
 * The CDN upload route: after checking the request and finding the album,
 * each file is sent to the image CDN under a fresh name and recorded as a
 * Photo row. A file whose upload or insert fails is skipped; the others
 * carry on. The CDN and the id generators are outside the model: their
 * answers for each file come in as an `Attempt`.
 */
module CloudinaryUpload {
  import opened Text
  import opened Seqs
  import opened Store

  /** What the CDN returns for a stored image (its thumbnail URL included). */
  datatype CdnAsset = CdnAsset(publicId: string, secureUrl: string, thumbnailUrl: string,
                               width: int, height: int, format: string)

  /**
   * The environment's part in processing one file: the fresh uuid for its
   * name, the CDN asset (None when the upload or the insert throws), and
   * the id the database gives the new row.
   */
  datatype Attempt = Attempt(fileId: string, asset: Option<CdnAsset>, photoId: string)

  /** The upload the route asks the CDN for: a folder and a public id. */
  datatype CdnRequest = CdnRequest(folder: string, publicId: string)

  /** The text after the last '.' of the name, or "jpg" when that text is empty. */
  function CdnExtension(name: string): string {
    var last := AfterLast(name, '.');
    if last == "" then "jpg" else last
  }

  /** The extension is never empty and holds no '.'; it is the name's own last segment whenever that one is non-empty. */
  lemma CdnExtensionShape(name: string)
    ensures CdnExtension(name) != "" && '.' !in CdnExtension(name)
    ensures AfterLast(name, '.') != "" ==> CdnExtension(name) == AfterLast(name, '.')
    ensures AfterLast(name, '.') == "" ==> CdnExtension(name) == "jpg"
  {
    AfterLastShape(name, '.');
    if AfterLast(name, '.') == "" {
      assert CdnExtension(name) == "jpg";
    } else {
      assert CdnExtension(name) == AfterLast(name, '.');
    }
  }

  /** The public id: `<fileId>.<ext>` with its first '.' replaced by '_'. */
  function PublicId(fileId: string, name: string): string {
    ReplaceFirst(fileId + "." + CdnExtension(name), '.', '_')
  }

  /** For a dot-free file id (a uuid), the public id is `<fileId>_<ext>`. */
  lemma PublicIdShape(fileId: string, name: string)
    requires '.' !in fileId
    ensures PublicId(fileId, name) == fileId + "_" + CdnExtension(name)
  {
    CdnExtensionShape(name);
    ReplaceFirstJoin(fileId, '.', '_', CdnExtension(name));
    assert fileId + "." + CdnExtension(name) == fileId + ['.'] + CdnExtension(name);
    assert fileId + "_" + CdnExtension(name) == fileId + ['_'] + CdnExtension(name);
  }

  /** A name ending in '.' gets the default extension; one without any '.' is its own extension. */
  lemma CdnExtensionEdgeCases()
    ensures CdnExtension("photo.") == "jpg"
    ensures CdnExtension("IMG_0001") == "IMG_0001"
    ensures CdnExtension("casamento.final.JPG") == "JPG"
  {
    AfterLastJoin("photo", '.', "");
    AfterLastNoSep("IMG_0001", '.');
    AfterLastJoin("casamento.final", '.', "JPG");
    assert "photo." == "photo" + ['.'] + "";
    assert "casamento.final.JPG" == "casamento.final" + ['.'] + "JPG";
  }

  function AlbumFolder(code: string): string { "albums/" + code }

  /** The CDN upload issued for one file of the album. */
  function RequestFor(album: Album, f: UploadedFile, a: Attempt): CdnRequest {
    CdnRequest(AlbumFolder(album.code), PublicId(a.fileId, f.name))
  }

  /** The uploads issued for the first `n` files, failed ones included. */
  function Requests(album: Album, files: seq<UploadedFile>, attempts: seq<Attempt>, n: nat): seq<CdnRequest>
    requires n <= |files| == |attempts|
    decreases n
  {
    if n == 0 then [] else Requests(album, files, attempts, n - 1) + [RequestFor(album, files[n - 1], attempts[n - 1])]
  }

  /** One upload per file, in input order, each under the album's folder with that file's public id. */
  lemma {:induction false} RequestsPerFile(album: Album, files: seq<UploadedFile>, attempts: seq<Attempt>, n: nat)
    requires n <= |files| == |attempts|
    ensures |Requests(album, files, attempts, n)| == n
    ensures forall i :: 0 <= i < n ==> Requests(album, files, attempts, n)[i] == RequestFor(album, files[i], attempts[i])
    decreases n
  {
    if n > 0 {
      RequestsPerFile(album, files, attempts, n - 1);
    }
  }

  /** The row inserted for the file at zero-based position `i` whose upload succeeded. */
  function PhotoRow(album: Album, f: UploadedFile, a: Attempt, i: nat): Photo
    requires a.asset.Some?
  {
    var asset := a.asset.value;
    Photo(
      id := a.photoId,
      filename := f.name,
      cloudinaryId := asset.publicId,
      url := asset.secureUrl,
      thumbnailUrl := asset.thumbnailUrl,
      size := f.size,
      width := asset.width,
      height := asset.height,
      format := asset.format,
      albumId := album.id,
      order := i + 1,
      isPreview := i < album.previewCount)
  }

  /** `p` is the row of a successful file among the first `n`, numbered by that file's position. */
  predicate RowOfSuccess(album: Album, files: seq<UploadedFile>, attempts: seq<Attempt>, n: nat, p: Photo) {
    && n <= |files| == |attempts|
    && 1 <= p.order <= n
    && attempts[p.order - 1].asset.Some?
    && p == PhotoRow(album, files[p.order - 1], attempts[p.order - 1], p.order - 1)
  }

  /** Some row of `rows` carries the order `o`. */
  predicate HasOrder(rows: seq<Photo>, o: int) {
    exists k :: 0 <= k < |rows| && rows[k].order == o
  }

  /** The rows stored for the first `n` files: one per successful upload, in input order. */
  function Ingested(album: Album, files: seq<UploadedFile>, attempts: seq<Attempt>, n: nat): seq<Photo>
    requires n <= |files| == |attempts|
    decreases n
  {
    if n == 0 then []
    else
      var prev := Ingested(album, files, attempts, n - 1);
      if attempts[n - 1].asset.Some? then prev + [PhotoRow(album, files[n - 1], attempts[n - 1], n - 1)]
      else prev
  }

  /**
   * Every stored row comes from a file whose upload succeeded and is
   * numbered by that file's position, so it is previewed exactly when the
   * position is below the album's preview count.
   */
  lemma {:induction false} IngestedRows(album: Album, files: seq<UploadedFile>, attempts: seq<Attempt>, n: nat)
    requires n <= |files| == |attempts|
    ensures |Ingested(album, files, attempts, n)| <= n
    ensures forall p :: p in Ingested(album, files, attempts, n) ==> RowOfSuccess(album, files, attempts, n, p)
    decreases n
  {
    if n > 0 {
      IngestedRows(album, files, attempts, n - 1);
      var prev := Ingested(album, files, attempts, n - 1);
      forall p | p in prev ensures RowOfSuccess(album, files, attempts, n, p) {
        assert RowOfSuccess(album, files, attempts, n - 1, p);
      }
    }
  }

  /** Rows keep the input order: their numbers strictly increase. */
  lemma {:induction false} IngestedOrdered(album: Album, files: seq<UploadedFile>, attempts: seq<Attempt>, n: nat)
    requires n <= |files| == |attempts|
    ensures var r := Ingested(album, files, attempts, n);
      forall k, l :: 0 <= k < l < |r| ==> r[k].order < r[l].order
    decreases n
  {
    if n > 0 {
      IngestedOrdered(album, files, attempts, n - 1);
      IngestedRows(album, files, attempts, n - 1);
      var prev := Ingested(album, files, attempts, n - 1);
      forall k | 0 <= k < |prev| ensures prev[k].order <= n - 1 {
        assert RowOfSuccess(album, files, attempts, n - 1, prev[k]);
      }
    }
  }

  /** Every file whose upload succeeded has its row. */
  lemma {:induction false} IngestedComplete(album: Album, files: seq<UploadedFile>, attempts: seq<Attempt>, n: nat)
    requires n <= |files| == |attempts|
    ensures forall i :: 0 <= i < n && attempts[i].asset.Some? ==> HasOrder(Ingested(album, files, attempts, n), i + 1)
    decreases n
  {
    if n > 0 {
      IngestedComplete(album, files, attempts, n - 1);
      var prev := Ingested(album, files, attempts, n - 1);
      var r := Ingested(album, files, attempts, n);
      forall i | 0 <= i < n && attempts[i].asset.Some? ensures HasOrder(r, i + 1) {
        if i < n - 1 {
          assert HasOrder(prev, i + 1);
          var k :| 0 <= k < |prev| && prev[k].order == i + 1;
          assert r[k] == prev[k];
        } else {
          assert r[|prev|].order == i + 1;
        }
      }
    }
  }

  /**
   * The per-file loop: it adds every file's size to the total (failed ones
   * included), asks the CDN to store each file under `albums/<code>` with
   * its public id, and keeps the row of every file that went through.
   */
  method IngestFiles(album: Album, files: seq<UploadedFile>, attempts: seq<Attempt>)
    returns (rows: seq<Photo>, requests: seq<CdnRequest>, totalSize: int)
    requires |attempts| == |files|
    ensures rows == Ingested(album, files, attempts, |files|)
    ensures requests == Requests(album, files, attempts, |files|)
    ensures totalSize == SumBy(files, FileSize)
  {
    rows, requests, totalSize := [], [], 0;
    for i := 0 to |files|
      invariant rows == Ingested(album, files, attempts, i)
      invariant requests == Requests(album, files, attempts, i)
      invariant totalSize == SumBy(files[..i], FileSize)
    {
      SumByPrefixStep(files, FileSize, i);
      totalSize := totalSize + files[i].size;
      requests := requests + [RequestFor(album, files[i], attempts[i])];
      if attempts[i].asset.Some? {
        rows := rows + [PhotoRow(album, files[i], attempts[i], i)];
      }
    }
    assert files[..|files|] == files;
  }

  /** When every upload succeeds, the file at position i becomes row i, numbered i+1. */
  lemma {:induction false} AllSucceeded(album: Album, files: seq<UploadedFile>, attempts: seq<Attempt>, n: nat)
    requires n <= |files| == |attempts|
    requires forall i :: 0 <= i < |attempts| ==> attempts[i].asset.Some?
    ensures |Ingested(album, files, attempts, n)| == n
    ensures forall i :: 0 <= i < n ==> Ingested(album, files, attempts, n)[i].order == i + 1
    decreases n
  {
    if n > 0 {
      AllSucceeded(album, files, attempts, n - 1);
    }
  }

  /** Preview flags for an album previewing two photos, with three successful uploads. */
  lemma PreviewOfFirstTwo(album: Album, files: seq<UploadedFile>, attempts: seq<Attempt>)
    requires album.previewCount == 2 && |files| == |attempts| == 3
    requires forall i :: 0 <= i < 3 ==> attempts[i].asset.Some?
    ensures var r := Ingested(album, files, attempts, 3);
      |r| == 3 && r[0].isPreview && r[1].isPreview && !r[2].isPreview
  {
    AllSucceeded(album, files, attempts, 3);
  }

  /** A failed file's position never appears among the stored orders. */
  lemma FailedFileLeavesGap(album: Album, files: seq<UploadedFile>, attempts: seq<Attempt>, j: nat)
    requires |files| == |attempts| && j < |files| && attempts[j].asset.None?
    ensures forall p :: p in Ingested(album, files, attempts, |files|) ==> p.order != j + 1
  {
    IngestedRows(album, files, attempts, |files|);
  }

  datatype CdnUploadSummary = CdnUploadSummary(photos: seq<Photo>, totalSize: int, albumCode: string)

  /**
   * POST: 400 for an empty file list, then 400 without an album id, then
   * 404 for an unknown album, all before any file is touched; otherwise
   * the per-file loop, whose rows are added to the photo table, and a
   * success however many of the files fail.
   */
  method UploadToCdn(db: Database, files: seq<UploadedFile>, albumId: Option<string>, attempts: seq<Attempt>)
    returns (r: Reply<CdnUploadSummary>, requests: seq<CdnRequest>)
    requires db.Valid()
    requires |attempts| == |files|
    modifies db
    ensures db.Valid()
    ensures files == [] ==> r == Err(NoFiles)
    ensures files != [] && !Given(albumId) ==> r == Err(MissingAlbumId)
    ensures files != [] && Given(albumId) && !HasAlbumId(old(db.albums), albumId.value) ==> r == Err(AlbumNotFound)
    ensures files != [] && Given(albumId) && HasAlbumId(old(db.albums), albumId.value) ==> r.Ok?
    ensures r.Err? ==> requests == [] && db.photos == old(db.photos)
    ensures r.Ok? ==>
      && files != [] && Given(albumId) && HasAlbumId(old(db.albums), albumId.value)
      && var album := old(db.albums)[IndexOfAlbumId(old(db.albums), albumId.value).value];
      && r.value.photos == Ingested(album, files, attempts, |files|)
      && r.value.totalSize == SumBy(files, FileSize)
      && r.value.albumCode == album.code
      && requests == Requests(album, files, attempts, |files|)
      && db.photos == old(db.photos) + r.value.photos
    ensures db.albums == old(db.albums) && db.clients == old(db.clients)
  {
    requests := [];
    if files == [] {
      return Err(NoFiles), requests;
    }
    if !Given(albumId) {
      return Err(MissingAlbumId), requests;
    }
    var found := IndexOfAlbumId(db.albums, albumId.value);
    if found.None? {
      return Err(AlbumNotFound), requests;
    }
    var album := db.albums[found.value];
    var rows, totalSize;
    rows, requests, totalSize := IngestFiles(album, files, attempts);
    db.photos := db.photos + rows;
    r := Ok(CdnUploadSummary(rows, totalSize, album.code));
  }
}
