/**
 * The local-disk upload route: after checking the request, each file is
 * written under `public/uploads/albums/<albumId>/` with a fresh name, and
 * the reply lists one entry per file. There is no per-file recovery: a
 * failed write aborts the whole request with 500. The disk and the uuid
 * generator are outside the model: their answers come in as a `Slot` per
 * file.
 */
module LocalUpload {
  import opened Text
  import opened Seqs
  import opened Store

  /** One entry of the reply. */
  datatype LocalEntry = LocalEntry(id: string, name: string, url: string, originalName: string, size: nat)

  /**
   * The environment's part in saving one file: the uuid in its stored
   * name, the uuid of its reply entry, and whether the write succeeded.
   */
  datatype Slot = Slot(storedId: string, entryId: string, written: bool)

  datatype LocalUploadSummary = LocalUploadSummary(photos: seq<LocalEntry>, totalSize: int)

  /** The public URL of a stored file: `/uploads/albums/<albumId>/<uuid>.<ext>`, with no default extension. */
  function LocalUrl(albumId: string, storedId: string, name: string): string {
    "/uploads/albums/" + albumId + "/" + storedId + "." + AfterLast(name, '.')
  }

  /** The stored file keeps the extension of the uploaded one. */
  lemma LocalUrlKeepsExtension(albumId: string, storedId: string, name: string)
    ensures AfterLast(LocalUrl(albumId, storedId, name), '.') == AfterLast(name, '.')
  {
    AfterLastShape(name, '.');
    var prefix := "/uploads/albums/" + albumId + "/" + storedId;
    assert LocalUrl(albumId, storedId, name) == prefix + ['.'] + AfterLast(name, '.');
    AfterLastJoin(prefix, '.', AfterLast(name, '.'));
  }

  /** A name without any '.' becomes the whole "extension". */
  lemma LocalUrlWithoutDot(albumId: string, storedId: string)
    ensures LocalUrl(albumId, storedId, "foto") == "/uploads/albums/" + albumId + "/" + storedId + ".foto"
  {
    AfterLastNoSep("foto", '.');
  }

  function EntryFor(albumId: string, f: UploadedFile, slot: Slot): LocalEntry {
    LocalEntry(slot.entryId, f.name, LocalUrl(albumId, slot.storedId, f.name), f.name, f.size)
  }

  /** The entries for the first `n` files, one per file in input order. */
  function Entries(albumId: string, files: seq<UploadedFile>, slots: seq<Slot>, n: nat): seq<LocalEntry>
    requires n <= |files| == |slots|
    decreases n
  {
    if n == 0 then [] else Entries(albumId, files, slots, n - 1) + [EntryFor(albumId, files[n - 1], slots[n - 1])]
  }

  /**
   * Entry i belongs to file i: both its name and its original name are
   * the file's name, its size is the file's size, and its URL is under
   * the album's folder.
   */
  lemma {:induction false} EntriesPerFile(albumId: string, files: seq<UploadedFile>, slots: seq<Slot>, n: nat)
    requires n <= |files| == |slots|
    ensures |Entries(albumId, files, slots, n)| == n
    ensures forall i :: 0 <= i < n ==>
      var e := Entries(albumId, files, slots, n)[i];
      && e.name == files[i].name && e.originalName == files[i].name && e.size == files[i].size
      && e.id == slots[i].entryId && e.url == LocalUrl(albumId, slots[i].storedId, files[i].name)
    decreases n
  {
    if n > 0 {
      EntriesPerFile(albumId, files, slots, n - 1);
    }
  }

  /** Every write among the first `n` succeeded. */
  predicate AllWritten(slots: seq<Slot>, n: nat)
    requires n <= |slots|
  {
    forall i :: 0 <= i < n ==> slots[i].written
  }

  /**
   * POST: 400 for an empty file list, then 400 without an album id; then
   * the loop, which stops at the first failed write with 500. On success
   * there is one entry per file and the total is the sum of the sizes.
   */
  method SaveLocally(files: seq<UploadedFile>, albumId: Option<string>, slots: seq<Slot>) returns (r: Reply<LocalUploadSummary>)
    requires |slots| == |files|
    ensures files == [] ==> r == Err(NoFiles)
    ensures files != [] && !Given(albumId) ==> r == Err(MissingAlbumId)
    ensures files != [] && Given(albumId) ==> (r.Ok? <==> AllWritten(slots, |slots|))
    ensures files != [] && Given(albumId) && r.Err? ==> r.error == Internal
    ensures r.Ok? ==>
      && r.value.photos == Entries(albumId.value, files, slots, |files|)
      && r.value.totalSize == SumBy(files, FileSize)
  {
    if files == [] {
      return Err(NoFiles);
    }
    if !Given(albumId) {
      return Err(MissingAlbumId);
    }
    var id := albumId.value;
    var photos: seq<LocalEntry> := [];
    var totalSize := 0;
    for i := 0 to |files|
      invariant AllWritten(slots, i)
      invariant photos == Entries(id, files, slots, i)
      invariant totalSize == SumBy(files[..i], FileSize)
    {
      SumByPrefixStep(files, FileSize, i);
      totalSize := totalSize + files[i].size;
      if !slots[i].written {
        return Err(Internal);
      }
      photos := photos + [EntryFor(id, files[i], slots[i])];
    }
    assert files[..|files|] == files;
    r := Ok(LocalUploadSummary(photos, totalSize));
  }
}
