/**
 * The album record the photographer's panel and the client's dashboard
 * keep in page state, and the counters both of them show.
 */
module AlbumViews {
  import opened Text
  import opened Seqs
  import opened Customization

  /** A photo as an upload reply describes it. */
  datatype UiPhoto = UiPhoto(id: string, name: string, url: string)

  /** An album as the pages hold it; the price is in cents. */
  datatype UiAlbum = UiAlbum(
    id: int,
    code: string,
    title: string,
    clientName: string,
    clientEmail: string,
    password: Option<string>,
    totalPhotos: int,
    previewPhotos: int,
    isPaid: bool,
    createdAt: string,
    priceCents: int,
    photos: seq<UiPhoto>,
    customization: Option<Settings>)

  predicate IsPaidAlbum(a: UiAlbum) { a.isPaid }

  predicate IsPendingAlbum(a: UiAlbum) { !a.isPaid }

  function PriceOf(a: UiAlbum): int { a.priceCents }

  function PhotoCountOf(a: UiAlbum): int { a.totalPhotos }

  /** `albums.filter(a => a.isPaid).length`. */
  function PaidCount(albums: seq<UiAlbum>): nat {
    |Filter(albums, IsPaidAlbum)|
  }

  /** `albums.filter(a => !a.isPaid).length`. */
  function PendingCount(albums: seq<UiAlbum>): nat {
    |Filter(albums, IsPendingAlbum)|
  }

  /** Every album is counted once: either as paid or as pending. */
  lemma PaidPendingPartition(albums: seq<UiAlbum>)
    ensures PaidCount(albums) + PendingCount(albums) == |albums|
  {
    FilterPartition(albums, IsPaidAlbum, IsPendingAlbum);
  }

  /** The paid count by recursion over the list, independent of the filter. */
  function CountPaid(albums: seq<UiAlbum>): nat
    decreases |albums|
  {
    if albums == [] then 0 else (if albums[0].isPaid then 1 else 0) + CountPaid(albums[1..])
  }

  /** The filtered count agrees with the direct count. */
  lemma {:induction false} PaidCountDirect(albums: seq<UiAlbum>)
    ensures PaidCount(albums) == CountPaid(albums)
    decreases |albums|
  {
    if albums != [] {
      PaidCountDirect(albums[1..]);
      assert Filter(albums, IsPaidAlbum) == (if albums[0].isPaid then [albums[0]] else []) + Filter(albums[1..], IsPaidAlbum);
    }
  }

  /** The counters of a three-album list whose middle album alone is pending, and a sum over it. */
  lemma CountsOfThree(shown: seq<UiAlbum>, f: UiAlbum -> int)
    requires |shown| == 3 && shown[0].isPaid && !shown[1].isPaid && shown[2].isPaid
    ensures PaidCount(shown) == 2 && PendingCount(shown) == 1
    ensures SumBy(shown, f) == f(shown[0]) + f(shown[1]) + f(shown[2])
  {
    var t1 := shown[1..];
    var t2 := t1[1..];
    assert t2[1..] == [];
    assert CountPaid(t2) == 1;
    assert CountPaid(t1) == 1;
    PaidCountDirect(shown);
    PaidPendingPartition(shown);
    assert SumBy(t2, f) == f(shown[2]);
  }
}
