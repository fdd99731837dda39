/**
 * The album API route: GET (one album by code, or a filtered list), POST
 * (create) and PUT (partial update), over the Store tables.
 */
module AlbumsRoute {
  import opened Text
  import opened Seqs
  import opened Store

  /** Default preview count and price (in cents) when the request leaves them out. */
  const DefaultPreviewCount := 5
  const DefaultPriceCents := 29999

  // ---------------------------------------------------------------- GET

  /** The query string: each parameter is absent, empty or a value. */
  datatype AlbumQuery = AlbumQuery(photographerId: Option<string>, clientId: Option<string>, code: Option<string>)

  /** An album with its photos included. */
  datatype AlbumWithPhotos = AlbumWithPhotos(album: Album, photos: seq<Photo>)

  datatype Listing = One(entry: AlbumWithPhotos) | Many(entries: seq<AlbumWithPhotos>)

  function PhotoOrder(p: Photo): int { p.order }

  /** Newest first: sorting ascending by the negated creation time. */
  function Recency(a: Album): int { -a.createdAt }

  /** `ps` holds exactly the photos of album `id` from the table, by ascending order. */
  ghost predicate PhotosOfAlbum(ps: seq<Photo>, photos: seq<Photo>, id: string) {
    && SortedBy(ps, PhotoOrder)
    && (forall p :: p in ps <==> p in photos && p.albumId == id)
    && forall p :: multiset(ps)[p] == if p.albumId == id then multiset(photos)[p] else 0
  }

  /** `include: { photos: { orderBy: { order: 'asc' } } }`: the album's own photos, by ascending order. */
  function WithPhotos(a: Album, photos: seq<Photo>): (r: AlbumWithPhotos)
    ensures r.album == a
    ensures PhotosOfAlbum(r.photos, photos, a.id)
  {
    var mine := (p: Photo) => p.albumId == a.id;
    FilterMembers(photos, mine);
    FilterCount(photos, mine);
    SortByMembers(Filter(photos, mine), PhotoOrder);
    AlbumWithPhotos(a, SortBy(Filter(photos, mine), PhotoOrder))
  }

  /** The `where` clause of the list query: every given filter must match. */
  predicate Matches(a: Album, q: AlbumQuery) {
    && (Given(q.photographerId) ==> a.photographerId == q.photographerId.value)
    && (Given(q.clientId) ==> a.clientId == q.clientId.value)
  }

  /** The list query: the matching albums, newest first. */
  function MatchingNewestFirst(albums: seq<Album>, q: AlbumQuery): (r: seq<Album>)
    ensures forall a :: a in r <==> a in albums && Matches(a, q)
    ensures forall i, j :: 0 <= i < j < |r| ==> r[i].createdAt >= r[j].createdAt
    ensures forall a :: multiset(r)[a] == if Matches(a, q) then multiset(albums)[a] else 0
  {
    var matches := (a: Album) => Matches(a, q);
    FilterMembers(albums, matches);
    FilterCount(albums, matches);
    SortByMembers(Filter(albums, matches), Recency);
    NewestFirst(SortBy(Filter(albums, matches), Recency));
    SortBy(Filter(albums, matches), Recency)
  }

  /** Ascending by Recency is descending by creation time. */
  lemma NewestFirst(r: seq<Album>)
    requires SortedBy(r, Recency)
    ensures forall i, j :: 0 <= i < j < |r| ==> r[i].createdAt >= r[j].createdAt
  {
    forall i, j | 0 <= i < j < |r| ensures r[i].createdAt >= r[j].createdAt {
      assert Recency(r[i]) <= Recency(r[j]);
    }
  }

  /** The albums of a listing, in listing order. */
  function AlbumsOf(es: seq<AlbumWithPhotos>): (r: seq<Album>)
    ensures |r| == |es|
    ensures forall i :: 0 <= i < |es| ==> r[i] == es[i].album
    decreases |es|
  {
    if es == [] then [] else [es[0].album] + AlbumsOf(es[1..])
  }

  /** Each album of `ordered`, in that order, with its photos attached. */
  function AttachPhotos(ordered: seq<Album>, photos: seq<Photo>): (es: seq<AlbumWithPhotos>)
    ensures AlbumsOf(es) == ordered
    ensures forall i :: 0 <= i < |es| ==> es[i] == WithPhotos(es[i].album, photos)
  {
    var es := seq(|ordered|, i requires 0 <= i < |ordered| => WithPhotos(ordered[i], photos));
    assert forall i :: 0 <= i < |es| ==> es[i].album == ordered[i];
    es
  }

  /** The list branch of GET: each matching album with its photos, newest first. */
  function ListAlbums(albums: seq<Album>, photos: seq<Photo>, q: AlbumQuery): (es: seq<AlbumWithPhotos>)
    ensures forall a :: a in AlbumsOf(es) <==> a in albums && Matches(a, q)
    ensures forall i, j :: 0 <= i < j < |es| ==> AlbumsOf(es)[i].createdAt >= AlbumsOf(es)[j].createdAt
    ensures forall i :: 0 <= i < |es| ==> es[i] == WithPhotos(es[i].album, photos)
    ensures AlbumsOf(es) == MatchingNewestFirst(albums, q)
  {
    AttachPhotos(MatchingNewestFirst(albums, q), photos)
  }

  /**
   * GET. With a code: an exact lookup on the code as given (it is not
   * upper-cased), 404 on a miss. Without one: the list branch.
   */
  function GetAlbums(albums: seq<Album>, photos: seq<Photo>, q: AlbumQuery): (r: Reply<Listing>)
    ensures Given(q.code) ==> (r.Ok? <==> HasCode(albums, q.code.value))
    ensures Given(q.code) && r.Err? ==> r.error == AlbumNotFound
    ensures Given(q.code) && r.Ok? ==>
      && r.value.One?
      && r.value.entry.album in albums
      && r.value.entry.album.code == q.code.value
      && r.value.entry == WithPhotos(r.value.entry.album, photos)
    ensures !Given(q.code) ==> r == Ok(Many(ListAlbums(albums, photos, q)))
  {
    if Given(q.code) then
      match FindByCode(albums, q.code.value)
      case None => Err(AlbumNotFound)
      case Some(a) => Ok(One(WithPhotos(a, photos)))
    else
      Ok(Many(ListAlbums(albums, photos, q)))
  }

  /**
   * Album codes are stored upper-cased, and GET compares the code exactly:
   * a code with a lower-case letter never finds an album.
   */
  lemma LowerCaseCodeMisses(db: Database, photos: seq<Photo>, code: string, k: nat)
    requires db.Valid()
    requires k < |code| && IsLowerLetter(code[k])
    ensures GetAlbums(db.albums, photos, AlbumQuery(None, None, Some(code))) == Err(AlbumNotFound)
  {
  }

  // ---------------------------------------------------------------- POST

  datatype CreateAlbumRequest = CreateAlbumRequest(
    code: Option<string>,
    title: Option<string>,
    description: Option<string>,
    password: Option<string>,
    clientId: Option<string>,
    photographerId: Option<string>,
    previewCount: Option<int>,
    priceCents: Option<int>)

  predicate RequiredGiven(req: CreateAlbumRequest) {
    Given(req.code) && Given(req.title) && Given(req.password) && Given(req.clientId) && Given(req.photographerId)
  }

  /**
   * The decision POST takes: the checks in the order the route makes them
   * (required fields, then the upper-cased code, then the client), and on
   * success the row it inserts.
   */
  function CreateAlbumOutcome(albums: seq<Album>, clients: seq<Client>, req: CreateAlbumRequest, freshId: string, now: int): (r: Reply<Album>)
    ensures !RequiredGiven(req) ==> r == Err(MissingFields)
    ensures RequiredGiven(req) && HasCode(albums, ToUpper(req.code.value)) ==> r == Err(DuplicateCode)
    ensures RequiredGiven(req) && !HasCode(albums, ToUpper(req.code.value)) && !HasClientId(clients, req.clientId.value)
      ==> r == Err(ClientNotFound)
    ensures r.Ok? <==>
      RequiredGiven(req) && !HasCode(albums, ToUpper(req.code.value)) && HasClientId(clients, req.clientId.value)
    ensures r.Ok? ==>
      var a := r.value;
      && a.code == ToUpper(req.code.value) && AllUpper(a.code) && !HasCode(albums, a.code)
      && a.id == freshId && a.createdAt == now
      && a.title == req.title.value && a.description == req.description && a.password == req.password.value
      && a.clientId == req.clientId.value && a.photographerId == req.photographerId.value
      && a.previewCount == req.previewCount.GetOr(DefaultPreviewCount)
      && a.priceCents == req.priceCents.GetOr(DefaultPriceCents)
      && !a.isPaid && a.status.None?
  {
    if !RequiredGiven(req) then Err(MissingFields)
    else if FindByCode(albums, ToUpper(req.code.value)).Some? then Err(DuplicateCode)
    else if !HasClientId(clients, req.clientId.value) then Err(ClientNotFound)
    else Ok(Album(
      id := freshId,
      code := ToUpper(req.code.value),
      title := req.title.value,
      description := req.description,
      password := req.password.value,
      previewCount := req.previewCount.GetOr(DefaultPreviewCount),
      priceCents := req.priceCents.GetOr(DefaultPriceCents),
      isPaid := false,
      status := None,
      clientId := req.clientId.value,
      photographerId := req.photographerId.value,
      createdAt := now))
  }

  /** POST: decide, then insert the new row; a refused request changes nothing. */
  method CreateAlbum(db: Database, req: CreateAlbumRequest, freshId: string, now: int) returns (r: Reply<Album>)
    requires db.Valid()
    requires !HasAlbumId(db.albums, freshId)
    modifies db
    ensures db.Valid()
    ensures r == CreateAlbumOutcome(old(db.albums), old(db.clients), req, freshId, now)
    ensures db.albums == if r.Ok? then old(db.albums) + [r.value] else old(db.albums)
    ensures db.clients == old(db.clients) && db.photos == old(db.photos)
  {
    r := CreateAlbumOutcome(db.albums, db.clients, req, freshId, now);
    if r.Ok? {
      db.albums := db.albums + [r.value];
    }
  }

  /**
   * Two POSTs whose codes differ only in letter case: once the first is
   * stored, the second is refused as a duplicate.
   */
  lemma CaseInsensitiveDuplicate(albums: seq<Album>, clients: seq<Client>, req: CreateAlbumRequest,
                                 id1: string, id2: string, now: int, req2: CreateAlbumRequest)
    requires CreateAlbumOutcome(albums, clients, req, id1, now).Ok?
    requires RequiredGiven(req2) && ToUpper(req2.code.value) == ToUpper(req.code.value)
    ensures CreateAlbumOutcome(albums + [CreateAlbumOutcome(albums, clients, req, id1, now).value], clients, req2, id2, now)
      == Err(DuplicateCode)
  {
    var albums' := albums + [CreateAlbumOutcome(albums, clients, req, id1, now).value];
    assert albums'[|albums|].code == ToUpper(req2.code.value);
  }

  // ---------------------------------------------------------------- PUT

  datatype UpdateAlbumRequest = UpdateAlbumRequest(
    id: Option<string>,
    title: Option<string>,
    description: Option<string>,
    password: Option<string>,
    previewCount: Option<int>,
    priceCents: Option<int>,
    isPaid: Option<bool>,
    status: Option<string>)

  /**
   * The `updateData` of PUT applied to a row: each field the request
   * supplies is replaced, every other field keeps its value, and the code,
   * owner ids, id and creation time are never touched.
   */
  function ApplyUpdate(a: Album, req: UpdateAlbumRequest): (b: Album)
    ensures b.id == a.id && b.code == a.code && b.createdAt == a.createdAt
    ensures b.clientId == a.clientId && b.photographerId == a.photographerId
    ensures req.title.None? ==> b.title == a.title
    ensures req.title.Some? ==> b.title == req.title.value
    ensures req.description.None? ==> b.description == a.description
    ensures req.description.Some? ==> b.description == req.description
    ensures req.password.None? ==> b.password == a.password
    ensures req.password.Some? ==> b.password == req.password.value
    ensures req.previewCount.None? ==> b.previewCount == a.previewCount
    ensures req.previewCount.Some? ==> b.previewCount == req.previewCount.value
    ensures req.priceCents.None? ==> b.priceCents == a.priceCents
    ensures req.priceCents.Some? ==> b.priceCents == req.priceCents.value
    ensures req.isPaid.None? ==> b.isPaid == a.isPaid
    ensures req.isPaid.Some? ==> b.isPaid == req.isPaid.value
    ensures req.status.None? ==> b.status == a.status
    ensures req.status.Some? ==> b.status == req.status
  {
    a.(
      title := req.title.GetOr(a.title),
      description := if req.description.Some? then req.description else a.description,
      password := req.password.GetOr(a.password),
      previewCount := req.previewCount.GetOr(a.previewCount),
      priceCents := req.priceCents.GetOr(a.priceCents),
      isPaid := req.isPaid.GetOr(a.isPaid),
      status := if req.status.Some? then req.status else a.status)
  }

  /** A request that supplies no field leaves the row as it was. */
  lemma EmptyUpdateKeepsRow(a: Album, id: Option<string>)
    ensures ApplyUpdate(a, UpdateAlbumRequest(id, None, None, None, None, None, None, None)) == a
  {
  }

  /** Applying the same update twice is the same as applying it once. */
  lemma ApplyUpdateIdempotent(a: Album, req: UpdateAlbumRequest)
    ensures ApplyUpdate(ApplyUpdate(a, req), req) == ApplyUpdate(a, req)
  {
  }

  /**
   * PUT: 400 without an id; an id that names no album makes the update
   * throw, which the route reports as 500; otherwise exactly that row is
   * replaced by its updated form.
   */
  method UpdateAlbum(db: Database, req: UpdateAlbumRequest) returns (r: Reply<Album>)
    requires db.Valid()
    modifies db
    ensures db.Valid()
    ensures db.clients == old(db.clients) && db.photos == old(db.photos)
    ensures !Given(req.id) ==> r == Err(MissingAlbumId) && db.albums == old(db.albums)
    ensures Given(req.id) && !HasAlbumId(old(db.albums), req.id.value) ==> r == Err(Internal) && db.albums == old(db.albums)
    ensures Given(req.id) && HasAlbumId(old(db.albums), req.id.value) ==>
      var k := IndexOfAlbumId(old(db.albums), req.id.value).value;
      && r == Ok(ApplyUpdate(old(db.albums)[k], req))
      && db.albums == old(db.albums)[k := r.value]
  {
    if !Given(req.id) {
      return Err(MissingAlbumId);
    }
    var found := IndexOfAlbumId(db.albums, req.id.value);
    if found.None? {
      return Err(Internal);
    }
    var k := found.value;
    var updated := ApplyUpdate(db.albums[k], req);
    db.albums := db.albums[k := updated];
    r := Ok(updated);
  }
}
