/**
 * The relational store behind the API routes: the Album, Photo and Client
 * tables as rows in insertion order, with the two uniqueness rules the
 * routes rely on (album codes, and a client's email per photographer).
 * Timestamps are plain integers supplied by the caller (the clock is left
 * out); prices are integer cents.
 */
module Store {
  import opened Text

  datatype Album = Album(
    id: string,
    code: string,
    title: string,
    description: Option<string>,
    password: string,
    previewCount: int,
    priceCents: int,
    isPaid: bool,
    status: Option<string>,
    clientId: string,
    photographerId: string,
    createdAt: int)

  datatype Photo = Photo(
    id: string,
    filename: string,
    cloudinaryId: string,
    url: string,
    thumbnailUrl: string,
    size: nat,
    width: int,
    height: int,
    format: string,
    albumId: string,
    order: int,
    isPreview: bool)

  datatype Client = Client(
    id: string,
    name: string,
    email: string,
    phone: Option<string>,
    photographerId: string,
    createdAt: int)

  /** A file of an upload request's form data. */
  datatype UploadedFile = UploadedFile(name: string, size: nat)

  function FileSize(f: UploadedFile): int { f.size }

  /** The error replies of the routes; Status gives each one's HTTP status. */
  datatype ApiError =
    | MissingFields       // a required field is absent or empty
    | DuplicateCode       // an album already uses the code
    | DuplicateEmail      // the photographer already has a client with the email
    | ClientNotFound
    | AlbumNotFound
    | MissingAlbumId
    | MissingPhotographerId
    | NoFiles
    | MissingPath
    | FileNotFound
    | Internal            // an exception caught by the route's outer try/catch

  function Status(e: ApiError): int {
    match e
    case MissingFields | DuplicateCode | DuplicateEmail | MissingAlbumId
       | MissingPhotographerId | NoFiles | MissingPath => 400
    case ClientNotFound | AlbumNotFound | FileNotFound => 404
    case Internal => 500
  }

  datatype Reply<+T> = Ok(value: T) | Err(error: ApiError)

  /** No two albums share a code. */
  predicate UniqueCodes(albums: seq<Album>) {
    forall i, j :: 0 <= i < j < |albums| ==> albums[i].code != albums[j].code
  }

  /** No two albums share an id. */
  predicate UniqueAlbumIds(albums: seq<Album>) {
    forall i, j :: 0 <= i < j < |albums| ==> albums[i].id != albums[j].id
  }

  /** No two clients of one photographer share an email. */
  predicate UniqueEmailPerPhotographer(clients: seq<Client>) {
    forall i, j :: 0 <= i < j < |clients| ==>
      clients[i].email != clients[j].email || clients[i].photographerId != clients[j].photographerId
  }

  predicate HasCode(albums: seq<Album>, code: string) {
    exists i :: 0 <= i < |albums| && albums[i].code == code
  }

  predicate HasAlbumId(albums: seq<Album>, id: string) {
    exists i :: 0 <= i < |albums| && albums[i].id == id
  }

  predicate HasClientId(clients: seq<Client>, id: string) {
    exists i :: 0 <= i < |clients| && clients[i].id == id
  }

  /** `findUnique({ where: { code } })`: the album with exactly this code, if any. */
  function FindByCode(albums: seq<Album>, code: string): (r: Option<Album>)
    ensures r.Some? <==> HasCode(albums, code)
    ensures r.Some? ==> r.value in albums && r.value.code == code
    decreases |albums|
  {
    if albums == [] then None
    else if albums[0].code == code then Some(albums[0])
    else
      var r := FindByCode(albums[1..], code);
      assert HasCode(albums, code) ==> HasCode(albums[1..], code) by {
        if HasCode(albums, code) {
          var i :| 0 <= i < |albums| && albums[i].code == code;
          assert albums[1..][i - 1].code == code;
        }
      }
      assert HasCode(albums[1..], code) ==> HasCode(albums, code) by {
        if HasCode(albums[1..], code) {
          var i :| 0 <= i < |albums[1..]| && albums[1..][i].code == code;
          assert albums[i + 1].code == code;
        }
      }
      r
  }

  /** `findUnique({ where: { id } })`: the position of the album with this id, if any. */
  function IndexOfAlbumId(albums: seq<Album>, id: string): (r: Option<nat>)
    ensures r.Some? <==> HasAlbumId(albums, id)
    ensures r.Some? ==> r.value < |albums| && albums[r.value].id == id
    decreases |albums|
  {
    if albums == [] then None
    else if albums[0].id == id then Some(0)
    else
      var r := IndexOfAlbumId(albums[1..], id);
      assert HasAlbumId(albums, id) ==> HasAlbumId(albums[1..], id) by {
        if HasAlbumId(albums, id) {
          var i :| 0 <= i < |albums| && albums[i].id == id;
          assert albums[1..][i - 1].id == id;
        }
      }
      if r.Some? then Some(r.value + 1) else None
  }

  class Database {
    var albums: seq<Album>
    var clients: seq<Client>
    var photos: seq<Photo>

    ghost predicate Valid()
      reads this
    {
      && UniqueCodes(albums)
      && (forall i :: 0 <= i < |albums| ==> AllUpper(albums[i].code))
      && UniqueAlbumIds(albums)
      && UniqueEmailPerPhotographer(clients)
    }

    constructor ()
      ensures Valid()
      ensures albums == [] && clients == [] && photos == []
    {
      albums, clients, photos := [], [], [];
    }
  }
}
