/**
 * The client API route: GET lists one photographer's clients, newest
 * first; POST registers a client, keeping each email unique among the
 * clients of one photographer.
 */
module ClientsRoute {
  import opened Text
  import opened Seqs
  import opened Store

  // ---------------------------------------------------------------- GET

  /** Newest first: sorting ascending by the negated creation time. */
  function ClientRecency(c: Client): int { -c.createdAt }

  /** The `findMany` of GET: the photographer's clients, newest first. */
  function ClientsNewestFirst(clients: seq<Client>, photographerId: string): (r: seq<Client>)
    ensures forall c :: c in r <==> c in clients && c.photographerId == photographerId
    ensures forall i, j :: 0 <= i < j < |r| ==> r[i].createdAt >= r[j].createdAt
    ensures forall c :: multiset(r)[c] == if c.photographerId == photographerId then multiset(clients)[c] else 0
  {
    var mine := (c: Client) => c.photographerId == photographerId;
    FilterMembers(clients, mine);
    FilterCount(clients, mine);
    SortByMembers(Filter(clients, mine), ClientRecency);
    ClientsNewestFirstOrder(SortBy(Filter(clients, mine), ClientRecency));
    SortBy(Filter(clients, mine), ClientRecency)
  }

  /** Ascending by ClientRecency is descending by creation time. */
  lemma ClientsNewestFirstOrder(r: seq<Client>)
    requires SortedBy(r, ClientRecency)
    ensures forall i, j :: 0 <= i < j < |r| ==> r[i].createdAt >= r[j].createdAt
  {
    forall i, j | 0 <= i < j < |r| ensures r[i].createdAt >= r[j].createdAt {
      assert ClientRecency(r[i]) <= ClientRecency(r[j]);
    }
  }

  /** GET: 400 when the photographer id is absent or empty; otherwise the list above. */
  function ListClients(clients: seq<Client>, photographerId: Option<string>): (r: Reply<seq<Client>>)
    ensures !Given(photographerId) <==> r == Err(MissingPhotographerId)
    ensures r.Ok? ==> forall c :: c in r.value <==> c in clients && c.photographerId == photographerId.value
    ensures r.Ok? ==> forall i, j :: 0 <= i < j < |r.value| ==> r.value[i].createdAt >= r.value[j].createdAt
    ensures r.Ok? ==> forall c ::
      multiset(r.value)[c] == if c.photographerId == photographerId.value then multiset(clients)[c] else 0
  {
    if !Given(photographerId) then Err(MissingPhotographerId)
    else Ok(ClientsNewestFirst(clients, photographerId.value))
  }

  // ---------------------------------------------------------------- POST

  datatype CreateClientRequest = CreateClientRequest(
    name: Option<string>,
    email: Option<string>,
    phone: Option<string>,
    photographerId: Option<string>)

  predicate ClientRequiredGiven(req: CreateClientRequest) {
    Given(req.name) && Given(req.email) && Given(req.photographerId)
  }

  /** `findFirst({ where: { email, photographerId } })` finds a row: the pair is taken. */
  predicate HasEmailFor(clients: seq<Client>, email: string, photographerId: string) {
    exists i :: 0 <= i < |clients| && clients[i].email == email && clients[i].photographerId == photographerId
  }

  /** `findFirst` over the pair, as the route runs it. */
  function FindClientFor(clients: seq<Client>, email: string, photographerId: string): (r: Option<Client>)
    ensures r.Some? <==> HasEmailFor(clients, email, photographerId)
    ensures r.Some? ==> r.value in clients && r.value.email == email && r.value.photographerId == photographerId
    decreases |clients|
  {
    if clients == [] then None
    else if clients[0].email == email && clients[0].photographerId == photographerId then Some(clients[0])
    else
      var r := FindClientFor(clients[1..], email, photographerId);
      assert HasEmailFor(clients, email, photographerId) ==> HasEmailFor(clients[1..], email, photographerId) by {
        if HasEmailFor(clients, email, photographerId) {
          var i :| 0 <= i < |clients| && clients[i].email == email && clients[i].photographerId == photographerId;
          assert clients[1..][i - 1] == clients[i];
        }
      }
      r
  }

  /**
   * The decision POST takes: required fields first, then the (email,
   * photographer) pair; on success the row it inserts, which carries the
   * submitted values verbatim.
   */
  function CreateClientOutcome(clients: seq<Client>, req: CreateClientRequest, freshId: string, now: int): (r: Reply<Client>)
    ensures !ClientRequiredGiven(req) ==> r == Err(MissingFields)
    ensures ClientRequiredGiven(req) && HasEmailFor(clients, req.email.value, req.photographerId.value)
      ==> r == Err(DuplicateEmail)
    ensures r.Ok? <==> ClientRequiredGiven(req) && !HasEmailFor(clients, req.email.value, req.photographerId.value)
    ensures r.Ok? ==>
      && r.value.id == freshId && r.value.createdAt == now
      && r.value.name == req.name.value && r.value.email == req.email.value
      && r.value.phone == req.phone && r.value.photographerId == req.photographerId.value
  {
    if !ClientRequiredGiven(req) then Err(MissingFields)
    else if FindClientFor(clients, req.email.value, req.photographerId.value).Some? then Err(DuplicateEmail)
    else Ok(Client(freshId, req.name.value, req.email.value, req.phone, req.photographerId.value, now))
  }

  /** POST: decide, then insert the new row; a refused request changes nothing. */
  method CreateClient(db: Database, req: CreateClientRequest, freshId: string, now: int) returns (r: Reply<Client>)
    requires db.Valid()
    modifies db
    ensures db.Valid()
    ensures r == CreateClientOutcome(old(db.clients), req, freshId, now)
    ensures db.clients == if r.Ok? then old(db.clients) + [r.value] else old(db.clients)
    ensures db.albums == old(db.albums) && db.photos == old(db.photos)
  {
    r := CreateClientOutcome(db.clients, req, freshId, now);
    if r.Ok? {
      db.clients := db.clients + [r.value];
    }
  }

  /**
   * Uniqueness is scoped to the pair: an email taken under one
   * photographer can still be registered under another one.
   */
  lemma SameEmailOtherPhotographer(clients: seq<Client>, req: CreateClientRequest, other: string, id1: string, id2: string, now: int)
    requires CreateClientOutcome(clients, req, id1, now).Ok?
    requires other != "" && other != req.photographerId.value
    requires !HasEmailFor(clients, req.email.value, other)
    ensures
      var clients' := clients + [CreateClientOutcome(clients, req, id1, now).value];
      CreateClientOutcome(clients', req.(photographerId := Some(other)), id2, now).Ok?
  {
  }

  /** Registering the same request twice: the second attempt is refused as a duplicate. */
  lemma RepeatedRegistrationRefused(clients: seq<Client>, req: CreateClientRequest, id1: string, id2: string, now: int)
    requires CreateClientOutcome(clients, req, id1, now).Ok?
    ensures
      var clients' := clients + [CreateClientOutcome(clients, req, id1, now).value];
      CreateClientOutcome(clients', req, id2, now) == Err(DuplicateEmail)
  {
    var clients' := clients + [CreateClientOutcome(clients, req, id1, now).value];
    assert clients'[|clients|].email == req.email.value;
  }
}
