/**
 * The client's dashboard: the albums whose client name contains the name
 * given in the page address, four counters over them, one action per
 * album (pay while unpaid, download once paid) and a simulated payment
 * that marks one album as paid. The loading delay, the payment timer and
 * the notices are outside the model.
 */
module ClientDashboard {
  import opened Text
  import opened Seqs
  import opened AlbumViews

  /** The name assumed when the address carries no `client` parameter. */
  const DefaultClient := "Cliente"

  /** One row of the dashboard's demonstration table; its photos are empty and its price is in cents. */
  function Row(id: int, code: string, title: string, clientName: string, clientEmail: string,
               totalPhotos: int, previewPhotos: int, isPaid: bool, createdAt: string, priceCents: int): UiAlbum
  {
    UiAlbum(id, code, title, clientName, clientEmail, None, totalPhotos, previewPhotos, isPaid, createdAt, priceCents, [], None)
  }

  /** The demonstration albums, in the order the dashboard lists them. */
  const ClientAlbumsTable: seq<UiAlbum> := [
    Row(1, "WEDDING2024", "Casamento Jo\U{E3}o & Maria", "Jo\U{E3}o Silva", "joao@email.com", 150, 10, true, "2024-09-15", 59999),
    Row(2, "FAMILY2024", "Ensaio Fam\U{ED}lia Silva", "Jo\U{E3}o Silva", "joao@email.com", 80, 8, false, "2024-10-01", 29999),
    Row(6, "ANNIVERSARY2024", "Bodas de Prata Jo\U{E3}o & Maria", "Jo\U{E3}o Silva", "joao@email.com", 60, 6, true, "2024-08-20", 39999),
    Row(3, "MATERNITY2024", "Ensaio Gestante Ana", "Ana Costa", "ana@email.com", 45, 5, true, "2024-09-20", 39999),
    Row(7, "NEWBORN2024", "Newborn Lucas", "Ana Costa", "ana@email.com", 35, 4, false, "2024-10-15", 34999),
    Row(4, "BIRTHDAY2024", "Anivers\U{E1}rio 15 anos Sofia", "Maria Santos", "maria@email.com", 90, 9, true, "2024-09-10", 44999),
    Row(5, "CORPORATE2024", "Evento Corporativo TechCorp", "Carlos Oliveira", "carlos@email.com", 120, 12, true, "2024-09-25", 79999)]

  /** The name the page greets and filters by: the `client` parameter when it is a non-empty string. */
  function ClientQuery(param: Option<string>): (q: string)
    ensures q != ""
    ensures param.Some? && param.value != "" ==> q == param.value
  {
    if Given(param) then param.value else DefaultClient
  }

  /** The album's client name, lower-cased, includes the lower-cased query. */
  predicate NameMatches(query: string, a: UiAlbum) {
    Contains(ToLower(a.clientName), ToLower(query))
  }

  /** The albums the dashboard lists for a query: the matching ones, in table order. */
  function ShownAlbums(table: seq<UiAlbum>, query: string): seq<UiAlbum> {
    Filter(table, (a: UiAlbum) => NameMatches(query, a))
  }

  /** An album is listed exactly when it is in the table and its client name matches; nothing is invented. */
  lemma ShownAlbumsMatch(table: seq<UiAlbum>, query: string)
    ensures forall a :: a in ShownAlbums(table, query) <==> a in table && NameMatches(query, a)
    ensures |ShownAlbums(table, query)| <= |table|
  {
  }

  /** Every name includes the empty string, so an empty query lists the whole table. */
  lemma EmptyQueryShowsAll(table: seq<UiAlbum>)
    ensures ShownAlbums(table, "") == table
  {
    forall a | a in table ensures NameMatches("", a) {
      ContainsTrivial(ToLower(a.clientName));
    }
    FilterAll(table, (a: UiAlbum) => NameMatches("", a));
  }

  /** `handlePayment`'s update of one album: paid when it has the id, untouched otherwise. */
  function PaidIfId(a: UiAlbum, id: int): UiAlbum {
    if a.id == id then a.(isPaid := true) else a
  }

  /** `handlePayment` over the list. */
  function MarkPaid(albums: seq<UiAlbum>, id: int): (r: seq<UiAlbum>)
    ensures |r| == |albums|
    ensures forall i :: 0 <= i < |r| && albums[i].id != id ==> r[i] == albums[i]
    ensures forall i :: 0 <= i < |r| && albums[i].id == id ==> r[i] == albums[i].(isPaid := true)
    decreases |albums|
  {
    if albums == [] then [] else [PaidIfId(albums[0], id)] + MarkPaid(albums[1..], id)
  }

  predicate PendingOther(id: int, a: UiAlbum) { !a.isPaid && a.id != id }

  /**
   * After a payment the pending albums are exactly those that were pending
   * under another id, in the same order.
   */
  lemma {:induction false} MarkPaidPending(albums: seq<UiAlbum>, id: int)
    ensures Filter(MarkPaid(albums, id), IsPendingAlbum) == Filter(albums, (a: UiAlbum) => PendingOther(id, a))
    decreases |albums|
  {
    if albums != [] {
      MarkPaidPending(albums[1..], id);
      var r := MarkPaid(albums, id);
      assert r[0] == PaidIfId(albums[0], id);
      assert r[1..] == MarkPaid(albums[1..], id);
    }
  }

  /** Paying never changes any photo count, so the photos counter stays put. */
  lemma {:induction false} MarkPaidKeepsPhotos(albums: seq<UiAlbum>, id: int)
    ensures SumBy(MarkPaid(albums, id), PhotoCountOf) == SumBy(albums, PhotoCountOf)
    decreases |albums|
  {
    if albums != [] {
      MarkPaidKeepsPhotos(albums[1..], id);
      var r := MarkPaid(albums, id);
      assert r[1..] == MarkPaid(albums[1..], id);
    }
  }

  /** Paying twice for the same album is the same as paying once. */
  lemma MarkPaidIdempotent(albums: seq<UiAlbum>, id: int)
    ensures MarkPaid(MarkPaid(albums, id), id) == MarkPaid(albums, id)
  {
  }

  /** The four counters of the dashboard's header. */
  datatype Stats = Stats(albums: nat, paid: nat, pending: nat, photos: int)

  /** The counters over the listed albums. */
  function StatsOf(albums: seq<UiAlbum>): (st: Stats)
    ensures st.paid + st.pending == st.albums == |albums|
    ensures st.photos == SumBy(albums, PhotoCountOf)
    ensures (forall a :: a in albums ==> a.totalPhotos >= 0) ==> st.photos >= 0
  {
    PaidPendingPartition(albums);
    SumByNonNegativeBy(albums);
    Stats(|albums|, PaidCount(albums), PendingCount(albums), SumBy(albums, PhotoCountOf))
  }

  lemma SumByNonNegativeBy(albums: seq<UiAlbum>)
    ensures (forall a :: a in albums ==> a.totalPhotos >= 0) ==> SumBy(albums, PhotoCountOf) >= 0
  {
    if forall a :: a in albums ==> a.totalPhotos >= 0 {
      SumByNonNegative(albums, PhotoCountOf);
    }
  }

  /** The button an album card offers. */
  datatype Action = Pay | Download

  /** Pay exactly for an unpaid album, download exactly for a paid one. */
  function ActionFor(a: UiAlbum): (act: Action)
    ensures act == Pay <==> !a.isPaid
    ensures act == Download <==> a.isPaid
  {
    if !a.isPaid then Pay else Download
  }

  /** Once paid for, every album carrying the id offers download instead of payment. */
  lemma PaymentOffersDownload(albums: seq<UiAlbum>, id: int, i: nat)
    requires i < |albums| && albums[i].id == id
    ensures ActionFor(MarkPaid(albums, id)[i]) == Download
  {
  }

  /** Asked for "João", the dashboard lists the first three albums of the table, in table order. */
  lemma JoaoDashboard(query: string)
    requires query == "Jo\U{E3}o"
    ensures ShownAlbums(ClientAlbumsTable, query) == ClientAlbumsTable[..3]
  {
    var p := (a: UiAlbum) => NameMatches(query, a);
    forall i | 0 <= i < 3 ensures p(ClientAlbumsTable[i]) {
      JoaoNamed(query, ClientAlbumsTable[i]);
    }
    OthersLackJ();
    forall i | 3 <= i < |ClientAlbumsTable| ensures !p(ClientAlbumsTable[i]) {
      JoaoNotNamed(query, ClientAlbumsTable[i]);
    }
    FilterPrefix(ClientAlbumsTable, p, 3);
  }

  lemma JoaoNamed(query: string, a: UiAlbum)
    requires query == "Jo\U{E3}o" && a.clientName == "Jo\U{E3}o Silva"
    ensures NameMatches(query, a)
  {
    var lq := "jo\U{E3}o";
    ToLowerOf(query, lq);
    ContainsLowered(a.clientName, lq, 0);
  }

  /** A name with no 'j' in either case does not match "João". */
  lemma JoaoNotNamed(query: string, a: UiAlbum)
    requires query == "Jo\U{E3}o" && 'j' !in a.clientName && 'J' !in a.clientName
    ensures !NameMatches(query, a)
  {
    var lq := "jo\U{E3}o";
    ToLowerOf(query, lq);
    assert UpperChar('j') == 'J';
    LowerLacks(a.clientName, 'j');
    NotContainsFirst(ToLower(a.clientName), lq);
  }

  /** Past the third row, no client's name holds a 'j' in either case. */
  lemma OthersLackJ()
    ensures forall i :: 3 <= i < |ClientAlbumsTable| ==>
      'j' !in ClientAlbumsTable[i].clientName && 'J' !in ClientAlbumsTable[i].clientName
  {
    forall i | 3 <= i < |ClientAlbumsTable|
      ensures 'j' !in ClientAlbumsTable[i].clientName && 'J' !in ClientAlbumsTable[i].clientName
    {
      OtherName(i);
      NameLacksJ(ClientAlbumsTable[i].clientName);
    }
  }

  /** The rows past the third belong to Ana, Maria or Carlos. */
  lemma OtherName(i: nat)
    requires 3 <= i < |ClientAlbumsTable|
    ensures ClientAlbumsTable[i].clientName in {"Ana Costa", "Maria Santos", "Carlos Oliveira"}
  {
  }

  /** None of the other clients' names holds a 'j' in either case. */
  lemma NameLacksJ(name: string)
    requires name in {"Ana Costa", "Maria Santos", "Carlos Oliveira"}
    ensures 'j' !in name && 'J' !in name
  {
  }

  /** The counters João sees: three albums, two paid, one pending, 290 photos. */
  lemma JoaoStats(shown: seq<UiAlbum>)
    requires shown == ClientAlbumsTable[..3]
    ensures StatsOf(shown) == Stats(3, 2, 1, 290)
  {
    CountsOfThree(shown, PhotoCountOf);
  }

  /**
   * The page's state: the greeted name, the listed albums, whether they are
   * still loading, and the table the albums are drawn from.
   */
  class Dashboard {
    const table: seq<UiAlbum>
    var clientName: string
    var albums: seq<UiAlbum>
    var loading: bool

    /** The page before its effect has run: loading, over the demonstration table. */
    constructor ()
      ensures table == ClientAlbumsTable
      ensures clientName == "" && albums == [] && loading
    {
      table := ClientAlbumsTable;
      clientName, albums, loading := "", [], true;
    }

    /**
     * The page's effect on mount, with its delay elapsed: the name from
     * the address (or the default) and the matching rows of the table.
     */
    method Load(param: Option<string>)
      modifies this
      ensures clientName == ClientQuery(param)
      ensures albums == ShownAlbums(table, clientName)
      ensures !loading
    {
      var client := ClientQuery(param);
      clientName := client;
      albums := ShownAlbums(table, client);
      loading := false;
    }

    /** `handlePayment`, once its timer fires: the album with the id becomes paid, nothing else changes. */
    method HandlePayment(id: int)
      modifies this
      ensures albums == MarkPaid(old(albums), id)
      ensures clientName == old(clientName) && loading == old(loading)
    {
      albums := MarkPaid(albums, id);
    }
  }
}
