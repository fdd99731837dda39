/**
 * The client's access page: an album code and a password open one of the
 * demonstration albums; the gallery then shows every photo of a paid
 * album and only the preview photos of an unpaid one, and a simulated
 * payment unlocks the rest. The login delay and the payment timer are
 * outside the model.
 */
module ClientPage {
  import opened Text
  import opened Seqs

  /** A photo of a demonstration album: its number, its URL and whether it is a preview. */
  datatype DemoPhoto = DemoPhoto(id: int, url: string, preview: bool)

  datatype DemoAlbum = DemoAlbum(password: string, clientName: string, albumTitle: string, isPaid: bool, photos: seq<DemoPhoto>)

  /** The album a successful login opens, with the code it was opened under and its counts. */
  datatype OpenAlbum = OpenAlbum(
    code: string,
    password: string,
    clientName: string,
    albumTitle: string,
    isPaid: bool,
    photos: seq<DemoPhoto>,
    totalPhotos: nat,
    previewPhotos: nat)

  predicate IsPreview(p: DemoPhoto) { p.preview }

  const Placeholder := "/api/placeholder/800/600"

  /** Photos 1 to 5 at the placeholder URL, the first three of them previews. */
  const DemoPhotos: seq<DemoPhoto> := seq(5, i => DemoPhoto(i + 1, Placeholder, i < 3))

  /** The demonstration albums, keyed by code. */
  const DemoAlbums: map<string, DemoAlbum> := map[
    "DEMO2024" := DemoAlbum("123456", "Jo\U{E3}o Silva", "Casamento Jo\U{E3}o & Maria", true, DemoPhotos),
    "FAMILY2024" := DemoAlbum("familia123", "Ana Costa", "Ensaio Fam\U{ED}lia Costa", false, DemoPhotos)]

  /**
   * `handleLogin`: the album under the upper-cased code, when its password
   * equals the one typed, character for character.
   */
  function Login(albums: map<string, DemoAlbum>, code: string, password: string): (r: Option<OpenAlbum>)
    ensures r.Some? <==> ToUpper(code) in albums && albums[ToUpper(code)].password == password
    ensures r.Some? ==>
      var a := albums[ToUpper(code)];
      && r.value.code == ToUpper(code)
      && r.value.password == a.password && r.value.clientName == a.clientName
      && r.value.albumTitle == a.albumTitle && r.value.isPaid == a.isPaid && r.value.photos == a.photos
      && r.value.totalPhotos == |a.photos|
      && r.value.previewPhotos == |Filter(a.photos, IsPreview)|
  {
    var key := ToUpper(code);
    if key in albums && albums[key].password == password then
      var a := albums[key];
      Some(OpenAlbum(key, a.password, a.clientName, a.albumTitle, a.isPaid, a.photos, |a.photos|, |Filter(a.photos, IsPreview)|))
    else None
  }

  /** The code is matched whatever its case: spellings that upper-case alike open the same album. */
  lemma LoginIgnoresCodeCase(albums: map<string, DemoAlbum>, code1: string, code2: string, password: string)
    requires ToUpper(code1) == ToUpper(code2)
    ensures Login(albums, code1, password) == Login(albums, code2, password)
  {
  }

  /** The photos the gallery receives: all of them once paid, otherwise the previews. */
  function Visible(a: OpenAlbum): (r: seq<DemoPhoto>)
    ensures a.isPaid ==> r == a.photos
    ensures !a.isPaid ==> forall p :: p in r <==> p in a.photos && p.preview
    ensures |r| <= |a.photos|
  {
    if a.isPaid then a.photos else Filter(a.photos, IsPreview)
  }

  /** Download is offered exactly for a paid album. */
  function CanDownload(a: OpenAlbum): bool { a.isPaid }

  /**
   * The gallery's counts agree with the login's: an unpaid album shows
   * previewPhotos photos and a paid one totalPhotos.
   */
  lemma VisibleCountMatches(albums: map<string, DemoAlbum>, code: string, password: string)
    requires Login(albums, code, password).Some?
    ensures var a := Login(albums, code, password).value;
      |Visible(a)| == if a.isPaid then a.totalPhotos else a.previewPhotos
  {
  }

  /** Payment flips only the paid flag: afterwards every photo is visible and download is offered. */
  lemma PaymentUnlocksAll(a: OpenAlbum)
    ensures Visible(a.(isPaid := true)) == a.photos
    ensures CanDownload(a.(isPaid := true))
    ensures a.(isPaid := true).(isPaid := a.isPaid) == a
  {
  }

  /** Three of the five demonstration photos are previews: the first three. */
  lemma DemoPreviews()
    ensures Filter(DemoPhotos, IsPreview) == DemoPhotos[..3]
  {
    FilterPrefix(DemoPhotos, IsPreview, 3);
  }

  /** The paid wedding album opens with its code typed in lower case: five photos, three previews. */
  lemma DemoWeddingLogin(code: string)
    requires code == "demo2024"
    ensures var r := Login(DemoAlbums, code, "123456");
      r.Some? && r.value.code == "DEMO2024" && r.value.isPaid && r.value.totalPhotos == 5 && r.value.previewPhotos == 3
  {
    ToUpperOf(code, "DEMO2024");
    DemoPreviews();
  }

  /** The unpaid family album shows its three previews; the password is compared case-sensitively. */
  lemma DemoFamilyLogin(code: string)
    requires code == "family2024"
    ensures var r := Login(DemoAlbums, code, "familia123");
      r.Some? && !r.value.isPaid && |Visible(r.value)| == 3
    ensures Login(DemoAlbums, code, "Familia123").None?
  {
    ToUpperOf(code, "FAMILY2024");
    DemoPreviews();
  }

  /** The page's state: the two form fields and the album that is open, if any. */
  class Session {
    var albumCode: string
    var password: string
    var current: Option<OpenAlbum>

    constructor ()
      ensures albumCode == "" && password == "" && current == None
    {
      albumCode, password, current := "", "", None;
    }

    /**
     * `handleLogin` with the fields as typed: a match opens the album;
     * a miss leaves the page as it was.
     */
    method HandleLogin(albums: map<string, DemoAlbum>) returns (ok: bool)
      modifies this
      ensures ok <==> Login(albums, old(albumCode), old(password)).Some?
      ensures current == if ok then Login(albums, old(albumCode), old(password)) else old(current)
      ensures albumCode == old(albumCode) && password == old(password)
    {
      var r := Login(albums, albumCode, password);
      ok := r.Some?;
      if ok {
        current := r;
      }
    }

    /**
     * `handlePayment`, once its timer fires: the open album becomes paid
     * and nothing else changes. The button exists only while an album is open.
     */
    method HandlePayment()
      requires current.Some?
      modifies this
      ensures current == Some(old(current).value.(isPaid := true))
      ensures albumCode == old(albumCode) && password == old(password)
    {
      current := Some(current.value.(isPaid := true));
    }

    /** `logout`: no album is open and both fields are cleared. */
    method Logout()
      modifies this
      ensures current == None && albumCode == "" && password == ""
    {
      current, albumCode, password := None, "", "";
    }
  }
}
