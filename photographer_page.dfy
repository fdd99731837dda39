/**
 * The photographer's panel: a fixed-credential login, the album list it
 * keeps in page state (created from a form, grown by uploads, customised),
 * and the revenue and paid/pending counters over it. Album ids are the
 * positions in the list plus one and codes are distinct; every handler
 * keeps both. The clock (creation date, the step-2 marker) comes in as a
 * parameter; the delays and notices are outside the model.
 */
module PhotographerPage {
  import opened Text
  import opened Seqs
  import opened Customization
  import opened AlbumViews

  /** The demonstration credentials. */
  const PhotographerEmail := "fotografo@demo.com"
  const PhotographerPassword := "admin123"

  /** `handleLogin`'s test: both fields equal the fixed credentials, character for character. */
  predicate Authenticates(email: string, password: string) {
    email == PhotographerEmail && password == PhotographerPassword
  }

  /** The albums the panel starts with; prices in cents. */
  const MockAlbums: seq<UiAlbum> := [
    UiAlbum(1, "DEMO2024", "Casamento Jo\U{E3}o & Maria", "Jo\U{E3}o Silva", "joao@email.com", None, 45, 5, true, "2024-01-15", 29999, [], None),
    UiAlbum(2, "FAMILY2024", "Ensaio Fam\U{ED}lia Costa", "Ana Costa", "ana@email.com", None, 30, 3, false, "2024-01-20", 19999, [], None),
    UiAlbum(3, "WEDDING2024", "Casamento Carlos & Lucia", "Carlos Silva", "carlos@email.com", None, 60, 8, true, "2024-01-25", 39999, [], None)]

  /** Album ids are the list positions plus one. */
  predicate IdsInOrder(albums: seq<UiAlbum>) {
    forall i :: 0 <= i < |albums| ==> albums[i].id == i + 1
  }

  /** No two albums share a code. */
  predicate DistinctCodes(albums: seq<UiAlbum>) {
    forall i, j :: 0 <= i < j < |albums| ==> albums[i].code != albums[j].code
  }

  predicate AlbumsValid(albums: seq<UiAlbum>) {
    IdsInOrder(albums) && DistinctCodes(albums)
  }

  /** The starting list satisfies the panel's invariant. */
  lemma MockAlbumsValid(albums: seq<UiAlbum>)
    requires albums == MockAlbums
    ensures AlbumsValid(albums)
  {
    assert albums[0].code != albums[1].code by { assert albums[0].code[0] != albums[1].code[0]; }
    assert albums[0].code != albums[2].code by { assert albums[0].code[0] != albums[2].code[0]; }
    assert albums[1].code != albums[2].code by { assert albums[1].code[0] != albums[2].code[0]; }
  }

  // Revenue and counters

  /** What an album has earned: its price once paid, nothing before. */
  function EarnedCents(a: UiAlbum): int {
    if a.isPaid then a.priceCents else 0
  }

  /** `getTotalRevenue`: the prices of the paid albums, added up. */
  function Revenue(albums: seq<UiAlbum>): int {
    SumBy(Filter(albums, IsPaidAlbum), PriceOf)
  }

  /** The revenue counts every album by what it has earned, so unpaid albums add nothing. */
  lemma {:induction false} RevenueIsEarned(albums: seq<UiAlbum>)
    ensures Revenue(albums) == SumBy(albums, EarnedCents)
    decreases |albums|
  {
    if albums != [] {
      RevenueIsEarned(albums[1..]);
      var a := albums[0];
      assert Filter(albums, IsPaidAlbum) == (if a.isPaid then [a] else []) + Filter(albums[1..], IsPaidAlbum);
      SumByAppend(if a.isPaid then [a] else [], Filter(albums[1..], IsPaidAlbum), PriceOf);
    }
  }

  /** The starting list: two paid albums, one pending, R$ 699,98 of revenue. */
  lemma MockCounters(albums: seq<UiAlbum>)
    requires albums == MockAlbums
    ensures PaidCount(albums) == 2 && PendingCount(albums) == 1
    ensures Revenue(albums) == 69998
  {
    CountsOfThree(albums, EarnedCents);
    RevenueIsEarned(albums);
  }

  // Creating an album

  /** The creation form; the price is in cents. */
  datatype AlbumForm = AlbumForm(
    code: string,
    title: string,
    clientName: string,
    clientEmail: string,
    password: string,
    previewPhotos: int,
    priceCents: int)

  /** The form as it starts and as `finishAlbumCreation` leaves it. */
  const EmptyForm := AlbumForm("", "", "", "", "", 5, 29999)

  /** How `handleCreateAlbum` ends. */
  datatype CreateResult = MissingFields | DuplicateCode | Created(album: UiAlbum)

  /** A required field is the empty string; the client's e-mail is optional. */
  predicate MissingField(form: AlbumForm) {
    form.code == "" || form.title == "" || form.clientName == "" || form.password == ""
  }

  /** Some album already carries the code. */
  predicate CodeTaken(albums: seq<UiAlbum>, code: string) {
    exists i :: 0 <= i < |albums| && albums[i].code == code
  }

  /** `handleCreateAlbum`'s checks and the album it builds. */
  function CreateAlbum(albums: seq<UiAlbum>, form: AlbumForm, today: string): (r: CreateResult)
    ensures r == MissingFields <==> MissingField(form)
    ensures r == DuplicateCode <==> !MissingField(form) && CodeTaken(albums, ToUpper(form.code))
    ensures r.Created? ==>
      && r.album.id == |albums| + 1 && r.album.code == ToUpper(form.code)
      && r.album.totalPhotos == 0 && !r.album.isPaid && r.album.photos == [] && r.album.createdAt == today
      && r.album.title == form.title && r.album.clientName == form.clientName
      && r.album.clientEmail == form.clientEmail && r.album.password == Some(form.password)
      && r.album.previewPhotos == form.previewPhotos && r.album.priceCents == form.priceCents
      && r.album.customization == None
  {
    if MissingField(form) then MissingFields
    else
      var code := ToUpper(form.code);
      if exists i :: 0 <= i < |albums| && albums[i].code == code then DuplicateCode
      else Created(UiAlbum(|albums| + 1, code, form.title, form.clientName, form.clientEmail,
        Some(form.password), 0, form.previewPhotos, false, today, form.priceCents, [], None))
  }

  /**
   * Appending a created album keeps ids in order and codes distinct, and
   * the new album is the only one under its code.
   */
  lemma CreateKeepsValid(albums: seq<UiAlbum>, form: AlbumForm, today: string)
    requires AlbumsValid(albums) && CreateAlbum(albums, form, today).Created?
    ensures AlbumsValid(albums + [CreateAlbum(albums, form, today).album])
    ensures forall i :: 0 <= i < |albums| ==> albums[i].code != ToUpper(form.code)
  {
  }

  /** A new album is unpaid, so creating one leaves the revenue as it was. */
  lemma CreateKeepsRevenue(albums: seq<UiAlbum>, a: UiAlbum)
    requires !a.isPaid
    ensures Revenue(albums + [a]) == Revenue(albums)
    ensures PendingCount(albums + [a]) == PendingCount(albums) + 1
  {
    FilterAppend(albums, [a], IsPaidAlbum);
    assert Filter([a], IsPaidAlbum) == [];
    assert Filter(albums + [a], IsPaidAlbum) == Filter(albums, IsPaidAlbum);
    FilterAppend(albums, [a], IsPendingAlbum);
    assert Filter([a], IsPendingAlbum) == [a];
  }

  // Adding uploaded photos

  /** One album after `handlePhotosUploaded`: the photos appended and counted when the code matches. */
  function WithPhotos(a: UiAlbum, code: string, photos: seq<UiPhoto>): UiAlbum {
    if a.code == code then a.(photos := a.photos + photos, totalPhotos := a.totalPhotos + |photos|) else a
  }

  /** `handlePhotosUploaded` over the list. */
  function AddPhotos(albums: seq<UiAlbum>, code: string, photos: seq<UiPhoto>): (r: seq<UiAlbum>)
    ensures |r| == |albums|
    ensures forall i :: 0 <= i < |r| ==> r[i] == WithPhotos(albums[i], code, photos)
    decreases |albums|
  {
    if albums == [] then [] else [WithPhotos(albums[0], code, photos)] + AddPhotos(albums[1..], code, photos)
  }

  /** Replacing one album by one with the same id and code keeps the invariant. */
  lemma UpdateKeepsValid(albums: seq<UiAlbum>, k: nat, x: UiAlbum)
    requires AlbumsValid(albums) && k < |albums| && x.id == albums[k].id && x.code == albums[k].code
    ensures AlbumsValid(albums[k := x])
  {
  }

  /** Replacing one album by one with the same paid flag and price keeps the revenue. */
  lemma UpdateKeepsRevenue(albums: seq<UiAlbum>, k: nat, x: UiAlbum)
    requires k < |albums| && x.isPaid == albums[k].isPaid && x.priceCents == albums[k].priceCents
    ensures Revenue(albums[k := x]) == Revenue(albums)
  {
    SumByUpdate(albums, EarnedCents, k, x);
    RevenueIsEarned(albums);
    RevenueIsEarned(albums[k := x]);
  }

  /** With distinct codes, uploading under the code of the album at position k changes that album alone. */
  lemma AddPhotosOnlyTarget(albums: seq<UiAlbum>, k: nat, photos: seq<UiPhoto>)
    requires DistinctCodes(albums) && k < |albums|
    ensures var code := albums[k].code;
      AddPhotos(albums, code, photos) == albums[k := WithPhotos(albums[k], code, photos)]
  {
    var code := albums[k].code;
    var r := AddPhotos(albums, code, photos);
    forall i | 0 <= i < |albums| && i != k ensures r[i] == albums[i] {
      if i < k { assert albums[i].code != code; } else { assert albums[k].code != albums[i].code; }
    }
  }

  /** Uploading under any code keeps the invariant. */
  lemma AddPhotosValid(albums: seq<UiAlbum>, code: string, photos: seq<UiPhoto>)
    requires AlbumsValid(albums)
    ensures AlbumsValid(AddPhotos(albums, code, photos))
  {
    if CodeTaken(albums, code) {
      var k :| 0 <= k < |albums| && albums[k].code == code;
      AddPhotosOnlyTarget(albums, k, photos);
      UpdateKeepsValid(albums, k, WithPhotos(albums[k], code, photos));
    } else {
      AddPhotosUnknownCode(albums, code, photos);
    }
  }

  /**
   * Uploading to an existing album keeps the revenue, and the photo total
   * grows by exactly the number of photos.
   */
  lemma AddPhotosTotals(albums: seq<UiAlbum>, k: nat, photos: seq<UiPhoto>)
    requires DistinctCodes(albums) && k < |albums|
    ensures SumBy(AddPhotos(albums, albums[k].code, photos), PhotoCountOf) == SumBy(albums, PhotoCountOf) + |photos|
    ensures Revenue(AddPhotos(albums, albums[k].code, photos)) == Revenue(albums)
  {
    var x := WithPhotos(albums[k], albums[k].code, photos);
    AddPhotosOnlyTarget(albums, k, photos);
    UpdateKeepsRevenue(albums, k, x);
    SumByUpdate(albums, PhotoCountOf, k, x);
  }

  /** Uploading under a code no album carries changes nothing. */
  lemma AddPhotosUnknownCode(albums: seq<UiAlbum>, code: string, photos: seq<UiPhoto>)
    requires !CodeTaken(albums, code)
    ensures AddPhotos(albums, code, photos) == albums
  {
    var r := AddPhotos(albums, code, photos);
    assert forall i :: 0 <= i < |r| ==> r[i] == albums[i];
  }

  // Saving a customisation

  /** `handleSaveCustomization` over the list: the album with the id gets the settings. */
  function SetCustomization(albums: seq<UiAlbum>, id: int, c: Settings): (r: seq<UiAlbum>)
    ensures |r| == |albums|
    ensures forall i :: 0 <= i < |r| && albums[i].id != id ==> r[i] == albums[i]
    ensures forall i :: 0 <= i < |r| && albums[i].id == id ==> r[i] == albums[i].(customization := Some(c))
    decreases |albums|
  {
    if albums == [] then []
    else [if albums[0].id == id then albums[0].(customization := Some(c)) else albums[0]] + SetCustomization(albums[1..], id, c)
  }

  /**
   * Since ids are positions plus one, saving for id changes exactly the
   * album at position id - 1, and nothing when no album has it.
   */
  lemma SetCustomizationOnlyTarget(albums: seq<UiAlbum>, id: int, c: Settings)
    requires IdsInOrder(albums)
    ensures 1 <= id <= |albums| ==>
      SetCustomization(albums, id, c) == albums[id - 1 := albums[id - 1].(customization := Some(c))]
    ensures !(1 <= id <= |albums|) ==> SetCustomization(albums, id, c) == albums
  {
    var r := SetCustomization(albums, id, c);
    if 1 <= id <= |albums| {
      assert r == albums[id - 1 := albums[id - 1].(customization := Some(c))];
    } else {
      assert r == albums;
    }
  }

  /** Saving a customisation keeps the invariant. */
  lemma SetCustomizationValid(albums: seq<UiAlbum>, id: int, c: Settings)
    requires AlbumsValid(albums)
    ensures AlbumsValid(SetCustomization(albums, id, c))
  {
    SetCustomizationOnlyTarget(albums, id, c);
    if 1 <= id <= |albums| {
      UpdateKeepsValid(albums, id - 1, albums[id - 1].(customization := Some(c)));
    }
  }

  /** Saving a customisation never touches a paid flag or a price, so the revenue stays put. */
  lemma SetCustomizationRevenue(albums: seq<UiAlbum>, id: int, c: Settings)
    ensures Revenue(SetCustomization(albums, id, c)) == Revenue(albums)
  {
    SetCustomizationEarned(albums, id, c);
    RevenueIsEarned(albums);
    RevenueIsEarned(SetCustomization(albums, id, c));
  }

  lemma {:induction false} SetCustomizationEarned(albums: seq<UiAlbum>, id: int, c: Settings)
    ensures SumBy(SetCustomization(albums, id, c), EarnedCents) == SumBy(albums, EarnedCents)
    decreases |albums|
  {
    if albums != [] {
      SetCustomizationEarned(albums[1..], id, c);
      var r := SetCustomization(albums, id, c);
      assert r[1..] == SetCustomization(albums[1..], id, c);
    }
  }

  /** The panel's state cells. */
  class Panel {
    var email: string
    var password: string
    var isAuthenticated: bool
    var albums: seq<UiAlbum>
    var showCreateForm: bool
    var currentStep: nat
    /** The creation marker of the album being filled with photos (the clock reading it was named after). */
    var newAlbumId: Option<int>
    var form: AlbumForm
    var showCustomization: bool
    var selected: Option<UiAlbum>

    predicate Valid()
      reads this
    {
      AlbumsValid(albums)
    }

    /** The login cells: the two inputs and whether the panel is open. */
    function Login(): (string, string, bool)
      reads this
    {
      (email, password, isAuthenticated)
    }

    /** The creation cells: the form's visibility, its step, the marker and its inputs. */
    function Creation(): (bool, nat, Option<int>, AlbumForm)
      reads this
    {
      (showCreateForm, currentStep, newAlbumId, form)
    }

    /** The customisation cells: the editor's visibility and the album it edits. */
    function EditorCells(): (bool, Option<UiAlbum>)
      reads this
    {
      (showCustomization, selected)
    }

    /** The panel as it mounts: logged out, the demonstration albums, the empty form at step 1. */
    constructor ()
      ensures Valid()
      ensures email == "" && password == "" && !isAuthenticated && albums == MockAlbums
      ensures !showCreateForm && currentStep == 1 && newAlbumId == None && form == EmptyForm
      ensures !showCustomization && selected == None
    {
      MockAlbumsValid(MockAlbums);
      email, password, isAuthenticated := "", "", false;
      albums := MockAlbums;
      showCreateForm, currentStep, newAlbumId, form := false, 1, None, EmptyForm;
      showCustomization, selected := false, None;
    }

    /** The login inputs. */
    method EnterCredentials(e: string, p: string)
      modifies this
      ensures email == e && password == p
      ensures isAuthenticated == old(isAuthenticated) && albums == old(albums)
      ensures Creation() == old(Creation()) && EditorCells() == old(EditorCells())
    {
      email, password := e, p;
    }

    /** `handleLogin`, once its delay elapses: the fixed credentials open the panel; a miss changes nothing. */
    method HandleLogin() returns (ok: bool)
      modifies this
      ensures ok <==> Authenticates(email, password)
      ensures isAuthenticated == (ok || old(isAuthenticated))
      ensures email == old(email) && password == old(password) && albums == old(albums)
      ensures Creation() == old(Creation()) && EditorCells() == old(EditorCells())
    {
      ok := email == PhotographerEmail && password == PhotographerPassword;
      if ok {
        isAuthenticated := true;
      }
    }

    /** `logout`: the panel closes and both inputs are cleared; the album list stays. */
    method Logout()
      modifies this
      ensures !isAuthenticated && email == "" && password == ""
      ensures albums == old(albums)
      ensures Creation() == old(Creation()) && EditorCells() == old(EditorCells())
    {
      isAuthenticated, email, password := false, "", "";
    }

    /** The creation form's inputs. */
    method FillForm(f: AlbumForm)
      modifies this
      ensures form == f && albums == old(albums) && newAlbumId == old(newAlbumId) && currentStep == old(currentStep)
      ensures showCreateForm == old(showCreateForm)
      ensures Login() == old(Login()) && EditorCells() == old(EditorCells())
    {
      form := f;
    }

    /**
     * `handleCreateAlbum`: a missing field or a taken code changes nothing;
     * otherwise the new album goes at the end of the list, the marker is
     * set and the form moves to step 2.
     */
    method HandleCreateAlbum(today: string, clock: int) returns (r: CreateResult)
      requires Valid()
      modifies this
      ensures Valid()
      ensures r == CreateAlbum(old(albums), old(form), today)
      ensures r.Created? ==> albums == old(albums) + [r.album] && newAlbumId == Some(clock) && currentStep == 2
      ensures !r.Created? ==> albums == old(albums) && newAlbumId == old(newAlbumId) && currentStep == old(currentStep)
      ensures form == old(form) && showCreateForm == old(showCreateForm)
      ensures Login() == old(Login()) && EditorCells() == old(EditorCells())
    {
      r := CreateAlbum(albums, form, today);
      if r.Created? {
        CreateKeepsValid(albums, form, today);
        albums := albums + [r.album];
        newAlbumId := Some(clock);
        currentStep := 2;
      }
    }

    /**
     * `handlePhotosUploaded`: without a marker nothing happens; otherwise
     * the album under the form's upper-cased code gains the photos.
     */
    method HandlePhotosUploaded(photos: seq<UiPhoto>)
      requires Valid()
      modifies this
      ensures Valid()
      ensures albums == if newAlbumId.None? then old(albums) else AddPhotos(old(albums), ToUpper(form.code), photos)
      ensures Creation() == old(Creation())
      ensures Login() == old(Login()) && EditorCells() == old(EditorCells())
    {
      if newAlbumId.None? {
        return;
      }
      var code := ToUpper(form.code);
      AddPhotosValid(albums, code, photos);
      albums := AddPhotos(albums, code, photos);
    }

    /** `finishAlbumCreation`: the form back to its defaults, closed, at step 1, with no marker. */
    method FinishAlbumCreation()
      modifies this
      ensures form == EmptyForm && !showCreateForm && currentStep == 1 && newAlbumId == None
      ensures albums == old(albums)
      ensures Login() == old(Login()) && EditorCells() == old(EditorCells())
    {
      form := EmptyForm;
      showCreateForm, currentStep, newAlbumId := false, 1, None;
    }

    /** `handleCustomizeAlbum`: the album is remembered and the editor opens. */
    method HandleCustomizeAlbum(a: UiAlbum)
      modifies this
      ensures selected == Some(a) && showCustomization
      ensures albums == old(albums)
      ensures Login() == old(Login()) && Creation() == old(Creation())
    {
      selected, showCustomization := Some(a), true;
    }

    /** The "Novo Álbum" buttons: the creation form opens, as it was left. */
    method OpenCreateForm()
      modifies this
      ensures showCreateForm
      ensures currentStep == old(currentStep) && newAlbumId == old(newAlbumId) && form == old(form)
      ensures albums == old(albums) && Login() == old(Login()) && EditorCells() == old(EditorCells())
    {
      showCreateForm := true;
    }

    /** "Cancelar": the creation form closes, keeping its inputs, its step and the marker. */
    method CancelCreateForm()
      modifies this
      ensures !showCreateForm
      ensures currentStep == old(currentStep) && newAlbumId == old(newAlbumId) && form == old(form)
      ensures albums == old(albums) && Login() == old(Login()) && EditorCells() == old(EditorCells())
    {
      showCreateForm := false;
    }

    /** "Voltar" on the upload step: back to step 1; the marker and the album already created stay. */
    method BackToInfo()
      modifies this
      ensures currentStep == 1
      ensures showCreateForm == old(showCreateForm) && newAlbumId == old(newAlbumId) && form == old(form)
      ensures albums == old(albums) && Login() == old(Login()) && EditorCells() == old(EditorCells())
    {
      currentStep := 1;
    }

    /** "Voltar aos Álbuns": the editor closes and the selection is dropped without saving. */
    method CloseEditor()
      modifies this
      ensures !showCustomization && selected == None
      ensures albums == old(albums) && Login() == old(Login()) && Creation() == old(Creation())
    {
      showCustomization, selected := false, None;
    }

    /**
     * `handleSaveCustomization`: without a selection nothing happens;
     * otherwise the album with the selected id takes the settings and the
     * editor closes.
     */
    method HandleSaveCustomization(c: Settings)
      requires Valid()
      modifies this
      ensures Valid()
      ensures old(selected).None? ==> albums == old(albums) && selected == old(selected) && showCustomization == old(showCustomization)
      ensures old(selected).Some? ==>
        albums == SetCustomization(old(albums), old(selected).value.id, c) && selected == None && !showCustomization
      ensures Login() == old(Login()) && Creation() == old(Creation())
    {
      if selected.None? {
        return;
      }
      SetCustomizationValid(albums, selected.value.id, c);
      albums := SetCustomization(albums, selected.value.id, c);
      showCustomization, selected := false, None;
    }
  }
}
