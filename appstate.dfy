/** The client's local state: the screen, the login fields, the pet list with its
    signed photo URLs, the selected pet and the edit flag. Each handler is a method of `App`
    whose effect is stated as a step function of the old state; remote results (session,
    query rows, signed URLs, upload outcome) are parameters. */
module AppState {
  import opened Wrappers
  import opened JsString
  import opened Numbers
  import Profile

  datatype Screen = Login | Home | AddPet | PetDetail | LinkTag | FoundTag | FoundResult

  /** A row of `pets`; the optional columns are `None` when absent or null. */
  datatype Pet = Pet(
    id: int, name: string, species: string, breed: Option<string>, isLost: bool, photoUrl: Option<string>,
    color: Option<string>, birthYear: Option<JsNumber>, sex: Option<string>, weightKg: Option<JsNumber>,
    ownerPhone: Option<string>, ownerWhatsapp: Option<string>, publicNotes: Option<string>,
    allergies: Option<string>, medications: Option<string>, conditions: Option<string>,
    vetName: Option<string>, vetPhone: Option<string>)

  /** The header title of each screen. */
  function ScreenTitle(screen: Screen, selectedPet: Option<Pet>): (title: string)
    ensures screen == Login ==> title == "Login"
    ensures screen == Home ==> title == "Mis mascotas"
    ensures screen == AddPet ==> title == "Agregar mascota"
    ensures screen == PetDetail && selectedPet.Some? ==> title == selectedPet.value.name
    ensures screen == PetDetail && selectedPet.None? ==> title == "Perfil"
    ensures screen == LinkTag ==> title == "Vincular tag"
    ensures screen == FoundTag ==> title == "Encontr\U{00E9} una mascota"
    ensures screen == FoundResult ==> title == "Mascota encontrada"
  {
    match screen
    case Login => "Login"
    case Home => "Mis mascotas"
    case AddPet => "Agregar mascota"
    case PetDetail => if selectedPet.Some? then selectedPet.value.name else "Perfil"
    case LinkTag => "Vincular tag"
    case FoundTag => "Encontr\U{00E9} una mascota"
    case FoundResult => "Mascota encontrada"
  }

  /** Only the detail screen's title depends on the selection. */
  lemma {:induction false} TitleIgnoresSelection(screen: Screen, a: Option<Pet>, b: Option<Pet>)
    requires screen != PetDetail
    ensures ScreenTitle(screen, a) == ScreenTitle(screen, b)
  {
  }

  /** Apart from the detail screen, the title tells the screens apart. */
  lemma {:induction false} TitlesTellScreensApart(s: Screen, t: Screen, a: Option<Pet>, b: Option<Pet>)
    requires s != PetDetail && t != PetDetail && s != t
    ensures ScreenTitle(s, a) != ScreenTitle(t, b)
  {
    var x := ScreenTitle(s, a);
    var y := ScreenTitle(t, b);
    assert |x| != |y| || x[0] != y[0];
  }

  /** A pet paired with the outcome of `createSignedUrl` for its photo (`None` on error). */
  datatype Signing = Signing(pet: Pet, signedUrl: Option<string>)

  /** One entry of `loadHomePetPhotos`: null without a photo path, else the signing outcome. */
  function PhotoEntry(x: Signing): Option<string> {
    if x.pet.photoUrl.None? || x.pet.photoUrl.value == "" then None else x.signedUrl
  }

  /** `Object.fromEntries(entries)` over those entries: one key per pet id, and a later entry
      for the same id overwrites an earlier one. */
  function SignedUrls(xs: seq<Signing>): map<int, Option<string>>
    decreases |xs|
  {
    if xs == [] then map[] else SignedUrls(xs[..|xs| - 1])[xs[|xs| - 1].pet.id := PhotoEntry(xs[|xs| - 1])]
  }

  /** Exactly one key per pet id: every pet has an entry and every key is some pet's id. */
  lemma {:induction false} SignedUrlsKeysArePetIds(xs: seq<Signing>)
    ensures forall i :: 0 <= i < |xs| ==> xs[i].pet.id in SignedUrls(xs)
    ensures forall id :: id in SignedUrls(xs) ==> exists i :: 0 <= i < |xs| && xs[i].pet.id == id
    decreases |xs|
  {
    if xs != [] {
      var n := |xs| - 1;
      var init := xs[..n];
      assert forall i :: 0 <= i < n ==> init[i] == xs[i];
      SignedUrlsKeysArePetIds(init);
    }
  }

  /** The pets of a resolved list, in order. */
  function PetsOf(xs: seq<Signing>): seq<Pet> {
    seq(|xs|, i requires 0 <= i < |xs| => xs[i].pet)
  }

  /** The entry of a pet is its own: null without a photo or when its signing failed, the
      signed URL otherwise, whatever happened to the other pets. */
  lemma {:induction false} SignedUrlsLastWins(xs: seq<Signing>, i: int)
    requires 0 <= i < |xs|
    requires forall j :: i < j < |xs| ==> xs[j].pet.id != xs[i].pet.id
    ensures xs[i].pet.id in SignedUrls(xs) && SignedUrls(xs)[xs[i].pet.id] == PhotoEntry(xs[i])
    decreases |xs|
  {
    if i < |xs| - 1 {
      var init := xs[..|xs| - 1];
      assert init[i] == xs[i];
      assert forall j :: i < j < |init| ==> init[j] == xs[j];
      SignedUrlsLastWins(init, i);
    }
  }

  /** The keys of the map depend on the pets only. */
  lemma {:induction false} SignedUrlsKeys(xs: seq<Signing>, ys: seq<Signing>)
    requires |xs| == |ys| && forall i :: 0 <= i < |xs| ==> xs[i].pet == ys[i].pet
    ensures SignedUrls(xs).Keys == SignedUrls(ys).Keys
    decreases |xs|
  {
    if xs != [] {
      var n := |xs| - 1;
      assert forall i :: 0 <= i < n ==> xs[..n][i] == xs[i] && ys[..n][i] == ys[i];
      SignedUrlsKeys(xs[..n], ys[..n]);
    }
  }

  /** The entry of `id` depends on the pets with that id only. */
  lemma {:induction false} SignedUrlsEntry(xs: seq<Signing>, ys: seq<Signing>, id: int)
    requires |xs| == |ys| && forall i :: 0 <= i < |xs| ==> xs[i].pet == ys[i].pet
    requires forall i :: 0 <= i < |xs| && xs[i].pet.id == id ==> xs[i] == ys[i]
    requires id in SignedUrls(xs)
    ensures id in SignedUrls(ys) && SignedUrls(ys)[id] == SignedUrls(xs)[id]
    decreases |xs|
  {
    var n := |xs| - 1;
    assert xs != [];
    var mx := SignedUrls(xs[..n]);
    var my := SignedUrls(ys[..n]);
    assert SignedUrls(xs) == mx[xs[n].pet.id := PhotoEntry(xs[n])];
    assert SignedUrls(ys) == my[ys[n].pet.id := PhotoEntry(ys[n])];
    if xs[n].pet.id != id {
      assert forall i :: 0 <= i < n ==> xs[..n][i] == xs[i] && ys[..n][i] == ys[i];
      SignedUrlsEntry(xs[..n], ys[..n], id);
    }
  }

  /** Changing one pet's signing outcome changes no key and no other pet's entry. */
  lemma {:induction false} SignedUrlsFailureIsLocal(xs: seq<Signing>, j: int, outcome: Option<string>)
    requires 0 <= j < |xs|
    ensures var ys := xs[j := Signing(xs[j].pet, outcome)];
      && SignedUrls(ys).Keys == SignedUrls(xs).Keys
      && forall id :: id in SignedUrls(xs) && id != xs[j].pet.id ==> SignedUrls(ys)[id] == SignedUrls(xs)[id]
  {
    var ys := xs[j := Signing(xs[j].pet, outcome)];
    SignedUrlsKeys(xs, ys);
    forall id | id in SignedUrls(xs) && id != xs[j].pet.id
      ensures SignedUrls(ys)[id] == SignedUrls(xs)[id]
    {
      SignedUrlsEntry(xs, ys, id);
    }
  }

  /** `setSelectedPet((p) => (p ? { ...p, is_lost } : p))` */
  function SetLost(selected: Option<Pet>, isLost: bool): (r: Option<Pet>)
    ensures r.Some? <==> selected.Some?
    ensures r.Some? ==> r.value.isLost == isLost && r.value.(isLost := selected.value.isLost) == selected.value
  {
    match selected
    case None => None
    case Some(p) => Some(p.(isLost := isLost))
  }

  /** `setSelectedPet((p) => (p ? { ...p, photo_url } : p))` */
  function SetPhoto(selected: Option<Pet>, photoUrl: Option<string>): (r: Option<Pet>)
    ensures r.Some? <==> selected.Some?
    ensures r.Some? ==> r.value.photoUrl == photoUrl && r.value.(photoUrl := selected.value.photoUrl) == selected.value
  {
    match selected
    case None => None
    case Some(p) => Some(p.(photoUrl := photoUrl))
  }

  /** The storage path of a pet's photo: `<user id>/<pet id>/main.jpg`. */
  function PhotoPath(userId: string, petId: int): (path: string)
    ensures |path| > |userId| && path[..|userId|] == userId && path[|userId|] == '/'
  {
    userId + "/" + IntToString(petId) + "/main.jpg"
  }

  /** Different pets of one user, or pets of users whose ids hold no slash, never share a
      path, so an upload replaces only that pet's photo. */
  lemma {:induction false} PhotoPathsDistinct(u1: string, p1: int, u2: string, p2: int)
    requires '/' !in u1 && '/' !in u2
    requires PhotoPath(u1, p1) == PhotoPath(u2, p2)
    ensures u1 == u2 && p1 == p2
  {
    var path := PhotoPath(u1, p1);
    if |u1| < |u2| {
      assert false;
    } else if |u2| < |u1| {
      assert false;
    }
    assert u1 == path[..|u1|] == u2;
    var d1 := IntToString(p1);
    var d2 := IntToString(p2);
    var tail := "/main.jpg";
    assert path == u1 + "/" + d1 + tail == u2 + "/" + d2 + tail;
    assert |d1| == |d2|;
    assert d1 == path[|u1| + 1..|u1| + 1 + |d1|] == d2;
    IntToStringRoundTrip(p1);
    IntToStringRoundTrip(p2);
  }

  /** The state the handlers read and write. */
  datatype UiState = UiState(
    screen: Screen, email: string, password: string, loading: bool,
    pets: seq<Pet>, petSignedUrls: map<int, Option<string>>,
    selectedPet: Option<Pet>, petPhotoSignedUrl: Option<string>, isEditing: bool)

  function Initial(): UiState {
    UiState(Login, "", "", false, [], map[], None, None, false)
  }

  /** Every listed pet has an entry in the signed-URL map. */
  predicate Coherent(s: UiState) {
    forall i :: 0 <= i < |s.pets| ==> s.pets[i].id in s.petSignedUrls
  }

  /** What `fetchPets` gets back: no user, a query error, or the rows with the signing
      outcome of each row's photo. */
  datatype FetchOutcome = NoUser | FetchFailed | Fetched(rows: seq<Signing>)

  /** The outcome of `getSession`. */
  datatype SessionOutcome = SessionError | NoSession | HasSession

  /** How far `pickAndUploadPetPhoto` gets: the four early exits, the two failed requests,
      or the saved row's `photo_url`. */
  datatype UploadFlow = NotSignedIn | PermissionDenied | Canceled | EmptyImage | UploadFailed | SaveFailed | Saved(photoUrl: Option<string>)

  function HomePhotosStep(s: UiState, xs: seq<Signing>): UiState {
    s.(petSignedUrls := SignedUrls(xs))
  }

  function FetchStep(s: UiState, outcome: FetchOutcome): UiState {
    match outcome
    case Fetched(rows) => HomePhotosStep(s.(pets := PetsOf(rows)), rows)
    case _ => s
  }

  function SelectedPhotoStep(s: UiState, photoPath: Option<string>, signedUrl: Option<string>): UiState {
    if photoPath.None? || photoPath.value == "" then s.(petPhotoSignedUrl := None)
    else s.(petPhotoSignedUrl := signedUrl)
  }

  /** The auth listener's reaction to a session that ended. */
  function SignedOut(s: UiState): UiState {
    s.(pets := [], selectedPet := None, petPhotoSignedUrl := None, isEditing := false, screen := Login)
  }

  function LogoutStep(s: UiState, signOutFailed: bool): UiState {
    if signOutFailed then s.(loading := false)
    else SignedOut(s).(loading := false, email := "", password := "")
  }

  function AuthStep(s: UiState, hasSession: bool, fetch: FetchOutcome): UiState {
    if hasSession then FetchStep(s, fetch).(screen := Home) else SignedOut(s)
  }

  function InitStep(s: UiState, session: SessionOutcome, fetch: FetchOutcome): UiState {
    match session
    case HasSession => FetchStep(s, fetch).(screen := Home, loading := false)
    case _ => s.(screen := Login, loading := false)
  }

  function LostStatusStep(s: UiState, isLost: bool, updateFailed: bool, fetch: FetchOutcome): UiState {
    if updateFailed then s.(loading := false)
    else FetchStep(s.(selectedPet := SetLost(s.selectedPet, isLost)), fetch).(loading := false)
  }

  function SaveStep(s: UiState, draft: Profile.Draft, toNumber: string -> JsNumber, saved: Option<Pet>, fetch: FetchOutcome): UiState {
    if Profile.ValidateProfile(s.selectedPet.Some?, draft, toNumber).Failure? then s
    else if saved.None? then s.(loading := false)
    else FetchStep(s.(selectedPet := saved, isEditing := false), fetch).(loading := false)
  }

  function UploadStep(s: UiState, flow: UploadFlow, photoSignedUrl: Option<string>, fetch: FetchOutcome): UiState {
    if flow.UploadFailed? || flow.SaveFailed? then s.(loading := false)
    else if flow.Saved? then
      var t := SelectedPhotoStep(s.(selectedPet := SetPhoto(s.selectedPet, flow.photoUrl)), flow.photoUrl, photoSignedUrl);
      FetchStep(t, fetch).(loading := false)
    else s
  }

  /** A successful logout ends on the login screen with nothing selected, no pets, no edit
      in progress and empty credentials. */
  lemma {:induction false} LogoutClearsSession(s: UiState)
    ensures var t := LogoutStep(s, false);
      && t.screen == Login && t.pets == [] && t.selectedPet == None && t.petPhotoSignedUrl == None
      && !t.isEditing && t.email == "" && t.password == "" && !t.loading
      && t.petSignedUrls == s.petSignedUrls
  {
  }

  /** A failed sign-out changes nothing but the loading flag, which ends cleared. */
  lemma {:induction false} FailedLogoutKeepsState(s: UiState)
    ensures LogoutStep(s, true).(loading := s.loading) == s
    ensures !s.loading ==> LogoutStep(s, true) == s
  {
  }

  /** The signed-out auth event resets the same state as logout, but keeps the credentials
      and the loading flag. */
  lemma {:induction false} SignedOutIsLogoutWithoutCredentials(s: UiState)
    ensures AuthStep(s, false, NoUser) == LogoutStep(s, false).(email := s.email, password := s.password, loading := s.loading)
    ensures AuthStep(AuthStep(s, false, NoUser), false, NoUser) == AuthStep(s, false, NoUser)
  {
  }

  /** With no refresh, the lost-status update changes only the selected pet's flag. */
  lemma {:induction false} LostStatusChangesOnlyTheFlag(s: UiState, isLost: bool)
    requires !s.loading
    ensures var t := LostStatusStep(s, isLost, false, NoUser);
      && t.(selectedPet := s.selectedPet) == s
      && (s.selectedPet == None ==> t.selectedPet == None)
      && (s.selectedPet.Some? ==> t.selectedPet.value.isLost == isLost)
  {
  }

  /** With no refresh, a saved photo changes the selected pet's path and the detail URL only. */
  lemma {:induction false} UploadChangesOnlyThePhoto(s: UiState, photoUrl: Option<string>, signedUrl: Option<string>)
    requires !s.loading
    ensures var t := UploadStep(s, Saved(photoUrl), signedUrl, NoUser);
      && t.(selectedPet := s.selectedPet, petPhotoSignedUrl := s.petPhotoSignedUrl) == s
      && (s.selectedPet == None ==> t.selectedPet == None)
      && (s.selectedPet.Some? ==> t.selectedPet.value.photoUrl == photoUrl)
  {
  }

  /** A refresh leaves every listed pet in the signed-URL map. */
  lemma {:induction false} FetchKeepsCoherent(s: UiState, fetch: FetchOutcome)
    requires Coherent(s)
    ensures Coherent(FetchStep(s, fetch))
  {
    if fetch.Fetched? {
      SignedUrlsKeysArePetIds(fetch.rows);
      var t := FetchStep(s, fetch);
      forall i | 0 <= i < |t.pets| ensures t.pets[i].id in t.petSignedUrls {
        assert t.pets[i] == fetch.rows[i].pet;
      }
    }
  }

  /** The app component's state and handlers. */
  class App {
    var screen: Screen
    var email: string
    var password: string
    var loading: bool
    var pets: seq<Pet>
    var petSignedUrls: map<int, Option<string>>
    var selectedPet: Option<Pet>
    var petPhotoSignedUrl: Option<string>
    var isEditing: bool

    function State(): UiState
      reads this
    {
      UiState(screen, email, password, loading, pets, petSignedUrls, selectedPet, petPhotoSignedUrl, isEditing)
    }

    predicate Valid()
      reads this
    {
      Coherent(State())
    }

    constructor()
      ensures State() == Initial() && Valid()
    {
      screen := Login;
      email := "";
      password := "";
      loading := false;
      pets := [];
      petSignedUrls := map[];
      selectedPet := None;
      petPhotoSignedUrl := None;
      isEditing := false;
    }

    /** `loadHomePetPhotos` */
    method LoadHomePetPhotos(resolved: seq<Signing>)
      modifies this
      ensures State() == HomePhotosStep(old(State()), resolved)
    {
      if |resolved| == 0 {
        petSignedUrls := map[];
        return;
      }
      petSignedUrls := SignedUrls(resolved);
    }

    /** `fetchPets` */
    method FetchPets(outcome: FetchOutcome)
      requires Valid()
      modifies this
      ensures Valid()
      ensures State() == FetchStep(old(State()), outcome)
    {
      FetchKeepsCoherent(State(), outcome);
      match outcome {
        case NoUser => return;
        case FetchFailed => return;
        case Fetched(rows) =>
          pets := PetsOf(rows);
          LoadHomePetPhotos(rows);
      }
    }

    /** `loadSelectedPetPhoto`; `signedUrl` is the signing outcome, `None` on error. */
    method LoadSelectedPetPhoto(photoPath: Option<string>, signedUrl: Option<string>)
      modifies this
      ensures State() == SelectedPhotoStep(old(State()), photoPath, signedUrl)
    {
      if photoPath.None? || photoPath.value == "" {
        petPhotoSignedUrl := None;
        return;
      }
      petPhotoSignedUrl := signedUrl;
    }

    /** `handleLogout` */
    method Logout(signOutFailed: bool)
      requires Valid()
      modifies this
      ensures Valid()
      ensures State() == LogoutStep(old(State()), signOutFailed)
    {
      loading := true;
      loading := false;
      if signOutFailed {
        return;
      }
      pets := [];
      selectedPet := None;
      petPhotoSignedUrl := None;
      isEditing := false;
      email := "";
      password := "";
      screen := Login;
    }

    /** The `onAuthStateChange` listener. */
    method AuthStateChanged(hasSession: bool, fetch: FetchOutcome)
      requires Valid()
      modifies this
      ensures Valid()
      ensures State() == AuthStep(old(State()), hasSession, fetch)
    {
      if hasSession {
        FetchPets(fetch);
        screen := Home;
      } else {
        pets := [];
        selectedPet := None;
        petPhotoSignedUrl := None;
        isEditing := false;
        screen := Login;
      }
    }

    /** The start-up `init`. */
    method Init(session: SessionOutcome, fetch: FetchOutcome)
      requires Valid()
      modifies this
      ensures Valid()
      ensures State() == InitStep(old(State()), session, fetch)
    {
      loading := true;
      match session {
        case SessionError => screen := Login;
        case HasSession =>
          FetchPets(fetch);
          screen := Home;
        case NoSession => screen := Login;
      }
      loading := false;
    }

    /** `updatePetLostStatus`: the optimistic flag on the selection, then a refresh. The
        selection is updated whichever pet `petId` names. */
    method UpdatePetLostStatus(petId: int, isLost: bool, updateFailed: bool, fetch: FetchOutcome)
      requires Valid()
      modifies this
      ensures Valid()
      ensures State() == LostStatusStep(old(State()), isLost, updateFailed, fetch)
    {
      loading := true;
      if updateFailed {
        loading := false;
        return;
      }
      selectedPet := SetLost(selectedPet, isLost);
      FetchPets(fetch);
      loading := false;
    }

    /** `savePetProfile`; `saved` is the updated row, `None` when the update failed. */
    method SavePetProfile(draft: Profile.Draft, toNumber: string -> JsNumber, saved: Option<Pet>, fetch: FetchOutcome)
      requires Valid()
      modifies this
      ensures Valid()
      ensures State() == SaveStep(old(State()), draft, toNumber, saved, fetch)
    {
      var checked := Profile.ValidateProfile(selectedPet.Some?, draft, toNumber);
      if checked.Failure? {
        return;
      }
      loading := true;
      if saved.None? {
        loading := false;
        return;
      }
      selectedPet := saved;
      isEditing := false;
      assert State().pets == old(State()).pets && State().petSignedUrls == old(State()).petSignedUrls;
      FetchPets(fetch);
      loading := false;
    }

    /** `pickAndUploadPetPhoto`; `photoSignedUrl` is the signing outcome of the new photo. */
    method PickAndUploadPetPhoto(petId: int, flow: UploadFlow, photoSignedUrl: Option<string>, fetch: FetchOutcome)
      requires Valid()
      modifies this
      ensures Valid()
      ensures State() == UploadStep(old(State()), flow, photoSignedUrl, fetch)
    {
      if flow.UploadFailed? || flow.SaveFailed? {
        loading := true;
        loading := false;
      } else if flow.Saved? {
        loading := true;
        selectedPet := SetPhoto(selectedPet, flow.photoUrl);
        LoadSelectedPetPhoto(flow.photoUrl, photoSignedUrl);
        FetchPets(fetch);
        loading := false;
      }
    }
  }
}
