/**
 * services/commons/user.js: creating and updating end users. The identity of
 * a new user, its generated uid, random name and downloaded photo come from
 * oracles the caller passes in (`hash.uuid`, node-random-name, the photo
 * download).
 */
module UserCommons {
  import opened Wrappers
  import opened JsonValue
  import opened Models
  import Text
  import Database

  /** The attributes a caller may send; `None` stands for an attribute that was not sent. */
  datatype UserData = UserData(
    id: Option<Id>,
    app: Option<Id>,
    uid: Option<string>,
    identified: Option<bool>,
    firstName: Option<string>,
    lastName: Option<string>,
    randomName: Option<bool>,
    email: Option<string>,
    photo: Option<string>,
    photoUrl: Option<string>,
    properties: Option<seq<(string, Json)>>,
    signUpDate: Option<string>,
    extra: Option<map<string, Json>>,
    registrationDate: Option<int>)

  /** Whether `data` carries any of the attributes a caller may not set (`UNALLOWED_ATTRS`). */
  predicate CarriesProtected(data: UserData)
  {
    data.id.Some? || data.app.Some? || data.photo.Some? || data.randomName.Some? || data.registrationDate.Some?
  }

  /** `_.omit(data, UNALLOWED_ATTRS)`. */
  function OmitProtected(data: UserData): (r: UserData)
    ensures !CarriesProtected(r)
    ensures !CarriesProtected(data) ==> r == data
  {
    data.(id := None, app := None, photo := None, randomName := None, registrationDate := None)
  }

  /**
   * The first and last name drawn from a generated "First Last" name: the
   * words before the first and second space; a name without a space has no
   * last name.
   */
  function RandomNames(generated: string): (r: (Option<string>, Option<string>))
    ensures r.0 == Some(Text.Split(generated, ' ')[0]) && ' ' !in r.0.value
    ensures r.1.Some? <==> ' ' in generated
    ensures r.1.Some? ==> r.1.value == Text.Split(generated, ' ')[1] && ' ' !in r.1.value
    ensures ' ' !in generated ==> r == (Some(generated), None)
  {
    var parts := Text.Split(generated, ' ');
    if ' ' !in generated then
      assert Text.Join(parts, [' ']) == generated;
      assert |parts| == 1 by {
        if |parts| > 1 {
          JoinKeepsSeparator(parts);
        }
      }
      (Some(parts[0]), None)
    else
      (Some(parts[0]), Some(parts[1]))
  }

  lemma JoinKeepsSeparator(parts: seq<string>)
    requires |parts| > 1
    ensures ' ' in Text.Join(parts, [' '])
  {
    var rest := Text.Join(parts[1..], [' ']);
    assert Text.Join(parts, [' ']) == parts[0] + [' '] + rest;
    assert (parts[0] + [' '] + rest)[|parts[0]|] == ' ';
  }

  /** The uid a new user gets: the one sent, or the generated `freshUid`. */
  function NewUid(data: UserData, freshUid: string): string
  {
    if Present(data.uid) then data.uid.value else freshUid
  }

  /**
   * Whether `u` is the user `createUser` builds for `data` in the app `app`:
   * `now` is the registration date, `freshUid` the generated uid,
   * `generatedName` the random name and `downloaded` the outcome of the photo
   * download (`None` when it fails). The protected attributes of `data` play
   * no part.
   */
  predicate BuiltFrom(u: User, app: Id, data: UserData, now: int, freshUid: string, generatedName: string, downloaded: Option<string>)
  {
    && u.app == app && u.registrationDate == now
    && u.identified == (data.identified == Some(true))
    && u.uid == NewUid(data, freshUid)
    && (u.randomName <==> !Present(data.firstName) && !Present(data.lastName))
    && (u.randomName ==> (u.firstName, u.lastName) == RandomNames(generatedName))
    && (!u.randomName ==> u.firstName == data.firstName && u.lastName == data.lastName)
    && u.photo == downloaded
    && u.email == data.email && u.photoUrl == data.photoUrl
    && u.properties == data.properties.GetOr([]) && u.signUpDate == data.signUpDate
    && u.extra == data.extra.GetOr(map[])
  }

  /** The user `createUser` builds before saving it; an identified user must bring its uid. */
  method NewUser(app: Id, data: UserData, now: int, freshUid: string, generatedName: string, downloaded: Option<string>)
    returns (r: Result<User, Error>)
    ensures r.Err? <==> data.identified == Some(true) && !Present(data.uid)
    ensures r.Err? ==> r.error == UserUidRequired
    ensures r.Ok? ==> BuiltFrom(r.value, app, data, now, freshUid, generatedName, downloaded)
  {
    if data.identified == Some(true) && !Present(data.uid) {
      return Err(UserUidRequired);
    }
    var d := OmitProtected(data);
    var user := User(0, app, d.uid.GetOr(""), d.identified.GetOr(false), d.firstName, d.lastName, false,
                     d.email, None, d.photoUrl, d.properties.GetOr([]), d.signUpDate, d.extra.GetOr(map[]), now);
    if !user.identified {
      user := user.(identified := false);
    }
    if user.uid == "" {
      user := user.(uid := freshUid);
    }
    if !Present(user.firstName) && !Present(user.lastName) {
      var names := RandomNames(generatedName);
      user := user.(firstName := names.0, lastName := names.1, randomName := true);
    }
    user := user.(photo := downloaded);
    r := Ok(user);
  }

  /** `createUser`: build the user, then save it under a fresh id unless (app, uid) is taken. */
  method CreateUser(store: Database.Store, app: Id, data: UserData, now: int, freshUid: string,
                    generatedName: string, downloaded: Option<string>)
    returns (r: Result<User, Error>)
    requires store.Valid()
    modifies store`users, store`nextId
    ensures store.Valid()
    ensures r.Err? <==> (data.identified == Some(true) && !Present(data.uid)) ||
                        exists k :: k in old(store.users) && old(store.users)[k].app == app && old(store.users)[k].uid == NewUid(data, freshUid)
    ensures r.Err? ==> r.error == (if data.identified == Some(true) && !Present(data.uid) then UserUidRequired else DuplicateKey)
    ensures r.Err? ==> store.users == old(store.users) && store.nextId == old(store.nextId)
    ensures r.Ok? ==> r.value.id !in old(store.users) && store.users == old(store.users)[r.value.id := r.value]
    ensures r.Ok? ==> BuiltFrom(r.value, app, data, now, freshUid, generatedName, downloaded)
  {
    var built := NewUser(app, data, now, freshUid, generatedName, downloaded);
    if built.Err? {
      return built;
    }
    r := store.InsertUser(built.value);
  }

  /** The stored user `u` after `data` is written over it, attribute by attribute. */
  function Apply(u: User, data: UserData): User
  {
    u.(uid := data.uid.GetOr(u.uid),
       identified := data.identified.GetOr(u.identified),
       firstName := if data.firstName.Some? then data.firstName else u.firstName,
       lastName := if data.lastName.Some? then data.lastName else u.lastName,
       randomName := data.randomName.GetOr(u.randomName),
       email := if data.email.Some? then data.email else u.email,
       photo := if data.photo.Some? then data.photo else u.photo,
       photoUrl := if data.photoUrl.Some? then data.photoUrl else u.photoUrl,
       properties := data.properties.GetOr(u.properties),
       signUpDate := if data.signUpDate.Some? then data.signUpDate else u.signUpDate,
       extra := data.extra.GetOr(u.extra))
  }

  /** Whether `updateUser` downloads the photo again: the photo URL is sent and differs from the stored one. */
  predicate PhotoUrlChanged(loaded: User, data: UserData)
  {
    Present(data.photoUrl) && Some(data.photoUrl.value) != loaded.photoUrl
  }

  /**
   * Whether `u` is the user `updateUser` saves for the stored user `loaded`,
   * where `downloaded` is the outcome of downloading the photo again (`None`
   * when the download fails): identity, app and registration date are kept,
   * every other attribute sent replaces the stored one, sending a name clears
   * the random-name flag, and the photo changes only after a successful
   * download from a new URL.
   */
  predicate UpdatedFrom(u: User, loaded: User, data: UserData, downloaded: Option<string>)
  {
    && u.id == loaded.id && u.app == loaded.app && u.registrationDate == loaded.registrationDate
    && u.photo == (if PhotoUrlChanged(loaded, data) && downloaded.Some? then downloaded else loaded.photo)
    && u.randomName == (if Present(data.firstName) || Present(data.lastName) then false else loaded.randomName)
    && u.firstName == (if data.firstName.Some? then data.firstName else loaded.firstName)
    && u.lastName == (if data.lastName.Some? then data.lastName else loaded.lastName)
    && u.uid == data.uid.GetOr(loaded.uid) && u.identified == data.identified.GetOr(loaded.identified)
    && u.email == (if data.email.Some? then data.email else loaded.email)
    && u.photoUrl == (if data.photoUrl.Some? then data.photoUrl else loaded.photoUrl)
    && u.properties == data.properties.GetOr(loaded.properties)
    && u.extra == data.extra.GetOr(loaded.extra)
    && u.signUpDate == (if data.signUpDate.Some? then data.signUpDate else loaded.signUpDate)
  }

  /** The user `updateUser` builds from the stored user `loaded` before saving it. */
  method UpdatedUser(loaded: User, data: UserData, downloaded: Option<string>) returns (u: User)
    ensures UpdatedFrom(u, loaded, data, downloaded)
  {
    var finalData := OmitProtected(data);
    if Present(finalData.firstName) || Present(finalData.lastName) {
      finalData := finalData.(randomName := Some(false));
    }
    if PhotoUrlChanged(loaded, finalData) && downloaded.Some? {
      finalData := finalData.(photo := downloaded);
    }
    u := Apply(loaded, finalData);
  }

  /** Update data that carries only a new `extra`. */
  function ExtraUpdate(extra: map<string, Json>): UserData
  {
    UserData(None, None, None, None, None, None, None, None, None, None, None, None, Some(extra), None)
  }

  /** `updateUser` on the stored user `id`. */
  method UpdateUser(store: Database.Store, id: Id, data: UserData, downloaded: Option<string>)
    returns (r: Result<User, Error>)
    requires store.Valid()
    modifies store`users
    ensures store.Valid()
    ensures id !in old(store.users) ==> r == Err(UserNotFound)
    ensures id in old(store.users) ==>
              (r.Err? <==> exists k :: k in old(store.users) && k != id && old(store.users)[k].app == old(store.users)[id].app &&
                                       old(store.users)[k].uid == data.uid.GetOr(old(store.users)[id].uid))
    ensures id in old(store.users) && r.Err? ==> r.error == DuplicateKey
    ensures r.Err? ==> store.users == old(store.users)
    ensures r.Ok? ==> id in old(store.users) && r.value.id == id && store.users == old(store.users)[id := r.value]
    ensures r.Ok? ==> UpdatedFrom(r.value, old(store.users)[id], data, downloaded)
    ensures id in old(store.users) && data.uid.None? ==> r.Ok?
    ensures r.Ok? && data.extra.Some? && data == ExtraUpdate(data.extra.value) ==>
              r.value == old(store.users)[id].(extra := data.extra.value)
  {
    if id !in store.users {
      return Err(UserNotFound);
    }
    var u := UpdatedUser(store.users[id], data, downloaded);
    Database.UsersUniqueOthers(store.users, id);
    r := store.UpdateUser(u);
  }
}
