/**
 * services/chat/messenger.js: a message a Facebook Messenger user sends to a
 * page is forwarded to the chat of the device that user has in the page's
 * app, creating the user and the device on first contact. The Facebook
 * profile, generated ids and names and the photo download are oracles.
 */
module Messenger {
  import opened Wrappers
  import opened JsonValue
  import opened Constants
  import opened Models
  import Text
  import Database
  import UserCommons
  import DeviceCommons

  /** The fields of a Facebook profile the core reads; the time zone as it is stored, in text. */
  datatype Profile = Profile(
    firstName: Option<string>,
    lastName: Option<string>,
    profilePic: Option<string>,
    gender: Option<string>,
    locale: Option<string>,
    timezone: Option<string>)

  /** A webhook messaging event: the sender's id, the page's id and the message text. */
  datatype MessengerEvent = MessengerEvent(senderId: string, recipientId: string, text: Option<string>)

  /** The chat message handed to the chat service: for this user, through this device. */
  datatype Forward = Forward(user: Id, device: Id, text: string)

  /** `getUserData`: an anonymous user named after the profile. */
  function GetUserData(profile: Profile, uid: string): (r: UserCommons.UserData)
    ensures r.identified == Some(false) && r.uid == Some(uid)
    ensures r.firstName == profile.firstName && r.lastName == profile.lastName
    ensures !UserCommons.CarriesProtected(r)
    ensures r.email.None? && r.photoUrl.None? && r.properties.None? && r.extra.None?
  {
    UserCommons.UserData(None, None, Some(uid), Some(false), profile.firstName, profile.lastName,
                         None, None, None, None, None, None, None, None)
  }

  /** Adds `key := value` to `info` when the value is given; a missing or null value is not stored. */
  function WithOptional(info: map<string, string>, key: string, value: Option<string>): map<string, string>
  {
    if value.Some? then info[key := value.value] else info
  }

  /** `getDeviceData`: a Messenger device whose `info` records the sender's profile. */
  function GetDeviceData(user: User, profile: Profile, senderId: string, uid: string): (r: DeviceCommons.DeviceData)
    ensures r.uid == Some(uid) && r.platform == Some(PlatformId(MessengerPlatform))
    ensures r.id.None? && r.user.None? && r.app.None?
    ensures r.info.Some? && "profile_id" in r.info.value && "profile_name" in r.info.value
    ensures r.info.value["profile_id"] == senderId && r.info.value["profile_name"] == GetFullName(user)
    ensures "profile_gender" in r.info.value <==> Present(profile.gender)
    ensures "profile_gender" in r.info.value ==> r.info.value["profile_gender"] == Text.ToLower(profile.gender.value)
  {
    var info := map["profile_id" := senderId, "profile_name" := GetFullName(user)];
    var info := WithOptional(info, "profile_picture", profile.profilePic);
    var info := WithOptional(info, "profile_gender", if Present(profile.gender) then Some(Text.ToLower(profile.gender.value)) else None);
    var info := WithOptional(info, "profile_locale", profile.locale);
    var info := WithOptional(info, "profile_timezone", profile.timezone);
    DeviceCommons.DeviceData(None, None, None, None, Some(uid), Some(PlatformId(MessengerPlatform)), None, None, Some(info))
  }

  /** The browser details are never filled into a Messenger device's data. */
  lemma MessengerDataNotFixed(user: User, profile: Profile, senderId: string, uid: string, parse: DeviceCommons.UserAgentParser)
    ensures var data := GetDeviceData(user, profile, senderId, uid);
            DeviceCommons.FixDeviceData(PlatformId(Browser), parse, data) == data
  {
    PlatformsDistinct(Browser, MessengerPlatform);
  }

  /** Whether `d` is a device of the sender `senderId` whose user belongs to the app `app`. */
  predicate SenderDevice(users: map<Id, User>, d: Device, senderId: string, app: Id)
  {
    && d.info.Some? && "profile_id" in d.info.value && d.info.value["profile_id"] == senderId
    && d.user in users && users[d.user].app == app
  }

  /** `devices.find(...)` over the sender's devices in id order: the first one whose user is in `app`. */
  method FindSenderDevice(store: Database.Store, senderId: string, app: Id) returns (r: Option<Device>)
    requires store.Valid()
    ensures r.Some? ==> r.value.id in store.devices && store.devices[r.value.id] == r.value
    ensures r.Some? ==> SenderDevice(store.users, r.value, senderId, app)
    ensures r.Some? ==> forall k :: k in store.devices && k < r.value.id ==> !SenderDevice(store.users, store.devices[k], senderId, app)
    ensures r.None? <==> forall k :: k in store.devices ==> !SenderDevice(store.users, store.devices[k], senderId, app)
  {
    var k := 0;
    while k < store.nextId
      invariant k <= store.nextId
      invariant forall j :: j in store.devices && j < k ==> !SenderDevice(store.users, store.devices[j], senderId, app)
    {
      if k in store.devices && SenderDevice(store.users, store.devices[k], senderId, app) {
        return Some(store.devices[k]);
      }
      k := k + 1;
    }
    return None;
  }

  /** Whether a user of the app `app` already has the uid `uid`. */
  predicate UidTaken(users: map<Id, User>, app: Id, uid: string)
  {
    exists k :: k in users && users[k].app == app && users[k].uid == uid
  }

  /**
   * `createDevice`: a new anonymous user in the integration's app, then a new
   * Messenger device of that user recording the sender's profile. The user is
   * new, so its device cannot clash with a stored one: the only failures are a
   * taken user uid and an empty device uid (after which the user stays saved).
   */
  method CreateSenderDevice(store: Database.Store, integration: Integration, senderId: string, profile: Profile,
                            userUid: string, deviceUid: string, generatedName: string, downloaded: Option<string>,
                            parse: DeviceCommons.UserAgentParser, now: int)
    returns (r: Result<Device, Error>)
    requires store.Valid()
    modifies store`users, store`devices, store`nextId
    ensures store.Valid()
    ensures r.Err? <==> deviceUid == "" || UidTaken(old(store.users), integration.app, userUid)
    ensures r.Err? ==> r.error == (if UidTaken(old(store.users), integration.app, userUid) then DuplicateKey else DeviceUidRequired)
    ensures r.Err? ==> store.devices == old(store.devices)
    ensures UidTaken(old(store.users), integration.app, userUid) ==> store.users == old(store.users)
    ensures r.Ok? ==> r.value.id !in old(store.devices) && store.devices == old(store.devices)[r.value.id := r.value]
    ensures r.Ok? ==> r.value.user in store.users && r.value.user !in old(store.users) && store.users == old(store.users)[r.value.user := store.users[r.value.user]]
    ensures r.Ok? ==> UserCommons.BuiltFrom(store.users[r.value.user], integration.app, GetUserData(profile, userUid),
                                            now, userUid, generatedName, downloaded)
    ensures r.Ok? ==> DeviceCommons.BuiltFrom(r.value, store.users[r.value.user],
                                              GetDeviceData(store.users[r.value.user], profile, senderId, deviceUid), parse, now)
    ensures r.Ok? ==> SenderDevice(store.users, r.value, senderId, integration.app)
    ensures r.Ok? ==> IsMessenger(r.value.platform)
  {
    var user := UserCommons.CreateUser(store, integration.app, GetUserData(profile, userUid), now, userUid, generatedName, downloaded);
    if user.Err? {
      return Err(user.error);
    }
    var data := GetDeviceData(user.value, profile, senderId, deviceUid);
    MessengerDataNotFixed(user.value, profile, senderId, deviceUid, parse);
    assert forall k :: k in store.devices ==> store.devices[k].user != user.value.id by {
      assert Database.DevicesKeyed(old(store.devices), old(store.users), old(store.nextId));
    }
    r := DeviceCommons.CreateDevice(store, user.value.id, data, parse, now);
  }

  /** Whether some Messenger integration belongs to the page `pageId` and the app `app`. */
  predicate PageOf(integrations: map<Id, Integration>, pageId: string, app: Id)
  {
    exists k :: k in integrations && integrations[k].channel == MessengerChannel
                && PageId(integrations[k]) == Some(Str(pageId)) && integrations[k].app == app
  }

  /** Whether some Messenger integration belongs to the page `pageId`. */
  predicate HasPage(integrations: map<Id, Integration>, pageId: string)
  {
    exists k :: k in integrations && integrations[k].channel == MessengerChannel && PageId(integrations[k]) == Some(Str(pageId))
  }

  /** The page id index makes a page's integration, and so its app, unique. */
  lemma PageOwner(integrations: map<Id, Integration>, pageId: string, i: Integration)
    requires IntegrationsUnique(integrations)
    requires i.id in integrations && integrations[i.id] == i
    requires i.channel == MessengerChannel && PageId(i) == Some(Str(pageId))
    ensures forall app :: PageOf(integrations, pageId, app) ==> app == i.app
  {
    forall app | PageOf(integrations, pageId, app)
      ensures app == i.app
    {
      var k :| k in integrations && integrations[k].channel == MessengerChannel
               && PageId(integrations[k]) == Some(Str(pageId)) && integrations[k].app == app;
      assert PageKey(integrations[k]) == PageKey(integrations[i.id]);
    }
  }

  /** Whether the sender already has a device whose user belongs to the app `app`. */
  predicate HasSenderDevice(users: map<Id, User>, devices: map<Id, Device>, senderId: string, app: Id)
  {
    exists k :: k in devices && SenderDevice(users, devices[k], senderId, app)
  }

  /**
   * `postMessage`: nothing happens for an event without text or for a page
   * no app has integrated; otherwise the message is forwarded through the
   * sender's device in the page's app, which is created (with its user) when
   * the sender has none there. `profile` is the sender's Facebook profile,
   * fetched only when a device is created.
   */
  method PostMessage(store: Database.Store, event: MessengerEvent, profile: Result<Profile, Error>,
                     userUid: string, deviceUid: string, generatedName: string, downloaded: Option<string>,
                     parse: DeviceCommons.UserAgentParser, now: int)
    returns (r: Result<Option<Forward>, Error>)
    requires store.Valid()
    modifies store`users, store`devices, store`nextId
    ensures store.Valid()
    ensures !Present(event.text) || !HasPage(old(store.integrations), event.recipientId) ==>
              r == Ok(None) && store.users == old(store.users) && store.devices == old(store.devices)
    ensures r.Err? ==> store.devices == old(store.devices)
    ensures r.Ok? && r.value.Some? ==>
              var f := r.value.value;
              && Present(event.text) && f.text == event.text.value
              && f.device in store.devices && store.devices[f.device].user == f.user
              && f.user in store.users && PageOf(store.integrations, event.recipientId, store.users[f.user].app)
              && SenderDevice(store.users, store.devices[f.device], event.senderId, store.users[f.user].app)
    ensures r.Ok? && r.value.Some? && r.value.value.device in old(store.devices) ==>
              store.users == old(store.users) && store.devices == old(store.devices)
    ensures r.Ok? && r.value.Some? && r.value.value.device !in old(store.devices) ==>
              && r.value.value.user !in old(store.users)
              && store.users.Keys == old(store.users).Keys + {r.value.value.user}
              && store.devices.Keys == old(store.devices).Keys + {r.value.value.device}
    ensures forall app :: Present(event.text) && PageOf(old(store.integrations), event.recipientId, app)
                          && HasSenderDevice(old(store.users), old(store.devices), event.senderId, app) ==>
              && r.Ok? && r.value.Some? && r.value.value.device in old(store.devices)
              && SenderDevice(old(store.users), old(store.devices)[r.value.value.device], event.senderId, app)
              && (forall k :: k in old(store.devices) && k < r.value.value.device ==>
                                !SenderDevice(old(store.users), old(store.devices)[k], event.senderId, app))
    ensures forall app :: Present(event.text) && PageOf(old(store.integrations), event.recipientId, app)
                          && !HasSenderDevice(old(store.users), old(store.devices), event.senderId, app) ==>
              && (profile.Err? ==> r == Err(profile.error) && store.users == old(store.users))
              && (profile.Ok? ==> (r.Ok? <==> deviceUid != "" && !UidTaken(old(store.users), app, userUid)))
              && (r.Ok? ==> r.value.Some? && r.value.value.device !in old(store.devices))
  {
    if !Present(event.text) {
      return Ok(None);
    }
    var integration := store.FindIntegrationByPage(MessengerChannel, Str(event.recipientId));
    if integration.None? {
      return Ok(None);
    }
    PageOwner(store.integrations, event.recipientId, integration.value);
    var found := FindSenderDevice(store, event.senderId, integration.value.app);
    var device: Device;
    if found.Some? {
      device := found.value;
    } else {
      if profile.Err? {
        return Err(profile.error);
      }
      var created := CreateSenderDevice(store, integration.value, event.senderId, profile.value, userUid, deviceUid,
                                        generatedName, downloaded, parse, now);
      if created.Err? {
        return Err(created.error);
      }
      device := created.value;
    }
    r := Ok(Some(Forward(device.user, device.id, event.text.value)));
  }
}
