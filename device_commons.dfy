/**
 * services/commons/device.js: the not-found rule of device queries, the
 * browser details filled in from a user agent, and creating and updating
 * devices. The user-agent parser (detect-browser) is an oracle parameter.
 */
module DeviceCommons {
  import opened Wrappers
  import opened JsonValue
  import opened Constants
  import opened Models
  import Database

  /** The attributes a caller may send; `None` stands for an attribute that was not sent. */
  datatype DeviceData = DeviceData(
    id: Option<Id>,
    user: Option<Id>,
    registrationDate: Option<int>,
    app: Option<Id>,
    uid: Option<string>,
    platform: Option<string>,
    channel: Option<string>,
    pushToken: Option<string>,
    info: Option<map<string, string>>)

  /** What detect-browser reports for a user agent. */
  datatype BrowserInfo = BrowserInfo(name: string, version: string, os: string)

  /** `detectBrowser.parseUserAgent`: `None` when the agent is not recognised. */
  type UserAgentParser = string -> Option<BrowserInfo>

  /** Whether a missing device is an error: no options, or options asking for `require`. */
  predicate MustExist(options: Option<Json>)
  {
    options.None? || !Truthy(options.value)
    || (Get(options.value, "require").Some? && Truthy(Get(options.value, "require").value))
  }

  /** `throwDeviceNotFoundIfNeeded` followed by returning the device that was found. */
  function CheckFound<T>(found: Option<T>, options: Option<Json>): (r: Result<Option<T>, Error>)
    ensures r.Err? <==> found.None? && MustExist(options)
    ensures r.Err? ==> r.error == DeviceNotFound
    ensures r.Ok? ==> r.value == found
  {
    if found.None? && MustExist(options) then Err(DeviceNotFound) else Ok(found)
  }

  /** A found device never raises, and `{require: false}` turns a missing one into `null`. */
  lemma CheckFoundCases<T>(d: T)
    ensures forall options :: CheckFound(Some(d), options) == Ok(Some(d))
    ensures CheckFound<T>(None, Some(Obj(map["require" := Bool(false)]))) == Ok(None)
    ensures CheckFound<T>(None, Some(Obj(map[]))) == Ok(None)
    ensures CheckFound<T>(None, None) == Err(DeviceNotFound)
  {
    assert Get(Obj(map["require" := Bool(false)]), "require") == Some(Bool(false));
  }

  const BrowserKeys: set<string> := {"browser_name", "browser_version", "operating_system"}

  /** The browser `parse` recognises in the user agent of `data`, when `fixDeviceData` fills it in. */
  function DetectedBrowser(webId: string, parse: UserAgentParser, data: DeviceData): Option<BrowserInfo>
  {
    if data.platform == Some(webId) && data.info.Some?
       && "user_agent" in data.info.value && data.info.value["user_agent"] != ""
    then parse(data.info.value["user_agent"])
    else None
  }

  /**
   * `fixDeviceData` with `webId` as the id of the web platform: for a web
   * device whose user agent is recognised, the browser name and version and
   * the operating system are written into `info`; nothing else changes.
   */
  function FixDeviceData(webId: string, parse: UserAgentParser, data: DeviceData): (r: DeviceData)
    ensures r.(info := data.info) == data
    ensures r.info.Some? <==> data.info.Some?
    ensures DetectedBrowser(webId, parse, data).None? ==> r == data
    ensures DetectedBrowser(webId, parse, data).Some? ==>
              var b := DetectedBrowser(webId, parse, data).value;
              && r.info.value.Keys == data.info.value.Keys + BrowserKeys
              && r.info.value["browser_name"] == b.name
              && r.info.value["browser_version"] == b.version
              && r.info.value["operating_system"] == b.os
    ensures data.info.Some? ==>
              forall k :: k in data.info.value && k !in BrowserKeys ==> r.info.value[k] == data.info.value[k]
  {
    match DetectedBrowser(webId, parse, data)
    case None => data
    case Some(b) =>
      data.(info := Some(data.info.value["browser_name" := b.name]["browser_version" := b.version]["operating_system" := b.os]))
  }

  /** Fixing device data twice changes nothing more than fixing it once. */
  lemma FixDeviceDataIdempotent(webId: string, parse: UserAgentParser, data: DeviceData)
    ensures FixDeviceData(webId, parse, FixDeviceData(webId, parse, data)) == FixDeviceData(webId, parse, data)
  {
    var once := FixDeviceData(webId, parse, data);
    if DetectedBrowser(webId, parse, data).Some? {
      assert once.info.value["user_agent"] == data.info.value["user_agent"];
      assert DetectedBrowser(webId, parse, once) == DetectedBrowser(webId, parse, data);
      var b := DetectedBrowser(webId, parse, data).value;
      var m := once.info.value;
      assert m["browser_name" := b.name]["browser_version" := b.version]["operating_system" := b.os] == m;
    }
  }

  /**
   * `fixDeviceData` as written: it reads the `WEB` entry of the platforms,
   * which does not exist, so taking its `id` raises a TypeError.
   */
  function FixDeviceDataAsWritten(parse: UserAgentParser, data: DeviceData): Result<DeviceData, Error>
  {
    match PlatformByKey("WEB")
    case None => Err(TypeError)
    case Some(p) => Ok(FixDeviceData(PlatformId(p), parse, data))
  }

  /** Every call fails, even for a device that is not a web device. */
  lemma FixDeviceDataAsWrittenFails(parse: UserAgentParser, data: DeviceData)
    ensures FixDeviceDataAsWritten(parse, data) == Err(TypeError)
  {
  }

  /** The intended behaviour: a browser device's recognised user agent fills in its browser details. */
  lemma FixDeviceDataFillsBrowser(parse: UserAgentParser, agent: string, b: BrowserInfo)
    requires agent != "" && parse(agent) == Some(b)
    ensures var data := DeviceData(None, None, None, None, Some("d1"), Some(PlatformId(Browser)), None, None,
                                   Some(map["user_agent" := agent]));
            FixDeviceData(PlatformId(Browser), parse, data).info
              == Some(map["user_agent" := agent, "browser_name" := b.name, "browser_version" := b.version, "operating_system" := b.os])
  {
    var data := DeviceData(None, None, None, None, Some("d1"), Some(PlatformId(Browser)), None, None,
                           Some(map["user_agent" := agent]));
    assert DetectedBrowser(PlatformId(Browser), parse, data) == Some(b);
  }

  /** `_.omit(data, UNALLOWED_ATTRS)`: id, user and registration date are dropped; `app` is kept. */
  function OmitProtected(data: DeviceData): (r: DeviceData)
    ensures r.id.None? && r.user.None? && r.registrationDate.None?
    ensures r.app == data.app && r.uid == data.uid && r.platform == data.platform && r.info == data.info
  {
    data.(id := None, user := None, registrationDate := None)
  }

  /**
   * Whether `d` is the device `createDevice` builds for the stored user
   * `owner`: app and owner come from the user and the registration date is
   * `now`, whatever `data` says; the other attributes are the ones sent, with
   * the browser details filled in.
   */
  predicate BuiltFrom(d: Device, owner: User, data: DeviceData, parse: UserAgentParser, now: int)
  {
    && d.app == owner.app && d.user == owner.id && d.registrationDate == now
    && d.uid == data.uid.GetOr("") && d.platform == data.platform && d.channel == data.channel
    && d.pushToken == data.pushToken
    && d.info == FixDeviceData(PlatformId(Browser), parse, data).info
  }

  /** The device `createDevice` builds before saving it. */
  method NewDevice(owner: User, data: DeviceData, parse: UserAgentParser, now: int) returns (d: Device)
    ensures BuiltFrom(d, owner, data, parse, now)
  {
    var finalData := OmitProtected(data);
    finalData := FixDeviceData(PlatformId(Browser), parse, finalData);
    d := Device(0, finalData.app.GetOr(0), 0, finalData.uid.GetOr(""), finalData.platform, finalData.channel,
                finalData.pushToken, finalData.info, 0);
    d := d.(app := owner.app, user := owner.id, registrationDate := now);
  }

  /**
   * `createDevice` for the user with id `owner`: the uid is required, the
   * owner must exist, and the owner may not already have a device with the
   * same uid or the same channel.
   */
  method CreateDevice(store: Database.Store, owner: Id, data: DeviceData, parse: UserAgentParser, now: int)
    returns (r: Result<Device, Error>)
    requires store.Valid()
    modifies store`devices, store`nextId
    ensures store.Valid()
    ensures !Present(data.uid) ==> r == Err(DeviceUidRequired)
    ensures Present(data.uid) && owner !in store.users ==> r == Err(TypeError)
    ensures r.Err? <==> !Present(data.uid) || owner !in store.users ||
                        exists k :: k in old(store.devices) && old(store.devices)[k].user == owner &&
                                    (old(store.devices)[k].uid == data.uid.value || old(store.devices)[k].channel == data.channel)
    ensures Present(data.uid) && owner in store.users && r.Err? ==> r.error == DuplicateKey
    ensures r.Err? ==> store.devices == old(store.devices)
    ensures r.Ok? ==> owner in store.users && BuiltFrom(r.value, store.users[owner], data, parse, now)
    ensures r.Ok? ==> r.value.id !in old(store.devices) && store.devices == old(store.devices)[r.value.id := r.value]
  {
    if !Present(data.uid) {
      return Err(DeviceUidRequired);
    }
    if owner !in store.users {
      return Err(TypeError);
    }
    var d := NewDevice(store.users[owner], data, parse, now);
    r := store.InsertDevice(d);
  }

  /** The stored device `d` after `data` is written over it, attribute by attribute. */
  function Apply(d: Device, data: DeviceData): Device
  {
    d.(app := data.app.GetOr(d.app),
       uid := data.uid.GetOr(d.uid),
       platform := if data.platform.Some? then data.platform else d.platform,
       channel := if data.channel.Some? then data.channel else d.channel,
       pushToken := if data.pushToken.Some? then data.pushToken else d.pushToken,
       info := if data.info.Some? then data.info else d.info)
  }

  /** The channel a device has after `data` is written over `before`. */
  function NewChannel(before: Device, data: DeviceData): Option<string>
  {
    if data.channel.Some? then data.channel else before.channel
  }

  /**
   * Whether `d` is the device `updateDevice` saves over the stored device
   * `before`: owner and registration date never change, every other
   * attribute sent (the app included) replaces the stored one, and sent
   * `info` gets the browser details filled in.
   */
  predicate UpdatedFrom(d: Device, before: Device, data: DeviceData, parse: UserAgentParser)
  {
    && d.id == before.id && d.user == before.user && d.registrationDate == before.registrationDate
    && d.app == data.app.GetOr(before.app)
    && d.uid == data.uid.GetOr(before.uid)
    && d.platform == (if data.platform.Some? then data.platform else before.platform)
    && d.channel == NewChannel(before, data)
    && d.pushToken == (if data.pushToken.Some? then data.pushToken else before.pushToken)
    && d.info == (if data.info.Some? then FixDeviceData(PlatformId(Browser), parse, data).info else before.info)
  }

  /**
   * `updateDevice` on the device `id`: `None` when no such device exists;
   * otherwise the device after the update, unless another device of the same
   * owner already has its new uid or channel.
   */
  method UpdateDevice(store: Database.Store, id: Id, data: DeviceData, parse: UserAgentParser)
    returns (r: Result<Option<Device>, Error>)
    requires store.Valid()
    modifies store`devices
    ensures store.Valid()
    ensures id !in old(store.devices) ==> r == Ok(None) && store.devices == old(store.devices)
    ensures id in old(store.devices) ==>
              var before := old(store.devices)[id];
              (r.Err? <==> exists k :: k in old(store.devices) && k != id && old(store.devices)[k].user == before.user &&
                                       (old(store.devices)[k].uid == data.uid.GetOr(before.uid) ||
                                        old(store.devices)[k].channel == NewChannel(before, data)))
    ensures r.Err? ==> r.error == DuplicateKey && store.devices == old(store.devices)
    ensures id in old(store.devices) && r.Ok? ==> r.value.Some?
    ensures r.Ok? && r.value.Some? ==>
              && id in old(store.devices)
              && UpdatedFrom(r.value.value, old(store.devices)[id], data, parse)
              && store.devices == old(store.devices)[id := r.value.value]
  {
    var finalData := OmitProtected(data);
    finalData := FixDeviceData(PlatformId(Browser), parse, finalData);
    if id !in store.devices {
      return Ok(None);
    }
    var updated := Apply(store.devices[id], finalData);
    var saved := store.UpdateDevice(updated);
    if saved.Err? {
      return Err(saved.error);
    }
    r := Ok(Some(saved.value));
  }
}
