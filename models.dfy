/**
 * The documents of models/index.js: their fields, the helper methods the
 * schemas declare (`getFullName`, the platform predicates), the serialisation
 * transform, and the unique indexes, stated as invariants over a collection.
 */
module Models {
  import opened Wrappers
  import opened JsonValue
  import opened Constants
  import Text

  /** Document ids (MongoDB ObjectIds). */
  type Id = nat

  /** The errors the core raises, named by their error codes. */
  datatype Error =
    | UserNotFound
    | DeviceNotFound
    | AppNotFound
    | PluginNotFound
    | UserUidRequired
    | DeviceUidRequired
    | PluginAlreadyExists
    | DuplicateKey
    | TypeError
    /** An office-hours bound that is not "hh:mm" with decimal hours and minutes. */
    | InvalidTime
    | DeliveryFailed
    | SlackError(code: string)

  /** `if (field)` on an optional string field: present and not empty. */
  predicate Present(s: Option<string>)
  {
    s.Some? && s.value != ""
  }

  datatype App = App(id: Id, name: string)

  datatype User = User(
    id: Id,
    app: Id,
    uid: string,
    identified: bool,
    firstName: Option<string>,
    lastName: Option<string>,
    randomName: bool,
    email: Option<string>,
    photo: Option<string>,
    photoUrl: Option<string>,
    /** The entries of `properties`, in iteration order. */
    properties: seq<(string, Json)>,
    /** `sign_up_date` as it renders in text. */
    signUpDate: Option<string>,
    /** `extra`; an absent `extra` behaves as the empty object everywhere it is read. */
    extra: map<string, Json>,
    registrationDate: int)

  /** `User.getFullName` on the two name fields. */
  function FullName(first: Option<string>, last: Option<string>): (r: string)
    ensures Present(first) && Present(last) ==> r == first.value + " " + last.value
    ensures Present(first) && !Present(last) ==> r == first.value
    ensures !Present(first) && Present(last) ==> r == last.value
    ensures r == "" <==> !Present(first) && !Present(last)
  {
    if Present(first) then first.value + (if Present(last) then " " + last.value else "")
    else if Present(last) then last.value
    else ""
  }

  function GetFullName(u: User): string
  {
    FullName(u.firstName, u.lastName)
  }

  datatype Device = Device(
    id: Id,
    app: Id,
    user: Id,
    uid: string,
    platform: Option<string>,
    channel: Option<string>,
    pushToken: Option<string>,
    /** The `info` sub-document: its string fields by name. */
    info: Option<map<string, string>>,
    registrationDate: int)

  /** `Device.getPlatformName`: the display name of the entry keyed by the upper-cased platform. */
  function GetPlatformName(platform: Option<string>): (r: string)
    ensures PlatformByKey(Text.ToUpper(platform.GetOr(""))).Some? ==>
              r == PlatformName(PlatformByKey(Text.ToUpper(platform.GetOr(""))).value)
    ensures r == "" <==> PlatformByKey(Text.ToUpper(platform.GetOr(""))).None?
  {
    match PlatformByKey(Text.ToUpper(platform.GetOr("")))
    case Some(p) => PlatformName(p)
    case None => ""
  }

  /** `Device.isSmartphone`: the platform is one of the smartphone platforms (Android only). */
  predicate IsSmartphone(platform: Option<string>)
  {
    platform.Some? && platform.value in [PlatformId(AndroidPlatform)]
  }

  predicate IsAndroid(platform: Option<string>)
  {
    platform == Some(PlatformId(AndroidPlatform))
  }

  predicate IsBrowser(platform: Option<string>)
  {
    platform == Some(PlatformId(Browser))
  }

  predicate IsMessenger(platform: Option<string>)
  {
    platform == Some(PlatformId(MessengerPlatform))
  }

  /** Upper-casing `s` gives `t` when it does so character by character. */
  lemma ToUpperIs(s: string, t: string)
    requires |s| == |t| && forall i :: 0 <= i < |s| ==> Text.UpperChar(s[i]) == t[i]
    ensures Text.ToUpper(s) == t
  {
  }

  lemma ToUpperOfPlatformId(p: Platform)
    ensures Text.ToUpper(PlatformId(p)) == PlatformKey(p)
  {
    match p
    case Browser => ToUpperIs("browser", "BROWSER");
    case AndroidPlatform => ToUpperIs("android", "ANDROID");
    case MessengerPlatform => ToUpperIs("messenger", "MESSENGER");
  }

  /**
   * A device whose platform is a platform's id is named by that platform, and
   * it is a smartphone exactly when that platform is Android.
   */
  lemma {:induction false} PlatformOfId(p: Platform)
    ensures GetPlatformName(Some(PlatformId(p))) == PlatformName(p)
    ensures IsSmartphone(Some(PlatformId(p))) <==> p == AndroidPlatform
    ensures IsSmartphone(Some(PlatformId(p))) <==> IsAndroid(Some(PlatformId(p)))
    ensures IsBrowser(Some(PlatformId(p))) <==> p == Browser
    ensures IsMessenger(Some(PlatformId(p))) <==> p == MessengerPlatform
  {
    ToUpperOfPlatformId(p);
  }

  /** The name lookup ignores case; the predicates do not. */
  lemma PlatformNameIgnoresCase()
    ensures GetPlatformName(Some("ANDROID")) == "Android"
    ensures !IsAndroid(Some("ANDROID"))
  {
    var u := Text.ToUpper("ANDROID");
    assert u == "ANDROID" by {
      forall i | 0 <= i < 7 ensures u[i] == "ANDROID"[i] {
        assert u[i] == Text.UpperChar("ANDROID"[i]);
      }
    }
  }

  datatype Integration = Integration(
    id: Id,
    app: Id,
    itype: IntegrationType,
    channel: Channel,
    configuration: Json,
    registrationDate: int)

  datatype Plugin = Plugin(
    id: Id,
    app: Id,
    ptype: PluginType,
    configuration: Json,
    registrationDate: int)

  datatype Agent = Agent(id: string, name: string, photoUrl: string)

  /** A chat message is stored on a user channel only. */
  type UserChannel = c: Channel | IsUserChannel(c) witness Website

  /**
   * A stored chat message. Its collection has a TTL index: MongoDB removes a
   * message 7776000 seconds (90 days) after its `date`.
   */
  datatype ChatMessage = ChatMessage(
    app: Id,
    user: Id,
    agent: Agent,
    text: string,
    direction: Direction,
    channel: UserChannel,
    date: int)

  const MessageTtlSeconds: int := 7776000

  /** Whether the TTL index still keeps a message, `now` and `date` in seconds. */
  predicate Retained(m: ChatMessage, now: int)
  {
    now < m.date + MessageTtlSeconds
  }

  // ---------------------------------------------------------------------------
  // Serialisation (`toJSON` / `toObject` transform)

  /** The models whose schemas are normalised; Account and Integration add a custom transform. */
  datatype ModelKind =
    | AccountModel | AppModel | AppSecretModel | IntegrationModel
    | PluginModel | UserModel | DeviceModel | ChatMessageModel

  /** The keys the transform deletes from a serialised document of a model. */
  function DroppedKeys(kind: ModelKind): set<string>
  {
    if kind == AccountModel then {"_id", "__v", "password"} else {"_id", "__v"}
  }

  const HiddenKey: string := "*************"

  const ServerKeyPath: seq<string> := ["configuration", "fcm", "server_key"]

  /** The masked form of an FCM server key. */
  function MaskServerKey(key: string): (r: string)
    ensures |HiddenKey| == 13
    ensures |r| == if |key| > 10 then 18 else 13
    ensures forall i :: 0 <= i < 13 ==> r[i] == '*'
    ensures |key| > 10 ==> r[13..] == key[|key| - 5..]
  {
    if |key| > 10 then HiddenKey + key[|key| - 5..] else HiddenKey
  }

  /**
   * `serverKey.length > 10` for a key that is not null: a string or an array by
   * its length, an object by a numeric `length` field; numbers and booleans
   * have no length, which never compares above 10.
   */
  predicate LongKey(v: Json)
  {
    match v
    case Str(s) => |s| > 10
    case Arr(items) => |items| > 10
    case Obj(fields) => "length" in fields && fields["length"].Num? && fields["length"].n > 10
    case _ => false
  }

  /**
   * What the integration transform writes over a server key value: the hidden
   * prefix followed by `serverKey.slice(-5)` for a long key (a string's last five
   * characters, an array's last five items joined by commas), or an error when
   * the key is null or is an object, which has no `slice`.
   */
  function MaskValue(v: Json): (r: Result<Json, Error>)
    ensures r.Err? <==> v.Null? || (v.Obj? && LongKey(v))
    ensures r.Err? ==> r.error == TypeError
    ensures v.Str? ==> r == Ok(Str(MaskServerKey(v.s)))
    ensures v.Arr? && LongKey(v) ==> r == Ok(Str(HiddenKey + JoinItems(v.items[|v.items| - 5..])))
    ensures r.Ok? && !LongKey(v) ==> r == Ok(Str(HiddenKey))
  {
    match v
    case Null => Err(TypeError)
    case Str(s) => Ok(Str(MaskServerKey(s)))
    case Arr(items) => if |items| > 10 then Ok(Str(HiddenKey + JoinItems(items[|items| - 5..]))) else Ok(Str(HiddenKey))
    case Obj(_) => if LongKey(v) then Err(TypeError) else Ok(Str(HiddenKey))
    case _ => Ok(Str(HiddenKey))
  }

  /**
   * The Integration transform: when `configuration.fcm.server_key` exists it is
   * overwritten by its masked form; a key that cannot be masked raises.
   */
  function MaskFcmServerKey(obj: map<string, Json>): (r: Result<map<string, Json>, Error>)
    ensures GetPath(Obj(obj), ServerKeyPath).None? ==> r == Ok(obj)
    ensures GetPath(Obj(obj), ServerKeyPath).Some? ==>
              (r.Err? <==> MaskValue(GetPath(Obj(obj), ServerKeyPath).value).Err?)
    ensures r.Err? ==> r.error == TypeError
    ensures r.Ok? ==> (GetPath(Obj(obj), ServerKeyPath).Some? <==> GetPath(Obj(r.value), ServerKeyPath).Some?)
    ensures r.Ok? && GetPath(Obj(obj), ServerKeyPath).Some? ==>
              GetPath(Obj(r.value), ServerKeyPath) == Some(MaskValue(GetPath(Obj(obj), ServerKeyPath).value).value)
    ensures r.Ok? ==> forall k :: k != ServerKeyPath[0] ==> (k in r.value <==> k in obj) && (k in r.value ==> r.value[k] == obj[k])
  {
    match GetPath(Obj(obj), ServerKeyPath)
    case None => Ok(obj)
    case Some(key) =>
      match MaskValue(key)
      case Err(e) => Err(e)
      case Ok(masked) =>
        var r := SetPath(Obj(obj), ServerKeyPath, masked);
        assert forall k :: k != ServerKeyPath[0] ==> Get(r, k) == Get(Obj(obj), k);
        Ok(r.fields)
  }

  /**
   * Masking touches nothing but the server key: every path that branches off
   * `configuration.fcm.server_key` reads the same before and after.
   */
  lemma MaskKeepsOtherPaths(obj: map<string, Json>, q: seq<string>, i: nat)
    requires i < |q| && i < |ServerKeyPath| && q[..i] == ServerKeyPath[..i] && q[i] != ServerKeyPath[i]
    requires MaskFcmServerKey(obj).Ok?
    ensures GetPath(Obj(MaskFcmServerKey(obj).value), q) == GetPath(Obj(obj), q)
  {
    if GetPath(Obj(obj), ServerKeyPath).Some? {
      SetPathDiverging(Obj(obj), ServerKeyPath, MaskValue(GetPath(Obj(obj), ServerKeyPath).value).value, q, i);
    }
  }

  /** `_.set` at path `p` leaves every path that branches off `p` at position `i` unchanged. */
  lemma {:induction false} SetPathDiverging(j: Json, p: seq<string>, v: Json, q: seq<string>, i: nat)
    requires i < |p| && i < |q| && p[..i] == q[..i] && p[i] != q[i]
    ensures GetPath(SetPath(j, p, v), q) == GetPath(j, q)
    decreases i
  {
    var r := SetPath(j, p, v);
    if i == 0 {
      assert Get(r, q[0]) == Get(j, q[0]);
    } else {
      assert p[0] == q[0] by { assert p[..i][0] == q[..i][0]; }
      var fields := if j.Obj? then j.fields else map[];
      var child := if p[0] in fields then fields[p[0]] else Obj(map[]);
      assert Get(r, q[0]) == Some(SetPath(child, p[1..], v));
      assert p[1..][..i - 1] == q[1..][..i - 1] by {
        assert p[1..][..i - 1] == p[..i][1..];
        assert q[1..][..i - 1] == q[..i][1..];
      }
      SetPathDiverging(child, p[1..], v, q[1..], i - 1);
      if !(j.Obj? && p[0] in j.fields) {
        // the original has nothing at p[0]; the new child is an object holding only p[1]
        assert GetPath(j, q) == None;
        assert GetPath(child, q[1..]) == None by {
          assert child == Obj(map[]);
          assert Get(child, q[1]) == None;
        }
      }
    }
  }

  /**
   * A serialised document whose `toJSON` / `toObject` transform runs in place.
   */
  class SerializedDocument {
    var fields: map<string, Json>

    constructor (fields: map<string, Json>)
      ensures this.fields == fields
    {
      this.fields := fields;
    }

    /**
     * `transform(obj, customTransform)` for a document of model `kind`; the keys
     * are deleted before the Integration mask runs, so they stay deleted when it raises.
     */
    method Transform(kind: ModelKind) returns (r: Result<(), Error>)
      modifies this
      ensures "_id" !in fields && "__v" !in fields
      ensures kind == AccountModel ==> "password" !in fields
      ensures kind != IntegrationModel ==> r.Ok? && fields == old(fields) - DroppedKeys(kind)
      ensures kind == IntegrationModel ==> (r.Err? <==> MaskFcmServerKey(old(fields) - DroppedKeys(kind)).Err?)
      ensures r.Ok? && kind == IntegrationModel ==> fields == MaskFcmServerKey(old(fields) - DroppedKeys(kind)).value
      ensures r.Err? ==> r.error == TypeError && fields == old(fields) - DroppedKeys(kind)
    {
      fields := fields - {"_id"};
      fields := fields - {"__v"};
      if kind == AccountModel {
        fields := fields - {"password"};
      }
      assert fields == old(fields) - DroppedKeys(kind);
      r := Ok(());
      if kind == IntegrationModel {
        var masked := MaskFcmServerKey(fields);
        if masked.Err? {
          return Err(masked.error);
        }
        fields := masked.value;
      }
    }
  }

  // ---------------------------------------------------------------------------
  // Unique indexes

  // Each index is stated over the fields it covers, gathered by a key
  // function on which its quantifier is triggered.

  function UserKey(u: User): (Id, string) { (u.app, u.uid) }

  /** `User.index({app, uid}, {unique: true})`. */
  predicate UsersUnique(users: map<Id, User>)
  {
    forall a, b {:trigger UserKey(users[a]), UserKey(users[b])} ::
      a in users && b in users && UserKey(users[a]) == UserKey(users[b]) ==> a == b
  }

  function DeviceUidKey(d: Device): (Id, string) { (d.user, d.uid) }

  function DeviceChannelKey(d: Device): (Id, Option<string>) { (d.user, d.channel) }

  /**
   * `Device.index({user, uid}, {unique: true})` and `Device.index({user, channel}, {unique: true})`;
   * a missing channel indexes as null, so it clashes with another missing one.
   */
  predicate DevicesUnique(devices: map<Id, Device>)
  {
    && (forall a, b {:trigger DeviceUidKey(devices[a]), DeviceUidKey(devices[b])} ::
          a in devices && b in devices && DeviceUidKey(devices[a]) == DeviceUidKey(devices[b]) ==> a == b)
    && (forall a, b {:trigger DeviceChannelKey(devices[a]), DeviceChannelKey(devices[b])} ::
          a in devices && b in devices && DeviceChannelKey(devices[a]) == DeviceChannelKey(devices[b]) ==> a == b)
  }

  function PageId(i: Integration): Option<Json> { GetPath(i.configuration, ["page", "id"]) }

  function TeamId(i: Integration): Option<Json> { GetPath(i.configuration, ["team", "id"]) }

  function IntegrationKey(i: Integration): (Id, Channel) { (i.app, i.channel) }

  function PageKey(i: Integration): (Channel, Option<Json>) { (i.channel, PageId(i)) }

  function TeamKey(i: Integration): (Channel, Option<Json>) { (i.channel, TeamId(i)) }

  /**
   * `Integration.index({app, channel}, {unique: true})` and the two partial
   * unique indexes on `configuration.page.id` and `configuration.team.id` per
   * channel, which only cover integrations that have the field.
   */
  predicate IntegrationsUnique(integrations: map<Id, Integration>)
  {
    && (forall a, b {:trigger IntegrationKey(integrations[a]), IntegrationKey(integrations[b])} ::
          (a in integrations && b in integrations
           && IntegrationKey(integrations[a]) == IntegrationKey(integrations[b])) ==> a == b)
    && (forall a, b {:trigger PageKey(integrations[a]), PageKey(integrations[b])} ::
          (a in integrations && b in integrations && PageId(integrations[a]).Some?
           && PageKey(integrations[a]) == PageKey(integrations[b])) ==> a == b)
    && (forall a, b {:trigger TeamKey(integrations[a]), TeamKey(integrations[b])} ::
          (a in integrations && b in integrations && TeamId(integrations[a]).Some?
           && TeamKey(integrations[a]) == TeamKey(integrations[b])) ==> a == b)
  }

  function PluginKey(p: Plugin): (Id, PluginType) { (p.app, p.ptype) }

  /** `Plugin.index({app, type}, {unique: true})`. */
  predicate PluginsUnique(plugins: map<Id, Plugin>)
  {
    forall a, b {:trigger PluginKey(plugins[a]), PluginKey(plugins[b])} ::
      a in plugins && b in plugins && PluginKey(plugins[a]) == PluginKey(plugins[b]) ==> a == b
  }
}
