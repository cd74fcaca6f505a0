/**
 * The closed enumerations of utils/constants.js. Each enumeration is a
 * datatype; the string each case stands for in documents and API payloads is
 * given by an `...Id` function, and a `...FromId` function reads it back.
 */
module Constants {
  import opened Wrappers

  /** `constants.integration.types`. */
  datatype IntegrationType = UserIntegration | BusinessIntegration

  function IntegrationTypeId(t: IntegrationType): string
  {
    match t
    case UserIntegration => "user"
    case BusinessIntegration => "business"
  }

  function IntegrationTypeFromId(s: string): (r: Option<IntegrationType>)
    ensures r.Some? ==> IntegrationTypeId(r.value) == s
    ensures forall t: IntegrationType :: IntegrationTypeId(t) == s ==> r == Some(t)
  {
    if s == "user" then Some(UserIntegration)
    else if s == "business" then Some(BusinessIntegration)
    else None
  }

  /** `constants.integration.channels`. */
  datatype Channel = Website | Wordpress | AndroidChannel | MessengerChannel | SlackChannel

  function ChannelId(c: Channel): string
  {
    match c
    case Website => "website"
    case Wordpress => "wordpress"
    case AndroidChannel => "android"
    case MessengerChannel => "messenger"
    case SlackChannel => "slack"
  }

  /** The enum check a schema applies to a channel string. */
  function ChannelFromId(s: string): (r: Option<Channel>)
    ensures r.Some? ==> ChannelId(r.value) == s
    ensures forall c: Channel :: ChannelId(c) == s ==> r == Some(c)
  {
    if s == "website" then Some(Website)
    else if s == "wordpress" then Some(Wordpress)
    else if s == "android" then Some(AndroidChannel)
    else if s == "messenger" then Some(MessengerChannel)
    else if s == "slack" then Some(SlackChannel)
    else None
  }

  /** `constants.integration.userChannels`. */
  const UserChannels: seq<Channel> := [Website, Wordpress, AndroidChannel, MessengerChannel]

  /** `constants.integration.businessChannels`. */
  const BusinessChannels: seq<Channel> := [SlackChannel]

  /** A channel on which end users talk (as opposed to the business side). */
  predicate IsUserChannel(c: Channel)
  {
    c in UserChannels
  }

  /** The user and business channels split the five channels between them. */
  lemma ChannelsPartition(c: Channel)
    ensures (c in UserChannels) != (c in BusinessChannels)
    ensures c in BusinessChannels <==> c == SlackChannel
  {
  }

  /** `constants.plugin.types`. */
  datatype PluginType = GreetingsMessage | OfficeHours

  function PluginTypeId(t: PluginType): string
  {
    match t
    case GreetingsMessage => "greetings_message"
    case OfficeHours => "office_hours"
  }

  function PluginTypeFromId(s: string): (r: Option<PluginType>)
    ensures r.Some? ==> PluginTypeId(r.value) == s
    ensures forall t: PluginType :: PluginTypeId(t) == s ==> r == Some(t)
  {
    if s == "greetings_message" then Some(GreetingsMessage)
    else if s == "office_hours" then Some(OfficeHours)
    else None
  }

  /** `constants.device.platforms`: each entry has a key, an id and a display name. */
  datatype Platform = Browser | AndroidPlatform | MessengerPlatform

  /** The key of the platform's entry in `constants.device.platforms`. */
  function PlatformKey(p: Platform): string
  {
    match p
    case Browser => "BROWSER"
    case AndroidPlatform => "ANDROID"
    case MessengerPlatform => "MESSENGER"
  }

  function PlatformId(p: Platform): string
  {
    match p
    case Browser => "browser"
    case AndroidPlatform => "android"
    case MessengerPlatform => "messenger"
  }

  function PlatformName(p: Platform): string
  {
    match p
    case Browser => "Browser"
    case AndroidPlatform => "Android"
    case MessengerPlatform => "Facebook Messenger"
  }

  /**
   * `constants.device.platforms[key]`: the entry stored under `key`, or
   * `undefined` (None) for any other key, `WEB` among them.
   */
  function PlatformByKey(key: string): (r: Option<Platform>)
    ensures r.Some? ==> PlatformKey(r.value) == key
    ensures forall p: Platform :: PlatformKey(p) == key ==> r == Some(p)
  {
    if key == "BROWSER" then Some(Browser)
    else if key == "ANDROID" then Some(AndroidPlatform)
    else if key == "MESSENGER" then Some(MessengerPlatform)
    else None
  }

  /** `constants.chatMessage.directions`. */
  datatype Direction = Incoming | Outgoing

  function DirectionId(d: Direction): string
  {
    match d
    case Incoming => "incoming"
    case Outgoing => "outgoing"
  }

  /** `constants.genders[key]`: only MALE and FEMALE have a display name. */
  function GenderName(key: string): (r: Option<string>)
    ensures r.Some? <==> key == "MALE" || key == "FEMALE"
  {
    if key == "MALE" then Some("Masculino")
    else if key == "FEMALE" then Some("Feminino")
    else None
  }

  /** The platform ids, names and keys are pairwise distinct. */
  lemma PlatformsDistinct(p: Platform, q: Platform)
    requires p != q
    ensures PlatformId(p) != PlatformId(q)
    ensures PlatformName(p) != PlatformName(q)
    ensures PlatformKey(p) != PlatformKey(q)
  {
  }
}
