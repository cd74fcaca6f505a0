/**
 * The Slack side of services/integrations/slack.js: naming and creating a
 * user's channel, the binding kept in the user's `extra.slack_channel`, the
 * introductions posted when a channel is created or reopened, the posting of
 * a user's message, and the setup of a workspace integration.
 *
 * The Slack Web API is the class `Workspace`: its channels by id, the channel
 * names in use, the calls that fail for reasons of their own, and the log of
 * posted messages. Every other failure is one the workspace itself produces
 * (`name_taken`, `channel_not_found`, `not_archived`, `is_archived`).
 */
module Slack {
  import opened Wrappers
  import opened JsonValue
  import opened Constants
  import opened Models
  import Text
  import Database
  import UserCommons
  import opened SlackFormat

  const ChannelPrefix: string := "ch"
  /** The key of `user.extra` that holds the user's channel. */
  const BindingKey: string := "slack_channel"
  const MaxChannelName: nat := 21

  const ChannelNotFoundCode: string := "channel_not_found"
  const NotArchivedCode: string := "not_archived"
  const NameTakenCode: string := "name_taken"
  const IsArchivedCode: string := "is_archived"
  /** The code of a call the workspace rejects for a reason of its own. */
  const ApiFailureCode: string := "internal_error"

  /** `{id, name}` of a channel. */
  datatype ChannelRef = ChannelRef(id: string, name: string)

  datatype RemoteChannel = RemoteChannel(name: string, archived: bool)

  /** The Web API calls that can fail for reasons outside the model. */
  datatype ApiCall = CreateCall | InfoCall | UnarchiveCall | PostCall(channel: string)

  /** A `chat.postMessage` as the workspace records it; no attachments is `[]`. */
  datatype Post = Post(
    channel: string,
    text: Option<string>,
    attachments: seq<Attachment>,
    username: string,
    iconUrl: Option<string>)

  /** What the Slack functions read of a user: the user, its app's name and its latest devices. */
  datatype Contact = Contact(user: User, appName: string, devices: seq<Device>)

  // ---------------------------------------------------------------------------
  // Channel names
  // ---------------------------------------------------------------------------

  /**
   * The channel name `createChannel` asks for before deburring: the full name
   * after the prefix on the first attempt, and a shortened full name followed
   * by the conflict count on the later ones.
   */
  function RawChannelName(fullName: string, conflicts: nat): string
  {
    if conflicts == 0 then
      Text.Truncate(ChannelPrefix + " " + fullName, MaxChannelName)
    else
      var charsRemaining := MaxChannelName - (|ChannelPrefix| + |Text.Decimal(conflicts)| + 2);
      ChannelPrefix + " " + Text.Truncate(fullName, charsRemaining) + " " + Text.Decimal(conflicts)
  }

  /** The first attempt: "ch " and the full name, cut to 21 characters. */
  lemma FirstChannelName(fullName: string)
    ensures RawChannelName(fullName, 0) <= "ch " + fullName
    ensures |RawChannelName(fullName, 0)| == Text.Min(3 + |fullName|, 21)
  {
  }

  /**
   * A later attempt: "ch ", a prefix of the full name, a space and the
   * conflict count; at most 21 characters while the count has at most 17 digits.
   */
  lemma RetryChannelName(fullName: string, conflicts: nat)
    requires conflicts >= 1
    ensures var r, d := RawChannelName(fullName, conflicts), Text.Decimal(conflicts);
      && |r| >= |d| + 4
      && r[..3] == "ch "
      && r[3..|r| - |d| - 1] <= fullName
      && r[|r| - |d| - 1] == ' '
      && r[|r| - |d|..] == d
      && (|d| <= 17 ==> |r| <= MaxChannelName)
  {
    var d := Text.Decimal(conflicts);
    var p := Text.Truncate(fullName, MaxChannelName - (|ChannelPrefix| + |d| + 2));
    var r := RawChannelName(fullName, conflicts);
    assert r == "ch " + p + " " + d;
    assert |r| == 4 + |p| + |d|;
    assert r[..3] == "ch ";
    assert r[3..|r| - |d| - 1] == p;
    assert r[|r| - |d| - 1] == ' ';
    assert r[|r| - |d|..] == d;
  }

  /** The name sent to `channels.create`: the raw name, deburred. */
  function ChannelName(table: Text.LetterTable, fullName: string, conflicts: nat): string
  {
    Text.Deburr(table, RawChannelName(fullName, conflicts))
  }

  /** Whether attempt `conflicts` asks for a name nobody holds. */
  ghost predicate Free(table: Text.LetterTable, fullName: string, taken: set<string>, conflicts: nat)
  {
    ChannelName(table, fullName, conflicts) !in taken
  }

  /** A length no name in `names` exceeds. */
  ghost function MaxLength(names: set<string>): (n: nat)
    ensures forall s :: s in names ==> |s| <= n
    decreases names
  {
    if names == {} then 0
    else
      var s :| s in names;
      var rest := MaxLength(names - {s});
      Text.Max(|s|, rest)
  }

  lemma {:induction false} DecimalIsAscii(n: nat)
    ensures Text.IsAscii(Text.Decimal(n))
  {
  }

  /** An attempt number whose name is longer than every taken name. */
  ghost function FreeBound(taken: set<string>): nat
  {
    Text.Pow10(Text.Max(17, MaxLength(taken)))
  }

  lemma FreeBoundIsFree(table: Text.LetterTable, fullName: string, taken: set<string>)
    ensures Free(table, fullName, taken, FreeBound(taken))
  {
    var k := Text.Max(17, MaxLength(taken));
    var n := Text.Pow10(k);
    Text.DecimalPow10(k);
    var d := Text.Decimal(n);
    var raw := RawChannelName(fullName, n);
    assert n >= 1;
    assert raw == "ch  " + d;
    DecimalIsAscii(n);
    assert Text.IsAscii(raw);
    assert ChannelName(table, fullName, n) == raw;
    assert |raw| > MaxLength(taken);
  }

  /** Some attempt is free: the search for a free name ends. */
  lemma SomeFreeAttempt(table: Text.LetterTable, fullName: string, taken: set<string>) returns (n: nat)
    ensures Free(table, fullName, taken, n)
  {
    FreeBoundIsFree(table, fullName, taken);
    n := FreeBound(taken);
  }

  /** The first number at or after `from` that `p` accepts, looking no further than `bound`. */
  ghost function LeastFrom(p: nat -> bool, from: nat, bound: nat): (n: nat)
    requires from <= bound && p(bound)
    ensures from <= n <= bound && p(n)
    ensures forall m :: from <= m < n ==> !p(m)
    decreases bound - from
  {
    if from == bound || p(from) then from else LeastFrom(p, from + 1, bound)
  }

  /** There is a least free attempt. */
  lemma LeastFreeExists(table: Text.LetterTable, fullName: string, taken: set<string>)
    ensures exists n: nat :: Free(table, fullName, taken, n) && forall m :: 0 <= m < n ==> !Free(table, fullName, taken, m)
  {
    var bound := SomeFreeAttempt(table, fullName, taken);
    var free := (m: nat) => Free(table, fullName, taken, m);
    var n := LeastFrom(free, 0, bound);
    assert free(n);
    forall m | 0 <= m < n
      ensures !Free(table, fullName, taken, m)
    {
      assert !free(m);
    }
  }

  /** The first attempt (0 for no suffix, then 1, 2, ...) whose name is not taken. */
  ghost function FirstFree(table: Text.LetterTable, fullName: string, taken: set<string>): nat
  {
    LeastFreeExists(table, fullName, taken);
    var n: nat :| Free(table, fullName, taken, n) && forall m :: 0 <= m < n ==> !Free(table, fullName, taken, m);
    n
  }

  /** The first free attempt is free, and every attempt before it is taken. */
  lemma FirstFreeIsLeast(table: Text.LetterTable, fullName: string, taken: set<string>)
    ensures var n := FirstFree(table, fullName, taken);
      Free(table, fullName, taken, n) && forall m :: 0 <= m < n ==> !Free(table, fullName, taken, m)
  {
  }

  /** One more taken attempt extends the run of taken attempts. */
  lemma TakenOneMore(table: Text.LetterTable, fullName: string, taken: set<string>, n: nat)
    requires forall m :: 0 <= m < n ==> !Free(table, fullName, taken, m)
    requires !Free(table, fullName, taken, n)
    ensures forall m :: 0 <= m < n + 1 ==> !Free(table, fullName, taken, m)
  {
  }

  /** The least free attempt is unique. */
  lemma FirstFreeUnique(table: Text.LetterTable, fullName: string, taken: set<string>, n: nat)
    requires Free(table, fullName, taken, n)
    requires forall m :: 0 <= m < n ==> !Free(table, fullName, taken, m)
    ensures FirstFree(table, fullName, taken) == n
  {
    FirstFreeIsLeast(table, fullName, taken);
  }

  // ---------------------------------------------------------------------------
  // The binding in `user.extra.slack_channel`
  // ---------------------------------------------------------------------------

  /** `user.extra && user.extra.slack_channel`. */
  predicate HasBinding(extra: map<string, Json>)
  {
    BindingKey in extra && Truthy(extra[BindingKey])
  }

  /**
   * `user.extra.slack_channel.id` as the channel argument of an API call; a
   * missing or non-string id names no channel, which is "".
   */
  function BoundId(extra: map<string, Json>): string
  {
    if BindingKey in extra then
      match Get(extra[BindingKey], "id")
      case Some(Str(id)) => id
      case _ => ""
    else ""
  }

  function BindingJson(ch: ChannelRef): Json
  {
    Obj(map["id" := Str(ch.id), "name" := Str(ch.name)])
  }

  /** `_.assign(user.extra || {}, {slack_channel: userChannel})`. */
  function WithBinding(extra: map<string, Json>, ch: ChannelRef): map<string, Json>
  {
    extra[BindingKey := BindingJson(ch)]
  }

  /** A written binding is read back as the channel, and every other key of `extra` is kept. */
  lemma BindingRoundTrip(extra: map<string, Json>, ch: ChannelRef)
    ensures HasBinding(WithBinding(extra, ch)) && BoundId(WithBinding(extra, ch)) == ch.id
    ensures forall k :: k != BindingKey ==>
      (k in WithBinding(extra, ch) <==> k in extra)
      && (k in extra ==> WithBinding(extra, ch)[k] == extra[k])
  {
  }

  /**
   * `configuration.channel.id`, the support channel of the integration;
   * `None` when `configuration.channel` is missing or null, where reading its
   * `id` throws.
   */
  function SupportChannelId(configuration: Json): (r: Option<string>)
    ensures r.None? <==> Get(configuration, "channel").None? || Get(configuration, "channel") == Some(Null)
  {
    match Get(configuration, "channel")
    case None => None
    case Some(channel) =>
      if channel.Null? then None
      else
        match Get(channel, "id")
        case Some(Str(id)) => Some(id)
        case _ => Some("")
  }

  /** `userCommons.updateUser(user, {extra: _.assign(user.extra, {slack_channel})})`: the binding saved in the stored user. */
  method SaveBinding(store: Database.Store, user: User, ch: ChannelRef) returns (r: Result<User, Error>)
    requires store.Valid()
    modifies store`users
    ensures store.Valid()
    ensures r.Ok? <==> user.id in old(store.users)
    ensures r.Err? ==> store.users == old(store.users)
    ensures r.Ok? ==> store.users == old(store.users)[user.id := old(store.users)[user.id].(extra := WithBinding(user.extra, ch))]
  {
    r := UserCommons.UpdateUser(store, user.id, UserCommons.ExtraUpdate(WithBinding(user.extra, ch)), None);
  }

  // ---------------------------------------------------------------------------
  // Messages
  // ---------------------------------------------------------------------------

  const IntroInvite: string := "* quer conversar com o seu time no canal <#"
  const ChannelIntroHead: string := "Este é o canal exclusivo para conversar com *"
  const BotIntroHead: string := "Olá, eu sou o Ayro Bot!\n<@"
  const BotIntroTail: string := "> acabou de integrar este Workspace com o <https://ayro.io|Ayro>. Agora você pode conversar com seus clientes em tempo real, direto do Slack."

  /** The notice text: the user's name in bold and a link to the user's channel. */
  function IntroText(fullName: string, ch: ChannelRef): string
  {
    "*" + fullName + IntroInvite + ch.id + "|" + ch.name + ">"
  }

  /** The notice posted to the support channel when a user's channel is opened. */
  function SupportNotice(supportId: string, u: User, ch: ChannelRef, message: string): Post
  {
    var intro := IntroText(GetFullName(u), ch);
    Post(supportId, Some(intro),
         [Attachment(None, None, FallbackText(intro), Some(message), None, None, PrimaryColor)],
         BotUsername, None)
  }

  /** `postChannelIntro`: the random-name warning, if any, before the command help. */
  function ChannelIntro(u: User, ch: ChannelRef): Post
  {
    var warning := match RandomNameWarning(u) case Some(a) => [a] case None => [];
    Post(ch.id, Some(ChannelIntroHead + GetFullName(u) + "*."),
         warning + CommandsInfo(true), BotUsername, None)
  }

  /** `postProfile`: the user information followed by one attachment per device. */
  function ProfilePost(contact: Contact, channelId: string): Post
  {
    Post(channelId, None, ProfileAttachments(contact.user, contact.appName, contact.devices), BotUsername, None)
  }

  /** The user's message as `postMessage` finally sends it, under the user's name. */
  function UserPost(contact: Contact, ch: ChannelRef, message: string, iconUrl: Option<string>): Post
  {
    Post(ch.id, Some(message), [], GetFullName(contact.user), iconUrl)
  }

  function BotIntroText(userId: string): string
  {
    BotIntroHead + userId + BotIntroTail
  }

  /** `postBotIntro`: the bot presents itself and the Slack user who added the integration. */
  function BotIntro(channelId: string, userId: string): Post
  {
    Post(channelId, Some(BotIntroText(userId)), [], BotUsername, None)
  }

  /**
   * A `chat.postMessage` call, named by what it sends; `Render` gives the
   * payload that goes over the wire.
   */
  datatype Message =
    | SupportNoticeMessage(supportId: string, user: User, channel: ChannelRef, text: string)
    | ChannelIntroMessage(user: User, channel: ChannelRef)
    | ProfileMessage(contact: Contact, channelId: string)
    | UserMessage(contact: Contact, channel: ChannelRef, text: string, iconUrl: Option<string>)
    | BotIntroMessage(channelId: string, botUserId: string)

  /** The channel a message is posted to. */
  function Target(m: Message): string
  {
    match m
    case SupportNoticeMessage(supportId, _, _, _) => supportId
    case ChannelIntroMessage(_, ch) => ch.id
    case ProfileMessage(_, channelId) => channelId
    case UserMessage(_, ch, _, _) => ch.id
    case BotIntroMessage(channelId, _) => channelId
  }

  /** The payload of a message: posted to its target, under the user's name only for the user's own messages. */
  function Render(m: Message): (p: Post)
    ensures p.channel == Target(m)
    ensures p.username == if m.UserMessage? then GetFullName(m.contact.user) else BotUsername
    ensures m.UserMessage? ==> p.text == Some(m.text) && p.attachments == [] && p.iconUrl == m.iconUrl
    ensures !m.UserMessage? ==> p.iconUrl.None?
  {
    match m
    case SupportNoticeMessage(supportId, u, ch, text) => SupportNotice(supportId, u, ch, text)
    case ChannelIntroMessage(u, ch) => ChannelIntro(u, ch)
    case ProfileMessage(contact, channelId) => ProfilePost(contact, channelId)
    case UserMessage(contact, ch, text, iconUrl) => UserPost(contact, ch, text, iconUrl)
    case BotIntroMessage(channelId, userId) => BotIntro(channelId, userId)
  }

  /** The three introduction messages, in the order `introduceUser` sends them. */
  function Introduction(contact: Contact, message: string, supportId: string, ch: ChannelRef): seq<Message>
  {
    [SupportNoticeMessage(supportId, contact.user, ch, message), ChannelIntroMessage(contact.user, ch),
     ProfileMessage(contact, ch.id)]
  }

  // ---------------------------------------------------------------------------
  // Integration setup
  // ---------------------------------------------------------------------------

  /** The fields of `auth.test` the integration keeps. */
  datatype AuthTest = AuthTest(teamId: string, team: string, url: string, userId: string, user: string)

  /** An entry of `channels.list`. */
  datatype ListedChannel = ListedChannel(id: string, name: string, isGeneral: bool)

  /** The integration configuration: the team, the installing user and, when found, the general channel. */
  function IntegrationConfiguration(auth: AuthTest, token: string, general: Option<ChannelRef>): (r: Json)
    ensures GetPath(r, ["team", "id"]) == Some(Str(auth.teamId))
    ensures GetPath(r, ["user", "id"]) == Some(Str(auth.userId))
    ensures GetPath(r, ["user", "access_token"]) == Some(Str(token))
    ensures Get(r, "channel").Some? <==> general.Some?
    ensures general.Some? ==> GetPath(r, ["channel", "id"]) == Some(Str(general.value.id))
    ensures Get(r, "page").None?
    ensures r.Obj?
  {
    var base := map[
      "team" := Obj(map["id" := Str(auth.teamId), "name" := Str(auth.team), "url" := Str(auth.url)]),
      "user" := Obj(map["id" := Str(auth.userId), "name" := Str(auth.user), "access_token" := Str(token)])];
    match general
    case None => Obj(base)
    case Some(ch) => Obj(base["channel" := BindingJson(ch)])
  }

  /** The `_.each` over `channels.list`: the last channel flagged general, if any. */
  method PickGeneralChannel(listed: seq<ListedChannel>) returns (r: Option<ChannelRef>)
    ensures r.None? <==> forall i :: 0 <= i < |listed| ==> !listed[i].isGeneral
    ensures r.Some? ==> exists i :: (0 <= i < |listed| && listed[i].isGeneral
              && r.value == ChannelRef(listed[i].id, listed[i].name)
              && forall j :: i < j < |listed| ==> !listed[j].isGeneral)
  {
    r := None;
    for i := 0 to |listed|
      invariant r.None? <==> forall j :: 0 <= j < i ==> !listed[j].isGeneral
      invariant r.Some? ==> exists k :: (0 <= k < i && listed[k].isGeneral
                  && r.value == ChannelRef(listed[k].id, listed[k].name)
                  && forall j :: k < j < i ==> !listed[j].isGeneral)
    {
      if listed[i].isGeneral {
        r := Some(ChannelRef(listed[i].id, listed[i].name));
      }
    }
  }

  /** `listChannels`: the id and name of every listed channel, in order. */
  method ListChannels(listed: seq<ListedChannel>) returns (r: seq<ChannelRef>)
    ensures |r| == |listed|
    ensures forall i :: 0 <= i < |listed| ==> r[i].id == listed[i].id && r[i].name == listed[i].name
  {
    r := [];
    for i := 0 to |listed|
      invariant |r| == i
      invariant forall j :: 0 <= j < i ==> r[j] == ChannelRef(listed[j].id, listed[j].name)
    {
      r := r + [ChannelRef(listed[i].id, listed[i].name)];
    }
  }

  // ---------------------------------------------------------------------------
  // The workspace
  // ---------------------------------------------------------------------------

  /** Whether a Slack integration of another app already records the team `teamId`. */
  predicate TeamTaken(integrations: map<Id, Integration>, app: Id, teamId: string)
  {
    exists k :: k in integrations && integrations[k].channel == SlackChannel && integrations[k].app != app
                && TeamId(integrations[k]) == Some(Str(teamId))
  }

  /** Whether the app has no Slack integration yet. */
  predicate NoSlackIntegration(integrations: map<Id, Integration>, app: Id)
  {
    forall k :: k in integrations ==> !(integrations[k].app == app && integrations[k].channel == SlackChannel)
  }

  /**
   * The write of `addIntegration`: `integrationCommons.addIntegration` when the
   * app has no Slack integration, otherwise `integrationCommons.updateIntegration`,
   * which assigns the new keys over the stored configuration. The (channel,
   * team id) index refuses a team that another app already linked.
   */
  method SaveSlackIntegration(store: Database.Store, app: Id, configuration: Json, teamId: string, now: int)
    returns (r: Result<Integration, Error>)
    requires store.Valid()
    requires configuration.Obj? && GetPath(configuration, ["team", "id"]) == Some(Str(teamId))
    requires Get(configuration, "page").None?
    modifies store`integrations, store`nextId
    ensures store.Valid()
    ensures r.Err? <==> TeamTaken(old(store.integrations), app, teamId)
    ensures r.Err? ==> r.error == DuplicateKey && store.integrations == old(store.integrations)
    ensures r.Ok? ==>
      && store.integrations == old(store.integrations)[r.value.id := r.value]
      && r.value.app == app && r.value.channel == SlackChannel
    ensures r.Ok? && NoSlackIntegration(old(store.integrations), app) ==>
      r.value == Integration(r.value.id, app, BusinessIntegration, SlackChannel, configuration, now)
      && r.value.id !in old(store.integrations)
    ensures r.Ok? && !NoSlackIntegration(old(store.integrations), app) ==>
      && r.value.id in old(store.integrations)
      && r.value == old(store.integrations)[r.value.id].(configuration :=
           Assign(old(store.integrations)[r.value.id].configuration, configuration.fields))
  {
    var existing := store.FindIntegration(app, SlackChannel);
    if existing.None? {
      r := store.InsertIntegration(Integration(0, app, BusinessIntegration, SlackChannel, configuration, now));
    } else {
      var e := existing.value;
      forall k | k in store.integrations && k != e.id && store.integrations[k].channel == SlackChannel
        ensures store.integrations[k].app != app
        ensures PageId(e).Some? ==> PageId(store.integrations[k]) != PageId(e)
      {
        assert IntegrationKey(store.integrations[k]) != IntegrationKey(store.integrations[e.id]);
        assert PageId(e).Some? ==> PageKey(store.integrations[k]) != PageKey(store.integrations[e.id]);
      }
      var merged := e.(configuration := Assign(e.configuration, configuration.fields));
      assert Get(merged.configuration, "page") == Get(e.configuration, "page");
      assert TeamId(merged) == Some(Str(teamId));
      r := store.UpdateIntegration(merged);
    }
  }

  class Workspace {
    /** The channels by id. */
    var channels: map<string, RemoteChannel>
    /** The channel names in use, archived channels included. */
    var taken: set<string>
    /** The calls that fail with `internal_error`. */
    var failing: set<ApiCall>
    /** Every message posted, oldest first; `Render` gives what Slack shows. */
    var posts: seq<Message>

    ghost predicate Valid()
      reads this
    {
      && "" !in channels
      && forall id :: id in channels ==> channels[id].name in taken
    }

    constructor (channels: map<string, RemoteChannel>, taken: set<string>, failing: set<ApiCall>)
      requires "" !in channels && forall id :: id in channels ==> channels[id].name in taken
      ensures Valid()
      ensures this.channels == channels && this.taken == taken && this.failing == failing && posts == []
    {
      this.channels := channels;
      this.taken := taken;
      this.failing := failing;
      posts := [];
    }

    /** Whether a post to the channel `id` is accepted: the channel exists, is not archived, and the call does not fail. */
    predicate Open(id: string)
      reads this
    {
      PostCall(id) !in failing && id in channels && !channels[id].archived
    }

    /** Whether posts fail only in the channels `ids`, so that a channel created later accepts them. */
    predicate PostFailuresWithin(ids: set<string>)
      reads this
    {
      forall call :: call in failing && call.PostCall? ==> call.channel in ids
    }

    /** There is always a channel id not in use. */
    lemma FreshIdExists()
      ensures exists id :: id != "" && id !in channels
    {
      var n := MaxLength(channels.Keys);
      var id := seq(n + 1, _ => 'C');
      assert |id| > n;
      assert id !in channels.Keys;
    }

    /** `channels.create({name})`. */
    method Create(name: string) returns (r: Result<ChannelRef, Error>)
      requires Valid()
      modifies this`channels, this`taken
      ensures Valid()
      ensures CreateCall in failing ==> r == Err(SlackError(ApiFailureCode))
      ensures CreateCall !in failing && name in old(taken) ==> r == Err(SlackError(NameTakenCode))
      ensures CreateCall !in failing && name !in old(taken) ==>
        r.Ok? && r.value.name == name && r.value.id !in old(channels)
      ensures r.Err? ==> channels == old(channels) && taken == old(taken)
      ensures r.Ok? ==> channels == old(channels)[r.value.id := RemoteChannel(name, false)]
                        && taken == old(taken) + {name}
    {
      if CreateCall in failing {
        return Err(SlackError(ApiFailureCode));
      }
      if name in taken {
        return Err(SlackError(NameTakenCode));
      }
      FreshIdExists();
      var id :| id != "" && id !in channels;
      channels := channels[id := RemoteChannel(name, false)];
      taken := taken + {name};
      r := Ok(ChannelRef(id, name));
    }

    /** `channels.info({channel})`: the channel and whether it is archived. */
    method Info(id: string) returns (r: Result<(ChannelRef, bool), Error>)
      ensures InfoCall in failing ==> r == Err(SlackError(ApiFailureCode))
      ensures InfoCall !in failing && id !in channels ==> r == Err(SlackError(ChannelNotFoundCode))
      ensures InfoCall !in failing && id in channels ==>
        r == Ok((ChannelRef(id, channels[id].name), channels[id].archived))
    {
      if InfoCall in failing {
        return Err(SlackError(ApiFailureCode));
      }
      if id !in channels {
        return Err(SlackError(ChannelNotFoundCode));
      }
      r := Ok((ChannelRef(id, channels[id].name), channels[id].archived));
    }

    /** `channels.unarchive({channel})`. */
    method Unarchive(id: string) returns (r: Result<(), Error>)
      requires Valid()
      modifies this`channels
      ensures Valid()
      ensures UnarchiveCall in failing ==> r == Err(SlackError(ApiFailureCode))
      ensures UnarchiveCall !in failing && id !in old(channels) ==> r == Err(SlackError(ChannelNotFoundCode))
      ensures UnarchiveCall !in failing && id in old(channels) && !old(channels)[id].archived ==>
        r == Err(SlackError(NotArchivedCode))
      ensures UnarchiveCall !in failing && id in old(channels) && old(channels)[id].archived ==> r.Ok?
      ensures r.Err? ==> channels == old(channels)
      ensures r.Ok? ==> id in old(channels) && channels == old(channels)[id := old(channels)[id].(archived := false)]
    {
      if UnarchiveCall in failing {
        return Err(SlackError(ApiFailureCode));
      }
      if id !in channels {
        return Err(SlackError(ChannelNotFoundCode));
      }
      if !channels[id].archived {
        return Err(SlackError(NotArchivedCode));
      }
      channels := channels[id := channels[id].(archived := false)];
      r := Ok(());
    }

    /** `chat.postMessage`: accepted in an open channel. */
    method PostMessage(m: Message) returns (r: Result<(), Error>)
      modifies this`posts
      ensures r.Ok? <==> Open(Target(m))
      ensures r.Err? ==> posts == old(posts) && r.error.SlackError? && r.error.code != NotArchivedCode
      ensures r.Ok? ==> posts == old(posts) + [m]
    {
      var channel := Target(m);
      if PostCall(channel) in failing {
        return Err(SlackError(ApiFailureCode));
      }
      if channel !in channels {
        return Err(SlackError(ChannelNotFoundCode));
      }
      if channels[channel].archived {
        return Err(SlackError(IsArchivedCode));
      }
      posts := posts + [m];
      r := Ok(());
    }

    /** One attempt of `createChannel`: ask for the name of attempt `conflicts`. */
    method TryCreate(table: Text.LetterTable, fullName: string, conflicts: nat) returns (r: Result<ChannelRef, Error>)
      requires Valid()
      modifies this`channels, this`taken
      ensures Valid()
      ensures CreateCall in failing ==> r == Err(SlackError(ApiFailureCode))
      ensures CreateCall !in failing && !Free(table, fullName, old(taken), conflicts) ==> r == Err(SlackError(NameTakenCode))
      ensures CreateCall !in failing && Free(table, fullName, old(taken), conflicts) ==> r.Ok?
      ensures r.Err? ==> channels == old(channels) && taken == old(taken)
      ensures r.Ok? ==> r.value.name == ChannelName(table, fullName, conflicts) && r.value.id !in old(channels)
                        && channels == old(channels)[r.value.id := RemoteChannel(r.value.name, false)]
                        && taken == old(taken) + {r.value.name}
    {
      r := Create(ChannelName(table, fullName, conflicts));
    }

    /**
     * `createChannel`: try the plain name, then the names with suffix 1, 2, ...
     * while the workspace answers `name_taken`; any other error ends the search.
     */
    method CreateChannel(table: Text.LetterTable, fullName: string) returns (r: Result<ChannelRef, Error>)
      requires Valid()
      modifies this`channels, this`taken
      ensures Valid()
      ensures CreateCall in failing <==> r.Err?
      ensures r.Err? ==> r.error == SlackError(ApiFailureCode) && channels == old(channels) && taken == old(taken)
      ensures r.Ok? ==> r.value.name == ChannelName(table, fullName, FirstFree(table, fullName, old(taken)))
      ensures r.Ok? ==> r.value.id !in old(channels)
                        && channels == old(channels)[r.value.id := RemoteChannel(r.value.name, false)]
                        && taken == old(taken) + {r.value.name}
    {
      var conflicts: nat := 0;
      ghost var bound := SomeFreeAttempt(table, fullName, taken);
      while true
        invariant conflicts <= bound
        invariant forall m :: 0 <= m < conflicts ==> !Free(table, fullName, old(taken), m)
        invariant channels == old(channels) && taken == old(taken)
        decreases bound - conflicts
      {
        var created := TryCreate(table, fullName, conflicts);
        if created.Ok? {
          FirstFreeUnique(table, fullName, old(taken), conflicts);
          return created;
        }
        if created.error != SlackError(NameTakenCode) {
          return created;
        }
        TakenOneMore(table, fullName, old(taken), conflicts);
        conflicts := conflicts + 1;
      }
    }

    /** `getChannel`: the bound channel, `None` when the workspace does not know it. */
    method GetChannel(extra: map<string, Json>) returns (r: Result<Option<(ChannelRef, bool)>, Error>)
      requires Valid()
      ensures InfoCall in failing ==> r == Err(SlackError(ApiFailureCode))
      ensures InfoCall !in failing && BoundId(extra) !in channels ==> r == Ok(None)
      ensures InfoCall !in failing && BoundId(extra) in channels ==>
        r == Ok(Some((ChannelRef(BoundId(extra), channels[BoundId(extra)].name), channels[BoundId(extra)].archived)))
    {
      var info := Info(BoundId(extra));
      if info.Err? {
        if info.error == SlackError(ChannelNotFoundCode) {
          return Ok(None);
        }
        return Err(info.error);
      }
      r := Ok(Some(info.value));
    }

    /** `postProfile` to the channel `channelId`. */
    method PostProfile(contact: Contact, channelId: string) returns (r: Result<(), Error>)
      modifies this`posts
      ensures r.Ok? <==> Open(channelId)
      ensures r.Err? ==> posts == old(posts) && r.error.SlackError? && r.error.code != NotArchivedCode
      ensures r.Ok? ==> posts == old(posts) + [ProfileMessage(contact, channelId)]
    {
      r := PostMessage(ProfileMessage(contact, channelId));
    }

    /**
     * `introduceUser`: the notice in the support channel, the channel intro
     * and the profile, stopping at the first failure. `supportId` is `None`
     * when the integration has no support channel, which throws before any post.
     */
    method IntroduceUser(contact: Contact, message: string, supportId: Option<string>, ch: ChannelRef)
      returns (r: Result<(), Error>)
      modifies this`posts
      ensures supportId.None? ==> r == Err(TypeError)
      ensures r.Ok? <==> supportId.Some? && Open(supportId.value) && Open(ch.id)
      ensures r.Err? ==> old(posts) <= posts && |posts| < |old(posts)| + 3
      ensures r.Err? ==> r.error == TypeError || (r.error.SlackError? && r.error.code != NotArchivedCode)
      ensures r.Ok? ==> supportId.Some? && posts == old(posts) + Introduction(contact, message, supportId.value, ch)
    {
      if supportId.None? {
        return Err(TypeError);
      }
      var notice := PostMessage(SupportNoticeMessage(supportId.value, contact.user, ch, message));
      if notice.Err? {
        return Err(notice.error);
      }
      var intro := PostMessage(ChannelIntroMessage(contact.user, ch));
      if intro.Err? {
        return Err(intro.error);
      }
      r := PostProfile(contact, ch.id);
    }

    /**
     * `createChannelIntroducingUser`: a new channel, its introduction, and only
     * then the binding in the user's `extra`, merged over the user's other keys.
     */
    method CreateChannelIntroducingUser(store: Database.Store, table: Text.LetterTable, contact: Contact,
                                        message: string, supportId: Option<string>)
      returns (r: Result<ChannelRef, Error>)
      requires Valid() && store.Valid()
      modifies this`channels, this`taken, this`posts, store`users
      ensures Valid() && store.Valid()
      ensures CreateCall in failing ==> r.Err? && posts == old(posts) && channels == old(channels)
      ensures (CreateCall !in failing && supportId.Some? && old(Open(supportId.value)) && PostFailuresWithin(old(channels).Keys)
               && contact.user.id in old(store.users)) ==> r.Ok?
      ensures r.Err? ==> store.users == old(store.users)
      ensures r.Ok? ==> r.value.name == ChannelName(table, GetFullName(contact.user), FirstFree(table, GetFullName(contact.user), old(taken)))
      ensures r.Ok? ==> r.value.id !in old(channels)
                        && channels == old(channels)[r.value.id := RemoteChannel(r.value.name, false)]
      ensures r.Ok? ==> supportId.Some? && posts == old(posts) + Introduction(contact, message, supportId.value, r.value)
      ensures r.Ok? ==> contact.user.id in old(store.users)
                        && store.users == old(store.users)[contact.user.id :=
                             old(store.users)[contact.user.id].(extra := WithBinding(contact.user.extra, r.value))]
    {
      var created := CreateChannel(table, GetFullName(contact.user));
      if created.Err? {
        return Err(created.error);
      }
      var ch := created.value;
      var introduced := IntroduceUser(contact, message, supportId, ch);
      if introduced.Err? {
        return Err(introduced.error);
      }
      var saved := SaveBinding(store, contact.user, ch);
      if saved.Err? {
        return Err(saved.error);
      }
      r := Ok(ch);
    }

    /**
     * `unarchiveChannelIntroducingUser`: reopen the channel and introduce the
     * user again; a channel that turns out not to be archived is used as it is.
     */
    method UnarchiveChannelIntroducingUser(contact: Contact, message: string, supportId: Option<string>, ch: ChannelRef)
      returns (r: Result<ChannelRef, Error>)
      requires Valid()
      modifies this`channels, this`posts
      ensures Valid()
      ensures r.Ok? ==> r.value == ch
      ensures UnarchiveCall in failing ==> r.Err? && posts == old(posts) && channels == old(channels)
      ensures UnarchiveCall !in failing && ch.id in old(channels) && !old(channels)[ch.id].archived ==>
        r == Ok(ch) && posts == old(posts) && channels == old(channels)
      ensures UnarchiveCall !in failing && ch.id in old(channels) && old(channels)[ch.id].archived ==>
        channels == old(channels)[ch.id := old(channels)[ch.id].(archived := false)]
        && (r.Ok? ==> supportId.Some? && posts == old(posts) + Introduction(contact, message, supportId.value, ch))
      ensures (UnarchiveCall !in failing && ch.id in old(channels) && old(channels)[ch.id].archived
               && supportId.Some? && old(Open(supportId.value)) && PostCall(ch.id) !in failing) ==> r.Ok?
    {
      var reopened := Unarchive(ch.id);
      if reopened.Err? {
        if reopened.error == SlackError(NotArchivedCode) {
          return Ok(ch);
        }
        return Err(reopened.error);
      }
      var introduced := IntroduceUser(contact, message, supportId, ch);
      if introduced.Err? {
        return Err(introduced.error);
      }
      r := Ok(ch);
    }

    /** Whether `postMessage` has to open a new channel: no binding, or a bound channel Slack does not know. */
    ghost predicate NeedsChannel(extra: map<string, Json>)
      reads this
    {
      !HasBinding(extra) || (InfoCall !in failing && BoundId(extra) !in channels)
    }

    /**
     * The first half of `exports.postMessage`: the user's channel, created and
     * introduced when there is none, reopened and introduced again when it is
     * archived, reused as it is otherwise.
     */
    method ResolveChannel(store: Database.Store, table: Text.LetterTable, contact: Contact, message: string,
                          supportId: Option<string>)
      returns (r: Result<ChannelRef, Error>)
      requires Valid() && store.Valid()
      modifies this`channels, this`taken, this`posts, store`users
      ensures Valid() && store.Valid()
      ensures r.Ok? ==> r.value.id in channels && !channels[r.value.id].archived
      ensures HasBinding(contact.user.extra) && InfoCall in failing ==>
        r.Err? && posts == old(posts) && channels == old(channels) && store.users == old(store.users)
      ensures old(NeedsChannel(contact.user.extra)) && r.Ok? ==>
        && r.value.id !in old(channels)
        && r.value.name == ChannelName(table, GetFullName(contact.user), FirstFree(table, GetFullName(contact.user), old(taken)))
        && supportId.Some?
        && posts == old(posts) + Introduction(contact, message, supportId.value, r.value)
        && contact.user.id in old(store.users)
        && store.users == old(store.users)[contact.user.id :=
             old(store.users)[contact.user.id].(extra := WithBinding(contact.user.extra, r.value))]
      ensures !old(NeedsChannel(contact.user.extra)) ==> store.users == old(store.users)
      ensures (old(NeedsChannel(contact.user.extra)) && CreateCall !in failing && supportId.Some? && old(Open(supportId.value))
               && PostFailuresWithin(old(channels).Keys) && contact.user.id in old(store.users)) ==> r.Ok?
      ensures (HasBinding(contact.user.extra) && InfoCall !in failing && BoundId(contact.user.extra) in old(channels)
               && old(channels)[BoundId(contact.user.extra)].archived && UnarchiveCall !in failing
               && supportId.Some? && old(Open(supportId.value)) && PostCall(BoundId(contact.user.extra)) !in failing) ==> r.Ok?
      ensures HasBinding(contact.user.extra) && InfoCall !in failing && BoundId(contact.user.extra) in old(channels) ==>
        (r.Ok? ==> r.value == ChannelRef(BoundId(contact.user.extra), old(channels)[BoundId(contact.user.extra)].name))
        && (!old(channels)[BoundId(contact.user.extra)].archived ==> r.Ok? && channels == old(channels) && posts == old(posts))
        && (old(channels)[BoundId(contact.user.extra)].archived && r.Ok? ==>
              supportId.Some? && posts == old(posts) + Introduction(contact, message, supportId.value, r.value))
    {
      if HasBinding(contact.user.extra) {
        var found := GetChannel(contact.user.extra);
        if found.Err? {
          return Err(found.error);
        }
        match found.value
        case Some((ch, archived)) =>
          if !archived {
            return Ok(ch);
          }
          r := UnarchiveChannelIntroducingUser(contact, message, supportId, ch);
          return;
        case None =>
      }
      r := CreateChannelIntroducingUser(store, table, contact, message, supportId);
    }

    /**
     * `exports.postMessage`: resolve the user's channel and post the message
     * there under the user's full name. `supportId` is `SupportChannelId` of
     * the integration's configuration and `iconUrl` the user's photo URL; the
     * channel is returned.
     */
    method SendMessage(store: Database.Store, table: Text.LetterTable, contact: Contact, message: string,
                       supportId: Option<string>, iconUrl: Option<string>)
      returns (r: Result<ChannelRef, Error>)
      requires Valid() && store.Valid()
      modifies this`channels, this`taken, this`posts, store`users
      ensures Valid() && store.Valid()
      ensures r.Ok? ==> Open(r.value.id)
      ensures HasBinding(contact.user.extra) && InfoCall in failing ==>
        r.Err? && posts == old(posts) && channels == old(channels) && store.users == old(store.users)
      ensures (old(NeedsChannel(contact.user.extra)) && CreateCall !in failing && supportId.Some? && old(Open(supportId.value))
               && PostFailuresWithin(old(channels).Keys) && contact.user.id in old(store.users)) ==> r.Ok?
      ensures HasBinding(contact.user.extra) && InfoCall !in failing && old(Open(BoundId(contact.user.extra))) ==> r.Ok?
      ensures (HasBinding(contact.user.extra) && InfoCall !in failing && BoundId(contact.user.extra) in old(channels)
               && old(channels)[BoundId(contact.user.extra)].archived && UnarchiveCall !in failing
               && supportId.Some? && old(Open(supportId.value)) && PostCall(BoundId(contact.user.extra)) !in failing) ==> r.Ok?
      ensures old(NeedsChannel(contact.user.extra)) && r.Ok? ==>
        && r.value.id !in old(channels)
        && r.value.name == ChannelName(table, GetFullName(contact.user), FirstFree(table, GetFullName(contact.user), old(taken)))
        && supportId.Some?
        && posts == old(posts) + Introduction(contact, message, supportId.value, r.value) + [UserMessage(contact, r.value, message, iconUrl)]
        && contact.user.id in old(store.users)
        && store.users == old(store.users)[contact.user.id :=
             old(store.users)[contact.user.id].(extra := WithBinding(contact.user.extra, r.value))]
      ensures !old(NeedsChannel(contact.user.extra)) ==> store.users == old(store.users)
      ensures HasBinding(contact.user.extra) && InfoCall !in failing && BoundId(contact.user.extra) in old(channels) && r.Ok? ==>
        && r.value == ChannelRef(BoundId(contact.user.extra), old(channels)[BoundId(contact.user.extra)].name)
        && (!old(channels)[BoundId(contact.user.extra)].archived ==>
              channels == old(channels) && posts == old(posts) + [UserMessage(contact, r.value, message, iconUrl)])
        && (old(channels)[BoundId(contact.user.extra)].archived ==>
              supportId.Some?
              && posts == old(posts) + Introduction(contact, message, supportId.value, r.value)
                 + [UserMessage(contact, r.value, message, iconUrl)])
    {
      var resolved := ResolveChannel(store, table, contact, message, supportId);
      if resolved.Err? {
        return resolved;
      }
      var sent := PostMessage(UserMessage(contact, resolved.value, message, iconUrl));
      if sent.Err? {
        return Err(sent.error);
      }
      r := resolved;
    }

    /** `exports.postProfile`: the profile goes to the bound channel, and nowhere without a binding. */
    method PostBoundProfile(contact: Contact) returns (r: Result<(), Error>)
      modifies this`posts
      ensures !HasBinding(contact.user.extra) ==> r == Ok(()) && posts == old(posts)
      ensures HasBinding(contact.user.extra) ==> (r.Ok? <==> Open(BoundId(contact.user.extra)))
      ensures HasBinding(contact.user.extra) && r.Ok? ==>
        posts == old(posts) + [ProfileMessage(contact, BoundId(contact.user.extra))]
      ensures r.Err? ==> posts == old(posts)
    {
      if !HasBinding(contact.user.extra) {
        return Ok(());
      }
      r := PostProfile(contact, BoundId(contact.user.extra));
    }

    /**
     * `addIntegration`: the configuration built from `auth.test` and the
     * general channel is saved as a new Slack integration of the app, or is
     * assigned key by key over the configuration of the app's Slack
     * integration, which keeps its other keys and, when no general channel is
     * listed, its support channel; then the bot greets in the general channel.
     * `saved` is the stored integration, `None` when the (channel, team id)
     * index rejects the write, which throws before any greeting. Without a
     * general channel the greeting throws after the write.
     */
    method AddIntegration(store: Database.Store, app: Id, auth: AuthTest, token: string, listed: seq<ListedChannel>, now: int)
      returns (saved: Option<Integration>, r: Result<Integration, Error>)
      requires store.Valid()
      modifies this`posts, store`integrations, store`nextId
      ensures store.Valid()
      ensures saved.None? <==> TeamTaken(old(store.integrations), app, auth.teamId)
      ensures saved.None? ==> r == Err(DuplicateKey) && store.integrations == old(store.integrations) && posts == old(posts)
      ensures saved.Some? ==>
        && store.integrations == old(store.integrations)[saved.value.id := saved.value]
        && saved.value.app == app && saved.value.channel == SlackChannel
        && GetPath(saved.value.configuration, ["team", "id"]) == Some(Str(auth.teamId))
        && GetPath(saved.value.configuration, ["user", "id"]) == Some(Str(auth.userId))
        && GetPath(saved.value.configuration, ["user", "access_token"]) == Some(Str(token))
      ensures saved.Some? && NoSlackIntegration(old(store.integrations), app) ==>
        && saved.value.id !in old(store.integrations)
        && saved.value.itype == BusinessIntegration && saved.value.registrationDate == now
        && (Get(saved.value.configuration, "channel").Some? <==> exists i :: 0 <= i < |listed| && listed[i].isGeneral)
      ensures saved.Some? && !NoSlackIntegration(old(store.integrations), app) ==>
        && saved.value.id in old(store.integrations)
        && saved.value == old(store.integrations)[saved.value.id].(configuration := saved.value.configuration)
        && (forall k :: k !in {"team", "user", "channel"} ==>
              Get(saved.value.configuration, k) == Get(old(store.integrations)[saved.value.id].configuration, k))
        && ((forall i :: 0 <= i < |listed| ==> !listed[i].isGeneral) ==>
              Get(saved.value.configuration, "channel") == Get(old(store.integrations)[saved.value.id].configuration, "channel"))
      ensures saved.Some? && (forall i :: 0 <= i < |listed| ==> !listed[i].isGeneral) ==> r == Err(TypeError)
      ensures saved.Some? ==>
        forall i :: 0 <= i < |listed| && listed[i].isGeneral && (forall j :: i < j < |listed| ==> !listed[j].isGeneral) ==>
          && GetPath(saved.value.configuration, ["channel", "id"]) == Some(Str(listed[i].id))
          && (r.Ok? <==> Open(listed[i].id))
      ensures r.Err? ==> posts == old(posts)
      ensures r.Ok? ==>
        && saved.Some? && r.value == saved.value
        && (exists i :: 0 <= i < |listed| && listed[i].isGeneral
              && (forall j :: i < j < |listed| ==> !listed[j].isGeneral)
              && posts == old(posts) + [BotIntroMessage(listed[i].id, auth.userId)])
    {
      var general := PickGeneralChannel(listed);
      var configuration := IntegrationConfiguration(auth, token, general);
      var written := SaveSlackIntegration(store, app, configuration, auth.teamId, now);
      if written.Err? {
        return None, Err(written.error);
      }
      saved := Some(written.value);
      if general.None? {
        return saved, Err(TypeError);
      }
      var greeted := PostMessage(BotIntroMessage(general.value.id, auth.userId));
      if greeted.Err? {
        return saved, Err(greeted.error);
      }
      r := Ok(written.value);
    }
  }
}
