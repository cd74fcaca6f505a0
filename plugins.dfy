/**
 * services/plugin.js: the greetings-message and office-hours plugins an app
 * can install, the triggers that run them when a user views the chat or
 * posts a message, and the connect-channel nudge. Time arrives as integers
 * already converted to the plugin's timezone; the chat service that delivers
 * the messages is represented by the list of messages handed to it.
 */
module Plugins {
  import opened Wrappers
  import opened JsonValue
  import opened Constants
  import opened Models
  import Text
  import Database

  datatype Weekday = Sunday | Monday | Tuesday | Wednesday | Thursday | Friday | Saturday

  /** `_.lowerCase(now.format('dddd'))`: the key of the day in `time_range`. */
  function WeekdayKey(d: Weekday): string
  {
    match d
    case Sunday => "sunday"
    case Monday => "monday"
    case Tuesday => "tuesday"
    case Wednesday => "wednesday"
    case Thursday => "thursday"
    case Friday => "friday"
    case Saturday => "saturday"
  }

  /**
   * The moment a trigger runs: the day of the year on the server's clock, and
   * the weekday and the second of the day in the plugin's timezone.
   */
  datatype Clock = Clock(dayOfYear: int, weekday: Weekday, secondOfDay: int)

  /** A message handed to the chat service. */
  datatype Push =
    | AgentMessage(agent: Agent, user: Id, text: Option<Json>, channel: Option<string>)
    | LinkChannelMessage(user: Id, channels: seq<string>)

  /** The keys of `time_range`, in the order the whitelist lists them. */
  const Days: seq<string> := ["sunday", "monday", "tuesday", "wednesday", "thursday", "friday", "saturday"]

  /** The paths `k.sub` for each `sub` of `subs`, in order. */
  function NestedPaths(k: string, subs: seq<string>): (r: seq<seq<string>>)
    ensures |r| == |subs|
    ensures forall i :: 0 <= i < |subs| ==> r[i] == [k, subs[i]]
  {
    if subs == [] then [] else [[k, subs[0]]] + NestedPaths(k, subs[1..])
  }

  /** `CONFIG_OFFICE_HOURS`. */
  const OfficeHoursWhitelist: seq<seq<string>> :=
    [["timezone"], ["time_range"]] + NestedPaths("time_range", Days) + [["reply"]]

  /** `CONFIG_GREETINGS_MESSAGE`. */
  const GreetingsWhitelist: seq<seq<string>> := [["message"]]

  function Whitelist(t: PluginType): seq<seq<string>>
  {
    match t
    case OfficeHours => OfficeHoursWhitelist
    case GreetingsMessage => GreetingsWhitelist
  }

  /** The entries of `m` whose keys are in `keys`. */
  function Restrict(m: map<string, Json>, keys: set<string>): map<string, Json>
  {
    map k | k in m && k in keys :: m[k]
  }

  /** Picking a list of paths is picking its first part and then its second part. */
  lemma {:induction false} PickIntoAppend(acc: Json, obj: Json, p: seq<seq<string>>, q: seq<seq<string>>)
    ensures PickInto(acc, obj, p + q) == PickInto(PickInto(acc, obj, p), obj, q)
    decreases |p|
  {
    if p == [] {
      assert p + q == q;
    } else {
      assert (p + q)[0] == p[0] && (p + q)[1..] == p[1..] + q;
      var acc' := match GetPath(obj, p[0])
        case Some(v) => SetPath(acc, p[0], v)
        case None => acc;
      PickIntoAppend(acc', obj, p[1..], q);
    }
  }

  /** Picking a single top-level key copies that entry when it exists. */
  lemma PickOne(acc: map<string, Json>, obj: Json, k: string)
    ensures PickInto(Obj(acc), obj, [[k]]) == Obj(if obj.Obj? && k in obj.fields then acc[k := obj.fields[k]] else acc)
  {
    PickKeyStep(acc, obj, k);
  }

  /** Once `k` is picked, picking paths below it changes nothing. */
  lemma {:induction false} PickNestedNoop(acc: map<string, Json>, obj: Json, k: string, subs: seq<string>)
    requires obj.Obj? && k in obj.fields ==> k in acc && acc[k] == obj.fields[k]
    ensures PickInto(Obj(acc), obj, NestedPaths(k, subs)) == Obj(acc)
    decreases |subs|
  {
    if subs != [] {
      var paths := NestedPaths(k, subs);
      assert paths[0] == [k, subs[0]] && paths[1..] == NestedPaths(k, subs[1..]);
      PickNestedStep(acc, obj, k, subs[0]);
      PickNestedNoop(acc, obj, k, subs[1..]);
    }
  }

  /** The entries of a configuration; a value that is not an object has none. */
  function FieldsOf(config: Json): map<string, Json>
  {
    if config.Obj? then config.fields else map[]
  }

  lemma RestrictAdd(fields: map<string, Json>, keys: set<string>, k: string)
    ensures Restrict(fields, keys + {k})
         == if k in fields then Restrict(fields, keys)[k := fields[k]] else Restrict(fields, keys)
  {
  }

  /** Picking one more top-level key extends the kept entries by that key. */
  lemma PickAddKey(config: Json, p: seq<seq<string>>, keys: set<string>, k: string)
    requires PickInto(Obj(map[]), config, p) == Obj(Restrict(FieldsOf(config), keys))
    ensures PickInto(Obj(map[]), config, p + [[k]]) == Obj(Restrict(FieldsOf(config), keys + {k}))
  {
    PickIntoAppend(Obj(map[]), config, p, [[k]]);
    PickOne(Restrict(FieldsOf(config), keys), config, k);
    RestrictAdd(FieldsOf(config), keys, k);
  }

  /** Picking paths below a key already kept whole changes nothing. */
  lemma PickAddNested(config: Json, p: seq<seq<string>>, keys: set<string>, k: string, subs: seq<string>)
    requires k in keys
    requires PickInto(Obj(map[]), config, p) == Obj(Restrict(FieldsOf(config), keys))
    ensures PickInto(Obj(map[]), config, p + NestedPaths(k, subs)) == Obj(Restrict(FieldsOf(config), keys))
  {
    PickIntoAppend(Obj(map[]), config, p, NestedPaths(k, subs));
    PickNestedNoop(Restrict(FieldsOf(config), keys), config, k, subs);
  }

  /**
   * Picking `k1`, `k2`, the paths below `k2`, then `k3` keeps exactly the
   * entries `k1`, `k2` and `k3`, whole.
   */
  lemma PickShape(config: Json, k1: string, k2: string, subs: seq<string>, k3: string)
    ensures PickInto(Obj(map[]), config, [[k1]] + [[k2]] + NestedPaths(k2, subs) + [[k3]])
         == Obj(Restrict(FieldsOf(config), {k1, k2, k3}))
  {
    var empty: set<string> := {};
    assert Restrict(FieldsOf(config), empty) == map[];
    assert [] + [[k1]] == [[k1]];
    PickAddKey(config, [], empty, k1);
    assert empty + {k1} == {k1};
    PickAddKey(config, [[k1]], {k1}, k2);
    assert {k1} + {k2} == {k1, k2};
    PickAddNested(config, [[k1]] + [[k2]], {k1, k2}, k2, subs);
    PickAddKey(config, [[k1]] + [[k2]] + NestedPaths(k2, subs), {k1, k2}, k3);
    assert {k1, k2} + {k3} == {k1, k2, k3};
  }

  /** The office-hours whitelist keeps exactly `timezone`, `time_range` and `reply`, whole. */
  lemma OfficeHoursWhitelistKeeps(config: Json)
    ensures Pick(config, OfficeHoursWhitelist) == Obj(Restrict(FieldsOf(config), {"timezone", "time_range", "reply"}))
  {
    assert OfficeHoursWhitelist == [["timezone"]] + [["time_range"]] + NestedPaths("time_range", Days) + [["reply"]];
    PickShape(config, "timezone", "time_range", Days, "reply");
  }

  /** The greetings whitelist keeps exactly `message`. */
  lemma GreetingsWhitelistKeeps(config: Json)
    ensures Pick(config, GreetingsWhitelist) == Obj(Restrict(FieldsOf(config), {"message"}))
  {
    PickOne(map[], config, "message");
    var fields := FieldsOf(config);
    assert (if "message" in fields then map["message" := fields["message"]] else map[]) == Restrict(fields, {"message"});
  }

  /** `fixTimezone`: "UTC" becomes "UTC+00:00"; every other value, or none, is kept. */
  function FixTimezone(tz: Option<Json>): (r: Option<Json>)
    ensures tz == Some(Str("UTC")) ==> r == Some(Str("UTC+00:00"))
    ensures tz != Some(Str("UTC")) ==> r == tz
  {
    if tz == Some(Str("UTC")) then Some(Str("UTC+00:00")) else tz
  }

  lemma FixTimezoneIdempotent(tz: Option<Json>)
    ensures FixTimezone(FixTimezone(tz)) == FixTimezone(tz)
  {
  }

  /** The timezone the office-hours clock is converted to: the plugin's, fixed. */
  function PluginTimezone(config: Json): Option<Json>
  {
    FixTimezone(GetPath(config, ["timezone"]))
  }

  /** The agent that speaks for an app: id "0", the app's name, the app's icon. */
  function AppAgent(app: App, publicUrl: string): (a: Agent)
    ensures a.id == "0" && a.name == app.name
    ensures a.photoUrl == publicUrl + "/apps/" + Text.Decimal(app.id) + "/icon"
  {
    Agent("0", app.name, publicUrl + "/apps/" + Text.Decimal(app.id) + "/icon")
  }

  const LastCheckPath: seq<string> := ["plugins", "office_hours", "last_check"]
  const ChatViewsPath: seq<string> := ["metrics", "chat_views"]
  const MessagesPostedPath: seq<string> := ["metrics", "messages_posted"]

  /** Whether the counter at `path` of `extra` is exactly the number 1. */
  predicate CountIsOne(extra: map<string, Json>, path: seq<string>)
  {
    GetPath(Obj(extra), path) == Some(Num(1))
  }

  /**
   * Whether office hours already ran today: `last_check` is set and, read
   * by `dayOf` as a date, falls on the same day of the year as now.
   */
  predicate CheckedToday(extra: map<string, Json>, dayOf: Json -> int, today: int)
  {
    var lc := GetPath(Obj(extra), LastCheckPath);
    lc.Some? && Truthy(lc.value) && dayOf(lc.value) == today
  }

  /** `extra` after `last_check` is set to `millis`. */
  function WithLastCheck(extra: map<string, Json>, millis: int): (r: map<string, Json>)
    ensures GetPath(Obj(r), LastCheckPath) == Some(Num(millis))
    ensures forall k :: k != "plugins" ==> (k in r <==> k in extra) && (k in r ==> r[k] == extra[k])
  {
    var j := SetPath(Obj(extra), LastCheckPath, Num(millis));
    assert forall k :: k != "plugins" ==> Get(j, k) == Get(Obj(extra), k);
    j.fields
  }

  /** The second of the day an "hh:mm" bound denotes, when it is two runs of digits around a colon. */
  function ParseClockTime(s: string): (r: Option<int>)
    ensures r.Some? ==> r.value >= 0
  {
    var parts := Text.Split(s, ':');
    if |parts| >= 2 && Text.IsDigits(parts[0]) && Text.IsDigits(parts[1])
    then Some(Text.ParseDecimal(parts[0]) * 3600 + Text.ParseDecimal(parts[1]) * 60)
    else None
  }

  lemma DecimalHasNoColon(n: nat)
    ensures ':' !in Text.Decimal(n)
  {
    var s := Text.Decimal(n);
    forall i | 0 <= i < |s| ensures s[i] != ':' { }
  }

  /** "h:m" splits at its colon into the two numbers. */
  lemma SplitDecimals(h: nat, m: nat)
    ensures Text.Split(Text.Decimal(h) + ":" + Text.Decimal(m), ':') == [Text.Decimal(h), Text.Decimal(m)]
  {
    var a, b := Text.Decimal(h), Text.Decimal(m);
    DecimalHasNoColon(h);
    DecimalHasNoColon(m);
    assert a + ":" + b == a + [':'] + b;
    Text.SplitAroundSeparator(a, b, ':');
  }

  lemma ParseClockTimeOfParts(s: string, a: string, b: string, h: nat, m: nat)
    requires Text.Split(s, ':') == [a, b] && Text.IsDigits(a) && Text.IsDigits(b)
    requires Text.ParseDecimal(a) == h && Text.ParseDecimal(b) == m
    ensures ParseClockTime(s) == Some(h * 3600 + m * 60)
  {
  }

  /** "h:m" written with decimal numbers is h hours and m minutes after midnight. */
  lemma ParseClockTimeOf(h: nat, m: nat)
    ensures ParseClockTime(Text.Decimal(h) + ":" + Text.Decimal(m)) == Some(h * 3600 + m * 60)
  {
    var a, b := Text.Decimal(h), Text.Decimal(m);
    var s := a + ":" + b;
    assert Text.Split(s, ':') == [a, b] by { SplitDecimals(h, m); }
    assert Text.IsDigits(a) && Text.IsDigits(b);
    assert Text.ParseDecimal(a) == h && Text.ParseDecimal(b) == m by {
      Text.ParseDecimalOfDecimal(h);
      Text.ParseDecimalOfDecimal(m);
    }
    ParseClockTimeOfParts(s, a, b, h, m);
  }

  /** `plugin.configuration.time_range[day]` when it is truthy; reading it from a missing or null `time_range` raises. */
  function TodayRange(config: Json, day: Weekday): (r: Result<Option<Json>, Error>)
    ensures r.Err? <==> GetPath(config, ["time_range"]) in {None, Some(Null)}
    ensures r.Ok? && r.value.Some? ==> Truthy(r.value.value)
                                       && Get(GetPath(config, ["time_range"]).value, WeekdayKey(day)) == r.value
  {
    match GetPath(config, ["time_range"])
    case None => Err(TypeError)
    case Some(tr) =>
      if tr == Null then Err(TypeError)
      else
        match Get(tr, WeekdayKey(day))
        case Some(v) => if Truthy(v) then Ok(Some(v)) else Ok(None)
        case None => Ok(None)
  }

  /** One bound of a range, in seconds of the day: not a string raises, not "hh:mm" is invalid. */
  function Bound(range: Json, key: string): (r: Result<int, Error>)
    ensures r.Ok? ==> exists s :: Get(range, key) == Some(Str(s)) && ParseClockTime(s) == Some(r.value)
  {
    match Get(range, key)
    case Some(Str(s)) =>
      (match ParseClockTime(s) case Some(t) => Ok(t) case None => Err(InvalidTime))
    case _ => Err(TypeError)
  }

  /** Today's range as its first second (hh:mm:00) and its last second (hh:mm:59). */
  function RangeBounds(range: Json): (r: Result<(int, int), Error>)
    ensures r.Ok? <==> Bound(range, "start").Ok? && Bound(range, "end").Ok?
    ensures r.Ok? ==> r.value == (Bound(range, "start").value, Bound(range, "end").value + 59)
  {
    var start :- Bound(range, "start");
    var end :- Bound(range, "end");
    Ok((start, end + 59))
  }

  /** The outcome of the office-hours plugin for a message. */
  datatype OfficeHoursStep =
    | AlreadyChecked
    | NoRangeToday
    /** Today's range was checked; `reply` says whether now lies outside it. */
    | Checked(reply: bool)

  /** What `executeOfficeHoursPlugin` decides for a user's `extra` at `clock`. */
  function OfficeHoursStepOf(config: Json, extra: map<string, Json>, dayOf: Json -> int, clock: Clock)
    : Result<OfficeHoursStep, Error>
  {
    if CheckedToday(extra, dayOf, clock.dayOfYear) then Ok(AlreadyChecked)
    else
      var range :- TodayRange(config, clock.weekday);
      if range.None? then Ok(NoRangeToday)
      else
        var bounds :- RangeBounds(range.value);
        Ok(Checked(clock.secondOfDay < bounds.0 || clock.secondOfDay > bounds.1))
  }

  /**
   * Office hours does nothing when it already ran today or today has no
   * range; otherwise it replies exactly when now lies outside today's range.
   */
  lemma OfficeHoursStepCases(config: Json, extra: map<string, Json>, dayOf: Json -> int, clock: Clock)
    ensures var r := OfficeHoursStepOf(config, extra, dayOf, clock);
            && (CheckedToday(extra, dayOf, clock.dayOfYear) ==> r == Ok(AlreadyChecked))
            && (r == Ok(NoRangeToday) <==>
                  !CheckedToday(extra, dayOf, clock.dayOfYear) && TodayRange(config, clock.weekday) == Ok(None))
            && (r.Ok? && r.value.Checked? <==>
                  && !CheckedToday(extra, dayOf, clock.dayOfYear)
                  && TodayRange(config, clock.weekday).Ok? && TodayRange(config, clock.weekday).value.Some?
                  && RangeBounds(TodayRange(config, clock.weekday).value.value).Ok?)
            && (r.Ok? && r.value.Checked? ==>
                  var bounds := RangeBounds(TodayRange(config, clock.weekday).value.value).value;
                  (r.value.reply <==> clock.secondOfDay < bounds.0 || clock.secondOfDay > bounds.1))
  {
  }

  /** Once `last_check` is written, office hours does nothing again on that day of the year. */
  lemma OfficeHoursOncePerDay(config: Json, extra: map<string, Json>, dayOf: Json -> int, checkedAt: int, later: Clock)
    requires checkedAt != 0 && dayOf(Num(checkedAt)) == later.dayOfYear
    ensures OfficeHoursStepOf(config, WithLastCheck(extra, checkedAt), dayOf, later) == Ok(AlreadyChecked)
  {
    assert CheckedToday(WithLastCheck(extra, checkedAt), dayOf, later.dayOfYear);
  }

  /**
   * With a range from `startText` to `endText` for today, read as the
   * seconds `start` and `end` of the day, the reply is sent exactly when now
   * is before start:00 or after end:59.
   */
  lemma OfficeHoursReplyWindow(extra: map<string, Json>, dayOf: Json -> int, clock: Clock,
                               startText: string, endText: string, start: int, end: int)
    requires !CheckedToday(extra, dayOf, clock.dayOfYear)
    requires ParseClockTime(startText) == Some(start) && ParseClockTime(endText) == Some(end)
    ensures var range := Obj(map["start" := Str(startText), "end" := Str(endText)]);
            var config := Obj(map["time_range" := Obj(map[WeekdayKey(clock.weekday) := range])]);
            OfficeHoursStepOf(config, extra, dayOf, clock)
              == Ok(Checked(clock.secondOfDay < start || clock.secondOfDay > end + 59))
  {
    var range := Obj(map["start" := Str(startText), "end" := Str(endText)]);
    var tr := Obj(map[WeekdayKey(clock.weekday) := range]);
    var config := Obj(map["time_range" := tr]);
    assert GetPath(config, ["time_range"]) == Some(tr) by {
      assert GetPath(config, ["time_range"]) == GetPath(tr, []);
    }
    assert Get(tr, WeekdayKey(clock.weekday)) == Some(range);
    assert TodayRange(config, clock.weekday) == Ok(Some(range));
    assert Bound(range, "start") == Ok(start);
    assert Bound(range, "end") == Ok(end);
  }

  /**
   * The check compares days of the year only: a `last_check` from the same
   * date of an earlier year also counts as today.
   */
  lemma OfficeHoursIgnoresYear(config: Json, clock: Clock)
    ensures var yearAgo := 1_000_000;
            var dayOf := (j: Json) => if j == Num(yearAgo) then clock.dayOfYear else clock.dayOfYear + 1;
            OfficeHoursStepOf(config, WithLastCheck(map[], yearAgo), dayOf, clock) == Ok(AlreadyChecked)
  {
  }

  /**
   * The office-hours outcome for a user of an app with the plugin `plugin`;
   * an app without the plugin behaves as one whose plugin already ran today.
   */
  function StepFor(plugin: Option<Plugin>, u: User, dayOf: Json -> int, clock: Clock): Result<OfficeHoursStep, Error>
  {
    if plugin.Some? then OfficeHoursStepOf(plugin.value.configuration, u.extra, dayOf, clock) else Ok(AlreadyChecked)
  }

  /** Whether office hours runs to its end without raising. */
  predicate OfficeHoursCompletes(step: Result<OfficeHoursStep, Error>, appFound: bool, replyFails: bool)
  {
    step.Ok? && (step.value != Checked(true) || (appFound && !replyFails))
  }

  /** Whether office hours writes `last_check`: it checked today's range and did not fail on the way. */
  predicate WritesLastCheck(step: Result<OfficeHoursStep, Error>, appFound: bool, replyFails: bool)
  {
    step == Ok(Checked(false)) || (step == Ok(Checked(true)) && appFound && !replyFails)
  }

  /** The office-hours reply handed to the chat service, if one is. */
  function ReplyPushes(apps: map<Id, App>, plugin: Option<Plugin>, u: User, step: Result<OfficeHoursStep, Error>,
                       publicUrl: string): seq<Push>
  {
    if plugin.Some? && step == Ok(Checked(true)) && u.app in apps
    then [AgentMessage(AppAgent(apps[u.app], publicUrl), u.id, GetPath(plugin.value.configuration, ["reply"]), None)]
    else []
  }

  /** `executeOfficeHoursPlugin` for the stored user `userId`. */
  method RunOfficeHours(store: Database.Store, userId: Id, plugin: Plugin, clock: Clock, dayOf: Json -> int,
                        checkedAt: int, publicUrl: string, replyFails: bool)
    returns (pushes: seq<Push>, completes: bool)
    requires store.Valid() && userId in store.users
    modifies store`users
    ensures store.Valid()
    ensures var u := old(store.users)[userId];
            var step := OfficeHoursStepOf(plugin.configuration, u.extra, dayOf, clock);
            && completes == OfficeHoursCompletes(step, u.app in store.apps, replyFails)
            && pushes == ReplyPushes(store.apps, Some(plugin), u, step, publicUrl)
            && store.users == old(store.users)[userId := u.(extra :=
                 if WritesLastCheck(step, u.app in store.apps, replyFails) then WithLastCheck(u.extra, checkedAt)
                 else u.extra)]
  {
    var user := store.users[userId];
    pushes, completes := [], false;
    var step := OfficeHoursStepOf(plugin.configuration, user.extra, dayOf, clock);
    if step.Err? {
      assert !WritesLastCheck(step, user.app in store.apps, replyFails);
      return;
    }
    if step.value.Checked? {
      if step.value.reply {
        if user.app !in store.apps {
          assert store.users == old(store.users)[userId := user.(extra := user.extra)];
          return;
        }
        var agent := AppAgent(store.apps[user.app], publicUrl);
        pushes := [AgentMessage(agent, userId, GetPath(plugin.configuration, ["reply"]), None)];
        if replyFails {
          assert store.users == old(store.users)[userId := user.(extra := user.extra)];
          return;
        }
      }
      store.SetUserExtra(userId, WithLastCheck(user.extra, checkedAt));
    } else {
      assert store.users == old(store.users)[userId := user.(extra := user.extra)];
    }
    completes := true;
  }

  /**
   * `chatViewed` for the user `userId`, on the chat channel `channel`: the
   * greeting is handed over when the user has viewed the chat exactly once
   * and the app has a greetings plugin. Failures are swallowed.
   */
  method ChatViewed(store: Database.Store, userId: Id, channel: Option<string>, publicUrl: string)
    returns (pushes: seq<Push>)
    requires store.Valid()
    ensures |pushes| <= 1
    ensures |pushes| == 1 <==>
              && userId in store.users
              && CountIsOne(store.users[userId].extra, ChatViewsPath)
              && Database.PluginOf(store.plugins, store.users[userId].app, GreetingsMessage).Some?
              && store.users[userId].app in store.apps
              && Database.PluginOf(store.plugins, store.users[userId].app, GreetingsMessage).value.configuration != Null
    ensures |pushes| == 1 ==>
              var u := store.users[userId];
              var plugin := Database.PluginOf(store.plugins, u.app, GreetingsMessage).value;
              pushes[0] == AgentMessage(AppAgent(store.apps[u.app], publicUrl), userId,
                                        GetPath(plugin.configuration, ["message"]), channel)
  {
    pushes := [];
    if userId !in store.users {
      return;
    }
    var user := store.users[userId];
    if !CountIsOne(user.extra, ChatViewsPath) {
      return;
    }
    var plugin := store.FindPlugin(user.app, GreetingsMessage);
    if plugin.None? {
      return;
    }
    if user.app !in store.apps {
      return;
    }
    var agent := AppAgent(store.apps[user.app], publicUrl);
    if plugin.value.configuration == Null {
      return;
    }
    pushes := [AgentMessage(agent, userId, GetPath(plugin.value.configuration, ["message"]), channel)];
  }

  /**
   * `messagePosted` for the user `userId`: the office-hours plugin, if the app
   * has one, then the connect-channel nudge; a failure ends the trigger
   * silently. `dayOf` reads a stored `last_check` as a day of the year,
   * `checkedAt` is the time written as the new `last_check`, and `replyFails`
   * says whether the chat service fails to take the office-hours reply.
   */
  method MessagePosted(store: Database.Store, userId: Id, clock: Clock, dayOf: Json -> int, checkedAt: int,
                       publicUrl: string, replyFails: bool)
    returns (pushes: seq<Push>)
    requires store.Valid()
    modifies store`users
    ensures store.Valid()
    ensures userId !in old(store.users) ==> pushes == [] && store.users == old(store.users)
    ensures userId in old(store.users) ==>
              var u := old(store.users)[userId];
              var plugin := Database.PluginOf(store.plugins, u.app, OfficeHours);
              var step := StepFor(plugin, u, dayOf, clock);
              var appFound := u.app in store.apps;
              && pushes == ReplyPushes(store.apps, plugin, u, step, publicUrl)
                           + (if OfficeHoursCompletes(step, appFound, replyFails) && CountIsOne(u.extra, MessagesPostedPath)
                              then [LinkChannelMessage(userId, ["email"])] else [])
              && store.users == old(store.users)[userId := u.(extra :=
                   if plugin.Some? && WritesLastCheck(step, appFound, replyFails) then WithLastCheck(u.extra, checkedAt)
                   else u.extra)]
  {
    pushes := [];
    if userId !in store.users {
      return;
    }
    var user := store.users[userId];
    var plugin := store.FindPlugin(user.app, OfficeHours);
    if plugin.Some? {
      var completes;
      pushes, completes := RunOfficeHours(store, userId, plugin.value, clock, dayOf, checkedAt, publicUrl, replyFails);
      if !completes {
        return;
      }
    } else {
      assert store.users == old(store.users)[userId := user.(extra := user.extra)];
    }
    if CountIsOne(user.extra, MessagesPostedPath) {
      pushes := pushes + [LinkChannelMessage(userId, ["email"])];
    }
  }

  /** `addPlugin`: a second plugin of the same type for an app is refused. */
  method AddPlugin(store: Database.Store, app: Id, ptype: PluginType, configuration: Json, now: int)
    returns (r: Result<Plugin, Error>)
    requires store.Valid()
    modifies store`plugins, store`nextId
    ensures store.Valid()
    ensures Database.PluginOf(old(store.plugins), app, ptype).Some? <==> r == Err(PluginAlreadyExists)
    ensures r.Err? ==> r == Err(PluginAlreadyExists)
    ensures r.Err? ==> store.plugins == old(store.plugins)
    ensures r.Ok? ==> r.value == Plugin(old(store.nextId), app, ptype, configuration, now)
    ensures r.Ok? ==> r.value.id !in old(store.plugins) && store.plugins == old(store.plugins)[r.value.id := r.value]
  {
    var existing := store.FindPlugin(app, ptype);
    if existing.Some? {
      return Err(PluginAlreadyExists);
    }
    r := store.InsertPlugin(Plugin(0, app, ptype, configuration, now));
  }

  /** `addOfficeHoursPlugin` / `addGreetingsMessagePlugin`: the configuration is filtered by the type's whitelist. */
  method AddWhitelistedPlugin(store: Database.Store, app: Id, ptype: PluginType, configuration: Json, now: int)
    returns (r: Result<Plugin, Error>)
    requires store.Valid()
    modifies store`plugins, store`nextId
    ensures store.Valid()
    ensures Database.PluginOf(old(store.plugins), app, ptype).Some? <==> r == Err(PluginAlreadyExists)
    ensures r.Err? ==> r == Err(PluginAlreadyExists) && store.plugins == old(store.plugins)
    ensures r.Ok? ==> r.value == Plugin(old(store.nextId), app, ptype, Pick(configuration, Whitelist(ptype)), now)
    ensures r.Ok? ==> r.value.id !in old(store.plugins) && store.plugins == old(store.plugins)[r.value.id := r.value]
  {
    r := AddPlugin(store, app, ptype, Pick(configuration, Whitelist(ptype)), now);
  }

  /** `updatePlugin` (through the exported wrappers, so filtered): the configuration is replaced. */
  method UpdateWhitelistedPlugin(store: Database.Store, app: Id, ptype: PluginType, configuration: Json)
    returns (r: Result<Plugin, Error>)
    requires store.Valid()
    modifies store`plugins
    ensures store.Valid()
    ensures Database.PluginOf(old(store.plugins), app, ptype).None? <==> r == Err(PluginNotFound)
    ensures r.Err? ==> store.plugins == old(store.plugins)
    ensures r.Ok? ==>
              var before := Database.PluginOf(old(store.plugins), app, ptype).value;
              && r.value == before.(configuration := Pick(configuration, Whitelist(ptype)))
              && store.plugins == old(store.plugins)[before.id := r.value]
  {
    var plugin := store.FindPlugin(app, ptype);
    if plugin.None? {
      return Err(PluginNotFound);
    }
    var filtered := Pick(configuration, Whitelist(ptype));
    store.SetPluginConfiguration(plugin.value.id, filtered);
    r := Ok(plugin.value.(configuration := filtered));
  }

  /** `removePlugin`. */
  method RemovePlugin(store: Database.Store, app: Id, ptype: PluginType) returns (r: Result<(), Error>)
    requires store.Valid()
    modifies store`plugins
    ensures store.Valid()
    ensures Database.PluginOf(old(store.plugins), app, ptype).None? <==> r == Err(PluginNotFound)
    ensures r.Err? ==> store.plugins == old(store.plugins)
    ensures r.Ok? ==> store.plugins == old(store.plugins) - {Database.PluginOf(old(store.plugins), app, ptype).value.id}
    ensures r.Ok? ==> forall k :: k in store.plugins ==> !(store.plugins[k].app == app && store.plugins[k].ptype == ptype)
  {
    var plugin := store.FindPlugin(app, ptype);
    if plugin.None? {
      return Err(PluginNotFound);
    }
    store.RemovePlugin(plugin.value.id);
    r := Ok(());
  }
}
