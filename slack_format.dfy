/**
 * The message formatting of services/integrations/slack.js: the fallback text
 * of a Slack message and the attachments that describe a user and their
 * devices. The Portuguese texts are kept as opaque constants.
 */
module SlackFormat {
  import opened Wrappers
  import opened JsonValue
  import opened Constants
  import opened Models
  import Text

  const BotUsername: string := "Ayro"
  const PrimaryColor: string := "#7c00bd"
  const WarningColor: string := "warning"
  const MarkdownIn: seq<string> := ["text", "pretext"]

  const RandomNameFallback: string := "Nome gerado randomicamente"
  const RandomNameText: string := "O nome deste usuário foi gerado randomicamente porque não foi atribuído nenhum nome para ele.\nSaiba mais em https://www.ayro.io/guides/user-information."
  const CommandsInsideChannel: string := "Neste canal você pode utilizar os seguintes comandos:"
  const CommandsOutsideChannel: string := "Nos canais você pode utilizar os seguintes comandos:"
  const UserInfoFallback: string := "Informações do usuário"
  const DevicesPretext: string := "Estes são os últimos dispositivos utilizados:"
  const UserInfoPretextHead: string := "Estas são as informações que nós temos até agora sobre *"
  const SendTitle: string := "Envie mensagens para o usuário"
  const SendFallback: string := "Comando /send - Envie mensagens para o usuário"
  const SendText: string := "Comando: /send [mensagem]"
  const ProfileTitle: string := "Veja o perfil do usuário"
  const ProfileFallback: string := "Comando /profile - Veja o perfil do usuário"
  const ProfileText: string := "Comando: /profile"
  const GeneratedNameMark: string := " (Gerado randomicamente)"

  // The labels of the information lines.
  const AppLabel: string := "App: "
  const IdLabel: string := "ID: "
  const NameLabel: string := "Nome: "
  const EmailLabel: string := "Email: "
  const SignUpLabel: string := "Cadastro: "
  const AppVersionLabel: string := "Versão do app: "
  const OsLabel: string := "OS: "
  const SmartphoneLabel: string := "Smartphone: "
  const CarrierLabel: string := "Operadora: "
  const BrowserLabel: string := "Browser: "
  const LocationLabel: string := "Location: "
  const ProfileNameLabel: string := "Nome do perfil: "
  const PictureLinkTail: string := "|foto>)"
  const GenderLabel: string := "Gênero: "
  const LocaleLabel: string := "Localidade: "
  const TimezoneLabel: string := "Fuso horário: "
  const Undefined: string := "undefined"

  // The keys of a device's `info`.
  const AppIdKey: string := "app_id"
  const AppVersionKey: string := "app_version"
  const OperatingSystemKey: string := "operating_system"
  const ManufacturerKey: string := "manufacturer"
  const ModelKey: string := "model"
  const CarrierKey: string := "carrier"
  const BrowserNameKey: string := "browser_name"
  const BrowserVersionKey: string := "browser_version"
  const LocationKey: string := "location"
  const ProfileGenderKey: string := "profile_gender"
  const ProfileNameKey: string := "profile_name"
  const ProfilePictureKey: string := "profile_picture"
  const ProfileLocaleKey: string := "profile_locale"
  const ProfileTimezoneKey: string := "profile_timezone"

  /** One entry of an attachment's `fields`. */
  datatype Field = Field(title: string, value: Json, short: bool)

  /** A Slack message attachment; `None` stands for a key the source leaves out. */
  datatype Attachment = Attachment(
    pretext: Option<string>,
    title: Option<string>,
    fallback: string,
    text: Option<string>,
    fields: Option<seq<Field>>,
    markdownIn: Option<seq<string>>,
    color: string)

  // ---------------------------------------------------------------------------
  // getFallbackText
  // ---------------------------------------------------------------------------

  /** The first replacement of getFallbackText: every asterisk removed. */
  function RemoveAsterisks(s: string): (r: string)
    ensures '*' !in r
    ensures |r| <= |s|
    ensures forall c :: c != '*' ==> multiset(r)[c] == multiset(s)[c]
    ensures '*' !in s ==> r == s
  {
    if s == [] then []
    else
      assert s == [s[0]] + s[1..];
      (if s[0] == '*' then [] else [s[0]]) + RemoveAsterisks(s[1..])
  }

  /** The characters of `\w`. */
  predicate IsWordChar(c: char)
  {
    ('a' <= c <= 'z') || ('A' <= c <= 'Z') || ('0' <= c <= '9') || c == '_'
  }

  /** The end of the longest run of word characters starting at `i`. */
  function WordEnd(s: string, i: nat): (j: nat)
    requires i <= |s|
    ensures i <= j <= |s|
    ensures forall k :: i <= k < j ==> IsWordChar(s[k])
    ensures j < |s| ==> !IsWordChar(s[j])
    decreases |s| - i
  {
    if i < |s| && IsWordChar(s[i]) then WordEnd(s, i + 1) else i
  }

  /**
   * A match of `<(#|@)(\w|\d)+(\|((\w|\d)+)?)>` at the start of `s`: the
   * length of the match and the second group, which, being a repeated group,
   * holds only the last character of the id.
   */
  function LinkAt(s: string): (r: Option<(nat, char)>)
    ensures r.Some? ==> 5 <= r.value.0 <= |s| && s[0] == '<' && s[r.value.0 - 1] == '>'
    ensures r.Some? ==> r.value.1 in s && IsWordChar(r.value.1)
  {
    if |s| >= 2 && s[0] == '<' && (s[1] == '#' || s[1] == '@') then
      var j := WordEnd(s, 2);
      if j > 2 && j < |s| && s[j] == '|' then
        var k := WordEnd(s, j + 1);
        if k < |s| && s[k] == '>' then Some((k + 1, s[j - 1])) else None
      else None
    else None
  }

  /** The global replacement of every link match by `#$2`, scanning left to right. */
  function ReplaceLinks(s: string): (r: string)
    ensures forall c :: c in r ==> c == '#' || c in s
    decreases |s|
  {
    if s == [] then []
    else
      match LinkAt(s)
      case Some(m) =>
        var rest := ReplaceLinks(s[m.0..]);
        assert forall c :: c in rest ==> c == '#' || c in s by {
          forall c | c in s[m.0..] ensures c in s {
            var i :| 0 <= i < |s[m.0..]| && s[m.0..][i] == c;
            assert s[m.0 + i] == c;
          }
        }
        "#" + [m.1] + rest
      case None =>
        var rest := ReplaceLinks(s[1..]);
        assert forall c :: c in s[1..] ==> c in s;
        [s[0]] + rest
  }

  /** `getFallbackText`: the text without asterisks and with channel and user links shortened. */
  function FallbackText(text: string): (r: string)
    ensures '*' !in r
    ensures forall c :: c in r ==> c == '#' || (c in text && c != '*')
  {
    var plain := RemoveAsterisks(text);
    assert forall c :: c in plain ==> c in text by {
      forall c | c in plain ensures c in text {
        if c != '*' {
          assert multiset(plain)[c] > 0;
        }
      }
    }
    ReplaceLinks(plain)
  }

  /** Text without links is left as it is by the link replacement. */
  lemma {:induction false} ReplaceLinksWithoutLinks(s: string)
    requires '<' !in s
    ensures ReplaceLinks(s) == s
    decreases |s|
  {
    if s != [] {
      assert LinkAt(s).None?;
      assert '<' !in s[1..] by {
        forall c | c in s[1..] ensures c in s {
          var i :| 0 <= i < |s[1..]| && s[1..][i] == c;
          assert s[1 + i] == c;
        }
      }
      ReplaceLinksWithoutLinks(s[1..]);
    }
  }

  /** Plain text loses only its asterisks. */
  lemma FallbackOfPlainText(text: string)
    requires '<' !in text && '*' !in text
    ensures FallbackText(text) == text
  {
    ReplaceLinksWithoutLinks(text);
  }

  /** A channel link `<#C42|geral>` shortens to `#` and the last character of its id. */
  lemma FallbackOfChannelLink()
    ensures ReplaceLinks("<#C42|geral>") == "#2"
  {
    var s := "<#C42|geral>";
    assert WordEnd(s, 5) == 5;
    assert WordEnd(s, 2) == 5;
    assert WordEnd(s, 11) == 11;
    assert WordEnd(s, 6) == 11;
    assert LinkAt(s) == Some((12, '2'));
    assert s[12..] == [];
  }

  // ---------------------------------------------------------------------------
  // Attachments
  // ---------------------------------------------------------------------------

  /** `randomNameWarningAttachment`: a warning only for a user whose name was generated. */
  function RandomNameWarning(u: User): (r: Option<Attachment>)
    ensures r.Some? <==> u.randomName
    ensures r.Some? ==> r.value.color == WarningColor && r.value.text == Some(RandomNameText)
  {
    if u.randomName then
      Some(Attachment(None, None, RandomNameFallback, Some(RandomNameText), None, None, WarningColor))
    else None
  }

  /** `getCommandsInfoAttachments`: the /send and /profile commands, the pretext on the first only. */
  function CommandsInfo(insideChannel: bool): (r: seq<Attachment>)
    ensures |r| == 2
    ensures r[0].pretext == Some(if insideChannel then CommandsInsideChannel else CommandsOutsideChannel)
    ensures r[1].pretext.None?
    ensures r[0].color == PrimaryColor && r[1].color == PrimaryColor
  {
    var pretext := if insideChannel then CommandsInsideChannel else CommandsOutsideChannel;
    [ Attachment(Some(pretext), Some(SendTitle), SendFallback, Some(SendText), None, None, PrimaryColor),
      Attachment(None, Some(ProfileTitle), ProfileFallback, Some(ProfileText), None, None, PrimaryColor) ]
  }

  /** A line included only when `cond` holds. */
  function LineIf(cond: bool, line: string): seq<string>
  {
    if cond then [line] else []
  }

  /** The text lines of `getUserInfoAttachment`, in order. */
  function UserInfoLines(u: User, appName: string): seq<string>
  {
    var full := GetFullName(u);
    [AppLabel + appName]
    + LineIf(u.identified, IdLabel + u.uid)
    + LineIf(full != "", NameLabel + full + (if u.randomName then GeneratedNameMark else ""))
    + LineIf(Present(u.email), EmailLabel + u.email.GetOr(""))
    + LineIf(Present(u.signUpDate), SignUpLabel + u.signUpDate.GetOr(""))
  }

  /**
   * The user information always starts with the app, and shows the user's
   * uid exactly when the user is identified.
   */
  lemma UserInfoIdLine(u: User, appName: string)
    ensures UserInfoLines(u, appName)[0] == AppLabel + appName
    ensures IdLabel + u.uid in UserInfoLines(u, appName) <==> u.identified
  {
    var full := GetFullName(u);
    var app := AppLabel + appName;
    var id := IdLabel + u.uid;
    var name := NameLabel + full + (if u.randomName then GeneratedNameMark else "");
    var email := EmailLabel + u.email.GetOr("");
    var signUp := SignUpLabel + u.signUpDate.GetOr("");
    assert app[0] == 'A' && id[0] == 'I' && name[0] == 'N' && email[0] == 'E' && signUp[0] == 'C';
    var tail := LineIf(full != "", name) + LineIf(Present(u.email), email) + LineIf(Present(u.signUpDate), signUp);
    assert id !in tail;
    assert UserInfoLines(u, appName) == [app] + LineIf(u.identified, id) + tail;
  }

  /** The attachment's `fields`: one per user property, in order. */
  function PropertyField(p: (string, Json)): Field
  {
    Field(p.0, p.1, true)
  }

  function PropertyFields(properties: seq<(string, Json)>): seq<Field>
  {
    if properties == [] then [] else [PropertyField(properties[0])] + PropertyFields(properties[1..])
  }

  /** `PropertyFields` keeps one field per property, in order. */
  lemma {:induction false} PropertyFieldsAt(properties: seq<(string, Json)>)
    ensures |PropertyFields(properties)| == |properties|
    ensures forall i :: 0 <= i < |properties| ==> PropertyFields(properties)[i] == PropertyField(properties[i])
  {
    if properties != [] {
      PropertyFieldsAt(properties[1..]);
    }
  }

  /** The user information attachment: the lines of `UserInfoLines` and one short field per property. */
  function UserInfo(u: User, appName: string): Attachment
  {
    Attachment(
      Some(UserInfoPretextHead + GetFullName(u) + "*:"), None, UserInfoFallback,
      Some(Text.Join(UserInfoLines(u, appName), "\n")),
      Some(PropertyFields(u.properties)),
      Some(MarkdownIn), PrimaryColor)
  }

  /** The user information shows the lines of `UserInfoLines` and one short field per property, in order. */
  lemma UserInfoShape(u: User, appName: string)
    ensures var a := UserInfo(u, appName);
      && a.text == Some(Text.Join(UserInfoLines(u, appName), "\n"))
      && a.fields.Some? && |a.fields.value| == |u.properties|
      && forall i :: 0 <= i < |u.properties| ==> a.fields.value[i] == Field(u.properties[i].0, u.properties[i].1, true)
  {
    PropertyFieldsAt(u.properties);
  }

  /** `getUserInfoAttachment`, which pushes the property fields one by one. */
  method UserInfoAttachment(u: User, appName: string) returns (a: Attachment)
    ensures a == UserInfo(u, appName)
    ensures a.text == Some(Text.Join(UserInfoLines(u, appName), "\n"))
    ensures a.fields.Some? && |a.fields.value| == |u.properties|
    ensures forall i :: 0 <= i < |u.properties| ==>
              a.fields.value[i].title == u.properties[i].0
              && a.fields.value[i].value == u.properties[i].1
              && a.fields.value[i].short
  {
    var fields: seq<Field> := [];
    for i := 0 to |u.properties|
      invariant |fields| == i
      invariant forall j :: 0 <= j < i ==> fields[j] == PropertyField(u.properties[j])
    {
      fields := fields + [PropertyField(u.properties[i])];
    }
    PropertyFieldsAt(u.properties);
    assert fields == PropertyFields(u.properties);
    a := Attachment(
      Some(UserInfoPretextHead + GetFullName(u) + "*:"), None, UserInfoFallback,
      Some(Text.Join(UserInfoLines(u, appName), "\n")),
      Some(fields), Some(MarkdownIn), PrimaryColor);
  }

  /** `if (deviceInfo.key)`: the key is set to a non-empty string. */
  predicate InfoPresent(info: map<string, string>, key: string)
  {
    key in info && info[key] != ""
  }

  /** `${deviceInfo.key}` in a template: a missing key renders as Undefined. */
  function InfoText(info: map<string, string>, key: string): string
  {
    if key in info then info[key] else Undefined
  }

  function SmartphoneLines(info: map<string, string>): seq<string>
  {
    LineIf(InfoPresent(info, AppIdKey) && InfoPresent(info, AppVersionKey),
           AppVersionLabel + InfoText(info, AppVersionKey) + " (" + InfoText(info, AppIdKey) + ")")
    + LineIf(InfoPresent(info, OperatingSystemKey), OsLabel + InfoText(info, OperatingSystemKey))
    + LineIf(InfoPresent(info, ManufacturerKey) && InfoPresent(info, ModelKey),
             SmartphoneLabel + Text.Capitalize(InfoText(info, ManufacturerKey)) + " " + InfoText(info, ModelKey))
    + LineIf(InfoPresent(info, CarrierKey), CarrierLabel + InfoText(info, CarrierKey))
  }

  function BrowserLines(info: map<string, string>): seq<string>
  {
    LineIf(InfoPresent(info, BrowserNameKey) && InfoPresent(info, BrowserVersionKey),
           BrowserLabel + Text.Capitalize(InfoText(info, BrowserNameKey)) + " " + InfoText(info, BrowserVersionKey))
    + LineIf(InfoPresent(info, OperatingSystemKey), OsLabel + InfoText(info, OperatingSystemKey))
    + LineIf(InfoPresent(info, LocationKey), LocationLabel + InfoText(info, LocationKey))
  }

  /** The display name of a Messenger gender, looked up by its upper-cased value. */
  function ProfileGender(info: map<string, string>): Option<string>
  {
    if InfoPresent(info, ProfileGenderKey) then GenderName(Text.ToUpper(info[ProfileGenderKey])) else None
  }

  function MessengerLines(info: map<string, string>): seq<string>
  {
    LineIf(InfoPresent(info, ProfileNameKey),
           ProfileNameLabel + InfoText(info, ProfileNameKey) + " (<" + InfoText(info, ProfilePictureKey) + PictureLinkTail)
    + LineIf(ProfileGender(info).Some?, GenderLabel + ProfileGender(info).GetOr(""))
    + LineIf(InfoPresent(info, ProfileLocaleKey), LocaleLabel + InfoText(info, ProfileLocaleKey))
    + LineIf(InfoPresent(info, ProfileTimezoneKey), TimezoneLabel + InfoText(info, ProfileTimezoneKey))
  }

  /**
   * The information lines of one device, with the browser branch selected by
   * `isBrowser`, the predicate models/index.js defines.
   */
  function DeviceLines(d: Device): seq<string>
  {
    match d.info
    case None => []
    case Some(info) =>
      if IsSmartphone(d.platform) then SmartphoneLines(info)
      else if IsBrowser(d.platform) then BrowserLines(info)
      else if IsMessenger(d.platform) then MessengerLines(info)
      else []
  }

  /**
   * The device branch as slack.js:106 writes it: `device.isWeb()` is not a
   * method of the device model, so calling it throws a TypeError for every
   * device with info that is not a smartphone.
   */
  function DeviceLinesAsWritten(d: Device): Result<seq<string>, Error>
  {
    match d.info
    case None => Ok([])
    case Some(info) =>
      if IsSmartphone(d.platform) then Ok(SmartphoneLines(info)) else Err(TypeError)
  }

  /** As written, the device lines fail exactly for non-smartphones with info, and agree otherwise. */
  lemma DeviceLinesAsWrittenCases(d: Device)
    ensures DeviceLinesAsWritten(d).Err? <==> d.info.Some? && !IsSmartphone(d.platform)
    ensures DeviceLinesAsWritten(d).Ok? ==> DeviceLinesAsWritten(d).value == DeviceLines(d)
  {
  }

  /** As written, a Messenger device with a profile name makes the whole profile post fail. */
  lemma MessengerProfileFailsAsWritten(d: Device, name: string)
    requires d.platform == Some("messenger") && d.info == Some(map[ProfileNameKey := name])
    ensures DeviceLinesAsWritten(d) == Err(TypeError)
  {
  }

  /** With `isBrowser`, a browser's name and version and a Messenger profile name are shown. */
  lemma DeviceLinesShowBrowserAndProfile(d: Device, info: map<string, string>)
    requires d.info == Some(info)
    ensures IsBrowser(d.platform) && InfoPresent(info, BrowserNameKey) && InfoPresent(info, BrowserVersionKey) ==>
      DeviceLines(d)[0] == BrowserLabel + Text.Capitalize(info[BrowserNameKey]) + " " + info[BrowserVersionKey]
    ensures IsMessenger(d.platform) && InfoPresent(info, ProfileNameKey) ==>
      DeviceLines(d)[0] == ProfileNameLabel + info[ProfileNameKey] + " (<" + InfoText(info, ProfilePictureKey) + PictureLinkTail
  {
  }

  /** The attachment of one device, still without a pretext. */
  function DeviceAttachment(d: Device): Attachment
  {
    Attachment(None, Some(GetPlatformName(d.platform)), GetPlatformName(d.platform),
               Some(Text.Join(DeviceLines(d), "\n")), None, Some(MarkdownIn), PrimaryColor)
  }

  /** The device attachments without the pretext, in the order of the devices. */
  function PlainDeviceAttachments(devices: seq<Device>): seq<Attachment>
  {
    if devices == [] then [] else [DeviceAttachment(devices[0])] + PlainDeviceAttachments(devices[1..])
  }

  /** `PlainDeviceAttachments` keeps one attachment per device, in order. */
  lemma {:induction false} PlainDeviceAttachmentsAt(devices: seq<Device>)
    ensures |PlainDeviceAttachments(devices)| == |devices|
    ensures forall i :: 0 <= i < |devices| ==> PlainDeviceAttachments(devices)[i] == DeviceAttachment(devices[i])
  {
    if devices != [] {
      var rest := PlainDeviceAttachments(devices[1..]);
      PlainDeviceAttachmentsAt(devices[1..]);
      assert PlainDeviceAttachments(devices) == [DeviceAttachment(devices[0])] + rest;
      forall i | 0 < i < |devices|
        ensures PlainDeviceAttachments(devices)[i] == DeviceAttachment(devices[i])
      {
        assert devices[1..][i - 1] == devices[i];
      }
    }
  }

  /** The device attachments, in the order of the devices, the first given the pretext. */
  function DeviceAttachments(devices: seq<Device>): seq<Attachment>
  {
    var plain := PlainDeviceAttachments(devices);
    if plain == [] then [] else plain[0 := plain[0].(pretext := Some(DevicesPretext))]
  }

  /** One attachment per device, in order; only the first has a pretext. */
  lemma DeviceAttachmentsAt(devices: seq<Device>)
    ensures |DeviceAttachments(devices)| == |devices|
    ensures forall i :: 0 <= i < |devices| ==>
              var a := DeviceAttachments(devices)[i];
              && a.title == Some(GetPlatformName(devices[i].platform))
              && a.fallback == GetPlatformName(devices[i].platform)
              && a.text == Some(Text.Join(DeviceLines(devices[i]), "\n"))
              && (a.pretext.Some? <==> i == 0)
    ensures |devices| > 0 ==> DeviceAttachments(devices)[0].pretext == Some(DevicesPretext)
  {
    PlainDeviceAttachmentsAt(devices);
  }

  /** `getDeviceInfoAttachments`: one attachment per device, and only the first has a pretext. */
  method DeviceInfoAttachments(devices: seq<Device>) returns (r: seq<Attachment>)
    ensures r == DeviceAttachments(devices)
  {
    r := [];
    for i := 0 to |devices|
      invariant |r| == i
      invariant forall j :: 0 <= j < i ==> r[j] == DeviceAttachment(devices[j])
    {
      r := r + [DeviceAttachment(devices[i])];
    }
    PlainDeviceAttachmentsAt(devices);
    assert r == PlainDeviceAttachments(devices);
    if |r| > 0 {
      r := r[0 := r[0].(pretext := Some(DevicesPretext))];
    }
  }

  /** The attachments of a profile: the user information, then the devices. */
  function ProfileAttachments(u: User, appName: string, devices: seq<Device>): seq<Attachment>
  {
    [UserInfo(u, appName)] + DeviceAttachments(devices)
  }

  /**
   * A profile shows the user information first, with one field per property,
   * then one attachment per device, the first of them with the pretext.
   */
  lemma ProfileAttachmentsShape(u: User, appName: string, devices: seq<Device>)
    ensures var r := ProfileAttachments(u, appName, devices);
      && |r| == 1 + |devices|
      && r[0].text == Some(Text.Join(UserInfoLines(u, appName), "\n"))
      && r[0].fields.Some? && |r[0].fields.value| == |u.properties|
      && (forall i :: 0 <= i < |u.properties| ==> r[0].fields.value[i] == Field(u.properties[i].0, u.properties[i].1, true))
      && (forall i :: 0 <= i < |devices| ==>
            r[1 + i].text == Some(Text.Join(DeviceLines(devices[i]), "\n"))
            && (r[1 + i].pretext.Some? <==> i == 0))
  {
    var r := ProfileAttachments(u, appName, devices);
    var rest := DeviceAttachments(devices);
    assert r == [UserInfo(u, appName)] + rest;
    assert forall i :: 0 <= i < |rest| ==> r[1 + i] == rest[i];
    UserInfoShape(u, appName);
    DeviceAttachmentsAt(devices);
  }
}
