# Ayro core, modelled in Dafny

Ayro routes support chats between end users and a business's agents on Slack. End users write from a website widget, an Android app or Facebook Messenger. This project models the decision and record-building rules at the heart of that service, and proves properties about them:

- **Slack channel lifecycle** (`Slack`, `SlackFormat`). Each end user gets a Slack channel named after them, `"ch " + full name`, cut to 21 characters and deburred. When Slack answers `name_taken`, the name is retried with the suffixes 1, 2, 3, … in turn.
  - The channel is bound to the user by the user's `extra.slack_channel`.
  - Sending a message creates the channel when there is none. It reopens an archived channel and introduces the user again, and otherwise reuses the channel.
  - The message attachments (user information, devices, commands help) are built by pure functions.
- **Identity resolution and record construction** (`UserCommons`, `DeviceCommons`, `Messenger`).
  - Users and devices are created and updated with their defaults and their protected attributes.
  - The browser details are filled in from a user agent. The device operations use the corrected platform check of the first row under "Findings".
  - A Messenger sender is resolved to a device in the page's app, and created on first contact.
- **Plugin triggers** (`Plugins`).
  - The greetings message fires on the first chat view.
  - The connect-channel nudge fires on the first posted message.
  - Office hours replies outside today's time window at most once per day of the year.
  - Installing, updating and removing plugins goes through the configuration whitelists.
- **Documents and their indexes** (`Models`, `Database`).
  - `getFullName`, the platform name and the platform predicates.
  - The serialisation transform, including the masking of the FCM server key.
  - The unique indexes of the MongoDB collections, stated as the invariant of the `Database.Store` class.
- **Enumerations** (`Constants`): channels, integration types, plugin types, platforms, directions and genders.
- **Android push** (`AndroidPush`): the guard that skips a device without a push token or an app without an FCM key, and the exact FCM request.

## How the model is built

**Collections and the store.** `Database.Store` is a class whose fields are the collections (maps from document id to document) and an id counter. Its `Valid()` invariant holds three things: every document is keyed by its own id below the counter, every device belongs to a stored user, and every unique index of `models/index.js` holds. Every write keeps `Valid()`, and a write that would break an index fails with `DuplicateKey` and changes nothing.

**The Slack workspace.** `Slack.Workspace` is a class standing for one Slack workspace:
- its channels by id, with their archived flags;
- the channel names in use;
- the API calls that fail for reasons of their own;
- the log of every `chat.postMessage` it accepted.

A posted message is a `Slack.Message`, and `Slack.Render` gives the payload Slack receives for it.

**Oracles as parameters.** Everything the code obtains from outside the core is a parameter of the operation that uses it:
- the `_.deburr` letter table;
- the user-agent parser;
- generated uids and random names;
- the photo download outcome;
- the Facebook profile;
- the clock: the day of the year on the server's own clock, and the weekday and second of the day in the plugin's timezone (services/plugin.js:43 reads the day before :47 shifts the offset);
- the reading of a stored `last_check` as a day of the year;
- whether the chat service takes a message.

**Details of the code the model keeps.**
- The first channel name has no suffix; retries after `name_taken` use the suffixes 1, 2, 3, … (services/integrations/slack.js:186-197).
- The binding is written into `extra.slack_channel` only after all three introduction posts succeed, so a failed introduction leaves no binding (services/integrations/slack.js:221-226).
- The office-hours guard compares days of the year only, so a `last_check` from the same date of an earlier year counts as today (services/plugin.js:43).

## Model

| member | source | states |
|---|---|---|
| Constants.IntegrationTypeFromId | utils/constants.js:3-6 | an id is read back exactly when it is the id of an integration type (`user`, `business`), and then as that type |
| Constants.ChannelFromId | utils/constants.js:7-13 | an id is read back exactly when it is one of the five channel ids, and then as that channel |
| Constants.ChannelsPartition | utils/constants.js:14-15 | each channel is in exactly one of the user and business channel lists; the business list is slack alone |
| Constants.PluginTypeFromId | utils/constants.js:25-28 | an id is read back exactly when it is `greetings_message` or `office_hours`, and then as that type |
| Constants.PlatformByKey | utils/constants.js:31-44 | a key finds a platform exactly when it is that platform's key (BROWSER, ANDROID, MESSENGER); any other key, WEB among them, finds nothing |
| Constants.PlatformsDistinct | utils/constants.js:31-44 | different platforms have different ids, display names and keys |
| Constants.GenderName | utils/constants.js:52-55 | only MALE and FEMALE have a display name |
| Text.Decimal | services/integrations/slack.js:187 | `String(n)` is a non-empty run of digits, one digit long exactly below 10 |
| Text.Truncate | services/integrations/slack.js:185 | `_.truncate` with no omission gives a prefix of the text, of length min(length of the text, max(limit, 0)) |
| Text.Split | services/plugin.js:54 | the parts contain no separator, and joining them with the separator gives the text back |
| Text.ToUpper | models/index.js:188 | `_.toUpper` keeps the length and upper-cases each character |
| Text.Capitalize | services/integrations/slack.js:101 | `_.capitalize` upper-cases the first character and lower-cases the rest |
| Text.Deburr | services/integrations/slack.js:191 | `_.deburr` leaves ASCII text unchanged |
| Models.FullName | models/index.js:139-147 | first and last joined by a space when both are set; either one alone; "" exactly when neither is set |
| Models.GetPlatformName | models/index.js:187-190 | the display name of the platform keyed by the upper-cased platform, and "" exactly when no platform has that key |
| Models.ToUpperOfPlatformId | models/index.js:188 | upper-casing a platform's id gives that platform's key |
| Models.PlatformOfId | models/index.js:187-202 | a device with a platform's id is named by that platform; it is a smartphone exactly when it is Android; isBrowser and isMessenger hold for exactly their platform |
| Models.PlatformNameIgnoresCase | models/index.js:187-195 | the name lookup upper-cases the platform but the predicates compare exactly: "ANDROID" is named Android yet is not isAndroid |
| Models.MaskServerKey | models/index.js:230-231 | a key longer than 10 characters becomes 13 asterisks and its last 5 characters; any other key becomes 13 asterisks |
| Models.MaskFcmServerKey | models/index.js:227-233 | without `configuration.fcm.server_key` nothing changes; with it, the transform raises exactly when the key cannot be masked, and otherwise the path holds the masked key afterwards and every top-level key other than `configuration` is kept |
| Models.MaskValue | models/index.js:228-231 | a null key raises, and so does an object whose numeric `length` exceeds 10 (it has no `slice`); a string key is masked as above; an array longer than 10 becomes the asterisks and its last five items joined by commas; any other key becomes the asterisks alone |
| Models.MaskKeepsOtherPaths | models/index.js:227-233 | when masking succeeds, every path that branches off `configuration.fcm.server_key` reads the same after masking |
| Models.SerializedDocument.Transform | models/index.js:26-33 | the transform removes `_id` and `__v`, for an account also `password`, and never fails for other models; for an integration it then masks the FCM server key, failing exactly when the mask raises, in which case the keys stay removed and nothing else changes |
| Database.PluginOfUnique | models/index.js:110 | under the (app, type) index, the plugin found for an app and type is any stored plugin with that app and type |
| Database.UsersUniqueOthers | models/index.js:129 | under the (app, uid) index no other user shares a stored user's app and uid |
| Database.PluginsUniqueOthers | models/index.js:110 | under the (app, type) index no other plugin shares a stored plugin's app and type |
| Database.UsersUniqueSet | models/index.js:129 | storing a user whose (app, uid) no other user holds keeps the index |
| Database.DevicesUniqueSet | models/index.js:181-182 | storing a device that shares neither (user, uid) nor (user, channel) with another device keeps both indexes |
| Database.IntegrationsUniqueSet | models/index.js:93-101 | storing an integration that clashes on no (app, channel), (channel, page id) or (channel, team id) keeps the three indexes; the partial indexes only cover integrations that have the id |
| Database.PluginsUniqueSet | models/index.js:110 | storing a plugin whose (app, type) no other plugin holds keeps the index |
| Database.InsertUserKeepsInv | models/index.js:129 | inserting a user with a fresh id and an unused (app, uid) keeps the store invariant |
| Database.UpdateUserKeepsInv | models/index.js:129 | replacing a stored user by one whose (app, uid) no other user holds keeps the store invariant |
| Database.InsertDeviceKeepsInv | models/index.js:181-182 | inserting a device of a stored user that clashes on neither device index keeps the store invariant |
| Database.UpdateDeviceKeepsInv | models/index.js:181-182 | replacing a stored device by one that clashes with no other device keeps the store invariant |
| Database.InsertIntegrationKeepsInv | models/index.js:93-101 | inserting an integration that clashes on none of the three integration indexes keeps the store invariant |
| Database.UpdateIntegrationKeepsInv | models/index.js:93-101 | replacing a stored integration with one that clashes with no other stored integration keeps the store invariant |
| Database.InsertPluginKeepsInv | models/index.js:110 | inserting a plugin whose (app, type) is unused keeps the store invariant |
| Database.UpdatePluginKeepsInv | models/index.js:110 | replacing a plugin by one whose (app, type) no other plugin holds keeps the store invariant |
| Database.RemovePluginKeepsInv | models/index.js:110 | removing a plugin keeps the store invariant |
| Database.InsertAppKeepsInv | models/index.js:62-68 | inserting an app under the next id keeps the store invariant |
| Database.Store.InsertApp | models/index.js:62-68 | a new app is stored under a fresh id and nothing else changes |
| Database.Store.InsertUser | models/index.js:129 | saving a new user fails with a duplicate key exactly when its (app, uid) is taken; otherwise it is stored under a fresh id |
| Database.Store.UpdateUser | models/index.js:129 | updating a user fails exactly when another user holds its (app, uid); otherwise only that user changes |
| Database.Store.SetUserExtra | services/plugin.js:69 | writing a user's `extra` changes that user's `extra` and nothing else, and keeps every index |
| Database.Store.InsertDevice | models/index.js:181-182 | saving a new device fails exactly when another device of its user has its uid or its channel; otherwise it is stored under a fresh id |
| Database.Store.UpdateDevice | models/index.js:181-182 | updating a device fails exactly when it would clash with another device of its user; otherwise only that device changes |
| Database.Store.InsertIntegration | models/index.js:93-101 | saving an integration fails exactly when it clashes on one of the three integration indexes |
| Database.Store.UpdateIntegration | models/index.js:93-101 | replacing a stored integration fails with a duplicate key exactly when the new value clashes with another stored integration on one of the three indexes; otherwise only that entry changes |
| Database.Store.InsertPlugin | models/index.js:110 | saving a plugin fails exactly when the app already has a plugin of that type |
| Database.Store.SetPluginConfiguration | services/plugin.js:96 | replacing a plugin's configuration changes nothing else and keeps every index |
| Database.Store.RemovePlugin | services/plugin.js:123 | removing a plugin removes exactly that document |
| Database.Store.FindPlugin | services/plugin.js:131 | the app's plugin of that type if there is one, and then the only one; none exactly when the app has no plugin of that type |
| Database.Store.FindIntegrationByPage | services/chat/messenger.js:50 | a stored Messenger-style integration of the channel whose page id matches; none exactly when no integration has it |
| Database.Store.FindIntegration | services/integrations/slack.js:274 | the app's stored integration of the channel; none exactly when the app has none |
| AndroidPush.Push | services/integrations/push/android.js:10-28 | no token: no request; a request exactly when there is a token and a truthy `fcm.server_key`; the request carries `key=` + the key, `[push_token]`, time to live 600 and `{origin: 'chatz', event, message}`; a null configuration raises |
| AndroidPush.PushReadsOnlyFcm | services/integrations/push/android.js:12-17 | two non-null configurations that agree on `fcm` give the same outcome, so no other configuration entry reaches the request |
| DeviceCommons.CheckFound | services/commons/device.js:12-16 | not found is raised exactly when the device is missing and the options are missing, falsy or ask for `require` |
| DeviceCommons.CheckFoundCases | services/commons/device.js:12-16 | a found device never raises; `{require: false}` and `{}` turn a missing device into null; no options raise |
| DeviceCommons.FixDeviceData | services/commons/device.js:18-29 | only the info of a web device with a recognised non-empty user agent changes: browser name, version and OS are set from the parser, and every other attribute and info key is kept |
| DeviceCommons.FixDeviceDataIdempotent | services/commons/device.js:18-29 | fixing device data twice is fixing it once |
| DeviceCommons.FixDeviceDataAsWrittenFails | services/commons/device.js:19 | as written, every call raises a TypeError, since the platform table has no WEB entry |
| DeviceCommons.FixDeviceDataFillsBrowser | services/commons/device.js:19-27 | with the browser id as the web id, a browser device's recognised user agent fills in name, version and OS |
| DeviceCommons.OmitProtected | services/commons/device.js:10 | id, user and registration date sent by the caller are dropped; everything else is kept |
| DeviceCommons.NewDevice | services/commons/device.js:57-63 | (corrected program, see Findings) the new device's app and user come from the loaded user and its registration date is now, whatever the data says; uid, platform, channel and push token are the ones sent, and its info is the fixed info |
| DeviceCommons.CreateDevice | services/commons/device.js:53-65 | (corrected program, see Findings) fails exactly when the uid is missing or empty (`device_uid_required`), the user is missing (TypeError), or the user already has a device with that uid or that channel (duplicate key); otherwise the device built as in NewDevice is stored under a fresh id and no other device changes |
| DeviceCommons.UpdateDevice | services/commons/device.js:67-71 | (corrected program, see Findings) a missing device yields null; otherwise it fails with a duplicate key exactly when another device of the owner has the new uid or the new channel; on success owner and registration date are kept, every sent attribute (app, uid, platform, channel, push token, fixed info) replaces the stored one, and only that device changes |
| UserCommons.OmitProtected | services/commons/user.js:12 | the result carries none of id, app, photo, random_name and registration_date; data without them is kept as it is |
| UserCommons.RandomNames | services/commons/user.js:29 | the first name is the generated name's first word; there is a last name exactly when the name has a space, and it is the second word; neither contains a space |
| UserCommons.NewUser | services/commons/user.js:14-36 | fails with `user_uid_required` exactly when identified without a uid; otherwise app and date are set, identified defaults to false, a missing uid is generated, random_name holds exactly when both names are missing and then both come from the generated name, the sent email, photo URL, properties, sign-up date and extra are kept, and a failed photo download leaves no photo |
| UserCommons.CreateUser | services/commons/user.js:14-38 | fails exactly when identified without a uid (`user_uid_required`) or when a stored user of the app already has the given or generated uid (duplicate key), and then changes nothing; otherwise the user built as in NewUser is stored under a fresh id |
| UserCommons.UpdatedUser | services/commons/user.js:40-56 | id, app and registration date are kept; every other sent attribute replaces the stored one; a sent first or last name clears random_name; the photo is downloaded again only when a different photo URL is sent, and a failed download keeps the old photo |
| UserCommons.UpdateUser | services/commons/user.js:40-57 | a missing user fails with not found; otherwise it fails with a duplicate key exactly when another user of the app holds the new uid, and on success only that user changes, to the user built as in UpdatedUser; an update that sends no uid always succeeds |
| Messenger.GetUserData | services/chat/messenger.js:12-19 | an anonymous user with the profile's names and a fresh uid |
| Messenger.GetDeviceData | services/chat/messenger.js:21-34 | a Messenger device whose info records the sender id and the user's full name, and the lower-cased gender exactly when the profile has one |
| Messenger.MessengerDataNotFixed | services/chat/messenger.js:40 | the browser details are never filled into a Messenger device's data |
| Messenger.PageOwner | services/chat/messenger.js:50-55 | under the page id index, the integration found for a page belongs to the only app that has integrated that page |
| Messenger.FindSenderDevice | services/chat/messenger.js:54-55 | the first stored device of the sender whose user is in the app; none exactly when there is no such device |
| Messenger.CreateSenderDevice | services/chat/messenger.js:36-43 | (corrected program, see Findings) fails exactly when the user uid is taken in the integration's app (duplicate key, nothing saved) or the device uid is empty (the user stays saved); otherwise one new anonymous user of the app named after the profile and one new Messenger device of that user recording the sender's profile, built as in NewUser and NewDevice |
| Messenger.PostMessage | services/chat/messenger.js:45-61 | (corrected program, see Findings) no text or no integrated page: nothing happens; with text and the page of an app, an existing device of the sender in that app is always used, the first by id, with nothing created; otherwise a failed profile fetch fails, and with the profile the message goes through exactly when the new user and device can be saved |
| Plugins.OfficeHoursWhitelistKeeps | services/plugin.js:19 | the office-hours whitelist keeps exactly `timezone`, `time_range` and `reply` |
| Plugins.GreetingsWhitelistKeeps | services/plugin.js:20 | the greetings whitelist keeps exactly `message` |
| Plugins.PickShape | services/plugin.js:19 | picking a key, a key with paths below it and another key keeps exactly those three top-level entries |
| Plugins.FixTimezone | services/plugin.js:22-27 | "UTC" becomes "UTC+00:00"; any other value is unchanged |
| Plugins.FixTimezoneIdempotent | services/plugin.js:22-27 | fixing a timezone twice is fixing it once |
| Plugins.AppAgent | services/plugin.js:31-35 | the agent has id "0", the app's name and the app's icon URL |
| Plugins.WithLastCheck | services/plugin.js:69 | `last_check` reads the new time and every key of `extra` other than `plugins` is kept |
| Plugins.ParseClockTime | services/plugin.js:54-58 | a parsed bound is a non-negative second of the day |
| Plugins.ParseClockTimeOf | services/plugin.js:54-58 | "h:m" in decimal is h hours and m minutes after midnight |
| Plugins.TodayRange | services/plugin.js:49-52 | reading today's range raises exactly when `time_range` is missing or null; a range that is found is truthy and is the entry of today's weekday |
| Plugins.Bound | services/plugin.js:54-58 | a bound that is read is the parse of a string stored under that key |
| Plugins.RangeBounds | services/plugin.js:53-59 | the window is start:00 to end:59, and exists exactly when both bounds are read |
| Plugins.OfficeHoursStepCases | services/plugin.js:40-59 | nothing when already checked today; nothing when today has no range; otherwise a reply exactly when now is before start:00 or after end:59 |
| Plugins.OfficeHoursOncePerDay | services/plugin.js:42-45 | once `last_check` is written, office hours does nothing again on that day of the year |
| Plugins.OfficeHoursReplyWindow | services/plugin.js:53-59 | with a range "start"–"end" today, the reply goes out exactly outside [start:00, end:59] |
| Plugins.OfficeHoursIgnoresYear | services/plugin.js:43 | a `last_check` on the same day of an earlier year counts as today |
| Plugins.RunOfficeHours | services/plugin.js:40-70 | the reply is handed over exactly when the step says so and the app exists; `last_check` is written exactly when the range was checked and nothing failed before; the user's `extra` is all that changes |
| Plugins.ChatViewed | services/plugin.js:126-139 | at most one message; the greeting is handed over exactly when the user exists, its chat_views is exactly 1, its app exists and has a greetings plugin, and that plugin's configuration is not null, and it is the plugin's message from the app's agent on the given channel |
| Plugins.MessagePosted | services/plugin.js:141-153 | office hours runs only when the app has the plugin; the `['email']` nudge follows exactly when office hours did not fail and messages_posted is exactly 1; a missing user changes nothing |
| Plugins.AddPlugin | services/plugin.js:80-92 | fails, always with `plugin_already_exists`, exactly when the app has a plugin of that type, and then changes nothing; otherwise the plugin of that app, type, configuration and date is stored under a fresh id |
| Plugins.AddWhitelistedPlugin | services/plugin.js:105-115 | fails, always with `plugin_already_exists`, exactly when the app has a plugin of that type; otherwise the plugin stored under a fresh id carries the configuration filtered by the type's whitelist |
| Plugins.UpdateWhitelistedPlugin | services/plugin.js:94-119 | fails with not found exactly when the app has no plugin of that type; otherwise only its configuration changes, to the filtered one |
| Plugins.RemovePlugin | services/plugin.js:121-124 | fails exactly when there is no such plugin; otherwise exactly that plugin is removed and none of that app and type is left |
| SlackFormat.RemoveAsterisks | services/integrations/slack.js:19 | no asterisk is left and every other character keeps its count |
| SlackFormat.LinkAt | services/integrations/slack.js:20 | a link match starts with `<`, ends with `>`, and its second group is a word character of the text |
| SlackFormat.ReplaceLinks | services/integrations/slack.js:20 | the replacement only introduces `#` |
| SlackFormat.FallbackText | services/integrations/slack.js:18-22 | the fallback has no asterisk and only `#` or characters of the text |
| SlackFormat.ReplaceLinksWithoutLinks | services/integrations/slack.js:20 | text without `<` is left as it is |
| SlackFormat.FallbackOfPlainText | services/integrations/slack.js:18-22 | plain text is its own fallback |
| SlackFormat.FallbackOfChannelLink | services/integrations/slack.js:20 | `<#C42\|geral>` becomes `#2`: the repeated group keeps only the id's last character |
| SlackFormat.RandomNameWarning | services/integrations/slack.js:24-30 | a warning exactly for a user whose name was generated |
| SlackFormat.CommandsInfo | services/integrations/slack.js:32-54 | two attachments, the pretext (inside or outside a channel) on the first only |
| SlackFormat.UserInfoIdLine | services/integrations/slack.js:59-62 | the information starts with the app, and shows the uid exactly when the user is identified |
| SlackFormat.PropertyFieldsAt | services/integrations/slack.js:72-76 | one short field per property, in order |
| SlackFormat.UserInfoShape | services/integrations/slack.js:56-85 | the user information's text is its lines, and it has one field per property, in order |
| SlackFormat.UserInfoAttachment | services/integrations/slack.js:56-85 | the attachment built field by field is the user information, with one short field per property, in order |
| SlackFormat.DeviceLinesAsWrittenCases | services/integrations/slack.js:92-133 | as written, a device's lines fail exactly for a non-smartphone with info, and agree with the intended lines otherwise |
| SlackFormat.MessengerProfileFailsAsWritten | services/integrations/slack.js:106 | as written, a Messenger device with a profile name raises a TypeError |
| SlackFormat.DeviceLinesShowBrowserAndProfile | services/integrations/slack.js:106-118 | with `isBrowser`, a browser's name and version and a Messenger profile name are shown first |
| SlackFormat.PlainDeviceAttachmentsAt | services/integrations/slack.js:89-141 | one attachment per device, in order |
| SlackFormat.DeviceAttachmentsAt | services/integrations/slack.js:87-146 | (corrected program, see Findings) one attachment per device, titled with its platform name and showing its lines; only the first has a pretext, the devices pretext |
| SlackFormat.DeviceInfoAttachments | services/integrations/slack.js:87-146 | (corrected program, see Findings) the attachments pushed device by device are the device attachments |
| SlackFormat.ProfileAttachmentsShape | services/integrations/slack.js:177 | (corrected program, see Findings) a profile is the user information, one field per property, then one attachment per device, only the first with a pretext |
| Slack.FirstChannelName | services/integrations/slack.js:183-185 | the first name is a prefix of "ch " + full name, of length min(3 + length, 21) |
| Slack.RetryChannelName | services/integrations/slack.js:186-189 | a retry name is "ch ", a prefix of the full name, a space and the count; at most 21 characters while the count has at most 17 digits |
| Slack.SomeFreeAttempt | services/integrations/slack.js:196-198 | for any finite set of taken names some attempt is free, so the retries end |
| Slack.FirstFreeIsLeast | services/integrations/slack.js:192-201 | the chosen attempt is free and every earlier attempt is taken |
| Slack.FirstFreeUnique | services/integrations/slack.js:192-201 | the least free attempt is unique |
| Slack.BindingRoundTrip | services/integrations/slack.js:224 | a written binding is read back as the channel and every other key of `extra` is kept |
| Slack.SupportChannelId | services/integrations/slack.js:207 | the support channel is missing exactly when `configuration.channel` is missing or null |
| Slack.SaveBinding | services/integrations/slack.js:224 | the stored user's `extra` becomes the user's `extra` with the binding; fails only for a user not stored |
| Slack.Render | services/integrations/slack.js:148-179 | (corrected program, see Findings) each message goes to its target channel, under the bot's name except the user's own message, which goes under the user's full name with the user's text and icon |
| Slack.IntegrationConfiguration | services/integrations/slack.js:256-273 | the configuration records the team id, the user id and token, and the general channel exactly when one is found |
| Slack.PickGeneralChannel | services/integrations/slack.js:268-273 | none exactly when no listed channel is general; otherwise the last general one |
| Slack.ListChannels | services/integrations/slack.js:293-302 | the id and name of every listed channel, in order |
| Slack.Workspace.Create | services/integrations/slack.js:193-194 | a taken name fails with `name_taken`; otherwise a new open channel with a fresh id and that name exists and the name is taken |
| Slack.Workspace.Info | services/integrations/slack.js:230-231 | a known channel's id, name and archived flag; `channel_not_found` otherwise |
| Slack.Workspace.Unarchive | services/integrations/slack.js:242 | an archived channel is reopened; an open one fails with `not_archived`, an unknown one with `channel_not_found` |
| Slack.Workspace.PostMessage | services/integrations/slack.js:324-330 | a post is accepted exactly when its channel is open (the call does not fail and the channel is known and not archived), and is then appended to the log; a refused post changes nothing |
| Slack.Workspace.TryCreate | services/integrations/slack.js:191-194 | attempt n asks for the deburred name of attempt n, and fails with `name_taken` exactly when that name is taken |
| Slack.Workspace.CreateChannel | services/integrations/slack.js:181-202 | fails exactly when `channels.create` fails for a reason other than a taken name, and then changes nothing; otherwise the new channel gets the name of the least free attempt (no suffix, then 1, 2, …) and an id not used before |
| Slack.Workspace.GetChannel | services/integrations/slack.js:228-238 | the bound channel and its archived flag; null when Slack does not know it; any other error propagates |
| Slack.Workspace.PostProfile | services/integrations/slack.js:172-179 | (corrected program, see Findings) the profile message is appended to the log exactly when the channel is open |
| Slack.Workspace.IntroduceUser | services/integrations/slack.js:204-219 | (corrected program, see Findings) succeeds exactly when there is a support channel and both it and the new channel are open, and then the support notice, the channel intro and the profile are posted in that order; a missing support channel raises before any post |
| Slack.Workspace.CreateChannelIntroducingUser | services/integrations/slack.js:221-226 | (corrected program, see Findings) a new channel with the first free name, the three introduction posts, and only then the binding merged into the user's `extra`; it succeeds whenever creation does not fail, the support channel is open, posts do not fail in new channels and the user is stored; a failure leaves the user as it was |
| Slack.Workspace.UnarchiveChannelIntroducingUser | services/integrations/slack.js:240-251 | (corrected program, see Findings) an archived channel is reopened and the user introduced again, which succeeds whenever unarchiving does not fail, the support channel is open and posts to the channel do not fail; a channel that is not archived is returned as it is, with nothing posted |
| Slack.Workspace.ResolveChannel | services/integrations/slack.js:313-323 | (corrected program, see Findings) no binding or an unknown channel: a new channel, introduced and bound; an archived channel: reopened and introduced again; an open one: reused with nothing posted; each path succeeds under the conditions of the operation it uses; the result is a known open channel |
| Slack.Workspace.SendMessage | services/integrations/slack.js:311-331 | (corrected program, see Findings) the resolved channel's posts are followed by the user's message under the user's full name; it succeeds for an open bound channel, for a reopened one and for a new one under the conditions of ResolveChannel; the result is open; the binding changes only when a new channel was needed |
| Slack.Workspace.PostBoundProfile | services/integrations/slack.js:333-338 | (corrected program, see Findings) nothing is posted without a binding; otherwise the profile goes to the bound channel, succeeding exactly when that channel is open |
| Slack.SaveSlackIntegration | services/integrations/slack.js:274-279 | refused with a duplicate key, changing nothing, exactly when another app's Slack integration records the same team; otherwise a new business integration with the built configuration when the app has none, or the app's integration with the new keys assigned over its stored configuration, which keeps every other key |
| Slack.Workspace.AddIntegration | services/integrations/slack.js:253-282 | the write is refused with a duplicate key, and nothing is posted, exactly when a Slack integration of another app already records the same team; the saved configuration carries the team, user and token; a new integration has a `channel` exactly when a general channel is listed, while an updated one keeps its stored keys other than team, user and channel, and keeps its stored `channel` when none is listed; after the write the bot greets in the last general channel, succeeding exactly when it is open, and without one the greeting raises |

## Left out

- Network and database I/O are not modelled. The Slack Web API, the Facebook Graph fetch, the FCM post, the mongoose connection and the queries are all replaced by the `Workspace` and `Store` classes or by parameters. `AndroidPush.Push` returns the request instead of posting it.
- `Promise.delay` waits and the process-level error logging are not modelled: they do not change the outcome.
- `moment` and the timezone arithmetic are not modelled. The clock arrives as parameters: the day of the year as the server reads it, and the weekday and second of the day already shifted to the plugin's timezone. A stored `last_check` is read by a parameter.
- Plugins.ParseClockTime: a bound that is not two runs of digits around a colon yields the `InvalidTime` error. moment never throws there: `"8"` leaves the minute unset, so the hour becomes 8 and the current minute stays; `" 8:30"` or `"8.5:30"` are coerced to a number and set a valid hour; other text can make the time invalid, so both comparisons are false and no reply is sent.
- Plugins.RunOfficeHours: on such a bound the model stops with `InvalidTime` and writes no `last_check`. As written the step completes, possibly replies, and writes `last_check`.
- Plugins.MessagePosted: on such a bound the model skips the `['email']` nudge, because office hours did not complete. As written the nudge is still sent.
- `_.deburr`, `detect-browser`, `node-random-name`, `hash.uuid` and the photo download are opaque parameters.
- The 21-character bound on channel names is proved before deburring only. Deburring can lengthen a name.
- Text.ToUpper, Text.ToLower and Text.Capitalize map ASCII letters only. Other letters keep their case.
- Mongoose schema validation (required fields, enums, casts) is not modelled. The store only enforces the unique indexes. Effects of this:
  - The User schema requires `transient` (models/index.js:125). `createUser` (services/commons/user.js:14-35) sets it only when the caller's data does, so as written every `createUser` whose caller omits it fails validation and stores nothing. `getUserData` (services/chat/messenger.js:12-19) omits it.
  - The Messenger device data has no `channel`.
  - The DeviceInfo schema (models/index.js:148-168) is strict, so saving a device drops info keys it does not declare, such as `user_agent`. `DeviceCommons.FixDeviceData` and the store keep them.
- The `id` virtual of the serialised documents is not modelled.
- `throwDeviceNotFoundIfNeeded` is modelled by `CheckFound`. The query helpers `getDevice`, `findDevice` and `findDevices` around it are not.
- `fixDeviceData` mutates `data.info` in place. The model computes the fixed data as a new value, so it does not capture aliasing of the caller's object.
- The Slack exports outside the modelled core are left out. They are thin wrappers over the API or the integration store:
  - `updateIntegration` and `removeIntegration`;
  - `postHelp`, `postUserNotFound`, `postMessageError` and `postProfileError`;
  - `getIntegration`, `getUser`, `getAgent`, `extractText` and `confirmMessage`.
  - the exported `createChannel(app, name)`, a single `channels.create` with a caller-chosen name and no retry.
- `services/commons/integration.js` is not part of this model. Its lookup is `Database.Store.FindIntegration`. Its add is taken to save the integration through `Database.Store.InsertIntegration`. Its update is taken to assign the given keys over the stored configuration (`JsonValue.Assign`) and save it through `Database.Store.UpdateIntegration`; a replacing update would make `exports.updateIntegration` (services/integrations/slack.js:284-287), which passes only `{channel}`, drop the team and the token.
- `services/commons/app.js`, `services/account.js`, `website.js`, `wordpress.js`, the routes and the web push gateway are not part of this model.
- A Slack error without `err.data` is not modelled. The source would raise a TypeError there.
- Messenger.FindSenderDevice: picks the device with the least id, which is insertion order. `findDevices` (services/commons/device.js:47-51) has no sort, so MongoDB's natural order decides; the two differ only when two users of one app share a Messenger profile id.
- Slack.Workspace.IntroduceUser: after a failure, the log is stated only to have grown by fewer than three posts. Which prefix of the introduction was posted is not stated.
- Slack.Workspace.ResolveChannel and Slack.Workspace.SendMessage: after a failure, the log and the channels are stated only when `channels.info` itself failed.
- DeviceCommons.NewDevice: as written every call raises a TypeError before saving, because the platform table has no WEB entry (DeviceCommons.FixDeviceDataAsWrittenFails); the model uses the corrected platform check of the first row under "Findings".
- DeviceCommons.CreateDevice: as written every call raises a TypeError before saving, because the platform table has no WEB entry (DeviceCommons.FixDeviceDataAsWrittenFails); the model uses the corrected platform check of the first row under "Findings".
- DeviceCommons.UpdateDevice: as written every call raises a TypeError before saving, because the platform table has no WEB entry (DeviceCommons.FixDeviceDataAsWrittenFails); the model uses the corrected platform check of the first row under "Findings".
- UserCommons.CreateUser: stores the user whether or not the data carries `transient`; as written a call whose data omits it fails schema validation (models/index.js:125) and stores nothing.
- Messenger.CreateSenderDevice: creates the user as if the required `transient` flag were accepted and the device through the corrected DeviceCommons.CreateDevice; as written a first contact fails at the user save, because `getUserData` sets no `transient` (models/index.js:125), so nothing is stored and no message is forwarded; were the user saved, the device creation would still raise.
- Messenger.PostMessage: creates the user as if the required `transient` flag were accepted and the device through the corrected DeviceCommons.CreateDevice; as written a first contact fails at the user save, because `getUserData` sets no `transient` (models/index.js:125), so nothing is stored and no message is forwarded; were the user saved, the device creation would still raise.
- SlackFormat.DeviceAttachmentsAt: uses the corrected device lines of the second row under "Findings"; as written the profile raises for a user with a non-smartphone device that has info.
- SlackFormat.DeviceInfoAttachments: uses the corrected device lines of the second row under "Findings"; as written the profile raises for a user with a non-smartphone device that has info.
- SlackFormat.ProfileAttachmentsShape: uses the corrected device lines of the second row under "Findings"; as written the profile raises for a user with a non-smartphone device that has info.
- Slack.Render: uses the corrected device lines of the second row under "Findings"; as written the profile raises for a user with a non-smartphone device that has info.
- Slack.Workspace.PostProfile: uses the corrected device lines of the second row under "Findings"; as written the profile raises for a user with a non-smartphone device that has info, and the post fails.
- Slack.Workspace.PostBoundProfile: uses the corrected device lines of the second row under "Findings"; as written the profile raises for a user with a non-smartphone device that has info, and the post fails.
- Slack.Workspace.IntroduceUser: uses the corrected device lines of the second row under "Findings"; as written the profile raises for a user with a non-smartphone device that has info, which fails the introduction after two posts.
- Slack.Workspace.CreateChannelIntroducingUser: uses the corrected device lines of the second row under "Findings"; as written the profile raises for a user with a non-smartphone device that has info; the introduction then fails before the binding is saved, so each later message opens another channel.
- Slack.Workspace.UnarchiveChannelIntroducingUser: uses the corrected device lines of the second row under "Findings"; as written the profile raises for a user with a non-smartphone device that has info, which fails the introduction after reopening.
- Slack.Workspace.ResolveChannel: uses the corrected device lines of the second row under "Findings"; as written the profile raises for a user with a non-smartphone device that has info, which fails every introduction it starts.
- Slack.Workspace.SendMessage: uses the corrected device lines of the second row under "Findings"; as written the profile raises for a user with a non-smartphone device that has info, which fails every introduction it starts, so the user's message is not posted.
- Models.MaskValue: an object key whose `length` is not a number but compares above 10 in JavaScript (such as the string "20") is masked to the asterisks; the source raises there, as for a numeric length.
- Text.Truncate: counts characters (code points); lodash's `_.truncate` counts symbols, so combining marks, joiner sequences and flag pairs are cut differently.
- Plugins.WithLastCheck: writes `extra.plugins.office_hours.last_check` as `_.set` does, replacing a non-object `extra.plugins`; MongoDB refuses such a dotted `$set` through a number or null, and the source then throws inside the office-hours step, whose error is swallowed and skips the nudge.
- Slack.Workspace.Create: keeps the requested name verbatim; Slack's `channels.create` normalises the name (lower case, no spaces) and returns the normalised one.
- No modelled operation writes chat messages. The `ChatMessage` document records its direction, a user channel (never Slack) and a 90-day TTL (`Models.Retained`), with no operation or lemma about them.
- Concurrency is not modelled. Two sends for the same user, or two first contacts of the same sender, can race in the source; the model is sequential.
- User properties are a sequence in iteration order. Key uniqueness of the JavaScript object is not modelled.

## Findings

| source | as written | input that shows it | evidently intended | confidence | as-written member | corrected member |
|---|---|---|---|---|---|---|
| services/commons/device.js:19 | compares the platform with `constants.device.platforms.WEB.id`, but the platform table defines only BROWSER, ANDROID and MESSENGER, so reading `.id` of the missing entry raises a TypeError on every call of `createDevice` and `updateDevice` | any device data, e.g. `{uid: "d1", platform: "browser", info: {user_agent: "Mozilla/5.0"}}` | compare with the browser platform id, filling in the browser details | not executed | DeviceCommons.FixDeviceDataAsWrittenFails | DeviceCommons.FixDeviceDataFillsBrowser |
| services/integrations/slack.js:106 | calls `device.isWeb()`, which the Device model does not define (it defines `isBrowser`), so every non-Android device with info raises a TypeError and the whole profile post fails; inside `createChannelIntroducingUser` this aborts the introduction before the binding is saved, so each later message opens yet another channel | a device with platform `"messenger"` and info `{profile_name: "Ana"}` | `device.isBrowser()`, after which the Messenger branch is reachable | not executed | SlackFormat.MessengerProfileFailsAsWritten | SlackFormat.DeviceLinesShowBrowserAndProfile |
