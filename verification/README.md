# Notification orchestration of the FM619 Android app, in Dafny

The app shows a remote chat site in a WebView and adds local notifications to it.
Its one piece of real logic is the `useNotifications` hook
(`hooks/useNotifications.ts`). This project models that hook's decision logic as pure
functions and proves properties about them:

- **Vendor check** (`checkXiaomiPermissions`). On Android, a device whose lower-cased
  brand or manufacturer contains `xiaomi` or `redmi` gets a setup dialog. Modelled as
  the predicate `Vendor.IsXiaomiFamilyDevice`.
- **Channel provisioning.** On Android, registration writes two channels, `default` and
  `messages`, into a channel table. The model's table is a `map` keyed by channel id in which a
  write replaces the entry under its id, so ids never repeat (module `Channels`).
- **Registration** (`registerForPushNotifications`). This is a decision function over an
  `Environment` record. The record holds what each platform service would answer: OS,
  physical device or not, existing permission status, answer to the interactive prompt,
  the two configured project ids, and the token service's answer. The function returns
  how the promise settles plus the ordered trace of platform calls it makes (module
  `Registration`).
- **Trace properties** (module `Protocol`). A small recogniser over call traces covers
  these: channels first, at most one permission query, at most one prompt, at most one
  token request. Also, replaying the trace's channel writes yields exactly the provisioned table.
- **Mount effect.** The hook keeps a returned token only when it is truthy (`AdoptToken`).
- **Message request** (`scheduleNotification`). A record builder whose channel is one that
  provisioning creates (module `Scheduling`).

Modules: `Wrappers` (Option), `Strings` (ASCII lower-casing, `includes`), `Platform`
(OS and permission values), `Vendor`, `Channels`, `Registration`, `Protocol`,
`Scheduling`.

On a non-physical device the hook logs a message and resolves `undefined`
(`hooks/useNotifications.ts:98-102`); the model's `Register` does the same.

## Model

| member | source | states |
|---|---|---|
| Strings.Includes | hooks/useNotifications.ts:111-112 | the scan used for `includes` is true exactly when the needle occurs at some position of the string (empty needle always occurs) |
| Strings.ToLowerOfToUpper | hooks/useNotifications.ts:108-109 | lower-casing after ASCII upper-casing gives the same string as lower-casing alone, so ASCII case of the device strings is irrelevant to the model |
| Strings.AbsentFirstCharNeverOccurs | hooks/useNotifications.ts:111-112 | a non-empty needle whose first character is absent from the string is not included in it |
| Vendor.IsXiaomiFamilyDevice | hooks/useNotifications.ts:105-112 | the dialog is shown iff the platform is Android and the brand or the manufacturer is present and, lower-cased, contains `xiaomi` or `redmi`; with both absent it is never shown |
| Vendor.BrandCaseIgnored | hooks/useNotifications.ts:108-112 | ASCII upper-casing of the brand never changes the modelled verdict |
| Vendor.ManufacturerCaseIgnored | hooks/useNotifications.ts:108-112 | ASCII upper-casing of the manufacturer never changes the modelled verdict |
| Vendor.OnlyAndroid | hooks/useNotifications.ts:106 | on any platform other than Android the dialog is never shown |
| Vendor.EmbeddedNameMatches | hooks/useNotifications.ts:111-112 | a brand containing `Redmi` anywhere (e.g. `Redmi Note 12`) matches whatever the manufacturer |
| Vendor.ExampleDevices | hooks/useNotifications.ts:105-112 | Redmi/Xiaomi and POCO/Xiaomi on Android match; samsung/samsung on Android and Xiaomi on iOS do not |
| Channels.SetChannel | hooks/useNotifications.ts:51-60 | a channel write adds or replaces exactly the entry under its id and leaves every other entry unchanged |
| Channels.RewriteKeepsSize | hooks/useNotifications.ts:63-73 | rewriting an existing id with altered fields updates in place: the table does not grow |
| Channels.Provision | hooks/useNotifications.ts:49-74 | off Android the table is untouched; on Android it gains exactly `default` (importance MAX) and `messages` (importance HIGH, name 消息通知), both with vibration [0,250,250,250] and light #2563EB, other entries kept |
| Channels.ProvisionIdempotent | hooks/useNotifications.ts:49-74 | provisioning a provisioned table yields the same table |
| Channels.ProvisionFreshTable | hooks/useNotifications.ts:49-74 | provisioning an empty Android table leaves exactly the two channels `default` and `messages` |
| Channels.ProvisionSize | hooks/useNotifications.ts:49-74 | the table grows only by the required ids it did not already hold: no duplicate ids |
| Registration.ProjectId | hooks/useNotifications.ts:90 | the `??` picks the expo-config id whenever it is present (even empty), and the EAS-config id exactly when the expo-config id is absent |
| Registration.AcquirePermission | hooks/useNotifications.ts:77-83 | the status is queried first; the prompt is issued zero times if already granted and exactly once otherwise; the final status is granted iff either answer was granted |
| Registration.FetchToken | hooks/useNotifications.ts:89-97 | the token API is called, with the resolved id, iff that id is truthy; a token results iff the id is truthy and the call succeeds, and it is the returned data; failures give `undefined` |
| Registration.Register | hooks/useNotifications.ts:46-103 | the trace starts with the provisioning writes; on a device the next call is always the permission query; off-device the trace is only the writes and the result is `undefined`; the permission error happens iff on a device permission ends not granted; the token API is called iff device, granted and truthy project id, and always with the resolved id; a token is returned iff additionally the call succeeds |
| Registration.AdoptToken | hooks/useNotifications.ts:22-26 | the hook state changes only to a truthy resolved token; a rejection or a falsy value leaves it as it was |
| Registration.MountedTokenIff | hooks/useNotifications.ts:16-26 | after mounting the hook holds a token iff physical device, permission granted, truthy project id and a non-empty token returned, and then it is that token |
| Registration.EmptyPrimaryIdShadowsFallback | hooks/useNotifications.ts:90-93 | an empty expo-config id hides a present EAS-config id: no token call and no token |
| Protocol.ProvisioningCallsProvision | hooks/useNotifications.ts:49-74 | replaying the provisioning calls on any table gives exactly the provisioned table |
| Protocol.RegisterProvisions | hooks/useNotifications.ts:49-102 | whatever the device, permission and token answers, the table after registration's calls is the provisioned table |
| Protocol.NonDeviceOnlyProvisions | hooks/useNotifications.ts:76-102 | off-device there is no permission query, no prompt and no token call, and the result is `undefined` |
| Protocol.RegisterPromptCount | hooks/useNotifications.ts:77-83 | on a device the trace holds no prompt when permission was already granted and exactly one otherwise |
| Protocol.RegisterFollowsProtocol | hooks/useNotifications.ts:46-103 | every registration trace is accepted by the recogniser: channel writes, then at most one query, at most one prompt, at most one token request, in that order (that the query is actually made on a device is stated by `Registration.Register`) |
| Protocol.ChannelWritesComeFirst | hooks/useNotifications.ts:49-77 | in any accepted trace no channel write follows a permission or token call |
| Protocol.AcceptedPromptsAtMostOnce | hooks/useNotifications.ts:80-83 | an accepted trace contains at most one prompt, none once the prompt phase is past |
| Protocol.RegisterNeverPromptsTwice | hooks/useNotifications.ts:49-83 | registration never prompts twice and provisions before any permission or token step |
| Scheduling.ScheduleNotification | hooks/useNotifications.ts:138-151 | title and body pass through unchanged; the request fires immediately, with priority HIGH, sound on, badge 1 and category `message`; its channel is `messages`, one of those provisioning creates |
| Scheduling.ScheduleNotificationInjective | hooks/useNotifications.ts:138-142 | two requests are equal iff their titles and bodies are equal |
| Scheduling.ScheduledChannelIsProvisioned | hooks/useNotifications.ts:63-73 | after registration on Android, from any starting table of the map model, the request's channel `messages` is present and is the HIGH-importance messages channel |

## Left out

- Strings.ToLower: lower-cases ASCII letters only. JavaScript's `toLowerCase` applies full Unicode case mapping. For example, `İ` (U+0130) maps to `i` plus a combining dot, so `REDMİ` would match in the app but not in the model. For the same reason Strings.ToLowerOfToUpper, Vendor.BrandCaseIgnored and Vendor.ManufacturerCaseIgnored speak of ASCII case only: in JavaScript `xıaomi` (dotless ı) does not match but its upper-case `XIAOMI` does.
- Channels.SetChannel: the model replaces the whole entry when an id is written again. Android's channel creation keeps an existing channel's vibration, lights, sound and badge settings, updates only name, description and group, and lowers importance only if the user has not edited the channel. So `ProvisionIdempotent`, `RewriteKeepsSize` and `ScheduledChannelIsProvisioned` hold for the map model, not for a device where `default` was created earlier with other fields (the chat screen does so at `app/(tabs)/index.tsx:56`).
- Promise rejections from `setNotificationChannelAsync` (lines 51 and 63) are not caught by the hook; the model assumes every channel write succeeds.
- Scheduling.ScheduleNotification: only the request is modelled. The hook awaits `scheduleNotificationAsync` without a try/catch (lines 139-150), so a rejection by the platform reaches the caller uncaught; the model has no such error path.
- React state, the listener subscribe/unsubscribe effect and the listener callbacks (lines 16-19, 28-43): these are framework lifecycle, not decision logic.
- The dialog and the settings link in `checkXiaomiPermissions` (lines 114-134): these are UI side effects. Only the guard is modelled.
- Promise rejections from `getPermissionsAsync` and `requestPermissionsAsync`: these platform services are assumed to answer. In the code such a rejection would escape `registerForPushNotifications` uncaught.
- Logging (`console.log`, `console.error`): it has no effect on results.
- Asynchrony: each awaited call is an ordered entry in the trace. Interleaving with other work is not modelled.
- The notification handler set in the chat screen, the screens, the guide components, the loading spinner and the storage wrapper: none of them belong to the hook.
