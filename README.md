# FCM legacy-HTTP payload builder, modelled in Dafny

This project models the part of the Granam Firebase Cloud Messaging library that
builds the JSON body of a legacy-HTTP FCM request. It can verify that body without
sending anything. The parts modelled are:

- the notification hierarchy: the base `FcmNotification`, the abstract
  `DeviceFcmNotification`, and its `AndroidFcmNotification` and
  `IosFcmNotification` children, plus the web `JsFcmNotification`. Each is one
  `Notifications.Notification` object whose `kind` names its PHP class. Its
  `jsonSerialize()` layers are pure functions in `Payload`;
- `FcmDeviceTarget`, in `Targets`, as a value. Topic targets are a second
  constructor, read only through `getTopicName()`;
- `FcmMessage`, in `Messages`, as a class with the message fields.
  `createTargetForJson()` and `jsonSerialize()` are methods, and each is proved
  equal to a specification function (`TargetJson`, `WireJson`). The lemmas about
  those functions say which target key is chosen, which errors are raised, and
  where every optional field lands.

The JSON produced by `json_encode` is modelled as a PHP array before encoding. A
PHP array is an ordered list of unique string keys with values (`PhpJson.Obj`).
Assigning to a present key replaces its value in place. Assigning to a new key
appends it. `unset` removes the key. Every serialiser is a fixed list of
conditional assignments, `PhpJson.Step`. The generic lemmas about `PhpJson.Apply`
give each key's final value, the order of the keys, and the fact that the keys
stay unique.

PHP keeps a private field of each class separate from a field of the same name in
its parent class. Examples are `$sound` in the device classes, and `$tag` and
`$icon` in the Android class. So each layer's fields live in their own record:
`BaseFields`, `DeviceFields`, `AndroidFields`, `IosFields` and `JsFields`. The
setters write the record that the PHP override would write.

Exceptions are values of `Exceptions.FcmException`. An operation that throws
returns a `Failure`/`Fail`, and the method's contract says exactly when.
`filter_var(..., FILTER_VALIDATE_URL)` is a parameter `isValidUrl` of the web
notification's constructor and check.

Where the code and its tests disagree, the model follows the code, with one
exception. The subclass constructors hand their click action to the base
`$sound` as the code does, although the tests expect a `click_action`. The
exception is the device token: the code reads it with `getToken()`, which the
device target class does not define, so every message to one to 1000 devices
throws. The model's serialiser reads the token with the corrected
`getDeviceToken()`, and the as-written device branch is stated separately. The
disagreements are listed under "## Left out", and the defects the code
evidently did not intend are under "## Findings".

## Model

| member | source | states |
|---|---|---|
| Targets.ClassOf | Granam/FirebaseCloudMessaging/FcmMessage.php:34-47 | the class recorded for a target is the device class exactly for device targets and the topic class exactly for topic targets |
| Targets.NewDeviceTarget | Granam/FirebaseCloudMessaging/Target/FcmDeviceTarget.php:11-14 | a device target is created holding exactly the token it was given |
| Targets.GetDeviceToken | Granam/FirebaseCloudMessaging/Target/FcmDeviceTarget.php:16-19 | the token read back rebuilds the same target: construction and reading are inverse, and the token never changes |
| Targets.GetTopicName | Granam/FirebaseCloudMessaging/FcmMessage.php:253-259 | `getTopicName()` succeeds exactly on topic targets and returns the topic's name; on any other target it fails as an undefined method |
| Targets.GetToken | Granam/FirebaseCloudMessaging/FcmMessage.php:260-279 | corrected token read: succeeds exactly on device targets and returns the device token; otherwise fails as an undefined method |
| Targets.GetTokenAsWritten | Granam/FirebaseCloudMessaging/FcmMessage.php:260-266 | as written: the device target defines no `getToken()`, so this always fails as an undefined method |
| Targets.GetTokenAsWrittenFails | Granam/FirebaseCloudMessaging/Target/FcmDeviceTarget.php:7-20 | for every token, the call as written fails while the corrected read returns that token |
| Conditions.CountPlaceholders | Granam/FirebaseCloudMessaging/FcmMessage.php:246-252 | the `substr_count(condition, '%s')` count never exceeds half the condition's length |
| Conditions.LiteralPrefix | Granam/FirebaseCloudMessaging/FcmMessage.php:253-259 | a literal text free of `%` in front of a pattern passes through `vsprintf` unchanged and adds no placeholders |
| Conditions.SubstituteFillsInOrder | Granam/FirebaseCloudMessaging/FcmMessage.php:253-259 | a condition made of `%`-free literals and n `%s` holes has exactly n placeholders, and `vsprintf` fills the holes with the arguments in order |
| PhpJson.Keys | Granam/FirebaseCloudMessaging/FcmMessage.php:102-120 | definitional helper for the array operations: the keys of an array are its entries' keys, one per entry, in the array's order |
| PhpJson.LookupNoneIffAbsent | Granam/FirebaseCloudMessaging/FcmMessage.php:128-131 | reading a key gives nothing exactly when the key is absent |
| PhpJson.Put | Granam/FirebaseCloudMessaging/FcmMessage.php:102-107 | after `$a[k] = v`, k reads v and every other key reads what it read before |
| PhpJson.PutKeys | Granam/FirebaseCloudMessaging/FcmMessage.php:102-107 | assigning a present key keeps the key order; assigning a new key appends it at the end |
| PhpJson.PutUnique | Granam/FirebaseCloudMessaging/FcmMessage.php:102-107 | assignment keeps the keys unique |
| PhpJson.PutIf | Granam/FirebaseCloudMessaging/FcmNotification.php:106-129 | a guarded assignment changes exactly the guarded key, and only when the guard holds |
| PhpJson.PutIfAbsent | Granam/FirebaseCloudMessaging/FcmNotification.php:106-129 | a guarded assignment of an absent key appends the pair only when the guard holds |
| PhpJson.PutIfUnique | Granam/FirebaseCloudMessaging/FcmNotification.php:106-129 | a guarded assignment keeps the keys unique |
| PhpJson.PutIfPresentKeys | Granam/FirebaseCloudMessaging/DeviceFcmNotification.php:110-112 | overwriting a key that a parent layer already wrote leaves the key order as it was |
| PhpJson.Unset | Granam/FirebaseCloudMessaging/FcmMessage.php:115-120 | after `unset($a[k])`, k is absent and every other key reads what it read before |
| PhpJson.UnsetPairs | Granam/FirebaseCloudMessaging/FcmMessage.php:115-120 | `unset` removes exactly the pairs whose key is k |
| PhpJson.UnsetUnique | Granam/FirebaseCloudMessaging/FcmMessage.php:115-120 | deleting an absent key changes nothing, and deletion keeps the keys unique |
| PhpJson.UnsetKeysSub | Granam/FirebaseCloudMessaging/IosFcmNotification.php:113-115 | deletion never introduces a key |
| PhpJson.TruthyString | Granam/FirebaseCloudMessaging/FcmMessage.php:197-208 | an optional string field is truthy exactly when it is set to a string other than `""` and `"0"` |
| PhpJson.ApplyLookup | Granam/FirebaseCloudMessaging/FcmNotification.php:103-132 | after a serialiser's assignments, a key reads the value of the last assignment that fired for it, or its old value if none fired |
| PhpJson.ApplyOther | Granam/FirebaseCloudMessaging/FcmNotification.php:103-132 | keys that a serialiser never assigns keep their values |
| PhpJson.ApplyDistinct | Granam/FirebaseCloudMessaging/FcmNotification.php:103-132 | when a serialiser assigns each key once, a key's output is its guarded value if the guard held, and its input value otherwise |
| PhpJson.FreshKeysTail | Granam/FirebaseCloudMessaging/FcmNotification.php:103-132 | if a serialiser's keys are distinct and absent from its input, that stays true after each step |
| PhpJson.ApplyAppends | Granam/FirebaseCloudMessaging/FcmNotification.php:103-132 | a serialiser whose keys are distinct and absent from its input appends exactly the pairs whose guards held, in source order |
| PhpJson.ApplyNoneFires | Granam/FirebaseCloudMessaging/FcmNotification.php:103-132 | when no guard holds, the serialiser returns its input unchanged |
| PhpJson.EmittedNoneFires | Granam/FirebaseCloudMessaging/FcmNotification.php:103-132 | when no guard holds, no pair is emitted |
| PhpJson.EmittedOnly | Granam/FirebaseCloudMessaging/FcmNotification.php:103-132 | when exactly one guard holds, exactly its pair is emitted |
| PhpJson.EmittedOnlyTwo | Granam/FirebaseCloudMessaging/FcmNotification.php:103-132 | when exactly two guards hold, exactly their two pairs are emitted, in source order |
| PhpJson.ApplyUnique | Granam/FirebaseCloudMessaging/FcmNotification.php:103-132 | every serialiser keeps the keys unique |
| PhpJson.ApplyKeepsOrder | Granam/FirebaseCloudMessaging/DeviceFcmNotification.php:107-127 | a serialiser never removes or reorders its input's keys: the parent's keys come first |
| Payload.ForwardedParentFields | Granam/FirebaseCloudMessaging/DeviceFcmNotification.php:44 | as written: the click action passed to a subclass constructor lands in the parent's `$sound` parameter |
| Payload.ForwardedParentFieldsIntended | Granam/FirebaseCloudMessaging/DeviceFcmNotification.php:33-50 | corrected forwarding, which no constructor of the model uses: title, body and click action go to the parent's fields of those names, and everything else keeps its default |
| Payload.IosFlags | Granam/FirebaseCloudMessaging/IosFcmNotification.php:113-118 | silent: `content-available` is 1, `sound` is removed, and `badge` keeps the parent's value. Not silent: `badge` is written when set and kept otherwise. No other key changes |
| Payload.BaseStepsDistinct | Granam/FirebaseCloudMessaging/FcmNotification.php:103-132 | the base serialiser assigns each of its eight keys once |
| Payload.BaseJsonStrings | Granam/FirebaseCloudMessaging/FcmNotification.php:106-120 | title, body, click_action, sound, tag and icon appear exactly when their field is non-empty, with that field's value |
| Payload.BaseJsonBadge | Granam/FirebaseCloudMessaging/FcmNotification.php:124-126 | `badge` appears exactly when the iOS badge is positive |
| Payload.BaseJsonContentAvailable | Granam/FirebaseCloudMessaging/FcmNotification.php:121-123 | `content_available` appears exactly when the flag was set, true or false, with the flag's value |
| Payload.BaseJsonOtherKeys | Granam/FirebaseCloudMessaging/FcmNotification.php:103-132 | the base serialiser keeps every root-array key outside its own eight |
| Payload.BaseJsonShape | Granam/FirebaseCloudMessaging/FcmNotification.php:103-132 | over a root without base keys, the output is the root followed by the non-empty fields in source order |
| Payload.BaseJsonDefaults | Granam/FirebaseCloudMessaging/FcmNotification.php:21-40 | a base notification with every default adds nothing to the root array |
| Payload.DeviceStepsDistinct | Granam/FirebaseCloudMessaging/DeviceFcmNotification.php:107-127 | the device layer assigns each of its five keys once |
| Payload.DeviceJsonSound | Granam/FirebaseCloudMessaging/DeviceFcmNotification.php:110-112 | a non-empty device sound overrides the parent's `sound`; otherwise the parent's value stays |
| Payload.DeviceJsonLocalisation | Granam/FirebaseCloudMessaging/DeviceFcmNotification.php:113-124 | each localisation key appears exactly when its field is non-empty (arguments: a non-empty list) |
| Payload.DeviceJsonExtendsParent | Granam/FirebaseCloudMessaging/DeviceFcmNotification.php:107-127 | the device layer keeps the parent's keys in order and leaves every key outside its own untouched |
| Payload.AndroidStepsDistinct | Granam/FirebaseCloudMessaging/AndroidFcmNotification.php:172-189 | the Android layer assigns each of its four keys once |
| Payload.AndroidJsonFields | Granam/FirebaseCloudMessaging/AndroidFcmNotification.php:172-189 | android_channel_id, icon, tag and color are written exactly when non-empty, overriding the parent's value |
| Payload.AndroidJsonExtendsParent | Granam/FirebaseCloudMessaging/AndroidFcmNotification.php:172-189 | the Android layer keeps the parent's keys in order and every key outside its own |
| Payload.IosJsonSubTitle | Granam/FirebaseCloudMessaging/IosFcmNotification.php:119-121 | `sub_title` is written exactly when non-empty, and only the silence/badge step touches other keys |
| Payload.IosJsonDefaults | Granam/FirebaseCloudMessaging/IosFcmNotification.php:38-56 | an iOS layer with its defaults leaves the device layer's output as it is |
| Payload.JsJsonIcon | Granam/FirebaseCloudMessaging/JsFcmNotification.php:73-81 | the web layer writes `icon` exactly when non-empty, keeps the parent's key order, and changes no other key |
| Payload.IosFlagsUnique | Granam/FirebaseCloudMessaging/IosFcmNotification.php:110-124 | the silence/badge step keeps keys unique |
| Payload.NotificationJsonUnique | Granam/FirebaseCloudMessaging/FcmNotification.php:103-132 | every notification class serialises to an array with unique keys |
| Payload.DefaultLayers | Granam/FirebaseCloudMessaging/AndroidFcmNotification.php:172-189 | subclass layers whose fields are all defaults add nothing to the base output |
| Payload.EmptyNotificationJson | Granam/Tests/FirebaseCloudMessaging/FcmNotificationTest.php:13-20 | a notification of any class created empty serialises to the empty array |
| Payload.SilentIosJson | Granam/FirebaseCloudMessaging/IosFcmNotification.php:113-115 | a silent iOS layer has `content-available` 1, no `sound`, and the parent's badge |
| Payload.SilentIosKeepsBaseBadge | Granam/FirebaseCloudMessaging/IosFcmNotification.php:113-118 | a silent iOS notification still carries a positive base iOS badge, because only the iOS class's own badge is skipped |
| Payload.DeviceSoundWins | Granam/FirebaseCloudMessaging/DeviceFcmNotification.php:110-112 | through the whole Android chain, a non-empty device sound is the `sound` emitted |
| Payload.AndroidIconAndTagWin | Granam/FirebaseCloudMessaging/AndroidFcmNotification.php:172-189 | through the whole chain, the Android class's own icon and tag are the ones emitted |
| Payload.ForwardedClickActionBecomesSound | Granam/FirebaseCloudMessaging/DeviceFcmNotification.php:44 | as written, a subclass notification given a click action emits it as `sound` and emits no `click_action` |
| Payload.ForwardedClickActionIntended | Granam/FirebaseCloudMessaging/JsFcmNotification.php:32 | with the corrected forwarding, the click action is emitted as `click_action` and no `sound` is emitted |
| Payload.DisableContentAvailableAsWritten | Granam/FirebaseCloudMessaging/FcmNotification.php:96-101 | as written: after disabling, the base output reads `content_available: true` over any root array, and every other key reads as before |
| Payload.DisableContentAvailableIntended | Granam/FirebaseCloudMessaging/FcmNotification.php:89-101 | corrected: after disabling, the base output reads `content_available: false` over any root array, and every other key reads as before |
| Payload.DisabledContentAvailableIsTrue | Granam/FirebaseCloudMessaging/FcmNotification.php:96-101 | as written, a disabled notification emits `content_available: true`; corrected, it emits false |
| Notifications.RgbPatternMeaning | Granam/FirebaseCloudMessaging/AndroidFcmNotification.php:120-130 | the colour pattern accepts exactly `#` followed by six hexadecimal digits, optionally followed by one trailing newline (the `$` anchor) |
| Notifications.ColorCheck | Granam/FirebaseCloudMessaging/AndroidFcmNotification.php:120-130 | a colour passes exactly when it is empty or matches the pattern; otherwise it fails with the invalid-colour error |
| Notifications.ColorExamples | Granam/Tests/FirebaseCloudMessaging/AndroidFcmNotificationTest.php:42-55 | `#906090`, mixed-case digits and the empty colour pass; non-hex digits, a missing `#`, and five or seven digits fail |
| Notifications.ClickActionCheck | Granam/FirebaseCloudMessaging/JsFcmNotification.php:41-56 | empty passes; otherwise an invalid URL fails with the invalid-URL error, and a valid URL not starting with the lower-case `https://` fails with the https error |
| Notifications.ClickActionSchemeExamples | Granam/Tests/FirebaseCloudMessaging/JsFcmNotificationTest.php:28-47 | an `http://` URL and an upper-case `HTTPS://` URL are refused with the https error; `https://` passes |
| Notifications.Notification.Base | Granam/FirebaseCloudMessaging/FcmNotification.php:21-40 | the base constructor stores each argument in its field; the subclass layers are empty |
| Notifications.Notification.Android | Granam/FirebaseCloudMessaging/AndroidFcmNotification.php:47-67 | as written: the base gets the title, the body, and the click action as its sound (the device constructor's three-argument call). The device and Android fields are stored, the colour unchecked |
| Notifications.Notification.Ios | Granam/FirebaseCloudMessaging/IosFcmNotification.php:38-56 | as written: the base gets the title, the body, and the click action as its sound. The device and iOS fields are stored |
| Notifications.Notification.Js | Granam/FirebaseCloudMessaging/JsFcmNotification.php:24-34 | callable only with a click action that passes the https check. As written, the base gets the title, the body, and the click action as its sound; the icon is stored |
| Notifications.Notification.NewJs | Granam/FirebaseCloudMessaging/JsFcmNotification.php:24-34 | the check runs before any field is assigned: on failure no object exists and the check's error is returned. On success a web notification is returned whose base holds the click action as its sound, as written |
| Notifications.Notification.JsonSerialize | Granam/FirebaseCloudMessaging/FcmNotification.php:103-132 | serialisation reads no state it changes, equals the class's layered serialiser, and has unique keys |
| Notifications.Notification.SetIosBadge | Granam/FirebaseCloudMessaging/FcmNotification.php:48-53 | sets the base iOS badge and nothing else |
| Notifications.Notification.SetAndroidIcon | Granam/FirebaseCloudMessaging/FcmNotification.php:61-66 | sets the base Android icon and nothing else |
| Notifications.Notification.SetClickAction | Granam/FirebaseCloudMessaging/FcmNotification.php:68-73 | sets the click action; the web class runs no https check on this path |
| Notifications.Notification.SetSound | Granam/FirebaseCloudMessaging/DeviceFcmNotification.php:56-61 | with FcmNotification::setSound (Granam/FirebaseCloudMessaging/FcmNotification.php:75-80): device classes set their own sound and leave the base sound; the other classes set the base sound |
| Notifications.Notification.SetTag | Granam/FirebaseCloudMessaging/AndroidFcmNotification.php:106-111 | with FcmNotification::setTag (Granam/FirebaseCloudMessaging/FcmNotification.php:82-87): the Android class sets its own tag and leaves the base tag; the others set the base tag |
| Notifications.Notification.EnableContentAvailable | Granam/FirebaseCloudMessaging/FcmNotification.php:89-94 | stores content-available true |
| Notifications.Notification.DisableContentAvailable | Granam/FirebaseCloudMessaging/FcmNotification.php:96-101 | corrected: stores content-available false |
| Notifications.Notification.DisableContentAvailableAsWritten | Granam/FirebaseCloudMessaging/FcmNotification.php:96-101 | as written: stores content-available true |
| Notifications.Notification.SetBodyLocKey | Granam/FirebaseCloudMessaging/DeviceFcmNotification.php:66-69 | sets only the body localisation key |
| Notifications.Notification.SetBodyLocArgs | Granam/FirebaseCloudMessaging/DeviceFcmNotification.php:74-77 | sets only the body localisation arguments |
| Notifications.Notification.SetTitleLocKey | Granam/FirebaseCloudMessaging/DeviceFcmNotification.php:82-85 | sets only the title localisation key |
| Notifications.Notification.SetTitleLocArgs | Granam/FirebaseCloudMessaging/DeviceFcmNotification.php:90-93 | sets only the title localisation arguments |
| Notifications.Notification.SetAndroidChannelId | Granam/FirebaseCloudMessaging/AndroidFcmNotification.php:77-82 | sets only the Android channel id |
| Notifications.Notification.SetIcon | Granam/FirebaseCloudMessaging/AndroidFcmNotification.php:92-97 | the Android and web classes each set their own icon field and leave the other's |
| Notifications.Notification.SetColor | Granam/FirebaseCloudMessaging/AndroidFcmNotification.php:120-130 | the outcome is the colour check; on success the colour is stored; on failure nothing changes |
| Notifications.Notification.IsSilent | Granam/FirebaseCloudMessaging/AndroidFcmNotification.php:138-141 | an Android notification is never silent; an iOS one is silent exactly when its flag is set |
| Notifications.Notification.CanBeSilenced | Granam/FirebaseCloudMessaging/AndroidFcmNotification.php:149-152 | an Android notification can never be silenced |
| Notifications.Notification.SetSilent | Granam/FirebaseCloudMessaging/IosFcmNotification.php:88-93 | iOS: stores the flag, so `isSilent()` then returns it. Android: fails with the cannot-be-silenced error and changes nothing |
| Notifications.Notification.SetBadge | Granam/FirebaseCloudMessaging/IosFcmNotification.php:64-69 | sets only the iOS class's own badge, or clears it |
| Notifications.Notification.SetSubTitle | Granam/FirebaseCloudMessaging/IosFcmNotification.php:76-81 | sets only the subtitle |
| Notifications.Notification.SetJsonDataValue | Granam/FirebaseCloudMessaging/FcmMessage.php:102-107 | the notification's inherited root array gets the assignment and keeps unique keys |
| Notifications.Notification.DeleteJsonDataItem | Granam/FirebaseCloudMessaging/FcmMessage.php:115-120 | the notification's inherited root array loses the key and keeps unique keys |
| Messages.TopicNames | Granam/FirebaseCloudMessaging/FcmMessage.php:253-259 | one topic-clause argument per target |
| Messages.TokenList | Granam/FirebaseCloudMessaging/FcmMessage.php:273-279 | one registration id per target |
| Messages.TopicClauses | Granam/FirebaseCloudMessaging/FcmMessage.php:253-259 | the topic loop succeeds exactly when every target is a topic, giving the `'name' in topics` clauses in target order; otherwise it fails as an undefined method |
| Messages.DeviceTokensAsWritten | Granam/FirebaseCloudMessaging/FcmMessage.php:273-279 | as written: the token loop over device targets ends at its first `getToken()` call, which throws, so it yields the empty list only for no targets (a closed form, not an induction) |
| Messages.DeviceTargetJsonAsWritten | Granam/FirebaseCloudMessaging/FcmMessage.php:260-279 | as written: the device branch always fails; with the too-many-devices error beyond 1000 targets, otherwise as an undefined method |
| Messages.DeviceTargetsFailAsWritten | Granam/FirebaseCloudMessaging/FcmMessage.php:185-187 | for every list of one to 1000 device targets, the recipient value that `jsonSerialize()` computes first fails as written; the corrected read gives the token, or the token list, and the message serialises |
| Messages.DeviceTokens | Granam/FirebaseCloudMessaging/FcmMessage.php:273-279 | corrected token read: the token loop succeeds exactly when every target is a device, giving the tokens in target order; otherwise it fails as an undefined method |
| Messages.TargetKey | Granam/FirebaseCloudMessaging/FcmMessage.php:189-195 | the target key is always `to`, `registration_ids` or `condition` |
| Messages.WireApply | Granam/FirebaseCloudMessaging/FcmMessage.php:189-208 | proof helper: the message serialiser's fixed step list unfolds into its five assignments (the target key, then the four guarded fields) in source order |
| Messages.NoTargetsFail | Granam/FirebaseCloudMessaging/FcmMessage.php:224-226 | a message without targets fails to serialise with the missing-targets error, whatever else is set |
| Messages.SingleTopic | Granam/FirebaseCloudMessaging/FcmMessage.php:228-234 | one topic gives `to: /topics/<name>`, and any condition is ignored |
| Messages.SingleDevice | Granam/FirebaseCloudMessaging/FcmMessage.php:260-266 | corrected token read: one device gives `to: <token>` |
| Messages.TopicChecks | Granam/FirebaseCloudMessaging/FcmMessage.php:235-259 | for several topics: more than three fail with the too-many-topics error; a falsy condition fails with the missing-condition error; a placeholder count different from the topic count fails with the count error; otherwise it succeeds exactly when all targets are topics. The key is `condition` |
| Messages.TopicCondition | Granam/FirebaseCloudMessaging/FcmMessage.php:253-259 | a condition pattern with one `%s` per topic becomes the pattern with each hole filled by that topic's `'name' in topics` clause, in order |
| Messages.DeviceList | Granam/FirebaseCloudMessaging/FcmMessage.php:267-279 | corrected token read: several devices give `registration_ids` with the tokens in order, up to 1000; beyond that the too-many-devices error |
| Messages.OtherTargets | Granam/FirebaseCloudMessaging/FcmMessage.php:280-284 | a target type that is neither device nor topic serialises its target as null |
| Messages.WireStepsKeys | Granam/FirebaseCloudMessaging/FcmMessage.php:185-211 | the message serialiser writes six distinct wire keys |
| Messages.WireFields | Granam/FirebaseCloudMessaging/FcmMessage.php:197-208 | the target key carries the target. collapse_key, data and priority appear when truthy; notification appears when set. Otherwise the root array's value stays |
| Messages.WireKeepsRoot | Granam/FirebaseCloudMessaging/FcmMessage.php:185-211 | the message body keeps every root-array key it does not write, with its value, and keeps keys unique |
| Messages.WireEmitted | Granam/FirebaseCloudMessaging/FcmMessage.php:185-211 | the emitted pairs are the target pair, then the truthy optional fields in source order |
| Messages.WireShape | Granam/FirebaseCloudMessaging/FcmMessage.php:185-211 | over a root array without wire keys, the body is the root array followed by those emitted pairs |
| Messages.FcmMessage.constructor | Granam/FirebaseCloudMessaging/FcmMessage.php:16-27 | a new message has no targets, no target type, an empty root array and no optional field |
| Messages.FcmMessage.AddTarget | Granam/FirebaseCloudMessaging/FcmMessage.php:34-47 | the target is always appended, and the first one fixes the type. It fails with the mixing error exactly when the type was fixed at a different class. Targets of one class stay of one class |
| Messages.FcmMessage.SetNotification | Granam/FirebaseCloudMessaging/FcmMessage.php:49-54 | stores the notification |
| Messages.FcmMessage.SetCollapseKey | Granam/FirebaseCloudMessaging/FcmMessage.php:56-61 | stores the collapse key |
| Messages.FcmMessage.SetPriority | Granam/FirebaseCloudMessaging/FcmMessage.php:63-68 | stores the priority |
| Messages.FcmMessage.SetData | Granam/FirebaseCloudMessaging/FcmMessage.php:70-75 | stores the data array |
| Messages.FcmMessage.SetCondition | Granam/FirebaseCloudMessaging/FcmMessage.php:88-93 | stores the condition |
| Messages.FcmMessage.SetJsonDataValue | Granam/FirebaseCloudMessaging/FcmMessage.php:102-107 | the root array gets the assignment and keeps unique keys |
| Messages.FcmMessage.DeleteJsonDataItem | Granam/FirebaseCloudMessaging/FcmMessage.php:115-120 | the root array loses the key and keeps unique keys |
| Messages.FcmMessage.GetJsonDataItem | Granam/FirebaseCloudMessaging/FcmMessage.php:128-131 | a present key reads its value; an absent one reads null |
| Messages.FcmMessage.SetJsonData | Granam/FirebaseCloudMessaging/FcmMessage.php:149-154 | replaces the whole root array |
| Messages.FcmMessage.EnableDelayWhileIdle | Granam/FirebaseCloudMessaging/FcmMessage.php:156-161 | the root array's `delay_while_idle` becomes true |
| Messages.FcmMessage.DisableDelayWhileIdle | Granam/FirebaseCloudMessaging/FcmMessage.php:163-168 | the root array's `delay_while_idle` becomes false |
| Messages.FcmMessage.SetTimeToLive | Granam/FirebaseCloudMessaging/FcmMessage.php:170-175 | the root array's `time_to_live` becomes the given integer |
| Messages.FcmMessage.NotificationValue | Granam/FirebaseCloudMessaging/FcmMessage.php:205-207 | the notification field is serialised exactly when a notification is attached |
| Messages.FcmMessage.CreateTargetForJson | Granam/FirebaseCloudMessaging/FcmMessage.php:221-285 | corrected token read: the method's loops compute exactly the target value the specification function gives, errors included |
| Messages.FcmMessage.JsonSerialize | Granam/FirebaseCloudMessaging/FcmMessage.php:185-211 | corrected token read: the method computes exactly the specified body: the root array with the target and optional fields laid over it. It changes no state, so two calls agree |
| Scenarios.SingleTopicJson | Granam/Tests/FirebaseCloudMessaging/FcmMessageTest.php:292-297 | a single topic with a condition serialises to `{"to": "/topics/<name>"}` |
| Scenarios.OrPattern | Granam/Tests/FirebaseCloudMessaging/FcmMessageTest.php:165-175 | the two-topic pattern is `%s || %s` |
| Scenarios.OrAndPattern | Granam/Tests/FirebaseCloudMessaging/FcmMessageTest.php:165-175 | the three-topic pattern is `%s || (%s && %s)` |
| Scenarios.TwoTopicsTarget | Granam/Tests/FirebaseCloudMessaging/FcmMessageTest.php:165-175 | two topics with `%s || %s` give the condition `'a' in topics \|\| 'b' in topics` |
| Scenarios.TwoTopicsJson | Granam/Tests/FirebaseCloudMessaging/FcmMessageTest.php:165-175 | the whole body for two topics is exactly that one condition pair |
| Scenarios.ThreeTopicsTarget | Granam/Tests/FirebaseCloudMessaging/FcmMessageTest.php:172-174 | three topics fill `%s || (%s && %s)` in order |
| Scenarios.ThreeTopicsJson | Granam/Tests/FirebaseCloudMessaging/FcmMessageTest.php:165-175 | the whole body for three topics is exactly that one condition pair |
| Scenarios.MissingConditionJson | Granam/Tests/FirebaseCloudMessaging/FcmMessageTest.php:30-36 | two topics without a condition fail with the missing-condition error |
| Scenarios.TooFewPlaceholdersJson | Granam/Tests/FirebaseCloudMessaging/FcmMessageTest.php:303-310 | three topics with a two-placeholder condition fail with the count error |
| Scenarios.TooManyPlaceholdersJson | Granam/FirebaseCloudMessaging/FcmMessage.php:246-252 | two topics with a three-placeholder condition fail with the count error |
| Scenarios.TooManyTopicsJson | Granam/Tests/FirebaseCloudMessaging/FcmMessageTest.php:276-287 | four topics fail with the too-many-topics error, whatever the condition |
| Scenarios.DeviceTargetsJson | Granam/Tests/FirebaseCloudMessaging/FcmMessageTest.php:180-188 | corrected token read: three devices serialise to `{"registration_ids": [a, b, c]}` |
| Scenarios.CollapseKeyJson | Granam/Tests/FirebaseCloudMessaging/FcmMessageTest.php:153-160 | a truthy collapse key follows the target pair |
| Scenarios.PriorityJson | Granam/Tests/FirebaseCloudMessaging/FcmMessageTest.php:245-250 | corrected token read: the priority follows the target pair |
| Scenarios.TimeToLiveJson | Granam/Tests/FirebaseCloudMessaging/FcmMessageTest.php:265-270 | corrected token read: with the code's order, `time_to_live` from the root array comes before `to` |
| Scenarios.TitleBodyBase | Granam/Tests/FirebaseCloudMessaging/NotificationTest.php:12-17 | a base notification with title and body serialises to exactly those two pairs |
| Scenarios.MinimalNotificationJson | Granam/Tests/FirebaseCloudMessaging/FcmNotificationTest.php:25-41 | every notification class with only a title and body serialises to exactly those two pairs |
| Scenarios.ClickActionBase | Granam/FirebaseCloudMessaging/FcmNotification.php:112-114 | the base class given only a click action serialises to exactly `click_action` |
| Scenarios.ForwardedClickActionBase | Granam/FirebaseCloudMessaging/DeviceFcmNotification.php:44 | the base a subclass constructor builds from a click action alone serialises, as written, to exactly `sound` |
| Scenarios.ClickActionParameterJson | Granam/FirebaseCloudMessaging/JsFcmNotification.php:32 | as written, a click action given alone to an Android, iOS or web constructor serialises to exactly `sound`, where the test at Granam/Tests/FirebaseCloudMessaging/FcmNotificationTest.php:57-90 expects `click_action` |
| Scenarios.ClickActionParameterIntendedJson | Granam/Tests/FirebaseCloudMessaging/FcmNotificationTest.php:57-90 | corrected forwarding: a click action given alone serialises to exactly `click_action`, for every class, as the test expects |
| Scenarios.TitleOnlyBase | Granam/Tests/FirebaseCloudMessaging/FcmMessageTest.php:77-86 | a title alone serialises to exactly `title` |
| Scenarios.TitleOnlySilentFlags | Granam/FirebaseCloudMessaging/IosFcmNotification.php:113-115 | a silent iOS layer over a title adds only `content-available: 1` |
| Scenarios.SilentIosNotificationJson | Granam/Tests/FirebaseCloudMessaging/FcmMessageTest.php:77-86 | a silent iOS notification with a title serialises to `title` and `content-available: 1` |
| Scenarios.SilentIosMessageJson | Granam/Tests/FirebaseCloudMessaging/FcmMessageTest.php:77-86 | corrected token read: a message to one device carrying that notification is `to` and then that notification |
| Scenarios.JsIconJson | Granam/Tests/FirebaseCloudMessaging/JsFcmNotificationTest.php:14-20 | a web notification with only an icon serialises to exactly `icon` |
| Scenarios.MixedTargetsExample | Granam/Tests/FirebaseCloudMessaging/FcmMessageTest.php:20-24 | adding a topic after a device fails with the mixing error, and both targets stay in the list |
| Scenarios.DelayWhileIdleExample | Granam/Tests/FirebaseCloudMessaging/FcmMessageTest.php:193-201 | enabling then disabling delay-while-idle leaves one `delay_while_idle: false` pair |
| Scenarios.SerialiseTwiceExample | Granam/FirebaseCloudMessaging/FcmMessage.php:185-211 | corrected token read: serialising a one-device message twice gives the same `{"to": token}` both times |
| Scenarios.ClickActionResetExample | Granam/FirebaseCloudMessaging/FcmNotification.php:68-73 | on the base class, a click action emits `click_action` and setting it back to `""` removes the key again. On the Android class, as written, it emits `sound`, and clearing the click action leaves that `sound` in place |
| Scenarios.ContentAvailableExample | Granam/Tests/FirebaseCloudMessaging/NotificationTest.php:46-53 | extends that test's fixture, which only enables content-available, with disabling: disabling content-available emits false under the corrected setter and true as written |
| Scenarios.AndroidColorRefusalExample | Granam/Tests/FirebaseCloudMessaging/AndroidFcmNotificationTest.php:52-55 | an invalid colour is refused and the notification still serialises to the empty array |
| Scenarios.AndroidSilenceRefusalExample | Granam/FirebaseCloudMessaging/AndroidFcmNotification.php:157-163 | silencing an Android notification is refused, and it still serialises to the empty array |

## Left out

- `FcmClient` (the HTTP POST to Google, the API key and the response handling) is not modelled: it is network I/O.
- `Granam/FirebaseCloudMessaging/Target/FcmTopicTarget.php` is not part of this model. A topic target is a name, read only through `getTopicName()`.
- `Targets.GetTopicName`: the topic name is used as given. Any check or normalisation that the topic target class may do is not modelled.
- `filter_var(..., FILTER_VALIDATE_URL)` is the parameter `isValidUrl`. Its RFC-based URL grammar is not modelled.
- `Conditions.Substitute`: only the `%s` conversion of `vsprintf` is modelled. The message serialiser therefore requires that every `%` in a condition starts a `%s` (`Messages.VsprintfDefined`). Other conversions and `%%` are outside the model.
- `json_encode` itself is left out: the bytes, escaping, number formatting and the encoder flags. The model stops at the PHP array handed to it.
- An empty notification array is PHP `[]`, which `json_encode` writes as a JSON list. The model does not tell a list from an object.
- `Messages.FcmMessage.SetData`: the data value is modelled as a key/value array only. A plain PHP list (the test passes `['bank', 'bang']`) is not modelled.
- `Messages.FcmMessage.GetJsonDataItem`: the PHP notice raised for a missing key is not modelled, only the null result.
- Notifications inherit the message's root-array helpers. Only `setJsonDataValue` and `deleteJsonDataItem` are modelled on them; `getJsonDataItem` and `setJsonData` are not, because they behave exactly as on the message.
- `Notifications.Notification.Js`: the constructor takes the https check as a precondition. Its throwing form is `Notifications.Notification.NewJs`, which returns the error instead of an object.
- Behaviour that only the tests expect, and the code does not have, is not modelled:
  - a message constructor that takes a seed target;
  - `addTargets`, and the getters `getNotification` and `getCollapseKey`;
  - a message-level `setSilent` with its loud-notification error;
  - an unknown-target-type error (the code serialises such a target as null);
  - count limits checked when a target is added rather than when the message is serialised;
  - an Android `isSilent()` that depends on title and body (the code always returns false);
  - `setTitle` and `setBody` setters;
  - `isSilent`, `canBeSilenced` and `setSilent` on the web notification;
  - an empty-API-key error, which belongs to the client.
- `Scenarios.ClickActionParameterJson`: the test run on the Android, iOS and web classes (`Granam/Tests/FirebaseCloudMessaging/FcmNotificationTest.php:57-90`) expects a click action given to the constructor to serialise as `click_action`, and clearing it to empty the array. The code hands it to the base `$sound`, and the model's constructors follow the code. The corrected forwarding exists only as `Payload.ForwardedParentFieldsIntended`, with its lemmas; no constructor uses it (see "## Findings").
- `Messages.TargetJson`: the serialiser, and with it `Messages.WireJson`, `Messages.FcmMessage.CreateTargetForJson` and `Messages.FcmMessage.JsonSerialize`, reads device targets through the corrected `Targets.GetToken`, so it gives `to` or `registration_ids` where `Granam/FirebaseCloudMessaging/FcmMessage.php:265` and `276` throw. The as-written result of the device branch is `Messages.DeviceTargetJsonAsWritten`, and every row marked "corrected token read" states the corrected program's output.
- `Scenarios.TimeToLiveJson`: the tests expect `to` before `delay_while_idle` and `time_to_live` (`Granam/Tests/FirebaseCloudMessaging/FcmMessageTest.php:193-201`, `265-270`). The code writes the target key into the existing root array, so the root keys come first. The model follows the code.

## Findings

| source | as written | input that shows it | evidently intended | confidence | as-written member | corrected member |
|---|---|---|---|---|---|---|
| Granam/FirebaseCloudMessaging/FcmNotification.php:96-101 | `disableContentAvailable()` stores true | a notification after `disableContentAvailable()` serialises `content_available: true` | store false, so the wire says content is not available | high, not executed | Payload.DisableContentAvailableAsWritten, Payload.DisabledContentAvailableIsTrue, Notifications.Notification.DisableContentAvailableAsWritten | Payload.DisableContentAvailableIntended, Notifications.Notification.DisableContentAvailable |
| Granam/FirebaseCloudMessaging/DeviceFcmNotification.php:44 | the device and web constructors pass the click action as the parent's third argument, which is `$sound` | `new AndroidFcmNotification('', '', '', '', '', '', '', 'x')`, or `new JsFcmNotification('', '', '', 'https://x')` with a URL the check accepts: the output is `sound: x` and has no `click_action` | forward it to the parent's `$clickAction` | high, not executed | Notifications.Notification.Android, Payload.ForwardedParentFields, Payload.ForwardedClickActionBecomesSound, Scenarios.ClickActionParameterJson | Payload.ForwardedParentFieldsIntended, Payload.ForwardedClickActionIntended, Scenarios.ClickActionParameterIntendedJson |
| Granam/FirebaseCloudMessaging/FcmMessage.php:260-279 | device targets are read with `getToken()`, which `FcmDeviceTarget` does not define | any message with one to 1000 device targets: `createTargetForJson()`, which `jsonSerialize()` calls first, throws an undefined-method error | call `getDeviceToken()` | high, not executed | Targets.GetTokenAsWritten, Messages.DeviceTargetJsonAsWritten, Messages.DeviceTargetsFailAsWritten | Targets.GetToken |
