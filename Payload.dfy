/**
 * The notification payload, layer by layer.  Each notification class keeps its
 * own private fields (a subclass field with the same name as a parent's private
 * field is a separate field), and each class's serialiser takes its parent's
 * array and assigns, overwrites or unsets keys in it.  Every layer is a pure
 * function of that layer's fields and the parent's output.
 */
module Payload {
  import opened Wrappers
  import opened PhpJson
  import opened Exceptions

  /** The private fields of the base notification class. */
  datatype BaseFields = BaseFields(
    title: string,
    body: string,
    iosBadge: int,
    androidIcon: string,
    sound: string,
    clickAction: string,
    tag: string,
    contentAvailable: Option<bool>)

  /** The fields the device-notification layer adds (its `sound` is not the base one). */
  datatype DeviceFields = DeviceFields(
    sound: string,
    bodyLocKey: string,
    bodyLocArgs: seq<Json>,
    titleLocKey: string,
    titleLocArgs: seq<Json>)

  /** The Android class's private fields (its `icon` and `tag` are not the base ones). */
  datatype AndroidFields = AndroidFields(androidChannelId: string, icon: string, tag: string, color: string)

  /** The iOS class's private fields. */
  datatype IosFields = IosFields(badge: Option<int>, subTitle: string, silent: bool)

  /** The web (JavaScript) class's private field. */
  datatype JsFields = JsFields(icon: string)

  const DefaultDevice := DeviceFields("", "", [], "", [])
  const DefaultAndroid := AndroidFields("", "", "", "")
  const DefaultIos := IosFields(None, "", false)
  const DefaultJs := JsFields("")

  /** The base constructor with its defaults for the parameters after `$title` and `$body`. */
  function BaseDefaults(title: string, body: string): BaseFields {
    BaseFields(title, body, 0, "", "", "", "", None)
  }

  /**
   * What the device and web constructors hand to the base constructor: they
   * pass their click action as its third argument, which is `$sound`.
   */
  function ForwardedParentFields(title: string, body: string, clickAction: string): (b: BaseFields)
    ensures b == BaseDefaults(title, body).(sound := clickAction)
  {
    BaseFields(title, body, 0, "", clickAction, "", "", None)
  }

  /** The evidently intended forwarding: the click action goes to the base `$clickAction`. */
  function ForwardedParentFieldsIntended(title: string, body: string, clickAction: string): (b: BaseFields)
    ensures b == BaseDefaults(title, body).(clickAction := clickAction)
  {
    BaseFields(title, body, 0, "", "", clickAction, "", None)
  }

  /**
   * The base serialiser's lines: each key is assigned only when its field
   * differs from the zero value (a non-empty string, a set content-available
   * flag, a positive iOS badge), in this order.
   */
  function BaseSteps(b: BaseFields): seq<Step> {
    [ Step(b.title != "", "title", JStr(b.title)),
      Step(b.body != "", "body", JStr(b.body)),
      Step(b.clickAction != "", "click_action", JStr(b.clickAction)),
      Step(b.sound != "", "sound", JStr(b.sound)),
      Step(b.tag != "", "tag", JStr(b.tag)),
      Step(b.contentAvailable.Some?, "content_available", BoolOrNull(b.contentAvailable)),
      Step(b.iosBadge > 0, "badge", JInt(b.iosBadge)),
      Step(b.androidIcon != "", "icon", JStr(b.androidIcon)) ]
  }

  /** The base serialiser starts from the notification's own root array, inherited from the message class. */
  function BaseJson(root: Obj, b: BaseFields): Obj {
    Apply(root, BaseSteps(b))
  }

  /** The device layer's lines: its own sound, then the localisation keys. */
  function DeviceSteps(d: DeviceFields): seq<Step> {
    [ Step(d.sound != "", "sound", JStr(d.sound)),
      Step(d.bodyLocKey != "", "body_loc_key", JStr(d.bodyLocKey)),
      Step(d.bodyLocArgs != [], "body_loc_args", JList(d.bodyLocArgs)),
      Step(d.titleLocKey != "", "title_loc_key", JStr(d.titleLocKey)),
      Step(d.titleLocArgs != [], "title_loc_args", JList(d.titleLocArgs)) ]
  }

  function DeviceJson(parent: Obj, d: DeviceFields): Obj {
    Apply(parent, DeviceSteps(d))
  }

  /** The Android layer's lines: channel id, icon, tag and colour, each when non-empty. */
  function AndroidSteps(a: AndroidFields): seq<Step> {
    [ Step(a.androidChannelId != "", "android_channel_id", JStr(a.androidChannelId)),
      Step(a.icon != "", "icon", JStr(a.icon)),
      Step(a.tag != "", "tag", JStr(a.tag)),
      Step(a.color != "", "color", JStr(a.color)) ]
  }

  function AndroidJson(parent: Obj, a: AndroidFields): Obj {
    Apply(parent, AndroidSteps(a))
  }

  /**
   * The iOS flags: a silent notification gets `content-available` = 1 and
   * loses its `sound` key, and its own badge is not written; a loud one gets its
   * badge whenever it is set, 0 included.
   */
  function IosFlags(parent: Obj, i: IosFields): (r: Obj)
    ensures i.silent ==> Lookup(r, "content-available") == Some(JInt(1)) && Lookup(r, "sound") == None
    ensures i.silent ==> Lookup(r, "badge") == Lookup(parent, "badge")
    ensures !i.silent ==>
              Lookup(r, "badge") == (if i.badge.Some? then Some(JInt(i.badge.value)) else Lookup(parent, "badge"))
    ensures forall k :: k != "badge" && (i.silent ==> k != "content-available" && k != "sound") ==>
              Lookup(r, k) == Lookup(parent, k)
  {
    if i.silent then Unset(Put(parent, "content-available", JInt(1)), "sound")
    else PutIf(parent, i.badge.Some?, "badge", if i.badge.Some? then JInt(i.badge.value) else JNull)
  }

  /** The iOS layer: the flags, then the subtitle when non-empty, silent or not. */
  function IosJson(parent: Obj, i: IosFields): Obj {
    Apply(IosFlags(parent, i), [Step(i.subTitle != "", "sub_title", JStr(i.subTitle))])
  }

  /** The web layer's one line: its own icon when non-empty. */
  function JsSteps(j: JsFields): seq<Step> {
    [Step(j.icon != "", "icon", JStr(j.icon))]
  }

  function JsJson(parent: Obj, j: JsFields): Obj {
    Apply(parent, JsSteps(j))
  }

  lemma BaseStepsDistinct(b: BaseFields)
    ensures forall i, j :: 0 <= i < j < |BaseSteps(b)| ==> BaseSteps(b)[i].key != BaseSteps(b)[j].key
  {
  }

  /** `title`, `body`, `click_action`, `sound`, `tag` and `icon` are written exactly when their field is not "". */
  lemma BaseJsonStrings(root: Obj, b: BaseFields)
    ensures Lookup(BaseJson(root, b), "title") == if b.title != "" then Some(JStr(b.title)) else Lookup(root, "title")
    ensures Lookup(BaseJson(root, b), "body") == if b.body != "" then Some(JStr(b.body)) else Lookup(root, "body")
    ensures Lookup(BaseJson(root, b), "click_action") ==
              if b.clickAction != "" then Some(JStr(b.clickAction)) else Lookup(root, "click_action")
    ensures Lookup(BaseJson(root, b), "sound") == if b.sound != "" then Some(JStr(b.sound)) else Lookup(root, "sound")
    ensures Lookup(BaseJson(root, b), "tag") == if b.tag != "" then Some(JStr(b.tag)) else Lookup(root, "tag")
    ensures Lookup(BaseJson(root, b), "icon") ==
              if b.androidIcon != "" then Some(JStr(b.androidIcon)) else Lookup(root, "icon")
  {
    BaseStepsDistinct(b);
    ApplyDistinct(root, BaseSteps(b), 0);
    ApplyDistinct(root, BaseSteps(b), 1);
    ApplyDistinct(root, BaseSteps(b), 2);
    ApplyDistinct(root, BaseSteps(b), 3);
    ApplyDistinct(root, BaseSteps(b), 4);
    ApplyDistinct(root, BaseSteps(b), 7);
  }

  /** `badge` is written only for a positive iOS badge, so the default 0 is left out. */
  lemma BaseJsonBadge(root: Obj, b: BaseFields)
    ensures Lookup(BaseJson(root, b), "badge") == if b.iosBadge > 0 then Some(JInt(b.iosBadge)) else Lookup(root, "badge")
  {
    BaseStepsDistinct(b);
    ApplyDistinct(root, BaseSteps(b), 6);
  }

  /** `content_available` is absent while the flag is null and is otherwise its boolean. */
  lemma BaseJsonContentAvailable(root: Obj, b: BaseFields)
    ensures Lookup(BaseJson(root, b), "content_available") ==
              match b.contentAvailable
              case None => Lookup(root, "content_available")
              case Some(flag) => Some(JBool(flag))
  {
    BaseStepsDistinct(b);
    ApplyDistinct(root, BaseSteps(b), 5);
  }

  const BaseKeys: set<string> := {"title", "body", "click_action", "sound", "tag", "content_available", "badge", "icon"}

  /** Keys outside the base layer's own keep the root array's value. */
  lemma BaseJsonOtherKeys(root: Obj, b: BaseFields, k: string)
    requires k !in BaseKeys
    ensures Lookup(BaseJson(root, b), k) == Lookup(root, k)
  {
    ApplyOther(root, BaseSteps(b), k);
  }

  /**
   * On a root array without any of the base keys (a fresh notification's is
   * empty), the base layer appends exactly the pairs of its firing lines after
   * the root entries, in the fixed order of its lines: title, body,
   * click_action, sound, tag, content_available, badge, icon.
   */
  lemma BaseJsonShape(root: Obj, b: BaseFields)
    requires forall k :: k in Keys(root) ==> k !in BaseKeys
    ensures BaseJson(root, b) == root + Emitted(BaseSteps(b))
  {
    BaseStepsDistinct(b);
    ApplyAppends(root, BaseSteps(b));
  }

  /** With every field at its default the base layer adds nothing to the root array. */
  lemma BaseJsonDefaults(root: Obj)
    ensures BaseJson(root, BaseDefaults("", "")) == root
  {
    ApplyNoneFires(root, BaseSteps(BaseDefaults("", "")));
  }

  const DeviceKeys: set<string> := {"sound", "body_loc_key", "body_loc_args", "title_loc_key", "title_loc_args"}

  lemma DeviceStepsDistinct(d: DeviceFields)
    ensures forall i, j :: 0 <= i < j < |DeviceSteps(d)| ==> DeviceSteps(d)[i].key != DeviceSteps(d)[j].key
  {
  }

  /** The device layer's own sound, when non-empty, overwrites whatever `sound` its parent produced. */
  lemma DeviceJsonSound(parent: Obj, d: DeviceFields)
    ensures Lookup(DeviceJson(parent, d), "sound") == if d.sound != "" then Some(JStr(d.sound)) else Lookup(parent, "sound")
  {
    DeviceStepsDistinct(d);
    ApplyDistinct(parent, DeviceSteps(d), 0);
  }

  /** The localisation keys are written when the key is not "" and when the argument list is not []. */
  lemma DeviceJsonLocalisation(parent: Obj, d: DeviceFields)
    ensures Lookup(DeviceJson(parent, d), "body_loc_key") ==
              if d.bodyLocKey != "" then Some(JStr(d.bodyLocKey)) else Lookup(parent, "body_loc_key")
    ensures Lookup(DeviceJson(parent, d), "body_loc_args") ==
              if d.bodyLocArgs != [] then Some(JList(d.bodyLocArgs)) else Lookup(parent, "body_loc_args")
    ensures Lookup(DeviceJson(parent, d), "title_loc_key") ==
              if d.titleLocKey != "" then Some(JStr(d.titleLocKey)) else Lookup(parent, "title_loc_key")
    ensures Lookup(DeviceJson(parent, d), "title_loc_args") ==
              if d.titleLocArgs != [] then Some(JList(d.titleLocArgs)) else Lookup(parent, "title_loc_args")
  {
    DeviceStepsDistinct(d);
    ApplyDistinct(parent, DeviceSteps(d), 1);
    ApplyDistinct(parent, DeviceSteps(d), 2);
    ApplyDistinct(parent, DeviceSteps(d), 3);
    ApplyDistinct(parent, DeviceSteps(d), 4);
  }

  /**
   * The device layer keeps every key of its parent where it stood, changes
   * none of them except its own keys, and appends its new keys after them.
   */
  lemma DeviceJsonExtendsParent(parent: Obj, d: DeviceFields)
    ensures Keys(parent) <= Keys(DeviceJson(parent, d))
    ensures forall k :: k !in DeviceKeys ==> Lookup(DeviceJson(parent, d), k) == Lookup(parent, k)
  {
    ApplyKeepsOrder(parent, DeviceSteps(d));
    forall k | k !in DeviceKeys
      ensures Lookup(DeviceJson(parent, d), k) == Lookup(parent, k)
    {
      ApplyOther(parent, DeviceSteps(d), k);
    }
  }

  const AndroidKeys: set<string> := {"android_channel_id", "icon", "tag", "color"}

  lemma AndroidStepsDistinct(a: AndroidFields)
    ensures forall i, j :: 0 <= i < j < |AndroidSteps(a)| ==> AndroidSteps(a)[i].key != AndroidSteps(a)[j].key
  {
  }

  /**
   * The Android layer writes channel id, icon, tag and colour when non-empty;
   * its own icon and tag overwrite the ones the base layer produced.
   */
  lemma AndroidJsonFields(parent: Obj, a: AndroidFields)
    ensures Lookup(AndroidJson(parent, a), "android_channel_id") ==
              if a.androidChannelId != "" then Some(JStr(a.androidChannelId)) else Lookup(parent, "android_channel_id")
    ensures Lookup(AndroidJson(parent, a), "icon") == if a.icon != "" then Some(JStr(a.icon)) else Lookup(parent, "icon")
    ensures Lookup(AndroidJson(parent, a), "tag") == if a.tag != "" then Some(JStr(a.tag)) else Lookup(parent, "tag")
    ensures Lookup(AndroidJson(parent, a), "color") == if a.color != "" then Some(JStr(a.color)) else Lookup(parent, "color")
  {
    AndroidStepsDistinct(a);
    ApplyDistinct(parent, AndroidSteps(a), 0);
    ApplyDistinct(parent, AndroidSteps(a), 1);
    ApplyDistinct(parent, AndroidSteps(a), 2);
    ApplyDistinct(parent, AndroidSteps(a), 3);
  }

  /** The Android layer keeps every other key of the device layer and its order. */
  lemma AndroidJsonExtendsParent(parent: Obj, a: AndroidFields)
    ensures Keys(parent) <= Keys(AndroidJson(parent, a))
    ensures forall k :: k !in AndroidKeys ==> Lookup(AndroidJson(parent, a), k) == Lookup(parent, k)
  {
    ApplyKeepsOrder(parent, AndroidSteps(a));
    forall k | k !in AndroidKeys
      ensures Lookup(AndroidJson(parent, a), k) == Lookup(parent, k)
    {
      ApplyOther(parent, AndroidSteps(a), k);
    }
  }

  /** `sub_title` is written when non-empty, silent or not; the other keys are the flags' output. */
  lemma IosJsonSubTitle(parent: Obj, i: IosFields)
    ensures Lookup(IosJson(parent, i), "sub_title") ==
              if i.subTitle != "" then Some(JStr(i.subTitle)) else Lookup(parent, "sub_title")
    ensures forall k :: k != "sub_title" ==> Lookup(IosJson(parent, i), k) == Lookup(IosFlags(parent, i), k)
  {
    var steps := [Step(i.subTitle != "", "sub_title", JStr(i.subTitle))];
    ApplyDistinct(IosFlags(parent, i), steps, 0);
    forall k | k != "sub_title"
      ensures Lookup(IosJson(parent, i), k) == Lookup(IosFlags(parent, i), k)
    {
      ApplyOther(IosFlags(parent, i), steps, k);
    }
  }

  /** With the defaults (loud, no badge, no subtitle) the iOS layer returns the device layer's output. */
  lemma IosJsonDefaults(parent: Obj)
    ensures IosJson(parent, DefaultIos) == parent
  {
    ApplyNoneFires(parent, [Step(false, "sub_title", JStr(""))]);
  }

  /** The web layer's own icon, when non-empty, overwrites the base icon; nothing else changes. */
  lemma JsJsonIcon(parent: Obj, j: JsFields)
    ensures Lookup(JsJson(parent, j), "icon") == if j.icon != "" then Some(JStr(j.icon)) else Lookup(parent, "icon")
    ensures forall k :: k != "icon" ==> Lookup(JsJson(parent, j), k) == Lookup(parent, k)
    ensures Keys(parent) <= Keys(JsJson(parent, j))
  {
    ApplyDistinct(parent, JsSteps(j), 0);
    ApplyKeepsOrder(parent, JsSteps(j));
    forall k | k != "icon"
      ensures Lookup(JsJson(parent, j), k) == Lookup(parent, k)
    {
      ApplyOther(parent, JsSteps(j), k);
    }
  }

  /** The concrete notification classes: the base one, Android, iOS and web. */
  datatype Kind = BaseKind | AndroidKind | IosKind | JsKind {
    /** The two classes that extend the device notification layer. */
    predicate IsDevice() { AndroidKind? || IosKind? }
  }

  /** A notification's `jsonSerialize()`: each class runs its parent's serialiser, then its own lines. */
  function NotificationJson(kind: Kind, root: Obj, b: BaseFields, d: DeviceFields, a: AndroidFields, i: IosFields, j: JsFields): Obj {
    match kind
    case BaseKind => BaseJson(root, b)
    case AndroidKind => AndroidJson(DeviceJson(BaseJson(root, b), d), a)
    case IosKind => IosJson(DeviceJson(BaseJson(root, b), d), i)
    case JsKind => JsJson(BaseJson(root, b), j)
  }

  /** The iOS flags never create a duplicate key. */
  lemma IosFlagsUnique(parent: Obj, i: IosFields)
    requires UniqueKeys(parent)
    ensures UniqueKeys(IosFlags(parent, i))
  {
    if i.silent {
      PutUnique(parent, "content-available", JInt(1));
      UnsetUnique(Put(parent, "content-available", JInt(1)), "sound");
    } else {
      PutIfUnique(parent, i.badge.Some?, "badge", if i.badge.Some? then JInt(i.badge.value) else JNull);
    }
  }

  /** Whatever the class, the payload is a genuine PHP array when the root array is: no key occurs twice. */
  lemma NotificationJsonUnique(kind: Kind, root: Obj, b: BaseFields, d: DeviceFields, a: AndroidFields, i: IosFields, j: JsFields)
    requires UniqueKeys(root)
    ensures UniqueKeys(NotificationJson(kind, root, b, d, a, i, j))
  {
    var base := BaseJson(root, b);
    ApplyUnique(root, BaseSteps(b));
    match kind
    case BaseKind =>
    case AndroidKind =>
      ApplyUnique(base, DeviceSteps(d));
      ApplyUnique(DeviceJson(base, d), AndroidSteps(a));
    case IosKind =>
      ApplyUnique(base, DeviceSteps(d));
      IosFlagsUnique(DeviceJson(base, d), i);
      ApplyUnique(IosFlags(DeviceJson(base, d), i), [Step(i.subTitle != "", "sub_title", JStr(i.subTitle))]);
    case JsKind =>
      ApplyUnique(base, JsSteps(j));
  }

  /** A subclass whose own fields are all at their constructor defaults serialises as the base class does. */
  lemma DefaultLayers(kind: Kind, root: Obj, b: BaseFields)
    ensures NotificationJson(kind, root, b, DefaultDevice, DefaultAndroid, DefaultIos, DefaultJs) == BaseJson(root, b)
  {
    var base := BaseJson(root, b);
    ApplyNoneFires(base, DeviceSteps(DefaultDevice));
    ApplyNoneFires(base, AndroidSteps(DefaultAndroid));
    ApplyNoneFires(base, JsSteps(DefaultJs));
    IosJsonDefaults(base);
  }

  /** A notification built with every argument at its default serialises an empty root array to `[]`, whatever its class. */
  lemma EmptyNotificationJson(kind: Kind)
    ensures NotificationJson(kind, [], BaseDefaults("", ""), DefaultDevice, DefaultAndroid, DefaultIos, DefaultJs) == []
  {
    BaseJsonDefaults([]);
    ApplyNoneFires([], DeviceSteps(DefaultDevice));
    ApplyNoneFires([], AndroidSteps(DefaultAndroid));
    ApplyNoneFires([], JsSteps(DefaultJs));
    IosJsonDefaults([]);
  }

  /**
   * A silent iOS notification carries `content-available` = 1 and no `sound`,
   * wherever a sound came from, and its parent's badge unchanged: only `sound`
   * is unset.
   */
  lemma SilentIosJson(parent: Obj, i: IosFields)
    requires i.silent
    ensures Lookup(IosJson(parent, i), "content-available") == Some(JInt(1))
    ensures Lookup(IosJson(parent, i), "sound") == None
    ensures Lookup(IosJson(parent, i), "badge") == Lookup(parent, "badge")
  {
    IosJsonSubTitle(parent, i);
  }

  /** So a positive badge set through the base class's `setIosBadge` survives silence. */
  lemma SilentIosKeepsBaseBadge(root: Obj, b: BaseFields, d: DeviceFields, i: IosFields)
    requires i.silent && b.iosBadge > 0
    ensures Lookup(NotificationJson(IosKind, root, b, d, DefaultAndroid, i, DefaultJs), "badge") == Some(JInt(b.iosBadge))
  {
    var base := BaseJson(root, b);
    BaseJsonBadge(root, b);
    DeviceJsonExtendsParent(base, d);
    assert "badge" !in DeviceKeys;
    SilentIosJson(DeviceJson(base, d), i);
  }

  /** On a device notification the device layer's own non-empty sound wins over the base sound. */
  lemma DeviceSoundWins(root: Obj, b: BaseFields, d: DeviceFields, a: AndroidFields)
    requires d.sound != ""
    ensures Lookup(AndroidJson(DeviceJson(BaseJson(root, b), d), a), "sound") == Some(JStr(d.sound))
  {
    DeviceJsonSound(BaseJson(root, b), d);
    AndroidJsonExtendsParent(DeviceJson(BaseJson(root, b), d), a);
  }

  /** On Android the layer's own non-empty icon and tag win over the base `androidIcon` and tag. */
  lemma AndroidIconAndTagWin(root: Obj, b: BaseFields, d: DeviceFields, a: AndroidFields)
    requires a.icon != "" && a.tag != ""
    ensures Lookup(AndroidJson(DeviceJson(BaseJson(root, b), d), a), "icon") == Some(JStr(a.icon))
    ensures Lookup(AndroidJson(DeviceJson(BaseJson(root, b), d), a), "tag") == Some(JStr(a.tag))
  {
    AndroidJsonFields(DeviceJson(BaseJson(root, b), d), a);
  }

  /**
   * As written, a click action given to a device or web constructor reaches
   * the payload under `sound` and never under `click_action`.
   */
  lemma ForwardedClickActionBecomesSound(title: string, body: string, clickAction: string)
    requires clickAction != ""
    ensures Lookup(BaseJson([], ForwardedParentFields(title, body, clickAction)), "sound") == Some(JStr(clickAction))
    ensures Lookup(BaseJson([], ForwardedParentFields(title, body, clickAction)), "click_action") == None
  {
    BaseJsonStrings([], ForwardedParentFields(title, body, clickAction));
  }

  /** Forwarded as intended, the click action is emitted as `click_action` and adds no `sound`. */
  lemma ForwardedClickActionIntended(title: string, body: string, clickAction: string)
    requires clickAction != ""
    ensures Lookup(BaseJson([], ForwardedParentFieldsIntended(title, body, clickAction)), "click_action") ==
              Some(JStr(clickAction))
    ensures Lookup(BaseJson([], ForwardedParentFieldsIntended(title, body, clickAction)), "sound") == None
  {
    BaseJsonStrings([], ForwardedParentFieldsIntended(title, body, clickAction));
  }

  /** Changing only the content-available flag changes no other key of the base layer's output. */
  lemma BaseJsonFlagOnly(root: Obj, b: BaseFields, flag: Option<bool>, k: string)
    requires k != "content_available"
    ensures Lookup(BaseJson(root, b.(contentAvailable := flag)), k) == Lookup(BaseJson(root, b), k)
  {
    var b' := b.(contentAvailable := flag);
    if k in BaseKeys {
      BaseJsonStrings(root, b);
      BaseJsonStrings(root, b');
      BaseJsonBadge(root, b);
      BaseJsonBadge(root, b');
    } else {
      BaseJsonOtherKeys(root, b, k);
      BaseJsonOtherKeys(root, b', k);
    }
  }

  /**
   * As written, `disableContentAvailable()` stores the same flag as
   * `enableContentAvailable()`: the output then says `content_available: true`,
   * and every other key reads as before.
   */
  function DisableContentAvailableAsWritten(b: BaseFields): (r: BaseFields)
    ensures forall root :: Lookup(BaseJson(root, r), "content_available") == Some(JBool(true))
    ensures forall root, k :: k != "content_available" ==> Lookup(BaseJson(root, r), k) == Lookup(BaseJson(root, b), k)
  {
    var r := b.(contentAvailable := Some(true));
    assert forall root :: Lookup(BaseJson(root, r), "content_available") == Some(JBool(true)) by {
      forall root { BaseJsonContentAvailable(root, r); }
    }
    assert forall root, k :: k != "content_available" ==> Lookup(BaseJson(root, r), k) == Lookup(BaseJson(root, b), k) by {
      forall root, k | k != "content_available" { BaseJsonFlagOnly(root, b, Some(true), k); }
    }
    r
  }

  /**
   * The intended `disableContentAvailable()`: the output says
   * `content_available: false`, and every other key reads as before.
   */
  function DisableContentAvailableIntended(b: BaseFields): (r: BaseFields)
    ensures forall root :: Lookup(BaseJson(root, r), "content_available") == Some(JBool(false))
    ensures forall root, k :: k != "content_available" ==> Lookup(BaseJson(root, r), k) == Lookup(BaseJson(root, b), k)
  {
    var r := b.(contentAvailable := Some(false));
    assert forall root :: Lookup(BaseJson(root, r), "content_available") == Some(JBool(false)) by {
      forall root { BaseJsonContentAvailable(root, r); }
    }
    assert forall root, k :: k != "content_available" ==> Lookup(BaseJson(root, r), k) == Lookup(BaseJson(root, b), k) by {
      forall root, k | k != "content_available" { BaseJsonFlagOnly(root, b, Some(false), k); }
    }
    r
  }

  /** As written, disabling content-available makes the payload say `content_available: true`. */
  lemma DisabledContentAvailableIsTrue(root: Obj, b: BaseFields)
    ensures Lookup(BaseJson(root, DisableContentAvailableAsWritten(b)), "content_available") == Some(JBool(true))
    ensures Lookup(BaseJson(root, DisableContentAvailableIntended(b)), "content_available") == Some(JBool(false))
  {
    BaseJsonContentAvailable(root, DisableContentAvailableAsWritten(b));
    BaseJsonContentAvailable(root, DisableContentAvailableIntended(b));
  }
}
