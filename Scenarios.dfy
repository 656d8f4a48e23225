/**
 * Concrete uses of the library, each following one sequence of the library's
 * own test suite, with the arrays the model serialises them to.  Names and
 * tokens are parameters wherever the tests' literal values do not matter.
 * Where the code and a test disagree the code decides (see the README).
 */
module Scenarios {
  import opened Wrappers
  import opened PhpJson
  import opened Exceptions
  import opened Targets
  import opened Conditions
  import opened Payload
  import opened Notifications
  import opened Messages

  // ----- Proof helpers ------------------------------------------------------
  // These correspond to nothing in the library. They state small string facts
  // over abstract strings, so the topic scenarios below need not unfold
  // literal strings, which costs the solver far more.

  /** Filling a two-hole pattern, written out. */
  lemma FillTwo(l0: string, l1: string, l2: string, x: string, y: string)
    ensures Fill([l0, l1, l2], [x, y]) == l0 + x + l1 + y + l2
  {
    assert [l0, l1, l2][1..] == [l1, l2];
    assert [l1, l2][1..] == [l2];
    assert [x, y][1..] == [y];
    assert Fill([l1, l2], [y]) == l1 + y + l2;
  }

  /** Filling a three-hole pattern, written out. */
  lemma FillThree(l0: string, l1: string, l2: string, l3: string, x: string, y: string, z: string)
    ensures Fill([l0, l1, l2, l3], [x, y, z]) == l0 + x + l1 + y + l2 + z + l3
  {
    assert [l0, l1, l2, l3][1..] == [l1, l2, l3];
    assert [x, y, z][1..] == [y, z];
    FillTwo(l1, l2, l3, y, z);
  }

  /** Dropping the empty literals around a two-hole fill. */
  lemma LeadingEmptyTwo(x: string, m: string, y: string)
    ensures "" + x + m + y + "" == x + m + y
  {
    assert "" + x == x;
  }

  /** Dropping the empty leading literal of a three-hole fill. */
  lemma LeadingEmptyThree(x: string, m1: string, y: string, m2: string, z: string, m3: string)
    ensures "" + x + m1 + y + m2 + z + m3 == x + m1 + y + m2 + z + m3
  {
    assert "" + x == x;
  }

  // ----- Recipients ---------------------------------------------------------

  /** A single topic goes to "to", even when the condition asks for more topics. */
  lemma SingleTopicJson(name: string, condition: Option<string>)
    ensures VsprintfDefined([Topic(name)], Some(TopicClass), condition)
    ensures WireJson([], [Topic(name)], Some(TopicClass), condition, None, None, None, None) ==
              Success([("to", JStr("/topics/" + name))])
  {
    SingleTopic(name, condition);
    WireShape([], [Topic(name)], Some(TopicClass), condition, None, None, None, None);
    var p := ("to", JStr("/topics/" + name));
    assert PairIf(Truthy(StrOrNull(None)), "collapse_key", StrOrNull(None)) == [];
    assert PairIf(Truthy(ObjOrNull(None)), "data", ObjOrNull(None)) == [];
    assert [] + ([p] + [] + [] + [] + []) == [p];
  }

  /** "%s || %s" is the literal text "", " || ", "" around two placeholders. */
  lemma OrPattern()
    ensures Fill(["", " || ", ""], Placeholders(2)) == "%s || %s"
  {
    assert Placeholders(2) == ["%s", "%s"];
    FillTwo("", " || ", "", "%s", "%s");
  }

  /** "%s || (%s && %s)" is the literal text "", " || (", " && ", ")" around three placeholders. */
  lemma OrAndPattern()
    ensures Fill(["", " || (", " && ", ")"], Placeholders(3)) == "%s || (%s && %s)"
  {
    assert Placeholders(3) == ["%s", "%s", "%s"];
    FillThree("", " || (", " && ", ")", "%s", "%s", "%s");
  }

  /** Two topics under "%s || %s": the clauses in target order. */
  lemma TwoTopicsTarget(a: string, b: string)
    ensures VsprintfDefined([Topic(a), Topic(b)], Some(TopicClass), Some("%s || %s"))
    ensures TargetJson([Topic(a), Topic(b)], Some(TopicClass), Some("%s || %s")) ==
              Success(JStr(InTopics(a) + " || " + InTopics(b)))
  {
    var targets := [Topic(a), Topic(b)];
    var lits := ["", " || ", ""];
    OrPattern();
    TopicCondition(targets, lits);
    assert TopicNames(targets) == [InTopics(a), InTopics(b)];
    FillTwo("", " || ", "", InTopics(a), InTopics(b));
    LeadingEmptyTwo(InTopics(a), " || ", InTopics(b));
  }

  /** That condition is the whole message. */
  lemma TwoTopicsJson(a: string, b: string)
    ensures VsprintfDefined([Topic(a), Topic(b)], Some(TopicClass), Some("%s || %s"))
    ensures WireJson([], [Topic(a), Topic(b)], Some(TopicClass), Some("%s || %s"), None, None, None, None) ==
              Success([("condition", JStr(InTopics(a) + " || " + InTopics(b)))])
  {
    TwoTopicsTarget(a, b);
    TopicChecks([Topic(a), Topic(b)], Some("%s || %s"));
    WireShape([], [Topic(a), Topic(b)], Some(TopicClass), Some("%s || %s"), None, None, None, None);
    var p := ("condition", JStr(InTopics(a) + " || " + InTopics(b)));
    assert [] + ([p] + [] + [] + [] + []) == [p];
  }

  /** Three topics under "%s || (%s && %s)". */
  lemma ThreeTopicsTarget(a: string, b: string, c: string)
    ensures VsprintfDefined([Topic(a), Topic(b), Topic(c)], Some(TopicClass), Some("%s || (%s && %s)"))
    ensures TargetJson([Topic(a), Topic(b), Topic(c)], Some(TopicClass), Some("%s || (%s && %s)")) ==
              Success(JStr(InTopics(a) + " || (" + InTopics(b) + " && " + InTopics(c) + ")"))
  {
    var targets := [Topic(a), Topic(b), Topic(c)];
    OrAndPattern();
    TopicCondition(targets, ["", " || (", " && ", ")"]);
    assert TopicNames(targets) == [InTopics(a), InTopics(b), InTopics(c)];
    FillThree("", " || (", " && ", ")", InTopics(a), InTopics(b), InTopics(c));
    LeadingEmptyThree(InTopics(a), " || (", InTopics(b), " && ", InTopics(c), ")");
  }

  /** That condition is the whole message. */
  lemma ThreeTopicsJson(a: string, b: string, c: string)
    ensures VsprintfDefined([Topic(a), Topic(b), Topic(c)], Some(TopicClass), Some("%s || (%s && %s)"))
    ensures WireJson([], [Topic(a), Topic(b), Topic(c)], Some(TopicClass), Some("%s || (%s && %s)"), None, None, None, None) ==
              Success([("condition", JStr(InTopics(a) + " || (" + InTopics(b) + " && " + InTopics(c) + ")"))])
  {
    ThreeTopicsTarget(a, b, c);
    TopicChecks([Topic(a), Topic(b), Topic(c)], Some("%s || (%s && %s)"));
    WireShape([], [Topic(a), Topic(b), Topic(c)], Some(TopicClass), Some("%s || (%s && %s)"), None, None, None, None);
    var p := ("condition", JStr(InTopics(a) + " || (" + InTopics(b) + " && " + InTopics(c) + ")"));
    assert [] + ([p] + [] + [] + [] + []) == [p];
  }

  /** Several topics and no condition. */
  lemma MissingConditionJson(a: string, b: string)
    ensures WireJson([], [Topic(a), Topic(b)], Some(TopicClass), None, None, None, None, None) ==
              Failure(MissingMultipleTopicsCondition)
  {
    TopicChecks([Topic(a), Topic(b)], None);
  }

  /** More topics than placeholders. */
  lemma TooFewPlaceholdersJson(a: string, b: string, c: string)
    ensures VsprintfDefined([Topic(a), Topic(b), Topic(c)], Some(TopicClass), Some("%s || %s"))
    ensures WireJson([], [Topic(a), Topic(b), Topic(c)], Some(TopicClass), Some("%s || %s"), None, None, None, None) ==
              Failure(CountOfTopicsDoesNotMatchConditionPattern)
  {
    OrPattern();
    SubstituteFillsInOrder(["", " || ", ""], ["", ""]);
    TruthyString(Some("%s || %s"));
    TopicChecks([Topic(a), Topic(b), Topic(c)], Some("%s || %s"));
  }

  /** Fewer topics than placeholders. */
  lemma TooManyPlaceholdersJson(a: string, b: string)
    ensures VsprintfDefined([Topic(a), Topic(b)], Some(TopicClass), Some("%s || (%s && %s)"))
    ensures WireJson([], [Topic(a), Topic(b)], Some(TopicClass), Some("%s || (%s && %s)"), None, None, None, None) ==
              Failure(CountOfTopicsDoesNotMatchConditionPattern)
  {
    OrAndPattern();
    SubstituteFillsInOrder(["", " || (", " && ", ")"], ["", "", ""]);
    TruthyString(Some("%s || (%s && %s)"));
    TopicChecks([Topic(a), Topic(b)], Some("%s || (%s && %s)"));
  }

  /** A fourth topic exceeds the limit, whatever the condition. */
  lemma TooManyTopicsJson(a: string, b: string, c: string, d: string, condition: Option<string>)
    ensures VsprintfDefined([Topic(a), Topic(b), Topic(c), Topic(d)], Some(TopicClass), condition)
    ensures WireJson([], [Topic(a), Topic(b), Topic(c), Topic(d)], Some(TopicClass), condition, None, None, None, None) ==
              Failure(ExceededLimitOfTopics)
  {
    TopicChecks([Topic(a), Topic(b), Topic(c), Topic(d)], condition);
  }

  /** Three devices: their tokens under "registration_ids", in the order they were added. */
  lemma DeviceTargetsJson(a: string, b: string, c: string)
    ensures WireJson([], [Device(a), Device(b), Device(c)], Some(DeviceClass), None, None, None, None, None) ==
              Success([("registration_ids", JList([JStr(a), JStr(b), JStr(c)]))])
  {
    var targets := [Device(a), Device(b), Device(c)];
    DeviceList(targets, None);
    assert TokenList(targets) == [JStr(a), JStr(b), JStr(c)];
    WireShape([], targets, Some(DeviceClass), None, None, None, None, None);
    var p := ("registration_ids", JList([JStr(a), JStr(b), JStr(c)]));
    assert [] + ([p] + [] + [] + [] + []) == [p];
  }

  // ----- Optional message fields --------------------------------------------

  /** A collapse key follows the recipient. */
  lemma CollapseKeyJson(name: string, key: string)
    requires key != "" && key != "0"
    ensures WireJson([], [Topic(name)], Some(TopicClass), None, Some(key), None, None, None) ==
              Success([("to", JStr("/topics/" + name)), ("collapse_key", JStr(key))])
  {
    SingleTopic(name, None);
    TruthyString(Some(key));
    WireShape([], [Topic(name)], Some(TopicClass), None, Some(key), None, None, None);
    var p := ("to", JStr("/topics/" + name));
    var q := ("collapse_key", JStr(key));
    assert PairIf(Truthy(StrOrNull(Some(key))), "collapse_key", StrOrNull(Some(key))) == [q];
    assert [] + ([p] + [q] + [] + [] + []) == [p, q];
  }

  /** A priority follows the recipient. */
  lemma PriorityJson(token: string)
    ensures WireJson([], [Device(token)], Some(DeviceClass), None, None, None, Some("high"), None) ==
              Success([("to", JStr(token)), ("priority", JStr("high"))])
  {
    SingleDevice(token, None);
    WireShape([], [Device(token)], Some(DeviceClass), None, None, None, Some("high"), None);
    var p := ("to", JStr(token));
    var q := ("priority", JStr("high"));
    assert PairIf(Truthy(StrOrNull(Some("high"))), "priority", StrOrNull(Some("high"))) == [q];
    assert [] + ([p] + [] + [] + [q] + []) == [p, q];
  }

  /** Root entries such as the time to live stay in front of the recipient. */
  lemma TimeToLiveJson(token: string, ttl: int)
    ensures WireJson([("time_to_live", JInt(ttl))], [Device(token)], Some(DeviceClass), None, None, None, None, None) ==
              Success([("time_to_live", JInt(ttl)), ("to", JStr(token))])
  {
    SingleDevice(token, None);
    WireShape([("time_to_live", JInt(ttl))], [Device(token)], Some(DeviceClass), None, None, None, None, None);
    var p := ("to", JStr(token));
    assert [("time_to_live", JInt(ttl))] + ([p] + [] + [] + [] + []) == [("time_to_live", JInt(ttl)), p];
  }

  // ----- Notifications --------------------------------------------------------

  /** The base layer of a notification with a title and a body. */
  lemma TitleBodyBase(title: string, body: string)
    requires title != "" && body != ""
    ensures BaseJson([], BaseDefaults(title, body)) == [("title", JStr(title)), ("body", JStr(body))]
  {
    BaseJsonShape([], BaseDefaults(title, body));
    EmittedOnlyTwo(BaseSteps(BaseDefaults(title, body)), 0, 1);
  }

  /** Title and body alone, for every notification class. */
  lemma MinimalNotificationJson(kind: Kind, title: string, body: string)
    requires title != "" && body != ""
    ensures NotificationJson(kind, [], BaseDefaults(title, body), DefaultDevice, DefaultAndroid, DefaultIos, DefaultJs) ==
              [("title", JStr(title)), ("body", JStr(body))]
  {
    DefaultLayers(kind, [], BaseDefaults(title, body));
    TitleBodyBase(title, body);
  }

  /** The base layer of `new FcmNotification('', '', '', $clickAction)`: the base class stores its own click action. */
  lemma ClickActionBase(clickAction: string)
    requires clickAction != ""
    ensures BaseJson([], BaseDefaults("", "").(clickAction := clickAction)) == [("click_action", JStr(clickAction))]
  {
    var b := BaseDefaults("", "").(clickAction := clickAction);
    BaseJsonShape([], b);
    EmittedOnly(BaseSteps(b), 2);
  }

  /** The base layer a subclass constructor builds from a click action alone, as written: a sound. */
  lemma ForwardedClickActionBase(clickAction: string)
    requires clickAction != ""
    ensures BaseJson([], ForwardedParentFields("", "", clickAction)) == [("sound", JStr(clickAction))]
  {
    var b := ForwardedParentFields("", "", clickAction);
    BaseJsonShape([], b);
    EmittedOnly(BaseSteps(b), 3);
  }

  /**
   * A click action given to a subclass constructor, as written: serialised as
   * `sound`, with no `click_action`.
   */
  lemma ClickActionParameterJson(kind: Kind, clickAction: string)
    requires kind != BaseKind && clickAction != ""
    ensures NotificationJson(kind, [], ForwardedParentFields("", "", clickAction),
                             DefaultDevice, DefaultAndroid, DefaultIos, DefaultJs) ==
              [("sound", JStr(clickAction))]
  {
    DefaultLayers(kind, [], ForwardedParentFields("", "", clickAction));
    ForwardedClickActionBase(clickAction);
  }

  /** The same with the corrected forwarding: serialised as `click_action`, for every subclass. */
  lemma ClickActionParameterIntendedJson(kind: Kind, clickAction: string)
    requires clickAction != ""
    ensures NotificationJson(kind, [], ForwardedParentFieldsIntended("", "", clickAction),
                             DefaultDevice, DefaultAndroid, DefaultIos, DefaultJs) ==
              [("click_action", JStr(clickAction))]
  {
    assert ForwardedParentFieldsIntended("", "", clickAction) == BaseDefaults("", "").(clickAction := clickAction);
    DefaultLayers(kind, [], ForwardedParentFieldsIntended("", "", clickAction));
    ClickActionBase(clickAction);
  }

  /** The base layer of a notification with only a title. */
  lemma TitleOnlyBase(title: string)
    requires title != ""
    ensures BaseJson([], BaseDefaults(title, "")) == [("title", JStr(title))]
  {
    BaseJsonShape([], BaseDefaults(title, ""));
    EmittedOnly(BaseSteps(BaseDefaults(title, "")), 0);
  }

  /** The silent flags on that array: `content-available` is appended, and there is no sound to remove. */
  lemma TitleOnlySilentFlags(title: string)
    ensures IosFlags([("title", JStr(title))], IosFields(None, "", true)) ==
              [("title", JStr(title)), ("content-available", JInt(1))]
  {
    var base := [("title", JStr(title))];
    assert Keys(base) == ["title"];
    PutKeys(base, "content-available", JInt(1));
    var flagged := base + [("content-available", JInt(1))];
    assert flagged == [("title", JStr(title)), ("content-available", JInt(1))];
    assert Keys(flagged) == ["title", "content-available"];
    UnsetUnique(flagged, "sound");
  }

  /** A silent iOS notification with a title: the title, then `content-available` = 1. */
  lemma SilentIosNotificationJson(title: string)
    requires title != ""
    ensures NotificationJson(IosKind, [], BaseDefaults(title, ""), DefaultDevice, DefaultAndroid,
                             IosFields(None, "", true), DefaultJs) ==
              [("title", JStr(title)), ("content-available", JInt(1))]
  {
    var base := [("title", JStr(title))];
    TitleOnlyBase(title);
    ApplyNoneFires(base, DeviceSteps(DefaultDevice));
    TitleOnlySilentFlags(title);
    ApplyNoneFires([("title", JStr(title)), ("content-available", JInt(1))], [Step(false, "sub_title", JStr(""))]);
  }

  /** That notification sent to one device. */
  lemma SilentIosMessageJson(token: string, title: string)
    requires title != ""
    ensures WireJson([], [Device(token)], Some(DeviceClass), None, None, None, None,
                     Some([("title", JStr(title)), ("content-available", JInt(1))])) ==
              Success([("to", JStr(token)), ("notification", JObj([("title", JStr(title)), ("content-available", JInt(1))]))])
  {
    SingleDevice(token, None);
    var n := [("title", JStr(title)), ("content-available", JInt(1))];
    WireShape([], [Device(token)], Some(DeviceClass), None, None, None, None, Some(n));
    var p := ("to", JStr(token));
    var q := ("notification", JObj(n));
    assert PairIf(true, "notification", ObjOrNull(Some(n))) == [q];
    assert [] + ([p] + [] + [] + [] + [q]) == [p, q];
  }

  /** The web class's icon alone. */
  lemma JsIconJson(icon: string)
    requires icon != ""
    ensures NotificationJson(JsKind, [], ForwardedParentFields("", "", ""), DefaultDevice, DefaultAndroid,
                             DefaultIos, JsFields(icon)) ==
              [("icon", JStr(icon))]
  {
    assert ForwardedParentFields("", "", "") == BaseDefaults("", "");
    BaseJsonDefaults([]);
    var steps := JsSteps(JsFields(icon));
    assert steps == [Step(true, "icon", JStr(icon))];
    assert PutIf([], true, "icon", JStr(icon)) == [("icon", JStr(icon))];
    assert Apply([], steps) == Apply([("icon", JStr(icon))], steps[1..]);
    assert steps[1..] == [];
  }

  // ----- Runs of the classes ---------------------------------------------------

  /** Mixing a topic into a device message is refused, but the topic has been appended already. */
  method MixedTargetsExample() returns (r: Outcome<FcmException>, targets: seq<Target>)
    ensures r == Fail(CanNotMixRecipientTypes)
    ensures targets == [Device("NA Palm OS"), Topic("breaking-news")]
  {
    var m := new FcmMessage();
    var first := m.AddTarget(Device("NA Palm OS"));
    r := m.AddTarget(Topic("breaking-news"));
    targets := m.targets;
  }

  /** Disabling after enabling rewrites the flag where it stands. */
  method DelayWhileIdleExample() returns (root: Obj)
    ensures root == [("delay_while_idle", JBool(false))]
  {
    var m := new FcmMessage();
    m.EnableDelayWhileIdle();
    m.DisableDelayWhileIdle();
    root := m.jsonData;
  }

  /** A message for one device, serialised twice: the same array both times. */
  method SerialiseTwiceExample(token: string) returns (first: Result<Obj, FcmException>, second: Result<Obj, FcmException>)
    ensures first == second == Success([("to", JStr(token))])
  {
    var m := new FcmMessage();
    var added := m.AddTarget(Device(token));
    SingleDevice(token, None);
    WireShape([], m.targets, m.targetType, m.condition, None, None, None, None);
    var p := ("to", JStr(token));
    assert [] + ([p] + [] + [] + [] + []) == [p];
    first := m.JsonSerialize();
    second := m.JsonSerialize();
  }

  /**
   * A click action given to the base constructor serialises as `click_action`,
   * and setting it back to the default empties the array.  Given to the Android
   * constructor, as written, it lands in the base sound, so it serialises as
   * `sound` and clearing the click action leaves that sound in place.
   */
  method ClickActionResetExample(clickAction: string) returns (given: Obj, reset: Obj, androidGiven: Obj, androidReset: Obj)
    requires clickAction != ""
    ensures given == [("click_action", JStr(clickAction))]
    ensures reset == []
    ensures androidGiven == [("sound", JStr(clickAction))]
    ensures androidReset == [("sound", JStr(clickAction))]
  {
    var n := new Notification.Base("", "", clickAction := clickAction);
    DefaultLayers(BaseKind, [], n.base);
    ClickActionBase(clickAction);
    given := n.JsonSerialize();
    n.SetClickAction("");
    EmptyNotificationJson(BaseKind);
    reset := n.JsonSerialize();

    var a := new Notification.Android(clickAction := clickAction);
    ClickActionParameterJson(AndroidKind, clickAction);
    androidGiven := a.JsonSerialize();
    a.SetClickAction("");
    assert a.base == ForwardedParentFields("", "", clickAction);
    androidReset := a.JsonSerialize();
  }

  /** Disabling content-available after enabling it stores false; as written it stores true again. */
  method ContentAvailableExample(title: string, body: string) returns (disabled: Option<Json>, asWritten: Option<Json>)
    ensures disabled == Some(JBool(false))
    ensures asWritten == Some(JBool(true))
  {
    var n := new Notification.Base(title, body);
    n.EnableContentAvailable();
    var enabled := n.base;
    n.DisableContentAvailable();
    DisabledContentAvailableIsTrue([], enabled);
    disabled := Lookup(n.JsonSerialize(), "content_available");
    var before := n.base;
    n.DisableContentAvailableAsWritten();
    DisabledContentAvailableIsTrue([], before);
    asWritten := Lookup(n.JsonSerialize(), "content_available");
  }

  /** An Android notification refuses a colour that is not #rrggbb, and keeps serialising to nothing. */
  method AndroidColorRefusalExample() returns (color: Outcome<FcmException>, json: Obj)
    ensures color == Fail(InvalidRgbFormatOfAndroidColor)
    ensures json == []
  {
    var n := new Notification.Android();
    assert !IsHexDigit("#gfffff"[1]);
    color := n.SetColor("#gfffff");
    EmptyNotificationJson(AndroidKind);
    json := n.JsonSerialize();
  }

  /** An Android notification refuses to be silenced, and keeps serialising to nothing. */
  method AndroidSilenceRefusalExample() returns (silent: Outcome<FcmException>, json: Obj)
    ensures silent == Fail(AndroidFcmNotificationCanNotBeSilenced)
    ensures json == []
  {
    var n := new Notification.Android();
    silent := n.SetSilent(true);
    EmptyNotificationJson(AndroidKind);
    json := n.JsonSerialize();
  }
}
