/**
 * The downstream message of the legacy HTTP protocol: its recipients, the
 * optional message fields and the JSON object it serialises to.  Recipients
 * become one of three keys: "to" for a single target, "registration_ids" for
 * several devices, "condition" for several topics combined by a pattern.
 */
module Messages {
  import opened Wrappers
  import opened PhpJson
  import opened Exceptions
  import opened Targets
  import opened Conditions
  import opened Notifications

  /** The legacy protocol's limits on recipients of a single message. */
  const MAX_TOPICS := 3
  const MAX_DEVICES := 1000

  /** The keys the serialiser writes on top of the root array. */
  const WireKeys: set<string> := {"to", "registration_ids", "condition", "collapse_key", "data", "priority", "notification"}

  // ----- Recipients -------------------------------------------------------

  /** Reference reading of the topic loop: one "'<topic>' in topics" clause per target, in order. */
  function TopicNames(ts: seq<Target>): (names: seq<string>)
    requires forall i :: 0 <= i < |ts| ==> ts[i].Topic?
    ensures |names| == |ts|
  {
    seq(|ts|, i requires 0 <= i < |ts| => InTopics(ts[i].topicName))
  }

  /** Reference reading of the device loop: the tokens, in order, as JSON strings. */
  function TokenList(ts: seq<Target>): (items: seq<Json>)
    requires forall i :: 0 <= i < |ts| ==> ts[i].Device?
    ensures |items| == |ts|
  {
    seq(|ts|, i requires 0 <= i < |ts| => JStr(ts[i].deviceToken))
  }

  /** The topic loop, element by element; a target with no topic name stops it with its error. */
  function TopicClauses(ts: seq<Target>): (r: Result<seq<string>, FcmException>)
    ensures r.Success? <==> forall i :: 0 <= i < |ts| ==> ts[i].Topic?
    ensures r.Success? ==> r.value == TopicNames(ts)
    ensures r.Failure? ==> r.error == UndefinedMethod("getTopicName")
    decreases |ts|
  {
    if ts == [] then Success([])
    else
      var init :- TopicClauses(ts[..|ts| - 1]);
      var name :- GetTopicName(ts[|ts| - 1]);
      Success(init + [InTopics(name)])
  }

  /** The device loop, element by element, reading each token with GetToken. */
  function DeviceTokens(ts: seq<Target>): (r: Result<seq<Json>, FcmException>)
    ensures r.Success? <==> forall i :: 0 <= i < |ts| ==> ts[i].Device?
    ensures r.Success? ==> r.value == TokenList(ts)
    ensures r.Failure? ==> r.error == UndefinedMethod("getToken")
    decreases |ts|
  {
    if ts == [] then Success([])
    else
      var init :- DeviceTokens(ts[..|ts| - 1]);
      var token :- GetToken(ts[|ts| - 1]);
      Success(init + [JStr(token)])
  }

  /**
   * vsprintf is modelled for "%s" conversions only: whenever the condition
   * reaches vsprintf, its every '%' must begin a "%s".
   */
  predicate VsprintfDefined(targets: seq<Target>, targetType: Option<TargetClass>, condition: Option<string>) {
    (targetType == Some(TopicClass) && 1 < |targets| <= MAX_TOPICS && Truthy(StrOrNull(condition)) &&
     |targets| == CountPlaceholders(condition.value))
      ==> PercentOnlyInPlaceholders(condition.value)
  }

  /**
   * `createTargetForJson()`: the recipient value, or the first check that fails.
   * The first target decides for a single recipient; a class other than the two
   * known ones yields null.
   */
  function TargetJson(targets: seq<Target>, targetType: Option<TargetClass>, condition: Option<string>): Result<Json, FcmException>
    requires VsprintfDefined(targets, targetType, condition)
  {
    if |targets| == 0 then Failure(MissingTargets)
    else if targetType == Some(TopicClass) then
      if |targets| == 1 then
        var name :- GetTopicName(targets[0]);
        Success(JStr("/topics/" + name))
      else if |targets| > MAX_TOPICS then Failure(ExceededLimitOfTopics)
      else if !Truthy(StrOrNull(condition)) then Failure(MissingMultipleTopicsCondition)
      else if |targets| != CountPlaceholders(condition.value) then Failure(CountOfTopicsDoesNotMatchConditionPattern)
      else
        var names :- TopicClauses(targets);
        Success(JStr(Substitute(condition.value, names)))
    else if targetType == Some(DeviceClass) then
      if |targets| == 1 then
        var token :- GetToken(targets[0]);
        Success(JStr(token))
      else if |targets| > MAX_DEVICES then Failure(ExceededLimitOfDevices)
      else
        var tokens :- DeviceTokens(targets);
        Success(JList(tokens))
    else Success(JNull)
  }

  /**
   * The token loop as written. Its first `getToken()` call throws, so the loop
   * ends there on any non-empty list, and only an empty list gives no error.
   */
  function DeviceTokensAsWritten(ts: seq<Target>): (r: Result<seq<Json>, FcmException>)
    requires forall i :: 0 <= i < |ts| ==> ts[i].Device?
    ensures ts == [] ==> r == Success([])
    ensures ts != [] ==> r == Failure(UndefinedMethod("getToken"))
  {
    if ts == [] then Success([]) else Failure(GetTokenAsWritten(ts[0]).error)
  }

  /** The device branch of `createTargetForJson()` as written, reading tokens with GetTokenAsWritten. */
  function DeviceTargetJsonAsWritten(targets: seq<Target>): (r: Result<Json, FcmException>)
    requires targets != [] && forall i :: 0 <= i < |targets| ==> targets[i].Device?
    ensures r.Failure?
    ensures r.error == if 1 < |targets| && |targets| > MAX_DEVICES then ExceededLimitOfDevices
                       else UndefinedMethod("getToken")
  {
    if |targets| == 1 then
      match GetTokenAsWritten(targets[0])
      case Failure(e) => Failure(e)
      case Success(token) => Success(JStr(token))
    else if |targets| > MAX_DEVICES then Failure(ExceededLimitOfDevices)
    else
      match DeviceTokensAsWritten(targets)
      case Failure(e) => Failure(e)
      case Success(tokens) => Success(JList(tokens))
  }

  /** The key the recipient value is stored under. */
  function TargetKey(targets: seq<Target>, targetType: Option<TargetClass>): (k: string)
    ensures k in {"to", "registration_ids", "condition"}
  {
    if |targets| == 1 then "to"
    else if targetType == Some(DeviceClass) then "registration_ids"
    else "condition"
  }

  /** A nullable array field as a JSON value. */
  function ObjOrNull(x: Option<Obj>): Json {
    match x
    case None => JNull
    case Some(o) => JObj(o)
  }

  /**
   * The lines of `jsonSerialize()`: the recipient always, then collapse key,
   * data and priority when truthy, then the notification when one is set (an
   * object is always truthy, even one that serialises to an empty array).
   */
  function WireSteps(key: string, target: Json, collapseKey: Option<string>, data: Option<Obj>,
                     priority: Option<string>, notification: Option<Obj>): seq<Step>
  {
    [Step(true, key, target),
     Step(Truthy(StrOrNull(collapseKey)), "collapse_key", StrOrNull(collapseKey)),
     Step(Truthy(ObjOrNull(data)), "data", ObjOrNull(data)),
     Step(Truthy(StrOrNull(priority)), "priority", StrOrNull(priority)),
     Step(notification.Some?, "notification", ObjOrNull(notification))]
  }

  /** `jsonSerialize()` of the message: the root array with the wire fields written over it. */
  function WireJson(root: Obj, targets: seq<Target>, targetType: Option<TargetClass>, condition: Option<string>,
                    collapseKey: Option<string>, data: Option<Obj>, priority: Option<string>,
                    notification: Option<Obj>): Result<Obj, FcmException>
    requires VsprintfDefined(targets, targetType, condition)
  {
    var target :- TargetJson(targets, targetType, condition);
    Success(Apply(root, WireSteps(TargetKey(targets, targetType), target, collapseKey, data, priority, notification)))
  }

  /** The serialiser's steps, run one after another. */
  lemma WireApply(root: Obj, key: string, target: Json, collapseKey: Option<string>, data: Option<Obj>,
                  priority: Option<string>, notification: Option<Obj>)
    ensures Apply(root, WireSteps(key, target, collapseKey, data, priority, notification)) ==
              PutIf(PutIf(PutIf(PutIf(Put(root, key, target),
                                      Truthy(StrOrNull(collapseKey)), "collapse_key", StrOrNull(collapseKey)),
                                Truthy(ObjOrNull(data)), "data", ObjOrNull(data)),
                          Truthy(StrOrNull(priority)), "priority", StrOrNull(priority)),
                    notification.Some?, "notification", ObjOrNull(notification))
  {
    var steps := WireSteps(key, target, collapseKey, data, priority, notification);
    var o1 := PutIf(root, true, key, target);
    var o2 := PutIf(o1, steps[1].when, steps[1].key, steps[1].value);
    var o3 := PutIf(o2, steps[2].when, steps[2].key, steps[2].value);
    var o4 := PutIf(o3, steps[3].when, steps[3].key, steps[3].value);
    var o5 := PutIf(o4, steps[4].when, steps[4].key, steps[4].value);
    assert Apply(root, steps) == Apply(o1, steps[1..]);
    assert Apply(o1, steps[1..]) == Apply(o2, steps[2..]);
    assert Apply(o2, steps[2..]) == Apply(o3, steps[3..]);
    assert Apply(o3, steps[3..]) == Apply(o4, steps[4..]);
    assert Apply(o4, steps[4..]) == Apply(o5, steps[5..]);
  }

  // ----- Properties of the recipient value ---------------------------------

  /** A message without recipients cannot be serialised. */
  lemma NoTargetsFail(root: Obj, targetType: Option<TargetClass>, condition: Option<string>,
                      collapseKey: Option<string>, data: Option<Obj>, priority: Option<string>, notification: Option<Obj>)
    ensures WireJson(root, [], targetType, condition, collapseKey, data, priority, notification) == Failure(MissingTargets)
  {
  }

  /** One topic goes to "/topics/<name>", whatever the condition says. */
  lemma SingleTopic(name: string, condition: Option<string>)
    ensures TargetJson([Topic(name)], Some(TopicClass), condition) == Success(JStr("/topics/" + name))
    ensures TargetKey([Topic(name)], Some(TopicClass)) == "to"
  {
  }

  /** One device goes to its token, whatever the condition says. */
  lemma SingleDevice(token: string, condition: Option<string>)
    ensures TargetJson([Device(token)], Some(DeviceClass), condition) == Success(JStr(token))
    ensures TargetKey([Device(token)], Some(DeviceClass)) == "to"
  {
  }

  /**
   * The checks on several topics, in the order they are made: the limit before
   * the condition, the condition's presence before its placeholder count, and
   * the count before any topic name is read.
   */
  lemma TopicChecks(targets: seq<Target>, condition: Option<string>)
    requires |targets| > 1
    requires VsprintfDefined(targets, Some(TopicClass), condition)
    ensures |targets| > MAX_TOPICS ==>
              TargetJson(targets, Some(TopicClass), condition) == Failure(ExceededLimitOfTopics)
    ensures |targets| <= MAX_TOPICS && !Truthy(StrOrNull(condition)) ==>
              TargetJson(targets, Some(TopicClass), condition) == Failure(MissingMultipleTopicsCondition)
    ensures |targets| <= MAX_TOPICS && Truthy(StrOrNull(condition)) && |targets| != CountPlaceholders(condition.value) ==>
              TargetJson(targets, Some(TopicClass), condition) == Failure(CountOfTopicsDoesNotMatchConditionPattern)
    ensures |targets| <= MAX_TOPICS && Truthy(StrOrNull(condition)) && |targets| == CountPlaceholders(condition.value) ==>
              (TargetJson(targets, Some(TopicClass), condition).Success? <==> forall i :: 0 <= i < |targets| ==> targets[i].Topic?)
    ensures TargetKey(targets, Some(TopicClass)) == "condition"
  {
  }

  /**
   * A condition written as literal text around "%s" placeholders, one per topic,
   * comes out with the topics' clauses in the placeholders, in target order.
   */
  lemma TopicCondition(targets: seq<Target>, lits: seq<string>)
    requires 1 < |targets| <= MAX_TOPICS
    requires forall i :: 0 <= i < |targets| ==> targets[i].Topic?
    requires |lits| == |targets| + 1 && forall i :: 0 <= i < |lits| ==> NoPercent(lits[i])
    ensures VsprintfDefined(targets, Some(TopicClass), Some(Fill(lits, Placeholders(|targets|))))
    ensures TargetJson(targets, Some(TopicClass), Some(Fill(lits, Placeholders(|targets|)))) ==
              Success(JStr(Fill(lits, TopicNames(targets))))
  {
    var pattern := Fill(lits, Placeholders(|targets|));
    SubstituteFillsInOrder(lits, TopicNames(targets));
    assert |pattern| >= 4;
    TruthyString(Some(pattern));
  }

  /** Several devices, up to the limit, go to "registration_ids" as their tokens in order; above it, an error. */
  lemma DeviceList(targets: seq<Target>, condition: Option<string>)
    requires |targets| > 1
    requires forall i :: 0 <= i < |targets| ==> targets[i].Device?
    ensures |targets| <= MAX_DEVICES ==>
              TargetJson(targets, Some(DeviceClass), condition) == Success(JList(TokenList(targets)))
    ensures |targets| > MAX_DEVICES ==>
              TargetJson(targets, Some(DeviceClass), condition) == Failure(ExceededLimitOfDevices)
    ensures TargetKey(targets, Some(DeviceClass)) == "registration_ids"
  {
  }

  /**
   * Any device message within the limit: as written its recipient value fails
   * with the undefined `getToken()`, so `jsonSerialize()`, whose first
   * statement computes it, throws; the corrected read gives the tokens.
   */
  lemma DeviceTargetsFailAsWritten(targets: seq<Target>, condition: Option<string>)
    requires 1 <= |targets| <= MAX_DEVICES
    requires forall i :: 0 <= i < |targets| ==> targets[i].Device?
    ensures DeviceTargetJsonAsWritten(targets) == Failure(UndefinedMethod("getToken"))
    ensures TargetJson(targets, Some(DeviceClass), condition) ==
              Success(if |targets| == 1 then JStr(targets[0].deviceToken) else JList(TokenList(targets)))
    ensures WireJson([], targets, Some(DeviceClass), condition, None, None, None, None).Success?
  {
    if |targets| == 1 {
      assert targets == [Device(targets[0].deviceToken)];
      SingleDevice(targets[0].deviceToken, condition);
    } else {
      DeviceList(targets, condition);
    }
  }

  /** Targets of an unknown class yield a null recipient under "to" or "condition". */
  lemma OtherTargets(targets: seq<Target>, name: string, condition: Option<string>)
    requires targets != []
    ensures TargetJson(targets, Some(OtherClass(name)), condition) == Success(JNull)
    ensures TargetKey(targets, Some(OtherClass(name))) == if |targets| == 1 then "to" else "condition"
  {
  }

  // ----- Properties of the serialised message ------------------------------

  lemma WireStepsKeys(key: string, target: Json, collapseKey: Option<string>, data: Option<Obj>,
                      priority: Option<string>, notification: Option<Obj>)
    requires key in {"to", "registration_ids", "condition"}
    ensures var steps := WireSteps(key, target, collapseKey, data, priority, notification);
            (forall i, j :: 0 <= i < j < |steps| ==> steps[i].key != steps[j].key) &&
            (forall i :: 0 <= i < |steps| ==> steps[i].key in WireKeys)
  {
  }

  /**
   * A serialised message holds the recipient under its key and each optional
   * field exactly when it is truthy (the notification when set); otherwise the
   * root's entry under that key, if any, stays.
   */
  lemma WireFields(root: Obj, targets: seq<Target>, targetType: Option<TargetClass>, condition: Option<string>,
                   collapseKey: Option<string>, data: Option<Obj>, priority: Option<string>, notification: Option<Obj>)
    requires VsprintfDefined(targets, targetType, condition)
    requires TargetJson(targets, targetType, condition).Success?
    ensures var r := WireJson(root, targets, targetType, condition, collapseKey, data, priority, notification);
            r.Success? &&
            Lookup(r.value, TargetKey(targets, targetType)) == Some(TargetJson(targets, targetType, condition).value) &&
            Lookup(r.value, "collapse_key") ==
              (if collapseKey.Some? && collapseKey.value != "" && collapseKey.value != "0"
               then Some(JStr(collapseKey.value)) else Lookup(root, "collapse_key")) &&
            Lookup(r.value, "data") ==
              (if data.Some? && data.value != [] then Some(JObj(data.value)) else Lookup(root, "data")) &&
            Lookup(r.value, "priority") ==
              (if priority.Some? && priority.value != "" && priority.value != "0"
               then Some(JStr(priority.value)) else Lookup(root, "priority")) &&
            Lookup(r.value, "notification") ==
              (if notification.Some? then Some(JObj(notification.value)) else Lookup(root, "notification"))
  {
    var target := TargetJson(targets, targetType, condition).value;
    var key := TargetKey(targets, targetType);
    var steps := WireSteps(key, target, collapseKey, data, priority, notification);
    WireStepsKeys(key, target, collapseKey, data, priority, notification);
    TruthyString(collapseKey);
    TruthyString(priority);
    ApplyDistinct(root, steps, 0);
    ApplyDistinct(root, steps, 1);
    ApplyDistinct(root, steps, 2);
    ApplyDistinct(root, steps, 3);
    ApplyDistinct(root, steps, 4);
  }

  /**
   * The serialiser builds on the root array: its keys keep their order, every
   * key the serialiser does not write keeps its value, and no key is doubled.
   */
  lemma WireKeepsRoot(root: Obj, targets: seq<Target>, targetType: Option<TargetClass>, condition: Option<string>,
                      collapseKey: Option<string>, data: Option<Obj>, priority: Option<string>, notification: Option<Obj>)
    requires VsprintfDefined(targets, targetType, condition)
    requires WireJson(root, targets, targetType, condition, collapseKey, data, priority, notification).Success?
    ensures var r := WireJson(root, targets, targetType, condition, collapseKey, data, priority, notification).value;
            Keys(root) <= Keys(r) &&
            (forall k :: k !in WireKeys ==> Lookup(r, k) == Lookup(root, k)) &&
            (UniqueKeys(root) ==> UniqueKeys(r))
  {
    var target := TargetJson(targets, targetType, condition).value;
    var key := TargetKey(targets, targetType);
    var steps := WireSteps(key, target, collapseKey, data, priority, notification);
    WireStepsKeys(key, target, collapseKey, data, priority, notification);
    ApplyKeepsOrder(root, steps);
    forall k | k !in WireKeys
      ensures Lookup(Apply(root, steps), k) == Lookup(root, k)
    {
      ApplyOther(root, steps, k);
    }
    if UniqueKeys(root) {
      ApplyUnique(root, steps);
    }
  }

  /** The pairs the serialiser's lines contribute, one line at a time. */
  lemma WireEmitted(key: string, target: Json, collapseKey: Option<string>, data: Option<Obj>,
                    priority: Option<string>, notification: Option<Obj>)
    ensures Emitted(WireSteps(key, target, collapseKey, data, priority, notification)) ==
              [(key, target)] +
              PairIf(Truthy(StrOrNull(collapseKey)), "collapse_key", StrOrNull(collapseKey)) +
              PairIf(Truthy(ObjOrNull(data)), "data", ObjOrNull(data)) +
              PairIf(Truthy(StrOrNull(priority)), "priority", StrOrNull(priority)) +
              PairIf(notification.Some?, "notification", ObjOrNull(notification))
  {
    var steps := WireSteps(key, target, collapseKey, data, priority, notification);
    var p1 := PairIf(steps[1].when, steps[1].key, steps[1].value);
    var p2 := PairIf(steps[2].when, steps[2].key, steps[2].value);
    var p3 := PairIf(steps[3].when, steps[3].key, steps[3].value);
    var p4 := PairIf(steps[4].when, steps[4].key, steps[4].value);
    assert Emitted(steps[4..]) == p4 + Emitted(steps[5..]);
    assert Emitted(steps[3..]) == p3 + Emitted(steps[4..]);
    assert Emitted(steps[2..]) == p2 + Emitted(steps[3..]);
    assert Emitted(steps[1..]) == p1 + Emitted(steps[2..]);
    assert Emitted(steps) == [(key, target)] + Emitted(steps[1..]);
    assert Emitted(steps) == [(key, target)] + (p1 + (p2 + (p3 + (p4 + []))));
    assert p4 + [] == p4;
    AppendAssoc(p2, p3, p4);
    AppendAssoc(p1, p2 + p3, p4);
    AppendAssoc(p1, p2, p3);
    AppendAssoc([(key, target)], p1 + p2 + p3, p4);
    AppendAssoc([(key, target)], p1 + p2, p3);
    AppendAssoc([(key, target)], p1, p2);
  }

  /**
   * On a root array without any of the wire keys, the serialiser appends the
   * recipient and then each optional field that is present, in its line order.
   */
  lemma WireShape(root: Obj, targets: seq<Target>, targetType: Option<TargetClass>, condition: Option<string>,
                  collapseKey: Option<string>, data: Option<Obj>, priority: Option<string>, notification: Option<Obj>)
    requires VsprintfDefined(targets, targetType, condition)
    requires TargetJson(targets, targetType, condition).Success?
    requires forall k :: k in Keys(root) ==> k !in WireKeys
    ensures WireJson(root, targets, targetType, condition, collapseKey, data, priority, notification) ==
              Success(root + ([(TargetKey(targets, targetType), TargetJson(targets, targetType, condition).value)] +
                              PairIf(Truthy(StrOrNull(collapseKey)), "collapse_key", StrOrNull(collapseKey)) +
                              PairIf(Truthy(ObjOrNull(data)), "data", ObjOrNull(data)) +
                              PairIf(Truthy(StrOrNull(priority)), "priority", StrOrNull(priority)) +
                              PairIf(notification.Some?, "notification", ObjOrNull(notification))))
  {
    var target := TargetJson(targets, targetType, condition).value;
    var key := TargetKey(targets, targetType);
    WireStepsKeys(key, target, collapseKey, data, priority, notification);
    ApplyAppends(root, WireSteps(key, target, collapseKey, data, priority, notification));
    WireEmitted(key, target, collapseKey, data, priority, notification);
  }

  // ----- The message ------------------------------------------------------

  /** All targets are of one class. */
  predicate SameClass(ts: seq<Target>) {
    forall i :: 0 <= i < |ts| ==> ClassOf(ts[i]) == ClassOf(ts[0])
  }

  class FcmMessage {
    var jsonData: Obj
    var notification: Notification?
    var collapseKey: Option<string>
    var priority: Option<string>
    var data: Option<Obj>
    var targets: seq<Target>
    var targetType: Option<TargetClass>
    var condition: Option<string>

    /**
     * The root array has unique keys, and the target type is set exactly when a
     * target was added, from the first one.
     */
    predicate Valid()
      reads this
    {
      UniqueKeys(jsonData) &&
      (targets == [] <==> targetType.None?) &&
      (targets != [] ==> targetType == Some(ClassOf(targets[0])))
    }

    constructor ()
      ensures Valid()
      ensures jsonData == [] && notification == null && targets == [] && targetType == None
      ensures collapseKey == None && priority == None && data == None && condition == None
    {
      jsonData := [];
      notification := null;
      collapseKey := None;
      priority := None;
      data := None;
      targets := [];
      targetType := None;
      condition := None;
    }

    /**
     * `addTarget()`: the target is appended and the type fixed by the first one
     * before the class is compared, so a refused target stays in the list.
     */
    method AddTarget(t: Target) returns (r: Outcome<FcmException>)
      requires Valid()
      modifies this`targets, this`targetType
      ensures Valid()
      ensures targets == old(targets) + [t]
      ensures targetType == if old(targetType).None? then Some(ClassOf(t)) else old(targetType)
      ensures r.Fail? <==> old(targetType).Some? && old(targetType).value != ClassOf(t)
      ensures r.Fail? ==> r.error == CanNotMixRecipientTypes
      ensures r.Pass? && SameClass(old(targets)) ==> SameClass(targets)
    {
      targets := targets + [t];
      if targetType.None? {
        targetType := Some(ClassOf(t));
      }
      if targetType.value != ClassOf(t) {
        return Fail(CanNotMixRecipientTypes);
      }
      return Pass;
    }

    method SetNotification(n: Notification)
      modifies this`notification
      ensures notification == n
    {
      notification := n;
    }

    method SetCollapseKey(key: string)
      modifies this`collapseKey
      ensures collapseKey == Some(key)
    {
      collapseKey := Some(key);
    }

    method SetPriority(p: string)
      modifies this`priority
      ensures priority == Some(p)
    {
      priority := Some(p);
    }

    method SetData(d: Obj)
      modifies this`data
      ensures data == Some(d)
    {
      data := Some(d);
    }

    method SetCondition(c: string)
      modifies this`condition
      ensures condition == Some(c)
    {
      condition := Some(c);
    }

    // ----- The root array --------------------------------------------------

    method SetJsonDataValue(key: string, value: Json)
      requires Valid()
      modifies this`jsonData
      ensures Valid()
      ensures jsonData == Put(old(jsonData), key, value)
    {
      PutUnique(jsonData, key, value);
      jsonData := Put(jsonData, key, value);
    }

    method DeleteJsonDataItem(key: string)
      requires Valid()
      modifies this`jsonData
      ensures Valid()
      ensures jsonData == Unset(old(jsonData), key)
    {
      UnsetUnique(jsonData, key);
      jsonData := Unset(jsonData, key);
    }

    /** `getJsonDataItem()`: the stored value; a missing key reads as null (after PHP's notice). */
    function GetJsonDataItem(key: string): (v: Json)
      reads this`jsonData
      ensures key in Keys(jsonData) ==> Lookup(jsonData, key) == Some(v)
      ensures key !in Keys(jsonData) ==> v == JNull
    {
      LookupNoneIffAbsent(jsonData, key);
      match Lookup(jsonData, key)
      case Some(x) => x
      case None => JNull
    }

    /** `setJsonData()`: the root array is replaced as a whole. */
    method SetJsonData(a: Obj)
      requires Valid() && UniqueKeys(a)
      modifies this`jsonData
      ensures Valid()
      ensures jsonData == a
    {
      jsonData := a;
    }

    method EnableDelayWhileIdle()
      requires Valid()
      modifies this`jsonData
      ensures Valid()
      ensures jsonData == Put(old(jsonData), "delay_while_idle", JBool(true))
    {
      SetJsonDataValue("delay_while_idle", JBool(true));
    }

    method DisableDelayWhileIdle()
      requires Valid()
      modifies this`jsonData
      ensures Valid()
      ensures jsonData == Put(old(jsonData), "delay_while_idle", JBool(false))
    {
      SetJsonDataValue("delay_while_idle", JBool(false));
    }

    method SetTimeToLive(value: int)
      requires Valid()
      modifies this`jsonData
      ensures Valid()
      ensures jsonData == Put(old(jsonData), "time_to_live", JInt(value))
    {
      SetJsonDataValue("time_to_live", JInt(value));
    }

    // ----- Serialisation ---------------------------------------------------

    /** The notification as the serialiser embeds it. */
    function NotificationValue(): (r: Option<Obj>)
      reads this, notification
      ensures r.Some? <==> notification != null
    {
      if notification == null then None else Some(notification.JsonSerialize())
    }

    /** `createTargetForJson()`, with the two loops over the targets. */
    method CreateTargetForJson() returns (r: Result<Json, FcmException>)
      requires VsprintfDefined(targets, targetType, condition)
      ensures r == TargetJson(targets, targetType, condition)
    {
      var count := |targets|;
      if count == 0 {
        return Failure(MissingTargets);
      }
      if targetType == Some(TopicClass) {
        if count == 1 {
          var name := GetTopicName(targets[0]);
          if name.Failure? {
            return Failure(name.error);
          }
          return Success(JStr("/topics/" + name.value));
        }
        if count > MAX_TOPICS {
          return Failure(ExceededLimitOfTopics);
        }
        if !Truthy(StrOrNull(condition)) {
          return Failure(MissingMultipleTopicsCondition);
        }
        if count != CountPlaceholders(condition.value) {
          return Failure(CountOfTopicsDoesNotMatchConditionPattern);
        }
        var names: seq<string> := [];
        var i := 0;
        while i < count
          invariant 0 <= i <= count
          invariant TopicClauses(targets[..i]) == Success(names)
        {
          var name := GetTopicName(targets[i]);
          if name.Failure? {
            assert !targets[i].Topic?;
            return Failure(name.error);
          }
          assert targets[..i + 1][..i] == targets[..i];
          names := names + [InTopics(name.value)];
          i := i + 1;
        }
        assert targets[..i] == targets;
        return Success(JStr(Substitute(condition.value, names)));
      }
      if targetType == Some(DeviceClass) {
        if count == 1 {
          var token := GetToken(targets[0]);
          if token.Failure? {
            return Failure(token.error);
          }
          return Success(JStr(token.value));
        }
        if count > MAX_DEVICES {
          return Failure(ExceededLimitOfDevices);
        }
        var tokens: seq<Json> := [];
        var i := 0;
        while i < count
          invariant 0 <= i <= count
          invariant DeviceTokens(targets[..i]) == Success(tokens)
        {
          var token := GetToken(targets[i]);
          if token.Failure? {
            assert !targets[i].Device?;
            return Failure(token.error);
          }
          assert targets[..i + 1][..i] == targets[..i];
          tokens := tokens + [JStr(token.value)];
          i := i + 1;
        }
        assert targets[..i] == targets;
        return Success(JList(tokens));
      }
      return Success(JNull);
    }

    /** `jsonSerialize()`: the root array with the recipient and the optional fields written in. */
    method JsonSerialize() returns (r: Result<Obj, FcmException>)
      requires VsprintfDefined(targets, targetType, condition)
      ensures r == WireJson(jsonData, targets, targetType, condition, collapseKey, data, priority, NotificationValue())
    {
      var target := CreateTargetForJson();
      if target.Failure? {
        return Failure(target.error);
      }
      // Each optional line is `if (<field>) { $json[<key>] = <field>; }`, that is, a PutIf.
      var json := Put(jsonData, TargetKey(targets, targetType), target.value);
      json := PutIf(json, Truthy(StrOrNull(collapseKey)), "collapse_key", StrOrNull(collapseKey));
      json := PutIf(json, Truthy(ObjOrNull(data)), "data", ObjOrNull(data));
      json := PutIf(json, Truthy(StrOrNull(priority)), "priority", StrOrNull(priority));
      var n := NotificationValue();
      json := PutIf(json, n.Some?, "notification", ObjOrNull(n));
      WireApply(jsonData, TargetKey(targets, targetType), target.value, collapseKey, data, priority, NotificationValue());
      return Success(json);
    }
  }
}
