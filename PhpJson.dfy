/**
 * The values a payload is built from, as json_encode sees them: a PHP array
 * with string keys is an ordered list of (key, value) pairs.  Assigning an
 * existing key replaces its value where it stands, assigning a new key
 * appends it, and unset removes it.
 */
module PhpJson {
  import opened Wrappers

  datatype Json =
    | JNull
    | JBool(b: bool)
    | JInt(i: int)
    | JStr(s: string)
    | JList(items: seq<Json>)
    | JObj(members: seq<(string, Json)>)

  /** A PHP array with string keys, in insertion order. */
  type Obj = seq<(string, Json)>

  /** The keys of an array, in its order. */
  function Keys(o: Obj): (ks: seq<string>)
    ensures |ks| == |o|
    ensures forall i :: 0 <= i < |o| ==> ks[i] == o[i].0
  {
    if o == [] then [] else [o[0].0] + Keys(o[1..])
  }

  /** Every key occurs once, as in any PHP array. */
  predicate UniqueKeys(o: Obj) {
    o == [] || (o[0].0 !in Keys(o[1..]) && UniqueKeys(o[1..]))
  }

  /** `$o[$k]` for a key that may be missing. */
  function Lookup(o: Obj, k: string): Option<Json> {
    if o == [] then None
    else if o[0].0 == k then Some(o[0].1)
    else Lookup(o[1..], k)
  }

  /** A lookup fails exactly for the keys the array does not hold. */
  lemma {:induction false} LookupNoneIffAbsent(o: Obj, k: string)
    ensures Lookup(o, k).None? <==> k !in Keys(o)
  {
    if o != [] {
      LookupNoneIffAbsent(o[1..], k);
    }
  }

  /** `$o[$k] = $v;` */
  function Put(o: Obj, k: string, v: Json): (r: Obj)
    ensures Lookup(r, k) == Some(v)
    ensures forall k' :: k' != k ==> Lookup(r, k') == Lookup(o, k')
  {
    if o == [] then [(k, v)]
    else if o[0].0 == k then [(k, v)] + o[1..]
    else [o[0]] + Put(o[1..], k, v)
  }

  /** Sequence concatenation is associative. */
  lemma AppendAssoc<T>(a: seq<T>, b: seq<T>, c: seq<T>)
    ensures (a + b) + c == a + (b + c)
  {
  }

  /**
   * Assignment keeps the key order: an existing key keeps its place and a new
   * key goes to the end, after everything already there.
   */
  lemma {:induction false} PutKeys(o: Obj, k: string, v: Json)
    ensures Keys(Put(o, k, v)) == if k in Keys(o) then Keys(o) else Keys(o) + [k]
    ensures k !in Keys(o) ==> Put(o, k, v) == o + [(k, v)]
  {
    if o != [] && o[0].0 != k {
      PutKeys(o[1..], k, v);
      assert o == [o[0]] + o[1..];
      AppendAssoc([o[0].0], Keys(o[1..]), [k]);
      AppendAssoc([o[0]], o[1..], [(k, v)]);
    }
  }

  /** Assignment never creates a duplicate key. */
  lemma {:induction false} PutUnique(o: Obj, k: string, v: Json)
    requires UniqueKeys(o)
    ensures UniqueKeys(Put(o, k, v))
  {
    if o != [] && o[0].0 != k {
      PutUnique(o[1..], k, v);
      PutKeys(o[1..], k, v);
      assert Put(o, k, v)[1..] == Put(o[1..], k, v);
    }
  }

  /** `if ($c) { $o[$k] = $v; }` */
  function PutIf(o: Obj, c: bool, k: string, v: Json): (r: Obj)
    ensures forall k' :: Lookup(r, k') == if c && k' == k then Some(v) else Lookup(o, k')
  {
    if c then Put(o, k, v) else o
  }

  /** A conditional assignment to an absent key appends its pair, or nothing. */
  lemma PutIfAbsent(o: Obj, c: bool, k: string, v: Json)
    requires Lookup(o, k).None?
    ensures PutIf(o, c, k, v) == o + PairIf(c, k, v)
  {
    LookupNoneIffAbsent(o, k);
    PutKeys(o, k, v);
  }

  lemma PutIfUnique(o: Obj, c: bool, k: string, v: Json)
    requires UniqueKeys(o)
    ensures UniqueKeys(PutIf(o, c, k, v))
  {
    if c { PutUnique(o, k, v); }
  }

  /** Assigning to a key that is already there leaves the key order as it was. */
  lemma PutIfPresentKeys(o: Obj, c: bool, k: string, v: Json)
    requires Lookup(o, k).Some?
    ensures Keys(PutIf(o, c, k, v)) == Keys(o)
  {
    LookupNoneIffAbsent(o, k);
    PutKeys(o, k, v);
  }

  /** None of the keys ks is in the array. */
  predicate NoneOf(o: Obj, ks: seq<string>) {
    forall i :: 0 <= i < |ks| ==> Lookup(o, ks[i]).None?
  }

  /** `unset($o[$k]);` */
  function Unset(o: Obj, k: string): (r: Obj)
    ensures Lookup(r, k) == None
    ensures forall k' :: k' != k ==> Lookup(r, k') == Lookup(o, k')
  {
    if o == [] then []
    else if o[0].0 == k then Unset(o[1..], k)
    else [o[0]] + Unset(o[1..], k)
  }

  /** Unsetting removes exactly the pairs on key k. */
  lemma {:induction false} UnsetPairs(o: Obj, k: string)
    ensures forall p :: p in Unset(o, k) <==> p in o && p.0 != k
  {
    if o != [] {
      UnsetPairs(o[1..], k);
      assert o == [o[0]] + o[1..];
    }
  }

  /** Unsetting never creates a duplicate key, and unsetting an absent key changes nothing. */
  lemma {:induction false} UnsetUnique(o: Obj, k: string)
    ensures k !in Keys(o) ==> Unset(o, k) == o
    ensures UniqueKeys(o) ==> UniqueKeys(Unset(o, k))
  {
    if o != [] {
      UnsetUnique(o[1..], k);
      UnsetKeysSub(o[1..], k, o[0].0);
      if o[0].0 != k {
        assert o == [o[0]] + o[1..];
      }
    }
  }

  lemma {:induction false} UnsetKeysSub(o: Obj, k: string, x: string)
    ensures x !in Keys(o) ==> x !in Keys(Unset(o, k))
  {
    if o != [] {
      UnsetKeysSub(o[1..], k, x);
    }
  }

  /** The pair list a conditional assignment to an absent key appends. */
  function PairIf(c: bool, k: string, v: Json): Obj {
    if c then [(k, v)] else []
  }

  /** PHP's truthiness, as `if ($v)` tests it: "" and "0" are falsy strings and [] the falsy array. */
  predicate Truthy(v: Json) {
    match v
    case JNull => false
    case JBool(b) => b
    case JInt(i) => i != 0
    case JStr(s) => s != "" && s != "0"
    case JList(items) => items != []
    case JObj(members) => members != []
  }

  /** A nullable string field as a JSON value. */
  function StrOrNull(x: Option<string>): Json {
    match x
    case None => JNull
    case Some(s) => JStr(s)
  }

  /** A nullable boolean field as a JSON value. */
  function BoolOrNull(x: Option<bool>): Json {
    match x
    case None => JNull
    case Some(b) => JBool(b)
  }

  lemma TruthyString(x: Option<string>)
    ensures Truthy(StrOrNull(x)) <==> x.Some? && x.value != "" && x.value != "0"
  {
  }

  /**
   * One line of a serialiser: `if (<when>) { $json['<key>'] = <value>; }`.
   * A serialiser layer is a list of these, run top to bottom.
   */
  datatype Step = Step(when: bool, key: string, value: Json)

  function Apply(o: Obj, steps: seq<Step>): Obj
    decreases |steps|
  {
    if steps == [] then o else Apply(PutIf(o, steps[0].when, steps[0].key, steps[0].value), steps[1..])
  }

  /** The value the last step that fires on key k writes, if any step does. */
  function Assigned(steps: seq<Step>, k: string): Option<Json>
    decreases |steps|
  {
    if steps == [] then None
    else
      var later := Assigned(steps[1..], k);
      if later.Some? then later
      else if steps[0].when && steps[0].key == k then Some(steps[0].value)
      else None
  }

  /** The pairs the firing steps contribute, in step order. */
  function Emitted(steps: seq<Step>): Obj
    decreases |steps|
  {
    if steps == [] then []
    else PairIf(steps[0].when, steps[0].key, steps[0].value) + Emitted(steps[1..])
  }

  /** Running the steps writes each key with the last value a firing step gives it; other keys keep theirs. */
  lemma {:induction false} ApplyLookup(o: Obj, steps: seq<Step>, k: string)
    ensures Lookup(Apply(o, steps), k) == if Assigned(steps, k).Some? then Assigned(steps, k) else Lookup(o, k)
    decreases |steps|
  {
    if steps != [] {
      ApplyLookup(PutIf(o, steps[0].when, steps[0].key, steps[0].value), steps[1..], k);
    }
  }

  /** A key no step names keeps its value. */
  lemma {:induction false} ApplyOther(o: Obj, steps: seq<Step>, k: string)
    requires forall j :: 0 <= j < |steps| ==> steps[j].key != k
    ensures Lookup(Apply(o, steps), k) == Lookup(o, k)
    decreases |steps|
  {
    if steps != [] {
      ApplyOther(PutIf(o, steps[0].when, steps[0].key, steps[0].value), steps[1..], k);
    }
  }

  /** When no other step names its key, step i alone decides that key. */
  lemma {:induction false} ApplyDistinct(o: Obj, steps: seq<Step>, i: nat)
    requires i < |steps|
    requires forall j :: 0 <= j < |steps| && j != i ==> steps[j].key != steps[i].key
    ensures Lookup(Apply(o, steps), steps[i].key) ==
              if steps[i].when then Some(steps[i].value) else Lookup(o, steps[i].key)
    decreases |steps|
  {
    var o' := PutIf(o, steps[0].when, steps[0].key, steps[0].value);
    if i == 0 {
      ApplyOther(o', steps[1..], steps[0].key);
    } else {
      assert steps[1..][i - 1] == steps[i];
      ApplyDistinct(o', steps[1..], i - 1);
    }
  }

  /** The keys of the steps, which all differ and none of which is already in o. */
  predicate FreshKeys(o: Obj, steps: seq<Step>) {
    (forall i, j :: 0 <= i < j < |steps| ==> steps[i].key != steps[j].key) &&
    (forall i :: 0 <= i < |steps| ==> steps[i].key !in Keys(o))
  }

  /** After the first step has run, the remaining steps are still on fresh keys. */
  lemma FreshKeysTail(o: Obj, steps: seq<Step>)
    requires steps != [] && FreshKeys(o, steps)
    ensures FreshKeys(PutIf(o, steps[0].when, steps[0].key, steps[0].value), steps[1..])
  {
    var o' := PutIf(o, steps[0].when, steps[0].key, steps[0].value);
    var rest := steps[1..];
    PutKeys(o, steps[0].key, steps[0].value);
    forall i, j | 0 <= i < j < |rest|
      ensures rest[i].key != rest[j].key
    {
      assert rest[i] == steps[i + 1] && rest[j] == steps[j + 1];
    }
    forall i | 0 <= i < |rest|
      ensures rest[i].key !in Keys(o')
    {
      assert rest[i] == steps[i + 1];
      assert steps[0].key != steps[i + 1].key;
    }
  }

  /** On fresh keys the steps only append, each firing step's pair after the ones before it. */
  lemma {:induction false} ApplyAppends(o: Obj, steps: seq<Step>)
    requires FreshKeys(o, steps)
    ensures Apply(o, steps) == o + Emitted(steps)
    decreases |steps|
  {
    if steps != [] {
      var s := steps[0];
      assert s.key !in Keys(o);
      PutKeys(o, s.key, s.value);
      var o' := PutIf(o, s.when, s.key, s.value);
      FreshKeysTail(o, steps);
      ApplyAppends(o', steps[1..]);
      assert Apply(o, steps) == Apply(o', steps[1..]);
      assert Emitted(steps) == PairIf(s.when, s.key, s.value) + Emitted(steps[1..]);
      assert o' == o + PairIf(s.when, s.key, s.value);
      AppendAssoc(o, PairIf(s.when, s.key, s.value), Emitted(steps[1..]));
    }
  }

  /** Steps none of which fires leave the array as it was. */
  lemma {:induction false} ApplyNoneFires(o: Obj, steps: seq<Step>)
    requires forall i :: 0 <= i < |steps| ==> !steps[i].when
    ensures Apply(o, steps) == o
    decreases |steps|
  {
    if steps != [] {
      assert !steps[0].when;
      ApplyNoneFires(o, steps[1..]);
    }
  }

  /** Steps none of which fires emit nothing. */
  lemma {:induction false} EmittedNoneFires(steps: seq<Step>)
    requires forall i :: 0 <= i < |steps| ==> !steps[i].when
    ensures Emitted(steps) == []
    decreases |steps|
  {
    if steps != [] {
      assert !steps[0].when;
      EmittedNoneFires(steps[1..]);
    }
  }

  /** When only step i fires, its pair is all that is emitted. */
  lemma {:induction false} EmittedOnly(steps: seq<Step>, i: nat)
    requires i < |steps| && steps[i].when
    requires forall j :: 0 <= j < |steps| && j != i ==> !steps[j].when
    ensures Emitted(steps) == [(steps[i].key, steps[i].value)]
    decreases |steps|
  {
    if i == 0 {
      EmittedNoneFires(steps[1..]);
    } else {
      assert !steps[0].when;
      EmittedOnly(steps[1..], i - 1);
    }
  }

  /** When only steps i < j fire, their two pairs are emitted in step order. */
  lemma {:induction false} EmittedOnlyTwo(steps: seq<Step>, i: nat, j: nat)
    requires i < j < |steps| && steps[i].when && steps[j].when
    requires forall m :: 0 <= m < |steps| && m != i && m != j ==> !steps[m].when
    ensures Emitted(steps) == [(steps[i].key, steps[i].value), (steps[j].key, steps[j].value)]
    decreases |steps|
  {
    if i == 0 {
      EmittedOnly(steps[1..], j - 1);
    } else {
      assert !steps[0].when;
      EmittedOnlyTwo(steps[1..], i - 1, j - 1);
    }
  }

  /** The steps never create a duplicate key. */
  lemma {:induction false} ApplyUnique(o: Obj, steps: seq<Step>)
    requires UniqueKeys(o)
    ensures UniqueKeys(Apply(o, steps))
    decreases |steps|
  {
    if steps != [] {
      PutIfUnique(o, steps[0].when, steps[0].key, steps[0].value);
      ApplyUnique(PutIf(o, steps[0].when, steps[0].key, steps[0].value), steps[1..]);
    }
  }

  /** Keys already present stay where they were: the old key order is a prefix of the new one. */
  lemma {:induction false} ApplyKeepsOrder(o: Obj, steps: seq<Step>)
    ensures Keys(o) <= Keys(Apply(o, steps))
    decreases |steps|
  {
    if steps != [] {
      var s := steps[0];
      PutKeys(o, s.key, s.value);
      ApplyKeepsOrder(PutIf(o, s.when, s.key, s.value), steps[1..]);
    }
  }
}
