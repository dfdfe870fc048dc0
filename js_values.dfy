/**
 * JavaScript values as the console meets them: parsed JSON replies, form
 * fields and `File` objects.  Objects are association lists kept in property
 * enumeration order, since that order decides the order of `for...in`,
 * `Object.values` and object spread.  Numbers are integers (NaN apart).
 */
module JsValues {
  import opened Wrappers
  import opened JsStrings

  datatype Value =
    | Undefined
    | Null
    | Bool(b: bool)
    | Num(n: int)
    | NaN
    | Str(s: string)
    | Arr(items: seq<Value>)
    | Obj(props: seq<Prop>)
    | File(name: string)

  datatype Prop = Prop(key: string, val: Value)

  /**
   * The message of a TypeError the engine throws (a property read of null or
   * undefined, a call of a method the value lacks).  Its wording differs from
   * engine to engine; the model uses this one text for all of them.
   */
  const TYPE_ERROR: string := "TypeError"

  // ---------------------------------------------------------------------------
  // Truthiness, `||` and `??`
  // ---------------------------------------------------------------------------

  predicate Truthy(v: Value)
  {
    match v
    case Undefined => false
    case Null => false
    case Bool(b) => b
    case Num(n) => n != 0
    case NaN => false
    case Str(s) => s != ""
    case _ => true
  }

  predicate Nullish(v: Value)
  {
    v.Undefined? || v.Null?
  }

  /** No entry of a list is null or undefined, so reading a property of each one never throws. */
  predicate NoNullItems(items: seq<Value>)
  {
    forall i :: 0 <= i < |items| ==> !Nullish(items[i])
  }

  /** `a || b`. */
  function Or(a: Value, b: Value): (r: Value)
    ensures Truthy(a) ==> r == a
    ensures !Truthy(a) ==> r == b
  {
    if Truthy(a) then a else b
  }

  /** `a ?? b`: only null and undefined give way to `b`. */
  function Coalesce(a: Value, b: Value): (r: Value)
    ensures !Nullish(a) ==> r == a
    ensures Nullish(a) ==> r == b
  {
    if Nullish(a) then b else a
  }

  /** `Number(x)` of a string that `JsStrings` has already converted. */
  function NumberValue(n: Option<int>): (r: Value)
    ensures r.Num? <==> n.Some?
    ensures n.Some? ==> r == Num(n.value)
  {
    match n
    case None => NaN
    case Some(i) => Num(i)
  }

  // ---------------------------------------------------------------------------
  // Properties
  // ---------------------------------------------------------------------------

  /** The value of the first property named `key`, if any. */
  function Lookup(props: seq<Prop>, key: string): Option<Value>
  {
    if |props| == 0 then None
    else if props[0].key == key then Some(props[0].val)
    else Lookup(props[1..], key)
  }

  /** `Lookup` finds a property exactly when one has that name, and what it finds is one of them. */
  lemma {:induction false} LookupFinds(props: seq<Prop>, key: string)
    ensures Lookup(props, key).Some? <==> exists i :: 0 <= i < |props| && props[i].key == key
    ensures Lookup(props, key).Some? ==> exists i :: 0 <= i < |props| && props[i] == Prop(key, Lookup(props, key).value)
  {
    if |props| > 0 && props[0].key != key {
      LookupFinds(props[1..], key);
      assert forall i :: 0 < i < |props| ==> props[i] == props[1..][i - 1];
    }
  }

  function Keys(props: seq<Prop>): (ks: seq<string>)
    ensures |ks| == |props|
    ensures forall i :: 0 <= i < |props| ==> ks[i] == props[i].key
  {
    seq(|props|, i requires 0 <= i < |props| => props[i].key)
  }

  /** A real object never has two properties of one name. */
  ghost predicate DistinctKeys(props: seq<Prop>)
  {
    forall i, j :: 0 <= i < j < |props| ==> props[i].key != props[j].key
  }

  /** With distinct keys, `Lookup` finds the one property of that name wherever it sits. */
  lemma LookupDistinct(props: seq<Prop>, i: nat)
    requires DistinctKeys(props) && i < |props|
    ensures Lookup(props, props[i].key) == Some(props[i].val)
  {
    LookupFinds(props, props[i].key);
    var r := Lookup(props, props[i].key);
    var j :| 0 <= j < |props| && props[j] == Prop(props[i].key, r.value);
    assert i == j;
  }

  /** A property named `k` that no earlier property shadows is the one `Lookup` and `Get` find. */
  lemma {:induction false} LookupUnshadowed(props: seq<Prop>, i: nat, k: string)
    requires i < |props| && props[i].key == k && forall j :: 0 <= j < i ==> props[j].key != k
    ensures Lookup(props, k) == Some(props[i].val)
    ensures Get(Obj(props), k) == props[i].val
  {
    if i > 0 {
      assert props[1..][i - 1] == props[i];
      LookupUnshadowed(props[1..], i - 1, k);
    }
  }

  /** An object literal of six distinct names reads back each of its six values. */
  lemma GetOfSixFields(k0: string, k1: string, k2: string, k3: string, k4: string, k5: string,
                       v0: Value, v1: Value, v2: Value, v3: Value, v4: Value, v5: Value)
    requires k0 != k1 && k0 != k2 && k0 != k3 && k0 != k4 && k0 != k5
    requires k1 != k2 && k1 != k3 && k1 != k4 && k1 != k5
    requires k2 != k3 && k2 != k4 && k2 != k5
    requires k3 != k4 && k3 != k5 && k4 != k5
    ensures var p := Obj([Prop(k0, v0), Prop(k1, v1), Prop(k2, v2), Prop(k3, v3), Prop(k4, v4), Prop(k5, v5)]);
            && Get(p, k0) == v0 && Get(p, k1) == v1 && Get(p, k2) == v2
            && Get(p, k3) == v3 && Get(p, k4) == v4 && Get(p, k5) == v5
  {
    var ps := [Prop(k0, v0), Prop(k1, v1), Prop(k2, v2), Prop(k3, v3), Prop(k4, v4), Prop(k5, v5)];
    LookupUnshadowed(ps, 0, k0);
    LookupUnshadowed(ps, 1, k1);
    LookupUnshadowed(ps, 2, k2);
    LookupUnshadowed(ps, 3, k3);
    LookupUnshadowed(ps, 4, k4);
    LookupUnshadowed(ps, 5, k5);
  }

  /** An object literal of seven distinct names reads back each of its seven values. */
  lemma GetOfSevenFields(k0: string, k1: string, k2: string, k3: string, k4: string, k5: string, k6: string,
                         v0: Value, v1: Value, v2: Value, v3: Value, v4: Value, v5: Value, v6: Value)
    requires k0 != k1 && k0 != k2 && k0 != k3 && k0 != k4 && k0 != k5 && k0 != k6
    requires k1 != k2 && k1 != k3 && k1 != k4 && k1 != k5 && k1 != k6
    requires k2 != k3 && k2 != k4 && k2 != k5 && k2 != k6
    requires k3 != k4 && k3 != k5 && k3 != k6 && k4 != k5 && k4 != k6 && k5 != k6
    ensures var p := Obj([Prop(k0, v0), Prop(k1, v1), Prop(k2, v2), Prop(k3, v3), Prop(k4, v4), Prop(k5, v5), Prop(k6, v6)]);
            && Get(p, k0) == v0 && Get(p, k1) == v1 && Get(p, k2) == v2 && Get(p, k3) == v3
            && Get(p, k4) == v4 && Get(p, k5) == v5 && Get(p, k6) == v6
  {
    var ps := [Prop(k0, v0), Prop(k1, v1), Prop(k2, v2), Prop(k3, v3), Prop(k4, v4), Prop(k5, v5), Prop(k6, v6)];
    LookupUnshadowed(ps, 0, k0);
    LookupUnshadowed(ps, 1, k1);
    LookupUnshadowed(ps, 2, k2);
    LookupUnshadowed(ps, 3, k3);
    LookupUnshadowed(ps, 4, k4);
    LookupUnshadowed(ps, 5, k5);
    LookupUnshadowed(ps, 6, k6);
  }

  /** The canonical array index a property name denotes ("0", "17"; not "01" nor ""). */
  function ArrayIndex(key: string): (r: Option<nat>)
    ensures r.Some? ==> AllDigitsIn(key, 10) && r.value == ValueIn(key, 10)
  {
    if |key| > 0 && IsDecimalDigit(key[0]) && DigitPrefixLength(key, 10) == |key| && (|key| == 1 || key[0] != '0') then
      assert key[..|key|] == key;
      Some(ValueIn(key, 10))
    else None
  }

  lemma ArrayIndexOfDecimal(i: nat)
    ensures ArrayIndex(NatToDecimal(i)) == Some(i)
  {
    DigitPrefixOfAllDigits(NatToDecimal(i), 10);
    DecimalRoundTrip(i);
  }

  /**
   * `v[key]` on a value that is not null or undefined: an object's own
   * property, an array's or string's `length` and indexed elements.  Methods
   * and other inherited properties are outside the model and read as undefined.
   */
  function Get(v: Value, key: string): (r: Value)
  {
    match v
    case Obj(props) =>
      (match Lookup(props, key)
       case Some(x) => x
       case None => Undefined)
    case Arr(items) =>
      if key == "length" then Num(|items|)
      else
        (match ArrayIndex(key)
         case Some(i) => if i < |items| then items[i] else Undefined
         case None => Undefined)
    case Str(s) =>
      if key == "length" then Num(|s|)
      else
        (match ArrayIndex(key)
         case Some(i) => if i < |s| then Str([s[i]]) else Undefined
         case None => Undefined)
    case _ => Undefined
  }

  /** Element `i` of an array is read back by the decimal name of `i`. */
  lemma GetIndex(items: seq<Value>, i: nat)
    requires i < |items|
    ensures Get(Arr(items), NatToDecimal(i)) == items[i]
    ensures Get(Arr(items), "length") == Num(|items|)
  {
    ArrayIndexOfDecimal(i);
    var k := NatToDecimal(i);
    assert k != "length" by { assert IsDecimalDigit(k[0]); }
  }

  /** `v?.[key]`: undefined when `v` is null or undefined, `v[key]` otherwise. */
  function OptGet(v: Value, key: string): (r: Value)
    ensures Nullish(v) ==> r == Undefined
    ensures !Nullish(v) ==> r == Get(v, key)
  {
    if Nullish(v) then Undefined else Get(v, key)
  }

  /**
   * `a === b`.  NaN equals nothing; arrays, objects and files compare by
   * identity, and two values decoded from separate replies are never one object.
   */
  predicate StrictEquals(a: Value, b: Value)
  {
    match (a, b)
    case (Undefined, Undefined) => true
    case (Null, Null) => true
    case (Bool(x), Bool(y)) => x == y
    case (Num(x), Num(y)) => x == y
    case (Str(x), Str(y)) => x == y
    case _ => false
  }

  /** Strict equality is equality on the primitive values it accepts at all. */
  lemma StrictEqualsMeansEqualPrimitive(a: Value, b: Value)
    ensures StrictEquals(a, b) <==> (a == b && !a.NaN? && !a.Arr? && !a.Obj? && !a.File?)
  {
  }

  // ---------------------------------------------------------------------------
  // String conversion
  // ---------------------------------------------------------------------------

  /**
   * `String(v)`, as `new Error(v)`, template literals and `FormData.append`
   * apply it.  An array joins its elements with "," (null and undefined
   * elements as ""); plain objects and files print their tag.
   */
  function ToJsString(v: Value): string
  {
    match v
    case Undefined => "undefined"
    case Null => "null"
    case Bool(b) => if b then "true" else "false"
    case Num(n) => IntToString(n)
    case NaN => "NaN"
    case Str(s) => s
    case Arr(items) =>
      Join(seq(|items|, i requires 0 <= i < |items| =>
        if Nullish(items[i]) then "" else ToJsString(items[i])), ',')
    case Obj(_) => "[object Object]"
    case File(_) => "[object File]"
  }

  /**
   * `ToNumber(v)` after `ToPrimitive`, as a comparison such as `v > 0`
   * applies it: arrays, objects and files go through their string form.
   */
  function LooseNumber(v: Value): (r: NumberText)
    ensures v.Num? ==> r == Integer(v.n)
    ensures v.Str? ==> r == StringToNumber(v.s)
  {
    match v
    case Undefined => NotANumber
    case Null => Integer(0)
    case Bool(b) => Integer(if b then 1 else 0)
    case Num(n) => Integer(n)
    case NaN => NotANumber
    case _ => StringToNumber(ToJsString(v))
  }

  // ---------------------------------------------------------------------------
  // Own enumerable properties and object spread
  // ---------------------------------------------------------------------------

  /**
   * The own enumerable string-keyed properties, in enumeration order, as read by
   * `Object.values`, `for...in` with `hasOwnProperty` and `{ ...v }`: an
   * object's properties, the indices of an array or string, nothing else.
   */
  function OwnProps(v: Value): (ps: seq<Prop>)
    ensures v.Obj? ==> ps == v.props
    ensures v.Arr? ==> |ps| == |v.items| && forall i :: 0 <= i < |ps| ==> ps[i] == Prop(NatToDecimal(i), v.items[i])
    ensures v.Str? ==> |ps| == |v.s| && forall i :: 0 <= i < |ps| ==> ps[i] == Prop(NatToDecimal(i), Str([v.s[i]]))
    ensures !v.Obj? && !v.Arr? && !v.Str? ==> ps == []
  {
    match v
    case Obj(props) => props
    case Arr(items) => seq(|items|, i requires 0 <= i < |items| => Prop(NatToDecimal(i), items[i]))
    case Str(s) => seq(|s|, i requires 0 <= i < |s| => Prop(NatToDecimal(i), Str([s[i]])))
    case _ => []
  }

  /**
   * `{ ...props, [p.key]: p.val }` for keys that are not integer-like: an
   * existing key keeps its place, a new key goes last.
   */
  function Assign(props: seq<Prop>, p: Prop): (r: seq<Prop>)
    ensures |r| == |props| || |r| == |props| + 1
    ensures forall i :: 0 <= i < |props| ==> r[i].key == props[i].key
    ensures |r| == |props| + 1 <==> (forall i :: 0 <= i < |props| ==> props[i].key != p.key)
    ensures |r| == |props| + 1 ==> r[|props|] == p
  {
    if |props| == 0 then [p]
    else if props[0].key == p.key then [p] + props[1..]
    else
      var rest := Assign(props[1..], p);
      assert forall i :: 0 < i < |props| ==> props[i] == props[1..][i - 1];
      [props[0]] + rest
  }

  /**
   * `{ ...a, ...b }` on property lists whose keys are not integer-like: the
   * properties of `b` assigned over `a` in order.
   */
  function Spread(a: seq<Prop>, b: seq<Prop>): (r: seq<Prop>)
    ensures |r| >= |a|
    ensures forall i :: 0 <= i < |a| ==> r[i].key == a[i].key
    decreases |b|
  {
    if |b| == 0 then a else Spread(Assign(a, b[0]), b[1..])
  }

  /** `{ ...a, ...b }` on two values. */
  function Merge(a: Value, b: Value): (r: Value)
    ensures r.Obj?
  {
    Obj(Spread(OwnProps(a), OwnProps(b)))
  }

  lemma {:induction false} LookupAssign(props: seq<Prop>, p: Prop, k: string)
    ensures Lookup(Assign(props, p), k) == if k == p.key then Some(p.val) else Lookup(props, k)
  {
    if |props| > 0 && props[0].key != p.key {
      LookupAssign(props[1..], p, k);
    }
  }

  lemma {:induction false} AssignKeepsDistinct(props: seq<Prop>, p: Prop)
    requires DistinctKeys(props)
    ensures DistinctKeys(Assign(props, p))
  {
    if |props| > 0 && props[0].key != p.key {
      AssignKeepsDistinct(props[1..], p);
      var rest := Assign(props[1..], p);
      forall j | 0 <= j < |rest| ensures rest[j].key != props[0].key {
        if j < |props| - 1 {
          assert rest[j].key == props[j + 1].key;
        } else {
          assert rest[j] == p;
        }
      }
      assert Assign(props, p) == [props[0]] + rest;
    }
  }

  lemma {:induction false} SpreadKeepsDistinct(a: seq<Prop>, b: seq<Prop>)
    requires DistinctKeys(a)
    ensures DistinctKeys(Spread(a, b))
    decreases |b|
  {
    if |b| > 0 {
      AssignKeepsDistinct(a, b[0]);
      SpreadKeepsDistinct(Assign(a, b[0]), b[1..]);
    }
  }

  /**
   * After `{ ...a, ...b }` a property of `b` wins over the same-named property
   * of `a`; every other name keeps its value from `a`.
   */
  lemma {:induction false} LookupSpread(a: seq<Prop>, b: seq<Prop>, k: string)
    requires DistinctKeys(b)
    ensures Lookup(Spread(a, b), k) == if Lookup(b, k).Some? then Lookup(b, k) else Lookup(a, k)
    decreases |b|
  {
    if |b| > 0 {
      assert DistinctKeys(b[1..]) by {
        forall i, j | 0 <= i < j < |b| - 1 ensures b[1..][i].key != b[1..][j].key {
          assert b[1..][i] == b[i + 1] && b[1..][j] == b[j + 1];
        }
      }
      LookupSpread(Assign(a, b[0]), b[1..], k);
      LookupAssign(a, b[0], k);
      if k == b[0].key {
        assert Lookup(b[1..], k).None? by {
          forall i | 0 <= i < |b| - 1 ensures b[1..][i].key != k {
            assert b[1..][i] == b[i + 1];
          }
          LookupFinds(b[1..], k);
        }
      }
    }
  }

  /** Reading a property of `{ ...a, ...b }`: from `b` if `b` has it, else from `a`. */
  lemma GetMerge(a: Value, b: Value, k: string)
    requires b.Obj? && DistinctKeys(b.props)
    ensures Get(Merge(a, b), k) == if Lookup(b.props, k).Some? then Get(b, k) else Get(Obj(OwnProps(a)), k)
  {
    LookupSpread(OwnProps(a), b.props, k);
  }

  // ---------------------------------------------------------------------------
  // JSON.parse(JSON.stringify(v))
  // ---------------------------------------------------------------------------

  function DropUndefined(props: seq<Prop>): (r: seq<Prop>)
    ensures |r| <= |props|
    ensures forall i :: 0 <= i < |r| ==> !r[i].val.Undefined?
    ensures (forall i :: 0 <= i < |props| ==> !props[i].val.Undefined?) ==> r == props
  {
    if |props| == 0 then []
    else
      var rest := DropUndefined(props[1..]);
      if props[0].val.Undefined? then rest else [props[0]] + rest
  }

  /**
   * The value `JSON.parse(JSON.stringify(v))` gives back for a `v` that is
   * not itself undefined: NaN and undefined array elements become null,
   * properties holding undefined disappear, a `File` becomes `{}`.
   */
  function Jsonify(v: Value): (r: Value)
  {
    match v
    case Undefined => Null
    case NaN => Null
    case File(_) => Obj([])
    case Arr(items) => Arr(seq(|items|, i requires 0 <= i < |items| => Jsonify(items[i])))
    case Obj(props) =>
      Obj(DropUndefined(seq(|props|, i requires 0 <= i < |props| =>
        Prop(props[i].key, if props[i].val.Undefined? then Undefined else Jsonify(props[i].val)))))
    case _ => v
  }

  /** The values JSON can carry: no undefined, NaN or file anywhere inside. */
  predicate IsJsonData(v: Value)
  {
    match v
    case Undefined => false
    case NaN => false
    case File(_) => false
    case Arr(items) => forall i :: 0 <= i < |items| ==> IsJsonData(items[i])
    case Obj(props) => forall i :: 0 <= i < |props| ==> IsJsonData(props[i].val)
    case _ => true
  }

  /** A JSON round trip always yields JSON data ... */
  lemma {:induction false} JsonifyIsJsonData(v: Value)
    ensures IsJsonData(Jsonify(v))
  {
    match v
    case Arr(items) =>
      forall i | 0 <= i < |items| ensures IsJsonData(Jsonify(items[i])) {
        JsonifyIsJsonData(items[i]);
      }
    case Obj(props) =>
      var mapped := seq(|props|, i requires 0 <= i < |props| =>
        Prop(props[i].key, if props[i].val.Undefined? then Undefined else Jsonify(props[i].val)));
      forall i | 0 <= i < |props| && !props[i].val.Undefined? ensures IsJsonData(mapped[i].val) {
        JsonifyIsJsonData(props[i].val);
      }
      DropUndefinedKeepsJson(mapped);
    case _ =>
  }

  lemma {:induction false} DropUndefinedKeepsJson(props: seq<Prop>)
    requires forall i :: 0 <= i < |props| && !props[i].val.Undefined? ==> IsJsonData(props[i].val)
    ensures forall i :: 0 <= i < |DropUndefined(props)| ==> IsJsonData(DropUndefined(props)[i].val)
  {
    if |props| > 0 {
      DropUndefinedKeepsJson(props[1..]);
    }
  }

  /** ... and changes nothing in a value that already is JSON data. */
  lemma {:induction false} JsonifyKeepsJsonData(v: Value)
    requires IsJsonData(v)
    ensures Jsonify(v) == v
  {
    match v
    case Arr(items) =>
      forall i | 0 <= i < |items| ensures Jsonify(items[i]) == items[i] {
        JsonifyKeepsJsonData(items[i]);
      }
      assert Jsonify(v).items == items;
    case Obj(props) =>
      var mapped := seq(|props|, i requires 0 <= i < |props| =>
        Prop(props[i].key, if props[i].val.Undefined? then Undefined else Jsonify(props[i].val)));
      forall i | 0 <= i < |props| ensures mapped[i] == props[i] {
        JsonifyKeepsJsonData(props[i].val);
      }
      assert mapped == props;
    case _ =>
  }

  /**
   * Reading a property of an object after a JSON round trip gives the
   * round trip of the value read before, when no property holds undefined.
   */
  lemma GetJsonified(props: seq<Prop>, i: nat, k: string)
    requires i < |props| && props[i].key == k && forall j :: 0 <= j < i ==> props[j].key != k
    requires forall j :: 0 <= j < |props| ==> !props[j].val.Undefined?
    ensures Get(Jsonify(Obj(props)), k) == Jsonify(props[i].val)
  {
    var mapped := seq(|props|, j requires 0 <= j < |props| =>
      Prop(props[j].key, if props[j].val.Undefined? then Undefined else Jsonify(props[j].val)));
    forall j | 0 <= j < |props|
      ensures mapped[j] == Prop(props[j].key, Jsonify(props[j].val)) && !mapped[j].val.Undefined?
    {
      JsonifyIsJsonData(props[j].val);
    }
    assert DropUndefined(mapped) == mapped;
    LookupUnshadowed(mapped, i, k);
  }

  /** Hence a second round trip changes nothing. */
  lemma JsonifyIdempotent(v: Value)
    ensures Jsonify(Jsonify(v)) == Jsonify(v)
  {
    JsonifyIsJsonData(v);
    JsonifyKeepsJsonData(Jsonify(v));
  }
}
