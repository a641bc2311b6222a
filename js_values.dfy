/**
 * The JavaScript values the fh.db compatibility layer handles: the action
 * descriptors callers pass in, the filters and options it builds for the
 * store, and the documents the store hands back.
 *
 * An object is an ordered sequence of own properties, because `for..in`
 * enumeration order is observable: it fixes the order of the copied fields in
 * an envelope and the key order of a composite index.
 */
module JsValues {

  datatype Value =
    | Undefined
    | Null
    | Bool(b: bool)
    | Num(n: int)
    | Str(s: string)
    | Arr(items: seq<Value>)
    | Obj(props: seq<Prop>)
    | Regex(source: string, flags: string)
    | ObjectId(hex: string)
      /** The number `km / 6378` emitted by a geo constraint, kept unevaluated. */
    | Radians(km: Value)

  datatype Prop = Prop(key: string, val: Value)

  datatype Error =
    | Message(text: string)      // `new Error(text)`
    | Text(text: string)         // a bare string handed to the callback as the error
    | TypeError                  // raised by the engine, e.g. a property access on null
    | DriverError(reason: string)

  datatype Result<T> = Ok(value: T) | Throw(error: Error)

  datatype Option<T> = None | Some(value: T)

  /* ---------------- Own properties ---------------- */

  function KeySet(ps: seq<Prop>): set<string> {
    set i | 0 <= i < |ps| :: ps[i].key
  }

  /** Every JavaScript object has distinct own property names. */
  predicate DistinctKeys(ps: seq<Prop>) {
    forall i, j :: 0 <= i < j < |ps| ==> ps[i].key != ps[j].key
  }

  /** Position of the property named `k`, or `|ps|` when there is none. */
  function IndexOf(ps: seq<Prop>, k: string): (i: nat)
    ensures i <= |ps|
    ensures i < |ps| ==> ps[i].key == k
    ensures forall j :: 0 <= j < i ==> ps[j].key != k
  {
    if ps == [] then 0
    else if ps[0].key == k then 0
    else 1 + IndexOf(ps[1..], k)
  }

  lemma IndexOfUnique(ps: seq<Prop>, k: string, m: nat)
    requires m <= |ps|
    requires m < |ps| ==> ps[m].key == k
    requires forall j :: 0 <= j < m ==> ps[j].key != k
    ensures IndexOf(ps, k) == m
  {
  }

  predicate Has(ps: seq<Prop>, k: string) {
    IndexOf(ps, k) < |ps|
  }

  lemma HasKeySet(ps: seq<Prop>, k: string)
    ensures Has(ps, k) <==> k in KeySet(ps)
  {
    if k in KeySet(ps) {
      var m :| 0 <= m < |ps| && ps[m].key == k;
      assert IndexOf(ps, k) <= m;
    }
  }

  lemma KeySetCons(p: Prop, ps: seq<Prop>)
    ensures KeySet([p] + ps) == {p.key} + KeySet(ps)
  {
    var qs := [p] + ps;
    forall x | x in KeySet(qs) ensures x in {p.key} + KeySet(ps) {
      var j :| 0 <= j < |qs| && qs[j].key == x;
      if j > 0 { assert ps[j - 1] == qs[j]; }
    }
    forall x | x in KeySet(ps) ensures x in KeySet(qs) {
      var j :| 0 <= j < |ps| && ps[j].key == x;
      assert qs[j + 1] == ps[j];
    }
    assert qs[0] == p;
  }

  lemma DistinctCons(p: Prop, ps: seq<Prop>)
    ensures DistinctKeys([p] + ps) <==> p.key !in KeySet(ps) && DistinctKeys(ps)
  {
    var qs := [p] + ps;
    assert qs[0] == p;
    if DistinctKeys(qs) {
      forall i, j | 0 <= i < j < |ps| ensures ps[i].key != ps[j].key {
        assert qs[i + 1] == ps[i] && qs[j + 1] == ps[j];
      }
      forall j | 0 <= j < |ps| ensures ps[j].key != p.key {
        assert qs[j + 1] == ps[j];
      }
    }
    if p.key !in KeySet(ps) && DistinctKeys(ps) {
      forall i, j | 0 <= i < j < |qs| ensures qs[i].key != qs[j].key {
        assert qs[j] == ps[j - 1];
        if i > 0 { assert qs[i] == ps[i - 1]; } else { assert ps[j - 1].key in KeySet(ps); }
      }
    }
  }

  /** `obj[k]` for an own property: its value, or `undefined` when absent. */
  function Lookup(ps: seq<Prop>, k: string): Value {
    var i := IndexOf(ps, k);
    if i < |ps| then ps[i].val else Undefined
  }

  /** `KeySetCons` and `DistinctCons` read at the head of a non-empty sequence. */
  lemma HeadTail(ps: seq<Prop>)
    requires ps != []
    ensures KeySet(ps) == {ps[0].key} + KeySet(ps[1..])
    ensures DistinctKeys(ps) <==> ps[0].key !in KeySet(ps[1..]) && DistinctKeys(ps[1..])
  {
    assert [ps[0]] + ps[1..] == ps;
    KeySetCons(ps[0], ps[1..]);
    DistinctCons(ps[0], ps[1..]);
  }

  lemma LookupCons(p: Prop, ps: seq<Prop>, k: string)
    ensures Lookup([p] + ps, k) == if p.key == k then p.val else Lookup(ps, k)
  {
    assert ([p] + ps)[1..] == ps;
  }

  lemma LookupAt(ps: seq<Prop>, i: nat)
    requires DistinctKeys(ps) && i < |ps|
    ensures Lookup(ps, ps[i].key) == ps[i].val
  {
    IndexOfUnique(ps, ps[i].key, i);
  }

  lemma LookupAbsent(ps: seq<Prop>, k: string)
    requires k !in KeySet(ps)
    ensures Lookup(ps, k) == Undefined
  {
    HasKeySet(ps, k);
  }

  /**
   * The property write `obj[k] = v`: an existing property keeps its position
   * and takes the new value, a new one is appended.
   */
  function Assign(ps: seq<Prop>, k: string, v: Value): (r: seq<Prop>)
    ensures Lookup(r, k) == v
    ensures forall j :: j != k ==> Lookup(r, j) == Lookup(ps, j)
    ensures KeySet(r) == KeySet(ps) + {k}
    ensures k in KeySet(ps) ==> |r| == |ps| && forall i :: 0 <= i < |ps| ==> r[i].key == ps[i].key
    ensures k !in KeySet(ps) ==> r == ps + [Prop(k, v)]
    ensures DistinctKeys(ps) ==> DistinctKeys(r)
  {
    HasKeySet(ps, k);
    var i := IndexOf(ps, k);
    if i < |ps| then
      var r := ps[i := Prop(k, v)];
      IndexOfUnique(r, k, i);
      forall j | j != k ensures Lookup(r, j) == Lookup(ps, j) {
        IndexOfUnique(r, j, IndexOf(ps, j));
      }
      assert KeySet(r) == KeySet(ps) by {
        forall x | x in KeySet(ps) ensures x in KeySet(r) {
          var m :| 0 <= m < |ps| && ps[m].key == x;
          assert r[m].key == x;
        }
      }
      r
    else
      var r := ps + [Prop(k, v)];
      IndexOfUnique(r, k, |ps|);
      forall j | j != k ensures Lookup(r, j) == Lookup(ps, j) {
        var m := IndexOf(ps, j);
        IndexOfUnique(r, j, if m < |ps| then m else |r|);
      }
      assert KeySet(r) == KeySet(ps) + {k} by {
        assert r[|ps|].key == k;
        forall x | x in KeySet(ps) ensures x in KeySet(r) {
          var m :| 0 <= m < |ps| && ps[m].key == x;
          assert r[m].key == x;
        }
      }
      r
  }

  /** Writing a one-property object's only property replaces its value. */
  lemma AssignExisting(ps: seq<Prop>, k: string, v: Value)
    requires |ps| == 1 && ps[0].key == k
    ensures Assign(ps, k, v) == [Prop(k, v)]
  {
    IndexOfUnique(ps, k, 0);
  }

  lemma KeySetTwo(p1: Prop, p2: Prop)
    ensures KeySet([p1, p2]) == {p1.key, p2.key}
  {
    assert [p1, p2][0] == p1 && [p1, p2][1] == p2;
  }

  /** Two writes of distinct names into `{}` lay the properties out in write order. */
  lemma AssignTwo(k1: string, v1: Value, k2: string, v2: Value)
    requires k1 != k2
    ensures Assign(Assign([], k1, v1), k2, v2) == [Prop(k1, v1), Prop(k2, v2)]
    ensures KeySet([Prop(k1, v1), Prop(k2, v2)]) == {k1, k2}
  {
    var p1, p2 := Prop(k1, v1), Prop(k2, v2);
    assert Assign([], k1, v1) == [p1] by {
      assert KeySet([]) == {};
      assert [] + [p1] == [p1];
    }
    assert Assign([p1], k2, v2) == [p1, p2] by {
      assert KeySet([p1]) == {k1} by { assert [p1][0] == p1; }
      assert [p1] + [p2] == [p1, p2];
    }
    KeySetTwo(p1, p2);
  }

  /* ---------------- Coercions ---------------- */

  /** JavaScript truthiness. */
  predicate Truthy(v: Value) {
    match v
    case Undefined => false
    case Null => false
    case Bool(b) => b
    case Num(n) => n != 0
    case Str(s) => s != ""
    case Radians(km) => km.Num? && km.n != 0  // never tested: a `Radians` term only sits in a filter for the store
    case _ => true
  }

  /** The `typeof` operator (null, arrays and library objects are "object"). */
  function TypeOf(v: Value): string {
    match v
    case Undefined => "undefined"
    case Bool(_) => "boolean"
    case Num(_) => "number"
    case Radians(_) => "number"
    case Str(_) => "string"
    case _ => "object"
  }

  predicate Nullish(v: Value) {
    v.Null? || v.Undefined?
  }

  function DigitChar(d: nat): char
    requires d < 10
  {
    ('0' as int + d) as char
  }

  /** Decimal digits of a natural number, without leading zeros. */
  function Digits(n: nat): (s: string)
    ensures |s| >= 1
    ensures n < 10 <==> |s| == 1
  {
    if n < 10 then [DigitChar(n)] else Digits(n / 10) + [DigitChar(n % 10)]
  }

  lemma {:induction false} DigitsInjective(a: nat, b: nat)
    requires Digits(a) == Digits(b)
    ensures a == b
  {
    if a >= 10 {
      var da, db := Digits(a), Digits(b);
      assert b >= 10;
      assert da[..|da| - 1] == Digits(a / 10);
      assert db[..|db| - 1] == Digits(b / 10);
      DigitsInjective(a / 10, b / 10);
      assert DigitChar(a % 10) == da[|da| - 1] == db[|db| - 1] == DigitChar(b % 10);
    }
  }

  predicate IsDigit(c: char) {
    '0' <= c <= '9'
  }

  /** The number a string of decimal digits denotes (0 for the empty string, as `Number("")`). */
  function DecimalValue(s: string): nat
    requires forall i :: 0 <= i < |s| ==> IsDigit(s[i])
    decreases |s|
  {
    if s == [] then 0
    else
      assert IsDigit(s[|s| - 1]);
      DecimalValue(s[..|s| - 1]) * 10 + (s[|s| - 1] as int - '0' as int)
  }

  /** Reading back the decimal text of a number gives that number. */
  lemma {:induction false} DecimalDigits(n: nat)
    ensures forall i :: 0 <= i < |Digits(n)| ==> IsDigit(Digits(n)[i])
    ensures DecimalValue(Digits(n)) == n
  {
    var s := Digits(n);
    if n >= 10 {
      DecimalDigits(n / 10);
      assert s[..|s| - 1] == Digits(n / 10);
      assert s[|s| - 1] == DigitChar(n % 10);
    }
  }

  /** The number of UTF-16 code units a character takes: two outside the Basic Multilingual Plane. */
  function CodeUnits(c: char): nat {
    if c as int > 0xFFFF then 2 else 1
  }

  /** `s.length`, which counts UTF-16 code units rather than characters. */
  function Utf16Length(s: string): (n: nat)
    ensures |s| <= n <= 2 * |s|
  {
    if s == [] then 0 else CodeUnits(s[0]) + Utf16Length(s[1..])
  }

  /** Within the Basic Multilingual Plane, `length` is the number of characters. */
  lemma {:induction false} Utf16LengthBmp(s: string)
    requires forall i :: 0 <= i < |s| ==> s[i] as int <= 0xFFFF
    ensures Utf16Length(s) == |s|
  {
    if s != [] {
      assert forall i :: 0 <= i < |s[1..]| ==> s[1..][i] == s[i + 1];
      Utf16LengthBmp(s[1..]);
    }
  }

  /** Outside the Basic Multilingual Plane, `length` counts every character twice. */
  lemma {:induction false} Utf16LengthAstral(s: string)
    requires forall i :: 0 <= i < |s| ==> s[i] as int > 0xFFFF
    ensures Utf16Length(s) == 2 * |s|
  {
    if s != [] {
      assert forall i :: 0 <= i < |s[1..]| ==> s[1..][i] == s[i + 1];
      Utf16LengthAstral(s[1..]);
    }
  }

  /** A string as a count: its decimal value when it is all digits, and 0 (NaN) otherwise. */
  function StringCount(s: string): nat {
    if forall i :: 0 <= i < |s| ==> IsDigit(s[i]) then DecimalValue(s) else 0
  }

  /**
   * What `v` counts as when compared with a number, as in `i < v` or
   * `v > 70`: `Number(v)` when that is a non-negative integer, and 0 when it
   * is negative or NaN. `true` is 1, `null` and `undefined` are 0, and an
   * object is converted through its text.
   */
  function Count(v: Value): nat {
    match v
    case Num(n) => if n > 0 then n else 0
    case Bool(b) => if b then 1 else 0
    case Str(s) => StringCount(s)
    case Undefined => 0
    case Null => 0
    case _ => StringCount(ToText(v))
  }

  /** A number and its decimal text count alike. */
  lemma CountOfText(n: nat)
    ensures Count(Str(Digits(n))) == n && Count(Num(n)) == n
  {
    DecimalDigits(n);
  }

  function IntText(n: int): string {
    if n < 0 then "-" + Digits(-n) else Digits(n)
  }

  /** Strings joined with "," as `Array.prototype.join` does. */
  function Join(parts: seq<string>): string {
    if |parts| == 0 then ""
    else if |parts| == 1 then parts[0]
    else parts[0] + "," + Join(parts[1..])
  }

  /** `String(v)`, the text `toString` and string concatenation produce. */
  function ToText(v: Value): string
    decreases v
  {
    match v
    case Undefined => "undefined"
    case Null => "null"
    case Bool(b) => if b then "true" else "false"
    case Num(n) => IntText(n)
    case Str(s) => s
    case Arr(items) =>
      Join(seq(|items|, i requires 0 <= i < |items| =>
        if Nullish(items[i]) then "" else ToText(items[i])))
    case Obj(_) => "[object Object]"
    case Regex(source, flags) => "/" + source + "/" + flags
    case ObjectId(hex) => hex
    case Radians(km) => ToText(km) + "/6378"  // never converted: a `Radians` term only sits in a filter for the store
  }

  /**
   * An object owning a property called `name`. A value parsed from JSON holds
   * no functions, so such a property shadows the inherited method of that
   * name with something that cannot be called, and calling it raises.
   */
  predicate Shadows(v: Value, name: string) {
    v.Obj? && Has(v.props, name)
  }

  /**
   * `String(v)` and `v.toString()` complete without a raise. An object owning
   * `toString` has neither a callable `toString` nor a `valueOf` giving a
   * primitive, so converting it raises; an array converts each element that
   * is not null or undefined through `join`.
   */
  predicate Printable(v: Value)
    decreases v
  {
    match v
    case Obj(ps) => !Has(ps, "toString")
    case Arr(items) => forall i :: 0 <= i < |items| ==> Nullish(items[i]) || Printable(items[i])
    case _ => true
  }

  /**
   * `v.hasOwnProperty(k)`: whether `v` owns `k`, that is whether `for..in`
   * would visit it, or it is an array's or a string's `length`. It raises on
   * null and undefined, and on an object that shadows the method.
   */
  function HasOwnProperty(v: Value, k: string): (r: Result<bool>)
    ensures r.Throw? <==> Nullish(v) || Shadows(v, "hasOwnProperty")
    ensures r.Throw? ==> r.error == TypeError
  {
    match v
    case Undefined => Throw(TypeError)
    case Null => Throw(TypeError)
    case Obj(ps) => if Has(ps, "hasOwnProperty") then Throw(TypeError) else Ok(Has(ps, k))
    case Arr(items) => Ok(k == "length" || exists i :: 0 <= i < |items| && k == Digits(i))
    case Str(s) => Ok(k == "length" || exists i :: 0 <= i < |s| && k == Digits(i))
    case _ => Ok(false)
  }

  /** The names `hasOwnProperty` accepts are those `for..in` visits, and `length` on arrays and strings. */
  lemma OwnNames(v: Value, k: string)
    requires !Nullish(v) && !Shadows(v, "hasOwnProperty")
    ensures HasOwnProperty(v, k).value <==>
      k in KeySet(Entries(v)) || (k == "length" && (v.Arr? || v.Str?))
  {
    var es := Entries(v);
    if v.Obj? {
      HasKeySet(v.props, k);
    } else if v.Arr? || v.Str? {
      if k in KeySet(es) {
        var i :| 0 <= i < |es| && es[i].key == k;
        assert k == Digits(i);
      }
      if exists i :: 0 <= i < |es| && k == Digits(i) {
        var i :| 0 <= i < |es| && k == Digits(i);
        assert es[i].key == k;
      }
    }
  }

  /**
   * The `hasOwnProperty` test on a name `for..in` visits: it passes, unless
   * the object shadows the method.
   */
  lemma EnumeratedOwn(v: Value, i: nat)
    requires i < |Entries(v)|
    ensures HasOwnProperty(v, Entries(v)[i].key) ==
      if Shadows(v, "hasOwnProperty") then Throw(TypeError) else Ok(true)
  {
    var k := Entries(v)[i].key;
    if v.Obj? {
      IndexOfUnique(v.props, k, IndexOf(v.props, k));
    } else if v.Arr? || v.Str? {
      assert k == Digits(i);
    }
  }

  /** An owned name is among the entries, so there is at least one. */
  lemma ShadowsEntries(v: Value, name: string)
    ensures Shadows(v, name) ==> Entries(v) != []
  {
  }

  function UpperChar(c: char): char {
    if 'a' <= c <= 'z' then (c as int - 32) as char else c
  }

  /** `toUpperCase` on the ASCII letters. */
  function Upper(s: string): (r: string)
    ensures |r| == |s|
  {
    seq(|s|, i requires 0 <= i < |s| => UpperChar(s[i]))
  }

  /* ---------------- Property reads and enumeration ---------------- */

  /**
   * `v.key` for a key that is not an array index: an object's own property,
   * the `length` of an array or of a string (in UTF-16 code units), and
   * `undefined` otherwise.
   */
  function Get(v: Value, key: string): Value {
    match v
    case Obj(ps) => Lookup(ps, key)
    case Arr(items) => if key == "length" then Num(|items|) else Undefined
    case Str(s) => if key == "length" then Num(Utf16Length(s)) else Undefined
    case _ => Undefined
  }

  /** `v[i]` for an index `i`. */
  function At(v: Value, i: nat): Value {
    match v
    case Obj(ps) => Lookup(ps, Digits(i))
    case Arr(items) => if i < |items| then items[i] else Undefined
    case Str(s) => if i < |s| then Str([s[i]]) else Undefined
    case _ => Undefined
  }

  /**
   * The own enumerable properties `for..in` visits: an object's properties in
   * order, the indices of an array or a string, and nothing for the rest.
   */
  function Entries(v: Value): seq<Prop> {
    match v
    case Obj(ps) => ps
    case Arr(items) => seq(|items|, i requires 0 <= i < |items| => Prop(Digits(i), items[i]))
    case Str(s) => seq(|s|, i requires 0 <= i < |s| => Prop(Digits(i), Str([s[i]])))
    case _ => []
  }

  /** A value some JavaScript object could be: its own names are distinct. */
  predicate WellFormed(v: Value) {
    v.Obj? ==> DistinctKeys(v.props)
  }

  lemma EntriesDistinct(v: Value)
    requires WellFormed(v)
    ensures DistinctKeys(Entries(v))
  {
    var es := Entries(v);
    if v.Arr? || v.Str? {
      forall i, j | 0 <= i < j < |es| ensures es[i].key != es[j].key {
        if es[i].key == es[j].key {
          assert es[i].key == Digits(i) && es[j].key == Digits(j);
          DigitsInjective(i, j);
        }
      }
    }
  }
}
