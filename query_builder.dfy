/**
 * The filter builder of the `list` action (index.js:93-169, 286-292): each
 * operator group of a descriptor (`eq`, `ne`, `lt`, `le`, `gt`, `ge`, `like`,
 * `in`, `geo`) is folded, field by field, into one MongoDB filter object.
 *
 * The source mutates a shared `query` object inside `for..in` loops; the
 * methods `CritEq`, `BuildQuery` and `CritGeo` keep those loops and are proved
 * against `ApplyFields`, the fold that specifies them. The loop over the groups
 * themselves is `Actions.ListFilter`.
 */
module QueryBuilder {
  import opened JsValues

  datatype CritOp = Eq | Ne | Lt | Le | Gt | Ge | Like | In | Geo

  /** The order in which `for (op in critOps)` visits the groups. */
  const CritOrder: seq<CritOp> := [Eq, Ne, Lt, Le, Gt, Ge, Like, In, Geo]

  const EarthRadiusKm: int := 6378

  /** The descriptor key holding each group. */
  function OptionName(op: CritOp): string {
    match op
    case Eq => "eq"
    case Ne => "ne"
    case Lt => "lt"
    case Le => "le"
    case Gt => "gt"
    case Ge => "ge"
    case Like => "like"
    case In => "in"
    case Geo => "geo"
  }

  /** The position of each operator in `CritOrder`. */
  function CritIndex(op: CritOp): (i: nat)
    ensures i < |CritOrder| && CritOrder[i] == op
  {
    match op
    case Eq => 0 case Ne => 1 case Lt => 2 case Le => 3 case Gt => 4
    case Ge => 5 case Like => 6 case In => 7 case Geo => 8
  }

  /** Distinct positions of `CritOrder` hold groups under distinct descriptor keys. */
  lemma OptionNamesDistinct(i: nat, j: nat)
    requires i < |CritOrder| && j < |CritOrder| && i != j
    ensures OptionName(CritOrder[i]) != OptionName(CritOrder[j])
  {
    var x, y := CritOrder[i], CritOrder[j];
    assert CritIndex(x) == i && CritIndex(y) == j;
  }

  /** How one group writes a field into the filter. */
  datatype Merge =
    | Assigning                      // `query[field] = value`
    | Operator(expression: string)   // merge `{expression: value}` into `query[field]`
    | Within                         // merge `{$within: {$centerSphere: ...}}` into `query[field]`

  function MergeFor(op: CritOp): Merge {
    match op
    case Eq => Assigning
    case Ne => Operator("$ne")
    case Lt => Operator("$lt")
    case Le => Operator("$lte")
    case Gt => Operator("$gt")
    case Ge => Operator("$gte")
    case Like => Operator("$regex")
    case In => Operator("$in")
    case Geo => Within
  }

  /** Distinct comparison groups write distinct MongoDB operators. */
  lemma ExpressionsDistinct(i: nat, j: nat)
    requires 1 <= i <= 7 && 1 <= j <= 7 && i != j
    ensures MergeFor(CritOrder[i]).Operator? && MergeFor(CritOrder[j]).Operator?
    ensures MergeFor(CritOrder[i]).expression != MergeFor(CritOrder[j]).expression
  {
    assert CritIndex(CritOrder[i]) == i && CritIndex(CritOrder[j]) == j;
  }

  /** `queryField`: the field's current constraint, or `{}` when it has none. */
  function Base(current: Value): Value {
    if current.Undefined? then Obj([]) else current
  }

  /**
   * The sloppy-mode property write `target[key] = value`: it raises on null,
   * updates an object, and is silently lost on a primitive. An array, a
   * regular expression or an ObjectId does gain the named property in
   * JavaScript, but the store's serialisation of those values leaves it out,
   * so the model keeps them as they are.
   */
  function WithProperty(target: Value, key: string, value: Value): (r: Result<Value>)
    ensures r.Throw? <==> Nullish(target)
    ensures target.Obj? ==> r == Ok(Obj(Assign(target.props, key, value)))
    ensures !target.Obj? && r.Ok? ==> r.value == target
  {
    match target
    case Null => Throw(TypeError)
    case Undefined => Throw(TypeError)
    case Obj(ps) => Ok(Obj(Assign(ps, key, value)))
    case _ => Ok(target)
  }

  /** `{$centerSphere: [spec.center, spec.radius / 6378]}`. */
  function GeoTerm(spec: Value): (r: Result<Value>)
    ensures r.Throw? <==> Nullish(spec)
  {
    if Nullish(spec) then Throw(TypeError) else Ok(WithinTerm(spec))
  }

  /** The new constraint of one field, given the one it had. */
  function Merged(current: Value, m: Merge, v: Value): Result<Value> {
    match m
    case Assigning => Ok(v)
    case Operator(e) => WithProperty(Base(current), e, v)
    case Within =>
      match GeoTerm(v)
      case Throw(err) => Throw(err)
      case Ok(t) => WithProperty(Base(current), "$within", t)
  }

  /** One iteration of a group's `for..in` loop. */
  function Step(query: seq<Prop>, m: Merge, p: Prop): Result<seq<Prop>> {
    match Merged(Lookup(query, p.key), m, p.val)
    case Throw(e) => Throw(e)
    case Ok(c) => Ok(Assign(query, p.key, c))
  }

  /** A whole group, entry by entry, stopping at the first raise. */
  function ApplyEntries(query: seq<Prop>, m: Merge, entries: seq<Prop>): Result<seq<Prop>>
    decreases |entries|
  {
    if entries == [] then Ok(query)
    else
      match Step(query, m, entries[0])
      case Throw(e) => Throw(e)
      case Ok(q) => ApplyEntries(q, m, entries[1..])
  }

  /**
   * A group's `for..in` loop, which tests `fields.hasOwnProperty(field)` on
   * every name: a group owning `hasOwnProperty` raises at the first name,
   * before any write.
   */
  function ApplyFields(query: seq<Prop>, m: Merge, fields: Value): Result<seq<Prop>> {
    if Shadows(fields, "hasOwnProperty") then Throw(TypeError)
    else ApplyEntries(query, m, Entries(fields))
  }

  function ApplyGroup(query: seq<Prop>, op: CritOp, group: Value): Result<seq<Prop>> {
    ApplyFields(query, MergeFor(op), group)
  }

  /** The groups of `ops`, in order, each only when the descriptor holds a truthy one. */
  function ApplyOps(query: seq<Prop>, ops: seq<CritOp>, options: Value): Result<seq<Prop>>
    decreases |ops|
  {
    if ops == [] then Ok(query)
    else
      var group := Get(options, OptionName(ops[0]));
      var next := if Truthy(group) then ApplyGroup(query, ops[0], group) else Ok(query);
      match next
      case Throw(e) => Throw(e)
      case Ok(q) => ApplyOps(q, ops[1..], options)
  }

  /** The filter `list` passes to `find`. */
  function BuildFilter(options: Value): Result<seq<Prop>> {
    ApplyOps([], CritOrder, options)
  }

  /* ---------------- The source's loops ---------------- */

  /** One iteration of a group's loop, given the field's new constraint `c`. */
  lemma ApplyEntriesAt(query: seq<Prop>, m: Merge, entries: seq<Prop>, i: nat, c: Result<Value>)
    requires i < |entries| && c == Merged(Lookup(query, entries[i].key), m, entries[i].val)
    ensures c.Throw? ==> ApplyEntries(query, m, entries[i..]) == Throw(c.error)
    ensures c.Ok? ==>
      ApplyEntries(query, m, entries[i..]) == ApplyEntries(Assign(query, entries[i].key, c.value), m, entries[i + 1..])
  {
    assert entries[i..][0] == entries[i];
    assert entries[i..][1..] == entries[i + 1..];
  }

  /** `critOps.eq` (index.js:94-103). */
  method CritEq(query: seq<Prop>, fields: Value) returns (r: Result<seq<Prop>>)
    ensures r == ApplyFields(query, Assigning, fields)
  {
    var entries := Entries(fields);
    ShadowsEntries(fields, "hasOwnProperty");
    var q := query;
    var i := 0;
    while i < |entries|
      invariant 0 <= i <= |entries|
      invariant i > 0 ==> !Shadows(fields, "hasOwnProperty")
      invariant ApplyEntries(q, Assigning, entries[i..]) == ApplyEntries(query, Assigning, entries)
    {
      var field := entries[i].key;
      // `for..in` visits own names only, so only a shadowed method fails the test.
      EnumeratedOwn(fields, i);
      var own := HasOwnProperty(fields, field);
      if own.Throw? {
        return Throw(own.error);
      }
      ApplyEntriesAt(q, Assigning, entries, i, Ok(entries[i].val));
      q := Assign(q, field, entries[i].val);
      i := i + 1;
    }
    r := Ok(q);
  }

  /** The body of `buildQuery`'s loop for one field (index.js:160-165): its new constraint. */
  method OperatorField(current: Value, expression: string, v: Value) returns (r: Result<Value>)
    ensures r == Merged(current, Operator(expression), v)
  {
    var queryField := Obj([]);
    if !current.Undefined? {
      queryField := current;
    }
    if queryField.Null? {
      return Throw(TypeError);
    }
    if queryField.Obj? {
      queryField := Obj(Assign(queryField.props, expression, v));
    }
    MergedOperator(current, expression, v);
    assert Constrained(current, expression, v, queryField);
    r := Ok(queryField);
  }

  /** `buildQuery` (index.js:155-169), shared by `ne`, `lt`, `le`, `gt`, `ge`, `like` and `in`. */
  method BuildQuery(query: seq<Prop>, fields: Value, expression: string) returns (r: Result<seq<Prop>>)
    ensures r == ApplyFields(query, Operator(expression), fields)
  {
    var entries := Entries(fields);
    ShadowsEntries(fields, "hasOwnProperty");
    var q := query;
    var i := 0;
    while i < |entries|
      invariant 0 <= i <= |entries|
      invariant i > 0 ==> !Shadows(fields, "hasOwnProperty")
      invariant ApplyEntries(q, Operator(expression), entries[i..])
             == ApplyEntries(query, Operator(expression), entries)
    {
      var field := entries[i].key;
      EnumeratedOwn(fields, i);
      var own := HasOwnProperty(fields, field);
      if own.Throw? {
        assert ApplyFields(query, Operator(expression), fields) == Throw(TypeError);
        return Throw(own.error);
      }
      var queryField := OperatorField(Lookup(q, field), expression, entries[i].val);
      ApplyEntriesAt(q, Operator(expression), entries, i, queryField);
      if queryField.Throw? {
        assert ApplyFields(query, Operator(expression), fields) == ApplyEntries(query, Operator(expression), entries);
        return Throw(queryField.error);
      }
      q := Assign(q, field, queryField.value);
      i := i + 1;
    }
    r := Ok(q);
  }

  /** The body of the `geo` loop for one field (index.js:131-140): its new constraint. */
  method WithinField(current: Value, spec: Value) returns (r: Result<Value>)
    ensures r == Merged(current, Within, spec)
  {
    var queryField := Obj([]);
    if !current.Undefined? {
      queryField := current;
    }
    if queryField.Null? || Nullish(spec) {
      return Throw(TypeError);
    }
    // {$centerSphere: [spec.center, spec.radius / 6378]}
    var within := WithinTerm(spec);
    if queryField.Obj? {
      queryField := Obj(Assign(queryField.props, "$within", within));
    }
    MergedWithin(current, spec);
    assert Constrained(current, "$within", within, queryField);
    r := Ok(queryField);
  }

  /** `critOps.geo` (index.js:125-145). */
  method CritGeo(query: seq<Prop>, fields: Value) returns (r: Result<seq<Prop>>)
    ensures r == ApplyFields(query, Within, fields)
  {
    var entries := Entries(fields);
    ShadowsEntries(fields, "hasOwnProperty");
    var q := query;
    var i := 0;
    while i < |entries|
      invariant 0 <= i <= |entries|
      invariant i > 0 ==> !Shadows(fields, "hasOwnProperty")
      invariant ApplyEntries(q, Within, entries[i..]) == ApplyEntries(query, Within, entries)
    {
      var field := entries[i].key;
      EnumeratedOwn(fields, i);
      var own := HasOwnProperty(fields, field);
      if own.Throw? {
        assert ApplyFields(query, Within, fields) == Throw(TypeError);
        return Throw(own.error);
      }
      var queryField := WithinField(Lookup(q, field), entries[i].val);
      ApplyEntriesAt(q, Within, entries, i, queryField);
      if queryField.Throw? {
        assert ApplyFields(query, Within, fields) == ApplyEntries(query, Within, entries);
        return Throw(queryField.error);
      }
      q := Assign(q, field, queryField.value);
      i := i + 1;
    }
    r := Ok(q);
  }

  /** `critOps[op](query, fieldsValues)`: the group's own builder. */
  method CritGroup(query: seq<Prop>, op: CritOp, group: Value) returns (r: Result<seq<Prop>>)
    ensures r == ApplyGroup(query, op, group)
  {
    if op == Eq {
      r := CritEq(query, group);
    } else if op == Geo {
      r := CritGeo(query, group);
    } else {
      assert MergeFor(op) == Operator(MergeFor(op).expression);
      r := BuildQuery(query, group, MergeFor(op).expression);
    }
  }

  /* ---------------- What a group does to the filter ---------------- */

  /** The names a group touches are added to the filter's names, and no others. */
  lemma {:induction false} ApplyEntriesKeys(query: seq<Prop>, m: Merge, entries: seq<Prop>)
    requires ApplyEntries(query, m, entries).Ok?
    ensures KeySet(ApplyEntries(query, m, entries).value) == KeySet(query) + KeySet(entries)
    decreases |entries|
  {
    if entries != [] {
      var q := Step(query, m, entries[0]).value;
      ApplyEntriesKeys(q, m, entries[1..]);
      HeadTail(entries);
    }
  }

  /** A group leaves the fields it does not name as they were. */
  lemma {:induction false} ApplyEntriesOthers(query: seq<Prop>, m: Merge, entries: seq<Prop>)
    ensures ApplyEntries(query, m, entries).Ok? ==>
      forall f :: f !in KeySet(entries) ==>
        Lookup(ApplyEntries(query, m, entries).value, f) == Lookup(query, f)
    decreases |entries|
  {
    if entries != [] {
      HeadTail(entries);
      var c0 := Merged(Lookup(query, entries[0].key), m, entries[0].val);
      if c0.Ok? {
        ApplyEntriesOthers(Assign(query, entries[0].key, c0.value), m, entries[1..]);
      }
    }
  }

  /** With distinct names, the tail of a group names none of its head's field. */
  lemma TailKeys(entries: seq<Prop>)
    requires entries != [] && DistinctKeys(entries)
    ensures DistinctKeys(entries[1..])
    ensures forall i :: 1 <= i < |entries| ==> entries[1..][i - 1] == entries[i] && entries[i].key != entries[0].key
  {
    HeadTail(entries);
    forall i | 1 <= i < |entries| ensures entries[i].key != entries[0].key {
      assert entries[1..][i - 1] == entries[i];
      assert entries[1..][i - 1].key in KeySet(entries[1..]);
    }
  }

  lemma {:induction false} ApplyEntriesOk(query: seq<Prop>, m: Merge, entries: seq<Prop>)
    requires DistinctKeys(entries)
    requires forall i :: 0 <= i < |entries| ==> Merged(Lookup(query, entries[i].key), m, entries[i].val).Ok?
    ensures ApplyEntries(query, m, entries).Ok?
    decreases |entries|
  {
    if entries != [] {
      var rest, k0 := entries[1..], entries[0].key;
      TailKeys(entries);
      var q := Assign(query, k0, Merged(Lookup(query, k0), m, entries[0].val).value);
      forall j | 0 <= j < |rest| ensures Merged(Lookup(q, rest[j].key), m, rest[j].val).Ok? {
        assert rest[j] == entries[j + 1];
      }
      ApplyEntriesOk(q, m, rest);
    }
  }

  lemma {:induction false} ApplyEntriesThrow(query: seq<Prop>, m: Merge, entries: seq<Prop>, i: nat)
    requires DistinctKeys(entries) && i < |entries|
    requires !Merged(Lookup(query, entries[i].key), m, entries[i].val).Ok?
    ensures ApplyEntries(query, m, entries).Throw?
    decreases i
  {
    var k0 := entries[0].key;
    var c0 := Merged(Lookup(query, k0), m, entries[0].val);
    if i > 0 && c0.Ok? {
      var q, rest := Assign(query, k0, c0.value), entries[1..];
      assert DistinctKeys(rest) && rest[i - 1] == entries[i] && entries[i].key != k0 by {
        TailKeys(entries);
      }
      assert Lookup(q, rest[i - 1].key) == Lookup(query, entries[i].key);
      ApplyEntriesThrow(q, m, rest, i - 1);
      assert ApplyEntries(query, m, entries) == ApplyEntries(q, m, rest);
    }
  }

  /** With distinct field names, a group raises exactly when one field's merge raises. */
  lemma ApplyEntriesRaises(query: seq<Prop>, m: Merge, entries: seq<Prop>)
    requires DistinctKeys(entries)
    ensures ApplyEntries(query, m, entries).Ok? <==>
      forall i :: 0 <= i < |entries| ==> Merged(Lookup(query, entries[i].key), m, entries[i].val).Ok?
  {
    if forall i :: 0 <= i < |entries| ==> Merged(Lookup(query, entries[i].key), m, entries[i].val).Ok? {
      ApplyEntriesOk(query, m, entries);
    } else {
      var i :| 0 <= i < |entries| && !Merged(Lookup(query, entries[i].key), m, entries[i].val).Ok?;
      ApplyEntriesThrow(query, m, entries, i);
    }
  }

  /**
   * With distinct field names, a group acts field by field: it raises exactly
   * when one field's merge raises; otherwise each named field ends with its
   * merged constraint and every other field is unchanged.
   */
  lemma {:induction false} ApplyEntriesPointwise(query: seq<Prop>, m: Merge, entries: seq<Prop>)
    requires DistinctKeys(entries)
    ensures ApplyEntries(query, m, entries).Ok? <==>
      forall i :: 0 <= i < |entries| ==> Merged(Lookup(query, entries[i].key), m, entries[i].val).Ok?
    ensures ApplyEntries(query, m, entries).Ok? ==>
      forall i :: 0 <= i < |entries| ==>
        Merged(Lookup(query, entries[i].key), m, entries[i].val)
          == Ok(Lookup(ApplyEntries(query, m, entries).value, entries[i].key))
    ensures ApplyEntries(query, m, entries).Ok? ==>
      forall f :: f !in KeySet(entries) ==>
        Lookup(ApplyEntries(query, m, entries).value, f) == Lookup(query, f)
    decreases |entries|
  {
    ApplyEntriesRaises(query, m, entries);
    ApplyEntriesOthers(query, m, entries);
    if entries != [] {
      var rest, k0 := entries[1..], entries[0].key;
      HeadTail(entries);
      var c0 := Merged(Lookup(query, k0), m, entries[0].val);
      if c0.Ok? {
        var q := Assign(query, k0, c0.value);
        ApplyEntriesPointwise(q, m, rest);
        if ApplyEntries(q, m, rest).Ok? {
          var r := ApplyEntries(q, m, rest).value;
          ApplyEntriesOthers(q, m, rest);
          assert Lookup(r, k0) == c0.value;
          forall i | 1 <= i < |entries|
            ensures Merged(Lookup(query, entries[i].key), m, entries[i].val) == Ok(Lookup(r, entries[i].key))
          {
            assert rest[i - 1] == entries[i];
            assert entries[i].key != k0;
          }
        }
      }
    }
  }

  /* ---------------- The three kinds of group ---------------- */

  /**
   * How a merged constraint `after` relates to the constraint `before` it
   * replaces when `{key: v}` is merged in: an absent constraint becomes
   * `{key: v}`, an object gains (or updates) `key` with its other operators
   * kept, and any other value (a primitive `eq` literal) is left as it was.
   */
  predicate Constrained(before: Value, key: string, v: Value, after: Value) {
    && (before.Undefined? ==> after == Obj([Prop(key, v)]))
    && (before.Obj? ==> after == Obj(Assign(before.props, key, v)))
    && (!before.Undefined? && !before.Obj? ==> after == before)
  }

  /** The `$within` value a geo spec produces. */
  function WithinTerm(spec: Value): Value {
    Obj([Prop("$centerSphere", Arr([Get(spec, "center"), Radians(Get(spec, "radius"))]))])
  }

  lemma MergedOperator(before: Value, e: string, v: Value)
    ensures Merged(before, Operator(e), v).Throw? <==> before.Null?
    ensures Merged(before, Operator(e), v).Ok? ==>
      Constrained(before, e, v, Merged(before, Operator(e), v).value)
  {
    if before.Undefined? {
      assert Assign([], e, v) == [] + [Prop(e, v)];
    }
  }

  lemma MergedWithin(before: Value, spec: Value)
    ensures Merged(before, Within, spec).Throw? <==> before.Null? || Nullish(spec)
    ensures Merged(before, Within, spec).Ok? ==>
      Constrained(before, "$within", WithinTerm(spec), Merged(before, Within, spec).value)
  {
    if !Nullish(spec) {
      MergedOperator(before, "$within", WithinTerm(spec));
      assert Merged(before, Within, spec) == Merged(before, Operator("$within"), WithinTerm(spec));
    }
  }

  /**
   * `ne`, `lt`, `le`, `gt`, `ge`, `like`, `in`: every field of the group whose
   * constraint is absent or an object ends with `query[f][op] = value`, the
   * operators already on it kept; a primitive constraint (an `eq` literal)
   * swallows the write and survives; a null constraint raises; fields the
   * group does not name are unchanged.
   */
  lemma OperatorGroup(query: seq<Prop>, op: CritOp, group: Value)
    requires op != Eq && op != Geo
    requires WellFormed(group)
    ensures var es := Entries(group);
      ApplyGroup(query, op, group).Throw? <==>
        Shadows(group, "hasOwnProperty") || exists i :: 0 <= i < |es| && Lookup(query, es[i].key).Null?
    ensures var es := Entries(group); var e := MergeFor(op).expression;
      ApplyGroup(query, op, group).Ok? ==>
        var r := ApplyGroup(query, op, group).value;
        && (forall i :: 0 <= i < |es| ==>
              Constrained(Lookup(query, es[i].key), e, es[i].val, Lookup(r, es[i].key)))
        && (forall f :: f !in KeySet(es) ==> Lookup(r, f) == Lookup(query, f))
  {
    var es := Entries(group);
    var m := MergeFor(op);
    if Shadows(group, "hasOwnProperty") {
      return;
    }
    EntriesDistinct(group);
    ApplyEntriesPointwise(query, m, es);
    assert ApplyGroup(query, op, group) == ApplyEntries(query, m, es);
    if ApplyEntries(query, m, es).Ok? {
      var r := ApplyEntries(query, m, es).value;
      forall i | 0 <= i < |es|
        ensures !Lookup(query, es[i].key).Null?
        ensures Constrained(Lookup(query, es[i].key), m.expression, es[i].val, Lookup(r, es[i].key))
      {
        MergedOperator(Lookup(query, es[i].key), m.expression, es[i].val);
      }
    } else {
      var i :| 0 <= i < |es| && !Merged(Lookup(query, es[i].key), m, es[i].val).Ok?;
      MergedOperator(Lookup(query, es[i].key), m.expression, es[i].val);
    }
  }

  /** `eq`: every field of the group is set to the literal value, replacing what was there. */
  lemma EqGroup(query: seq<Prop>, group: Value)
    requires WellFormed(group)
    ensures ApplyGroup(query, Eq, group).Ok? <==> !Shadows(group, "hasOwnProperty")
    ensures var es := Entries(group);
      ApplyGroup(query, Eq, group).Ok? ==>
        var r := ApplyGroup(query, Eq, group).value;
        && (forall i :: 0 <= i < |es| ==> Lookup(r, es[i].key) == es[i].val)
        && (forall f :: f !in KeySet(es) ==> Lookup(r, f) == Lookup(query, f))
  {
    EntriesDistinct(group);
    ApplyEntriesPointwise(query, Assigning, Entries(group));
  }

  /**
   * `geo`: each field's constraint gains
   * `$within: {$centerSphere: [center, radius / 6378]}`; a missing geo spec
   * or a null constraint raises.
   */
  lemma GeoGroup(query: seq<Prop>, group: Value)
    requires WellFormed(group)
    ensures var es := Entries(group);
      ApplyGroup(query, Geo, group).Throw? <==>
        || Shadows(group, "hasOwnProperty")
        || exists i :: 0 <= i < |es| && (Lookup(query, es[i].key).Null? || Nullish(es[i].val))
    ensures var es := Entries(group);
      ApplyGroup(query, Geo, group).Ok? ==>
        var r := ApplyGroup(query, Geo, group).value;
        && (forall i :: 0 <= i < |es| ==>
              Constrained(Lookup(query, es[i].key), "$within", WithinTerm(es[i].val), Lookup(r, es[i].key)))
        && (forall f :: f !in KeySet(es) ==> Lookup(r, f) == Lookup(query, f))
  {
    var es := Entries(group);
    if Shadows(group, "hasOwnProperty") {
      return;
    }
    EntriesDistinct(group);
    ApplyEntriesPointwise(query, Within, es);
    assert ApplyGroup(query, Geo, group) == ApplyEntries(query, Within, es);
    if ApplyEntries(query, Within, es).Ok? {
      var r := ApplyEntries(query, Within, es).value;
      forall i | 0 <= i < |es|
        ensures !(Lookup(query, es[i].key).Null? || Nullish(es[i].val))
        ensures Constrained(Lookup(query, es[i].key), "$within", WithinTerm(es[i].val), Lookup(r, es[i].key))
      {
        MergedWithin(Lookup(query, es[i].key), es[i].val);
      }
    } else {
      var i :| 0 <= i < |es| && !Merged(Lookup(query, es[i].key), Within, es[i].val).Ok?;
      MergedWithin(Lookup(query, es[i].key), es[i].val);
    }
  }

  /* ---------------- The whole filter ---------------- */

  /** The field names of the truthy groups among `ops`. */
  function GroupFields(options: Value, ops: seq<CritOp>): set<string>
    decreases |ops|
  {
    if ops == [] then {}
    else
      var group := Get(options, OptionName(ops[0]));
      (if Truthy(group) then KeySet(Entries(group)) else {}) + GroupFields(options, ops[1..])
  }

  lemma {:induction false} ApplyOpsKeys(query: seq<Prop>, ops: seq<CritOp>, options: Value)
    requires ApplyOps(query, ops, options).Ok?
    ensures KeySet(ApplyOps(query, ops, options).value) == KeySet(query) + GroupFields(options, ops)
    decreases |ops|
  {
    if ops != [] {
      var group := Get(options, OptionName(ops[0]));
      if Truthy(group) {
        ApplyEntriesKeys(query, MergeFor(ops[0]), Entries(group));
        ApplyOpsKeys(ApplyGroup(query, ops[0], group).value, ops[1..], options);
      } else {
        ApplyOpsKeys(query, ops[1..], options);
      }
    }
  }

  /** The filter's names are exactly the union of the names of the present groups. */
  lemma FilterKeys(options: Value)
    requires BuildFilter(options).Ok?
    ensures KeySet(BuildFilter(options).value) == GroupFields(options, CritOrder)
  {
    ApplyOpsKeys([], CritOrder, options);
  }

  lemma ApplyOpsUnfold(query: seq<Prop>, ops: seq<CritOp>, options: Value)
    requires ops != []
    ensures !Truthy(Get(options, OptionName(ops[0]))) ==>
      ApplyOps(query, ops, options) == ApplyOps(query, ops[1..], options)
    ensures Truthy(Get(options, OptionName(ops[0]))) ==>
      var next := ApplyGroup(query, ops[0], Get(options, OptionName(ops[0])));
      && (next.Ok? ==> ApplyOps(query, ops, options) == ApplyOps(next.value, ops[1..], options))
      && (next.Throw? ==> ApplyOps(query, ops, options) == Throw(next.error))
  {
  }

  /** `ApplyOpsUnfold` read at position `j` of `ops`. */
  lemma ApplyOpsAt(query: seq<Prop>, ops: seq<CritOp>, j: nat, options: Value)
    requires j < |ops|
    ensures !Truthy(Get(options, OptionName(ops[j]))) ==>
      ApplyOps(query, ops[j..], options) == ApplyOps(query, ops[j + 1..], options)
    ensures Truthy(Get(options, OptionName(ops[j]))) ==>
      var next := ApplyGroup(query, ops[j], Get(options, OptionName(ops[j])));
      && (next.Ok? ==> ApplyOps(query, ops[j..], options) == ApplyOps(next.value, ops[j + 1..], options))
      && (next.Throw? ==> ApplyOps(query, ops[j..], options) == Throw(next.error))
  {
    ApplyOpsUnfold(query, ops[j..], options);
    assert ops[j..][0] == ops[j] && ops[j..][1..] == ops[j + 1..];
  }

  lemma ApplySingle(query: seq<Prop>, m: Merge, p: Prop)
    ensures ApplyEntries(query, m, [p]) == Step(query, m, p)
  {
    assert [p][1..] == [];
  }

  /** A group naming one field: merging `{f: v}` into a filter without `f`. */
  lemma FreshFieldGroup(query: seq<Prop>, op: CritOp, f: string, v: Value)
    requires f !in KeySet(query) && op != Geo
    ensures ApplyGroup(query, op, Obj([Prop(f, v)])) ==
      if f == "hasOwnProperty" then Throw(TypeError)
      else Ok(query + [Prop(f, if op == Eq then v else Obj([Prop(MergeFor(op).expression, v)]))])
  {
    if f == "hasOwnProperty" {
      assert Has([Prop(f, v)], "hasOwnProperty");
      return;
    }
    ApplySingle(query, MergeFor(op), Prop(f, v));
    LookupAbsent(query, f);
    if op != Eq {
      MergedOperator(Undefined, MergeFor(op).expression, v);
    }
  }

  /** A group naming one field: merging `{f: v}` into a one-field filter on `f`. */
  lemma SameFieldGroup(c: Value, op: CritOp, f: string, v: Value)
    requires op != Eq && op != Geo && !c.Null?
    ensures ApplyGroup([Prop(f, c)], op, Obj([Prop(f, v)])) ==
      if f == "hasOwnProperty" then Throw(TypeError)
      else Ok([Prop(f, Merged(c, MergeFor(op), v).value)])
  {
    if f == "hasOwnProperty" {
      assert Has([Prop(f, v)], "hasOwnProperty");
      return;
    }
    ApplySingle([Prop(f, c)], MergeFor(op), Prop(f, v));
    LookupAt([Prop(f, c)], 0);
    MergedOperator(c, MergeFor(op).expression, v);
    AssignExisting([Prop(f, c)], f, Merged(c, MergeFor(op), v).value);
  }

  /** Groups a descriptor does not hold (or holds falsy) leave the filter alone. */
  lemma {:induction false} SkipAbsentGroups(query: seq<Prop>, ops: seq<CritOp>, s: nat, k: nat, options: Value)
    requires s <= k <= |ops|
    requires forall i :: s <= i < k ==> !Truthy(Get(options, OptionName(ops[i])))
    ensures ApplyOps(query, ops[s..], options) == ApplyOps(query, ops[k..], options)
    decreases k - s
  {
    if s < k {
      ApplyOpsAt(query, ops, s, options);
      SkipAbsentGroups(query, ops, s + 1, k, options);
    }
  }

  lemma FromStart(query: seq<Prop>, ops: seq<CritOp>, options: Value)
    ensures ApplyOps(query, ops[0..], options) == ApplyOps(query, ops, options)
  {
    assert ops[0..] == ops;
  }

  /** With no group present from `s` on, the filter stays as it is. */
  lemma SkipToEnd(query: seq<Prop>, ops: seq<CritOp>, s: nat, options: Value)
    requires s <= |ops|
    requires forall i :: s <= i < |ops| ==> !Truthy(Get(options, OptionName(ops[i])))
    ensures ApplyOps(query, ops[s..], options) == Ok(query)
  {
    SkipAbsentGroups(query, ops, s, |ops|, options);
    assert ops[|ops|..] == [];
  }

  /** Past absent groups from `s` up to a present one at `k`, the filter continues from that group's result. */
  lemma GroupAt(query: seq<Prop>, ops: seq<CritOp>, s: nat, k: nat, options: Value, q: seq<Prop>)
    requires s <= k < |ops|
    requires forall i :: s <= i < k ==> !Truthy(Get(options, OptionName(ops[i])))
    requires Truthy(Get(options, OptionName(ops[k])))
    requires ApplyGroup(query, ops[k], Get(options, OptionName(ops[k]))) == Ok(q)
    ensures ApplyOps(query, ops[s..], options) == ApplyOps(q, ops[k + 1..], options)
  {
    SkipAbsentGroups(query, ops, s, k, options);
    ApplyOpsAt(query, ops, k, options);
  }

  /** The filter of a descriptor holding just two groups, the first earlier in `ops`. */
  lemma TwoGroups(ops: seq<CritOp>, a: nat, b: nat, options: Value, q1: seq<Prop>, q2: seq<Prop>)
    requires a < b < |ops|
    requires forall i | 0 <= i < |ops| && i != a && i != b :: !Truthy(Get(options, OptionName(ops[i])))
    requires Truthy(Get(options, OptionName(ops[a]))) && Truthy(Get(options, OptionName(ops[b])))
    requires ApplyGroup([], ops[a], Get(options, OptionName(ops[a]))) == Ok(q1)
    requires ApplyGroup(q1, ops[b], Get(options, OptionName(ops[b]))) == Ok(q2)
    ensures ApplyOps([], ops, options) == Ok(q2)
  {
    BeforeSecond(ops, a, b, options, q1);
    LastGroupAt(q1, ops, a + 1, b, options, q2);
  }

  /** From `s` on, only the group at `k` is present: the filter ends as that group leaves it. */
  lemma {:induction false} LastGroupAt(query: seq<Prop>, ops: seq<CritOp>, s: nat, k: nat, options: Value, q: seq<Prop>)
    requires s <= k < |ops|
    requires forall i :: s <= i < k ==> !Truthy(Get(options, OptionName(ops[i])))
    requires forall i :: k + 1 <= i < |ops| ==> !Truthy(Get(options, OptionName(ops[i])))
    requires Truthy(Get(options, OptionName(ops[k])))
    requires ApplyGroup(query, ops[k], Get(options, OptionName(ops[k]))) == Ok(q)
    ensures ApplyOps(query, ops[s..], options) == Ok(q)
    decreases k - s
  {
    ApplyOpsAt(query, ops, s, options);
    if s < k {
      LastGroupAt(query, ops, s + 1, k, options, q);
    } else {
      SkipToEnd(q, ops, k + 1, options);
    }
  }

  lemma BeforeSecond(ops: seq<CritOp>, a: nat, b: nat, options: Value, q1: seq<Prop>)
    requires a < b < |ops|
    requires forall i | 0 <= i < |ops| && i != a && i != b :: !Truthy(Get(options, OptionName(ops[i])))
    requires Truthy(Get(options, OptionName(ops[a])))
    requires ApplyGroup([], ops[a], Get(options, OptionName(ops[a]))) == Ok(q1)
    ensures ApplyOps([], ops, options) == ApplyOps(q1, ops[a + 1..], options)
  {
    GroupAt([], ops, 0, a, options, q1);
    FromStart([], ops, options);
  }

  /** A descriptor holding two distinct groups holds nothing under the other names. */
  lemma TwoGroupOptions(a: nat, b: nat, ga: Value, gb: Value)
    requires a < b < |CritOrder|
    ensures var options := Obj([Prop(OptionName(CritOrder[a]), ga), Prop(OptionName(CritOrder[b]), gb)]);
      && Get(options, OptionName(CritOrder[a])) == ga
      && Get(options, OptionName(CritOrder[b])) == gb
      && forall i | 0 <= i < |CritOrder| && i != a && i != b :: Get(options, OptionName(CritOrder[i])).Undefined?
  {
    var ps := [Prop(OptionName(CritOrder[a]), ga), Prop(OptionName(CritOrder[b]), gb)];
    OptionNamesDistinct(a, b);
    LookupAt(ps, 0);
    LookupAt(ps, 1);
    forall i | 0 <= i < |CritOrder| && i != a && i != b
      ensures Lookup(ps, OptionName(CritOrder[i])).Undefined?
    {
      OptionNamesDistinct(a, i);
      OptionNamesDistinct(b, i);
      LookupAbsent(ps, OptionName(CritOrder[i]));
    }
  }

  /** The filter of a descriptor holding just two groups, the first earlier in `CritOrder`. */
  lemma TwoGroupFilter(a: nat, b: nat, ga: Value, gb: Value, q1: seq<Prop>, q2: seq<Prop>)
    requires a < b < |CritOrder|
    requires Truthy(ga) && Truthy(gb)
    requires ApplyGroup([], CritOrder[a], ga) == Ok(q1)
    requires ApplyGroup(q1, CritOrder[b], gb) == Ok(q2)
    ensures BuildFilter(Obj([Prop(OptionName(CritOrder[a]), ga), Prop(OptionName(CritOrder[b]), gb)]))
         == Ok(q2)
  {
    TwoGroupOptions(a, b, ga, gb);
    TwoGroups(CritOrder, a, b, Obj([Prop(OptionName(CritOrder[a]), ga), Prop(OptionName(CritOrder[b]), gb)]), q1, q2);
  }

  /** A descriptor holding just two groups raises when the earlier of them does. */
  lemma FirstGroupRaises(a: nat, b: nat, ga: Value, gb: Value)
    requires a < b < |CritOrder|
    requires Truthy(ga) && ApplyGroup([], CritOrder[a], ga).Throw?
    ensures BuildFilter(Obj([Prop(OptionName(CritOrder[a]), ga), Prop(OptionName(CritOrder[b]), gb)]))
         == ApplyGroup([], CritOrder[a], ga)
  {
    var options := Obj([Prop(OptionName(CritOrder[a]), ga), Prop(OptionName(CritOrder[b]), gb)]);
    TwoGroupOptions(a, b, ga, gb);
    SkipAbsentGroups([], CritOrder, 0, a, options);
    ApplyOpsAt([], CritOrder, a, options);
    FromStart([], CritOrder, options);
  }

  /** An operator merged into a field's one-operator constraint joins it. */
  lemma SecondOperator(f: string, ea: string, va: Value, op: CritOp, vb: Value)
    requires op != Eq && op != Geo && ea != MergeFor(op).expression
    ensures ApplyGroup([Prop(f, Obj([Prop(ea, va)]))], op, Obj([Prop(f, vb)]))
         == if f == "hasOwnProperty" then Throw(TypeError)
            else Ok([Prop(f, Obj([Prop(ea, va), Prop(MergeFor(op).expression, vb)]))])
  {
    var eb := MergeFor(op).expression;
    SameFieldGroup(Obj([Prop(ea, va)]), op, f, vb);
    if f == "hasOwnProperty" {
      return;
    }
    assert MergeFor(op) == Operator(eb);
    MergedOperator(Obj([Prop(ea, va)]), eb, vb);
    assert KeySet([Prop(ea, va)]) == {ea};
    assert Assign([Prop(ea, va)], eb, vb) == [Prop(ea, va)] + [Prop(eb, vb)] == [Prop(ea, va), Prop(eb, vb)];
    assert Merged(Obj([Prop(ea, va)]), MergeFor(op), vb) == Ok(Obj([Prop(ea, va), Prop(eb, vb)]));
  }

  /**
   * Two operator groups on one field (`ge` and `le` making a range, say)
   * compose into one constraint holding both operators, in group order.
   */
  lemma OperatorsCompose(a: nat, b: nat, f: string, va: Value, vb: Value)
    requires 1 <= a < b <= 7
    ensures var ea, eb := MergeFor(CritOrder[a]).expression, MergeFor(CritOrder[b]).expression;
      BuildFilter(Obj([Prop(OptionName(CritOrder[a]), Obj([Prop(f, va)])), Prop(OptionName(CritOrder[b]), Obj([Prop(f, vb)]))]))
        == if f == "hasOwnProperty" then Throw(TypeError)
           else Ok([Prop(f, Obj([Prop(ea, va), Prop(eb, vb)]))])
  {
    var ea, eb := MergeFor(CritOrder[a]).expression, MergeFor(CritOrder[b]).expression;
    if f == "hasOwnProperty" {
      FreshFieldGroup([], CritOrder[a], f, va);
      FirstGroupRaises(a, b, Obj([Prop(f, va)]), Obj([Prop(f, vb)]));
      return;
    }
    var q1 := [Prop(f, Obj([Prop(ea, va)]))];
    assert ApplyGroup([], CritOrder[a], Obj([Prop(f, va)])) == Ok(q1) by {
      FreshFieldGroup([], CritOrder[a], f, va);
      assert [] + q1 == q1;
    }
    assert ApplyGroup(q1, CritOrder[b], Obj([Prop(f, vb)])) == Ok([Prop(f, Obj([Prop(ea, va), Prop(eb, vb)]))]) by {
      ExpressionsDistinct(a, b);
      SecondOperator(f, ea, va, CritOrder[b], vb);
    }
    TwoGroupFilter(a, b, Obj([Prop(f, va)]), Obj([Prop(f, vb)]), q1, [Prop(f, Obj([Prop(ea, va), Prop(eb, vb)]))]);
  }

  /**
   * A primitive `eq` literal survives any later operator group on the same
   * field: the operator's property write on the primitive is lost.
   */
  lemma EqLiteralSurvivesOperator(b: nat, f: string, literal: Value, bound: Value)
    requires 1 <= b <= 7
    requires literal.Num? || literal.Str? || literal.Bool?
    ensures BuildFilter(Obj([Prop("eq", Obj([Prop(f, literal)])), Prop(OptionName(CritOrder[b]), Obj([Prop(f, bound)]))]))
         == if f == "hasOwnProperty" then Throw(TypeError) else Ok([Prop(f, literal)])
  {
    assert OptionName(CritOrder[0]) == "eq";
    if f == "hasOwnProperty" {
      FreshFieldGroup([], Eq, f, literal);
      FirstGroupRaises(0, b, Obj([Prop(f, literal)]), Obj([Prop(f, bound)]));
      return;
    }
    var q1 := [Prop(f, literal)];
    assert ApplyGroup([], CritOrder[0], Obj([Prop(f, literal)])) == Ok(q1) by {
      FreshFieldGroup([], Eq, f, literal);
      assert [] + q1 == q1;
    }
    assert ApplyGroup(q1, CritOrder[b], Obj([Prop(f, bound)])) == Ok(q1) by {
      LiteralKeepsOperator(CritOrder[b], f, literal, bound);
    }
    TwoGroupFilter(0, b, Obj([Prop(f, literal)]), Obj([Prop(f, bound)]), q1, q1);
  }

  /** An operator group leaves a field holding a primitive as it is. */
  lemma LiteralKeepsOperator(op: CritOp, f: string, literal: Value, bound: Value)
    requires op != Eq && op != Geo
    requires literal.Num? || literal.Str? || literal.Bool?
    ensures ApplyGroup([Prop(f, literal)], op, Obj([Prop(f, bound)])) ==
      if f == "hasOwnProperty" then Throw(TypeError) else Ok([Prop(f, literal)])
  {
    SameFieldGroup(literal, op, f, bound);
    MergedOperator(literal, MergeFor(op).expression, bound);
  }
}
