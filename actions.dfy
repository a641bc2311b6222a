/**
 * The per-action logic of the fh.db compatibility layer (index.js:213-429),
 * each handler split at its one store call: a request builder that turns the
 * action descriptor into an immediate answer or a store command, and a
 * response builder that turns what the store returned into the fh.db reply.
 *
 * The MongoDB driver is not part of this model: a store command is a value,
 * and its results are parameters of the response builders.
 */
module Actions {
  import opened JsValues
  import opened ObjectIds
  import opened QueryBuilder
  import opened Envelopes

  /** The driver calls the handlers make; `collection` is the descriptor's `type`. */
  datatype Command =
    | InsertMany(collection: Value, docs: seq<Value>)
    | FindOne(collection: Value, query: seq<Prop>, options: seq<Prop>)
    | Find(collection: Value, query: seq<Prop>, options: seq<Prop>)
    | FindOneAndReplace(collection: Value, query: seq<Prop>, replacement: Value)
    | FindOneAndDelete(collection: Value, query: seq<Prop>)
    | DeleteMany(collection: Value)
    | CreateIndex(collection: Value, spec: Value)

  /** What a handler does before any store result is known. */
  datatype Request =
    | Fail(error: Error)        // `return callback(error)`
    | Reply(result: Value)      // `return callback(undefined, result)` with no store call
    | Issue(command: Command)   // the store is called
    | Raise(error: Error)       // the handler raises

  /** `{_id: createObjectIdFromHexString(guid)}`, the query of read, update and delete. */
  function IdQuery(guid: Value): (q: seq<Prop>)
    ensures |q| == 1 && Lookup(q, "_id") == Decode(guid)
  {
    [Prop("_id", Decode(guid))]
  }

  /* ---------------- create (index.js:213-246) ---------------- */

  function CreateFieldsError(options: Value): Error {
    Message("Fields need to be set as an object or array for '" + ToText(Get(options, "act")) + "' action.")
  }

  /** The shape check on `fields`: truthy, of type "object", and not an empty array. */
  predicate InsertableFields(fields: Value) {
    Truthy(fields) && TypeOf(fields) == "object" && !(fields.Arr? && |fields.items| == 0)
  }

  /**
   * One `forEach` step: a document owning an `_id` whose `length` is 24 has
   * it replaced by its decoding. A null or undefined document, a document
   * owning a `hasOwnProperty` property, or an owned `_id` that is null or
   * undefined, makes `doc.hasOwnProperty('_id') && doc._id.length` raise.
   */
  function CoerceId(doc: Value): (r: Result<Value>)
    ensures r.Throw? <==>
      || Nullish(doc)
      || Shadows(doc, "hasOwnProperty")
      || (doc.Obj? && Has(doc.props, "_id") && Nullish(Lookup(doc.props, "_id")))
    ensures r.Ok? && doc.Obj? ==> r.value.Obj? && KeySet(r.value.props) == KeySet(doc.props)
    ensures r.Ok? && doc.Obj? ==> forall k :: k != "_id" ==> Lookup(r.value.props, k) == Lookup(doc.props, k)
    ensures r.Ok? && doc.Obj? ==>
      Lookup(r.value.props, "_id") ==
        if Get(Lookup(doc.props, "_id"), "length") == Num(24) then Decode(Lookup(doc.props, "_id"))
        else Lookup(doc.props, "_id")
    ensures r.Ok? && !doc.Obj? ==> r.value == doc
  {
    match doc
    case Null => Throw(TypeError)
    case Undefined => Throw(TypeError)
    case Obj(ps) =>
      if Has(ps, "hasOwnProperty") then Throw(TypeError)
      else if !Has(ps, "_id") then
        LookupAbsent(ps, "_id");
        HasKeySet(ps, "_id");
        Ok(doc)
      else
        var id := Lookup(ps, "_id");
        if Nullish(id) then Throw(TypeError)
        else if Get(id, "length") == Num(24) then
          HasKeySet(ps, "_id");
          Ok(Obj(Assign(ps, "_id", Decode(id))))
        else Ok(doc)
    case _ => Ok(doc)
  }

  /** The `forEach` over the documents, stopping at the first raise. */
  function CoerceAll(docs: seq<Value>): (r: Result<seq<Value>>)
    ensures r.Ok? <==> forall i :: 0 <= i < |docs| ==> CoerceId(docs[i]).Ok?
    ensures r.Ok? ==> |r.value| == |docs| && forall i :: 0 <= i < |docs| ==> r.value[i] == CoerceId(docs[i]).value
    ensures r.Throw? ==> exists i :: 0 <= i < |docs| && CoerceId(docs[i]) == Throw(r.error)
    decreases |docs|
  {
    if docs == [] then Ok([])
    else
      match CoerceId(docs[0])
      case Throw(e) => Throw(e)
      case Ok(d) =>
        match CoerceAll(docs[1..])
        case Throw(e) => Throw(e)
        case Ok(ds) => Ok([d] + ds)
  }

  /** The documents `insertMany` receives, or the raise that prevents the call. */
  function CreateRequest(options: Value): Request {
    var fields := Get(options, "fields");
    if !InsertableFields(fields) then Fail(CreateFieldsError(options))
    else
      var docs := if fields.Arr? then fields.items else [fields];
      match CoerceAll(docs)
      case Throw(e) => Raise(e)
      case Ok(ds) => Issue(InsertMany(Get(options, "type"), ds))
  }

  /**
   * The `forEach` that rewrites `doc._id` in place. Each slot ends with its
   * coerced document; at a raise, the slots before it are already rewritten.
   */
  method CoerceIds(docs: array<Value>) returns (error: Option<Error>)
    modifies docs
    ensures error.None? <==> CoerceAll(old(docs[..])).Ok?
    ensures error.None? ==> docs[..] == CoerceAll(old(docs[..])).value
    ensures error.Some? ==> CoerceAll(old(docs[..])) == Throw(error.value)
    ensures error.Some? ==>
      exists i :: 0 <= i < docs.Length && CoerceId(old(docs[i])) == Throw(error.value) &&
        CoerceAll(old(docs[..i])) == Ok(docs[..i]) && docs[i..] == old(docs[i..])
  {
    ghost var original := docs[..];
    for i := 0 to docs.Length
      invariant docs[i..] == original[i..]
      invariant CoerceAll(original[..i]).Ok? && docs[..i] == CoerceAll(original[..i]).value
    {
      var coerced := CoerceId(docs[i]);
      if coerced.Throw? {
        assert CoerceAll(original[..i]) == Ok(docs[..i]);
        CoerceAllStops(original, i);
        return Some(coerced.error);
      }
      assert original[..i + 1] == original[..i] + [original[i]];
      CoerceAllSnoc(original[..i], original[i]);
      ghost var done := docs[..i];
      docs[i] := coerced.value;
      assert docs[..i + 1] == done + [coerced.value];
    }
    assert original[..docs.Length] == original;
    return None;
  }

  /** The first document whose `_id` cannot be read stops the `forEach` with its error. */
  lemma {:induction false} CoerceAllStops(docs: seq<Value>, i: nat)
    requires i < |docs| && CoerceAll(docs[..i]).Ok? && CoerceId(docs[i]).Throw?
    ensures CoerceAll(docs) == Throw(CoerceId(docs[i]).error)
    decreases i
  {
    if i > 0 {
      assert docs[..i][0] == docs[0] && docs[..i][1..] == docs[1..][..i - 1];
      CoerceAllStops(docs[1..], i - 1);
    }
  }

  lemma CoerceAllSnoc(docs: seq<Value>, d: Value)
    requires CoerceAll(docs).Ok? && CoerceId(d).Ok?
    ensures CoerceAll(docs + [d]) == Ok(CoerceAll(docs).value + [CoerceId(d).value])
  {
    var r := CoerceAll(docs + [d]);
    assert r.Ok?;
    assert r.value == CoerceAll(docs).value + [CoerceId(d).value];
  }

  /** `create` up to `insertMany` (index.js:213-227). */
  method Create(options: Value) returns (r: Request)
    ensures r == CreateRequest(options)
  {
    var fields := Get(options, "fields");
    if !Truthy(fields) || TypeOf(fields) != "object" || (fields.Arr? && |fields.items| == 0) {
      return Fail(CreateFieldsError(options));
    }
    var docs: array<Value>;
    if !fields.Arr? {
      docs := new Value[1];
      docs[0] := fields;
    } else {
      var items := fields.items;
      docs := new Value[|items|](i requires 0 <= i < |items| => items[i]);
    }
    assert docs[..] == if fields.Arr? then fields.items else [fields];
    var error := CoerceIds(docs);
    if error.Some? {
      return Raise(error.value);
    }
    r := Issue(InsertMany(Get(options, "type"), docs[..]));
  }

  /**
   * The reply once `insertMany` succeeded: the envelope of the one inserted
   * document, or a bulk status.
   */
  function CreateReply(typ: Value, insertedCount: Value, ops: seq<Value>): Value {
    if insertedCount == Num(1) then Envelope(if |ops| > 0 then ops[0] else Undefined, typ)
    else Obj([Prop("Status", Str("OK")), Prop("Count", insertedCount)])
  }

  /* ---------------- read, update, delete, deleteall (index.js:253-396) ---------------- */

  /** The number of iterations of `for (i = 0; i < fields.length; i += 1)`. */
  function ProjectionLength(fields: Value): nat {
    Count(Get(fields, "length"))
  }

  /**
   * The names `fields[0]`, ..., `fields[fields.length - 1]` as property keys:
   * an array lists the texts of its elements; an object without index
   * properties lists "undefined" as often as its `length` says; a string
   * lists its characters; anything else lists nothing.
   */
  function ListedNames(fields: Value): (names: seq<string>)
    ensures |names| == ProjectionLength(fields)
    ensures fields.Arr? ==>
      |names| == |fields.items| && forall i :: 0 <= i < |names| ==> names[i] == ToText(fields.items[i])
    ensures fields.Obj? && (forall i: nat :: !Has(fields.props, Digits(i))) ==>
      forall i :: 0 <= i < |names| ==> names[i] == "undefined"
    ensures fields.Str? ==>
      |names| == Utf16Length(fields.s) && forall i :: 0 <= i < |fields.s| ==> names[i] == [fields.s[i]]
    ensures !fields.Arr? && !fields.Obj? && !fields.Str? ==> names == []
  {
    seq(ProjectionLength(fields), i requires 0 <= i < ProjectionLength(fields) => ToText(At(fields, i)))
  }

  /** The projection `{name: 1, ...}` written name by name. */
  function Projection(names: seq<string>): seq<Prop>
    decreases |names|
  {
    if names == [] then [] else Assign(Projection(names[..|names| - 1]), names[|names| - 1], Num(1))
  }

  lemma ProjectionStep(names: seq<string>, i: nat)
    requires i < |names|
    ensures Projection(names[..i + 1]) == Assign(Projection(names[..i]), names[i], Num(1))
  {
    assert names[..i + 1][..i] == names[..i];
  }

  /** `mongoOptions.projection`, when `options.fields` is truthy. */
  function ProjectionOptions(options: Value): seq<Prop> {
    var fields := Get(options, "fields");
    if Truthy(fields) then [Prop("projection", Obj(Projection(ListedNames(fields))))] else []
  }

  /** The projection loop of `read` and `list` (index.js:262-268, 296-302). */
  method BuildProjection(fields: Value) returns (projection: seq<Prop>)
    ensures projection == Projection(ListedNames(fields))
  {
    projection := [];
    var n := ProjectionLength(fields);
    ghost var names := ListedNames(fields);
    for i := 0 to n
      invariant projection == Projection(names[..i])
    {
      ProjectionStep(names, i);
      projection := Assign(projection, ToText(At(fields, i)), Num(1));
    }
    assert names[..n] == names;
  }

  /** `mongoOptions` with its projection, as `read` and `list` both start it (index.js:259-268, 294-302). */
  method ProjectionMongoOptions(options: Value) returns (mongoOptions: seq<Prop>)
    ensures mongoOptions == ProjectionOptions(options)
  {
    mongoOptions := [];
    var fields := Get(options, "fields");
    if Truthy(fields) {
      var projection := BuildProjection(fields);
      mongoOptions := Assign(mongoOptions, "projection", Obj(projection));
    }
  }

  function ReadRequest(options: Value): Request {
    var guid := Get(options, "guid");
    if !Truthy(guid) then Reply(Obj([]))
    else Issue(FindOne(Get(options, "type"), IdQuery(guid), ProjectionOptions(options)))
  }

  function UpdateRequest(options: Value): Request {
    var fields := Get(options, "fields");
    var guid := Get(options, "guid");
    if !Truthy(fields) then Fail(Message("Invalid Params - 'fields' object required"))
    else if !Truthy(guid) then Fail(Message("Invalid Params - 'guid' is required"))
    else Issue(FindOneAndReplace(Get(options, "type"), IdQuery(guid), fields))
  }

  /** Once the replacement succeeded, `update` answers with a fresh `read` of the same descriptor. */
  function UpdateFollowUp(options: Value): Request {
    ReadRequest(options)
  }

  function DeleteRequest(options: Value): Request {
    var guid := Get(options, "guid");
    if !Truthy(guid) then Reply(Obj([]))
    else Issue(FindOneAndDelete(Get(options, "type"), IdQuery(guid)))
  }

  function DeleteAllRequest(options: Value): Request {
    Issue(DeleteMany(Get(options, "type")))
  }

  function DeleteAllReply(deletedCount: Value): Value {
    Obj([Prop("status", Str("ok")), Prop("count", deletedCount)])
  }

  /* ---------------- list (index.js:285-327) ---------------- */

  /** `skip` is passed on only when it is a truthy number no smaller than 0. */
  predicate SkipAccepted(skip: Value) {
    Truthy(skip) && TypeOf(skip) == "number" && skip.Num? && skip.n >= 0
  }

  /** `limit` is passed on only when it is a truthy number greater than 0. */
  predicate LimitAccepted(limit: Value) {
    Truthy(limit) && TypeOf(limit) == "number" && limit.Num? && limit.n > 0
  }

  /** `sort` is passed on only when it is truthy and of type "object". */
  predicate SortAccepted(sort: Value) {
    Truthy(sort) && TypeOf(sort) == "object"
  }

  /** `skip`, `limit` and `sort` written after the options `ps`, each when accepted. */
  function PagingOptions(ps: seq<Prop>, skip: Value, limit: Value, sort: Value): seq<Prop> {
    var withSkip := if SkipAccepted(skip) then Assign(ps, "skip", skip) else ps;
    var withLimit := if LimitAccepted(limit) then Assign(withSkip, "limit", limit) else withSkip;
    if SortAccepted(sort) then Assign(withLimit, "sort", sort) else withLimit
  }

  /** The `mongoOptions` of `list`: the projection, then `skip`, `limit` and `sort`, each when accepted. */
  function ListOptions(options: Value): seq<Prop> {
    PagingOptions(ProjectionOptions(options), Get(options, "skip"), Get(options, "limit"), Get(options, "sort"))
  }

  function ListRequest(options: Value): Request {
    match BuildFilter(options)
    case Throw(e) => Raise(e)
    case Ok(query) => Issue(Find(Get(options, "type"), query, ListOptions(options)))
  }

  /** The filter loop of `list` over `critOps` (index.js:286-292). */
  method ListFilter(options: Value) returns (r: Result<seq<Prop>>)
    ensures r == BuildFilter(options)
  {
    var query: seq<Prop> := [];
    for j := 0 to |CritOrder|
      invariant ApplyOps(query, CritOrder[j..], options) == BuildFilter(options)
    {
      var op := CritOrder[j];
      var fieldsValues := Get(options, OptionName(op));
      ApplyOpsAt(query, CritOrder, j, options);
      if Truthy(fieldsValues) {
        var next := CritGroup(query, op, fieldsValues);
        if next.Throw? {
          assert ApplyOps(query, CritOrder[j..], options) == Throw(next.error);
          return Throw(next.error);
        }
        query := next.value;
      }
    }
    assert CritOrder[|CritOrder|..] == [];
    r := Ok(query);
  }

  /** The `mongoOptions` of `list`, built property by property (index.js:294-313). */
  method ListMongoOptions(options: Value) returns (mongoOptions: seq<Prop>)
    ensures mongoOptions == ListOptions(options)
  {
    mongoOptions := ProjectionMongoOptions(options);
    var skip := Get(options, "skip");
    if Truthy(skip) && TypeOf(skip) == "number" && skip.Num? && skip.n >= 0 {
      mongoOptions := Assign(mongoOptions, "skip", skip);
    }
    var limit := Get(options, "limit");
    if Truthy(limit) && TypeOf(limit) == "number" && limit.Num? && limit.n > 0 {
      mongoOptions := Assign(mongoOptions, "limit", limit);
    }
    var sort := Get(options, "sort");
    if Truthy(sort) && TypeOf(sort) == "object" {
      mongoOptions := Assign(mongoOptions, "sort", sort);
    }
  }

  /** `list` up to `find` (index.js:285-317). */
  method List(options: Value) returns (r: Request)
    ensures r == ListRequest(options)
  {
    var query := ListFilter(options);
    if query.Throw? {
      return Raise(query.error);
    }
    var mongoOptions := ListMongoOptions(options);
    r := Issue(Find(Get(options, "type"), query.value, mongoOptions));
  }

  /** The reply once `find` returned `docs`: `{count, list}`. */
  function ListReply(typ: Value, docs: seq<Value>): Value {
    Obj([Prop("count", Num(|docs|)),
         Prop("list", Arr(seq(|docs|, i requires 0 <= i < |docs| => Envelope(docs[i], typ))))])
  }

  /** The loop pushing one envelope per document (index.js:319-325). */
  method ListResponse(typ: Value, docs: seq<Value>) returns (listResp: Value)
    ensures listResp == ListReply(typ, docs)
  {
    var retDocs: seq<Value> := [];
    for i := 0 to |docs|
      invariant |retDocs| == i
      invariant forall j :: 0 <= j < i ==> retDocs[j] == Envelope(docs[j], typ)
    {
      var ret := GenerateReturn(docs[i], typ);
      retDocs := retDocs + [ret];
    }
    assert retDocs == seq(|docs|, i requires 0 <= i < |docs| => Envelope(docs[i], typ));
    listResp := Obj([Prop("count", Num(|retDocs|)), Prop("list", Arr(retDocs))]);
  }

  /* ---------------- index (index.js:402-429) ---------------- */

  /**
   * `mapObj[token.toString().toUpperCase()] || 1`, or a raise on a null or
   * undefined token and on one whose `toString` cannot complete.
   */
  function DirectionOf(token: Value): (r: Result<Value>)
    ensures r.Throw? <==> Nullish(token) || !Printable(token)
    ensures r.Throw? ==> r.error == TypeError
    ensures r.Ok? ==> (r.value == Num(-1) <==> Upper(ToText(token)) == "DESC")
    ensures r.Ok? ==> (r.value == Str("2d") <==> Upper(ToText(token)) == "2D")
    ensures r.Ok? ==> (r.value == Num(1) <==> Upper(ToText(token)) != "DESC" && Upper(ToText(token)) != "2D")
  {
    if Nullish(token) || !Printable(token) then Throw(TypeError)
    else
      var name := Upper(ToText(token));
      if name == "ASC" then Ok(Num(1))
      else if name == "DESC" then Ok(Num(-1))
      else if name == "2D" then Ok(Str("2d"))
      else Ok(Num(1))
  }

  /** The direction of every enumerated token, stopping at the first raise. */
  function DirectionsOf(tokens: seq<Value>): (r: Result<seq<Value>>)
    ensures r.Ok? <==> forall i :: 0 <= i < |tokens| ==> !Nullish(tokens[i]) && Printable(tokens[i])
    ensures r.Throw? ==> r.error == TypeError
    ensures r.Ok? ==> |r.value| == |tokens| && forall i :: 0 <= i < |tokens| ==> r.value[i] == DirectionOf(tokens[i]).value
    decreases |tokens|
  {
    if tokens == [] then Ok([])
    else
      match DirectionOf(tokens[0])
      case Throw(e) => Throw(e)
      case Ok(d) =>
        match DirectionsOf(tokens[1..])
        case Throw(e) => Throw(e)
        case Ok(ds) => Ok([d] + ds)
  }

  function Values(entries: seq<Prop>): (vs: seq<Value>)
    ensures |vs| == |entries| && forall i :: 0 <= i < |entries| ==> vs[i] == entries[i].val
  {
    seq(|entries|, i requires 0 <= i < |entries| => entries[i].val)
  }

  /**
   * `indexes[indx] = mongoType` for each enumerated name: an object's
   * properties and an array's elements take their new values in place; the
   * writes into a string primitive are lost.
   */
  function Rewritten(indexes: Value, codes: seq<Value>): Value
    requires |codes| == |Entries(indexes)|
  {
    match indexes
    case Obj(ps) => Obj(seq(|ps|, i requires 0 <= i < |ps| => Prop(ps[i].key, codes[i])))
    case Arr(items) => Arr(codes)
    case _ => indexes
  }

  function IndexError(options: Value): Error {
    Message("Invalid Params - 'index' object required for " + ToText(Get(options, "act")) + " action.")
  }

  function IndexRequest(options: Value): Request {
    var indexes := Get(options, "index");
    if indexes.Undefined? then Fail(IndexError(options))
    else
      match DirectionsOf(Values(Entries(indexes)))
      case Throw(e) => Raise(e)
      case Ok(codes) => Issue(CreateIndex(Get(options, "type"), Rewritten(indexes, codes)))
  }

  /** The `for..in` loop that overwrites the index spec's directions in place (index.js:412-416). */
  method RewriteDirections(slots: array<Value>) returns (error: Option<Error>)
    modifies slots
    ensures error.None? <==> DirectionsOf(old(slots[..])).Ok?
    ensures error.None? ==> slots[..] == DirectionsOf(old(slots[..])).value
    ensures error.Some? ==> DirectionsOf(old(slots[..])) == Throw(error.value)
    ensures error.Some? ==>
      exists i :: 0 <= i < slots.Length && DirectionOf(old(slots[i])).Throw? &&
        DirectionsOf(old(slots[..i])) == Ok(slots[..i]) && slots[i..] == old(slots[i..])
  {
    ghost var original := slots[..];
    for i := 0 to slots.Length
      invariant slots[i..] == original[i..]
      invariant forall j :: 0 <= j < i ==> DirectionOf(original[j]).Ok? && slots[j] == DirectionOf(original[j]).value
    {
      var mongoType := DirectionOf(slots[i]);
      if mongoType.Throw? {
        assert forall j :: 0 <= j < i ==> original[..i][j] == original[j];
        assert DirectionsOf(original[..i]).Ok?;
        assert DirectionsOf(original[..i]).value == slots[..i];
        return Some(mongoType.error);
      }
      slots[i] := mongoType.value;
    }
    assert slots[..] == DirectionsOf(original).value;
    return None;
  }

  /** `index` up to `createIndex` (index.js:402-421). */
  method Index(options: Value) returns (r: Request)
    ensures r == IndexRequest(options)
  {
    var indexes := Get(options, "index");
    if indexes.Undefined? {
      return Fail(IndexError(options));
    }
    var entries := Entries(indexes);
    var slots := new Value[|entries|](i requires 0 <= i < |entries| => entries[i].val);
    assert slots[..] == Values(entries);
    var error := RewriteDirections(slots);
    if error.Some? {
      return Raise(error.value);
    }
    r := Issue(CreateIndex(Get(options, "type"), Rewritten(indexes, slots[..])));
  }

  /**
   * What `index` hands the callback once `db.collection` called back with
   * `collection` and `createIndex` returned `indexName`.
   */
  function IndexReply(collection: Value, indexName: Value): Request {
    if collection.Null? then Fail(Message("Collection doesn't exist"))
    else Reply(Obj([Prop("status", Str("OK")), Prop("indexName", indexName)]))
  }

  /* ---------------- What the handlers promise ---------------- */

  /**
   * `create` fails exactly when `fields` is falsy, not of type "object", or
   * an empty array; an empty plain object passes the check.
   */
  lemma CreateChecksFields(options: Value)
    ensures CreateRequest(options).Fail? <==> !InsertableFields(Get(options, "fields"))
    ensures CreateRequest(options).Fail? ==> CreateRequest(options).error == CreateFieldsError(options)
    ensures Get(options, "fields") == Obj([]) ==> CreateRequest(options) == Issue(InsertMany(Get(options, "type"), [Obj([])]))
  {
    if Get(options, "fields") == Obj([]) {
      assert CoerceId(Obj([])) == Ok(Obj([]));
      var coerced := CoerceAll([Obj([])]);
      assert coerced.Ok? && coerced.value[0] == Obj([]);
      assert coerced.value == [Obj([])];
    }
  }

  /**
   * What `insertMany` receives: one document per array element, or the one
   * object wrapped in an array; each document keeps its properties other
   * than `_id`, and an `_id` is decoded exactly when its `length` is 24.
   */
  lemma CreateInserts(options: Value)
    requires CreateRequest(options).Issue?
    ensures var fields := Get(options, "fields");
      var docs := if fields.Arr? then fields.items else [fields];
      var inserted := CreateRequest(options).command;
      && inserted == InsertMany(Get(options, "type"), inserted.docs)
      && |inserted.docs| == |docs| >= 1
      && forall i :: 0 <= i < |docs| && docs[i].Obj? ==>
        var before, after := docs[i].props, inserted.docs[i].props;
        && KeySet(after) == KeySet(before)
        && (forall k :: k != "_id" ==> Lookup(after, k) == Lookup(before, k))
        && Lookup(after, "_id") ==
             if Get(Lookup(before, "_id"), "length") == Num(24) then Decode(Lookup(before, "_id"))
             else Lookup(before, "_id")
  {
  }

  /** The single-document reply is that document's envelope; any other count gives the bulk status. */
  lemma CreateReplyShape(typ: Value, insertedCount: Value, ops: seq<Value>)
    ensures insertedCount == Num(1) && |ops| > 0 ==> CreateReply(typ, insertedCount, ops) == Envelope(ops[0], typ)
    ensures insertedCount != Num(1) ==>
      var r := CreateReply(typ, insertedCount, ops).props;
      KeySet(r) == {"Status", "Count"} && Lookup(r, "Status") == Str("OK") && Lookup(r, "Count") == insertedCount
  {
    if insertedCount != Num(1) {
      var r := CreateReply(typ, insertedCount, ops).props;
      IndexOfUnique(r, "Status", 0);
      IndexOfUnique(r, "Count", 1);
    }
  }

  /** `deleteall` empties the collection named by `type` and answers `{status: "ok", count}`. */
  lemma DeleteAllShape(options: Value, deletedCount: Value)
    ensures DeleteAllRequest(options) == Issue(DeleteMany(Get(options, "type")))
    ensures var r := DeleteAllReply(deletedCount);
      r.Obj? && KeySet(r.props) == {"status", "count"}
      && Lookup(r.props, "status") == Str("ok") && Lookup(r.props, "count") == deletedCount
  {
    var r := DeleteAllReply(deletedCount).props;
    KeySetTwo(r[0], r[1]);
    IndexOfUnique(r, "status", 0);
    IndexOfUnique(r, "count", 1);
  }

  /**
   * Once `db.collection` has called back, `index` fails exactly when the
   * collection is null; otherwise it answers `{status: "OK", indexName}`.
   */
  lemma IndexReplyShape(collection: Value, indexName: Value)
    ensures IndexReply(collection, indexName).Fail? <==> collection.Null?
    ensures collection.Null? ==> IndexReply(collection, indexName) == Fail(Message("Collection doesn't exist"))
    ensures !collection.Null? ==>
      var r := IndexReply(collection, indexName);
      r.Reply? && r.result.Obj? && KeySet(r.result.props) == {"status", "indexName"}
      && Lookup(r.result.props, "status") == Str("OK") && Lookup(r.result.props, "indexName") == indexName
  {
    if !collection.Null? {
      var r := IndexReply(collection, indexName).result.props;
      KeySetTwo(r[0], r[1]);
      IndexOfUnique(r, "status", 0);
      IndexOfUnique(r, "indexName", 1);
    }
  }

  /** The projection holds each listed name mapped to 1, and nothing else. */
  lemma {:induction false} ProjectionNames(names: seq<string>)
    ensures forall name :: name in KeySet(Projection(names)) <==> name in names
    ensures forall name :: name in names ==> Lookup(Projection(names), name) == Num(1)
    ensures DistinctKeys(Projection(names))
    decreases |names|
  {
    if names != [] {
      var init, last := names[..|names| - 1], names[|names| - 1];
      ProjectionNames(init);
      assert names == init + [last];
      assert DistinctKeys([]);
    }
  }

  /** Listing names as an array of strings projects exactly those names. */
  lemma ProjectionOfStrings(fields: Value)
    requires fields.Arr? && forall i :: 0 <= i < |fields.items| ==> fields.items[i].Str?
    ensures forall name :: name in KeySet(Projection(ListedNames(fields))) <==>
      exists i :: 0 <= i < |fields.items| && fields.items[i] == Str(name)
  {
    var names := ListedNames(fields);
    ProjectionNames(names);
    forall name ensures name in names <==> exists i :: 0 <= i < |fields.items| && fields.items[i] == Str(name) {
      if name in names {
        var i :| 0 <= i < |names| && names[i] == name;
        assert fields.items[i] == Str(name);
      }
      if exists i :: 0 <= i < |fields.items| && fields.items[i] == Str(name) {
        var i :| 0 <= i < |fields.items| && fields.items[i] == Str(name);
        assert names[i] == name;
      }
    }
  }

  /**
   * `read` and `delete` answer `{}` without a store call exactly when `guid`
   * is falsy; otherwise they address the document `{_id: decode(guid)}`.
   */
  lemma GuidGuards(options: Value)
    ensures ReadRequest(options) == Reply(Obj([])) <==> !Truthy(Get(options, "guid"))
    ensures DeleteRequest(options) == Reply(Obj([])) <==> !Truthy(Get(options, "guid"))
    ensures ReadRequest(options).Issue? ==>
      ReadRequest(options).command.query == IdQuery(Get(options, "guid"))
      && ReadRequest(options).command.collection == Get(options, "type")
    ensures DeleteRequest(options).Issue? ==>
      DeleteRequest(options) == Issue(FindOneAndDelete(Get(options, "type"), IdQuery(Get(options, "guid"))))
  {
  }

  /**
   * `update` checks `fields` before `guid`; once both are present it replaces
   * the document `{_id: decode(guid)}` and then reads that same document.
   */
  lemma UpdateChecksInOrder(options: Value)
    ensures !Truthy(Get(options, "fields")) ==>
      UpdateRequest(options) == Fail(Message("Invalid Params - 'fields' object required"))
    ensures Truthy(Get(options, "fields")) && !Truthy(Get(options, "guid")) ==>
      UpdateRequest(options) == Fail(Message("Invalid Params - 'guid' is required"))
    ensures UpdateRequest(options).Issue? <==> Truthy(Get(options, "fields")) && Truthy(Get(options, "guid"))
    ensures UpdateRequest(options).Issue? ==>
      var query := IdQuery(Get(options, "guid"));
      && UpdateRequest(options) == Issue(FindOneAndReplace(Get(options, "type"), query, Get(options, "fields")))
      && UpdateFollowUp(options).Issue? && UpdateFollowUp(options).command.FindOne?
      && UpdateFollowUp(options).command.query == query
  {
  }

  /**
   * The `read` that answers `update` sees the same descriptor, so the
   * replacement document in `fields` doubles as its list of projected
   * names: a plain object without a `length` property projects nothing.
   */
  lemma UpdateReadBackProjection(options: Value)
    requires UpdateRequest(options).Issue?
    requires Get(options, "fields").Obj? && !Has(Get(options, "fields").props, "length")
    ensures UpdateFollowUp(options) ==
      Issue(FindOne(Get(options, "type"), IdQuery(Get(options, "guid")), [Prop("projection", Obj([]))]))
  {
    assert ListedNames(Get(options, "fields")) == [];
  }

  /** A projection listing one name, however often, maps just that name to 1. */
  lemma {:induction false} ProjectionOfOneName(names: seq<string>, k: string)
    requires |names| >= 1 && forall i :: 0 <= i < |names| ==> names[i] == k
    ensures Projection(names) == [Prop(k, Num(1))]
    decreases |names|
  {
    var init := names[..|names| - 1];
    if |names| == 1 {
      assert init == [];
      assert [] + [Prop(k, Num(1))] == [Prop(k, Num(1))];
    } else {
      ProjectionOfOneName(init, k);
      AssignExisting([Prop(k, Num(1))], k, Num(1));
    }
  }

  /**
   * A replacement document without index properties whose `length` counts
   * at least 1 (`1`, `"3"` or `true`, say) makes that read project the single
   * name "undefined".
   */
  lemma UpdateReadBackWithLength(options: Value)
    requires UpdateRequest(options).Issue?
    requires var f := Get(options, "fields");
      f.Obj? && Count(Get(f, "length")) >= 1 && forall i: nat :: !Has(f.props, Digits(i))
    ensures UpdateFollowUp(options).command.options == [Prop("projection", Obj([Prop("undefined", Num(1))]))]
  {
    var f := Get(options, "fields");
    ProjectionOfOneName(ListedNames(f), "undefined");
  }

  /** An option written only when its condition holds. */
  lemma OptionalWrite(ps: seq<Prop>, k: string, v: Value, written: bool)
    ensures var r := if written then Assign(ps, k, v) else ps;
      && (forall j :: j in KeySet(r) <==> j in KeySet(ps) || (written && j == k))
      && (written ==> Lookup(r, k) == v)
      && forall j :: j != k ==> Lookup(r, j) == Lookup(ps, j)
  {
  }

  /** What the paging writes add to the options `ps`. */
  lemma PagingWrites(ps: seq<Prop>, skip: Value, limit: Value, sort: Value)
    ensures var r := PagingOptions(ps, skip, limit, sort);
      && (forall k :: k in KeySet(r) <==>
            k in KeySet(ps) || (SkipAccepted(skip) && k == "skip") || (LimitAccepted(limit) && k == "limit")
            || (SortAccepted(sort) && k == "sort"))
      && (SkipAccepted(skip) ==> Lookup(r, "skip") == skip)
      && (LimitAccepted(limit) ==> Lookup(r, "limit") == limit)
      && (SortAccepted(sort) ==> Lookup(r, "sort") == sort)
  {
    assert "skip" != "limit" && "skip" != "sort" && "limit" != "sort" by {
      assert "skip"[1] != "sort"[1];
    }
    var s, l, o := SkipAccepted(skip), LimitAccepted(limit), SortAccepted(sort);
    var withSkip := if s then Assign(ps, "skip", skip) else ps;
    OptionalWrite(ps, "skip", skip, s);
    var withLimit := if l then Assign(withSkip, "limit", limit) else withSkip;
    OptionalWrite(withSkip, "limit", limit, l);
    var r := if o then Assign(withLimit, "sort", sort) else withLimit;
    OptionalWrite(withLimit, "sort", sort, o);
    assert PagingOptions(ps, skip, limit, sort) == r;
  }

  /** The options `list` passes to `find`: each one present exactly when accepted, as given. */
  lemma ListOptionsContents(options: Value)
    ensures var o := ListOptions(options); var skip, limit, sort := Get(options, "skip"), Get(options, "limit"), Get(options, "sort");
      && (forall k :: k in KeySet(o) <==>
            (k == "projection" && Truthy(Get(options, "fields"))) || (k == "skip" && SkipAccepted(skip))
            || (k == "limit" && LimitAccepted(limit)) || (k == "sort" && SortAccepted(sort)))
      && (SkipAccepted(skip) ==> Lookup(o, "skip") == skip)
      && (LimitAccepted(limit) ==> Lookup(o, "limit") == limit)
      && (SortAccepted(sort) ==> Lookup(o, "sort") == sort)
  {
    ProjectionOptionsKeys(options);
    PagingWrites(ProjectionOptions(options), Get(options, "skip"), Get(options, "limit"), Get(options, "sort"));
  }

  /** The projection is the only option `read` passes, and only when `fields` is truthy. */
  lemma ProjectionOptionsKeys(options: Value)
    ensures forall k :: k in KeySet(ProjectionOptions(options)) <==> Truthy(Get(options, "fields")) && k == "projection"
  {
    var p := ProjectionOptions(options);
    if Truthy(Get(options, "fields")) {
      KeySetCons(p[0], []);
      assert [p[0]] + [] == p;
    }
  }

  /** `skip` and `limit` reach the store only as positive numbers (a zero `skip` is dropped as falsy). */
  lemma PagingAccepted(v: Value)
    ensures SkipAccepted(v) <==> v.Num? && v.n > 0
    ensures LimitAccepted(v) <==> v.Num? && v.n > 0
  {
  }

  /** The list reply counts its entries, and entry `i` is the envelope of document `i`. */
  lemma ListReplyContents(typ: Value, docs: seq<Value>)
    ensures var r := ListReply(typ, docs).props;
      && Lookup(r, "list").Arr?
      && Lookup(r, "count") == Num(|Lookup(r, "list").items|)
      && |Lookup(r, "list").items| == |docs|
      && forall i :: 0 <= i < |docs| ==> Lookup(r, "list").items[i] == Envelope(docs[i], typ)
  {
    var r := ListReply(typ, docs).props;
    IndexOfUnique(r, "count", 0);
    IndexOfUnique(r, "list", 1);
  }

  /**
   * `index` fails only on an undefined `index`; a null one passes the check
   * and is handed to `createIndex` as it is.
   */
  lemma IndexGuard(options: Value)
    ensures IndexRequest(options).Fail? <==> Get(options, "index").Undefined?
    ensures IndexRequest(options).Fail? ==> IndexRequest(options).error == IndexError(options)
    ensures Get(options, "index").Null? ==>
      IndexRequest(options) == Issue(CreateIndex(Get(options, "type"), Null))
  {
  }

  /**
   * For an object of directions, every key keeps its position and takes the
   * direction its token names; a null or undefined token, or one whose
   * `toString` cannot complete, raises.
   */
  lemma IndexKeepsOrder(options: Value)
    requires Get(options, "index").Obj?
    ensures var ps := Get(options, "index").props;
      IndexRequest(options).Raise? <==> exists i :: 0 <= i < |ps| && (Nullish(ps[i].val) || !Printable(ps[i].val))
    ensures var ps := Get(options, "index").props;
      IndexRequest(options).Issue? ==>
        var spec := IndexRequest(options).command.spec;
        && IndexRequest(options).command == CreateIndex(Get(options, "type"), spec)
        && spec.Obj? && |spec.props| == |ps|
        && forall i :: 0 <= i < |ps| ==>
             spec.props[i].key == ps[i].key && spec.props[i].val == DirectionOf(ps[i].val).value
  {
    var ps := Get(options, "index").props;
    var vs := Values(Entries(Get(options, "index")));
    if exists i :: 0 <= i < |ps| && (Nullish(ps[i].val) || !Printable(ps[i].val)) {
      var i :| 0 <= i < |ps| && (Nullish(ps[i].val) || !Printable(ps[i].val));
      assert Nullish(vs[i]) || !Printable(vs[i]);
    }
  }

  /** Direction tokens are matched without regard to case. */
  lemma DirectionIgnoresCase(s: string, t: string)
    requires Upper(s) == Upper(t)
    ensures DirectionOf(Str(s)) == DirectionOf(Str(t))
  {
  }

  /** Example: an `eq` group owning `hasOwnProperty` makes `list`'s filter raise. */
  lemma ShadowedGroupRaises()
    ensures BuildFilter(Obj([Prop("eq", Obj([Prop("hasOwnProperty", Num(1))]))])) == Throw(TypeError)
  {
    var group := Obj([Prop("hasOwnProperty", Num(1))]);
    var options := Obj([Prop("eq", group)]);
    assert Has(group.props, "hasOwnProperty");
    assert Get(options, OptionName(CritOrder[0])) == group;
    ApplyOpsUnfold([], CritOrder, options);
  }

  /** Example: a document to create owning `hasOwnProperty` raises. */
  lemma ShadowedDocumentRaises()
    ensures CoerceId(Obj([Prop("hasOwnProperty", Num(1))])) == Throw(TypeError)
  {
    assert Has([Prop("hasOwnProperty", Num(1))], "hasOwnProperty");
  }

  /** Example: a direction token owning `toString` raises. */
  lemma ShadowedTokenRaises()
    ensures DirectionOf(Obj([Prop("toString", Num(1))])) == Throw(TypeError)
  {
    assert Has([Prop("toString", Num(1))], "toString");
  }

  /** Examples: the three known tokens in any case, and the fallback to 1. */
  lemma DirectionTokens()
    ensures DirectionOf(Str("asc")) == Ok(Num(1)) && DirectionOf(Str("Desc")) == Ok(Num(-1))
    ensures DirectionOf(Str("2d")) == Ok(Str("2d")) && DirectionOf(Str("text")) == Ok(Num(1))
    ensures DirectionOf(Num(-1)) == Ok(Num(1))
  {
    assert Upper("Desc") == "DESC";
    assert Upper("2d") == "2D";
    assert Upper("asc") == "ASC";
    assert Upper("text")[0] == 'T';
    assert ToText(Num(-1)) == "-" + Digits(1) == "-1";
    assert Upper("-1")[0] == '-';
  }
}
