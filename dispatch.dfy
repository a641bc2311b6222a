/**
 * Validation and dispatch (index.js:435-491): `validateOptions` checks the
 * descriptor, `processAction` picks the handler named by `act` and runs it
 * once a connection is available, and `db` calls it either with the caller's
 * callback or behind a promise.
 *
 * What a run does is an `Effect`: the callback invocations it makes, in
 * order, followed by how it ends. The connection manager is not part of this
 * model; whether the connection is reused (the handler then runs before
 * `processAction` returns), newly opened (the handler runs later) or refused
 * is a parameter.
 */
module Dispatch {
  import opened JsValues
  import opened Actions

  /** The handlers this layer provides. */
  datatype Action = Create | Read | List | Update | Delete | DeleteAll | Index

  /** The method name of each handler. */
  function ActionName(action: Action): string {
    match action
    case Create => "create"
    case Read => "read"
    case List => "list"
    case Update => "update"
    case Delete => "delete"
    case DeleteAll => "deleteall"
    case Index => "index"
  }

  /** The handler a property name selects, if it names one. */
  function ActionNamed(name: string): (action: Option<Action>)
    ensures action.Some? ==> ActionName(action.value) == name
  {
    if name == "create" then Some(Create)
    else if name == "read" then Some(Read)
    else if name == "list" then Some(List)
    else if name == "update" then Some(Update)
    else if name == "delete" then Some(Delete)
    else if name == "deleteall" then Some(DeleteAll)
    else if name == "index" then Some(Index)
    else None
  }

  /** Every handler is reachable by its own name, and by no other. */
  lemma ActionNamesRoundTrip(action: Action, name: string)
    ensures ActionNamed(ActionName(action)) == Some(action)
    ensures ActionNamed(name) == Some(action) <==> name == ActionName(action)
  {
  }

  const MaxCollectionName := 70

  /** The acts that may come without a `type`. */
  const TypelessActs: seq<string> := ["close", "list", "export", "import"]

  /** `[...].indexOf(options.act) !== -1`: a strict match, so only a string `act` can be typeless. */
  predicate Typeless(act: Value) {
    act.Str? && act.s in TypelessActs
  }

  /** `options.type.length > MAX_COLLECTION_NAME`, with `length` converted to a number. */
  predicate TooLong(typ: Value) {
    Count(Get(typ, "length")) > MaxCollectionName
  }

  /** The string `validateOptions` passes to the callback for an over-long `type`. */
  function TooLongNotice(typ: Value): Error {
    Text("Error: 'type' name too long: '" + ToText(typ) + "'. Collection name cannot be greater than: "
      + IntText(MaxCollectionName))
  }

  /**
   * `validateOptions`: a raise, or the callback errors it reports without
   * stopping (at most one).
   */
  function ValidateOptions(options: Value): (r: Result<seq<Error>>)
    ensures r.Ok? ==> r.value == [] || r.value == [TooLongNotice(Get(options, "type"))]
  {
    if Nullish(options) then Throw(TypeError)
    else
      var act, typ := Get(options, "act"), Get(options, "type");
      if !Truthy(act) then Throw(Message("'act' undefined in params"))
      else if !Truthy(typ) && !Typeless(act) then Throw(Message("'type' undefined in params"))
      else if Truthy(typ) && TooLong(typ) then Ok([TooLongNotice(typ)])
      else Ok([])
  }

  /** One invocation of the caller's callback. */
  datatype Call =
    | Failed(error: Error)     // callback(error)
    | Answered(result: Value)  // callback(undefined, result)

  /** How a run ends once its callbacks so far are made. */
  datatype Next =
    | Done                     // nothing further
    | Awaiting(command: Command) // a store call is in flight
    | RaisedNow(error: Error)  // a raise before `processAction` returns
    | RaisedLater(error: Error) // a raise inside a later connect callback

  datatype Effect = Effect(calls: seq<Call>, next: Next)

  /** What `connect` does with its callback. */
  datatype Connection =
    | Reused                   // calls back at once with the stored database
    | Opened                   // calls back later with a new database
    | Refused(error: Error)    // calls back with the connection error

  /** The request a handler makes of the descriptor. */
  function HandlerRequest(action: Action, options: Value): Request {
    match action
    case Create => CreateRequest(options)
    case Read => ReadRequest(options)
    case List => ListRequest(options)
    case Update => UpdateRequest(options)
    case Delete => DeleteRequest(options)
    case DeleteAll => DeleteAllRequest(options)
    case Index => IndexRequest(options)
  }

  /** The connect callback: a refusal goes to the callback, otherwise the handler runs. */
  function Handled(request: Request, connection: Connection): (e: Effect)
    ensures |e.calls| <= 1
    ensures e.next.RaisedNow? ==> connection.Reused?
    ensures e.next.RaisedLater? ==> connection.Opened?
    ensures e.calls == [] ==> !e.next.Done?
  {
    match connection
    case Refused(error) => Effect([Failed(error)], Done)
    case _ =>
      match request
      case Fail(error) => Effect([Failed(error)], Done)
      case Reply(result) => Effect([Answered(result)], Done)
      case Issue(command) => Effect([], Awaiting(command))
      case Raise(error) => Effect([], if connection.Reused? then RaisedNow(error) else RaisedLater(error))
  }

  const UnknownAction := Message("Unknown fh.db action")

  /** The callback errors `validateOptions` reported, as calls. */
  function Reported(notices: seq<Error>): (calls: seq<Call>)
    ensures |calls| == |notices|
    ensures forall i :: 0 <= i < |notices| ==> calls[i] == Failed(notices[i])
  {
    seq(|notices|, i requires 0 <= i < |notices| => Failed(notices[i]))
  }

  /** `processAction`: validation, the handler lookup, then the handler under `connect`. */
  function ProcessAction(options: Value, connection: Connection): (e: Effect)
    ensures ValidateOptions(options).Throw? ==> e == Effect([], RaisedNow(ValidateOptions(options).error))
    ensures ValidateOptions(options).Ok? ==> Reported(ValidateOptions(options).value) <= e.calls
    ensures e.next.RaisedNow? ==> ValidateOptions(options).Throw? || connection.Reused?
    ensures e.next.RaisedLater? ==> connection.Opened?
    ensures e.calls == [] ==> !e.next.Done?
  {
    match ValidateOptions(options)
    case Throw(error) => Effect([], RaisedNow(error))
    case Ok(notices) =>
      var reported := Reported(notices);
      match ActionNamed(ToText(Get(options, "act")))
      case None => Effect(reported + [Failed(UnknownAction)], Done)
      case Some(action) =>
        var handled := Handled(HandlerRequest(action, options), connection);
        Effect(reported + handled.calls, handled.next)
  }

  /** The promise `db` returns when it is given no callback. */
  datatype Promise =
    | Resolved(value: Value)
    | Rejected(reason: Error)
    | AwaitingStore(command: Command)  // settles when the store answers
    | Unhandled(error: Error)          // the raise escapes; the promise never settles
    | Pending                          // nothing will settle it

  /**
   * The promise wrapper: the first callback settles it (later ones are
   * ignored), and a raise inside `processAction` rejects it.
   */
  function Settle(effect: Effect): (p: Promise)
    ensures |effect.calls| > 0 ==> p.Resolved? || p.Rejected?
    ensures |effect.calls| > 0 && effect.calls[0].Failed? ==> p == Rejected(effect.calls[0].error)
    ensures |effect.calls| > 0 && effect.calls[0].Answered? ==> p == Resolved(effect.calls[0].result)
    ensures effect.calls == [] && effect.next.RaisedNow? ==> p == Rejected(effect.next.error)
    ensures p.Pending? <==> effect.calls == [] && effect.next.Done?
    ensures p.Unhandled? <==> effect.calls == [] && effect.next.RaisedLater?
  {
    if |effect.calls| > 0 then
      match effect.calls[0]
      case Failed(error) => Rejected(error)
      case Answered(result) => Resolved(result)
    else
      match effect.next
      case Done => Pending
      case Awaiting(command) => AwaitingStore(command)
      case RaisedNow(error) => Rejected(error)
      case RaisedLater(error) => Unhandled(error)
  }

  datatype Outcome =
    | WithCallback(effect: Effect)  // the caller's callback sees the calls; a RaisedNow reaches the caller
    | WithPromise(promise: Promise)

  /** `db`: the caller's callback when one is given, a promise otherwise. */
  function Db(options: Value, connection: Connection, callbackGiven: bool): (r: Outcome)
    ensures r.WithCallback? <==> callbackGiven
    ensures r.WithPromise? ==> !r.promise.Pending?
    ensures r.WithPromise? && r.promise.Unhandled? ==> connection.Opened?
  {
    if callbackGiven then WithCallback(ProcessAction(options, connection))
    else WithPromise(Settle(ProcessAction(options, connection)))
  }

  /* ---------------- What dispatch promises ---------------- */

  /** A falsy `act` raises before anything else happens; behind a promise it rejects. */
  lemma MissingAct(options: Value, connection: Connection)
    requires !Nullish(options) && !Truthy(Get(options, "act"))
    ensures ProcessAction(options, connection) == Effect([], RaisedNow(Message("'act' undefined in params")))
    ensures Db(options, connection, false) == WithPromise(Rejected(Message("'act' undefined in params")))
  {
  }

  /** A falsy `type` raises unless `act` is one of the typeless acts. */
  lemma MissingType(options: Value, connection: Connection)
    requires !Nullish(options) && Truthy(Get(options, "act")) && !Truthy(Get(options, "type"))
    ensures !Typeless(Get(options, "act")) ==>
      ProcessAction(options, connection) == Effect([], RaisedNow(Message("'type' undefined in params")))
    ensures Typeless(Get(options, "act")) ==> ValidateOptions(options) == Ok([])
  {
  }

  /** `list` needs no `type`: it runs against the undefined collection. */
  lemma ListWithoutType(options: Value, connection: Connection)
    requires !Nullish(options) && Get(options, "act") == Str("list") && !Truthy(Get(options, "type"))
    ensures ProcessAction(options, connection) == Handled(ListRequest(options), connection)
  {
    assert "list" == TypelessActs[1];
    assert ValidateOptions(options) == Ok([]);
    assert ActionNamed(ToText(Get(options, "act"))) == Some(List);
  }

  /** A string `type` is reported exactly when it is longer than 70 UTF-16 code units. */
  lemma TypeLength(options: Value, name: string)
    requires !Nullish(options) && Truthy(Get(options, "act")) && Get(options, "type") == Str(name) && name != ""
    ensures ValidateOptions(options) == (if Utf16Length(name) > 70 then Ok([TooLongNotice(Str(name))]) else Ok([]))
  {
    TooLongString(name);
  }

  /** Within the Basic Multilingual Plane, that is longer than 70 characters. */
  lemma TypeLengthBmp(options: Value, name: string)
    requires !Nullish(options) && Truthy(Get(options, "act")) && Get(options, "type") == Str(name) && name != ""
    requires forall i :: 0 <= i < |name| ==> name[i] as int <= 0xFFFF
    ensures ValidateOptions(options) == (if |name| > 70 then Ok([TooLongNotice(Str(name))]) else Ok([]))
  {
    TypeLength(options, name);
    Utf16LengthBmp(name);
  }

  lemma TooLongString(name: string)
    ensures TooLong(Str(name)) <==> Utf16Length(name) > MaxCollectionName
  {
    assert Get(Str(name), "length") == Num(Utf16Length(name));
  }

  /** A `type` of 36 characters outside the Basic Multilingual Plane is already too long. */
  lemma AstralTypeTooLong(options: Value, name: string)
    requires !Nullish(options) && Truthy(Get(options, "act")) && Get(options, "type") == Str(name)
    requires |name| == 36 && forall i :: 0 <= i < |name| ==> name[i] as int > 0xFFFF
    ensures ValidateOptions(options) == Ok([TooLongNotice(Str(name))])
  {
    Utf16LengthAstral(name);
  }

  /**
   * The over-long `type` report does not stop `processAction`: the report
   * is the first callback and the handler's own effect follows it. Behind a
   * promise the report alone decides the outcome.
   */
  lemma TooLongContinues(options: Value, connection: Connection, action: Action)
    requires ValidateOptions(options).Ok? && TooLong(Get(options, "type")) && Truthy(Get(options, "type"))
    requires ActionNamed(ToText(Get(options, "act"))) == Some(action)
    ensures var e, handled := ProcessAction(options, connection), Handled(HandlerRequest(action, options), connection);
      && e.calls == [Failed(TooLongNotice(Get(options, "type")))] + handled.calls
      && e.next == handled.next
    ensures Db(options, connection, false) == WithPromise(Rejected(TooLongNotice(Get(options, "type"))))
  {
  }

  /** So a `read` with an over-long `type` and no `guid` calls back twice. */
  lemma TooLongReadCallsBackTwice(options: Value, connection: Connection)
    requires !Nullish(options) && Get(options, "act") == Str("read") && !Truthy(Get(options, "guid"))
    requires Truthy(Get(options, "type")) && TooLong(Get(options, "type")) && !connection.Refused?
    ensures ProcessAction(options, connection).calls ==
      [Failed(TooLongNotice(Get(options, "type"))), Answered(Obj([]))]
  {
    assert ActionNamed("read") == Some(Read);
  }

  /** An `act` naming no handler is reported without touching the connection. */
  lemma UnknownBeforeConnect(options: Value, c1: Connection, c2: Connection)
    requires ValidateOptions(options).Ok? && ActionNamed(ToText(Get(options, "act"))).None?
    ensures ProcessAction(options, c1) == ProcessAction(options, c2)
    ensures var e := ProcessAction(options, c1);
      |e.calls| > 0 && e.calls[|e.calls| - 1] == Failed(UnknownAction) && e.next == Done
  {
  }

  /**
   * Every raise of `validateOptions` reaches a caller that gave a callback as
   * a raise, and rejects the promise otherwise.
   */
  lemma ThrowsBecomeRejections(options: Value, connection: Connection)
    requires ValidateOptions(options).Throw?
    ensures Db(options, connection, true) == WithCallback(Effect([], RaisedNow(ValidateOptions(options).error)))
    ensures Db(options, connection, false) == WithPromise(Rejected(ValidateOptions(options).error))
  {
  }

  /**
   * A handler's raise rejects the promise only when the connection was
   * reused; after a fresh connect it escapes and the promise never settles.
   */
  lemma HandlerRaise(options: Value, action: Action, error: Error)
    requires ValidateOptions(options) == Ok([])
    requires ActionNamed(ToText(Get(options, "act"))) == Some(action)
    requires HandlerRequest(action, options) == Raise(error)
    ensures Db(options, Reused, false) == WithPromise(Rejected(error))
    ensures Db(options, Opened, false) == WithPromise(Unhandled(error))
  {
  }

  /**
   * The callback is called at most twice, and twice only after an over-long
   * `type` report; so a promise is never left with nothing to settle it.
   */
  lemma {:induction false} CallbackCount(options: Value, connection: Connection)
    ensures var e := ProcessAction(options, connection);
      && |e.calls| <= 2
      && (|e.calls| == 2 ==> e.calls[0] == Failed(TooLongNotice(Get(options, "type"))))
      && Settle(e) != Pending
  {
    match ValidateOptions(options)
    case Throw(_) =>
    case Ok(notices) =>
      match ActionNamed(ToText(Get(options, "act")))
      case None =>
        AfterNotices(notices, Effect([Failed(UnknownAction)], Done), Get(options, "type"));
      case Some(action) =>
        AfterNotices(notices, Handled(HandlerRequest(action, options), connection), Get(options, "type"));
  }

  /** The reported notices followed by at most one further call, which a bare `Done` never lacks. */
  lemma AfterNotices(notices: seq<Error>, rest: Effect, typ: Value)
    requires notices == [] || notices == [TooLongNotice(typ)]
    requires |rest.calls| <= 1 && (rest.calls == [] ==> !rest.next.Done?)
    ensures var e := Effect(Reported(notices) + rest.calls, rest.next);
      && |e.calls| <= 2
      && (|e.calls| == 2 ==> e.calls[0] == Failed(TooLongNotice(typ)))
      && Settle(e) != Pending
  {
  }
}
