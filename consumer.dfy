/** The receiving service: the event validator, the `POST /event` handler as
    a function of the request's parse outcome and of what storage reports,
    and the PostgreSQL storage adapter with the database as an outcome. */
module Consumer {
  import opened JsonValue
  import opened Wrappers

  /** One security event as it is persisted: two free-form strings. */
  datatype Event = Event(eventType: string, eventPayload: string)

  /** The two keys an event object must carry, each mapped to a string. */
  function EventFields(e: Event): (fields: map<string, Json>)
  {
    map["event_type" := JString(e.eventType), "event_payload" := JString(e.eventPayload)]
  }

  /** `fields` maps both keys to the strings of `e`. */
  predicate HoldsEvent(fields: map<string, Json>, e: Event)
  {
    && "event_type" in fields && fields["event_type"] == JString(e.eventType)
    && "event_payload" in fields && fields["event_payload"] == JString(e.eventPayload)
  }

  /* ---------------------------------------------------------------------
     validate_event
     --------------------------------------------------------------------- */

  /** `validate_event`: total over every decoded value. It accepts exactly the
      dicts that hold some event's two string fields; what the strings hold
      is never looked at and every other key is ignored. */
  function ValidateEvent(v: Json): (r: bool)
    ensures r <==> v.JObject? && exists e :: HoldsEvent(v.fields, e)
  {
    if !v.JObject? then false
    else if "event_type" !in v.fields || "event_payload" !in v.fields then false
    else if !v.fields["event_type"].JString? || !v.fields["event_payload"].JString? then false
    else
      assert HoldsEvent(v.fields, Event(v.fields["event_type"].s, v.fields["event_payload"].s));
      true
  }

  /** Any event, with any further keys beside it, is accepted: empty,
      very long and non-ASCII strings alike. */
  lemma AcceptsEveryEvent(e: Event, extra: map<string, Json>)
    ensures ValidateEvent(JObject(extra + EventFields(e)))
  {
    assert HoldsEvent(extra + EventFields(e), e);
  }

  /** A dict missing either key, or holding a non-string under it, is
      rejected; so is every value that is not a dict. */
  lemma RejectsMalformed(v: Json)
    requires !v.JObject?
          || "event_type" !in v.fields || "event_payload" !in v.fields
          || !v.fields["event_type"].JString? || !v.fields["event_payload"].JString?
    ensures !ValidateEvent(v)
  {
  }

  /* ---------------------------------------------------------------------
     receive_event
     --------------------------------------------------------------------- */

  /** What reading the request body as JSON gave: a decode error or a value. */
  datatype ParseResult = InvalidJson | Parsed(value: Json)

  /** An HTTP response: its status code and its JSON body (all string-valued). */
  datatype Response = Response(status: int, body: map<string, string>)

  const StoredResponse: Response :=
    Response(200, map["status" := "success", "message" := "Event stored successfully"])

  /** The body FastAPI renders for an `HTTPException`. */
  function ErrorResponse(status: int, detail: string): (r: Response)
  {
    Response(status, map["detail" := detail])
  }

  /** The handler's response together with every argument `store_event` was
      called with, in call order. */
  datatype Handled = Handled(response: Response, storeCalls: seq<map<string, Json>>)

  /** `receive_event`: a parse failure is reported before any validation, an
      invalid shape next, and only a valid event reaches storage, exactly
      once, with the dict that was parsed; `store` is what `store_event`
      reports for it. */
  function ReceiveEvent(body: ParseResult, store: map<string, Json> -> bool): (h: Handled)
    ensures body.InvalidJson? ==> h == Handled(ErrorResponse(400, "Invalid JSON"), [])
    ensures body.Parsed? && !ValidateEvent(body.value) ==>
              h == Handled(ErrorResponse(400, "Invalid event format"), [])
    ensures body.Parsed? && ValidateEvent(body.value) ==>
              && h.storeCalls == [body.value.fields]
              && h.response == if store(body.value.fields) then StoredResponse
                               else ErrorResponse(500, "Failed to store event")
  {
    match body
    case InvalidJson => Handled(ErrorResponse(400, "Invalid JSON"), [])
    case Parsed(v) =>
      if !ValidateEvent(v) then Handled(ErrorResponse(400, "Invalid event format"), [])
      else if store(v.fields) then Handled(StoredResponse, [v.fields])
      else Handled(ErrorResponse(500, "Failed to store event"), [v.fields])
  }

  /** Over all requests: the handler answers with one of its four responses,
      storage is called at most once and exactly when the answer is not a
      client error, and success means a valid event that storage accepted. */
  lemma ReceiveEventOutcomes(body: ParseResult, store: map<string, Json> -> bool)
    ensures var h := ReceiveEvent(body, store);
            && h.response in {StoredResponse, ErrorResponse(400, "Invalid JSON"),
                              ErrorResponse(400, "Invalid event format"),
                              ErrorResponse(500, "Failed to store event")}
            && |h.storeCalls| <= 1
            && (h.storeCalls != [] <==> h.response.status != 400)
            && (h.response == StoredResponse <==>
                  body.Parsed? && ValidateEvent(body.value) && store(body.value.fields))
  {
  }

  /** A well-formed event sent as a dict reaches storage as that very dict, and
      storage binds back the two strings of the event. */
  lemma ReceivedEventStoredIntact(e: Event, extra: map<string, Json>, store: map<string, Json> -> bool)
    ensures var fields := extra + EventFields(e);
            && ReceiveEvent(Parsed(JObject(fields)), store).storeCalls == [fields]
            && BoundValues(fields) == (JString(e.eventType), JString(e.eventPayload))
  {
    AcceptsEveryEvent(e, extra);
  }

  /* ---------------------------------------------------------------------
     PostgresEventStorage
     --------------------------------------------------------------------- */

  /** How the database dealt with one insert: the commit went through, or the
      connection could not be opened, or the statement or the commit failed
      on an open connection. */
  datatype DbOutcome = Committed | ConnectFailed | ExecuteFailed | CommitFailed

  /** The one statement `store_event` issues: the connection settings, the
      table (quoted as an identifier) and the two bound values. */
  datatype Insert = Insert(host: Json, port: Json, dbname: Json, user: Json, password: Json,
                           table: Json, eventType: Json, eventPayload: Json)

  /** The values bound to the insert: each key's value, `""` when it is missing. */
  function BoundValues(event: map<string, Json>): (values: (Json, Json))
  {
    (Get(event, "event_type", JString("")), Get(event, "event_payload", JString("")))
  }

  class PostgresEventStorage {
    const host: Json
    const port: Json
    const dbname: Json
    const user: Json
    const password: Json
    const tableName: Json

    /** Connections opened so far. */
    ghost var connections: nat

    /** Each setting is taken from the configuration when present and from
        the built-in default otherwise; nothing is connected yet. */
    constructor (config: map<string, Json>)
      ensures host == Get(config, "host", JString("localhost"))
      ensures port == Get(config, "port", JNumber(5432))
      ensures dbname == Get(config, "name", JString("events_db"))
      ensures user == Get(config, "user", JString("postgres"))
      ensures password == Get(config, "password", JString("postgres"))
      ensures tableName == Get(config, "table_name", JString("events"))
      ensures connections == 0
    {
      host := Get(config, "host", JString("localhost"));
      port := Get(config, "port", JNumber(5432));
      dbname := Get(config, "name", JString("events_db"));
      user := Get(config, "user", JString("postgres"));
      password := Get(config, "password", JString("postgres"));
      tableName := Get(config, "table_name", JString("events"));
      connections := 0;
    }

    /** `store_event`: one attempt to connect with the configured settings;
        once connected, one insert of the event's two values into the
        configured table. True exactly when it committed, false on any
        failure, never an exception. */
    method StoreEvent(event: map<string, Json>, outcome: DbOutcome) returns (ok: bool, insert: Option<Insert>)
      modifies this`connections
      ensures connections == old(connections) + (if outcome == ConnectFailed then 0 else 1)
      ensures outcome == ConnectFailed ==> insert == None
      ensures outcome != ConnectFailed ==>
                insert == Some(Insert(host, port, dbname, user, password, tableName,
                                      BoundValues(event).0, BoundValues(event).1))
      ensures ok <==> outcome == Committed
    {
      if outcome == ConnectFailed {
        ok, insert := false, None;
        return;
      }
      connections := connections + 1;
      var (eventType, eventPayload) := BoundValues(event);
      insert := Some(Insert(host, port, dbname, user, password, tableName, eventType, eventPayload));
      ok := outcome == Committed;
    }
  }
}
