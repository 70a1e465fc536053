/** The traffic generator: one delivery attempt (`send_event`), loading the
    sample events (`load_events`) and the service loop (`main`), with the
    network, the file system and the operator's interrupt as outcomes. */
module Propagator {
  import opened JsonValue
  import opened Wrappers

  /** The timeout `send_event` passes when none is given, in seconds. */
  const DefaultTimeout: int := 10
  const DefaultEndpoint: Json := JString("http://localhost:8000/event")
  const DefaultEventsFile: Json := JString("events.json")
  const DefaultPeriod: Json := JNumber(5)

  /* ---------------------------------------------------------------------
     send_event
     --------------------------------------------------------------------- */

  /** What the HTTP client made of one POST: a response with its status, a
      timeout, a connection error, or any other exception. */
  datatype Transport = Responded(status: int) | TimedOut | ConnectionFailed | RequestFailed

  /** One POST: where to, the event as its JSON body, and the timeout. */
  datatype Post = Post(endpoint: Json, body: Json, timeout: int)

  /** The requests one call issued and the boolean it returned. */
  datatype Delivery = Delivery(posts: seq<Post>, ok: bool)

  /** `send_event`: exactly one POST, never retried, and success exactly for
      a response whose status lies in [200, 300); a timeout, a connection
      error or any other exception is a failure, never raised. */
  function SendEvent(event: Json, endpoint: Json, timeout: int, outcome: Transport): (d: Delivery)
    ensures d.posts == [Post(endpoint, event, timeout)]
    ensures d.ok <==> outcome.Responded? && 200 <= outcome.status < 300
  {
    var posts := [Post(endpoint, event, timeout)];
    match outcome
    case Responded(status) => Delivery(posts, 200 <= status < 300)
    case TimedOut => Delivery(posts, false)
    case ConnectionFailed => Delivery(posts, false)
    case RequestFailed => Delivery(posts, false)
  }

  /** Success is the 2xx status class: the hundreds digit of the status is 2. */
  lemma SuccessIsStatusClass2xx(event: Json, endpoint: Json, timeout: int, outcome: Transport)
    ensures SendEvent(event, endpoint, timeout, outcome).ok <==>
              outcome.Responded? && outcome.status / 100 == 2
  {
    if outcome.Responded? {
      var s := outcome.status;
      if 200 <= s < 300 {
        assert 2 * 100 <= s < 3 * 100;
      } else if s < 200 {
        assert s / 100 < 2 by { DivBelow(s, 200); }
      } else {
        assert s / 100 >= 3 by { DivAbove(s, 300); }
      }
    }
  }

  /** Euclidean division by 100 is monotone at the class boundaries. */
  lemma DivBelow(s: int, bound: int)
    requires s < bound && bound % 100 == 0
    ensures s / 100 < bound / 100
  {
  }

  lemma DivAbove(s: int, bound: int)
    requires s >= bound && bound % 100 == 0
    ensures s / 100 >= bound / 100
  {
  }

  /* ---------------------------------------------------------------------
     load_events
     --------------------------------------------------------------------- */

  /** What opening and decoding the events file gave: no such file, text that
      is not JSON, another error (permission, encoding, a directory...), or
      the decoded value. */
  datatype EventsFile = NotFound | NotJson | Unreadable(reason: string) | Decoded(value: Json)

  /** A Python call's result: a value, or an exception that propagates. */
  datatype Loaded = Returned(value: Json) | Raised(reason: string)

  /** `load_events`: the decoded value is returned as it is, whatever its
      shape (a list keeps its order, a dict stays a dict); a missing file and
      invalid JSON give `[]`; every other error propagates. */
  function LoadEvents(file: EventsFile): (r: Loaded)
    ensures file.Decoded? ==> r == Returned(file.value)
    ensures file.NotFound? || file.NotJson? ==> r == Returned(JArray([]))
    ensures file.Unreadable? ==> r == Raised(file.reason)
  {
    match file
    case Decoded(v) => Returned(v)
    case NotFound => Returned(JArray([]))
    case NotJson => Returned(JArray([]))
    case Unreadable(reason) => Raised(reason)
  }

  /** Nothing is coerced: a returned value is the decoded one or the `[]` of a
      caught failure, and an exception comes exactly from the errors that are
      not caught. */
  lemma LoadEventsOutcomes(file: EventsFile)
    ensures LoadEvents(file).Returned? ==>
              file == Decoded(LoadEvents(file).value) || LoadEvents(file).value == JArray([])
    ensures LoadEvents(file).Raised? <==> !file.Decoded? && !file.NotFound? && !file.NotJson?
  {
  }

  /* ---------------------------------------------------------------------
     main
     --------------------------------------------------------------------- */

  /** How a run of the service ends: without configuration, without events,
      stopped by the operator's interrupt, or on an uncaught exception. */
  datatype RunOutcome = NoConfig | NoEvents | Interrupted | Crashed(error: string)

  /** What `random.choice` can pick from the loaded value: a list's items, or
      a string's characters as one-character strings. Any other value makes
      it raise (a dict is indexed by position and has no integer keys, a
      number or a boolean has no length). */
  function Candidates(events: Json): (r: Option<seq<Json>>)
    ensures r.Some? ==> (r.value == [] <==> !Truthy(events))
    ensures events.JArray? ==> r == Some(events.items)
    ensures events.JString? ==> r.Some? && |r.value| == |events.s|
                                && forall i :: 0 <= i < |events.s| ==> r.value[i] == JString([events.s[i]])
    ensures !events.JArray? && !events.JString? ==> r.None?
  {
    match events
    case JArray(items) => Some(items)
    case JString(s) => Some(seq(|s|, i requires 0 <= i < |s| => JString([s[i]])))
    case _ => None
  }

  /** The longest sleep, in whole seconds, that `time.sleep` accepts: the
      delay is converted to nanoseconds in a signed 64-bit integer, whose
      largest value is 9223372036854775807. */
  const SleepMaxSeconds: int := 9223372036

  /** Whether `time.sleep` accepts the configured period: a number (a boolean
      counts as 0 or 1) that is not negative and fits in the nanosecond
      counter; anything else raises. */
  predicate SleepAccepts(period: Json)
  {
    period.JBool? || (period.JNumber? && 0 <= period.n <= SleepMaxSeconds)
  }

  /** What `main` does before its loop: either it returns (or raises) at once,
      or it runs with an endpoint, a period and a non-empty pool of events. */
  datatype Plan = Run(endpoint: Json, period: Json, pool: seq<Json>) | Exit(outcome: RunOutcome)

  /** The start of `main` on the configuration `setup_basic_app` gave and the
      file system `files`: an empty configuration or no events ends it before
      anything is sent; each setting falls back to its default. */
  function PlanRun(config: Json, files: Json -> EventsFile): (p: Plan)
    ensures !Truthy(config) ==> p == Exit(NoConfig)
    ensures p.Run? ==>
              && config.JObject? && Truthy(config)
              && p.endpoint == Get(config.fields, "endpoint", DefaultEndpoint)
              && p.period == Get(config.fields, "period", DefaultPeriod)
              && p.pool != []
              && var loaded := LoadEvents(files(Get(config.fields, "events_file", DefaultEventsFile)));
                 loaded.Returned? && Candidates(loaded.value) == Some(p.pool)
    ensures p == Exit(NoEvents) <==>
              && config.JObject? && Truthy(config)
              && var loaded := LoadEvents(files(Get(config.fields, "events_file", DefaultEventsFile)));
                 loaded.Returned? && !Truthy(loaded.value)
    ensures config.JObject? && Truthy(config) ==>
              var loaded := LoadEvents(files(Get(config.fields, "events_file", DefaultEventsFile)));
              && (loaded.Returned? && Truthy(loaded.value) && Candidates(loaded.value).Some? ==>
                    p == Run(Get(config.fields, "endpoint", DefaultEndpoint),
                             Get(config.fields, "period", DefaultPeriod),
                             Candidates(loaded.value).value))
              && (loaded.Raised? ==> p == Exit(Crashed(loaded.reason)))
              && (loaded.Returned? && Truthy(loaded.value) && Candidates(loaded.value).None? ==>
                    p == Exit(Crashed(if loaded.value.JObject? then "KeyError" else "TypeError")))
    ensures Truthy(config) && !config.JObject? ==> p == Exit(Crashed("AttributeError"))
  {
    if !Truthy(config) then Exit(NoConfig)
    else if !config.JObject? then Exit(Crashed("AttributeError"))
    else
      var period := Get(config.fields, "period", DefaultPeriod);
      var endpoint := Get(config.fields, "endpoint", DefaultEndpoint);
      var eventsFile := Get(config.fields, "events_file", DefaultEventsFile);
      match LoadEvents(files(eventsFile))
      case Raised(reason) => Exit(Crashed(reason))
      case Returned(events) =>
        if !Truthy(events) then Exit(NoEvents)
        else
          match Candidates(events)
          case None => Exit(Crashed(if events.JObject? then "KeyError" else "TypeError"))
          case Some(pool) => Run(endpoint, period, pool)
  }

  /** A missing events file, invalid JSON or an empty list: nothing is sent. */
  lemma NoEventsNoLoop(config: Json, files: Json -> EventsFile)
    requires config.JObject? && Truthy(config)
    requires var file := files(Get(config.fields, "events_file", DefaultEventsFile));
             file.NotFound? || file.NotJson? || file == Decoded(JArray([]))
    ensures PlanRun(config, files) == Exit(NoEvents)
  {
  }

  /** The deliveries of a loop that ran `fuel` iterations before the
      interrupt: one per iteration, each of one element of the pool to the
      endpoint with the default timeout and the network's answer for that
      iteration, whatever earlier deliveries gave; a period `time.sleep`
      refuses ends the loop after the first delivery. */
  ghost predicate LoopRan(endpoint: Json, period: Json, pool: seq<Json>, network: nat -> Transport,
                          fuel: nat, outcome: RunOutcome, sent: seq<Delivery>)
  {
    && |sent| == (if SleepAccepts(period) || fuel == 0 then fuel else 1)
    && outcome == (if SleepAccepts(period) || fuel == 0 then Interrupted else Crashed("sleep"))
    && forall i :: 0 <= i < |sent| ==>
         && |sent[i].posts| == 1
         && sent[i].posts[0].body in pool
         && sent[i] == SendEvent(sent[i].posts[0].body, endpoint, DefaultTimeout, network(i))
  }

  /** The `while True` loop of `main`, cut off by the operator after `fuel`
      iterations: pick an element of the pool, send it, sleep. */
  method Propagate(endpoint: Json, period: Json, pool: seq<Json>, network: nat -> Transport, fuel: nat)
    returns (outcome: RunOutcome, sent: seq<Delivery>)
    requires pool != []
    ensures LoopRan(endpoint, period, pool, network, fuel, outcome, sent)
  {
    sent := [];
    var k := 0;
    while k < fuel
      invariant k <= fuel && |sent| == k
      invariant k > 0 ==> SleepAccepts(period)
      invariant forall i :: 0 <= i < k ==>
                  && |sent[i].posts| == 1
                  && sent[i].posts[0].body in pool
                  && sent[i] == SendEvent(sent[i].posts[0].body, endpoint, DefaultTimeout, network(i))
    {
      var choice :| 0 <= choice < |pool|;
      var delivery := SendEvent(pool[choice], endpoint, DefaultTimeout, network(k));
      sent := sent + [delivery];
      k := k + 1;
      if !SleepAccepts(period) {
        outcome := Crashed("sleep");
        return;
      }
    }
    outcome := Interrupted;
  }

  /** Every request of a run goes to the configured endpoint (the default one
      when the configuration names none), with the default timeout and one
      element of the loaded events as its body. */
  lemma RunPostsToEndpoint(config: Json, files: Json -> EventsFile, network: nat -> Transport,
                           fuel: nat, outcome: RunOutcome, sent: seq<Delivery>)
    requires PlanRun(config, files).Run?
    requires var p := PlanRun(config, files);
             LoopRan(p.endpoint, p.period, p.pool, network, fuel, outcome, sent)
    ensures config.JObject?
    ensures forall i :: 0 <= i < |sent| ==>
              && sent[i].posts == [Post(Get(config.fields, "endpoint", DefaultEndpoint), sent[i].posts[0].body, DefaultTimeout)]
              && sent[i].posts[0].body in PlanRun(config, files).pool
  {
    var p := PlanRun(config, files);
    forall i | 0 <= i < |sent|
      ensures sent[i].posts == [Post(Get(config.fields, "endpoint", DefaultEndpoint), sent[i].posts[0].body, DefaultTimeout)]
    {
      assert sent[i] == SendEvent(sent[i].posts[0].body, p.endpoint, DefaultTimeout, network(i));
    }
  }

  /** `main`: the start-up decisions, then the loop when they let it run. */
  method RunPropagator(config: Json, files: Json -> EventsFile, network: nat -> Transport, fuel: nat)
    returns (outcome: RunOutcome, sent: seq<Delivery>)
    ensures PlanRun(config, files).Exit? ==> outcome == PlanRun(config, files).outcome && sent == []
    ensures PlanRun(config, files).Run? ==>
              var p := PlanRun(config, files);
              LoopRan(p.endpoint, p.period, p.pool, network, fuel, outcome, sent)
  {
    match PlanRun(config, files) {
      case Exit(o) =>
        outcome, sent := o, [];
      case Run(endpoint, period, pool) =>
        outcome, sent := Propagate(endpoint, period, pool, network, fuel);
    }
  }
}
