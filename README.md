# Cybercare security-event pipeline, modelled in Dafny

Cybercare is made of two small services and a helper they share:

- The **propagator** (`cybercare/propagator.py`) is a traffic generator. It
  loads sample security events from a JSON file. Then, until the operator
  interrupts it, it picks one event at random, POSTs it to the consumer and
  sleeps for the configured period.
- The **consumer** (`cybercare/consumer.py`) serves `POST /event`. It parses
  the body as JSON and checks that it is an object with string fields
  `event_type` and `event_payload`. It stores a valid event in PostgreSQL
  through `PostgresEventStorage` and answers 200, 400 or 500.
- The shared **configuration loader** (`cybercare/utils.py`) reads a YAML
  file after one `${NAME}` environment-substitution pass over its text. It
  turns every error into an empty configuration and picks the file from a
  `--config` command-line option.

The model replaces every external effect by a value it is given. That covers
the file system, the YAML and JSON decoders, the environment, the HTTP
client, the database and the operator's interrupt. Each operation is then a
deterministic function of its inputs, except for the random choice in the
propagator's loop, which is modelled as an unconstrained in-bounds index.

Files and modules:

| file | module | contents |
|---|---|---|
| `wrappers.dfy` | `Wrappers` | `Option` |
| `json.dfy` | `JsonValue` | decoded JSON/YAML values, Python truthiness, `dict.get` |
| `utils.dfy` | `Utils` | the `${NAME}` pass (`Substitute`), `load_config`, `setup_basic_app` |
| `consumer.dfy` | `Consumer` | `validate_event`, the `receive_event` handler, the `PostgresEventStorage` class |
| `propagator.dfy` | `Propagator` | `send_event`, `load_events`, the start-up of `main` and its loop |

The substitution follows the semantics of Python's `re.sub` with the pattern
`\$\{([^}]+)\}`:

- A match starts where `${` stands.
- It needs a non-empty run of characters other than `}`, closed by the first
  `}` after the `${`.
- After a match the scan resumes right behind its `}`. Where no match starts,
  one character is copied and the scan moves on by one.
- A replacement's text is never scanned again.

`Substitute` is that scan written as a recursive function. `Names` collects
the names it matches, using the same scan.

The propagator's `main` is modelled as it is written, including the ways it
can stop on an exception:

- A non-empty configuration that is not a dict fails on `.get`.
- A non-empty dict of events fails inside `random.choice`.
- So does a non-zero number or `true`.
- A period that `time.sleep` refuses ends the loop after the first delivery:
  a negative number, a value that is not a number, or more than 9223372036
  seconds, which overflows its signed 64-bit count of nanoseconds.
- A non-empty string of events makes every iteration send a single character.

The loop itself is `Propagate`: a method with a `while` loop whose `fuel`
parameter is the number of iterations before the operator's interrupt.

## Model

| member | source | states |
|---|---|---|
| Utils.MatchEnd | cybercare/utils.py:42 | a match found at the front of the text is `${`, a non-empty name without `}`, and the first `}` after the `${` |
| Utils.RefStep | cybercare/utils.py:41-45 | whenever a reference `${NAME}` stands at the front, it is the match the pass takes; the pass puts its replacement in its place and goes on right after its `}` |
| Utils.MatchEndExact | cybercare/utils.py:42 | the scan finds no match at the front exactly when no reference `${NAME}` (non-empty NAME without `}`, then `}`) stands there |
| Utils.CopyWhereNoRef | cybercare/utils.py:41-45 | where no reference `${NAME}` stands at the front, the first character is copied as is and the scan continues from the next one |
| Utils.Replacement | cybercare/utils.py:43 | what the replacement callback returns for a match: the variable's value when defined, otherwise `${NAME}` rebuilt; a definition without an ensures of its own, used by the lemmas on `Substitute` |
| Utils.Substitute | cybercare/utils.py:41-45 | the one-pass `re.sub` itself; it carries no ensures of its own and is characterised by the lemmas in the rows around it (`RefStep`, `CopyWhereNoRef`, `SubstituteRef`, `SubstituteLiteral`, `SubstituteInContext`, `UnclosedKept`, `EmptyNameKept`, `UndefinedNamesKept`, `OnlyNamesMatter`, `ReplacementNotRescanned`, `MatchStopsAtFirstClose`) |
| Utils.Names | cybercare/utils.py:42 | the names the pass matches, found by the same scan; each is non-empty and free of `}`, as `[^}]+` demands |
| Utils.SubstituteRef | cybercare/utils.py:41-45 | `${NAME}` followed by any text becomes NAME's replacement followed by the pass over that text, for every non-empty NAME without `}` (so NAME may hold `$`, `{`, blanks or line breaks) |
| Utils.SubstituteLiteral | cybercare/utils.py:41-45 | text without `$` is copied unchanged, and what follows it is processed as if it stood alone |
| Utils.SubstituteInContext | cybercare/utils.py:41-45 | in `before ${NAME} after`, with no `$` in `before`, the result is `before`, then the value of NAME (or the reference itself when NAME is undefined), then the pass over `after` |
| Utils.UnclosedKept | cybercare/utils.py:42 | text with no `}` (such as a `${` that is never closed) comes back unchanged |
| Utils.EmptyNameKept | cybercare/utils.py:42 | `${}` is not a match: it stays verbatim, and the rest is processed on its own |
| Utils.UndefinedNamesKept | cybercare/utils.py:43 | when the environment defines none of the matched names, the text comes back unchanged: each undefined reference stays as `${NAME}` |
| Utils.OnlyNamesMatter | cybercare/utils.py:43 | two environments that give the same replacement for every matched name give the same result |
| Utils.ReplacementNotRescanned | cybercare/utils.py:40-45 | single pass: `${A}` with A set to `${B}` and B defined gives `${B}`, and the inserted reference is not expanded again |
| Utils.MatchStopsAtFirstClose | cybercare/utils.py:42 | a match ends at the first `}`: `${a}b}` gives the value of `a` followed by `b}` |
| Utils.LoadConfig | cybercare/utils.py:32-59 | an absent, vanished, forbidden or unreadable file, and YAML that is invalid or makes the loader fail, all give `{}` without raising; when the loader returns a value for the substituted text, that value is the result, and every result other than `{}` is such a value |
| Utils.LoadConfigSeesValue | cybercare/utils.py:37-47 | a defined `${NAME}` in the file reaches the YAML loader already replaced by its value, with the rest of the text substituted on its own |
| Utils.SetupBasicApp | cybercare/utils.py:81-95 | the `--config` path when given, the default path otherwise; the result is what `load_config` returned, unchanged, even when it is empty |
| Consumer.ValidateEvent | cybercare/consumer.py:91-114 | true exactly for a dict whose `event_type` and `event_payload` are both strings; false for every other value, and it never raises |
| Consumer.AcceptsEveryEvent | cybercare/consumer.py:106-114 | any two strings (empty, long or non-ASCII) under the two keys are accepted, whatever other keys the dict also has |
| Consumer.RejectsMalformed | cybercare/consumer.py:103-112 | a non-dict, a missing key or a non-string value is rejected |
| Consumer.ReceiveEvent | cybercare/consumer.py:149-162 | invalid JSON gives 400 "Invalid JSON" and a failed validation gives 400 "Invalid event format", neither calling storage; a valid event is passed to storage exactly once, as the parsed dict, and gets 200 success or 500 "Failed to store event" according to what storage reports |
| Consumer.ReceiveEventOutcomes | cybercare/consumer.py:149-162 | every request gets one of the four responses; storage is called at most once, and exactly when the status is not 400; 200 means a valid event that storage accepted |
| Consumer.ReceivedEventStoredIntact | cybercare/consumer.py:153-159 | a well-formed event reaches storage as the very dict received, and its two strings are the values bound to the insert |
| Consumer.PostgresEventStorage.constructor | cybercare/consumer.py:39-45 | each setting comes from the configuration when present, otherwise from localhost / 5432 / events_db / postgres / postgres / events; no connection is opened |
| Consumer.PostgresEventStorage.StoreEvent | cybercare/consumer.py:67-88 | one attempt to connect with the configured settings; when it fails, no connection is counted and no statement is issued; otherwise one connection and one insert into the configured table of `event_type` and `event_payload`, with `""` for a missing key; true exactly when the insert committed, false on every failure, never raising |
| Propagator.SendEvent | cybercare/propagator.py:36-65 | exactly one POST of the event to the endpoint with the given timeout, no retry; true exactly for a response status in [200, 300); timeout, connection error and any other exception give false |
| Propagator.SuccessIsStatusClass2xx | cybercare/propagator.py:50-56 | success is the 2xx class, i.e. status / 100 == 2 (200 and 299 succeed, 199, 300, 400 and 500 do not) |
| Propagator.LoadEvents | cybercare/propagator.py:19-33 | the decoded value is returned unchanged (a list keeps its order, an object stays an object); a missing file or invalid JSON gives `[]`; any other error propagates |
| Propagator.LoadEventsOutcomes | cybercare/propagator.py:28-33 | a returned value is either the decoded one or `[]`, and an exception comes exactly from the errors that are not caught |
| Propagator.Candidates | cybercare/propagator.py:94 | what `random.choice` can pick: a list's items, or a string's characters; nothing to pick exactly when the value is falsy; any other value raises |
| Propagator.PlanRun | cybercare/propagator.py:74-94 | an empty configuration returns before anything else; a non-empty configuration that is not a dict raises AttributeError; an error `load_events` does not catch propagates; empty events return before the loop; a non-empty dict of events raises KeyError and a non-zero number or `true` raises TypeError in `random.choice`; in every other case the loop runs, with `endpoint` and `period` from the configuration or their defaults and the loaded list (or string) as the pool |
| Propagator.NoEventsNoLoop | cybercare/propagator.py:84-87 | a missing events file, invalid JSON or an empty list stop `main` before its loop |
| Propagator.Propagate | cybercare/propagator.py:92-98 | each iteration before the interrupt sends exactly one element of the events, whatever earlier sends gave; a period `time.sleep` refuses (negative, not a number, or more seconds than its 64-bit nanosecond counter holds) ends the loop after the first send |
| Propagator.RunPostsToEndpoint | cybercare/propagator.py:80-96 | every request of a run goes to the configured endpoint (`http://localhost:8000/event` by default) with timeout 10 and one loaded event as its body |
| Propagator.RunPropagator | cybercare/propagator.py:68-98 | `main` sends nothing when it returns at start-up, and otherwise runs the loop on the planned endpoint, period and events |

## Left out

- FastAPI and uvicorn wiring are not modelled: `app`, `app.state.storage`, `get_storage`, the `Depends` injection and the asynchronous request plumbing. `receive_event` is a function of the parse outcome and of what storage reports.
- The consumer's `main` (`cybercare/consumer.py:165-187`) is not modelled. It only wires configuration into the server and the storage.
- The request body is either invalid JSON or a decoded value. A body that fails to decode for another reason (bytes that are not text) escapes the handler, and that path is not modelled.
- psycopg2 is abstracted as one outcome per insert: committed, or failed at connecting, executing or committing. Identifier quoting, cursors and transactions are not modelled.
- Consumer.PostgresEventStorage.StoreEvent: it counts the connections that were opened but claims nothing about closing them, since `with conn` commits or rolls back without closing.
- `requests.post`, the network and the timeout mechanics are not modelled. Each request's result is an outcome value, and in the loop the `i`-th request's outcome is `network(i)`.
- File reading, `json.load` and `yaml.safe_load` are given as outcome values: a function from path to file outcome and a function from text to loader outcome. Neither grammar is modelled.
- `os.environ` after `load_dotenv` is a `map<string, string>` parameter. argparse is an optional `--config` value; its own usage errors and exits are not modelled.
- Logging is left out everywhere. It has no effect on results.
- The loop's sleeping and its timing are not modelled. `time.sleep` is reduced to whether it accepts the period.
- `KeyboardInterrupt` is the `fuel` bound on the number of iterations. An interrupt in the middle of a send or of a sleep is not distinguished.
- Propagator.Propagate: the random choice is any in-bounds index. The uniformity of `random.choice` is not modelled.
- JSON and YAML numbers are integers. Floats are folded in, since the code only tests numbers for truthiness, compares a status code and passes a period to `time.sleep`.
- Propagator.PlanRun: an exception is recorded as a crash with the exception's name. Its message and traceback are not modelled.
- `setup.py` packaging metadata is not part of this model.
