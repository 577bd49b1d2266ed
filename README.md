# LayerCode webhook gateway, modelled in Dafny

This project models the protocol core of `layercode-create-app`, a gateway
that receives LayerCode voice-agent webhooks and answers them with
server-sent events produced by a pluggable agent. The model covers:

- signature verification of the `layercode-signature` header (`Auth`);
- the five typed webhook payloads and their validation from the JSON body
  (`Events`, over the JSON value type, decoder and compact encoder of `Json`);
- the streaming response: the stream helper that frames `response.tts`,
  `response.data` and `response.end` events, the queue controller with its
  `b""` sentinel, the producer that always ends the stream, and the generator
  that drains the queue (`Stream`);
- the in-memory conversation store with per-conversation histories and
  lazily created locks (`Conversation`);
- the webhook endpoint's decision chain and its dispatch under the lock
  (`App`);
- the agent registry (`Agents`) and the route normaliser of the settings
  (`Config`);
- the echo, slow, bakery and outdoor-shop agents (`Echo`, `SlowAgent`,
  `Bakery`, `OutdoorShop`).

Each module follows one source file. `Wrappers` (Option/Result) and `Text`
(the Python string operations used: `lower`, `upper`, `strip`, `rstrip`,
`split`, `join`, `in`, `int()`, `sorted` on strings) are shared helpers.

Stateful parts are classes whose methods update fields:
- `ConversationStore`, `ChunkQueue`, `QueueController` and `StreamHelper`;
- the `Registry`;
- `BakeryAgent`, with its order and reservation lists.

The helper's methods are specified through `StreamHelper.State()`, which
yields a `PipeState` value (the queue plus both closed flags). The pure
functions `Enqueued`, `ControllerClosed`, `Ended`, `Run` and `Finish`
describe what they do. An agent handler is a script of emissions
(`Handler`) that completes normally or raises. `Body` iterates a response:
it builds a fresh queue, controller and helper, runs `Producer`, then runs
`Generator`. Its result is `WireBody`, which lemmas compare with the
independent reference `ExpectedBody`.

External inputs are parameters:
- the HMAC-SHA256 digest, as a `mac` function;
- the clock, as `now` in whole seconds;
- the configured webhook secret;
- the language-model run of the bakery and outdoor-shop message handlers, as `run`;
- the outdoor shop's catalog, order table and policy table.

The default `handle_session_end` (base.py:39-42) returns `None` and does
nothing. The echo, slow and outdoor-shop agents inherit it or restate it. It
is modelled as `HandleSessionEnd` methods without a `modifies` clause, so
they change nothing.

## Model

| member | source | states |
|---|---|---|
| Auth.HeaderPairsNone | src/layercode_create_app/sdk/auth.py:29-32 | the header items fail to form pairs exactly when some item holds no `=` |
| Auth.HeaderPairsSplit | src/layercode_create_app/sdk/auth.py:29-32 | each item is its key, `=`, and the rest, split at the first `=` (the key holds no `=`) |
| Auth.ToDict | src/layercode_create_app/sdk/auth.py:29-32 | `dict(pairs)` has exactly the keys that occur among the pairs |
| Auth.ToDictLastWins | src/layercode_create_app/sdk/auth.py:29-32 | a duplicated key keeps the value of its last occurrence |
| Auth.MalformedWhenItemLacksEquals | src/layercode_create_app/sdk/auth.py:29-32 | one item without `=` makes verification fail with "Malformed signature header", whatever the rest holds |
| Auth.LaterKeyWins | src/layercode_create_app/sdk/auth.py:29-32 | in `t=a,v1=v,t=b` the later `t` wins, and `v1` may itself contain `=` |
| Auth.MissingFieldsFirst | src/layercode_create_app/sdk/auth.py:34-38 | an absent or empty `t` or `v1` gives "missing required fields" before the timestamp is read |
| Auth.NonIntegerTimestamp | src/layercode_create_app/sdk/auth.py:40-43 | a `t` that `int()` refuses gives "Invalid timestamp", before the clock or the MAC is consulted |
| Auth.AcceptedExactly | src/layercode_create_app/sdk/auth.py:21-53 | verification succeeds iff the header parses, `t` and `v1` are present, `t` is an integer within the tolerance (boundary included), and `v1` is the ASCII digest of the `t` text as sent, a dot and the body |
| Auth.ParseSignatureHeader | src/layercode_create_app/sdk/auth.py:29-38 | a sender-built `t=<ts>,v1=<v>` parses back to exactly its timestamp text and digest |
| Auth.VerifyBuiltHeader | src/layercode_create_app/sdk/auth.py:45-53 | for a sender-built header, the outcome depends only on the clock check and then the comparison, in that order |
| Auth.SignedHeaderAccepted | src/layercode_create_app/sdk/auth.py:49-53 | a header signed over `<t>.<body>` with the right secret is accepted within the window |
| Auth.ToleranceBoundaryAccepted | src/layercode_create_app/sdk/auth.py:45-47 | a timestamp exactly `tolerance` seconds before or after `now` is accepted |
| Auth.AppendedDigestMismatch | tests/test_signature.py:21-37 | characters appended to a correct header turn it into "Signature mismatch" |
| Auth.StaleRejectedDespiteCorrectMac | tests/test_signature.py:40-47 | a stale timestamp is refused with the tolerance error even when the digest is right |
| Text.ParseIntOfDecimal | src/layercode_create_app/sdk/auth.py:40-43 | `int()` reads back the decimal text of every integer |
| Text.ParseIntSkipsSpaces | src/layercode_create_app/sdk/auth.py:40-43 | `int()` reads a number surrounded by ASCII whitespace or non-ASCII spaces as the bare number |
| Text.ParseIntRefusesSeparators | src/layercode_create_app/sdk/auth.py:40-43 | a separator U+001C..U+001F before or after the digits makes `int()` fail, although `str.isspace()` accepts it, so such a `t` gives "Invalid timestamp" |
| Config.ValidateRoute | src/layercode_create_app/config.py:31-36 | a route is refused, with the fixed message, exactly when it does not start with `/` |
| Config.AcceptedIsNormal | src/layercode_create_app/config.py:33-36 | every accepted route starts with `/` and does not end with `/` unless it is `/` |
| Config.AcceptedDropsOnlyTrailingSlashes | src/layercode_create_app/config.py:36 | the input is the result followed by slashes only (an all-slash input gives `/`) |
| Config.NormalRouteIsFixed | src/layercode_create_app/config.py:33-36 | a normal route is accepted unchanged |
| Config.ValidateRouteIdempotent | src/layercode_create_app/config.py:36 | normalising an accepted route again gives the same result |
| Config.DefaultRoutesValid | src/layercode_create_app/config.py:15-16 | the defaults `/api/agent` and `/api/authorize` validate to themselves |
| Config.ValidateRouteSamples | src/layercode_create_app/config.py:33-36 | `/hooks//` gives `/hooks`, `///` gives `/`, and `api` is refused |
| Events.TypeOf | src/layercode_create_app/sdk/events.py:11-18 | a literal that names an event type is that type's literal |
| Events.TypeOfExactly | src/layercode_create_app/sdk/events.py:11-18 | exactly the five literals name event types, and each type is named by its own literal |
| Events.TypeNameInjective | src/layercode_create_app/sdk/events.py:11-18 | distinct event types have distinct literals |
| Events.Parse | src/layercode_create_app/sdk/events.py:110-113 | an accepted body is an object whose `type` is the literal of the returned variant |
| Events.ParseVariant | src/layercode_create_app/sdk/events.py:102-104 | the variant parser for a type returns that variant with the common fields it was given |
| Events.ParseSelectsByType | src/layercode_create_app/sdk/events.py:110-113 | the accepted variant is a given type iff `type` holds that type's literal |
| Events.UnknownTypeRejected | src/layercode_create_app/sdk/events.py:102-104 | a body whose `type` is none of the literals is refused on `type` |
| Events.MissingTurnIdRejected | src/layercode_create_app/sdk/events.py:34-37 | a `session.start`, `message` or `data` body without `turn_id` is refused |
| Events.AbsentFieldReads | src/layercode_create_app/sdk/events.py:27-29 | absent optional fields read as `None`, an absent `data` as `{}`, and an absent required field is an error on that field |
| Events.DataDefaultsToEmpty | src/layercode_create_app/sdk/events.py:58-62 | with a string `turn_id`, an absent `data` parses to the empty dict, and a `null` `data` is refused on the `data` field |
| Events.TranscriptItemNeedsRoleAndText | src/layercode_create_app/sdk/events.py:65-72 | an accepted transcript item had `role` and `text` as strings |
| Events.BareCommonReads | src/layercode_create_app/sdk/events.py:21-31 | `type`, `session_id` and `conversation_id` alone give the common part with every optional field `None` |
| Events.MinimalSessionEndParses | tests/conftest.py:91-98 | the three-field `session.end` body validates, with no `turn_id`, every other field `None` |
| Events.MinimalSessionUpdateParses | src/layercode_create_app/sdk/events.py:92-99 | the three-field `session.update` body validates, with no `turn_id`, every recording field `None` |
| Events.MissingCommonRejected | src/layercode_create_app/sdk/events.py:25-26 | a body without `session_id` or without `conversation_id` is refused, whatever its type |
| Events.ParseToJson | src/layercode_create_app/sdk/events.py:40-99 | every payload rendered to its JSON object validates back to itself |
| Json.DecodeEncode | src/layercode_create_app/sdk/stream.py:38 | the model's compact encoding of a dict-shaped value decodes back to that value; null, booleans, integers, strings, arrays and objects are written as `json.dumps` writes them |
| Json.Get | src/layercode_create_app/sdk/stream.py:66 | `d.get(key)` finds a value exactly when the key occurs, and the value is stored under that key |
| Stream.FrameIsNotSentinel | src/layercode_create_app/sdk/stream.py:36-39 | every frame is at least eight characters long, so it is never the empty sentinel |
| Stream.FrameDecodes | src/layercode_create_app/sdk/stream.py:36-39 | a frame is `data: ` + JSON + blank line, and its JSON reads back as `{type, turn_id, **content}` |
| Stream.FrameInjective | src/layercode_create_app/sdk/stream.py:36-39 | a frame determines its event type, turn id and content |
| Stream.TtsFrameDecodes | src/layercode_create_app/sdk/stream.py:41-44 | a `tts` frame is `response.tts` carrying the text under `content` |
| Stream.DataFrameDecodes | src/layercode_create_app/sdk/stream.py:46-49 | a `data` frame is `response.data` carrying the dict under `content` |
| Stream.EndFrameDecodes | src/layercode_create_app/sdk/stream.py:55 | an end frame carries only `type` `response.end` and the turn id |
| Stream.EndedIdempotent | src/layercode_create_app/sdk/stream.py:51-57 | a second `end()` changes nothing |
| Stream.EndedOnOpen | src/layercode_create_app/sdk/stream.py:51-57 | on an open stream `end()` adds exactly the end frame and one sentinel, and closes both |
| Stream.ChunkQueue.PutNowait | src/layercode_create_app/sdk/stream.py:82 | `put_nowait` appends at the back |
| Stream.ChunkQueue.Get | src/layercode_create_app/sdk/stream.py:103 | `get` removes and returns the front item |
| Stream.QueueController.Enqueue | src/layercode_create_app/sdk/stream.py:80-82 | a chunk is appended while the controller is open and dropped once it is closed |
| Stream.QueueController.Close | src/layercode_create_app/sdk/stream.py:84-86 | `close` sets the flag and appends exactly one sentinel, whatever the flag was |
| Stream.StreamHelper.constructor | src/layercode_create_app/sdk/stream.py:30-34 | a new helper has its turn id and controller and is open |
| Stream.StreamHelper.Emit | src/layercode_create_app/sdk/stream.py:36-39 | the state afterwards is the old state with the frame enqueued |
| Stream.StreamHelper.Tts | src/layercode_create_app/sdk/stream.py:41-44 | the state afterwards is the old state with the `tts` frame enqueued |
| Stream.StreamHelper.Data | src/layercode_create_app/sdk/stream.py:46-49 | the state afterwards is the old state with the `data` frame enqueued |
| Stream.StreamHelper.End | src/layercode_create_app/sdk/stream.py:51-57 | the state afterwards is `Ended(old state)`: end frame and close the first time, unchanged afterwards |
| Stream.TtsDataEndScenario | tests/test_sdk_stream.py:25-37 | `tts`, `data`, `end` leave those three frames in order, then the sentinel, with the controller closed |
| Stream.Producer | src/layercode_create_app/sdk/stream.py:91-97 | the state afterwards is the handler's emissions run in order, then the error event if it raised, then `end()` |
| Stream.UntilSentinel | src/layercode_create_app/sdk/stream.py:102-106 | the chunks before the first sentinel: a prefix of the queue that holds no sentinel and is followed by one |
| Stream.Generator | src/layercode_create_app/sdk/stream.py:99-108 | the yielded chunks are the queue's items, in order, up to and excluding the first sentinel, and that sentinel is consumed |
| Stream.StreamResponse | src/layercode_create_app/sdk/stream.py:66 | the turn id is `str()` of the body's `turn_id` for a string, an integer, a boolean or `null`, and `""` when absent; the handler is stored unrun |
| Stream.Body | src/layercode_create_app/sdk/stream.py:88-108 | iterating a response yields `WireBody`: the producer run on a fresh pipeline, drained up to the sentinel |
| Stream.ProducedQueue | src/layercode_create_app/sdk/stream.py:91-97 | the producer leaves exactly the reference body followed by one sentinel, with both closed |
| Stream.WireBodyIsExpected | src/layercode_create_app/sdk/stream.py:91-108 | the client receives the frames before the handler's first `end()`, the error event when it raised without ending, and one end event |
| Stream.ExactlyOneEnd | src/layercode_create_app/sdk/stream.py:51-57 | for every handler whose data events are dicts, the body ends with the end event and holds exactly one |
| Stream.RaisedBody | src/layercode_create_app/sdk/stream.py:94-97 | a handler that raises before ending yields its frames, `{"error": msg}`, then the end event |
| Stream.AfterEndIgnored | src/layercode_create_app/sdk/stream.py:54-57 | whatever a handler emits after its first `end()`, and however it finishes, is not sent |
| Stream.EndTwice | src/layercode_create_app/sdk/stream.py:54-57 | a handler ending twice yields one end event |
| Conversation.ConversationStore.constructor | src/layercode_create_app/server/conversation.py:14-17 | a new store has no histories and no locks |
| Conversation.ConversationStore.AcquireLock | src/layercode_create_app/server/conversation.py:19-28 | the lock of the id exists afterwards and is held; nothing else changes |
| Conversation.ConversationStore.ReleaseLock | src/layercode_create_app/server/conversation.py:30-35 | a held lock becomes free; a missing or free lock changes nothing; histories are untouched |
| Conversation.ConversationStore.Append | src/layercode_create_app/server/conversation.py:37-41 | the id's history gains the messages at its end, in order; other ids, the locks and (for `[]`) every history stay as they were |
| Conversation.ConversationStore.Get | src/layercode_create_app/server/conversation.py:43-46 | returns the id's history, `[]` for an unknown id, and creates no entry |
| Conversation.LockRoundTrip | src/layercode_create_app/server/conversation.py:19-35 | acquire then release leaves the lock existing and free, and every history unchanged |
| Agents.DisplayName | src/layercode_create_app/agents/base.py:44-46 | the class's `name` when it has one, otherwise its class name in lower case |
| Agents.Registry.constructor | src/layercode_create_app/agents/base.py:57 | the registry starts empty |
| Agents.Registry.Register | src/layercode_create_app/agents/base.py:60-64 | the factory is stored under the lower-cased name, replacing any earlier one; keys stay lower case |
| Agents.Registry.Create | src/layercode_create_app/agents/base.py:67-73 | a registered name (any case) gives its factory applied to the model; otherwise the error lists the names sorted |
| Agents.Registry.Available | src/layercode_create_app/agents/base.py:89-92 | returns the mapping as a value, so later registrations do not reach it |
| Agents.Registry.Decorate | src/layercode_create_app/agents/base.py:79-86 | the decorator registers the factory and returns it unchanged |
| Agents.RegisterThenCreate | src/layercode_create_app/agents/base.py:60-73 | after registering under one spelling, any spelling with the same lower case creates from that factory |
| Agents.RegisterTwice | src/layercode_create_app/agents/base.py:63-64 | registering a name again makes the second factory the one used |
| Agents.UnknownAgentListsSorted | src/layercode_create_app/agents/base.py:71-72 | the error message lists every registered name once, in ascending order, and that listing is unique |
| Echo.EchoAgent.constructor | src/layercode_create_app/agents/echo.py:19-21 | the agent keeps its model and the fixed welcome |
| Echo.EchoAgent.HandleSessionStart | src/layercode_create_app/agents/echo.py:23-27 | the stream gets the welcome `tts`, then `end()` |
| Echo.EchoAgent.HandleMessage | src/layercode_create_app/agents/echo.py:29-38 | the stream gets `tts("You said: " + text)` (missing text as `""`), then `end()`; no messages are returned |
| Echo.Factory | src/layercode_create_app/agents/echo.py:12-17 | the factory builds an `EchoAgent` named `echo` with the given model |
| Echo.Register | src/layercode_create_app/agents/echo.py:12 | `@agent("echo")` stores the factory under `echo` |
| Echo.StartBody | src/layercode_create_app/agents/echo.py:26-27 | the client gets the welcome and one end event; the producer's own `end()` adds nothing |
| Echo.MessageBody | src/layercode_create_app/agents/echo.py:35-37 | the client gets `You said: <text>` and one end event |
| SlowAgent.SlowAgent.constructor | src/layercode_create_app/agents/slow_agent.py:38-39 | the agent keeps its model |
| SlowAgent.SlowAgent.HandleSessionStart | src/layercode_create_app/agents/slow_agent.py:41-48 | the stream gets one welcome `tts`, then `end()` |
| SlowAgent.SlowAgent.HandleMessage | src/layercode_create_app/agents/slow_agent.py:50-73 | the stream gets three `tts`/`data` pairs, then `end()`; no messages are returned |
| SlowAgent.RunMessageScript | src/layercode_create_app/agents/slow_agent.py:56-71 | running the script is the three pairs applied two at a time, then `end()` |
| SlowAgent.Factory | src/layercode_create_app/agents/slow_agent.py:29-33 | the factory builds a `SlowAgent` named `slow_agent` with the given model |
| SlowAgent.Register | src/layercode_create_app/agents/slow_agent.py:29 | `@agent("slow_agent")` stores the factory under `slow_agent` |
| SlowAgent.StartBody | src/layercode_create_app/agents/slow_agent.py:44-48 | the client gets the welcome and one end event |
| SlowAgent.MessageBody | src/layercode_create_app/agents/slow_agent.py:57-71 | the client gets the three parts with status loading/processing/complete and progress 0/50/100, then one end event |
| SlowAgent.MessageEndsOnce | src/layercode_create_app/agents/slow_agent.py:71 | the message body ends with the end event and holds exactly one |
| Bakery.MoneyDigits | src/layercode_create_app/agents/bakery.py:69 | the two-decimal text of an amount of cents reads back, digits joined, as that amount |
| Bakery.BakeryAgent.constructor | src/layercode_create_app/agents/bakery.py:28-38 | the agent starts with the fixed menu and no orders or reservations |
| Bakery.BakeryAgent.ListMenu | src/layercode_create_app/agents/bakery.py:49-53 | returns the menu and enqueues one `list_menu` data event |
| Bakery.BakeryAgent.MakeOrder | src/layercode_create_app/agents/bakery.py:55-77 | an item that is on the menu after lower-casing adds one order with that item, the quantity and the total; any other item adds nothing and gets the apology; one data event either way |
| Bakery.BakeryAgent.BookTable | src/layercode_create_app/agents/bakery.py:79-97 | always appends one reservation `{name, time, guests}`, returns the booking text, and enqueues one data event |
| Bakery.BakeryAgent.HandleSessionStart | src/layercode_create_app/agents/bakery.py:102-106 | the stream gets the welcome `tts`, then `end()` |
| Bakery.BakeryAgent.HandleSessionEnd | src/layercode_create_app/agents/bakery.py:132-134 | both the orders and the reservations become empty |
| Bakery.Factory | src/layercode_create_app/agents/bakery.py:21-26 | every agent it builds is a `BakeryAgent` displayed as `bakery`, with the given model and the supplied message run |
| Bakery.Register | src/layercode_create_app/agents/bakery.py:21 | `@agent("bakery")` stores the factory under `bakery` |
| Bakery.ToolEventsWellFormed | src/layercode_create_app/agents/bakery.py:52-96 | each tool's data event is a dict with distinct keys whose `tool` names that tool |
| Bakery.TwoCroissants | src/layercode_create_app/agents/bakery.py:65-69 | two croissants are confirmed as `Order confirmed: 2 x croissant for $7.00.` |
| OutdoorShop.ScanIsTake | src/layercode_create_app/agents/outdoor_shop.py:976-984 | with a positive cap, a search loop returns the first `cap` in-scope matching products in catalog order |
| OutdoorShop.ScanNonPositiveCap | src/layercode_create_app/agents/outdoor_shop.py:976-984 | with a cap of zero or less, a loop stops at the first product in scope, keeping it only if it matches: at most one result |
| OutdoorShop.Collect | src/layercode_create_app/agents/outdoor_shop.py:976-992 | the loop with its `break` computes `Scan` of the catalog, query and category |
| OutdoorShop.SearchSpec | src/layercode_create_app/agents/outdoor_shop.py:974-992 | for `max_results >= 1`: the first `max_results` in-scope products whose text contains the lower-cased query; if none does, the first `max_results` in-scope products; never more than `max_results` |
| OutdoorShop.SearchFindsInScope | src/layercode_create_app/agents/outdoor_shop.py:974-982 | every result is in the catalog and passes the category filter; when anything matches, every result contains the query |
| OutdoorShop.ZeroCapSearch | src/layercode_create_app/agents/outdoor_shop.py:983-984 | with `max_results = 0` the search still returns one product when any is in scope |
| OutdoorShop.SuggestedFilters | src/layercode_create_app/agents/outdoor_shop.py:1132-1141 | the loop computes the first five of the sorted set of season ratings, `<n>-person` for non-zero capacities, and categories |
| OutdoorShop.SuggestedProperties | src/layercode_create_app/agents/outdoor_shop.py:1132-1141 | the suggestions are strictly sorted, at most five, drawn from the products' filters, all of them when fewer than five, and the smallest |
| OutdoorShop.SearchProducts | src/layercode_create_app/agents/outdoor_shop.py:959-1000 | the products are `Search`, `results_count` is their number, query and category are echoed, and the suggestions are those of the products |
| OutdoorShop.SearchProductsTool | src/layercode_create_app/agents/outdoor_shop.py:1002-1012 | the search result, plus one `product_catalog` data event carrying the query and the count |
| OutdoorShop.Actions | src/layercode_create_app/agents/outdoor_shop.py:1144-1153 | the actions end with `contact_support`, and one action precedes it exactly when the status is shipped, in transit, processing or delivered |
| OutdoorShop.AvailableActions | src/layercode_create_app/agents/outdoor_shop.py:1144-1153 | the inserting method computes `Actions` of the status |
| OutdoorShop.LookupOrder | src/layercode_create_app/agents/outdoor_shop.py:1025-1043 | found exactly when the upper-cased, stripped number is a key; found carries that order and its actions, not found the normalised key and the help |
| OutdoorShop.OrderKeyIdempotent | src/layercode_create_app/agents/outdoor_shop.py:1025 | normalising an order number twice gives the same key |
| OutdoorShop.LookupOrderTool | src/layercode_create_app/agents/outdoor_shop.py:1014-1055 | the lookup result, plus one `order_tracking` data event with the normalised number and whether it was found |
| OutdoorShop.Keys | src/layercode_create_app/agents/outdoor_shop.py:1070-1081 | the policy keys, in table order |
| OutdoorShop.Without | src/layercode_create_app/agents/outdoor_shop.py:1073 | the keys other than the given one, and no other strings |
| OutdoorShop.WithoutDistinct | src/layercode_create_app/agents/outdoor_shop.py:1073 | with distinct keys, the related policies are one fewer than the keys |
| OutdoorShop.FindPolicy | src/layercode_create_app/agents/outdoor_shop.py:1070 | a policy is found exactly when the key is in the table, and it is the one stored under it |
| OutdoorShop.GetPolicy | src/layercode_create_app/agents/outdoor_shop.py:1068-1081 | found exactly when the lower-cased, stripped type is a key, with the other keys as related; otherwise every key is offered and the raw input is echoed |
| OutdoorShop.GetPolicyTool | src/layercode_create_app/agents/outdoor_shop.py:1057-1093 | the policy result, plus one `policy_info` data event with the normalised type and whether it was found |
| OutdoorShop.OutdoorShopAgent.HandleSessionStart | src/layercode_create_app/agents/outdoor_shop.py:1098-1102 | the stream gets the welcome `tts`, then `end()` |
| OutdoorShop.Factory | src/layercode_create_app/agents/outdoor_shop.py:935-940 | every agent it builds is an `OutdoorShopAgent` displayed as `outdoor_shop`, with the given model and message run |
| OutdoorShop.Register | src/layercode_create_app/agents/outdoor_shop.py:935 | `@agent("outdoor_shop")` stores the factory under `outdoor_shop` |
| App.Authenticate | src/layercode_create_app/server/app.py:108-126 | a blank signature gives 401; then a blank secret gives 500; success exactly when both are present and verification passes |
| App.AuthenticateFailures | src/layercode_create_app/server/app.py:122-126 | a rejected signature gives 401 with that reason; the uncaught non-ASCII comparison error gives 500 |
| App.ReadPayload | src/layercode_create_app/server/app.py:128-137 | undecodable JSON gives 400 "Invalid JSON body", then a schema failure 400 "Invalid payload schema"; success returns the decoded object and its payload |
| App.Admit | src/layercode_create_app/server/app.py:108-137 | authentication failures come first, then the body is read |
| App.SignedRequestAdmitted | src/layercode_create_app/server/app.py:108-137 | a payload rendered to JSON and correctly signed within the window is admitted as exactly that payload |
| App.StaleRequestRefused | src/layercode_create_app/server/app.py:122-126 | the same request sent too late is refused with 401 and the tolerance message |
| App.HandleSessionStart | src/layercode_create_app/server/app.py:176-184 | the response streams the agent's session-start handler under the body's turn id |
| App.HandleMessage | src/layercode_create_app/server/app.py:187-200 | the response streams the agent's message handler, unrun; the returned list is the `[]` bound before it |
| App.Dispatch | src/layercode_create_app/server/app.py:147-169 | start and message stream the agent's handlers; end and update answer `{"status": "ok"}`; a `data` event gives 400 "Unsupported event type" |
| App.Serve | src/layercode_create_app/server/app.py:145-171 | the answer is `Dispatch`, the lock is released on every branch, histories are unchanged, and only `session.end` reaches the agent's end handler |
| App.AgentWebhook | src/layercode_create_app/server/app.py:106-171 | an unadmitted request leaves the store untouched; an admitted one is served under its conversation's lock, which is free afterwards |
| App.ServeRecorded | src/layercode_create_app/server/app.py:153-162 | the corrected message branch appends the agent's returned messages to that conversation only |
| App.AgentWebhookRecorded | src/layercode_create_app/server/app.py:106-171 | the endpoint with the corrected message branch |
| App.ReplyLostThenRecorded | src/layercode_create_app/server/app.py:193-200 | as written, an agent's reply is not recorded; corrected, the same turn records it |
| App.TwoTurnsRecorded | src/layercode_create_app/server/app.py:153-161 | corrected, the second message turn of a conversation sees the first turn's messages |
| App.EchoMessageExchange | src/layercode_create_app/agents/echo.py:35-38 | a message to the echo agent streams `You said: <text>` and one end event under its turn id, and returns no messages |

## Left out

- Concurrency is not modelled. Real `asyncio` interleaving, blocking on a held `asyncio.Lock`, and the store's `_registry_lock` are out. `acquire_lock` requires the lock to be free, which is the state a single task finds.
- The producer and the generator run one after the other. This gives the same chunk order, because the queue is FIFO and has one writer.
- `Stream.Generator`: the wait for `producer_task` in the generator's `finally` is not modelled. Nothing is left to wait for once the producer has run to completion.
- Lock timing: the lock is released (app.py:170-171) before the streamed handler runs. The model shows this only through the fact that the handler is stored unrun.
- HMAC-SHA256 and `hex(digest)` are not modelled: they are the `mac` parameter.
- `Auth.VerifySignature`: `hmac.compare_digest` is modelled as plain equality, plus its `TypeError` for non-ASCII strings.
- `time.time()` is the parameter `now`, in whole seconds, so the model has no fractional seconds.
- The UTF-8 decoding of the body is not modelled. The model gets the body as text, so the 500 that an undecodable body causes is out.
- `Events.Parse`: fields are checked by JSON kind only. Pydantic's lax coercions are out (numeric strings to numbers, whole floats to `int`), and so are aliases.
- JSON numbers with a fraction or an exponent stay exact decimals. Python would round them to binary floats.
- The JSON encoder is written for `ensure_ascii` output. Lone surrogates and other oddities are left to the encoder's own definition.
- Json.Decode: refuses the `NaN`, `Infinity` and `-Infinity` literals and lone-surrogate escapes such as `"\ud800"`, which `json.loads` accepts. A body holding one is answered 400 "Invalid JSON body" here, where the source parses it. A string here is a sequence of Unicode scalar values, which has no place for a lone surrogate.
- Json.Encode: writes a non-integer number as mantissa and exponent (`15e-1`), where `json.dumps` writes Python's float repr (`1.5`).
- Json.DecodeEncode: the round trip is of this model's encoder and decoder. They agree with `json.dumps` and `json.loads` on null, booleans, integers, strings, arrays and objects, but not on non-integer numbers or the cases in the two lines above.
- Stream.StreamResponse: Python's `str()` of a float, list or dict `turn_id` (`1.5`, `['a']`, `{'a': 1}`) is not modelled; such a value renders as its JSON text. The two streamed events require a string `turn_id`, so `App` never passes one of these.
- `Bakery.BakeryAgent.MakeOrder`: totals are exact integer cents, not floats. The formatted total agrees with Python's `:.2f` while the float product is exact, which holds for quantities up to about 2^49.
- Text.ParseInt: the limit of 4300 digits that Python 3.11 and later put on `int()` is not modelled. A longer `t` is judged on tolerance here, where the source answers "Invalid timestamp". A JSON integer that long makes `json.loads` raise a `ValueError` that app.py:130 does not catch, so the source answers 500; here the body is read as a number.
- Case mapping (`lower`, `upper`) and `int()` cover ASCII only. Python also maps and reads non-ASCII letters and digits.
- The language-model message handlers of `bakery` and `outdoor_shop` are the parameter `run`. Their bodies (bakery.py:108-130, outdoor_shop.py:1104-1126) are foreign calls with nondeterministic output.
- The bakery's tool state is modelled in `BakeryAgent`. It is not carried through `App`, whose agent is a value with its two handlers.
- The outdoor shop's catalog, `ORDERS_DB` and `POLICIES` are parameters. Products keep only the fields search and suggestions read. Orders keep only id and status. Prices, ratings and every other float are out.
- `OutdoorShop.SearchProductsTool`, `OutdoorShop.LookupOrderTool`, `OutdoorShop.GetPolicyTool`: the full `payload` dump inside each tool's data event is left out. The event carries its other fields.
- For outdoor_shop, only the tool logic is modelled. The order and policy response fields other than those named in the model are out.
- `asyncio.sleep` in the slow agent only affects timing and is left out.
- The HTTP layer is out: FastAPI routing, response headers, the `authorize` endpoint (app.py:61-104), `/health`, and the application lifespan.
- `tunnel.py`, `cli.py`, `logging.py`, `starter.py` and the package re-export files are not part of this model.

A missing signature header is answered with 401, as app.py:109-110 does.

## Findings

| source | as written | input that shows it | evidently intended | confidence | as-written member | corrected member |
|---|---|---|---|---|---|---|
| src/layercode_create_app/server/app.py:161 | `_handle_message` returns `new_messages` (app.py:193-200) before the lazy response body has run the handler, so `append` always receives `[]` and the history never grows | any admitted `message` request to an agent whose handler returns messages, e.g. one returning `[ModelResponse("ok")]` on an empty history: the history stays `[]` | the messages the agent's handler returns are appended to the conversation's history, so the next turn sees them | not executed | App.ReplyLostThenRecorded | App.TwoTurnsRecorded |
