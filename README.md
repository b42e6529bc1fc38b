# GTM orchestration agent, modelled in Dafny

The orchestration agent in `worker/orchestration-agent.ts` is a durable object that owns one
aggregate, the GTM system state (metrics, mission parameters, pending escalations, an audit
event list, agent logs, agent configurations and analytics points; `worker/types.ts`). It
answers HTTP requests. GET endpoints read parts of the state. `POST /escalations/<id>`
approves or denies a pending escalation. `POST /configs` replaces an agent configuration.
A background timer runs `simulate` every ten seconds: it raises the SPEND metric, appends an
event and a log entry for a random agent, and sometimes raises a new escalation. Every mutation
is written to durable storage. On activation the stored state is loaded, or the built-in seed
is stored.

The model has eight modules:

- `GtmTypes` (`types.dfy`): the records and enumerations of `worker/types.ts` as datatypes.
- `ArrayOps` (`array_ops.dfy`): the array operations the agent uses, on sequences.
  - `findIndex`, `splice(i, 1)`, and `push` followed by one `shift` over a cap.
  - `reverse`, plus the FIFO property of repeated capped pushes.
- `StringOps` (`string_ops.dfy`): `split` on one character, its inverse `join`, and `substr`.
- `NumberText` (`number_text.dfy`): how the SPEND amount is read and written.
  - `parseInt` with NaN, `String(n)`, en-US `toLocaleString` grouping, the `$` prefix and
    `replace(/[$,]/g, '')`.
  - The proof that formatting then parsing gives the amount back.
- `Seed` (`seed.dfy`): `initialMockState` as constants.
- `Routing` (`routing.dfy`): how `fetch` turns a method and a pathname into a query or command.
- `OrchestrationSpec` (`orchestration_spec.dfy`): each operation as a function of the old state
  and its inputs, with the lemmas that state what the source promises.
- `Orchestration` (`orchestration_agent.dfy`): the agent as a class.
  - A `state` field updated in place, the `interval` timer guard, and a `Storage` object
    holding the persisted copy.
  - Each method is proved equal to its `OrchestrationSpec` function, including what it leaves
    in storage.

The inputs the source takes from its environment are parameters:
- `Math.random()` draws are a `Draws` value, constrained to the ranges the source's scaling
  gives them.
- `Date.now()` readings and `new Date().toISOString()` readings are `Instant` values.
- The handle `setInterval` returns is an integer argument of `Fetch`.

A request is its method, its pathname, and the `action` or config its JSON body would give.

The TypeScript field `label` is called `caption` and the field `type` is called `logType`,
because both are Dafny keywords.

## Model

| member | source | states |
|---|---|---|
| GtmTypes.AgentNameTextInjective | worker/types.ts:26-32 | Two agents with the same text are the same agent, so an event's agent text identifies the agent (used by `TickAppendsEventAndLog`). |
| ArrayOps.FindIndex | worker/orchestration-agent.ts:103 | `findIndex`: the result is -1 exactly when no element satisfies the predicate. Otherwise it is the first index whose element does. |
| ArrayOps.RemoveAt | worker/orchestration-agent.ts:108 | `splice(i, 1)`: one element fewer, every element before `i` in place, every element after `i` moved down by one. |
| ArrayOps.PushCapped | worker/orchestration-agent.ts:158-165 | Push then one shift over the cap. The pushed element is last. Below the cap nothing is dropped; at or over it exactly the oldest is. The cap holds if it held before. |
| ArrayOps.PushAllKeepsNewest | worker/orchestration-agent.ts:157-166 | FIFO: after any number of capped pushes onto a list within the cap, the list is exactly the newest `cap` elements of all it was given, oldest first. |
| ArrayOps.PushAllFills | worker/orchestration-agent.ts:157-166 | Once at least `cap` elements have gone in, the list holds exactly `cap`. |
| ArrayOps.Reverse | worker/orchestration-agent.ts:83 | The copy reversed: same length, element `k` is element `n-1-k` of the original. |
| ArrayOps.ReverseReverse | worker/orchestration-agent.ts:83 | Reversing twice gives back the list. |
| StringOps.Split | worker/orchestration-agent.ts:75 | `split('/')` gives at least one piece, and no piece contains '/'. |
| StringOps.SplitThenJoin | worker/orchestration-agent.ts:75 | Joining the pieces with the separator gives back the pathname. |
| StringOps.JoinThenSplit | worker/orchestration-agent.ts:75-77 | Splitting a join of separator-free pieces gives back exactly those pieces, so segment `k` of "/a/b" is what it looks like. |
| StringOps.Substr | worker/orchestration-agent.ts:139-160 | `substr(start, length)`: up to `length` characters from `start`, fewer at the end of the string, none past it. |
| NumberText.Decimal | worker/orchestration-agent.ts:159 | `String(n)` of a timestamp: at least one digit, only digits, no leading zero. |
| NumberText.DecimalInjective | worker/orchestration-agent.ts:138-159 | Different clock readings have different decimal texts, which is what keeps the `EVT-`, `LOG-` and `ESC-` ids apart. |
| NumberText.ParseDecimal | worker/orchestration-agent.ts:128 | `parseInt` reads back the decimal text of any integer, with or without a minus sign. |
| NumberText.ParseInt | worker/orchestration-agent.ts:128 | `parseInt`: an optional sign, then the longest digit run. Text that starts with neither a digit nor a sign is NaN, text that starts with a digit is non-negative, and only a leading `-` gives a negative value. Its read-back of formatted amounts is `ParseDecimal` and `CurrencyRoundTrip`. |
| NumberText.StripCurrency | worker/orchestration-agent.ts:128 | `replace(/[$,]/g, '')`: no `$` or `,` remains, and text with neither is unchanged. |
| NumberText.Grouped | worker/orchestration-agent.ts:130 | en-US `toLocaleString()` of a non-negative integer: only digits and `,`, starting with a digit. The leading group has one to three digits, and a position holds `,` exactly when it lies a multiple of four after that group's end, so every `,` is followed by exactly three digits. `StripGrouped` proves that removing the commas leaves `String(n)`. |
| NumberText.ToLocaleString | worker/orchestration-agent.ts:130 | `toLocaleString()`: "NaN" exactly for NaN, and a leading `-` exactly for a negative number. |
| NumberText.FormatCurrency | worker/orchestration-agent.ts:130 | The template `$${newSpend.toLocaleString()}`: a `$` followed by the locale text. `CurrencyRoundTrip` proves it reads back. |
| NumberText.StripGrouped | worker/orchestration-agent.ts:128-130 | Removing the en-US thousands separators of `toLocaleString()` leaves the plain decimal digits. |
| NumberText.CurrencyRoundTrip | worker/orchestration-agent.ts:128-130 | For every amount, NaN included, parsing `$${x.toLocaleString()}` after stripping `$` and `,` gives the amount back. |
| Routing.ResourceOf | worker/orchestration-agent.ts:79-88 | An endpoint recognised by the GET switch is exactly that resource's name. |
| Routing.ResourceOfEndpointName | worker/orchestration-agent.ts:79-88 | Every resource is reached through its own name, which holds no '/'. |
| Routing.RouteOf | worker/orchestration-agent.ts:74-100 | The branches of `fetch`, tried in the source's order. Only GET reads, only POST resolves or updates, and a resolution always names a non-empty id without '/'. The lemmas below give each branch. |
| Routing.SplitPathOf | worker/orchestration-agent.ts:75 | A pathname made of separator-free segments splits into an empty first segment followed by those segments. |
| Routing.ReadRoute | worker/orchestration-agent.ts:74-88 | GET "/<name>" reads that resource, whatever segments follow. |
| Routing.ResolveRoute | worker/orchestration-agent.ts:90-93 | POST "/escalations/<id>" with a non-empty id resolves that id, whatever follows. |
| Routing.ResolveNeedsId | worker/orchestration-agent.ts:90-100 | A non-GET request to "/escalations" without an id segment falls through to Not Found. |
| Routing.ResolveNeedsNonEmptyId | worker/orchestration-agent.ts:90-100 | An empty id segment, in "/escalations/" or "/escalations//x", also falls through to Not Found. |
| Routing.UpdateRoute | worker/orchestration-agent.ts:95-97 | POST "/configs" is a config update, whatever follows. |
| Routing.UnknownRoute | worker/orchestration-agent.ts:78-100 | An endpoint no branch names is Not Found. So is any method other than GET and POST, on any path. |
| Routing.NonGetToReadOnly | worker/orchestration-agent.ts:89-100 | A request other than GET to a read-only endpoint, or to "/escalations" without an id, is Not Found. Only "/escalations/<id>" and "/configs" take commands. |
| OrchestrationSpec.EscalationIndex | worker/orchestration-agent.ts:103 | -1 exactly when no pending escalation has the id. Otherwise the first index that does. |
| OrchestrationSpec.ConfigIndex | worker/orchestration-agent.ts:115 | -1 exactly when no config has the id. Otherwise the first index that does. |
| OrchestrationSpec.MetricIndex | worker/orchestration-agent.ts:126 | The metric `find` locates: -1 exactly when no metric is labelled SPEND, otherwise the first that is. |
| OrchestrationSpec.NewEvent | worker/orchestration-agent.ts:158-164 | The event `addEvent` builds: the given agent, action and status. The id is "EVT-" followed by digits only, and the timestamp is characters 11 to 18 of the ISO text followed by "Z". |
| OrchestrationSpec.WithEvent | worker/orchestration-agent.ts:157-166 | `addEvent` on the list: the new event is last and the cap of 50 is kept. Its full behaviour is `AddEventKeepsCap` and `EventsKeepNewest`. |
| OrchestrationSpec.AddEventKeepsCap | worker/orchestration-agent.ts:157-166 | `addEvent` keeps at most 50 events when that held before. The new event is last and carries the given agent, action and status. Below 50 nothing is dropped; at 50 exactly the oldest is. |
| OrchestrationSpec.EventsKeepNewest | worker/orchestration-agent.ts:157-166 | FIFO over many `addEvent` calls: the event list is exactly the newest 50 of all events ever added, oldest first, and once 50 have gone in it holds exactly 50. |
| OrchestrationSpec.Resolved | worker/orchestration-agent.ts:102-113 | `handleEscalation`: it persists exactly when some pending escalation has the id. Otherwise it answers 404 "Escalation not found" and changes nothing. On success one escalation fewer is pending, and only the escalations and the events change. |
| OrchestrationSpec.ResolveUnknownId | worker/orchestration-agent.ts:103-106 | An id that is not pending gives the 404 "Escalation not found". State and storage are unchanged. |
| OrchestrationSpec.ResolveRemovesFirstMatch | worker/orchestration-agent.ts:107-112 | A pending id removes exactly the first matching escalation and keeps the others in order. It adds the event through `addEvent`, answers "Escalation <id> <action>d.", persists, and changes nothing else. |
| OrchestrationSpec.ResolveRecordsEvent | worker/orchestration-agent.ts:109-110 | The added event is last, has status OK and comes from ORCHESTRATOR. Its text is "Approved escalation <id>: <reason>" when the action is `approve` and "Denied escalation <id>: <reason>" for any other action. The event cap holds. |
| OrchestrationSpec.ResolveIsNotIdempotent | worker/orchestration-agent.ts:103-108 | With unique ids, the resolved id is gone, so resolving it again is a 404 that changes nothing. |
| OrchestrationSpec.RemovalKeepsUniqueIds | worker/orchestration-agent.ts:108 | Splicing one escalation out keeps ids unique. |
| OrchestrationSpec.ResolveKeepsUniqueIds | worker/orchestration-agent.ts:102-113 | A resolution keeps pending escalation ids unique. |
| OrchestrationSpec.ConfigUpdated | worker/orchestration-agent.ts:114-123 | `updateConfig`: it persists exactly when a config with that id exists. Otherwise it answers 404 "Config not found" and changes nothing. The number of configs stays, and only the configs and the events change. |
| OrchestrationSpec.UpdateUnknownConfig | worker/orchestration-agent.ts:115-118 | An unknown config id gives the 404 "Config not found" and changes nothing. |
| OrchestrationSpec.UpdateReplacesConfig | worker/orchestration-agent.ts:119-122 | The slot of that id becomes exactly the submitted config, and a lookup by the id finds it there. Other configs and the count stay. One INFO event "Updated config for <name>" from ORCHESTRATOR is added; the config is returned and the state persisted. |
| OrchestrationSpec.Dispatched | worker/orchestration-agent.ts:78-100 | `fetch` after the timer guard. Whatever is not persisted is unchanged, only a POST persists, and no request touches the metrics, the logs, the mission parameters or the analytics. |
| OrchestrationSpec.EventsNewestFirst | worker/orchestration-agent.ts:83 | GET "/events" returns the events reversed, newest first, and changes nothing. |
| OrchestrationSpec.ReadsChangeNothing | worker/orchestration-agent.ts:78-88 | Every GET branch returns its part of the state (events reversed). It changes neither state nor storage, so repeating it gives the same answer. |
| OrchestrationSpec.UnmatchedIsNotFound | worker/orchestration-agent.ts:100 | A request no branch takes gets the plain 404 "Not Found" and changes nothing. |
| OrchestrationSpec.DispatchKeepsInvariants | worker/orchestration-agent.ts:69-123 | No request breaks the caps (50 events, 50 logs, 3 escalations), changes the number of configs, or loses unique escalation ids. |
| OrchestrationSpec.BumpSpend | worker/orchestration-agent.ts:125-131 | Only the first SPEND metric's value changes. Length and order are kept, so the next tick finds the same metric. With no SPEND metric nothing changes. |
| OrchestrationSpec.SpendBump | worker/orchestration-agent.ts:126-131 | Read back through the same parse, SPEND rises by exactly the draw plus 100, so by 100 to 599. A NaN reading stays NaN. |
| OrchestrationSpec.NewLog | worker/orchestration-agent.ts:137-143 | The log a tick pushes: an OBSERVATION with the nominal text for the drawn agent. The id is "LOG-" followed by digits only, and the timestamp is characters 11 to 22 of the ISO text followed by "Z". |
| OrchestrationSpec.LogsKeepNewest | worker/orchestration-agent.ts:137-144 | FIFO over many ticks: the log list is exactly the newest 50 of all logs ever pushed, oldest first, and once 50 have gone in it holds exactly 50. |
| OrchestrationSpec.SpendEscalation | worker/orchestration-agent.ts:147-153 | The escalation a tick may raise: from FINOPS AGENT for UNUSUAL SPEND DETECTED. The id is "ESC-" followed by digits only. |
| OrchestrationSpec.ClockIdsDistinct | worker/orchestration-agent.ts:138-159 | Readings at different milliseconds give different escalation, event and log ids, and no synthesized escalation takes the seed's id "ESC-001". This discharges the freshness premise of `TickKeepsUniqueIds` for distinct clock readings. |
| OrchestrationSpec.MaybeEscalate | worker/orchestration-agent.ts:146-154 | At most one escalation is added, after the others, exactly when the draw says so and fewer than 3 are pending. A list of at most 3 stays at most 3. |
| OrchestrationSpec.Ticked | worker/orchestration-agent.ts:124-156 | One `simulate()` tick. Mission parameters, configs and analytics stay, and the number of metrics stays. Without configs, only the metrics change, since the source throws at line 133. The tick lemmas below carry the rest. |
| OrchestrationSpec.TickAppendsEventAndLog | worker/orchestration-agent.ts:132-145 | A tick appends one INFO event carrying the activity message the draw selects, and one OBSERVATION log with the nominal text. Both are for the drawn config's agent: the event's agent text names exactly the log's agent. Each list keeps its cap of 50, dropping only its oldest entry. Parameters, configs and analytics stay. |
| OrchestrationSpec.TickEscalationCap | worker/orchestration-agent.ts:146-154 | The tick adds at most one escalation, after the pending ones, exactly when the draw says so, fewer than 3 are pending and the tick completes. |
| OrchestrationSpec.TickWithoutConfigs | worker/orchestration-agent.ts:126-133 | With no configs the tick stops after the SPEND bump (the source throws there). |
| OrchestrationSpec.TickKeepsCaps | worker/orchestration-agent.ts:124-156 | A tick keeps all three caps and the configs. |
| OrchestrationSpec.MaybeEscalateKeepsUniqueIds | worker/orchestration-agent.ts:146-154 | Adding the synthesized escalation keeps ids unique when its `ESC-<time>` id is fresh. |
| OrchestrationSpec.TickKeepsUniqueIds | worker/orchestration-agent.ts:124-156 | A tick keeps escalation ids unique when its new id is fresh. |
| OrchestrationSpec.SeedWithinCaps | worker/orchestration-agent.ts:13-53 | The seed meets the caps, has unique escalation ids, and has five configs for a tick to pick from. |
| OrchestrationSpec.SeedSpendText | worker/orchestration-agent.ts:16 | The seed's SPEND text "$76,591" is what a tick writes for 76591. |
| OrchestrationSpec.SeedCacText | worker/orchestration-agent.ts:18 | The seed's CURRENT CAC text "$12,831" is the formatted 12831. |
| OrchestrationSpec.SeedAmounts | worker/orchestration-agent.ts:4-18 | In the seed, the SPEND metric is found at index 1 and reads 76591. CURRENT CAC reads as the cac of the last analytics point. |
| Orchestration.Storage.Get | worker/orchestration-agent.ts:61 | `storage.get('state')` returns what is stored. |
| Orchestration.Storage.Put | worker/orchestration-agent.ts:65-155 | `storage.put('state', s)`: afterwards storage holds exactly `s`. It is used at lines 65, 111, 121 and 155. |
| Orchestration.OrchestrationAgent.constructor | worker/orchestration-agent.ts:57-68 | Activation: with a stored state, memory is that state and storage is untouched. Otherwise memory is the seed and the seed is stored. Either way memory and storage agree, and no timer runs. |
| Orchestration.OrchestrationAgent.AddEvent | worker/orchestration-agent.ts:157-166 | The events field becomes the capped push of the new event; nothing else changes. |
| Orchestration.OrchestrationAgent.HandleEscalation | worker/orchestration-agent.ts:102-113 | In place, the state, the response and storage become exactly those of `Resolved`. Storage is rewritten only on success; the timer is untouched. |
| Orchestration.OrchestrationAgent.UpdateConfig | worker/orchestration-agent.ts:114-123 | In place, the state, the response and storage become exactly those of `ConfigUpdated`. |
| Orchestration.OrchestrationAgent.Fetch | worker/orchestration-agent.ts:69-100 | If no timer runs, it stores the new handle and counts one more timer start; otherwise the timer is untouched. Then state, response and storage are those of `Dispatched`. |
| Orchestration.OrchestrationAgent.UpdateSpend | worker/orchestration-agent.ts:125-131 | Step 1 of a tick in place: the metrics become `BumpSpend` of the old metrics. |
| Orchestration.OrchestrationAgent.AddLog | worker/orchestration-agent.ts:136-144 | Step 3 of a tick in place: the logs become the capped push of the new OBSERVATION entry. |
| Orchestration.OrchestrationAgent.AddSpendEscalation | worker/orchestration-agent.ts:145-154 | Step 4 of a tick in place: the escalations become `MaybeEscalate` of the old ones. |
| Orchestration.OrchestrationAgent.Simulate | worker/orchestration-agent.ts:124-156 | One tick in place: the state becomes `Ticked` of the old state. It reports completion exactly when there is a config. Storage is rewritten only when the tick completes. |
| Orchestration.Restart | worker/orchestration-agent.ts:57-68 | A new activation over the same storage, after an operation that persisted, loads exactly the state in memory. |
| Orchestration.TwoRequests | worker/orchestration-agent.ts:70-73 | The timer starts at most once per instance. After a first request with a non-zero handle a timer runs, and a second request starts no other. |

## Left out

- The durable object runtime is not modelled.
  - `blockConcurrencyWhile` and the asynchronous `ctx.storage` are left out; storage is a `Storage` object whose `Put` takes effect at once.
  - Storage writes never fail in the model. In the source, the awaited `put` in `handleEscalation` and `updateConfig` (worker/orchestration-agent.ts:111, 121) can reject after the splice or assignment and `addEvent` have already changed memory. The request then throws and storage is left stale. The model does not represent a failed write that leaves the mutated state in memory. So the "storage rewritten on success" clauses of `HandleEscalation`, `UpdateConfig` and `Simulate`, and the round trip of `Restart`, hold only for writes that succeed.
  - The `setInterval` scheduling and its 10000 ms period are left out. A tick is a direct `Simulate` call, and the handle returned is a parameter.
- Concurrency and interleaving of requests with ticks are left out. The model is sequential.
- In `simulate`, the `storage.put` is not awaited (fire-and-forget). The model treats it as complete when `Simulate` returns.
- The randomness and the clock are parameters with their stated ranges: the `Math.random()` draws, the `Date.now()` ids and the ISO timestamps.
  - The 10% escalation chance is a boolean draw.
- Request parsing is abstracted.
  - `new URL(...)` normalisation of the request URL (percent-encoding, dot segments) is not modelled. The pathname is taken as given, and the id is the raw segment, compared as it stands, since the source decodes nothing.
  - `request.json()` with its parse failures and missing fields is left out. A request carries its action and its config directly.
- The config body is assumed well-typed. `request.json<AgentConfig>()` (worker/orchestration-agent.ts:96) is an unchecked cast. The source therefore accepts and stores a config whose `name` is none of the six agents, and that name then reaches the "Updated config for …" event and later tick events and logs. In the model, `AgentConfig.name` is an `AgentName`, so such a config cannot be expressed.
- Response construction is abstracted. `Response` objects, the `{ success: true, data }` JSON envelope (worker/orchestration-agent.ts:167-171), headers and status codes are reduced to `Json(payload)` or `NotFound(text)`.
- Only the integral part of JavaScript numbers is modelled.
  - Floating-point values, precision loss beyond 2^53 and `Infinity` are left out.
  - `parseInt` is modelled without leading white space and without the `0x` prefix; the SPEND text never contains either.
  - `toLocaleString` is modelled for the en-US locale only.
- Aliasing of the module-level seed object (worker/orchestration-agent.ts:59) is left out. The source mutates that shared object in place; the model starts every activation from the literal seed.
- `LogLevel` (worker/types.ts:33) is not used by the agent and is not modelled.
- The stub lookup and HTTP forwarding in worker/userRoutes.ts and worker/core-utils.ts, the application controller in worker/app-controller.ts, and the UI are not part of this model.
- `apiQuotaPerDay` is kept as an integer.
- Orchestration.OrchestrationAgent.Fetch: the timer guard uses JavaScript truthiness, so a handle of 0 would count as "no timer". Orchestration.TwoRequests therefore requires a non-zero first handle rather than claiming that the timer starts once for every handle.
- Orchestration.OrchestrationAgent.Simulate: when there are no configs, the source throws a TypeError after the SPEND bump. The model stops there and returns `false`. The in-memory SPEND change is kept and nothing is persisted, as in the source; the exception itself is not modelled.
