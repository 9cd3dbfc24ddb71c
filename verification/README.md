# Event Grid mock: resource store and request handlers, in Dafny

This project models the core of an in-memory test double for a cloud
event-routing service (Azure Event Grid domains). The double keeps a four-level
hierarchy: subscription, then resource group, then domain, then topic. Each topic
holds a list of event subscriptions and an action log. Over HTTP, the double lets
tests provision that hierarchy, create and read event subscriptions as the real
service would, and read back the log of the mutations they caused.

Everything is a pure function. A handler takes the store and its route
parameters. Handlers that may change the store return `Handled(store',
response)`. The three read handlers return only a response, which
`Server.Handle` pairs with the unchanged store. A response is `Ok(json)`
(HTTP 200) or `NotFound(message)` (HTTP 404). The store is nested
immutable maps, and request bodies are an abstract JSON datatype.

- `json.dfy` (module `Json`): the JSON values, plus the two JavaScript operations
  the handlers use on them. Optional property access is `Member`. Object spread
  and object literals are `Spread` and `Layer`. Spread is modelled for every
  kind of value: an object gives its fields, and an array or a string gives its
  indices as decimal keys. Nothing else gives any keys.
- `store.dfy` (module `Store`): the store, the addresses of its nodes (`Path`),
  and the parent-first resolution chain (`Resolve`). Also the canonical path
  strings carried by the 404 messages and by the action log, and the JSON form
  of topics and actions.
- `provisioning.dfy` (module `Provisioning`): the `/manage-api` routes. These are
  clear, the four creates, the raw append of an event subscription, and the
  action-log read.
- `dataplane.dfy` (module `DataPlane`): the data-plane create, which builds the
  entry by merging objects, and the two GET variants. Both GETs use a
  first-match lookup by name.
- `server.dfy` (module `Server`): the routing table as one `Handle` function and
  `Run` over a sequence of requests. Its lemmas are about runs: append-only
  growth, the action log since a topic was created, a reset, and duplicate
  names.

Behaviour kept exactly as the code has it:
- When a name does not resolve, the 404 ends in `/eventSubscriptions/{subscriptionId}`.
  That segment is the subscription id, not the event-subscription name.
- On the single-slash GET route, a name that matches returns the whole topic,
  not the matching entry.
- `destination` is `{ endpointType, ...endpointType.properties }`. With the
  usual string `endpointType` this is just `{ endpointType }`.
- The action `id` is the slash-separated scope path
  `/subscriptions/{s}/resourceGroups/{r}/providers/Microsoft.EventGrid/domains/{d}/topics/{t}`
  (src/index.ts:133, 167).

## Model

| member | source | states |
|---|---|---|
| Json.LayerLastWins | src/index.ts:156-163 | In an object literal built from spreads, a key is present iff some layer has it, and its value comes from the last layer that has it |
| Json.IndexFieldsAreIndices | src/index.ts:158 | Spreading an array or string contributes exactly its index keys "0".."n-1", n of them |
| Json.IndexFieldsValue | src/index.ts:158 | In a spread array or string, the key of index i maps to the i-th item |
| Json.NatToStringInjective | src/index.ts:158 | Distinct indices spell distinct keys, so spread items never collide |
| Store.Resolve | src/index.ts:86-105 | Resolution checks the subscription, then the resource group, the domain and the topic. It succeeds iff the topic exists, and otherwise returns the shallowest missing ancestor |
| Store.FirstMissingUnique | src/index.ts:86-105 | Exactly one level can be reported as the first missing one |
| Store.RenderAncestorIsPrefix | src/index.ts:47-62 | Each level's 404 path is a proper prefix of the paths of the levels below it |
| Store.ScopeSpelling | src/index.ts:133 | The topic scope is `/subscriptions/{s}/resourceGroups/{r}/providers/Microsoft.EventGrid/domains/{d}/topics/{t}` |
| Store.WithTopic | src/index.ts:164-165 | Updating a topic changes that topic only: every other topic and every node's existence stay the same |
| Store.ActionsRoundTrip | src/index.ts:346 | The JSON form of an action log loses nothing: decoding it gives back every action, in order |
| Store.TopicRoundTrip | src/index.ts:120-122 | The JSON form of a topic decodes back to the same entries and action log |
| Store.ActionsDecodeOnlyEncoding | src/index.ts:346 | The converse of the round trip: a JSON array that decodes to an action log is exactly that log's JSON form, with no key added to any action and no item added, dropped or reordered |
| Store.TopicDecodesOnlyEncoding | src/index.ts:120-122 | A JSON value that decodes to a topic is exactly the topic object the route sends: keys `eventSubscriptions` and `actions` and nothing else |
| Provisioning.Clear | src/index.ts:182-190 | After clear no node of any level exists, and the response is Ok `{}` |
| Provisioning.ClearIdempotent | src/index.ts:182-190 | Clearing a cleared store changes nothing and gives the same response |
| Provisioning.CreateSubscription | src/index.ts:192-199 | Always Ok `{}`. The subscription then exists and is empty, and everything outside it is untouched |
| Provisioning.CreateResourceGroup | src/index.ts:201-215 | 404 iff the subscription is missing, with `[manage] could not find /subscriptions/{s}` and the store unchanged. Otherwise the group is reset to empty and nothing outside it changes |
| Provisioning.CreateDomain | src/index.ts:217-240 | 404 iff the subscription or the group is missing; it names the first one missing, with the `[manage]` marker, and the store is unchanged. Otherwise the domain is reset to empty and nothing outside it changes |
| Provisioning.CreateTopic | src/index.ts:242-275 | 404 iff an ancestor is missing; it names the first one, and the store is unchanged. Otherwise the topic becomes empty lists, discarding old contents, and no other topic changes |
| Provisioning.AppendEventSubscription | src/index.ts:277-311 | After full resolution, appends the body verbatim to the entries and leaves the action log, all other topics and all existence as they were. 404s name the first missing level with the `[manage]` marker |
| Provisioning.GetActions | src/index.ts:313-349 | Ok iff the topic exists. The body decodes to exactly the topic's action log in append order, so by `ActionsDecodeOnlyEncoding` it is exactly the log's JSON array; otherwise a `[manage]` 404 for the first missing level |
| DataPlane.FindByName | src/index.ts:66-68 | Returns the index of the first entry whose `name` strictly equals the requested name, or none when no entry has it |
| DataPlane.FindAfterAppend | src/index.ts:66-68 | Appending an entry never changes an existing first match; it can only supply a match where there was none |
| DataPlane.DestinationMerge | src/index.ts:159-162 | The destination's keys are `endpointType` plus the spread keys of `endpointType.properties`, and those keys win, a nested `endpointType` included. A non-object `endpointType` gives exactly `{endpointType}` |
| DataPlane.NewEntryMerge | src/index.ts:156-163 | The entry's keys are `name`, `destination` and the keys of `properties`. Property keys override the path name, and the computed destination overrides `properties.destination` |
| DataPlane.PutEventSubscription | src/index.ts:129-174 | 404 iff any level is missing: it names the first missing one, unprefixed, and the store is unchanged. Otherwise it appends exactly one entry and one `put` action `{scope, raw body}` to that topic, answers the entry, and changes nothing else |
| DataPlane.GetEventSubscription | src/index.ts:41-80 | Ok iff the topic exists and has an entry with that name. The body is the first such entry. A missing name gives a 404 ending in `/eventSubscriptions/{subscriptionId}`, and missing levels give the first-missing 404 |
| DataPlane.GetTopic | src/index.ts:82-126 | Ok iff the topic exists and either no (or an empty) name is given or some entry has the name. The body decodes to the whole topic, so by `TopicDecodesOnlyEncoding` it is exactly the topic object. A name with no entry gives a 404 ending in `/eventSubscriptions/{subscriptionId}` |
| Server.Handle | src/index.ts:41-383 | Dispatches every route. No 404 from any route changes the store |
| Server.ReadsLeaveStore | src/index.ts:41-383 | The read routes and the catch-all never change the store, and the catch-all answers `{}` |
| Server.OthersLeaveTopic | src/index.ts:192-311 | A request that neither resets a topic nor is aimed at it leaves that topic's contents as they were |
| Server.StepOnTopic | src/index.ts:164-165 | One non-resetting request appends to a topic exactly the entries and actions that request contributes |
| Server.TopicTrace | src/index.ts:164-165 | Over any run with no reset of the topic, its entries and action log grow only by appending, by exactly what each request adds, in request order |
| Server.ActionsAddedArePuts | src/index.ts:165-169 | Every recorded action is a `put` on the topic's own scope, one per data-plane create aimed at that topic |
| Server.TopicSinceCreate | src/index.ts:266-269 | After a topic is (re)created, and while nothing resets it, the topic holds exactly the entries and actions the later requests aimed at it added, in request order. Nothing from before the create survives |
| Server.ActionLogSinceCreate | src/index.ts:313-349 | After a topic is (re)created, and while nothing resets it, the action log read back decodes to exactly the actions the later data-plane creates on it recorded, in order. By `ActionsAddedArePuts` these are one `put` per create, and by `ActionsDecodeOnlyEncoding` the body is exactly their JSON array |
| Server.ClearedReadsNotFound | src/index.ts:182-190 | After clear, every topic-level read reports the subscription as missing: both data-plane GETs (the single-slash one with or without a name) with the plain message, and the action log with the `[manage]` message |
| Server.DuplicateNameFirstWins | src/index.ts:156-171 | Two creates with the same name both succeed and both entries are kept, but lookup by that name returns the first. The first create's `properties` may omit `name` or repeat the same name |
| Server.CreateThenRead | src/index.ts:156-171 | After a create that does not rename the entry, both GET routes find it. The entry carries the name, and for a string `endpointType` its destination is `{endpointType}` |

## Left out

- Express set-up, body parsing and route-pattern matching, including which
  data-plane routes begin with a literal `//` (src/index.ts:1-6): handlers take
  their route parameters as strings and the parsed body as a JSON value.
- Port and silence configuration from the environment (src/index.ts:8-10), and
  all console output: diagnostics only.
- The HTTP and HTTPS listeners with TLS key and certificate loading
  (src/index.ts:385-391), the certificate download route (src/index.ts:176-180)
  and `/health` (src/index.ts:35-39): I/O with no logic.
- `printUnknownRequest` (src/index.ts:351-365): logging only. The catch-all
  routes are the `Unmatched` request, answered `{}`.
- JSON serialisation of responses: a response body is the stored JSON value. A
  key holding `undefined` (an absent `endpointType`) is kept in the model,
  though `res.send` would drop it.
- Numbers are integers; floating point is not modelled.
- Object-key order is not modelled: objects are maps.
- Prototype members are not modelled. A property read sees only own fields, so
  an id such as `constructor` is treated as an ordinary missing key.
- Strings are sequences of Unicode scalar values, not UTF-16 code units. This
  affects only how a string is split by spread.
- No operation records a `delete` action. The kind exists in the action type
  and in the model's datatype, and nothing more.
- Optional property access (`Member`): an array's or string's own index keys and `length` read as
  `undefined`. The handlers only read `name`, `properties`, `destination` and
  `endpointType`, and none of those is such a key.
