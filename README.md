# Wonderland editor MCP server — Dafny model

This project models the core of `wonderland-editor-mcp`, an MCP server that
lets an AI assistant inspect and change a Wonderland Engine editor project.
Requests arrive asynchronously. The editor's data may only change during the
editor's own update step. The server bridges the two with a **work queue**:
request handlers push closures, and the host pops one per tick and runs it.

Modelled:

- `WorkQueue` of `utils/work-queue.ts` (module `Queues`). `pop` removes the most recently pushed
  entry (LIFO), runs it, settles its promise, and returns whether entries remain.
- The older inline `WorkQueue` of `mcp-server.ts`. It has the same state, but its `pop` returns
  whether anything ran.
- Both queues are proved against one pure state machine (module `QueueSpec`). A push hands back a
  promise (a number). A ghost map records each promise as `Pending`, `Resolved` or `Rejected`. A
  ghost log records the closures run, in order. A closure's success or failure is an input to `pop`.
- The `mcp-server.ts` handlers (module `McpServer`):
  - ListResources projects every object to `object:///<id>` with its name.
  - ReadResource strips one leading `/` and then always fails with "not found".
  - CallTool validates `create_object` arguments, enqueues a closure and later replies from the
    promise's outcome. Unknown tools fail.
  - The `create_object` closure writes one entry into `data.objects`.
  - The server's state is a `Server` class: the module-level `queue` reference (null until `main`)
    and the objects map.
- The zod schemas of `schemas.ts` (module `Schemas`) are total predicates over raw JSON arguments.
  Each schema also has a parser into typed arguments and an encoder back to JSON. A parser succeeds
  exactly when its predicate holds, and decoding an encoded value gives it back.

Behaviour of the code worth knowing when reading the model:

- Objects are listed as `object:///<id>`; only `data.objects` is listed.
- ReadResource never finds anything: the lookup is a TODO and `note` is always null.
- The queue is LIFO (`Array.prototype.pop`).
- A closure that throws is reported as an "Invalid arguments" error.
- Calling `create_object` before `main` has set the queue also fails with "Invalid arguments": the
  `TypeError` from `queue!.push` is caught by the same `catch`.

## Model

| member | source | states |
|---|---|---|
| `QueueSpec.Empty` | utils/work-queue.ts:2-6 | a new queue has no entries, has run nothing, and is consistent |
| `QueueSpec.PushAppendsPending` | utils/work-queue.ts:7-11 | push never fails: it appends exactly one entry at the end, earlier entries and promise states are unchanged, and the returned promise is new and pending |
| `QueueSpec.PopEmptyIsNoOp` | utils/work-queue.ts:14 | pop on an empty queue leaves the state unchanged |
| `QueueSpec.PopSettlesLast` | utils/work-queue.ts:15-16 | pop on a non-empty queue removes exactly the last entry (the rest is the old prefix), runs its closure once, and turns its until-then pending promise to Resolved or Rejected by the closure's success; every other promise is unchanged and the invariant is kept |
| `QueueSpec.SettledIsFinal` | utils/work-queue.ts:13-19 | a settled promise keeps its state through any later push or pop, so each promise settles at most once |
| `QueueSpec.RunOrder` | utils/work-queue.ts:15 | the closures of a queue taken from the last entry back to the first, position by position |
| `QueueSpec.DrainRunsEachOnce` | utils/work-queue.ts:13-19 | n pops on a queue of n entries, with no push between them, leave it empty and run every closure exactly once, in reverse push order |
| `QueueSpec.DrainSettlesEachPromise` | utils/work-queue.ts:16 | in that drain, the k-th pop settles the promise of the k-th entry from the end, according to that closure's success |
| `QueueSpec.DrainKeepsOtherPromises` | utils/work-queue.ts:16 | the drain changes no promise other than those of the entries it pops |
| `QueueSpec.LaterPushRunsFirst` | utils/work-queue.ts:15 | LIFO: after two pushes, the next pop runs the later closure and leaves the earlier one queued with its promise pending |
| `Queues.WorkQueue.constructor` | utils/work-queue.ts:2-6 | `_queue` starts empty |
| `Queues.WorkQueue.Push` | utils/work-queue.ts:7-11 | the new state is the state machine's push: the entry is appended and its fresh promise is pending |
| `Queues.WorkQueue.Pop` | utils/work-queue.ts:13-19 | the new state is the state machine's pop; the result is true iff entries remain after the pop (false on an empty queue), not whether work ran |
| `McpServer.WorkQueue.constructor` | mcp-server.ts:28 | `_queue` starts empty |
| `McpServer.WorkQueue.Push` | mcp-server.ts:29-33 | the entry is appended and its fresh promise is pending |
| `McpServer.WorkQueue.Pop` | mcp-server.ts:35-46 | the new state is the state machine's pop (run the last closure, then `res()` or `rej(e)`); the result is true iff the queue was non-empty |
| `McpServer.ObjectUri` | mcp-server.ts:79 | the listing URI is the prefix `object:///` followed by the id, and the id can be read back from position 10 |
| `McpServer.ObjectUriInjective` | mcp-server.ts:79 | different ids give different URIs |
| `McpServer.ListResources` | mcp-server.ts:76-85 | one listing entry per enumerated id, in `Object.entries` order: the i-th entry has the i-th id's URI, that object's name, and the description `A text note: <name>` |
| `McpServer.ListResourcesCoversObjects` | mcp-server.ts:78-83 | every object is listed under `object:///<id>` with its own name, and every listed URI names an object in the map |
| `McpServer.ListResourcesUrisDistinct` | mcp-server.ts:78-83 | no object is listed twice: listed URIs are pairwise distinct |
| `McpServer.StripLeadingSlash` | mcp-server.ts:93 | removes one leading `/` when there is one, and otherwise returns the path unchanged |
| `McpServer.StripLeadingSlashRoundTrip` | mcp-server.ts:93 | stripping `"/" + id` gives back `id`, even when `id` itself starts with `/` |
| `McpServer.ReadResource` | mcp-server.ts:91-98 | every read fails with "Note <id> not found"; the id is the path without its leading `/` when it has one, and the whole path otherwise |
| `McpServer.ListedObjectsNotReadable` | mcp-server.ts:76-98 | the path of a listed object is `/` + id, and reading it fails, naming exactly that id |
| `McpServer.ParseCreateObject` | mcp-server.ts:111-118 | the arguments are accepted iff they are an object with a string `name` and a `position` of exactly 3 numbers (missing arguments fail; other keys are ignored); the parsed name and position are exactly the client's `name` and `position` |
| `McpServer.CreateObjectRoundTrip` | mcp-server.ts:111-118 | parsing encoded `create_object` arguments gives back the same name and position |
| `McpServer.CreateObjectPositionLength` | mcp-server.ts:113-116 | with a string name, the arguments are valid iff `position` is an array of exactly 3 numbers |
| `McpServer.CreateInto` | mcp-server.ts:162-165 | the closure's effect: `objects[id]` becomes `{name, translation: position}`, and every other key keeps its value |
| `McpServer.Route` | mcp-server.ts:153-185 | a tool other than `create_object` gives "Unknown tool"; `create_object` is accepted iff its arguments are valid, and otherwise gives "Invalid arguments" with nothing enqueued; an accepted call yields a closure that captures the parsed name and position under the fresh id |
| `McpServer.RouteAcceptsEncoded` | mcp-server.ts:155-166 | well-formed `create_object` arguments route to the closure for exactly those values |
| `McpServer.Reply` | mcp-server.ts:161-179 | the call has no answer while its promise is pending; it answers with the success text iff the promise is resolved, and with "Invalid arguments" once it is rejected |
| `McpServer.AcceptedCallAnswered` | mcp-server.ts:157-179 | an accepted call that is pushed and then popped is answered "Created object <id>: <name>" if its closure succeeded and "Invalid arguments" if it failed, and the queue returns to its earlier entries |
| `McpServer.Server.constructor` | mcp-server.ts:49 | `queue` starts as null |
| `McpServer.Server.Start` | mcp-server.ts:213-214 | `main` stores the host's queue; the objects are unchanged |
| `McpServer.Server.CallTool` | mcp-server.ts:153-185 | errors from routing leave the queue unchanged; a valid call with no queue fails with "Invalid arguments"; otherwise exactly the routed closure is pushed and its promise returned |
| `McpServer.Server.RunCreateObject` | mcp-server.ts:161-166 | the objects map becomes `CreateInto` of the old map |
| `McpServer.Server.HostTick` | mcp-server.ts:35-46 | the queue takes the state machine's pop; when a closure ran and succeeded, the objects map gets its object; otherwise the map is unchanged |
| `Schemas.ParseResourceType` | schemas.ts:3-19 | a resource type is accepted iff it is one of the 12 listed names, and it parses to the type with that name |
| `Schemas.ResourceTypeRoundTrip` | schemas.ts:3-16 | every resource type's name is listed and parses back to that type |
| `Schemas.ParseItems` | schemas.ts:94 | an array is accepted iff every element is; the result has one parsed element per input element |
| `Schemas.ParseEncodedArray` | schemas.ts:94 | decoding an encoded array gives back its elements, whenever decoding an encoded element gives back that element |
| `Schemas.ParseVec3` | schemas.ts:52-56 | accepted iff the value is an array of exactly 3 numbers; the accepted array is exactly the numbers returned |
| `Schemas.ParseVec4` | schemas.ts:58-62 | accepted iff the value is an array of exactly 4 numbers; the accepted array is exactly the numbers returned |
| `Schemas.Vec3RoundTrip` | schemas.ts:52-56 | an encoded 3-vector parses back to itself |
| `Schemas.Vec4RoundTrip` | schemas.ts:58-62 | an encoded 4-vector parses back to itself |
| `Schemas.ParseQuery` | schemas.ts:18-41 | a query is accepted iff it has a listed `resourceType`, and `ids` (an array of strings), `includeFilter` and `excludeFilter` (objects) are each absent or well-formed |
| `Schemas.QueryRoundTrip` | schemas.ts:18-41 | an encoded query parses back to itself, filters included |
| `Schemas.QueryFiltersOptional` | schemas.ts:20-40 | a query with only `resourceType` is valid iff the type is one of the listed names |
| `Schemas.ParseAddComponent` | schemas.ts:70-75 | accepted iff the value is an object with a string `type` and an object `properties` |
| `Schemas.ParseModifyComponent` | schemas.ts:80-84 | accepted iff the value is an object with a numeric `index` and an object `properties` |
| `Schemas.ParseNumberArray` | schemas.ts:88-92 | `removeComponents` is accepted iff it is an array of numbers; the accepted array is exactly the numbers returned |
| `Schemas.ParseModification` | schemas.ts:44-93 | an entry is accepted iff it is an object whose listed fields are each absent or well-formed (strings; vectors of 3, 4 and 3 numbers; component lists) |
| `Schemas.ParseModifyObjects` | schemas.ts:43-95 | `modify_objects` arguments are accepted iff `modifications` is present and is an array of valid entries |
| `Schemas.ModificationRoundTrip` | schemas.ts:44-93 | an encoded modification entry parses back to itself |
| `Schemas.ModifyObjectsRoundTrip` | schemas.ts:43-95 | encoded `modify_objects` arguments parse back to the same entries |
| `Schemas.EmptyModificationValid` | schemas.ts:44-93 | every field is optional: the empty entry is valid and parses to an entry with no fields |
| `Schemas.VectorFieldLengths` | schemas.ts:52-69 | `position` and `scaling` are valid only as exactly 3 numbers, and `rotation` only as exactly 4 |
| `Schemas.ParseSceneImport` | schemas.ts:99-111 | a scene import is accepted iff it is an object with a string `path` and an optional string `parentId` |
| `Schemas.ParseFileImport` | schemas.ts:116-123 | a file import is accepted iff it is an object with a string `path` |
| `Schemas.ParseImportScenes` | schemas.ts:97-113 | `import_scenes` arguments are accepted iff `imports` is an array of valid scene imports |
| `Schemas.ParseImportFiles` | schemas.ts:115-125 | `import_files` arguments are accepted iff `imports` is an array of valid file imports |
| `Schemas.ImportScenesRoundTrip` | schemas.ts:97-113 | encoded scene imports parse back to themselves |
| `Schemas.ImportFilesRoundTrip` | schemas.ts:115-125 | encoded file imports parse back to themselves |
| `Schemas.SceneImportsAreFileImports` | schemas.ts:97-125 | every valid `import_scenes` argument is a valid `import_files` argument; the converse fails, e.g. for a numeric `parentId` |

## Left out

- Transport and sessions: the Express app, the SSE transports, the session dictionary, `app.listen`, `shutdown` and the SDK's handler registration are I/O and library code. server.ts is not part of this model.
- ListTools and ListPrompts return fixed descriptors and have no logic. They are not modelled.
- Promise scheduling is not modelled as concurrency. A promise is a number with a ghost `Pending`/`Resolved`/`Rejected` state, and the success of a closure is a parameter of `pop`.
- `Queues.WorkQueue.Pop`: in utils/work-queue.ts, `func()` returns a promise and `res`/`rej` run in a later microtask. The model settles the promise at the pop itself. A closure that throws synchronously, instead of returning a rejected promise, makes the real `pop` throw and never settle its promise; the model does not cover that case.
- `McpServer.Server.HostTick`: what a failed `data.objects[id] = …` write leaves behind belongs to the editor API, which is not part of this model. The model assumes the map is unchanged.
- `randomUUID` is not modelled; the fresh id is a parameter of `CallTool`.
- `new URL(...)` parsing is not modelled. ReadResource starts from the URL's path string, and `ListedObjectsNotReadable` assumes the path of `object:///<id>` is `/<id>`. That holds only for ids without `?`, `#` or characters that need percent-encoding.
- `McpServer.ListResources`: the order of `Object.entries(data.objects)` comes from the editor API. It is a parameter (`keys`, each id once).
- `McpServer.Obj` keeps only `name` and `translation`. Other object attributes are not modelled.
- Logging is not modelled: the `console.error("Validation error:", …)` call at mcp-server.ts:177 has no counterpart.
- Zod's issue lists are not modelled. Parsers return `None` on rejection, and the text after "Invalid arguments:" is not modelled.
- Numbers are reals. JSON has no NaN, and only vector lengths matter here.
- The query filters (include and exclude), `modify_objects` and the two import tools have schemas only. No handler for them exists in the modelled files, so only their argument validation is modelled.
