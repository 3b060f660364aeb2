/** The request handlers of mcp-server.ts, its inline copy of `WorkQueue`, and
    the server state they share: the module-level `queue` reference and the
    editor's `data.objects` collection. */
module McpServer {
  import opened Values
  import opened QueueSpec
  import opened Schemas

  // ---------------------------------------------------------------------
  // Inline WorkQueue

  /** The older `WorkQueue` defined in mcp-server.ts.  Same state and same
      `push` as utils/work-queue.ts, but its closures run synchronously inside
      `pop`, and `pop` reports whether something RAN. */
  class WorkQueue<W> {
    /** `_queue`: each entry's closure and the promise its `res`/`rej` settle. */
    var queue: seq<Entry<W>>
    /** How many promises `push` has handed out; the next one gets this number. */
    var issued: nat
    /** Settlement state of every promise handed out. */
    ghost var outcome: map<nat, Outcome>
    /** The closures run so far, in run order. */
    ghost var executed: seq<W>

    ghost function State(): QueueState<W>
      reads this
    {
      QueueState(queue, outcome, issued, executed)
    }

    ghost predicate Valid()
      reads this
    {
      Inv(State())
    }

    constructor ()
      ensures Valid() && State() == Empty()
    {
      queue, issued := [], 0;
      outcome, executed := map[], [];
    }

    /** `push(func)`: enqueue and hand back a pending promise; never fails. */
    method Push(func: W) returns (p: nat)
      requires Valid()
      modifies this
      ensures Valid()
      ensures (State(), p) == QueueSpec.Push(old(State()), func)
      ensures queue == old(queue) + [Entry(func, p)]
      ensures p !in old(outcome) && p in outcome && outcome[p] == Pending
      ensures executed == old(executed)
    {
      PushAppendsPending(State(), func);
      p := issued;
      queue := queue + [Entry(func, p)];
      outcome := outcome[p := Pending];
      issued := issued + 1;
    }

    /** `pop()`: run the most recently pushed closure (`func()` succeeded or
        threw, as `succeeded` says), then `res()` or `rej(e)`; answer whether
        anything ran. */
    method Pop(succeeded: bool) returns (ran: bool)
      requires Valid()
      modifies this
      ensures Valid()
      ensures State() == QueueSpec.Pop(old(State()), succeeded)
      ensures old(queue) == [] ==> queue == [] && executed == old(executed)
      ensures old(queue) != [] ==> queue == old(queue)[..|old(queue)| - 1]
      ensures ran <==> old(queue) != []
    {
      if |queue| == 0 {
        return false;
      }
      PopSettlesLast(State(), succeeded);
      var e := queue[|queue| - 1];
      queue := queue[..|queue| - 1];
      outcome := outcome[e.promise := Settle(succeeded)];
      executed := executed + [e.func];
      ran := true;
    }
  }

  // ---------------------------------------------------------------------
  // Objects and the resource listing

  /** An entry of `data.objects` as this server sees it: its name, and the
      translation `create_object` sets. */
  datatype Obj = Obj(name: string, translation: seq<real>)

  /** One element of the ListResources answer. */
  datatype ResourceEntry = ResourceEntry(uri: string, mimeType: string, name: string, description: string)

  /** What every listed URI starts with: the `object:` scheme, an empty
      authority, and the `/` that begins the path. */
  const ObjectUriPrefix: string := "object:///"

  /** The URI an object is listed under: `object:///<id>`. */
  function ObjectUri(id: string): (uri: string)
    ensures |uri| == |id| + 10
    ensures uri[..10] == ObjectUriPrefix
    ensures uri[10..] == id
  {
    ObjectUriPrefix + id
  }

  /** Different objects are listed under different URIs. */
  lemma ObjectUriInjective(a: string, b: string)
    ensures ObjectUri(a) == ObjectUri(b) ==> a == b
  {
  }

  /** `keys` is the order in which `Object.entries(data.objects)` visits the
      objects: every id once. */
  ghost predicate IsEnumeration(objects: map<string, Obj>, keys: seq<string>)
  {
    && (forall i, j :: 0 <= i < j < |keys| ==> keys[i] != keys[j])
    && (forall k :: k in objects <==> k in keys)
  }

  /** ListResources: one entry per object, in enumeration order. */
  function ListResources(objects: map<string, Obj>, keys: seq<string>): (r: seq<ResourceEntry>)
    requires IsEnumeration(objects, keys)
    ensures |r| == |keys|
    ensures forall i :: 0 <= i < |keys| ==>
      && keys[i] in objects
      && r[i].uri == ObjectUri(keys[i])
      && r[i].name == objects[keys[i]].name
      && r[i].description == "A text note: " + r[i].name
  {
    seq(|keys|, i requires 0 <= i < |keys| && keys[i] in objects =>
      var o := objects[keys[i]];
      ResourceEntry(ObjectUri(keys[i]), "text/plain", o.name, "A text note: " + o.name))
  }

  /** Every object is listed, under its own URI and with its own name, and
      every listed URI belongs to an object. */
  lemma ListResourcesCoversObjects(objects: map<string, Obj>, keys: seq<string>, id: string)
    requires IsEnumeration(objects, keys)
    ensures id in objects ==>
      exists i :: 0 <= i < |keys| && ListResources(objects, keys)[i].uri == ObjectUri(id)
                  && ListResources(objects, keys)[i].name == objects[id].name
    ensures (exists i :: 0 <= i < |keys| && ListResources(objects, keys)[i].uri == ObjectUri(id)) ==> id in objects
  {
    var r := ListResources(objects, keys);
    if id in objects {
      var i :| 0 <= i < |keys| && keys[i] == id;
      assert r[i].uri == ObjectUri(id);
    }
    if exists i :: 0 <= i < |keys| && r[i].uri == ObjectUri(id) {
      var i :| 0 <= i < |keys| && r[i].uri == ObjectUri(id);
      ObjectUriInjective(keys[i], id);
    }
  }

  /** No object is listed twice: the listed URIs are pairwise distinct. */
  lemma ListResourcesUrisDistinct(objects: map<string, Obj>, keys: seq<string>)
    requires IsEnumeration(objects, keys)
    ensures forall i, j :: 0 <= i < j < |keys| ==>
      ListResources(objects, keys)[i].uri != ListResources(objects, keys)[j].uri
  {
    var r := ListResources(objects, keys);
    forall i, j | 0 <= i < j < |keys| ensures r[i].uri != r[j].uri {
      ObjectUriInjective(keys[i], keys[j]);
    }
  }

  // ---------------------------------------------------------------------
  // ReadResource

  datatype Cause = SchemaRejected | NoQueue | ClosureRejected

  /** The errors the handlers throw. */
  datatype ServerError =
    | NoteNotFound(id: string)       // `Note ${id} not found`
    | UnknownTool                    // `Unknown tool`
    | InvalidArguments(cause: Cause) // `Invalid arguments: ...`

  /** What a successful ReadResource would return (never reached). */
  datatype ReadContents = ReadContents(uri: string, mimeType: string, text: string)

  /** `pathname.replace(/^\//, "")`: drop one leading slash, if there is one. */
  function StripLeadingSlash(path: string): (id: string)
    ensures path == id || path == "/" + id
    ensures |path| > 0 && path[0] == '/' ==> path == "/" + id
    ensures (|path| == 0 || path[0] != '/') ==> id == path
  {
    if |path| > 0 && path[0] == '/' then path[1..] else path
  }

  /** Exactly one slash is removed: the path of `object:///<id>` gives back
      `<id>`, even when `<id>` itself starts with a slash. */
  lemma StripLeadingSlashRoundTrip(id: string)
    ensures StripLeadingSlash("/" + id) == id
  {
  }

  /** ReadResource on the URL path `path`: the lookup is not implemented, so
      every read fails with "Note <id> not found". */
  function ReadResource(path: string): (r: Result<ReadContents, ServerError>)
    ensures r.Err?
    ensures r.error.NoteNotFound?
    ensures |path| > 0 && path[0] == '/' ==> path == "/" + r.error.id
    ensures (|path| == 0 || path[0] != '/') ==> r.error.id == path
  {
    Err(NoteNotFound(StripLeadingSlash(path)))
  }

  /** Even an object that ListResources lists cannot be read: its path is
      `/<id>` and the read fails naming exactly that id. */
  lemma ListedObjectsNotReadable(objects: map<string, Obj>, keys: seq<string>, i: nat)
    requires IsEnumeration(objects, keys) && i < |keys|
    ensures var uri := ListResources(objects, keys)[i].uri;
      uri == ObjectUriPrefix + keys[i] &&
      ReadResource("/" + keys[i]) == Err(NoteNotFound(keys[i]))
  {
    StripLeadingSlashRoundTrip(keys[i]);
  }

  // ---------------------------------------------------------------------
  // create_object

  /** `createObjectSchema`'s parsed value. */
  datatype CreateArgs = CreateArgs(name: string, position: Vec3)

  /** `createObjectSchema.parse(arguments)` accepts: an object with a string
      `name` and a `position` of exactly three numbers (absent arguments fail). */
  predicate ValidCreateObject(args: Option<Json>)
  {
    && args.Some?
    && args.value.JObj?
    && Required(args.value.fields, "name", IsString)
    && Required(args.value.fields, "position", IsVec3)
  }

  function ParseCreateObject(args: Option<Json>): (r: Option<CreateArgs>)
    ensures r.Some? <==> ValidCreateObject(args)
    ensures r.Some? ==> args.value.fields["name"] == JStr(r.value.name)
    ensures r.Some? ==> args.value.fields["position"] == EncodeVector(r.value.position)
  {
    if args.None? || !args.value.JObj? then None
    else
      var name := ParseRequired(args.value.fields, "name", ParseString);
      var position := ParseRequired(args.value.fields, "position", ParseVec3);
      if name.Some? && position.Some? then Some(CreateArgs(name.value, position.value)) else None
  }

  function EncodeCreateObject(a: CreateArgs): Json
  {
    JObj(map["name" := JStr(a.name), "position" := EncodeVector(a.position)])
  }

  lemma CreateObjectRoundTrip(a: CreateArgs)
    ensures ParseCreateObject(Some(EncodeCreateObject(a))) == Some(a)
  {
    Vec3RoundTrip(a.position);
  }

  /** A `position` is accepted only with exactly three numbers. */
  lemma CreateObjectPositionLength(name: string, position: Json)
    ensures ValidCreateObject(Some(JObj(map["name" := JStr(name), "position" := position])))
            <==> IsNumberVector(position, 3)
  {
  }

  /** The closure `create_object` enqueues, with the values it captured. */
  datatype CreateObject = CreateObject(id: string, name: string, position: Vec3)

  /** The objects map after the closure ran: `data.objects[id] = {name, translation}`. */
  function CreateInto(objects: map<string, Obj>, c: CreateObject): (r: map<string, Obj>)
    ensures r.Keys == objects.Keys + {c.id}
    ensures r[c.id] == Obj(c.name, c.position)
    ensures forall k :: k in objects && k != c.id ==> r[k] == objects[k]
  {
    objects[c.id := Obj(c.name, c.position)]
  }

  /** CallTool up to the enqueue: unknown tools are refused, invalid
      arguments are refused without enqueuing anything, and valid ones give
      the closure to enqueue under the fresh id. */
  function Route(tool: string, args: Option<Json>, freshId: string): (r: Result<CreateObject, ServerError>)
    ensures tool != "create_object" ==> r == Err(UnknownTool)
    ensures tool == "create_object" ==> (r.Ok? <==> ValidCreateObject(args))
    ensures tool == "create_object" && r.Err? ==> r.error == InvalidArguments(SchemaRejected)
    ensures r.Ok? ==>
      r.value.id == freshId && ParseCreateObject(args) == Some(CreateArgs(r.value.name, r.value.position))
  {
    if tool != "create_object" then Err(UnknownTool)
    else match ParseCreateObject(args)
      case None => Err(InvalidArguments(SchemaRejected))
      case Some(a) => Ok(CreateObject(freshId, a.name, a.position))
  }

  /** Well-formed `create_object` arguments are accepted as they are. */
  lemma RouteAcceptsEncoded(a: CreateArgs, freshId: string)
    ensures Route("create_object", Some(EncodeCreateObject(a)), freshId) == Ok(CreateObject(freshId, a.name, a.position))
  {
    CreateObjectRoundTrip(a);
  }

  /** The answer to a `create_object` call once its promise is settled:
      nothing while pending, the success text once resolved, and an
      "Invalid arguments" error once rejected. */
  function Reply(c: CreateObject, o: Outcome): (r: Option<Result<string, ServerError>>)
    ensures r.None? <==> o == Pending
    ensures r.Some? && r.value.Ok? <==> o == Resolved
    ensures o == Rejected ==> r == Some(Err(InvalidArguments(ClosureRejected)))
  {
    match o
    case Pending => None
    case Resolved => Some(Ok("Created object " + c.id + ": " + c.name))
    case Rejected => Some(Err(InvalidArguments(ClosureRejected)))
  }

  /** A call that is accepted, enqueued and then run by a pop is answered
      with the success text exactly when the closure succeeded. */
  lemma AcceptedCallAnswered(s: QueueState<CreateObject>, args: Option<Json>, freshId: string, succeeded: bool)
    requires Inv(s) && ValidCreateObject(args)
    ensures var c := Route("create_object", args, freshId).value;
      var (pushed, p) := QueueSpec.Push(s, c);
      var popped := QueueSpec.Pop(pushed, succeeded);
      && p in popped.outcome
      && Reply(c, popped.outcome[p]) ==
           Some(if succeeded then Ok("Created object " + freshId + ": " + c.name)
                else Err(InvalidArguments(ClosureRejected)))
      && popped.entries == s.entries
  {
    var c := Route("create_object", args, freshId).value;
    PushAppendsPending(s, c);
    var (pushed, p) := QueueSpec.Push(s, c);
    PopSettlesLast(pushed, succeeded);
  }

  // ---------------------------------------------------------------------
  // The server state

  /** A call waiting for its closure to run. */
  datatype Awaiting = Awaiting(request: CreateObject, promise: nat)

  class Server {
    /** The module-level `queue`: null until `main` hands one over. */
    var queue: WorkQueue?<CreateObject>
    /** The editor's `data.objects`. */
    var objects: map<string, Obj>

    ghost predicate Valid()
      reads this, queue
    {
      queue != null ==> queue.Valid()
    }

    constructor (objects: map<string, Obj>)
      ensures Valid() && queue == null && this.objects == objects
    {
      this.queue := null;
      this.objects := objects;
    }

    /** `main(params)`: keep the host's queue (the listening socket is not modelled). */
    method Start(q: WorkQueue<CreateObject>)
      requires q.Valid()
      modifies this
      ensures Valid() && queue == q && objects == old(objects)
    {
      queue := q;
    }

    /** The CallTool handler up to its `await`.  An unknown tool or invalid
        arguments fail without touching the queue; a valid `create_object`
        enqueues its closure, unless no queue was handed over yet, in which
        case `queue!.push` throws and the catch reports "Invalid arguments". */
    method CallTool(tool: string, args: Option<Json>, freshId: string) returns (r: Result<Awaiting, ServerError>)
      requires Valid()
      modifies queue
      ensures Valid()
      ensures Route(tool, args, freshId).Err? ==>
        r == Err(Route(tool, args, freshId).error)
        && (queue != null ==> queue.State() == old(queue.State()))
      ensures Route(tool, args, freshId).Ok? && queue == null ==> r == Err(InvalidArguments(NoQueue))
      ensures Route(tool, args, freshId).Ok? && queue != null ==>
        r.Ok? && r.value.request == Route(tool, args, freshId).value
        && (queue.State(), r.value.promise) == QueueSpec.Push(old(queue.State()), r.value.request)
    {
      match Route(tool, args, freshId)
      case Err(e) =>
        r := Err(e);
      case Ok(c) =>
        if queue == null {
          r := Err(InvalidArguments(NoQueue));
        } else {
          var p := queue.Push(c);
          r := Ok(Awaiting(c, p));
        }
    }

    /** The `create_object` closure: `data.objects[id] = {name, translation: position}`. */
    method RunCreateObject(c: CreateObject)
      modifies this`objects
      ensures objects == CreateInto(old(objects), c)
    {
      objects := objects[c.id := Obj(c.name, c.position)];
    }

    /** One host tick: the host calls `queue.pop()`, which runs the newest
        `create_object` closure; `succeeded` says whether its write went
        through (a failed write leaves the objects as they were). */
    method HostTick(succeeded: bool) returns (ran: bool)
      requires Valid() && queue != null
      modifies this`objects, queue
      ensures Valid()
      ensures queue.State() == QueueSpec.Pop(old(queue.State()), succeeded)
      ensures ran <==> old(queue.queue) != []
      ensures objects == if ran && succeeded
        then CreateInto(old(objects), old(queue.queue)[|old(queue.queue)| - 1].func)
        else old(objects)
    {
      var pending := queue.queue;
      ran := queue.Pop(succeeded);
      if ran && succeeded {
        RunCreateObject(pending[|pending| - 1].func);
      }
    }
  }
}
