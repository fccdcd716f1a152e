/** The client methods of `Wrike` in wrike/api.py: `_one`, the list
    endpoints, the single-entity endpoints and the paged task listing. The
    REST adapter is the function `backend` from the request it receives to
    its reply; warnings are returned next to the outcome, in emission order. */
module Api {
  import opened Signals
  import opened Json
  import opened Models
  import opened Transport
  import opened Paging

  /** The default `page_size` of `Wrike` and `max_amt` of `get_tasks_paged`. */
  const DefaultPageSize: int := 1000
  const DefaultMaxAmt: int := 1000

  /** The most tasks one unpaged `tasks` response holds. */
  const TaskCap: nat := 1000

  /** The entity classes as constructors. */
  function TaskModel(d: Item): Try<(Entity, seq<Warning>)> {
    Decode(TaskKind, d)
  }

  function VersionModel(d: Item): Try<(Entity, seq<Warning>)> {
    Decode(VersionKind, d)
  }

  function CommentModel(d: Item): Try<(Entity, seq<Warning>)> {
    Decode(CommentKind, d)
  }

  /** What a method returning at most one entity produced (`None` is
      `Ok(None)`), and the warnings it emitted. */
  datatype Single = Single(value: Try<Option<Entity>>, warnings: seq<Warning>)

  /** What a method returning a list produced, and the warnings it emitted. */
  datatype Listing = Listing(value: Try<seq<Entity>>, warnings: seq<Warning>)

  /** `_one(result, model)`: no data warns `ZeroWarning` and gives `None`;
      more than one datum warns `GreaterThanOneWarning` and still builds the
      first; exactly one builds it silently. */
  function One(r: Result, model: Constructor): (s: Single)
    ensures |r.data| == 0 ==> s == Single(Ok(None), [ZeroWarning])
    ensures |r.data| > 0 ==>
      && (s.value.Raised? <==> model(r.data[0]).Raised?)
      && (s.value.Ok? ==> s.value.value == Some(model(r.data[0]).value.0))
      && (s.value.Raised? ==> s.value.error == model(r.data[0]).error)
      && (s.value.Ok? ==> s.warnings == (if |r.data| > 1 then [GreaterThanOneWarning(|r.data|)] else []) + model(r.data[0]).value.1)
      && (s.value.Raised? ==> s.warnings == if |r.data| > 1 then [GreaterThanOneWarning(|r.data|)] else [])
  {
    if |r.data| == 0 then Single(Ok(None), [ZeroWarning])
    else
      var pre := if |r.data| > 1 then [GreaterThanOneWarning(|r.data|)] else [];
      match model(r.data[0])
      case Raised(e) => Single(Raised(e), pre)
      case Ok((entity, w)) => Single(Ok(Some(entity)), pre + w)
  }

  /** How many leading data `model` builds before the first datum it
      rejects: all of them when it rejects none. */
  function BuiltPrefix(model: Constructor, items: seq<Item>): (n: nat)
    ensures n <= |items|
    ensures forall i :: 0 <= i < n ==> model(items[i]).Ok?
    ensures n < |items| ==> model(items[n]).Raised?
    decreases |items|
  {
    if items == [] || model(items[0]).Raised? then 0
    else
      var n := BuiltPrefix(model, items[1..]);
      assert forall i :: 1 <= i < 1 + n ==> items[i] == items[1..][i - 1];
      1 + n
  }

  /** The warnings `model` emits while building each of `items`, in order. */
  function WarningsOf(model: Constructor, items: seq<Item>): seq<Warning>
    requires forall i :: 0 <= i < |items| ==> model(items[i]).Ok?
    decreases |items|
  {
    if items == [] then [] else model(items[0]).value.1 + WarningsOf(model, items[1..])
  }

  /** `[model(**datum) for datum in data]`: the data are built in order, and
      the first datum `model` rejects ends the comprehension with its
      exception; the warnings of the data built before it have already been
      emitted. */
  function DecodeAll(model: Constructor, items: seq<Item>): (r: (Try<seq<Entity>>, seq<Warning>))
    ensures r.0.Ok? <==> forall i :: 0 <= i < |items| ==> model(items[i]).Ok?
    ensures r.0.Ok? ==> |r.0.value| == |items|
    ensures r.0.Ok? ==> forall i :: 0 <= i < |items| ==> r.0.value[i] == model(items[i]).value.0
    ensures r.0.Raised? ==>
      BuiltPrefix(model, items) < |items| && r.0.error == model(items[BuiltPrefix(model, items)]).error
    ensures r.1 == WarningsOf(model, items[..BuiltPrefix(model, items)])
    decreases |items|
  {
    if items == [] then (Ok([]), [])
    else
      match model(items[0])
      case Raised(e) => (Raised(e), [])
      case Ok((entity, w)) =>
        var (rest, ws) := DecodeAll(model, items[1..]);
        var n := BuiltPrefix(model, items[1..]);
        assert items[..1 + n][1..] == items[1..][..n];
        (if rest.Raised? then Raised(rest.error) else Ok([entity] + rest.value), w + ws)
  }

  /** Call an unpaged list endpoint and build every datum with `model`. */
  function ListOf(reply: Reply, model: Constructor): (l: Listing)
    ensures reply.Raised? ==> l == Listing(Raised(reply.error), [])
    ensures reply.Ok? ==>
      var data := reply.value.data;
      var n := BuiltPrefix(model, data);
      && (l.value.Ok? <==> forall i :: 0 <= i < |data| ==> model(data[i]).Ok?)
      && (l.value.Ok? ==> l.value.value == Decoded(model, data))
      && (l.value.Raised? ==> n < |data| && l.value.error == model(data[n]).error)
      && l.warnings == WarningsOf(model, data[..n])
  {
    match reply
    case Raised(e) => Listing(Raised(e), [])
    case Ok(r) =>
      var (value, w) := DecodeAll(model, r.data);
      if value.Ok? then
        DecodeAllIsDecoded(model, r.data);
        Listing(value, w)
      else Listing(value, w)
  }

  /** Call a single-entity endpoint and pass its result to `_one`. */
  function OneOf(reply: Reply, model: Constructor): (s: Single)
    ensures reply.Raised? ==> s == Single(Raised(reply.error), [])
    ensures reply.Ok? ==> s == One(reply.value, model)
  {
    match reply
    case Raised(e) => Single(Raised(e), [])
    case Ok(r) => One(r, model)
  }

  /** `get_tasks()`: all tasks of one `tasks` response, with
      `DataCappedWarning` after the tasks' own warnings when the list holds
      exactly 1000 tasks. */
  function GetTasks(backend: Request -> Reply): (l: Listing)
    ensures var reply := backend(Request("tasks", map[]));
      && (reply.Raised? ==> l == Listing(Raised(reply.error), []))
      && (l.value.Ok? <==> reply.Ok? && forall i :: 0 <= i < |reply.value.data| ==> TaskModel(reply.value.data[i]).Ok?)
      && (l.value.Ok? ==> l.value.value == Decoded(TaskModel, reply.value.data))
      && (reply.Ok? ==> var base := ListOf(reply, TaskModel);
            && l.value == base.value
            && l.warnings == base.warnings +
                 if base.value.Ok? && |base.value.value| == TaskCap then [DataCappedWarning] else [])
  {
    var reply := backend(Request("tasks", map[]));
    var l := ListOf(reply, TaskModel);
    if l.value.Ok? && |l.value.value| == TaskCap then Listing(l.value, l.warnings + [DataCappedWarning]) else l
  }

  /** `get_task()`: `_one` over the `tasks` response. */
  function GetTask(backend: Request -> Reply): (s: Single)
    ensures var reply := backend(Request("tasks", map[]));
      && (reply.Raised? ==> s == Single(Raised(reply.error), []))
      && (reply.Ok? ==> s == One(reply.value, TaskModel))
  {
    OneOf(backend(Request("tasks", map[])), TaskModel)
  }

  /** `get_comments()`: all comments of one response of the endpoint
      spelled "commments". */
  function GetComments(backend: Request -> Reply): (l: Listing)
    ensures var reply := backend(Request("commments", map[]));
      && (reply.Raised? ==> l == Listing(Raised(reply.error), []))
      && (l.value.Ok? <==> reply.Ok? && forall i :: 0 <= i < |reply.value.data| ==> CommentModel(reply.value.data[i]).Ok?)
      && (l.value.Ok? ==> l.value.value == Decoded(CommentModel, reply.value.data))
      && (reply.Ok? ==> l == ListOf(reply, CommentModel))
  {
    ListOf(backend(Request("commments", map[])), CommentModel)
  }

  /** `get_version()`: `_one` over the `version` response. */
  function GetVersion(backend: Request -> Reply): (s: Single)
    ensures var reply := backend(Request("version", map[]));
      && (reply.Raised? ==> s == Single(Raised(reply.error), []))
      && (reply.Ok? ==> s == One(reply.value, VersionModel))
  {
    OneOf(backend(Request("version", map[])), VersionModel)
  }

  /** The list a list endpoint builds is what the paged generator yields
      from the same items. */
  lemma {:induction false} DecodeAllIsDecoded(model: Constructor, items: seq<Item>)
    requires DecodeAll(model, items).0.Ok?
    ensures DecodeAll(model, items).0.value == Decoded(model, items)
    decreases |items|
  {
    if items != [] {
      DecodeAllIsDecoded(model, items[1..]);
    }
  }

  /** `_one` builds only the first datum: results that agree on it agree on
      the outcome, however many data follow it. */
  lemma OneReadsFirstOnly(r: Result, r': Result, model: Constructor)
    requires |r.data| > 0 && |r'.data| > 0 && r.data[0] == r'.data[0]
    ensures One(r, model).value == One(r', model).value
  {
  }

  /** Entity constructors only ever emit `KindWarning`. */
  predicate KindWarningsOnly(ws: seq<Warning>) {
    forall i :: 0 <= i < |ws| ==> ws[i].KindWarning?
  }

  lemma {:induction false} WarningsOfKindOnly(model: Constructor, items: seq<Item>)
    requires forall d :: model(d).Ok? ==> KindWarningsOnly(model(d).value.1)
    requires forall i :: 0 <= i < |items| ==> model(items[i]).Ok?
    ensures KindWarningsOnly(WarningsOf(model, items))
    decreases |items|
  {
    if items != [] {
      WarningsOfKindOnly(model, items[1..]);
    }
  }

  lemma TaskWarnings(d: Item)
    ensures TaskModel(d).Ok? ==> KindWarningsOnly(TaskModel(d).value.1)
  {
    if TaskModel(d).Ok? {
      DecodeRoundTrip(TaskKind, d);
    }
  }

  /** `get_tasks` warns `DataCappedWarning` exactly when it returns a list
      of exactly 1000 tasks, and then as its last warning. */
  lemma CapWarningIff(backend: Request -> Reply)
    ensures var l := GetTasks(backend);
      && (DataCappedWarning in l.warnings <==> l.value.Ok? && |l.value.value| == TaskCap)
      && (DataCappedWarning in l.warnings ==> l.warnings[|l.warnings| - 1] == DataCappedWarning)
  {
    var reply := backend(Request("tasks", map[]));
    if reply.Ok? {
      var data := reply.value.data;
      forall d | TaskModel(d).Ok?
        ensures KindWarningsOnly(TaskModel(d).value.1)
      {
        TaskWarnings(d);
      }
      WarningsOfKindOnly(TaskModel, data[..BuiltPrefix(TaskModel, data)]);
    }
  }

  /** A `tasks` response holding one complete task gives that task, with no
      warning when its kind is "tasks". */
  lemma {:induction false} GetTaskScenario(backend: Request -> Reply, r: Result, d: Item)
    requires backend(Request("tasks", map[])) == Ok(r) && r.data == [d]
    requires forall p :: p in Required(TaskKind) ==> p in d
    requires "self" !in d && "expected_kind" !in d
    ensures var s := GetTask(backend);
      && s.value.Ok? && s.value.value.Some? && s.value.value.value.kind == TaskKind
      && (s.warnings == [] <==> Arg(d, "kind", JStr("")) == JStr("tasks"))
  {
    DecodeFailsIff(TaskKind, d);
    DecodeRoundTrip(TaskKind, d);
  }

  /** `get_tasks_paged(max_amt)`: a fresh task generator over `tasks`; the
      backend answers its requests with `replies` in order. */
  method GetTasksPaged(replies: seq<Reply>, pageSize: int := DefaultPageSize, maxAmt: int := DefaultMaxAmt)
    returns (p: Pager)
    requires pageSize > 0
    ensures fresh(p) && p.Valid()
    ensures p.State() == Start("tasks", TaskModel, pageSize, maxAmt, replies)
  {
    p := new Pager("tasks", TaskModel, pageSize, maxAmt, replies);
  }
}
