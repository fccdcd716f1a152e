/** The response envelope (`Result`), the common header of every entity
    (`Method`) and the entity constructors `Version`, `Comment`, `Task` and
    `Dependency` of wrike/models.py. A Python object's attributes are kept
    as maps from attribute name to value. */
module Models {
  import opened Signals
  import opened Json

  /** One flattened data item: the keyword arguments an entity is built from. */
  type Item = map<string, Json>

  /** The normalised response envelope. */
  datatype Result = Result(
    statusCode: int,
    message: string,
    responseData: Object,
    kind: string,
    state: string,
    nextPageToken: string,
    responseSize: int,
    rawData: seq<Item>,
    data: seq<Item>,
    extras: Object)

  /** The body keys the envelope consumes; every other top-level key is an extra. */
  const EnvelopeKeys: set<string> := {"kind", "state", "nextPageToken", "responseSize", "data"}

  /** The four envelope fields merged into every item, under their item names. */
  function Shared(kind: string, state: string, token: string, size: int): (m: Item)
    ensures m.Keys == {"kind", "state", "next_page_token", "response_size"}
    ensures m["kind"] == JStr(kind) && m["state"] == JStr(state)
    ensures m["next_page_token"] == JStr(token) && m["response_size"] == JInt(size)
  {
    map["kind" := JStr(kind), "state" := JStr(state),
        "next_page_token" := JStr(token), "response_size" := JInt(size)]
  }

  /** Each raw item merged over the shared fields: the item's own keys win. */
  function Flatten(shared: Item, raw: seq<Item>): (r: seq<Item>)
    ensures |r| == |raw|
    ensures forall i :: 0 <= i < |raw| ==> r[i].Keys == shared.Keys + raw[i].Keys
    ensures forall i, k :: 0 <= i < |raw| && k in raw[i] ==> r[i][k] == raw[i][k]
    ensures forall i, k :: 0 <= i < |raw| && k in shared && k !in raw[i] ==> r[i][k] == shared[k]
  {
    if raw == [] then [] else [shared + raw[0]] + Flatten(shared, raw[1..])
  }

  /** The fields of a list of JSON objects. */
  function ObjectFields(xs: seq<Json>): (r: seq<Item>)
    requires forall i :: 0 <= i < |xs| ==> xs[i].JObj?
    ensures |r| == |xs|
    ensures forall i :: 0 <= i < |xs| ==> xs[i] == JObj(r[i])
  {
    if xs == [] then [] else [xs[0].fields] + ObjectFields(xs[1..])
  }

  /** `data if data else []` followed by the iteration that merges each
      element into a dict: a falsy value gives no items, a list of objects
      gives their fields, anything else raises `TypeError`. */
  function ItemsOf(data: Json): (r: Try<seq<Item>>)
    ensures !Truthy(data) ==> r == Ok([])
    ensures r.Ok? && Truthy(data) ==>
      data.JList? && |r.value| == |data.items| &&
      forall i :: 0 <= i < |data.items| ==> data.items[i] == JObj(r.value[i])
    ensures r.Raised? <==>
      Truthy(data) && (!data.JList? || exists i :: 0 <= i < |data.items| && !data.items[i].JObj?)
  {
    if !Truthy(data) then Ok([])
    else match data
      case JList(xs) =>
        if forall i :: 0 <= i < |xs| ==> xs[i].JObj? then
          Ok(ObjectFields(xs))
        else Raised(TypeError("unsupported operand type(s) for |"))
      case _ => Raised(TypeError("unsupported operand type(s) for |"))
  }

  /** A keyword argument, or its default when the key is absent. */
  function Arg(m: Object, key: string, default: Json): Json {
    if key in m then m[key] else default
  }

  /** `Result(status_code, headers, message, data)`: the body (None or empty
      when the response had none) is normalised into the envelope by
      `_parse_data(**body)`, which rejects a body that is not an object or
      that has a `self` key, a `responseSize` that `int()` rejects, and
      `data` that is not a list of objects. */
  function NewResult(statusCode: int, message: string, body: Json): (r: Try<Result>)
    ensures !Truthy(body) ==> r.Ok?
    ensures r.Raised? <==>
      || (Truthy(body) && !body.JObj?)
      || (body.JObj? && var m := body.fields;
            "self" in m || ToInt(Arg(m, "responseSize", JInt(0))).Raised? || ItemsOf(Arg(m, "data", JNull)).Raised?)
    ensures r.Ok? ==>
      var m := if Truthy(body) then body.fields else map[];
      && r.value.responseData == m
      && r.value.kind == Str(Arg(m, "kind", JStr("")))
      && r.value.state == Str(Arg(m, "state", JStr("")))
      && r.value.nextPageToken == Str(Arg(m, "nextPageToken", JStr("")))
      && ToInt(Arg(m, "responseSize", JInt(0))) == Ok(r.value.responseSize)
      && ItemsOf(Arg(m, "data", JNull)) == Ok(r.value.rawData)
      && r.value.data == Flatten(Shared(r.value.kind, r.value.state, r.value.nextPageToken, r.value.responseSize), r.value.rawData)
      && r.value.extras.Keys == m.Keys - EnvelopeKeys
      && forall k :: k in r.value.extras ==> r.value.extras[k] == m[k]
  {
    if Truthy(body) && !body.JObj? then Raised(TypeError("argument after ** must be a mapping"))
    else
      var m := if Truthy(body) then body.fields else map[];
      if "self" in m then Raised(TypeError("got multiple values for argument 'self'"))
      else
      var kind := Str(Arg(m, "kind", JStr("")));
      var state := Str(Arg(m, "state", JStr("")));
      var token := Str(Arg(m, "nextPageToken", JStr("")));
      match ToInt(Arg(m, "responseSize", JInt(0)))
      case Raised(e) => Raised(e)
      case Ok(size) =>
        match ItemsOf(Arg(m, "data", JNull))
        case Raised(e) => Raised(e)
        case Ok(raw) =>
          Ok(Result(statusCode, message, m, kind, state, token, size, raw,
                    Flatten(Shared(kind, state, token, size), raw), m - EnvelopeKeys))
  }

  /** A body without envelope fields gets the documented defaults. */
  lemma EnvelopeDefaults(statusCode: int, message: string, body: Json)
    requires !Truthy(body) || (body.JObj? && body.fields.Keys !! EnvelopeKeys && "self" !in body.fields)
    ensures NewResult(statusCode, message, body).Ok?
    ensures var r := NewResult(statusCode, message, body).value;
      r.kind == "" && r.state == "" && r.nextPageToken == "" && r.responseSize == 0 && r.data == []
  {
  }

  /** Every flattened item carries the envelope's value for each of the four
      shared keys it does not define itself, keeps every key it does define,
      and the items keep the body's order and count. */
  lemma {:induction false} FlattenedItems(statusCode: int, message: string, body: Json, i: int, k: string)
    requires NewResult(statusCode, message, body).Ok?
    requires body.JObj? && "data" in body.fields && body.fields["data"].JList?
    requires 0 <= i < |NewResult(statusCode, message, body).value.data|
    ensures var r := NewResult(statusCode, message, body).value;
      var raw := body.fields["data"].items;
      && |r.data| == |raw|
      && raw[i] == JObj(r.rawData[i])
      && (k in raw[i].fields ==> k in r.data[i] && r.data[i][k] == raw[i].fields[k])
      && (k !in raw[i].fields && k == "kind" ==> r.data[i][k] == JStr(r.kind))
      && (k !in raw[i].fields && k == "state" ==> r.data[i][k] == JStr(r.state))
      && (k !in raw[i].fields && k == "next_page_token" ==> r.data[i][k] == JStr(r.nextPageToken))
      && (k !in raw[i].fields && k == "response_size" ==> r.data[i][k] == JInt(r.responseSize))
  {
    var r := NewResult(statusCode, message, body).value;
    assert Truthy(body);
    assert |r.rawData| > 0;
  }

  // ---------------------------------------------------------------------
  // Method: the header every entity shares

  /** The attributes `Method.__init__` sets. */
  datatype Header = Header(
    expectedKind: string,
    kind: Json,
    state: Json,
    nextPageToken: Json,
    responseSize: Json)

  /** The keyword parameters of `Method.__init__`. */
  const MethodParams: set<string> := {"expected_kind", "kind", "state", "next_page_token", "response_size"}

  /** The kind check: the kind an entity was given differs from the one its class expects. */
  predicate KindMismatch(h: Header) {
    h.kind != JStr(h.expectedKind)
  }

  function HeaderOf(expected: string, kwargs: Item): Header {
    Header(expected,
           Arg(kwargs, "kind", JStr("")),
           Arg(kwargs, "state", JStr("")),
           Arg(kwargs, "next_page_token", JStr("")),
           Arg(kwargs, "response_size", JInt(0)))
  }

  /** `Method.__init__(expected_kind, **kwargs)` as written: the mismatch
      branch names `KindWarning`, which wrike/models.py never imports, so it
      raises `NameError` instead of warning. */
  function NewHeaderAsWritten(expected: string, kwargs: Item): (r: Try<Header>)
    ensures "expected_kind" in kwargs ==> r.Raised?
    ensures r.Ok? ==> !KindMismatch(r.value)
  {
    if "expected_kind" in kwargs then Raised(TypeError("got multiple values for argument 'expected_kind'"))
    else
      var h := HeaderOf(expected, kwargs);
      if KindMismatch(h) then Raised(NameError("KindWarning")) else Ok(h)
  }

  /** `Method.__init__(expected_kind, **kwargs)` as intended: the header keeps
      the four values as given (defaults when absent) and a kind mismatch
      only emits `KindWarning`. */
  function NewHeader(expected: string, kwargs: Item): (r: Try<(Header, seq<Warning>)>)
    ensures r.Raised? <==> "expected_kind" in kwargs
    ensures r.Ok? ==>
      var (h, w) := r.value;
      && h.expectedKind == expected
      && ("kind" in kwargs ==> h.kind == kwargs["kind"])
      && ("kind" !in kwargs ==> h.kind == JStr(""))
      && ("state" in kwargs ==> h.state == kwargs["state"])
      && ("state" !in kwargs ==> h.state == JStr(""))
      && ("next_page_token" in kwargs ==> h.nextPageToken == kwargs["next_page_token"])
      && ("next_page_token" !in kwargs ==> h.nextPageToken == JStr(""))
      && ("response_size" in kwargs ==> h.responseSize == kwargs["response_size"])
      && ("response_size" !in kwargs ==> h.responseSize == JInt(0))
      && (w == [] <==> h.kind == JStr(expected))
      && (w != [] ==> w == [KindWarning(Str(h.kind), expected)])
  {
    if "expected_kind" in kwargs then Raised(TypeError("got multiple values for argument 'expected_kind'"))
    else
      var h := HeaderOf(expected, kwargs);
      Ok((h, if KindMismatch(h) then [KindWarning(Str(h.kind), expected)] else []))
  }

  /** The discrepancy: an item whose kind is not the expected one is
      rejected with `NameError` as written, but only warned about as intended. */
  lemma KindMismatchRaisesAsWritten()
    ensures NewHeaderAsWritten("tasks", map["kind" := JStr("folders")]) == Raised(NameError("KindWarning"))
    ensures NewHeader("tasks", map["kind" := JStr("folders")]).Ok?
    ensures NewHeader("tasks", map["kind" := JStr("folders")]).value.1 == [KindWarning("folders", "tasks")]
  {
  }

  /** The two agree whenever the kinds match. */
  lemma {:induction false} HeaderAgreesOnMatch(expected: string, kwargs: Item)
    requires "expected_kind" !in kwargs && Arg(kwargs, "kind", JStr("")) == JStr(expected)
    ensures NewHeaderAsWritten(expected, kwargs) == Ok(NewHeader(expected, kwargs).value.0)
    ensures NewHeader(expected, kwargs).value.1 == []
  {
  }

  // ---------------------------------------------------------------------
  // Entities

  datatype EntityKind = VersionKind | CommentKind | TaskKind | DependencyKind

  /** The kind each entity class passes to `Method.__init__`; `Dependency`
      reuses "version". */
  function ExpectedKind(k: EntityKind): (e: string)
    ensures e in {"version", "comments", "tasks"}
    ensures e == "version" <==> k == VersionKind || k == DependencyKind
  {
    match k
    case VersionKind => "version"
    case CommentKind => "comments"
    case TaskKind => "tasks"
    case DependencyKind => "version"
  }

  /** The constructor's parameters without defaults, in declaration order. */
  function Required(k: EntityKind): (r: seq<string>)
    ensures forall i, j :: 0 <= i < j < |r| ==> r[i] != r[j]
    ensures forall i :: 0 <= i < |r| ==> r[i] !in Optional(k)
  {
    match k
    case VersionKind => ["major", "minor"]
    case CommentKind => ["id", "author_id", "text", "updated_date", "created_date", "task_id", "folder_id"]
    case TaskKind => ["id", "title", "status", "importance", "dates", "scope", "permalink", "priority"]
    case DependencyKind => ["id", "predecessor_id", "successor_id", "relation_type", "lag_time"]
  }

  /** The constructor's parameters with defaults, and those defaults. */
  function Optional(k: EntityKind): (m: map<string, Json>)
    ensures k != TaskKind ==> m == map[]
    ensures forall p :: p in m ==> m[p] == JNull || m[p] == JStr("")
  {
    match k
    case TaskKind =>
      map["account_id" := JStr(""), "created_date" := JNull, "updated_date" := JNull,
          "completed_date" := JNull, "custom_status_id" := JStr("")]
    case _ => map[]
  }

  function Params(k: EntityKind): set<string> {
    (set p | p in Required(k)) + Optional(k).Keys
  }

  /** A decoded entity: its class, its header, its named constructor
      arguments and the unrecognised keyword arguments it absorbed. */
  datatype Entity = Entity(kind: EntityKind, header: Header, fields: map<string, Json>, extras: Item)

  /** The required parameters the item does not supply, in declaration order. */
  function Missing(req: seq<string>, d: Item): (r: seq<string>)
    ensures forall p :: p in r <==> p in req && p !in d
  {
    if req == [] then []
    else (if req[0] in d then [] else [req[0]]) + Missing(req[1..], d)
  }

  /** The attributes a constructor call sets: the header, the named
      parameters, and the absorbed extra keyword arguments. */
  datatype Bound = Bound(header: Header, fields: map<string, Json>, extras: Item)

  /** Python's binding of `Cls(**d)` for a subclass of `Method` whose
      required parameters are `req` and whose defaulted ones are `opt`:
      passing `self` or leaving out a required parameter raises `TypeError`;
      the remaining keyword arguments go on to `Method.__init__`. */
  function Bind(expected: string, req: seq<string>, opt: map<string, Json>, d: Item): (r: Try<(Bound, seq<Warning>)>)
    ensures r.Raised? ==> r.error.TypeError?
    ensures r.Ok? ==> r.value.0.header.expectedKind == expected
  {
    if "self" in d then Raised(TypeError("got multiple values for argument 'self'"))
    else if Missing(req, d) != [] then Raised(TypeError("missing required positional arguments"))
    else
      var params := (set p | p in req) + opt.Keys;
      var kwargs := d - params;
      match NewHeader(expected, kwargs)
      case Raised(e) => Raised(e)
      case Ok((h, w)) =>
        var named := map p | p in params && p in d :: d[p];
        Ok((Bound(h, opt + named, kwargs - MethodParams), w))
  }

  /** `Version(**d)`, `Comment(**d)`, `Task(**d)` or `Dependency(**d)`. */
  function Decode(k: EntityKind, d: Item): (r: Try<(Entity, seq<Warning>)>)
    ensures r.Raised? ==> r.error.TypeError?
    ensures r.Ok? ==> r.value.0.kind == k && r.value.0.header.expectedKind == ExpectedKind(k)
  {
    match Bind(ExpectedKind(k), Required(k), Optional(k), d)
    case Raised(e) => Raised(e)
    case Ok((b, w)) => Ok((Entity(k, b.header, b.fields, b.extras), w))
  }

  /** The header as a map of the keyword arguments it was built from. */
  function HeaderArgs(h: Header): Item {
    map["kind" := h.kind, "state" := h.state, "next_page_token" := h.nextPageToken,
        "response_size" := h.responseSize]
  }

  /** All attributes an entity exposes under their keyword-argument names. */
  function Attributes(e: Entity): Item {
    HeaderArgs(e.header) + e.fields + e.extras
  }

  /** No entity class names a parameter of `Method.__init__` or `self`. */
  lemma ParamsDisjoint(k: EntityKind)
    ensures MethodParams !! Params(k) && "self" !in Params(k)
  {
    if k == TaskKind {
      TaskParamsDisjoint();
    } else {
      var req := Required(k);
      forall i | 0 <= i < |req|
        ensures req[i] !in MethodParams && req[i] != "self"
      {
      }
    }
  }

  lemma TaskParamsDisjoint()
    ensures MethodParams !! Params(TaskKind) && "self" !in Params(TaskKind)
  {
    var req := Required(TaskKind);
    forall i | 0 <= i < |req|
      ensures req[i] !in MethodParams && req[i] != "self"
    {
    }
    forall p | p in Optional(TaskKind)
      ensures p !in MethodParams && p != "self"
    {
    }
  }

  lemma {:induction false} BindFailsIff(expected: string, req: seq<string>, opt: map<string, Json>, d: Item)
    requires MethodParams !! ((set p | p in req) + opt.Keys)
    ensures Bind(expected, req, opt, d).Raised? <==>
      "self" in d || "expected_kind" in d || exists p :: p in req && p !in d
  {
    var params := (set p | p in req) + opt.Keys;
    if "self" !in d && Missing(req, d) == [] {
      assert "expected_kind" in d ==> "expected_kind" in d - params;
    } else if "self" !in d {
      var p := Missing(req, d)[0];
      assert p in Missing(req, d);
    }
  }

  /** Decoding fails exactly when `self` is passed, a required argument is
      missing, or `expected_kind` is passed; a kind mismatch never rejects. */
  lemma {:induction false} DecodeFailsIff(k: EntityKind, d: Item)
    ensures Decode(k, d).Raised? <==>
      "self" in d || "expected_kind" in d || exists p :: p in Required(k) && p !in d
  {
    ParamsDisjoint(k);
    BindFailsIff(ExpectedKind(k), Required(k), Optional(k), d);
  }

  lemma {:induction false} BindRoundTrip(expected: string, req: seq<string>, opt: map<string, Json>, d: Item)
    requires MethodParams !! ((set p | p in req) + opt.Keys)
    requires Bind(expected, req, opt, d).Ok?
    ensures var (b, w) := Bind(expected, req, opt, d).value;
      var params := (set p | p in req) + opt.Keys;
      && b.fields.Keys == params
      && (forall p :: p in d ==> p in HeaderArgs(b.header) + b.fields + b.extras && (HeaderArgs(b.header) + b.fields + b.extras)[p] == d[p])
      && (forall p :: p in opt && p !in d ==> b.fields[p] == opt[p])
      && (forall p :: p in b.extras ==> p in d && p !in params && p !in MethodParams)
      && (w == [] <==> Arg(d, "kind", JStr("")) == JStr(expected))
      && (w != [] ==> w == [KindWarning(Str(Arg(d, "kind", JStr(""))), expected)])
  {
    var params := (set p | p in req) + opt.Keys;
    var kwargs := d - params;
    var (b, w) := Bind(expected, req, opt, d).value;
    var all := HeaderArgs(b.header) + b.fields + b.extras;
    forall p | p in req
      ensures p in d
    {
      assert p !in Missing(req, d);
    }
    assert b.fields.Keys == params;
    forall p | p in d
      ensures p in all && all[p] == d[p]
    {
      if p in params {
        assert b.fields[p] == d[p];
      } else if p in MethodParams {
        assert p in kwargs;
      } else {
        assert p in b.extras;
      }
    }
    assert "kind" in d ==> "kind" in kwargs;
  }

  /** Round trip: reading back a decoded entity's attributes gives every
      keyword argument it was built from, unchanged; defaulted parameters
      that were absent read back as their defaults, and the kind warning is
      emitted exactly when the item's kind differs from the class's. */
  lemma {:induction false} DecodeRoundTrip(k: EntityKind, d: Item)
    requires Decode(k, d).Ok?
    ensures var (e, w) := Decode(k, d).value;
      && e.kind == k
      && e.fields.Keys == Params(k)
      && (forall p :: p in d ==> p in Attributes(e) && Attributes(e)[p] == d[p])
      && (forall p :: p in Optional(k) && p !in d ==> e.fields[p] == Optional(k)[p])
      && (forall p :: p in e.extras ==> p in d && p !in Params(k) && p !in MethodParams)
      && (w == [] <==> Arg(d, "kind", JStr("")) == JStr(ExpectedKind(k)))
      && (w != [] ==> w == [KindWarning(Str(Arg(d, "kind", JStr(""))), ExpectedKind(k))])
  {
    ParamsDisjoint(k);
    BindRoundTrip(ExpectedKind(k), Required(k), Optional(k), d);
  }
}
