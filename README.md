# Wrike client core in Dafny

This project models the core of the `wrike` Python client, a thin client
for the Wrike REST API:

- `Result`, the response envelope. It reads the `kind`, `state`,
  `nextPageToken`, `responseSize` and `data` fields of a JSON body. Then it
  merges the four shared fields into every data item, and the item's own keys
  win.
- `Method`, the header every entity shares. It keeps `kind`, `state`,
  `next_page_token` and `response_size`, and checks the kind against the one
  the entity class expects.
- The entity constructors `Version`, `Comment`, `Task` and `Dependency`,
  called as `Cls(**item)` with Python's keyword-argument binding.
- `Wrike._page`, the lazy paging generator. It requests pages with a page
  size and the last cursor token, recomputes the last page from
  `responseSize`, and yields one entity per item. It stops once `max_amt`
  entities have been yielded or the page index passes the last page.
- `Wrike._one` and the endpoint methods `get_tasks`, `get_task`,
  `get_tasks_paged`, `get_comments` and `get_version`.

Modules:

- `Signals` (signals.dfy): the warning categories and exceptions, as values.
- `Json` (json.dfy): decoded JSON values, with Python's truthiness, `str()`
  and `int()`.
- `Models` (models.dfy): `Result`, `Method` and the entities, as pure
  functions.
- `Transport` (transport.dfy): a request to the REST adapter and its reply.
- `Paging` (paging.dfy): the generator.
  - The class `Pager` holds the generator's locals. Its `Next` method does
    one `next()`.
  - `Next` is proved equal to the pure step function `Step` on a snapshot of
    the state, `PagerState`.
  - The lemmas prove an invariant of `Step` and what a run of pulls yields.
- `Api` (api.dfy): `_one` and the endpoint methods.

The REST adapter is not modelled; it is represented in two ways:

- The single-request methods take a function `backend` from the request to
  its reply.
- The paging generator takes the sequence of replies that the backend gives
  to its successive requests.

Warnings are returned next to the result, in the order they are emitted. A
raised exception is the `Raised` case of `Try`.

The model keeps these behaviours of the code, which a reader may not expect:

- When a response holds more than one datum, `_one` warns and then builds
  the **first** datum. It does not return nothing (`One`).
- An empty page does **not** end paging. Paging ends only when the page
  index passes the last page computed from `responseSize` (`TwoPageScenario`
  shows the request that follows).
- `Dependency` checks its kind against "version", as written.
- `get_comments` requests the endpoint spelled "commments", as written.

## Model

| member | source | states |
|---|---|---|
| Json.Truthy | wrike/models.py:116 | the falsy values of `data if data else []` are exactly `None`, `False`, `0`, `""`, `[]` and `{}` |
| Json.Str | wrike/models.py:112-114 | `str()` keeps a string as it is, and renders an int as a numeral that `int()` parses back to it |
| Json.ParseInt | wrike/models.py:115 | `int()` of a string succeeds exactly on an optionally signed, non-empty run of ASCII digits, and gives a negative value only after `-` |
| Json.NatToDecimal | wrike/models.py:112-115 | `str()` of a non-negative int is a non-empty run of digits with no leading zero; it is "0" exactly for 0 |
| Json.ToInt | wrike/models.py:115 | `int()` of an int is that int. It raises exactly for a string that is not an optionally signed run of digits, and for None, lists and objects |
| Json.ParseDecimal | wrike/models.py:112-115 | the numeral `str()` renders for any int parses back to that int |
| Json.IntRoundTrip | wrike/models.py:112-115 | `int(str(i)) == i` for every int, so an integer `responseSize` survives rendering and parsing |
| Models.Shared | wrike/models.py:118-123 | the shared mapping has exactly the keys `kind`, `state`, `next_page_token` and `response_size`, holding the envelope's values |
| Models.Flatten | wrike/models.py:117-126 | one item per raw item, in order. Each item's keys are the shared keys plus its own. Its own values win, and the shared values fill the rest |
| Models.ItemsOf | wrike/models.py:116-126 | falsy `data` gives no items. A list of objects gives their fields, in order. Anything else raises, and exactly then |
| Models.NewResult | wrike/models.py:70-127 | the body (falsy means `{}`) is normalised: `kind`, `state` and `nextPageToken` through `str()` with default "", and `responseSize` through `int()` with default 0. The items are `data` flattened over them, and every other top-level key is kept as an extra. It raises exactly when the body is truthy but not an object, has a `self` key, or has a bad `responseSize` or `data` |
| Models.EnvelopeDefaults | wrike/models.py:90-116 | a body without envelope fields gives `kind`, `state` and token "", size 0 and no items |
| Models.FlattenedItems | wrike/models.py:117-126 | for an object body with a `data` list, item `i` keeps every key of raw item `i`. It takes the envelope's value for each of the four shared keys it lacks |
| Models.NewHeaderAsWritten | wrike/models.py:164-168 | as written: a kind mismatch raises `NameError` (KindWarning is not imported), so every header it returns has a matching kind |
| Models.NewHeader | wrike/models.py:137-168 | the header keeps the four values given, with defaults "" and 0 when absent. It warns `KindWarning(str(kind), expected)` exactly when the kind is not the expected one. It raises only when `expected_kind` is passed twice |
| Models.KindMismatchRaisesAsWritten | wrike/models.py:164-168 | a "folders" item decoded as "tasks" raises `NameError` as written, but only warns as intended |
| Models.HeaderAgreesOnMatch | wrike/models.py:159-168 | when the kinds match, the as-written and intended headers agree, with no warning |
| Models.ExpectedKind | wrike/models.py:171-295 | the kind each class passes to `Method.__init__` is "version", "comments" or "tasks", and it is "version" exactly for `Version` and `Dependency` |
| Models.Required | wrike/models.py:175-294 | each class's parameters without defaults, in declaration order: no name repeats, and none also has a default |
| Models.Optional | wrike/models.py:261-265 | only `Task` has parameters with defaults, and every default is `None` or "" |
| Models.Bind | wrike/models.py:251-268 | keyword binding of `Cls(**d)` raises only `TypeError`, and the header it builds expects the class's kind. Its failures and round trip are stated by `BindFailsIff` and `BindRoundTrip` |
| Models.Decode | wrike/models.py:171-301 | `Version`/`Comment`/`Task`/`Dependency(**d)` raises only `TypeError`, and builds an entity of that class expecting the class's kind. Its failures and round trip are stated by `DecodeFailsIff` and `DecodeRoundTrip` |
| Models.ParamsDisjoint | wrike/models.py:171-301 | no entity constructor names `self` or a parameter of `Method.__init__` |
| Models.BindFailsIff | wrike/models.py:251-268 | binding `Cls(**d)` fails exactly when `d` has `self` or `expected_kind`, or lacks a required parameter |
| Models.DecodeFailsIff | wrike/models.py:171-301 | `Version`/`Comment`/`Task`/`Dependency(**d)` raises exactly when `d` has `self` or `expected_kind`, or lacks one of the class's required parameters. A kind mismatch never rejects |
| Models.BindRoundTrip | wrike/models.py:251-282 | after binding, every keyword argument reads back unchanged from the header, the named fields or the extras. Absent defaulted parameters hold their defaults, and extras are exactly the unrecognised keys |
| Models.DecodeRoundTrip | wrike/models.py:171-301 | a decoded entity's attributes give back every key of its item unchanged, and its named fields are exactly the class's parameters. The kind warning is emitted exactly on a kind mismatch |
| Paging.CeilDiv | wrike/api.py:44 | `ceil(n / d)` for positive operands: at least 1, with `(q-1)*d < n <= q*d` |
| Paging.LastAfter | wrike/api.py:42-44 | `last_page` after `n` replies is never negative, and it is 0 exactly when none of those replies reported a positive `responseSize` |
| Paging.Start | wrike/api.py:30-34 | the fresh generator has sent nothing and yielded nothing, with `amt_yielded`, `curr_page` and `last_page` 0 and `ep_params` `{"pageSize": page_size}` |
| Paging.Received | wrike/api.py:41-45 | taking in a reply keeps the configuration, the backend, the requests sent and the items yielded. Its effect on the cursor is stated by `CursorNext` and `ReplyInv` |
| Paging.CursorNext | wrike/api.py:41-45 | after successful reply `n`, `curr_page` is `n + 1`, `last_page` is recomputed from a positive `responseSize` and kept otherwise, and `ep_params` carries the reply's token |
| Paging.PositionNext | wrike/api.py:48 | after reply `n`, the `for` loop stands at the start of that reply's data, with every earlier item yielded |
| Paging.StepEmit | wrike/api.py:48-49 | yielding the next item keeps the configuration and the backend. What it yields is stated by `EmitInv`, `StepAdvances` and `Pager.Emit`, and what it raises by `EmitRaises` |
| Paging.StepFetch | wrike/api.py:37-48 | the paging loop keeps the configuration and the backend. Its effect is stated by `FetchInv`, `FetchAdvances`, `FetchStopComplete` and `Pager.Fetch`, and what it raises by `FetchRaises` |
| Paging.Step | wrike/api.py:27-53 | one `next()` keeps the configuration and the backend. Its effect is stated by `StepInv`, `StepAdvances`, `StopIsComplete` and `Pager.Next`, and what it raises by `StepRaises` |
| Paging.StartInv | wrike/api.py:30-34 | the fresh generator (page 0, last page 0, `{"pageSize": page_size}`) satisfies the generator invariant |
| Paging.EmitInv | wrike/api.py:48-49 | yielding an item keeps the invariant |
| Paging.RequestInv | wrike/api.py:37-38 | a request issued from the loop head carries the page size and the previous page's token. It is issued only while within the last page, and all earlier items were yielded |
| Paging.ReplyInv | wrike/api.py:41-45 | taking in a successful reply records its token, sets `last_page` from a positive `responseSize`, advances `curr_page` and keeps the invariant |
| Paging.FetchInv | wrike/api.py:37-49 | the paging loop keeps the invariant |
| Paging.StepInv | wrike/api.py:27-53 | every `next()` keeps the invariant |
| Paging.FetchAdvances | wrike/api.py:37-49 | the paging loop only appends requests. It either yields the entity built from the next item, or ends the generator without yielding |
| Paging.StepAdvances | wrike/api.py:27-53 | from any state, a pull only appends requests. It either yields the entity built from exactly one more item, or ends the generator |
| Paging.EmitRaises | wrike/api.py:48-49 | building the next datum sends no request, and fails only with the exception the constructor raised for that datum |
| Paging.FetchRaises | wrike/api.py:37-49 | the paging loop fails only with the adapter's exception for its last request (`NoMoreReplies` past the end of the backend) or the constructor's exception for the datum it took. If it does not fail, every reply it received was a success |
| Paging.StepRaises | wrike/api.py:27-53 | every `next()` fails only with the adapter's exception for its last request or the constructor's exception for the datum just taken, and propagates it unchanged. A pull that does not fail received only successful replies |
| Paging.FetchStopComplete | wrike/api.py:37-53 | when the loop ends normally, every item of every fetched page has been yielded and the page index has passed the last page |
| Paging.StopIsComplete | wrike/api.py:37-53 | a normal end means either `max_amt` items were yielded, or every fetched item was yielded and the last reported page was reached |
| Paging.CapEndsWithoutRequest | wrike/api.py:50-53 | the pull after the `max_amt`-th yield ends the sequence without another request, with exactly `max(max_amt, 1)` items yielded |
| Paging.OneRequestWithoutSizes | wrike/api.py:42-44 | a backend that never reports a positive `responseSize` receives at most one request |
| Paging.TwoPageScenario | tests/test_wrike.py:81-140 | page size 3, a 3-item first page reporting size 1, then an empty page: the run yields the three items and then stops, after two requests. The second request carries the first token |
| Paging.CappedScenario | wrike/api.py:50-53 | with `max_amt` 2 the same first page yields two items and stops after one request |
| Paging.NonPositiveCapScenario | wrike/api.py:48-53 | a `max_amt` of 0 or less still yields the first item, then stops |
| Paging.PullsInv | wrike/api.py:27-53 | any number of pulls keeps the invariant |
| Paging.PullsYield | wrike/api.py:48-49 | what a run of pulls yields is the entities built from the items it consumed, in order |
| Paging.PagingContract | wrike/api.py:27-53 | after any number of pulls from a fresh generator, the yields are the entities of the fetched items in backend order, with no item skipped or repeated (every page but the latest in full). There are at most `max(max_amt, 1)` of them. Request `i` carried the page size and reply `i-1`'s token, and a later request was issued only within the last page reported so far |
| Paging.Pager.constructor | wrike/api.py:27-34 | calling `_page` runs nothing: the state is the fresh generator, which satisfies the invariant |
| Paging.Pager.Emit | wrike/api.py:48-49 | yields `page[pos]` or fails with the constructor's exception, exactly as `StepEmit` |
| Paging.Pager.Receive | wrike/api.py:41-47 | the token, `last_page`, `curr_page` and page updates after a successful reply |
| Paging.Pager.Fetch | wrike/api.py:37-49 | the `while` loop with its invariant, equal to `StepFetch` on the state |
| Paging.Pager.Advance | wrike/api.py:48-53 | the resume after a `yield` (count, cap check with `last_page = 0`) and the rest of `next()`, equal to `Step` |
| Paging.Pager.Next | wrike/api.py:27-53 | `next()` keeps the generator invariant and is `Step` on the state |
| Api.One | wrike/api.py:55-75 | no data: `ZeroWarning` and None. Otherwise it builds the first datum, and raises only if building it raises. With more than one datum, `GreaterThanOneWarning` comes first, before the entity's own warnings |
| Api.OneReadsFirstOnly | wrike/api.py:55-75 | `_one`'s outcome depends only on the first datum, however many follow |
| Api.BuiltPrefix | wrike/api.py:84 | the number of leading data that build: every datum before it builds, and the datum at it, if any, raises |
| Api.DecodeAll | wrike/api.py:84 | the list comprehension succeeds exactly when every datum builds, and then holds each datum's entity in order. Otherwise it raises the exception of the first datum that fails. Either way its warnings are those of the data built before the end, in order |
| Api.DecodeAllIsDecoded | wrike/api.py:84 | the unpaged list is exactly what the paged generator yields from the same items |
| Api.ListOf | wrike/api.py:103-104 | an adapter exception propagates with no warning. Otherwise the list is what the paged generator yields from the same data, and it raises the first failing datum's exception exactly when some datum fails. The warnings are those of the data built before that, in order |
| Api.OneOf | wrike/api.py:95-96 | an adapter exception propagates with no warning. Otherwise the result and the warnings are `One`'s over the response |
| Api.GetTasks | wrike/api.py:82-92 | one `tasks` request with no parameters. It returns every task in order, and raises exactly when the adapter raises or some datum fails. Its warnings are the tasks' own, followed by `DataCappedWarning` when the list holds exactly 1000 tasks |
| Api.CapWarningIff | wrike/api.py:85-91 | `DataCappedWarning` is emitted exactly when the list holds exactly 1000 tasks, and then last |
| Api.GetTask | wrike/api.py:94-97 | `_one` over the reply to `tasks` with no parameters |
| Api.GetTaskScenario | tests/test_wrike.py:12-33 | a `tasks` response with one complete task gives that task, with no warning when its kind is "tasks" |
| Api.GetComments | wrike/api.py:102-105 | one request to "commments". It returns every comment in order, and raises exactly when the adapter raises or some datum fails. Its warnings are those of the comments built, as `ListOf` states |
| Api.GetVersion | wrike/api.py:107-110 | `_one` over the reply to `version` with no parameters |
| Api.GetTasksPaged | wrike/api.py:99-100 | a fresh task generator over `tasks`, with `max_amt` 1000 unless given, and the client's default `page_size` of 1000 |

## Left out

- The REST adapter (wrike/rest_adapter.py) and HTTP are not part of this model. The backend is a function from request to reply, or the sequence of replies to the paging requests. `NoMoreReplies` is the error for a request past the end of that sequence.
- Response headers and the conversions `int(status_code)` and `str(message)` are left out: the envelope takes an int and a string.
- Models.NewResult: `__dict__.update(kwargs)` lets a body key such as `next_page_token`, `response_size`, `status_code` or `message` replace that attribute after parsing. The model keeps such keys only in `extras`, and the generator reads the parsed token and size.
- Models.Decode: builds the header with the intended `NewHeader`, so a kind mismatch only warns `KindWarning`. The code as written raises `NameError` there (see Findings), and so would `get_task`, `get_tasks`, `get_comments`, `get_version` and the paging generator.
- Models.Decode: an item key such as `_expected_kind` that replaces a private attribute through `__dict__.update(kwargs)` is kept in `extras` only.
- Json.Str: `str()` of a list or object (Python's `repr`) is a fixed stand-in. JSON floats are not modelled.
- Json.ParseInt: `int()` also accepts surrounding whitespace, underscores between digits, and non-ASCII decimal digits such as "٣"; the model rejects them.
- Paging.CeilDiv: `math.ceil` of a float division is modelled as exact integer ceiling division. The two differ only for sizes beyond 2^53.
- Paging.Pager.constructor: requires a positive page size. With a page size of 0, Python raises `ZeroDivisionError` at the first positive `responseSize`. With a negative one, it computes a last page of 0 or below.
- `ep_params` is one dictionary mutated between requests. A request records its parameters' values at the time of the call, not the shared object.
- `get_me` is left out: the `Contact` class it builds is not defined in wrike/models.py.
- The `warnings` filters (ignore, error, once) are left out: every warning is returned.
- The enum and `Dates` classes of wrike/models.py are type annotations the constructors never check. Entity fields hold the JSON values as given.

## Findings

| source | as written | input that shows it | evidently intended | confidence | as-written member | corrected member |
|---|---|---|---|---|---|---|
| wrike/models.py:164-168 | the kind check calls `warnings.warn(..., KindWarning)`, but `KindWarning` is never imported into wrike/models.py, so the branch raises `NameError` | an item with `kind` "folders" built as a `Task` (expected kind "tasks") | emit `KindWarning` and build the entity | high (not executed) | Models.NewHeaderAsWritten (shown by Models.KindMismatchRaisesAsWritten) | Models.NewHeader |
