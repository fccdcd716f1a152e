/** `Wrike._page` (wrike/api.py): the cursor-pagination generator. The
    generator's locals (`curr_page`, `last_page`, `amt_yielded`, the shared
    `ep_params` dict and its position in the current page) are the fields of
    class `Pager`, whose `Next` is one `next()` on the generator. The backend
    is the list of replies it gives to successive requests. `Step` is the
    same pull as a function on a snapshot of the state, and the lemmas state
    what the sequence of pulls produces. */
module Paging {
  import opened Signals
  import opened Json
  import opened Models
  import opened Transport

  /** `int(math.ceil(n / d))` for positive operands, in exact arithmetic. */
  function CeilDiv(n: int, d: int): (q: int)
    requires n > 0 && d > 0
    ensures q >= 1
    ensures (q - 1) * d < n <= q * d
  {
    var q := (n + d - 1) / d;
    assert n + d - 1 == d * q + (n + d - 1) % d;
    q
  }

  /** The entity constructor the generator applies to each datum
      (`model(**datum)`). */
  type Constructor = Item -> Try<(Entity, seq<Warning>)>

  /** The most items a caller can receive: at least the first one is always
      yielded, since the cap is checked only after a yield. */
  function Cap(maxAmt: int): int {
    if maxAmt >= 1 then maxAmt else 1
  }

  function DataOf(r: Reply): seq<Item> {
    if r.Ok? then r.value.data else []
  }

  function TokenOf(r: Reply): string {
    if r.Ok? then r.value.nextPageToken else ""
  }

  function SizeOf(r: Reply): int {
    if r.Ok? then r.value.responseSize else 0
  }

  /** The items of the first `n` replies, page after page. */
  function AllData(rs: seq<Reply>, n: nat): seq<Item>
    decreases n
  {
    if n == 0 then []
    else if n > |rs| then AllData(rs, |rs|)
    else AllData(rs, n - 1) + DataOf(rs[n - 1])
  }

  /** The parameters of request `i`: the page size, and from the second
      request on the token of the reply just before. */
  function ParamsFor(pageSize: int, rs: seq<Reply>, i: nat): Object
    requires i <= |rs|
  {
    if i == 0 then map["pageSize" := JInt(pageSize)]
    else map["pageSize" := JInt(pageSize), "nextPageToken" := JStr(TokenOf(rs[i - 1]))]
  }

  /** `last_page` after the first `n` replies: the page count derived from
      the latest reply that reported a positive `responseSize`, else 0. */
  function LastAfter(pageSize: int, rs: seq<Reply>, n: nat): (r: int)
    requires pageSize > 0 && n <= |rs|
    ensures r >= 0
    ensures r == 0 <==> forall i :: 0 <= i < n ==> SizeOf(rs[i]) <= 0
  {
    if n == 0 then 0
    else if SizeOf(rs[n - 1]) > 0 then CeilDiv(SizeOf(rs[n - 1]), pageSize)
    else LastAfter(pageSize, rs, n - 1)
  }

  /** A snapshot of the generator: its configuration, its locals, the
      requests the backend has received, and (for the proofs) the data items
      it has yielded so far. */
  datatype PagerState = PagerState(
    endpoint: string,
    model: Constructor,
    pageSize: int,
    maxAmt: int,
    replies: seq<Reply>,
    sent: seq<Request>,
    params: Object,
    currPage: int,
    lastPage: int,
    amtYielded: int,
    page: seq<Item>,
    pos: nat,
    suspended: bool,
    finished: bool,
    emitted: seq<Item>)

  /** What one `next()` gives: an entity (with the warnings its construction
      emitted), the end of the sequence (`StopIteration`), or an exception. */
  datatype Pull = Yield(entity: Entity, warnings: seq<Warning>) | Stop | Fail(error: PyError)

  /** The generator before its first `next()`. */
  function Start(endpoint: string, model: Constructor, pageSize: int, maxAmt: int, replies: seq<Reply>): (s: PagerState)
    ensures s.params == ParamsFor(pageSize, replies, 0)
    ensures s.sent == [] && s.emitted == [] && s.amtYielded == 0
    ensures s.currPage == 0 && s.lastPage == 0 && !s.suspended && !s.finished
  {
    PagerState(endpoint, model, pageSize, maxAmt, replies, [], map["pageSize" := JInt(pageSize)],
               0, 0, 0, [], 0, false, false, [])
  }

  /** Same configuration and backend. */
  ghost predicate SameSetup(s: PagerState, t: PagerState) {
    t.endpoint == s.endpoint && t.model == s.model && t.pageSize == s.pageSize &&
    t.maxAmt == s.maxAmt && t.replies == s.replies
  }

  /** One iteration of the inner `for` loop: build the entity from the next
      datum and suspend at the `yield`; a constructor that raises ends the
      generator. */
  function StepEmit(s: PagerState): (r: (PagerState, Pull))
    requires s.pos < |s.page|
    ensures SameSetup(s, r.0)
  {
    var d := s.page[s.pos];
    match s.model(d)
    case Raised(e) => (s.(pos := s.pos + 1, finished := true), Fail(e))
    case Ok((ent, w)) => (s.(pos := s.pos + 1, suspended := true, emitted := s.emitted + [d]), Yield(ent, w))
  }

  /** The `while curr_page <= last_page` loop from its condition on:
      request a page, record its token, recompute `last_page`, advance
      `curr_page`, and go on with the page's items. */
  function StepFetch(s: PagerState): (r: (PagerState, Pull))
    requires s.pageSize > 0
    ensures SameSetup(s, r.0)
    decreases if |s.sent| <= |s.replies| then |s.replies| - |s.sent| else 0
  {
    if s.currPage > s.lastPage then (s.(finished := true), Stop)
    else
      var i := |s.sent|;
      var sent := s.sent + [Request(s.endpoint, s.params)];
      if i >= |s.replies| then (s.(sent := sent, finished := true), Fail(NoMoreReplies))
      else match s.replies[i]
        case Raised(e) => (s.(sent := sent, finished := true), Fail(e))
        case Ok(res) =>
          var t := Received(s.(sent := sent), res);
          if 0 < |res.data| then StepEmit(t) else StepFetch(t)
  }

  /** The state after a successful reply `res`: its token recorded,
      `last_page` recomputed from its `responseSize`, `curr_page` advanced,
      and its items about to be iterated. */
  function Received(s: PagerState, res: Result): (t: PagerState)
    requires s.pageSize > 0
    ensures SameSetup(s, t) && t.sent == s.sent && t.emitted == s.emitted
  {
    var last := if res.responseSize > 0 then CeilDiv(res.responseSize, s.pageSize) else s.lastPage;
    s.(params := s.params["nextPageToken" := JStr(res.nextPageToken)],
       lastPage := last, currPage := s.currPage + 1, page := res.data, pos := 0)
  }

  /** One `next()`: resume after the previous `yield` (count it, and break
      out with `last_page = 0` once `max_amt` is reached), then continue the
      current page or fetch the next one. */
  function Step(s: PagerState): (r: (PagerState, Pull))
    requires s.pageSize > 0
    ensures SameSetup(s, r.0)
  {
    if s.finished then (s, Stop)
    else if s.suspended then
      var t := s.(suspended := false, amtYielded := s.amtYielded + 1);
      if t.amtYielded >= t.maxAmt then StepFetch(t.(lastPage := 0))
      else if t.pos < |t.page| then StepEmit(t) else StepFetch(t)
    else if s.pos < |s.page| then StepEmit(s) else StepFetch(s)
  }

  /** The request log: at most one request past the end of the backend;
      request `i` carried `pageSize` and, from the second on, the token of
      reply `i - 1`, which was a success; and request `i > 0` was issued
      only while `i` was at most the last page reported by then. */
  ghost predicate RequestLog(endpoint: string, pageSize: int, rs: seq<Reply>, sent: seq<Request>) {
    && pageSize > 0
    && |sent| <= |rs| + 1
    && (forall i :: 0 <= i < |sent| ==> sent[i] == Request(endpoint, ParamsFor(pageSize, rs, i)))
    && (forall i :: 0 <= i < |sent| - 1 ==> rs[i].Ok?)
    && (forall i :: 0 < i < |sent| ==> i <= LastAfter(pageSize, rs, i))
  }

  /** The items yielded after `n` requests: the fetched pages' items in
      order, every page but the latest in full, each accepted by the
      constructor, and no more than `Cap(maxAmt)` of them. */
  ghost predicate YieldLog(model: Constructor, maxAmt: int, rs: seq<Reply>, n: nat, emitted: seq<Item>) {
    && (n == 0 ==> emitted == [])
    && (n > 0 ==> AllData(rs, n - 1) <= emitted)
    && emitted <= AllData(rs, n)
    && (forall i :: 0 <= i < |emitted| ==> model(emitted[i]).Ok?)
    && |emitted| <= Cap(maxAmt)
  }

  /** `curr_page`, `last_page` and `ep_params` after `n` successful requests. */
  ghost predicate Cursor(pageSize: int, rs: seq<Reply>, n: nat, currPage: int, lastPage: int, params: Object) {
    && pageSize > 0
    && n <= |rs|
    && (forall i :: 0 <= i < n ==> rs[i].Ok?)
    && currPage == n
    && lastPage == LastAfter(pageSize, rs, n)
    && params == ParamsFor(pageSize, rs, n)
  }

  /** The `for` loop's place: `page` holds the latest page's items, and the
      items yielded are the earlier pages' followed by `page[..pos]`. */
  ghost predicate Position(rs: seq<Reply>, n: nat, page: seq<Item>, pos: nat, suspended: bool, emitted: seq<Item>) {
    && n <= |rs|
    && pos <= |page|
    && (n == 0 ==> page == [] && !suspended)
    && (n > 0 ==> page == DataOf(rs[n - 1]) && emitted == AllData(rs, n - 1) + page[..pos])
    && (suspended ==> pos >= 1)
  }

  /** `amt_yielded` counts the yields already resumed, and is below
      `max_amt` unless nothing was yielded yet. */
  ghost predicate Counter(maxAmt: int, amtYielded: int, suspended: bool, emitted: seq<Item>) {
    && amtYielded == |emitted| - (if suspended then 1 else 0)
    && (amtYielded == 0 || amtYielded < maxAmt)
  }

  /** The generator's invariant: the logs always, the locals while alive. */
  ghost predicate Inv(s: PagerState) {
    && RequestLog(s.endpoint, s.pageSize, s.replies, s.sent)
    && YieldLog(s.model, s.maxAmt, s.replies, |s.sent|, s.emitted)
    && (!s.finished ==>
          && Cursor(s.pageSize, s.replies, |s.sent|, s.currPage, s.lastPage, s.params)
          && Position(s.replies, |s.sent|, s.page, s.pos, s.suspended, s.emitted)
          && Counter(s.maxAmt, s.amtYielded, s.suspended, s.emitted))
  }

  /** How one pull changes a state: requests are only appended; a yield
      appends exactly the datum the entity was built from; anything else
      ends the generator and yields nothing. */
  ghost predicate Advances(s: PagerState, t: PagerState, out: Pull) {
    && SameSetup(s, t)
    && s.sent <= t.sent
    && (out.Yield? ==> !t.finished && |t.emitted| == |s.emitted| + 1 && s.emitted <= t.emitted &&
                       s.model(t.emitted[|s.emitted|]) == Ok((out.entity, out.warnings)))
    && (!out.Yield? ==> t.finished && t.emitted == s.emitted)
  }

  /** Where a pull's exception comes from: a pull that fails raises either
      the error the adapter gave for its last request (`NoMoreReplies` past
      the end of the backend), or the error the constructor raised for the
      datum just taken; a pull that does not fail received only successful
      replies. */
  ghost predicate RaisesFrom(s: PagerState, t: PagerState, out: Pull) {
    && (out.Fail? ==>
          || (|s.sent| < |t.sent| &&
              var i := |t.sent| - 1;
              if i < |s.replies| then s.replies[i] == Raised(out.error) else out.error == NoMoreReplies)
          || (0 < t.pos <= |t.page| && s.model(t.page[t.pos - 1]) == Raised(out.error)))
    && (!out.Fail? ==> forall i :: |s.sent| <= i < |t.sent| ==> i < |s.replies| && s.replies[i].Ok?)
  }

  lemma StartInv(endpoint: string, model: Constructor, pageSize: int, maxAmt: int, replies: seq<Reply>)
    requires pageSize > 0
    ensures Inv(Start(endpoint, model, pageSize, maxAmt, replies))
  {
  }

  lemma {:induction false} AllDataStep(rs: seq<Reply>, n: nat)
    requires n < |rs|
    ensures AllData(rs, n + 1) == AllData(rs, n) + DataOf(rs[n])
  {
  }

  lemma {:induction false} TakeOneMore(a: seq<Item>, page: seq<Item>, k: nat)
    requires k < |page|
    ensures a + page[..k + 1] == (a + page[..k]) + [page[k]]
    ensures a + page[..k + 1] <= a + page
  {
    assert page[..k + 1] == page[..k] + [page[k]];
  }

  /** Yielding `page[pos]` keeps the yield log, the position and the counter. */
  lemma {:induction false} EmitKeeps(model: Constructor, maxAmt: int, rs: seq<Reply>, n: nat,
                                     page: seq<Item>, pos: nat, amtYielded: int, emitted: seq<Item>)
    requires YieldLog(model, maxAmt, rs, n, emitted) && Counter(maxAmt, amtYielded, false, emitted)
    requires Position(rs, n, page, pos, false, emitted) && pos < |page| && model(page[pos]).Ok?
    ensures YieldLog(model, maxAmt, rs, n, emitted + [page[pos]])
    ensures Position(rs, n, page, pos + 1, true, emitted + [page[pos]])
    ensures Counter(maxAmt, amtYielded, true, emitted + [page[pos]])
  {
    AllDataStep(rs, n - 1);
    TakeOneMore(AllData(rs, n - 1), page, pos);
  }

  lemma {:induction false} EmitInv(s: PagerState)
    requires Inv(s) && !s.finished && !s.suspended && s.pos < |s.page|
    ensures Inv(StepEmit(s).0)
  {
    if s.model(s.page[s.pos]).Ok? {
      EmitKeeps(s.model, s.maxAmt, s.replies, |s.sent|, s.page, s.pos, s.amtYielded, s.emitted);
    }
  }

  lemma {:induction false} RequestLogAppend(endpoint: string, pageSize: int, rs: seq<Reply>, sent: seq<Request>, params: Object)
    requires RequestLog(endpoint, pageSize, rs, sent)
    requires |sent| <= |rs| && forall i :: 0 <= i < |sent| ==> rs[i].Ok?
    requires params == ParamsFor(pageSize, rs, |sent|)
    requires |sent| == 0 || |sent| <= LastAfter(pageSize, rs, |sent|)
    ensures RequestLog(endpoint, pageSize, rs, sent + [Request(endpoint, params)])
  {
    var sent' := sent + [Request(endpoint, params)];
    forall i | 0 <= i < |sent'|
      ensures sent'[i] == Request(endpoint, ParamsFor(pageSize, rs, i))
    {
      if i < |sent| {
        assert sent'[i] == sent[i];
      }
    }
  }

  lemma {:induction false} YieldLogNextPage(model: Constructor, maxAmt: int, rs: seq<Reply>, n: nat, emitted: seq<Item>)
    requires YieldLog(model, maxAmt, rs, n, emitted)
    requires n <= |rs| && emitted == AllData(rs, n)
    ensures YieldLog(model, maxAmt, rs, n + 1, emitted)
  {
    if n < |rs| {
      AllDataStep(rs, n);
    }
  }

  /** At a page boundary the items yielded are exactly the fetched pages' items. */
  lemma {:induction false} PageDone(rs: seq<Reply>, n: nat, page: seq<Item>, emitted: seq<Item>)
    requires 0 < n <= |rs| && page == DataOf(rs[n - 1])
    requires emitted == AllData(rs, n - 1) + page[..|page|]
    ensures emitted == AllData(rs, n)
  {
    AllDataStep(rs, n - 1);
    assert page[..|page|] == page;
  }

  lemma {:induction false} ParamsForNext(pageSize: int, rs: seq<Reply>, n: nat, params: Object)
    requires n < |rs| && params == ParamsFor(pageSize, rs, n)
    ensures params["nextPageToken" := JStr(TokenOf(rs[n]))] == ParamsFor(pageSize, rs, n + 1)
  {
  }

  /** Issuing request `|sent|` from the loop head keeps the logs. */
  lemma {:induction false} RequestInv(s: PagerState)
    requires Inv(s) && !s.finished && !s.suspended && s.pos == |s.page| && s.currPage <= s.lastPage
    ensures var n := |s.sent|;
      && s.emitted == AllData(s.replies, n)
      && RequestLog(s.endpoint, s.pageSize, s.replies, s.sent + [Request(s.endpoint, s.params)])
      && YieldLog(s.model, s.maxAmt, s.replies, n + 1, s.emitted)
  {
    var n := |s.sent|;
    if n > 0 {
      PageDone(s.replies, n, s.page, s.emitted);
    }
    RequestLogAppend(s.endpoint, s.pageSize, s.replies, s.sent, s.params);
    YieldLogNextPage(s.model, s.maxAmt, s.replies, n, s.emitted);
  }

  /** A successful reply to request `|sent|` leaves the generator in a state
      that satisfies the invariant, at the start of the new page. */
  lemma {:induction false} ReplyInv(s: PagerState)
    requires Inv(s) && !s.finished && !s.suspended && s.pos == |s.page| && s.currPage <= s.lastPage
    requires |s.sent| < |s.replies| && s.replies[|s.sent|].Ok?
    ensures Inv(Received(s.(sent := s.sent + [Request(s.endpoint, s.params)]), s.replies[|s.sent|].value))
  {
    var n := |s.sent|;
    RequestInv(s);
    CursorNext(s.pageSize, s.replies, n, s.currPage, s.lastPage, s.params);
    PositionNext(s.replies, n, s.emitted);
  }

  /** A successful reply `n` moves the cursor to page `n + 1`. */
  lemma {:induction false} CursorNext(pageSize: int, rs: seq<Reply>, n: nat, currPage: int, lastPage: int, params: Object)
    requires Cursor(pageSize, rs, n, currPage, lastPage, params) && n < |rs| && rs[n].Ok?
    ensures var res := rs[n].value;
      Cursor(pageSize, rs, n + 1, currPage + 1,
             if res.responseSize > 0 then CeilDiv(res.responseSize, pageSize) else lastPage,
             params["nextPageToken" := JStr(res.nextPageToken)])
  {
    ParamsForNext(pageSize, rs, n, params);
  }

  /** After reply `n`, the loop stands at the start of its page. */
  lemma {:induction false} PositionNext(rs: seq<Reply>, n: nat, emitted: seq<Item>)
    requires n < |rs| && rs[n].Ok? && emitted == AllData(rs, n)
    ensures Position(rs, n + 1, rs[n].value.data, 0, false, emitted)
  {
    assert rs[n].value.data[..0] == [];
  }

  lemma {:induction false} FetchInv(s: PagerState)
    requires Inv(s) && !s.finished && !s.suspended && s.pos == |s.page|
    ensures Inv(StepFetch(s).0)
    decreases if |s.sent| <= |s.replies| then |s.replies| - |s.sent| else 0
  {
    var n := |s.sent|;
    if s.currPage <= s.lastPage {
      RequestInv(s);
      var sent := s.sent + [Request(s.endpoint, s.params)];
      if n < |s.replies| && s.replies[n].Ok? {
        ReplyInv(s);
        var res := s.replies[n].value;
        var t := Received(s.(sent := sent), res);
        if 0 < |res.data| {
          assert StepFetch(s) == StepEmit(t);
          EmitInv(t);
        } else {
          assert StepFetch(s) == StepFetch(t);
          FetchInv(t);
        }
      } else {
        assert StepFetch(s).0 == s.(sent := sent, finished := true);
      }
    }
  }

  /** Every pull keeps the invariant. */
  lemma {:induction false} StepInv(s: PagerState)
    requires Inv(s)
    ensures Inv(Step(s).0)
    ensures s.finished ==> Step(s) == (s, Stop)
  {
    if s.finished {
    } else if s.suspended {
      var t := s.(suspended := false, amtYielded := s.amtYielded + 1);
      if t.amtYielded >= t.maxAmt {
        assert t.currPage >= 1;
      } else {
        assert Inv(t);
        if t.pos < |t.page| {
          EmitInv(t);
        } else {
          FetchInv(t);
        }
      }
    } else if s.pos < |s.page| {
      EmitInv(s);
    } else {
      FetchInv(s);
    }
  }

  lemma {:induction false} FetchAdvances(s: PagerState)
    requires s.pageSize > 0 && !s.finished
    ensures Advances(s, StepFetch(s).0, StepFetch(s).1)
    decreases if |s.sent| <= |s.replies| then |s.replies| - |s.sent| else 0
  {
    if s.currPage <= s.lastPage && |s.sent| < |s.replies| && s.replies[|s.sent|].Ok? {
      var res := s.replies[|s.sent|].value;
      var t := Received(s.(sent := s.sent + [Request(s.endpoint, s.params)]), res);
      if |res.data| == 0 {
        FetchAdvances(t);
      }
    }
  }

  /** Building the next datum fails only with the constructor's exception,
      and sends nothing. */
  lemma EmitRaises(s: PagerState)
    requires s.pos < |s.page|
    ensures RaisesFrom(s, StepEmit(s).0, StepEmit(s).1)
  {
    var r := StepEmit(s);
    assert r.0.sent == s.sent && r.0.page == s.page && r.0.pos == s.pos + 1;
  }

  /** `RaisesFrom` reads only the requests, the backend and the constructor. */
  lemma RaisesSameStart(s: PagerState, s': PagerState, t: PagerState, out: Pull)
    requires s.sent == s'.sent && s.replies == s'.replies && s.model == s'.model
    requires RaisesFrom(s', t, out)
    ensures RaisesFrom(s, t, out)
  {
  }

  /** A pull that first took in a successful reply fails as the rest of it does. */
  lemma RaisesAfterReply(s: PagerState, s': PagerState, t: PagerState, out: Pull)
    requires s'.sent == s.sent + [Request(s.endpoint, s.params)] && s.replies == s'.replies && s.model == s'.model
    requires |s.sent| < |s.replies| && s.replies[|s.sent|].Ok?
    requires s'.sent <= t.sent && RaisesFrom(s', t, out)
    ensures RaisesFrom(s, t, out)
  {
  }

  /** The paging loop fails only with the adapter's exception for its last
      request or the constructor's exception for the datum it took. */
  lemma {:induction false} FetchRaises(s: PagerState)
    requires s.pageSize > 0 && !s.finished
    ensures RaisesFrom(s, StepFetch(s).0, StepFetch(s).1)
    decreases if |s.sent| <= |s.replies| then |s.replies| - |s.sent| else 0
  {
    var i := |s.sent|;
    var sent := s.sent + [Request(s.endpoint, s.params)];
    if s.currPage > s.lastPage {
      assert StepFetch(s) == (s.(finished := true), Stop);
    } else if i >= |s.replies| {
      assert StepFetch(s) == (s.(sent := sent, finished := true), Fail(NoMoreReplies));
    } else if s.replies[i].Raised? {
      assert StepFetch(s) == (s.(sent := sent, finished := true), Fail(s.replies[i].error));
    } else {
      var res := s.replies[i].value;
      var t := Received(s.(sent := sent), res);
      if |res.data| == 0 {
        assert StepFetch(s) == StepFetch(t);
        FetchRaises(t);
        FetchAdvances(t);
        RaisesAfterReply(s, t, StepFetch(t).0, StepFetch(t).1);
      } else {
        assert StepFetch(s) == StepEmit(t);
        EmitRaises(t);
        assert StepEmit(t).0.sent == t.sent;
        RaisesAfterReply(s, t, StepEmit(t).0, StepEmit(t).1);
      }
    }
  }

  /** Every pull fails only with the adapter's exception for its last
      request or the constructor's exception for the datum it took, and a
      pull that does not fail saw only successful replies. */
  lemma {:induction false} StepRaises(s: PagerState)
    requires s.pageSize > 0
    ensures RaisesFrom(s, Step(s).0, Step(s).1)
  {
    if s.finished {
      assert Step(s) == (s, Stop);
    } else if s.suspended {
      var t := s.(suspended := false, amtYielded := s.amtYielded + 1);
      if t.amtYielded >= t.maxAmt {
        var u := t.(lastPage := 0);
        assert Step(s) == StepFetch(u);
        FetchRaises(u);
        RaisesSameStart(s, u, StepFetch(u).0, StepFetch(u).1);
      } else if t.pos < |t.page| {
        assert Step(s) == StepEmit(t);
        EmitRaises(t);
        RaisesSameStart(s, t, StepEmit(t).0, StepEmit(t).1);
      } else {
        assert Step(s) == StepFetch(t);
        FetchRaises(t);
        RaisesSameStart(s, t, StepFetch(t).0, StepFetch(t).1);
      }
    } else if s.pos < |s.page| {
      EmitRaises(s);
    } else {
      FetchRaises(s);
    }
  }

  /** Every pull, from any state, only extends the request log, and either
      yields the entity built from one more item or ends the generator. */
  lemma {:induction false} StepAdvances(s: PagerState)
    requires s.pageSize > 0
    ensures Advances(s, Step(s).0, Step(s).1)
  {
    if !s.finished {
      if s.suspended {
        var t := s.(suspended := false, amtYielded := s.amtYielded + 1);
        if t.amtYielded >= t.maxAmt {
          FetchAdvances(t.(lastPage := 0));
        } else if t.pos >= |t.page| {
          FetchAdvances(t);
        }
      } else if s.pos >= |s.page| {
        FetchAdvances(s);
      }
    }
  }

  lemma {:induction false} FetchStopComplete(s: PagerState)
    requires Inv(s) && !s.finished && !s.suspended && s.pos == |s.page|
    requires StepFetch(s).1 == Stop
    ensures var t := StepFetch(s).0;
      && t.emitted == AllData(s.replies, |t.sent|)
      && |t.sent| <= |s.replies| && |t.sent| > LastAfter(s.pageSize, s.replies, |t.sent|)
    decreases if |s.sent| <= |s.replies| then |s.replies| - |s.sent| else 0
  {
    var n := |s.sent|;
    if s.currPage <= s.lastPage {
      RequestInv(s);
      ReplyInv(s);
      var res := s.replies[n].value;
      var t := Received(s.(sent := s.sent + [Request(s.endpoint, s.params)]), res);
      assert StepFetch(s) == StepFetch(t);
      FetchStopComplete(t);
    } else if n > 0 {
      PageDone(s.replies, n, s.page, s.emitted);
    }
  }

  /** A generator that stops without an error has yielded every item of
      every page it fetched, and the last page count reported was reached,
      unless it stopped because `max_amt` items had been yielded. */
  lemma {:induction false} StopIsComplete(s: PagerState)
    requires Inv(s) && !s.finished && Step(s).1 == Stop
    ensures var t := Step(s).0;
      || |t.emitted| == Cap(s.maxAmt)
      || (&& t.emitted == AllData(s.replies, |t.sent|)
          && |t.sent| <= |s.replies| && |t.sent| > LastAfter(s.pageSize, s.replies, |t.sent|))
  {
    if s.suspended && s.amtYielded + 1 >= s.maxAmt {
      CapEndsWithoutRequest(s);
    } else if s.suspended {
      var t := s.(suspended := false, amtYielded := s.amtYielded + 1);
      FetchStopComplete(t);
    } else {
      FetchStopComplete(s);
    }
  }

  /** A Yield of what `model` builds from `d`. */
  function YieldOf(model: Constructor, d: Item): Pull
    requires model(d).Ok?
  {
    Yield(model(d).value.0, model(d).value.1)
  }

  /** Pages of size 3: a first reply holding three items and reporting
      `responseSize` 1 (one page), then an empty second page. The generator
      yields the three items, requests the second page with the first
      page's token (since `curr_page` 1 is still at most `last_page` 1), and
      then stops. */
  lemma TwoPageScenario(endpoint: string, model: Constructor, a: Item, b: Item, c: Item, r1: Result, r2: Result)
    requires r1.data == [a, b, c] && r1.responseSize == 1 && r2.data == [] && r2.responseSize == 0
    requires model(a).Ok? && model(b).Ok? && model(c).Ok?
    ensures var run := Pulls(Start(endpoint, model, 3, 1000, [Ok(r1), Ok(r2)]), 4);
      && run.1 == [YieldOf(model, a), YieldOf(model, b), YieldOf(model, c), Stop]
      && run.0.sent == [Request(endpoint, map["pageSize" := JInt(3)]),
                        Request(endpoint, map["pageSize" := JInt(3), "nextPageToken" := JStr(r1.nextPageToken)])]
  {
    var s0 := Start(endpoint, model, 3, 1000, [Ok(r1), Ok(r2)]);
    var s1 := Step(s0).0;
    var s2 := Step(s1).0;
    var s3 := Step(s2).0;
    assert Step(s0).1 == YieldOf(model, a);
    assert Step(s1).1 == YieldOf(model, b);
    assert Step(s2).1 == YieldOf(model, c);
    assert CeilDiv(1, 3) == 1;
    assert s3.currPage == 1 && s3.lastPage == 1 && s3.pos == 3 && s3.suspended && |s3.sent| == 1;
    var t := Received(s3.(suspended := false, amtYielded := 3, sent := s3.sent + [Request(endpoint, s3.params)]), r2);
    assert Step(s3) == StepFetch(t);
    assert Step(s3).1 == Stop;
  }

  /** With `max_amt` 2 the same first page gives two items and the
      generator stops without requesting another page. */
  lemma CappedScenario(endpoint: string, model: Constructor, a: Item, b: Item, c: Item, r1: Result, rest: seq<Reply>)
    requires r1.data == [a, b, c] && r1.responseSize == 1
    requires model(a).Ok? && model(b).Ok?
    ensures var run := Pulls(Start(endpoint, model, 3, 2, [Ok(r1)] + rest), 3);
      && run.1 == [YieldOf(model, a), YieldOf(model, b), Stop]
      && run.0.sent == [Request(endpoint, map["pageSize" := JInt(3)])]
  {
    var s0 := Start(endpoint, model, 3, 2, [Ok(r1)] + rest);
    var s1 := Step(s0).0;
    var s2 := Step(s1).0;
    assert Step(s0).1 == YieldOf(model, a);
    assert Step(s1).1 == YieldOf(model, b);
    assert s2.currPage == 1 && s2.amtYielded == 1 && s2.suspended;
    assert Step(s2).1 == Stop;
  }

  /** A `max_amt` of zero or less still yields the first item: the count
      is only checked after a `yield`. */
  lemma NonPositiveCapScenario(endpoint: string, model: Constructor, pageSize: int, maxAmt: int, d: Item, r1: Result, rest: seq<Reply>)
    requires pageSize > 0 && maxAmt <= 0 && |r1.data| > 0 && r1.data[0] == d && model(d).Ok?
    ensures var run := Pulls(Start(endpoint, model, pageSize, maxAmt, [Ok(r1)] + rest), 2);
      && run.1 == [YieldOf(model, d), Stop]
      && |run.0.sent| == 1
  {
    var s0 := Start(endpoint, model, pageSize, maxAmt, [Ok(r1)] + rest);
    var s1 := Step(s0).0;
    assert Step(s0).1 == YieldOf(model, d);
    assert s1.currPage == 1 && s1.suspended;
  }

  /** Once the `max_amt`-th item has been yielded, the next pull ends the
      sequence without another request. */
  lemma {:induction false} CapEndsWithoutRequest(s: PagerState)
    requires Inv(s) && !s.finished && s.suspended && s.amtYielded + 1 >= s.maxAmt
    ensures Step(s).1 == Stop && Step(s).0.finished
    ensures Step(s).0.sent == s.sent && |s.emitted| == Cap(s.maxAmt)
  {
    var t := s.(suspended := false, amtYielded := s.amtYielded + 1, lastPage := 0);
    assert t.currPage >= 1;
    assert StepFetch(t) == (t.(finished := true), Stop);
  }

  lemma {:induction false} LastAfterWithoutSizes(pageSize: int, rs: seq<Reply>, n: nat)
    requires pageSize > 0 && n <= |rs|
    requires forall i :: 0 <= i < |rs| ==> SizeOf(rs[i]) <= 0
    ensures LastAfter(pageSize, rs, n) == 0
    decreases n
  {
    if n > 0 {
      LastAfterWithoutSizes(pageSize, rs, n - 1);
    }
  }

  /** A backend that never reports a positive `responseSize` gets at most one
      request, however many pulls are made: `last_page` stays 0, so an empty
      or a full page alike ends the loop after the first request. */
  lemma {:induction false} OneRequestWithoutSizes(s: PagerState)
    requires Inv(s)
    requires forall i :: 0 <= i < |s.replies| ==> SizeOf(s.replies[i]) <= 0
    ensures |s.sent| <= 1
  {
    LastAfterWithoutSizes(s.pageSize, s.replies, if |s.replies| > 0 then 1 else 0);
  }

  /** `n` successive pulls and what they gave. */
  function Pulls(s: PagerState, n: nat): (r: (PagerState, seq<Pull>))
    requires s.pageSize > 0
    ensures SameSetup(s, r.0) && |r.1| == n
    decreases n
  {
    if n == 0 then (s, [])
    else
      var step := Step(s);
      var rest := Pulls(step.0, n - 1);
      (rest.0, [step.1] + rest.1)
  }

  /** The entities among a sequence of pulls, in order. */
  function Yields(outs: seq<Pull>): seq<Entity> {
    if outs == [] then []
    else (if outs[0].Yield? then [outs[0].entity] else []) + Yields(outs[1..])
  }

  /** The entities built from a sequence of data items. */
  function Decoded(model: Constructor, items: seq<Item>): seq<Entity> {
    if items == [] then []
    else (if model(items[0]).Ok? then [model(items[0]).value.0] else []) + Decoded(model, items[1..])
  }

  lemma {:induction false} DecodedAppend(model: Constructor, items: seq<Item>, d: Item)
    requires model(d).Ok?
    ensures Decoded(model, items + [d]) == Decoded(model, items) + [model(d).value.0]
    decreases |items|
  {
    if items != [] {
      assert (items + [d])[1..] == items[1..] + [d];
      DecodedAppend(model, items[1..], d);
    }
  }

  lemma {:induction false} YieldsCons(out: Pull, outs: seq<Pull>)
    ensures Yields([out] + outs) == (if out.Yield? then [out.entity] else []) + Yields(outs)
  {
    assert ([out] + outs)[1..] == outs;
  }

  lemma {:induction false} PullsInv(s: PagerState, n: nat)
    requires Inv(s)
    ensures Inv(Pulls(s, n).0)
    decreases n
  {
    if n > 0 {
      StepInv(s);
      PullsInv(Step(s).0, n - 1);
    }
  }

  /** What `n` pulls yield are the entities built from the items they
      consumed, in order. */
  lemma {:induction false} PullsYield(s: PagerState, n: nat)
    requires s.pageSize > 0
    ensures Decoded(s.model, s.emitted) + Yields(Pulls(s, n).1) == Decoded(s.model, Pulls(s, n).0.emitted)
    decreases n
  {
    if n > 0 {
      StepAdvances(s);
      var t := Step(s).0;
      var out := Step(s).1;
      PullsYield(t, n - 1);
      YieldsCons(out, Pulls(t, n - 1).1);
      if out.Yield? {
        var d := t.emitted[|s.emitted|];
        assert t.emitted == s.emitted + [d];
        DecodedAppend(s.model, s.emitted, d);
      }
    }
  }

  /** The paging contract: after any number of pulls from a fresh generator,
      the entities yielded are those built from the fetched pages' items in
      backend order, pages in request order, with no item skipped or
      repeated (every page but the latest in full), at most `Cap(maxAmt)` of
      them; request `i` carried `pageSize` and, from the second on, the token
      of reply `i - 1`; and a later request was issued only while its page
      index was at most the last page reported so far. */
  lemma {:induction false} PagingContract(endpoint: string, model: Constructor, pageSize: int, maxAmt: int,
                                          replies: seq<Reply>, n: nat)
    requires pageSize > 0
    ensures var t := Pulls(Start(endpoint, model, pageSize, maxAmt, replies), n).0;
      var outs := Pulls(Start(endpoint, model, pageSize, maxAmt, replies), n).1;
      && (forall i :: 0 <= i < |t.emitted| ==> model(t.emitted[i]).Ok?)
      && Yields(outs) == Decoded(model, t.emitted)
      && t.emitted <= AllData(replies, |t.sent|)
      && (|t.sent| > 0 ==> AllData(replies, |t.sent| - 1) <= t.emitted)
      && |Yields(outs)| <= Cap(maxAmt)
      && (forall i :: 0 <= i < |t.sent| ==> i <= |replies| && t.sent[i] == Request(endpoint, ParamsFor(pageSize, replies, i)))
      && (forall i :: 0 < i < |t.sent| ==> i <= |replies| && i <= LastAfter(pageSize, replies, i))
  {
    var s := Start(endpoint, model, pageSize, maxAmt, replies);
    StartInv(endpoint, model, pageSize, maxAmt, replies);
    PullsInv(s, n);
    PullsYield(s, n);
    var t := Pulls(s, n).0;
    assert Decoded(model, s.emitted) == [];
    DecodedLength(model, t.emitted);
  }

  lemma {:induction false} DecodedLength(model: Constructor, items: seq<Item>)
    requires forall i :: 0 <= i < |items| ==> model(items[i]).Ok?
    ensures |Decoded(model, items)| == |items|
    decreases |items|
  {
    if items != [] {
      DecodedLength(model, items[1..]);
    }
  }

  /** The generator itself. */
  class Pager {
    const endpoint: string
    const model: Constructor
    const pageSize: int
    const maxAmt: int
    /** The backend: the reply to each successive request. */
    const replies: seq<Reply>
    /** The requests the backend has received. */
    var sent: seq<Request>
    var params: Object
    var currPage: int
    var lastPage: int
    var amtYielded: int
    /** `result.data` of the latest page, and the position of the `for` loop in it. */
    var page: seq<Item>
    var pos: nat
    /** Suspended at the `yield` of `page[pos - 1]`. */
    var suspended: bool
    var finished: bool
    ghost var emitted: seq<Item>

    ghost function State(): PagerState
      reads this
    {
      PagerState(endpoint, model, pageSize, maxAmt, replies, sent, params, currPage, lastPage,
                 amtYielded, page, pos, suspended, finished, emitted)
    }

    ghost predicate Valid()
      reads this
    {
      Inv(State())
    }

    /** Calling `_page(endpoint, model, max_amt)`: nothing runs until the first `next()`. */
    constructor (endpoint: string, model: Constructor, pageSize: int, maxAmt: int, replies: seq<Reply>)
      requires pageSize > 0
      ensures State() == Start(endpoint, model, pageSize, maxAmt, replies)
      ensures Valid()
    {
      this.endpoint := endpoint;
      this.model := model;
      this.pageSize := pageSize;
      this.maxAmt := maxAmt;
      this.replies := replies;
      sent := [];
      params := map["pageSize" := JInt(pageSize)];
      currPage, lastPage, amtYielded := 0, 0, 0;
      page, pos := [], 0;
      suspended, finished := false, false;
      emitted := [];
      new;
      StartInv(endpoint, model, pageSize, maxAmt, replies);
    }

    method Emit() returns (out: Pull)
      requires pos < |page|
      modifies this
      ensures (State(), out) == StepEmit(old(State()))
    {
      var d := page[pos];
      pos := pos + 1;
      match model(d) {
        case Raised(e) =>
          finished := true;
          out := Fail(e);
        case Ok((entity, warnings)) =>
          suspended := true;
          emitted := emitted + [d];
          out := Yield(entity, warnings);
      }
    }

    /** The `while curr_page <= last_page` loop of the generator, from its
        condition on, up to the next `yield` or the end of the loop. */
    method Fetch() returns (out: Pull)
      requires pageSize > 0
      modifies this
      ensures (State(), out) == StepFetch(old(State()))
    {
      ghost var s0 := State();
      while currPage <= lastPage
        invariant StepFetch(State()) == StepFetch(s0)
        decreases if |sent| <= |replies| then |replies| - |sent| else 0
      {
        ghost var s := State();
        var i := |sent|;
        sent := sent + [Request(endpoint, params)];
        if i >= |replies| {
          finished := true;
          out := Fail(NoMoreReplies);
          return;
        }
        match replies[i] {
          case Raised(e) =>
            finished := true;
            out := Fail(e);
            return;
          case Ok(res) =>
            Receive(res);
            assert StepFetch(s) == if 0 < |page| then StepEmit(State()) else StepFetch(State());
            if 0 < |page| {
              out := Emit();
              return;
            }
        }
      }
      finished := true;
      out := Stop;
    }

    /** Taking in a successful reply: record its token, recompute
        `last_page`, advance `curr_page`, and start on its items. */
    method Receive(res: Result)
      requires pageSize > 0
      modifies this
      ensures State() == Received(old(State()), res)
    {
      params := params["nextPageToken" := JStr(res.nextPageToken)];
      if res.responseSize > 0 {
        lastPage := CeilDiv(res.responseSize, pageSize);
      }
      currPage := currPage + 1;
      page, pos := res.data, 0;
    }

    /** The body of `next()`: resume after the previous `yield`, then go on
        with the current page or the paging loop. */
    method Advance() returns (out: Pull)
      requires pageSize > 0
      modifies this
      ensures (State(), out) == Step(old(State()))
    {
      if finished {
        out := Stop;
        return;
      }
      if suspended {
        suspended := false;
        amtYielded := amtYielded + 1;
        if amtYielded >= maxAmt {
          lastPage := 0;
          out := Fetch();
          return;
        }
      }
      if pos < |page| {
        out := Emit();
      } else {
        out := Fetch();
      }
    }

    /** `next()` on the generator, which keeps the generator's invariant. */
    method Next() returns (out: Pull)
      requires Valid()
      modifies this
      ensures Valid()
      ensures (State(), out) == Step(old(State()))
    {
      StepInv(State());
      out := Advance();
    }
  }
}
