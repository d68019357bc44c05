/**
 * compose and its continuation chain (application.go, lines 54-66).
 *
 * compose's loop walks the middlewares from last to first and builds one wrapper
 * per index; wrapper i first stores the continuation that follows it in the
 * shared field req.Next and then calls middleware i.  A middleware that calls
 * req.Next() invokes whatever continuation the field holds at that moment.
 *
 * The specification functions (Call, Wrapper, RunScript) describe one
 * invocation on a value Ctx, with req.Next represented by the index of the
 * wrapper it designates (n for the no-op).  The methods (Compose, Invoke,
 * RunHandler, Handle) do the same thing on the Request and Response objects,
 * with req.Next holding real continuation values, and are proved against them.
 */
module Chain {
  import opened Http

  // ---------------------------------------------------------------------------
  // The chain compose builds

  /** The continuation that runs middlewares j..n-1: the no-op when j == n. */
  function ChainFrom(n: nat, j: nat): Cont
    requires j <= n
    decreases n - j
  {
    if j == n then Noop else Wrap(j, ChainFrom(n, j + 1))
  }

  /** The continuation for index j passes through exactly the wrappers j..n-1. */
  lemma {:induction false} ChainFromDepth(n: nat, j: nat)
    requires j <= n
    ensures Depth(ChainFrom(n, j)) == n - j
    decreases n - j
  {
    if j < n {
      ChainFromDepth(n, j + 1);
    }
  }

  /** Which wrapper of a chain of n a continuation is: n for the no-op. */
  function CursorOf(n: nat, c: Cont): nat
  {
    if Depth(c) <= n then n - Depth(c) else 0
  }

  /** The continuation is one of the n + 1 links of the chain built for n middlewares. */
  ghost predicate OnChain(n: nat, c: Cont)
  {
    Depth(c) <= n && c == ChainFrom(n, n - Depth(c))
  }

  /**
   * Every link of the chain is on the chain and is identified by its index:
   * link j is wrapper j, whose nenext is link j + 1, and link n is the no-op.
   */
  lemma ChainLink(n: nat, j: nat)
    requires j <= n
    ensures OnChain(n, ChainFrom(n, j)) && CursorOf(n, ChainFrom(n, j)) == j
    ensures j < n ==> ChainFrom(n, j) == Wrap(j, ChainFrom(n, j + 1))
    ensures j == n <==> ChainFrom(n, j) == Noop
  {
    ChainFromDepth(n, j);
  }

  /** compose's loop (lines 56-64): fold the middlewares right to left into one continuation. */
  method Compose(middlewares: seq<Handler>) returns (entry: Cont)
    ensures entry == ChainFrom(|middlewares|, 0)
    ensures OnChain(|middlewares|, entry) && CursorOf(|middlewares|, entry) == 0
  {
    var n := |middlewares|;
    var next := Noop;
    var i: int := n - 1;
    while i >= 0
      invariant -1 <= i < n
      invariant next == ChainFrom(n, i + 1)
    {
      next := Wrap(i, next);
      i := i - 1;
    }
    entry := next;
    ChainLink(n, 0);
  }

  // ---------------------------------------------------------------------------
  // The specification: one invocation on values

  /**
   * The state one dispatch works on: the cursor req.Next designates, the
   * response's fields, the events sent to the writer, and the middlewares
   * entered so far.
   */
  datatype Ctx = Ctx(next: nat, status: int, body: Body, dontRespond: bool, out: seq<Event>, ran: seq<nat>)

  /** The entries of s from position lo on are strictly increasing. */
  ghost predicate IncreasingFrom(s: seq<nat>, lo: nat)
  {
    forall a, b :: lo <= a < b < |s| ==> s[a] < s[b]
  }

  /**
   * What invoking the continuation for index j (of n) may do to the cursor and
   * to the log of entered middlewares: it appends entries, in strictly
   * increasing order, all between j and n - 1, and leaves the cursor one past
   * the last middleware it entered (the deepest wrapper reached), or untouched
   * when it entered none.  (The last conjunct, a bound on how many it entered,
   * follows from the others; it is kept so that the bound is at hand.)
   */
  ghost predicate Advances(n: nat, j: nat, c: Ctx, r: Ctx)
  {
    && c.ran <= r.ran
    && IncreasingFrom(r.ran, |c.ran|)
    && (forall x :: |c.ran| <= x < |r.ran| ==> j <= r.ran[x] < n)
    && (if |r.ran| == |c.ran| then r.next == c.next else r.next == r.ran[|r.ran| - 1] + 1)
    && (|r.ran| > |c.ran| ==> r.next <= n && |r.ran| - |c.ran| <= r.next - j)
  }

  /** One action of a middleware other than CallNext. */
  function Perform(a: Action, c: Ctx): (r: Ctx)
    requires !a.CallNext?
    ensures r.next == c.next && r.ran == c.ran
  {
    match a
    case SetStatus(s) => c.(status := s)
    case SetBody(b) => c.(body := b)
    case SetDontRespond(f) => c.(dontRespond := f)
    case RawHeader(s) => c.(out := c.out + [WriteHeader(s)])
    case RawWrite(d) => c.(out := c.out + [Write(d)])
  }

  /** Invoke the continuation for index j: the no-op when j == |hs|, else wrapper j. */
  function Call(hs: seq<Handler>, j: nat, c: Ctx): (r: Ctx)
    requires j <= |hs|
    ensures Advances(|hs|, j, c, r)
    ensures j < |hs| ==> |c.ran| < |r.ran| && r.ran[|c.ran|] == j
    decreases |hs| - j, 2, 0
  {
    if j == |hs| then c else Wrapper(hs, j, c)
  }

  /** Wrapper i (lines 59-62): req.Next := continuation i + 1, then middleware i. */
  function Wrapper(hs: seq<Handler>, i: nat, c: Ctx): (r: Ctx)
    requires i < |hs|
    ensures Advances(|hs|, i, c, r)
    ensures |c.ran| < |r.ran| && r.ran[|c.ran|] == i
    decreases |hs| - i, 1, 0
  {
    var c1 := c.(next := i + 1, ran := c.ran + [i]);
    var r := RunScript(hs, i, 0, c1);
    AdvancesTrans(|hs|, i, c, c1, r);
    r
  }

  /** Middleware i's actions from position k on; CallNext reads req.Next at call time. */
  function RunScript(hs: seq<Handler>, i: nat, k: nat, c: Ctx): (r: Ctx)
    requires i < |hs| && k <= |hs[i]|
    requires i < c.next <= |hs|
    ensures Advances(|hs|, c.next, c, r)
    decreases |hs| - i, 0, |hs[i]| - k
  {
    if k == |hs[i]| then c
    else
      var c1 := Step(hs, i, k, c);
      assert c.next <= c1.next by {
        if |c1.ran| > |c.ran| {
          assert c.next <= c1.ran[|c1.ran| - 1];
        }
      }
      var r := RunScript(hs, i, k + 1, c1);
      AdvancesTrans(|hs|, c.next, c, c1, r);
      r
  }

  /** The state after action k of middleware i, as RunScript takes it. */
  function Step(hs: seq<Handler>, i: nat, k: nat, c: Ctx): Ctx
    requires i < |hs| && k < |hs[i]| && i < c.next <= |hs|
    decreases |hs| - i, 0, |hs[i]| - k - 1
  {
    if hs[i][k].CallNext? then Call(hs, c.next, c) else Perform(hs[i][k], c)
  }

  /** One action keeps the cursor past i and within the chain, and RunScript continues from it. */
  lemma StepAdvances(hs: seq<Handler>, i: nat, k: nat, c: Ctx)
    requires i < |hs| && k < |hs[i]| && i < c.next <= |hs|
    ensures c.next <= Step(hs, i, k, c).next <= |hs|
    ensures RunScript(hs, i, k, c) == RunScript(hs, i, k + 1, Step(hs, i, k, c))
  {
    var c1 := Step(hs, i, k, c);
    if |c1.ran| > |c.ran| {
      assert c.next <= c1.ran[|c1.ran| - 1];
    }
  }

  /** Two invocations in a row, the second starting at the cursor the first left, compose. */
  lemma AdvancesTrans(n: nat, j: nat, c: Ctx, m: Ctx, r: Ctx)
    requires Advances(n, j, c, m) && Advances(n, m.next, m, r) && j <= m.next
    ensures Advances(n, j, c, r)
  {
    assert |c.ran| <= |m.ran| <= |r.ran|;
    forall a, b | |c.ran| <= a < b < |r.ran|
      ensures r.ran[a] < r.ran[b]
    {
      if b < |m.ran| {
        assert r.ran[a] == m.ran[a] && r.ran[b] == m.ran[b];
      } else if a >= |m.ran| {
      } else {
        assert r.ran[a] == m.ran[a];
        if a < |m.ran| - 1 {
          assert m.ran[a] < m.ran[|m.ran| - 1];
        }
        assert m.ran[a] < m.next;
      }
    }
    forall x | |c.ran| <= x < |r.ran|
      ensures j <= r.ran[x] < n
    {
      if x < |m.ran| {
        assert r.ran[x] == m.ran[x];
      }
    }
    if |r.ran| == |c.ran| {
      assert |m.ran| == |c.ran|;
    }
    if |r.ran| > |c.ran| && |r.ran| == |m.ran| {
      assert r.ran == m.ran;
    }
  }

  // ---------------------------------------------------------------------------
  // What the chain guarantees

  /** Composing no middlewares gives a handler that runs nothing and changes nothing. */
  lemma EmptyChainIsNoop(c: Ctx)
    ensures Call([], 0, c) == c
  {
  }

  /**
   * Whatever the middlewares do, one dispatch enters them in index order and
   * enters none of them twice, however often any of them calls req.Next().
   */
  lemma EnteredAtMostOnce(hs: seq<Handler>, c: Ctx)
    ensures var r := Call(hs, 0, c);
      forall a, b :: |c.ran| <= a < b < |r.ran| ==> r.ran[a] < r.ran[b]
  {
  }

  /** A continuation invoked once the cursor is at the end runs nothing and moves nothing. */
  lemma NothingPastEnd(n: nat, c: Ctx, r: Ctx)
    requires Advances(n, n, c, r)
    ensures r.ran == c.ran && r.next == c.next
  {
  }

  /**
   * Wrapper i binds req.Next to continuation i + 1 before middleware i runs:
   * a req.Next() that is middleware i's first action enters middleware i + 1.
   */
  lemma NextBoundToSuccessor(hs: seq<Handler>, i: nat, c: Ctx)
    requires i + 1 < |hs| && |hs[i]| > 0 && hs[i][0] == CallNext
    ensures var r := Wrapper(hs, i, c);
      |c.ran| + 2 <= |r.ran| && r.ran[|c.ran|] == i && r.ran[|c.ran| + 1] == i + 1
  {
    var c1 := c.(next := i + 1, ran := c.ran + [i]);
    var c2 := Call(hs, i + 1, c1);
    StepAdvances(hs, i, 0, c1);
    var r := RunScript(hs, i, 1, c2);
    assert r.ran[..|c2.ran|] == c2.ran;
    assert r.ran[|c.ran| + 1] == c2.ran[|c1.ran|];
  }

  /** Wrapper |hs| - 1 binds req.Next to the no-op: whatever the last middleware does, it alone is entered. */
  lemma LastNextIsNoop(hs: seq<Handler>, c: Ctx)
    requires |hs| > 0
    ensures Wrapper(hs, |hs| - 1, c).ran == c.ran + [|hs| - 1]
  {
    var c1 := c.(next := |hs|, ran := c.ran + [|hs| - 1]);
    NothingPastEnd(|hs|, c1, RunScript(hs, |hs| - 1, 0, c1));
  }

  /** The indices lo, lo + 1, ..., hi - 1. */
  function Indices(lo: nat, hi: nat): (s: seq<nat>)
    ensures |s| == if lo <= hi then hi - lo else 0
    decreases hi - lo
  {
    if lo >= hi then [] else [lo] + Indices(lo + 1, hi)
  }

  /** Middleware i's script from position k on, with no CallNext left, moves neither cursor nor log. */
  lemma {:induction false} QuietScript(hs: seq<Handler>, i: nat, k: nat, c: Ctx)
    requires i < |hs| && k <= |hs[i]| && i < c.next <= |hs|
    requires CallNext !in hs[i][k..]
    ensures RunScript(hs, i, k, c).ran == c.ran && RunScript(hs, i, k, c).next == c.next
    decreases |hs[i]| - k
  {
    if k < |hs[i]| {
      assert hs[i][k] in hs[i][k..];
      assert hs[i][k + 1..] == hs[i][k..][1..];
      QuietScript(hs, i, k + 1, Perform(hs[i][k], c));
    }
  }

  /**
   * When every middleware from j on calls req.Next() at least once (so in
   * particular exactly once), invoking continuation j enters j, j + 1, ...,
   * |hs| - 1, each exactly once and in that order, and leaves req.Next at the no-op.
   */
  lemma {:induction false} ChainRunsAll(hs: seq<Handler>, j: nat, c: Ctx)
    requires j <= |hs|
    requires forall i :: j <= i < |hs| ==> CallNext in hs[i]
    ensures Call(hs, j, c).ran == c.ran + Indices(j, |hs|)
    ensures j < |hs| ==> Call(hs, j, c).next == |hs|
    decreases |hs| - j, 1, 0
  {
    if j < |hs| {
      var c1 := c.(next := j + 1, ran := c.ran + [j]);
      assert Call(hs, j, c) == RunScript(hs, j, 0, c1);
      assert hs[j][0..] == hs[j];
      ScriptReachesEnd(hs, j, 0, c1);
      assert Indices(j, |hs|) == [j] + Indices(j + 1, |hs|);
      assert c.ran + Indices(j, |hs|) == c1.ran + Indices(j + 1, |hs|);
    }
  }

  /** Middleware i's script from k on, with a CallNext still ahead and the cursor at i + 1. */
  lemma {:induction false} ScriptReachesEnd(hs: seq<Handler>, i: nat, k: nat, c: Ctx)
    requires i < |hs| && k <= |hs[i]| && c.next == i + 1
    requires forall x :: i < x < |hs| ==> CallNext in hs[x]
    requires CallNext in hs[i][k..]
    ensures RunScript(hs, i, k, c).ran == c.ran + Indices(i + 1, |hs|)
    ensures RunScript(hs, i, k, c).next == |hs|
    decreases |hs| - i, 0, |hs[i]| - k
  {
    assert k < |hs[i]|;
    assert hs[i][k..] == [hs[i][k]] + hs[i][k + 1..];
    if hs[i][k].CallNext? {
      var c1 := Call(hs, c.next, c);
      ChainRunsAll(hs, i + 1, c);
      NothingPastEnd(|hs|, c1, RunScript(hs, i, k + 1, c1));
    } else {
      ScriptReachesEnd(hs, i, k + 1, Perform(hs[i][k], c));
    }
  }

  /**
   * If middleware k never calls req.Next() and every middleware before it calls
   * it at most once, invoking continuation j <= k enters no middleware past k.
   */
  lemma {:induction false} StopsAt(hs: seq<Handler>, j: nat, k: nat, c: Ctx)
    requires j <= k < |hs|
    requires CallNext !in hs[k]
    requires forall i :: j <= i < k ==> multiset(hs[i])[CallNext] <= 1
    ensures var r := Call(hs, j, c);
      (forall x :: |c.ran| <= x < |r.ran| ==> r.ran[x] <= k) && r.next <= k + 1
    decreases k - j, 1, 0
  {
    var c1 := c.(next := j + 1, ran := c.ran + [j]);
    assert hs[j][0..] == hs[j];
    ScriptStopsAt(hs, j, k, 0, c1);
  }

  /** Middleware i <= k from position s on, under the hypotheses of StopsAt. */
  lemma {:induction false} ScriptStopsAt(hs: seq<Handler>, i: nat, k: nat, s: nat, c: Ctx)
    requires i <= k < |hs| && s <= |hs[i]|
    requires i < c.next <= k + 1
    requires CallNext !in hs[k]
    requires forall x :: i < x < k ==> multiset(hs[x])[CallNext] <= 1
    requires multiset(hs[i][s..])[CallNext] <= 1
    requires CallNext in hs[i][s..] ==> c.next == i + 1
    ensures var r := RunScript(hs, i, s, c);
      (forall x :: |c.ran| <= x < |r.ran| ==> r.ran[x] <= k) && r.next <= k + 1
    decreases k - i, 0, |hs[i]| - s
  {
    if s < |hs[i]| {
      var h := hs[i];
      assert h[s..] == [h[s]] + h[s + 1..];
      assert multiset(h[s..]) == multiset{h[s]} + multiset(h[s + 1..]);
      if h[s].CallNext? {
        assert h[s] in h;
        var c1 := Call(hs, c.next, c);
        StopsAt(hs, i + 1, k, c);
        assert CallNext !in h[s + 1..];
        if |c1.ran| > |c.ran| {
          assert c1.ran[|c1.ran| - 1] <= k;
        }
        QuietScript(hs, i, s + 1, c1);
      } else {
        ScriptStopsAt(hs, i, k, s + 1, Perform(h[s], c));
      }
    }
  }

  /**
   * A second req.Next() resumes from where the deepest wrapper left the field:
   * here middleware 1 never calls req.Next(), yet middleware 2 runs, because
   * middleware 0 calls req.Next() a second time.
   */
  lemma SecondCallResumesPastQuietHandler(c: Ctx)
    ensures Call([[CallNext, CallNext], [], []], 0, c).ran == c.ran + [0, 1, 2]
  {
    var hs: seq<Handler> := [[CallNext, CallNext], [], []];
    var c1 := c.(next := 1, ran := c.ran + [0]);
    var c2 := c1.(next := 2, ran := c1.ran + [1]);
    var c3 := c2.(next := 3, ran := c2.ran + [2]);
    EmptyWrapper(hs, 1, c1);
    EmptyWrapper(hs, 2, c2);
    StepAdvances(hs, 0, 0, c1);
    StepAdvances(hs, 0, 1, c2);
    assert RunScript(hs, 0, 2, c3) == c3;
  }

  /** The wrapper of a middleware that does nothing only enters it and moves the cursor past it. */
  lemma EmptyWrapper(hs: seq<Handler>, i: nat, c: Ctx)
    requires i < |hs| && hs[i] == []
    ensures Call(hs, i, c) == c.(next := i + 1, ran := c.ran + [i])
  {
    var c1 := c.(next := i + 1, ran := c.ran + [i]);
    assert Call(hs, i, c) == Wrapper(hs, i, c) == RunScript(hs, i, 0, c1);
    assert |hs[i]| == 0;
  }

  /**
   * After a req.Next() that ran the chain to its end, a second req.Next() from
   * the same middleware finds the no-op: middleware 1 runs once, not twice.
   */
  lemma SecondCallAfterEndIsNoop(c: Ctx)
    ensures Call([[CallNext, CallNext], [CallNext]], 0, c).ran == c.ran + [0, 1]
  {
    var hs: seq<Handler> := [[CallNext, CallNext], [CallNext]];
    ChainRunsAll(hs, 0, c);
    assert Indices(0, 2) == [0, 1];
  }

  // ---------------------------------------------------------------------------
  // The same on the Request and Response objects

  /** The objects' state seen as a Ctx of a chain of n middlewares. */
  ghost function Snapshot(n: nat, req: Request, res: Response): Ctx
    reads req, res, res.writer
  {
    Ctx(CursorOf(n, req.next), res.status, res.body, res.dontRespond, res.writer.events, req.entered)
  }

  /** Invoke continuation c of the chain for hs: nothing for the no-op, else its wrapper (lines 59-62). */
  method Invoke(hs: seq<Handler>, c: Cont, req: Request, res: Response)
    requires OnChain(|hs|, c) && OnChain(|hs|, req.next)
    modifies req, res, res.writer
    ensures res.writer == old(res.writer) && res.request == old(res.request) && OnChain(|hs|, req.next)
    ensures Snapshot(|hs|, req, res) == Call(hs, CursorOf(|hs|, c), old(Snapshot(|hs|, req, res)))
    decreases Depth(c), 3
  {
    match c
    case Noop =>
    case Wrap(i, nenext) =>
      ghost var n := |hs|;
      ghost var j := n - Depth(c);
      assert i == j && j < n && nenext == ChainFrom(n, j + 1);
      ChainLink(n, j + 1);
      req.next := nenext;
      req.entered := req.entered + [i];
      RunHandler(hs, i, req, res);
  }

  /** Call middleware i, whose body is the script hs[i], on the request and the response. */
  method RunHandler(hs: seq<Handler>, i: nat, req: Request, res: Response)
    requires i < |hs| && OnChain(|hs|, req.next) && i < CursorOf(|hs|, req.next)
    modifies req, res, res.writer
    ensures res.writer == old(res.writer) && res.request == old(res.request) && OnChain(|hs|, req.next)
    ensures Snapshot(|hs|, req, res) == RunScript(hs, i, 0, old(Snapshot(|hs|, req, res)))
    decreases |hs| - i, 2
  {
    var k := 0;
    while k < |hs[i]|
      invariant k <= |hs[i]|
      invariant res.writer == old(res.writer) && res.request == old(res.request)
      invariant OnChain(|hs|, req.next) && i < CursorOf(|hs|, req.next)
      invariant RunScript(hs, i, k, Snapshot(|hs|, req, res)) == RunScript(hs, i, 0, old(Snapshot(|hs|, req, res)))
    {
      ghost var before := Snapshot(|hs|, req, res);
      Act(hs, i, k, req, res);
      StepAdvances(hs, i, k, before);
      k := k + 1;
    }
  }

  /** Action k of middleware i, performed on the request and the response. */
  method Act(hs: seq<Handler>, i: nat, k: nat, req: Request, res: Response)
    requires i < |hs| && k < |hs[i]| && OnChain(|hs|, req.next) && i < CursorOf(|hs|, req.next)
    modifies req, res, res.writer
    ensures res.writer == old(res.writer) && res.request == old(res.request) && OnChain(|hs|, req.next)
    ensures Snapshot(|hs|, req, res) == Step(hs, i, k, old(Snapshot(|hs|, req, res)))
    decreases |hs| - i, 1
  {
    match hs[i][k]
    case CallNext => Invoke(hs, req.next, req, res);
    case SetStatus(s) => res.status := s;
    case SetBody(b) => res.body := b;
    case SetDontRespond(f) => res.dontRespond := f;
    case RawHeader(s) => res.writer.events := res.writer.events + [WriteHeader(s)];
    case RawWrite(d) => res.writer.events := res.writer.events + [Write(d)];
  }

  /** The handler compose returns (lines 55-66): build the chain, then invoke its first link. */
  method Handle(hs: seq<Handler>, req: Request, res: Response)
    requires OnChain(|hs|, req.next)
    modifies req, res, res.writer
    ensures res.writer == old(res.writer) && res.request == old(res.request) && OnChain(|hs|, req.next)
    ensures Snapshot(|hs|, req, res) == Call(hs, 0, old(Snapshot(|hs|, req, res)))
  {
    var entry := Compose(hs);
    Invoke(hs, entry, req, res);
  }
}
