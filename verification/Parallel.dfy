/** `parallel(items, task, { concurrency })` inside the replay loop. */
module Parallel {
  import opened Basics
  import opened Keys
  import opened Steps
  import opened Replay
  import opened Refinement
  import opened ReplayLoop

  /** The loop of `parallel` when every call settles at once: batches of `concurrency` items. */
  method ParallelDirect<T, R>(items: seq<T>, fn: T -> R, concurrency: Option<int>) returns (results: seq<R>)
    ensures OrElse(concurrency, |items|) <= 0 ==> results == []
    ensures OrElse(concurrency, |items|) > 0 ==>
              |results| == |items| && forall i :: 0 <= i < |items| ==> results[i] == fn(items[i])
  {
    var c := OrElse(concurrency, |items|);
    results := [];
    if c <= 0 || |items| == 0 { return; }
    var i := 0;
    while i < |items|
      invariant 0 <= i && |results| == if i <= |items| then i else |items|
      invariant forall j :: 0 <= j < |results| ==> results[j] == fn(items[j])
      decreases |items| - i
    {
      var batch := items[i..if i + c <= |items| then i + c else |items|];
      var batchResults := seq(|batch|, j requires 0 <= j < |batch| => fn(batch[j]));
      results := results + batchResults;
      i := i + c;
    }
  }

  // ---------- The workflow `return await parallel(items, task, { concurrency: c })` ----------

  datatype Job = Job(name: string, script: string, dispatchType: DispatchType, items: seq<string>, c: int)

  function CallFor(p: Job, i: nat): Call
    requires i < |p.items|
  {
    Call(p.name, p.script, p.items[i], p.dispatchType)
  }

  function Base(p: Job): string { NonEmpty(p.name, NonEmpty(p.script, "step")) }

  function Upto(p: Job, i: nat): (n: nat)
    ensures n <= |p.items|
  {
    if i <= |p.items| then i else |p.items|
  }

  function Gathered(h: seq<Outcome>): seq<Value> {
    if h == [] then []
    else
      var last := h[|h| - 1];
      Gathered(h[..|h| - 1]) + (if last.Returned? && last.value.List? then last.value.items else [])
  }

  /** The loop variable after `k` batches. */
  function Offset(p: Job, k: nat): (i: nat)
    requires p.c >= 1
  {
    if k == 0 then 0 else Offset(p, k - 1) + p.c
  }

  /** The calls of the batch that starts at item `from`. */
  function BatchCalls(p: Job, from: nat): (calls: seq<Call>)
    requires p.c >= 1 && from < |p.items|
    ensures 1 <= |calls| <= p.c && from + |calls| == Upto(p, from + p.c)
    ensures forall j :: 0 <= j < |calls| ==> calls[j] == CallFor(p, from + j)
  {
    seq(Upto(p, from + p.c) - from, j requires 0 <= j < Upto(p, from + p.c) - from => CallFor(p, from + j))
  }

  function NextAction(p: Job, h: seq<Outcome>): Action {
    if p.c <= 0 || |p.items| == 0 then Finish(Returned(List([])))
    else if h != [] && h[|h| - 1].Threw? then Finish(h[|h| - 1])
    else if Offset(p, |h|) >= |p.items| then Finish(Returned(List(Gathered(h))))
    else Batch(BatchCalls(p, Offset(p, |h|)))
  }

  function ParallelWorkflow(p: Job): Workflow {
    h => NextAction(p, h)
  }

  /** The step for item `i`. */
  function ItemStep(p: Job, i: nat): StepInfo
    requires i < |p.items|
  {
    InfoOf(CallFor(p, i), Key(Base(p), i + 1))
  }

  /** No item's result imitates an error entry. */
  ghost predicate StorableItems(w: World, p: Job) {
    forall i :: 0 <= i < |p.items| ==> !(w.job(ItemStep(p, i)).Succeeded? && w.job(ItemStep(p, i)).value.Tagged?)
  }

  /** The jobs of the first `n` items do not fail. */
  ghost predicate AllSucceed(w: World, p: Job, n: nat) {
    forall i :: 0 <= i < n && i < |p.items| ==> w.job(ItemStep(p, i)).Succeeded?
  }

  function ItemResult(w: World, p: Job, i: nat): Value
    requires i < |p.items|
  {
    if w.job(ItemStep(p, i)).Succeeded? then Stored(w.job(ItemStep(p, i)).value) else Null
  }

  /** How the workflow learns that the job of item `i` failed. */
  function ItemFailure(w: World, p: Job, i: nat): StepError
    requires i < |p.items| && w.job(ItemStep(p, i)).Failed?
  {
    FailureOf(Key(Base(p), i + 1), w.job(ItemStep(p, i)).error, w.job(ItemStep(p, i)).childJobId)
  }

  function Results(w: World, p: Job, n: nat): (vs: seq<Value>)
    requires n <= |p.items|
    ensures |vs| == n
  {
    seq(n, i requires 0 <= i < n => ItemResult(w, p, i))
  }

  /** What the workflow has seen after `k` batches. */
  function BatchesSeen(w: World, p: Job, k: nat): (h: seq<Outcome>)
    requires p.c >= 1
    ensures |h| == k
  {
    if k == 0 then []
    else
      var before, after := Upto(p, Offset(p, k - 1)), Upto(p, Offset(p, k));
      BatchesSeen(w, p, k - 1) + [Returned(List(Results(w, p, after)[before..]))]
  }

  lemma BatchesSeenStep(w: World, p: Job, k: nat)
    requires p.c >= 1 && k >= 1
    ensures var before, after := Upto(p, Offset(p, k - 1)), Upto(p, Offset(p, k));
            before <= after &&
            BatchesSeen(w, p, k) == BatchesSeen(w, p, k - 1) + [Returned(List(Results(w, p, after)[before..]))]
  {
  }

  lemma GatheredStep(h: seq<Outcome>, vs: seq<Value>)
    ensures Gathered(h + [Returned(List(vs))]) == Gathered(h) + vs
  {
    assert (h + [Returned(List(vs))])[..|h|] == h;
  }

  // ---------- Keys: one name, used over and over ----------

  lemma {:induction false} OneName(b: string, names: seq<string>)
    requires forall i :: 0 <= i < |names| ==> names[i] == b
    ensures Occurrences(names, b) == |names|
    ensures CollisionFree(names)
  {
    hide Decimal;
    if names != [] {
      OneName(b, names[..|names| - 1]);
    }
    forall i, j, k: nat | 0 <= i < |names| && 0 <= j < |names| && 2 <= k <= Occurrences(names, names[j])
      ensures names[i] != Key(names[j], k)
    {
    }
  }

  lemma OneNameKey(b: string, names: seq<string>, i: nat)
    requires i < |names| && forall j :: 0 <= j < |names| ==> names[j] == b
    ensures AllocatedKeys(names)[i] == Key(b, i + 1)
  {
    hide Key, AllocatedKeys, Occurrences, CollisionFree;
    AllocatedKeyAt(names, i);
    OneName(b, names[..i + 1]);
  }

  lemma {:induction false} UsesOneName(p: Job, h: seq<Outcome>)
    ensures forall i :: 0 <= i < |UsedNames(ParallelWorkflow(p), h)| ==> UsedNames(ParallelWorkflow(p), h)[i] == Base(p)
    ensures forall i :: 0 <= i < |Names(NextAction(p, h))| ==> Names(NextAction(p, h))[i] == Base(p)
  {
    hide Gathered, Offset;
    if h != [] { UsesOneName(p, h[..|h| - 1]); }
    if NextAction(p, h).Batch? {
      var calls := BatchCalls(p, Offset(p, |h|));
      assert forall i :: 0 <= i < |calls| ==> BaseName(calls[i]) == Base(p);
    }
  }

  // ---------- One batch ----------

  lemma BeforeAnyBatch(w: World, p: Job)
    requires p.c >= 1
    ensures BatchesSeen(w, p, 0) == [] && Gathered([]) == [] && Offset(p, 0) == 0 && Results(w, p, 0) == []
    ensures UsedNames(ParallelWorkflow(p), []) == [] && Recorded(w, ParallelWorkflow(p), []) == map[]
  {
  }

  lemma OffsetStep(p: Job, k: nat)
    requires p.c >= 1 && k >= 1
    ensures Offset(p, k) == Offset(p, k - 1) + p.c
  {
  }

  lemma LastReturned(w: World, p: Job, k: nat)
    requires p.c >= 1
    ensures var h := BatchesSeen(w, p, k);
            |p.items| >= 1 ==>
              NextAction(p, h) == if Offset(p, k) >= |p.items| then Finish(Returned(List(Gathered(h))))
                                  else Batch(BatchCalls(p, Offset(p, k)))
  {
    hide Results, Gathered, BatchCalls;
    var h := BatchesSeen(w, p, k);
    assert h != [] ==> h[|h| - 1].Returned?;
  }

  lemma {:induction false} UsedAfterBatches(w: World, p: Job, k: nat)
    requires p.c >= 1 && |p.items| >= 1
    ensures |UsedNames(ParallelWorkflow(p), BatchesSeen(w, p, k))| == Upto(p, Offset(p, k))
  {
    hide NextAction, BatchCalls, UsedNames, Offset, BatchesSeen;
    if k == 0 {
      BeforeAnyBatch(w, p);
    } else {
      UsedAfterBatches(w, p, k - 1);
      LastReturned(w, p, k - 1);
      BatchesSeenStep(w, p, k);
      OffsetStep(p, k);
      var before, after := Upto(p, Offset(p, k - 1)), Upto(p, Offset(p, k));
      RunKeysExtend(ParallelWorkflow(p), BatchesSeen(w, p, k - 1), Returned(List(Results(w, p, after)[before..])));
    }
  }

  /** The batch after `k` batches consists of the steps of the next `c` items, or of what is left. */
  lemma StepsAt(w: World, p: Job, k: nat)
    requires p.c >= 1 && Offset(p, k) < |p.items|
    ensures var wf, h, from := ParallelWorkflow(p), BatchesSeen(w, p, k), Offset(p, k);
            && wf(h).Batch? && wf(h).calls != []
            && var infos := Infos(wf(h).calls, ActionKeys(wf, h));
               && from + |infos| == Upto(p, from + p.c) && 1 <= |infos| <= p.c
               && forall j :: 0 <= j < |infos| ==> infos[j] == ItemStep(p, from + j)
  {
    hide UsedNames, AllocatedKeys, BatchesSeen, NextAction, Key, BatchCalls, Offset;
    var wf, h, from := ParallelWorkflow(p), BatchesSeen(w, p, k), Offset(p, k);
    LastReturned(w, p, k);
    UsedAfterBatches(w, p, k);
    UsesOneName(p, h);
    var used, names := UsedNames(wf, h), Names(wf(h));
    var infos := Infos(wf(h).calls, ActionKeys(wf, h));
    forall j | 0 <= j < |infos|
      ensures infos[j] == ItemStep(p, from + j)
    {
      OneNameKey(Base(p), used + names, |used| + j);
    }
  }

  lemma {:induction false} InPlaceValues(w: World, infos: seq<StepInfo>)
    requires forall j :: 0 <= j < |infos| ==> w.job(infos[j]).Succeeded?
    ensures var s := InPlaceAll(w, infos);
            && s.AllValues? && |s.values| == |infos|
            && forall j :: 0 <= j < |infos| ==> s.values[j] == Stored(w.job(infos[j]).value)
  {
    if infos != [] {
      InPlaceValues(w, infos[1..]);
      var s := InPlaceAll(w, infos);
      assert s.values == [Stored(w.job(infos[0]).value)] + InPlaceAll(w, infos[1..]).values;
      assert forall j :: 1 <= j < |infos| ==> infos[j] == infos[1..][j - 1];
    }
  }

  lemma {:induction false} InPlaceFailure(w: World, infos: seq<StepInfo>, j: nat)
    requires j < |infos| && w.job(infos[j]).Failed?
    requires forall i :: 0 <= i < j ==> w.job(infos[i]).Succeeded?
    ensures InPlaceAll(w, infos) == Fails(FailureOf(infos[j].key, w.job(infos[j]).error, w.job(infos[j]).childJobId))
  {
    if j > 0 { InPlaceFailure(w, infos[1..], j - 1); }
  }

  /** Running the batch after `k` batches in place yields the results of its items, in order. */
  lemma BatchOutcome(w: World, p: Job, k: nat)
    requires p.c >= 1 && Offset(p, k) < |p.items| && AllSucceed(w, p, Offset(p, k + 1))
    ensures ParallelWorkflow(p)(BatchesSeen(w, p, k)).Batch?
    ensures BatchesSeen(w, p, k + 1)
            == BatchesSeen(w, p, k) + [DirectOutcome(w, ParallelWorkflow(p), BatchesSeen(w, p, k))]
  {
    hide NextAction, ActionKeys, InPlaceAll;
    var wf, h, from := ParallelWorkflow(p), BatchesSeen(w, p, k), Offset(p, k);
    StepsAt(w, p, k);
    var infos := Infos(wf(h).calls, ActionKeys(wf, h));
    InPlaceValues(w, infos);
    assert Upto(p, from) == from;
    var all := Results(w, p, Upto(p, from + p.c));
    assert InPlaceAll(w, infos).values == all[from..];
  }

  /** Running in place the batch that holds the first item whose job fails throws that failure. */
  lemma BatchFails(w: World, p: Job, k: nat, i: nat)
    requires p.c >= 1 && Offset(p, k) <= i < Offset(p, k + 1) && i < |p.items|
    requires AllSucceed(w, p, i) && w.job(ItemStep(p, i)).Failed?
    ensures ParallelWorkflow(p)(BatchesSeen(w, p, k)).Batch?
    ensures DirectOutcome(w, ParallelWorkflow(p), BatchesSeen(w, p, k))
            == Threw(ItemFailure(w, p, i))
  {
    hide NextAction, ActionKeys, InPlaceAll, BatchesSeen, Key;
    var wf, h, from := ParallelWorkflow(p), BatchesSeen(w, p, k), Offset(p, k);
    StepsAt(w, p, k);
    InPlaceFailure(w, Infos(wf(h).calls, ActionKeys(wf, h)), i - from);
  }

  // ---------- All batches ----------

  lemma OffsetGrows(p: Job, j: nat, k: nat)
    requires p.c >= 1 && j <= k
    ensures Offset(p, j) <= Offset(p, k)
  {
    if j < k { OffsetGrows(p, j, k - 1); }
  }

  lemma {:induction false} BatchesAreDirect(w: World, p: Job, k: nat)
    requires p.c >= 1 && (k >= 1 ==> Offset(p, k - 1) < |p.items|) && AllSucceed(w, p, Offset(p, k))
    ensures IsDirect(w, ParallelWorkflow(p), BatchesSeen(w, p, k))
  {
    hide DirectOutcome, BatchesSeen, NextAction, AllSucceed;
    if k == 0 {
      assert |BatchesSeen(w, p, 0)| == 0;
    } else {
      FewerSucceed(w, p, Offset(p, k - 1), Offset(p, k));
      BatchesAreDirect(w, p, k - 1);
      BatchOutcome(w, p, k - 1);
      var h := BatchesSeen(w, p, k);
      assert h[..|h| - 1] == BatchesSeen(w, p, k - 1);
    }
  }

  lemma FewerSucceed(w: World, p: Job, m: nat, n: nat)
    requires m <= n && AllSucceed(w, p, n)
    ensures AllSucceed(w, p, m)
  {
    hide ItemStep;
  }

  lemma {:induction false} FirstFailing(w: World, p: Job, m: nat, n: nat) returns (i: nat)
    requires m <= n <= |p.items| && AllSucceed(w, p, m) && !AllSucceed(w, p, n)
    ensures m <= i < n && AllSucceed(w, p, i) && w.job(ItemStep(p, i)).Failed?
    decreases n - m
  {
    hide ItemStep;
    i := m;
    if w.job(ItemStep(p, m)).Succeeded? { i := FirstFailing(w, p, m + 1, n); }
  }

  /** The direct run consists of batches, until there are no items left or one has failed. */
  lemma {:induction false} DirectIsBatches(w: World, p: Job, h: seq<Outcome>)
    requires p.c >= 1 && IsDirect(w, ParallelWorkflow(p), h)
    ensures || (h != [] && h[|h| - 1].Threw?)
            || (&& h == BatchesSeen(w, p, |h|) && AllSucceed(w, p, Offset(p, |h|))
                && (|h| >= 1 ==> Offset(p, |h| - 1) < |p.items|))
    decreases |h|
  {
    hide DirectOutcome, NextAction, AllSucceed, BatchesSeen;
    if h == [] {
      assert |BatchesSeen(w, p, 0)| == 0;
      assert AllSucceed(w, p, 0) by { NoneFails(w, p); }
    } else {
      var init, k := h[..|h| - 1], |h| - 1;
      DirectIsBatches(w, p, init);
      OnlyBatches(p, init);
      LastReturned(w, p, k);
      assert h == init + [h[k]] && Upto(p, Offset(p, k)) == Offset(p, k);
      if AllSucceed(w, p, Upto(p, Offset(p, k + 1))) {
        AllMeans(w, p, Offset(p, k + 1));
        BatchOutcome(w, p, k);
      } else {
        var i := FirstFailing(w, p, Offset(p, k), Upto(p, Offset(p, k + 1)));
        BatchFails(w, p, k, i);
      }
    }
  }

  lemma NoneFails(w: World, p: Job)
    ensures AllSucceed(w, p, 0)
  {
  }

  lemma AllMeans(w: World, p: Job, n: nat)
    ensures AllSucceed(w, p, Upto(p, n)) <==> AllSucceed(w, p, n)
  {
    hide ItemStep;
  }

  lemma OnlyBatches(p: Job, h: seq<Outcome>)
    ensures NextAction(p, h).Batch? || NextAction(p, h).Finish?
    ensures p.c <= 0 || |p.items| == 0 || (h != [] && h[|h| - 1].Threw?) ==> NextAction(p, h).Finish?
  {
  }

  /** Keys never collide and results survive storage, whatever the concurrency, the number of items and the
      jobs that fail. */
  lemma ParallelWellBehaved(w: World, p: Job)
    requires StorableItems(w, p)
    ensures WellBehaved(w, ParallelWorkflow(p))
  {
    hide UsedNames, CollisionFree, IsDirect, NextAction, ActionKeys, Storable, StorableItems;
    var wf := ParallelWorkflow(p);
    forall h | IsDirect(w, wf, h)
      ensures Storable(w, wf, h) && CollisionFree(UsedNames(wf, h) + Names(wf(h)))
    {
      UsesOneName(p, h);
      OneName(Base(p), UsedNames(wf, h) + Names(wf(h)));
      BatchStorable(w, p, h);
    }
  }

  lemma BatchStorable(w: World, p: Job, h: seq<Outcome>)
    requires StorableItems(w, p) && IsDirect(w, ParallelWorkflow(p), h)
    ensures Storable(w, ParallelWorkflow(p), h)
  {
    hide IsDirect, NextAction, ActionKeys, BatchesSeen, Offset, ItemStep, AllSucceed;
    OnlyBatches(p, h);
    if NextAction(p, h).Batch? {
      DirectIsBatches(w, p, h);
      LastReturned(w, p, |h|);
      StepsAt(w, p, |h|);
      var infos := Infos(NextAction(p, h).calls, ActionKeys(ParallelWorkflow(p), h));
      assert forall i :: 0 <= i < |infos| ==>
               infos[i] == InfoOf(NextAction(p, h).calls[i], ActionKeys(ParallelWorkflow(p), h)[i]);
    }
  }

  /** There are no inline steps, so nothing is run again. */
  lemma NothingRunAgain(w: World, p: Job, h: seq<Outcome>, tries: Tries)
    ensures Untried(w, ParallelWorkflow(p), h, tries) && Repeats(w, ParallelWorkflow(p), h, tries)
    ensures Steady(w, ParallelWorkflow(p))
  {
    hide IsDirect, ActionKeys, NextAction, InlineKey, SteadyAt;
    forall g ensures !ParallelWorkflow(p)(g).Inline? { OnlyBatches(p, g); }
  }

  lemma ResultsSplit(w: World, p: Job, m: nat, n: nat)
    requires m <= n <= |p.items|
    ensures Results(w, p, m) + Results(w, p, n)[m..] == Results(w, p, n)
  {
    hide ItemStep;
    assert Results(w, p, m) == Results(w, p, n)[..m];
  }

  lemma {:induction false} GatheredResults(w: World, p: Job, k: nat)
    requires p.c >= 1
    ensures Gathered(BatchesSeen(w, p, k)) == Results(w, p, Upto(p, Offset(p, k)))
  {
    hide Results, BatchesSeen, Gathered, Offset;
    if k == 0 {
      BeforeAnyBatch(w, p);
    } else {
      GatheredResults(w, p, k - 1);
      var before, after := Upto(p, Offset(p, k - 1)), Upto(p, Offset(p, k));
      BatchesSeenStep(w, p, k);
      ResultsSplit(w, p, before, after);
      GatheredStep(BatchesSeen(w, p, k - 1), Results(w, p, after)[before..]);
    }
  }

  /** ceil(n / c): the one number m with (m - 1) * c < n <= m * c. */
  function Batches(n: int, c: int): (m: nat)
    requires c >= 1
    ensures n >= 1 ==> m >= 1 && (m - 1) * c < n <= m * c
    ensures n <= 0 ==> m == 0
    decreases if n <= 0 then 0 else n
  {
    if n <= 0 then 0
    else
      var m := Batches(n - c, c);
      assert (m + 1) * c == m * c + c && (m >= 1 ==> (m - 1) * c + c == m * c);
      m + 1
  }

  lemma {:induction false} OffsetIsProduct(p: Job, k: nat)
    requires p.c >= 1
    ensures Offset(p, k) == k * p.c
  {
    if k > 0 {
      OffsetIsProduct(p, k - 1);
      assert k * p.c == (k - 1) * p.c + p.c;
    }
  }

  // ---------- The loop ----------

  lemma BatchStops(w: World, p: Job, k: nat)
    requires p.c >= 1 && Offset(p, k) < |p.items|
    ensures StopsAt(w, ParallelWorkflow(p), BatchesSeen(w, p, k))
  {
    hide NextAction, ActionKeys, BatchesSeen, Offset, ItemStep;
    StepsAt(w, p, k);
  }

  /** Every batch makes a replay stop. */
  lemma {:induction false} BatchesStop(w: World, p: Job, k: nat)
    requires p.c >= 1 && (k >= 1 ==> Offset(p, k - 1) < |p.items|)
    ensures StopCount(w, ParallelWorkflow(p), BatchesSeen(w, p, k)) == k
  {
    hide NextAction, BatchesSeen, StopsAt, StopCount;
    var wf := ParallelWorkflow(p);
    if k == 0 {
      BeforeAnyBatch(w, p);
      assert StopCount(w, wf, []) == 0 by { EmptyLog(w, wf); }
    } else {
      var h := BatchesSeen(w, p, k);
      BatchesStop(w, p, k - 1);
      BatchesSeenStep(w, p, k);
      BatchStops(w, p, k - 1);
      StopCountExtend(w, wf, BatchesSeen(w, p, k - 1), h[k - 1]);
    }
  }

  /** The replay asks for the next `c` items from `from` on, or what is left: each step has its own item as
      arguments, and the key of the item's position. */
  ghost predicate AsksForBatch(p: Job, from: nat, status: Status) {
    && status.Dispatches? && status.d.Tasks?
    && |status.d.steps| == (if from + p.c <= |p.items| then p.c else |p.items| - from)
    && forall j :: 0 <= j < |status.d.steps| ==>
         && status.d.steps[j].args == p.items[from + j] && status.d.steps[j].key == Key(Base(p), from + j + 1)
         && status.d.steps[j].dispatchType == p.dispatchType
         && status.d.steps[j].name == (if p.name != "" then p.name else status.d.steps[j].key)
         && status.d.steps[j].script == (if p.script != "" then p.script else status.d.steps[j].key)
  }

  lemma StoppedAsks(w: World, p: Job, k: nat, r: Round)
    requires p.c >= 1 && Offset(p, k) < |p.items|
    requires StoppedAt(w, ParallelWorkflow(p), BatchesSeen(w, p, k), BatchesSeen(w, p, k), r)
    ensures AsksForBatch(p, Offset(p, k), r.status)
  {
    hide NextAction, ActionKeys, BatchesSeen, Offset, Recorded, FirstRun, Resume, ActionRecord, At, DirectOutcome,
         Infos, StopsAt, DistinctSteps, Key;
    StepsAt(w, p, k);
  }

  /** A history of `k` stops that ends in a stop is that of `k` batches. */
  lemma StandsAtBatch(w: World, p: Job, k: nat, g: seq<Outcome>)
    requires p.c >= 1 && Offset(p, k) < |p.items| && AllSucceed(w, p, Offset(p, k))
    requires IsDirect(w, ParallelWorkflow(p), g) && EndsInStop(w, ParallelWorkflow(p), g)
    requires StopCount(w, ParallelWorkflow(p), g) == k
    ensures g == BatchesSeen(w, p, k)
  {
    hide IsDirect, BatchesSeen, StopCount, StopsAt, NextAction, AllSucceed, Offset;
    var wf, h := ParallelWorkflow(p), BatchesSeen(w, p, k);
    BatchReached(w, p, k);
    LastStop(w, wf, g, h);
    DirectUnique(w, wf, g, h);
    SeenPrefix(w, p, |g|, k);
    if |g| >= 1 { OffsetGrows(p, |g| - 1, k); }
    BatchesStop(w, p, |g|);
  }

  lemma BatchReached(w: World, p: Job, k: nat)
    requires p.c >= 1 && Offset(p, k) < |p.items| && AllSucceed(w, p, Offset(p, k))
    ensures IsDirect(w, ParallelWorkflow(p), BatchesSeen(w, p, k))
    ensures StopCount(w, ParallelWorkflow(p), BatchesSeen(w, p, k)) == k
  {
    hide IsDirect, BatchesSeen, StopCount, NextAction, AllSucceed;
    BatchesAreDirect(w, p, k);
    BatchesStop(w, p, k);
  }

  lemma {:induction false} SeenPrefix(w: World, p: Job, j: nat, k: nat)
    requires p.c >= 1 && j <= k
    ensures BatchesSeen(w, p, k)[..j] == BatchesSeen(w, p, j)
  {
    hide Results, Offset, Upto;
    if j < k {
      SeenPrefix(w, p, j, k - 1);
      assert BatchesSeen(w, p, k)[..k - 1] == BatchesSeen(w, p, k - 1);
      assert BatchesSeen(w, p, k)[..k - 1][..j] == BatchesSeen(w, p, k)[..j];
    } else {
      assert BatchesSeen(w, p, k)[..k] == BatchesSeen(w, p, k);
    }
  }

  /** As long as no job of an earlier batch failed, the next replay of the loop dispatches exactly the next
      batch of at most `c` items. */
  lemma OneBatchPerRound(w: World, p: Job, n: nat, k: nat)
    requires StorableItems(w, p) && p.c >= 1 && Offset(p, k) < |p.items| && AllSucceed(w, p, Offset(p, k)) && n > k
    ensures var wf := ParallelWorkflow(p);
            var s := LoopAfter(w, wf, n, k);
            && s.Going? && s.checkpoint == Recorded(w, wf, BatchesSeen(w, p, k))
            && AsksForBatch(p, Offset(p, k), RoundAfter(w, wf, s.checkpoint, None, TriesIn(s.log), n).status)
  {
    hide NextAction, Recorded, RoundAfter, WellBehaved, IsDirect, BatchesSeen, StoppedAt, AsksForBatch, Untried,
         Repeats, StopsAt, LoopAfter, TriesIn, AllSucceed, Offset, StopCount, OnceEach, ThrownEach, EndsInStop, Steady;
    var wf, h := ParallelWorkflow(p), BatchesSeen(w, p, k);
    ParallelWellBehaved(w, p);
    NothingRunAgain(w, p, h, TriesIn([]));
    BatchReached(w, p, k);
    var s := LoopAfter(w, wf, n, k);
    var g := LoopFollowsDirect(w, wf, n, k);
    GoesOn(w, wf, h, n, k, g, s);
    StandsAtBatch(w, p, k, g);
    NothingRunAgain(w, p, h, TriesIn(s.log));
    BatchStops(w, p, k);
    RoundStopsAtNext(w, wf, h, TriesIn(s.log), n);
    StoppedAsks(w, p, k, RoundAfter(w, wf, s.checkpoint, None, TriesIn(s.log), n));
  }

  // ---------- Each item once ----------

  lemma {:induction false} BatchesRecorded(w: World, p: Job, h: seq<Outcome>)
    ensures forall k :: k in RunKeys(ParallelWorkflow(p), h) ==> k in Recorded(w, ParallelWorkflow(p), h)
    decreases |h|
  {
    hide NextAction, ActionKeys, RunKeys, RecordJobs;
    var wf := ParallelWorkflow(p);
    if h == [] {
      assert RunKeys(wf, []) == [] by { NoKeys(wf); }
    } else {
      var init, o := h[..|h| - 1], h[|h| - 1];
      assert h == init + [o];
      BatchesRecorded(w, p, init);
      RunKeysExtend(wf, init, o);
      RecordedExtend(w, wf, init, o);
      OnlyBatches(p, init);
      if wf(init).Batch? {
        var infos := Infos(wf(init).calls, ActionKeys(wf, init));
        RecordJobsKeys(w, infos);
        assert StepKeys(infos) == ActionKeys(wf, init);
      }
    }
  }

  lemma NoKeys(wf: Workflow)
    ensures RunKeys(wf, []) == []
  {
  }

  /** Each of the first `m` steps was dispatched once, and no other. */
  ghost predicate FirstOnce(p: Job, log: seq<Event>, m: nat) {
    forall q: nat :: q >= 1 ==> Runs(log, Key(Base(p), q)) == if q <= m then 1 else 0
  }

  /** After a run that made calls for the first `m` items, each of them was dispatched once and no other. */
  lemma ItemsOnce(w: World, p: Job, h: seq<Outcome>, m: nat, log: seq<Event>)
    requires |UsedNames(ParallelWorkflow(p), h)| == m && OnceEach(w, ParallelWorkflow(p), h, log)
    ensures FirstOnce(p, log, m)
  {
    hide UsedNames, AllocatedKeys, Key, Recorded, Runs, NextAction;
    var wf := ParallelWorkflow(p);
    var names := UsedNames(wf, h);
    var keys := RunKeys(wf, h);
    UsesOneName(p, h);
    BatchesRecorded(w, p, h);
    forall q: nat | q >= 1 ensures Runs(log, Key(Base(p), q)) == if q <= m then 1 else 0 {
      if q <= m {
        OneNameKey(Base(p), names, q - 1);
        assert keys[q - 1] in keys;
      } else {
        forall j: nat | j < m ensures keys[j] != Key(Base(p), q) {
          OneNameKey(Base(p), names, j);
          SameName(Base(p), q, j + 1);
        }
      }
    }
  }

  lemma SameName(b: string, i: nat, j: nat)
    requires i >= 1 && j >= 1 && i != j
    ensures Key(b, i) != Key(b, j)
  {
    if Key(b, i) == Key(b, j) {
      KeyClash(b, i, b, j);
      KeyForm(b, i);
      KeyForm(b, j);
    }
  }

  // ---------- How `parallel` ends ----------

  /** For at least one item and concurrency c >= 1, `parallel` over items whose jobs do not fail is suspended
      for exactly ceil(n / c) replays, of at most c steps each (OneBatchPerRound). The next replay returns the
      results of the items, in item order, and each item was dispatched once. */
  lemma ParallelInOrder(w: World, p: Job, n: nat)
    requires StorableItems(w, p) && AllSucceed(w, p, |p.items|)
    requires p.c >= 1 && |p.items| >= 1 && n > Batches(|p.items|, p.c)
    ensures var m := Batches(|p.items|, p.c);
            && (forall k :: 0 <= k <= m ==> LoopAfter(w, ParallelWorkflow(p), n, k).Going?)
            && var s := LoopAfter(w, ParallelWorkflow(p), n, m + 1);
               && s.Ended? && s.outcome.Returned? && s.outcome.value.List? && |s.outcome.value.items| == |p.items|
               && (forall i :: 0 <= i < |p.items| ==> IsResult(s.outcome.value.items[i], w.job(ItemStep(p, i))))
               && FirstOnce(p, s.log, |p.items|)
  {
    hide NextAction, LoopAfter, BatchesSeen, IsDirect, Offset, Batches, StopCount, UsedNames, Key, FirstOnce, OnceEach,
         StorableItems;
    var wf, m := ParallelWorkflow(p), Batches(|p.items|, p.c);
    var h := BatchesSeen(w, p, m);
    OffsetIsProduct(p, m - 1);
    OffsetIsProduct(p, m);
    BatchesAreDirect(w, p, m);
    BatchesStop(w, p, m);
    AllDone(w, p, m);
    EndsWith(w, p, h, Returned(List(Results(w, p, |p.items|))), n);
    UsedAfterBatches(w, p, m);
    ItemsOnce(w, p, h, |p.items|, LoopAfter(w, wf, n, m + 1).log);
  }

  predicate IsResult(v: Value, r: JobResult) {
    r.Succeeded? && v == if r.value.Undefined? then Null else r.value
  }

  lemma AllDone(w: World, p: Job, m: nat)
    requires p.c >= 1 && |p.items| >= 1 && |p.items| <= Offset(p, m)
    ensures NextAction(p, BatchesSeen(w, p, m)) == Finish(Returned(List(Results(w, p, |p.items|))))
  {
    hide Results, Gathered, NextAction;
    GatheredResults(w, p, m);
    LastReturned(w, p, m);
  }

  /** Without items, or with a concurrency of zero or less, the first replay returns the empty list and
      nothing is dispatched. */
  lemma ParallelNothing(w: World, p: Job, n: nat)
    requires (p.c <= 0 || |p.items| == 0) && n >= 1
    ensures LoopAfter(w, ParallelWorkflow(p), n, 1) == Ended(Returned(List([])), map[], [])
  {
    hide ActionKeys;
    var wf := ParallelWorkflow(p);
    assert LoopAfter(w, wf, n, 0) == Going(map[], []);
    assert RoundAfter(w, wf, map[], None, TriesIn([]), 0) == Round([], map[], [], false, [], Running);
    var r := RoundAfter(w, wf, map[], None, TriesIn([]), 1);
    assert r == Round([], map[], [], false, [], Finished(Returned(List([]))));
    RoundStays(w, wf, map[], None, TriesIn([]), 1, n);
  }

  /** If item `i` is the first, in item order, whose job fails, `parallel` throws that job's failure after
      exactly i / c + 1 suspended replays. Every item up to the end of its batch was dispatched once, and no
      item of a later batch. */
  lemma ParallelThrowsFirst(w: World, p: Job, i: nat, n: nat)
    requires StorableItems(w, p) && p.c >= 1 && i < |p.items| && n > i / p.c + 1
    requires AllSucceed(w, p, i) && w.job(ItemStep(p, i)).Failed?
    ensures var k := i / p.c + 1;
            && (forall j :: 0 <= j <= k ==> LoopAfter(w, ParallelWorkflow(p), n, j).Going?)
            && var s := LoopAfter(w, ParallelWorkflow(p), n, k + 1);
               && s.Ended? && s.outcome == Threw(ItemFailure(w, p, i))
               && FirstOnce(p, s.log, if k * p.c <= |p.items| then k * p.c else |p.items|)
  {
    hide NextAction, LoopAfter, BatchesSeen, IsDirect, Offset, StopCount, UsedNames, Key, FirstOnce, ItemFailure,
         OnceEach, AllSucceed, StorableItems, ItemStep;
    var wf, k := ParallelWorkflow(p), i / p.c;
    var h := BatchesSeen(w, p, k) + [Threw(ItemFailure(w, p, i))];
    BatchOf(p, i);
    FailedRun(w, p, k, i);
    EndsWith(w, p, h, Threw(ItemFailure(w, p, i)), n);
    ItemsOnce(w, p, h, Upto(p, (k + 1) * p.c), LoopAfter(w, wf, n, k + 2).log);
  }

  /** The loop is suspended `m` times and ends with `o` in the next replay. */
  ghost predicate EndsAfter(w: World, wf: Workflow, h: seq<Outcome>, n: nat, m: nat, o: Outcome) {
    && (forall k :: 0 <= k <= m ==> LoopAfter(w, wf, n, k).Going?)
    && var s := LoopAfter(w, wf, n, m + 1);
       s.Ended? && s.outcome == o && OnceEach(w, wf, h, s.log)
  }

  /** The loop ends one replay after the last stop of the direct run. */
  lemma EndsWith(w: World, p: Job, h: seq<Outcome>, o: Outcome, n: nat)
    requires StorableItems(w, p) && IsDirect(w, ParallelWorkflow(p), h) && NextAction(p, h) == Finish(o) && n > |h|
    ensures EndsAfter(w, ParallelWorkflow(p), h, n, StopCount(w, ParallelWorkflow(p), h), o)
  {
    hide NextAction, LoopAfter, WellBehaved, IsDirect, Recorded, StopCount, Steady, OnceEach, ThrownEach,
         StorableItems, Untried, Repeats;
    var wf, m := ParallelWorkflow(p), StopCount(w, ParallelWorkflow(p), h);
    ParallelWellBehaved(w, p);
    NothingRunAgain(w, p, h, TriesIn([]));
    forall k | 0 <= k <= m ensures LoopAfter(w, wf, n, k).Going? {
      ReplayRefinesDirect(w, wf, h, o, n, k);
    }
    ReplayRefinesDirect(w, wf, h, o, n, m + 1);
  }

  lemma BatchOf(p: Job, i: nat)
    requires p.c >= 1
    ensures Offset(p, i / p.c) <= i < Offset(p, i / p.c + 1) == (i / p.c + 1) * p.c
  {
    hide Offset;
    OffsetIsProduct(p, i / p.c);
    OffsetIsProduct(p, i / p.c + 1);
    assert i == p.c * (i / p.c) + i % p.c;
    assert (i / p.c + 1) * p.c == i / p.c * p.c + p.c;
  }

  lemma FailedRun(w: World, p: Job, k: nat, i: nat)
    requires p.c >= 1 && Offset(p, k) <= i < Offset(p, k + 1) && i < |p.items|
    requires AllSucceed(w, p, i) && w.job(ItemStep(p, i)).Failed?
    ensures var wf, o := ParallelWorkflow(p), Threw(ItemFailure(w, p, i));
            var h := BatchesSeen(w, p, k) + [o];
            && IsDirect(w, wf, h) && wf(h) == Finish(o) && StopCount(w, wf, h) == k + 1
            && |UsedNames(wf, h)| == Upto(p, Offset(p, k + 1))
  {
    hide BatchesSeen, IsDirect, StopCount, UsedNames, StopsAt, DirectOutcome, Key, ItemFailure;
    var wf, g, o := ParallelWorkflow(p), BatchesSeen(w, p, k), Threw(ItemFailure(w, p, i));
    BatchReached(w, p, k);
    BatchFails(w, p, k, i);
    DirectExtend(w, wf, g);
    BatchStops(w, p, k);
    StopCountExtend(w, wf, g, o);
    RunKeysExtend(wf, g, o);
    UsedAfterBatches(w, p, k);
    StepsAt(w, p, k);
  }
}
