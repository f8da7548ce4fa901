/** Child jobs: the same workflow replayed with `_executing_key` set, to run one task function. */
module Child {
  import opened Basics
  import opened Keys
  import opened Steps
  import opened Replay
  import opened Refinement
  import opened ReplayLoop

  // ---------- Safety, for every workflow and every checkpoint ----------

  ghost predicate OnlyRanBody(es: seq<Event>, key: string) {
    forall i :: 0 <= i < |es| ==> es[i].RanBody? && es[i].key == key && es[i].info.key == key
  }

  ghost predicate ChildSafe(done: Checkpoint, key: string, r: Round) {
    && r.pending == [] && !r.suspended && r.server == done
    && OnlyRanBody(r.events, key)
    && (r.status.Dispatches? ==> r.status.d.StepComplete?)
  }

  lemma {:induction false} ChildBatchKinds(done: Checkpoint, key: string, calls: seq<Call>, keys: seq<string>)
    requires |calls| == |keys|
    ensures var ts := Thenables(done, Some(key), calls, keys);
            && Pushed(ts) == []
            && (forall i :: 0 <= i < |Started(ts)| ==> Started(ts)[i].key == key)
            && !Settle(ts, false).SuspendsFirst?
  {
    if calls != [] {
      ChildBatchKinds(done, key, calls[1..], keys[1..]);
      assert Thenables(done, Some(key), calls, keys)[1..] == Thenables(done, Some(key), calls[1..], keys[1..]);
    }
  }

  lemma ChildBatchSafe(w: World, done: Checkpoint, key: string, calls: seq<Call>, keys: seq<string>, r: Round)
    requires |calls| == |keys| && ChildSafe(done, key, r) && r.status.Running?
    ensures ChildSafe(done, key, BatchRound(w, done, Some(key), calls, keys, r))
  {
    hide Thenables, Pushed, Started, Settle;
    ChildBatchKinds(done, key, calls, keys);
  }

  lemma ChildStepSafe(w: World, wf: Workflow, done: Checkpoint, key: string, tries: Tries, r: Round)
    requires ChildSafe(done, key, r) && r.status.Running?
    ensures ChildSafe(done, key, StepRound(w, wf, done, Some(key), tries, r))
  {
    hide ActionKeys, BatchRound;
    match wf(r.h)
    case Batch(calls) => ChildBatchSafe(w, done, key, calls, ActionKeys(wf, r.h), r);
    case _ =>
  }

  /** A child never queues, dispatches, sleeps, asks or checkpoints anything and runs no inline body;
      the only functions it runs are those whose key is its own, and the only thing it can throw to
      the wrapper as a suspension is `step_complete`. */
  lemma {:induction false} ChildIsSafe(w: World, wf: Workflow, done: Checkpoint, key: string, tries: Tries, n: nat)
    ensures ChildSafe(done, key, RoundAfter(w, wf, done, Some(key), tries, n))
  {
    hide StepRound, ChildSafe;
    if n > 0 {
      ChildIsSafe(w, wf, done, key, tries, n - 1);
      var r := RoundAfter(w, wf, done, Some(key), tries, n - 1);
      if r.status.Running? { ChildStepSafe(w, wf, done, key, tries, r); }
    } else {
      StartSafe(done, key);
    }
  }

  lemma StartSafe(done: Checkpoint, key: string)
    ensures ChildSafe(done, key, Round([], done, [], false, [], Running))
  {
  }

  // ---------- Reaching the step ----------

  /** A child runs no inline body, so it does not matter how often they were run before. */
  function NoTries(key: string): nat { 0 }

  /** No inline body among the actions of `h` threw. */
  ghost predicate InlinesReturned(w: World, wf: Workflow, h: seq<Outcome>) {
    h == [] || (InlinesReturned(w, wf, h[..|h| - 1]) && Rerun(w, wf, h[..|h| - 1]) == [])
  }

  lemma ReplaySeenInChild(w: World, wf: Workflow, h: seq<Outcome>, key: string, i: nat)
    requires WellBehaved(w, wf) && IsDirect(w, wf, h) && i < |h|
    requires key in ActionKeys(wf, h)
    ensures var r := Round(h[..i], Recorded(w, wf, h), [], false, [], Running);
            StepRound(w, wf, Recorded(w, wf, h), Some(key), NoTries, r)
            == if Rerun(w, wf, h[..i]) == [] then r.(h := h[..i + 1]) else r.(status := Stuck)
  {
    hide ActionKeys, Storable, DirectOutcome, Recorded, UsedNames, IsDirect, CollisionFree, BatchRound;
    var g, done := h[..i], Recorded(w, wf, h);
    var r := Round(g, done, [], false, [], Running);
    DirectPrefix(w, wf, h, i);
    assert h[..i + 1] == g + [h[i]];
    CollisionFreePrefix(UsedNames(wf, h), Names(wf(h)));
    forall k | k in ActionKeys(wf, g)
      ensures SameEntry(done, ActionRecord(w, wf, g), k)
    {
      RecordedAt(w, wf, h, i, k);
    }
    FreshKeys(wf, g);
    if Rerun(w, wf, g) == [] {
      StepSeen(w, wf, done, Some(key), NoTries, r);
    } else {
      assert InlineKey(wf, g) in ActionKeys(wf, g);
    }
  }

  /** A child replay follows the direct run up to the first inline body that threw, and no further. */
  lemma {:induction false} ChildFollowsDirect(w: World, wf: Workflow, h: seq<Outcome>, key: string, n: nat)
    requires WellBehaved(w, wf) && IsDirect(w, wf, h) && n <= |h|
    requires key in ActionKeys(wf, h)
    ensures var r := RoundAfter(w, wf, Recorded(w, wf, h), Some(key), NoTries, n);
            && r.events == []
            && (InlinesReturned(w, wf, h[..n]) ==> r == Round(h[..n], Recorded(w, wf, h), [], false, [], Running))
            && (!InlinesReturned(w, wf, h[..n]) ==> r.status.Stuck?)
  {
    hide WellBehaved, IsDirect, StepRound, Recorded, ActionKeys, Rerun;
    if n == 0 {
      assert h[..0] == [];
    } else {
      ChildFollowsDirect(w, wf, h, key, n - 1);
      ReplaySeenInChild(w, wf, h, key, n - 1);
      assert h[..n][..n - 1] == h[..n - 1];
    }
  }

  /** Members of a batch other than the executing one never settle. */
  lemma {:induction false} SiblingsPend(done: Checkpoint, key: string, calls: seq<Call>, keys: seq<string>)
    requires |calls| == |keys| && key !in keys
    requires forall i :: 0 <= i < |keys| ==> keys[i] !in done
    ensures var ts := Thenables(done, Some(key), calls, keys);
            Started(ts) == [] && Settle(ts, false) == if calls == [] then AllValues([]) else Pends
  {
    if calls != [] {
      SiblingsPend(done, key, calls[1..], keys[1..]);
      assert Thenables(done, Some(key), calls, keys)[1..] == Thenables(done, Some(key), calls[1..], keys[1..]);
    }
  }

  /** The replay `r` after its own function ended with `b`. */
  function AfterOwnStep(r: Round, info: StepInfo, b: BodyResult): Round {
    var r' := r.(events := [RanBody(info.key, info)]);
    if b.Returns? then r'.(status := Dispatches(StepComplete(b.value))) else Advance(r', Threw(b.error))
  }

  lemma {:induction false} OwnStepAmong(done: Checkpoint, calls: seq<Call>, keys: seq<string>, j: nat)
    requires |calls| == |keys| && Distinct(keys) && j < |calls| && calls[j].dispatchType == InlineTask
    requires keys[j] !in done
    ensures var ts, f := Thenables(done, Some(keys[j]), calls, keys), FirstFailed(done, keys);
            && Started(ts) == [InfoOf(calls[j], keys[j])] && Pushed(ts) == []
            && Settle(ts, false)
               == if f < |keys| then Fails(ReadEntry(done[keys[f]], TaskLabel(calls[f])).error) else Pends
  {
    hide ReadEntry, InfoOf, TaskLabel;
    var key := keys[j];
    var ts, rest := Thenables(done, Some(key), calls, keys), Thenables(done, Some(key), calls[1..], keys[1..]);
    assert ts[0] == ThenableOf(done, Some(key), calls[0], keys[0]) && ts[1..] == rest;
    if j == 0 {
      hide Thenables;
      OthersSettle(done, key, calls[1..], keys[1..]);
    } else {
      hide Thenables;
      OwnStepAmong(done, calls[1..], keys[1..], j - 1);
      if keys[0] in done { FailedReads(done[keys[0]], TaskLabel(calls[0])); }
    }
  }

  lemma FailedReads(v: Value, fallback: string)
    ensures ReadEntry(v, fallback).Threw? <==> v.Tagged?
  {
  }

  lemma {:induction false} OthersSettle(done: Checkpoint, key: string, calls: seq<Call>, keys: seq<string>)
    requires |calls| == |keys| && key !in keys
    ensures var ts, f := Thenables(done, Some(key), calls, keys), FirstFailed(done, keys);
            && Started(ts) == [] && Pushed(ts) == []
            && if f < |keys| then Settle(ts, false) == Fails(ReadEntry(done[keys[f]], TaskLabel(calls[f])).error)
               else Settle(ts, false).AllValues? || Settle(ts, false).Pends?
  {
    hide ReadEntry, InfoOf, TaskLabel;
    if calls != [] {
      var ts := Thenables(done, Some(key), calls, keys);
      assert ts[0] == ThenableOf(done, Some(key), calls[0], keys[0]);
      assert ts[1..] == Thenables(done, Some(key), calls[1..], keys[1..]);
      hide Thenables;
      OthersSettle(done, key, calls[1..], keys[1..]);
      if keys[0] in done { FailedReads(done[keys[0]], TaskLabel(calls[0])); }
    }
  }

  /** A child that finds a failed sibling in the checkpoint: the workflow gets that failure, unless the
      child's own function settles first. */
  lemma OwnStepOrFailure(w: World, done: Checkpoint, calls: seq<Call>, keys: seq<string>, j: nat, r: Round)
    requires |calls| == |keys| && Distinct(keys) && j < |calls| && calls[j].dispatchType == InlineTask
    requires keys[j] !in done && r.pending == [] && !r.suspended && r.events == []
    ensures var info, f := InfoOf(calls[j], keys[j]), FirstFailed(done, keys);
            BatchRound(w, done, Some(keys[j]), calls, keys, r)
            == if f == |keys| || w.settlesFirst(info) then AfterOwnStep(r, info, w.fn(info))
               else Advance(r.(events := [RanBody(info.key, info)]), ReadEntry(done[keys[f]], TaskLabel(calls[f])))
  {
    hide Thenables, Pushed, Started, Settle;
    OwnStepAmong(done, calls, keys, j);
    var info := InfoOf(calls[j], keys[j]);
    assert RanAll([info]) == [RanBody(info.key, info)] && [] + RanAll([info]) == RanAll([info]);
    assert [] + [] == r.pending;
  }

  /** The child that starts from the checkpoint `Recorded(h)` for member `j` of the batch after `h`. */
  function ChildRound(w: World, wf: Workflow, h: seq<Outcome>, j: nat, n: nat): Round
    requires j < |ActionKeys(wf, h)|
  {
    RoundAfter(w, wf, Recorded(w, wf, h), Some(ActionKeys(wf, h)[j]), NoTries, n)
  }

  ghost predicate IsInlineTask(wf: Workflow, h: seq<Outcome>, j: nat) {
    wf(h).Batch? && j < |wf(h).calls| && wf(h).calls[j].dispatchType == InlineTask
  }

  function DispatchedStep(wf: Workflow, h: seq<Outcome>, j: nat): StepInfo
    requires IsInlineTask(wf, h, j)
  {
    Infos(wf(h).calls, ActionKeys(wf, h))[j]
  }

  /** If no inline body before it threw, the child runs exactly the call that the parent dispatched,
      with the same name, script and arguments, and completes the step with what the function
      returns; an exception of the function is seen by the workflow at that await. */
  lemma ChildRunsDispatchedCall(w: World, wf: Workflow, h: seq<Outcome>, j: nat)
    requires WellBehaved(w, wf) && IsDirect(w, wf, h) && IsInlineTask(wf, h, j)
    requires InlinesReturned(w, wf, h)
    ensures DispatchOf(w, wf, h).Tasks? && DispatchOf(w, wf, h).steps[j] == DispatchedStep(wf, h, j)
    ensures Carries(DispatchedStep(wf, h, j), wf(h).calls[j], ActionKeys(wf, h)[j])
    ensures var es := ChildRound(w, wf, h, j, |h| + 1).events;
            |es| == 1 && es[0].RanBody? && Carries(es[0].info, wf(h).calls[j], ActionKeys(wf, h)[j])
    ensures var info := DispatchedStep(wf, h, j);
            ChildRound(w, wf, h, j, |h| + 1)
            == AfterOwnStep(Round(h, Recorded(w, wf, h), [], false, [], Running), info, w.fn(info))
  {
    hide Recorded, ActionKeys, UsedNames, CollisionFree, IsDirect, Storable, BatchRound;
    var calls, keys := wf(h).calls, ActionKeys(wf, h);
    NewKeysNotRecorded(w, wf, h, h);
    assert forall i :: 0 <= i < |keys| ==> keys[i] in keys;
    assert h[..|h|] == h;
    ChildFollowsDirect(w, wf, h, keys[j], |h|);
    OwnStepOrFailure(w, Recorded(w, wf, h), calls, keys, j, Round(h, Recorded(w, wf, h), [], false, [], Running));
  }

  /** The child gets to run its function exactly when no earlier inline body threw; otherwise it waits
      forever at the first one that did. */
  lemma ChildRunsIff(w: World, wf: Workflow, h: seq<Outcome>, j: nat)
    requires WellBehaved(w, wf) && IsDirect(w, wf, h) && IsInlineTask(wf, h, j)
    ensures (exists n :: ChildRound(w, wf, h, j, n).events != []) <==> InlinesReturned(w, wf, h)
    ensures !InlinesReturned(w, wf, h) ==> forall n :: n >= |h| ==> ChildRound(w, wf, h, j, n).status.Stuck?
  {
    hide WellBehaved, IsDirect, RoundAfter, Recorded, ActionKeys, InlinesReturned;
    if InlinesReturned(w, wf, h) {
      ChildRunsDispatchedCall(w, wf, h, j);
      assert ChildRound(w, wf, h, j, |h| + 1).events != [];
    } else {
      ChildStuck(w, wf, h, j);
    }
  }

  lemma ChildStuck(w: World, wf: Workflow, h: seq<Outcome>, j: nat)
    requires WellBehaved(w, wf) && IsDirect(w, wf, h) && IsInlineTask(wf, h, j)
    requires !InlinesReturned(w, wf, h)
    ensures forall n: nat :: ChildRound(w, wf, h, j, n).events == [] && (n >= |h| ==>
            ChildRound(w, wf, h, j, n).status.Stuck?)
  {
    hide WellBehaved, IsDirect, RoundAfter, Recorded, ActionKeys, InlinesReturned;
    var key := ActionKeys(wf, h)[j];
    assert key in ActionKeys(wf, h) && h[..|h|] == h;
    ChildFollowsDirect(w, wf, h, key, |h|);
    forall n: nat
      ensures ChildRound(w, wf, h, j, n).events == [] && (n >= |h| ==> ChildRound(w, wf, h, j, n).status.Stuck?)
    {
      if n <= |h| { ChildFollowsDirect(w, wf, h, key, n); }
      else { RoundStays(w, wf, Recorded(w, wf, h), Some(key), NoTries, |h|, n); }
    }
  }

  // ---------- What the child's job reports ----------

  /** The job result that the wrapper writes for a finished child; `id` names the child job. */
  function Report(r: Round, id: string): Option<JobResult> {
    match r.status
    case Dispatches(StepComplete(v)) => Some(Succeeded(Stored(v)))
    case Finished(Returned(v)) => Some(Succeeded(Stored(v)))
    case Finished(Threw(e)) => Some(Failed(e.message, id))
    case _ => None
  }

  /** If jobs of task functions are these child replays, then a function that returns gives its job
      exactly that result, so the direct run is the run of the functions themselves. */
  lemma ChildJobIsFunction(w: World, wf: Workflow, h: seq<Outcome>, j: nat, id: string, n: nat)
    requires WellBehaved(w, wf) && IsDirect(w, wf, h) && IsInlineTask(wf, h, j)
    requires InlinesReturned(w, wf, h) && w.fn(DispatchedStep(wf, h, j)).Returns?
    ensures Report(ChildRound(w, wf, h, j, n), id)
            == if n <= |h| then None else Some(Succeeded(Stored(w.fn(DispatchedStep(wf, h, j)).value)))
  {
    hide WellBehaved, IsDirect, RoundAfter, Recorded, ActionKeys;
    var key := ActionKeys(wf, h)[j];
    assert key in ActionKeys(wf, h);
    if n <= |h| {
      ChildFollowsDirect(w, wf, h, key, n);
      InlinesReturnedPrefix(w, wf, h, n);
    } else {
      ChildRunsDispatchedCall(w, wf, h, j);
      RoundStays(w, wf, Recorded(w, wf, h), Some(key), NoTries, |h| + 1, n);
    }
  }

  lemma {:induction false} InlinesReturnedPrefix(w: World, wf: Workflow, h: seq<Outcome>, n: nat)
    requires InlinesReturned(w, wf, h) && n <= |h|
    ensures InlinesReturned(w, wf, h[..n])
    decreases |h|
  {
    hide Rerun;
    if n < |h| {
      InlinesReturnedPrefix(w, wf, h[..|h| - 1], n);
      assert h[..|h| - 1][..n] == h[..n];
    } else {
      assert h[..n] == h;
    }
  }

  /** `h` followed by `m` times awaiting `Promise.all([])`. */
  function Idle(h: seq<Outcome>, m: nat): seq<Outcome> {
    if m == 0 then h else Idle(h, m - 1) + [Returned(List([]))]
  }

  ghost predicate Idles(wf: Workflow, h: seq<Outcome>, m: nat) {
    forall i :: 0 <= i < m ==> wf(Idle(h, i)) == Batch([])
  }

  lemma {:induction false} IdleKeys(wf: Workflow, h: seq<Outcome>, m: nat)
    requires Idles(wf, h, m)
    ensures RunKeys(wf, Idle(h, m)) == RunKeys(wf, h) && UsedNames(wf, Idle(h, m)) == UsedNames(wf, h)
  {
    hide RunKeys, UsedNames;
    if m > 0 {
      IdleKeys(wf, h, m - 1);
      assert wf(Idle(h, m - 1)) == Batch([]);
      RunKeysExtend(wf, Idle(h, m - 1), Returned(List([])));
    }
  }

  lemma IdleStep(w: World, wf: Workflow, done: Checkpoint, exec: Option<string>, tries: Tries, r: Round)
    requires wf(r.h) == Batch([]) && r.pending == []
    ensures StepRound(w, wf, done, exec, tries, r) == Advance(r, Returned(List([])))
  {
    assert RanAll([]) == [] && r.events + [] == r.events;
  }

  /** After its function threw, nothing the child still asks for is ever answered. */
  lemma ChildStopsAfterFailure(w: World, wf: Workflow, h: seq<Outcome>, j: nat, e: StepError, m: nat, r: Round)
    requires WellBehaved(w, wf) && IsDirect(w, wf, h) && IsInlineTask(wf, h, j)
    requires r.h == Idle(h + [Threw(e)], m) && Idles(wf, h + [Threw(e)], m) && wf(r.h) != Batch([])
    requires CollisionFree(UsedNames(wf, r.h) + Names(wf(r.h))) && !r.suspended && r.pending == []
    ensures StepRound(w, wf, Recorded(w, wf, h), Some(ActionKeys(wf, h)[j]), NoTries, r).status
            == if wf(r.h).Finish? then Finished(wf(r.h).outcome) else Stuck
  {
    hide Recorded, ActionKeys, UsedNames, CollisionFree, IsDirect, WellBehaved, RunKeys, BatchRound, Idle;
    var key, done, keys := ActionKeys(wf, h)[j], Recorded(w, wf, h), ActionKeys(wf, r.h);
    FreshKeys(wf, r.h);
    IdleKeys(wf, h + [Threw(e)], m);
    RunKeysExtend(wf, h, Threw(e));
    RecordedKeys(w, wf, h);
    assert key in ActionKeys(wf, h);
    assert key !in keys && forall k :: k in keys ==> k !in done;
    assert forall i :: 0 <= i < |keys| ==> keys[i] in keys;
    if wf(r.h).Batch? { SiblingsHang(w, done, key, wf(r.h).calls, keys, r); }
  }

  lemma SiblingsHang(w: World, done: Checkpoint, key: string, calls: seq<Call>, keys: seq<string>, r: Round)
    requires |calls| == |keys| && key !in keys && calls != [] && !r.suspended
    requires forall i :: 0 <= i < |keys| ==> keys[i] !in done
    ensures BatchRound(w, done, Some(key), calls, keys, r).status == Stuck
  {
    hide Thenables, Pushed, Started, Settle;
    SiblingsPend(done, key, calls, keys);
  }

  /** What the job reports when the workflow's reaction to the exception is action `a`. */
  predicate ReportsReaction(r: Option<JobResult>, a: Action, id: string) {
    && (!a.Finish? ==> r == None)
    && (a.Finish? && a.outcome.Threw? ==> r == Some(Failed(a.outcome.error.message, id)))
    && (a.Finish? && a.outcome.Returned? ==>
          r == Some(Succeeded(if a.outcome.value.Undefined? then Null else a.outcome.value)))
  }

  /** The child's replay while the workflow, having got the exception, only awaits empty batches. */
  lemma {:induction false} ChildIdles(w: World, wf: Workflow, h: seq<Outcome>, j: nat, m: nat)
    requires WellBehaved(w, wf) && IsDirect(w, wf, h) && IsInlineTask(wf, h, j) && InlinesReturned(w, wf, h)
    requires w.fn(DispatchedStep(wf, h, j)).Throws?
    requires Idles(wf, h + [Threw(w.fn(DispatchedStep(wf, h, j)).error)], m)
    ensures var info := DispatchedStep(wf, h, j);
            ChildRound(w, wf, h, j, |h| + 1 + m)
            == Round(Idle(h + [Threw(w.fn(info).error)], m), Recorded(w, wf, h), [], false, [RanBody(info.key, info)],
                Running)
    decreases m
  {
    hide WellBehaved, IsDirect, Recorded, ActionKeys, StepRound;
    if m == 0 {
      ChildRunsDispatchedCall(w, wf, h, j);
    } else {
      ChildIdles(w, wf, h, j, m - 1);
      var r := ChildRound(w, wf, h, j, |h| + m);
      assert |h| + 1 + (m - 1) == |h| + m && wf(r.h) == Batch([]);
      IdleStep(w, wf, Recorded(w, wf, h), Some(ActionKeys(wf, h)[j]), NoTries, r);
    }
  }

  /** A function that throws makes its job fail exactly when the workflow lets the exception out before
      it awaits anything but empty batches. If the workflow instead catches it and returns, the job
      succeeds and the step is recorded with the workflow's return value; if it catches it and awaits
      something, or empty batches for ever, the child's replay reports nothing. */
  lemma FailureReportedIff(w: World, wf: Workflow, h: seq<Outcome>, j: nat, m: nat, id: string)
    requires WellBehaved(w, wf) && IsDirect(w, wf, h) && IsInlineTask(wf, h, j)
    requires InlinesReturned(w, wf, h) && w.fn(DispatchedStep(wf, h, j)).Throws?
    requires var h' := h + [Threw(w.fn(DispatchedStep(wf, h, j)).error)];
             Idles(wf, h', m) && CollisionFree(UsedNames(wf, Idle(h', m)) + Names(wf(Idle(h', m))))
    ensures forall n: nat :: n <= |h| + 1 + m ==> Report(ChildRound(w, wf, h, j, n), id) == None
    ensures var a := wf(Idle(h + [Threw(w.fn(DispatchedStep(wf, h, j)).error)], m));
            a != Batch([]) ==>
              && (forall n :: n >= |h| + 2 + m ==> ReportsReaction(Report(ChildRound(w, wf, h, j, n), id), a, id))
              && ((exists n :: JobFails(Report(ChildRound(w, wf, h, j, n), id))) <==> a.Finish? && a.outcome.Threw?)
  {
    hide WellBehaved, IsDirect, Recorded, ActionKeys, CollisionFree, UsedNames, StepRound, Idle;
    var e := w.fn(DispatchedStep(wf, h, j)).error;
    var h'' := Idle(h + [Threw(e)], m);
    forall n: nat | n <= |h| + 1 + m ensures Report(ChildRound(w, wf, h, j, n), id) == None {
      StillRunning(w, wf, h, j, m, n, id);
    }
    ChildIdles(w, wf, h, j, m);
    if wf(h'') != Batch([]) {
      ChildStopsAfterFailure(w, wf, h, j, e, m, ChildRound(w, wf, h, j, |h| + 1 + m));
      forall n | n >= |h| + 2 + m ensures ReportsReaction(Report(ChildRound(w, wf, h, j, n), id), wf(h''), id) {
        RoundStays(w, wf, Recorded(w, wf, h), Some(ActionKeys(wf, h)[j]), NoTries, |h| + 2 + m, n);
      }
      assert ReportsReaction(Report(ChildRound(w, wf, h, j, |h| + 2 + m), id), wf(h''), id);
    }
  }

  predicate JobFails(r: Option<JobResult>) {
    r.Some? && r.value.Failed?
  }

  lemma StillRunning(w: World, wf: Workflow, h: seq<Outcome>, j: nat, m: nat, n: nat, id: string)
    requires WellBehaved(w, wf) && IsDirect(w, wf, h) && IsInlineTask(wf, h, j) && InlinesReturned(w, wf, h)
    requires w.fn(DispatchedStep(wf, h, j)).Throws?
    requires Idles(wf, h + [Threw(w.fn(DispatchedStep(wf, h, j)).error)], m) && n <= |h| + 1 + m
    ensures Report(ChildRound(w, wf, h, j, n), id) == None
  {
    hide WellBehaved, IsDirect, Recorded, ActionKeys, RoundAfter, InlinesReturned, Idle;
    if n <= |h| {
      assert ActionKeys(wf, h)[j] in ActionKeys(wf, h);
      ChildFollowsDirect(w, wf, h, ActionKeys(wf, h)[j], n);
      InlinesReturnedPrefix(w, wf, h, n);
    } else {
      ChildIdles(w, wf, h, j, n - |h| - 1);
    }
  }

  // ---------- The system as a whole ----------

  /** The job of every task function the run dispatches is a child replay that ended. */
  ghost predicate JobsAreChildren(w: World, wf: Workflow) {
    forall h, j: nat :: IsDirect(w, wf, h) && IsInlineTask(wf, h, j) ==>
      exists n: nat, id: string :: Report(ChildRound(w, wf, h, j, n), id) == Some(w.job(DispatchedStep(wf, h, j)))
  }

  /** The workflow, told of the exception `e` of a task function at the await after `h`, lets it out. */
  ghost predicate LetsOut(wf: Workflow, h: seq<Outcome>, e: StepError) {
    exists m :: LetsOutAfter(wf, h, e, m)
  }

  ghost predicate LetsOutAfter(wf: Workflow, h: seq<Outcome>, e: StepError, m: nat) {
    Idles(wf, h + [Threw(e)], m) && wf(Idle(h + [Threw(e)], m)) == Finish(Threw(e))
  }

  /** The task function returns, or the workflow lets its exception out. */
  ghost predicate Reported(w: World, wf: Workflow, h: seq<Outcome>, j: nat)
    requires IsInlineTask(wf, h, j)
  {
    var b := w.fn(DispatchedStep(wf, h, j));
    b.Throws? ==> LetsOut(wf, h, b.error)
  }

  /** What the function of a task makes of its job; the id of a failed child job is the worker's choice. */
  function FunctionJob(w: World, info: StepInfo): JobResult {
    match w.fn(info)
    case Returns(v) => Succeeded(Stored(v))
    case Throws(e) => Failed(e.message, if w.job(info).Failed? then w.job(info).childJobId else "")
  }

  /** A function whose exception is let out makes its job fail with its message. */
  lemma ThrownJob(w: World, wf: Workflow, h: seq<Outcome>, j: nat, m: nat, id: string)
    requires WellBehaved(w, wf) && IsDirect(w, wf, h) && IsInlineTask(wf, h, j) && InlinesReturned(w, wf, h)
    requires w.fn(DispatchedStep(wf, h, j)).Throws?
    requires LetsOutAfter(wf, h, w.fn(DispatchedStep(wf, h, j)).error, m)
    ensures forall n: nat :: Report(ChildRound(w, wf, h, j, n), id)
              == if n <= |h| + 1 + m then None else Some(Failed(w.fn(DispatchedStep(wf, h, j)).error.message, id))
  {
    hide IsDirect, InlinesReturned, ActionKeys, RoundAfter, Recorded, Idle, Idles, Storable, CollisionFree, UsedNames;
    var e := w.fn(DispatchedStep(wf, h, j)).error;
    var h' := h + [Threw(e)];
    IdleKeys(wf, h', m);
    RunKeysExtend(wf, h, Threw(e));
    assert UsedNames(wf, Idle(h', m)) + [] == UsedNames(wf, h) + Names(wf(h));
    FailureReportedIff(w, wf, h, j, m, id);
  }

  lemma JobIsItsFunction(w: World, wf: Workflow, h: seq<Outcome>, j: nat)
    requires WellBehaved(w, wf) && JobsAreChildren(w, wf) && IsDirect(w, wf, h) && IsInlineTask(wf, h, j)
    requires InlinesReturned(w, wf, h) && Reported(w, wf, h, j)
    ensures w.job(DispatchedStep(wf, h, j)) == FunctionJob(w, DispatchedStep(wf, h, j))
  {
    hide WellBehaved, IsDirect, InlinesReturned, ActionKeys, RoundAfter, Recorded, LetsOutAfter;
    var n: nat, id: string :| Report(ChildRound(w, wf, h, j, n), id) == Some(w.job(DispatchedStep(wf, h, j)));
    var b := w.fn(DispatchedStep(wf, h, j));
    if b.Returns? {
      ChildJobIsFunction(w, wf, h, j, id, n);
    } else {
      var m :| LetsOutAfter(wf, h, b.error, m);
      ThrownJob(w, wf, h, j, m, id);
    }
  }

  /** With parent and child replays taken together, awaiting a batch of tasks whose functions return
      means awaiting those functions: their values, in order. */
  lemma BatchIsItsFunctions(w: World, wf: Workflow, h: seq<Outcome>)
    requires WellBehaved(w, wf) && JobsAreChildren(w, wf) && IsDirect(w, wf, h) && InlinesReturned(w, wf, h)
    requires wf(h).Batch?
    requires forall j :: 0 <= j < |wf(h).calls| ==> IsInlineTask(wf, h, j) && w.fn(DispatchedStep(wf, h, j)).Returns?
    ensures var infos := Infos(wf(h).calls, ActionKeys(wf, h));
            && (forall j :: 0 <= j < |infos| ==> w.fn(infos[j]).Returns?)
            && DirectOutcome(w, wf, h)
               == Returned(List(seq(|infos|, j requires 0 <= j < |infos| &&
                   w.fn(infos[j]).Returns? => Stored(w.fn(infos[j]).value))))
  {
    hide WellBehaved, IsDirect, InlinesReturned, ActionKeys, JobsAreChildren;
    var infos := Infos(wf(h).calls, ActionKeys(wf, h));
    forall j | 0 <= j < |infos|
      ensures w.fn(infos[j]).Returns? && w.job(infos[j]) == Succeeded(Stored(w.fn(infos[j]).value))
    {
      assert IsInlineTask(wf, h, j) && infos[j] == DispatchedStep(wf, h, j);
      JobIsItsFunction(w, wf, h, j);
    }
    InPlaceReturns(w, infos);
  }

  lemma {:induction false} InPlaceReturns(w: World, infos: seq<StepInfo>)
    requires forall j :: 0 <= j < |infos| ==>
             w.fn(infos[j]).Returns? && w.job(infos[j]) == Succeeded(Stored(w.fn(infos[j]).value))
    ensures InPlaceAll(w, infos)
            == AllValues(seq(|infos|, j requires 0 <= j < |infos| &&
                w.fn(infos[j]).Returns? => Stored(w.fn(infos[j]).value)))
  {
    if infos != [] { InPlaceReturns(w, infos[1..]); }
  }

  /** The world in which a task is its function. */
  function TasksInPlace(w: World): World {
    w.(job := (info: StepInfo) => if info.dispatchType == InlineTask then FunctionJob(w, info) else w.job(info))
  }

  /** Along the run whose tasks are their functions, inline bodies return, and the exception of a task
      function is let out by the workflow in the function's own job. */
  ghost predicate AllReported(w: World, wf: Workflow) {
    forall h :: IsDirect(TasksInPlace(w), wf, h) ==>
      !ThrowsAt(w, wf, h) && forall j :: 0 <= j && IsInlineTask(wf, h, j) ==> Reported(w, wf, h, j)
  }

  lemma {:induction false} InPlaceSame(w: World, w': World, infos: seq<StepInfo>)
    requires forall i :: 0 <= i < |infos| ==> w.job(infos[i]) == w'.job(infos[i])
    ensures InPlaceAll(w, infos) == InPlaceAll(w', infos)
  {
    if infos != [] { InPlaceSame(w, w', infos[1..]); }
  }

  lemma SameOutcome(w: World, wf: Workflow, h: seq<Outcome>)
    requires WellBehaved(w, wf) && JobsAreChildren(w, wf) && AllReported(w, wf) && !wf(h).Finish?
    requires IsDirect(w, wf, h) && IsDirect(TasksInPlace(w), wf, h) && InlinesReturned(w, wf, h)
    ensures DirectOutcome(w, wf, h) == DirectOutcome(TasksInPlace(w), wf, h)
  {
    hide WellBehaved, IsDirect, InlinesReturned, ActionKeys, JobsAreChildren, InPlaceAll, Reported, FunctionJob;
    if wf(h).Batch? {
      var infos := Infos(wf(h).calls, ActionKeys(wf, h));
      forall j | 0 <= j < |infos| ensures w.job(infos[j]) == TasksInPlace(w).job(infos[j]) {
        if IsInlineTask(wf, h, j) {
          assert infos[j] == DispatchedStep(wf, h, j);
          JobIsItsFunction(w, wf, h, j);
        }
      }
      InPlaceSame(w, TasksInPlace(w), infos);
    }
  }

  lemma {:induction false} SameRun(w: World, wf: Workflow, h: seq<Outcome>)
    requires WellBehaved(w, wf) && JobsAreChildren(w, wf) && AllReported(w, wf)
    ensures IsDirect(w, wf, h) <==> IsDirect(TasksInPlace(w), wf, h)
    ensures IsDirect(w, wf, h) ==> InlinesReturned(w, wf, h)
    decreases |h|
  {
    hide WellBehaved, JobsAreChildren, DirectOutcome, TasksInPlace, ActionKeys;
    if h != [] {
      var init := h[..|h| - 1];
      SameRun(w, wf, init);
      if IsDirect(w, wf, init) && !wf(init).Finish? {
        SameOutcome(w, wf, init);
        assert !ThrowsAt(w, wf, init);
      }
    }
  }

  /** Parent and child replays taken together: the loop ends with the outcome that calling the task
      functions in place leads to. A function that throws counts as a failed job with its message. */
  lemma LoopRunsFunctions(w: World, wf: Workflow, h: seq<Outcome>, o: Outcome, n: nat, k: nat)
    requires WellBehaved(w, wf) && JobsAreChildren(w, wf) && AllReported(w, wf)
    requires IsDirect(TasksInPlace(w), wf, h) && wf(h) == Finish(o) && n > |h|
    ensures k > StopCount(w, wf, h) ==>
              LoopAfter(w, wf, n, k).Ended? && LoopAfter(w, wf, n, k).outcome == o
  {
    hide WellBehaved, JobsAreChildren, IsDirect, LoopAfter, SteadyAt, StopCount, OnceEach, ThrownEach, ThrowsAt;
    SameRun(w, wf, h);
    forall g, i: nat | IsDirect(w, wf, g) && i < |g| ensures !ThrowsAt(w, wf, g[..i]) {
      DirectPrefix(w, wf, g, i);
      SameRun(w, wf, g[..i]);
    }
    ReplayRefinesDirect(w, wf, h, o, n, k);
  }

  lemma {:induction false} SameJobsSameRun(w: World, wf: Workflow, h: seq<Outcome>)
    requires forall info: StepInfo :: info.dispatchType == InlineTask ==> w.job(info) == FunctionJob(w, info)
    requires AllReported(w, wf) && IsDirect(w, wf, h)
    ensures IsDirect(TasksInPlace(w), wf, h) && InlinesReturned(w, wf, h)
    decreases |h|
  {
    hide ActionKeys, FunctionJob, Reported;
    if h != [] {
      var init := h[..|h| - 1];
      SameJobsSameRun(w, wf, init);
      if wf(init).Batch? {
        InPlaceSame(w, TasksInPlace(w), Infos(wf(init).calls, ActionKeys(wf, init)));
      }
      assert !ThrowsAt(w, wf, init);
    }
  }

  /** Conversely, jobs that report what their functions do are what the child replays produce. */
  lemma ChildrenProduceJobs(w: World, wf: Workflow)
    requires WellBehaved(w, wf) && AllReported(w, wf)
    requires forall info: StepInfo :: info.dispatchType == InlineTask ==> w.job(info) == FunctionJob(w, info)
    ensures JobsAreChildren(w, wf)
  {
    hide WellBehaved, IsDirect, InlinesReturned, ActionKeys, RoundAfter, Recorded, Stored, TasksInPlace;
    forall h, j: nat | IsDirect(w, wf, h) && IsInlineTask(wf, h, j)
      ensures exists n: nat, id: string ::
                Report(ChildRound(w, wf, h, j, n), id) == Some(w.job(DispatchedStep(wf, h, j)))
    {
      SameJobsSameRun(w, wf, h);
      ChildProducesJob(w, wf, h, j);
    }
  }

  lemma ChildProducesJob(w: World, wf: Workflow, h: seq<Outcome>, j: nat)
    requires WellBehaved(w, wf) && IsDirect(w, wf, h) && IsInlineTask(wf, h, j) && InlinesReturned(w, wf, h)
    requires Reported(w, wf, h, j) && w.job(DispatchedStep(wf, h, j)) == FunctionJob(w, DispatchedStep(wf, h, j))
    ensures exists n: nat, id: string :: Report(ChildRound(w, wf, h, j, n), id) == Some(w.job(DispatchedStep(wf, h, j)))
  {
    hide WellBehaved, IsDirect, InlinesReturned, ActionKeys, RoundAfter, Recorded, Stored, LetsOutAfter;
    var info := DispatchedStep(wf, h, j);
    var b := w.fn(info);
    if b.Returns? {
      ChildJobIsFunction(w, wf, h, j, "", |h| + 1);
      assert Report(ChildRound(w, wf, h, j, |h| + 1), "") == Some(w.job(info));
    } else {
      var m :| LetsOutAfter(wf, h, b.error, m);
      var id := w.job(info).childJobId;
      ThrownJob(w, wf, h, j, m, id);
      assert Report(ChildRound(w, wf, h, j, |h| + 2 + m), id) == Some(w.job(info));
    }
  }
}
