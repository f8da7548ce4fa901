/** Replaying from checkpoints means the same as running the workflow directly. */
module Refinement {
  import opened Basics
  import opened Keys
  import opened Steps
  import opened Replay

  // ---------- Direct histories ----------

  lemma {:induction false} DirectPrefix(w: World, wf: Workflow, h: seq<Outcome>, i: nat)
    requires IsDirect(w, wf, h) && i <= |h|
    ensures IsDirect(w, wf, h[..i])
    ensures i < |h| ==> !wf(h[..i]).Finish? && h[i] == DirectOutcome(w, wf, h[..i])
    decreases |h|
  {
    hide DirectOutcome;
    if i == |h| {
      assert h[..i] == h;
    } else {
      var init := h[..|h| - 1];
      if i < |init| {
        DirectPrefix(w, wf, init, i);
        assert init[..i] == h[..i];
      }
    }
  }

  /** There is one direct run: two histories of it agree as far as both go. */
  lemma {:induction false} DirectUnique(w: World, wf: Workflow, g: seq<Outcome>, h: seq<Outcome>)
    requires IsDirect(w, wf, g) && IsDirect(w, wf, h) && |g| <= |h|
    ensures g == h[..|g|]
    decreases |g|
  {
    hide DirectOutcome, IsDirect;
    if g != [] {
      var n := |g| - 1;
      DirectPrefix(w, wf, g, n);
      DirectUnique(w, wf, g[..n], h);
      DirectPrefix(w, wf, h, n);
      assert g == g[..n] + [g[n]];
      assert h[..n + 1] == h[..n] + [h[n]];
    }
  }

  lemma DirectExtend(w: World, wf: Workflow, h: seq<Outcome>)
    requires IsDirect(w, wf, h) && !wf(h).Finish?
    ensures IsDirect(w, wf, h + [DirectOutcome(w, wf, h)])
  {
    hide DirectOutcome;
    assert (h + [DirectOutcome(w, wf, h)])[..|h|] == h;
  }

  // ---------- Keys along a run ----------

  function RunKeys(wf: Workflow, h: seq<Outcome>): seq<string> {
    AllocatedKeys(UsedNames(wf, h))
  }

  lemma RunKeysExtend(wf: Workflow, h: seq<Outcome>, o: Outcome)
    ensures RunKeys(wf, h + [o]) == RunKeys(wf, h) + ActionKeys(wf, h)
    ensures UsedNames(wf, h + [o]) == UsedNames(wf, h) + Names(wf(h))
  {
    hide Names, AllocatedKeys;
    assert (h + [o])[..|h|] == h;
    AllocatedKeysPrefix(UsedNames(wf, h), Names(wf(h)));
  }

  lemma {:induction false} RunKeysPrefix(wf: Workflow, h: seq<Outcome>, i: nat)
    requires i <= |h|
    ensures RunKeys(wf, h[..i]) <= RunKeys(wf, h)
    decreases |h|
  {
    hide ActionKeys, RunKeys, UsedNames;
    if i == |h| {
      assert h[..i] == h;
    } else {
      var init := h[..|h| - 1];
      assert init[..i] == h[..i];
      RunKeysPrefix(wf, init, i);
      assert h == init + [h[|h| - 1]];
      RunKeysExtend(wf, init, h[|h| - 1]);
    }
  }

  /** The keys of the next action are new, and different from one another. */
  lemma FreshKeys(wf: Workflow, h: seq<Outcome>)
    requires CollisionFree(UsedNames(wf, h) + Names(wf(h)))
    ensures forall k :: k in ActionKeys(wf, h) ==> k !in RunKeys(wf, h)
    ensures Distinct(ActionKeys(wf, h)) && Distinct(RunKeys(wf, h))
  {
    hide Names, AllocatedKeys, UsedNames, CollisionFree;
    var used := UsedNames(wf, h);
    var all := AllocatedKeys(used + Names(wf(h)));
    CollisionFreeKeysDistinct(used + Names(wf(h)));
    AllocatedKeysPrefix(used, Names(wf(h)));
    assert RunKeys(wf, h) == all[..|used|] && ActionKeys(wf, h) == all[|used|..];
  }

  // ---------- What the checkpoint holds ----------

  function StepKeys(infos: seq<StepInfo>): seq<string> {
    seq(|infos|, i requires 0 <= i < |infos| => infos[i].key)
  }

  lemma {:induction false} RecordJobsKeys(w: World, infos: seq<StepInfo>)
    ensures forall k :: k in RecordJobs(w, infos) <==> k in StepKeys(infos)
  {
    hide RecordJob;
    if infos != [] {
      var init, last := infos[..|infos| - 1], infos[|infos| - 1];
      RecordJobsKeys(w, init);
      assert StepKeys(infos) == StepKeys(init) + [last.key];
    }
  }

  lemma {:induction false} RecordJobsAt(w: World, infos: seq<StepInfo>, i: nat)
    requires DistinctSteps(infos) && i < |infos|
    ensures infos[i].key in RecordJobs(w, infos)
    ensures RecordJobs(w, infos)[infos[i].key] == RecordJob(infos[i], w.job(infos[i]))
  {
    hide RecordJob;
    if i < |infos| - 1 {
      RecordJobsAt(w, infos[..|infos| - 1], i);
    }
  }

  lemma InfosDistinct(calls: seq<Call>, keys: seq<string>)
    requires |calls| == |keys| && Distinct(keys)
    ensures DistinctSteps(Infos(calls, keys))
  {
  }

  lemma ActionRecordKeys(w: World, wf: Workflow, h: seq<Outcome>)
    ensures forall k :: k in ActionRecord(w, wf, h) ==> k in ActionKeys(wf, h)
  {
    hide ActionKeys, RecordJobs;
    match wf(h)
    case Batch(calls) =>
      RecordJobsKeys(w, Infos(calls, ActionKeys(wf, h)));
      assert StepKeys(Infos(calls, ActionKeys(wf, h))) == ActionKeys(wf, h);
    case _ =>
  }

  lemma {:induction false} RecordedKeys(w: World, wf: Workflow, h: seq<Outcome>)
    ensures forall k :: k in Recorded(w, wf, h) ==> k in RunKeys(wf, h)
    decreases |h|
  {
    hide ActionRecord, RunKeys, ActionKeys;
    if h != [] {
      var init := h[..|h| - 1];
      RecordedKeys(w, wf, init);
      ActionRecordKeys(w, wf, init);
      assert h == init + [h[|h| - 1]];
      RunKeysExtend(wf, init, h[|h| - 1]);
    }
  }

  lemma RecordedExtend(w: World, wf: Workflow, h: seq<Outcome>, o: Outcome)
    ensures Recorded(w, wf, h + [o]) == Recorded(w, wf, h) + ActionRecord(w, wf, h)
  {
    hide ActionRecord;
    assert (h + [o])[..|h|] == h;
  }

  ghost predicate SameEntry(a: Checkpoint, b: Checkpoint, k: string) {
    (k in a <==> k in b) && (k in a ==> a[k] == b[k])
  }

  /** For an action already seen, the checkpoint holds its entries and nothing else under its keys. */
  lemma {:induction false} RecordedAt(w: World, wf: Workflow, g: seq<Outcome>, i: nat, k: string)
    requires i < |g| && CollisionFree(UsedNames(wf, g)) && k in ActionKeys(wf, g[..i])
    ensures SameEntry(Recorded(w, wf, g), ActionRecord(w, wf, g[..i]), k)
    decreases |g|
  {
    hide ActionKeys, ActionRecord, RunKeys, UsedNames, CollisionFree;
    var init, o := g[..|g| - 1], g[|g| - 1];
    assert g == init + [o];
    RunKeysExtend(wf, init, o);
    FreshKeys(wf, init);
    ActionRecordKeys(w, wf, init);
    RecordedExtend(w, wf, init, o);
    if i == |init| {
      assert g[..i] == init;
      RecordedKeys(w, wf, init);
    } else {
      assert init[..i] == g[..i];
      CollisionFreePrefix(UsedNames(wf, init), Names(wf(init)));
      RecordedAt(w, wf, init, i, k);
      SeenKey(wf, init, i, k);
    }
  }

  lemma SeenKey(wf: Workflow, h: seq<Outcome>, i: nat, k: string)
    requires i < |h| && k in ActionKeys(wf, h[..i])
    ensures k in RunKeys(wf, h)
  {
    hide ActionKeys, RunKeys;
    assert h[..i + 1] == h[..i] + [h[i]];
    RunKeysExtend(wf, h[..i], h[i]);
    RunKeysPrefix(wf, h, i + 1);
    var seen, all := RunKeys(wf, h[..i + 1]), RunKeys(wf, h);
    assert seen == all[..|seen|];
    assert k in seen;
  }

  // ---------- Batches ----------

  /** A batch whose jobs are all recorded settles as if the jobs were run in place. */
  lemma {:induction false} SettleRecorded(w: World, done: Checkpoint, exec: Option<string>, calls: seq<Call>,
                                          keys: seq<string>)
    requires |calls| == |keys|
    requires forall i :: 0 <= i < |calls| ==>
               var info := InfoOf(calls[i], keys[i]);
               keys[i] in done && done[keys[i]] == RecordJob(info, w.job(info)) &&
               !(w.job(info).Succeeded? && w.job(info).value.Tagged?)
    ensures Settle(Thenables(done, exec, calls, keys), false) == InPlaceAll(w, Infos(calls, keys))
    ensures Pushed(Thenables(done, exec, calls, keys)) == [] && Started(Thenables(done, exec, calls, keys)) == []
    ensures InPlaceAll(w, Infos(calls, keys)).AllValues? || InPlaceAll(w, Infos(calls, keys)).Fails?
  {
    if calls != [] {
      SettleRecorded(w, done, exec, calls[1..], keys[1..]);
      assert Thenables(done, exec, calls, keys)[1..] == Thenables(done, exec, calls[1..], keys[1..]);
      assert Infos(calls, keys)[1..] == Infos(calls[1..], keys[1..]);
      JobReadBackIff(calls[0], keys[0], w.job(InfoOf(calls[0], keys[0])));
    }
  }

  /** A batch of new calls in the parent suspends at its first member and carries all of them. */
  lemma SettleFresh(done: Checkpoint, calls: seq<Call>, keys: seq<string>)
    requires |calls| == |keys|
    requires forall i :: 0 <= i < |keys| ==> keys[i] !in done
    ensures Pushed(Thenables(done, None, calls, keys)) == Infos(calls, keys)
    ensures forall i :: 0 <= i < |calls| ==> Carries(Pushed(Thenables(done, None, calls, keys))[i], calls[i], keys[i])
    ensures Started(Thenables(done, None, calls, keys)) == []
    ensures calls != [] ==> Settle(Thenables(done, None, calls, keys), false) == SuspendsFirst
  {
    hide Thenables, Pushed, Started, Settle;
    FreshSettles(done, calls, keys);
  }

  lemma {:induction false} FreshSettles(done: Checkpoint, calls: seq<Call>, keys: seq<string>)
    requires |calls| == |keys|
    requires forall i :: 0 <= i < |keys| ==> keys[i] !in done
    ensures Pushed(Thenables(done, None, calls, keys)) == Infos(calls, keys)
    ensures Started(Thenables(done, None, calls, keys)) == []
    ensures calls != [] ==> Settle(Thenables(done, None, calls, keys), false) == SuspendsFirst
  {
    if calls != [] {
      FreshSettles(done, calls[1..], keys[1..]);
      assert Thenables(done, None, calls, keys)[1..] == Thenables(done, None, calls[1..], keys[1..]);
      assert Infos(calls, keys) == [InfoOf(calls[0], keys[0])] + Infos(calls[1..], keys[1..]);
    }
  }

  // ---------- One action of a replay ----------

  function InlineKey(wf: Workflow, h: seq<Outcome>): string
    requires wf(h).Inline?
  {
    ActionKeys(wf, h)[0]
  }

  /** The action after `h` is an inline body that throws when it is run for the first time. */
  predicate ThrowsAt(w: World, wf: Workflow, h: seq<Outcome>) {
    wf(h).Inline? && w.inline(InlineKey(wf, h), 0).Throws?
  }

  /** If the action after `h` is an inline body that threw, running it once more throws the same error. */
  predicate SameAgain(w: World, wf: Workflow, h: seq<Outcome>, tries: Tries) {
    ThrowsAt(w, wf, h) ==> var key := InlineKey(wf, h); w.inline(key, tries(key)) == w.inline(key, 0)
  }

  /** What replaying a recorded action does again: an inline body that threw left no entry. */
  function Rerun(w: World, wf: Workflow, h: seq<Outcome>): seq<Event> {
    if ThrowsAt(w, wf, h) then [RanInline(InlineKey(wf, h))] else []
  }

  function Reruns(w: World, wf: Workflow, h: seq<Outcome>): seq<Event> {
    if h == [] then [] else Reruns(w, wf, h[..|h| - 1]) + Rerun(w, wf, h[..|h| - 1])
  }

  /** What executing the action after `h` for the first time does. */
  function FirstRun(wf: Workflow, h: seq<Outcome>): seq<Event> {
    var keys := ActionKeys(wf, h);
    match wf(h)
    case Batch(calls) => SentAll(Infos(calls, keys))
    case Inline(_) => [RanInline(keys[0])]
    case Sleep(_) => [Slept(keys[0])]
    case Approval(_, _, _) => [Asked(keys[0])]
    case Finish(_) => []
  }

  /** A batch is sent as a whole: every call's own arguments, under its own key. */
  lemma FirstRunSends(wf: Workflow, h: seq<Outcome>)
    requires wf(h).Batch?
    ensures var es, calls, keys := FirstRun(wf, h), wf(h).calls, ActionKeys(wf, h);
            && |es| == |calls|
            && forall i :: 0 <= i < |calls| ==>
                 es[i].Sent? && es[i].key == keys[i] && Carries(es[i].info, calls[i], keys[i])
  {
    hide ActionKeys;
  }

  /** First executions of the actions of `h` from number `from` on. */
  function FirstRuns(wf: Workflow, from: nat, h: seq<Outcome>): seq<Event> {
    if |h| <= from then [] else FirstRuns(wf, from, h[..|h| - 1]) + FirstRun(wf, h[..|h| - 1])
  }

  /** The replay that has handed `h` to the workflow when the checkpoint began with the actions of `g`. */
  function At(w: World, wf: Workflow, g: seq<Outcome>, h: seq<Outcome>): Round {
    if |h| <= |g| then Round(h, Recorded(w, wf, g), [], false, Reruns(w, wf, h), Running)
    else Round(h, Recorded(w, wf, h), [], false, Reruns(w, wf, g) + FirstRuns(wf, |g|, h), Running)
  }

  /** An action whose entries are in the checkpoint is replayed from them, in parent and child alike. */
  lemma StepSeen(w: World, wf: Workflow, done: Checkpoint, exec: Option<string>, tries: Tries, r: Round)
    requires (exec.None? && SameAgain(w, wf, r.h, tries)) || Rerun(w, wf, r.h) == []
    requires !wf(r.h).Finish? && Storable(w, wf, r.h) && Distinct(ActionKeys(wf, r.h))
    requires forall k :: k in ActionKeys(wf, r.h) ==> SameEntry(done, ActionRecord(w, wf, r.h), k)
    requires !r.suspended && r.pending == []
    ensures StepRound(w, wf, done, exec, tries, r)
            == Advance(r, DirectOutcome(w, wf, r.h)).(events := r.events + Rerun(w, wf, r.h))
  {
    hide ActionKeys;
    var keys := ActionKeys(wf, r.h);
    match wf(r.h)
    case Batch(calls) =>
      forall i | 0 <= i < |calls|
        ensures keys[i] in done
        ensures done[keys[i]] == RecordJob(InfoOf(calls[i], keys[i]), w.job(InfoOf(calls[i], keys[i])))
      {
        RecordedBatchEntry(w, wf, done, r.h, calls, i);
      }
      BatchSeen(w, done, exec, calls, keys, r);
      assert r.events + [] == r.events;
    case Inline(name) =>
      assert keys[0] in keys;
      assert r.events + [] == r.events;
      if w.inline(keys[0], 0).Returns? { InlineReadBackIff(name, w.inline(keys[0], 0).value); }
    case Sleep(_) => assert keys[0] in keys; assert r.events + [] == r.events;
    case Approval(_, _, _) => assert keys[0] in keys; assert r.events + [] == r.events;
  }

  lemma RecordedBatchEntry(w: World, wf: Workflow, done: Checkpoint, h: seq<Outcome>, calls: seq<Call>, i: nat)
    requires wf(h) == Batch(calls) && i < |calls| && Distinct(ActionKeys(wf, h))
    requires forall k :: k in ActionKeys(wf, h) ==> SameEntry(done, ActionRecord(w, wf, h), k)
    ensures var key := ActionKeys(wf, h)[i];
            key in done && done[key] == RecordJob(InfoOf(calls[i], key), w.job(InfoOf(calls[i], key)))
  {
    hide ActionKeys, RecordJobs, RecordJob;
    var keys := ActionKeys(wf, h);
    assert keys[i] in keys;
    InfosDistinct(calls, keys);
    RecordJobsAt(w, Infos(calls, keys), i);
  }

  lemma BatchSeen(w: World, done: Checkpoint, exec: Option<string>, calls: seq<Call>, keys: seq<string>, r: Round)
    requires |calls| == |keys| && !r.suspended && r.pending == []
    requires forall i :: 0 <= i < |calls| ==>
               var info := InfoOf(calls[i], keys[i]);
               keys[i] in done && done[keys[i]] == RecordJob(info, w.job(info)) &&
               !(w.job(info).Succeeded? && w.job(info).value.Tagged?)
    ensures BatchRound(w, done, exec, calls, keys, r) == Advance(r, BatchInPlace(w, Infos(calls, keys)))
  {
    hide RecordJob, Thenables, InPlaceAll, Infos, Settle, Pushed, Started;
    SettleRecorded(w, done, exec, calls, keys);
    assert RanAll([]) == [] && r.events + [] == r.events;
  }

  /** What a replay asks for when it stops at the action after `h`. */
  function DispatchOf(w: World, wf: Workflow, h: seq<Outcome>): Dispatch
    requires !wf(h).Finish?
  {
    var keys := ActionKeys(wf, h);
    match wf(h)
    case Batch(calls) => Tasks(Mode(Infos(calls, keys)), Infos(calls, keys))
    case Inline(_) =>
      SaveInline(keys[0], if w.inline(keys[0], 0).Returns? then Stored(w.inline(keys[0], 0).value) else Null)
    case Sleep(seconds) => Sleeps(keys[0], SleepSeconds(seconds))
    case Approval(t, f, s) => AwaitApproval(keys[0], OrElse(t, 1800), f, !OrElse(s, true))
  }

  /** A replay that reaches the action after `h` for the first time suspends there: always for tasks, a
      sleep or an approval, and for an inline body when it returned and its entry was not accepted. */
  predicate StopsAt(w: World, wf: Workflow, h: seq<Outcome>) {
    match wf(h)
    case Batch(calls) => calls != []
    case Inline(_) =>
      var key := InlineKey(wf, h);
      w.inline(key, 0).Returns? && !(w.posts(key) && !w.inline(key, 0).value.Undefined?)
    case Sleep(_) => true
    case Approval(_, _, _) => true
    case Finish(_) => false
  }

  /** `r'` stops after `r` to have the action carried out. */
  ghost predicate Stops(w: World, wf: Workflow, r: Round, r': Round) {
    && r'.h == r.h && !wf(r.h).Finish? && r'.status == Dispatches(DispatchOf(w, wf, r.h))
    && ActionRecord(w, wf, r.h) != map[]
    && r'.events == r.events + FirstRun(wf, r.h)
    && Resume(w, r'.status.d, r'.server) == r.server + ActionRecord(w, wf, r.h)
    && (r'.status.d.Tasks? ==> DistinctSteps(r'.status.d.steps))
  }

  /** An action with new keys is executed, at once or by suspending for it. */
  lemma StepNew(w: World, wf: Workflow, done: Checkpoint, tries: Tries, r: Round)
    requires wf(r.h).Inline? ==> tries(InlineKey(wf, r.h)) == 0
    requires !wf(r.h).Finish? && Storable(w, wf, r.h) && Distinct(ActionKeys(wf, r.h))
    requires forall k :: k in ActionKeys(wf, r.h) ==> k !in done
    requires !r.suspended && r.pending == []
    ensures var r' := StepRound(w, wf, done, None, tries, r);
            if StopsAt(w, wf, r.h) then Stops(w, wf, r, r')
            else r' == Advance(r, DirectOutcome(w, wf, r.h)).(events := r.events + FirstRun(wf, r.h),
                                                             server := r.server + ActionRecord(w, wf, r.h))
  {
    hide ActionKeys, InlineRound, BatchRound, RecordJobs, SentAll, Mode, InlineKey;
    var keys := ActionKeys(wf, r.h);
    match wf(r.h)
    case Batch(calls) =>
      assert forall i :: 0 <= i < |keys| ==> keys[i] in keys;
      BatchNew(w, done, calls, keys, r);
      if calls != [] { RecordJobsAt(w, Infos(calls, keys), 0); }
    case Inline(_) => InlineKeyFresh(wf, done, r.h); InlineNew(w, wf, done, tries, r);
    case Sleep(_) => assert keys[0] in keys && keys[0] in ActionRecord(w, wf, r.h);
    case Approval(_, _, _) => assert keys[0] in keys && keys[0] in ActionRecord(w, wf, r.h);
  }

  lemma InlineKeyFresh(wf: Workflow, done: Checkpoint, h: seq<Outcome>)
    requires wf(h).Inline? && forall k :: k in ActionKeys(wf, h) ==> k !in done
    ensures InlineKey(wf, h) !in done
  {
    hide ActionKeys;
  }

  lemma InlineNew(w: World, wf: Workflow, done: Checkpoint, tries: Tries, r: Round)
    requires wf(r.h).Inline? && tries(InlineKey(wf, r.h)) == 0 && InlineKey(wf, r.h) !in done
    requires Storable(w, wf, r.h)
    ensures var r' := StepRound(w, wf, done, None, tries, r);
            if StopsAt(w, wf, r.h) then Stops(w, wf, r, r')
            else r' == Advance(r, DirectOutcome(w, wf, r.h)).(events := r.events + FirstRun(wf, r.h),
                                                             server := r.server + ActionRecord(w, wf, r.h))
  {
    hide ActionKeys, BatchRound, SleepRound, ApprovalRound, RecordJobs, Infos;
    var key := InlineKey(wf, r.h);
    assert r.server + map[] == r.server;
    assert w.inline(key, 0).Returns? ==> key in ActionRecord(w, wf, r.h);
  }

  lemma BatchNew(w: World, done: Checkpoint, calls: seq<Call>, keys: seq<string>, r: Round)
    requires |calls| == |keys| && Distinct(keys) && !r.suspended && r.pending == []
    requires forall i :: 0 <= i < |keys| ==> keys[i] !in done
    ensures var infos := Infos(calls, keys);
            var r' := BatchRound(w, done, None, calls, keys, r);
            && DistinctSteps(infos)
            && (calls != [] ==>
                  r' == r.(suspended := true, events := r.events + SentAll(infos),
                           status := Dispatches(Tasks(Mode(infos), infos))))
            && (calls == [] ==>
                  && r' == Advance(r, BatchInPlace(w, infos))
                  && r.server + RecordJobs(w, infos) == r.server
                  && r.events + SentAll(infos) == r.events)
  {
    hide RecordJob, Mode;
    SettleFresh(done, calls, keys);
    InfosDistinct(calls, keys);
    assert RanAll([]) == [] && r.events + [] == r.events;
    assert [] + Infos(calls, keys) == Infos(calls, keys);
    if calls == [] {
      assert Infos(calls, keys) == [] && SentAll([]) == [];
      assert r.server + map[] == r.server;
    }
  }

  lemma ReplaySeenAction(w: World, wf: Workflow, g: seq<Outcome>, tries: Tries, i: nat)
    requires WellBehaved(w, wf) && IsDirect(w, wf, g) && i < |g| && SameAgain(w, wf, g[..i], tries)
    ensures StepRound(w, wf, Recorded(w, wf, g), None, tries, At(w, wf, g, g[..i])) == At(w, wf, g, g[..i + 1])
  {
    hide ActionKeys, StepRound, Storable, DirectOutcome, Recorded, ActionRecord, UsedNames, Rerun, IsDirect,
         CollisionFree;
    var h, done := g[..i], Recorded(w, wf, g);
    DirectPrefix(w, wf, g, i);
    assert g[..i + 1] == h + [g[i]] && g[..i + 1][..i] == h;
    CollisionFreePrefix(UsedNames(wf, g), Names(wf(g)));
    forall k | k in ActionKeys(wf, h)
      ensures SameEntry(done, ActionRecord(w, wf, h), k)
    {
      RecordedAt(w, wf, g, i, k);
    }
    FreshKeys(wf, h);
    StepSeen(w, wf, done, None, tries, At(w, wf, g, h));
  }

  /** An action already seen is replayed with the outcome it first had exactly if it is not an inline
      body that threw and this time does something else. */
  lemma ReplayedAgainIff(w: World, wf: Workflow, g: seq<Outcome>, tries: Tries, i: nat)
    requires WellBehaved(w, wf) && IsDirect(w, wf, g) && i < |g|
    ensures StepRound(w, wf, Recorded(w, wf, g), None, tries, At(w, wf, g, g[..i])) == At(w, wf, g, g[..i + 1])
            <==> SameAgain(w, wf, g[..i], tries)
  {
    hide ActionKeys, StepRound, DirectOutcome, Recorded, ActionRecord, IsDirect, Reruns, InlineKey;
    if SameAgain(w, wf, g[..i], tries) {
      ReplaySeenAction(w, wf, g, tries, i);
    } else {
      DirectPrefix(w, wf, g, i);
      assert g[..i + 1] == g[..i] + [g[i]];
      RerunDiffers(w, wf, g, tries, i);
    }
  }

  /** An inline body that threw and does something else when it is run again: the replay goes on with
      what it does now, or stops to save it. */
  lemma RerunDiffers(w: World, wf: Workflow, g: seq<Outcome>, tries: Tries, i: nat)
    requires WellBehaved(w, wf) && IsDirect(w, wf, g) && i < |g| && !SameAgain(w, wf, g[..i], tries)
    ensures var r := StepRound(w, wf, Recorded(w, wf, g), None, tries, At(w, wf, g, g[..i]));
            var b := w.inline(InlineKey(wf, g[..i]), tries(InlineKey(wf, g[..i])));
            && (r.status.Running? ==> r.h == g[..i] + [InlineOutcome(b)])
            && r.h != g[..i + 1]
  {
    hide ActionKeys, Recorded, ActionRecord, IsDirect, Reruns, CollisionFree, UsedNames, Storable;
    var h, key := g[..i], InlineKey(wf, g[..i]);
    DirectPrefix(w, wf, g, i);
    assert g[..i + 1] == h + [g[i]];
    assert key in ActionKeys(wf, h);
    CollisionFreePrefix(UsedNames(wf, g), Names(wf(g)));
    RecordedAt(w, wf, g, i, key);
    ThrownNotRecorded(w, wf, h);
  }

  lemma ThrownNotRecorded(w: World, wf: Workflow, h: seq<Outcome>)
    requires ThrowsAt(w, wf, h)
    ensures ActionRecord(w, wf, h) == map[]
  {
    hide ActionKeys;
  }

  /** The state in which a replay stops to have the action after `h` carried out. */
  ghost predicate StoppedAt(w: World, wf: Workflow, g: seq<Outcome>, h: seq<Outcome>, r: Round) {
    && r.h == h && !wf(h).Finish? && r.status == Dispatches(DispatchOf(w, wf, h))
    && StopsAt(w, wf, h) && ActionRecord(w, wf, h) != map[]
    && r.events == At(w, wf, g, h).events + FirstRun(wf, h)
    && Resume(w, r.status.d, r.server) == Recorded(w, wf, h + [DirectOutcome(w, wf, h)])
    && (r.status.d.Tasks? ==> DistinctSteps(r.status.d.steps))
  }

  lemma NewKeysNotRecorded(w: World, wf: Workflow, g: seq<Outcome>, h: seq<Outcome>)
    requires g <= h && CollisionFree(UsedNames(wf, h) + Names(wf(h)))
    ensures forall k :: k in ActionKeys(wf, h) ==> k !in Recorded(w, wf, g) && k !in RunKeys(wf, g)
    ensures Distinct(ActionKeys(wf, h))
  {
    hide ActionKeys, Recorded, RunKeys, CollisionFree;
    FreshKeys(wf, h);
    RecordedKeys(w, wf, g);
    assert h[..|g|] == g;
    RunKeysPrefix(wf, h, |g|);
  }

  lemma AtExtend(w: World, wf: Workflow, g: seq<Outcome>, h: seq<Outcome>, o: Outcome)
    requires g <= h
    ensures At(w, wf, g, h).server == Recorded(w, wf, h)
    ensures At(w, wf, g, h + [o]) == At(w, wf, g, h).(h := h + [o],
              events := At(w, wf, g, h).events + FirstRun(wf, h),
              server := Recorded(w, wf, h) + ActionRecord(w, wf, h))
  {
    hide FirstRun, Rerun, ActionRecord;
    assert (h + [o])[..|h|] == h;
    assert |h| == |g| ==> h == g;
    assert Reruns(w, wf, g) + [] == Reruns(w, wf, g);
    assert (Reruns(w, wf, g) + FirstRuns(wf, |g|, h)) + FirstRun(wf, h)
           == Reruns(w, wf, g) + (FirstRuns(wf, |g|, h) + FirstRun(wf, h));
    RecordedExtend(w, wf, h, o);
  }

  lemma ReplayNewAction(w: World, wf: Workflow, g: seq<Outcome>, tries: Tries, h: seq<Outcome>)
    requires WellBehaved(w, wf) && IsDirect(w, wf, h) && g <= h && !wf(h).Finish?
    requires wf(h).Inline? ==> tries(InlineKey(wf, h)) == 0
    ensures var r := StepRound(w, wf, Recorded(w, wf, g), None, tries, At(w, wf, g, h));
            if StopsAt(w, wf, h) then StoppedAt(w, wf, g, h, r) else r == At(w, wf, g, h + [DirectOutcome(w, wf, h)])
  {
    hide ActionKeys, StepRound, StopsAt, Storable, DirectOutcome, Recorded, ActionRecord, IsDirect, CollisionFree,
         Resume, FirstRun, Reruns, FirstRuns, DispatchOf;
    NewKeysNotRecorded(w, wf, g, h);
    AtExtend(w, wf, g, h, DirectOutcome(w, wf, h));
    RecordedExtend(w, wf, h, DirectOutcome(w, wf, h));
    StepNew(w, wf, Recorded(w, wf, g), tries, At(w, wf, g, h));
  }

  lemma ReplayFinish(w: World, wf: Workflow, g: seq<Outcome>, tries: Tries, h: seq<Outcome>)
    requires wf(h).Finish?
    ensures StepRound(w, wf, Recorded(w, wf, g), None, tries, At(w, wf, g, h))
            == At(w, wf, g, h).(status := Finished(wf(h).outcome))
  {
    hide ActionKeys, Recorded, Reruns, FirstRuns;
  }

  lemma AtHistory(w: World, wf: Workflow, g: seq<Outcome>, h: seq<Outcome>)
    ensures At(w, wf, g, h).h == h && At(w, wf, g, h).status.Running?
  {
    hide Recorded, Reruns, FirstRuns;
  }

  // ---------- Where replays stop ----------

  /** At how many of the actions of `h` a replay stops. */
  function StopCount(w: World, wf: Workflow, h: seq<Outcome>): nat {
    if h == [] then 0
    else StopCount(w, wf, h[..|h| - 1]) + if StopsAt(w, wf, h[..|h| - 1]) then 1 else 0
  }

  lemma StopCountExtend(w: World, wf: Workflow, h: seq<Outcome>, o: Outcome)
    ensures StopCount(w, wf, h + [o]) == StopCount(w, wf, h) + if StopsAt(w, wf, h) then 1 else 0
  {
    hide StopsAt;
    assert (h + [o])[..|h|] == h;
  }

  lemma {:induction false} StopCountPrefix(w: World, wf: Workflow, h: seq<Outcome>, i: nat)
    requires i <= |h|
    ensures StopCount(w, wf, h[..i]) <= StopCount(w, wf, h)
    decreases |h|
  {
    hide StopsAt;
    if i == |h| {
      assert h[..i] == h;
    } else {
      assert h[..|h| - 1][..i] == h[..i];
      StopCountPrefix(w, wf, h[..|h| - 1], i);
    }
  }

  // ---------- A whole replay ----------

  /** Every state of a parent replay from a checkpoint of the direct run. */
  ghost predicate RoundSpec(w: World, wf: Workflow, g: seq<Outcome>, n: nat, r: Round) {
    && IsDirect(w, wf, r.h)
    && (|g| <= |r.h| ==> StopCount(w, wf, r.h) == StopCount(w, wf, g))
    && match r.status
       case Running => |r.h| == n && r == At(w, wf, g, r.h)
       case Finished(o) =>
         |r.h| < n && g <= r.h && wf(r.h) == Finish(o) && r == At(w, wf, g, r.h).(status := Finished(o))
       case Dispatches(_) => |r.h| < n && g <= r.h && StoppedAt(w, wf, g, r.h, r)
       case Stuck => false
  }

  /** Inline bodies that the run reaches only after `g` have not been run. */
  ghost predicate Untried(w: World, wf: Workflow, g: seq<Outcome>, tries: Tries) {
    forall h :: IsDirect(w, wf, h) && |g| <= |h| && wf(h).Inline? ==> tries(InlineKey(wf, h)) == 0
  }

  /** Every inline body of `g` that threw throws the same error when it is run once more. */
  ghost predicate Repeats(w: World, wf: Workflow, g: seq<Outcome>, tries: Tries) {
    forall i :: 0 <= i < |g| ==> SameAgain(w, wf, g[..i], tries)
  }

  lemma SeenSpec(w: World, wf: Workflow, g: seq<Outcome>, tries: Tries, n: nat, r: Round)
    requires WellBehaved(w, wf) && IsDirect(w, wf, g) && Repeats(w, wf, g, tries)
    requires RoundSpec(w, wf, g, n, r) && r.status.Running? && |r.h| < |g|
    ensures RoundSpec(w, wf, g, n + 1, StepRound(w, wf, Recorded(w, wf, g), None, tries, r))
  {
    hide StepRound, Recorded, WellBehaved, IsDirect, SameAgain, StopCount, At, StoppedAt;
    DirectUnique(w, wf, r.h, g);
    ReplaySeenAction(w, wf, g, tries, n);
    AtHistory(w, wf, g, g[..n + 1]);
    DirectPrefix(w, wf, g, n + 1);
    assert n + 1 == |g| ==> g[..n + 1] == g;
  }

  lemma NewSpec(w: World, wf: Workflow, g: seq<Outcome>, tries: Tries, n: nat, r: Round)
    requires WellBehaved(w, wf) && IsDirect(w, wf, g) && Untried(w, wf, g, tries)
    requires RoundSpec(w, wf, g, n, r) && r.status.Running? && |r.h| >= |g|
    ensures RoundSpec(w, wf, g, n + 1, StepRound(w, wf, Recorded(w, wf, g), None, tries, r))
  {
    hide StepRound, DirectOutcome, Recorded, WellBehaved, IsDirect, At, StopsAt, StopCount, InlineKey, DispatchOf,
         FirstRun, Resume, ActionRecord;
    DirectUnique(w, wf, g, r.h);
    AtHistory(w, wf, g, r.h);
    if !wf(r.h).Finish? {
      var o := DirectOutcome(w, wf, r.h);
      ReplayNewAction(w, wf, g, tries, r.h);
      DirectExtend(w, wf, r.h);
      StopCountExtend(w, wf, r.h, o);
      AtHistory(w, wf, g, r.h + [o]);
    } else {
      ReplayFinish(w, wf, g, tries, r.h);
    }
  }

  lemma StartSpec(w: World, wf: Workflow, g: seq<Outcome>)
    requires IsDirect(w, wf, g)
    ensures RoundSpec(w, wf, g, 0, Round([], Recorded(w, wf, g), [], false, [], Running))
  {
    hide Recorded, StopsAt;
    assert |g| == 0 ==> g == [];
  }

  lemma LaterSpec(w: World, wf: Workflow, g: seq<Outcome>, n: nat, r: Round)
    requires RoundSpec(w, wf, g, n, r) && !r.status.Running?
    ensures RoundSpec(w, wf, g, n + 1, r)
  {
    hide IsDirect, Recorded, At, StoppedAt, StopCount;
  }

  /** A replay from the checkpoint of a direct history follows the direct run: it hands out the same
      outcomes, runs nothing again except inline bodies that threw, and stops with a request whose
      completion is again the checkpoint of a longer direct history. It never gets stuck. */
  lemma {:induction false} RoundFollowsDirect(w: World, wf: Workflow, g: seq<Outcome>, tries: Tries, n: nat)
    requires WellBehaved(w, wf) && IsDirect(w, wf, g)
    requires Untried(w, wf, g, tries) && Repeats(w, wf, g, tries)
    ensures RoundSpec(w, wf, g, n, RoundAfter(w, wf, Recorded(w, wf, g), None, tries, n))
    decreases n
  {
    hide StepRound, Recorded, WellBehaved, IsDirect, RoundSpec, Untried, Repeats;
    if n == 0 {
      StartSpec(w, wf, g);
    } else {
      RoundFollowsDirect(w, wf, g, tries, n - 1);
      var r := RoundAfter(w, wf, Recorded(w, wf, g), None, tries, n - 1);
      if !r.status.Running? {
        LaterSpec(w, wf, g, n - 1, r);
      } else if |r.h| < |g| {
        SeenSpec(w, wf, g, tries, n - 1, r);
      } else {
        NewSpec(w, wf, g, tries, n - 1, r);
      }
    }
  }

  /** All states of the replay from the checkpoint of `g` are those of the direct run. */
  ghost predicate Follows(w: World, wf: Workflow, g: seq<Outcome>, tries: Tries) {
    forall n :: RoundSpec(w, wf, g, n, RoundAfter(w, wf, Recorded(w, wf, g), None, tries, n))
  }

  /** A replay follows the direct run exactly if every inline body that threw, and is therefore run
      once more, throws the same error again. */
  lemma RoundFollowsIff(w: World, wf: Workflow, g: seq<Outcome>, tries: Tries)
    requires WellBehaved(w, wf) && IsDirect(w, wf, g) && Untried(w, wf, g, tries)
    ensures Follows(w, wf, g, tries) <==> Repeats(w, wf, g, tries)
  {
    hide RoundSpec, Recorded, WellBehaved, IsDirect, SameAgain, Untried, StepRound;
    if Repeats(w, wf, g, tries) {
      forall n ensures RoundSpec(w, wf, g, n, RoundAfter(w, wf, Recorded(w, wf, g), None, tries, n)) {
        RoundFollowsDirect(w, wf, g, tries, n);
      }
    } else {
      var i: nat :| i < |g| && !SameAgain(w, wf, g[..i], tries);
      if Follows(w, wf, g, tries) { LeavesDirect(w, wf, g, tries, i); }
    }
  }

  lemma LeavesDirect(w: World, wf: Workflow, g: seq<Outcome>, tries: Tries, i: nat)
    requires WellBehaved(w, wf) && IsDirect(w, wf, g) && i < |g| && !SameAgain(w, wf, g[..i], tries)
    requires RoundSpec(w, wf, g, i, RoundAfter(w, wf, Recorded(w, wf, g), None, tries, i))
    ensures !RoundSpec(w, wf, g, i + 1, RoundAfter(w, wf, Recorded(w, wf, g), None, tries, i + 1))
  {
    hide StepRound, Recorded, WellBehaved, IsDirect, SameAgain, StoppedAt, StopCount;
    var r := RoundAfter(w, wf, Recorded(w, wf, g), None, tries, i);
    var r' := RoundAfter(w, wf, Recorded(w, wf, g), None, tries, i + 1);
    DirectUnique(w, wf, r.h, g);
    ReplayedAgainIff(w, wf, g, tries, i);
    if IsDirect(w, wf, r'.h) && |r'.h| <= |g| { DirectUnique(w, wf, r'.h, g); }
  }

  lemma {:induction false} RoundStays(w: World, wf: Workflow, done: Checkpoint, exec: Option<string>, tries: Tries,
                                      m: nat, n: nat)
    requires m <= n && !RoundAfter(w, wf, done, exec, tries, m).status.Running?
    ensures RoundAfter(w, wf, done, exec, tries, n) == RoundAfter(w, wf, done, exec, tries, m)
    decreases n
  {
    hide StepRound;
    if m < n { RoundStays(w, wf, done, exec, tries, m, n - 1); }
  }

  /** A replay whose first new action makes it stop ends exactly there. */
  lemma RoundStopsAtNext(w: World, wf: Workflow, g: seq<Outcome>, tries: Tries, n: nat)
    requires WellBehaved(w, wf) && IsDirect(w, wf, g)
    requires Untried(w, wf, g, tries) && Repeats(w, wf, g, tries)
    requires StopsAt(w, wf, g) && n > |g|
    ensures StoppedAt(w, wf, g, g, RoundAfter(w, wf, Recorded(w, wf, g), None, tries, n))
  {
    hide WellBehaved, IsDirect, Recorded, ActionKeys, FirstRun, Resume, DispatchOf, DirectOutcome, ActionRecord,
         StepRound, InlineKey, Repeats;
    var done := Recorded(w, wf, g);
    RoundFollowsDirect(w, wf, g, tries, |g|);
    DirectUnique(w, wf, RoundAfter(w, wf, done, None, tries, |g|).h, g);
    assert g[..|g|] == g;
    ReplayNewAction(w, wf, g, tries, g);
    RoundStays(w, wf, done, None, tries, |g| + 1, n);
  }

  /** A workflow that returns while steps are still pending has them all dispatched; one that throws, or
      has nothing pending, ends. */
  lemma TrailingSteps(w: World, wf: Workflow, done: Checkpoint, exec: Option<string>, tries: Tries, r: Round)
    requires wf(r.h).Finish?
    ensures var r', o := StepRound(w, wf, done, exec, tries, r), wf(r.h).outcome;
            && r'.h == r.h && r'.server == r.server && r'.suspended == r.suspended
            && (r'.status == Finished(o) <==> o.Threw? || r.pending == [])
            && (o.Returned? && r.pending != [] ==>
                  && r'.status.Dispatches? && r'.status.d.Tasks? && r'.status.d.steps == r.pending && r'.pending == []
                  && r'.status.d.mode == (if |r.pending| == 1 then "sequential" else "parallel")
                  && |r'.events| == |r.events| + |r.pending| && r.events <= r'.events
                  && forall i :: 0 <= i < |r.pending| ==>
                       r'.events[|r.events| + i] == Sent(r.pending[i].key, r.pending[i]))
            && (r'.status.Finished? ==> r'.events == r.events)
  {
    hide ActionKeys;
  }

  // ---------- Why a batch must be completed as a whole ----------

  predicate MemberFailed(done: Checkpoint, key: string) {
    key in done && done[key].Tagged?
  }

  /** Position of the first member with a recorded failure; the length if there is none. */
  function FirstFailed(done: Checkpoint, keys: seq<string>): (f: nat)
    ensures f <= |keys| && (f < |keys| ==> MemberFailed(done, keys[f]))
    ensures forall j :: 0 <= j < f ==> !MemberFailed(done, keys[j])
  {
    if keys == [] || MemberFailed(done, keys[0]) then 0 else 1 + FirstFailed(done, keys[1..])
  }

  /** The members without an entry, in order. */
  function Unfinished(done: Checkpoint, calls: seq<Call>, keys: seq<string>): (u: seq<StepInfo>)
    requires |calls| == |keys|
    ensures forall i :: 0 <= i < |keys| && keys[i] !in done ==> InfoOf(calls[i], keys[i]) in u
    ensures forall info :: info in u ==>
              exists i :: 0 <= i < |keys| && keys[i] !in done && info == InfoOf(calls[i], keys[i])
  {
    if calls == [] then []
    else
      var rest := Unfinished(done, calls[1..], keys[1..]);
      assert forall i :: 1 <= i < |keys| ==> keys[i] == keys[1..][i - 1] && calls[i] == calls[1..][i - 1];
      if keys[0] in done then rest else [InfoOf(calls[0], keys[0])] + rest
  }

  lemma {:induction false} PushedUnfinished(done: Checkpoint, calls: seq<Call>, keys: seq<string>)
    requires |calls| == |keys|
    ensures Pushed(Thenables(done, None, calls, keys)) == Unfinished(done, calls, keys)
  {
    if calls != [] {
      PushedUnfinished(done, calls[1..], keys[1..]);
      assert Thenables(done, None, calls, keys)[1..] == Thenables(done, None, calls[1..], keys[1..]);
    }
  }

  /** A batch settles by whichever comes first in it: a failed member or an unfinished one. */
  lemma {:induction false} SettleFirst(done: Checkpoint, calls: seq<Call>, keys: seq<string>, i: nat)
    requires |calls| == |keys| && i < |keys| && keys[i] !in done
    requires forall j :: 0 <= j < i ==> keys[j] in done
    ensures var f, s := FirstFailed(done, keys), Settle(Thenables(done, None, calls, keys), false);
            if f < i then s.Fails? && Threw(s.error) == ReadEntry(done[keys[f]], TaskLabel(calls[f]))
            else s.SuspendsFirst?
  {
    assert Thenables(done, None, calls, keys)[1..] == Thenables(done, None, calls[1..], keys[1..]);
    if i > 0 && !MemberFailed(done, keys[0]) {
      SettleFirst(done, calls[1..], keys[1..], i - 1);
    }
  }

  lemma {:induction false} NothingStarts(done: Checkpoint, calls: seq<Call>, keys: seq<string>)
    requires |calls| == |keys|
    ensures Started(Thenables(done, None, calls, keys)) == []
  {
    if calls != [] {
      NothingStarts(done, calls[1..], keys[1..]);
      assert Thenables(done, None, calls, keys)[1..] == Thenables(done, None, calls[1..], keys[1..]);
    }
  }

  /** A half-completed batch, as no replay of the loop ever sees one: if the first failure comes before the
      first unfinished member, and only then, the workflow gets the failure while the suspension for the
      unfinished members is thrown into the void: neither they nor the steps that were pending are
      dispatched, and no later task of the replay can suspend. Otherwise the replay suspends and carries
      all of them. */
  lemma FailedSiblingDropsDispatch(w: World, done: Checkpoint, calls: seq<Call>, keys: seq<string>, i: nat, r: Round)
    requires |calls| == |keys| && i < |keys| && keys[i] !in done
    requires forall j :: 0 <= j < i ==> keys[j] in done
    requires !r.suspended && r.status.Running?
    ensures var r', f := BatchRound(w, done, None, calls, keys, r), FirstFailed(done, keys);
            var owed := r.pending + Unfinished(done, calls, keys);
            && (r'.status.Running? <==> exists j :: 0 <= j < i && MemberFailed(done, keys[j]))
            && (f < i ==>
                  r' == Advance(r.(pending := [], suspended := true), ReadEntry(done[keys[f]], TaskLabel(calls[f]))))
            && (f >= i ==> r' == r.(pending := [], suspended := true, events := r.events + SentAll(owed),
                                    status := Dispatches(Tasks(Mode(owed), owed))))
  {
    hide Thenables, Pushed, Settle, Started, Mode, ReadEntry;
    SettleFirst(done, calls, keys, i);
    PushedUnfinished(done, calls, keys);
    NothingStarts(done, calls, keys);
    assert InfoOf(calls[i], keys[i]) in Unfinished(done, calls, keys);
    assert RanAll([]) == [] && r.events + [] == r.events;
  }

  /** Once that has happened, a batch still settles by its first failed member; without one it never settles
      if a member is unfinished. */
  lemma {:induction false} SuspendedBatchPends(done: Checkpoint, calls: seq<Call>, keys: seq<string>)
    requires |calls| == |keys|
    ensures var s, f := Settle(Thenables(done, None, calls, keys), true), FirstFailed(done, keys);
            if f < |keys| then s == Fails(ReadEntry(done[keys[f]], TaskLabel(calls[f])).error)
            else if Unfinished(done, calls, keys) != [] then s.Pends?
            else && s.AllValues? && |s.values| == |keys|
                 && forall i :: 0 <= i < |keys| ==> keys[i] in done && s.values[i] == done[keys[i]]
  {
    hide InfoOf, TaskLabel;
    if calls != [] {
      SuspendedBatchPends(done, calls[1..], keys[1..]);
      assert Thenables(done, None, calls, keys)[1..] == Thenables(done, None, calls[1..], keys[1..]);
    }
  }

  /** What such a batch does to the replay: nothing is dispatched, unfinished members only become pending. */
  lemma SuspendedBatch(w: World, done: Checkpoint, calls: seq<Call>, keys: seq<string>, r: Round)
    requires |calls| == |keys| && r.suspended
    ensures var r', f := BatchRound(w, done, None, calls, keys, r), FirstFailed(done, keys);
            && r'.pending == r.pending + Unfinished(done, calls, keys) && r'.suspended && r'.events == r.events
            && r'.server == r.server
            && (f < |keys| ==> r'.status == r.status && r'.h == r.h + [ReadEntry(done[keys[f]], TaskLabel(calls[f]))])
            && (f == |keys| && Unfinished(done, calls, keys) != [] ==> r'.status.Stuck? && r'.h == r.h)
            && (f == |keys| && Unfinished(done, calls, keys) == [] ==>
                  r'.status == r.status && |r'.h| == |r.h| + 1 && r.h <= r'.h && r'.h[|r.h|].Returned?)
  {
    hide Thenables, Pushed, Started, Settle, Unfinished;
    SuspendedBatchPends(done, calls, keys);
    PushedUnfinished(done, calls, keys);
    NothingStarts(done, calls, keys);
    assert RanAll([]) == [] && r.events + [] == r.events;
  }
}
