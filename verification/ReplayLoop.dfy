/** The whole loop of replays: same result as the direct run, every step once, bounded rounds. */
module ReplayLoop {
  import opened Basics
  import opened Keys
  import opened Steps
  import opened Replay
  import opened Refinement

  // ---------- Counting what happens to a step ----------

  lemma RunsConcat(a: seq<Event>, b: seq<Event>, key: string)
    ensures Runs(a + b, key) == Runs(a, key) + Runs(b, key)
  {
    assert EventKeys(a + b) == EventKeys(a) + EventKeys(b);
  }

  lemma {:induction false} DistinctCount(keys: seq<string>, k: string)
    requires Distinct(keys)
    ensures multiset(keys)[k] == if k in keys then 1 else 0
  {
    if keys != [] {
      var init, last := keys[..|keys| - 1], keys[|keys| - 1];
      assert keys == init + [last];
      DistinctCount(init, k);
    }
  }

  lemma FirstRunCount(wf: Workflow, h: seq<Outcome>, k: string)
    requires Distinct(ActionKeys(wf, h))
    ensures Runs(FirstRun(wf, h), k) == if k in ActionKeys(wf, h) then 1 else 0
  {
    hide ActionKeys;
    assert EventKeys(FirstRun(wf, h)) == ActionKeys(wf, h);
    DistinctCount(ActionKeys(wf, h), k);
  }

  /** Each key of the run from action number `from` on is executed once, and no other key. */
  lemma {:induction false} FirstRunsCount(wf: Workflow, from: nat, h: seq<Outcome>, k: string)
    requires from <= |h| && CollisionFree(UsedNames(wf, h))
    ensures Runs(FirstRuns(wf, from, h), k) == if k in RunKeys(wf, h) && k !in RunKeys(wf, h[..from]) then 1 else 0
    decreases |h|
  {
    hide ActionKeys, RunKeys, UsedNames, CollisionFree, FirstRun;
    if |h| == from {
      assert h[..from] == h && EventKeys([]) == [];
    } else {
      var init, o := h[..|h| - 1], h[|h| - 1];
      assert h == init + [o] && init[..from] == h[..from];
      RunKeysExtend(wf, init, o);
      CollisionFreePrefix(UsedNames(wf, init), Names(wf(init)));
      FirstRunsCount(wf, from, init, k);
      FreshKeys(wf, init);
      FirstRunCount(wf, init, k);
      RunsConcat(FirstRuns(wf, from, init), FirstRun(wf, init), k);
      RunKeysPrefix(wf, init, from);
      PrefixMember(RunKeys(wf, init[..from]), RunKeys(wf, init), k);
    }
  }

  lemma PrefixMember(a: seq<string>, b: seq<string>, k: string)
    requires a <= b
    ensures k in a ==> k in b
  {
    assert a == b[..|a|];
  }

  /** Replaying does nothing again to a recorded step, nor to a step not yet reached. */
  lemma {:induction false} RerunsCount(w: World, wf: Workflow, g: seq<Outcome>, k: string)
    requires CollisionFree(UsedNames(wf, g))
    requires k in Recorded(w, wf, g) || k !in RunKeys(wf, g)
    ensures Runs(Reruns(w, wf, g), k) == 0
    decreases |g|
  {
    hide ActionKeys, RunKeys, UsedNames, CollisionFree;
    if g == [] {
      assert EventKeys([]) == [];
    } else {
      var init, o := g[..|g| - 1], g[|g| - 1];
      assert g == init + [o];
      RunKeysExtend(wf, init, o);
      CollisionFreePrefix(UsedNames(wf, init), Names(wf(init)));
      RecordedExtend(w, wf, init, o);
      FreshKeys(wf, init);
      RecordedKeys(w, wf, init);
      RunsConcat(Reruns(w, wf, init), Rerun(w, wf, init), k);
      ActionRecordKeys(w, wf, init);
      RerunsCount(w, wf, init, k);
      RerunCount(w, wf, init, k);
    }
  }

  lemma RerunCount(w: World, wf: Workflow, h: seq<Outcome>, k: string)
    requires k in ActionRecord(w, wf, h) || k !in ActionKeys(wf, h)
    ensures Runs(Rerun(w, wf, h), k) == 0
  {
    hide ActionKeys;
    assert EventKeys([]) == [];
    if ThrowsAt(w, wf, h) {
      assert EventKeys(Rerun(w, wf, h)) == [InlineKey(wf, h)];
    }
  }

  // ---------- Checkpoints only grow ----------

  lemma {:induction false} RecordedGrows(w: World, wf: Workflow, g: seq<Outcome>, h: seq<Outcome>)
    requires g <= h && CollisionFree(UsedNames(wf, h))
    ensures forall k :: k in Recorded(w, wf, g) ==>
            k in Recorded(w, wf, h) && Recorded(w, wf, h)[k] == Recorded(w, wf, g)[k]
    ensures forall k :: k in RunKeys(wf, g) && k in Recorded(w, wf, h) ==> k in Recorded(w, wf, g)
    decreases |h|
  {
    hide ActionKeys, RunKeys, UsedNames, CollisionFree, ActionRecord;
    if |g| == |h| {
      assert g == h;
    } else {
      var init, o := h[..|h| - 1], h[|h| - 1];
      assert h == init + [o] && init[..|g|] == g;
      RunKeysExtend(wf, init, o);
      CollisionFreePrefix(UsedNames(wf, init), Names(wf(init)));
      RecordedGrows(w, wf, g, init);
      RecordedExtend(w, wf, init, o);
      FreshKeys(wf, init);
      ActionRecordKeys(w, wf, init);
      RecordedKeys(w, wf, init);
      RunKeysPrefix(wf, init, |g|);
      forall k | k in RunKeys(wf, g) ensures k in RunKeys(wf, init) {
        PrefixMember(RunKeys(wf, g), RunKeys(wf, init), k);
      }
    }
  }

  /** Carrying out the action a replay stopped at adds an entry that was not there. */
  lemma RecordedGrowsStrictly(w: World, wf: Workflow, g: seq<Outcome>, h: seq<Outcome>, o: Outcome)
    requires g <= h && CollisionFree(UsedNames(wf, h) + Names(wf(h))) && ActionRecord(w, wf, h) != map[]
    ensures |Recorded(w, wf, h + [o])| > |Recorded(w, wf, g)|
  {
    hide ActionKeys, RunKeys, UsedNames, CollisionFree, ActionRecord;
    RunKeysExtend(wf, h, o);
    RecordedGrows(w, wf, g, h + [o]);
    RecordedExtend(w, wf, h, o);
    NewKeysNotRecorded(w, wf, g, h);
    ActionRecordKeys(w, wf, h);
    var a, b := Recorded(w, wf, g).Keys, Recorded(w, wf, h + [o]).Keys;
    assert exists k :: k in ActionRecord(w, wf, h);
    var k :| k in ActionRecord(w, wf, h);
    assert a <= b && k in b - a;
    assert |b| == |a| + |b - a|;
  }

  // ---------- Bodies that throw ----------

  lemma {:induction false} ThrownOnce(w: World, wf: Workflow, h: seq<Outcome>, i: nat)
    requires i < |h| && CollisionFree(UsedNames(wf, h))
    requires ThrowsAt(w, wf, h[..i])
    ensures Runs(Reruns(w, wf, h), InlineKey(wf, h[..i])) == 1
    decreases |h|
  {
    hide CollisionFree, UsedNames, RunKeys, ActionKeys, Runs;
    var init, o := h[..|h| - 1], h[|h| - 1];
    var k := InlineKey(wf, h[..i]);
    assert h == init + [o];
    RunKeysExtend(wf, init, o);
    CollisionFreePrefix(UsedNames(wf, init), Names(wf(init)));
    RunsConcat(Reruns(w, wf, init), Rerun(w, wf, init), k);
    FreshKeys(wf, init);
    if i == |init| {
      assert h[..i] == init;
      assert k in ActionKeys(wf, init);
      RerunsCount(w, wf, init, k);
      OneRun(k);
    } else {
      assert init[..i] == h[..i];
      ThrownOnce(w, wf, init, i);
      SeenKey(wf, init, i, k);
      RerunCount(w, wf, init, k);
    }
  }

  lemma OneRun(k: string)
    ensures Runs([RanInline(k)], k) == 1
  {
    assert EventKeys([RanInline(k)]) == [k];
  }

  // ---------- One round of the loop ----------

  /** Each recorded step happened once; nothing happened to steps the run has not reached. */
  ghost predicate OnceEach(w: World, wf: Workflow, g: seq<Outcome>, log: seq<Event>) {
    forall k :: (k in Recorded(w, wf, g) ==> Runs(log, k) == 1) && (k !in RunKeys(wf, g) ==> Runs(log, k) == 0)
  }

  /** Each inline body of `g` that throws was run once per replay that reached it: as often as replays
      stopped after it, and `last` times more. */
  ghost predicate ThrownEach(w: World, wf: Workflow, g: seq<Outcome>, log: seq<Event>, last: nat) {
    forall i :: 0 <= i < |g| && ThrowsAt(w, wf, g[..i]) ==>
      Runs(log, InlineKey(wf, g[..i])) == StopCount(w, wf, g) - StopCount(w, wf, g[..i]) + last
  }

  lemma OnceEachKept(w: World, wf: Workflow, g: seq<Outcome>, h: seq<Outcome>, log: seq<Event>)
    requires g <= h && CollisionFree(UsedNames(wf, h)) && CollisionFree(UsedNames(wf, g))
    requires OnceEach(w, wf, g, log)
    ensures OnceEach(w, wf, h, log + (Reruns(w, wf, g) + FirstRuns(wf, |g|, h)))
  {
    hide Recorded, RunKeys, UsedNames, CollisionFree, Reruns, FirstRuns, Runs;
    var again, first := Reruns(w, wf, g), FirstRuns(wf, |g|, h);
    RecordedGrows(w, wf, g, h);
    RecordedKeys(w, wf, h);
    assert h[..|g|] == g;
    RunKeysPrefix(wf, h, |g|);
    forall k
      ensures k in Recorded(w, wf, h) ==> Runs(log + (again + first), k) == 1
      ensures k !in RunKeys(wf, h) ==> Runs(log + (again + first), k) == 0
    {
      PrefixMember(RunKeys(wf, g), RunKeys(wf, h), k);
      RunsConcat(log, again + first, k);
      RunsConcat(again, first, k);
      FirstRunsCount(wf, |g|, h, k);
      RecordedKeys(w, wf, g);
      if k in Recorded(w, wf, g) || k !in RunKeys(wf, g) { RerunsCount(w, wf, g, k); }
    }
  }

  lemma ThrownEachKept(w: World, wf: Workflow, g: seq<Outcome>, h: seq<Outcome>, log: seq<Event>, last: nat, i: nat)
    requires g <= h && CollisionFree(UsedNames(wf, h)) && CollisionFree(UsedNames(wf, g))
    requires OnceEach(w, wf, g, log) && ThrownEach(w, wf, g, log, 0)
    requires StopCount(w, wf, h) + last == StopCount(w, wf, g) + 1
    requires forall j :: |g| <= j < |h| ==> StopCount(w, wf, h[..j]) == StopCount(w, wf, g)
    requires i < |h| && ThrowsAt(w, wf, h[..i])
    ensures Runs(log + (Reruns(w, wf, g) + FirstRuns(wf, |g|, h)), InlineKey(wf, h[..i]))
            == StopCount(w, wf, h) - StopCount(w, wf, h[..i]) + last
  {
    hide Recorded, RunKeys, UsedNames, CollisionFree, Reruns, FirstRuns, Runs, ActionKeys, StopCount;
    var again, first, k := Reruns(w, wf, g), FirstRuns(wf, |g|, h), InlineKey(wf, h[..i]);
    RunsConcat(log, again + first, k);
    RunsConcat(again, first, k);
    FirstRunsCount(wf, |g|, h, k);
    assert h[..|g|] == g;
    SeenKey(wf, h, i, k);
    if i < |g| {
      assert h[..i] == g[..i];
      SeenKey(wf, g, i, k);
      ThrownOnce(w, wf, g, i);
    } else {
      NewKeyIsNew(wf, g, h, i);
      RerunsCount(w, wf, g, k);
    }
  }

  lemma NewKeyIsNew(wf: Workflow, g: seq<Outcome>, h: seq<Outcome>, i: nat)
    requires g <= h && CollisionFree(UsedNames(wf, h)) && |g| <= i < |h|
    ensures forall k :: k in ActionKeys(wf, h[..i]) ==> k !in RunKeys(wf, g)
  {
    hide RunKeys, UsedNames, CollisionFree, ActionKeys;
    CollisionFreeAt(wf, h, i);
    FreshKeys(wf, h[..i]);
    assert h[..i][..|g|] == g;
    RunKeysPrefix(wf, h[..i], |g|);
    forall k | k in RunKeys(wf, g) ensures k in RunKeys(wf, h[..i]) {
      PrefixMember(RunKeys(wf, g), RunKeys(wf, h[..i]), k);
    }
  }

  lemma {:induction false} CollisionFreeAt(wf: Workflow, h: seq<Outcome>, i: nat)
    requires CollisionFree(UsedNames(wf, h)) && i < |h|
    ensures CollisionFree(UsedNames(wf, h[..i]) + Names(wf(h[..i])))
    decreases |h|
  {
    hide RunKeys, UsedNames, CollisionFree, ActionKeys;
    var init := h[..|h| - 1];
    assert h == init + [h[|h| - 1]];
    RunKeysExtend(wf, init, h[|h| - 1]);
    if i == |init| {
      assert h[..i] == init;
    } else {
      CollisionFreePrefix(UsedNames(wf, init), Names(wf(init)));
      assert init[..i] == h[..i];
      CollisionFreeAt(wf, init, i);
    }
  }

  ghost predicate EndsInStop(w: World, wf: Workflow, g: seq<Outcome>) {
    g == [] || StopsAt(w, wf, g[..|g| - 1])
  }

  /** What is true of the loop after `k` replays; `g` is the direct history its checkpoint stands for:
      the run up to and including the `k`-th action that makes a replay stop. */
  ghost predicate LoopSpec(w: World, wf: Workflow, n: nat, k: nat, g: seq<Outcome>, s: Loop) {
    && IsDirect(w, wf, g)
    && match s
       case Going(cp, log) =>
         && cp == Recorded(w, wf, g) && StopCount(w, wf, g) == k && EndsInStop(w, wf, g)
         && OnceEach(w, wf, g, log) && ThrownEach(w, wf, g, log, 0)
       case Ended(o, cp, log) =>
         && wf(g) == Finish(o) && cp == Recorded(w, wf, g) && StopCount(w, wf, g) < k
         && OnceEach(w, wf, g, log) && ThrownEach(w, wf, g, log, 1)
       case Broken => |g| == n && StopCount(w, wf, g) < k
  }

  lemma WellBehavedAt(w: World, wf: Workflow, h: seq<Outcome>)
    requires WellBehaved(w, wf) && IsDirect(w, wf, h)
    ensures CollisionFree(UsedNames(wf, h) + Names(wf(h))) && CollisionFree(UsedNames(wf, h))
  {
    hide CollisionFree, UsedNames, Storable;
    CollisionFreePrefix(UsedNames(wf, h), Names(wf(h)));
  }

  /** A replay that follows the direct run takes the loop to the next stop of it. */
  lemma OneRound(w: World, wf: Workflow, n: nat, k: nat, g: seq<Outcome>, s: Loop) returns (g': seq<Outcome>)
    requires WellBehaved(w, wf) && s.Going? && LoopSpec(w, wf, n, k, g, s)
    requires RoundSpec(w, wf, g, n, RoundAfter(w, wf, s.checkpoint, None, TriesIn(s.log), n))
    ensures LoopSpec(w, wf, n, k + 1, g', NextLoop(w, wf, n, s))
  {
    hide WellBehaved, IsDirect, CollisionFree, UsedNames, RoundAfter, Recorded, OnceEach, ThrownEach, ActionRecord,
         Reruns, FirstRuns, FirstRun, DirectOutcome, Resume, DistinctSteps, DispatchOf, StopsAt, StopCount, TriesIn;
    var r := RoundAfter(w, wf, s.checkpoint, None, TriesIn(s.log), n);
    g' := r.h;
    WellBehavedAt(w, wf, g);
    WellBehavedAt(w, wf, r.h);
    match r.status
    case Running => NotStopped(w, wf, g, r.h);
    case Finished(_) =>
      AtEvents(w, wf, g, r.h);
      OnceEachKept(w, wf, g, r.h, s.log);
      AllThrownKept(w, wf, g, r.h, s.log, 1);
    case Dispatches(_) =>
      var o := DirectOutcome(w, wf, r.h);
      g' := r.h + [o];
      assert g'[..|r.h|] == r.h;
      DirectExtend(w, wf, r.h);
      WellBehavedAt(w, wf, g');
      AtEvents(w, wf, g, r.h);
      AtExtend(w, wf, g, r.h, o);
      AtEvents(w, wf, g, g');
      StopCountExtend(w, wf, r.h, o);
      OnceEachKept(w, wf, g, g', s.log);
      AllThrownKept(w, wf, g, g', s.log, 0);
  }

  lemma NotStopped(w: World, wf: Workflow, g: seq<Outcome>, h: seq<Outcome>)
    requires IsDirect(w, wf, g) && IsDirect(w, wf, h)
    requires |g| <= |h| ==> StopCount(w, wf, h) == StopCount(w, wf, g)
    ensures StopCount(w, wf, h) <= StopCount(w, wf, g)
  {
    hide IsDirect, StopCount;
    if |h| < |g| {
      DirectUnique(w, wf, h, g);
      StopCountPrefix(w, wf, g, |h|);
    }
  }

  lemma AllThrownKept(w: World, wf: Workflow, g: seq<Outcome>, h: seq<Outcome>, log: seq<Event>, last: nat)
    requires g <= h && CollisionFree(UsedNames(wf, h)) && CollisionFree(UsedNames(wf, g))
    requires OnceEach(w, wf, g, log) && ThrownEach(w, wf, g, log, 0)
    requires StopCount(w, wf, h) + last == StopCount(w, wf, g) + 1
    requires last == 0 ==> h != g && StopCount(w, wf, h[..|h| - 1]) == StopCount(w, wf, g)
    ensures ThrownEach(w, wf, h, log + (Reruns(w, wf, g) + FirstRuns(wf, |g|, h)), last)
  {
    hide OnceEach, CollisionFree, UsedNames, StopCount, Runs, Reruns, FirstRuns, ActionKeys, InlineKey;
    forall j | |g| <= j < |h| ensures StopCount(w, wf, h[..j]) == StopCount(w, wf, g) {
      var last' := if last == 0 then h[..|h| - 1] else h;
      assert last'[..j] == h[..j] && last'[..j][..|g|] == g;
      StopCountPrefix(w, wf, last', j);
      StopCountPrefix(w, wf, last'[..j], |g|);
    }
    forall i | 0 <= i < |h| && ThrowsAt(w, wf, h[..i])
      ensures Runs(log + (Reruns(w, wf, g) + FirstRuns(wf, |g|, h)), InlineKey(wf, h[..i]))
              == StopCount(w, wf, h) - StopCount(w, wf, h[..i]) + last
    {
      ThrownEachKept(w, wf, g, h, log, last, i);
    }
  }

  lemma AtEvents(w: World, wf: Workflow, g: seq<Outcome>, h: seq<Outcome>)
    requires g <= h
    ensures At(w, wf, g, h).events == Reruns(w, wf, g) + FirstRuns(wf, |g|, h)
    ensures At(w, wf, g, h).server == Recorded(w, wf, h)
  {
    hide Recorded, Reruns;
    assert |g| == |h| ==> g == h;
    assert Reruns(w, wf, g) + [] == Reruns(w, wf, g);
  }

  /** A replay that asks for several steps with one key breaks the job; any other request is carried out. */
  lemma DuplicateKeysRefused(w: World, wf: Workflow, n: nat, s: Loop)
    requires s.Going?
    requires RoundAfter(w, wf, s.checkpoint, None, TriesIn(s.log), n).status.Dispatches?
    ensures var d := RoundAfter(w, wf, s.checkpoint, None, TriesIn(s.log), n).status.d;
            NextLoop(w, wf, n, s).Broken?
            <==> d.Tasks? && exists i, j :: 0 <= i < j < |d.steps| && d.steps[i].key == d.steps[j].key
  {
    hide RoundAfter, Resume, TriesIn;
  }

  // ---------- All rounds ----------

  /** Whenever the loop runs an inline body that threw once more, it throws the same error. The run `g`
      has the loop stop `StopCount(g) - StopCount(g[..i])` times after the body was first run. */
  ghost predicate Steady(w: World, wf: Workflow) {
    forall g, i :: IsDirect(w, wf, g) && 0 <= i < |g| && ThrowsAt(w, wf, g[..i]) ==> SteadyAt(w, wf, g, i)
  }

  ghost predicate SteadyAt(w: World, wf: Workflow, g: seq<Outcome>, i: nat)
    requires i < |g| && ThrowsAt(w, wf, g[..i])
  {
    var key, stops := InlineKey(wf, g[..i]), StopCount(w, wf, g) - StopCount(w, wf, g[..i]);
    stops >= 0 && w.inline(key, stops) == w.inline(key, 0)
  }

  /** The replays before the next one have not run what comes after `g`. */
  lemma LoopUntried(w: World, wf: Workflow, g: seq<Outcome>, log: seq<Event>)
    requires WellBehaved(w, wf) && IsDirect(w, wf, g) && OnceEach(w, wf, g, log)
    ensures Untried(w, wf, g, TriesIn(log))
  {
    hide WellBehaved, IsDirect, ActionKeys, RunKeys, Recorded, Runs, CollisionFree, UsedNames;
    forall h | IsDirect(w, wf, h) && |g| <= |h| && wf(h).Inline? ensures TriesIn(log)(InlineKey(wf, h)) == 0 {
      DirectUnique(w, wf, g, h);
      WellBehavedAt(w, wf, h);
      NewKeysNotRecorded(w, wf, g, h);
      assert InlineKey(wf, h) in ActionKeys(wf, h);
    }
  }

  lemma LoopRepeatsIff(w: World, wf: Workflow, g: seq<Outcome>, log: seq<Event>)
    requires IsDirect(w, wf, g) && ThrownEach(w, wf, g, log, 0)
    ensures Repeats(w, wf, g, TriesIn(log)) <==> forall i :: 0 <= i < |g| && ThrowsAt(w, wf, g[..i]) ==>
            SteadyAt(w, wf, g, i)
  {
    hide IsDirect, StopCount, Runs, ActionKeys, InlineKey;
    forall i | 0 <= i < |g| && ThrowsAt(w, wf, g[..i])
      ensures SteadyAt(w, wf, g, i) <==> SameAgain(w, wf, g[..i], TriesIn(log))
    {
      StopCountPrefix(w, wf, g, i);
    }
  }

  lemma SteadyRound(w: World, wf: Workflow, n: nat, k: nat, g: seq<Outcome>, s: Loop)
    requires WellBehaved(w, wf) && Steady(w, wf) && s.Going? && LoopSpec(w, wf, n, k, g, s)
    ensures s.checkpoint == Recorded(w, wf, g) && Untried(w, wf, g, TriesIn(s.log)) && Repeats(w, wf, g, TriesIn(s.log))
  {
    hide WellBehaved, OnceEach, ThrownEach, IsDirect, StopCount, SteadyAt, ThrowsAt, Untried, Repeats, Recorded,
         EndsInStop;
    LoopUntried(w, wf, g, s.log);
    LoopRepeatsIff(w, wf, g, s.log);
  }

  /** Every reachable state of the loop stands for a history of the direct run. */
  lemma {:induction false} LoopFollowsDirect(w: World, wf: Workflow, n: nat, k: nat) returns (g: seq<Outcome>)
    requires WellBehaved(w, wf) && Steady(w, wf)
    ensures LoopSpec(w, wf, n, k, g, LoopAfter(w, wf, n, k))
  {
    hide WellBehaved, Steady, NextLoop, LoopSpec, RoundSpec, Untried, Repeats, Recorded;
    if k == 0 {
      g := [];
      LoopStarts(w, wf, n);
    } else {
      g := LoopFollowsDirect(w, wf, n, k - 1);
      var s := LoopAfter(w, wf, n, k - 1);
      if s.Going? {
        SteadyRound(w, wf, n, k - 1, g, s);
        StandsFor(w, wf, n, k - 1, g, s);
        RoundFollowsDirect(w, wf, g, TriesIn(s.log), n);
        g := OneRound(w, wf, n, k - 1, g, s);
      } else {
        LoopStays(w, wf, n, s);
        LaterToo(w, wf, n, k - 1, g, s);
      }
    }
  }

  lemma LoopStarts(w: World, wf: Workflow, n: nat)
    ensures LoopSpec(w, wf, n, 0, [], Going(map[], []))
  {
    hide OnceEach, ThrownEach;
    EmptyLog(w, wf);
  }

  lemma StandsFor(w: World, wf: Workflow, n: nat, k: nat, g: seq<Outcome>, s: Loop)
    requires s.Going? && LoopSpec(w, wf, n, k, g, s)
    ensures s.checkpoint == Recorded(w, wf, g) && IsDirect(w, wf, g)
  {
    hide IsDirect, StopCount, Recorded, OnceEach, ThrownEach;
  }

  lemma LaterToo(w: World, wf: Workflow, n: nat, k: nat, g: seq<Outcome>, s: Loop)
    requires !s.Going? && LoopSpec(w, wf, n, k, g, s)
    ensures LoopSpec(w, wf, n, k + 1, g, s)
  {
    hide IsDirect, StopCount, Recorded, OnceEach, ThrownEach;
  }

  lemma EmptyLog(w: World, wf: Workflow)
    ensures IsDirect(w, wf, []) && StopCount(w, wf, []) == 0 && Recorded(w, wf, []) == map[]
    ensures OnceEach(w, wf, [], []) && ThrownEach(w, wf, [], [], 0)
  {
    assert EventKeys([]) == [];
  }

  lemma LoopStays(w: World, wf: Workflow, n: nat, s: Loop)
    requires !s.Going?
    ensures NextLoop(w, wf, n, s) == s
  {
  }

  // ---------- When the loop ends, and with what ----------

  /** As long as the run has further stops, the loop goes on. */
  lemma GoesOn(w: World, wf: Workflow, h: seq<Outcome>, n: nat, k: nat, g: seq<Outcome>, s: Loop)
    requires IsDirect(w, wf, h) && n > |h| && k <= StopCount(w, wf, h) && LoopSpec(w, wf, n, k, g, s)
    ensures s.Going?
  {
    hide IsDirect, StopCount, Recorded, OnceEach, ThrownEach, EndsInStop;
    if |g| < |h| {
      DirectPrefix(w, wf, h, |g|);
      DirectUnique(w, wf, g, h);
    } else {
      DirectUnique(w, wf, h, g);
      StopCountPrefix(w, wf, g, |h|);
    }
  }

  /** Once the run has no further stops, the loop has ended at the end of the run. */
  lemma HasEnded(w: World, wf: Workflow, h: seq<Outcome>, o: Outcome, n: nat, k: nat, g: seq<Outcome>, s: Loop)
    requires IsDirect(w, wf, h) && wf(h) == Finish(o) && n > |h| && LoopSpec(w, wf, n, k, g, s)
    requires k > StopCount(w, wf, h)
    ensures s.Ended? && g == h
  {
    hide IsDirect, StopCount, Recorded, OnceEach, ThrownEach, EndsInStop;
    if |g| > |h| {
      DirectPrefix(w, wf, g, |h|);
      DirectUnique(w, wf, h, g);
      assert false;
    }
    DirectUnique(w, wf, g, h);
    StopCountPrefix(w, wf, h, |g|);
    if |g| < |h| { DirectPrefix(w, wf, h, |g|); }
    assert h[..|h|] == h;
  }

  /** If running every step in place takes the workflow through `h` to the outcome `o`, then the loop
      of replays ends with `o` too. It takes exactly one replay more than there are actions of `h` at
      which one stops. Every recorded step was dispatched or run exactly once, a body that throws once
      per replay that reached it, and nothing else was touched. */
  lemma ReplayRefinesDirect(w: World, wf: Workflow, h: seq<Outcome>, o: Outcome, n: nat, k: nat)
    requires WellBehaved(w, wf) && Steady(w, wf)
    requires IsDirect(w, wf, h) && wf(h) == Finish(o) && n > |h|
    ensures LoopAfter(w, wf, n, k).Going? <==> k <= StopCount(w, wf, h)
    ensures k > StopCount(w, wf, h) ==>
              var s := LoopAfter(w, wf, n, k);
              && s.Ended? && s.outcome == o && s.checkpoint == Recorded(w, wf, h)
              && OnceEach(w, wf, h, s.log) && ThrownEach(w, wf, h, s.log, 1)
  {
    hide WellBehaved, Steady, LoopAfter, IsDirect, Recorded, OnceEach, ThrownEach, StopCount, EndsInStop;
    var s := LoopAfter(w, wf, n, k);
    var g := LoopFollowsDirect(w, wf, n, k);
    if k <= StopCount(w, wf, h) {
      GoesOn(w, wf, h, n, k, g, s);
    } else {
      HasEnded(w, wf, h, o, n, k, g, s);
    }
  }

  /** A body that throws is run exactly once over the whole loop if and only if no later action makes a
      replay stop; otherwise it is run once more for each that does. */
  lemma ThrowingBodyRuns(w: World, wf: Workflow, h: seq<Outcome>, o: Outcome, n: nat, k: nat, i: nat)
    requires WellBehaved(w, wf) && Steady(w, wf)
    requires IsDirect(w, wf, h) && wf(h) == Finish(o) && n > |h| && k > StopCount(w, wf, h)
    requires i < |h| && ThrowsAt(w, wf, h[..i])
    ensures var s, key := LoopAfter(w, wf, n, k), InlineKey(wf, h[..i]);
            && s.Ended? && Runs(s.log, key) == 1 + StopCount(w, wf, h) - StopCount(w, wf, h[..i + 1])
            && (Runs(s.log, key) == 1 <==> forall j :: i < j < |h| ==> !StopsAt(w, wf, h[..j]))
  {
    hide WellBehaved, Steady, LoopAfter, IsDirect, Recorded, OnceEach, Runs, StopCount, ActionKeys, InlineKey;
    ReplayRefinesDirect(w, wf, h, o, n, k);
    assert h[..i + 1] == h[..i] + [h[i]];
    StopCountExtend(w, wf, h[..i], h[i]);
    NoStopsIff(w, wf, h, i + 1);
  }

  lemma {:induction false} NoStopsIff(w: World, wf: Workflow, h: seq<Outcome>, i: nat)
    requires i <= |h|
    ensures StopCount(w, wf, h) == StopCount(w, wf, h[..i]) <==> forall j :: i <= j < |h| ==> !StopsAt(w, wf, h[..j])
    decreases |h|
  {
    hide StopsAt;
    if i == |h| {
      assert h[..i] == h;
    } else {
      var init := h[..|h| - 1];
      assert init[..i] == h[..i];
      assert forall j :: i <= j < |init| ==> init[..j] == h[..j];
      NoStopsIff(w, wf, init, i);
      StopCountPrefix(w, wf, init, i);
    }
  }

  /** The number of replays is bounded by the number of recorded steps. */
  lemma {:induction false} StopsAreRecorded(w: World, wf: Workflow, h: seq<Outcome>)
    requires CollisionFree(UsedNames(wf, h))
    ensures StopCount(w, wf, h) <= |Recorded(w, wf, h)|
    decreases |h|
  {
    hide CollisionFree, UsedNames, ActionKeys, ActionRecord, StopsAt, RunKeys;
    if h != [] {
      var init, o := h[..|h| - 1], h[|h| - 1];
      assert h == init + [o];
      RunKeysExtend(wf, init, o);
      CollisionFreePrefix(UsedNames(wf, init), Names(wf(init)));
      StopsAreRecorded(w, wf, init);
      if StopsAt(w, wf, init) {
        StopIsRecorded(w, wf, init);
        RecordedGrowsStrictly(w, wf, init, init, o);
      } else {
        RecordedGrows(w, wf, init, h);
        SubsetSize(Recorded(w, wf, init).Keys, Recorded(w, wf, h).Keys);
      }
    }
  }

  lemma StopIsRecorded(w: World, wf: Workflow, h: seq<Outcome>)
    requires StopsAt(w, wf, h)
    ensures ActionRecord(w, wf, h) != map[]
  {
    hide ActionKeys;
    match wf(h)
    case Batch(calls) =>
      var infos := Infos(calls, ActionKeys(wf, h));
      RecordJobsKeys(w, infos);
      assert StepKeys(infos)[0] in RecordJobs(w, infos);
    case Inline(_) => assert InlineKey(wf, h) in ActionRecord(w, wf, h);
    case Sleep(_) => assert ActionKeys(wf, h)[0] in ActionRecord(w, wf, h);
    case Approval(_, _, _) => assert ActionKeys(wf, h)[0] in ActionRecord(w, wf, h);
  }

  lemma SubsetSize(a: set<string>, b: set<string>)
    requires a <= b
    ensures |a| <= |b|
  {
    assert |b| == |a| + |b - a|;
  }

  // ---------- The condition is exact ----------

  /** After `k` replays the loop stands for a history of the direct run, and the next replay follows it. */
  ghost predicate FollowsAt(w: World, wf: Workflow, n: nat, k: nat) {
    var s := LoopAfter(w, wf, n, k);
    s.Going? ==> exists g :: LoopSpec(w, wf, n, k, g, s) && Follows(w, wf, g, TriesIn(s.log))
  }

  /** All replays of a loop follow the direct run exactly if each inline body that threw throws the same
      error whenever one of them runs it again. */
  lemma LoopFollowsIff(w: World, wf: Workflow)
    requires WellBehaved(w, wf)
    ensures Steady(w, wf) <==> forall n, k :: FollowsAt(w, wf, n, k)
  {
    hide WellBehaved, FollowsAt, IsDirect, ThrowsAt, SteadyAt;
    if Steady(w, wf) {
      forall n, k ensures FollowsAt(w, wf, n, k) {
        SteadyFollows(w, wf, n, k);
      }
    }
    if forall n, k :: FollowsAt(w, wf, n, k) {
      forall g, i: nat | IsDirect(w, wf, g) && i < |g| && ThrowsAt(w, wf, g[..i]) ensures SteadyAt(w, wf, g, i) {
        FollowedIsSteady(w, wf, g, i);
      }
    }
  }

  lemma SteadyFollows(w: World, wf: Workflow, n: nat, k: nat)
    requires WellBehaved(w, wf) && Steady(w, wf)
    ensures FollowsAt(w, wf, n, k)
  {
    hide WellBehaved, LoopAfter, LoopSpec, IsDirect, Steady, Untried, Repeats, Follows, Recorded;
    var s := LoopAfter(w, wf, n, k);
    var g := LoopFollowsDirect(w, wf, n, k);
    if s.Going? {
      SteadyRound(w, wf, n, k, g, s);
      StandsFor(w, wf, n, k, g, s);
      RoundFollowsIff(w, wf, g, TriesIn(s.log));
    }
  }

  lemma {:induction false} FollowedLoop(w: World, wf: Workflow, n: nat, k: nat) returns (g: seq<Outcome>)
    requires WellBehaved(w, wf) && forall k' :: FollowsAt(w, wf, n, k')
    ensures LoopSpec(w, wf, n, k, g, LoopAfter(w, wf, n, k))
    ensures LoopAfter(w, wf, n, k).Going? ==> Follows(w, wf, g, TriesIn(LoopAfter(w, wf, n, k).log))
  {
    hide WellBehaved, NextLoop, RoundSpec, LoopSpec;
    assert FollowsAt(w, wf, n, k);
    var s := LoopAfter(w, wf, n, k);
    if s.Going? {
      g :| LoopSpec(w, wf, n, k, g, s) && Follows(w, wf, g, TriesIn(s.log));
    } else {
      g := FollowedLoop(w, wf, n, k - 1);
      var s' := LoopAfter(w, wf, n, k - 1);
      if s'.Going? {
        StandsFor(w, wf, n, k - 1, g, s');
        g := OneRound(w, wf, n, k - 1, g, s');
      } else {
        LoopStays(w, wf, n, s');
        LaterToo(w, wf, n, k - 1, g, s');
      }
    }
  }

  lemma FollowedIsSteady(w: World, wf: Workflow, g: seq<Outcome>, i: nat)
    requires WellBehaved(w, wf) && forall n, k :: FollowsAt(w, wf, n, k)
    requires IsDirect(w, wf, g) && i < |g| && ThrowsAt(w, wf, g[..i])
    ensures SteadyAt(w, wf, g, i)
  {
    hide WellBehaved, FollowsAt, IsDirect, StopCount, LoopAfter, OnceEach, ThrownEach, Recorded, Follows, Repeats,
         StopsAt, ThrowsAt, ActionKeys, InlineKey;
    var k, n := StopCount(w, wf, g), |g| + 1;
    var s := LoopAfter(w, wf, n, k);
    var p := FollowedLoop(w, wf, n, k);
    GoesOn(w, wf, g, n, k, p, s);
    LoopUntried(w, wf, p, s.log);
    RoundFollowsIff(w, wf, p, TriesIn(s.log));
    LoopRepeatsIff(w, wf, p, s.log);
    LastStop(w, wf, p, g);
    DirectUnique(w, wf, p, g);
    StopCountPrefix(w, wf, g, i);
    if i < |p| {
      assert p[..i] == g[..i];
      assert SteadyAt(w, wf, p, i);
    } else {
      assert g[..i][..|p|] == p;
      StopCountPrefix(w, wf, g[..i], |p|);
    }
  }

  lemma LastStop(w: World, wf: Workflow, p: seq<Outcome>, g: seq<Outcome>)
    requires IsDirect(w, wf, p) && IsDirect(w, wf, g) && EndsInStop(w, wf, p)
    requires StopCount(w, wf, p) == StopCount(w, wf, g)
    ensures |p| <= |g|
  {
    hide IsDirect, StopsAt;
    if |p| > |g| {
      DirectUnique(w, wf, g, p);
      var init := p[..|p| - 1];
      assert init[..|g|] == g;
      StopCountPrefix(w, wf, init, |g|);
    }
  }

  /** Replays from different checkpoints of the run agree as far as both go: they make the same calls
      with the same names, scripts, arguments and keys, and see the same outcomes. */
  lemma PrefixStable(w: World, wf: Workflow, n: nat, k: nat, k': nat, m: nat, m': nat, i: nat)
    requires WellBehaved(w, wf) && Steady(w, wf)
    requires LoopAfter(w, wf, n, k).Going? && LoopAfter(w, wf, n, k').Going?
    ensures var s, s' := LoopAfter(w, wf, n, k), LoopAfter(w, wf, n, k');
            var r := RoundAfter(w, wf, s.checkpoint, None, TriesIn(s.log), m);
            var r' := RoundAfter(w, wf, s'.checkpoint, None, TriesIn(s'.log), m');
            i <= |r.h| && i <= |r'.h| ==>
              && r.h[..i] == r'.h[..i] && wf(r.h[..i]) == wf(r'.h[..i])
              && ActionKeys(wf, r.h[..i]) == ActionKeys(wf, r'.h[..i])
  {
    hide WellBehaved, Steady, IsDirect, RoundAfter, ActionKeys, LoopAfter;
    var s, s' := LoopAfter(w, wf, n, k), LoopAfter(w, wf, n, k');
    ReplayIsDirect(w, wf, n, k, m);
    ReplayIsDirect(w, wf, n, k', m');
    var r := RoundAfter(w, wf, s.checkpoint, None, TriesIn(s.log), m);
    var r' := RoundAfter(w, wf, s'.checkpoint, None, TriesIn(s'.log), m');
    if |r.h| <= |r'.h| { DirectUnique(w, wf, r.h, r'.h); } else { DirectUnique(w, wf, r'.h, r.h); }
    if i <= |r.h| && i <= |r'.h| {
      assert r.h[..i] == r'.h[..i];
    }
  }

  lemma ReplayIsDirect(w: World, wf: Workflow, n: nat, k: nat, m: nat)
    requires WellBehaved(w, wf) && Steady(w, wf) && LoopAfter(w, wf, n, k).Going?
    ensures var s := LoopAfter(w, wf, n, k);
            IsDirect(w, wf, RoundAfter(w, wf, s.checkpoint, None, TriesIn(s.log), m).h)
  {
    hide WellBehaved, IsDirect, Steady, LoopAfter, LoopSpec, StoppedAt, StopCount;
    SteadyFollows(w, wf, n, k);
    var s := LoopAfter(w, wf, n, k);
    var g :| LoopSpec(w, wf, n, k, g, s) && Follows(w, wf, g, TriesIn(s.log));
    StandsFor(w, wf, n, k, g, s);
    assert RoundSpec(w, wf, g, m, RoundAfter(w, wf, Recorded(w, wf, g), None, TriesIn(s.log), m));
  }
}
