/** The workflow
      try { await step("flaky", f) } catch { await fallback(); return "B" }
      return "A"
    with a body `f` that throws the first time it is run. */
module FlakyStep {
  import opened Basics
  import opened Keys
  import opened Steps
  import opened Replay
  import opened Refinement
  import opened ReplayLoop

  const FALLBACK := Call("fallback", "f/fallback", "{}", ScriptTask)
  const ERROR := StepError("not yet", "", "", "")

  function NextAction(h: seq<Outcome>): Action {
    if h == [] then Inline("flaky")
    else if h[0].Returned? then Finish(Returned(Json("A")))
    else if |h| == 1 then Batch([FALLBACK])
    else Finish(Returned(Json("B")))
  }

  function FlakyWorkflow(): Workflow { h => NextAction(h) }

  /** The body throws when it is first run and does `later` whenever it is run again. */
  function FlakyWorld(later: BodyResult): World {
    World(_ => Succeeded(Null), _ => Returns(Null), _ => false,
          (_, tries) => if tries == 0 then Throws(ERROR) else later, _ => Null, _ => true)
  }

  /** What the workflow sees when its steps are run in place. */
  const SEEN: seq<Outcome> := [Threw(ERROR), Returned(List([Null]))]

  // ---------- The run in place ----------

  lemma {:induction false} OccursOnce(names: seq<string>, x: string)
    requires Distinct(names) && x in names
    ensures Occurrences(names, x) == 1
  {
    var init := names[..|names| - 1];
    if x == names[|names| - 1] {
      assert x !in init;
    } else {
      OccursOnce(init, x);
    }
  }

  /** Names used once each never collide, and are their own keys. */
  lemma {:induction false} NamesOnce(names: seq<string>)
    requires Distinct(names)
    ensures CollisionFree(names) && AllocatedKeys(names) == names
  {
    hide Occurrences, Decimal;
    if names != [] {
      NamesOnce(names[..|names| - 1]);
      forall x | x in names ensures Occurrences(names, x) == 1 { OccursOnce(names, x); }
    }
  }

  lemma NamesDiffer()
    ensures "flaky" != "fallback"
  {
    assert "flaky"[1] != "fallback"[1];
  }

  lemma FlakyKeys()
    ensures UsedNames(FlakyWorkflow(), []) == [] && UsedNames(FlakyWorkflow(), SEEN[..1]) == ["flaky"]
    ensures UsedNames(FlakyWorkflow(), SEEN) == ["flaky", "fallback"]
    ensures Names(NextAction([])) == ["flaky"] && Names(NextAction(SEEN[..1])) == ["fallback"] &&
            Names(NextAction(SEEN)) == []
    ensures ActionKeys(FlakyWorkflow(), []) == ["flaky"] && ActionKeys(FlakyWorkflow(), SEEN[..1]) == ["fallback"]
  {
    hide AllocatedKeys, UsedNames, Names, NextAction, ActionKeys;
    FlakyNames();
    NamesDiffer();
    OwnKeys(FlakyWorkflow(), []);
    OwnKeys(FlakyWorkflow(), SEEN[..1]);
  }

  /** Where no name is used twice, keys are names. */
  lemma OwnKeys(wf: Workflow, h: seq<Outcome>)
    requires Distinct(UsedNames(wf, h) + Names(wf(h)))
    ensures ActionKeys(wf, h) == Names(wf(h))
  {
    hide AllocatedKeys, UsedNames, Names, CollisionFree;
    NamesOnce(UsedNames(wf, h) + Names(wf(h)));
  }

  lemma FlakyNames()
    ensures UsedNames(FlakyWorkflow(), []) == [] && UsedNames(FlakyWorkflow(), SEEN[..1]) == ["flaky"]
    ensures UsedNames(FlakyWorkflow(), SEEN) == ["flaky", "fallback"]
    ensures Names(NextAction([])) == ["flaky"] && Names(NextAction(SEEN[..1])) == ["fallback"] &&
            Names(NextAction(SEEN)) == []
  {
    assert SEEN[..1][..0] == [];
    assert [] + ["flaky"] == ["flaky"] && ["flaky"] + ["fallback"] == ["flaky", "fallback"];
  }

  lemma FlakyDirect(later: BodyResult)
    ensures IsDirect(FlakyWorld(later), FlakyWorkflow(), SEEN) && NextAction(SEEN) == Finish(Returned(Json("B")))
  {
    hide ActionKeys;
    FlakyKeys();
    var w, wf := FlakyWorld(later), FlakyWorkflow();
    assert SEEN[..1] == [Threw(ERROR)] && SEEN[..1][..0] == [];
    assert DirectOutcome(w, wf, []) == Threw(ERROR);
    assert IsDirect(w, wf, []) && IsDirect(w, wf, SEEN[..1]);
    var infos := Infos([FALLBACK], ["fallback"]);
    assert wf(SEEN[..1]) == Batch([FALLBACK]) && infos[1..] == [];
    assert InPlaceAll(w, []) == AllValues([]) && InPlaceAll(w, infos) == AllValues([Null] + []);
    assert [Null] + [] == [Null];
    assert BatchInPlace(w, infos) == SEEN[1] && DirectOutcome(w, wf, SEEN[..1]) == BatchInPlace(w, infos);
  }

  lemma FlakyHistories(later: BodyResult, h: seq<Outcome>)
    requires IsDirect(FlakyWorld(later), FlakyWorkflow(), h)
    ensures h == [] || h == SEEN[..1] || h == SEEN
  {
    hide IsDirect;
    FlakyDirect(later);
    var w, wf := FlakyWorld(later), FlakyWorkflow();
    if |h| <= 2 {
      DirectUnique(w, wf, h, SEEN);
    } else {
      DirectUnique(w, wf, SEEN, h);
      DirectPrefix(w, wf, h, 2);
    }
  }

  lemma FlakyWellBehaved(later: BodyResult)
    ensures WellBehaved(FlakyWorld(later), FlakyWorkflow())
  {
    hide IsDirect, CollisionFree, UsedNames, Storable, Names, NextAction;
    var w, wf := FlakyWorld(later), FlakyWorkflow();
    forall h | IsDirect(w, wf, h) ensures Storable(w, wf, h) && CollisionFree(UsedNames(wf, h) + Names(wf(h))) {
      FlakyHistories(later, h);
      FlakyNamesFree(h);
      FlakyStorable(later, h);
    }
  }

  lemma FlakyNamesFree(h: seq<Outcome>)
    requires h == [] || h == SEEN[..1] || h == SEEN
    ensures CollisionFree(UsedNames(FlakyWorkflow(), h) + Names(NextAction(h)))
  {
    hide CollisionFree, UsedNames, Names, NextAction, Occurrences, AllocatedKeys, Decimal, ActionKeys;
    FlakyKeys();
    if h == [] {
      assert [] + ["flaky"] == ["flaky"];
      NamesOnce(["flaky"]);
    } else {
      var a := if h == SEEN then ["flaky", "fallback"] else ["flaky"];
      var b: seq<string> := if h == SEEN then [] else ["fallback"];
      assert a + b == ["flaky", "fallback"];
      NamesDiffer();
      NamesOnce(["flaky", "fallback"]);
    }
  }

  lemma FlakyStorable(later: BodyResult, h: seq<Outcome>)
    ensures Storable(FlakyWorld(later), FlakyWorkflow(), h)
  {
    hide ActionKeys;
  }

  lemma FlakyStops(later: BodyResult)
    ensures var w, wf := FlakyWorld(later), FlakyWorkflow();
            && StopCount(w, wf, []) == 0 && StopCount(w, wf, SEEN[..1]) == 0 && StopCount(w, wf, SEEN) == 1
            && ThrowsAt(w, wf, []) && InlineKey(wf, []) == "flaky"
  {
    hide ActionKeys;
    FlakyKeys();
    assert SEEN[..1][..0] == [];
  }

  // ---------- The loop of replays ----------

  lemma FlakySteadyIff(later: BodyResult)
    ensures Steady(FlakyWorld(later), FlakyWorkflow()) <==> later == Throws(ERROR)
  {
    hide IsDirect, ActionKeys, StopCount;
    var w, wf := FlakyWorld(later), FlakyWorkflow();
    FlakyDirect(later);
    FlakyStops(later);
    assert SEEN[..0] == [] && SEEN[..1][..0] == [];
    assert SteadyAt(w, wf, SEEN, 0) <==> later == Throws(ERROR);
    forall g, i: nat | later == Throws(ERROR) && IsDirect(w, wf, g) && i < |g| && ThrowsAt(w, wf, g[..i])
      ensures SteadyAt(w, wf, g, i)
    {
      StopCountPrefix(w, wf, g, i);
    }
  }

  /** The first replay suspends for `fallback`, whatever the body does later. */
  lemma FirstReplay(later: BodyResult, n: nat)
    requires n >= 2
    ensures var s := LoopAfter(FlakyWorld(later), FlakyWorkflow(), n, 1);
            && s.Going? && s.checkpoint == map["fallback" := Null]
            && Runs(s.log, "flaky") == 1 && Runs(s.log, "fallback") == 1
  {
    hide ActionKeys, IsDirect, WellBehaved, RoundAfter, Runs;
    var w, wf := FlakyWorld(later), FlakyWorkflow();
    FlakyWellBehaved(later);
    FlakyKeys();
    FlakyDirect(later);
    FlakyStops(later);
    EmptyLog(w, wf);
    var s := LoopAfter(w, wf, n, 0);
    LoopUntried(w, wf, [], []);
    RoundFollowsDirect(w, wf, [], TriesIn([]), n);
    var g := OneRound(w, wf, n, 0, [], s);
    FirstStop(later, n, g, NextLoop(w, wf, n, s));
  }

  lemma FirstStop(later: BodyResult, n: nat, g: seq<Outcome>, s: Loop)
    requires n >= 2 && LoopSpec(FlakyWorld(later), FlakyWorkflow(), n, 1, g, s)
    requires IsDirect(FlakyWorld(later), FlakyWorkflow(), g)
    ensures s.Going? && s.checkpoint == map["fallback" := Null]
    ensures Runs(s.log, "flaky") == 1 && Runs(s.log, "fallback") == 1
  {
    hide ActionKeys, IsDirect, Runs, UsedNames, StopCount;
    var w, wf := FlakyWorld(later), FlakyWorkflow();
    FlakyHistories(later, g);
    FlakyStops(later);
    FlakyKeys();
    FlakyRecorded(later);
    assert SEEN[..0] == [];
  }

  lemma FlakyRecorded(later: BodyResult)
    ensures Recorded(FlakyWorld(later), FlakyWorkflow(), SEEN) == map["fallback" := Null]
  {
    hide ActionKeys;
    FlakyKeys();
    var w, wf := FlakyWorld(later), FlakyWorkflow();
    assert SEEN[..1][..0] == [];
    var infos := Infos([FALLBACK], ["fallback"]);
    assert wf(SEEN[..1]) == Batch([FALLBACK]) && |infos| == 1 && infos[0].key == "fallback" && infos[..0] == [];
    assert RecordJobs(w, []) == map[] && RecordJobs(w, infos) == map["fallback" := Null];
    assert ActionRecord(w, wf, []) == map[] && Recorded(w, wf, []) == map[] && Recorded(w, wf, SEEN[..1]) == map[];
    assert ActionRecord(w, wf, SEEN[..1]) == map["fallback" := Null];
  }

  /** If the body returns when it is run again, the job returns "A" although `fallback` was dispatched:
      running the steps in place returns "B". */
  lemma FlakyRunDiffers(later: BodyResult, n: nat)
    requires later.Returns? && !later.value.Undefined? && n >= 2
    ensures var w, wf := FlakyWorld(later), FlakyWorkflow();
            && WellBehaved(w, wf) && IsDirect(w, wf, SEEN) && wf(SEEN) == Finish(Returned(Json("B")))
            && var s := LoopAfter(w, wf, n, 2);
               && s.Ended? && s.outcome == Returned(Json("A"))
               && Runs(s.log, "fallback") == 1 && Runs(s.log, "flaky") == 2
  {
    hide IsDirect, WellBehaved, RoundAfter, ActionKeys, Runs;
    var w, wf := FlakyWorld(later), FlakyWorkflow();
    FlakyWellBehaved(later);
    FlakyDirect(later);
    FirstReplay(later, n);
    var s := LoopAfter(w, wf, n, 1);
    SecondReplay(later, n, TriesIn(s.log));
    RunsConcat(s.log, [RanInline("flaky")], "flaky");
    RunsConcat(s.log, [RanInline("flaky")], "fallback");
    NotFallback();
    OneRun("flaky");
  }

  lemma NotFallback()
    ensures Runs([RanInline("flaky")], "fallback") == 0
  {
    assert EventKeys([RanInline("flaky")]) == ["flaky"];
    NamesDiffer();
  }

  lemma SecondReplay(later: BodyResult, n: nat, tries: Tries)
    requires later.Returns? && !later.value.Undefined? && n >= 2 && tries("flaky") == 1
    ensures var r := RoundAfter(FlakyWorld(later), FlakyWorkflow(), map["fallback" := Null], None, tries, n);
            r.status == Finished(Returned(Json("A"))) && r.events == [RanInline("flaky")]
  {
    hide ActionKeys;
    var w, wf, done := FlakyWorld(later), FlakyWorkflow(), map["fallback" := Null];
    FlakyKeys();
    NamesDiffer();
    var r1 := RoundAfter(w, wf, done, None, tries, 1);
    assert r1 == StepRound(w, wf, done, None, tries, Round([], done, [], false, [], Running));
    assert r1.h == [Returned(later.value)] && r1.status.Running? && r1.pending == [] &&
           r1.events == [RanInline("flaky")];
    assert RoundAfter(w, wf, done, None, tries, 2) == StepRound(w, wf, done, None, tries, r1);
    RoundStays(w, wf, done, None, tries, 2, n);
  }

  /** If it throws the same error again, the loop returns "B" as the run in place does, having run the
      body twice: once in each replay. */
  lemma FlakyRunSame(n: nat, k: nat)
    requires n >= 3 && k >= 2
    ensures var s := LoopAfter(FlakyWorld(Throws(ERROR)), FlakyWorkflow(), n, k);
            && s.Ended? && s.outcome == Returned(Json("B"))
            && Runs(s.log, "flaky") == 2 && Runs(s.log, "fallback") == 1
  {
    hide IsDirect, WellBehaved, Steady, LoopAfter, ActionKeys, Runs, StopCount, Recorded;
    var w, wf := FlakyWorld(Throws(ERROR)), FlakyWorkflow();
    FlakyWellBehaved(Throws(ERROR));
    FlakyDirect(Throws(ERROR));
    FlakySteadyIff(Throws(ERROR));
    FlakyStops(Throws(ERROR));
    FlakyRecorded(Throws(ERROR));
    ReplayRefinesDirect(w, wf, SEEN, Returned(Json("B")), n, k);
    assert SEEN[..0] == [] && "fallback" in Recorded(w, wf, SEEN);
  }
}
