/** The evaluation suite's worker pool: workers share one cursor over the cases. */
module WorkerPool {
  import opened Basics

  datatype Attempt = Attempt(attempt: nat, passed: bool)

  datatype CaseResult = CaseResult(id: string, attempts: seq<Attempt>)

  datatype Worker = Ready | Busy(index: nat) | Done

  /** How each run of each case ends: None when the run crashed. */
  type Outcomes = (nat, nat) -> Option<bool>

  function AttemptOf(o: Outcomes, index: nat, k: nat): Attempt {
    Attempt(k, match o(index, k) case Some(passed) => passed case None => false)
  }

  /** The attempts 1..runs of one case. */
  function AttemptsOf(o: Outcomes, index: nat, runs: nat): (attempts: seq<Attempt>)
    ensures |attempts| == runs
    ensures forall k :: 0 <= k < runs ==> attempts[k].attempt == k + 1
  {
    seq(runs, k requires 0 <= k < runs => AttemptOf(o, index, k + 1))
  }

  /** The loop over the runs of one case; a crash is recorded as a failed attempt and does not end it. */
  method RunCaseAttempts(o: Outcomes, index: nat, runs: int) returns (attempts: seq<Attempt>)
    ensures attempts == AttemptsOf(o, index, if runs >= 0 then runs else 0)
    ensures |attempts| == if runs >= 0 then runs else 0
    ensures forall k :: 0 <= k < |attempts| ==> attempts[k].attempt == k + 1
    ensures forall k :: 0 <= k < |attempts| ==> (attempts[k].passed <==> o(index, k + 1) == Some(true))
  {
    attempts := [];
    var attempt := 1;
    while attempt <= runs
      invariant 1 <= attempt && (attempt <= runs + 1 || attempt == 1)
      invariant attempts == AttemptsOf(o, index, attempt - 1)
      decreases runs - attempt
    {
      var outcome := o(index, attempt);
      if outcome.Some? {
        attempts := attempts + [Attempt(attempt, outcome.value)];
      } else {
        attempts := attempts + [Attempt(attempt, false)];
      }
      attempt := attempt + 1;
    }
  }

  datatype Suite = Suite(ids: seq<string>, runs: nat, outcomes: Outcomes)

  function ResultOf(suite: Suite, index: nat): CaseResult
    requires index < |suite.ids|
  {
    CaseResult(suite.ids[index], AttemptsOf(suite.outcomes, index, suite.runs))
  }

  /** `claims` records the case indices in the order they were taken. */
  datatype System = System(cursor: nat, results: seq<Option<CaseResult>>, workers: seq<Worker>, claims: seq<nat>)

  function Workers(suite: Suite, concurrency: int): nat {
    var c := if concurrency > 1 then concurrency else 1;
    if c <= |suite.ids| then c else |suite.ids|
  }

  function Start(suite: Suite, concurrency: int): System {
    System(0, seq(|suite.ids|, _ => None), seq(Workers(suite, concurrency), _ => Ready), [])
  }

  /** A worker takes the next case, or stops when there is none; or it finishes its case. */
  datatype Event = Next(w: nat) | Finish(w: nat)

  predicate Enabled(suite: Suite, s: System, e: Event) {
    && e.w < |s.workers|
    && (e.Next? ==> s.workers[e.w].Ready?)
    && (e.Finish? ==> s.workers[e.w].Busy? && s.workers[e.w].index < |s.results| == |suite.ids|)
  }

  function Apply(suite: Suite, s: System, e: Event): System
    requires Enabled(suite, s, e)
  {
    match e
    case Next(w) =>
      if s.cursor >= |suite.ids| then s.(cursor := s.cursor + 1, workers := s.workers[w := Done])
      else s.(cursor := s.cursor + 1, workers := s.workers[w := Busy(s.cursor)], claims := s.claims + [s.cursor])
    case Finish(w) =>
      var i := s.workers[w].index;
      s.(results := s.results[i := Some(ResultOf(suite, i))], workers := s.workers[w := Ready])
  }

  /** The suite's shared variables; a worker's loop is `Claim`, then `Store`, until `Claim` says stop. */
  class SharedState {
    const suite: Suite
    var cursor: nat
    const results: array<Option<CaseResult>>
    ghost var workers: seq<Worker>
    ghost var claims: seq<nat>

    ghost function View(): System
      reads this, results
    {
      System(cursor, results[..], workers, claims)
    }

    constructor (suite: Suite, concurrency: int)
      ensures View() == Start(suite, concurrency) && this.suite == suite && fresh(results)
    {
      this.suite := suite;
      cursor := 0;
      results := new Option<CaseResult>[|suite.ids|](_ => None);
      workers, claims := seq(Workers(suite, concurrency), _ => Ready), [];
      new;
      assert results[..] == seq(|suite.ids|, _ => None);
    }

    /** `cursor++` and the comparison with the number of cases, up to the first await. */
    method Claim(ghost w: nat) returns (index: Option<nat>)
      requires Enabled(suite, View(), Next(w))
      modifies this
      ensures View() == Apply(suite, old(View()), Next(w))
      ensures index == if old(cursor) < |suite.ids| then Some(old(cursor)) else None
    {
      var caseIndex := cursor;
      cursor := cursor + 1;
      if caseIndex >= |suite.ids| {
        workers := workers[w := Done];
        return None;
      }
      workers, claims := workers[w := Busy(caseIndex)], claims + [caseIndex];
      index := Some(caseIndex);
    }

    /** The case is run and its result stored at its index. */
    method Store(ghost w: nat, index: nat)
      requires Enabled(suite, View(), Finish(w)) && workers[w] == Busy(index)
      modifies this, results
      ensures View() == Apply(suite, old(View()), Finish(w))
    {
      var attempts := RunCaseAttempts(suite.outcomes, index, suite.runs);
      results[index] := Some(CaseResult(suite.ids[index], attempts));
      workers := workers[w := Ready];
    }
  }

  ghost predicate CanRun(suite: Suite, s: System, es: seq<Event>)
    decreases |es|
  {
    es == [] || (Enabled(suite, s, es[0]) && CanRun(suite, Apply(suite, s, es[0]), es[1..]))
  }

  ghost function Run(suite: Suite, s: System, es: seq<Event>): System
    requires CanRun(suite, s, es)
    decreases |es|
  {
    if es == [] then s else Run(suite, Apply(suite, s, es[0]), es[1..])
  }

  predicate HasWorker(s: System, i: nat) {
    exists w :: 0 <= w < |s.workers| && s.workers[w] == Busy(i)
  }

  ghost predicate Shape(suite: Suite, s: System) {
    && |s.results| == |suite.ids|
    && |s.claims| == (if s.cursor <= |suite.ids| then s.cursor else |suite.ids|)
    && (forall k :: 0 <= k < |s.claims| ==> s.claims[k] == k)
    && (forall w :: 0 <= w < |s.workers| && s.workers[w].Busy? ==> s.workers[w].index < |s.claims|)
    && ((exists w :: 0 <= w < |s.workers| && s.workers[w].Done?) ==> s.cursor > |suite.ids|)
  }

  /** A case taken is either with exactly one worker or has its own result; a case not taken has none. */
  ghost predicate Accounted(suite: Suite, s: System) {
    && (forall v, w :: 0 <= v < w < |s.workers| && s.workers[v].Busy? && s.workers[w].Busy? ==>
        s.workers[v].index != s.workers[w].index)
    && (forall i :: 0 <= i < |s.results| && s.results[i].Some? ==>
          i < |s.claims| && i < |suite.ids| && s.results[i].value == ResultOf(suite, i) && !HasWorker(s, i))
    && (forall i :: 0 <= i < |s.claims| ==> i < |s.results| && (s.results[i].Some? || HasWorker(s, i)))
  }

  lemma ShapeKept(suite: Suite, s: System, e: Event)
    requires Shape(suite, s) && Enabled(suite, s, e)
    ensures Shape(suite, Apply(suite, s, e))
  {
  }

  lemma AccountedKept(suite: Suite, s: System, e: Event)
    requires Shape(suite, s) && Accounted(suite, s) && Enabled(suite, s, e)
    ensures Accounted(suite, Apply(suite, s, e))
  {
    hide ResultOf;
    var s' := Apply(suite, s, e);
    forall i | 0 <= i < |s'.claims|
      ensures i < |s'.results| && (s'.results[i].Some? || HasWorker(s', i))
    {
      if i == |s.claims| {
        assert s'.workers[e.w] == Busy(i);
      } else if HasWorker(s, i) {
        var v :| 0 <= v < |s.workers| && s.workers[v] == Busy(i);
        if v != e.w { assert s'.workers[v] == Busy(i); }
      }
    }
    forall i | 0 <= i < |s'.results| && s'.results[i].Some?
      ensures i < |s'.claims| && i < |suite.ids| && s'.results[i].value == ResultOf(suite, i) && !HasWorker(s', i)
    {
      NoWorkerAfter(suite, s, e, i);
    }
  }

  lemma NoWorkerAfter(suite: Suite, s: System, e: Event, i: nat)
    requires Shape(suite, s) && Accounted(suite, s) && Enabled(suite, s, e)
    requires i < |s.results| && Apply(suite, s, e).results[i].Some?
    ensures !HasWorker(Apply(suite, s, e), i)
  {
    hide ResultOf;
    var s' := Apply(suite, s, e);
    assert forall v :: 0 <= v < |s.workers| && v != e.w ==> s'.workers[v] == s.workers[v];
    assert forall v :: 0 <= v < |s.workers| && s.workers[v] == Busy(i) ==> HasWorker(s, i);
  }

  lemma {:induction false} AlongRun(suite: Suite, s: System, es: seq<Event>)
    requires CanRun(suite, s, es) && Shape(suite, s) && Accounted(suite, s)
    ensures Shape(suite, Run(suite, s, es)) && Accounted(suite, Run(suite, s, es))
    ensures |Run(suite, s, es).workers| == |s.workers|
    decreases |es|
  {
    if es != [] {
      ShapeKept(suite, s, es[0]);
      AccountedKept(suite, s, es[0]);
      hide Apply, Enabled, Shape, Accounted;
      WorkerCount(suite, s, es[0]);
      AlongRun(suite, Apply(suite, s, es[0]), es[1..]);
    }
  }

  lemma WorkerCount(suite: Suite, s: System, e: Event)
    requires Enabled(suite, s, e)
    ensures |Apply(suite, s, e).workers| == |s.workers|
  {
  }

  function InFlight(workers: seq<Worker>): (n: nat)
    ensures n <= |workers|
  {
    if workers == [] then 0 else (if workers[0].Busy? then 1 else 0) + InFlight(workers[1..])
  }

  /** For every interleaving of the workers: cases are taken in order, each exactly once, by as many
      workers as the concurrency and the number of cases allow, and a stored result is the result of
      the case at its index. */
  lemma EachCaseOnce(suite: Suite, concurrency: int, es: seq<Event>)
    requires CanRun(suite, Start(suite, concurrency), es)
    ensures var s := Run(suite, Start(suite, concurrency), es);
            && (forall k :: 0 <= k < |s.claims| ==> s.claims[k] == k) && |s.claims| <= |suite.ids|
            && InFlight(s.workers) <= (if concurrency > 1 then concurrency else 1)
            && |s.workers| == (if |suite.ids| <= 1 || |suite.ids| <= concurrency then |suite.ids|
                               else if concurrency <= 1 then 1 else concurrency)
            && Accounted(suite, s)
  {
    hide Run, CanRun;
    AlongRun(suite, Start(suite, concurrency), es);
  }

  /** When all workers have stopped, every case has its own result: its id and, for each of its runs in
      order, an attempt that passed exactly if that run did not crash and passed. */
  lemma CompleteInOrder(suite: Suite, concurrency: int, es: seq<Event>)
    requires CanRun(suite, Start(suite, concurrency), es)
    requires forall w :: 0 <= w < |Run(suite, Start(suite, concurrency), es).workers| ==>
               Run(suite, Start(suite, concurrency), es).workers[w].Done?
    ensures var s := Run(suite, Start(suite, concurrency), es);
            && |s.results| == |suite.ids|
            && forall i :: 0 <= i < |suite.ids| ==> s.results[i].Some? && Belongs(suite, i, s.results[i].value)
  {
    hide Run, CanRun, ResultOf, Belongs;
    var s := Run(suite, Start(suite, concurrency), es);
    AlongRun(suite, Start(suite, concurrency), es);
    if |suite.ids| > 0 {
      assert s.workers[0].Done?;
      forall i | 0 <= i < |suite.ids| ensures s.results[i].Some? && Belongs(suite, i, s.results[i].value) {
        assert !HasWorker(s, i);
        ResultBelongs(suite, i);
      }
    }
  }

  ghost predicate Belongs(suite: Suite, i: nat, r: CaseResult)
    requires i < |suite.ids|
  {
    && r.id == suite.ids[i] && |r.attempts| == suite.runs
    && forall k :: 0 <= k < suite.runs ==>
         r.attempts[k].attempt == k + 1 && (r.attempts[k].passed <==> suite.outcomes(i, k + 1) == Some(true))
  }

  lemma ResultBelongs(suite: Suite, i: nat)
    requires i < |suite.ids|
    ensures Belongs(suite, i, ResultOf(suite, i))
  {
  }
}
