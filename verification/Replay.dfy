/** One replay of a workflow against a checkpoint, and the loop of replays around it. */
module Replay {
  import opened Basics
  import opened Keys
  import opened Steps

  /** Things that happen to a step: it is handed to the backend, or a body of it runs here. */
  datatype Event =
    | Sent(key: string, info: StepInfo)
    | RanInline(key: string)
    | RanBody(key: string, info: StepInfo)
    | Asked(key: string)
    | Slept(key: string)

  datatype Status = Running | Dispatches(d: Dispatch) | Finished(outcome: Outcome) | Stuck

  /** A replay in progress: outcomes handed to the workflow, the checkpoint held by the server,
      the context's `pending` and `_suspended`, what happened, and whether it goes on. */
  datatype Round = Round(
    h: seq<Outcome>,
    server: Checkpoint,
    pending: seq<StepInfo>,
    suspended: bool,
    events: seq<Event>,
    status: Status)

  function SentAll(infos: seq<StepInfo>): seq<Event> {
    seq(|infos|, i requires 0 <= i < |infos| => Sent(infos[i].key, infos[i]))
  }

  function RanAll(infos: seq<StepInfo>): seq<Event> {
    seq(|infos|, i requires 0 <= i < |infos| => RanBody(infos[i].key, infos[i]))
  }

  function Advance(r: Round, o: Outcome): Round {
    r.(h := r.h + [o])
  }

  function BatchRound(w: World, done: Checkpoint, exec: Option<string>, calls: seq<Call>, keys: seq<string>,
                      r: Round): Round
    requires |calls| == |keys|
  {
    var ts := Thenables(done, exec, calls, keys);
    var pending := r.pending + Pushed(ts);
    var r' := r.(pending := pending, events := r.events + RanAll(Started(ts)));
    match ResolveBatch(w, ts, r.suspended)
    case Yields(o) =>
      // a later member's `then` may still have thrown: its StepSuspend is dropped with all it carried
      if Pushed(ts) != [] && !r.suspended then Advance(r'.(pending := [], suspended := true), o)
      else Advance(r', o)
    case SuspendsNow =>
      r'.(pending := [], suspended := true, events := r'.events + SentAll(pending),
          status := Dispatches(Tasks(Mode(pending), pending)))
    case Completes(v) => r'.(status := Dispatches(StepComplete(v)))
    case Hangs => r'.(status := Stuck)
  }

  function InlineRound(w: World, done: Checkpoint, exec: Option<string>, tries: Tries, name: string, key: string,
                       r: Round): Round
  {
    if key in done then Advance(r, ReadEntry(done[key], InlineLabel(name)))
    else if exec.Some? then r.(status := Stuck)
    else
      var r' := r.(events := r.events + [RanInline(key)]);
      match w.inline(key, tries(key))
      case Throws(e) => Advance(r', Threw(e))
      case Returns(v) =>
        // a body without a `result` member is refused by the endpoint
        if w.posts(key) && !v.Undefined? then Advance(r'.(server := r.server[key := v]), Returned(v))
        else r'.(status := Dispatches(SaveInline(key, Stored(v))))
  }

  function SleepRound(done: Checkpoint, exec: Option<string>, seconds: real, key: string, r: Round): Round {
    if key in done then Advance(r, Returned(Undefined))
    else if exec.Some? then r.(status := Stuck)
    else r.(events := r.events + [Slept(key)], status := Dispatches(Sleeps(key, SleepSeconds(seconds))))
  }

  function ApprovalRound(done: Checkpoint, exec: Option<string>, timeout: Option<int>, form: string,
                         selfApproval: Option<bool>, key: string, r: Round): Round
  {
    if key in done then Advance(r, Returned(done[key]))
    else if exec.Some? then r.(status := Stuck)
    else
      r.(events := r.events + [Asked(key)],
         status := Dispatches(AwaitApproval(key, OrElse(timeout, 1800), form, !OrElse(selfApproval, true))))
  }

  /** The workflow function returned or threw; unawaited steps are flushed after a return. */
  function FinishRound(r: Round, o: Outcome): Round {
    if o.Returned? && r.pending != [] then
      r.(pending := [], events := r.events + SentAll(r.pending),
         status := Dispatches(Tasks(Mode(r.pending), r.pending)))
    else r.(status := Finished(o))
  }

  function StepRound(w: World, wf: Workflow, done: Checkpoint, exec: Option<string>, tries: Tries, r: Round): Round {
    var keys := ActionKeys(wf, r.h);
    match wf(r.h)
    case Batch(calls) => BatchRound(w, done, exec, calls, keys, r)
    case Inline(name) => InlineRound(w, done, exec, tries, name, keys[0], r)
    case Sleep(seconds) => SleepRound(done, exec, seconds, keys[0], r)
    case Approval(t, f, s) => ApprovalRound(done, exec, t, f, s, keys[0], r)
    case Finish(o) => FinishRound(r, o)
  }

  /** The replay against checkpoint `done` after at most `n` actions. */
  function RoundAfter(w: World, wf: Workflow, done: Checkpoint, exec: Option<string>, tries: Tries, n: nat): Round {
    if n == 0 then Round([], done, [], false, [], Running)
    else
      var r := RoundAfter(w, wf, done, exec, tries, n - 1);
      if r.status.Running? then StepRound(w, wf, done, exec, tries, r) else r
  }

  // ---------- The loop ----------

  /** Entries for all jobs of one dispatch. */
  function RecordJobs(w: World, steps: seq<StepInfo>): Checkpoint {
    if steps == [] then map[]
    else
      var last := steps[|steps| - 1];
      RecordJobs(w, steps[..|steps| - 1])[last.key := RecordJob(last, w.job(last))]
  }

  const SLEPT := Json("true")

  /** The checkpoint once everything a suspended replay asked for has been done. */
  function Resume(w: World, d: Dispatch, server: Checkpoint): Checkpoint {
    match d
    case Tasks(_, steps) => server + RecordJobs(w, steps)
    case AwaitApproval(key, _, _, _) => server[key := w.approve(key)]
    case Sleeps(key, _) => server[key := SLEPT]
    case SaveInline(key, v) => server[key := v]
    case StepComplete(_) => server
  }

  ghost predicate DistinctSteps(steps: seq<StepInfo>) {
    forall i, j :: 0 <= i < j < |steps| ==> steps[i].key != steps[j].key
  }

  datatype Loop =
    | Going(checkpoint: Checkpoint, log: seq<Event>)
    | Ended(outcome: Outcome, checkpoint: Checkpoint, log: seq<Event>)
    | Broken        // a replay got stuck, had duplicate keys refused, or needs more than `n` actions

  function EventKeys(es: seq<Event>): seq<string> {
    seq(|es|, i requires 0 <= i < |es| => es[i].key)
  }

  /** How often the step with this key was dispatched or run. */
  function Runs(es: seq<Event>, key: string): nat {
    multiset(EventKeys(es))[key]
  }

  function TriesIn(log: seq<Event>): Tries {
    key => Runs(log, key)
  }

  ghost function NextLoop(w: World, wf: Workflow, n: nat, s: Loop): Loop {
    if !s.Going? then s
    else
      var r := RoundAfter(w, wf, s.checkpoint, None, TriesIn(s.log), n);
      var log := s.log + r.events;
      match r.status
      case Finished(o) => Ended(o, r.server, log)
      case Dispatches(d) =>
        if d.Tasks? && !DistinctSteps(d.steps) then Broken else Going(Resume(w, d, r.server), log)
      case _ => Broken
  }

  /** The job after `k` replays of at most `n` actions each, from an empty checkpoint. */
  ghost function LoopAfter(w: World, wf: Workflow, n: nat, k: nat): Loop {
    if k == 0 then Going(map[], []) else NextLoop(w, wf, n, LoopAfter(w, wf, n, k - 1))
  }

  // ---------- Running the workflow directly ----------

  /** Every job of a batch run in place. */
  function InPlaceAll(w: World, infos: seq<StepInfo>): Settled {
    if infos == [] then AllValues([])
    else
      match JobOutcome(infos[0], w.job(infos[0]))
      case Threw(e) => Fails(e)
      case Returned(v) =>
        var rest := InPlaceAll(w, infos[1..]);
        if rest.AllValues? then AllValues([v] + rest.values) else rest
  }

  function BatchInPlace(w: World, infos: seq<StepInfo>): Outcome {
    match InPlaceAll(w, infos)
    case AllValues(vs) => Returned(List(vs))
    case Fails(e) => Threw(e)
    case _ => Returned(Undefined)
  }

  /** The outcome of the action after `h` when its steps are simply run, each for the first time. */
  function DirectOutcome(w: World, wf: Workflow, h: seq<Outcome>): Outcome
    requires !wf(h).Finish?
  {
    var keys := ActionKeys(wf, h);
    match wf(h)
    case Batch(calls) => BatchInPlace(w, Infos(calls, keys))
    case Inline(_) => InlineOutcome(w.inline(keys[0], 0))
    case Sleep(_) => Returned(Undefined)
    case Approval(_, _, _) => Returned(w.approve(keys[0]))
  }

  /** `h` is what the workflow has seen after |h| actions when every step is run in place. */
  ghost predicate IsDirect(w: World, wf: Workflow, h: seq<Outcome>)
    decreases |h|
  {
    h == [] ||
    (var init := h[..|h| - 1];
     IsDirect(w, wf, init) && !wf(init).Finish? && h[|h| - 1] == DirectOutcome(w, wf, init))
  }

  /** The entries that the action after `h` leaves in the checkpoint. */
  function ActionRecord(w: World, wf: Workflow, h: seq<Outcome>): Checkpoint {
    var keys := ActionKeys(wf, h);
    match wf(h)
    case Batch(calls) => RecordJobs(w, Infos(calls, keys))
    case Inline(_) =>
      if w.inline(keys[0], 0).Returns? then map[keys[0] := Stored(w.inline(keys[0], 0).value)] else map[]
    case Sleep(_) => map[keys[0] := SLEPT]
    case Approval(_, _, _) => map[keys[0] := w.approve(keys[0])]
    case Finish(_) => map[]
  }

  /** The checkpoint that holds exactly the steps of the actions seen in `h`. */
  function Recorded(w: World, wf: Workflow, h: seq<Outcome>): Checkpoint {
    if h == [] then map[]
    else Recorded(w, wf, h[..|h| - 1]) + ActionRecord(w, wf, h[..|h| - 1])
  }

  /** The outcome of the action after `h` survives being stored and read back. */
  ghost predicate Storable(w: World, wf: Workflow, h: seq<Outcome>) {
    var keys := ActionKeys(wf, h);
    match wf(h)
    case Batch(calls) =>
      forall i :: 0 <= i < |calls| ==>
        var r := w.job(InfoOf(calls[i], keys[i]));
        !(r.Succeeded? && r.value.Tagged?)
    case Inline(_) =>
      w.inline(keys[0], 0).Returns? ==> !w.inline(keys[0], 0).value.Undefined? && !w.inline(keys[0], 0).value.Tagged?
    case _ => true
  }

  /** Along the direct run, keys never collide and results survive storage. */
  ghost predicate WellBehaved(w: World, wf: Workflow) {
    forall h :: IsDirect(w, wf, h) ==> Storable(w, wf, h) && CollisionFree(UsedNames(wf, h) + Names(wf(h)))
  }
}
