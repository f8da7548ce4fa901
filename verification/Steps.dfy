/** What a workflow asks for, what its steps produce, and how a checkpoint stores and replays that. */
module Steps {
  import opened Basics
  import opened Keys

  /** A JavaScript value as far as replay can tell values apart. `Tagged` is an object whose
      `__wmill_error` member is truthy. */
  datatype Value =
    | Undefined
    | Null
    | Json(text: string)
    | Tagged(message: string, result: string, stepKey: string, childJobId: string)
    | List(items: seq<Value>)

  datatype StepError = StepError(message: string, result: string, stepKey: string, childJobId: string)

  datatype Outcome = Returned(value: Value) | Threw(error: StepError)

  type Checkpoint = map<string, Value>

  /** `task()` calls run as a child replay, `taskScript` and `taskFlow` calls as separate jobs. */
  datatype DispatchType = InlineTask | ScriptTask | FlowTask

  datatype Call = Call(name: string, script: string, args: string, dispatchType: DispatchType)

  datatype StepInfo = StepInfo(name: string, script: string, args: string, key: string, dispatchType: DispatchType)

  datatype Action =
    | Batch(calls: seq<Call>)                       // await Promise.all(calls), or one awaited call
    | Inline(name: string)                          // await step(name, fn)
    | Sleep(seconds: real)                          // await sleep(seconds)
    | Approval(timeout: Option<int>, form: string, selfApproval: Option<bool>)
    | Finish(outcome: Outcome)                      // the workflow function returns or throws

  /** A deterministic workflow: the outcomes of the actions so far decide the next action. */
  type Workflow = seq<Outcome> -> Action

  /** What a `StepSuspend` carries. */
  datatype Dispatch =
    | Tasks(mode: string, steps: seq<StepInfo>)
    | AwaitApproval(key: string, timeout: int, form: string, selfApprovalDisabled: bool)
    | Sleeps(key: string, seconds: int)
    | SaveInline(key: string, result: Value)
    | StepComplete(result: Value)

  datatype BodyResult = Returns(value: Value) | Throws(error: StepError)

  datatype JobResult = Succeeded(value: Value) | Failed(error: string, childJobId: string)

  /** Everything outside the workflow: what a dispatched step's job ends with, what task
      functions do, what an inline body does each time it is run (0 is the first time), what approvers
      answer, whether the checkpoint request of an inline step succeeds, and whether a task function
      settles before its batch siblings do. */
  datatype World = World(
    job: StepInfo -> JobResult,
    fn: StepInfo -> BodyResult,
    settlesFirst: StepInfo -> bool,
    inline: (string, nat) -> BodyResult,
    approve: string -> Value,
    posts: string -> bool)

  /** How often each inline body was run in earlier replays. */
  type Tries = string -> nat

  // ---------- Names and keys ----------

  function NonEmpty(s: string, default: string): string {
    if s != "" then s else default
  }

  function BaseName(c: Call): string {
    NonEmpty(c.name, NonEmpty(c.script, "step"))
  }

  /** The names for which an action allocates keys, in order. */
  function Names(a: Action): seq<string> {
    match a
    case Batch(calls) => seq(|calls|, i requires 0 <= i < |calls| => BaseName(calls[i]))
    case Inline(name) => [NonEmpty(name, "step")]
    case Sleep(_) => ["sleep"]
    case Approval(_, _, _) => ["approval"]
    case Finish(_) => []
  }

  function UsedNames(wf: Workflow, h: seq<Outcome>): seq<string> {
    if h == [] then []
    else
      var init := h[..|h| - 1];
      UsedNames(wf, init) + Names(wf(init))
  }

  /** The keys of the action taken after history `h`. */
  function ActionKeys(wf: Workflow, h: seq<Outcome>): (keys: seq<string>)
    ensures |keys| == |Names(wf(h))|
  {
    var used := UsedNames(wf, h);
    AllocatedKeys(used + Names(wf(h)))[|used|..]
  }

  function InfoOf(c: Call, key: string): StepInfo {
    StepInfo(NonEmpty(c.name, key), NonEmpty(c.script, key), c.args, key, c.dispatchType)
  }

  /** The step passes on the call's arguments and kind under its key; a missing name or script becomes the key. */
  predicate Carries(info: StepInfo, c: Call, key: string) {
    && info.args == c.args && info.key == key && info.dispatchType == c.dispatchType
    && info.name == (if c.name != "" then c.name else key)
    && info.script == (if c.script != "" then c.script else key)
  }

  function Infos(calls: seq<Call>, keys: seq<string>): (infos: seq<StepInfo>)
    requires |calls| == |keys|
  {
    seq(|calls|, i requires 0 <= i < |calls| => InfoOf(calls[i], keys[i]))
  }

  // ---------- Storing and reading back results ----------

  /** JSON has no `undefined`; the wrapper writes `result ?? null`. */
  function Stored(v: Value): Value {
    if v.Undefined? then Null else v
  }

  function FailureMessage(key: string, childJobId: string): string {
    "WAC task '" + key + "' failed (child job " + childJobId + ")"
  }

  /** The checkpoint entry the worker writes when the job of a step ends. */
  function RecordJob(info: StepInfo, r: JobResult): Value {
    match r
    case Succeeded(v) => Stored(v)
    case Failed(e, id) => Tagged(FailureMessage(info.key, id), e, info.key, id)
  }

  /** What a checkpoint entry means to the call that finds it; `fallback` is the default message. */
  function ReadEntry(v: Value, fallback: string): Outcome {
    if v.Tagged? then Threw(StepError(NonEmpty(v.message, fallback), v.result, v.stepKey, v.childJobId))
    else Returned(v)
  }

  function TaskLabel(c: Call): string { "Task '" + c.name + "' failed" }

  function InlineLabel(name: string): string { "Step '" + name + "' failed" }

  /** What a dispatched step means when it is simply run in place. */
  function JobOutcome(info: StepInfo, r: JobResult): Outcome {
    match r
    case Succeeded(v) => Returned(Stored(v))
    case Failed(e, id) => Threw(StepError(FailureMessage(info.key, id), e, info.key, id))
  }

  function InlineOutcome(r: BodyResult): Outcome {
    match r
    case Returns(v) => Returned(v)
    case Throws(e) => Threw(e)
  }

  /** The exception by which the workflow learns that the job of a step failed. */
  function FailureOf(key: string, error: string, childJobId: string): StepError {
    StepError("WAC task '" + key + "' failed (child job " + childJobId + ")", error, key, childJobId)
  }

  /** Storing and reading back a job's result gives its outcome exactly when the job did not
      itself succeed with an error-tagged object. */
  lemma JobReadBackIff(c: Call, key: string, r: JobResult)
    ensures ReadEntry(RecordJob(InfoOf(c, key), r), TaskLabel(c)) == JobOutcome(InfoOf(c, key), r)
            <==> !(r.Succeeded? && r.value.Tagged?)
    ensures r.Failed? ==>
              ReadEntry(RecordJob(InfoOf(c, key), r), TaskLabel(c)) == Threw(FailureOf(key, r.error, r.childJobId))
    ensures r.Succeeded? && !r.value.Tagged? ==>
              ReadEntry(RecordJob(InfoOf(c, key), r), TaskLabel(c))
              == Returned(if r.value.Undefined? then Null else r.value)
  {
    if r.Failed? {
      assert FailureMessage(key, r.childJobId)[0] == 'W';
    }
  }

  /** Storing and reading back an inline result gives the value the body returned exactly when that
      value is neither `undefined` nor error-tagged. */
  lemma InlineReadBackIff(name: string, v: Value)
    ensures ReadEntry(Stored(v), InlineLabel(name)) == InlineOutcome(Returns(v))
            <==> !v.Undefined? && !v.Tagged?
    ensures !v.Tagged? ==> ReadEntry(Stored(v), InlineLabel(name)) == Returned(if v.Undefined? then Null else v)
  {
  }

  // ---------- Thenables ----------

  /** What `_nextStep` hands back, together with what the `task` wrapper makes of it. */
  datatype Thenable =
    | Resolves(value: Value)
    | Rejects(error: StepError)
    | Executes(info: StepInfo)      // child job: the task function runs now
    | Never                         // child job: never settles
    | Suspends(info: StepInfo)      // `then` throws StepSuspend with everything pending

  function ThenableOf(done: Checkpoint, exec: Option<string>, c: Call, key: string): Thenable {
    if key in done then
      match ReadEntry(done[key], TaskLabel(c))
      case Returned(v) => Resolves(v)
      case Threw(e) => Rejects(e)
    else if exec == Some(key) then
      if c.dispatchType == InlineTask then Executes(InfoOf(c, key)) else Resolves(Null)
    else if exec.Some? then Never
    else Suspends(InfoOf(c, key))
  }

  function Thenables(done: Checkpoint, exec: Option<string>, calls: seq<Call>, keys: seq<string>): (ts: seq<Thenable>)
    requires |calls| == |keys|
  {
    seq(|calls|, i requires 0 <= i < |calls| => ThenableOf(done, exec, calls[i], keys[i]))
  }

  /** The steps a batch adds to `pending`. */
  function Pushed(ts: seq<Thenable>): seq<StepInfo> {
    if ts == [] then []
    else (if ts[0].Suspends? then [ts[0].info] else []) + Pushed(ts[1..])
  }

  /** The task functions a batch starts. */
  function Started(ts: seq<Thenable>): seq<StepInfo> {
    if ts == [] then []
    else (if ts[0].Executes? then [ts[0].info] else []) + Started(ts[1..])
  }

  datatype Settled = AllValues(values: seq<Value>) | Fails(error: StepError) | SuspendsFirst | Pends

  /** How `Promise.all` over a batch settles, task functions aside: `then` is called in order, so the
      first member that rejects or throws decides; once the context is suspended, `then` of an
      unfinished member never settles. */
  function Settle(ts: seq<Thenable>, suspended: bool): Settled {
    if ts == [] then AllValues([])
    else
      var rest := Settle(ts[1..], suspended);
      match ts[0]
      case Resolves(v) => if rest.AllValues? then AllValues([v] + rest.values) else rest
      case Rejects(e) => Fails(e)
      case Suspends(_) => if !suspended then SuspendsFirst else if rest.AllValues? then Pends else rest
      case _ => if rest.AllValues? then Pends else rest
  }

  datatype Resolution = Yields(outcome: Outcome) | SuspendsNow | Completes(result: Value) | Hangs

  function ResolveBatch(w: World, ts: seq<Thenable>, suspended: bool): Resolution {
    var s := Settle(ts, suspended);
    var started := Started(ts);
    if started != [] && (w.settlesFirst(started[0]) || !s.Fails?) then
      match w.fn(started[0])
      case Returns(v) => Completes(v)
      case Throws(e) => Yields(Threw(e))
    else
      match s
      case AllValues(vs) => Yields(Returned(List(vs)))
      case Fails(e) => Yields(Threw(e))
      case SuspendsFirst => SuspendsNow
      case Pends => Hangs
  }

  function Mode(steps: seq<StepInfo>): string {
    if |steps| > 1 then "parallel" else "sequential"
  }

  /** `Math.max(1, Math.round(seconds))`. */
  function SleepSeconds(seconds: real): (n: int)
    ensures seconds < 1.5 ==> n == 1
    ensures seconds >= 0.5 ==> n as real - 0.5 <= seconds < n as real + 0.5
  {
    var rounded := (seconds + 0.5).Floor;
    if rounded > 1 then rounded else 1
  }

  function OrElse<T>(o: Option<T>, default: T): T {
    if o.Some? then o.value else default
  }
}
