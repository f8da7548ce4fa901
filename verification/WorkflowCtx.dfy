/** The SDK's context object, and the replay of a workflow driven through it. */
module Context {
  import opened Basics
  import opened Keys
  import opened Steps
  import opened Replay

  /** `at` are increasing positions; the steps carry the keys allocated there. */
  ghost predicate KeysAt(steps: seq<StepInfo>, at: seq<nat>, keys: seq<string>) {
    && |steps| == |at|
    && (forall i, j :: 0 <= i < j < |at| ==> at[i] < at[j])
    && (forall i :: 0 <= i < |at| ==> at[i] < |keys| && steps[i].key == keys[at[i]])
  }

  /** Steps queued by a run without key collisions have pairwise different keys. */
  lemma QueuedOnce(steps: seq<StepInfo>, at: seq<nat>, names: seq<string>)
    requires KeysAt(steps, at, AllocatedKeys(names)) && CollisionFree(names)
    ensures DistinctSteps(steps)
  {
    hide CollisionFree, AllocatedKeys;
    CollisionFreeKeysDistinct(names);
  }

  /** How a blocking call ends: with an outcome, by throwing StepSuspend, or not at all. */
  datatype Awaited = Settles(outcome: Outcome) | ThrowsSuspend(d: Dispatch) | NeverSettles

  class WorkflowCtx {
    const completed: Checkpoint
    const executingKey: Option<string>
    var counters: map<string, nat>
    var pending: seq<StepInfo>
    var suspended: bool

    ghost var used: seq<string>          // names allocated so far
    ghost var pushed: seq<StepInfo>      // every step ever queued
    ghost var pushedAt: seq<nat>         // and at which allocation
    ghost var handedOut: seq<StepInfo>   // every step given to a suspension or a flush
    ghost var suspensions: nat           // task suspensions thrown

    /** Counters agree with the calls made; what was queued is, in order, what was handed out and then
        what is pending; at most one task suspension was thrown. */
    ghost predicate Valid()
      reads this
    {
      && (forall name :: Occurrences(used, name) == if name in counters then counters[name] else 0)
      && pushed == handedOut + pending
      && KeysAt(pushed, pushedAt, AllocatedKeys(used))
      && suspensions == (if suspended then 1 else 0)
    }

    constructor (completed: Checkpoint, executingKey: Option<string>)
      ensures Valid() && used == [] && pending == [] && !suspended && handedOut == []
      ensures this.completed == completed && this.executingKey == executingKey
    {
      this.completed, this.executingKey := completed, executingKey;
      counters, pending, suspended := map[], [], false;
      used, pushed, pushedAt, handedOut, suspensions := [], [], [], [], 0;
    }

    method AllocKey(name: string) returns (key: string)
      requires Valid()
      modifies this`counters, this`used
      ensures Valid() && used == old(used) + [name]
      ensures AllocatedKeys(used) == AllocatedKeys(old(used)) + [key]
    {
      hide KeysAt;
      var n := (if name in counters then counters[name] else 0) + 1;
      counters := counters[name := n];
      used := used + [name];
      assert used[..|used| - 1] == old(used);
      key := Key(name, n);
      KeysAtGrow(pushed, pushedAt, AllocatedKeys(old(used)), [key]);
    }

    static lemma KeysAtGrow(steps: seq<StepInfo>, at: seq<nat>, keys: seq<string>, more: seq<string>)
      requires KeysAt(steps, at, keys)
      ensures KeysAt(steps, at, keys + more)
    {
    }

    static lemma KeysAtQueue(steps: seq<StepInfo>, at: seq<nat>, keys: seq<string>, info: StepInfo)
      requires KeysAt(steps, at, keys)
      ensures KeysAt(steps + [info], at + [|keys|], keys + [info.key])
    {
    }

    /** One task call. It is queued exactly when the parent finds it neither completed nor its own. */
    method NextStep(c: Call) returns (t: Thenable, ghost key: string)
      requires Valid()
      modifies this
      ensures Valid() && AllocatedKeys(used) == AllocatedKeys(old(used)) + [key]
      ensures used == old(used) + [if c.name != "" then c.name else if c.script != "" then c.script else "step"]
      ensures t == ThenableOf(completed, executingKey, c, key)
      ensures key in completed && !completed[key].Tagged? ==> t == Resolves(completed[key])
      ensures key in completed && completed[key].Tagged? ==>
                && t.Rejects? && t.error.result == completed[key].result && t.error.stepKey == completed[key].stepKey
                && t.error.childJobId == completed[key].childJobId
                && t.error.message == if completed[key].message != "" then completed[key].message
                                      else "Task '" + c.name + "' failed"
      ensures key !in completed && executingKey.None? ==> t.Suspends? && Carries(t.info, c, key)
      ensures key !in completed && executingKey == Some(key) ==>
                if c.dispatchType == InlineTask then t.Executes? && Carries(t.info, c, key) else t == Resolves(Null)
      ensures key !in completed && executingKey.Some? && executingKey != Some(key) ==> t == Never
      ensures pending == old(pending) + (if t.Suspends? then [t.info] else [])
      ensures suspended == old(suspended) && handedOut == old(handedOut)
    {
      hide KeysAt, AllocatedKeys, Occurrences;
      ghost var keys := AllocatedKeys(used);
      forall info: StepInfo ensures KeysAt(pushed + [info], pushedAt + [|keys|], keys + [info.key]) {
        KeysAtQueue(pushed, pushedAt, keys, info);
      }
      var k := AllocKey(NonEmpty(c.name, NonEmpty(c.script, "step")));
      key := k;
      if k in completed {
        var value := completed[k];
        if value.Tagged? {
          t := Rejects(StepError(NonEmpty(value.message, TaskLabel(c)), value.result, value.stepKey, value.childJobId));
        } else {
          t := Resolves(value);
        }
      } else if executingKey == Some(k) {
        t := if c.dispatchType == InlineTask then Executes(InfoOf(c, k)) else Resolves(Null);
      } else if executingKey.Some? {
        t := Never;
      } else {
        pending := pending + [InfoOf(c, k)];
        pushed, pushedAt := pushed + [InfoOf(c, k)], pushedAt + [|keys|];
        t := Suspends(InfoOf(c, k));
      }
    }

    /** `then` of an unfinished call: the first one throws everything pending, later ones never settle. */
    method Then() returns (thrown: Option<Dispatch>)
      requires Valid()
      modifies this`pending, this`suspended, this`handedOut, this`suspensions
      ensures Valid() && suspended
      ensures old(suspended) ==> thrown == None && pending == old(pending) && handedOut == old(handedOut)
      ensures !old(suspended) ==>
                && thrown.Some? && thrown.value.Tasks? && thrown.value.steps == old(pending)
                && (thrown.value.mode == "parallel" <==> |thrown.value.steps| > 1)
                && (thrown.value.mode == "sequential" <==> |thrown.value.steps| <= 1)
                && pending == [] && handedOut == old(handedOut) + old(pending)
    {
      if suspended { return None; }
      suspended := true;
      var steps := pending;
      pending := [];
      handedOut, suspensions := handedOut + steps, suspensions + 1;
      assert "parallel" != "sequential" by { assert |"parallel"| != |"sequential"|; }
      thrown := Some(Tasks(Mode(steps), steps));
    }

    method WaitForApproval(timeout: Option<int>, form: string, selfApproval: Option<bool>)
      returns (a: Awaited, ghost key: string)
      requires Valid()
      modifies this`counters, this`used
      ensures Valid() && used == old(used) + ["approval"] && AllocatedKeys(used) == AllocatedKeys(old(used)) + [key]
      ensures key in completed ==> a == Settles(Returned(completed[key]))
      ensures key !in completed ==>
                if executingKey.Some? then a == NeverSettles
                else && a.ThrowsSuspend? && a.d.AwaitApproval? && a.d.key == key && a.d.form == form
                     && a.d.timeout == (if timeout.Some? then timeout.value else 1800)
                     && a.d.selfApprovalDisabled == (selfApproval == Some(false))
    {
      var k := AllocKey("approval");
      key := k;
      if k in completed { return Settles(Returned(completed[k])), k; }
      if executingKey.Some? { return NeverSettles, k; }
      a := ThrowsSuspend(AwaitApproval(k, OrElse(timeout, 1800), form, !OrElse(selfApproval, true)));
    }

    method Sleep(seconds: real) returns (a: Awaited, ghost key: string)
      requires Valid()
      modifies this`counters, this`used
      ensures Valid() && used == old(used) + ["sleep"] && AllocatedKeys(used) == AllocatedKeys(old(used)) + [key]
      ensures key in completed ==> a == Settles(Returned(Undefined))
      ensures key !in completed ==>
                a == if executingKey.Some? then NeverSettles else ThrowsSuspend(Sleeps(key, SleepSeconds(seconds)))
    {
      var k := AllocKey("sleep");
      key := k;
      if k in completed { return Settles(Returned(Undefined)), k; }
      if executingKey.Some? { return NeverSettles, k; }
      a := ThrowsSuspend(Sleeps(k, SleepSeconds(seconds)));
    }

    /** One `step()` on its own; `posted` is the result the server acknowledged, if any. */
    method RunInlineStep(w: World, tries: Tries, name: string)
      returns (a: Awaited, ran: bool, posted: Option<Value>, key: string)
      requires Valid()
      modifies this`counters, this`used
      ensures Valid() && AllocatedKeys(used) == AllocatedKeys(old(used)) + [key]
      ensures used == old(used) + [if name != "" then name else "step"]
      ensures key in completed ==> !ran && posted.None?
      ensures key in completed && !completed[key].Tagged? ==> a == Settles(Returned(completed[key]))
      ensures key in completed && completed[key].Tagged? ==>
                var v := completed[key];
                a == Settles(Threw(StepError(if v.message != "" then v.message else "Step '" + name + "' failed",
                                             v.result, v.stepKey, v.childJobId)))
      ensures key !in completed && executingKey.Some? ==> a == NeverSettles && !ran && posted.None?
      ensures key !in completed && executingKey.None? ==>
                && ran
                && (w.inline(key, tries(key)).Throws? ==>
                    a == Settles(Threw(w.inline(key, tries(key)).error)) && posted.None?)
                && (w.inline(key, tries(key)).Returns? ==>
                      var v := w.inline(key, tries(key)).value;
                      if w.posts(key) && !v.Undefined? then a == Settles(Returned(v)) && posted == Some(v)
                      else a == ThrowsSuspend(SaveInline(key, if v.Undefined? then Null else v)) && posted.None?)
    {
      ran, posted := false, None;
      key := AllocKey(NonEmpty(name, "step"));
      if key in completed { a := Settles(ReadEntry(completed[key], InlineLabel(name))); return; }
      if executingKey.Some? { a := NeverSettles; return; }
      ran := true;
      match w.inline(key, tries(key))
      case Throws(e) => a := Settles(Threw(e));
      case Returns(v) =>
        if w.posts(key) && !v.Undefined? {
          a, posted := Settles(Returned(v)), Some(v);
        } else {
          a := ThrowsSuspend(SaveInline(key, Stored(v)));
        }
    }

    method FlushPending() returns (steps: seq<StepInfo>)
      requires Valid()
      modifies this`pending, this`handedOut
      ensures Valid() && steps == old(pending) && pending == [] && handedOut == old(handedOut) + steps
    {
      steps := pending;
      pending := [];
      handedOut := handedOut + steps;
    }
  }

  // ---------- The replay, driven through the context ----------

  /** Building a batch: every call is made before any `then` runs. */
  method CallAll(ctx: WorkflowCtx, calls: seq<Call>) returns (ts: seq<Thenable>)
    requires ctx.Valid()
    modifies ctx
    ensures ctx.Valid() && ctx.used == old(ctx.used) + Names(Batch(calls))
    ensures ts == Thenables(ctx.completed, ctx.executingKey, calls, AllocatedKeys(ctx.used)[|old(ctx.used)|..])
    ensures ctx.pending == old(ctx.pending) + Pushed(ts) && ctx.suspended == old(ctx.suspended)
  {
    hide AllocatedKeys;
    ts := [];
    ghost var used, names := ctx.used, Names(Batch(calls));
    ghost var keys: seq<string> := [];
    assert used + names[..0] == used;
    for i := 0 to |calls|
      invariant ctx.Valid() && ctx.used == used + names[..i]
      invariant |keys| == i && AllocatedKeys(ctx.used) == AllocatedKeys(used) + keys
      invariant |ts| == i && forall j :: 0 <= j < i ==>
                ts[j] == ThenableOf(ctx.completed, ctx.executingKey, calls[j], keys[j])
      invariant ctx.pending == old(ctx.pending) + Pushed(ts) && ctx.suspended == old(ctx.suspended)
    {
      var t;
      ghost var key;
      t, key := ctx.NextStep(calls[i]);
      PushedAppend(ts, t);
      ts, keys := ts + [t], keys + [key];
      assert used + names[..i + 1] == (used + names[..i]) + [names[i]];
    }
    assert names[..|calls|] == names;
    assert AllocatedKeys(ctx.used)[|used|..] == keys;
  }

  lemma {:induction false} PushedAppend(ts: seq<Thenable>, t: Thenable)
    ensures Pushed(ts + [t]) == Pushed(ts) + (if t.Suspends? then [t.info] else [])
  {
    if ts == [] {
      assert ts + [t] == [t] && [t][1..] == [];
    } else {
      PushedAppend(ts[1..], t);
      assert (ts + [t])[0] == ts[0] && (ts + [t])[1..] == ts[1..] + [t];
    }
  }

  /** What is known of a batch after its first members were awaited. */
  function Prefixed(values: seq<Value>, never: bool, rest: Settled): Settled {
    if rest.AllValues? then (if never then Pends else AllValues(values + rest.values)) else rest
  }

  lemma SettleNext(ts: seq<Thenable>, i: nat, was: bool, values: seq<Value>, never: bool)
    requires i < |ts|
    ensures var now, rest := Settle(ts[i..], was), Settle(ts[i + 1..], was);
            match ts[i]
            case Resolves(v) => Prefixed(values, never, now) == Prefixed(values + [v], never, rest)
            case Rejects(e) => now == Fails(e)
            case Suspends(_) =>
              if was then Prefixed(values, never, now) == Prefixed(values, true, rest) else now == SuspendsFirst
            case _ => Prefixed(values, never, now) == Prefixed(values, true, rest)
  {
    assert ts[i..][0] == ts[i] && ts[i..][1..] == ts[i + 1..];
    var rest := Settle(ts[i + 1..], was);
    if ts[i].Resolves? && rest.AllValues? {
      assert values + ([ts[i].value] + rest.values) == (values + [ts[i].value]) + rest.values;
    }
  }

  lemma SettleStart(ts: seq<Thenable>, was: bool)
    ensures Prefixed([], false, Settle(ts, was)) == Settle(ts, was)
  {
    hide Settle;
    assert Settle(ts, was).AllValues? ==> [] + Settle(ts, was).values == Settle(ts, was).values;
  }

  lemma SettleEnd(values: seq<Value>, never: bool, was: bool)
    ensures Prefixed(values, never, Settle([], was)) == if never then Pends else AllValues(values)
  {
    assert values + [] == values;
  }

  /** Awaiting a batch: `then` is called on each member in order. */
  method AwaitAll(ctx: WorkflowCtx, ts: seq<Thenable>) returns (s: Settled, thrown: Option<Dispatch>)
    requires ctx.Valid()
    modifies ctx
    ensures ctx.Valid() && ctx.used == old(ctx.used)
    ensures s == Settle(ts, old(ctx.suspended))
    ensures s.SuspendsFirst? ==> thrown == Some(Tasks(Mode(old(ctx.pending)), old(ctx.pending)))
    ensures var fires := !old(ctx.suspended) && Pushed(ts) != [];
            && ctx.suspended == (old(ctx.suspended) || fires)
            && ctx.pending == if fires then [] else old(ctx.pending)
  {
    hide Mode, KeysAt, Settle, Prefixed;
    var values: seq<Value> := [];
    var never := false;
    var decided: Option<Settled> := None;
    thrown := None;
    ghost var was := ctx.suspended;
    assert ts[0..] == ts && Pushed([]) == [];
    SettleStart(ts, was);
    for i := 0 to |ts|
      invariant ctx.Valid() && ctx.used == old(ctx.used)
      invariant decided.None? ==> Settle(ts, was) == Prefixed(values, never, Settle(ts[i..], was))
      invariant decided.None? ==> Pushed(ts[..i]) == [] || was
      invariant decided.Some? ==> decided.value == Settle(ts, was)
      invariant decided == Some(SuspendsFirst) ==> thrown == Some(Tasks(Mode(old(ctx.pending)), old(ctx.pending)))
      invariant ctx.suspended == (was || Pushed(ts[..i]) != [])
      invariant ctx.pending == if !was && Pushed(ts[..i]) != [] then [] else old(ctx.pending)
    {
      assert ts[..i + 1] == ts[..i] + [ts[i]];
      PushedAppend(ts[..i], ts[i]);
      SettleNext(ts, i, was, values, never);
      PrefixedDecides(values, never, Settle(ts[i..], was));
      match ts[i]
      case Resolves(v) => values := values + [v];
      case Rejects(e) =>
        if decided.None? { decided := Some(Fails(e)); }
      case Suspends(_) =>
        var d := ctx.Then();
        if d.None? {
          never := true;
        } else if decided.None? {
          decided, thrown := Some(SuspendsFirst), Some(Tasks(d.value.mode, d.value.steps));
          ModeFixed(d.value);
        }
      case _ => never := true;
    }
    assert ts[..|ts|] == ts && ts[|ts|..] == [];
    SettleEnd(values, never, was);
    s := if decided.Some? then decided.value else if never then Pends else AllValues(values);
  }

  lemma PrefixedDecides(values: seq<Value>, never: bool, rest: Settled)
    ensures !rest.AllValues? ==> Prefixed(values, never, rest) == rest
  {
  }

  lemma ModeFixed(d: Dispatch)
    requires d.Tasks? && (d.mode == "parallel" <==> |d.steps| > 1) && (d.mode == "sequential" <==> |d.steps| <= 1)
    ensures d.mode == Mode(d.steps)
  {
  }

  method BatchStep(w: World, ctx: WorkflowCtx, calls: seq<Call>, r: Round) returns (r': Round)
    requires ctx.Valid() && r.status.Running? && r.pending == ctx.pending && r.suspended == ctx.suspended
    modifies ctx
    ensures ctx.Valid() && ctx.used == old(ctx.used) + Names(Batch(calls))
    ensures r' == BatchRound(w, ctx.completed, ctx.executingKey, calls, AllocatedKeys(ctx.used)[|old(ctx.used)|..], r)
    ensures r'.status.Running? ==> r'.pending == ctx.pending && r'.suspended == ctx.suspended
  {
    hide AllocatedKeys, Thenables, Pushed, Started, Settle, Mode, WorkflowCtx.Valid;
    var ts := CallAll(ctx, calls);
    ghost var queued := ctx.pending;
    var s, thrown := AwaitAll(ctx, ts);
    var ran := r.(events := r.events + RanAll(Started(ts)));
    var started := Started(ts);
    if started != [] && (w.settlesFirst(started[0]) || !s.Fails?) {
      match w.fn(started[0])
      case Returns(v) => r' := ran.(pending := r.pending + Pushed(ts), status := Dispatches(StepComplete(v)));
      case Throws(e) => r' := Advance(ran.(pending := ctx.pending, suspended := ctx.suspended), Threw(e));
    } else {
      match s
      case AllValues(vs) => r' := Advance(ran.(pending := ctx.pending, suspended := ctx.suspended), Returned(List(vs)));
      case Fails(e) => r' := Advance(ran.(pending := ctx.pending, suspended := ctx.suspended), Threw(e));
      case SuspendsFirst =>
        r' := ran.(pending := [], suspended := true, events := ran.events + SentAll(thrown.value.steps),
                   status := Dispatches(thrown.value));
      case Pends => r' := ran.(pending := r.pending + Pushed(ts), status := Stuck);
    }
    assert r.pending + [] == r.pending;
  }

  function Apply(r: Round, a: Awaited): Round {
    match a
    case Settles(o) => Advance(r, o)
    case ThrowsSuspend(d) => r.(status := Dispatches(d))
    case NeverSettles => r.(status := Stuck)
  }

  lemma LastKey(wf: Workflow, h: seq<Outcome>, keys: seq<string>)
    requires AllocatedKeys(UsedNames(wf, h) + Names(wf(h))) == AllocatedKeys(UsedNames(wf, h)) + keys
    ensures ActionKeys(wf, h) == keys
  {
    hide AllocatedKeys, UsedNames, Names;
  }

  lemma UsedAfter(wf: Workflow, h: seq<Outcome>, o: Outcome)
    ensures UsedNames(wf, h + [o]) == UsedNames(wf, h) + Names(wf(h))
  {
    hide Names;
    assert (h + [o])[..|h|] == h;
  }

  /** The next action of the workflow, carried out through the context. */
  method StepThrough(w: World, wf: Workflow, ctx: WorkflowCtx, tries: Tries, r: Round) returns (r': Round)
    requires ctx.Valid() && ctx.used == UsedNames(wf, r.h)
    requires r.status.Running? && r.pending == ctx.pending && r.suspended == ctx.suspended
    modifies ctx
    ensures ctx.Valid() && r' == StepRound(w, wf, ctx.completed, ctx.executingKey, tries, r)
    ensures r'.status.Running? ==>
              ctx.used == UsedNames(wf, r'.h) && r'.pending == ctx.pending && r'.suspended == ctx.suspended
  {
    hide AllocatedKeys, UsedNames, BatchRound, WorkflowCtx.Valid, SleepSeconds, SentAll;
    forall o { UsedAfter(wf, r.h, o); }
    match wf(r.h)
    case Batch(calls) =>
      r' := BatchStep(w, ctx, calls, r);
      BatchHistory(w, ctx.completed, ctx.executingKey, calls, AllocatedKeys(ctx.used)[|old(ctx.used)|..], r);
    case Inline(name) =>
      var a, ran, posted, key := ctx.RunInlineStep(w, tries, name);
      LastKey(wf, r.h, [key]);
      var r1 := if ran then r.(events := r.events + [RanInline(key)]) else r;
      var r2 := if posted.Some? then r1.(server := r.server[key := posted.value]) else r1;
      r' := Apply(r2, a);
    case Sleep(seconds) =>
      var a; ghost var key;
      a, key := ctx.Sleep(seconds);
      LastKey(wf, r.h, [key]);
      r' := Apply(if a.ThrowsSuspend? then r.(events := r.events + [Slept(a.d.key)]) else r, a);
    case Approval(t, f, s) =>
      var a; ghost var key;
      a, key := ctx.WaitForApproval(t, f, s);
      LastKey(wf, r.h, [key]);
      r' := Apply(if a.ThrowsSuspend? then r.(events := r.events + [Asked(a.d.key)]) else r, a);
    case Finish(o) =>
      if o.Threw? {
        r' := r.(status := Finished(o));
      } else {
        var trailing := ctx.FlushPending();
        if |trailing| > 0 {
          r' := r.(pending := [], events := r.events + SentAll(trailing),
                   status := Dispatches(Tasks(Mode(trailing), trailing)));
        } else {
          r' := r.(status := Finished(o));
        }
      }
  }

  lemma BatchHistory(w: World, done: Checkpoint, exec: Option<string>, calls: seq<Call>, keys: seq<string>, r: Round)
    requires |calls| == |keys| && r.status.Running?
    ensures var r' := BatchRound(w, done, exec, calls, keys, r);
            r'.status.Running? ==> r'.h != [] && r'.h == r.h + [r'.h[|r'.h| - 1]]
  {
    hide Thenables, Pushed, Started, Settle;
  }

  /** A replay of at most `n` actions through a fresh context object computes the model's replay. */
  method RunReplay(w: World, wf: Workflow, done: Checkpoint, exec: Option<string>, tries: Tries, n: nat)
    returns (r: Round)
    ensures r == RoundAfter(w, wf, done, exec, tries, n)
  {
    hide StepRound, WorkflowCtx.Valid;
    var ctx := new WorkflowCtx(done, exec);
    r := Round([], done, [], false, [], Running);
    for i := 0 to n
      invariant ctx.Valid() && fresh(ctx) && ctx.completed == done && ctx.executingKey == exec
      invariant r == RoundAfter(w, wf, done, exec, tries, i)
      invariant r.status.Running? ==>
                  ctx.used == UsedNames(wf, r.h) && r.pending == ctx.pending && r.suspended == ctx.suspended
    {
      if r.status.Running? { r := StepThrough(w, wf, ctx, tries, r); }
    }
  }
}
