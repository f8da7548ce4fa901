/** The worker's side of a dispatch: child jobs end in any order, the parent resumes when all have. */
module Backend {
  import opened Steps
  import opened Replay
  import opened Refinement

  /** The parent's checkpoint and its suspend counter, set to the number of children at dispatch. */
  datatype Parent = Parent(checkpoint: Checkpoint, suspend: nat)

  function Dispatched(server: Checkpoint, steps: seq<StepInfo>): Parent {
    Parent(server, |steps|)
  }

  /** One child ended: its entry is merged and the counter goes down, in one transaction. */
  function ChildDone(w: World, p: Parent, step: StepInfo): Parent {
    Parent(p.checkpoint[step.key := RecordJob(step, w.job(step))], if p.suspend > 0 then p.suspend - 1 else 0)
  }

  /** The children end in the order given by the indices. */
  function AllDone(w: World, steps: seq<StepInfo>, order: seq<nat>, p: Parent): Parent
    requires forall i :: 0 <= i < |order| ==> order[i] < |steps|
  {
    if order == [] then p
    else ChildDone(w, AllDone(w, steps, order[..|order| - 1], p), steps[order[|order| - 1]])
  }

  /** `order` lists some of the children, each once. */
  ghost predicate EachOnce(order: seq<nat>, n: nat) {
    && (forall i :: 0 <= i < |order| ==> order[i] < n)
    && (forall i, j :: 0 <= i < j < |order| ==> order[i] != order[j])
  }

  /** After some children have ended, exactly their entries have been added and the counter is the
      number of children still out. */
  lemma {:induction false} SomeDone(w: World, server: Checkpoint, steps: seq<StepInfo>, order: seq<nat>)
    requires DistinctSteps(steps) && EachOnce(order, |steps|) && |order| <= |steps|
    ensures var p := AllDone(w, steps, order, Dispatched(server, steps));
            && p.suspend == |steps| - |order|
            && (forall i :: 0 <= i < |order| ==>
                  steps[order[i]].key in p.checkpoint &&
                  p.checkpoint[steps[order[i]].key] == RecordJob(steps[order[i]], w.job(steps[order[i]])))
            && (forall k :: k !in StepKeys(steps) ==> SameEntry(p.checkpoint, server, k))
            && (forall k :: k in p.checkpoint && k !in server ==> k in StepKeys(steps))
    decreases |order|
  {
    hide RecordJob;
    if order != [] {
      var init, last := order[..|order| - 1], order[|order| - 1];
      SomeDone(w, server, steps, init);
      assert StepKeys(steps)[last] == steps[last].key;
      assert forall i :: 0 <= i < |init| ==> init[i] == order[i] && order[i] != last;
      assert forall i :: 0 <= i < |init| ==> steps[order[i]].key != steps[last].key;
    }
  }

  function Below(n: nat): (s: set<nat>)
    ensures |s| == n && forall x: nat :: x in s <==> x < n
  {
    if n == 0 then {} else Below(n - 1) + {n - 1}
  }

  function Seen(order: seq<nat>): (s: set<nat>)
    ensures forall x :: x in s <==> x in order
  {
    if order == [] then {} else Seen(order[..|order| - 1]) + {order[|order| - 1]}
  }

  lemma {:induction false} SeenSize(order: seq<nat>, n: nat)
    requires EachOnce(order, n)
    ensures |Seen(order)| == |order|
  {
    if order != [] {
      var init, last := order[..|order| - 1], order[|order| - 1];
      SeenSize(init, n);
      assert last !in init;
    }
  }

  /** A list of n different numbers below n has all of them. */
  lemma CoversAll(order: seq<nat>, n: nat)
    requires EachOnce(order, n) && |order| == n
    ensures forall x: nat :: x < n ==> x in order
  {
    SeenSize(order, n);
    assert Seen(order) <= Below(n);
    assert |Below(n)| == |Seen(order)| + |Below(n) - Seen(order)|;
    assert Below(n) - Seen(order) == {};
    assert forall x: nat :: x < n ==> x in Below(n);
  }

  /** In whatever order the children end, the parent is resumed exactly after the last one, and its
      checkpoint then is the one the loop of replays continues with. */
  lemma AnyOrderResumes(w: World, server: Checkpoint, mode: string, steps: seq<StepInfo>, order: seq<nat>)
    requires DistinctSteps(steps) && EachOnce(order, |steps|) && |order| <= |steps|
    ensures var p := AllDone(w, steps, order, Dispatched(server, steps));
            && (p.suspend == 0 <==> |order| == |steps|)
            && (p.suspend == 0 ==> p.checkpoint == Resume(w, Tasks(mode, steps), server))
  {
    hide AllDone, RecordJob, RecordJobs;
    SomeDone(w, server, steps, order);
    var p := AllDone(w, steps, order, Dispatched(server, steps));
    if |order| == |steps| {
      CoversAll(order, |steps|);
      RecordJobsKeys(w, steps);
      var want := server + RecordJobs(w, steps);
      forall i: nat | i < |steps|
        ensures steps[i].key in p.checkpoint && p.checkpoint[steps[i].key] == want[steps[i].key]
      {
        RecordJobsAt(w, steps, i);
        assert i in order;
        var j :| 0 <= j < |order| && order[j] == i;
      }
      SameMap(p.checkpoint, want, server, steps);
    }
  }

  lemma SameMap(a: Checkpoint, b: Checkpoint, server: Checkpoint, steps: seq<StepInfo>)
    requires forall k :: k !in StepKeys(steps) ==> SameEntry(a, server, k) && SameEntry(b, server, k)
    requires forall i: nat :: i < |steps| ==>
             steps[i].key in a && steps[i].key in b && a[steps[i].key] == b[steps[i].key]
    ensures a == b
  {
    forall k
      ensures k in a.Keys <==> k in b.Keys
      ensures k in a ==> k in b && a[k] == b[k]
    {
      if k in StepKeys(steps) {
        var i: nat :| i < |steps| && StepKeys(steps)[i] == k;
        assert steps[i].key == k;
      } else {
        assert SameEntry(a, server, k) && SameEntry(b, server, k);
      }
    }
    assert a.Keys == b.Keys;
  }
}
