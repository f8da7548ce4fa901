/** The worktree pool of the ephemeral-backend manager, driven by interleaved backends. */
module WorktreePool {
  import opened Basics

  datatype Worktree = Worktree(id: nat, inUse: bool, commit: Option<string>)

  /** An acquire that waits in an await: for an existing worktree to be prepared, or a new one created. */
  datatype Flight = Preparing(id: nat) | Creating(id: nat)

  // ---------- The pool's map, in insertion order ----------

  ghost predicate DistinctIds(pool: seq<Worktree>) {
    forall i, j :: 0 <= i < j < |pool| ==> pool[i].id != pool[j].id
  }

  predicate HasId(pool: seq<Worktree>, id: nat) {
    exists i :: 0 <= i < |pool| && pool[i].id == id
  }

  /** The entry with this id marked used or free; nothing happens if there is none. */
  function Mark(pool: seq<Worktree>, id: nat, inUse: bool, commit: Option<string>): (r: seq<Worktree>)
    ensures |r| == |pool|
    ensures forall i :: 0 <= i < |pool| ==> r[i] == if pool[i].id == id then Worktree(id, inUse, commit) else pool[i]
  {
    seq(|pool|, i requires 0 <= i < |pool| => if pool[i].id == id then Worktree(id, inUse, commit) else pool[i])
  }

  /** Position of the first free worktree, or the size of the pool. */
  function FirstFree(pool: seq<Worktree>): (i: nat)
    ensures i <= |pool| && (i < |pool| ==> !pool[i].inUse)
    ensures forall j :: 0 <= j < i ==> pool[j].inUse
  {
    if pool == [] then 0
    else if !pool[0].inUse then 0
    else 1 + FirstFree(pool[1..])
  }

  function InUse(pool: seq<Worktree>): (n: nat)
    ensures n <= |pool|
  {
    if pool == [] then 0 else InUse(pool[..|pool| - 1]) + if pool[|pool| - 1].inUse then 1 else 0
  }

  class Pool {
    var worktrees: seq<Worktree>
    var nextId: nat

    /** Ids are distinct and below `nextId`. */
    ghost predicate Valid()
      reads this
    {
      DistinctIds(worktrees) && forall i :: 0 <= i < |worktrees| ==> worktrees[i].id < nextId
    }

    constructor ()
      ensures Valid() && worktrees == [] && nextId == 0
    {
      worktrees, nextId := [], 0;
    }

    /** Worktrees found on disk enter the pool as free; an id found again replaces its entry. */
    method Discover(ids: seq<nat>)
      requires Valid() && worktrees == []
      modifies this
      ensures Valid()
      ensures forall id :: HasId(worktrees, id) <==> id in ids
      ensures forall i :: 0 <= i < |worktrees| ==> !worktrees[i].inUse
    {
      for k := 0 to |ids|
        invariant Valid()
        invariant forall id :: HasId(worktrees, id) <==> id in ids[..k]
        invariant forall i :: 0 <= i < |worktrees| ==> !worktrees[i].inUse
      {
        var id := ids[k];
        ghost var was := worktrees;
        if HasId(worktrees, id) {
          worktrees := Mark(worktrees, id, false, None);
          assert forall x :: HasId(worktrees, x) <==> HasId(was, x) by { MarkIds(was, id, false, None); }
        } else {
          worktrees := worktrees + [Worktree(id, false, None)];
          assert forall x :: HasId(worktrees, x) <==>
                 HasId(was, x) || x == id by { AddId(was, Worktree(id, false, None)); }
        }
        if id >= nextId {
          nextId := id + 1;
        }
        assert ids[..k + 1] == ids[..k] + [id];
      }
      assert ids[..|ids|] == ids;
    }

    /** `acquire` up to its await. */
    method BeginAcquire() returns (f: Flight)
      requires Valid()
      modifies this`nextId
      ensures Valid()
      ensures var i := FirstFree(worktrees);
              if i < |worktrees| then f == Preparing(worktrees[i].id) && nextId == old(nextId)
              else f == Creating(old(nextId)) && nextId == old(nextId) + 1
      ensures forall s: System, b :: s.pool == worktrees && s.nextId == old(nextId) && Enabled(s, AcquireStart(b)) ==>
                Apply(s, AcquireStart(b)) == s.(flights := s.flights[b := f], nextId := nextId)
    {
      var i := 0;
      while i < |worktrees|
        invariant 0 <= i <= |worktrees| && forall j :: 0 <= j < i ==> worktrees[j].inUse
      {
        if !worktrees[i].inUse {
          return Preparing(worktrees[i].id);
        }
        i := i + 1;
      }
      f := Creating(nextId);
      nextId := nextId + 1;
    }

    /** `acquire` after its await, when git succeeded. */
    method EndAcquire(f: Flight, commit: string) returns (id: nat)
      requires Valid() && (f.Creating? ==> !HasId(worktrees, f.id) && f.id < nextId)
      modifies this`worktrees
      ensures Valid() && id == f.id
      ensures worktrees == if f.Preparing? then Mark(old(worktrees), f.id, true, Some(commit))
                           else old(worktrees) + [Worktree(f.id, true, Some(commit))]
      ensures forall s: System, b :: s.pool == old(worktrees) && b in s.flights && s.flights[b] == f ==>
                Apply(s, AcquireDone(b, commit)).pool == worktrees && Apply(s, AcquireDone(b, commit)).refs[b] == id
    {
      id := f.id;
      if f.Preparing? {
        worktrees := Mark(worktrees, f.id, true, Some(commit));
      } else {
        worktrees := worktrees + [Worktree(f.id, true, Some(commit))];
      }
    }

    method Release(id: nat)
      requires Valid()
      modifies this`worktrees
      ensures Valid() && worktrees == Mark(old(worktrees), id, false, None)
      ensures forall s: System, b :: s.pool == old(worktrees) && b in s.refs && s.refs[b] == id ==>
                && Apply(s, Event.Release(b)).pool == worktrees
                && (b in s.working ==> Apply(s, StartReleases(b)).pool == worktrees)
    {
      worktrees := Mark(worktrees, id, false, None);
    }

    method GetStats() returns (total: nat, inUse: nat, available: nat)
      ensures total == |worktrees| && inUse == InUse(worktrees) && total == inUse + available
    {
      total, inUse := |worktrees|, 0;
      for i := 0 to |worktrees|
        invariant inUse == InUse(worktrees[..i])
      {
        if worktrees[i].inUse { inUse := inUse + 1; }
        assert worktrees[..i + 1][..i] == worktrees[..i];
      }
      assert worktrees[..|worktrees|] == worktrees;
      available := total - inUse;
    }
  }

  lemma MarkIds(pool: seq<Worktree>, id: nat, inUse: bool, commit: Option<string>)
    ensures forall x :: HasId(Mark(pool, id, inUse, commit), x) <==> HasId(pool, x)
  {
    var r := Mark(pool, id, inUse, commit);
    assert forall i :: 0 <= i < |pool| ==> r[i].id == pool[i].id;
  }

  lemma AddId(pool: seq<Worktree>, t: Worktree)
    ensures forall x :: HasId(pool + [t], x) <==> HasId(pool, x) || x == t.id
  {
    var all := pool + [t];
    forall x | HasId(pool, x) || x == t.id
      ensures HasId(all, x)
    {
      if HasId(pool, x) {
        var i :| 0 <= i < |pool| && pool[i].id == x;
        assert all[i].id == x;
      } else {
        assert all[|pool|].id == x;
      }
    }
  }

  // ---------- Backends sharing the pool ----------

  /** `refs` is what each backend's `resources.worktree` points at. A backend is in `holds` from the end of
      its acquire to its first release, in `working` from there to the end of its start, and in `leaving`
      between its start's own release and the clearing of its reference. */
  datatype System = System(
    pool: seq<Worktree>,
    nextId: nat,
    flights: map<nat, Flight>,
    refs: map<nat, nat>,
    holds: set<nat>,
    working: set<nat>,
    leaving: set<nat>)

  datatype Event =
    | AcquireStart(b: nat)
    | AcquireDone(b: nat, commit: string)
    | AcquireFails(b: nat)
    | StartReleases(b: nat)  // the start ends with the backend running and gives the worktree back
    | Forget(b: nat)         // the start clears its reference, one await later
    | StartFails(b: nat)
    | Release(b: nat)        // by a cleanup, which may come at any time and more than once

  predicate Enabled(s: System, e: Event) {
    match e
    case AcquireStart(b) => b !in s.flights && b !in s.refs
    case AcquireDone(b, _) => b in s.flights
    case AcquireFails(b) => b in s.flights
    case StartReleases(b) => b in s.working && b in s.refs
    case Forget(b) => b in s.leaving
    case StartFails(b) => b in s.working
    case Release(b) => b in s.refs
  }

  function Apply(s: System, e: Event): System
    requires Enabled(s, e)
  {
    match e
    case AcquireStart(b) =>
      var i := FirstFree(s.pool);
      if i < |s.pool| then s.(flights := s.flights[b := Preparing(s.pool[i].id)])
      else s.(flights := s.flights[b := Creating(s.nextId)], nextId := s.nextId + 1)
    case AcquireDone(b, commit) =>
      var f := s.flights[b];
      var pool := if f.Preparing? then Mark(s.pool, f.id, true, Some(commit))
                  else s.pool + [Worktree(f.id, true, Some(commit))];
      s.(pool := pool, flights := s.flights - {b}, refs := s.refs[b := f.id],
         holds := s.holds + {b}, working := s.working + {b})
    case AcquireFails(b) => s.(flights := s.flights - {b})
    case StartReleases(b) =>
      s.(pool := Mark(s.pool, s.refs[b], false, None), holds := s.holds - {b}, working := s.working - {b},
         leaving := s.leaving + {b})
    case Forget(b) => s.(refs := s.refs - {b}, leaving := s.leaving - {b})
    case StartFails(b) => s.(working := s.working - {b})
    case Release(b) => s.(pool := Mark(s.pool, s.refs[b], false, None), holds := s.holds - {b})
  }

  /** The backend has not given its worktree back, or its start is still at work there. */
  predicate Uses(s: System, b: nat) {
    b in s.refs && (b in s.holds || b in s.working)
  }

  ghost predicate CanRun(s: System, es: seq<Event>)
    decreases |es|
  {
    es == [] || (Enabled(s, es[0]) && CanRun(Apply(s, es[0]), es[1..]))
  }

  ghost function Run(s: System, es: seq<Event>): System
    requires CanRun(s, es)
    decreases |es|
  {
    if es == [] then s else Run(Apply(s, es[0]), es[1..])
  }

  /** A pool before any backend asked for a worktree. */
  ghost predicate Fresh(s: System) {
    && s.flights == map[] && s.refs == map[] && s.holds == {} && s.working == {} && s.leaving == {}
    && DistinctIds(s.pool) && forall i :: 0 <= i < |s.pool| ==> s.pool[i].id < s.nextId
  }

  // ---------- Ids never clash ----------

  /** Pool ids and the ids of worktrees being created are all distinct and below `nextId`. */
  ghost predicate IdsApart(s: System) {
    && DistinctIds(s.pool)
    && (forall i :: 0 <= i < |s.pool| ==> s.pool[i].id < s.nextId)
    && (forall b :: b in s.flights && s.flights[b].Creating? ==>
        s.flights[b].id < s.nextId && !HasId(s.pool, s.flights[b].id))
    && (forall b, c :: b in s.flights && c in s.flights && b != c && s.flights[b].Creating? && s.flights[c].Creating?
          ==> s.flights[b].id != s.flights[c].id)
  }

  lemma MarkKeepsIds(s: System, id: nat, inUse: bool, commit: Option<string>)
    requires IdsApart(s)
    ensures IdsApart(s.(pool := Mark(s.pool, id, inUse, commit)))
  {
    MarkIds(s.pool, id, inUse, commit);
    hide HasId;
  }

  lemma NewIdIsFresh(s: System)
    requires IdsApart(s)
    ensures !HasId(s.pool, s.nextId)
  {
  }

  lemma IdsApartDone(s: System, b: nat, commit: string)
    requires IdsApart(s) && Enabled(s, AcquireDone(b, commit))
    ensures IdsApart(Apply(s, AcquireDone(b, commit)))
  {
    var f := s.flights[b];
    if f.Preparing? {
      MarkKeepsIds(s, f.id, true, Some(commit));
    } else {
      AddId(s.pool, Worktree(f.id, true, Some(commit)));
      assert forall i :: 0 <= i < |s.pool| ==> s.pool[i].id != f.id by { assert !HasId(s.pool, f.id); }
    }
    hide HasId, Mark;
  }

  lemma IdsApartKept(s: System, e: Event)
    requires IdsApart(s) && Enabled(s, e)
    ensures IdsApart(Apply(s, e))
  {
    hide HasId, Mark;
    match e
    case AcquireStart(b) => NewIdIsFresh(s);
    case AcquireDone(b, commit) => IdsApartDone(s, b, commit);
    case StartReleases(b) => MarkKeepsIds(s, s.refs[b], false, None);
    case Release(b) => MarkKeepsIds(s, s.refs[b], false, None);
    case _ =>
  }

  /** However acquires, failures and releases interleave. */
  lemma {:induction false} IdsNeverClash(s: System, es: seq<Event>)
    requires CanRun(s, es) && IdsApart(s)
    ensures IdsApart(Run(s, es))
    decreases |es|
  {
    hide Apply, Enabled, IdsApart;
    if es != [] {
      IdsApartKept(s, es[0]);
      IdsNeverClash(Apply(s, es[0]), es[1..]);
    }
  }

  // ---------- No worktree is used twice ----------

  /** The acquire picks a worktree that another acquire is still preparing. */
  ghost predicate Overlaps(s: System, e: Event) {
    e.AcquireStart? && FirstFree(s.pool) < |s.pool| &&
    exists c :: c in s.flights && s.flights[c] == Preparing(s.pool[FirstFree(s.pool)].id)
  }

  /** A backend gives back, for the second time, a worktree that another one uses by now. */
  ghost predicate ReleasesAgain(s: System, e: Event) {
    && (e.Release? || e.StartReleases?) && e.b in s.refs
    && exists c :: c != e.b && Uses(s, c) && s.refs[c] == s.refs[e.b]
  }

  /** A cleanup gives back the worktree in which the backend's own start is still at work. */
  predicate ReleasesEarly(s: System, e: Event) {
    e.Release? && e.b in s.working
  }

  ghost predicate Unsafe(s: System, e: Event) {
    Overlaps(s, e) || ReleasesAgain(s, e) || ReleasesEarly(s, e)
  }

  ghost predicate Orderly(s: System, es: seq<Event>)
    requires CanRun(s, es)
    decreases |es|
  {
    es == [] || (!Unsafe(s, es[0]) && Orderly(Apply(s, es[0]), es[1..]))
  }

  /** No worktree is used by two backends. */
  ghost predicate HeldOnce(s: System) {
    forall b, c :: Uses(s, b) && Uses(s, c) && b != c ==> s.refs[b] != s.refs[c]
  }

  /** What a worktree is marked as, by id. */
  ghost predicate Marked(pool: seq<Worktree>, id: nat, inUse: bool) {
    HasId(pool, id) && forall i :: 0 <= i < |pool| && pool[i].id == id ==> pool[i].inUse == inUse
  }

  lemma MarkMarks(pool: seq<Worktree>, id: nat, inUse: bool, commit: Option<string>)
    ensures forall x, u :: x != id ==> (Marked(Mark(pool, id, inUse, commit), x, u) <==> Marked(pool, x, u))
    ensures HasId(pool, id) ==> Marked(Mark(pool, id, inUse, commit), id, inUse)
  {
    MarkIds(pool, id, inUse, commit);
  }

  lemma AddMarks(pool: seq<Worktree>, t: Worktree)
    ensures forall x, u :: x != t.id ==> (Marked(pool + [t], x, u) <==> Marked(pool, x, u))
    ensures !HasId(pool, t.id) ==> Marked(pool + [t], t.id, t.inUse)
  {
    AddId(pool, t);
    forall x, u | x != t.id && Marked(pool + [t], x, u)
      ensures Marked(pool, x, u)
    {
      assert forall i :: 0 <= i < |pool| ==> (pool + [t])[i] == pool[i];
    }
  }

  lemma MarkedOneWay(pool: seq<Worktree>, id: nat)
    ensures !(Marked(pool, id, true) && Marked(pool, id, false))
    ensures Marked(pool, id, true) || Marked(pool, id, false) ==> HasId(pool, id)
  {
  }

  ghost predicate Exclusive(s: System) {
    && IdsApart(s) && HeldOnce(s)
    && (forall b :: Uses(s, b) ==> Marked(s.pool, s.refs[b], true))
    && (forall b :: b in s.flights && s.flights[b].Preparing? ==> Marked(s.pool, s.flights[b].id, false))
    && (forall b, c :: b in s.flights && c in s.flights && b != c ==> s.flights[b].id != s.flights[c].id)
    && (forall b :: b in s.refs ==> b !in s.flights)
    && (forall b :: b in s.holds || b in s.working || b in s.leaving ==> b in s.refs)
    && (forall b :: b in s.leaving ==> b !in s.holds && b !in s.working)
  }

  lemma FreeIsMarked(pool: seq<Worktree>, i: nat)
    requires DistinctIds(pool) && i < |pool|
    ensures Marked(pool, pool[i].id, pool[i].inUse)
  {
  }

  lemma ExclusiveStart(s: System, b: nat)
    requires Exclusive(s) && Enabled(s, AcquireStart(b)) && !Overlaps(s, AcquireStart(b))
    ensures Exclusive(Apply(s, AcquireStart(b)))
  {
    IdsApartKept(s, AcquireStart(b));
    var i := FirstFree(s.pool);
    if i < |s.pool| {
      FreeIsMarked(s.pool, i);
      HasItsIds(s.pool, i);
      assert forall c :: c in s.flights ==> s.flights[c].id != s.pool[i].id;
      ExclusiveWithFlight(s, s.nextId, b, Preparing(s.pool[i].id));
    } else {
      forall c | c in s.flights ensures s.flights[c].id != s.nextId {
        if s.flights[c].Preparing? { MarkedBelow(s, s.flights[c].id); }
      }
      ExclusiveWithFlight(s, s.nextId + 1, b, Creating(s.nextId));
    }
  }

  lemma ExclusiveWithFlight(s: System, nextId: nat, b: nat, f: Flight)
    requires Exclusive(s) && b !in s.flights && b !in s.refs
    requires IdsApart(s.(flights := s.flights[b := f], nextId := nextId))
    requires f.Preparing? ==> Marked(s.pool, f.id, false)
    requires forall c :: c in s.flights ==> s.flights[c].id != f.id
    ensures Exclusive(s.(flights := s.flights[b := f], nextId := nextId))
  {
    hide IdsApart, Marked;
  }

  lemma HasItsIds(pool: seq<Worktree>, i: nat)
    requires i < |pool|
    ensures HasId(pool, pool[i].id)
  {
  }

  lemma MarkedBelow(s: System, id: nat)
    requires IdsApart(s) && Marked(s.pool, id, false)
    ensures id < s.nextId && HasId(s.pool, id)
  {
  }

  /** A worktree that is free or new is used by nobody. */
  lemma FlightNotUsed(s: System, b: nat, c: nat)
    requires Exclusive(s) && b in s.flights && Uses(s, c)
    ensures s.refs[c] != s.flights[b].id
  {
    MarkedOneWay(s.pool, s.refs[c]);
  }

  lemma ExclusiveDone(s: System, b: nat, commit: string)
    requires Exclusive(s) && Enabled(s, AcquireDone(b, commit))
    ensures Exclusive(Apply(s, AcquireDone(b, commit)))
  {
    IdsApartKept(s, AcquireDone(b, commit));
    var f := s.flights[b];
    forall c | Uses(s, c) ensures s.refs[c] != f.id { FlightNotUsed(s, b, c); }
    MarkMarks(s.pool, f.id, true, Some(commit));
    AddMarks(s.pool, Worktree(f.id, true, Some(commit)));
    MarkedOneWay(s.pool, f.id);
    hide Marked, HasId, Mark, IdsApart;
    ExclusiveDoneStep(s, b, commit);
  }

  lemma ExclusiveDoneStep(s: System, b: nat, commit: string)
    requires Exclusive(s) && Enabled(s, AcquireDone(b, commit)) && IdsApart(Apply(s, AcquireDone(b, commit)))
    requires forall c :: Uses(s, c) ==> s.refs[c] != s.flights[b].id
    requires var pool := Apply(s, AcquireDone(b, commit)).pool;
             && Marked(pool, s.flights[b].id, true)
             && forall x, u :: x != s.flights[b].id ==> (Marked(pool, x, u) <==> Marked(s.pool, x, u))
    ensures Exclusive(Apply(s, AcquireDone(b, commit)))
  {
    hide Marked, HasId, Mark, IdsApart;
    var s' := Apply(s, AcquireDone(b, commit));
    assert forall c :: Uses(s', c) ==> c == b || (Uses(s, c) && s'.refs[c] == s.refs[c]);
  }

  lemma ExclusiveRelease(s: System, e: Event)
    requires Exclusive(s) && Enabled(s, e) && (e.Release? || e.StartReleases?)
    requires !ReleasesAgain(s, e) && !ReleasesEarly(s, e)
    ensures Exclusive(Apply(s, e))
  {
    var s', id := Apply(s, e), s.refs[e.b];
    IdsApartKept(s, e);
    MarkMarks(s.pool, id, false, None);
    assert forall c :: Uses(s', c) ==> c != e.b && Uses(s, c) && s.refs[c] != id;
    forall c ensures Marked(s.pool, c, false) ==> HasId(s.pool, c) { MarkedOneWay(s.pool, c); }
    hide Marked, HasId, Mark, IdsApart, Uses;
  }

  lemma ExclusiveKept(s: System, e: Event)
    requires Exclusive(s) && Enabled(s, e) && !Unsafe(s, e)
    ensures Exclusive(Apply(s, e))
  {
    match e
    case AcquireStart(b) => ExclusiveStart(s, b);
    case AcquireDone(b, commit) => ExclusiveDone(s, b, commit);
    case Release(b) => ExclusiveRelease(s, e);
    case StartReleases(b) => ExclusiveRelease(s, e);
    case _ => ExclusiveRest(s, e);
  }

  lemma ExclusiveRest(s: System, e: Event)
    requires Exclusive(s) && Enabled(s, e) && (e.AcquireFails? || e.Forget? || e.StartFails?)
    ensures Exclusive(Apply(s, e))
  {
    IdsApartKept(s, e);
    hide Marked, IdsApart;
    var s' := Apply(s, e);
    assert forall c :: Uses(s', c) ==> Uses(s, c) && s'.refs[c] == s.refs[c];
  }

  /** A worktree that was given back, by its start or by a cleanup, is there for the next acquire: that takes
      a free worktree of the pool instead of creating one, and this one if it is the only free one. */
  lemma ReleasedIsReused(s: System, e: Event, b: nat)
    requires Exclusive(s) && Enabled(s, e) && (e.Release? || e.StartReleases?) && HasId(s.pool, s.refs[e.b])
    requires Enabled(Apply(s, e), AcquireStart(b))
    ensures var s' := Apply(s, e);
            var s'' := Apply(s', AcquireStart(b));
            && Marked(s'.pool, s.refs[e.b], false)
            && s''.flights[b].Preparing? && Marked(s'.pool, s''.flights[b].id, false) && s''.nextId == s.nextId
            && ((forall i :: 0 <= i < |s.pool| && s.pool[i].id != s.refs[e.b] ==> s.pool[i].inUse) ==>
                  s''.flights[b].id == s.refs[e.b])
  {
    var s', id := Apply(s, e), s.refs[e.b];
    IdsApartKept(s, e);
    MarkMarks(s.pool, id, false, None);
    var i :| 0 <= i < |s.pool| && s.pool[i].id == id;
    assert !s'.pool[i].inUse;
    var f := FirstFree(s'.pool);
    assert f <= i;
    FreeIsMarked(s'.pool, f);
  }

  /** An acquire that fails leaves the pool as it was and can be tried again; at most an id is used up. */
  lemma FailedAcquireUndone(s: System, b: nat)
    requires Enabled(s, AcquireStart(b))
    ensures var s' := Apply(s, AcquireStart(b));
            && Enabled(s', AcquireFails(b)) && Enabled(Apply(s', AcquireFails(b)), AcquireStart(b))
            && Apply(s', AcquireFails(b)).(nextId := s.nextId) == s
  {
    var s' := Apply(s, AcquireStart(b));
    assert s'.flights - {b} == s.flights;
  }

  /** Once a start has given its worktree back and cleared its reference, no cleanup gives it back again. */
  lemma ForgottenIsSafe(s: System, b: nat)
    requires Enabled(s, StartReleases(b))
    ensures var s' := Apply(s, StartReleases(b));
            && Enabled(s', Forget(b)) && !Uses(s', b)
            && !Enabled(Apply(s', Forget(b)), Release(b)) && Apply(s', Forget(b)).pool == s'.pool
  {
  }

  lemma {:induction false} ExclusiveAlongRun(s: System, es: seq<Event>)
    requires CanRun(s, es) && Exclusive(s) && Orderly(s, es)
    ensures Exclusive(Run(s, es))
    decreases |es|
  {
    hide Apply, Enabled, Exclusive, Unsafe;
    if es != [] {
      ExclusiveKept(s, es[0]);
      ExclusiveAlongRun(Apply(s, es[0]), es[1..]);
    }
  }

  /** If no acquire picks a worktree that is still being prepared, nobody gives back again what another
      uses, and no cleanup gives back what its backend's start still works in, then no worktree is used by
      two backends, in any interleaving. */
  lemma NeverHeldTwice(s: System, es: seq<Event>)
    requires CanRun(s, es) && Fresh(s) && Orderly(s, es)
    ensures HeldOnce(Run(s, es))
  {
    hide Run, CanRun, Orderly;
    ExclusiveAlongRun(s, es);
  }

  // ---------- The conditions are exact ----------

  /** From here on no worktree is used twice, as long as nothing unsafe happens. */
  ghost predicate StaysHeldOnce(s: System) {
    forall es | CanRun(s, es) && Orderly(s, es) :: HeldOnce(Run(s, es))
  }

  lemma SharedNow(s: System)
    requires !HeldOnce(s)
    ensures !StaysHeldOnce(s)
  {
    hide HeldOnce;
    assert CanRun(s, []) && Orderly(s, []) && Run(s, []) == s;
  }

  lemma SharedLater(s: System, e: Event)
    requires Enabled(s, e) && !Unsafe(s, e) && !StaysHeldOnce(Apply(s, e))
    ensures !StaysHeldOnce(s)
  {
    hide Apply, Enabled, Unsafe, HeldOnce;
    var es :| CanRun(Apply(s, e), es) && Orderly(Apply(s, e), es) && !HeldOnce(Run(Apply(s, e), es));
    assert ([e] + es)[1..] == es;
    assert CanRun(s, [e] + es) && Orderly(s, [e] + es) && Run(s, [e] + es) == Run(Apply(s, e), es);
  }

  /** Two acquires that prepare the same worktree both get it. */
  lemma OverlapShares(s: System, b: nat, c: nat)
    requires b in s.flights && c in s.flights && b != c && s.flights[b] == s.flights[c]
    ensures !StaysHeldOnce(s)
  {
    var s1 := Apply(s, AcquireDone(c, ""));
    var s2 := Apply(s1, AcquireDone(b, ""));
    assert Uses(s2, b) && Uses(s2, c) && s2.refs[b] == s2.refs[c];
    hide StaysHeldOnce, Mark;
    SharedNow(s2);
    SharedLater(s1, AcquireDone(b, ""));
    SharedLater(s, AcquireDone(c, ""));
  }

  /** Backend `c` uses the worktree at position `j`, which is marked free and which nobody prepares. */
  ghost predicate GivenAway(s: System, c: nat, j: nat) {
    && DistinctIds(s.pool) && j < |s.pool| && !s.pool[j].inUse
    && Uses(s, c) && s.refs[c] == s.pool[j].id && c !in s.flights
    && forall b :: b in s.flights ==> s.flights[b] != Preparing(s.pool[j].id)
  }

  /** An acquire that finishes takes its worktree off the free ones. */
  lemma TakenOff(s: System, b: nat, i: nat, c: nat, j: nat)
    requires GivenAway(s, c, j) && i < j && b in s.flights && s.flights[b] == Preparing(s.pool[i].id) && b != c
    requires forall k :: 0 <= k < i ==> s.pool[k].inUse
    ensures var s' := Apply(s, AcquireDone(b, ""));
            GivenAway(s', c, j) && forall k :: 0 <= k < i + 1 ==> s'.pool[k].inUse
  {
  }

  lemma StartsPreparing(s: System, b: nat, i: nat, c: nat, j: nat)
    requires GivenAway(s, c, j) && i <= j && !s.pool[i].inUse && forall k :: 0 <= k < i ==> s.pool[k].inUse
    requires b !in s.flights && b !in s.refs && forall x :: x in s.flights ==> s.flights[x] != Preparing(s.pool[i].id)
    ensures Enabled(s, AcquireStart(b)) && !Unsafe(s, AcquireStart(b))
    ensures Apply(s, AcquireStart(b)) == s.(flights := s.flights[b := Preparing(s.pool[i].id)])
    ensures i < j ==> GivenAway(Apply(s, AcquireStart(b)), c, j)
  {
    assert FirstFree(s.pool) == i;
  }

  /** Acquires that follow one another go through the free worktrees until one gets that of `c`. */
  lemma {:induction false} GivenAwayShares(s: System, c: nat, i: nat, j: nat)
    requires GivenAway(s, c, j) && i <= j && forall k :: 0 <= k < i ==> s.pool[k].inUse
    ensures !StaysHeldOnce(s)
    decreases j - i
  {
    hide StaysHeldOnce;
    if s.pool[i].inUse {
      GivenAwayShares(s, c, i + 1, j);
    } else if b :| b in s.flights && s.flights[b] == Preparing(s.pool[i].id) {
      TakenOff(s, b, i, c, j);
      GivenAwayShares(Apply(s, AcquireDone(b, "")), c, i + 1, j);
      SharedLater(s, AcquireDone(b, ""));
    } else {
      var b := FreshNumber(s.flights.Keys + s.refs.Keys);
      StartsPreparing(s, b, i, c, j);
      var s' := Apply(s, AcquireStart(b));
      if i < j {
        TakenOff(s', b, i, c, j);
        GivenAwayShares(Apply(s', AcquireDone(b, "")), c, i + 1, j);
      } else {
        assert b != c;
        var both := Apply(s', AcquireDone(b, ""));
        assert Uses(both, b) && Uses(both, c) && both.refs[b] == s.refs[c] == both.refs[c];
        SharedNow(both);
      }
      SharedLater(s', AcquireDone(b, ""));
      SharedLater(s, AcquireStart(b));
    }
  }

  /** Giving a worktree back that another backend uses, or the backend's own start, gives it away. */
  lemma ReleaseGivesAway(s: System, e: Event) returns (c: nat, j: nat)
    requires Exclusive(s) && Enabled(s, e) && (ReleasesAgain(s, e) || ReleasesEarly(s, e))
    ensures GivenAway(Apply(s, e), c, j)
  {
    if ReleasesEarly(s, e) {
      c := e.b;
    } else {
      c :| c != e.b && Uses(s, c) && s.refs[c] == s.refs[e.b];
    }
    var id := s.refs[c];
    assert HasId(s.pool, id);
    j :| 0 <= j < |s.pool| && s.pool[j].id == id;
    forall b | b in s.flights ensures s.flights[b] != Preparing(id) { FlightNotUsed(s, b, c); }
    IdsApartKept(s, e);
    hide Marked, HasId;
  }

  /** After every orderly run from a fresh pool, an event leaves worktrees exclusive, whatever may come
      after, exactly if it neither picks a worktree being prepared, nor gives back what another backend or
      the backend's own start still uses. */
  lemma SafeEventIff(s0: System, es: seq<Event>, e: Event)
    requires Fresh(s0) && CanRun(s0, es) && Orderly(s0, es) && Enabled(Run(s0, es), e)
    ensures StaysHeldOnce(Apply(Run(s0, es), e)) <==> !Unsafe(Run(s0, es), e)
  {
    hide Run, CanRun, Orderly, StaysHeldOnce, Exclusive;
    FreshExclusive(s0);
    ExclusiveAlongRun(s0, es);
    var s := Run(s0, es);
    if Overlaps(s, e) {
      var c :| c in s.flights && s.flights[c] == Preparing(s.pool[FirstFree(s.pool)].id);
      OverlapShares(Apply(s, e), e.b, c);
    } else if Unsafe(s, e) {
      var c, j := ReleaseGivesAway(s, e);
      GivenAwayShares(Apply(s, e), c, 0, j);
    } else {
      ExclusiveKept(s, e);
      ExclusiveStays(Apply(s, e));
    }
  }

  lemma FreshExclusive(s: System)
    requires Fresh(s)
    ensures Exclusive(s)
  {
  }

  lemma ExclusiveStays(s: System)
    requires Exclusive(s)
    ensures StaysHeldOnce(s)
  {
    hide Run, CanRun, Orderly, IdsApart, Marked;
    forall es | CanRun(s, es) && Orderly(s, es) ensures HeldOnce(Run(s, es)) {
      ExclusiveAlongRun(s, es);
    }
  }

  // ---------- Concrete runs ----------

  /** A run without overlapping acquires, second releases and early releases, unless they are allowed. */
  ghost predicate Keeps(s: System, es: seq<Event>, overlaps: bool, again: bool, early: bool)
    requires CanRun(s, es)
    decreases |es|
  {
    es == [] ||
    (&& (Overlaps(s, es[0]) ==> overlaps) && (ReleasesAgain(s, es[0]) ==> again) && (ReleasesEarly(s, es[0]) ==> early)
     && Keeps(Apply(s, es[0]), es[1..], overlaps, again, early))
  }

  lemma {:induction false} OrderlyMeans(s: System, es: seq<Event>)
    requires CanRun(s, es)
    ensures Orderly(s, es) <==> Keeps(s, es, false, false, false)
    decreases |es|
  {
    hide Apply, Enabled, Overlaps, ReleasesAgain, ReleasesEarly;
    if es != [] { OrderlyMeans(Apply(s, es[0]), es[1..]); }
  }

  /** The run leads to a worktree that two backends use. */
  ghost predicate Shares(s: System, es: seq<Event>, overlaps: bool, again: bool, early: bool) {
    CanRun(s, es) && Keeps(s, es, overlaps, again, early) && !HeldOnce(Run(s, es))
  }

  lemma SharesCons(s: System, e: Event, es: seq<Event>, overlaps: bool, again: bool, early: bool)
    requires Enabled(s, e) && Shares(Apply(s, e), es, overlaps, again, early)
    requires (Overlaps(s, e) ==> overlaps) && (ReleasesAgain(s, e) ==> again) && (ReleasesEarly(s, e) ==> early)
    ensures Shares(s, [e] + es, overlaps, again, early)
  {
    hide Apply, Enabled, Overlaps, ReleasesAgain, ReleasesEarly, HeldOnce;
    assert ([e] + es)[1..] == es;
  }

  /** A pool with one worktree. */
  const ONE := System([Worktree(0, false, None)], 1, map[], map[], {}, {}, {})

  /** Backend `b` acquires it undisturbed. */
  function Acquired(s: System, b: nat): System {
    s.(pool := [Worktree(0, true, Some("c"))], refs := s.refs[b := 0], holds := s.holds + {b}, working :=
        s.working + {b})
  }

  lemma SharesAcquired(s: System, b: nat, es: seq<Event>, overlaps: bool, again: bool, early: bool)
    requires s.pool == [Worktree(0, false, None)] && s.flights == map[] && b !in s.refs
    requires Shares(Acquired(s, b), es, overlaps, again, early)
    ensures Shares(s, [AcquireStart(b)] + ([AcquireDone(b, "c")] + es), overlaps, again, early)
  {
    var s' := Apply(s, AcquireStart(b));
    assert s'.flights - {b} == map[];
    assert Apply(s', AcquireDone(b, "c")).pool == Acquired(s, b).pool;
    assert Apply(s', AcquireDone(b, "c")) == Acquired(s, b);
    hide Shares;
    SharesCons(s', AcquireDone(b, "c"), es, overlaps, again, early);
    SharesCons(s, AcquireStart(b), [AcquireDone(b, "c")] + es, overlaps, again, early);
  }

  lemma SharesNow(s: System, b: nat, c: nat, overlaps: bool, again: bool, early: bool)
    requires Uses(s, b) && Uses(s, c) && b != c && s.refs[b] == s.refs[c]
    ensures Shares(s, [], overlaps, again, early)
  {
  }

  const OVERLAP_RUN := [AcquireStart(1), AcquireStart(2), AcquireDone(1, "c"), AcquireDone(2, "c")]

  /** Two acquires that overlap at the await get the same worktree. */
  lemma OverlappingAcquiresShare()
    ensures Fresh(ONE) && Shares(ONE, OVERLAP_RUN, true, false, false)
  {
    var s1 := Apply(ONE, AcquireStart(1));
    var s2 := Apply(s1, AcquireStart(2));
    var s3 := Apply(s2, AcquireDone(1, "c"));
    var s4 := Apply(s3, AcquireDone(2, "c"));
    hide Shares;
    SharesNow(s4, 1, 2, true, false, false);
    SharesCons(s3, AcquireDone(2, "c"), [], true, false, false);
    SharesCons(s2, AcquireDone(1, "c"), [AcquireDone(2, "c")] + [], true, false, false);
    SharesCons(s1, AcquireStart(2), [AcquireDone(1, "c")] + ([AcquireDone(2, "c")] + []), true, false, false);
    SharesCons(ONE, AcquireStart(1), [AcquireStart(2)] + ([AcquireDone(1, "c")] + ([AcquireDone(2, "c")] + [])), true,
        false, false);
    assert [AcquireStart(1)] + ([AcquireStart(2)] + ([AcquireDone(1, "c")] + ([AcquireDone(2, "c")] + []))) ==
           OVERLAP_RUN;
  }

  const EARLY_RUN := [AcquireStart(1), AcquireDone(1, "c"), Release(1), AcquireStart(2), AcquireDone(2, "c")]

  /** A cleanup during a backend's build gives its worktree to the next one. */
  lemma EarlyReleaseShares()
    ensures Shares(ONE, EARLY_RUN, false, false, true)
  {
    var s1 := Acquired(ONE, 1);
    var s2 := Apply(s1, Release(1));
    assert s2.pool == [Worktree(0, false, None)];
    hide Shares;
    SharesNow(Acquired(s2, 2), 1, 2, false, false, true);
    SharesAcquired(s2, 2, [], false, false, true);
    var rest := [AcquireStart(2)] + ([AcquireDone(2, "c")] + []);
    SharesCons(s1, Release(1), rest, false, false, true);
    SharesAcquired(ONE, 1, [Release(1)] + rest, false, false, true);
    assert [AcquireStart(1)] + ([AcquireDone(1, "c")] + ([Release(1)] + rest)) == EARLY_RUN;
  }

  const AGAIN_RUN :=
    [AcquireStart(1), AcquireDone(1, "c"), StartFails(1), Release(1), AcquireStart(2), AcquireDone(2, "c"),
     Release(1), AcquireStart(3), AcquireDone(3, "c")]

  /** A second cleanup gives a worktree away that another backend uses by now. */
  lemma SecondReleaseShares()
    ensures Shares(ONE, AGAIN_RUN, false, true, false)
  {
    hide Shares;
    var s1 := Acquired(ONE, 1);
    var s2 := Apply(s1, StartFails(1));
    var s3 := Apply(s2, Release(1));
    assert s3.pool == [Worktree(0, false, None)];
    var rest := [Release(1)] + ([AcquireStart(3)] + ([AcquireDone(3, "c")] + []));
    SecondRelease(Acquired(s3, 2));
    SharesAcquired(s3, 2, rest, false, true, false);
    var rest' := [AcquireStart(2)] + ([AcquireDone(2, "c")] + rest);
    SharesCons(s2, Release(1), rest', false, true, false);
    SharesCons(s1, StartFails(1), [Release(1)] + rest', false, true, false);
    SharesAcquired(ONE, 1, [StartFails(1)] + ([Release(1)] + rest'), false, true, false);
    assert [AcquireStart(1)] + ([AcquireDone(1, "c")] + ([StartFails(1)] + ([Release(1)] + rest'))) == AGAIN_RUN;
  }

  lemma SecondRelease(s: System)
    requires s.pool == [Worktree(0, true, Some("c"))] && s.flights == map[] && s.refs == map[1 := 0, 2 := 0]
    requires s.holds == {2} && s.working == {2}
    ensures Shares(s, [Release(1)] + ([AcquireStart(3)] + ([AcquireDone(3, "c")] + [])), false, true, false)
  {
    var s' := Apply(s, Release(1));
    assert s'.pool == [Worktree(0, false, None)];
    hide Shares;
    SharesNow(Acquired(s', 3), 2, 3, false, true, false);
    SharesAcquired(s', 3, [], false, true, false);
    SharesCons(s, Release(1), [AcquireStart(3)] + ([AcquireDone(3, "c")] + []), false, true, false);
  }

  lemma {:induction false} KeepsMore(s: System, es: seq<Event>, o: bool, a: bool, r: bool, o': bool, a': bool, r': bool)
    requires CanRun(s, es) && Keeps(s, es, o, a, r) && (o ==> o') && (a ==> a') && (r ==> r')
    ensures Keeps(s, es, o', a', r')
    decreases |es|
  {
    hide Apply, Enabled, Overlaps, ReleasesAgain, ReleasesEarly;
    if es != [] { KeepsMore(Apply(s, es[0]), es[1..], o, a, r, o', a', r'); }
  }

  /** Worktrees are exclusive in all runs exactly when acquires do not overlap at the await, nobody gives
      back again what another uses, and no cleanup gives back what its backend's start still works in:
      with any one of them allowed, some run puts two backends into one worktree. */
  lemma ExclusiveIff(overlaps: bool, again: bool, early: bool)
    ensures (forall s, es | Fresh(s) && CanRun(s, es) && Keeps(s, es, overlaps, again, early) :: HeldOnce(Run(s, es)))
            <==> !overlaps && !again && !early
  {
    hide Fresh, CanRun, Run, Keeps, HeldOnce;
    OverlappingAcquiresShare();
    EarlyReleaseShares();
    SecondReleaseShares();
    if overlaps {
      KeepsMore(ONE, OVERLAP_RUN, true, false, false, overlaps, again, early);
    } else if again {
      KeepsMore(ONE, AGAIN_RUN, false, true, false, overlaps, again, early);
    } else if early {
      KeepsMore(ONE, EARLY_RUN, false, false, true, overlaps, again, early);
    } else {
      forall s, es | Fresh(s) && CanRun(s, es) && Keeps(s, es, false, false, false) ensures HeldOnce(Run(s, es)) {
        OrderlyMeans(s, es);
        NeverHeldTwice(s, es);
      }
    }
  }
}
