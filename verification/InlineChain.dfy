/** Concurrent `step()` calls: bodies run in parallel, their checkpoint requests are chained.

    Each request makes the server read the whole checkpoint, add one entry and write the whole
    checkpoint back, in a transaction that locks the row only if the row already exists.
 */
module InlineChain {
  import opened Basics
  import opened Steps

  datatype LinkState = Waiting | InFlight | Acked | GaveUp

  /** One `_inlineChain.then(...)`: the step it posts and the tail it was attached to. */
  datatype Link = Link(key: string, result: Value, after: Option<nat>, state: LinkState)

  datatype System = System(
    links: seq<Link>,
    tail: Option<nat>,                 // `_inlineChain`: the last link, None for the resolved promise
    arriving: set<nat>,                // requests sent whose handler has not started
    open: map<nat, Checkpoint>,        // running handlers and the checkpoint each has read
    lock: Option<nat>,                 // handler that holds the row lock
    row: Option<Checkpoint>,           // the stored checkpoint, None while there is no row
    committed: set<nat>)               // requests whose transaction committed

  datatype Event =
    | BodyReturns(key: string, result: Value)
    | Send(k: nat)
    | Lose(k: nat)          // the request never reaches a handler
    | Begin(k: nat)
    | Commit(k: nat)
    | Rollback(k: nat)
    | Ack(k: nat)
    | Fail(k: nat)          // error response, network failure, or the 10 s abort

  function Start(row: Option<Checkpoint>): System {
    System([], None, {}, map[], None, row, {})
  }

  predicate Settled(l: Link) { l.state.Acked? || l.state.GaveUp? }

  predicate Enabled(s: System, e: Event) {
    match e
    case BodyReturns(_, _) => true
    case Send(k) =>
      k < |s.links| && s.links[k].state.Waiting? &&
      (s.links[k].after.None? || (s.links[k].after.value < |s.links| && Settled(s.links[s.links[k].after.value])))
    case Lose(k) => k in s.arriving
    case Begin(k) => k in s.arriving && (s.row.Some? ==> s.lock.None?)
    case Commit(k) => k in s.open && k < |s.links| && (s.lock.None? || s.lock == Some(k))
    case Rollback(k) => k in s.open
    case Ack(k) => k < |s.links| && s.links[k].state.InFlight? && k in s.committed
    case Fail(k) => k < |s.links| && s.links[k].state.InFlight?
  }

  function Unlock(s: System, k: nat): Option<nat> {
    if s.lock == Some(k) then None else s.lock
  }

  function Apply(s: System, e: Event): System
    requires Enabled(s, e)
  {
    match e
    case BodyReturns(key, result) =>
      s.(links := s.links + [Link(key, result, s.tail, Waiting)], tail := Some(|s.links|))
    case Send(k) =>
      // a body without a `result` member is refused before the handler starts
      s.(links := s.links[k := s.links[k].(state := InFlight)],
         arriving := if s.links[k].result.Undefined? then s.arriving else s.arriving + {k})
    case Lose(k) => s.(arriving := s.arriving - {k})
    case Begin(k) =>
      if s.row.Some? then s.(arriving := s.arriving - {k}, open := s.open[k := s.row.value], lock := Some(k))
      else s.(arriving := s.arriving - {k}, open := s.open[k := map[]])
    case Commit(k) =>
      s.(row := Some(s.open[k][s.links[k].key := s.links[k].result]), open := s.open - {k},
         lock := Unlock(s, k), committed := s.committed + {k})
    case Rollback(k) => s.(open := s.open - {k}, lock := Unlock(s, k))
    case Ack(k) => s.(links := s.links[k := s.links[k].(state := Acked)])
    case Fail(k) => s.(links := s.links[k := s.links[k].(state := GaveUp)])
  }

  ghost predicate CanRun(s: System, es: seq<Event>)
    decreases |es|
  {
    es == [] || (Enabled(s, es[0]) && CanRun(Apply(s, es[0]), es[1..]))
  }

  ghost function Run(s: System, es: seq<Event>): System
    requires CanRun(s, es)
    decreases |es|
  {
    if es == [] then s else Run(Apply(s, es[0]), es[1..])
  }

  /** While there is no row, no request is given up that its handler may still write. */
  ghost predicate CleanFail(s: System, e: Event)
    requires Enabled(s, e)
  {
    e.Fail? && s.row.None? ==> e.k !in s.arriving && e.k !in s.open
  }

  ghost predicate CleanRun(s: System, es: seq<Event>)
    requires CanRun(s, es)
    decreases |es|
  {
    es == [] || (CleanFail(s, es[0]) && CleanRun(Apply(s, es[0]), es[1..]))
  }

  // ---------- The chain ----------

  /** Links are settled up to some point, then at most one is in flight, and the rest wait. */
  ghost predicate Chained(s: System, p: nat) {
    && p <= |s.links|
    && s.tail == (if s.links == [] then None else Some(|s.links| - 1))
    && (forall k :: 0 <= k < |s.links| ==> s.links[k].after == if k == 0 then None else Some(k - 1))
    && (forall k :: 0 <= k < p ==> Settled(s.links[k]))
    && (forall k :: p < k < |s.links| ==> s.links[k].state.Waiting?)
    && (p < |s.links| ==> !Settled(s.links[p]))
  }

  /** Only the current link, or a link whose request was given up, can have a request at the server. */
  ghost predicate Requests(s: System) {
    && (forall k :: k in s.arriving ==> k < |s.links| && !s.links[k].state.Waiting?)
    && (forall k :: k in s.open ==> k < |s.links| && !s.links[k].state.Waiting? && k !in s.arriving)
    && (forall k :: k in s.committed ==>
          k < |s.links| && !s.links[k].state.Waiting? && k !in s.arriving && k !in s.open)
    && (s.lock.Some? ==> s.lock.value in s.open)
  }

  function NextPoint(e: Event, p: nat): nat {
    if e.Ack? || e.Fail? then p + 1 else p
  }

  /** Only the current link can be sent or settled. */
  lemma CurrentLink(s: System, e: Event, p: nat)
    requires Chained(s, p) && Enabled(s, e)
    ensures (e.Send? || e.Ack? || e.Fail?) ==> e.k == p
  {
    if e.Send? {
      assert e.k <= p;
    }
  }

  lemma ChainedKept(s: System, e: Event, p: nat)
    requires Chained(s, p) && Enabled(s, e)
    ensures Chained(Apply(s, e), NextPoint(e, p))
    ensures (e.Send? || e.Ack? || e.Fail?) ==> e.k == p
  {
    CurrentLink(s, e, p);
    match e
    case BodyReturns(key, result) => ChainGrows(s, p, Link(key, result, s.tail, Waiting));
    case Send(_) => LinkMoves(s, p, InFlight);
    case Ack(_) => LinkMoves(s, p, Acked);
    case Fail(_) => LinkMoves(s, p, GaveUp);
    case _ =>
      assert Apply(s, e).links == s.links && Apply(s, e).tail == s.tail;
  }

  lemma ChainGrows(s: System, p: nat, l: Link)
    requires Chained(s, p) && l.after == s.tail && l.state.Waiting?
    ensures Chained(s.(links := s.links + [l], tail := Some(|s.links|)), p)
  {
  }

  lemma LinkMoves(s: System, p: nat, state: LinkState)
    requires Chained(s, p) && p < |s.links| && !state.Waiting?
    ensures forall t: System :: t.links == s.links[p := s.links[p].(state := state)] && t.tail == s.tail ==>
              Chained(t, if state.InFlight? then p else p + 1)
  {
  }

  lemma RequestsKept(s: System, e: Event, p: nat)
    requires Chained(s, p) && Requests(s) && Enabled(s, e)
    ensures Requests(Apply(s, e))
  {
    hide Chained;
    match e
    case BodyReturns(_, _) => assert Requests(Apply(s, e));
    case Send(_) => assert Requests(Apply(s, e));
    case Begin(_) => assert Requests(Apply(s, e));
    case Commit(_) => assert Requests(Apply(s, e));
    case Rollback(_) => assert Requests(Apply(s, e));
    case _ => assert Requests(Apply(s, e));
  }

  lemma {:induction false} ChainInvariant(s: System, es: seq<Event>, p: nat) returns (p': nat)
    requires Chained(s, p) && Requests(s) && CanRun(s, es)
    ensures Chained(Run(s, es), p') && Requests(Run(s, es))
    decreases |es|
  {
    hide Chained, Requests, Apply, Enabled;
    p' := p;
    if es != [] {
      ChainedKept(s, es[0], p);
      RequestsKept(s, es[0], p);
      p' := ChainInvariant(Apply(s, es[0]), es[1..], NextPoint(es[0], p));
    }
  }

  /** However the calls interleave and whatever fails, at most one request is in flight, a failed
      request does not hold up later ones, and requests settle in the order the bodies returned. */
  lemma OneRequestInFlight(row: Option<Checkpoint>, es: seq<Event>)
    requires CanRun(Start(row), es)
    ensures var s := Run(Start(row), es);
            && (forall j, k :: 0 <= j < k < |s.links| ==> !(s.links[j].state.InFlight? && s.links[k].state.InFlight?))
            && (forall j, k :: 0 <= j < k < |s.links| && !s.links[k].state.Waiting? ==> Settled(s.links[j]))
            && ((exists k :: 0 <= k < |s.links| && s.links[k].state.Waiting?) ==>
                  || (exists k :: 0 <= k < |s.links| && s.links[k].state.InFlight?)
                  || (exists k :: 0 <= k < |s.links| && Enabled(s, Send(k))))
  {
    hide Run, CanRun;
    var p := ChainInvariant(Start(row), es, 0);
    var s := Run(Start(row), es);
    if k :| 0 <= k < |s.links| && s.links[k].state.Waiting? {
      assert p < |s.links|;
      assert s.links[p].state.InFlight? || Enabled(s, Send(p));
    }
  }

  /** A handler that commits or rolls back lets the next one begin; one that rolls back leaves no trace. */
  lemma HandlerLeaves(s: System, e: Event)
    requires Requests(s) && Enabled(s, e) && (e.Commit? || e.Rollback?) && (s.lock.None? || s.lock == Some(e.k))
    ensures var s' := Apply(s, e);
            && e.k !in s'.open && s'.lock.None? && (forall j :: j in s.arriving ==> Enabled(s', Begin(j)))
            && (forall j :: j in s.open && j != e.k ==> j in s'.open && s'.open[j] == s.open[j])
            && (e.Rollback? ==> s'.row == s.row && s'.committed == s.committed && s'.links == s.links)
  {
  }

  // ---------- The checkpoint ----------

  /** Every entry of `a` is in `b` with the same value. */
  ghost predicate Keeps(a: Checkpoint, b: Checkpoint) {
    forall key :: key in a ==> key in b && b[key] == a[key]
  }

  ghost predicate DistinctKeys(s: System) {
    forall j, k :: 0 <= j < k < |s.links| ==> s.links[j].key != s.links[k].key
  }

  /** The stored checkpoint holds the result of every committed request and all it began with. */
  ghost predicate HoldsCommitted(row0: Option<Checkpoint>, s: System) {
    && (row0.Some? || s.committed != {} ==> s.row.Some?)
    && (s.row.Some? ==>
          && (row0.Some? ==> Keeps(row0.value, s.row.value))
          && (forall k :: k in s.committed && k < |s.links| ==>
                s.links[k].key in s.row.value && s.row.value[s.links[k].key] == s.links[k].result))
  }

  /** A handler that can write holds the lock and has read the current row, or else it is alone and
      there is no row yet. */
  ghost predicate UpToDate(s: System, p: nat) {
    forall k :: k in s.open ==>
      || (s.lock == Some(k) && s.row == Some(s.open[k]))
      || (s.row.None? && s.open[k] == map[] && s.lock.None? && k == p)
  }

  /** While there is no row, no request of a settled link is left at the server. */
  ghost predicate NoLeftovers(s: System, p: nat) {
    s.row.None? ==> forall k :: k in s.arriving || k in s.open ==> k == p
  }

  ghost predicate Sound(row0: Option<Checkpoint>, s: System, p: nat) {
    Chained(s, p) && Requests(s) && HoldsCommitted(row0, s) && UpToDate(s, p) && NoLeftovers(s, p)
  }

  /** Keys of new steps differ from the keys in use, and from what the row began with. */
  ghost predicate FreshKey(row0: Option<Checkpoint>, s: System, e: Event) {
    e.BodyReturns? ==>
      && (forall k :: 0 <= k < |s.links| ==> s.links[k].key != e.key)
      && (row0.Some? ==> e.key !in row0.value)
  }

  ghost predicate KeysApart(row0: Option<Checkpoint>, s: System) {
    DistinctKeys(s) && (row0.Some? ==> forall k :: 0 <= k < |s.links| ==> s.links[k].key !in row0.value)
  }

  lemma SoundKept(row0: Option<Checkpoint>, s: System, e: Event, p: nat)
    requires Sound(row0, s, p) && KeysApart(row0, s) && Enabled(s, e) && FreshKey(row0, s, e)
    requires CleanFail(s, e)
    ensures Sound(row0, Apply(s, e), NextPoint(e, p)) && KeysApart(row0, Apply(s, e))
  {
    ChainedKept(s, e, p);
    RequestsKept(s, e, p);
    StoredKept(row0, s, e, p);
    FreshnessKept(row0, s, e, p);
    KeysApartKept(row0, s, e);
  }

  lemma KeysApartKept(row0: Option<Checkpoint>, s: System, e: Event)
    requires KeysApart(row0, s) && Enabled(s, e) && FreshKey(row0, s, e)
    ensures KeysApart(row0, Apply(s, e))
  {
  }

  lemma StoredKept(row0: Option<Checkpoint>, s: System, e: Event, p: nat)
    requires Requests(s) && HoldsCommitted(row0, s) && UpToDate(s, p) && KeysApart(row0, s) && Enabled(s, e)
    ensures HoldsCommitted(row0, Apply(s, e))
  {
    if e.Commit? { CommitStored(row0, s, e.k, p); }
  }

  lemma CommitStored(row0: Option<Checkpoint>, s: System, k: nat, p: nat)
    requires Requests(s) && HoldsCommitted(row0, s) && UpToDate(s, p) && KeysApart(row0, s) && Enabled(s, Commit(k))
    ensures HoldsCommitted(row0, Apply(s, Commit(k)))
  {
  }

  lemma FreshnessKept(row0: Option<Checkpoint>, s: System, e: Event, p: nat)
    requires Chained(s, p) && Requests(s) && HoldsCommitted(row0, s) && UpToDate(s, p) && NoLeftovers(s, p)
    requires Enabled(s, e)
    requires CleanFail(s, e)
    ensures UpToDate(Apply(s, e), NextPoint(e, p)) && NoLeftovers(Apply(s, e), NextPoint(e, p))
  {
    ChainedKept(s, e, p);
    hide Chained;
  }

  /** Every step event of the run uses a key of its own. */
  ghost predicate FreshKeys(row0: Option<Checkpoint>, s: System, es: seq<Event>)
    requires CanRun(s, es)
    decreases |es|
  {
    es == [] || (FreshKey(row0, s, es[0]) && FreshKeys(row0, Apply(s, es[0]), es[1..]))
  }

  lemma {:induction false} SoundInvariant(row0: Option<Checkpoint>, s: System, es: seq<Event>, p: nat) returns (p': nat)
    requires Sound(row0, s, p) && KeysApart(row0, s) && CanRun(s, es) && FreshKeys(row0, s, es)
    requires CleanRun(s, es)
    ensures Sound(row0, Run(s, es), p') && KeysApart(row0, Run(s, es))
    decreases |es|
  {
    hide Sound, KeysApart, Apply, Enabled, FreshKey, CleanFail;
    p' := p;
    if es != [] {
      SoundKept(row0, s, es[0], p);
      p' := SoundInvariant(row0, Apply(s, es[0]), es[1..], NextPoint(es[0], p));
    }
  }

  /** What a caller of `step()` is told: the result once it is acknowledged, or a suspension that
      carries the same key and result, as JSON. */
  function Told(l: Link): Option<Answer> {
    match l.state
    case Acked => Some(Gets(l.result))
    case GaveUp => Some(MustSuspend(SaveInline(l.key, Stored(l.result))))
    case _ => None
  }

  datatype Answer = Gets(value: Value) | MustSuspend(d: Dispatch)

  /** The steps whose bodies returned, in order. */
  function Posted(es: seq<Event>): seq<(string, Value)> {
    if es == [] then [] else (if es[0].BodyReturns? then [(es[0].key, es[0].result)] else []) + Posted(es[1..])
  }

  function StepsOf(s: System): seq<(string, Value)> {
    seq(|s.links|, k requires 0 <= k < |s.links| => (s.links[k].key, s.links[k].result))
  }

  lemma StepsKept(s: System, e: Event)
    requires Enabled(s, e)
    ensures StepsOf(Apply(s, e)) == StepsOf(s) + if e.BodyReturns? then [(e.key, e.result)] else []
  {
  }

  lemma {:induction false} StepsAlongRun(s: System, es: seq<Event>)
    requires CanRun(s, es)
    ensures StepsOf(Run(s, es)) == StepsOf(s) + Posted(es)
    decreases |es|
  {
    hide Apply, Enabled, StepsOf;
    if es == [] {
      assert StepsOf(s) + [] == StepsOf(s);
    } else {
      StepsKept(s, es[0]);
      StepsAlongRun(Apply(s, es[0]), es[1..]);
      var now := if es[0].BodyReturns? then [(es[0].key, es[0].result)] else [];
      assert (StepsOf(s) + now) + Posted(es[1..]) == StepsOf(s) + (now + Posted(es[1..]));
    }
  }

  /** A request without a result never gets to a handler. */
  ghost predicate UndefinedRefused(s: System) {
    forall k :: k in s.arriving || k in s.open || k in s.committed ==> k < |s.links| && !s.links[k].result.Undefined?
  }

  lemma UndefinedRefusedKept(s: System, e: Event)
    requires Enabled(s, e) && UndefinedRefused(s)
    ensures UndefinedRefused(Apply(s, e))
  {
  }

  lemma {:induction false} UndefinedRefusedAlong(s: System, es: seq<Event>)
    requires CanRun(s, es) && UndefinedRefused(s)
    ensures UndefinedRefused(Run(s, es))
    decreases |es|
  {
    hide Apply, Enabled, UndefinedRefused;
    if es != [] {
      UndefinedRefusedKept(s, es[0]);
      UndefinedRefusedAlong(Apply(s, es[0]), es[1..]);
    }
  }

  /** The caller of this step is told nothing before its request settled; then it gets its own result if the
      request was acknowledged, which an undefined result never is, and otherwise suspends with its own key
      and result, `undefined` as `null`. */
  predicate ToldOwn(l: Link, key: string, result: Value) {
    && (Told(l) == None <==> !Settled(l))
    && (l.state.Acked? ==> Told(l) == Some(Gets(result)) && !result.Undefined?)
    && (l.state.GaveUp? ==> Told(l) == Some(MustSuspend(SaveInline(key, if result.Undefined? then Null else result))))
  }

  /** In every run, the k-th body to return belongs to the k-th request, and its caller is told its own. */
  lemma CallersToldTheirOwn(row: Option<Checkpoint>, es: seq<Event>)
    requires CanRun(Start(row), es)
    ensures var s := Run(Start(row), es);
            && |s.links| == |Posted(es)|
            && forall k :: 0 <= k < |s.links| ==> ToldOwn(s.links[k], Posted(es)[k].0, Posted(es)[k].1)
  {
    hide Run, CanRun, Posted, ToldOwn, StepsOf, UndefinedRefused, AckedAreCommitted;
    var s := Run(Start(row), es);
    StartEmpty(row);
    StepsAlongRun(Start(row), es);
    UndefinedRefusedAlong(Start(row), es);
    AckedCommitted(Start(row), es);
    assert [] + Posted(es) == Posted(es);
    LinksAre(s);
    forall k | 0 <= k < |s.links| ensures ToldOwn(s.links[k], Posted(es)[k].0, Posted(es)[k].1) {
      LinkToldOwn(s, k);
    }
  }

  lemma StartEmpty(row: Option<Checkpoint>)
    ensures StepsOf(Start(row)) == [] && UndefinedRefused(Start(row)) && AckedAreCommitted(Start(row))
  {
  }

  lemma LinksAre(s: System)
    ensures |StepsOf(s)| == |s.links|
    ensures forall k :: 0 <= k < |s.links| ==> StepsOf(s)[k] == (s.links[k].key, s.links[k].result)
  {
  }

  lemma LinkToldOwn(s: System, k: nat)
    requires k < |s.links| && UndefinedRefused(s) && AckedAreCommitted(s)
    ensures ToldOwn(s.links[k], s.links[k].key, s.links[k].result)
  {
  }

  /** The checkpoint has the result of every step whose caller was given it, and what it began with. */
  ghost predicate NothingLost(row0: Option<Checkpoint>, s: System) {
    && (row0.Some? ==> s.row.Some? && Keeps(row0.value, s.row.value))
    && forall k :: 0 <= k < |s.links| ==>
         match Told(s.links[k])
         case Some(Gets(v)) => s.row.Some? && s.links[k].key in s.row.value && s.row.value[s.links[k].key] == v
         case _ => true
  }

  ghost predicate AckedAreCommitted(s: System) {
    forall k :: 0 <= k < |s.links| && s.links[k].state.Acked? ==> k in s.committed
  }

  /** Nothing is lost from here on, as long as no request is given up in the way of CleanFail. */
  ghost predicate LosesNothing(row0: Option<Checkpoint>, s: System) {
    forall es | CanRun(s, es) && FreshKeys(row0, s, es) && CleanRun(s, es) :: NothingLost(row0, Run(s, es))
  }

  lemma SoundLosesNothing(row0: Option<Checkpoint>, s: System, p: nat)
    requires Sound(row0, s, p) && KeysApart(row0, s) && AckedAreCommitted(s)
    ensures LosesNothing(row0, s)
  {
    hide Run, CanRun, FreshKeys, CleanRun, KeysApart, NothingLost, Sound, AckedAreCommitted;
    forall es | CanRun(s, es) && FreshKeys(row0, s, es) && CleanRun(s, es) ensures NothingLost(row0, Run(s, es)) {
      var p' := SoundInvariant(row0, s, es, p);
      AckedCommitted(s, es);
      SoundMeans(row0, Run(s, es), p');
    }
  }

  lemma SoundMeans(row0: Option<Checkpoint>, s: System, p: nat)
    requires Sound(row0, s, p) && AckedAreCommitted(s)
    ensures NothingLost(row0, s)
  {
    hide Chained, Requests, UpToDate, NoLeftovers;
  }

  /** No acknowledged result is ever lost, in any interleaving, if no request is given up, while there
      is no row, whose handler may still write. */
  lemma AcknowledgedSurvives(row0: Option<Checkpoint>, es: seq<Event>)
    requires CanRun(Start(row0), es) && FreshKeys(row0, Start(row0), es) && CleanRun(Start(row0), es)
    ensures NothingLost(row0, Run(Start(row0), es))
  {
    hide Run, CanRun, FreshKeys, CleanRun, NothingLost;
    SoundLosesNothing(row0, Start(row0), 0);
  }

  /** A row that is there at the start stays, so the condition is met by every run. */
  lemma {:induction false} RowMakesClean(s: System, es: seq<Event>)
    requires CanRun(s, es) && s.row.Some?
    ensures CleanRun(s, es)
    decreases |es|
  {
    if es != [] {
      RowStays(s, es[0]);
      hide Apply, Enabled;
      RowMakesClean(Apply(s, es[0]), es[1..]);
    }
  }

  lemma RowStays(s: System, e: Event)
    requires Enabled(s, e) && s.row.Some?
    ensures Apply(s, e).row.Some? && CleanFail(s, e)
  {
  }

  // ---------- The condition is exact ----------

  lemma LossNow(row0: Option<Checkpoint>, s: System)
    requires !NothingLost(row0, s)
    ensures !LosesNothing(row0, s)
  {
    hide NothingLost;
    assert CanRun(s, []) && FreshKeys(row0, s, []) && CleanRun(s, []) && Run(s, []) == s;
  }

  lemma LossLater(row0: Option<Checkpoint>, s: System, e: Event)
    requires Enabled(s, e) && FreshKey(row0, s, e) && CleanFail(s, e) && !LosesNothing(row0, Apply(s, e))
    ensures !LosesNothing(row0, s)
  {
    hide Apply, Enabled, FreshKey, CleanFail, NothingLost;
    var s' := Apply(s, e);
    var es :| CanRun(s', es) && FreshKeys(row0, s', es) && CleanRun(s', es) && !NothingLost(row0, Run(s', es));
    assert ([e] + es)[1..] == es;
    assert CanRun(s, [e] + es) && FreshKeys(row0, s, [e] + es) && CleanRun(s, [e] + es) &&
           Run(s, [e] + es) == Run(s', es);
  }

  /** There is no row, the links before `p` are settled, the others wait, and the request of `k`, which
      was given up, is at a handler that has read the missing row. */
  ghost predicate Doomed(s: System, k: nat, p: nat) {
    && Chained(s, p) && Requests(s) && DistinctKeys(s)
    && s.row.None? && s.lock.None? && k < p && k in s.open && s.open[k] == map[]
    && (p < |s.links| ==> s.links[p].state.Waiting?)
  }

  /** A waiting request that is lost and given up changes nothing. */
  lemma SkipLink(s: System, k: nat, p: nat)
    requires Doomed(s, k, p) && p < |s.links| && !LosesNothing(None, Skipped(s, p))
    ensures !LosesNothing(None, s)
  {
    var s1 := Apply(s, Send(p));
    var s2 := s1.(arriving := s.arriving);
    assert s.arriving + {p} - {p} == s.arriving;
    assert Apply(s2, Fail(p)) == Skipped(s, p) by {
      assert s1.links[p := s1.links[p].(state := GaveUp)] == s.links[p := s.links[p].(state := GaveUp)];
    }
    hide LosesNothing;
    LossLater(None, s2, Fail(p));
    if p in s1.arriving { LossLater(None, s1, Lose(p)); }
    LossLater(None, s, Send(p));
  }

  function Skipped(s: System, p: nat): System
    requires p < |s.links|
  {
    s.(links := s.links[p := s.links[p].(state := GaveUp)])
  }

  lemma SkippedDoomed(s: System, k: nat, p: nat)
    requires Doomed(s, k, p) && p < |s.links|
    ensures Doomed(Skipped(s, p), k, p + 1)
  {
  }

  lemma {:induction false} DoomedLoses(s: System, k: nat, p: nat)
    requires Doomed(s, k, p)
    ensures !LosesNothing(None, s)
    decreases |s.links| - p
  {
    if p < |s.links| {
      SkippedDoomed(s, k, p);
      hide Doomed, LosesNothing;
      DoomedLoses(Skipped(s, p), k, p + 1);
      SkipLink(s, k, p);
    } else {
      var key := FreshName(set i | 0 <= i < |s.links| :: s.links[i].key);
      assert forall i :: 0 <= i < |s.links| ==> s.links[i].key != key;
      hide LosesNothing;
      LastLoses(s, k, key);
    }
  }

  /** A handler that has read the missing row overwrites a result that was acknowledged since. */
  lemma OverwriteLoses(s: System, k: nat, q: nat)
    requires s.lock.None? && k in s.open && s.open[k] == map[] && k < |s.links|
    requires q < |s.links| && s.links[q].state.Acked? && s.links[q].key != s.links[k].key
    ensures !LosesNothing(None, s)
  {
    var s' := Apply(s, Commit(k));
    assert Told(s'.links[q]) == Some(Gets(s.links[q].result)) && s.links[q].key !in s'.row.value;
    hide LosesNothing;
    LossNow(None, s');
    LossLater(None, s, Commit(k));
  }

  lemma CommitLoses(s: System, k: nat, q: nat)
    requires s.row.None? && s.lock.None? && k in s.open && s.open[k] == map[] && k < |s.links|
    requires q < |s.links| && q != k && s.links[q].state.InFlight? && s.links[q].key != s.links[k].key &&
             q in s.arriving
    ensures !LosesNothing(None, s)
  {
    var s1 := Apply(s, Begin(q));
    var s2 := Apply(s1, Commit(q));
    var s3 := Apply(s2, Ack(q));
    hide LosesNothing, NothingLost;
    OverwriteLoses(s3, k, q);
    LossLater(None, s2, Ack(q));
    LossLater(None, s1, Commit(q));
    LossLater(None, s, Begin(q));
  }

  /** One more step: its result is acknowledged, and then overwritten. */
  lemma LastLoses(s: System, k: nat, key: string)
    requires Doomed(s, k, |s.links|) && forall i :: 0 <= i < |s.links| ==> s.links[i].key != key
    ensures !LosesNothing(None, s)
  {
    hide LosesNothing, NothingLost, Requests;
    var q := |s.links|;
    var s1 := Apply(s, BodyReturns(key, Null));
    assert Enabled(s1, Send(q));
    var s2 := Apply(s1, Send(q));
    CommitLoses(s2, k, q);
    LossLater(None, s1, Send(q));
    LossLater(None, s, BodyReturns(key, Null));
  }

  /** After every run that kept to it, an event leaves all results safe, whatever may come after,
      exactly if it is not a request given up while there is no row and a handler may still write. */
  lemma SafeEventIff(row0: Option<Checkpoint>, es: seq<Event>, e: Event)
    requires CanRun(Start(row0), es) && FreshKeys(row0, Start(row0), es) && CleanRun(Start(row0), es)
    requires Enabled(Run(Start(row0), es), e) && FreshKey(row0, Run(Start(row0), es), e)
    ensures LosesNothing(row0, Apply(Run(Start(row0), es), e)) <==> CleanFail(Run(Start(row0), es), e)
  {
    hide CanRun, FreshKeys, CleanRun, Run, LosesNothing, Enabled, Apply, CleanFail;
    var p := SoundInvariant(row0, Start(row0), es, 0);
    AckedCommitted(Start(row0), es);
    SoundEventIff(row0, Run(Start(row0), es), e, p);
  }

  lemma SoundEventIff(row0: Option<Checkpoint>, s: System, e: Event, p: nat)
    requires Sound(row0, s, p) && KeysApart(row0, s) && AckedAreCommitted(s)
    requires Enabled(s, e) && FreshKey(row0, s, e)
    ensures LosesNothing(row0, Apply(s, e)) <==> CleanFail(s, e)
  {
    hide LosesNothing, Sound, KeysApart, AckedAreCommitted, FreshKey, Apply;
    if CleanFail(s, e) {
      SoundKept(row0, s, e, p);
      AckedCommittedStep(s, e);
      SoundLosesNothing(row0, Apply(s, e), NextPoint(e, p));
    } else {
      GivenUpLoses(row0, s, e.k, p);
    }
  }

  lemma GivenUpLoses(row0: Option<Checkpoint>, s: System, k: nat, p: nat)
    requires Sound(row0, s, p) && KeysApart(row0, s) && Enabled(s, Fail(k)) && !CleanFail(s, Fail(k))
    ensures !LosesNothing(row0, Apply(s, Fail(k)))
  {
    hide LosesNothing, Chained, Requests;
    var s' := Apply(s, Fail(k));
    NoLock(s, p);
    if k in s.open {
      GivenUpDoomed(s, k, p);
      DoomedLoses(s', k, p + 1);
    } else {
      BeginDoomed(s, k, p);
      DoomedLoses(Apply(s', Begin(k)), k, p + 1);
      LossLater(None, s', Begin(k));
    }
  }

  lemma NoLock(s: System, p: nat)
    requires Requests(s) && UpToDate(s, p) && s.row.None?
    ensures s.lock.None?
  {
  }

  lemma GivenUpDoomed(s: System, k: nat, p: nat)
    requires Chained(s, p) && Requests(s) && DistinctKeys(s) && Enabled(s, Fail(k))
    requires s.row.None? && s.lock.None? && k in s.open && s.open[k] == map[]
    ensures Doomed(Apply(s, Fail(k)), k, p + 1)
  {
    ChainedKept(s, Fail(k), p);
    RequestsKept(s, Fail(k), p);
    NextWaits(s, p);
    hide Chained, Requests;
  }

  lemma NextWaits(s: System, p: nat)
    requires Chained(s, p)
    ensures p + 1 < |s.links| ==> s.links[p + 1].state.Waiting?
  {
  }

  lemma BeginDoomed(s: System, k: nat, p: nat)
    requires Chained(s, p) && Requests(s) && DistinctKeys(s) && Enabled(s, Fail(k))
    requires s.row.None? && s.lock.None? && k in s.arriving
    ensures Enabled(Apply(s, Fail(k)), Begin(k)) && Doomed(Apply(Apply(s, Fail(k)), Begin(k)), k, p + 1)
  {
    var s' := Apply(s, Fail(k));
    ChainedKept(s, Fail(k), p);
    RequestsKept(s, Fail(k), p);
    ChainedKept(s', Begin(k), p + 1);
    RequestsKept(s', Begin(k), p + 1);
    NextWaits(s, p);
    hide Chained, Requests;
  }

  function LossyRun(): seq<Event> {
    [BodyReturns("a", Null), BodyReturns("b", Null), Send(0), Begin(0), Fail(0),
     Send(1), Begin(1), Commit(1), Ack(1), Commit(0)]
  }

  /** The states of LossyRun. */
  function LossyState(i: nat): System {
    var a, b := i2 => Link("a", Null, None, i2), i2 => Link("b", Null, Some(0), i2);
    if i == 0 then Start(None)
    else if i == 1 then System([a(Waiting)], Some(0), {}, map[], None, None, {})
    else if i == 2 then System([a(Waiting), b(Waiting)], Some(1), {}, map[], None, None, {})
    else if i == 3 then System([a(InFlight), b(Waiting)], Some(1), {0}, map[], None, None, {})
    else if i == 4 then System([a(InFlight), b(Waiting)], Some(1), {}, map[0 := map[]], None, None, {})
    else if i == 5 then System([a(GaveUp), b(Waiting)], Some(1), {}, map[0 := map[]], None, None, {})
    else if i == 6 then System([a(GaveUp), b(InFlight)], Some(1), {1}, map[0 := map[]], None, None, {})
    else if i == 7 then System([a(GaveUp), b(InFlight)], Some(1), {}, map[0 := map[], 1 := map[]], None, None, {})
    else if i == 8 then
      System([a(GaveUp), b(InFlight)], Some(1), {}, map[0 := map[]], None, Some(map["b" := Null]), {1})
    else if i == 9 then System([a(GaveUp), b(Acked)], Some(1), {}, map[0 := map[]], None, Some(map["b" := Null]), {1})
    else System([a(GaveUp), b(Acked)], Some(1), {}, map[], None, Some(map["a" := Null]), {0, 1})
  }

  lemma LossyStep(i: nat)
    requires i < 10
    ensures Enabled(LossyState(i), LossyRun()[i]) && FreshKey(None, LossyState(i), LossyRun()[i])
    ensures Apply(LossyState(i), LossyRun()[i]) == LossyState(i + 1)
    ensures i == 4 ==> !CleanFail(LossyState(i), LossyRun()[i])
  {
    hide LossyState, LossyRun, Enabled, Apply, FreshKey, CleanFail;
    if i < 5 { LossyFirstHalf(i); } else { LossySecondHalf(i); }
  }

  lemma LossyFirstHalf(i: nat)
    requires i < 5
    ensures Enabled(LossyState(i), LossyRun()[i]) && FreshKey(None, LossyState(i), LossyRun()[i])
    ensures Apply(LossyState(i), LossyRun()[i]) == LossyState(i + 1)
    ensures i == 4 ==> !CleanFail(LossyState(i), LossyRun()[i])
  {
    var s, s' := Apply(LossyState(i), LossyRun()[i]), LossyState(i + 1);
    assert s.links == s'.links;
    assert s.open == s'.open && s.arriving == s'.arriving;
  }

  lemma LossySecondHalf(i: nat)
    requires 5 <= i < 10
    ensures Enabled(LossyState(i), LossyRun()[i]) && FreshKey(None, LossyState(i), LossyRun()[i])
    ensures Apply(LossyState(i), LossyRun()[i]) == LossyState(i + 1)
  {
    var s, s' := Apply(LossyState(i), LossyRun()[i]), LossyState(i + 1);
    assert s.links == s'.links;
    assert s.open == s'.open;
    assert s.arriving == s'.arriving && s.committed == s'.committed;
    assert s.row == s'.row;
  }

  lemma {:induction false} LossyFrom(i: nat)
    requires i <= 10
    ensures var es := LossyRun()[i..];
            && CanRun(LossyState(i), es) && Run(LossyState(i), es) == LossyState(10)
            && FreshKeys(None, LossyState(i), es) && (i <= 4 ==> !CleanRun(LossyState(i), es))
    decreases 10 - i
  {
    hide Apply, Enabled, FreshKey, CleanFail, LossyState, LossyRun;
    assert |LossyRun()| == 10 by { LossyLength(); }
    if i < 10 {
      var es := LossyRun()[i..];
      assert es[0] == LossyRun()[i] && es[1..] == LossyRun()[i + 1..];
      LossyStep(i);
      LossyFrom(i + 1);
    }
  }

  lemma LossyLength()
    ensures |LossyRun()| == 10
  {
  }

  /** Without a row, a request that is given up after its handler has read the missing checkpoint can
      overwrite an acknowledged result. */
  lemma AbandonedRequestOverwrites()
    ensures var es := LossyRun();
            && CanRun(Start(None), es) && FreshKeys(None, Start(None), es)
            && !CleanRun(Start(None), es) && !NothingLost(None, Run(Start(None), es))
  {
    hide CanRun, Run, FreshKeys, CleanRun;
    LossyFrom(0);
    assert LossyRun()[0..] == LossyRun();
    assert Told(LossyState(10).links[1]) == Some(Gets(Null)) && "b" !in LossyState(10).row.value;
  }

  /** Exactly when results are safe whatever happens: the row exists, or no request is given up while
      there is none and a handler may still write for it. */
  lemma NothingLostIff(row0: Option<Checkpoint>, aborts: bool)
    ensures (forall es | && CanRun(Start(row0), es) && FreshKeys(row0, Start(row0), es)
                         && (aborts || CleanRun(Start(row0), es))
               :: NothingLost(row0, Run(Start(row0), es)))
            <==> (row0.Some? || !aborts)
  {
    hide CanRun, FreshKeys, CleanRun, NothingLost, Run;
    if row0.Some? || !aborts {
      forall es | CanRun(Start(row0), es) && FreshKeys(row0, Start(row0), es) && (aborts || CleanRun(Start(row0), es))
        ensures NothingLost(row0, Run(Start(row0), es))
      {
        if row0.Some? { RowMakesClean(Start(row0), es); }
        AcknowledgedSurvives(row0, es);
      }
    } else {
      AbandonedRequestOverwrites();
    }
  }

  lemma {:induction false} AckedCommitted(s: System, es: seq<Event>)
    requires CanRun(s, es) && AckedAreCommitted(s)
    ensures AckedAreCommitted(Run(s, es))
    decreases |es|
  {
    hide Apply, Enabled, AckedAreCommitted;
    if es != [] {
      AckedCommittedStep(s, es[0]);
      AckedCommitted(Apply(s, es[0]), es[1..]);
    }
  }

  lemma AckedCommittedStep(s: System, e: Event)
    requires Enabled(s, e) && AckedAreCommitted(s)
    ensures AckedAreCommitted(Apply(s, e))
  {
  }
}
