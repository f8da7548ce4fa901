/** The port allocator of the ephemeral-backend manager. */
module Ports {
  import opened Basics

  datatype PortPair = PortPair(db: int, server: int)

  type Registry = map<string, PortPair>

  const MIN_DB := 5433
  const MIN_SERVER := 8002
  const RANGE := 100

  function DbPorts(r: Registry): set<int> { set c | c in r :: r[c].db }

  function ServerPorts(r: Registry): set<int> { set c | c in r :: r[c].server }

  /** The smallest port of the range that is not in `used`. */
  ghost predicate IsSmallestFree(used: set<int>, min: int, port: int) {
    min <= port < min + RANGE && port !in used && forall q :: min <= q < port ==> q in used
  }

  ghost predicate RangeFull(used: set<int>, min: int) {
    forall q :: min <= q < min + RANGE ==> q in used
  }

  // ---------- Pigeonhole ----------

  lemma {:induction false} ImageSize(r: Registry, f: PortPair -> int)
    ensures |set c | c in r :: f(r[c])| <= |r|
  {
    var image := set x | x in r :: f(r[x]);
    if r.Keys != {} {
      var c :| c in r;
      var rest := r - {c};
      ImageSize(rest, f);
      var smaller := set x | x in rest :: f(rest[x]);
      forall y | y in image ensures y in smaller + {f(r[c])} {
        var x :| x in r && f(r[x]) == y;
        assert x == c || (x in rest && f(rest[x]) == y);
      }
      assert image <= smaller + {f(r[c])};
      SizeOfSubset(image, smaller, f(r[c]));
      assert r.Keys == rest.Keys + {c};
      assert |r| == |r.Keys| == |rest.Keys| + 1;
    } else {
      assert image == {};
    }
  }

  lemma SizeOfSubset(image: set<int>, smaller: set<int>, p: int)
    requires image <= smaller + {p}
    ensures |image| <= |smaller| + 1
  {
    var all := smaller + {p};
    assert |all| == |image| + |all - image|;
  }

  lemma {:induction false} FullRangeSize(used: set<int>, min: int, k: nat)
    requires forall q :: min <= q < min + k ==> q in used
    ensures |used| >= k
    decreases k
  {
    if k > 0 {
      var last := min + k - 1;
      FullRangeSize(used - {last}, min, k - 1);
    }
  }

  /** The range is full only if at least 100 backends are registered. */
  lemma FullNeedsHundred(r: Registry)
    ensures (forall q :: 5433 <= q < 5533 ==> q in DbPorts(r)) ==> |r| >= 100
    ensures (forall q :: 8002 <= q < 8102 ==> q in ServerPorts(r)) ==> |r| >= 100
  {
    ImageSize(r, (p: PortPair) => p.db);
    assert DbPorts(r) == set c | c in r :: ((p: PortPair) => p.db)(r[c]);
    ImageSize(r, (p: PortPair) => p.server);
    assert ServerPorts(r) == set c | c in r :: ((p: PortPair) => p.server)(r[c]);
    if RangeFull(DbPorts(r), MIN_DB) { FullRangeSize(DbPorts(r), MIN_DB, RANGE); }
    if RangeFull(ServerPorts(r), MIN_SERVER) { FullRangeSize(ServerPorts(r), MIN_SERVER, RANGE); }
  }

  // ---------- The manager ----------

  method FindFree(used: set<int>, min: int) returns (port: Option<int>)
    ensures port.Some? ==> IsSmallestFree(used, min, port.value)
    ensures port.Some? ==> port.value !in used && forall q :: min <= q < port.value ==> q in used
    ensures port.None? <==> forall q :: min <= q < min + 100 ==> q in used
  {
    for p := min to min + RANGE
      invariant forall q :: min <= q < p ==> q in used
    {
      if p !in used {
        return Some(p);
      }
    }
    port := None;
  }

  ghost predicate DistinctPorts(r: Registry) {
    forall c, d :: c in r && d in r && c != d ==> r[c].db != r[d].db && r[c].server != r[d].server
  }

  datatype SpawnResult = Registered(ports: PortPair) | AlreadyRunning | NoFreePorts

  class Manager {
    var backends: Registry

    ghost predicate Valid()
      reads this
    {
      DistinctPorts(backends)
    }

    constructor ()
      ensures Valid() && backends == map[]
    {
      backends := map[];
    }

    /** The spawn request from the duplicate check to the registration, with no await in between. */
    method Spawn(commit: string) returns (r: SpawnResult)
      requires Valid()
      modifies this
      ensures Valid()
      ensures r == AlreadyRunning <==> commit in old(backends)
      ensures r.Registered? ==>
                && IsSmallestFree(DbPorts(old(backends)), MIN_DB, r.ports.db)
                && IsSmallestFree(ServerPorts(old(backends)), MIN_SERVER, r.ports.server)
                && backends == old(backends)[commit := r.ports]
      ensures r.Registered? ==> 5433 <= r.ports.db < 5533 && 8002 <= r.ports.server < 8102
      ensures r.Registered? ==>
                forall s: System, b :: s.registry == old(backends) && b !in s.started ==>
                  && Enabled(s, Event.Spawn(b, commit, r.ports))
                  && Apply(s, Event.Spawn(b, commit, r.ports)).registry == backends
      ensures !r.Registered? ==> backends == old(backends)
      ensures r == NoFreePorts ==> |old(backends)| >= 100
    {
      if commit in backends { return AlreadyRunning; }
      var db := FindFree(DbPorts(backends), MIN_DB);
      FullNeedsHundred(backends);
      if db.None? { return NoFreePorts; }
      var server := FindFree(ServerPorts(backends), MIN_SERVER);
      if server.None? { return NoFreePorts; }
      assert forall c :: c in backends ==>
               backends[c].db in DbPorts(backends) && backends[c].server in ServerPorts(backends);
      backends := backends[commit := PortPair(db.value, server.value)];
      r := Registered(PortPair(db.value, server.value));
    }

    /** What a finished cleanup does: the entry of that commit goes, whoever it belongs to. */
    method OnCleanup(commit: string)
      requires Valid()
      modifies this
      ensures Valid() && backends == old(backends) - {commit}
      ensures forall s: System, c :: s.registry == old(backends) && Enabled(s, CleanupEnd(c)) ==>
                s.started[s.cleanups[c].b].commit == commit ==> Apply(s, CleanupEnd(c)).registry == backends
    {
      if commit in backends {
        backends := backends - {commit};
      }
    }
  }

  // ---------- Running backends ----------

  datatype Backend = Backend(commit: string, ports: PortPair)

  /** A cleanup under way: of which backend, and whether it began while that backend's start was going on.
      It stops what is there when it begins; it does not stop a start. */
  datatype Cleaning = Cleaning(b: nat, early: bool)

  /** The registry, the backends that run or may yet run, every backend ever started, those whose start is
      going on, and the cleanups under way. */
  datatype System = System(
    registry: Registry,
    running: map<nat, Backend>,
    started: map<nat, Backend>,
    starting: set<nat>,
    cleanups: map<nat, Cleaning>)

  const Empty := System(map[], map[], map[], {}, map[])

  datatype Event =
    | Spawn(b: nat, commit: string, ports: PortPair)
    | StartEnds(b: nat)               // the backend is ready, or its start failed
    | CleanupStart(c: nat, b: nat)    // after a failed start, by a timer, at any time
    | CleanupEnd(c: nat)              // the commit's entry goes

  ghost predicate Enabled(s: System, e: Event) {
    match e
    case Spawn(b, commit, ports) =>
      && b !in s.started && commit !in s.registry
      && IsSmallestFree(DbPorts(s.registry), MIN_DB, ports.db)
      && IsSmallestFree(ServerPorts(s.registry), MIN_SERVER, ports.server)
    case StartEnds(b) => b in s.starting
    case CleanupStart(c, b) => c !in s.cleanups && b in s.started
    case CleanupEnd(c) => c in s.cleanups && s.cleanups[c].b in s.started
  }

  ghost function Apply(s: System, e: Event): System
    requires Enabled(s, e)
  {
    match e
    case Spawn(b, commit, ports) =>
      var x := Backend(commit, ports);
      s.(registry := s.registry[commit := ports], running := s.running[b := x], started := s.started[b := x],
         starting := s.starting + {b})
    case StartEnds(b) => s.(starting := s.starting - {b})
    case CleanupStart(c, b) => s.(cleanups := s.cleanups[c := Cleaning(b, b in s.starting)])
    case CleanupEnd(c) =>
      var x := s.cleanups[c];
      s.(registry := s.registry - {s.started[x.b].commit}, running := if x.early then s.running else s.running - {x.b},
         cleanups := s.cleanups - {c})
  }

  ghost predicate CanRun(s: System, es: seq<Event>)
    decreases |es|
  {
    es == [] || (Enabled(s, es[0]) && CanRun(Apply(s, es[0]), es[1..]))
  }

  ghost function Run(s: System, es: seq<Event>): System
    requires CanRun(s, es)
    decreases |es|
  {
    if es == [] then s else Run(Apply(s, es[0]), es[1..])
  }

  /** The cleanup that ends deletes the entry its backend's commit has. */
  ghost predicate Deletes(s: System, e: Event) {
    e.CleanupEnd? && Enabled(s, e) && s.started[s.cleanups[e.c].b].commit in s.registry
  }

  /** A backend that has stopped is cleaned up again while its commit is registered anew. */
  ghost predicate CleansAgain(s: System, e: Event) {
    Deletes(s, e) && s.cleanups[e.c].b !in s.running
  }

  /** A registered backend is cleaned up by a cleanup that began during its start, which goes on. */
  ghost predicate CleansEarly(s: System, e: Event) {
    Deletes(s, e) && s.cleanups[e.c].b in s.running && s.cleanups[e.c].early
  }

  ghost predicate Unsafe(s: System, e: Event) {
    CleansAgain(s, e) || CleansEarly(s, e)
  }

  ghost predicate Orderly(s: System, es: seq<Event>)
    requires CanRun(s, es)
    decreases |es|
  {
    es == [] || (!Unsafe(s, es[0]) && Orderly(Apply(s, es[0]), es[1..]))
  }

  ghost predicate RunningApart(s: System) {
    forall b, c :: b in s.running && c in s.running && b != c ==>
      s.running[b].ports.db != s.running[c].ports.db && s.running[b].ports.server != s.running[c].ports.server
  }

  /** Registered backends never share a port, whatever the cleanups do. */
  lemma {:induction false} RegisteredApart(s: System, es: seq<Event>)
    requires CanRun(s, es) && DistinctPorts(s.registry)
    ensures DistinctPorts(Run(s, es).registry)
    decreases |es|
  {
    if es != [] {
      RegisteredApartStep(s, es[0]);
      hide Apply, Enabled, DistinctPorts;
      RegisteredApart(Apply(s, es[0]), es[1..]);
    }
  }

  lemma RegisteredApartStep(s: System, e: Event)
    requires Enabled(s, e) && DistinctPorts(s.registry)
    ensures DistinctPorts(Apply(s, e).registry)
  {
    assert forall c :: c in s.registry ==>
             s.registry[c].db in DbPorts(s.registry) && s.registry[c].server in ServerPorts(s.registry);
  }

  /** Every running backend is registered with its ports, each under a commit of its own. */
  ghost predicate RunningListed(s: System) {
    && (forall b :: b in s.running ==>
          && b in s.started && s.started[b] == s.running[b]
          && s.running[b].commit in s.registry && s.registry[s.running[b].commit] == s.running[b].ports)
    && (forall b, c :: b in s.running && c in s.running && b != c ==> s.running[b].commit != s.running[c].commit)
  }

  /** Every registered backend runs, on ports of the range. */
  ghost predicate ListedRunning(s: System) {
    forall x :: x in s.registry ==> (exists b :: b in s.running && s.running[b].commit == x) && InRange(s.registry[x])
  }

  predicate InRange(p: PortPair) {
    MIN_DB <= p.db < MIN_DB + RANGE && MIN_SERVER <= p.server < MIN_SERVER + RANGE
  }

  /** The registry lists exactly the running backends. */
  ghost predicate InStep(s: System) {
    DistinctPorts(s.registry) && RunningListed(s) && ListedRunning(s)
  }

  lemma RunningListedKept(s: System, e: Event)
    requires RunningListed(s) && Enabled(s, e) && !Unsafe(s, e)
    ensures RunningListed(Apply(s, e))
  {
    hide IsSmallestFree, DbPorts, ServerPorts;
  }

  lemma ListedRunningKept(s: System, e: Event)
    requires RunningListed(s) && ListedRunning(s) && Enabled(s, e)
    ensures ListedRunning(Apply(s, e))
  {
    hide DbPorts, ServerPorts;
    var s' := Apply(s, e);
    forall x | x in s'.registry ensures (exists b :: b in s'.running && s'.running[b].commit == x) &&
        InRange(s'.registry[x]) {
      if e.Spawn? && x == e.commit {
        assert e.b in s'.running && s'.running[e.b].commit == x;
      } else {
        var b :| b in s.running && s.running[b].commit == x;
        assert b in s'.running && s'.running[b].commit == x;
      }
    }
  }

  lemma InStepKept(s: System, e: Event)
    requires InStep(s) && Enabled(s, e) && !Unsafe(s, e)
    ensures InStep(Apply(s, e))
  {
    hide Apply, Enabled, Unsafe, DistinctPorts, RunningListed, ListedRunning;
    RegisteredApartStep(s, e);
    RunningListedKept(s, e);
    ListedRunningKept(s, e);
  }

  lemma {:induction false} InStepAlongRun(s: System, es: seq<Event>)
    requires CanRun(s, es) && InStep(s) && Orderly(s, es)
    ensures InStep(Run(s, es))
    decreases |es|
  {
    hide Apply, Enabled, InStep, Unsafe;
    if es != [] {
      InStepKept(s, es[0]);
      InStepAlongRun(Apply(s, es[0]), es[1..]);
    }
  }

  /** If every cleanup that deletes an entry stops the backend of that entry, running backends never share a
      port. */
  lemma RunningBackendsApart(es: seq<Event>)
    requires CanRun(Empty, es) && Orderly(Empty, es)
    ensures RunningApart(Run(Empty, es))
  {
    hide Run, CanRun, Orderly, InStep, RunningApart;
    StartInStep();
    InStepAlongRun(Empty, es);
    InStepApart(Run(Empty, es));
  }

  // ---------- Other cleanups free a port that is in use ----------

  /** From here on running backends have ports of their own, as long as nothing unsafe happens. */
  ghost predicate StaysApart(s: System) {
    forall es | CanRun(s, es) && Orderly(s, es) :: RunningApart(Run(s, es))
  }

  lemma ClashNow(s: System)
    requires !RunningApart(s)
    ensures !StaysApart(s)
  {
    hide RunningApart;
    assert CanRun(s, []) && Orderly(s, []) && Run(s, []) == s;
  }

  lemma ClashLater(s: System, e: Event)
    requires Enabled(s, e) && !Unsafe(s, e) && !StaysApart(Apply(s, e))
    ensures !StaysApart(s)
  {
    hide Apply, Enabled, Unsafe, RunningApart;
    var es :| CanRun(Apply(s, e), es) && Orderly(Apply(s, e), es) && !RunningApart(Run(Apply(s, e), es));
    assert ([e] + es)[1..] == es;
    assert CanRun(s, [e] + es) && Orderly(s, [e] + es) && Run(s, [e] + es) == Run(Apply(s, e), es);
  }

  /** Backend `b` runs on a database port that is not registered. */
  ghost predicate Unprotected(s: System, b: nat) {
    && b in s.running && b in s.started
    && MIN_DB <= s.running[b].ports.db < MIN_DB + RANGE && s.running[b].ports.db !in DbPorts(s.registry)
    && DistinctPorts(s.registry) && forall x :: x in s.registry ==> InRange(s.registry[x])
  }

  lemma {:induction false} DistinctSize(r: Registry)
    requires DistinctPorts(r)
    ensures |r| <= |DbPorts(r)|
    decreases |r|
  {
    if r.Keys != {} {
      var c :| c in r;
      var rest := r - {c};
      DistinctSize(rest);
      forall q | q in DbPorts(rest) ensures q in DbPorts(r) && q != r[c].db {
        var x :| x in rest && rest[x].db == q;
        assert r[x].db == q;
      }
      assert r[c].db in DbPorts(r);
      GrowsBy(DbPorts(rest), DbPorts(r), r[c].db);
      assert r.Keys == rest.Keys + {c};
      assert |r| == |r.Keys| == |rest.Keys| + 1;
    }
  }

  lemma GrowsBy(a: set<int>, b: set<int>, x: int)
    requires a <= b && x in b && x !in a
    ensures |b| >= |a| + 1
  {
    assert a + {x} <= b && |b| == |a + {x}| + |b - (a + {x})|;
  }

  lemma {:induction false} RangeSize(used: set<int>, min: int, k: nat)
    requires forall q :: q in used ==> min <= q < min + k
    ensures |used| <= k
    decreases k
  {
    if k > 0 {
      var last := min + k - 1;
      RangeSize(used - {last}, min, k - 1);
      assert used <= (used - {last}) + {last};
      SizeOfSubset(used, used - {last}, last);
    } else {
      assert forall q :: q !in used;
      assert used == {};
    }
  }

  lemma {:induction false} SmallestFree(used: set<int>, min: int, lo: int) returns (port: int)
    requires min <= lo <= min + RANGE && !RangeFull(used, min) && forall q :: min <= q < lo ==> q in used
    ensures IsSmallestFree(used, min, port)
    decreases min + RANGE - lo
  {
    port := lo;
    if lo in used { port := SmallestFree(used, min, lo + 1); }
  }

  /** As long as a database port is free there is a server port too. */
  lemma ServerPortFree(s: System, b: nat) returns (port: int)
    requires Unprotected(s, b)
    ensures IsSmallestFree(ServerPorts(s.registry), MIN_SERVER, port)
  {
    var used, p := DbPorts(s.registry), s.running[b].ports.db;
    DistinctSize(s.registry);
    forall q | q in used ensures MIN_DB <= q < MIN_DB + RANGE {
      var x :| x in s.registry && s.registry[x].db == q;
    }
    RangeSize(used + {p}, MIN_DB, RANGE);
    GrowsBy(used, used + {p}, p);
    FullNeedsHundred(s.registry);
    port := SmallestFree(ServerPorts(s.registry), MIN_SERVER, MIN_SERVER);
  }

  /** Spawning backends for new commits one after the other reaches the port that `b` runs on. */
  lemma {:induction false} UnprotectedClashes(s: System, b: nat, lo: int)
    requires Unprotected(s, b) && MIN_DB <= lo <= s.running[b].ports.db
    requires forall q :: MIN_DB <= q < lo ==> q in DbPorts(s.registry)
    ensures !StaysApart(s)
    decreases s.running[b].ports.db - lo
  {
    hide StaysApart;
    if lo in DbPorts(s.registry) {
      UnprotectedClashes(s, b, lo + 1);
    } else {
      var server := ServerPortFree(s, b);
      var commit := FreshName(s.registry.Keys);
      var b' := FreshNumber(s.started.Keys);
      var e := Spawn(b', commit, PortPair(lo, server));
      assert Enabled(s, e);
      SpawnedAt(s, b, e);
      if lo == s.running[b].ports.db {
        ClashNow(Apply(s, e));
      } else {
        UnprotectedClashes(Apply(s, e), b, lo + 1);
      }
      ClashLater(s, e);
    }
  }

  lemma SpawnedAt(s: System, b: nat, e: Event)
    requires Unprotected(s, b) && e.Spawn? && Enabled(s, e)
    ensures var s' := Apply(s, e);
            && b in s'.running && s'.running[b] == s.running[b]
            && (e.ports.db == s.running[b].ports.db ==> !RunningApart(s'))
            && (e.ports.db != s.running[b].ports.db ==> Unprotected(s', b))
            && e.ports.db in DbPorts(s'.registry) && forall q :: q in DbPorts(s.registry) ==> q in DbPorts(s'.registry)
  {
    RegisteredApartStep(s, e);
    var s' := Apply(s, e);
    assert s'.running[e.b].ports == e.ports && s'.registry[e.commit] == e.ports;
    forall q | q in DbPorts(s.registry) ensures q in DbPorts(s'.registry) {
      var x :| x in s.registry && s.registry[x].db == q;
      assert s'.registry[x].db == q;
    }
    forall q | q in DbPorts(s'.registry) ensures q in DbPorts(s.registry) || q == e.ports.db {
      var x :| x in s'.registry && s'.registry[x].db == q;
      if x != e.commit { assert s.registry[x].db == q; }
    }
  }

  /** An unsafe cleanup takes away the registration of a backend that runs on. */
  lemma LeftUnprotected(s: System, e: Event) returns (b: nat)
    requires InStep(s) && Enabled(s, e) && Unsafe(s, e)
    ensures Unprotected(Apply(s, e), b)
  {
    var x := s.started[s.cleanups[e.c].b].commit;
    b :| b in s.running && s.running[b].commit == x;
    RegisteredApartStep(s, e);
    var s' := Apply(s, e);
    forall y | y in s'.registry ensures s'.registry[y].db != s.running[b].ports.db {
      assert s.registry[y].db != s.registry[x].db;
    }
  }

  /** After every run without such cleanups, an event leaves running backends apart, whatever is spawned and
      cleaned up after it, exactly if it is not the end of a cleanup that deletes an entry of a backend it
      did not stop: one whose own backend had stopped before, or one that began during its start. */
  lemma SafeEventIff(es: seq<Event>, e: Event)
    requires CanRun(Empty, es) && Orderly(Empty, es) && Enabled(Run(Empty, es), e)
    ensures StaysApart(Apply(Run(Empty, es), e)) <==> !Unsafe(Run(Empty, es), e)
  {
    hide Run, CanRun, Orderly, InStep, Enabled, StaysApart, Apply, Unsafe;
    StartInStep();
    InStepAlongRun(Empty, es);
    var s := Run(Empty, es);
    if Unsafe(s, e) {
      var b := LeftUnprotected(s, e);
      UnprotectedClashes(Apply(s, e), b, MIN_DB);
    } else {
      InStepKept(s, e);
      InStepStaysApart(Apply(s, e));
    }
  }

  lemma StartInStep()
    ensures InStep(Empty)
  {
  }

  lemma InStepStaysApart(s: System)
    requires InStep(s)
    ensures StaysApart(s)
  {
    hide Run, CanRun, Orderly, InStep, RunningApart;
    forall es | CanRun(s, es) && Orderly(s, es) ensures RunningApart(Run(s, es)) {
      InStepAlongRun(s, es);
      InStepApart(Run(s, es));
    }
  }

  lemma InStepApart(s: System)
    requires InStep(s)
    ensures RunningApart(s)
  {
  }

  // ---------- Concrete runs ----------

  /** A run without second and without early cleanups, unless they are allowed. */
  ghost predicate Keeps(s: System, es: seq<Event>, again: bool, early: bool)
    requires CanRun(s, es)
    decreases |es|
  {
    es == [] ||
    (&& (CleansAgain(s, es[0]) ==> again) && (CleansEarly(s, es[0]) ==> early)
     && Keeps(Apply(s, es[0]), es[1..], again, early))
  }

  lemma {:induction false} OrderlyMeans(s: System, es: seq<Event>)
    requires CanRun(s, es)
    ensures Orderly(s, es) <==> Keeps(s, es, false, false)
    decreases |es|
  {
    hide Apply, Enabled, CleansAgain, CleansEarly;
    if es != [] { OrderlyMeans(Apply(s, es[0]), es[1..]); }
  }

  lemma {:induction false} KeepsMore(s: System, es: seq<Event>, a: bool, r: bool, a': bool, r': bool)
    requires CanRun(s, es) && Keeps(s, es, a, r) && (a ==> a') && (r ==> r')
    ensures Keeps(s, es, a', r')
    decreases |es|
  {
    hide Apply, Enabled, CleansAgain, CleansEarly;
    if es != [] { KeepsMore(Apply(s, es[0]), es[1..], a, r, a', r'); }
  }

  /** The run leads to two running backends with a port in common. */
  ghost predicate Clashes(s: System, es: seq<Event>, again: bool, early: bool) {
    CanRun(s, es) && Keeps(s, es, again, early) && !RunningApart(Run(s, es))
  }

  lemma ClashesCons(s: System, e: Event, es: seq<Event>, again: bool, early: bool)
    requires Enabled(s, e) && Clashes(Apply(s, e), es, again, early)
    requires (CleansAgain(s, e) ==> again) && (CleansEarly(s, e) ==> early)
    ensures Clashes(s, [e] + es, again, early)
  {
    hide Apply, Enabled, CleansAgain, CleansEarly, RunningApart;
    assert ([e] + es)[1..] == es;
  }

  const FIRST := PortPair(MIN_DB, MIN_SERVER)

  /** With nothing registered, the next backend gets the first ports. */
  lemma ClashesSpawn(s: System, b: nat, commit: string, es: seq<Event>, again: bool, early: bool)
    requires s.registry == map[] && b !in s.started
    requires Clashes(Spawned(s, b, commit), es, again, early)
    ensures Clashes(s, [Spawn(b, commit, FIRST)] + es, again, early)
  {
    assert DbPorts(map[]) == {} && ServerPorts(map[]) == {};
    hide Clashes;
    ClashesCons(s, Spawn(b, commit, FIRST), es, again, early);
  }

  function Spawned(s: System, b: nat, commit: string): System {
    var x := Backend(commit, FIRST);
    s.(registry := s.registry[commit := FIRST], running := s.running[b := x], started := s.started[b := x],
       starting := s.starting + {b})
  }

  lemma ClashesNow(s: System, b: nat, c: nat, again: bool, early: bool)
    requires b in s.running && c in s.running && b != c && s.running[b].ports == s.running[c].ports
    ensures Clashes(s, [], again, early)
  {
  }

  const EARLY_RUN := [Spawn(1, "x", FIRST), CleanupStart(1, 1), CleanupEnd(1), Spawn(2, "y", FIRST)]

  /** A cleanup during a start: the start goes on with ports that are free again. */
  lemma EarlyCleanupClashes()
    ensures Clashes(Empty, EARLY_RUN, false, true)
  {
    var s1 := Spawned(Empty, 1, "x");
    var s2 := Apply(s1, CleanupStart(1, 1));
    var s3 := Apply(s2, CleanupEnd(1));
    assert s3.registry == map[];
    hide Clashes;
    ClashesNow(Spawned(s3, 2, "y"), 1, 2, false, true);
    ClashesSpawn(s3, 2, "y", [], false, true);
    ClashesCons(s2, CleanupEnd(1), [Spawn(2, "y", FIRST)] + [], false, true);
    ClashesCons(s1, CleanupStart(1, 1), [CleanupEnd(1)] + ([Spawn(2, "y", FIRST)] + []), false, true);
    var rest := [CleanupStart(1, 1)] + ([CleanupEnd(1)] + ([Spawn(2, "y", FIRST)] + []));
    ClashesSpawn(Empty, 1, "x", rest, false, true);
    assert [Spawn(1, "x", FIRST)] + rest == EARLY_RUN;
  }

  const AGAIN_RUN :=
    [Spawn(1, "x", FIRST), StartEnds(1), CleanupStart(1, 1), CleanupStart(2, 1), CleanupEnd(1),
     Spawn(2, "x", FIRST), CleanupEnd(2), Spawn(3, "y", FIRST)]

  /** Two cleanups of a backend: the second deletes the entry of the next backend for the same commit. */
  lemma SecondCleanupClashes()
    ensures Clashes(Empty, AGAIN_RUN, true, false)
  {
    hide Clashes;
    var s1 := Spawned(Empty, 1, "x");
    var s2 := Apply(s1, StartEnds(1));
    var s3 := Apply(s2, CleanupStart(1, 1));
    var s4 := Apply(s3, CleanupStart(2, 1));
    var s5 := Apply(s4, CleanupEnd(1));
    assert s5.registry == map[];
    var rest := [CleanupEnd(2)] + ([Spawn(3, "y", FIRST)] + []);
    SecondCleanup(Spawned(s5, 2, "x"));
    ClashesSpawn(s5, 2, "x", rest, true, false);
    var rest5 := [Spawn(2, "x", FIRST)] + rest;
    ClashesCons(s4, CleanupEnd(1), rest5, true, false);
    ClashesCons(s3, CleanupStart(2, 1), [CleanupEnd(1)] + rest5, true, false);
    ClashesCons(s2, CleanupStart(1, 1), [CleanupStart(2, 1)] + ([CleanupEnd(1)] + rest5), true, false);
    var rest2 := [CleanupStart(1, 1)] + ([CleanupStart(2, 1)] + ([CleanupEnd(1)] + rest5));
    ClashesCons(s1, StartEnds(1), rest2, true, false);
    ClashesSpawn(Empty, 1, "x", [StartEnds(1)] + rest2, true, false);
    assert [Spawn(1, "x", FIRST)] + ([StartEnds(1)] + rest2) == AGAIN_RUN;
  }

  lemma SecondCleanup(s: System)
    requires s.registry == map["x" := FIRST] && s.cleanups == map[2 := Cleaning(1, false)]
    requires 1 in s.started && s.started[1].commit == "x" && 1 !in s.running && 3 !in s.started
    requires 2 in s.running && s.running[2].ports == FIRST
    ensures Clashes(s, [CleanupEnd(2)] + ([Spawn(3, "y", FIRST)] + []), true, false)
  {
    var s' := Apply(s, CleanupEnd(2));
    assert s'.registry == map[];
    hide Clashes;
    ClashesNow(Spawned(s', 3, "y"), 2, 3, true, false);
    ClashesSpawn(s', 3, "y", [], true, false);
    ClashesCons(s, CleanupEnd(2), [Spawn(3, "y", FIRST)] + [], true, false);
  }

  /** Running backends have ports of their own in all runs exactly when no stopped backend is cleaned up
      again while its commit is registered anew, and none is cleaned up during its start. */
  lemma RunningApartIff(again: bool, early: bool)
    ensures (forall es | CanRun(Empty, es) && Keeps(Empty, es, again, early) :: RunningApart(Run(Empty, es)))
            <==> !again && !early
  {
    hide CanRun, Run, Keeps, RunningApart;
    EarlyCleanupClashes();
    SecondCleanupClashes();
    if again {
      KeepsMore(Empty, AGAIN_RUN, true, false, again, early);
    } else if early {
      KeepsMore(Empty, EARLY_RUN, false, true, again, early);
    } else {
      forall es | CanRun(Empty, es) && Keeps(Empty, es, false, false) ensures RunningApart(Run(Empty, es)) {
        OrderlyMeans(Empty, es);
        RunningBackendsApart(es);
      }
    }
  }
}
