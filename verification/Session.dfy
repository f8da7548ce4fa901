/** The debug session: console output buffered while stepping, and the `terminated` event. */
module Session {
  /** One console message, numbered by the inspector. */
  datatype Output = Output(id: nat, text: string)

  /** What the client receives. */
  datatype Message = OutputEvent(output: Output) | Stopped | Terminated | Response(ok: bool)

  /** `terminating` has one entry for each terminate request that is waiting in `cleanup`: whether it
      will send `terminated` afterwards. `sockets` counts the inspector connections that are not closed,
      `watched` the processes whose exit is waited for. `received` records the console messages. */
  datatype State = State(
    stepping: bool,
    initialPauseDone: bool,
    pending: seq<Output>,
    terminatedSent: bool,
    sent: seq<Message>,
    terminating: multiset<bool>,
    sockets: nat,
    watched: nat,
    received: seq<Output>)

  const Initial := State(false, false, [], false, [], multiset{}, 0, 0, [])

  datatype Event =
    | Console(output: Output)      // Console.messageAdded
    | Result(parses: bool)         // a console message with the result prefix
    | Paused(injected: bool)       // Debugger.paused, perhaps at the injected first line
    | StepStart                    // continue, next, stepIn or stepOut, up to its await
    | StepDone(ok: bool)           // the same request after the inspector answered
    | Connects                     // a start opens the connection to the inspector
    | StartSucceeds                // a start got through and waits for the process to exit
    | LaunchFails                  // a start failed
    | ProcessExit
    | InspectorClose
    | TerminateStart               // terminate, up to the await in cleanup
    | TerminateEnd(sends: bool)

  function OutputEvents(os: seq<Output>): (ms: seq<Message>)
    ensures |ms| == |os|
  {
    seq(|os|, i requires 0 <= i < |os| => OutputEvent(os[i]))
  }

  function Flush(s: State): State {
    s.(stepping := false, sent := s.sent + OutputEvents(s.pending), pending := [])
  }

  function Terminate(s: State): State {
    if s.terminatedSent then s else s.(terminatedSent := true, sent := s.sent + [Terminated])
  }

  /** The first pause at the injected statement is passed over; every other pause stops the client. */
  predicate StopsAt(s: State, e: Event) {
    e.Paused? && !(e.injected && !s.initialPauseDone)
  }

  predicate Enabled(s: State, e: Event) {
    && (e.TerminateEnd? ==> e.sends in s.terminating)
    && (e.ProcessExit? ==> s.watched > 0)
    && (e.InspectorClose? ==> s.sockets > 0)
  }

  function Apply(s: State, e: Event): State
    requires Enabled(s, e)
  {
    match e
    case Console(o) =>
      if s.stepping then s.(pending := s.pending + [o], received := s.received + [o])
      else s.(sent := s.sent + [OutputEvent(o)], received := s.received + [o])
    case Result(parses) => if parses then Terminate(Flush(s)) else s
    case Paused(_) =>
      var s' := s.(initialPauseDone := true);
      if StopsAt(s, e) then Flush(s'.(sent := s.sent + [Stopped])) else s'
    case StepStart => s.(stepping := true)
    case StepDone(ok) => s.(stepping := s.stepping && ok, sent := s.sent + [Response(ok)])
    case Connects => s.(sockets := s.sockets + 1)
    case StartSucceeds => s.(watched := s.watched + 1)
    case LaunchFails => s.(sent := s.sent + [Terminated])
    case ProcessExit => Terminate(s.(watched := s.watched - 1))
    case InspectorClose => Terminate(s.(sockets := s.sockets - 1))
    case TerminateStart => s.(terminatedSent := true, terminating := s.terminating + multiset{!s.terminatedSent})
    case TerminateEnd(sends) =>
      s.(terminating := s.terminating - multiset{sends},
         sent := s.sent + [Response(true)] + if sends then [Terminated] else [])
  }

  ghost predicate CanRun(s: State, es: seq<Event>)
    decreases |es|
  {
    es == [] || (Enabled(s, es[0]) && CanRun(Apply(s, es[0]), es[1..]))
  }

  ghost function Run(s: State, es: seq<Event>): State
    requires CanRun(s, es)
    decreases |es|
  {
    if es == [] then s else Run(Apply(s, es[0]), es[1..])
  }

  // ---------- The session object ----------

  class DebugSession {
    var isStepping: bool
    var initialPauseDone: bool
    var pendingConsoleOutput: seq<Output>
    var terminatedSent: bool
    var sent: seq<Message>                  // what went over the web socket
    ghost var terminating: multiset<bool>
    ghost var sockets: nat
    ghost var watched: nat
    ghost var received: seq<Output>

    ghost function View(): State
      reads this
    {
      State(isStepping, initialPauseDone, pendingConsoleOutput, terminatedSent, sent, terminating, sockets, watched,
            received)
    }

    constructor ()
      ensures View() == Initial
    {
      isStepping, initialPauseDone, pendingConsoleOutput, terminatedSent, sent := false, false, [], false, [];
      terminating, sockets, watched, received := multiset{}, 0, 0, [];
    }

    method SendPendingOutput()
      modifies this
      ensures View() == Flush(old(View()))
    {
      isStepping := false;
      var buffered := pendingConsoleOutput;
      for i := 0 to |buffered|
        invariant sent == old(sent) + OutputEvents(buffered[..i])
        invariant View().(sent := old(sent)) == old(View()).(stepping := false)
      {
        sent := sent + [OutputEvent(buffered[i])];
        assert OutputEvents(buffered[..i + 1]) == OutputEvents(buffered[..i]) + [OutputEvent(buffered[i])];
      }
      assert buffered[..|buffered|] == buffered;
      pendingConsoleOutput := [];
    }

    method HandleConsoleMessageAdded(output: Output)
      modifies this
      ensures View() == Apply(old(View()), Console(output))
    {
      received := received + [output];
      if isStepping {
        pendingConsoleOutput := pendingConsoleOutput + [output];
      } else {
        sent := sent + [OutputEvent(output)];
      }
    }

    method SendTerminatedOnce()
      modifies this
      ensures View() == Terminate(old(View()))
    {
      if !terminatedSent {
        terminatedSent := true;
        sent := sent + [Terminated];
      }
    }

    method HandleProcessExit()
      requires watched > 0
      modifies this
      ensures View() == Apply(old(View()), ProcessExit)
    {
      watched := watched - 1;
      SendTerminatedOnce();
    }

    method HandleInspectorClose()
      requires sockets > 0
      modifies this
      ensures View() == Apply(old(View()), InspectorClose)
    {
      sockets := sockets - 1;
      SendTerminatedOnce();
    }

    /** A failed start sends without looking at the flag. */
    method HandleLaunchFailure()
      modifies this
      ensures View() == Apply(old(View()), LaunchFails)
    {
      sent := sent + [Terminated];
    }

    method HandleResult(parses: bool)
      modifies this
      ensures View() == Apply(old(View()), Result(parses))
    {
      if parses {
        SendPendingOutput();
        SendTerminatedOnce();
      }
    }

    method HandlePaused(injected: bool)
      modifies this
      ensures View() == Apply(old(View()), Paused(injected))
    {
      if injected && !initialPauseDone {
        initialPauseDone := true;
        return;
      }
      initialPauseDone := true;
      sent := sent + [Stopped];
      SendPendingOutput();
    }

    method BeginStep()
      modifies this
      ensures View() == Apply(old(View()), StepStart)
    {
      isStepping := true;
    }

    method EndStep(ok: bool)
      modifies this
      ensures View() == Apply(old(View()), StepDone(ok))
    {
      if !ok { isStepping := false; }
      sent := sent + [Response(ok)];
    }

    /** `terminate` up to its await: the flag is set first, so that no other handler sends as well. */
    method BeginTerminate() returns (shouldSend: bool)
      modifies this
      ensures View() == Apply(old(View()), TerminateStart) && shouldSend == !old(terminatedSent)
    {
      shouldSend := !terminatedSent;
      terminatedSent := true;
      terminating := terminating + multiset{shouldSend};
    }

    method EndTerminate(shouldSend: bool)
      requires shouldSend in terminating
      modifies this
      ensures View() == Apply(old(View()), TerminateEnd(shouldSend))
    {
      terminating := terminating - multiset{shouldSend};
      sent := sent + [Response(true)];
      assert sent + [] == sent;
      if shouldSend { sent := sent + [Terminated]; }
    }
  }

  // ---------- No console output is lost or made up ----------

  function Outputs(ms: seq<Message>): seq<Output> {
    if ms == [] then []
    else
      var last := ms[|ms| - 1];
      Outputs(ms[..|ms| - 1]) + if last.OutputEvent? then [last.output] else []
  }

  lemma OutputsAppend(ms: seq<Message>, m: Message)
    ensures Outputs(ms + [m]) == Outputs(ms) + if m.OutputEvent? then [m.output] else []
  {
    assert (ms + [m])[..|ms|] == ms;
  }

  lemma {:induction false} OutputsConcat(ms: seq<Message>, os: seq<Output>)
    ensures Outputs(ms + OutputEvents(os)) == Outputs(ms) + os
  {
    if os == [] {
      assert ms + OutputEvents(os) == ms && Outputs(ms) + os == Outputs(ms);
    } else {
      var init, last := os[..|os| - 1], os[|os| - 1];
      OutputsConcat(ms, init);
      assert ms + OutputEvents(os) == (ms + OutputEvents(init)) + [OutputEvent(last)];
      OutputsAppend(ms + OutputEvents(init), OutputEvent(last));
      assert os == init + [last] && Outputs(ms) + os == (Outputs(ms) + init) + [last];
    }
  }

  lemma TerminateOutputs(s: State)
    ensures Outputs(Terminate(s).sent) == Outputs(s.sent)
  {
    hide Outputs;
    OutputsAppend(s.sent, Terminated);
  }

  /** What one event does to the outputs sent and those pending. */
  lemma StepOutputs(s: State, e: Event)
    requires Enabled(s, e)
    ensures var s' := Apply(s, e);
            match e
            case Console(o) =>
              s'.received == s.received + [o] &&
              (if s.stepping then Outputs(s'.sent) == Outputs(s.sent) && s'.pending == s.pending + [o]
               else Outputs(s'.sent) == Outputs(s.sent) + [o] && s'.pending == s.pending)
            case _ =>
              s'.received == s.received &&
              (if StopsAt(s, e) || (e.Result? && e.parses)
               then Outputs(s'.sent) == Outputs(s.sent) + s.pending && s'.pending == []
               else Outputs(s'.sent) == Outputs(s.sent) && s'.pending == s.pending)
  {
    hide Outputs;
    match e
    case Console(o) => OutputsAppend(s.sent, OutputEvent(o));
    case Result(_) => OutputsConcat(s.sent, s.pending); TerminateOutputs(Flush(s));
    case Paused(_) =>
      OutputsAppend(s.sent, Stopped);
      assert Outputs(s.sent) + [] == Outputs(s.sent);
      OutputsConcat(s.sent + [Stopped], s.pending);
    case StepDone(ok) => OutputsAppend(s.sent, Response(ok));
    case TerminateEnd(sends) =>
      OutputsAppend(s.sent, Response(true));
      OutputsAppend(s.sent + [Response(true)], Terminated);
      assert s.sent + [Response(true)] + [] == s.sent + [Response(true)];
    case LaunchFails => OutputsAppend(s.sent, Terminated);
    case ProcessExit => TerminateOutputs(s);
    case InspectorClose => TerminateOutputs(s);
    case _ =>
  }

  ghost predicate AllAccounted(s: State) {
    multiset(Outputs(s.sent)) + multiset(s.pending) == multiset(s.received)
  }

  /** In every session run, the console outputs sent and those pending are exactly those received. */
  lemma {:induction false} NoOutputLost(s: State, es: seq<Event>)
    requires CanRun(s, es) && AllAccounted(s)
    ensures AllAccounted(Run(s, es))
    decreases |es|
  {
    hide Outputs, Apply, Enabled;
    if es != [] {
      StepOutputs(s, es[0]);
      NoOutputLost(Apply(s, es[0]), es[1..]);
    }
  }

  // ---------- Order ----------

  ghost predicate InOrder(s: State) {
    Outputs(s.sent) + s.pending == s.received
  }

  /** A message is sent at once although earlier ones are still waiting. */
  predicate Overtakes(s: State, e: Event) {
    e.Console? && !s.stepping && s.pending != []
  }

  ghost predicate NeverOvertakes(s: State, es: seq<Event>)
    requires CanRun(s, es)
    decreases |es|
  {
    es == [] || (!Overtakes(s, es[0]) && NeverOvertakes(Apply(s, es[0]), es[1..]))
  }

  ghost predicate DistinctOutputs(os: seq<Output>) {
    forall i, j :: 0 <= i < j < |os| ==> os[i] != os[j]
  }

  lemma OrderKept(s: State, e: Event)
    requires Enabled(s, e) && InOrder(s) && !Overtakes(s, e)
    ensures InOrder(Apply(s, e))
  {
    hide Outputs, Apply;
    StepOutputs(s, e);
    var s' := Apply(s, e);
    assert s'.pending == [] ==> Outputs(s'.sent) + s'.pending == Outputs(s'.sent);
  }

  /** Once a message has overtaken another, what was sent is not the beginning of what was received. */
  ghost predicate OutOfOrder(s: State) {
    |Outputs(s.sent)| <= |s.received| && Outputs(s.sent) != s.received[..|Outputs(s.sent)|]
  }

  lemma OvertakingBreaksOrder(s: State, e: Event)
    requires Enabled(s, e) && InOrder(s) && Overtakes(s, e) && DistinctOutputs(s.received + [e.output])
    ensures OutOfOrder(Apply(s, e))
  {
    hide Outputs, Apply;
    StepOutputs(s, e);
    var sent, all := Outputs(s.sent), s.received + [e.output];
    assert all[|sent|] == s.pending[0] && all[|s.received|] == e.output;
    assert all[..|sent| + 1][|sent|] != e.output;
  }

  lemma AccountedLength(s: State)
    requires AllAccounted(s)
    ensures |Outputs(s.sent)| + |s.pending| == |s.received|
  {
    hide Outputs;
    assert |multiset(Outputs(s.sent)) + multiset(s.pending)| == |multiset(s.received)|;
  }

  lemma OutputsGrow(s: State, e: Event)
    requires Enabled(s, e)
    ensures Outputs(s.sent) <= Outputs(Apply(s, e).sent) && s.received <= Apply(s, e).received
  {
    hide Outputs, Apply, Enabled;
    StepOutputs(s, e);
  }

  lemma DisorderStays(s: State, e: Event)
    requires Enabled(s, e) && OutOfOrder(s) && AllAccounted(s)
    ensures OutOfOrder(Apply(s, e)) && AllAccounted(Apply(s, e))
  {
    hide Outputs, Apply, AllAccounted, Enabled;
    OutputsGrow(s, e);
    NoOutputLost(s, [e]);
    RunOne(s, e);
    var s' := Apply(s, e);
    AccountedLength(s);
    AccountedLength(s');
    var n := |Outputs(s.sent)|;
    assert Outputs(s'.sent)[..n] == Outputs(s.sent) && s'.received[..n] == s.received[..n];
    assert s'.received[..|Outputs(s'.sent)|][..n] == s'.received[..n];
  }

  lemma {:induction false} DisorderLasts(s: State, es: seq<Event>)
    requires CanRun(s, es) && OutOfOrder(s) && AllAccounted(s)
    ensures !InOrder(Run(s, es))
    decreases |es|
  {
    hide Outputs, Apply, Enabled;
    if es != [] {
      DisorderStays(s, es[0]);
      DisorderLasts(Apply(s, es[0]), es[1..]);
    } else {
      assert (Outputs(s.sent) + s.pending)[..|Outputs(s.sent)|] == Outputs(s.sent);
    }
  }

  lemma {:induction false} ReceivedGrows(s: State, es: seq<Event>)
    requires CanRun(s, es)
    ensures s.received <= Run(s, es).received
    decreases |es|
  {
    hide Outputs, Apply, Enabled;
    if es != [] {
      StepOutputs(s, es[0]);
      ReceivedGrows(Apply(s, es[0]), es[1..]);
    }
  }

  /** Outputs reach the client in the order they were received exactly when no message arrives, outside
      a step, while earlier ones are still buffered. */
  lemma {:induction false} InOrderIff(s: State, es: seq<Event>)
    requires CanRun(s, es) && InOrder(s) && AllAccounted(s) && DistinctOutputs(Run(s, es).received)
    ensures InOrder(Run(s, es)) <==> NeverOvertakes(s, es)
    decreases |es|
  {
    hide Outputs, Apply, Enabled, Overtakes;
    if es != [] {
      var s' := Apply(s, es[0]);
      NoOutputLost(s, [es[0]]);
      RunOne(s, es[0]);
      if Overtakes(s, es[0]) {
        OvertakingMeans(s, es[0]);
        ReceivedGrows(s', es[1..]);
        StepOutputs(s, es[0]);
        assert DistinctOutputs(s'.received);
        OvertakingBreaksOrder(s, es[0]);
        DisorderLasts(s', es[1..]);
      } else {
        OrderKept(s, es[0]);
        InOrderIff(s', es[1..]);
      }
    }
  }

  lemma RunOne(s: State, e: Event)
    ensures Enabled(s, e) ==> CanRun(s, [e]) && Run(s, [e]) == Apply(s, e)
  {
    hide Apply, Enabled;
    assert [e][1..] == [];
    if Enabled(s, e) { assert CanRun(Apply(s, e), []); }
  }

  /** A step that fails leaves what it buffered behind, and the next message overtakes it. */
  lemma FailedStepReorders(a: Output, b: Output)
    requires a != b
    ensures var es := [StepStart, Console(a), StepDone(false), Console(b)];
            && CanRun(Initial, es) && !NeverOvertakes(Initial, es)
            && Run(Initial, es).received == [a, b] && Outputs(Run(Initial, es).sent) == [b]
            && !InOrder(Run(Initial, es))
  {
    hide Run, CanRun, Outputs, NeverOvertakes;
    var s1 := Apply(Initial, StepStart);
    var s2 := Apply(s1, Console(a));
    var s3 := Apply(s2, StepDone(false));
    RunOne(s3, Console(b));
    RunCons(s2, StepDone(false), [Console(b)]);
    RunCons(s1, Console(a), [StepDone(false)] + [Console(b)]);
    RunCons(Initial, StepStart, [Console(a)] + ([StepDone(false)] + [Console(b)]));
    assert [StepStart] + ([Console(a)] + ([StepDone(false)] + [Console(b)]))
           == [StepStart, Console(a), StepDone(false), Console(b)];
    assert s3.pending == [a] && s3.received == [a] && [a] + [b] == [a, b];
    NothingSent();
    OutputsAppend([], Response(false));
    OutputsAppend([Response(false)], OutputEvent(b));
    assert [] + [Response(false)] == [Response(false)] && [] + [b] == [b];
    var s := Run(Initial, [StepStart, Console(a), StepDone(false), Console(b)]);
    assert (Outputs(s.sent) + s.pending)[0] == b && s.received[0] == a;
    if NeverOvertakes(Initial, [StepStart, Console(a), StepDone(false), Console(b)]) {
      NoOvertakingKeepsOrder([StepStart, Console(a), StepDone(false), Console(b)]);
    }
  }

  lemma NothingSent()
    ensures Outputs([]) == []
  {
  }

  lemma StartInOrder()
    ensures InOrder(Initial) && AllAccounted(Initial)
  {
  }

  lemma NoOvertakingKeepsOrder(es: seq<Event>)
    requires CanRun(Initial, es) && NeverOvertakes(Initial, es)
    ensures InOrder(Run(Initial, es))
  {
    hide Run, CanRun, NeverOvertakes;
    StartInOrder();
    OrderAlongRun(Initial, es);
  }

  lemma OvertakingMeans(s: State, e: Event)
    requires Overtakes(s, e)
    ensures e.Console?
  {
  }

  /** The buffer is empty outside a step as long as no step command fails. */
  lemma {:induction false} NoFailureNoOvertaking(s: State, es: seq<Event>)
    requires CanRun(s, es) && (!s.stepping ==> s.pending == [])
    requires forall i :: 0 <= i < |es| ==> es[i] != StepDone(false)
    ensures NeverOvertakes(s, es)
    decreases |es|
  {
    hide Enabled;
    if es != [] {
      BufferEmptyOutsideStep(s, es[0]);
      hide Apply;
      NoFailureNoOvertaking(Apply(s, es[0]), es[1..]);
    }
  }

  lemma BufferEmptyOutsideStep(s: State, e: Event)
    requires Enabled(s, e) && (!s.stepping ==> s.pending == []) && e != StepDone(false)
    ensures !Apply(s, e).stepping ==> Apply(s, e).pending == []
  {
  }

  /** If no step command fails, outputs are in order, in every run from the start. */
  lemma InOrderWithoutFailures(es: seq<Event>)
    requires CanRun(Initial, es) && forall i :: 0 <= i < |es| ==> es[i] != StepDone(false)
    ensures InOrder(Run(Initial, es))
  {
    hide Run, CanRun;
    NoFailureNoOvertaking(Initial, es);
    OrderAlongRun(Initial, es);
  }

  lemma {:induction false} OrderAlongRun(s: State, es: seq<Event>)
    requires CanRun(s, es) && InOrder(s) && NeverOvertakes(s, es)
    ensures InOrder(Run(s, es))
    decreases |es|
  {
    hide Outputs, Apply, Enabled, Overtakes;
    if es != [] {
      OrderKept(s, es[0]);
      OrderAlongRun(Apply(s, es[0]), es[1..]);
    }
  }

  // ---------- What the client is told, and in which order ----------

  /** Whatever the state: a pause that stops the client sends `stopped` and then everything buffered. */
  lemma PauseStops(s: State, e: Event)
    requires StopsAt(s, e)
    ensures Enabled(s, e) && Apply(s, e).sent == s.sent + [Stopped] + OutputEvents(s.pending)
    ensures Apply(s, e).pending == [] && !Apply(s, e).stepping
  {
  }

  /** A captured result sends everything buffered first, and `terminated` after it unless that was claimed. */
  lemma ResultEnds(s: State)
    ensures var s' := Apply(s, Result(true));
            && s'.sent == s.sent + OutputEvents(s.pending) + (if s.terminatedSent then [] else [Terminated])
            && s'.pending == [] && !s'.stepping
    ensures Apply(s, Result(false)) == s
  {
    assert (s.sent + OutputEvents(s.pending)) + [] == s.sent + OutputEvents(s.pending);
  }

  /** A terminate request is answered before the `terminated` it owes. */
  lemma TerminateAnswers(s: State, sends: bool)
    requires sends in s.terminating
    ensures Apply(s, TerminateEnd(sends)).sent
            == s.sent + if sends then [Response(true), Terminated] else [Response(true)]
  {
    assert s.sent + [Response(true)] + [Terminated] == s.sent + [Response(true), Terminated];
    assert s.sent + [Response(true)] + [] == s.sent + [Response(true)];
  }

  /** Messages that are neither console output nor `terminated`. */
  function Replies(ms: seq<Message>): seq<Message> {
    if ms == [] then []
    else
      var last := ms[|ms| - 1];
      Replies(ms[..|ms| - 1]) + if last.Stopped? || last.Response? then [last] else []
  }

  /** What an event calls for: `stopped` for a pause unless it is the first and at the injected statement,
      and an answer for a step command or terminate request that is through. */
  function CallsFor(e: Event, paused: bool): seq<Message> {
    match e
    case Paused(injected) => if injected && !paused then [] else [Stopped]
    case StepDone(ok) => [Response(ok)]
    case TerminateEnd(_) => [Response(true)]
    case _ => []
  }

  function Expected(es: seq<Event>, paused: bool): seq<Message> {
    if es == [] then [] else CallsFor(es[0], paused) + Expected(es[1..], paused || es[0].Paused?)
  }

  lemma RepliesAppend(ms: seq<Message>, m: Message)
    ensures Replies(ms + [m]) == Replies(ms) + if m.Stopped? || m.Response? then [m] else []
  {
    assert (ms + [m])[..|ms|] == ms;
  }

  lemma {:induction false} RepliesOfOutputs(ms: seq<Message>, os: seq<Output>)
    ensures Replies(ms + OutputEvents(os)) == Replies(ms)
  {
    if os == [] {
      assert ms + OutputEvents(os) == ms;
    } else {
      var init, last := os[..|os| - 1], os[|os| - 1];
      RepliesOfOutputs(ms, init);
      assert ms + OutputEvents(os) == (ms + OutputEvents(init)) + [OutputEvent(last)];
      RepliesAppend(ms + OutputEvents(init), OutputEvent(last));
    }
  }

  lemma RepliesStep(s: State, e: Event)
    requires Enabled(s, e)
    ensures Replies(Apply(s, e).sent) == Replies(s.sent) + CallsFor(e, s.initialPauseDone)
    ensures Apply(s, e).initialPauseDone == (s.initialPauseDone || e.Paused?)
  {
    hide Replies;
    assert Replies(s.sent) + [] == Replies(s.sent);
    RepliesAppend(s.sent, Terminated);
    match e
    case Console(o) => RepliesAppend(s.sent, OutputEvent(o));
    case Result(_) =>
      RepliesOfOutputs(s.sent, s.pending);
      RepliesAppend(Flush(s).sent, Terminated);
    case Paused(_) =>
      RepliesAppend(s.sent, Stopped);
      RepliesOfOutputs(s.sent + [Stopped], s.pending);
    case StepDone(ok) => RepliesAppend(s.sent, Response(ok));
    case TerminateEnd(_) =>
      RepliesAppend(s.sent, Response(true));
      RepliesAppend(s.sent + [Response(true)], Terminated);
      assert s.sent + [Response(true)] + [] == s.sent + [Response(true)];
    case _ =>
  }

  lemma {:induction false} RepliesAlongRun(s: State, es: seq<Event>)
    requires CanRun(s, es)
    ensures Replies(Run(s, es).sent) == Replies(s.sent) + Expected(es, s.initialPauseDone)
    decreases |es|
  {
    hide Replies, Apply, Enabled, CallsFor;
    if es == [] {
      assert Replies(s.sent) + [] == Replies(s.sent);
    } else {
      var s' := Apply(s, es[0]);
      RepliesStep(s, es[0]);
      RepliesAlongRun(s', es[1..]);
      var now, later := CallsFor(es[0], s.initialPauseDone), Expected(es[1..], s'.initialPauseDone);
      assert (Replies(s.sent) + now) + later == Replies(s.sent) + (now + later);
    }
  }

  /** In every session run the client gets exactly the `stopped` events and answers that the events call
      for, in their order. */
  lemma AnswersInOrder(es: seq<Event>)
    requires CanRun(Initial, es)
    ensures Replies(Run(Initial, es).sent) == Expected(es, false)
  {
    hide Run, CanRun, Expected;
    RepliesAlongRun(Initial, es);
    assert Replies([]) == [] && [] + Expected(es, false) == Expected(es, false);
  }

  // ---------- Output of a step comes after its `stopped` ----------

  /** Neither a pause that stops the client, nor a result, nor a failed step: nothing that empties the
      buffer or ends stepping. */
  predicate Buffers(s: State, e: Event) {
    !StopsAt(s, e) && !(e.Result? && e.parses) && e != StepDone(false)
  }

  ghost predicate AllBuffer(s: State, es: seq<Event>)
    requires CanRun(s, es)
    decreases |es|
  {
    es == [] || (Buffers(s, es[0]) && AllBuffer(Apply(s, es[0]), es[1..]))
  }

  function ConsoleOutputs(es: seq<Event>): seq<Output> {
    if es == [] then [] else (if es[0].Console? then [es[0].output] else []) + ConsoleOutputs(es[1..])
  }

  lemma {:induction false} BufferedWhileStepping(s: State, es: seq<Event>)
    requires CanRun(s, es) && s.stepping && AllBuffer(s, es)
    ensures var s' := Run(s, es);
            s'.stepping && Outputs(s'.sent) == Outputs(s.sent) && s'.pending == s.pending + ConsoleOutputs(es)
    decreases |es|
  {
    hide Outputs, Apply, Enabled;
    if es == [] {
      assert s.pending + [] == s.pending;
    } else {
      StepOutputs(s, es[0]);
      StillStepping(s, es[0]);
      BufferedWhileStepping(Apply(s, es[0]), es[1..]);
      var first := if es[0].Console? then [es[0].output] else [];
      assert (s.pending + first) + ConsoleOutputs(es[1..]) == s.pending + (first + ConsoleOutputs(es[1..]));
      assert s.pending + [] == s.pending;
    }
  }

  lemma StillStepping(s: State, e: Event)
    requires Enabled(s, e) && s.stepping && Buffers(s, e)
    ensures Apply(s, e).stepping
  {
  }

  /** When a step ends in a pause that stops the client, the messages that arrived during it are sent right
      after that step's `stopped` event, in order, and none of them before it. */
  lemma StepOutputAfterStopped(s: State, es: seq<Event>, e: Event)
    requires CanRun(s, es) && s.stepping && AllBuffer(s, es) && StopsAt(Run(s, es), e)
    ensures var before := Run(s, es);
            && Outputs(before.sent) == Outputs(s.sent) && Enabled(before, e)
            && Apply(before, e).sent == before.sent + [Stopped] + OutputEvents(s.pending + ConsoleOutputs(es))
            && Apply(before, e).pending == [] && !Apply(before, e).stepping
  {
    hide Run, CanRun, Outputs, ConsoleOutputs, OutputEvents;
    BufferedWhileStepping(s, es);
  }

  // ---------- At most one `terminated` ----------

  function Terminations(ms: seq<Message>): nat {
    if ms == [] then 0 else Terminations(ms[..|ms| - 1]) + if ms[|ms| - 1].Terminated? then 1 else 0
  }

  function LaunchFailures(es: seq<Event>): nat {
    if es == [] then 0 else (if es[0].LaunchFails? then 1 else 0) + LaunchFailures(es[1..])
  }

  lemma TerminationsAppend(ms: seq<Message>, m: Message)
    ensures Terminations(ms + [m]) == Terminations(ms) + if m.Terminated? then 1 else 0
  {
    assert (ms + [m])[..|ms|] == ms;
  }

  lemma {:induction false} TerminationsOfOutputs(ms: seq<Message>, os: seq<Output>)
    ensures Terminations(ms + OutputEvents(os)) == Terminations(ms)
  {
    if os == [] {
      assert ms + OutputEvents(os) == ms;
    } else {
      var init, last := os[..|os| - 1], os[|os| - 1];
      TerminationsOfOutputs(ms, init);
      assert ms + OutputEvents(os) == (ms + OutputEvents(init)) + [OutputEvent(last)];
      TerminationsAppend(ms + OutputEvents(init), OutputEvent(last));
    }
  }

  /** `terminated` events sent, or owed by a terminate request that is waiting. */
  function Owed(s: State): nat {
    Terminations(s.sent) + s.terminating[true]
  }

  lemma OwedStep(s: State, e: Event)
    requires Enabled(s, e)
    ensures Owed(Apply(s, e)) + (if s.terminatedSent then 1 else 0)
            == Owed(s) + (if Apply(s, e).terminatedSent then 1 else 0) + (if e.LaunchFails? then 1 else 0)
  {
    hide Terminations;
    TerminationsAppend(s.sent, Terminated);
    match e
    case Console(o) => TerminationsAppend(s.sent, OutputEvent(o));
    case Result(_) =>
      TerminationsOfOutputs(s.sent, s.pending);
      TerminationsAppend(Flush(s).sent, Terminated);
    case Paused(_) =>
      TerminationsAppend(s.sent, Stopped);
      TerminationsOfOutputs(s.sent + [Stopped], s.pending);
    case StepDone(ok) => TerminationsAppend(s.sent, Response(ok));
    case TerminateEnd(_) =>
      TerminationsAppend(s.sent, Response(true));
      TerminationsAppend(s.sent + [Response(true)], Terminated);
      assert s.sent + [Response(true)] + [] == s.sent + [Response(true)];
    case _ =>
  }

  lemma {:induction false} OwedAlongRun(s: State, es: seq<Event>)
    requires CanRun(s, es)
    ensures Owed(Run(s, es)) + (if s.terminatedSent then 1 else 0)
            == Owed(s) + (if Run(s, es).terminatedSent then 1 else 0) + LaunchFailures(es)
    decreases |es|
  {
    hide Owed, Apply, Enabled;
    if es != [] {
      OwedStep(s, es[0]);
      OwedAlongRun(Apply(s, es[0]), es[1..]);
    }
  }

  /** The events that claim the session's one `terminated`. */
  predicate Claims(e: Event) {
    (e.Result? && e.parses) || e.ProcessExit? || e.InspectorClose? || e.TerminateStart?
  }

  ghost predicate Claimed(es: seq<Event>) {
    exists i :: 0 <= i < |es| && Claims(es[i])
  }

  lemma ClaimStep(s: State, e: Event)
    requires Enabled(s, e)
    ensures Apply(s, e).terminatedSent <==> s.terminatedSent || Claims(e)
  {
  }

  lemma {:induction false} FlagIffClaimed(s: State, es: seq<Event>)
    requires CanRun(s, es)
    ensures Run(s, es).terminatedSent <==> s.terminatedSent || Claimed(es)
    decreases |es|
  {
    hide Apply, Enabled, Claims;
    if es != [] {
      ClaimStep(s, es[0]);
      FlagIffClaimed(Apply(s, es[0]), es[1..]);
      assert forall i :: 1 <= i < |es| ==> es[i] == es[1..][i - 1];
    }
  }

  /** Over every interleaving of starts, result capture, process exit, inspector close and terminate
      requests around their awaits: what was sent, or is owed by a terminate request still waiting, is
      one `terminated` for each failed start and one more if anything claimed it. */
  lemma TerminatedCount(es: seq<Event>)
    requires CanRun(Initial, es)
    ensures Owed(Run(Initial, es)) == LaunchFailures(es) + if Claimed(es) then 1 else 0
  {
    hide Run, CanRun, LaunchFailures, Claimed, Terminations;
    OwedAlongRun(Initial, es);
    FlagIffClaimed(Initial, es);
    NoTerminations();
  }

  /** With no terminate request waiting, the client got at most one `terminated` exactly when no start
      failed, or one failed and there was no parsed result, exit, close or terminate request. */
  lemma AtMostOneTerminatedIff(es: seq<Event>)
    requires CanRun(Initial, es)
    ensures Terminations(Run(Initial, es).sent) <= 1 + LaunchFailures(es)
    ensures Run(Initial, es).terminating[true] == 0 ==>
              (Terminations(Run(Initial, es).sent) <= 1
               <==> LaunchFailures(es) == 0 || (LaunchFailures(es) == 1 && !Claimed(es)))
  {
    hide Run, CanRun, LaunchFailures, Claimed;
    TerminatedCount(es);
  }

  const NORMAL_RUN := [Connects, StartSucceeds, ProcessExit, InspectorClose]

  /** A session that starts, exits and closes sends one. */
  lemma NormalRunSendsOnce()
    ensures CanRun(Initial, NORMAL_RUN) && Terminations(Run(Initial, NORMAL_RUN).sent) == 1
  {
    hide Run, CanRun, Terminations;
    var s1 := Apply(Initial, Connects);
    var s2 := Apply(s1, StartSucceeds);
    var s3 := Apply(s2, ProcessExit);
    RunOne(s3, InspectorClose);
    RunCons(s2, ProcessExit, [InspectorClose]);
    RunCons(s1, StartSucceeds, [ProcessExit] + [InspectorClose]);
    RunCons(Initial, Connects, [StartSucceeds] + ([ProcessExit] + [InspectorClose]));
    assert [Connects] + ([StartSucceeds] + ([ProcessExit] + [InspectorClose])) == NORMAL_RUN;
    NoTerminations();
    TerminationsAppend([], Terminated);
    assert [] + [Terminated] == [Terminated];
  }

  const FAILED_START := [Connects, LaunchFails, InspectorClose]

  /** A start that fails after it connected sends `terminated`, and so does the closing of its
      connection. */
  lemma FailedStartSendsTwice()
    ensures CanRun(Initial, FAILED_START) && Terminations(Run(Initial, FAILED_START).sent) == 2
  {
    hide Run, CanRun, Terminations;
    var s := Apply(Initial, Connects);
    var s' := Apply(s, LaunchFails);
    RunOne(s', InspectorClose);
    RunCons(s, LaunchFails, [InspectorClose]);
    RunCons(Initial, Connects, [LaunchFails] + [InspectorClose]);
    assert [Connects] + ([LaunchFails] + [InspectorClose]) == FAILED_START;
    NoTerminations();
    TerminationsAppend([], Terminated);
    TerminationsAppend([Terminated], Terminated);
    assert [] + [Terminated] == [Terminated];
  }

  lemma NoTerminations()
    ensures Terminations([]) == 0
  {
  }

  lemma RunCons(s: State, e: Event, rest: seq<Event>)
    requires Enabled(s, e) && CanRun(Apply(s, e), rest)
    ensures CanRun(s, [e] + rest) && Run(s, [e] + rest) == Run(Apply(s, e), rest)
  {
    hide Apply, Enabled;
    assert ([e] + rest)[1..] == rest;
  }
}
