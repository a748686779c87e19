/** The event-driven state machine: named states holding listener callbacks and
    success / error / interrupt counters, a register of states, and an observer
    that holds the single active state and dispatches `change`, `finish`,
    `error` and `interrupt` events to bound handlers.

    Listeners and handlers are opaque callables (type parameters `L` and `H`);
    what a listener does when called is given as its `Outcome`: it returned,
    it raised a `StateInterrupt`, or it raised another exception. The
    arguments a state is entered with have type `A`. */
module StateUtils {
  import opened Util

  /** The exception a listener raises to abandon its run without error. */
  datatype StateInterrupt = StateInterrupt(id: string, args: seq<string>)

  /** How one listener call ended. */
  datatype Outcome = Returned | Interrupted(si: StateInterrupt) | Raised(error: ErrorKind)

  /** A value offered to `State.bind`, which accepts only callables. */
  datatype Callable<L> = Callable(fn: L) | NotCallable

  /** `count`: successes, errors and interrupts. */
  datatype Counts = Counts(success: nat, errors: nat, interrupts: nat)

  /** The entry `{'listener': ..., 'exception': ...}` collected for a failed listener. */
  datatype ErrorRecord<L> = ErrorRecord(listener: L, exception: ErrorKind)

  /** The events an observer notifies, with the arguments its handlers receive. */
  datatype Event<L, A> =
    | Change(from: State?<L, A>, to: State<L, A>)
    | Finish(state: State<L, A>)
    | Error(state: State<L, A>, errors: seq<ErrorRecord<L>>)
    | Interrupt(state: State<L, A>, si: StateInterrupt)

  /** The four event names a handler can be bound to. */
  datatype EventKind = OnChange | OnFinish | OnError | OnInterrupt

  function EventName(k: EventKind): string {
    match k
    case OnChange => "change"
    case OnFinish => "finish"
    case OnError => "error"
    case OnInterrupt => "interrupt"
  }

  /** The event kind an event name denotes, None outside the four known names. */
  function ParseEvent(name: string): (r: Option<EventKind>)
    ensures r.Some? ==> EventName(r.value) == name
  {
    if name == "change" then Some(OnChange)
    else if name == "finish" then Some(OnFinish)
    else if name == "error" then Some(OnError)
    else if name == "interrupt" then Some(OnInterrupt)
    else None
  }

  /** Exactly the four names are recognised, each as its own kind. */
  lemma ParseEventNames(k: EventKind)
    ensures ParseEvent(EventName(k)) == Some(k)
    ensures ParseEvent("Change") == None && ParseEvent("") == None
  {
  }

  function KindOf<L, A>(e: Event<L, A>): EventKind {
    match e
    case Change(_, _) => OnChange
    case Finish(_) => OnFinish
    case Error(_, _) => OnError
    case Interrupt(_, _) => OnInterrupt
  }

  // ---------------------------------------------------------------------
  // Specification functions for State.action
  // ---------------------------------------------------------------------

  /** One listener's contribution to the counters. */
  function Bump(c: Counts, o: Outcome): (r: Counts)
    ensures r.success + r.errors + r.interrupts == c.success + c.errors + c.interrupts + 1
  {
    match o
    case Returned => c.(success := c.success + 1)
    case Interrupted(_) => c.(interrupts := c.interrupts + 1)
    case Raised(_) => c.(errors := c.errors + 1)
  }

  function Tally(c: Counts, outcomes: seq<Outcome>): Counts {
    if outcomes == [] then c else Bump(Tally(c, outcomes[..|outcomes| - 1]), outcomes[|outcomes| - 1])
  }

  /** Each listener adds exactly one to exactly one counter: the counters grow
      by the number of successes, errors and interrupts among the outcomes. */
  lemma {:induction false} TallyCounts(c: Counts, outcomes: seq<Outcome>)
    ensures Tally(c, outcomes).success == c.success + CountOf(outcomes, Returned)
    ensures Tally(c, outcomes).errors == c.errors + |outcomes| - CountOf(outcomes, Returned) - CountInterrupts(outcomes)
    ensures Tally(c, outcomes).interrupts == c.interrupts + CountInterrupts(outcomes)
    ensures CountOf(outcomes, Returned) + CountInterrupts(outcomes) <= |outcomes|
  {
    if outcomes != [] {
      TallyCounts(c, outcomes[..|outcomes| - 1]);
    }
  }

  function CountOf(outcomes: seq<Outcome>, o: Outcome): nat {
    if outcomes == [] then 0
    else CountOf(outcomes[..|outcomes| - 1], o) + (if outcomes[|outcomes| - 1] == o then 1 else 0)
  }

  function CountInterrupts(outcomes: seq<Outcome>): nat {
    if outcomes == [] then 0
    else CountInterrupts(outcomes[..|outcomes| - 1]) + (if outcomes[|outcomes| - 1].Interrupted? then 1 else 0)
  }

  predicate AnyInterrupt(outcomes: seq<Outcome>) {
    exists i :: 0 <= i < |outcomes| && outcomes[i].Interrupted?
  }

  /** The error records collected, in listener order. */
  function Errors<L>(ls: seq<L>, outcomes: seq<Outcome>): seq<ErrorRecord<L>>
    requires |ls| == |outcomes|
  {
    if ls == [] then []
    else
      var n := |ls| - 1;
      Errors(ls[..n], outcomes[..n]) + (if outcomes[n].Raised? then [ErrorRecord(ls[n], outcomes[n].error)] else [])
  }

  /** Errors are collected exactly when some listener raised something other
      than a StateInterrupt. */
  lemma {:induction false} ErrorsExist<L>(ls: seq<L>, outcomes: seq<Outcome>)
    requires |ls| == |outcomes|
    ensures |Errors(ls, outcomes)| > 0 <==> exists i :: 0 <= i < |outcomes| && outcomes[i].Raised?
  {
    if ls != [] {
      var n := |ls| - 1;
      ErrorsExist(ls[..n], outcomes[..n]);
      assert forall i :: 0 <= i < n ==> outcomes[..n][i] == outcomes[i];
    }
  }

  /** The interrupt events notified during the run, in listener order. */
  function InterruptEvents<L, A>(s: State<L, A>, outcomes: seq<Outcome>): seq<Event<L, A>> {
    if outcomes == [] then []
    else
      var n := |outcomes| - 1;
      InterruptEvents(s, outcomes[..n]) + (if outcomes[n].Interrupted? then [Interrupt(s, outcomes[n].si)] else [])
  }

  /** A `set_state(name, args)` call a listener makes on the observer while
      it runs. */
  datatype SetStateCall<A> = SetStateCall(name: string, args: A)

  /** The part of an observer a listener can change through set_state: the
      active state, its arguments and every event notified so far. */
  datatype ObserverView<L, A> = ObserverView(active: State?<L, A>, args: Option<A>, events: seq<Event<L, A>>)

  /** The observer after one set_state call over the register `byName`: an
      unknown name is a KeyError that changes nothing; otherwise change is
      notified, then finish of a state that was active, and the named state
      becomes active with the call's arguments. */
  function AfterSetState<L, A>(byName: map<string, State<L, A>>, v: ObserverView<L, A>, c: SetStateCall<A>): ObserverView<L, A> {
    if c.name !in byName then v
    else
      var next := byName[c.name];
      ObserverView(next, Some(c.args),
                   v.events + [Change(v.active, next)] + (if v.active != null then [Finish(v.active)] else []))
  }

  /** The observer after a listener's set_state calls, in order. */
  function AfterSetStates<L, A>(byName: map<string, State<L, A>>, v: ObserverView<L, A>, calls: seq<SetStateCall<A>>): ObserverView<L, A> {
    if calls == [] then v
    else AfterSetState(byName, AfterSetStates(byName, v, calls[..|calls| - 1]), calls[|calls| - 1])
  }

  /** The observer after the listener loop of `action` on state `s`: listener
      i makes its set_state calls `calls[i]` and then ends with `outcomes[i]`,
      an interrupt being notified after the calls it made. */
  function AfterRun<L, A>(s: State<L, A>, byName: map<string, State<L, A>>, v: ObserverView<L, A>,
                          calls: seq<seq<SetStateCall<A>>>, outcomes: seq<Outcome>): ObserverView<L, A>
    requires |calls| == |outcomes|
  {
    if outcomes == [] then v
    else
      var n := |outcomes| - 1;
      var w := AfterSetStates(byName, AfterRun(s, byName, v, calls[..n], outcomes[..n]), calls[n]);
      w.(events := w.events + (if outcomes[n].Interrupted? then [Interrupt(s, outcomes[n].si)] else []))
  }

  /** After a listener's set_state calls, the active state is the one named
      by the last call with a registered name, with that call's arguments. */
  lemma {:induction false} SetStatesLast<L, A>(byName: map<string, State<L, A>>, v: ObserverView<L, A>,
                                              calls: seq<SetStateCall<A>>, k: nat)
    requires k < |calls| && calls[k].name in byName
    requires forall j :: k < j < |calls| ==> calls[j].name !in byName
    ensures AfterSetStates(byName, v, calls).active == byName[calls[k].name]
    ensures AfterSetStates(byName, v, calls).args == Some(calls[k].args)
  {
    var n := |calls| - 1;
    if k < n {
      var pre := calls[..n];
      assert pre[k] == calls[k];
      assert forall j :: k < j < |pre| ==> pre[j] == calls[j];
      SetStatesLast(byName, v, pre, k);
    }
  }

  /** When no call names a registered state, the calls change nothing. */
  lemma {:induction false} SetStatesUnknown<L, A>(byName: map<string, State<L, A>>, v: ObserverView<L, A>,
                                                 calls: seq<SetStateCall<A>>)
    requires forall i :: 0 <= i < |calls| ==> calls[i].name !in byName
    ensures AfterSetStates(byName, v, calls) == v
  {
    if calls != [] {
      var n := |calls| - 1;
      assert forall i :: 0 <= i < n ==> calls[..n][i] == calls[i];
      SetStatesUnknown(byName, v, calls[..n]);
    }
  }

  /** set_state only appends events: what was notified before stays. */
  lemma {:induction false} SetStatesGrow<L, A>(byName: map<string, State<L, A>>, v: ObserverView<L, A>,
                                              calls: seq<SetStateCall<A>>)
    ensures |AfterSetStates(byName, v, calls).events| >= |v.events|
    ensures AfterSetStates(byName, v, calls).events[..|v.events|] == v.events
  {
    if calls != [] {
      var n := |calls| - 1;
      SetStatesGrow(byName, v, calls[..n]);
      var p := AfterSetStates(byName, v, calls[..n]);
      var r := AfterSetStates(byName, v, calls);
      assert r.events[..|p.events|] == p.events;
      assert r.events[..|v.events|] == p.events[..|v.events|];
    }
  }

  /** When no listener calls set_state, the listener loop changes neither
      the active state nor its arguments and notifies only the interrupts. */
  lemma {:induction false} QuietRun<L, A>(s: State<L, A>, byName: map<string, State<L, A>>, v: ObserverView<L, A>,
                                         calls: seq<seq<SetStateCall<A>>>, outcomes: seq<Outcome>)
    requires |calls| == |outcomes| && forall i :: 0 <= i < |calls| ==> calls[i] == []
    ensures AfterRun(s, byName, v, calls, outcomes) == v.(events := v.events + InterruptEvents(s, outcomes))
  {
    if outcomes != [] {
      var n := |outcomes| - 1;
      assert forall i :: 0 <= i < n ==> calls[..n][i] == calls[i];
      QuietRun(s, byName, v, calls[..n], outcomes[..n]);
      assert calls[n] == [];
    }
  }

  /** A listener that moves the observer to another state hands over: when
      the state active after the listener loop is not `s`, the end of
      `action` notifies no finish for `s` and leaves that state active
      (unless an error clears it). */
  lemma HandOver<L, A>(s: State<L, A>, byName: map<string, State<L, A>>, v: ObserverView<L, A>,
                       calls: seq<seq<SetStateCall<A>>>, outcomes: seq<Outcome>, ls: seq<L>, interrupted: bool)
    requires |calls| == |outcomes| == |ls|
    requires AfterRun(s, byName, v, calls, outcomes).active != s
    ensures var after := AfterRun(s, byName, v, calls, outcomes).active;
      var errors := Errors(ls, outcomes);
      Finish(s) !in Conclusion(s, after, errors, interrupted) &&
      (|errors| == 0 ==> ConcludedActive(s, after, errors, interrupted) == after)
  {
  }

  /** The call `listener(*args)` for each listener, in bind order. */
  function Invocations<L, A>(ls: seq<L>, args: A): (r: seq<(L, A)>)
    ensures |r| == |ls| && forall i :: 0 <= i < |ls| ==> r[i] == (ls[i], args)
  {
    seq(|ls|, i requires 0 <= i < |ls| => (ls[i], args))
  }

  /** What the end of `action` notifies: one error event carrying every
      collected error; otherwise finish, but only for the active state when it
      was not interrupted. */
  function Conclusion<L, A>(s: State<L, A>, active: State?<L, A>, errors: seq<ErrorRecord<L>>, interrupted: bool): seq<Event<L, A>> {
    if |errors| > 0 then [Error(s, errors)]
    else if active == s && !interrupted then [Finish(s)]
    else []
  }

  /** The active state after the end of `action`. */
  function ConcludedActive<L, A>(s: State<L, A>, active: State?<L, A>, errors: seq<ErrorRecord<L>>, interrupted: bool): State?<L, A> {
    if |errors| > 0 then null
    else if active == s && !interrupted then null
    else active
  }

  /** The end of `action` either clears the active state or leaves it alone;
      an interrupted error-free run leaves it active (so it is yielded again),
      and a finish is notified exactly when an active, uninterrupted,
      error-free state is cleared. */
  lemma ConclusionCases<L, A>(s: State<L, A>, active: State?<L, A>, errors: seq<ErrorRecord<L>>, interrupted: bool)
    ensures var after := ConcludedActive(s, active, errors, interrupted);
      var events := Conclusion(s, active, errors, interrupted);
      (after == null || after == active) &&
      (|errors| == 0 && interrupted ==> after == active && events == []) &&
      (events == [Finish(s)] <==> |errors| == 0 && active == s && !interrupted) &&
      (|errors| > 0 ==> events == [Error(s, errors)] && after == null) &&
      (|events| <= 1)
  {
  }

  // ---------------------------------------------------------------------
  // Handler dispatch
  // ---------------------------------------------------------------------

  /** The handler calls `notify_handler` makes for one event: every handler
      bound to the event's name, in bind order. */
  function Dispatch<H, L, A>(handlers: seq<(EventKind, H)>, e: Event<L, A>): seq<(H, Event<L, A>)> {
    if handlers == [] then []
    else
      var n := |handlers| - 1;
      Dispatch(handlers[..n], e) + (if handlers[n].0 == KindOf(e) then [(handlers[n].1, e)] else [])
  }

  /** A handler is called for an event exactly when it was bound to that
      event's name, and handlers bound in sequence are called in sequence. */
  lemma {:induction false} DispatchMeaning<H, L, A>(handlers: seq<(EventKind, H)>, e: Event<L, A>, h: H)
    ensures (h, e) in Dispatch(handlers, e) <==> (KindOf(e), h) in handlers
    ensures forall c :: c in Dispatch(handlers, e) ==> c.1 == e
  {
    if handlers != [] {
      var n := |handlers| - 1;
      DispatchMeaning(handlers[..n], e, h);
      assert handlers == handlers[..n] + [handlers[n]];
    }
  }

  lemma {:induction false} DispatchAppend<H, L, A>(a: seq<(EventKind, H)>, b: seq<(EventKind, H)>, e: Event<L, A>)
    ensures Dispatch(a + b, e) == Dispatch(a, e) + Dispatch(b, e)
    decreases |b|
  {
    if b == [] {
      assert a + b == a;
    } else {
      var n := |b| - 1;
      DispatchAppend(a, b[..n], e);
      assert (a + b)[..|a + b| - 1] == a + b[..n];
    }
  }

  // ---------------------------------------------------------------------
  // State
  // ---------------------------------------------------------------------

  class State<L, A> {
    const name: string
    var listeners: seq<L>
    var count: Counts
    var wasInterrupted: bool
    /** The listener calls made so far, with their arguments. */
    var invocations: seq<(L, A)>

    constructor (name: string)
      ensures this.name == name && listeners == [] && count == Counts(0, 0, 0)
      ensures !wasInterrupted && invocations == []
    {
      this.name := name;
      listeners := [];
      count := Counts(0, 0, 0);
      wasInterrupted := false;
      invocations := [];
    }

    /** bind: appends a callable listener; anything else is a TypeError. */
    method Bind(action: Callable<L>) returns (err: Option<ErrorKind>)
      modifies this
      ensures err.None? <==> action.Callable?
      ensures err.Some? ==> err.value == TypeError && listeners == old(listeners)
      ensures err.None? ==> listeners == old(listeners) + [action.fn]
      ensures count == old(count) && wasInterrupted == old(wasInterrupted) && invocations == old(invocations)
    {
      if action.NotCallable? {
        return Some(TypeError);
      }
      listeners := listeners + [action.fn];
      return None;
    }

    /** The start of action: the interrupt flag is reset. */
    method Begin()
      modifies this
      ensures !wasInterrupted
      ensures listeners == old(listeners) && count == old(count) && invocations == old(invocations)
    {
      wasInterrupted := false;
    }

    /** Book-keeping for one listener call that ended with `outcome`. */
    method Record<H>(host: StateObserver<L, H, A>, listener: L, args: A, outcome: Outcome,
                     errors: seq<ErrorRecord<L>>) returns (errors': seq<ErrorRecord<L>>)
      modifies this, host
      ensures invocations == old(invocations) + [(listener, args)]
      ensures count == Bump(old(count), outcome)
      ensures wasInterrupted == (old(wasInterrupted) || outcome.Interrupted?)
      ensures errors' == errors + (if outcome.Raised? then [ErrorRecord(listener, outcome.error)] else [])
      ensures listeners == old(listeners)
      ensures host.notified == old(host.notified) + (if outcome.Interrupted? then [Interrupt(this, outcome.si)] else [])
      ensures host.Unchanged(old(host.handlers), old(host.active), old(host.activeArgs))
    {
      invocations := invocations + [(listener, args)];
      errors' := errors;
      match outcome
      case Returned =>
        count := count.(success := count.success + 1);
      case Interrupted(si) =>
        wasInterrupted := true;
        var _ := host.NotifyHandler(Interrupt(this, si));
        count := count.(interrupts := count.interrupts + 1);
      case Raised(e) =>
        errors' := errors + [ErrorRecord(listener, e)];
        count := count.(errors := count.errors + 1);
    }

    /** The end of action: report errors and clear the active state, or hand
        over to state_finished. */
    method Conclude<H>(host: StateObserver<L, H, A>, errors: seq<ErrorRecord<L>>)
      modifies host
      ensures host.notified == old(host.notified) + Conclusion(this, old(host.active), errors, wasInterrupted)
      ensures host.active == ConcludedActive(this, old(host.active), errors, wasInterrupted)
      ensures host.handlers == old(host.handlers) && host.activeArgs == old(host.activeArgs)
    {
      if |errors| > 0 {
        var _ := host.NotifyHandler(Error(this, errors));
        host.active := null;
      } else {
        host.StateFinished(this);
      }
    }

    /** action(host, *args): call every listener in bind order with the same
        arguments; the i-th call makes the set_state calls `calls[i]` on the
        host and ends with `outcomes[i]`. The end of the action is decided on
        the state the listeners left active. */
    method Action<H>(host: StateObserver<L, H, A>, args: A, calls: seq<seq<SetStateCall<A>>>, outcomes: seq<Outcome>)
      requires |calls| == |outcomes| == |listeners|
      modifies this, host
      ensures listeners == old(listeners)
      ensures invocations == old(invocations) + Invocations(listeners, args)
      ensures count == Tally(old(count), outcomes)
      ensures wasInterrupted <==> AnyInterrupt(outcomes)
      ensures var v := AfterRun(this, host.register.byName, old(host.View()), calls, outcomes);
        var errors := Errors(listeners, outcomes);
        host.notified == v.events + Conclusion(this, v.active, errors, wasInterrupted) &&
        host.active == ConcludedActive(this, v.active, errors, wasInterrupted) &&
        host.activeArgs == v.args
      ensures host.handlers == old(host.handlers)
    {
      Begin();
      var errors := RunListeners(host, args, calls, outcomes);
      Conclude(host, errors);
    }

    /** The loop of action: every listener is called, in bind order, with the
        same arguments, whatever the earlier calls raised. */
    method RunListeners<H>(host: StateObserver<L, H, A>, args: A, calls: seq<seq<SetStateCall<A>>>, outcomes: seq<Outcome>)
      returns (errors: seq<ErrorRecord<L>>)
      requires |calls| == |outcomes| == |listeners| && !wasInterrupted
      modifies this, host
      ensures listeners == old(listeners)
      ensures invocations == old(invocations) + Invocations(listeners, args)
      ensures count == Tally(old(count), outcomes)
      ensures wasInterrupted <==> AnyInterrupt(outcomes)
      ensures errors == Errors(listeners, outcomes)
      ensures host.View() == AfterRun(this, host.register.byName, old(host.View()), calls, outcomes)
      ensures host.handlers == old(host.handlers)
    {
      errors := [];
      for i := 0 to |listeners|
        invariant listeners == old(listeners)
        invariant invocations == old(invocations) + Invocations(listeners[..i], args)
        invariant count == Tally(old(count), outcomes[..i])
        invariant wasInterrupted <==> AnyInterrupt(outcomes[..i])
        invariant errors == Errors(listeners[..i], outcomes[..i])
        invariant host.View() == AfterRun(this, host.register.byName, old(host.View()), calls[..i], outcomes[..i])
        invariant host.handlers == old(host.handlers)
      {
        ActionStep(this, host.register.byName, old(host.View()), listeners, calls, outcomes, args, old(count), i);
        host.SetStates(calls[i]);
        errors := Record(host, listeners[i], args, outcomes[i], errors);
      }
      assert outcomes[..|listeners|] == outcomes;
      assert calls[..|listeners|] == calls;
      assert listeners[..|listeners|] == listeners;
    }
  }

  /** How each quantity the action loop maintains grows by one listener. */
  lemma ActionStep<L, A>(s: State<L, A>, byName: map<string, State<L, A>>, v: ObserverView<L, A>,
                         ls: seq<L>, calls: seq<seq<SetStateCall<A>>>, outcomes: seq<Outcome>,
                         args: A, c: Counts, i: nat)
    requires |ls| == |calls| == |outcomes| && i < |ls|
    ensures Invocations(ls[..i + 1], args) == Invocations(ls[..i], args) + [(ls[i], args)]
    ensures Tally(c, outcomes[..i + 1]) == Bump(Tally(c, outcomes[..i]), outcomes[i])
    ensures AnyInterrupt(outcomes[..i + 1]) <==> AnyInterrupt(outcomes[..i]) || outcomes[i].Interrupted?
    ensures Errors(ls[..i + 1], outcomes[..i + 1]) == Errors(ls[..i], outcomes[..i]) +
      (if outcomes[i].Raised? then [ErrorRecord(ls[i], outcomes[i].error)] else [])
    ensures var w := AfterSetStates(byName, AfterRun(s, byName, v, calls[..i], outcomes[..i]), calls[i]);
      AfterRun(s, byName, v, calls[..i + 1], outcomes[..i + 1]) ==
      w.(events := w.events + (if outcomes[i].Interrupted? then [Interrupt(s, outcomes[i].si)] else []))
  {
    assert calls[..i + 1][..i] == calls[..i];
    assert outcomes[..i + 1][..i] == outcomes[..i];
    assert ls[..i + 1][..i] == ls[..i];
    assert outcomes[..i + 1][i] == outcomes[i];
    if AnyInterrupt(outcomes[..i + 1]) {
      var k :| 0 <= k < i + 1 && outcomes[..i + 1][k].Interrupted?;
      if k < i {
        assert outcomes[..i][k] == outcomes[k];
      }
    }
    if AnyInterrupt(outcomes[..i]) {
      var k :| 0 <= k < i && outcomes[..i][k].Interrupted?;
      assert outcomes[..i + 1][k] == outcomes[k];
    }
  }

  // ---------------------------------------------------------------------
  // StateRegister
  // ---------------------------------------------------------------------

  /** A value offered to `register_state`, which keeps only State objects. */
  datatype Registrable<L, A> = AState(state: State<L, A>) | NotAState

  /** The first position of `x` in `s`, compared by identity (`list.index`). */
  function IndexOf<T(==)>(s: seq<T>, x: T): (r: Option<nat>)
    ensures r.None? <==> x !in s
    ensures r.Some? ==> r.value < |s| && s[r.value] == x && forall j :: 0 <= j < r.value ==> s[j] != x
  {
    if s == [] then None
    else if s[0] == x then Some(0)
    else match IndexOf(s[1..], x)
      case None => None
      case Some(k) => Some(k + 1)
  }

  class StateRegister<L, A> {
    /** `states[0]`, the registration list, and `states[1]`, the dict by name. */
    var list: seq<State<L, A>>
    var byName: map<string, State<L, A>>

    ghost predicate Valid()
      reads this
    {
      forall n :: n in byName ==> byName[n] in list && byName[n].name == n
    }

    constructor ()
      ensures list == [] && byName == map[] && Valid()
    {
      list := [];
      byName := map[];
    }

    /** register_state: appends a State and indexes it by its name (a later
        state of the same name replaces the earlier in the index); anything
        else is ignored. */
    method RegisterState(v: Registrable<L, A>)
      requires Valid()
      modifies this
      ensures Valid()
      ensures v.AState? ==> list == old(list) + [v.state] && byName == old(byName)[v.state.name := v.state]
      ensures v.NotAState? ==> list == old(list) && byName == old(byName)
    {
      if v.AState? {
        list := list + [v.state];
        byName := byName[v.state.name := v.state];
      }
    }

    /** get_state: the state registered under `name`, KeyError if none. */
    function GetState(name: string): (r: Result<State<L, A>>)
      reads this
      ensures r.Err? <==> name !in byName
      ensures r.Err? ==> r.error == KeyError
      ensures r.Ok? ==> r.value == byName[name]
    {
      if name in byName then Ok(byName[name]) else Err(KeyError)
    }

    /** get_state_id: the registration index of get_state(name). */
    function GetStateId(name: string): (r: Result<nat>)
      reads this
    {
      if name !in byName then Err(KeyError)
      else match IndexOf(list, byName[name])
        case None => Err(ValueError)
        case Some(k) => Ok(k)
    }

    /** For a registered name the id is the first registration index of the
        state get_state returns; an unknown name is a KeyError. */
    lemma StateIdMeaning(name: string)
      requires Valid()
      ensures GetStateId(name).Err? <==> GetState(name).Err?
      ensures GetStateId(name).Err? ==> GetStateId(name).error == KeyError
      ensures GetStateId(name).Ok? ==> var k := GetStateId(name).value;
        k < |list| && list[k] == GetState(name).value &&
        forall j :: 0 <= j < k ==> list[j] != list[k]
    {
    }

    /** bind_states: for each (name, fn), in the dict's iteration order, bind
        fn to the named state; stops at the first unknown name (KeyError) or
        uncallable fn (TypeError), keeping the bindings made before it. */
    method BindStates(items: seq<(string, Callable<L>)>) returns (err: Option<ErrorKind>)
      requires Valid()
      modifies byName.Values
      ensures err.None? <==> FirstFailure(items) == |items|
      ensures err.Some? ==> err.value == (if items[FirstFailure(items)].0 !in byName then KeyError else TypeError)
      ensures forall n :: n in byName ==>
        byName[n].listeners == old(byName[n].listeners) + BoundTo(items[..FirstFailure(items)], n)
    {
      ghost var start := Bindings();
      var i := 0;
      assert WithBound(start, items[..0]) == start by {
        assert forall n :: n in start ==> WithBound(start, items[..0])[n] == start[n];
      }
      while i < |items|
        invariant 0 <= i <= FirstFailure(items)
        invariant Bindings() == WithBound(start, items[..i])
        decreases |items| - i
      {
        err := BindEntry(items, i);
        if err.Some? {
          BoundListeners(start, items[..i]);
          return;
        }
        WithBoundStep(start, items, i);
        i := i + 1;
      }
      assert items[..i] == items;
      BoundListeners(start, items);
      err := None;
    }

    /** The listener lists of the registered states, by name. */
    ghost function Bindings(): (m: map<string, seq<L>>)
      reads this, byName.Values
      ensures m.Keys == byName.Keys
    {
      map n | n in byName :: byName[n].listeners
    }

    /** What the listener table reads after bind_states got through `start`
        without an error left. */
    lemma BoundListeners(m: map<string, seq<L>>, done: seq<(string, Callable<L>)>)
      requires Bindings() == WithBound(m, done)
      ensures forall n :: n in byName ==> byName[n].listeners == m[n] + BoundTo(done, n)
    {
      forall n | n in byName
        ensures byName[n].listeners == m[n] + BoundTo(done, n)
      {
        assert Bindings()[n] == byName[n].listeners;
      }
    }

    /** One step of bind_states: bind items[i], or report why it fails. */
    method BindEntry(items: seq<(string, Callable<L>)>, i: nat) returns (err: Option<ErrorKind>)
      requires Valid() && i < |items| && i <= FirstFailure(items)
      modifies byName.Values
      ensures err.None? <==> i < FirstFailure(items)
      ensures err.Some? ==> i == FirstFailure(items)
      ensures err.Some? ==> err.value == (if items[i].0 !in byName then KeyError else TypeError)
      ensures err.Some? ==> Bindings() == old(Bindings())
      ensures err.None? ==> Bindings() == Appended(old(Bindings()), items[i].0, items[i].1.fn)
    {
      var (name, fn) := items[i];
      var st := GetState(name);
      if st.Err? {
        FailureAt(items, i);
        return Some(st.error);
      }
      ghost var before := Bindings();
      var e := st.value.Bind(fn);
      if e.Some? {
        FailureAt(items, i);
        assert Bindings() == before by {
          assert forall n :: n in byName ==> Bindings()[n] == before[n];
        }
        return e;
      }
      assert forall n :: n in byName && n != name ==> byName[n] != st.value;
      assert Bindings() == Appended(before, name, fn.fn) by {
        assert forall n :: n in byName ==> Bindings()[n] == Appended(before, name, fn.fn)[n];
      }
      FailureAfter(items, i);
      return None;
    }

    /** The position of the first entry bind_states fails on, or |items|. */
    ghost function FirstFailure(items: seq<(string, Callable<L>)>): (k: nat)
      reads this
      ensures k <= |items|
      ensures k < |items| ==> items[k].0 !in byName || items[k].1.NotCallable?
      ensures forall j :: 0 <= j < k ==> items[j].0 in byName && items[j].1.Callable?
    {
      FailureFrom(items, 0)
    }

    ghost function FailureFrom(items: seq<(string, Callable<L>)>, i: nat): (k: nat)
      reads this
      requires i <= |items|
      ensures i <= k <= |items|
      ensures k < |items| ==> items[k].0 !in byName || items[k].1.NotCallable?
      ensures forall j :: i <= j < k ==> items[j].0 in byName && items[j].1.Callable?
      decreases |items| - i
    {
      if i == |items| then i
      else if items[i].0 !in byName || items[i].1.NotCallable? then i
      else FailureFrom(items, i + 1)
    }

    lemma FailureAt(items: seq<(string, Callable<L>)>, i: nat)
      requires i < |items| && (items[i].0 !in byName || items[i].1.NotCallable?)
      requires forall j :: 0 <= j < i ==> items[j].0 in byName && items[j].1.Callable?
      ensures FirstFailure(items) == i
    {
      FailureFromIs(items, 0, i);
    }

    lemma FailureAfter(items: seq<(string, Callable<L>)>, i: nat)
      requires i < |items| && i < FirstFailure(items)
      ensures i + 1 <= FirstFailure(items)
    {
    }

    lemma {:induction false} FailureFromIs(items: seq<(string, Callable<L>)>, from: nat, i: nat)
      requires from <= i < |items| && (items[i].0 !in byName || items[i].1.NotCallable?)
      requires forall j :: from <= j < i ==> items[j].0 in byName && items[j].1.Callable?
      ensures FailureFrom(items, from) == i
      decreases i - from
    {
      if from < i {
        FailureFromIs(items, from + 1, i);
      }
    }
  }

  /** The functions bound to `name`, in order. */
  function BoundTo<L>(items: seq<(string, Callable<L>)>, name: string): seq<L> {
    if items == [] then []
    else
      var n := |items| - 1;
      BoundTo(items[..n], name) + (if items[n].0 == name && items[n].1.Callable? then [items[n].1.fn] else [])
  }

  /** `m` with `f` appended to the list of `name`, when `name` is a key. */
  function Appended<L>(m: map<string, seq<L>>, name: string, f: L): (r: map<string, seq<L>>)
    ensures r.Keys == m.Keys
  {
    if name in m then m[name := m[name] + [f]] else m
  }

  /** `m` with the functions bound by `done` appended, name by name. */
  function WithBound<L>(m: map<string, seq<L>>, done: seq<(string, Callable<L>)>): (r: map<string, seq<L>>)
    ensures r.Keys == m.Keys
    ensures forall n :: n in m ==> r[n] == m[n] + BoundTo(done, n)
  {
    map n | n in m :: m[n] + BoundTo(done, n)
  }

  /** Binding the next entry of `items` is one more Appended step. */
  lemma WithBoundStep<L>(m: map<string, seq<L>>, items: seq<(string, Callable<L>)>, i: nat)
    requires i < |items| && items[i].1.Callable?
    ensures WithBound(m, items[..i + 1]) == Appended(WithBound(m, items[..i]), items[i].0, items[i].1.fn)
  {
    var lhs := WithBound(m, items[..i + 1]);
    var rhs := Appended(WithBound(m, items[..i]), items[i].0, items[i].1.fn);
    forall n | n in m
      ensures lhs[n] == rhs[n]
    {
      BoundToStep(items, i, n);
    }
  }

  /** One more entry appends at most its own function to a name's list. */
  lemma BoundToStep<L>(items: seq<(string, Callable<L>)>, i: nat, name: string)
    requires i < |items|
    ensures BoundTo(items[..i + 1], name) ==
      BoundTo(items[..i], name) + (if items[i].0 == name && items[i].1.Callable? then [items[i].1.fn] else [])
  {
    assert items[..i + 1][..i] == items[..i];
  }

  // ---------------------------------------------------------------------
  // StateObserver
  // ---------------------------------------------------------------------

  class StateObserver<L, H, A> {
    var handlers: seq<(EventKind, H)>
    const register: StateRegister<L, A>
    var active: State?<L, A>
    /** `active_state_args`, absent until the first set_state. */
    var activeArgs: Option<A>
    /** Every event notified, in order. */
    var notified: seq<Event<L, A>>

    ghost predicate Unchanged(handlers0: seq<(EventKind, H)>, active0: State?<L, A>, args0: Option<A>)
      reads this
    {
      handlers == handlers0 && active == active0 && activeArgs == args0
    }

    /** What a listener can change through set_state. */
    ghost function View(): ObserverView<L, A>
      reads this
    {
      ObserverView(active, activeArgs, notified)
    }

    constructor (register: StateRegister<L, A>)
      ensures this.register == register && handlers == [] && active == null
      ensures activeArgs.None? && notified == []
    {
      this.register := register;
      handlers := [];
      active := null;
      activeArgs := None;
      notified := [];
    }

    /** bind(event, callback): known event names are appended, others ignored. */
    method Bind(event: string, callback: H)
      modifies this
      ensures ParseEvent(event).Some? ==> handlers == old(handlers) + [(ParseEvent(event).value, callback)]
      ensures ParseEvent(event).None? ==> handlers == old(handlers)
      ensures active == old(active) && activeArgs == old(activeArgs)
      ensures notified == old(notified)
    {
      var kind := ParseEvent(event);
      if kind.Some? {
        handlers := handlers + [(kind.value, callback)];
      }
    }

    /** notify_handler(event, args): every handler bound to the event is called
        in bind order; whatever a handler raises is swallowed. */
    method NotifyHandler(e: Event<L, A>) returns (made: seq<(H, Event<L, A>)>)
      modifies this
      ensures notified == old(notified) + [e]
      ensures made == Dispatch(handlers, e)
      ensures Unchanged(old(handlers), old(active), old(activeArgs))
    {
      notified := notified + [e];
      var hs := handlers;
      made := [];
      for i := 0 to |hs|
        invariant made == Dispatch(hs[..i], e)
        invariant notified == old(notified) + [e]
        invariant Unchanged(old(handlers), old(active), old(activeArgs))
      {
        assert hs[..i + 1][..i] == hs[..i] && hs[..i + 1][i] == hs[i];
        if hs[i].0 == KindOf(e) {
          made := made + [(hs[i].1, e)];
        }
      }
      assert hs[..|hs|] == hs;
    }

    /** set_state(name, args): an unknown name is a KeyError before anything
        happens; otherwise change(old, new) is notified, then finish(old) if
        a state was active, and the new state and its arguments installed. */
    method SetState(name: string, args: A) returns (err: Option<ErrorKind>)
      modifies this
      ensures err.Some? <==> name !in register.byName
      ensures err.Some? ==> err.value == KeyError
      ensures err.Some? ==> Unchanged(old(handlers), old(active), old(activeArgs)) &&
                            notified == old(notified)
      ensures err.None? ==> var next := register.byName[name];
        var events := [Change(old(active), next)] + (if old(active) != null then [Finish(old(active))] else []);
        active == next && activeArgs == Some(args) && handlers == old(handlers) &&
        notified == old(notified) + events
    {
      var st := register.GetState(name);
      if st.Err? {
        return Some(st.error);
      }
      var next := st.value;
      var _ := NotifyHandler(Change(active, next));
      if active != null {
        var _ := NotifyHandler(Finish(active));
      }
      active := next;
      activeArgs := Some(args);
      return None;
    }

    /** A listener's set_state calls, one after the other; a KeyError
        raised by one of them is the listener's to catch or to raise. */
    method SetStates(calls: seq<SetStateCall<A>>)
      modifies this
      ensures View() == AfterSetStates(register.byName, old(View()), calls)
      ensures handlers == old(handlers)
    {
      for i := 0 to |calls|
        invariant View() == AfterSetStates(register.byName, old(View()), calls[..i])
        invariant handlers == old(handlers)
      {
        assert calls[..i + 1][..i] == calls[..i];
        var _ := SetState(calls[i].name, calls[i].args);
      }
      assert calls[..|calls|] == calls;
    }

    /** state_finished(state): only the active, uninterrupted state is
        finished and cleared. */
    method StateFinished(s: State<L, A>)
      modifies this
      ensures var events := if s == old(active) && !s.wasInterrupted then [Finish(s)] else [];
        notified == old(notified) + events
      ensures active == (if s == old(active) && !s.wasInterrupted then null else old(active))
      ensures handlers == old(handlers) && activeArgs == old(activeArgs)
    {
      if s == active && !s.wasInterrupted {
        var _ := NotifyHandler(Finish(s));
        active := null;
      }
    }

    /** change_state(state): run the state with the arguments of the last
        set_state; before any set_state there are none (AttributeError). */
    method ChangeState(s: State<L, A>, calls: seq<seq<SetStateCall<A>>>, outcomes: seq<Outcome>) returns (err: Option<ErrorKind>)
      requires |calls| == |outcomes| == |s.listeners|
      modifies this, s
      ensures s.listeners == old(s.listeners)
      ensures err.Some? <==> old(activeArgs).None?
      ensures err.Some? ==> err.value == AttributeError && View() == old(View()) && s.count == old(s.count)
      ensures err.None? ==> s.invocations == old(s.invocations) + Invocations(s.listeners, old(activeArgs).value)
      ensures err.None? ==> s.count == Tally(old(s.count), outcomes)
      ensures err.None? ==> var v := AfterRun(s, register.byName, old(View()), calls, outcomes);
        var errors := Errors(s.listeners, outcomes);
        notified == v.events + Conclusion(s, v.active, errors, s.wasInterrupted) &&
        active == ConcludedActive(s, v.active, errors, s.wasInterrupted) &&
        activeArgs == v.args
      ensures handlers == old(handlers)
    {
      if activeArgs.None? {
        return Some(AttributeError);
      }
      s.Action(this, activeArgs.value, calls, outcomes);
      return None;
    }
  }

  /** The generator next_state(): each resumption yields the active state,
      and once it finds none the generator is exhausted for good. */
  class StateCursor<L, H, A> {
    const host: StateObserver<L, H, A>
    var exhausted: bool

    constructor (host: StateObserver<L, H, A>)
      ensures this.host == host && !exhausted
    {
      this.host := host;
      exhausted := false;
    }

    method Next() returns (r: Option<State<L, A>>)
      modifies this
      ensures old(exhausted) ==> r.None? && exhausted
      ensures !old(exhausted) && host.active != null ==> r.Some? && r.value == host.active && !exhausted
      ensures !old(exhausted) && host.active == null ==> r.None? && exhausted
    {
      if exhausted {
        return None;
      }
      if host.active != null {
        return Some(host.active);
      }
      exhausted := true;
      return None;
    }
  }

  /** StateMachine(states_dict): one state per entry, in the dict's iteration
      order, each with the entry's function as its only listener, registered
      under its name, and an observer over them with nothing active. */
  method StateMachine<L, H, A>(items: seq<(string, Callable<L>)>) returns (r: Result<StateObserver<L, H, A>>)
    ensures r.Err? <==> exists i :: 0 <= i < |items| && items[i].1.NotCallable?
    ensures r.Err? ==> r.error == TypeError
    ensures r.Ok? ==> var reg := r.value.register;
      fresh(r.value) && fresh(reg) && reg.Valid() &&
      r.value.active == null && r.value.handlers == [] && |reg.list| == |items| &&
      (forall i :: 0 <= i < |items| ==>
        reg.list[i].name == items[i].0 && reg.list[i].listeners == [items[i].1.fn]) &&
      (forall n :: n in reg.byName <==> exists i :: 0 <= i < |items| && items[i].0 == n)
  {
    var register := new StateRegister<L, A>();
    for i := 0 to |items|
      invariant fresh(register) && register.Valid()
      invariant |register.list| == i
      invariant forall j :: 0 <= j < i ==> fresh(register.list[j])
      invariant forall j :: 0 <= j < i ==> items[j].1.Callable?
      invariant forall j :: 0 <= j < i ==>
        register.list[j].name == items[j].0 && register.list[j].listeners == [items[j].1.fn]
      invariant forall n :: n in register.byName <==> exists j :: 0 <= j < i && items[j].0 == n
    {
      var st := new State<L, A>(items[i].0);
      var e := st.Bind(items[i].1);
      if e.Some? {
        return Err(e.value);
      }
      register.RegisterState(AState(st));
    }
    var observer := new StateObserver<L, H, A>(register);
    return Ok(observer);
  }
}
