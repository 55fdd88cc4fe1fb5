/**
 * The shutdown stopper of package fx: a one-slot `Reason` channel (`trigger`)
 * that is made at most once, either by `start`, which also subscribes a
 * signal channel to SIGINT and SIGTERM and spawns a forwarding goroutine, or
 * by `TakeOver`, which hands the channel to its caller instead.
 *
 * Channels are objects known only by identity and capacity; `make` is `new`.
 * The operating system's registration table for `signalTrigger` is the ghost
 * field `relayed`, and the goroutine spawned by `start` is counted by the
 * ghost field `forwarders`; what the goroutine does once running is not
 * modelled.
 */
module Fx {
  import opened Wrappers

  /** POSIX signal numbers. */
  type Signal = nat
  const SIGINT: Signal := 2
  const SIGTERM: Signal := 15

  /** The one error of this component: `stopper already started`. */
  datatype Error = AlreadyStarted

  /** A `chan Reason`, made by `make(chan Reason, capacity)`. */
  class ReasonChan {
    const capacity: nat
    constructor (capacity: nat)
      ensures this.capacity == capacity
    {
      this.capacity := capacity;
    }
  }

  /** A `chan os.Signal`, made by `make(chan os.Signal, capacity)`. */
  class SignalChan {
    const capacity: nat
    constructor (capacity: nat)
      ensures this.capacity == capacity
    {
      this.capacity := capacity;
    }
  }

  // ---------------------------------------------------------------------
  // The stopper's state as a value, and its transitions
  // ---------------------------------------------------------------------

  /** The fields of a stopper, together with the effects kept outside it. */
  datatype Fields = Fields(
    trigger: Option<ReasonChan>,
    signalTrigger: Option<SignalChan>,
    relayed: set<Signal>,   // signals the OS currently relays into signalTrigger
    forwarders: nat)        // forwarding goroutines spawned so far

  /** The state of `newStopper()`: nothing made, nothing registered. */
  const Unstarted := Fields(None, None, {}, 0)

  /**
   * One call on a stopper. `CallStart` and `CallTakeOver` carry the channels
   * that `make` returns should the call get as far as making them.
   */
  datatype Call =
    | CallStart(made: ReasonChan, madeSignal: SignalChan)
    | CallStop
    | CallStopped
    | CallTakeOver(made: ReasonChan)

  /** What a call returns. */
  datatype Reply =
    | Returned(err: Option<Error>)                        // start, stop
    | WaitPoint(ch: Option<ReasonChan>)                   // stopped
    | Handed(ch: Option<ReasonChan>, err: Option<Error>)  // TakeOver

  /** The states a stopper can reach. */
  predicate Inv(s: Fields)
  {
    && (s.signalTrigger.Some? ==> s.trigger.Some?)
    && s.relayed <= {SIGINT, SIGTERM}
    && (s.relayed != {} ==> s.signalTrigger.Some?)
    && s.forwarders == (if s.signalTrigger.Some? then 1 else 0)
  }

  /** The effect and the reply of one call. */
  function Step(s: Fields, c: Call): (Fields, Reply)
  {
    match c
    case CallStart(t, sc) =>
      if s.trigger.Some? then (s, Returned(None))
      else (Fields(Some(t), Some(sc), {SIGINT, SIGTERM}, s.forwarders + 1), Returned(None))
    case CallStop =>
      (if s.signalTrigger.Some? then s.(relayed := {}) else s, Returned(None))
    case CallStopped =>
      (s, WaitPoint(s.trigger))
    case CallTakeOver(t) =>
      if s.trigger.Some? then (s, Handed(None, Some(AlreadyStarted)))
      else (s.(trigger := Some(t)), Handed(Some(t), None))
  }

  /** The state after a sequence of calls. */
  function Run(s: Fields, calls: seq<Call>): Fields
    decreases |calls|
  {
    if calls == [] then s else Run(Step(s, calls[0]).0, calls[1..])
  }

  /** The replies to a sequence of calls, one per call. */
  function Replies(s: Fields, calls: seq<Call>): (rs: seq<Reply>)
    ensures |rs| == |calls|
    decreases |calls|
  {
    if calls == [] then [] else [Step(s, calls[0]).1] + Replies(Step(s, calls[0]).0, calls[1..])
  }

  /** How many of the calls assign `trigger`. */
  function Creations(s: Fields, calls: seq<Call>): nat
    decreases |calls|
  {
    if calls == [] then 0
    else
      var s' := Step(s, calls[0]).0;
      (if s.trigger != s'.trigger then 1 else 0) + Creations(s', calls[1..])
  }

  /** A reply of a `TakeOver` that succeeded. */
  predicate Won(r: Reply)
  {
    r.Handed? && r.err.None?
  }

  /** How many replies are those of a `TakeOver` that succeeded. */
  function Wins(rs: seq<Reply>): nat
  {
    if rs == [] then 0 else (if Won(rs[0]) then 1 else 0) + Wins(rs[1..])
  }

  /** A call that may make `trigger`. */
  predicate Makes(c: Call)
  {
    c.CallStart? || c.CallTakeOver?
  }

  // ---------------------------------------------------------------------
  // One call at a time
  // ---------------------------------------------------------------------

  /** `newStopper` makes nothing. */
  lemma UnstartedIsEmpty()
    ensures Inv(Unstarted)
    ensures Unstarted.trigger.None? && Unstarted.signalTrigger.None? && Unstarted.relayed == {}
  {
  }

  /** Every call keeps a reachable state reachable. */
  lemma StepKeepsInv(s: Fields, c: Call)
    requires Inv(s)
    ensures Inv(Step(s, c).0)
  {
  }

  /**
   * `start` always returns nil. On a stopper without `trigger` it makes both
   * channels and registers exactly SIGINT and SIGTERM; on one with `trigger`,
   * however that came about, it changes nothing.
   */
  lemma StartOutcome(s: Fields, t: ReasonChan, sc: SignalChan)
    requires Inv(s)
    ensures Step(s, CallStart(t, sc)).1 == Returned(None)
    ensures s.trigger.Some? ==> Step(s, CallStart(t, sc)).0 == s
    ensures s.trigger.None? ==>
      var s' := Step(s, CallStart(t, sc)).0;
      s'.trigger == Some(t) && s'.signalTrigger == Some(sc) &&
      s'.relayed == {SIGINT, SIGTERM} && s'.forwarders == 1
  {
  }

  /**
   * `TakeOver` fails with AlreadyStarted, handing out no channel and changing
   * nothing, exactly when `trigger` exists; otherwise it makes `trigger`,
   * hands out that same channel and touches no signal state.
   */
  lemma TakeOverOutcome(s: Fields, t: ReasonChan)
    ensures var (s', r) := Step(s, CallTakeOver(t));
      (r.err == Some(AlreadyStarted) <==> s.trigger.Some?) &&
      (s.trigger.Some? ==> s' == s && r.ch == None) &&
      (s.trigger.None? ==>
        r == Handed(Some(t), None) && s'.trigger == Some(t) &&
        s'.signalTrigger == s.signalTrigger && s'.relayed == s.relayed &&
        s'.forwarders == s.forwarders)
  {
  }

  /**
   * `stop` always returns nil, never touches `trigger`, unregisters only when
   * `signalTrigger` exists, and a second `stop` changes nothing more.
   */
  lemma StopOutcome(s: Fields)
    ensures var (s', r) := Step(s, CallStop);
      r == Returned(None) &&
      s'.trigger == s.trigger && s'.signalTrigger == s.signalTrigger &&
      s'.forwarders == s.forwarders &&
      s'.relayed == (if s.signalTrigger.Some? then {} else s.relayed) &&
      Step(s', CallStop) == (s', r)
  {
  }

  /** `stopped` returns exactly the current `trigger` and changes nothing. */
  lemma StoppedOutcome(s: Fields)
    ensures Step(s, CallStopped) == (s, WaitPoint(s.trigger))
  {
  }

  /**
   * The order of `TakeOver` and `start` matters: `start` after `TakeOver`
   * returns nil and makes nothing, while `TakeOver` after `start` fails.
   */
  lemma TakeOverAndStartAsymmetry(t: ReasonChan, t': ReasonChan, sc: SignalChan)
    ensures Replies(Unstarted, [CallTakeOver(t), CallStart(t', sc)])
         == [Handed(Some(t), None), Returned(None)]
    ensures Run(Unstarted, [CallTakeOver(t), CallStart(t', sc)]).signalTrigger == None
    ensures Replies(Unstarted, [CallStart(t', sc), CallTakeOver(t)])
         == [Returned(None), Handed(None, Some(AlreadyStarted))]
    ensures Run(Unstarted, [CallStart(t', sc), CallTakeOver(t)]).trigger == Some(t')
  {
    var taken := Step(Unstarted, CallTakeOver(t)).0;
    assert [CallTakeOver(t), CallStart(t', sc)][1..] == [CallStart(t', sc)];
    assert Run(Unstarted, [CallTakeOver(t), CallStart(t', sc)]) == Run(taken, [CallStart(t', sc)]);
    var started := Step(Unstarted, CallStart(t', sc)).0;
    assert [CallStart(t', sc), CallTakeOver(t)][1..] == [CallTakeOver(t)];
    assert Run(Unstarted, [CallStart(t', sc), CallTakeOver(t)]) == Run(started, [CallTakeOver(t)]);
  }

  // ---------------------------------------------------------------------
  // Sequences of calls
  // ---------------------------------------------------------------------

  /** Every sequence of calls keeps a reachable state reachable. */
  lemma {:induction false} RunKeepsInv(s: Fields, calls: seq<Call>)
    requires Inv(s)
    ensures Inv(Run(s, calls))
    ensures Run(s, calls).forwarders <= 1
    decreases |calls|
  {
    if calls != [] {
      StepKeepsInv(s, calls[0]);
      RunKeepsInv(Step(s, calls[0]).0, calls[1..]);
    }
  }

  /** Once `trigger` exists, no sequence of calls replaces it. */
  lemma {:induction false} TriggerNeverReassigned(s: Fields, calls: seq<Call>)
    requires s.trigger.Some?
    ensures Run(s, calls).trigger == s.trigger
    decreases |calls|
  {
    if calls != [] {
      TriggerNeverReassigned(Step(s, calls[0]).0, calls[1..]);
    }
  }

  /**
   * `trigger` is assigned at most once over any sequence of calls, and never
   * when it already exists; it is assigned exactly when it ends up existing
   * having not existed before.
   */
  lemma {:induction false} TriggerAssignedAtMostOnce(s: Fields, calls: seq<Call>)
    ensures Creations(s, calls) + (if s.trigger.Some? then 1 else 0) <= 1
    ensures Creations(s, calls) == 1 <==> s.trigger.None? && Run(s, calls).trigger.Some?
    decreases |calls|
  {
    if calls != [] {
      var s' := Step(s, calls[0]).0;
      TriggerAssignedAtMostOnce(s', calls[1..]);
      if s'.trigger.Some? {
        TriggerNeverReassigned(s', calls[1..]);
      }
    }
  }

  /**
   * At most one `TakeOver` ever succeeds over any sequence of calls, and
   * none does once `trigger` exists.
   */
  lemma {:induction false} AtMostOneTakeOverWins(s: Fields, calls: seq<Call>)
    ensures Wins(Replies(s, calls)) + (if s.trigger.Some? then 1 else 0) <= 1
    decreases |calls|
  {
    if calls != [] {
      var (s', r) := Step(s, calls[0]);
      AtMostOneTakeOverWins(s', calls[1..]);
      assert Replies(s, calls)[1..] == Replies(s', calls[1..]);
      if s.trigger.Some? {
        assert !Won(r);
      }
    }
  }

  /** A sequence of calls without `start` or `TakeOver` leaves `trigger` alone. */
  lemma {:induction false} OnlyMakersAssign(s: Fields, calls: seq<Call>)
    requires forall k :: 0 <= k < |calls| ==> !Makes(calls[k])
    ensures Run(s, calls).trigger == s.trigger
    decreases |calls|
  {
    if calls != [] {
      assert !Makes(calls[0]);
      OnlyMakersAssign(Step(s, calls[0]).0, calls[1..]);
    }
  }

  /**
   * Once `TakeOver` has succeeded on a stopper that was never started, no
   * later call registers a signal, makes a signal channel or spawns a
   * forwarder: operating-system signals never reach `trigger`.
   */
  lemma {:induction false} TakenOverNeverRelays(s: Fields, calls: seq<Call>)
    requires s.trigger.Some? && s.signalTrigger.None? && s.relayed == {}
    ensures Run(s, calls).signalTrigger.None?
    ensures Run(s, calls).relayed == {}
    ensures Run(s, calls).forwarders == s.forwarders
    decreases |calls|
  {
    if calls != [] {
      TakenOverNeverRelays(Step(s, calls[0]).0, calls[1..]);
    }
  }

  /** Running a sequence in two parts is running it whole. */
  lemma {:induction false} RunSplit(s: Fields, calls: seq<Call>, i: nat)
    requires i < |calls|
    ensures Run(s, calls[..i + 1]) == Step(Run(s, calls[..i]), calls[i]).0
    ensures Replies(s, calls)[i] == Step(Run(s, calls[..i]), calls[i]).1
    decreases i
  {
    if i > 0 {
      var s' := Step(s, calls[0]).0;
      RunSplit(s', calls[1..], i - 1);
      assert calls[..i + 1][1..] == calls[1..][..i];
      assert calls[..i][1..] == calls[1..][..i - 1];
    } else {
      assert calls[..1][1..] == [];
    }
  }

  /** Running a sequence is running its prefix and then the rest. */
  lemma {:induction false} RunAppend(s: Fields, a: seq<Call>, b: seq<Call>)
    ensures Run(s, a + b) == Run(Run(s, a), b)
    decreases |a|
  {
    if a != [] {
      assert (a + b)[1..] == a[1..] + b;
      RunAppend(Step(s, a[0]).0, a[1..], b);
    } else {
      assert a + b == b;
    }
  }

  /**
   * From a fresh stopper, `stopped` returns nil as long as no `start` or
   * `TakeOver` came before it.
   */
  lemma {:induction false} StoppedBeforeMaking(calls: seq<Call>, j: nat)
    requires j < |calls| && calls[j] == CallStopped
    requires forall k :: 0 <= k < j ==> !Makes(calls[k])
    ensures Replies(Unstarted, calls)[j] == WaitPoint(None)
  {
    RunSplit(Unstarted, calls, j);
    OnlyMakersAssign(Unstarted, calls[..j]);
    var before := Run(Unstarted, calls[..j]);
    assert before.trigger == None;
    assert Replies(Unstarted, calls)[j] == Step(before, CallStopped).1;
  }

  /**
   * After a successful `TakeOver`, every later `stopped` returns exactly the
   * channel that `TakeOver` handed out.
   */
  lemma {:induction false} StoppedAfterTakeOver(s: Fields, calls: seq<Call>, i: nat, j: nat)
    requires i < j < |calls| && calls[j] == CallStopped
    requires Won(Replies(s, calls)[i])
    ensures Replies(s, calls)[j] == WaitPoint(Replies(s, calls)[i].ch)
  {
    RunSplit(s, calls, j);
    RunSplit(s, calls, i);
    assert calls[..j] == calls[..i + 1] + calls[i + 1..j];
    RunAppend(s, calls[..i + 1], calls[i + 1..j]);
    TriggerNeverReassigned(Run(s, calls[..i + 1]), calls[i + 1..j]);
  }

  // ---------------------------------------------------------------------
  // The stopper object
  // ---------------------------------------------------------------------

  class Stopper {
    var trigger: ReasonChan?
    var signalTrigger: SignalChan?
    ghost var relayed: set<Signal>
    ghost var forwarders: nat

    /** The object's fields as a value. */
    ghost function Model(): Fields
      reads this
    {
      Fields(if trigger == null then None else Some(trigger),
             if signalTrigger == null then None else Some(signalTrigger),
             relayed, forwarders)
    }

    ghost predicate Valid()
      reads this
    {
      Inv(Model())
    }

    /** `newStopper()`. */
    constructor ()
      ensures Valid() && Model() == Unstarted
      ensures trigger == null && signalTrigger == null
    {
      trigger, signalTrigger := null, null;
      relayed, forwarders := {}, 0;
    }

    /** `start()`. */
    method Start() returns (err: Option<Error>)
      requires Valid()
      modifies this
      ensures Valid() && err == None
      ensures old(trigger) != null ==> Model() == old(Model())
      ensures old(trigger) == null ==>
        trigger != null && signalTrigger != null &&
        fresh(trigger) && fresh(signalTrigger) &&
        trigger.capacity == 1 && signalTrigger.capacity == 1 &&
        relayed == {SIGINT, SIGTERM} && forwarders == 1 &&
        Step(old(Model()), CallStart(trigger, signalTrigger)) == (Model(), Returned(err))
    {
      if trigger != null {
        return None;
      }
      trigger := new ReasonChan(1);
      signalTrigger := new SignalChan(1);
      relayed := {SIGINT, SIGTERM};    // signal.Notify
      forwarders := forwarders + 1;    // go func() { ... }()
      err := None;
    }

    /** `stop()`. */
    method Stop() returns (err: Option<Error>)
      requires Valid()
      modifies this`relayed
      ensures Valid() && err == None
      ensures trigger == old(trigger) && signalTrigger == old(signalTrigger)
      ensures relayed == if old(signalTrigger) != null then {} else old(relayed)
      ensures Step(old(Model()), CallStop) == (Model(), Returned(err))
    {
      if signalTrigger != null {
        relayed := {};                 // signal.Stop
      }
      err := None;
    }

    /** `stopped()`: the wait point is `trigger` itself. */
    method Stopped() returns (ch: ReasonChan?)
      ensures ch == trigger
      ensures Step(Model(), CallStopped).1 == WaitPoint(if ch == null then None else Some(ch))
    {
      ch := trigger;
    }

    /** `TakeOver()`. */
    method TakeOver() returns (ch: ReasonChan?, err: Option<Error>)
      requires Valid()
      modifies this`trigger
      ensures Valid()
      ensures signalTrigger == old(signalTrigger)
      ensures old(trigger) != null ==>
        ch == null && err == Some(AlreadyStarted) && trigger == old(trigger)
      ensures old(trigger) == null ==>
        ch != null && fresh(ch) && ch.capacity == 1 && trigger == ch && err == None &&
        Step(old(Model()), CallTakeOver(ch)) == (Model(), Handed(Some(ch), err))
    {
      if trigger != null {
        return null, Some(AlreadyStarted);
      }
      trigger := new ReasonChan(1);
      ch, err := trigger, None;
    }
  }
}
