/**
  The scroll `throttle` utility, which is a trailing debounce: every call of
  the wrapped function cancels the pending timer (clearTimeout) and schedules
  a new one `wait` later carrying this call's arguments; when a timer fires,
  the wrapped function runs with them.  Time is a logical clock; the log
  `ran` records the arguments of every run, in order.

  The event loop is modelled as: before a call at time t is handled, every
  timer due at or before t has fired.
*/
module Throttle {
  import opened Wrappers

  /** A scheduled run of `later`: when it fires and the arguments it captured. */
  datatype Timer<A> = Timer(due: int, args: A)

  /** The clock, the one pending timer (the closure variable `timeout`), and the runs so far. */
  datatype DebounceState<A> = DebounceState(now: int, pending: Option<Timer<A>>, ran: seq<A>)

  /** One call of the wrapped function: when, and with which arguments. */
  datatype Call<A> = Call(at: int, args: A)

  /** Time passes to `t`; a pending timer due by then fires: `later` clears
      its own timer and calls the function with the captured arguments. */
  function AdvanceTo<A>(s: DebounceState<A>, t: int): (r: DebounceState<A>)
    requires s.now <= t
    ensures r.now == t
    ensures r.ran == s.ran + Fired(s.pending, t)
    ensures r.pending == if Fired(s.pending, t) == [] then s.pending else None
  {
    match s.pending
    case Some(timer) =>
      if timer.due <= t then DebounceState(t, None, s.ran + [timer.args]) else s.(now := t)
    case None => s.(now := t)
  }

  /** The arguments a pending timer runs with if it is due by `t`. */
  function Fired<A>(pending: Option<Timer<A>>, t: int): seq<A> {
    if pending.Some? && pending.value.due <= t then [pending.value.args] else []
  }

  /** executedFunction(...args): cancel the pending timer and schedule a new
      one `wait` from now with these arguments. */
  function Reschedule<A>(s: DebounceState<A>, wait: nat, args: A): (r: DebounceState<A>)
    ensures r.pending == Some(Timer(s.now + wait, args))
    ensures r.now == s.now && r.ran == s.ran
  {
    s.(pending := Some(Timer(s.now + wait, args)))
  }

  /** The calls come in time order, no earlier than `from`, and observation
      ends at `end`, no earlier than the last call. */
  predicate Chronological<A>(calls: seq<Call<A>>, from: int, end: int)
    decreases |calls|
  {
    if calls == [] then from <= end
    else from <= calls[0].at && Chronological(calls[1..], calls[0].at, end)
  }

  /** The state machine run over a trace of calls and then up to `end`. */
  function Run<A>(s: DebounceState<A>, wait: nat, calls: seq<Call<A>>, end: int): DebounceState<A>
    requires Chronological(calls, s.now, end)
    decreases |calls|
  {
    if calls == [] then AdvanceTo(s, end)
    else Run(Reschedule(AdvanceTo(s, calls[0].at), wait, calls[0].args), wait, calls[1..], end)
  }

  /** When the call after `calls[0]` arrives, or `end` when it is the last. */
  function NextTime<A>(calls: seq<Call<A>>, end: int): int
    requires calls != []
  {
    if |calls| > 1 then calls[1].at else end
  }

  /** The debounce contract, stated per call without timers: a call leads to
      a run exactly when no further call arrives within `wait` after it
      (and observation lasts that long), and then with its own arguments. */
  function Survivors<A>(calls: seq<Call<A>>, wait: nat, end: int): seq<A>
    decreases |calls|
  {
    if calls == [] then []
    else
      (if calls[0].at + wait <= NextTime(calls, end) then [calls[0].args] else [])
      + Survivors(calls[1..], wait, end)
  }

  /** The timer machine implements the per-call contract, from any state:
      first the pending timer if it comes due before the first call, then
      exactly the surviving calls. */
  lemma {:induction false} RunIsSurvivors<A>(s: DebounceState<A>, wait: nat, calls: seq<Call<A>>, end: int)
    requires Chronological(calls, s.now, end)
    ensures Run(s, wait, calls, end).ran ==
      s.ran + Fired(s.pending, if calls == [] then end else calls[0].at) + Survivors(calls, wait, end)
    decreases |calls|
  {
    if calls != [] {
      var s1 := Reschedule(AdvanceTo(s, calls[0].at), wait, calls[0].args);
      RunIsSurvivors(s1, wait, calls[1..], end);
      var nextTime := if calls[1..] == [] then end else calls[1..][0].at;
      assert nextTime == NextTime(calls, end);
      assert Fired(s1.pending, nextTime) ==
        (if calls[0].at + wait <= NextTime(calls, end) then [calls[0].args] else []);
    }
  }

  /** The initial state: nothing scheduled, nothing run. */
  function Idle<A>(start: int): DebounceState<A> {
    DebounceState(start, None, [])
  }

  /** From the idle state the runs are exactly the surviving calls. */
  lemma RunFromIdle<A>(start: int, wait: nat, calls: seq<Call<A>>, end: int)
    requires Chronological(calls, start, end)
    ensures Run(Idle(start), wait, calls, end).ran == Survivors(calls, wait, end)
  {
    RunIsSurvivors(Idle<A>(start), wait, calls, end);
  }

  /** Each call of a burst comes less than `wait` after the previous one. */
  predicate IsBurst<A>(calls: seq<Call<A>>, wait: nat) {
    forall k :: 0 <= k < |calls| - 1 ==> calls[k + 1].at < calls[k].at + wait
  }

  /** A burst runs the function once, with the last call's arguments, once
      `wait` has passed after that call; before then it has not run at all. */
  lemma {:induction false} BurstRunsOnce<A>(calls: seq<Call<A>>, wait: nat, end: int)
    requires calls != [] && IsBurst(calls, wait)
    ensures end >= calls[|calls| - 1].at + wait ==> Survivors(calls, wait, end) == [calls[|calls| - 1].args]
    ensures end < calls[|calls| - 1].at + wait ==> Survivors(calls, wait, end) == []
    decreases |calls|
  {
    if |calls| > 1 {
      assert calls[1].at < calls[0].at + wait;
      BurstRunsOnce(calls[1..], wait, end);
    }
  }

  /** The wrapped function returned by throttle(func, wait), with its captured
      `timeout` variable and the record of the runs of `func`. */
  class Throttled<A> {
    const wait: nat
    var now: int
    var pending: Option<Timer<A>>
    var ran: seq<A>

    function State(): DebounceState<A>
      reads this
    {
      DebounceState(now, pending, ran)
    }

    /** throttle(func, wait) at time `start` (script.js:317-318). */
    constructor (wait: nat, start: int)
      ensures this.wait == wait && State() == Idle(start)
    {
      this.wait := wait;
      now, pending, ran := start, None, [];
    }

    /** The clock reaches `t`: the pending timer fires if it is due. */
    method Elapse(t: int)
      requires now <= t
      modifies this
      ensures State() == AdvanceTo(old(State()), t)
    {
      if pending.Some? && pending.value.due <= t {
        var args := pending.value.args;
        pending := None;
        ran := ran + [args];
      }
      now := t;
    }

    /** A call of the wrapped function at time `at` (script.js:319-326). */
    method Invoke(at: int, args: A)
      requires now <= at
      modifies this
      ensures State() == Reschedule(AdvanceTo(old(State()), at), wait, args)
      ensures pending == Some(Timer(at + wait, args))
    {
      Elapse(at);
      pending := None;
      pending := Some(Timer(now + wait, args));
    }
  }

  /** Scroll events at 0, 40 and 80 with wait 100, then none until 300: one
      run, at 180, with the arguments of the call at 80. */
  method ScrollBurst() returns (runs: seq<int>)
    ensures runs == [80]
  {
    var t := new Throttled<int>(100, 0);
    t.Invoke(0, 0);
    t.Invoke(40, 40);
    t.Invoke(80, 80);
    t.Elapse(179);
    assert t.ran == [];
    t.Elapse(300);
    runs := t.ran;
  }
}
