/**
 * The perf tool's ticker: a start/stop state machine around the task that
 * issues ticks, and that task's loop as a method over the observations it
 * makes (the running flag, the shared rate, the outcome of each send).
 */
module PerfTicker {
  import opened Wrappers

  type u32 = x: int | 0 <= x < 0x1_0000_0000

  /** The spawned tick task, seen only as present or absent. */
  datatype Job = Job

  class Ticker {
    var rate: u32
    var isRunning: bool
    var job: Option<Job>

    /** The running flag is raised exactly while a tick task is held. */
    ghost predicate Valid()
      reads this
    {
      isRunning <==> job.Some?
    }

    /** `Ticker::new`: rate 0, not running, no task. */
    constructor ()
      ensures Valid()
      ensures rate == 0 && !isRunning && job == None
    {
      rate := 0;
      isRunning := false;
      job := None;
    }

    /** `is_started`: whether a tick task is held. */
    function IsStarted(): (b: bool)
      reads this
      ensures b <==> job.Some?
    {
      job.Some?
    }

    /**
     * `start`: refuses when a task is held, leaving everything as it was;
     * otherwise raises the running flag and holds the spawned task.
     */
    method Start() returns (r: Result<(), string>)
      requires Valid()
      modifies this
      ensures Valid()
      ensures rate == old(rate)
      ensures old(IsStarted()) ==> r == Err("The ticker is running") && job == old(job) && isRunning == old(isRunning)
      ensures !old(IsStarted()) ==> r == Ok(()) && IsStarted() && isRunning
    {
      if job.Some? {
        return Err("The ticker is running");
      }
      isRunning := true;
      job := Some(Job);
      return Ok(());
    }

    /** `update_rate`: stores the new rate and nothing else. */
    method UpdateRate(newRate: u32)
      modifies this`rate
      ensures rate == newRate
    {
      rate := newRate;
    }

    /**
     * `stop`: takes the task, lowers the running flag and reports how joining
     * the task went (`join`). Without a task it changes nothing and succeeds,
     * so stopping twice is the same as stopping once.
     */
    method Stop(join: Result<(), string>) returns (r: Result<(), string>)
      requires Valid()
      modifies this
      ensures Valid()
      ensures !IsStarted() && job == None && !isRunning && rate == old(rate)
      ensures old(IsStarted()) ==> r == join
      ensures !old(IsStarted()) ==> r == Ok(())
    {
      if job.Some? {
        job := None;
        isRunning := false;
        return join;
      }
      return Ok(());
    }
  }

  /** A rate limiter admitting `perSecond` ticks a second. */
  datatype Limiter = Limiter(perSecond: nat)

  /**
   * What one pass of the tick loop observes: the running flag, the shared
   * rate, whether handing the tick to the producers succeeded, and whether a
   * receipt came back for it.
   */
  datatype TickObservation = TickObservation(running: bool, rate: u32, sendOk: bool, receiptOk: bool)

  /** The loop's variables and its two counters (`msg_issued`, `msg_sent`), and the number of limiter rebuilds. */
  datatype TickState = TickState(currentRate: u32, limiter: Option<Limiter>, issued: nat, sent: nat, rebuilds: nat)

  const TICK_START: TickState := TickState(0, None, 0, 0, 0)

  /** A limiter exists exactly for a positive current rate, and admits that rate; no receipt without an issue. */
  predicate TickInvariant(s: TickState) {
    && (s.limiter.Some? <==> s.currentRate > 0)
    && (s.limiter.Some? ==> s.limiter.value.perSecond == s.currentRate)
    && s.sent <= s.issued
  }

  /** The rate check at the top of each pass: the limiter is rebuilt only when the rate changed. */
  function ObserveRate(s: TickState, r: u32): (t: TickState)
    ensures r == s.currentRate ==> t == s
    ensures r != s.currentRate ==> t.currentRate == r && t.rebuilds == s.rebuilds + 1
    ensures r != s.currentRate ==> (t.limiter.Some? <==> r > 0)
    ensures t.currentRate == r
    ensures t.issued == s.issued && t.sent == s.sent
    ensures TickInvariant(s) ==> TickInvariant(t)
  {
    if r != s.currentRate then
      s.(limiter := if r > 0 then Some(Limiter(r)) else None, currentRate := r, rebuilds := s.rebuilds + 1)
    else s
  }

  /** The state the loop ends in, run from `s` over the observations. */
  function Ticks(s: TickState, obs: seq<TickObservation>): TickState
    decreases |obs|
  {
    if obs == [] || !obs[0].running then s
    else
      var t := ObserveRate(s, obs[0].rate).(issued := s.issued + 1);
      if !obs[0].sendOk then t
      else Ticks(t.(sent := t.sent + if obs[0].receiptOk then 1 else 0), obs[1..])
  }

  /** The number of passes the loop makes: until the flag is lowered or a send fails (that pass included). */
  function Passes(obs: seq<TickObservation>): (n: nat)
    ensures n <= |obs|
    ensures forall i :: 0 <= i < n ==> obs[i].running
    ensures forall i :: 0 <= i < n - 1 ==> obs[i].sendOk
    ensures n == |obs| || !obs[n].running || (n > 0 && !obs[n - 1].sendOk)
    decreases |obs|
  {
    if obs == [] || !obs[0].running then 0
    else if !obs[0].sendOk then 1
    else 1 + Passes(obs[1..])
  }

  /**
   * `send_ticks`: while the running flag is up, rebuild the limiter on a rate
   * change, issue a tick, stop on a failed send, and count a receipt.
   * The observations stand for the shared flag, the shared rate and the
   * channels; the loop also ends when they run out.
   */
  method SendTicks(obs: seq<TickObservation>) returns (s: TickState, passes: nat)
    ensures s == Ticks(TICK_START, obs)
    ensures passes == Passes(obs)
  {
    s := TICK_START;
    passes := 0;
    var i := 0;
    while i < |obs| && obs[i].running
      invariant 0 <= i <= |obs|
      invariant passes == i
      invariant Ticks(s, obs[i..]) == Ticks(TICK_START, obs)
      invariant Passes(obs[i..]) + i == Passes(obs)
      decreases |obs| - i
    {
      var r := obs[i].rate;
      if r != s.currentRate {
        if r > 0 {
          s := s.(limiter := Some(Limiter(r)));
        } else {
          s := s.(limiter := None);
        }
        s := s.(currentRate := r, rebuilds := s.rebuilds + 1);
      }
      s := s.(issued := s.issued + 1);
      passes := passes + 1;
      if !obs[i].sendOk {
        assert obs[i..][0] == obs[i];
        return;
      }
      if obs[i].receiptOk {
        s := s.(sent := s.sent + 1);
      }
      assert obs[i..][1..] == obs[i + 1..];
      i := i + 1;
    }
  }

  /** The loop keeps its invariant whatever it observes. */
  lemma {:induction false} TicksKeepInvariant(s: TickState, obs: seq<TickObservation>)
    requires TickInvariant(s)
    ensures TickInvariant(Ticks(s, obs))
    decreases |obs|
  {
    if obs != [] && obs[0].running {
      var t := ObserveRate(s, obs[0].rate).(issued := s.issued + 1);
      if obs[0].sendOk {
        TicksKeepInvariant(t.(sent := t.sent + if obs[0].receiptOk then 1 else 0), obs[1..]);
      }
    }
  }

  /** Each pass issues exactly one tick, and receipts never outnumber issues. */
  lemma {:induction false} IssuedCountsPasses(s: TickState, obs: seq<TickObservation>)
    ensures Ticks(s, obs).issued == s.issued + Passes(obs)
    ensures Ticks(s, obs).sent <= s.sent + Passes(obs)
    decreases |obs|
  {
    if obs != [] && obs[0].running && obs[0].sendOk {
      var t := ObserveRate(s, obs[0].rate).(issued := s.issued + 1);
      IssuedCountsPasses(t.(sent := t.sent + if obs[0].receiptOk then 1 else 0), obs[1..]);
    }
  }

  /** After at least one pass the current rate is the rate observed in the last pass. */
  lemma {:induction false} CurrentRateIsLastObserved(s: TickState, obs: seq<TickObservation>)
    requires Passes(obs) > 0
    ensures Ticks(s, obs).currentRate == obs[Passes(obs) - 1].rate
    decreases |obs|
  {
    var t := ObserveRate(s, obs[0].rate).(issued := s.issued + 1);
    if obs[0].sendOk && Passes(obs[1..]) > 0 {
      CurrentRateIsLastObserved(t.(sent := t.sent + if obs[0].receiptOk then 1 else 0), obs[1..]);
    }
  }

  /** While the rate stays at the current one, the limiter is never rebuilt. */
  lemma {:induction false} SteadyRateNoRebuild(s: TickState, obs: seq<TickObservation>)
    requires forall i :: 0 <= i < |obs| ==> obs[i].rate == s.currentRate
    ensures Ticks(s, obs).rebuilds == s.rebuilds
    ensures Ticks(s, obs).limiter == s.limiter
    decreases |obs|
  {
    if obs != [] && obs[0].running && obs[0].sendOk {
      var t := ObserveRate(s, obs[0].rate).(issued := s.issued + 1);
      SteadyRateNoRebuild(t.(sent := t.sent + if obs[0].receiptOk then 1 else 0), obs[1..]);
    }
  }

  /** The loop's end state satisfies the invariant, with one issue per pass. */
  lemma SendTicksOutcome(obs: seq<TickObservation>)
    ensures TickInvariant(Ticks(TICK_START, obs))
    ensures Ticks(TICK_START, obs).issued == Passes(obs)
  {
    TicksKeepInvariant(TICK_START, obs);
    IssuedCountsPasses(TICK_START, obs);
  }
}
