/**
 * A perf producer: a named producer with a start state machine, and the
 * loop its task runs, which turns each received tick into one message of
 * fixed content, one receipt and one increment of its named counter.
 */
module PerfProducers {
  import opened Wrappers
  import opened CmdCommons

  /** The spawned producing task, seen only as present or absent. */
  datatype Job = Job

  /** The size of every message the perf loop sends. */
  const PAYLOAD_SIZE: nat := 1000

  /** The byte every payload is filled with, `'a'`. */
  const FILL: bv8 := 0x61

  /** `n` bytes of `'a'`. */
  function Filled(n: nat): (r: seq<bv8>)
    ensures |r| == n
    ensures forall i :: 0 <= i < n ==> r[i] == FILL
  {
    seq(n, _ => FILL)
  }

  /** `generate_content`: pushes `'a'` once per requested byte. */
  method GenerateContent(messageSize: nat) returns (content: seq<bv8>)
    ensures content == Filled(messageSize)
  {
    content := [];
    for i := 0 to messageSize
      invariant content == Filled(i)
    {
      content := content + [FILL];
    }
  }

  /** The outcome of sending one message: the send call failed, or it returned a delivery result. */
  datatype SendOutcome = SendFailed(error: string) | Sent(delivery: Result<(), string>)

  /** What the tick channel yields: a tick, paired with how sending its message goes, or a receive error. */
  datatype TickEvent = Tick(outcome: SendOutcome) | RecvError(error: string)

  /** A tick handled to the end: its message was sent, whatever the delivery result. */
  predicate Handled(e: TickEvent) {
    e.Tick? && e.outcome.Sent?
  }

  /** How many events are handled before the loop ends. */
  function HandledPrefix(events: seq<TickEvent>): (k: nat)
    ensures k <= |events|
    ensures forall i :: 0 <= i < k ==> Handled(events[i])
    ensures k < |events| ==> !Handled(events[k])
    decreases |events|
  {
    if events == [] || !Handled(events[0]) then 0 else 1 + HandledPrefix(events[1..])
  }

  /** The loop's outcome: the error of a failed send call, or success when the channel fails or runs dry. */
  function PerfOutcome(events: seq<TickEvent>): (r: Result<(), string>)
    ensures r.Err? <==> HandledPrefix(events) < |events| && events[HandledPrefix(events)].Tick?
    ensures r.Err? ==> r.error == events[HandledPrefix(events)].outcome.error
  {
    var k := HandledPrefix(events);
    if k < |events| && events[k].Tick? then Err(events[k].outcome.error) else Ok(())
  }

  /** A counter family: one count per producer name; a name is added on its first increment. */
  function CountOf(family: map<string, nat>, name: string): nat {
    if name in family then family[name] else 0
  }

  class PerfProducer {
    const name: string
    const settings: ProducerSettings
    var job: Option<Job>

    /** `PerfProducer::new`: not started. */
    constructor (name: string, settings: ProducerSettings)
      ensures this.name == name && this.settings == settings
      ensures job == None
    {
      this.name := name;
      this.settings := settings;
      job := None;
    }

    /** `start`: refuses when a task is held, otherwise holds the spawned task. */
    method Start() returns (r: Result<(), string>)
      modifies this
      ensures old(job).Some? ==> r == Err("Perf producer " + name + " already started") && job == old(job)
      ensures old(job).None? ==> r == Ok(()) && job.Some?
    {
      if job.Some? {
        return Err("Perf producer " + name + " already started");
      }
      job := Some(Job);
      return Ok(());
    }

    /** `stop`: only logs; it keeps the task, so the producer stays started. */
    method Stop() returns (r: Result<(), string>)
      ensures r == Ok(())
    {
      return Ok(());
    }

    /**
     * `run_perf`: for each tick, sends a message of `PAYLOAD_SIZE` bytes of
     * `'a'`; once the send call returns, whether or not the delivery
     * succeeded, it answers the tick with one receipt and increments this
     * producer's counter once. A failed send call ends the loop with its
     * error; a receive error ends it with success.
     */
    method RunPerf(family: map<string, nat>, events: seq<TickEvent>)
      returns (payloads: seq<seq<bv8>>, receipts: nat, counters: map<string, nat>, outcome: Result<(), string>)
      ensures receipts == HandledPrefix(events)
      ensures counters ==
                if receipts == 0 then family else family[name := CountOf(family, name) + receipts]
      ensures |payloads| == receipts + if outcome.Err? then 1 else 0
      ensures forall i :: 0 <= i < |payloads| ==> payloads[i] == Filled(PAYLOAD_SIZE)
      ensures outcome == PerfOutcome(events)
    {
      payloads, receipts, counters := [], 0, family;
      var i := 0;
      while i < |events|
        invariant 0 <= i <= HandledPrefix(events)
        invariant receipts == i && |payloads| == i
        invariant forall j :: 0 <= j < |payloads| ==> payloads[j] == Filled(PAYLOAD_SIZE)
        invariant counters == if i == 0 then family else family[name := CountOf(family, name) + i]
        decreases |events| - i
      {
        match events[i]
        case RecvError(_) =>
          return payloads, receipts, counters, Ok(());
        case Tick(send) =>
          var content := GenerateContent(PAYLOAD_SIZE);
          payloads := payloads + [content];
          match send
          case SendFailed(e) =>
            return payloads, receipts, counters, Err(e);
          case Sent(_) =>
            receipts := receipts + 1;
            counters := counters[name := CountOf(counters, name) + 1];
            i := i + 1;
      }
      return payloads, receipts, counters, Ok(());
    }
  }

  /** Stopping a producer does not make it startable again: a later start still fails. */
  method StartStopStart(p: PerfProducer) returns (first: Result<(), string>, stopped: Result<(), string>, second: Result<(), string>)
    requires p.job.None?
    modifies p
    ensures first == Ok(()) && stopped == Ok(())
    ensures second == Err("Perf producer " + p.name + " already started")
  {
    first := p.Start();
    stopped := p.Stop();
    second := p.Start();
  }
}
