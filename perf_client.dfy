/**
 * A perf client: the list of perf producers it owns and `reconcile`, which
 * grows or shrinks that list in place until its length is the configured
 * number of producers.
 */
module PerfClients {
  import opened Wrappers
  import opened Text
  import opened CmdCommons
  import opened PerfProducers

  datatype PerfClientDynamicConfig = PerfClientDynamicConfig(numProducers: u32)

  /** The name of the `index`-th producer of client `clientId`: `perf-{clientId}-{index}`. */
  function ProducerName(clientId: nat, index: nat): (n: string)
    ensures n == "perf-" + NatToString(clientId) + "-" + NatToString(index)
  {
    "perf-" + NatToString(clientId) + "-" + NatToString(index)
  }

  /** Producer names never clash: a name identifies both the client and the index. */
  lemma ProducerNameInjective(a: nat, i: nat, b: nat, j: nat)
    requires ProducerName(a, i) == ProducerName(b, j)
    ensures a == b && i == j
  {
    var x, y := NatToString(a), NatToString(i);
    var u, v := NatToString(b), NatToString(j);
    assert ProducerName(a, i) == "perf-" + (x + ['-'] + y);
    assert ProducerName(b, j) == "perf-" + (u + ['-'] + v);
    assert x + ['-'] + y == ProducerName(a, i)[5..] == u + ['-'] + v;
    assert '-' !in x by { assert !IsDigit('-'); }
    assert '-' !in u by { assert !IsDigit('-'); }
    SplitAtSeparator(x, y, u, v, '-');
    NatToStringInjective(a, b);
    NatToStringInjective(i, j);
  }

  /**
   * Building and starting the producer for `index`: the builder fails on an
   * illegal compression option, and otherwise `build` tells how building
   * that producer goes (starting a fresh producer always succeeds).
   */
  function BuildOutcome(opts: ProducerOpts, build: nat -> Result<(), string>, index: nat): (r: Result<(), string>)
    ensures ProducerBuilder(opts).Err? ==> r == Err(ProducerBuilder(opts).error)
    ensures ProducerBuilder(opts).Ok? ==> r == build(index)
  {
    match ProducerBuilder(opts)
    case Err(e) => Err(e)
    case Ok(_) => build(index)
  }

  /** Where growth from `from` towards `target` stops: the first index whose build fails, or `target`. */
  function GrowthStop(opts: ProducerOpts, build: nat -> Result<(), string>, from: nat, target: nat): (k: nat)
    requires from <= target
    ensures from <= k <= target
    ensures forall i :: from <= i < k ==> BuildOutcome(opts, build, i).Ok?
    ensures k < target ==> BuildOutcome(opts, build, k).Err?
    decreases target - from
  {
    if from == target then target
    else if BuildOutcome(opts, build, from).Err? then from
    else GrowthStop(opts, build, from + 1, target)
  }

  /**
   * What `reconcile` promises about the list before and after it and its
   * result: a list at or over the target is cut back to the target from the
   * end; a shorter one keeps its entries and grows until the target or the
   * first failure, whose error is returned.
   */
  ghost predicate Reconciled(opts: ProducerOpts, build: nat -> Result<(), string>, target: nat,
                             before: seq<PerfProducer>, after: seq<PerfProducer>, r: Result<(), string>)
  {
    if |before| >= target then
      after == before[..target] && r == Ok(())
    else
      && before <= after
      && |after| == GrowthStop(opts, build, |before|, target)
      && (r.Ok? <==> |after| == target)
      && (r.Err? ==> r.error == BuildOutcome(opts, build, |after|).error)
  }

  /** A producer fit to be the `i`-th of a client: named for the client and index, built from the options, and started. */
  ghost predicate ProducerFor(p: PerfProducer, clientId: nat, opts: ProducerOpts, i: nat)
    reads p
  {
    && p.name == ProducerName(clientId, i)
    && ProducerBuilder(opts).Ok?
    && p.settings == WithName(ProducerBuilder(opts).value, p.name)
    && p.job.Some?
  }

  class PerfClient {
    const clientId: u32
    const producerOpts: ProducerOpts
    var config: PerfClientDynamicConfig
    var job: Option<Job>
    var producers: seq<PerfProducer>

    ghost predicate Valid()
      reads this, producers
    {
      forall i :: 0 <= i < |producers| ==> ProducerFor(producers[i], clientId, producerOpts, i)
    }

    /** `PerfClient::new`: no task and no producers yet. */
    constructor (clientId: u32, config: PerfClientDynamicConfig, producerOpts: ProducerOpts)
      ensures this.clientId == clientId && this.config == config && this.producerOpts == producerOpts
      ensures job == None && producers == []
      ensures Valid()
    {
      this.clientId := clientId;
      this.config := config;
      this.producerOpts := producerOpts;
      job := None;
      producers := [];
    }

    /** `update_config`: replaces the configuration and nothing else. */
    method UpdateConfig(config: PerfClientDynamicConfig)
      modifies this`config
      ensures this.config == config
    {
      this.config := config;
    }

    /** `stop`: changes nothing. */
    method Stop() returns (r: Result<(), string>)
      ensures r == Ok(())
    {
      return Ok(());
    }

    /**
     * `reconcile`: grows the list with started producers named by their
     * index until it has `config.numProducers` entries, or shrinks it by
     * popping (and stopping) from the end; a failed build ends growth early
     * with its error, keeping the producers already added.
     */
    method Reconcile(build: nat -> Result<(), string>) returns (r: Result<(), string>)
      requires Valid()
      modifies this
      ensures Valid()
      ensures config == old(config) && job == old(job)
      ensures Reconciled(producerOpts, build, config.numProducers, old(producers), producers, r)
    {
      var target: nat := config.numProducers;
      ghost var before := producers;
      while |producers| < target
        invariant Valid()
        invariant config == old(config) && job == old(job)
        invariant before <= producers
        invariant |before| < target ==> |producers| <= GrowthStop(producerOpts, build, |before|, target)
        invariant |before| >= target ==> producers == before
        invariant forall i :: |before| <= i < |producers| ==> BuildOutcome(producerOpts, build, i).Ok?
        decreases target - |producers|
      {
        var index := |producers|;
        var name := ProducerName(clientId, index);
        var builder := ProducerBuilder(producerOpts);
        if builder.Err? {
          assert BuildOutcome(producerOpts, build, index).Err?;
          GrowthStopAt(producerOpts, build, |before|, index, target);
          return Err(builder.error);
        }
        var built := build(index);
        if built.Err? {
          assert BuildOutcome(producerOpts, build, index).Err?;
          GrowthStopAt(producerOpts, build, |before|, index, target);
          return built;
        }
        var p := new PerfProducer(name, WithName(builder.value, name));
        var started := p.Start();
        assert started.Ok?;
        producers := producers + [p];
      }
      while |producers| > target
        invariant Valid()
        invariant config == old(config) && job == old(job)
        invariant |producers| >= target
        invariant |before| >= target ==> producers == before[..|producers|]
        invariant |before| < target ==> before <= producers && |producers| == target
        decreases |producers|
      {
        var p := producers[|producers| - 1];
        producers := producers[..|producers| - 1];
        var stopped := p.Stop();
      }
      return Ok(());
    }

    /**
     * `start`: refuses when a task is held, changing nothing; otherwise
     * holds the spawned task and reconciles.
     */
    method Start(build: nat -> Result<(), string>) returns (r: Result<(), string>)
      requires Valid()
      modifies this
      ensures Valid()
      ensures config == old(config)
      ensures old(job).Some? ==>
                r == Err("Perf client " + NatToString(clientId) + " already started")
                && job == old(job) && producers == old(producers)
      ensures old(job).None? ==>
                job.Some? && Reconciled(producerOpts, build, config.numProducers, old(producers), producers, r)
    {
      if job.Some? {
        return Err("Perf client " + NatToString(clientId) + " already started");
      }
      job := Some(Job);
      r := Reconcile(build);
    }
  }

  /** Growth stops at the first failing index past a run of successes. */
  lemma GrowthStopAt(opts: ProducerOpts, build: nat -> Result<(), string>, from: nat, k: nat, target: nat)
    requires from <= k < target
    requires forall i :: from <= i < k ==> BuildOutcome(opts, build, i).Ok?
    requires BuildOutcome(opts, build, k).Err?
    ensures GrowthStop(opts, build, from, target) == k
  {
  }

  /** After a successful reconcile the list has exactly the configured length. */
  lemma ReconciledLength(opts: ProducerOpts, build: nat -> Result<(), string>, target: nat,
                         before: seq<PerfProducer>, after: seq<PerfProducer>, r: Result<(), string>)
    requires Reconciled(opts, build, target, before, after, r)
    ensures r.Ok? ==> |after| == target
    ensures |before| <= |after| <= target || after == before[..target]
  {
  }
}
