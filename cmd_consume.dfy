/**
 * The `consume` command: its subscription-type and initial-position parsers,
 * the consumer it sets up, and the receive loop that acknowledges and prints
 * messages until the stream ends, an error occurs or the requested number of
 * messages has been handled.
 */
module CmdConsume {
  import opened Wrappers
  import opened Text

  type u64 = x: int | 0 <= x < 0x1_0000_0000_0000_0000
  const U64_MAX: u64 := 0xFFFF_FFFF_FFFF_FFFF

  const DEFAULT_SUBSCRIPTION_TYPE: string := "Exclusive"
  const DEFAULT_SUBSCRIPTION_NAME: string := "test"
  const DEFAULT_SUBSCRIPTION_POSITION: string := "Latest"
  const DEFAULT_CONSUMER_NAME: string := "smith"

  datatype SubType = Exclusive | Shared | Failover
  datatype InitialPosition = Earliest | Latest

  function SubTypeName(t: SubType): string {
    match t
    case Exclusive => "exclusive"
    case Shared => "shared"
    case Failover => "failover"
  }

  function PositionName(p: InitialPosition): string {
    match p
    case Earliest => "earliest"
    case Latest => "latest"
  }

  /** `parse_sub_type`: matched after lower-casing. */
  function ParseSubType(t: string): (r: Result<SubType, string>)
    ensures r.Err? ==> r.error == "illegal subscription type [" + t + "]"
  {
    var l := ToLower(t);
    if l == "exclusive" then Ok(Exclusive)
    else if l == "shared" then Ok(Shared)
    else if l == "failover" then Ok(Failover)
    else Err("illegal subscription type [" + t + "]")
  }

  /** `parse_subscription_position`: matched after lower-casing. */
  function ParseSubscriptionPosition(t: string): (r: Result<InitialPosition, string>)
    ensures r.Err? ==> r.error == "illegal initial position [" + t + "]"
  {
    var l := ToLower(t);
    if l == "earliest" then Ok(Earliest)
    else if l == "latest" then Ok(Latest)
    else Err("illegal initial position [" + t + "]")
  }

  /** A subscription type is accepted under its name in any ASCII case, and under nothing else. */
  lemma ParseSubTypeIff(t: string, st: SubType)
    ensures ParseSubType(t) == Ok(st) <==> EqualIgnoringCase(t, SubTypeName(st))
  {
    EqualIgnoringCaseIff(t, SubTypeName(st));
    assert ToLower(SubTypeName(st)) == SubTypeName(st);
  }

  /** An initial position is accepted under its name in any ASCII case, and under nothing else. */
  lemma ParsePositionIff(t: string, p: InitialPosition)
    ensures ParseSubscriptionPosition(t) == Ok(p) <==> EqualIgnoringCase(t, PositionName(p))
  {
    EqualIgnoringCaseIff(t, PositionName(p));
    assert ToLower(PositionName(p)) == PositionName(p);
  }

  /** The defaults parse: an exclusive subscription starting at the latest message. */
  lemma DefaultsParse()
    ensures ParseSubType(DEFAULT_SUBSCRIPTION_TYPE) == Ok(Exclusive)
    ensures ParseSubscriptionPosition(DEFAULT_SUBSCRIPTION_POSITION) == Ok(Latest)
  {
    ParseSubTypeIff(DEFAULT_SUBSCRIPTION_TYPE, Exclusive);
    ParsePositionIff(DEFAULT_SUBSCRIPTION_POSITION, Latest);
  }

  datatype ConsumeOpts = ConsumeOpts(
    topic: string,
    name: Option<string>,
    num: Option<u64>,
    subscriptionType: string,
    subscriptionName: string,
    subscriptionPosition: string)

  /** What the consumer builder is given. */
  datatype ConsumerSettings = ConsumerSettings(
    topic: string,
    consumerName: string,
    subscription: string,
    subType: SubType,
    readCompacted: bool,
    initialPosition: InitialPosition)

  /**
   * The consumer set-up of `run`, in the order the builder chain evaluates:
   * the client is obtained first (`client` is that step's outcome), then the
   * subscription type and the initial position are parsed, and last the
   * consumer is built (`build`). The first failure is the one reported. The
   * consumer name defaults to "smith" and compacted reads are requested.
   */
  function ConsumerSetup(opts: ConsumeOpts, client: Result<(), string>, build: Result<(), string>): (r: Result<ConsumerSettings, string>)
    ensures client.Err? ==> r == Err(client.error)
    ensures r.Ok? <==> client.Ok? && ParseSubType(opts.subscriptionType).Ok? &&
                       ParseSubscriptionPosition(opts.subscriptionPosition).Ok? && build.Ok?
    ensures client.Ok? && ParseSubType(opts.subscriptionType).Err? ==> r == Err(ParseSubType(opts.subscriptionType).error)
    ensures client.Ok? && ParseSubType(opts.subscriptionType).Ok? && ParseSubscriptionPosition(opts.subscriptionPosition).Err? ==>
              r == Err(ParseSubscriptionPosition(opts.subscriptionPosition).error)
    ensures client.Ok? && ParseSubType(opts.subscriptionType).Ok? && ParseSubscriptionPosition(opts.subscriptionPosition).Ok? && build.Err? ==>
              r == Err(build.error)
    ensures r.Ok? ==> r.value.consumerName == (if opts.name.Some? then opts.name.value else DEFAULT_CONSUMER_NAME)
    ensures r.Ok? ==> r.value.topic == opts.topic && r.value.subscription == opts.subscriptionName && r.value.readCompacted
    ensures r.Ok? ==> r.value.subType == ParseSubType(opts.subscriptionType).value
    ensures r.Ok? ==> r.value.initialPosition == ParseSubscriptionPosition(opts.subscriptionPosition).value
  {
    match client
    case Err(e) => Err(e)
    case Ok(_) =>
      match ParseSubType(opts.subscriptionType)
      case Err(e) => Err(e)
      case Ok(st) =>
        match ParseSubscriptionPosition(opts.subscriptionPosition)
        case Err(e) => Err(e)
        case Ok(pos) =>
          match build
          case Err(e) => Err(e)
          case Ok(_) => Ok(ConsumerSettings(opts.topic, opts.name.GetOr(DEFAULT_CONSUMER_NAME), opts.subscriptionName, st, true, pos))
  }

  /**
   * One step of the consumer stream: a message, with the outcome of
   * acknowledging it, or a stream error. The stream ends after the last event.
   */
  datatype StreamEvent = Delivered(payload: string, ack: Result<(), string>) | Failed(error: string)

  predicate Clean(e: StreamEvent) {
    e.Delivered? && e.ack.Ok?
  }

  /** The number of messages that can be handled before the first error. */
  function CleanPrefix(stream: seq<StreamEvent>): (k: nat)
    ensures k <= |stream|
    ensures forall j :: 0 <= j < k ==> Clean(stream[j])
    ensures k < |stream| ==> !Clean(stream[k])
  {
    if stream == [] || !Clean(stream[0]) then 0 else 1 + CleanPrefix(stream[1..])
  }

  /** The error of an event that is not clean. */
  function EventError(e: StreamEvent): string
    requires !Clean(e)
  {
    match e
    case Failed(err) => err
    case Delivered(_, ack) => ack.error
  }

  /**
   * How many messages the loop handles at most: `num`, or u64::MAX when it is
   * absent; the limit is tested after a message is handled, so at least one is.
   */
  function Limit(num: Option<u64>): (l: nat)
    ensures l >= 1
  {
    var bound := num.GetOr(U64_MAX);
    if bound == 0 then 1 else bound
  }

  function Min(a: nat, b: nat): nat {
    if a <= b then a else b
  }

  /**
   * The receive loop of `run`: every message is acknowledged and then
   * printed; an acknowledgement or stream error ends the loop with that error;
   * the loop also stops once the counter reaches `num`.
   */
  method ConsumeMessages(stream: seq<StreamEvent>, num: Option<u64>) returns (printed: seq<string>, outcome: Result<(), string>)
    ensures |printed| == Min(Limit(num), CleanPrefix(stream))
    ensures forall i :: 0 <= i < |printed| ==> printed[i] == stream[i].payload
    ensures outcome.Err? <==> CleanPrefix(stream) < Limit(num) && CleanPrefix(stream) < |stream|
    ensures outcome.Err? ==> outcome.error == EventError(stream[CleanPrefix(stream)])
  {
    var counter: u64 := 0;
    var i := 0;
    printed := [];
    outcome := Ok(());
    while i < |stream|
      invariant 0 <= i <= CleanPrefix(stream) && i < Limit(num)
      invariant counter == i && |printed| == i
      invariant forall j :: 0 <= j < i ==> printed[j] == stream[j].payload
    {
      var event := stream[i];
      if event.Failed? {
        outcome := Err(event.error);
        return;
      }
      if event.ack.Err? {
        outcome := Err(event.ack.error);
        return;
      }
      printed := printed + [event.payload];
      counter := counter + 1;
      i := i + 1;
      if num.GetOr(U64_MAX) <= counter {
        break;
      }
    }
  }

  /**
   * With a clean stream and `num = Some(n)`, `n >= 1`, exactly
   * `min(n, messages available)` messages are handled; `Some(0)` still handles one.
   */
  lemma CleanStreamCount(stream: seq<StreamEvent>, n: u64)
    requires forall j :: 0 <= j < |stream| ==> Clean(stream[j])
    ensures CleanPrefix(stream) == |stream|
    ensures Min(Limit(Some(n)), CleanPrefix(stream)) == (if n == 0 then Min(1, |stream|) else Min(n, |stream|))
  {
  }
}
