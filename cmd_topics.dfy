/**
 * The `topics` sub-commands that hold a decision of their own: `create`
 * chooses between a partitioned and a non-partitioned topic by the partition
 * count, and `list` parses its domain option before it sends a request.
 * The admin client's construction is an input: it is built before either
 * decision is taken.
 */
module CmdTopics {
  import opened Wrappers
  import opened Text
  import opened Http
  import AdminTopics

  /** A 32-bit signed integer, the type of the `--partitions` option. */
  type i32 = x: int | -0x8000_0000 <= x < 0x8000_0000

  const DEFAULT_PARTITIONS: i32 := 0
  const DEFAULT_DOMAIN: string := "Persistent"

  datatype CreateTopicOpts = CreateTopicOpts(topic: string, partitions: i32)

  /** The admin call `create` issues, with the request path and body it sends. */
  datatype CreateCall =
    | NonPartitioned(topic: string)
    | Partitioned(topic: string, partitions: nat)

  /**
   * `CreateTopicOpts::run` up to the admin call: a zero count creates a
   * non-partitioned topic, a positive count a partitioned one with exactly
   * that many partitions, and a negative count is an error raised before the
   * admin client is even asked for.
   */
  function CreateTopicCall(opts: CreateTopicOpts): (r: Result<CreateCall, string>)
    ensures r == Ok(NonPartitioned(opts.topic)) <==> opts.partitions == 0
    ensures (r.Ok? && r.value.Partitioned?) <==> opts.partitions > 0
    ensures r.Ok? && r.value.Partitioned? ==> r.value == Partitioned(opts.topic, opts.partitions)
    ensures r.Err? <==> opts.partitions < 0
    ensures r.Err? ==> r.error == "invalid partitions [" + IntToString(opts.partitions) + "]"
  {
    if opts.partitions == 0 then Ok(NonPartitioned(opts.topic))
    else if opts.partitions > 0 then Ok(Partitioned(opts.topic, opts.partitions))
    else Err("invalid partitions [" + IntToString(opts.partitions) + "]")
  }

  /** The request the chosen call sends: its path, and the partition count as the body of a partitioned create. */
  function CreateRequest(call: CreateCall): (r: (string, string))
    ensures call.NonPartitioned? ==> r == (AdminTopics.CallPath(AdminTopics.CreateNonPartitioned(call.topic)), "")
    ensures call.Partitioned? ==> r == (AdminTopics.CallPath(AdminTopics.CreatePartitioned(call.topic)), NatToString(call.partitions))
  {
    match call
    case NonPartitioned(t) => (AdminTopics.CallPath(AdminTopics.CreateNonPartitioned(t)), "")
    case Partitioned(t, n) => (AdminTopics.CallPath(AdminTopics.CreatePartitioned(t)), NatToString(n))
  }

  /**
   * The two creates of one topic go to different paths, and the body of a
   * partitioned create determines the partition count.
   */
  lemma CreateRequestsDistinguish(topic: string, n: nat, m: nat)
    ensures CreateRequest(NonPartitioned(topic)).0 != CreateRequest(Partitioned(topic, n)).0
    ensures CreateRequest(Partitioned(topic, n)) == CreateRequest(Partitioned(topic, m)) <==> n == m
  {
    if CreateRequest(Partitioned(topic, n)) == CreateRequest(Partitioned(topic, m)) {
      NatToStringInjective(n, m);
    }
  }

  /** The default partition count creates a non-partitioned topic. */
  lemma DefaultCreatesNonPartitioned(topic: string)
    ensures CreateTopicCall(CreateTopicOpts(topic, DEFAULT_PARTITIONS)) == Ok(NonPartitioned(topic))
  {
  }

  datatype ListOpts = ListOpts(namespace: string, domain: string)

  /**
   * `ListOpts::run` up to the request: the admin client is obtained first
   * (`admin` stands for that step's outcome), then the domain is parsed; the
   * request path is returned only when both succeed.
   */
  function ListRequestPath(opts: ListOpts, admin: Result<(), AdminError>): (r: Result<string, AdminError>)
    ensures admin.Err? ==> r == Err(admin.error)
    ensures admin.Ok? ==> (r.Ok? <==> AdminTopics.ParseDomain(opts.domain).Ok?)
    ensures admin.Ok? && r.Err? ==> r.error == Custom("invalid domain name [" + opts.domain + "]")
    ensures r.Ok? ==> r.value == AdminTopics.ListPath(opts.namespace, AdminTopics.ParseDomain(opts.domain).value)
  {
    match admin
    case Err(e) => Err(e)
    case Ok(_) =>
      match AdminTopics.ParseDomain(opts.domain)
      case Err(e) => Err(e)
      case Ok(d) => Ok(AdminTopics.ListPath(opts.namespace, d))
  }

  /** With the default domain, a ready admin client lists the persistent topics of the namespace. */
  lemma DefaultListsPersistent(namespace: string)
    ensures ListRequestPath(ListOpts(namespace, DEFAULT_DOMAIN), Ok(())) == Ok("/admin/v2/persistent/" + namespace)
  {
    AdminTopics.ParseDomainIff(DEFAULT_DOMAIN, AdminTopics.Persistent);
    assert AdminTopics.NormalizeDomain(DEFAULT_DOMAIN) == "PERSISTENT";
    assert "/admin/v2/" + "persistent" + "/" + namespace == "/admin/v2/persistent/" + namespace;
  }
}
