/**
 * The topic part of the admin client: the two topic domains, their textual
 * form and parser, the canonical form of a topic name used in request paths,
 * and the request paths and response mappings of the topic calls.
 */
module AdminTopics {
  import opened Wrappers
  import opened Text
  import opened Http

  datatype TopicDomain = Persistent | NonPersistent

  /** `TopicDomain::to_string`. */
  function DomainName(d: TopicDomain): (s: string)
    ensures d.Persistent? ==> s == "persistent"
    ensures d.NonPersistent? ==> s == "non-persistent"
  {
    match d
    case Persistent => "persistent"
    case NonPersistent => "non-persistent"
  }

  /** The folding `parse` applies to each character: upper-case it, then turn '-' into '_'. */
  function FoldDomainChar(c: char): char {
    if UpperChar(c) == '-' then '_' else UpperChar(c)
  }

  /** `name.to_uppercase().replace("-", "_")`. */
  function NormalizeDomain(name: string): (r: string)
    ensures |r| == |name|
    ensures forall i :: 0 <= i < |name| ==> r[i] == FoldDomainChar(name[i])
  {
    ReplaceChar(ToUpper(name), '-', '_')
  }

  /** `TopicDomain::parse`. */
  function ParseDomain(name: string): (r: Result<TopicDomain, AdminError>)
    ensures r.Err? ==> r.error == Custom("invalid domain name [" + name + "]")
  {
    var n := NormalizeDomain(name);
    if n == "PERSISTENT" then Ok(Persistent)
    else if n == "NON_PERSISTENT" then Ok(NonPersistent)
    else Err(Custom("invalid domain name [" + name + "]"))
  }

  /** Two names `parse` cannot tell apart: same length, same folded characters. */
  ghost predicate SameDomainSpelling(a: string, b: string) {
    |a| == |b| && forall i :: 0 <= i < |a| ==> FoldDomainChar(a[i]) == FoldDomainChar(b[i])
  }

  lemma NormalizedDomainNames()
    ensures NormalizeDomain("persistent") == "PERSISTENT"
    ensures NormalizeDomain("non-persistent") == "NON_PERSISTENT"
  {
  }

  /**
   * `parse` accepts exactly the spellings of a domain's name that differ from
   * it only in ASCII case and in '-' versus '_'.
   */
  lemma ParseDomainIff(name: string, d: TopicDomain)
    ensures ParseDomain(name) == Ok(d) <==> SameDomainSpelling(name, DomainName(d))
  {
    NormalizedDomainNames();
    var n, m := NormalizeDomain(name), NormalizeDomain(DomainName(d));
    if SameDomainSpelling(name, DomainName(d)) {
      assert n == m;
    }
    if ParseDomain(name) == Ok(d) {
      assert n == m;
      assert forall i :: 0 <= i < |name| ==> FoldDomainChar(name[i]) == n[i] == m[i] == FoldDomainChar(DomainName(d)[i]);
    }
  }

  /** Round trip: the printed form of a domain parses back to it. */
  lemma DomainRoundTrip(d: TopicDomain)
    ensures ParseDomain(DomainName(d)) == Ok(d)
  {
    ParseDomainIff(DomainName(d), d);
  }

  /** Spellings that differ only in case and in '-' versus '_' parse alike. */
  lemma ParseDomainIgnoresSpelling(a: string, b: string)
    requires SameDomainSpelling(a, b)
    ensures ParseDomain(a).Ok? <==> ParseDomain(b).Ok?
    ensures ParseDomain(a).Ok? ==> ParseDomain(a) == ParseDomain(b)
  {
    assert NormalizeDomain(a) == NormalizeDomain(b);
  }

  lemma ParseDomainExamples()
    ensures ParseDomain("PERSISTENT") == Ok(Persistent)
    ensures ParseDomain("Persistent") == Ok(Persistent)
    ensures ParseDomain("persistent") == Ok(Persistent)
  {
  }

  lemma ParseNonPersistentExamples()
    ensures ParseDomain("non_persistent") == Ok(NonPersistent)
    ensures ParseDomain("Non-Persistent") == Ok(NonPersistent)
  {
  }

  /** `topic.replace("://", "/")`: the form of a topic name used inside request paths. */
  function CanonicalTopic(topic: string): string {
    ReplaceAll(topic, "://", "/")
  }

  /**
   * A full topic name `domain://tenant/namespace/topic` becomes
   * `domain/tenant/namespace/topic`, provided the domain holds no ':' and
   * "://" does not occur in the rest.
   */
  lemma CanonicalTopicOfFullName(domain: string, path: string)
    requires ':' !in domain && Absent(path, "://")
    ensures CanonicalTopic(domain + "://" + path) == domain + "/" + path
  {
    assert domain + "://" + path == domain + ("://" + path);
    ReplaceAllSkipsPrefix(domain, "://" + path, "://", "/");
    ReplaceAllAtFront("://", path, "/");
    ReplaceAllAbsent(path, "://", "/");
  }

  /** A name without ':' is already canonical. */
  lemma CanonicalTopicIdentity(topic: string)
    requires ':' !in topic
    ensures CanonicalTopic(topic) == topic
  {
    ReplaceAllIdentity(topic, "://", "/");
  }

  lemma CanonicalTopicExample()
    ensures CanonicalTopic("persistent://t/n/x") == "persistent/t/n/x"
  {
    assert "persistent://t/n/x" == "persistent" + "://" + "t/n/x";
    assert "persistent/t/n/x" == "persistent" + "/" + "t/n/x";
    AbsentWithoutFirst("t/n/x", "://");
    CanonicalTopicOfFullName("persistent", "t/n/x");
  }

  /** The path of `list`. */
  function ListPath(namespace: string, d: TopicDomain): (p: string)
    ensures p == "/admin/v2/" + DomainName(d) + "/" + namespace
  {
    "/admin/v2/" + DomainName(d) + "/" + namespace
  }

  /** The path of `list_partitioned`. */
  function ListPartitionedPath(namespace: string, d: TopicDomain): (p: string)
    ensures p == ListPath(namespace, d) + "/partitioned"
  {
    "/admin/v2/" + DomainName(d) + "/" + namespace + "/partitioned"
  }

  /** The list path names its domain and its namespace unambiguously. */
  lemma ListPathInjective(ns1: string, d1: TopicDomain, ns2: string, d2: TopicDomain)
    requires ListPath(ns1, d1) == ListPath(ns2, d2)
    ensures ns1 == ns2 && d1 == d2
  {
    var p := ListPath(ns1, d1);
    assert p[10] == DomainName(d1)[0];
    assert ListPath(ns2, d2)[10] == DomainName(d2)[0];
    assert d1 == d2;
    var k := 10 + |DomainName(d1)| + 1;
    assert ns1 == p[k..] == ListPath(ns2, d2)[k..] == ns2;
  }

  /** The topic calls, each identified by what its request path is built from. */
  datatype TopicCall =
    | Lookup(topic: string)
    | Stats(topic: string)
    | Permissions(topic: string)
    | GrantPermissions(topic: string, role: string)
    | RevokePermissions(topic: string, role: string)
    | CreateNonPartitioned(topic: string)
    | CreatePartitioned(topic: string)
    | DeleteTopic(topic: string)
    | DeletePartitioned(topic: string)
    | Subscriptions(topic: string)
    | Unsubscribe(topic: string, encodedSubscription: string)

  /** The request path of each topic call, built from the canonical topic name. */
  function CallPath(call: TopicCall): (p: string)
    ensures call.Lookup? ==> p == "/lookup/v2/topic/" + CanonicalTopic(call.topic)
    ensures !call.Lookup? ==> "/admin/v2/" + CanonicalTopic(call.topic) <= p
  {
    var t := CanonicalTopic(call.topic);
    match call
    case Lookup(_) => "/lookup/v2/topic/" + t
    case Stats(_) => "/admin/v2/" + t + "/stats"
    case Permissions(_) => "/admin/v2/" + t + "/permissions"
    case GrantPermissions(_, role) => "/admin/v2/" + t + "/permissions/" + role
    case RevokePermissions(_, role) => "/admin/v2/" + t + "/permissions/" + role
    case CreateNonPartitioned(_) => "/admin/v2/" + t
    case CreatePartitioned(_) => "/admin/v2/" + t + "/partitions"
    case DeleteTopic(_) => "/admin/v2/" + t
    case DeletePartitioned(_) => "/admin/v2/" + t + "/partitions"
    case Subscriptions(_) => "/admin/v2/" + t + "/subscriptions"
    case Unsubscribe(_, sub) => "/admin/v2/" + t + "/subscription/" + sub
  }

  /** For a full topic name the stats path is `/admin/v2/domain/tenant/namespace/topic/stats`. */
  lemma StatsPathOfFullName(domain: string, path: string)
    requires ':' !in domain && Absent(path, "://")
    ensures CallPath(Stats(domain + "://" + path)) == "/admin/v2/" + domain + "/" + path + "/stats"
  {
    CanonicalTopicOfFullName(domain, path);
  }

  /**
   * How each mutating topic call maps its response. A failure to build or
   * send the request (`sent`) is passed on. Otherwise the permission calls
   * raise the status error on a 4xx or 5xx status and succeed on any other;
   * the create and delete calls and `unsubscribe` succeed on 2xx only and
   * otherwise return the body as the error.
   */
  function CallOutcome(call: TopicCall, sent: Result<Response, AdminError>): (r: Result<(), AdminError>)
    requires !(call.Lookup? || call.Stats? || call.Permissions? || call.Subscriptions?)
    ensures sent.Err? ==> r == Err(sent.error)
    ensures sent.Ok? && (call.GrantPermissions? || call.RevokePermissions?) ==> (r.Ok? <==> !IsErrorStatus(sent.value.status))
    ensures sent.Ok? && !(call.GrantPermissions? || call.RevokePermissions?) ==> (r.Ok? <==> IsSuccess(sent.value.status))
    ensures sent.Ok? && r.Err? && (call.GrantPermissions? || call.RevokePermissions?) ==> r.error == Status(sent.value.status)
    ensures sent.Ok? && r.Err? && !(call.GrantPermissions? || call.RevokePermissions?) ==> r.error == Custom(sent.value.body)
  {
    match sent
    case Err(e) => Err(e)
    case Ok(resp) =>
      if call.GrantPermissions? || call.RevokePermissions? then StatusOutcome(resp) else BodyOutcome(resp)
  }
}
