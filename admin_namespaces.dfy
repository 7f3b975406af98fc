/**
 * The namespace part of the admin client: the policy records, the request
 * paths, the response mapping of the mutating calls, and the `permissions`
 * transform that drops the null entries of each role's action list.
 */
module AdminNamespaces {
  import opened Wrappers
  import opened Http
  import opened Text

  type i32 = x: int | -0x8000_0000 <= x < 0x8000_0000
  type u64 = x: int | 0 <= x < 0x1_0000_0000_0000_0000

  /** An IEEE double, carried as its bits: the model copies it and never computes with it. */
  datatype Float64 = Float64(bits: bv64)

  datatype BundlesData = BundlesData(numBundles: u64, boundaries: seq<string>)

  datatype PersistencePolicies = PersistencePolicies(
    bookkeeperEnsemble: i32,
    bookkeeperWriteQuorum: i32,
    bookkeeperAckQuorum: i32,
    managedLedgerMaxMarkDeleteRate: Float64)

  datatype NamespacePolicies = NamespacePolicies(
    bundles: Option<BundlesData>,
    replicationClusters: Option<seq<string>>,
    persistence: Option<PersistencePolicies>)

  /** `NamespacePolicies::default()`: every field absent. */
  const DEFAULT_POLICIES: NamespacePolicies := NamespacePolicies(None, None, None)

  datatype NamespaceCall =
    | List(tenant: string)
    | Create(namespace: string)
    | Policies(namespace: string)
    | GetPermissions(namespace: string)
    | GrantPermission(namespace: string, role: string)
    | RevokePermission(namespace: string, role: string)
    | UpdatePersistence(namespace: string)
    | RemovePersistence(namespace: string)

  /** The request path of each namespace call. */
  function CallPath(call: NamespaceCall): (p: string)
    ensures "/admin/v2/namespaces/" <= p
  {
    match call
    case List(t) => "/admin/v2/namespaces/" + t
    case Create(ns) => "/admin/v2/namespaces/" + ns
    case Policies(ns) => "/admin/v2/namespaces/" + ns
    case GetPermissions(ns) => "/admin/v2/namespaces/" + ns + "/permissions"
    case GrantPermission(ns, role) => "/admin/v2/namespaces/" + ns + "/permissions/" + role
    case RevokePermission(ns, role) => "/admin/v2/namespaces/" + ns + "/permissions/" + role
    case UpdatePersistence(ns) => "/admin/v2/namespaces/" + ns + "/persistence"
    case RemovePersistence(ns) => "/admin/v2/namespaces/" + ns + "/persistence"
  }

  /**
   * The endpoint a call goes to: `list` the tenant path; `create` and
   * `policies` the namespace path; `get_permissions` the permissions path;
   * `grant_permission` and `revoke_permission` the role path;
   * `update_persistence` and `remove_persistence` the persistence path.
   */
  function Endpoint(call: NamespaceCall): nat {
    match call
    case List(_) => 0
    case Create(_) => 1
    case Policies(_) => 1
    case GetPermissions(_) => 2
    case GrantPermission(_, _) => 3
    case RevokePermission(_, _) => 3
    case UpdatePersistence(_) => 4
    case RemovePersistence(_) => 4
  }

  /** The tenant a `list` names, the namespace any other call names. */
  function Subject(call: NamespaceCall): string {
    if call.List? then call.tenant else call.namespace
  }

  /** A namespace in the `tenant/name` form: it holds a '/', and none after the first. */
  predicate QualifiedNamespace(ns: string) {
    '/' in ns && '/' !in ns[IndexOf(ns, '/') + 1..]
  }

  /** A tenant and a role are single path segments; a namespace is `tenant/name`. */
  predicate WellFormedCall(call: NamespaceCall) {
    if call.List? then '/' !in call.tenant
    else QualifiedNamespace(call.namespace) && ((call.GrantPermission? || call.RevokePermission?) ==> '/' !in call.role)
  }

  /** The tenant of a qualified namespace: everything before its '/'. */
  function TenantOf(ns: string): string {
    ns[..IndexOf(ns, '/')]
  }

  /** A '/' that occurs is found. */
  lemma LocatesSeparator(ns: string)
    requires '/' in ns
    ensures IndexOf(ns, '/') < |ns|
  {
  }

  /** The local name of a qualified namespace: everything after its '/'. */
  function NameOf(ns: string): string
    requires QualifiedNamespace(ns)
  {
    LocatesSeparator(ns);
    ns[IndexOf(ns, '/') + 1..]
  }

  /** A qualified namespace splits at its '/' into two segments. */
  lemma SplitQualified(ns: string)
    requires QualifiedNamespace(ns)
    ensures ns == TenantOf(ns) + "/" + NameOf(ns)
    ensures '/' !in TenantOf(ns) && '/' !in NameOf(ns)
  {
    LocatesSeparator(ns);
    var k := IndexOf(ns, '/');
    assert ns == ns[..k] + [ns[k]] + ns[k + 1..];
  }

  /** What follows "/admin/v2/namespaces/" in a call's path. */
  function PathTail(call: NamespaceCall): string {
    match call
    case List(t) => t
    case Create(ns) => ns
    case Policies(ns) => ns
    case GetPermissions(ns) => ns + "/permissions"
    case GrantPermission(ns, role) => ns + "/permissions/" + role
    case RevokePermission(ns, role) => ns + "/permissions/" + role
    case UpdatePersistence(ns) => ns + "/persistence"
    case RemovePersistence(ns) => ns + "/persistence"
  }

  /** Every namespace path is the common prefix followed by the call's tail. */
  lemma PathHasTail(call: NamespaceCall)
    ensures CallPath(call) == "/admin/v2/namespaces/" + PathTail(call)
  {
    var pre := "/admin/v2/namespaces/";
    match call
    case GetPermissions(ns) =>
      assert pre + ns + "/permissions" == pre + (ns + "/permissions");
    case GrantPermission(ns, role) =>
      assert pre + ns + "/permissions/" + role == pre + (ns + "/permissions/" + role);
    case RevokePermission(ns, role) =>
      assert pre + ns + "/permissions/" + role == pre + (ns + "/permissions/" + role);
    case UpdatePersistence(ns) =>
      assert pre + ns + "/persistence" == pre + (ns + "/persistence");
    case RemovePersistence(ns) =>
      assert pre + ns + "/persistence" == pre + (ns + "/persistence");
    case _ =>
  }

  /**
   * The tail of any call but `list` without its last segment: the tenant of
   * the namespace, the namespace, or the namespace's permissions path.
   */
  function Front(call: NamespaceCall): string
    requires WellFormedCall(call) && !call.List?
  {
    match call
    case Create(ns) => TenantOf(ns)
    case Policies(ns) => TenantOf(ns)
    case GrantPermission(ns, _) => ns + "/permissions"
    case RevokePermission(ns, _) => ns + "/permissions"
    case GetPermissions(ns) => ns
    case UpdatePersistence(ns) => ns
    case RemovePersistence(ns) => ns
  }

  /** The last segment of the tail of any call but `list`. */
  function Last(call: NamespaceCall): string
    requires WellFormedCall(call) && !call.List?
  {
    match call
    case Create(ns) => NameOf(ns)
    case Policies(ns) => NameOf(ns)
    case GetPermissions(_) => "permissions"
    case GrantPermission(_, role) => role
    case RevokePermission(_, role) => role
    case _ => "persistence"
  }
  /** The tail of any call but `list` is its front, a '/', and a last segment free of '/'. */
  lemma TailSplits(call: NamespaceCall)
    requires WellFormedCall(call) && !call.List?
    ensures PathTail(call) == Front(call) + "/" + Last(call)
    ensures '/' !in Last(call)
  {
    match call
    case Create(ns) =>
      SplitQualified(ns);
    case Policies(ns) =>
      SplitQualified(ns);
    case GetPermissions(ns) =>
      PermissionsSplits(ns);
    case GrantPermission(ns, role) =>
      RolePathSplits(ns, role);
    case RevokePermission(ns, role) =>
      RolePathSplits(ns, role);
    case UpdatePersistence(ns) =>
      PersistenceSplits(ns);
    case RemovePersistence(ns) =>
      PersistenceSplits(ns);
  }

  /** The fixed suffixes are a '/' followed by one segment. */
  lemma PermissionsSplits(ns: string)
    ensures ns + "/permissions" == ns + "/" + "permissions"
  {
    assert "/permissions" == "/" + "permissions";
  }

  lemma PersistenceSplits(ns: string)
    ensures ns + "/persistence" == ns + "/" + "persistence"
  {
    assert "/persistence" == "/" + "persistence";
  }

  lemma RolePathSplits(ns: string, role: string)
    ensures ns + "/permissions/" + role == ns + "/permissions" + "/" + role
  {
    assert "/permissions/" == "/permissions" + "/";
  }

  /** `a + x == a + y` only when `x == y`. */
  lemma DropPrefix(a: string, x: string, y: string)
    requires a + x == a + y
    ensures x == y
  {
    assert x == (a + x)[|a|..];
    assert y == (a + y)[|a|..];
  }

  /** `x + s == y + s` only when `x == y`. */
  lemma DropSuffix(x: string, y: string, s: string)
    requires x + s == y + s
    ensures x == y
  {
    assert |x| == |y|;
    assert x == (x + s)[..|x|];
    assert y == (y + s)[..|y|];
  }

  /** The segment after the last '/' is recovered, and so is what comes before that '/'. */
  lemma LastSegment(x1: string, r1: string, x2: string, r2: string)
    requires '/' !in r1 && '/' !in r2
    requires x1 + "/" + r1 == x2 + "/" + r2
    ensures x1 == x2 && r1 == r2
  {
    var p := x1 + "/" + r1;
    assert forall k :: |x1| < k < |p| ==> p[k] == r1[k - |x1| - 1];
    assert forall k :: |x2| < k < |p| ==> p[k] == r2[k - |x2| - 1];
    assert p[|x1|] == '/' && p[|x2|] == '/';
    assert |x1| == |x2|;
    assert x1 == p[..|x1|];
    assert x2 == p[..|x2|];
    assert r1 == p[|x1| + 1..];
    assert r2 == p[|x2| + 1..];
  }

  /** A qualified namespace is not some other qualified namespace followed by a segment. */
  lemma QualifiedNotExtended(x: string, y: string, w: string)
    requires QualifiedNamespace(x) && QualifiedNamespace(y) && '/' !in w
    ensures x != y + "/" + w
  {
    SplitQualified(x);
    if x == y + "/" + w {
      LastSegment(TenantOf(x), NameOf(x), y, w);
    }
  }

  /** The front of a create or policies call is a tenant, free of '/'; every other front holds a '/'. */
  lemma FrontSlash(call: NamespaceCall)
    requires WellFormedCall(call) && !call.List?
    ensures '/' in Front(call) <==> Endpoint(call) != 1
  {
    if call.Create? || call.Policies? {
      SplitQualified(call.namespace);
    } else if call.GrantPermission? || call.RevokePermission? {
      assert Front(call)[|call.namespace|] == '/';
    }
  }

  /** The front of a role path is the namespace followed by one segment. */
  lemma RoleFront(call: NamespaceCall)
    requires (call.GrantPermission? || call.RevokePermission?) && WellFormedCall(call)
    ensures Front(call) == call.namespace + "/" + "permissions"
  {
    PermissionsSplits(call.namespace);
  }

  /** The last segments of the permissions and persistence paths differ. */
  lemma LastSegmentsDiffer(a: NamespaceCall, b: NamespaceCall)
    requires WellFormedCall(a) && WellFormedCall(b)
    requires a.GetPermissions? && (b.UpdatePersistence? || b.RemovePersistence?)
    ensures Last(a) != Last(b)
  {
    assert "permissions"[3] != "persistence"[3];
  }

  /** Equal fronts and last segments of well-formed calls other than `list` belong to the same endpoint. */
  lemma SameSplitSameEndpoint(a: NamespaceCall, b: NamespaceCall)
    requires WellFormedCall(a) && WellFormedCall(b) && !a.List? && !b.List?
    requires Front(a) == Front(b) && Last(a) == Last(b)
    ensures Endpoint(a) == Endpoint(b)
  {
    FrontSlash(a);
    FrontSlash(b);
    if Endpoint(a) != 1 && Endpoint(b) != 1 {
      if Endpoint(a) == 3 && Endpoint(b) != 3 {
        RoleFront(a);
        QualifiedNotExtended(b.namespace, a.namespace, "permissions");
      } else if Endpoint(b) == 3 && Endpoint(a) != 3 {
        RoleFront(b);
        QualifiedNotExtended(a.namespace, b.namespace, "permissions");
      } else if Endpoint(a) == 2 && Endpoint(b) == 4 {
        LastSegmentsDiffer(a, b);
      } else if Endpoint(a) == 4 && Endpoint(b) == 2 {
        LastSegmentsDiffer(b, a);
      }
    }
  }

  /**
   * For well-formed calls the path identifies the call up to the source's own
   * sharing: two calls go to the same path exactly when they hit the same
   * endpoint for the same tenant or namespace (and, on the role path, the same
   * role).
   */
  lemma CallPathIdentifiesCall(a: NamespaceCall, b: NamespaceCall)
    requires WellFormedCall(a) && WellFormedCall(b)
    ensures CallPath(a) == CallPath(b) <==>
              Endpoint(a) == Endpoint(b) && Subject(a) == Subject(b) &&
              (Endpoint(a) == 3 ==> a.role == b.role)
  {
    PathHasTail(a);
    PathHasTail(b);
    if CallPath(a) == CallPath(b) {
      DropPrefix("/admin/v2/namespaces/", PathTail(a), PathTail(b));
      if !a.List? && !b.List? {
        TailSplits(a);
        TailSplits(b);
        LastSegment(Front(a), Last(a), Front(b), Last(b));
        SameSplitSameEndpoint(a, b);
        if Endpoint(a) == 1 {
          SplitQualified(a.namespace);
          SplitQualified(b.namespace);
        } else if Endpoint(a) == 3 {
          DropSuffix(a.namespace, b.namespace, "/permissions");
        }
      } else if !a.List? {
        // A tenant holds no '/'; every other tail does.
        TailSplits(a);
      } else if !b.List? {
        TailSplits(b);
      }
    }
  }

  /**
   * Without the `tenant/name` form the endpoints can meet: creating the
   * namespace "a/permissions" hits the permissions path of "a".
   */
  lemma UnqualifiedNamespacesCollide()
    ensures CallPath(Create("a/permissions")) == CallPath(GetPermissions("a"))
    ensures !WellFormedCall(GetPermissions("a"))
  {
    assert "a/permissions" == "a" + "/permissions";
    assert multiset("a")['/'] == 0;
  }

  /**
   * Every mutating namespace call: a failure to build or send the request
   * (`sent`) is passed on; otherwise `Ok` exactly on a success status, and an
   * error carrying the body on any other.
   */
  function CallOutcome(call: NamespaceCall, sent: Result<Response, AdminError>): (r: Result<(), AdminError>)
    requires call.Create? || call.GrantPermission? || call.RevokePermission? || call.UpdatePersistence? || call.RemovePersistence?
    ensures sent.Err? ==> r == Err(sent.error)
    ensures sent.Ok? ==> (r.Ok? <==> IsSuccess(sent.value.status))
    ensures sent.Ok? && r.Err? ==> r.error == Custom(sent.value.body)
  {
    match sent
    case Err(e) => Err(e)
    case Ok(resp) => BodyOutcome(resp)
  }

  /** The `Some` entries of a list, in their order, with the `None` entries dropped. */
  function KeepSome(xs: seq<Option<string>>): (r: seq<string>)
    ensures |r| <= |xs|
  {
    if xs == [] then []
    else if xs[0].Some? then [xs[0].value] + KeepSome(xs[1..])
    else KeepSome(xs[1..])
  }

  /** Dropping the `None` entries commutes with concatenation, so relative order is kept. */
  lemma {:induction false} KeepSomeAppend(a: seq<Option<string>>, b: seq<Option<string>>)
    ensures KeepSome(a + b) == KeepSome(a) + KeepSome(b)
  {
    if a != [] {
      assert (a + b)[1..] == a[1..] + b;
      KeepSomeAppend(a[1..], b);
    } else {
      assert a + b == b;
    }
  }

  /** A value survives exactly when it was present as a `Some` entry. */
  lemma {:induction false} KeepSomeMembers(xs: seq<Option<string>>, x: string)
    ensures x in KeepSome(xs) <==> Some(x) in xs
  {
    if xs != [] {
      KeepSomeMembers(xs[1..], x);
      assert xs == [xs[0]] + xs[1..];
    }
  }

  /** Nothing is dropped from a list without `None` entries. */
  lemma {:induction false} KeepSomeAllPresent(xs: seq<Option<string>>)
    requires forall i :: 0 <= i < |xs| ==> xs[i].Some?
    ensures |KeepSome(xs)| == |xs|
    ensures forall i :: 0 <= i < |xs| ==> KeepSome(xs)[i] == xs[i].value
  {
    if xs != [] {
      KeepSomeAllPresent(xs[1..]);
    }
  }

  /**
   * `permissions` after decoding: the same roles, each with its non-null
   * actions in their original order. `decoded` is the outcome of decoding the
   * response body.
   */
  function Permissions(decoded: Result<map<string, seq<Option<string>>>, AdminError>): (r: Result<map<string, seq<string>>, AdminError>)
    ensures decoded.Err? ==> r == Err(decoded.error)
    ensures decoded.Ok? ==> r.Ok? && r.value.Keys == decoded.value.Keys
    ensures decoded.Ok? ==> forall role :: role in decoded.value ==> r.value[role] == KeepSome(decoded.value[role])
    ensures decoded.Ok? ==> forall role :: role in decoded.value ==> |r.value[role]| <= |decoded.value[role]|
  {
    match decoded
    case Err(e) => Err(e)
    case Ok(m) => Ok(map role | role in m :: KeepSome(m[role]))
  }
}
