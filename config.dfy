/**
 * The configuration file's contents (clusters, users, contexts and an
 * optional current context) and the resolution of a context name into the
 * settings a client and the admin client are built from. Reading and
 * decoding the file is not part of this module: `Configs` is its decoded value.
 */
module Config {
  import opened Wrappers

  datatype Cluster = Cluster(url: string, adminServiceUrl: Option<string>, allowInsecureConnection: bool)
  datatype ClusterItem = ClusterItem(name: string, cluster: Cluster)
  datatype User = User(authName: Option<string>, authParams: Option<string>)
  datatype UserItem = UserItem(name: string, user: User)
  datatype Context = Context(cluster: string, user: string)
  datatype ContextItem = ContextItem(name: string, context: Context)

  datatype Configs = Configs(
    clusters: seq<ClusterItem>,
    users: seq<UserItem>,
    contexts: seq<ContextItem>,
    currentContext: Option<string>)

  datatype PulsarConfig = PulsarConfig(
    url: string,
    adminUrl: string,
    authName: Option<string>,
    authParams: Option<string>,
    allowInsecureConnection: bool)

  /** `iter().find`: the index of the first element that matches, if any. */
  function FindFirst<T>(xs: seq<T>, matches: T -> bool): (r: Option<nat>)
    ensures r.Some? ==> r.value < |xs| && matches(xs[r.value])
    ensures r.Some? ==> forall j :: 0 <= j < r.value ==> !matches(xs[j])
    ensures r.None? ==> forall j :: 0 <= j < |xs| ==> !matches(xs[j])
  {
    if xs == [] then None
    else if matches(xs[0]) then Some(0)
    else match FindFirst(xs[1..], matches)
      case None => None
      case Some(i) => Some(i + 1)
  }

  function FindContext(cfgs: Configs, name: string): Option<nat> {
    FindFirst(cfgs.contexts, (c: ContextItem) => c.name == name)
  }

  function FindCluster(cfgs: Configs, name: string): Option<nat> {
    FindFirst(cfgs.clusters, (c: ClusterItem) => c.name == name)
  }

  function FindUser(cfgs: Configs, name: string): Option<nat> {
    FindFirst(cfgs.users, (u: UserItem) => u.name == name)
  }

  /**
   * The source insists (with `expect`, a panic) that a fully resolved context
   * names a cluster with an admin url; callers must not ask for any other.
   */
  predicate AdminUrlDefined(cfgs: Configs, name: string) {
    var ci := FindContext(cfgs, name);
    ci.None? ||
    var ctx := cfgs.contexts[ci.value].context;
    var cl := FindCluster(cfgs, ctx.cluster);
    cl.None? || FindUser(cfgs, ctx.user).None? ||
    cfgs.clusters[cl.value].cluster.adminServiceUrl.Some?
  }

  /**
   * A reading of context resolution that does not use the search: `i`, `j` and
   * `k` are the first context named `name`, the first cluster it names and the
   * first user it names.
   */
  ghost predicate Resolves(cfgs: Configs, name: string, i: int, j: int, k: int) {
    && 0 <= i < |cfgs.contexts| && cfgs.contexts[i].name == name
    && (forall i' :: 0 <= i' < i ==> cfgs.contexts[i'].name != name)
    && 0 <= j < |cfgs.clusters| && cfgs.clusters[j].name == cfgs.contexts[i].context.cluster
    && (forall j' :: 0 <= j' < j ==> cfgs.clusters[j'].name != cfgs.contexts[i].context.cluster)
    && 0 <= k < |cfgs.users| && cfgs.users[k].name == cfgs.contexts[i].context.user
    && (forall k' :: 0 <= k' < k ==> cfgs.users[k'].name != cfgs.contexts[i].context.user)
  }

  /**
   * `get_pulsar_config`: succeeds exactly when the context, its cluster and its
   * user all exist, taking the first of each; urls and the insecure flag come
   * from the cluster, the auth name and params from the user. Every failure is
   * the same error.
   */
  function GetPulsarConfig(cfgs: Configs, name: string): (r: Result<PulsarConfig, string>)
    requires AdminUrlDefined(cfgs, name)
    ensures r.Ok? <==> exists i, j, k :: Resolves(cfgs, name, i, j, k)
    ensures r.Err? ==> r.error == "context [" + name + "] not exist"
    ensures forall i, j, k :: Resolves(cfgs, name, i, j, k) ==>
              && cfgs.clusters[j].cluster.adminServiceUrl.Some?
              && r.Ok?
              && r.value.url == cfgs.clusters[j].cluster.url
              && r.value.adminUrl == cfgs.clusters[j].cluster.adminServiceUrl.value
              && r.value.allowInsecureConnection == cfgs.clusters[j].cluster.allowInsecureConnection
              && r.value.authName == cfgs.users[k].user.authName
              && r.value.authParams == cfgs.users[k].user.authParams
  {
    var notExist := "context [" + name + "] not exist";
    match FindContext(cfgs, name)
    case None => Err(notExist)
    case Some(i) =>
      var ctx := cfgs.contexts[i].context;
      match FindCluster(cfgs, ctx.cluster)
      case None => Err(notExist)
      case Some(j) =>
        match FindUser(cfgs, ctx.user)
        case None => Err(notExist)
        case Some(k) =>
          var cluster := cfgs.clusters[j].cluster;
          var user := cfgs.users[k].user;
          assert Resolves(cfgs, name, i, j, k);
          Ok(PulsarConfig(cluster.url, cluster.adminServiceUrl.value, user.authName, user.authParams, cluster.allowInsecureConnection))
  }

  /** `has_current_context`. */
  function HasCurrentContext(cfgs: Configs): (b: bool)
    ensures b <==> cfgs.currentContext.Some?
  {
    cfgs.currentContext.Some?
  }

  const CURRENT_CONTEXT_NOT_SET: string := "current context not set"

  /** `get_current_pulsar_config`: the named-context lookup for the current context, if one is set. */
  function GetCurrentPulsarConfig(cfgs: Configs): (r: Result<PulsarConfig, string>)
    requires cfgs.currentContext.Some? ==> AdminUrlDefined(cfgs, cfgs.currentContext.value)
    ensures cfgs.currentContext.None? ==> r == Err(CURRENT_CONTEXT_NOT_SET)
    ensures cfgs.currentContext.Some? ==> r == GetPulsarConfig(cfgs, cfgs.currentContext.value)
  {
    match cfgs.currentContext
    case None => Err(CURRENT_CONTEXT_NOT_SET)
    case Some(current) => GetPulsarConfig(cfgs, current)
  }

  /**
   * The two failures of `get_current_pulsar_config` cannot be confused: it
   * reports "current context not set" exactly when no current context is set.
   */
  lemma CurrentContextNotSetIff(cfgs: Configs)
    requires cfgs.currentContext.Some? ==> AdminUrlDefined(cfgs, cfgs.currentContext.value)
    ensures GetCurrentPulsarConfig(cfgs) == Err(CURRENT_CONTEXT_NOT_SET) <==> !HasCurrentContext(cfgs)
  {
    if cfgs.currentContext.Some? {
      var n := cfgs.currentContext.value;
      var msg := "context [" + n + "] not exist";
      assert msg[1] == 'o' && CURRENT_CONTEXT_NOT_SET[1] == 'u';
    }
  }
}
