/**
 * The tenant part of the admin client: `create` fills in the allowed
 * clusters when none are given and exactly one cluster is known.
 */
module AdminTenants {
  import opened Wrappers
  import opened Http

  datatype TenantInfo = TenantInfo(adminRoles: seq<string>, allowedClusters: seq<string>)

  /**
   * The tenant info `create` sends. The cluster listing is consulted only when
   * no allowed cluster is given (`clusters` is its outcome, error included);
   * a single known cluster is then pushed onto the empty list.
   */
  function PrepareTenantInfo(info: TenantInfo, clusters: Result<seq<string>, AdminError>): (r: Result<TenantInfo, AdminError>)
    ensures info.allowedClusters != [] ==> r == Ok(info)
    ensures info.allowedClusters == [] && clusters.Err? ==> r == Err(clusters.error)
    ensures info.allowedClusters == [] && clusters.Ok? && |clusters.value| == 1 ==>
              r == Ok(TenantInfo(info.adminRoles, [clusters.value[0]]))
    ensures info.allowedClusters == [] && clusters.Ok? && |clusters.value| != 1 ==> r == Ok(info)
    ensures r.Ok? ==> r.value.adminRoles == info.adminRoles
  {
    if info.allowedClusters != [] then Ok(info)
    else
      match clusters
      case Err(e) => Err(e)
      case Ok(cs) =>
        if |cs| == 1 then
          assert info.allowedClusters + [cs[0]] == [cs[0]];
          Ok(info.(allowedClusters := info.allowedClusters + [cs[0]]))
        else Ok(info)
  }

  /** A given cluster list makes the listing irrelevant, even a failed one. */
  lemma GivenClustersIgnoreListing(info: TenantInfo, c1: Result<seq<string>, AdminError>, c2: Result<seq<string>, AdminError>)
    requires info.allowedClusters != []
    ensures PrepareTenantInfo(info, c1) == PrepareTenantInfo(info, c2)
  {
  }

  /** The path a tenant is created at. */
  function TenantPath(tenant: string): string
  {
    "/admin/v2/tenants/" + tenant
  }

  /** Distinct tenants are created at distinct paths. */
  lemma TenantPathInjective(t1: string, t2: string)
    ensures TenantPath(t1) == TenantPath(t2) <==> t1 == t2
  {
    if TenantPath(t1) == TenantPath(t2) {
      assert t1 == TenantPath(t1)[|"/admin/v2/tenants/"|..];
      assert t2 == TenantPath(t2)[|"/admin/v2/tenants/"|..];
    }
  }

  /**
   * The request `create` sends: the prepared info, put to the tenant's path.
   * A failed cluster listing stops `create` before anything is sent.
   */
  function CreateTenantRequest(tenant: string, info: TenantInfo, clusters: Result<seq<string>, AdminError>): (r: Result<(string, TenantInfo), AdminError>)
    ensures r.Ok? <==> PrepareTenantInfo(info, clusters).Ok?
    ensures r.Err? ==> r.error == PrepareTenantInfo(info, clusters).error
    ensures r.Ok? ==> r.value.0 == TenantPath(tenant) && r.value.1 == PrepareTenantInfo(info, clusters).value
    ensures r.Ok? ==> r.value.1.adminRoles == info.adminRoles
  {
    match PrepareTenantInfo(info, clusters)
    case Err(e) => Err(e)
    case Ok(prepared) => Ok((TenantPath(tenant), prepared))
  }

  /**
   * `create`, from the tenant info to the outcome: `clusters` is the outcome of
   * the cluster listing and `sent` the outcome of sending
   * `CreateTenantRequest`, a failure to build or send it included.
   */
  function CreateTenant(tenant: string, info: TenantInfo, clusters: Result<seq<string>, AdminError>, sent: Result<Response, AdminError>): (r: Result<(), AdminError>)
    ensures CreateTenantRequest(tenant, info, clusters).Err? ==> r == Err(PrepareTenantInfo(info, clusters).error)
    ensures CreateTenantRequest(tenant, info, clusters).Ok? && sent.Err? ==> r == Err(sent.error)
    ensures CreateTenantRequest(tenant, info, clusters).Ok? && sent.Ok? ==> (r.Ok? <==> IsSuccess(sent.value.status))
    ensures CreateTenantRequest(tenant, info, clusters).Ok? && sent.Ok? && r.Err? ==> r.error == Custom(sent.value.body)
  {
    match CreateTenantRequest(tenant, info, clusters)
    case Err(e) => Err(e)
    case Ok(_) =>
      match sent
      case Err(e) => Err(e)
      case Ok(resp) => BodyOutcome(resp)
  }
}
