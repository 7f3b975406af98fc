/**
 * The namespace commands' mappings from command-line options to the policy
 * records sent to the admin API.
 */
module CmdNamespaces {
  import opened Wrappers
  import opened AdminNamespaces

  datatype CreateOpts = CreateOpts(namespace: string, bundles: Option<u64>, clusters: seq<string>)

  /** The policies `namespaces create` sends: the replication clusters as given, nothing else. */
  function CreatePolicies(opts: CreateOpts): (p: NamespacePolicies)
    ensures p.replicationClusters == Some(opts.clusters)
    ensures p.persistence == DEFAULT_POLICIES.persistence
  {
    NamespacePolicies(None, Some(opts.clusters), DEFAULT_POLICIES.persistence)
  }

  /** The `--bundles` option never reaches the policies: two option sets differing only there map alike. */
  lemma CreatePoliciesIgnoresBundles(opts: CreateOpts, bundles: Option<u64>)
    ensures CreatePolicies(opts.(bundles := bundles)) == CreatePolicies(opts)
    ensures CreatePolicies(opts).bundles == None
  {
  }

  datatype SetPersistenceOpts = SetPersistenceOpts(
    namespace: string,
    bookkeeperAckQuorum: i32,
    bookkeeperWriteQuorum: i32,
    bookkeeperEnsemble: i32,
    managedLedgerMaxMarkDeleteRate: Float64)

  /** The options of `set-persistence` when only the namespace is given. */
  function DefaultSetPersistenceOpts(namespace: string): (o: SetPersistenceOpts)
    ensures o.namespace == namespace
    ensures o.bookkeeperAckQuorum == 0 && o.bookkeeperWriteQuorum == 0 && o.bookkeeperEnsemble == 0
    ensures o.managedLedgerMaxMarkDeleteRate == Float64(0)
  {
    SetPersistenceOpts(namespace, 0, 0, 0, Float64(0))
  }

  /** The persistence policies `set-persistence` sends: each field copied from its option. */
  function PersistenceOf(opts: SetPersistenceOpts): (p: PersistencePolicies)
    ensures p.bookkeeperEnsemble == opts.bookkeeperEnsemble
    ensures p.bookkeeperWriteQuorum == opts.bookkeeperWriteQuorum
    ensures p.bookkeeperAckQuorum == opts.bookkeeperAckQuorum
    ensures p.managedLedgerMaxMarkDeleteRate == opts.managedLedgerMaxMarkDeleteRate
  {
    PersistencePolicies(opts.bookkeeperEnsemble, opts.bookkeeperWriteQuorum,
                        opts.bookkeeperAckQuorum, opts.managedLedgerMaxMarkDeleteRate)
  }

  /** `set-persistence` with only the namespace given sends all-zero persistence policies. */
  lemma DefaultPersistenceIsZero(namespace: string)
    ensures PersistenceOf(DefaultSetPersistenceOpts(namespace)) == PersistencePolicies(0, 0, 0, Float64(0))
  {
  }

  /** Nothing is lost in the copy: the options are recovered from the namespace and the policies. */
  lemma PersistenceOfInjective(a: SetPersistenceOpts, b: SetPersistenceOpts)
    requires a.namespace == b.namespace
    requires PersistenceOf(a) == PersistenceOf(b)
    ensures a == b
  {
  }
}
