/**
 * The global command-line options and the client settings built directly
 * from them, without the configuration file.
 */
module Opts {
  import opened Wrappers

  /** The subcommands; only whether the command is `auth` matters to configuration. */
  datatype Command = Produce | Consume | Clusters | Tenants | Namespaces | Topics | Auth

  datatype PulsarOpts = PulsarOpts(
    context: Option<string>,
    url: Option<string>,
    adminServiceUrl: Option<string>,
    proxyUrl: Option<string>,
    authName: Option<string>,
    authParams: Option<string>,
    cmd: Command)

  /** The settings `to_pulsar_config` fills in: a service url and the auth options. */
  datatype CliConfig = CliConfig(url: string, authName: Option<string>, authParams: Option<string>)

  const DEFAULT_URL: string := "pulsar://localhost:6650"

  /** `to_pulsar_config`: the given url or the local default, and the auth options as given. */
  function ToPulsarConfig(opts: PulsarOpts): (c: CliConfig)
    ensures opts.url.Some? ==> c.url == opts.url.value
    ensures opts.url.None? ==> c.url == DEFAULT_URL
    ensures c.authName == opts.authName
    ensures c.authParams == opts.authParams
  {
    CliConfig(opts.url.GetOr(DEFAULT_URL), opts.authName, opts.authParams)
  }

  /** Only the url and the auth options reach the settings: the other options cannot change them. */
  lemma ToPulsarConfigDependsOnlyOnUrlAndAuth(a: PulsarOpts, b: PulsarOpts)
    ensures ToPulsarConfig(a) == ToPulsarConfig(b) <==>
              (a.url.GetOr(DEFAULT_URL) == b.url.GetOr(DEFAULT_URL) && a.authName == b.authName && a.authParams == b.authParams)
  {
  }
}
