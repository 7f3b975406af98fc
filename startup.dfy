/**
 * Where the program's client settings come from: the command line, a named
 * context of the configuration file, or the file's current context.
 * Loading the file is an input (`load`), consulted only when the command
 * line does not settle the question.
 */
module Startup {
  import opened Wrappers
  import opened Config
  import opened Opts

  datatype ChosenConfig = FromOptions(options: CliConfig) | FromContext(config: PulsarConfig)

  const NO_VALID_CONTEXTS: string := "no valid contexts"

  /** The command line alone suffices: a url is given, or an `auth` command has both auth options. */
  predicate UsesOptions(opts: PulsarOpts) {
    opts.url.Some? || (opts.cmd == Auth && opts.authName.Some? && opts.authParams.Some?)
  }

  /** The context whose lookup the file is used for: the explicit one, else the current one. */
  function ContextToUse(opts: PulsarOpts, cfgs: Configs): (n: Option<string>)
    ensures opts.context.Some? ==> n == opts.context
    ensures opts.context.None? ==> n == cfgs.currentContext
  {
    if opts.context.Some? then opts.context else cfgs.currentContext
  }

  /** The lookup of the chosen context must not reach the panic in `get_pulsar_config`. */
  predicate SelectionSafe(opts: PulsarOpts, load: Result<Configs, string>) {
    UsesOptions(opts) || load.Err? ||
    ContextToUse(opts, load.value).None? ||
    AdminUrlDefined(load.value, ContextToUse(opts, load.value).value)
  }

  /** A context lookup's outcome as a choice of settings. */
  function FromLookup(r: Result<PulsarConfig, string>): (c: Result<ChosenConfig, string>)
    ensures r.Ok? <==> c.Ok?
    ensures r.Ok? ==> c.value == FromContext(r.value)
    ensures r.Err? ==> c.error == r.error
  {
    match r
    case Ok(cfg) => Ok(FromContext(cfg))
    case Err(e) => Err(e)
  }

  /**
   * The selection chain at the start of `main`: the command line when it
   * suffices (the file is then not read), otherwise the explicit context or
   * else the current context of the loaded file, and an error when there is
   * neither.
   */
  function SelectConfig(opts: PulsarOpts, load: Result<Configs, string>): (r: Result<ChosenConfig, string>)
    requires SelectionSafe(opts, load)
    ensures UsesOptions(opts) ==> r == Ok(FromOptions(ToPulsarConfig(opts)))
    ensures !UsesOptions(opts) && load.Err? ==> r == Err(load.error)
    ensures !UsesOptions(opts) && load.Ok? && ContextToUse(opts, load.value).Some? ==>
              r == FromLookup(GetPulsarConfig(load.value, ContextToUse(opts, load.value).value))
    ensures !UsesOptions(opts) && load.Ok? && ContextToUse(opts, load.value).None? ==>
              r == Err(NO_VALID_CONTEXTS)
  {
    if opts.url.Some? then Ok(FromOptions(ToPulsarConfig(opts)))
    else if opts.cmd == Auth && opts.authName.Some? && opts.authParams.Some? then Ok(FromOptions(ToPulsarConfig(opts)))
    else
      match load
      case Err(e) => Err(e)
      case Ok(configs) =>
        if opts.context.Some? then FromLookup(GetPulsarConfig(configs, opts.context.value))
        else if HasCurrentContext(configs) then FromLookup(GetCurrentPulsarConfig(configs))
        else Err(NO_VALID_CONTEXTS)
  }

  /** When the command line suffices, the configuration file plays no part, even when it cannot be read. */
  lemma OptionsIgnoreFile(opts: PulsarOpts, a: Result<Configs, string>, b: Result<Configs, string>)
    requires UsesOptions(opts)
    ensures SelectConfig(opts, a) == SelectConfig(opts, b)
  {
  }

  /** An explicit context overrides whatever current context the file sets. */
  lemma ExplicitContextWins(opts: PulsarOpts, cfgs: Configs, current: Option<string>)
    requires !UsesOptions(opts) && opts.context.Some?
    requires AdminUrlDefined(cfgs, opts.context.value)
    ensures SelectConfig(opts, Ok(cfgs.(currentContext := current))) == SelectConfig(opts, Ok(cfgs))
  {
    var other := cfgs.(currentContext := current);
    LookupIgnoresCurrentContext(cfgs, other, opts.context.value);
  }

  /** Context resolution does not look at the current context. */
  lemma LookupIgnoresCurrentContext(a: Configs, b: Configs, name: string)
    requires a.clusters == b.clusters && a.users == b.users && a.contexts == b.contexts
    requires AdminUrlDefined(a, name)
    ensures AdminUrlDefined(b, name)
    ensures GetPulsarConfig(a, name) == GetPulsarConfig(b, name)
  {
    assert FindContext(a, name) == FindContext(b, name);
  }

  /** With a readable file, "no valid contexts" is reported exactly when no context is given or set. */
  lemma NoValidContextsIff(opts: PulsarOpts, cfgs: Configs)
    requires SelectionSafe(opts, Ok(cfgs))
    ensures SelectConfig(opts, Ok(cfgs)) == Err(NO_VALID_CONTEXTS) <==>
              !UsesOptions(opts) && opts.context.None? && cfgs.currentContext.None?
  {
    if !UsesOptions(opts) && ContextToUse(opts, cfgs).Some? {
      var n := ContextToUse(opts, cfgs).value;
      var r := GetPulsarConfig(cfgs, n);
      if r.Err? {
        assert r.error[0] == 'c' && NO_VALID_CONTEXTS[0] == 'n';
      }
    }
  }
}
