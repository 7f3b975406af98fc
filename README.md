# pulsar-smith, modelled in Dafny

pulsar-smith is a command-line tool for Apache Pulsar. It produces and consumes
messages, drives the admin REST API (tenants, namespaces, topics) and runs a
small load generator ("perf"). This project models the parts of the tool that
hold logic of their own, and proves what they promise:

- **The perf load generator** (`perf_ticker.dfy`, `perf_producer.dfy`, `perf_client.dfy`):
  - `Ticker`, `PerfProducer` and `PerfClient` are classes with their start/stop state machines.
  - The ticker's tick loop is a method over what each pass of the loop observes. For each pass it rebuilds the limiter when the rate changes, issues a tick, and stops on a failed send.
  - The producer's perf loop sends one 1000-byte message per tick and answers each tick with one receipt.
  - The client's `reconcile` grows or shrinks its producer list in place. New producers are named `perf-{client}-{index}`.
- **The admin client's decisions** (`admin_topics.dfy`, `admin_namespaces.dfy`, `admin_tenants.dfy`, `http.dfy`):
  - the topic-domain parser and printer;
  - topic-name canonicalisation;
  - the request paths;
  - how each mutating call maps its HTTP response;
  - the null-dropping `permissions` transform;
  - the tenant default-cluster rule.
- **The command-line layer** (`cmd_topics.dfy`, `cmd_consume.dfy`, `cmd_commons.dfy`, `cmd_namespaces.dfy`, `opts.dfy`):
  - partition-count dispatch;
  - the subscription-type, initial-position, batch-size and compression parsers;
  - producer and consumer option assembly;
  - the consume loop's message-count stop rule;
  - option-to-policy mappings;
  - the command-line client settings.
- **Configuration and start-up** (`config.dfy`, `startup.dfy`, `auth.dfy`):
  - context, cluster and user lookup with first-match semantics;
  - the source of the client settings chosen at start-up;
  - the choice of the authentication scheme.

`wrappers.dfy` holds `Option` and `Result`. `text.dfy` holds the ASCII case
mapping, left-to-right substring replacement, decimal rendering and splitting
at a separator that the parts above build on.

Whatever the program receives from outside is an input of the model:
- HTTP responses;
- decoded JSON and YAML;
- the loaded configuration file;
- the outcome of building a producer;
- the events of the tick channel and the consumer stream;
- the outcome of the OAuth2 calls.

Behaviours of the code that the model follows as written:
- The code has no loop that applies live configuration: `control_loop` only logs, and `DynamicConfig`, which src/perf/client.rs:14 imports from src/perf/server.rs, is not defined there.
- Producers are named `perf-{client}-{index}`.
- A perf producer's `stop` only logs. It keeps its task, so a later `start` still fails.
- Every perf message is 1000 bytes, whatever message size is configured.
- An error from the send call ends the perf loop instead of being logged.
- `get_pulsar_config` panics (through `expect`) when the matching cluster has no admin url. The model states this as a precondition (`Config.AdminUrlDefined`).
- The topic permission calls go through `error_for_status`, which rejects only 4xx and 5xx statuses. Any other non-2xx status is therefore reported as success.

## Model

| member | source | states |
|---|---|---|
| Text.ToUpper | src/admin/topics.rs:30 | ASCII upper-casing keeps the length |
| Text.ToLower | src/cmd/consume.rs:35 | ASCII lower-casing keeps the length |
| Text.EqualIgnoringCaseIff | src/cmd/consume.rs:35 | two strings agree up to ASCII case exactly when their lower-cased forms are equal, and exactly when their upper-cased forms are equal |
| Text.ReplaceAllSkipsPrefix | src/admin/topics.rs:101 | replacement leaves a prefix without the pattern's first character alone and continues after it |
| Text.ReplaceAllIdentity | src/admin/topics.rs:101 | a string without the pattern's first character is unchanged by replacement |
| Text.ReplaceAllAtFront | src/admin/topics.rs:101 | a leading occurrence of the pattern is replaced and replacement continues after it |
| Text.ReplaceAllAbsent | src/admin/topics.rs:101 | a string in which the pattern occurs nowhere is unchanged by replacement |
| Text.NatToString | src/perf/client.rs:91 | the decimal rendering is non-empty and all digits, and has one digit exactly below ten |
| Text.NatToStringInjective | src/perf/client.rs:91 | different numbers render differently |
| Text.IntToString | src/cmd/topics.rs:95 | the decimal rendering of a count starts with '-' exactly when the count is negative, and every later character is a digit |
| Text.IntToStringInjective | src/cmd/topics.rs:95 | different counts give different renderings, so the message identifies the count |
| Text.IndexOfAfterPrefix | src/perf/client.rs:91 | after a prefix free of the separator, the first separator sits right after the prefix |
| Text.SplitAtSeparator | src/perf/client.rs:91 | joining at a separator that the front part cannot contain is unambiguous |
| Http.BodyOutcome | src/admin/namespaces.rs:58-62 | Ok exactly on a 2xx status, otherwise an error carrying the response body |
| Http.StatusOutcome | src/admin/topics.rs:136-141 | Ok exactly when the status is not 4xx or 5xx, otherwise the status error |
| Http.OutcomesAgreeOnSuccessAndErrors | src/admin/topics.rs:144-154 | the body mapping and the status mapping agree on 2xx, 4xx and 5xx and differ exactly on the other statuses |
| AdminTopics.NormalizeDomain | src/admin/topics.rs:30 | upper-casing then turning '-' into '_' folds each character on its own and keeps the length |
| AdminTopics.ParseDomain | src/admin/topics.rs:29-35 | every rejection is "invalid domain name [input]" with the input unchanged |
| AdminTopics.NormalizedDomainNames | src/admin/topics.rs:30-32 | both printed domain names fold to the keys the parser matches |
| AdminTopics.ParseDomainIff | src/admin/topics.rs:29-35 | parse yields a domain exactly for the spellings of its name that differ only in ASCII case and '-' versus '_' |
| AdminTopics.DomainRoundTrip | src/admin/topics.rs:18-35 | each domain's printed form parses back to it |
| AdminTopics.ParseDomainIgnoresSpelling | src/admin/topics.rs:30-32 | spellings equal up to case and '-'/'_' parse alike |
| AdminTopics.ParseDomainExamples | src/admin/topics.rs:30-31 | "PERSISTENT", "Persistent" and "persistent" give Persistent |
| AdminTopics.ParseNonPersistentExamples | src/admin/topics.rs:30-32 | "non_persistent" and "Non-Persistent" give NonPersistent |
| AdminTopics.CanonicalTopicOfFullName | src/admin/topics.rs:101 | domain://path becomes domain/path when the domain holds no ':' and "://" does not occur in the path |
| AdminTopics.CanonicalTopicIdentity | src/admin/topics.rs:112 | a name without ':' is already canonical |
| AdminTopics.CanonicalTopicExample | src/admin/topics.rs:125 | persistent://t/n/x becomes persistent/t/n/x |
| AdminTopics.ListPartitionedPath | src/admin/topics.rs:94-98 | the partitioned list path is the list path followed by /partitioned |
| AdminTopics.ListPathInjective | src/admin/topics.rs:89 | the list path determines both the domain and the namespace |
| AdminTopics.CallPath | src/admin/topics.rs:100-229 | lookup goes to /lookup/v2/topic/{canonical}, every other topic call to a path starting /admin/v2/{canonical} |
| AdminTopics.StatsPathOfFullName | src/admin/topics.rs:112-113 | the stats path of domain://path is /admin/v2/domain/path/stats, under the same condition |
| AdminTopics.CallOutcome | src/admin/topics.rs:131-229 | a failure to build or send the request is passed on; otherwise grant and revoke fail only on 4xx/5xx, with the status error, and create, delete and unsubscribe succeed on 2xx only and otherwise carry the body |
| AdminNamespaces.CallPathIdentifiesCall | src/admin/namespaces.rs:47-130 | for a tenant and role without '/' and a namespace of the form tenant/name, two calls share a path exactly when they go to the same endpoint (list; create or policies; get-permissions; grant or revoke; update or remove persistence) for the same subject (tenant or namespace), and for the same role on the grant/revoke path |
| AdminNamespaces.UnqualifiedNamespacesCollide | src/admin/namespaces.rs:54-74 | without that form, creating namespace "a/permissions" hits the permissions path of "a" |
| AdminNamespaces.CallOutcome | src/admin/namespaces.rs:54-130 | a failure to build or send the request is passed on; otherwise every mutating namespace call is Ok exactly on 2xx and otherwise carries the body |
| AdminNamespaces.KeepSome | src/admin/namespaces.rs:81-84 | dropping the null actions never lengthens a list |
| AdminNamespaces.KeepSomeAppend | src/admin/namespaces.rs:81-84 | dropping nulls commutes with concatenation, so the kept actions stay in order |
| AdminNamespaces.KeepSomeMembers | src/admin/namespaces.rs:81-84 | an action is kept exactly when it was present as a non-null entry |
| AdminNamespaces.KeepSomeAllPresent | src/admin/namespaces.rs:81-84 | a list without nulls is kept entry for entry |
| AdminNamespaces.Permissions | src/admin/namespaces.rs:73-88 | the result has exactly the decoded roles, each with its non-null actions in order and no longer than before; a decoding error is passed on |
| AdminTenants.PrepareTenantInfo | src/admin/tenants.rs:20-26 | given clusters are kept and the listing is not consulted; with none given, exactly one known cluster becomes the list, zero or several leave it empty, a listing error is passed on; admin roles never change |
| AdminTenants.GivenClustersIgnoreListing | src/admin/tenants.rs:21 | with clusters given, the listing's outcome, even a failure, makes no difference |
| AdminTenants.TenantPathInjective | src/admin/tenants.rs:27 | distinct tenants are created at distinct paths |
| AdminTenants.CreateTenantRequest | src/admin/tenants.rs:20-29 | a failed listing sends nothing; otherwise the prepared info is put to the tenant's path, with the admin roles unchanged |
| AdminTenants.CreateTenant | src/admin/tenants.rs:20-36 | create fails with the listing error, then with a failure to build or send the request; otherwise it is Ok exactly on 2xx and otherwise carries the body |
| CmdTopics.CreateTopicCall | src/cmd/topics.rs:81-97 | zero partitions gives a non-partitioned create, a positive count a partitioned create with that count, a negative count the error "invalid partitions [n]" |
| CmdTopics.CreateRequestsDistinguish | src/admin/topics.rs:156-181 | the non-partitioned and partitioned creates of a topic go to different paths, and a partitioned create's body determines the count |
| CmdTopics.DefaultCreatesNonPartitioned | src/cmd/topics.rs:75-76 | the default count of 0 creates a non-partitioned topic |
| CmdTopics.ListRequestPath | src/cmd/topics.rs:59-69 | the admin client's error comes first, then a domain parse failure aborts before any request, otherwise the list path of the parsed domain |
| CmdTopics.DefaultListsPersistent | src/cmd/topics.rs:55-56 | the default domain "Persistent" lists /admin/v2/persistent/{namespace} |
| CmdCommons.ParseBatchSize | src/cmd/commons.rs:26-32 | no batch size exactly when the option is at most 0, otherwise the same value |
| CmdCommons.ParseCompression | src/cmd/commons.rs:34-47 | no option gives no compression; every rejection is "illegal compression [s]" |
| CmdCommons.ParseCompressionIff | src/cmd/commons.rs:37-42 | each compression is accepted exactly for its name in any ASCII case |
| CmdCommons.CompressionRoundTrip | src/cmd/commons.rs:37-41 | each compression's name parses back to it |
| CmdCommons.ParseCompressionExamples | src/cmd/commons.rs:37-42 | "LZ4" and "Snappy" are accepted, "gzip" rejected |
| CmdCommons.ProducerBuilder | src/cmd/commons.rs:49-64 | fails exactly when the compression fails; otherwise topic, parsed batch size and compression, access mode 0, and a name only when one is given |
| CmdCommons.WithName | src/cmd/commons.rs:60-62 | setting the name changes the name and nothing else |
| CmdConsume.ParseSubType | src/cmd/consume.rs:34-41 | every rejection is "illegal subscription type [t]" |
| CmdConsume.ParseSubscriptionPosition | src/cmd/consume.rs:43-49 | every rejection is "illegal initial position [t]" |
| CmdConsume.ParseSubTypeIff | src/cmd/consume.rs:35-38 | exclusive, shared and failover are accepted exactly in any ASCII case of their names |
| CmdConsume.ParsePositionIff | src/cmd/consume.rs:44-46 | earliest and latest are accepted exactly in any ASCII case of their names |
| CmdConsume.DefaultsParse | src/cmd/consume.rs:23-30 | the defaults "Exclusive" and "Latest" parse |
| CmdConsume.ConsumerSetup | src/cmd/consume.rs:55-71 | the first failure is reported, in the order client, sub-type, position, build; the name defaults to "smith" and compacted reads are on |
| CmdConsume.CleanPrefix | src/cmd/consume.rs:73-74 | the length of the run of acknowledged messages before the first error |
| CmdConsume.Limit | src/cmd/consume.rs:76-80 | the number of messages handled at most is at least one |
| CmdConsume.ConsumeMessages | src/cmd/consume.rs:72-83 | min(limit, clean run) messages are printed in stream order; the outcome is an error exactly when an error arrives before the limit, and carries it |
| CmdConsume.CleanStreamCount | src/cmd/consume.rs:76-80 | on a clean stream, Some(n) with n at least 1 handles min(n, available) messages and Some(0) handles one |
| CmdNamespaces.CreatePolicies | src/cmd/namespaces.rs:75-83 | the replication clusters are exactly the given ones, an empty list included, and persistence is absent |
| CmdNamespaces.CreatePoliciesIgnoresBundles | src/cmd/namespaces.rs:68-79 | bundles are always absent, whatever -b says |
| CmdNamespaces.DefaultPersistenceIsZero | src/cmd/namespaces.rs:196-218 | with only the namespace given, the policies sent have 0 quorums and ensemble and a 0.0 rate |
| CmdNamespaces.PersistenceOfInjective | src/cmd/namespaces.rs:209-218 | the copy loses nothing |
| Config.FindFirst | src/config.rs:36-38 | the index of the first matching entry, or none when no entry matches |
| Config.GetPulsarConfig | src/config.rs:35-57 | Ok exactly when the context, its cluster and its user exist; values come from the first matches; every failure is "context [n] not exist" |
| Config.GetCurrentPulsarConfig | src/config.rs:63-68 | "current context not set" without one, otherwise the lookup of the current context |
| Config.CurrentContextNotSetIff | src/config.rs:63-68 | "current context not set" is reported exactly when none is set |
| Auth.Create | src/auth/auth.rs:11-19 | the lower-cased name selects: "token" keeps the params, "oauth2" passes on its creation outcome, anything else names both name and params in the error |
| Auth.GetToken | src/auth/auth.rs:27-29 | a token authenticator returns its params unchanged |
| Auth.CreateIgnoresCase | src/auth/auth.rs:12 | names equal up to ASCII case create the same authenticator |
| Auth.TokenRoundTrip | src/auth/auth.rs:11-29 | a "token" authenticator in any case yields exactly the params as its token |
| Opts.ToPulsarConfig | src/opts.rs:32-38 | the url is kept or defaults to pulsar://localhost:6650; the auth name and params are copied |
| Opts.ToPulsarConfigDependsOnlyOnUrlAndAuth | src/opts.rs:32-38 | two option sets give the same settings exactly when their defaulted urls and auth options agree |
| Startup.ContextToUse | src/main.rs:28-31 | the explicit context wins over the file's current context |
| Startup.FromLookup | src/main.rs:29-31 | a lookup's settings or its error, unchanged |
| Startup.SelectConfig | src/main.rs:22-35 | a url, or an auth command with both auth options, uses the command line; otherwise a file error, the chosen context's lookup, or "no valid contexts" |
| Startup.OptionsIgnoreFile | src/main.rs:22-25 | when the command line suffices the file plays no part, even when it cannot be read |
| Startup.ExplicitContextWins | src/main.rs:28-29 | an explicit context makes the file's current context irrelevant |
| Startup.LookupIgnoresCurrentContext | src/config.rs:35-57 | context lookup does not depend on the current context |
| Startup.NoValidContextsIff | src/main.rs:32-33 | with a readable file, "no valid contexts" is reported exactly when no context is given or set |
| PerfTicker.Ticker.constructor | src/perf/ticker.rs:26-36 | a new ticker has rate 0, is not running and holds no task |
| PerfTicker.Ticker.Start | src/perf/ticker.rs:38-58 | when is_started holds, fails with "The ticker is running" and changes nothing; otherwise is_started and running afterwards; the running flag matches the task |
| PerfTicker.Ticker.UpdateRate | src/perf/ticker.rs:60-62 | only the rate changes, to the new value |
| PerfTicker.Ticker.Stop | src/perf/ticker.rs:38-72 | afterwards not is_started and not running, reporting the join outcome when a task was held; otherwise succeeds and changes nothing |
| PerfTicker.ObserveRate | src/perf/ticker.rs:89-99 | the limiter is rebuilt only on a rate change, exists afterwards exactly for a positive rate, and the current rate becomes the observed one |
| PerfTicker.Passes | src/perf/ticker.rs:88-110 | the running flag is up on every pass, every send but the last succeeds, and the loop ends only when the observations run out, the flag is down, or the last pass's send failed |
| PerfTicker.SendTicks | src/perf/ticker.rs:85-126 | the loop's end state and pass count are those of the step-by-step definition |
| PerfTicker.TicksKeepInvariant | src/perf/ticker.rs:90-117 | the limiter exists exactly for a positive current rate at that rate, and sent never exceeds issued |
| PerfTicker.IssuedCountsPasses | src/perf/ticker.rs:105-117 | each pass issues exactly one tick; receipts never outnumber passes |
| PerfTicker.CurrentRateIsLastObserved | src/perf/ticker.rs:89-99 | after a pass the current rate is the rate observed in the last pass |
| PerfTicker.SteadyRateNoRebuild | src/perf/ticker.rs:90 | an unchanged rate never rebuilds or replaces the limiter |
| PerfTicker.SendTicksOutcome | src/perf/ticker.rs:85-126 | the loop ends in the invariant with as many issued ticks as passes |
| PerfProducers.Filled | src/perf/producer.rs:108-114 | n bytes, each 'a' |
| PerfProducers.GenerateContent | src/perf/producer.rs:108-114 | the content is exactly n bytes of 'a' |
| PerfProducers.HandledPrefix | src/perf/producer.rs:77-103 | the run of ticks whose send call returned, before the loop ends |
| PerfProducers.PerfOutcome | src/perf/producer.rs:81-105 | an error exactly when a send call fails before the channel does, carrying that error |
| PerfProducers.PerfProducer.constructor | src/perf/producer.rs:27-40 | a new producer has its name and settings and holds no task |
| PerfProducers.PerfProducer.Start | src/perf/producer.rs:42-57 | with a task, fails with "Perf producer {name} already started"; otherwise holds a task |
| PerfProducers.PerfProducer.Stop | src/perf/producer.rs:59-64 | succeeds and changes nothing |
| PerfProducers.PerfProducer.RunPerf | src/perf/producer.rs:66-106 | one receipt and one counter increment per handled tick, whatever the delivery result; every payload is 1000 bytes of 'a'; the outcome is the failed send call's error or success |
| PerfProducers.StartStopStart | src/perf/producer.rs:42-64 | start, stop, start: the second start still fails |
| PerfClients.ProducerNameInjective | src/perf/client.rs:91 | a producer name identifies both its client and its index |
| PerfClients.BuildOutcome | src/perf/client.rs:92-99 | an illegal compression fails every build with its error, otherwise the build's own outcome |
| PerfClients.GrowthStop | src/perf/client.rs:90-101 | growth stops at the first failing index or at the target |
| PerfClients.GrowthStopAt | src/perf/client.rs:90-101 | growth stops exactly at the first failing index |
| PerfClients.PerfClient.constructor | src/perf/client.rs:37-55 | a new client has its id, configuration and options, no task and no producers |
| PerfClients.PerfClient.UpdateConfig | src/perf/client.rs:75-78 | only the configuration changes, replaced as a whole; the producers are untouched |
| PerfClients.PerfClient.Stop | src/perf/client.rs:110-112 | succeeds and changes nothing |
| PerfClients.PerfClient.Reconcile | src/perf/client.rs:80-108 | shrinking keeps the old list's prefix of the target length; growth keeps the old list as a prefix and reaches the target or the first failure, whose error it returns; every producer i is named perf-{id}-{i}, built from the options and started |
| PerfClients.PerfClient.Start | src/perf/client.rs:57-73 | with a task, fails with "Perf client {id} already started" and does not reconcile; otherwise holds a task and reconciles |
| PerfClients.ReconciledLength | src/perf/client.rs:90-107 | a successful reconcile leaves exactly the configured number of producers |

## Left out

- Concurrency: the spawned tasks, the channel fan-out of ticks to producers, the mutexes and atomics, and interleavings. Each component is a sequential object. The loops read their shared inputs (running flag, rate, channel events) from a finite script that stands in for the other tasks.
- The rate limiter's timing (`until_ready`). Only whether a limiter exists, and at what rate, is modelled.
- The loops end when their script runs out. The source loops are unbounded: the tick loop runs until the flag drops or a send fails; the perf loop runs until the channel fails.
- PerfTicker.SendTicks: the receipt listener runs in its own task, so a receipt may be counted after later ticks. The model counts it within its pass.
- PerfProducers.PerfProducer.RunPerf: answering a tick `unwrap`s the reply send, which panics when the ticker's listener is gone. The model assumes the reply always lands.
- Metric counters are unbounded naturals. Their 64-bit wrap-around is not modelled.
- The tick queues and metric registries are not modelled: `Registry`, `Family` registration, the `Pulsar` client handle and the channels.
- The configuration types the perf client imports (`DynamicConfig`, and the `DynamicConfigPatch` that `src/perf/mod.rs` exports) are not defined in the code. No patch loop is invented. The client's control loop only logs and is left out.
- Building a producer (`build().await`) is an input, `build`, indexed by the producer's position. Starting a fresh producer cannot fail.
- Foreign calls are inputs that carry their outcomes, failures included: building and sending a mutating admin request (`sent`), decoding JSON (`decoded`), listing clusters (`clusters`), loading the configuration file (`load`), obtaining the admin client (`admin`) or the Pulsar client (`client`), building a consumer (`build`), and the OAuth2 creation outcome.
- AdminTopics.CallPath: the read-only topic calls (lookup, stats, permissions, subscriptions) are modelled by their paths only. The source passes their send and decode outcomes on unchanged.
- Http.StatusOutcome: the source turns the error of `error_for_status` into `Custom` holding the HTTP library's message text (src/admin/error.rs:9-13). The model keeps only the status code, in a variant `Status` of its own, because that text comes from the library.
- `AdminTopics.CallPath` takes the subscription as given. The URL encoding of `unsubscribe` is not modelled.
- Reading a response's body text can itself fail. The model treats the body as always readable.
- The query parameters of stats and delete are not modelled.
- Floating-point values (the mark-delete rate) are carried as opaque 64-bit patterns, with no arithmetic.
- AdminTopics.ParseDomainIff: case mapping is ASCII only. Unicode `to_uppercase` also maps some non-ASCII characters onto ASCII letters ('ſ' to 'S', 'ı' to 'I'), so the source accepts "perſiſtent" as a domain name, while the model, and this lemma with it, rejects it. The `to_lowercase` parsers are unaffected: the only non-ASCII character that lower-cases to an ASCII letter is the Kelvin sign, to 'k', and none of their keywords holds a 'k'.
- Printing and logging.
- The glue that only dispatches commands, and the admin calls that are a single request whose result is passed on: clusters, sinks, functions, tenant list and get, namespace list and policies.
- `src/opts.rs` builds a `PulsarConfig` with only `url`, `auth_name` and `auth_params`, while `src/config.rs` declares five fields. The model gives the command-line settings their own record, `Opts.CliConfig`. `Startup.SelectConfig` returns either it or a `Config.PulsarConfig`.
- The `Command` enum in `src/opts.rs` lists only produce and consume, while `main` dispatches seven commands. The model uses the seven.
- AdminTenants.PrepareTenantInfo: the source pushes onto the owned `info` in place. The model returns the updated value, because the info is moved into the call and nobody else sees it.
