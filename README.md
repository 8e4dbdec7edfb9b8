# xrally-docker cleanup engine, in Dafny

This project models the resource cleanup engine of xrally-docker, the
Docker plugin for Rally, together with the small configuration transforms
around it.

The engine is `xrally_docker/common/cleanup/`. `cleanup` resolves the
requested resource kinds into resource-manager classes, sorted by their
`order`. For each kind, a `SeekAndDestroy` cleaner does three things:

- lists the kind's objects, with up to three attempts;
- keeps the objects whose name an owner test accepts;
- deletes each one through a retrying delete request, followed by a status
  poll bounded by a timeout and by a cap on broken status checks.

The resource-kind descriptors (`resources.py`) compute the client
operation names and read ids and names from raw Docker objects.

Around the engine sit:

- the two "existing" platforms, which normalise TLS connection settings and
  read a spec from the process environment;
- the Docker credential and its builder;
- the naming rules of the service wrapper (":latest" tagging, generated
  container names);
- the "networks" and "cleanup" task contexts.

Modules, one per source file or concern:

- `Wrappers`, `Seqs`, `Text`: Option/Result, sequence helpers, and the
  Python string operations the source uses.
- `Resources`: `configure` as a class whose attributes are set in place,
  `list`, `id`, `name`, `Image.name`, `is_deleted`, `delete`.
- `Deletion`: `rutils.retry` and `_delete_single_resource`, as an
  imperative method proved against a trace function, with the properties
  of the poll loop.
- `Manager`: `SeekAndDestroy` (`_publisher` appending to a queue object in
  place, `_consumer` with its early `break`, `exterminate` run
  sequentially) and `cleanup`.
- `Resolver`: `find_resource_managers`, with its stable sort by `order`.
- `Connection`, `EnvPlatform`, `LegacyPlatform`, `Credential`, `Service`,
  `NetworksContext`, `CleanupContext`.

Time is an integer tick clock. Each `is_deleted()` call takes one tick and
each sleep takes `interval` ticks. Whatever cannot be seen from the core
is a parameter:

- what the client's `list`, `delete()` and `is_deleted()` return on the
  n-th call;
- rally's ownership test `name_matches_object`;
- the plugin registry and the subclasses of a superclass;
- whether debug logging is on;
- the home directory;
- the process environment;
- the generated random name.

## Model

| member | source | states |
|---|---|---|
| Resources.Configure | xrally_docker/common/cleanup/resources.py:21-50 | sets the six attributes name, order, timeout, max_attempts, interval and threads on the class in place, and hands back the same class |
| Resources.ConfigureWithDefaults | xrally_docker/common/cleanup/resources.py:21-23 | the defaults are order 0, max_attempts 3 and interval 1; timeout and threads are the configured values |
| Resources.DeclareBuiltinKinds | xrally_docker/common/cleanup/resources.py:102-111 | the shipped kinds Image (named by its repo tags) and Network (named by its Name field), each with the default attributes |
| Resources.Plural | xrally_docker/common/cleanup/resources.py:62-65 | the plural ends in "s", is one letter longer than the name (two when the name ends in "y"), and keeps the name up to its last letter |
| Resources.PluralReadsBack | xrally_docker/common/cleanup/resources.py:62-65 | the plural ends in "s" and keeps the name up to its last letter; it reads back as the name exactly when the name does not end in "ie" |
| Resources.PluralOfY | xrally_docker/common/cleanup/resources.py:62-63 | a name ending in "y" gets "ies" in place of the "y", and reads back |
| Resources.PluralOfIe | xrally_docker/common/cleanup/resources.py:64-65 | a name ending in "ie" gets an "s", and its plural does not read back |
| Resources.PluralOfOther | xrally_docker/common/cleanup/resources.py:64-65 | any other name gets an "s", and reads back |
| Resources.PluralExamples | xrally_docker/common/cleanup/resources.py:62-65 | "foo" becomes "foos", "by" becomes "bies", and "image" and "network" take an "s" |
| Resources.List | xrally_docker/common/cleanup/resources.py:61-67 | a missing list operation raises AttributeError; a raising call propagates its error; otherwise every returned object is wrapped, in order, with the kind and the client |
| Resources.Id | xrally_docker/common/cleanup/resources.py:73-75 | the raw "Id" field, or KeyError when it is missing |
| Resources.Names | xrally_docker/common/cleanup/resources.py:77-79 | the raw "Name" field, or KeyError when it is missing; an image has one name per "RepoTags" entry, each the text after that entry's first ":"; an image fails with KeyError when "RepoTags" is missing and with IndexError when some tag has no ":", and succeeds otherwise |
| Resources.TagSuffixes | xrally_docker/common/cleanup/resources.py:104-106 | succeeds exactly when every tag holds a ":"; then one suffix per tag, in order, each the text after the first ":"; otherwise IndexError |
| Resources.TagSuffixesCons | xrally_docker/common/cleanup/resources.py:104-106 | a tag `pre:post` whose `pre` has no ":" contributes `post` ahead of the suffixes of the following tags |
| Resources.TagSuffixExamples | xrally_docker/common/cleanup/resources.py:104-106 | the tags "foo:bar" and "xxx:yyy" give the names "bar" and "yyy" |
| Resources.TagSuffixSplitsOnce | xrally_docker/common/cleanup/resources.py:105 | only the first ":" splits, so "a:b:c" gives "b:c" |
| Resources.TagWithoutColonFails | xrally_docker/common/cleanup/resources.py:105 | a tag without ":" makes the names fail |
| Resources.IsDeleted | xrally_docker/common/cleanup/resources.py:81-94 | true exactly when the get call raised an error whose code (else its status code, else 400) is 404; a missing operation, a missing id, a successful get or any other error gives false, and it never raises |
| Resources.ErrorCodeExamples | xrally_docker/common/cleanup/resources.py:92 | `code` wins over `status_code`, and an error with neither reads as 400 |
| Resources.Delete | xrally_docker/common/cleanup/resources.py:96-99 | a missing delete operation raises AttributeError and a missing id raises KeyError; otherwise the delete call's own outcome is returned |
| Resources.ServiceClientOperations | xrally_docker/common/cleanup/manager.py:195-201 | the client `cleanup` builds has no network listing and no get or delete operation: a network listing fails, and an image is never deleted or confirmed deleted |
| Deletion.RetryCalls | xrally_docker/common/cleanup/manager.py:75 | the retry makes at most `times` calls |
| Deletion.Retry | xrally_docker/common/cleanup/manager.py:75 | the loop makes calls up to the first success; it raises only when all of at least one call failed; when it returns after calls, the last call succeeded |
| Deletion.PollFacts | xrally_docker/common/cleanup/manager.py:85-104 | the poll loop: one sleep per check; elapsed time is checks × (1 + interval); one failure per broken check; confirmed exactly when some check returned True, which is then the last one; at most max_attempts+1 failures; every check starts inside the budget; an unconfirmed poll below the failure cap used the whole budget |
| Deletion.DeleteSingleResource | xrally_docker/common/cleanup/manager.py:52-107 | the imperative state machine produces exactly the trace of `Deletion.Deletion`: calls, checks, sleeps, elapsed ticks, log and outcome |
| Deletion.PollReachesGone | xrally_docker/common/cleanup/manager.py:87-90 | checks returning False and then True, all inside the budget, end the poll confirmed on that check with no failure added |
| Deletion.PollAllBroken | xrally_docker/common/cleanup/manager.py:91-101 | checks that always raise end the poll after exactly enough calls to push the failures past max_attempts |
| Deletion.AllDeletesFail | xrally_docker/common/cleanup/manager.py:74-83 | when every delete raises: max_attempts delete calls, no status check, and one warning (one exception record in debug mode) after the debug line |
| Deletion.DeletedWithoutWarnings | xrally_docker/common/cleanup/manager.py:75-90 | the first successful delete on call k and a True check on check g inside the budget give k+1 delete calls, g+1 checks, and only the debug line |
| Deletion.PollLogCounts | xrally_docker/common/cleanup/manager.py:92-107 | the log of a poll holds one debug line, one exception record per failure, and one warning exactly when the poll was unconfirmed |
| Deletion.WarningIffUnconfirmed | xrally_docker/common/cleanup/manager.py:84-107 | after a successful delete request: deleted exactly when some check returned True; exactly one warning exactly when polling ended unconfirmed; one exception record per broken check |
| Deletion.BrokenCheckStopsAfterCap | xrally_docker/common/cleanup/manager.py:91-101 | a check that always raises is called max_attempts+1 times, each call logged as an exception, then one warning |
| Deletion.SleepAfterEveryCheck | xrally_docker/common/cleanup/manager.py:103-104 | a sleep follows every check, the successful and the breaking one included |
| Deletion.RetriedDeleteThenDeleted | xrally_docker/common/cleanup/manager.py:52-107 | delete raises twice and then returns, and the check gives False twice and then True: three delete calls, three checks, no warning |
| Deletion.TimeoutAfterOneCheck | xrally_docker/common/cleanup/manager.py:85-107 | a timeout of 20 ticks with an interval of 25 allows one check and then warns |
| Deletion.BrokenCheckFourTimes | xrally_docker/common/cleanup/manager.py:91-107 | a check that always raises, with max_attempts 3, runs four times: four exception records and one warning |
| Manager.NewSeekAndDestroy | xrally_docker/common/cleanup/manager.py:33-50 | no resource classes, or an empty list of them, default to the random-name mixin; otherwise the classes are kept |
| Manager.Publication | xrally_docker/common/cleanup/manager.py:109-124 | one to three list calls; a failure leaves no jobs, three calls and one exception record |
| Manager.PublicationFacts | xrally_docker/common/cleanup/manager.py:116-124 | the publisher logs exactly when none of the three listings returns; otherwise the jobs are the first returned listing, and every earlier attempt raised |
| Manager.Publish | xrally_docker/common/cleanup/manager.py:109-124 | appends the listed resources to the queue in place and in order, and makes the list calls and log of `Publication` |
| Manager.NameList | xrally_docker/common/cleanup/manager.py:129-131 | a scalar name becomes a one-element list |
| Manager.Consumption | xrally_docker/common/cleanup/manager.py:126-138 | a raising `name()` propagates; no matching name means no deletion; otherwise exactly one deletion, for the first matching name, with every earlier name unmatched |
| Manager.Consume | xrally_docker/common/cleanup/manager.py:126-138 | the scan with its early `break` computes `Consumption` |
| Manager.ExterminationConsumesEachJob | xrally_docker/common/cleanup/manager.py:140-144 | a pass lists once and consumes each queued job once, in queue order |
| Manager.Exterminate | xrally_docker/common/cleanup/manager.py:140-144 | publishing into a fresh queue and consuming it in order gives `Extermination` |
| Manager.NothingOwnedNothingDeleted | xrally_docker/common/cleanup/manager.py:133-138 | when the owner test accepts no name, a pass deletes nothing and makes no delete call |
| Manager.DeletionsAreOwned | xrally_docker/common/cleanup/manager.py:133-138 | every deletion in a pass was triggered by one of that job's names that the owner test accepts |
| Manager.MixinSubclasses | xrally_docker/common/cleanup/manager.py:189-190 | keeps exactly the subclasses that are random-name mixins |
| Manager.ResourceClasses | xrally_docker/common/cleanup/manager.py:189-193 | exactly the mixin subclasses when there is one, otherwise [superclass] when the superclass is a mixin; empty exactly when neither exists |
| Manager.CleanupPassesInOrder | xrally_docker/common/cleanup/manager.py:173-201 | one pass per resolved kind, in resolution order, each with the same client, owner and resource classes; the run starts with a warning exactly when requested kinds are missing |
| Manager.RunLogStartsWithDebug | xrally_docker/common/cleanup/manager.py:198 | each pass is announced by a debug line |
| Manager.RunPasses | xrally_docker/common/cleanup/manager.py:197-201 | the loop over the managers produces exactly `Passes` and its log |
| Manager.Cleanup | xrally_docker/common/cleanup/manager.py:173-201 | the method computes `CleanupOf` |
| Manager.CleanupWithoutNames | xrally_docker/common/cleanup/manager.py:153 | without names no kind is resolved: no pass and an empty log |
| Manager.PublisherRetriesListing | xrally_docker/common/cleanup/manager.py:116-119 | a listing that fails twice and then returns three objects takes three calls and queues the three objects in order |
| Manager.ConsumerStopsAtFirstMatch | xrally_docker/common/cleanup/manager.py:133-138 | with every name owned, the resource is deleted once, for its first name |
| Manager.ConsumerFindsLaterMatch | xrally_docker/common/cleanup/manager.py:133-138 | when only the third name is owned, the resource is deleted for that name |
| Manager.ResourceClassesExample | xrally_docker/common/cleanup/manager.py:189-193 | the mixin subclasses are kept, a mixin superclass stands in for none, and otherwise the default mixin applies |
| Resolver.RequestedSet | xrally_docker/common/cleanup/manager.py:153 | the set of the requested names, empty for None |
| Resolver.Select | xrally_docker/common/cleanup/manager.py:155-158 | keeps exactly the registered kinds whose name was requested, and none when nothing was requested |
| Resolver.InsertPermutes | xrally_docker/common/cleanup/manager.py:160 | one insertion step adds the element and loses nothing |
| Resolver.InsertSorted | xrally_docker/common/cleanup/manager.py:160 | one insertion step keeps the sequence sorted by `order` |
| Resolver.InsertKeepsOrderClasses | xrally_docker/common/cleanup/manager.py:160 | one insertion step places the new element after every element of equal `order` |
| Resolver.SortByOrderFacts | xrally_docker/common/cleanup/manager.py:160 | the sort is sorted, a permutation, and stable |
| Resolver.FindResourceManagers | xrally_docker/common/cleanup/manager.py:147-170 | the filter loop, sort and found-name loop give the resolved managers and the missing names, and one warning exactly when names are missing |
| Resolver.MissingIsUnmatched | xrally_docker/common/cleanup/manager.py:162-166 | the requested names minus those of the resolved managers are the names no registered kind carries |
| Resolver.ResolvedExactly | xrally_docker/common/cleanup/manager.py:147-170 | the managers are exactly the registered kinds with a requested name, as a permutation of the registry selection, sorted, with equal orders kept in registry order |
| Resolver.NothingRequested | xrally_docker/common/cleanup/manager.py:153-170 | None or an empty list resolves to no managers and no missing names |
| Resolver.ResolveOneOfTwo | xrally_docker/common/cleanup/manager.py:147-170 | asking for one of two registered kinds returns that kind |
| Resolver.ResolveBothInOrder | xrally_docker/common/cleanup/manager.py:160 | asking for both kinds returns them by ascending `order` |
| Resolver.ResolveWithMissingName | xrally_docker/common/cleanup/manager.py:166-168 | an unregistered name is reported missing and otherwise ignored |
| Connection.Normalise | xrally_docker/env/platforms/existing.py:72-83 | with TLS on, a non-empty host has "tcp://" rewritten to "https://" and a missing certificate directory becomes `~/.docker`; otherwise host and directory are kept; `tls_verify` passes through |
| Connection.HttpsHostRewritesScheme | xrally_docker/env/platforms/existing.py:75 | a "tcp://" host becomes the same address over "https://" |
| Connection.HttpsHostKeepsOtherHosts | xrally_docker/env/platforms/existing.py:75 | a host without "tcp://" is kept |
| Connection.DockerDir | xrally_docker/env/platforms/existing.py:79 | the directory is the home directory followed by ".docker" or by "/.docker", so it holds the home and ".docker" and nothing else |
| Connection.PlainSpecUnchanged | xrally_docker/env/platforms/existing.py:72-83 | without TLS the settings come back unchanged |
| Connection.NormaliseIdempotent | xrally_docker/env/platforms/existing.py:72-83 | normalising twice is normalising once, for every spec |
| Connection.HttpsHostHasNoTcp | xrally_docker/env/platforms/existing.py:75 | the rewritten host holds no "tcp://": every occurrence is replaced and none forms at a seam, since "https://" starts with an "h" |
| Connection.TlsHostExample | xrally_docker/env/platforms/existing.py:72-83 | "tcp://10.0.0.1:2376" with verification becomes "https://10.0.0.1:2376" with the default directory |
| EnvPlatform.Create | xrally_docker/env/platforms/existing.py:69-83 | the normalised settings and an empty second dict |
| EnvPlatform.Cleanup | xrally_docker/env/platforms/existing.py:89-97 | the fixed "Coming soon!" report with zero counts and no resources or errors |
| EnvPlatform.TlsVerifyFromEnviron | xrally_docker/env/platforms/existing.py:151-156 | verification is on exactly when DOCKER_TLS_VERIFY is set and non-empty |
| EnvPlatform.SpecFromEnviron | xrally_docker/env/platforms/existing.py:141-167 | always available; "tls_verify" is always present; "host" is present exactly when DOCKER_HOST is non-empty, and copied as it is; "cert_path" is DOCKER_CERT_PATH, or `~/.docker` when verification is on and no directory is set |
| EnvPlatform.CreateSpecFromSysEnviron | xrally_docker/env/platforms/existing.py:119-167 | inserting the keys one by one, with the early return, builds `SpecFromEnviron` |
| EnvPlatform.EnvironSpecIsComplete | xrally_docker/env/platforms/existing.py:141-167 | a spec read from the environment carries the host of DOCKER_HOST, has TLS on exactly when verification or a directory is set, and `create` adds no certificate directory to it |
| EnvPlatform.EmptyEnvironExample | xrally_docker/env/platforms/existing.py:141-161 | an empty environment gives only `tls_verify` false |
| EnvPlatform.CertPathEnvironExample | xrally_docker/env/platforms/existing.py:141-161 | a host and a directory without verification are copied, with `tls_verify` false |
| EnvPlatform.TlsVerifyEnvironExample | xrally_docker/env/platforms/existing.py:141-167 | verification without a directory defaults the directory to `~/.docker` |
| LegacyPlatform.Create | xrally_docker/platforms/existing.py:50-64 | the same normalised settings as the environment platform, and an empty second dict |
| LegacyPlatform.Cleanup | xrally_docker/platforms/existing.py:70-78 | the fixed zero-count report for any task |
| Credential.NewCredential | xrally_docker/credential.py:27-36 | TLS with no host raises AttributeError; otherwise the host is rewritten exactly when TLS is on, the directory is defaulted when TLS is on and none is given, and `tls_verify` and the permission are stored |
| Credential.CredentialAgreesWithPlatform | xrally_docker/credential.py:29-34 | where there is a host, the credential stores the settings the platforms' `create` produces |
| Credential.DockerCredential.constructor | xrally_docker/credential.py:27-36 | the fields it sets read back through `to_dict` as `NewCredential` |
| Credential.DockerCredential.ToDict | xrally_docker/credential.py:38-42 | exactly the four stored fields |
| Credential.BuildCredentials | xrally_docker/credential.py:74-81 | one admin credential with ADMIN permission from the configured settings, and no users; it fails exactly when the credential cannot be constructed |
| Credential.TlsCredentialExample | xrally_docker/credential.py:74-81 | a TLS deployment over "tcp://" gets an https admin endpoint with the default directory |
| Credential.TlsWithoutHostFails | xrally_docker/credential.py:29-30 | verification with no host raises |
| Service.FixTheName | xrally_docker/service.py:34-39 | the result always has a ":"; a name with ":" is kept and any other name gets ":latest" |
| Service.FixTheNameIdempotent | xrally_docker/service.py:34-39 | fixing a fixed name changes nothing |
| Service.UntaggedNameGetsLatest | xrally_docker/service.py:37-38 | an untagged name is followed by its first ":", and the tag after it is "latest" |
| Service.PullImage | xrally_docker/service.py:41-47 | pulls the tagged name |
| Service.RunContainer | xrally_docker/service.py:58-79 | runs the tagged image, under the given name when one is given and under the generated name otherwise, with the other arguments passed through |
| Service.FixTheNameExamples | xrally_docker/service.py:34-39 | "foo:bar" is kept and "foo" becomes "foo:latest" |
| NetworksContext.Entries | xrally_docker/task/contexts/networks.py:143-145 | a single network config is a one-element list |
| NetworksContext.WithIpamOptions | xrally_docker/task/contexts/networks.py:148-150 | an IPAM section gains empty "Options" unless it has some; every other key and value is kept |
| NetworksContext.WithIpamOptionsIdempotent | xrally_docker/task/contexts/networks.py:149-150 | defaulting twice is defaulting once |
| NetworksContext.NetworksContext.Setup | xrally_docker/task/contexts/networks.py:141-152 | resets the list, then makes one create call per entry, in order, with the defaulted copy, and appends each result |
| NetworksContext.SetupEmptyConfig | xrally_docker/task/contexts/networks.py:141-152 | an empty config makes one create call with no arguments, and its result is the only network |
| NetworksContext.CleanupRequest | xrally_docker/task/contexts/networks.py:154-160 | only the "network" kind, for the context's own class and owner |
| NetworksContext.CleanupResolvesNetworks | xrally_docker/task/contexts/networks.py:154-160 | the request resolves to exactly the registered "network" kinds |
| CleanupContext.MissingNames | xrally_docker/task/contexts/cleanup.py:34-38 | exactly the requested names that no registered manager carries |
| CleanupContext.JoinedEnumerationEmpty | xrally_docker/task/contexts/cleanup.py:39-40 | the joined names are empty exactly when no name, or only the empty name, is missing |
| CleanupContext.ValidateAsWritten | xrally_docker/task/contexts/cleanup.py:33-42 | as written, it fails exactly when the missing names are neither none nor only "" |
| CleanupContext.ValidatorAcceptsEmptyName | xrally_docker/task/contexts/cleanup.py:37-40 | the request [""] names a missing manager, yet the validator as written passes it |
| CleanupContext.Validate | xrally_docker/task/contexts/cleanup.py:33-42 | fails exactly when some requested name is not a registered manager's name, with the missing names joined by ", " |
| CleanupContext.ValidateAgreesAsWritten | xrally_docker/task/contexts/cleanup.py:37-42 | both versions agree exactly when the missing names are not just "" |
| CleanupContext.ValidateIgnoresOrderAndDuplicates | xrally_docker/task/contexts/cleanup.py:37 | the order and repetition of the requested names do not change the verdict |
| CleanupContext.ValidateExample | xrally_docker/task/contexts/cleanup.py:40-42 | the unknown kind "foo" fails with "Couldn't find cleanup resource managers: foo" |
| CleanupContext.CleanupRequestAsWritten | xrally_docker/task/contexts/cleanup.py:62-67 | as written: no names, the base scenario class and the owner |
| CleanupContext.CleanupContextCleansNothing | xrally_docker/task/contexts/cleanup.py:62-67 | as written, the engine resolves no kind and makes no pass, whatever the context is configured with |
| CleanupContext.CleanupRequest | xrally_docker/task/contexts/cleanup.py:62-67 | the configured kinds are passed as the names |
| CleanupContext.CleanupContextCleansConfiguredKinds | xrally_docker/task/contexts/cleanup.py:51-67 | a configuration the validator accepts resolves to exactly the registered kinds it names, each name covered, sorted by `order` |

## Left out

- Threads: `broker.run` and `consumers_count` (manager.py:143-144). A pass publishes everything first and then consumes the jobs one by one, in queue order.
- Wall-clock time and `interruptable_sleep`: the float seconds are an integer tick clock. Each check costs one tick and each sleep `interval` ticks.
- Log message text. Only the level of each record is kept. `logging.is_debug()` is the `debug` parameter.
- rally's helpers are parameters:
  - `rutils.retry` is a retry loop over a call-outcome function;
  - `name_matches_object` is an uninterpreted ownership test;
  - `discover.itersubclasses` and `issubclass(..., RandomNameGeneratorMixin)` are a given sequence and a predicate.
- The Docker client and SDK:
  - `getattr` on the client becomes the computed operation name checked against a set of operation names;
  - the calls' results are parameters;
  - `service.Docker.__init__`, `get_version`, `list_images`, the client cache, `check_health`, `info` and the credential's `clients`, `verify_connection` and `list_services` are not modelled.
- `CONF.docker.resource_deletion_timeout` and `cleanup_threads` are parameters of `ConfigureWithDefaults`. The threads value is stored but not used: the model consumes every job with one consumer. In rally's broker a kind with `threads` = 0 starts no consumer, so nothing of that kind is deleted; the model does not capture this.
- `os.path.expanduser("~")` is the `home` parameter.
- `NetworksContext.NetworksContext.Setup`: `create_network` is a total function here. A call that raises midway, leaving the networks list partly filled, is not modelled.
- The JSON config schemas are not checked. `NetworksContext.WellFormed` keeps the one schema fact the networks context relies on: "ipam" is an object.
- Deep copy: a network entry is a value, so the context's configuration cannot be mutated.
- Config values other than strings, booleans and the JSON of network entries: the platform spec's "timeout", "version" and "ssl_version" keys are not read by `create`.
- Set iteration order of the missing names is the `listing` parameter, constrained to enumerate the set.
- `Cleanup.setup` does nothing, so there is nothing to model.
- The platform `destroy` methods and the legacy platform's `create_spec_from_sys_environ` delegate to rally or do nothing.
- The benchmark scenarios, and the scenario and context base classes, only make SDK calls or construct clients.
- Exceptions raised by a consumer inside `broker.run` are not modelled. In the model `Consumption` returns a `name()` failure as a value, while the broker's handling of it is rally's.
- The unit tests that target an API the source no longer has are not followed.

## Findings

| source | as written | input that shows it | evidently intended | confidence | as-written member | corrected member |
|---|---|---|---|---|---|---|
| xrally_docker/task/contexts/cleanup.py:37-40 | the validator joins the missing names with ", " and fails only when the joined string is non-empty | plugin config [""] when no manager is named "": the missing set is {""}, it joins to "", and the validator passes | fail whenever some requested name is not a registered manager's name | high; not executed | CleanupContext.ValidatorAcceptsEmptyName | CleanupContext.Validate |
| xrally_docker/task/contexts/cleanup.py:62-67 | the cleanup context calls the engine without names, and the engine resolves no kind from no names (manager.py:153) | any configuration, e.g. ["network"]: no pass runs and nothing is deleted | pass the configured kinds, which the validator has checked, as the names | medium; not executed | CleanupContext.CleanupContextCleansNothing | CleanupContext.CleanupContextCleansConfiguredKinds |
