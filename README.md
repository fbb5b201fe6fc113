# Kontena stack tooling and weave worker, modelled in Dafny

This project models three parts of Kontena, a container orchestration platform. Two come from its command-line tool and one from its node agent.

- **The stack file reader** (`cli/lib/kontena/cli/stacks/yaml/reader.rb`). It does these jobs:
  - works out a stack's name and version from its `user/name:version` reference;
  - interpolates `$VAR` and `${VAR}` references into the file's text, with `$$` as the escape for a literal `$`;
  - prepares each service's options: a hash `environment` becomes `k=v` lines, env files are merged in, duplicate variables are dropped, and build arguments become a hash;
  - resolves the `extends` chain between services, in the same file or another one;
  - collects the validation errors and notifications of every file it reads.
- **The service generator** (`cli/lib/kontena/cli/stacks/service_generator.rb`). It turns one service's options into the payload the master's API takes. This includes its links, ports, build options, deploy options and health check.
- **The weave worker** of the agent. It keeps a container's overlay network attachment and its DNS records in step with the runtime's container events.
  - The worker's own source file is not part of this model.
  - Its behaviour is the one its test file `agent/spec/lib/kontena/workers/weave_worker_spec.rb` asserts.
  - Its collaborators are parameters: the network adapter, the container lookup, the DNS registrar and the destroy handler.
  - Every call the worker makes goes into a call trace, so "called once" and "never called" are statements about that trace.

The files:

- `ruby_strings.dfy` (`RubyStrings`): the Ruby String methods the code relies on. `split` keeps every field, then drops the trailing empty ones. Also modelled: `strip`, `start_with?`, and `to_s` of integers.
- `ruby_values.dfy` (`RubyValues`): parsed YAML values, Ruby truthiness, and insertion-ordered hashes with `[]`, `[]=`, `has_key?` and `delete`. It also has `inspect`/`to_s`, and the exceptions Ruby raises, which become `Result.Err` values.
- `interpolation.dfy` (`Interpolation`): the reference grammar of the interpolation pattern, the `gsub` scan that replaces references, and the `$$` collapse.
- `stack_reader.dfy` (`StackReader`):
  - the functions the reader's steps are specified by;
  - a `ServiceConfig` class, whose methods change one service's options in place;
  - a `Reader` class, which holds the document and appends to its `errors` and `notifications`.
- `service_generator.dfy` (`ServiceGenerator`): `parse_data` and its parts as methods. Each key of the payload is computed from its own option, and the steps that can raise are taken in the source's order.
- `weave_worker.dfy` (`WeaveWorker`): a `Worker` class whose handlers append to its call trace, the DNS name derivation, and the lemmas about both.

## Model

| member | source | states |
|---|---|---|
| WeaveWorker.Worker.OnWeaveStart | agent/spec/lib/kontena/workers/weave_worker_spec.rb:16-21 | A weave start event adds exactly one `start` call to the trace, whatever the topic and event hold. |
| WeaveWorker.Worker.OnContainerEvent | agent/spec/lib/kontena/workers/weave_worker_spec.rb:23-45 | The handler adds exactly the calls of the dispatch rule to the trace. A router restart starts the worker. A start event starts the container the runtime finds. A destroy event goes to the destroy handler. Nothing else happens while the adapter is not running. |
| WeaveWorker.StartEventStartsContainerOnce | agent/spec/lib/kontena/workers/weave_worker_spec.rb:28-32 | With a running adapter, a start event whose id the runtime resolves starts that container exactly once, and starts no other container. |
| WeaveWorker.DestroyEventHandledOnce | agent/spec/lib/kontena/workers/weave_worker_spec.rb:34-38 | With a running adapter, a destroy event's only call is one `on_container_destroy(event)`. |
| WeaveWorker.RouterRestartStartsOnce | agent/spec/lib/kontena/workers/weave_worker_spec.rb:40-45 | A restart event whose `from` image is the router image makes exactly one call, `start`, whether or not the adapter is running. |
| WeaveWorker.StoppedAdapterIgnoresEvents | agent/spec/lib/kontena/workers/weave_worker_spec.rb:23-26 | Apart from a router restart, an event that arrives while the adapter is not running makes no call at all. The tests stub the adapter as running. |
| WeaveWorker.Worker.StartContainer | agent/spec/lib/kontena/workers/weave_worker_spec.rb:48-79 | The trace grows by the calls of `start_container`: attach and register only when the container has an overlay CIDR. |
| WeaveWorker.NoOverlayNoCalls | agent/spec/lib/kontena/workers/weave_worker_spec.rb:60-79 | Without an overlay CIDR, `start_container` calls neither `attach_overlay` nor `register_container_dns`. It makes no adapter call and no `add_dns` call. |
| WeaveWorker.OverlayAttachedAndRegistered | agent/spec/lib/kontena/workers/weave_worker_spec.rb:53-72 | With an overlay CIDR, `start_container` calls `attach_overlay` and `register_container_dns` with the container. It makes exactly one attach-or-migrate call to the adapter. |
| WeaveWorker.Worker.AttachOverlay | agent/spec/lib/kontena/workers/weave_worker_spec.rb:82-116 | `attach_overlay` adds its own call and then exactly one adapter call, the one the attach-vs-migrate rule picks. |
| WeaveWorker.OverlayCall | agent/spec/lib/kontena/workers/weave_worker_spec.rb:82-116 | The container gets a migrate call exactly when its `overlay_suffix` is `19`. The migrate call carries `<overlay_ip>/16`. Any other container gets an attach call with the overlay CIDR verbatim. Both calls carry the container's id. |
| WeaveWorker.CidrParts | agent/spec/lib/kontena/workers/weave_worker_spec.rb:88-89 | For a CIDR `<address>/<prefix>`, `overlay_ip` is the address and `overlay_suffix` is the prefix length. |
| WeaveWorker.MigrationKeepsAddress | agent/spec/lib/kontena/workers/weave_worker_spec.rb:100-116 | A container with `<address>/19` is migrated with `<address>/16`: the address stays and the older prefix length is replaced. |
| WeaveWorker.AttachKeepsCidr | agent/spec/lib/kontena/workers/weave_worker_spec.rb:83-98 | A container with `<address>/<prefix>` under any prefix other than `19` is attached with that CIDR unchanged. |
| WeaveWorker.AttachScenario | agent/spec/lib/kontena/workers/weave_worker_spec.rb:83-98 | The new container `12345` with `10.81.128.1/16` (suffix `16`) is attached with `10.81.128.1/16`. |
| WeaveWorker.MigrateScenario | agent/spec/lib/kontena/workers/weave_worker_spec.rb:100-116 | The old container `12345` with `10.81.1.1/19` (suffix `19`, IP `10.81.1.1`) is migrated with `10.81.1.1/16`. |
| WeaveWorker.Worker.RegisterContainerDns | agent/spec/lib/kontena/workers/weave_worker_spec.rb:119-192 | The trace grows by its own call and then one `add_dns(id, overlay_ip, name)` per derived name, in order. |
| WeaveWorker.DnsCalls | agent/spec/lib/kontena/workers/weave_worker_spec.rb:119-192 | There is one `add_dns` call per derived name, each with the container's id and `overlay_ip`. |
| WeaveWorker.DnsAddressOfCidr | agent/spec/lib/kontena/workers/weave_worker_spec.rb:120-122 | Every `add_dns` call of a container with `<address>/<prefix>` carries `<address>` as its IP. |
| WeaveWorker.DnsNameCount | agent/spec/lib/kontena/workers/weave_worker_spec.rb:124-192 | `add_dns` is called 4 times for the default stack, 2 times for a named stack that is not exposed, and 4 times for an exposed named stack. |
| WeaveWorker.DefaultStackNames | agent/spec/lib/kontena/workers/weave_worker_spec.rb:124-145 | On the default stack the names are the container and the service under the container's domain and under `kontena.local`. |
| WeaveWorker.NamedStackNames | agent/spec/lib/kontena/workers/weave_worker_spec.rb:147-192 | On a named stack the names are the container and the service under the container's domain. An exposed service adds `<stack>.<grid>.kontena.local` and `<stack>-<instance>.<grid>.kontena.local`. |
| WeaveWorker.DnsNamesDistinct | agent/spec/lib/kontena/workers/weave_worker_spec.rb:124-192 | The derived names are pairwise distinct when three conditions hold. The container's domain is the one of its stack, the labels contain no dots, and the container is not named like its service. |
| WeaveWorker.DnsRegisteredOnce | agent/spec/lib/kontena/workers/weave_worker_spec.rb:124-192 | On such a container, every derived name is registered exactly once. |
| WeaveWorker.DefaultStackScenario | agent/spec/lib/kontena/workers/weave_worker_spec.rb:120-145 | `redis-2` of service `redis` in grid `foo` on the default stack gets exactly `redis-2.foo.kontena.local`, `redis.foo.kontena.local`, `redis-2.kontena.local` and `redis.kontena.local`, each with IP `10.81.1.1`. |
| WeaveWorker.NamedStackScenario | agent/spec/lib/kontena/workers/weave_worker_spec.rb:147-167 | The same container on stack `custom`, not exposed, gets exactly `redis-2.custom.foo.kontena.local` and `redis.custom.foo.kontena.local`. |
| WeaveWorker.ExposedStackScenario | agent/spec/lib/kontena/workers/weave_worker_spec.rb:169-192 | Exposed, it also gets `custom.foo.kontena.local` and `custom-2.foo.kontena.local`. |
| StackReader.StackNameOf | cli/lib/kontena/cli/stacks/yaml/reader.rb:63-65 | The stack name is nil when `stack` is unset. It raises when `stack` is set but is not a String. Otherwise it is nil or a String. |
| StackReader.StackNameIsLastSegment | cli/lib/kontena/cli/stacks/yaml/reader.rb:64 | For a String reference, the name is the segment after the last `/` (trailing slashes ignored), cut at its first `:`. It is nil when that segment is only colons. An empty reference, or one made only of slashes, raises. |
| StackReader.VersionCapture | cli/lib/kontena/cli/stacks/yaml/reader.rb:68 | `stack[/:(.*)/, 1]` is nil without a `:`. Otherwise it is the text after the first `:` up to the end of that line. |
| StackReader.StackVersionOf | cli/lib/kontena/cli/stacks/yaml/reader.rb:67-69 | An explicit version wins. Without one, the version is the text after the first `:` of the reference, up to the end of that line, or `'1'` when the reference has no `:`. A missing reference raises. |
| StackReader.ReferenceRoundTrip | cli/lib/kontena/cli/stacks/yaml/reader.rb:63-69 | The reference `prefix/name:version` gives back `name` as the stack name and `version` as the stack version. This holds for a non-empty name without `/` or `:`, a prefix without `:`, and a one-line version without `/`. |
| Interpolation.TokenShape | cli/lib/kontena/cli/stacks/yaml/reader.rb:148 | A reference that matches is `$NAME`, `${NAME}`, `${NAME` or `$NAME}`, with `NAME` a non-empty word. |
| Interpolation.ReplacesBareReference | cli/lib/kontena/cli/stacks/yaml/reader.rb:147-151 | In text whose prefix has no `$`, a `$NAME` reference is replaced by the substitution of `NAME`. The text after it is scanned on. |
| Interpolation.ReplacesBracedReference | cli/lib/kontena/cli/stacks/yaml/reader.rb:147-151 | The same holds for a `${NAME}` reference, braces included. |
| Interpolation.NoDollarUnchanged | cli/lib/kontena/cli/stacks/yaml/reader.rb:147-148 | Text without a `$` comes out of interpolation unchanged, whatever the substitution. |
| Interpolation.EscapedTextIsLiteral | cli/lib/kontena/cli/stacks/yaml/reader.rb:86 | Interpolating and then collapsing `$$`, the order `load_yaml` uses, turns text whose every `$` is written `$$` back into the literal text. No variable is substituted. |
| Interpolation.DoubleDollarIsLiteral | cli/lib/kontena/cli/stacks/yaml/reader.rb:85-89 | `$$FOO` loads as the literal `$FOO`, never as the value of `FOO`. |
| Interpolation.CollapseEscape | cli/lib/kontena/cli/stacks/yaml/reader.rb:174-176 | Collapsing `$$` to `$` undoes writing every `$` as `$$`. |
| Interpolation.EscapedHasNoNames | cli/lib/kontena/cli/stacks/yaml/reader.rb:148 | The pattern matches no reference in text whose every `$` is doubled. |
| StackReader.Substitution | cli/lib/kontena/cli/stacks/yaml/reader.rb:152-167 | The lookup order is: a valid variable's value, then an empty text for an invalid variable, then the environment variable, otherwise the empty text. |
| StackReader.Reader.Interpolate | cli/lib/kontena/cli/stacks/yaml/reader.rb:147-170 | With a filler, every reference becomes the filler. Otherwise every reference becomes its substitution. The errors grow by one entry per reference to an invalid variable. They do not grow in filler mode or when validation is skipped. |
| StackReader.ReportedSnoc | cli/lib/kontena/cli/stacks/yaml/reader.rb:153-161 | A reference adds `{file => errors}` exactly when it names an invalid variable, after the entries of the references before it. |
| StackReader.ReportedEmpty | cli/lib/kontena/cli/stacks/yaml/reader.rb:153-161 | Interpolation reports nothing exactly when every referenced variable is undeclared or valid. |
| StackReader.Reader.LoadYaml | cli/lib/kontena/cli/stacks/yaml/reader.rb:85-89 | The document is the parse of the interpolated text with `$$` collapsed. A syntax error raises `Error while parsing <file> <message>` and leaves the document as it was. |
| StackReader.Stored | cli/lib/kontena/cli/stacks/yaml/reader.rb:102-105 | One `{file => details}` entry is appended, unless the details are empty. Details without `empty?` raise. |
| StackReader.Reader.StoreFailures | cli/lib/kontena/cli/stacks/yaml/reader.rb:102-105 | The validator's errors and then its notifications are stored, each by that rule. A raise leaves the later list as it was. |
| StackReader.Reader.FromExternalFile | cli/lib/kontena/cli/stacks/yaml/reader.rb:203-208 | The answer is the other file's services. The other file's errors and notifications are merged in. |
| StackReader.MergedFailuresOnce | cli/lib/kontena/cli/stacks/yaml/reader.rb:205-206 | Once a file's failures have been merged, merging that file's failures again changes nothing. |
| StackReader.ExtendedService | cli/lib/kontena/cli/stacks/yaml/reader.rb:193-201 | An `extends` that is neither a Hash nor a String names no service. |
| StackReader.ExtendsFile | cli/lib/kontena/cli/stacks/yaml/reader.rb:183 | Only the Hash form of `extends` names a file, by its `file` key. |
| StackReader.ExtendsFileAgrees | cli/lib/kontena/cli/stacks/yaml/reader.rb:183 | On the Hash form, the corrected reading agrees with the code as written. The String form names no file. |
| StackReader.ExtendsFileAsWrittenMisreads | cli/lib/kontena/cli/stacks/yaml/reader.rb:183 | As written, extending a service named `filebeat` reads an external file named `file`. |
| StackReader.Reader.ExtendConfig | cli/lib/kontena/cli/stacks/yaml/reader.rb:180-191 | The result is nil when `extends` names no service. A successful result is nil or a hash of options. |
| StackReader.NormalizedEnvironment | cli/lib/kontena/cli/stacks/yaml/reader.rb:211-215 | A hash environment becomes an array with one line per entry. Any other environment is left as it is. |
| StackReader.NormalizedKeys | cli/lib/kontena/cli/stacks/yaml/reader.rb:213 | Line `i` is `"#{k}=#{v}"` of entry `i`, so the lines are in hash order. Each line sets the variable of its key. |
| StackReader.NormalizedConfig | cli/lib/kontena/cli/stacks/yaml/reader.rb:211-215 | Only `environment` changes, and only when it is a hash. |
| StackReader.ServiceConfig.NormalizeEnvVars | cli/lib/kontena/cli/stacks/yaml/reader.rb:211-215 | The options become their normalised form. |
| StackReader.KeptLines | cli/lib/kontena/cli/stacks/yaml/reader.rb:232 | Exactly the lines that are neither empty nor comments are kept. |
| StackReader.ReadEnvFileClean | cli/lib/kontena/cli/stacks/yaml/reader.rb:231-233 | Every line read from an env file is stripped, non-empty and not a `#` comment. |
| StackReader.ReadEnvFileComplete | cli/lib/kontena/cli/stacks/yaml/reader.rb:231-233 | Every line of the file that, stripped, is neither blank nor a comment is read, stripped. |
| StackReader.EnvFilePaths | cli/lib/kontena/cli/stacks/yaml/reader.rb:221-223 | A single path counts as a list of one. A list is visited as it is. Other values raise, except an empty hash. |
| StackReader.AppendEnvFiles | cli/lib/kontena/cli/stacks/yaml/reader.rb:223-225 | Without files the environment is unchanged. An unreadable file raises `FileNotFound` with its path. |
| StackReader.AppendedLines | cli/lib/kontena/cli/stacks/yaml/reader.rb:223-225 | When reading succeeds, the lines of every file, in file order, follow the inline entries. |
| StackReader.UnreadableEnvFileRaises | cli/lib/kontena/cli/stacks/yaml/reader.rb:223-225 | One unreadable file in the list makes the merge raise. |
| StackReader.ConcatEnvFiles | cli/lib/kontena/cli/stacks/yaml/reader.rb:223-225 | The loop over the env files computes exactly the specified concatenation, or its exception. |
| StackReader.MergedConfig | cli/lib/kontena/cli/stacks/yaml/reader.rb:218-228 | Without `env_file` the options are unchanged. When a merge with `env_file` completes, `env_file` is gone, `environment` is an array, and every other key keeps its value. |
| StackReader.UniqEnvironment | cli/lib/kontena/cli/stacks/yaml/reader.rb:227 | `uniq!` leaves an array of at most one element as it is, whatever the element, because its block does not run. A longer array completes exactly when every element is a String, since the block splits each; otherwise it raises `NoMethodError`. A value that is not an array has no `uniq!`. |
| StackReader.UniqEnvironmentOfLines | cli/lib/kontena/cli/stacks/yaml/reader.rb:227 | On text lines, of any length, `uniq!` keeps the first line of each variable, as `UniqByKey` says. |
| StackReader.MergeKeepsShortEnvironment | cli/lib/kontena/cli/stacks/yaml/reader.rb:218-228 | When the environment has at most one entry after the env files are appended, the merge completes and keeps that entry, even one that is not a String. |
| StackReader.OneEntryEnvironmentKept | cli/lib/kontena/cli/stacks/yaml/reader.rb:218-228 | Options `{environment: [5], env_file: []}` merge to `{environment: [5]}`. |
| StackReader.MergedEnvironment | cli/lib/kontena/cli/stacks/yaml/reader.rb:218-228 | The merged environment is the inline lines followed by the env files' lines, de-duplicated by variable so that the first line wins. |
| StackReader.MergeKeepsInline | cli/lib/kontena/cli/stacks/yaml/reader.rb:218-228 | An inline line survives the merge, and no other line for its variable does, so inline values win over env files. |
| StackReader.HashEnvironmentWins | cli/lib/kontena/cli/stacks/yaml/reader.rb:211-228 | Take a hash environment whose keys render as distinct, non-empty texts without `=`. After normalising and merging, every one of its entries is still present as its `k=v` line. |
| StackReader.ServiceConfig.MergeEnvVars | cli/lib/kontena/cli/stacks/yaml/reader.rb:218-228 | The method completes with the merged options or raises the merge's exception. |
| StackReader.UniqByKey | cli/lib/kontena/cli/stacks/yaml/reader.rb:227 | `uniq!` by variable keeps lines of the input, one per variable, and loses no variable. Each kept line is the first of its variable. |
| StackReader.InlineWins | cli/lib/kontena/cli/stacks/yaml/reader.rb:227 | Lines put first win over the lines appended after them. |
| StackReader.EnvKeyOfLine | cli/lib/kontena/cli/stacks/yaml/reader.rb:227 | The key of `k=v` is `k`, whatever `v` holds. |
| StackReader.ArgPairKey | cli/lib/kontena/cli/stacks/yaml/reader.rb:249 | The key of an argument is the text before its first `=`, or nil when it is only `=`. An argument without `=` gets a nil value. |
| StackReader.BuildArgsOf | cli/lib/kontena/cli/stacks/yaml/reader.rb:246-251 | The array of arguments becomes a hash exactly when every argument is a String. |
| StackReader.LastArgWins | cli/lib/kontena/cli/stacks/yaml/reader.rb:248-251 | An argument that no later argument overrides sets the value of its key. |
| StackReader.ArgsHashRoundTrip | cli/lib/kontena/cli/stacks/yaml/reader.rb:248-251 | Take a hash with distinct keys, whose keys and values are non-empty texts without `=`. Writing it as `k=v` arguments and reading them back gives the hash. |
| StackReader.BuildArgsRoundTrip | cli/lib/kontena/cli/stacks/yaml/reader.rb:244-253 | The same holds through the array of YAML values the reader sees. |
| StackReader.CollectBuildArgs | cli/lib/kontena/cli/stacks/yaml/reader.rb:246-251 | The `each` loop succeeds exactly when the specification does, and then builds the specified hash. |
| StackReader.BuildArgsNormalized | cli/lib/kontena/cli/stacks/yaml/reader.rb:244-253 | The options are unchanged unless `build` is a hash whose `args` is an array. Only `build` changes. |
| StackReader.ServiceConfig.NormalizeBuildArgs | cli/lib/kontena/cli/stacks/yaml/reader.rb:244-253 | The method completes with the normalised options or raises their exception. |
| StackReader.PreparedKeepsExtends | cli/lib/kontena/cli/stacks/yaml/reader.rb:128-133 | The preparing steps leave `extends` as it was, so the decision to extend sees the service's own `extends`. |
| StackReader.Reader.ProcessConfig | cli/lib/kontena/cli/stacks/yaml/reader.rb:128-138 | A service without `extends` comes out prepared, and a failure to prepare it is raised. A successful result never has `extends`. Options that are not a hash raise the exception of the first step that fails on them. Running out of depth raises `StackTooDeep`. |
| StackReader.UnpreparedErrors | cli/lib/kontena/cli/stacks/yaml/reader.rb:128-133 | For options that are not a hash: nil, a boolean or a float has no `[]` and raises `NoMethodError`. An Integer or an Array is indexed by a String and raises `TypeError`. A String raises `TypeError` when it contains `env_file`, and otherwise has no `has_key?`. |
| StackReader.StoreResolved | cli/lib/kontena/cli/stacks/yaml/reader.rb:117-119 | Storing a processed service under its own name keeps the services' order and the services already processed. |
| StackReader.Reader.ParseServices | cli/lib/kontena/cli/stacks/yaml/reader.rb:115-125 | Parsing all services of a hash keeps their names and order and resolves every one. An empty array of services is given back as it is. A non-empty array whose first element is not an array raises. Services that are neither a hash nor an array have no `each` and raise. Parsing one service resolves it. An unknown name raises `Service '<name>' not found in <file>`. |
| StackReader.Reader.ParseListedServices | cli/lib/kontena/cli/stacks/yaml/reader.rb:116-119 | The `each` loop over an array of services gives back the empty array unchanged, and raises `NoMethodError` when its first element binds a nil config. A completed loop leaves an array at least as long as it started. |
| StackReader.BlockParams | cli/lib/kontena/cli/stacks/yaml/reader.rb:117 | An array element is spread over `\|name, config\|`, with nil for a missing one. Any other element is the name alone, with a nil config. |
| StackReader.StoreAt | cli/lib/kontena/cli/stacks/yaml/reader.rb:118 | `Array#[]=` succeeds exactly for an Integer index not before the start. It stores the value at that index, counted from the end when negative, keeps every other element, and pads with nils past the end. |
| ServiceGenerator.LinkWithAlias | cli/lib/kontena/cli/stacks/service_generator.rb:92-104 | `svc:alias` gives the name `svc` and the alias `alias`. |
| ServiceGenerator.LinkWithoutAlias | cli/lib/kontena/cli/stacks/service_generator.rb:98-102 | `svc` gives the alias `svc`. |
| ServiceGenerator.LinkRefused | cli/lib/kontena/cli/stacks/service_generator.rb:94-97 | A link raises `ArgumentError("Invalid link value <l>")` exactly when it has no service part: it is empty or only colons. |
| ServiceGenerator.LinkName | cli/lib/kontena/cli/stacks/service_generator.rb:94-100 | The name of a link is its text up to the first `:`. |
| ServiceGenerator.LinksOf | cli/lib/kontena/cli/stacks/service_generator.rb:93-103 | On success there is one link per option, in order. On failure the error is the first failing option's. |
| ServiceGenerator.ParseLinks | cli/lib/kontena/cli/stacks/service_generator.rb:92-104 | An array succeeds exactly when every option does, and the result is an array. Values without `map` raise. |
| ServiceGenerator.ParseLinksOnePerOption | cli/lib/kontena/cli/stacks/service_generator.rb:92-104 | Every option gives one link, in order. |
| ServiceGenerator.PortEntry | cli/lib/kontena/cli/stacks/service_generator.rb:80-87 | A port becomes a hash of exactly `ip`, `container_port`, `node_port` and `protocol`, with the port's values. |
| ServiceGenerator.StringifiedPorts | cli/lib/kontena/cli/stacks/service_generator.rb:79-88 | There is one port hash per parsed port, in order. |
| ServiceGenerator.ParseBuildOptions | cli/lib/kontena/cli/stacks/service_generator.rb:108-113 | `context` is set from `build` and `dockerfile` from `dockerfile`, each exactly when set. There are no other keys. |
| ServiceGenerator.BuildSetting | cli/lib/kontena/cli/stacks/service_generator.rb:62 | `build` is in the payload exactly when the options set it. It holds `context` from `build`, and `dockerfile` only when set, and no other key. |
| ServiceGenerator.DeployOptions | cli/lib/kontena/cli/stacks/service_generator.rb:53-56 | The deploy options hold exactly the present ones of `wait_for_port`, `min_health` and `interval`, in that order. `interval` holds what the relative-time parser answers. The method raises exactly when `interval` is present and the parser raises, with the parser's error. |
| ServiceGenerator.DeploySettings | cli/lib/kontena/cli/stacks/service_generator.rb:51-59 | `strategy` is copied when set. `deploy_opts` appears exactly when one of its three keys is present. It succeeds exactly when the deploy options are a hash and `interval`, if present, parses. Its error is `[]`'s, then `has_key?`'s, then the parser's. |
| ServiceGenerator.HealthCheck | cli/lib/kontena/cli/stacks/service_generator.rb:63-70 | The health check is the present subset of the six recognised keys, in their order. |
| ServiceGenerator.HealthCheckCopies | cli/lib/kontena/cli/stacks/service_generator.rb:63-73 | A key is in the health check exactly when it is recognised and present, with its value. The check is empty exactly when none are present. |
| ServiceGenerator.HealthSetting | cli/lib/kontena/cli/stacks/service_generator.rb:63-73 | `health_check` is left out when no recognised key is present. Health options that are not a hash raise `has_key?`'s NoMethodError. |
| ServiceGenerator.RaisingSteps | cli/lib/kontena/cli/stacks/service_generator.rb:29-73 | The steps of `parse_data` that may raise, taken in the source's order. They pass exactly when every helper answers and the links, `log_opt`, deploy and health options allow. Otherwise they raise the error of the first step that fails. On success each step holds what its helper or sub-step answers: the parsed image, links and ports, the memory limits and command parsed only when set, whether `log_opt` is non-empty, and the deploy, build and health sub-hashes. |
| ServiceGenerator.ParseData | cli/lib/kontena/cli/stacks/service_generator.rb:26-75 | Each key of the payload is computed from its own option. It succeeds exactly when every helper answers and the links, `log_opt`, deploy and health options allow. Otherwise it raises the error of the first step that fails, in the source's order: image, links, external links, ports, the two memory limits, the command, `log_opt`, deploy, health. On success: list keys default to `[]` and `hooks` to `{}`; image, ports, memory limits and command hold what the helpers answer; `stateful` is true only for a literal `true`; `privileged` is kept whenever it is not nil, `false` included; optional keys appear exactly when set; `log_opts` appears only when not empty. |
| ServiceGenerator.ParseDataErrorNone | cli/lib/kontena/cli/stacks/service_generator.rb:26-75 | No step raises exactly when the options are accepted. |
| ServiceGenerator.UnsplittableCommandRaises | cli/lib/kontena/cli/stacks/service_generator.rb:29-40 | Once the steps before it pass, a command that `Shellwords.split` refuses makes `parse_data` raise that error, whatever follows. |
| ServiceGenerator.PortsRaiseBeforeLaterOptions | cli/lib/kontena/cli/stacks/service_generator.rb:29-50 | A port list that the ports parser refuses raises its own error. Any options that agree on the image, the links and the ports raise that same error, whatever `log_opt`, deploy and health options they hold. |

## Left out

- **Inputs.**
  - YAML parsing is the `parse` parameter of `Reader.LoadYaml`.
  - The file system is a map from paths to contents.
  - The process environment is a map.
  - The variable group (Opto) is a map from names to each variable's validity, value and errors.
  - Reading another stack file (`Reader.new(file).execute`) and the service extender (`ServiceExtender#extend_from`) are parameters of `Reader`'s methods.
  - The service extender answers with the merged options or with the exception it raises, and that exception propagates out of `ExtendConfig`. When the other file had errors, its services are nil, and that nil parent is passed to the extender as Ruby passes it.
- **Reader internals not modelled.** The reader's constructor, `reload`, `execute`, `variables`, `validate` and `raw` read files or call the variable library and the validator, and are not modelled. `Reader.LoadYaml` and `Reader.StoreFailures` take the results of those calls.
- **expand_build_context.** It calls `File.expand_path` on the build context. `File.expand_path` depends on the working directory, so it is left out. `ProcessConfig` prepares a service without it.
- **Hashes modelled as values.** Ruby mutates each service's hash in place, and that hash is shared with the document. The model returns the changed options instead. `ParseServices` stores each result back into the document.
- **State on a raise.** A Ruby method that raises can leave the hash half-changed. The model leaves the state of a method that raises as it was, or says nothing about it.
- **Printing.** The warnings `interpolate` prints (`puts`) and the colours of the messages are left out.
- **Interpolation as a function.** `Interpolate` computes Ruby's `gsub` as the `Scan` function rather than a loop, because `gsub` is a single library call in the source.
- **safe_dig.** `safe_dig` (Kontena::Util) is not part of this model. It is taken to answer `options['build']['args']` when `build` is a hash, and nil otherwise.
- **Inspect.** `Inspect` does not escape special characters inside strings.
- **StackReader.Reader.ProcessConfig:**
  - An extends cycle makes Ruby overflow its stack. The model bounds the depth by a fuel of one level per service of the file, and raises `StackTooDeep` when the fuel runs out.
  - The fuel bounds only extends within one file. A chain that goes through other files is left to the `readStack` input, which stands for reading the other file. The model puts no bound on such a chain.
- **StackReader.Reader.ExtendConfig:**
  - It states when the result is nil and that a result is a hash of options. It does not state the merged options, because the service extender is a parameter.
  - It reads the parent's file with the corrected `ExtendsFile`, not with reader.rb:183 as written (see Findings). A String `extends` therefore always extends a service of the same file. As written, a name that contains `file` (`extends: filebeat`) makes the reader open an external file called `file`. `StackReader.ExtendsFileAsWritten` models that reading.
- **StackReader.Reader.ParseServices:**
  - The services stored back are said to be resolved. The model does not state which options each one holds.
  - For an array of services, only the empty array and a first element that is not an array are stated. A longer run of `[name, config]` pairs is modelled, with its result left unstated.
  - In an array of services, a Float index raises `TypeError` in the model. Ruby truncates it to an Integer index.
- **StackReader.UnpreparedErrors:** the String case takes `safe_dig` to answer nil for a String `build`, and leaves out `expand_build_context`, which runs before `has_key?`.
- **Helpers.**
  - `parse_image`, `parse_ports`, `parse_memory`, `parse_relative_time` (ServicesHelper) and `Shellwords.split` are not part of this model.
  - They are the fields of `ServiceGenerator.Helpers`. Each one answers with its result or with the exception it raises, and that exception propagates at the helper's place in `parse_data`. The payload states what the helpers are applied to.
- **Payload.** The payload is a record with one optional field per key, so the order of its keys is not stated. `container_count`, which the source sets twice, appears once.
- **The weave worker's source.**
  - The worker's source file is not part of this model. It is reconstructed from its test file.
  - `start`, `on_container_destroy` and the DNS registrar are calls recorded in the trace, and their bodies are not modelled.
  - Celluloid's actor mailbox, logging and exceptions from the adapter are left out.
- **Labels.**
  - The labels are an enumeration of the six the worker reads.
  - An absent label reads as the empty text.
  - The instance number is the text of the label.
- **Worker guards.**
  - A container counts as exposed whenever its exposed label is present. The tests only use `'1'`, so the rule for other values is an assumption.
  - The overlay step is skipped only for a missing overlay CIDR.
  - The container's `overlay_ip` and `overlay_suffix` come from a container extension that is not part of this model. The model takes them as the text before and the text after the first `/` of the overlay CIDR. This agrees with every test double.
  - A container migrates exactly when its `overlay_suffix` is `19`. The tests show only the suffixes `16` (attach) and `19` (migrate), so the rule for other suffixes is an assumption.
  - The DNS tests stub `overlay_ip` on their own. The model derives it from the CIDR and gives the scenario containers `10.81.1.1/16`.
  - Which container a start event finds is the runtime's business. An id the runtime cannot find makes no call.
- **Ruby built-ins.**
  - `Strip` removes leading and trailing space, tab, line feed, vertical tab, form feed, carriage return and NUL, as `String#strip` does. Other Unicode whitespace is kept.
  - A floating-point value is kept as its printed text (`Float`), with no arithmetic.

## Findings

| source | as written | input that shows it | evidently intended | confidence | as-written member | corrected member |
|---|---|---|---|---|---|---|
| cli/lib/kontena/cli/stacks/yaml/reader.rb:183 | `filename = service_config['extends']['file']` is also evaluated when `extends` is a String, and String#[] then answers `"file"` whenever the service name contains that word | `extends: filebeat` makes the reader open an external stack file called `file`, instead of extending the service `filebeat` of the same file | only the Hash form of `extends` names a file. A String names a service of the same file | high, not executed | StackReader.ExtendsFileAsWrittenMisreads | StackReader.ExtendsFileAgrees |
