/**
 * The service generator of the stack tooling: turns the options of one
 * service, as the stack reader leaves them, into the payload the API takes
 * for a service (`parse_data`), with its links (`parse_links`), ports
 * (`parse_stringified_ports`) and build options (`parse_build_options`).
 */
module ServiceGenerator {
  import opened RubyStrings
  import opened RubyValues

  /** `h[key]` for a String key. */
  function At(d: Dict, key: string): Value
  {
    Get(d, Str(key))
  }

  /** `h.has_key?(key)` for a String key. */
  predicate Has(d: Dict, key: string)
  {
    HasKey(d, Str(key))
  }

  /** `data[to] = v if cond`: the key is there exactly when `cond` holds, and then holds `v`. */
  predicate CopiedIf(d: Dict, to: string, cond: bool, v: Value)
  {
    (Has(d, to) <==> cond) && (cond ==> At(d, to) == v)
  }

  // ---------------------------------------------------------------------
  // Links
  // ---------------------------------------------------------------------

  /** `{ 'name' => name, 'alias' => alias }` */
  function LinkEntry(name: string, alias: string): Value
  {
    Hash([(Str("name"), Str(name)), (Str("alias"), Str(alias))])
  }

  /**
   * One link option: `service_name, alias_name = l.split(':')`, an
   * ArgumentError when there is no service part, and the service name as
   * the alias when there is no alias part.
   */
  function LinkOf(l: Value): Result<Value>
  {
    if !l.Str? then Err(NoMethodError("split"))
    else
      var parts := Split(l.s, ':');
      if parts == [] then Err(ArgumentError("Invalid link value " + l.s))
      else Ok(LinkEntry(parts[0], if |parts| >= 2 then parts[1] else parts[0]))
  }

  /** `svc:alias` links the service `svc` under the name `alias`. */
  lemma LinkWithAlias(name: string, alias: string)
    requires ':' !in name && ':' !in alias && alias != ""
    ensures LinkOf(Str(name + ":" + alias)) == Ok(LinkEntry(name, alias))
  {
    SplitPair(name, alias, ':');
    assert name + [':'] + alias == name + ":" + alias;
  }

  /** `svc` alone links the service under its own name. */
  lemma LinkWithoutAlias(name: string)
    requires ':' !in name && name != ""
    ensures LinkOf(Str(name)) == Ok(LinkEntry(name, name))
  {
    FieldsWithoutSep(name, ':');
  }

  /** A link option is refused exactly when it has no service part: it is empty or only colons. */
  lemma LinkRefused(s: string)
    ensures LinkOf(Str(s)).Err? <==> forall i :: 0 <= i < |s| ==> s[i] == ':'
    ensures LinkOf(Str(s)).Err? ==> LinkOf(Str(s)).error == ArgumentError("Invalid link value " + s)
  {
    SplitEmpty(s, ':');
  }

  /** The service part is the text before the first colon. */
  lemma LinkName(s: string)
    requires LinkOf(Str(s)).Ok?
    ensures Get(LinkOf(Str(s)).value.entries, Str("name")) == Str(TakeUntil(s, ':'))
  {
    SplitFirst(s, ':');
  }

  /** `link_options.map { ... }` over an array: stops at the first option that raises. */
  function LinksOf(items: seq<Value>): (r: Result<seq<Value>>)
    ensures r.Ok? ==> |r.value| == |items| && forall i :: 0 <= i < |items| ==> LinkOf(items[i]) == Ok(r.value[i])
    ensures r.Err? ==> exists i :: 0 <= i < |items| && LinkOf(items[i]) == Err(r.error) &&
                                   forall j :: 0 <= j < i ==> LinkOf(items[j]).Ok?
    decreases |items|
  {
    if items == [] then Ok([])
    else
      var first :- LinkOf(items[0]);
      var rest := LinksOf(items[1..]);
      if rest.Err? then
        ghost var i :| 0 < i + 1 <= |items[1..]| && LinkOf(items[1..][i]) == Err(rest.error) &&
                       forall j :: 0 <= j < i ==> LinkOf(items[1..][j]).Ok?;
        assert forall j :: 0 <= j < i + 1 ==> LinkOf(items[j]).Ok? by {
          forall j | 0 <= j < i + 1 ensures LinkOf(items[j]).Ok? {
            if j > 0 { assert items[j] == items[1..][j - 1]; }
          }
        }
        assert LinkOf(items[i + 1]) == Err(rest.error);
        Err(rest.error)
      else
        Ok([first] + rest.value)
  }

  /**
   * `parse_links(options)`: arrays are mapped; an empty hash maps to an
   * empty array, while the entries of any other hash, being arrays, have no
   * `split`; other values have no `map`.
   */
  function ParseLinks(v: Value): (r: Result<Value>)
    ensures v.List? ==> (r.Ok? <==> LinksOf(v.items).Ok?)
    ensures r.Ok? ==> r.value.List?
    ensures !v.List? && !v.Hash? ==> r == Err(NoMethodError("map"))
  {
    match v
    case List(items) =>
      var links :- LinksOf(items);
      Ok(List(links))
    case Hash(entries) => if entries == [] then Ok(List([])) else Err(NoMethodError("split"))
    case _ => Err(NoMethodError("map"))
  }

  /** Every option gives one link, in order. */
  lemma ParseLinksOnePerOption(items: seq<Value>)
    requires ParseLinks(List(items)).Ok?
    ensures |ParseLinks(List(items)).value.items| == |items|
    ensures forall i :: 0 <= i < |items| ==> LinkOf(items[i]) == Ok(ParseLinks(List(items)).value.items[i])
  {
  }

  // ---------------------------------------------------------------------
  // Ports
  // ---------------------------------------------------------------------

  /** What `parse_ports` gives for one port option. */
  datatype Port = Port(ip: Value, containerPort: Value, nodePort: Value, protocol: Value)

  const PortKeys: seq<Value> := [Str("ip"), Str("container_port"), Str("node_port"), Str("protocol")]

  /** `{ 'ip' => p[:ip], 'container_port' => ..., 'node_port' => ..., 'protocol' => ... }` */
  function PortEntry(p: Port): (e: Value)
    ensures e.Hash? && Keys(e.entries) == PortKeys
    ensures Get(e.entries, Str("ip")) == p.ip
    ensures Get(e.entries, Str("container_port")) == p.containerPort
    ensures Get(e.entries, Str("node_port")) == p.nodePort
    ensures Get(e.entries, Str("protocol")) == p.protocol
  {
    var d := [(Str("ip"), p.ip), (Str("container_port"), p.containerPort),
              (Str("node_port"), p.nodePort), (Str("protocol"), p.protocol)];
    assert Keys(d[3..]) == [Str("protocol")];
    assert Keys(d[2..]) == [Str("node_port")] + Keys(d[3..]);
    assert Keys(d[1..]) == [Str("container_port")] + Keys(d[2..]);
    assert Get(d[1..], Str("node_port")) == Get(d[2..], Str("node_port"));
    assert Get(d[1..], Str("protocol")) == Get(d[2..], Str("protocol")) == Get(d[3..], Str("protocol"));
    Hash(d)
  }

  /** `parse_stringified_ports`: each parsed port, in order, as a hash with string keys. */
  function StringifiedPorts(ports: seq<Port>): (r: seq<Value>)
    ensures |r| == |ports|
    ensures forall i :: 0 <= i < |ports| ==> r[i] == PortEntry(ports[i])
  {
    seq(|ports|, i requires 0 <= i < |ports| => PortEntry(ports[i]))
  }

  // ---------------------------------------------------------------------
  // The services helper
  // ---------------------------------------------------------------------

  /**
   * The parsers of the services helper and `Shellwords.split`, which are
   * not part of this model. Each answers with its result or with the
   * exception it raises.
   */
  datatype Helpers = Helpers(
    image: Value -> Result<Value>,
    ports: Value -> Result<seq<Port>>,
    memory: string -> Result<Value>,
    relativeTime: Value -> Result<Value>,
    shellwords: Value -> Result<Value>)
  {
    function ParseImage(v: Value): Result<Value> { image(v) }
    function ParsePorts(v: Value): Result<seq<Port>> { ports(v) }
    function ParseMemory(s: string): Result<Value> { memory(s) }
    function ParseRelativeTime(v: Value): Result<Value> { relativeTime(v) }
    function ShellSplit(v: Value): Result<Value> { shellwords(v) }
  }

  /** The exception a step raises, if any. */
  function ErrorOf<T>(r: Result<T>): Option<RubyError>
  {
    if r.Ok? then None else Some(r.error)
  }

  /** `parse(v) if given`: nothing when not given, otherwise what the parser answers. */
  function ParsedWhen(given: bool, parsed: Result<Value>): Result<Option<Value>>
  {
    if !given then Ok(None)
    else match parsed
      case Ok(v) => Ok(Some(v))
      case Err(e) => Err(e)
  }

  /** `d` has `to` exactly when `cond`, holding what the parser answered. */
  predicate ParsedIf(d: Dict, to: string, cond: bool, parsed: Result<Value>)
  {
    (Has(d, to) <==> cond) && (cond ==> parsed == Ok(At(d, to)))
  }

  // ---------------------------------------------------------------------
  // Build options
  // ---------------------------------------------------------------------

  /** parse_build_options: `context` from `build` and `dockerfile` from `dockerfile`, each only when set. */
  method ParseBuildOptions(options: Dict) returns (build: Dict)
    ensures CopiedIf(build, "context", Truthy(At(options, "build")), At(options, "build"))
    ensures CopiedIf(build, "dockerfile", Truthy(At(options, "dockerfile")), At(options, "dockerfile"))
    ensures Keys(build) == (if Truthy(At(options, "build")) then [Str("context")] else []) +
                           (if Truthy(At(options, "dockerfile")) then [Str("dockerfile")] else [])
  {
    build := [];
    if Truthy(At(options, "build")) {
      build := Put(build, Str("context"), At(options, "build"));
    }
    if Truthy(At(options, "dockerfile")) {
      PutKeys(build, Str("dockerfile"), At(options, "dockerfile"));
      build := Put(build, Str("dockerfile"), At(options, "dockerfile"));
    }
  }

  // ---------------------------------------------------------------------
  // Sub-hashes holding the present subset of some keys
  // ---------------------------------------------------------------------

  /** The keys among `keys` that `src` has, in the order of `keys`. */
  function Present(src: Dict, keys: seq<string>): seq<Value>
    decreases |keys|
  {
    if keys == [] then []
    else
      var init := Present(src, keys[..|keys| - 1]);
      var k := Str(keys[|keys| - 1]);
      if HasKey(src, k) then init + [k] else init
  }

  /** A key is listed exactly when it is one of `keys` and `src` has it. */
  lemma {:induction false} PresentHas(src: Dict, keys: seq<string>, k: Value)
    ensures k in Present(src, keys) <==> exists i :: 0 <= i < |keys| && k == Str(keys[i]) && HasKey(src, k)
    decreases |keys|
  {
    if keys != [] {
      var init := keys[..|keys| - 1];
      PresentHas(src, init, k);
      assert forall i :: 0 <= i < |init| ==> init[i] == keys[i];
      if exists i :: 0 <= i < |keys| && k == Str(keys[i]) && HasKey(src, k) {
        var i :| 0 <= i < |keys| && k == Str(keys[i]) && HasKey(src, k);
        if i < |init| {
          assert init[i] == keys[i];
        }
      }
    }
  }

  /** Nothing is listed exactly when `src` has none of `keys`. */
  lemma PresentEmpty(src: Dict, keys: seq<string>)
    ensures Present(src, keys) == [] <==> forall i :: 0 <= i < |keys| ==> !Has(src, keys[i])
  {
    if Present(src, keys) != [] {
      PresentHas(src, keys, Present(src, keys)[0]);
    }
    forall i | 0 <= i < |keys| && Has(src, keys[i])
      ensures Present(src, keys) != []
    {
      PresentHas(src, keys, Str(keys[i]));
    }
  }

  /** Copying the keys of `keys` that `src` has, one after another, in that order. */
  lemma {:induction false} CopyStep(src: Dict, keys: seq<string>, acc: Dict, k: string)
    requires Keys(acc) == Present(src, keys)
    requires forall i :: 0 <= i < |keys| ==> keys[i] != k
    ensures var acc' := if Has(src, k) then Put(acc, Str(k), At(src, k)) else acc;
      Keys(acc') == Present(src, keys + [k])
  {
    assert (keys + [k])[..|keys|] == keys;
    if Has(src, k) {
      HasKeyInKeys(acc, Str(k));
      PresentHas(src, keys, Str(k));
      PutKeys(acc, Str(k), At(src, k));
    }
  }

  /**
   * One step of copying: `k`, which is not among `keys`, is put with `v`
   * when `src` has it; the keys listed grow by `k` when it is there, and
   * the keys copied before keep their values.
   */
  lemma CopyKey(src: Dict, keys: seq<string>, acc: Dict, k: string, v: Value)
    requires Keys(acc) == Present(src, keys)
    requires forall i :: 0 <= i < |keys| ==> keys[i] != k
    ensures var acc' := if Has(src, k) then Put(acc, Str(k), v) else acc;
      && Keys(acc') == Present(src, keys + [k])
      && CopiedIf(acc', k, Has(src, k), v)
      && forall i :: 0 <= i < |keys| ==> Has(acc', keys[i]) == Has(acc, keys[i]) && At(acc', keys[i]) == At(acc, keys[i])
  {
    CopyStep(src, keys, acc, k);
    if !Has(src, k) {
      HasKeyInKeys(acc, Str(k));
      PresentHas(src, keys, Str(k));
    } else {
      PutKeys(acc, Str(k), At(src, k));
      PutKeys(acc, Str(k), v);
    }
  }

  const DeployKeys: seq<string> := ["wait_for_port", "min_health", "interval"]
  const HealthKeys: seq<string> := ["protocol", "uri", "port", "timeout", "interval", "initial_delay"]

  /**
   * The `deploy` hash of `parse_data`: `wait_for_port` and `min_health`
   * copied and `interval` parsed as a relative time, each only when it is a
   * key of the deploy options; a raise of the time parser propagates.
   */
  method DeployOptions(deployOpts: Dict, h: Helpers) returns (r: Result<Dict>)
    ensures r.Err? <==> Has(deployOpts, "interval") && h.ParseRelativeTime(At(deployOpts, "interval")).Err?
    ensures r.Err? ==> r == Err(h.ParseRelativeTime(At(deployOpts, "interval")).error)
    ensures r.Ok? ==> Keys(r.value) == Present(deployOpts, DeployKeys)
    ensures r.Ok? ==> CopiedIf(r.value, "wait_for_port", Has(deployOpts, "wait_for_port"), At(deployOpts, "wait_for_port"))
    ensures r.Ok? ==> CopiedIf(r.value, "min_health", Has(deployOpts, "min_health"), At(deployOpts, "min_health"))
    ensures r.Ok? ==> ParsedIf(r.value, "interval", Has(deployOpts, "interval"), h.ParseRelativeTime(At(deployOpts, "interval")))
  {
    var deploy := [];
    assert DeployKeys[..0] == [];
    CopyKey(deployOpts, [], deploy, "wait_for_port", At(deployOpts, "wait_for_port"));
    if Has(deployOpts, "wait_for_port") {
      deploy := Put(deploy, Str("wait_for_port"), At(deployOpts, "wait_for_port"));
    }
    CopyKey(deployOpts, ["wait_for_port"], deploy, "min_health", At(deployOpts, "min_health"));
    if Has(deployOpts, "min_health") {
      deploy := Put(deploy, Str("min_health"), At(deployOpts, "min_health"));
    }
    if Has(deployOpts, "interval") {
      var interval :- h.ParseRelativeTime(At(deployOpts, "interval"));
      CopyKey(deployOpts, ["wait_for_port", "min_health"], deploy, "interval", interval);
      deploy := Put(deploy, Str("interval"), interval);
    } else {
      CopyKey(deployOpts, ["wait_for_port", "min_health"], deploy, "interval", Nil);
    }
    assert ["wait_for_port", "min_health"][0] == "wait_for_port";
    assert ["wait_for_port", "min_health"][1] == "min_health";
    assert DeployKeys == ["wait_for_port", "min_health"] + ["interval"];
    return Ok(deploy);
  }

  /**
   * The entries of `src` under the keys of `keys` that it has, in the order
   * of `keys`.
   */
  function Subset(src: Dict, keys: seq<string>): Dict
    decreases |keys|
  {
    if keys == [] then []
    else
      var init := Subset(src, keys[..|keys| - 1]);
      var k := keys[|keys| - 1];
      if Has(src, k) then init + [(Str(k), At(src, k))] else init
  }

  /** The subset holds exactly the listed keys that `src` has, with their values. */
  lemma {:induction false} SubsetGet(src: Dict, keys: seq<string>, k: string)
    ensures CopiedIf(Subset(src, keys), k, k in keys && Has(src, k), At(src, k))
    decreases |keys|
  {
    if keys != [] {
      var init := keys[..|keys| - 1];
      var last := keys[|keys| - 1];
      SubsetGet(src, init, k);
      assert keys == init + [last];
      if Has(src, last) {
        GetAppend(Subset(src, init), Str(last), At(src, last), Str(k));
      }
    }
  }

  /** Only listed keys occur in the subset. */
  lemma {:induction false} SubsetKeysListed(src: Dict, keys: seq<string>, k: Value)
    requires HasKey(Subset(src, keys), k)
    ensures exists i :: 0 <= i < |keys| && k == Str(keys[i]) && Has(src, keys[i])
    decreases |keys|
  {
    var init := keys[..|keys| - 1];
    var last := keys[|keys| - 1];
    if Has(src, last) {
      GetAppend(Subset(src, init), Str(last), At(src, last), k);
    }
    if HasKey(Subset(src, init), k) {
      SubsetKeysListed(src, init, k);
      var i :| 0 <= i < |init| && k == Str(init[i]) && Has(src, init[i]);
      assert init[i] == keys[i];
    } else {
      assert k == Str(keys[|keys| - 1]);
    }
  }

  /** One more `h[k] = src[k] if src.has_key?(k)` extends the subset by `k`. */
  lemma SubsetStep(src: Dict, keys: seq<string>, k: string)
    requires k !in keys
    ensures var acc := Subset(src, keys);
      (if Has(src, k) then Put(acc, Str(k), At(src, k)) else acc) == Subset(src, keys + [k])
  {
    assert (keys + [k])[..|keys|] == keys;
    if Has(src, k) {
      SubsetGet(src, keys, k);
      PutNew(Subset(src, keys), Str(k), At(src, k));
    }
  }

  /** The `health_check` hash of `parse_data`: the six recognised keys that the health options have, copied. */
  method HealthCheck(healthOpts: Dict) returns (check: Dict)
    ensures check == Subset(healthOpts, HealthKeys)
  {
    check := [];
    for j := 0 to |HealthKeys|
      invariant check == Subset(healthOpts, HealthKeys[..j])
    {
      var k := HealthKeys[j];
      assert k !in HealthKeys[..j];
      SubsetStep(healthOpts, HealthKeys[..j], k);
      if Has(healthOpts, k) {
        check := Put(check, Str(k), At(healthOpts, k));
      }
      assert HealthKeys[..j + 1] == HealthKeys[..j] + [k];
    }
    assert HealthKeys[..|HealthKeys|] == HealthKeys;
  }

  /** The health check holds exactly the recognised keys the options have, each copied. */
  lemma HealthCheckCopies(healthOpts: Dict, k: string)
    ensures CopiedIf(Subset(healthOpts, HealthKeys), k, k in HealthKeys && Has(healthOpts, k), At(healthOpts, k))
    ensures Subset(healthOpts, HealthKeys) == [] <==> forall i :: 0 <= i < |HealthKeys| ==> !Has(healthOpts, HealthKeys[i])
  {
    SubsetGet(healthOpts, HealthKeys, k);
    forall i | 0 <= i < |HealthKeys|
      ensures Subset(healthOpts, HealthKeys) == [] ==> !Has(healthOpts, HealthKeys[i])
    {
      SubsetGet(healthOpts, HealthKeys, HealthKeys[i]);
    }
    if Subset(healthOpts, HealthKeys) != [] {
      var e := Subset(healthOpts, HealthKeys)[0];
      assert HasKey(Subset(healthOpts, HealthKeys), e.0);
      SubsetKeysListed(healthOpts, HealthKeys, e.0);
    }
  }

  // ---------------------------------------------------------------------
  // The payload
  // ---------------------------------------------------------------------

  /**
   * The payload `parse_data` builds: one field per key it may set, in the
   * order the keys are first set; `None` is a key the hash does not have.
   */
  datatype Payload = Payload(
    containerCount: Option<Value>, image: Option<Value>, env: Option<Value>,
    links: Option<Value>, externalLinks: Option<Value>, ports: Option<Value>,
    memory: Option<Value>, memorySwap: Option<Value>, cpuShares: Option<Value>,
    volumes: Option<Value>, volumesFrom: Option<Value>, cmd: Option<Value>,
    affinity: Option<Value>, user: Option<Value>, stateful: Option<Value>,
    privileged: Option<Value>, capAdd: Option<Value>, capDrop: Option<Value>,
    net: Option<Value>, pid: Option<Value>, logDriver: Option<Value>,
    logOpts: Option<Value>, strategy: Option<Value>, deployOpts: Option<Value>,
    hooks: Option<Value>, secrets: Option<Value>, build: Option<Value>,
    healthCheck: Option<Value>)

  /** The value of `x if cond`: set to `v` exactly when `cond` holds. */
  function When(cond: bool, v: Value): (r: Option<Value>)
    ensures r.Some? <==> cond
    ensures r.Some? ==> r.value == v
  {
    if cond then Some(v) else None
  }

  /** `options[key] || default` */
  function OrDefault(o: Dict, key: string, default: Value): Value
  {
    Or(At(o, key), default)
  }

  /** `v && !v.empty?`, which raises for a set value that has no `empty?`. */
  function SetAndNotEmpty(v: Value): Result<bool>
  {
    if !Truthy(v) then Ok(false)
    else
      var empty :- IsEmpty(v);
      Ok(!empty)
  }

  /** The entries of `options[key] || {}`, or none when that is not a hash. */
  function SubOptions(o: Dict, key: string): Dict
  {
    match OrDefault(o, key, Hash([]))
    case Hash(entries) => entries
    case _ => []
  }

  /** The exception of a step, if it raised one, and otherwise what the steps after it raise. */
  function Then(e: Option<RubyError>, later: Option<RubyError>): Option<RubyError>
  {
    if e.Some? then e else later
  }

  /**
   * What `parse_data` raises: the exception of the first of its steps that
   * raises, in the order the source takes them: the image, the links, the
   * external links, the ports, the two memory limits, the command,
   * `log_opt`, the deploy options and the health options.
   */
  function ParseDataError(o: Dict, h: Helpers): Option<RubyError>
  {
    Then(ErrorOf(h.ParseImage(At(o, "image"))),
    Then(ErrorOf(ParseLinks(OrDefault(o, "links", List([])))),
    Then(ErrorOf(ParseLinks(OrDefault(o, "external_links", List([])))),
    Then(ErrorOf(h.ParsePorts(OrDefault(o, "ports", List([])))),
    Then(ErrorOf(ParsedWhen(Truthy(At(o, "mem_limit")), h.ParseMemory(ToS(At(o, "mem_limit"))))),
    Then(ErrorOf(ParsedWhen(Truthy(At(o, "memswap_limit")), h.ParseMemory(ToS(At(o, "memswap_limit"))))),
    Then(ErrorOf(ParsedWhen(Truthy(At(o, "command")), h.ShellSplit(At(o, "command")))),
    Then(ErrorOf(SetAndNotEmpty(At(o, "log_opt"))),
    Then(DeployError(o, h),
    Then(HealthError(o),
         None))))))))))
  }

  /** The options `parse_data` accepts without raising: every helper answers and every option has the shape its step needs. */
  predicate Accepted(o: Dict, h: Helpers)
  {
    && h.ParseImage(At(o, "image")).Ok?
    && ParseLinks(OrDefault(o, "links", List([]))).Ok?
    && ParseLinks(OrDefault(o, "external_links", List([]))).Ok?
    && h.ParsePorts(OrDefault(o, "ports", List([]))).Ok?
    && (Truthy(At(o, "mem_limit")) ==> h.ParseMemory(ToS(At(o, "mem_limit"))).Ok?)
    && (Truthy(At(o, "memswap_limit")) ==> h.ParseMemory(ToS(At(o, "memswap_limit"))).Ok?)
    && (Truthy(At(o, "command")) ==> h.ShellSplit(At(o, "command")).Ok?)
    && SetAndNotEmpty(At(o, "log_opt")).Ok?
    && OrDefault(o, "deploy", Hash([])).Hash?
    && (Has(SubOptions(o, "deploy"), "interval") ==> h.ParseRelativeTime(At(SubOptions(o, "deploy"), "interval")).Ok?)
    && OrDefault(o, "health_check", Hash([])).Hash?
  }

  /**
   * The deploy strategy, and the deploy options only when one of their
   * three keys is there, holding exactly the keys that are.
   */
  predicate DeployCopied(strategy: Option<Value>, deployOpts: Option<Value>, o: Dict, h: Helpers)
  {
    var src := SubOptions(o, "deploy");
    && strategy == When(Truthy(At(src, "strategy")), At(src, "strategy"))
    && (deployOpts.Some? <==> Has(src, "wait_for_port") || Has(src, "min_health") || Has(src, "interval"))
    && (deployOpts.Some? ==>
          var deploy := deployOpts.value;
          && deploy.Hash? && Keys(deploy.entries) == Present(src, DeployKeys)
          && CopiedIf(deploy.entries, "wait_for_port", Has(src, "wait_for_port"), At(src, "wait_for_port"))
          && CopiedIf(deploy.entries, "min_health", Has(src, "min_health"), At(src, "min_health"))
          && ParsedIf(deploy.entries, "interval", Has(src, "interval"), h.ParseRelativeTime(At(src, "interval"))))
  }

  /**
   * What the deploy steps of `parse_data` raise: `[]` on deploy options
   * without a String index, then `has_key?` on any that are not a hash,
   * then the time parser on `interval`.
   */
  function DeployError(o: Dict, h: Helpers): Option<RubyError>
  {
    var deployValue := OrDefault(o, "deploy", Hash([]));
    match Index(deployValue, "strategy")
    case Err(e) => Some(e)
    case Ok(_) =>
      if !deployValue.Hash? then Some(NoMethodError("has_key?"))
      else if Has(deployValue.entries, "interval") then ErrorOf(h.ParseRelativeTime(At(deployValue.entries, "interval")))
      else None
  }

  /**
   * The `strategy` and `deploy_opts` keys of `parse_data`; `has_key?`
   * raises when the deploy options are not a hash (after `[]` has raised
   * first for those that have no String index), and a raise of the time
   * parser on `interval` propagates.
   */
  method DeploySettings(options: Dict, h: Helpers) returns (r: Result<(Option<Value>, Option<Value>)>)
    ensures r.Ok? <==> (OrDefault(options, "deploy", Hash([])).Hash? &&
      !(Has(SubOptions(options, "deploy"), "interval") &&
        h.ParseRelativeTime(At(SubOptions(options, "deploy"), "interval")).Err?))
    ensures ErrorOf(r) == DeployError(options, h)
    ensures r.Ok? ==> DeployCopied(r.value.0, r.value.1, options, h)
  {
    var deployValue := OrDefault(options, "deploy", Hash([]));
    var strategy :- Index(deployValue, "strategy");
    if !deployValue.Hash? {
      return Err(NoMethodError("has_key?"));
    }
    var deploy :- DeployOptions(deployValue.entries, h);
    PresentEmpty(deployValue.entries, DeployKeys);
    assert DeployKeys == ["wait_for_port", "min_health", "interval"];
    return Ok((When(Truthy(strategy), strategy), if deploy == [] then None else Some(Hash(deploy))));
  }

  /** The build options whenever a build is given: `context`, and `dockerfile` when set, and no other key. */
  predicate BuildCopied(build: Option<Value>, o: Dict)
  {
    && (build.Some? <==> Truthy(At(o, "build")))
    && (build.Some? ==>
          && build.value.Hash?
          && Keys(build.value.entries) == [Str("context")] + (if Truthy(At(o, "dockerfile")) then [Str("dockerfile")] else [])
          && CopiedIf(build.value.entries, "context", true, At(o, "build"))
          && CopiedIf(build.value.entries, "dockerfile", Truthy(At(o, "dockerfile")), At(o, "dockerfile")))
  }

  /** The `build` key of `parse_data`. */
  method BuildSetting(options: Dict) returns (build: Option<Value>)
    ensures BuildCopied(build, options)
  {
    build := None;
    if Truthy(At(options, "build")) {
      var buildOptions := ParseBuildOptions(options);
      build := Some(Hash(buildOptions));
    }
  }

  /** What the health steps of `parse_data` raise: `has_key?` on health options that are not a hash. */
  function HealthError(o: Dict): Option<RubyError>
  {
    if OrDefault(o, "health_check", Hash([])).Hash? then None else Some(NoMethodError("has_key?"))
  }

  /**
   * The `health_check` key of `parse_data`: the recognised keys the health
   * options have, left out when there are none; `has_key?` raises when the
   * health options are not a hash.
   */
  method HealthSetting(options: Dict) returns (r: Result<Option<Value>>)
    ensures r.Ok? <==> OrDefault(options, "health_check", Hash([])).Hash?
    ensures ErrorOf(r) == HealthError(options)
    ensures r.Ok? ==> var check := Subset(SubOptions(options, "health_check"), HealthKeys);
      r.value == if check == [] then None else Some(Hash(check))
  {
    var healthValue := OrDefault(options, "health_check", Hash([]));
    if !healthValue.Hash? {
      return Err(NoMethodError("has_key?"));
    }
    var check := HealthCheck(healthValue.entries);
    return Ok(if check == [] then None else Some(Hash(check)));
  }

  /** No exception comes out of the steps exactly when the options are accepted. */
  lemma ParseDataErrorNone(o: Dict, h: Helpers)
    ensures ParseDataError(o, h).None? <==> Accepted(o, h)
  {
  }

  /**
   * A command `Shellwords.split` refuses (an unmatched quote) makes
   * `parse_data` raise that error once the steps before it have passed,
   * whatever `log_opt`, deploy and health options follow.
   */
  lemma UnsplittableCommandRaises(o: Dict, h: Helpers)
    requires h.ParseImage(At(o, "image")).Ok?
    requires ParseLinks(OrDefault(o, "links", List([]))).Ok? && ParseLinks(OrDefault(o, "external_links", List([]))).Ok?
    requires h.ParsePorts(OrDefault(o, "ports", List([]))).Ok?
    requires Truthy(At(o, "mem_limit")) ==> h.ParseMemory(ToS(At(o, "mem_limit"))).Ok?
    requires Truthy(At(o, "memswap_limit")) ==> h.ParseMemory(ToS(At(o, "memswap_limit"))).Ok?
    requires Truthy(At(o, "command")) && h.ShellSplit(At(o, "command")).Err?
    ensures ParseDataError(o, h) == Some(h.ShellSplit(At(o, "command")).error)
  {
  }

  /**
   * A port list the ports parser refuses raises before any later option is
   * looked at: options that agree on the image, the links and the ports
   * raise the same error, whatever `log_opt`, deploy and health they hold.
   */
  lemma PortsRaiseBeforeLaterOptions(o: Dict, o': Dict, h: Helpers)
    requires h.ParseImage(At(o, "image")).Ok?
    requires ParseLinks(OrDefault(o, "links", List([]))).Ok? && ParseLinks(OrDefault(o, "external_links", List([]))).Ok?
    requires h.ParsePorts(OrDefault(o, "ports", List([]))).Err?
    requires At(o', "image") == At(o, "image") && At(o', "ports") == At(o, "ports")
    requires At(o', "links") == At(o, "links") && At(o', "external_links") == At(o, "external_links")
    ensures ParseDataError(o, h) == Some(h.ParsePorts(OrDefault(o, "ports", List([]))).error)
    ensures ParseDataError(o', h) == ParseDataError(o, h)
  {
  }

  /** What the raising steps of `parse_data` answer, for the assignments that follow them. */
  datatype Parsed = Parsed(
    image: Value, links: Value, externalLinks: Value, ports: seq<Port>,
    memory: Option<Value>, memorySwap: Option<Value>, cmd: Option<Value>, logOpts: bool,
    strategy: Option<Value>, deployOpts: Option<Value>, build: Option<Value>, healthCheck: Option<Value>)

  /**
   * The steps of `parse_data` that may raise, in the order the source takes
   * them: it raises at the first step that cannot handle its option (a link
   * it cannot split, a `log_opt` without `empty?`, deploy or health options
   * that are not hashes) or at which a helper raises.
   */
  method RaisingSteps(options: Dict, h: Helpers) returns (r: Result<Parsed>)
    ensures r.Ok? <==> Accepted(options, h)
    ensures ErrorOf(r) == ParseDataError(options, h)
    ensures r.Ok? ==> h.ParseImage(At(options, "image")) == Ok(r.value.image)
    ensures r.Ok? ==> Ok(r.value.links) == ParseLinks(OrDefault(options, "links", List([])))
    ensures r.Ok? ==> Ok(r.value.externalLinks) == ParseLinks(OrDefault(options, "external_links", List([])))
    ensures r.Ok? ==> h.ParsePorts(OrDefault(options, "ports", List([]))) == Ok(r.value.ports)
    ensures r.Ok? ==> ParsedWhen(Truthy(At(options, "mem_limit")), h.ParseMemory(ToS(At(options, "mem_limit")))) == Ok(r.value.memory)
    ensures r.Ok? ==> ParsedWhen(Truthy(At(options, "memswap_limit")), h.ParseMemory(ToS(At(options, "memswap_limit")))) == Ok(r.value.memorySwap)
    ensures r.Ok? ==> ParsedWhen(Truthy(At(options, "command")), h.ShellSplit(At(options, "command"))) == Ok(r.value.cmd)
    ensures r.Ok? ==> SetAndNotEmpty(At(options, "log_opt")) == Ok(r.value.logOpts)
    ensures r.Ok? ==> DeployCopied(r.value.strategy, r.value.deployOpts, options, h)
    ensures r.Ok? ==> BuildCopied(r.value.build, options)
    ensures r.Ok? ==> var check := Subset(SubOptions(options, "health_check"), HealthKeys);
      r.value.healthCheck == if check == [] then None else Some(Hash(check))
  {
    var image := h.ParseImage(At(options, "image"));
    if image.Err? { return Err(image.error); }
    var links := ParseLinks(OrDefault(options, "links", List([])));
    if links.Err? { return Err(links.error); }
    var externalLinks := ParseLinks(OrDefault(options, "external_links", List([])));
    if externalLinks.Err? { return Err(externalLinks.error); }
    var ports := h.ParsePorts(OrDefault(options, "ports", List([])));
    if ports.Err? { return Err(ports.error); }
    var memory := ParsedWhen(Truthy(At(options, "mem_limit")), h.ParseMemory(ToS(At(options, "mem_limit"))));
    if memory.Err? { return Err(memory.error); }
    var memorySwap := ParsedWhen(Truthy(At(options, "memswap_limit")), h.ParseMemory(ToS(At(options, "memswap_limit"))));
    if memorySwap.Err? { return Err(memorySwap.error); }
    var cmd := ParsedWhen(Truthy(At(options, "command")), h.ShellSplit(At(options, "command")));
    if cmd.Err? { return Err(cmd.error); }
    var logOpts := SetAndNotEmpty(At(options, "log_opt"));
    if logOpts.Err? { return Err(logOpts.error); }
    var deploy := DeploySettings(options, h);
    if deploy.Err? { return Err(deploy.error); }
    var build := BuildSetting(options);
    var healthCheck := HealthSetting(options);
    if healthCheck.Err? { return Err(healthCheck.error); }
    r := Ok(Parsed(image.value, links.value, externalLinks.value, ports.value, memory.value, memorySwap.value,
                   cmd.value, logOpts.value, deploy.value.0, deploy.value.1, build, healthCheck.value));
  }

  /**
   * parse_data: the API payload of a service. It raises what its raising
   * steps raise; otherwise each key is computed from its option.
   */
  method ParseData(options: Dict, h: Helpers) returns (r: Result<Payload>)
    ensures r.Ok? <==> Accepted(options, h)
    ensures ErrorOf(r) == ParseDataError(options, h)
    ensures h.ParseImage(At(options, "image")).Ok? && ParseLinks(OrDefault(options, "links", List([]))).Err? ==>
      r == Err(ParseLinks(OrDefault(options, "links", List([]))).error)
    // the instance count and the image are always set, the environment only when given
    ensures r.Ok? ==> r.value.containerCount == Some(At(options, "instances"))
    ensures r.Ok? ==> r.value.image.Some? && h.ParseImage(At(options, "image")) == Ok(r.value.image.value)
    ensures r.Ok? ==> r.value.env == When(Truthy(At(options, "environment")), At(options, "environment"))
    // lists that default to none
    ensures r.Ok? ==> r.value.links.Some? && Ok(r.value.links.value) == ParseLinks(OrDefault(options, "links", List([])))
    ensures r.Ok? ==> r.value.externalLinks.Some? && Ok(r.value.externalLinks.value) == ParseLinks(OrDefault(options, "external_links", List([])))
    ensures r.Ok? ==> (h.ParsePorts(OrDefault(options, "ports", List([]))).Ok? &&
      r.value.ports == Some(List(StringifiedPorts(h.ParsePorts(OrDefault(options, "ports", List([]))).value))))
    ensures r.Ok? ==> r.value.volumes == Some(OrDefault(options, "volumes", List([])))
    ensures r.Ok? ==> r.value.volumesFrom == Some(OrDefault(options, "volumes_from", List([])))
    ensures r.Ok? ==> r.value.affinity == Some(OrDefault(options, "affinity", List([])))
    ensures r.Ok? ==> r.value.hooks == Some(OrDefault(options, "hooks", Hash([])))
    // resources and the command, parsed only when given
    ensures r.Ok? ==> ParsedWhen(Truthy(At(options, "mem_limit")), h.ParseMemory(ToS(At(options, "mem_limit")))) == Ok(r.value.memory)
    ensures r.Ok? ==> ParsedWhen(Truthy(At(options, "memswap_limit")), h.ParseMemory(ToS(At(options, "memswap_limit")))) == Ok(r.value.memorySwap)
    ensures r.Ok? ==> r.value.cpuShares == When(Truthy(At(options, "cpu_shares")), At(options, "cpu_shares"))
    ensures r.Ok? ==> ParsedWhen(Truthy(At(options, "command")), h.ShellSplit(At(options, "command"))) == Ok(r.value.cmd)
    // stateful only for a literal true; privileged whenever given, false included
    ensures r.Ok? ==> r.value.stateful == Some(Bool(At(options, "stateful") == Bool(true)))
    ensures r.Ok? ==> r.value.privileged == When(!At(options, "privileged").Nil?, At(options, "privileged"))
    // copied only when given
    ensures r.Ok? ==> r.value.user == When(Truthy(At(options, "user")), At(options, "user"))
    ensures r.Ok? ==> r.value.capAdd == When(Truthy(At(options, "cap_add")), At(options, "cap_add"))
    ensures r.Ok? ==> r.value.capDrop == When(Truthy(At(options, "cap_drop")), At(options, "cap_drop"))
    ensures r.Ok? ==> r.value.net == When(Truthy(At(options, "net")), At(options, "net"))
    ensures r.Ok? ==> r.value.pid == When(Truthy(At(options, "pid")), At(options, "pid"))
    ensures r.Ok? ==> r.value.logDriver == When(Truthy(At(options, "log_driver")), At(options, "log_driver"))
    ensures r.Ok? ==> r.value.secrets == When(Truthy(At(options, "secrets")), At(options, "secrets"))
    // log options only when not empty
    ensures r.Ok? ==> r.value.logOpts == When(SetAndNotEmpty(At(options, "log_opt")) == Ok(true), At(options, "log_opt"))
    // the deploy strategy and options, the build options and the health check
    ensures r.Ok? ==> DeployCopied(r.value.strategy, r.value.deployOpts, options, h)
    ensures r.Ok? ==> BuildCopied(r.value.build, options)
    ensures r.Ok? ==> var check := Subset(SubOptions(options, "health_check"), HealthKeys);
      r.value.healthCheck == if check == [] then None else Some(Hash(check))
  {
    var p :- RaisingSteps(options, h);
    r := Ok(Payload(
      containerCount := Some(At(options, "instances")),
      image := Some(p.image),
      env := When(Truthy(At(options, "environment")), At(options, "environment")),
      links := Some(p.links),
      externalLinks := Some(p.externalLinks),
      ports := Some(List(StringifiedPorts(p.ports))),
      memory := p.memory,
      memorySwap := p.memorySwap,
      cpuShares := When(Truthy(At(options, "cpu_shares")), At(options, "cpu_shares")),
      volumes := Some(OrDefault(options, "volumes", List([]))),
      volumesFrom := Some(OrDefault(options, "volumes_from", List([]))),
      cmd := p.cmd,
      affinity := Some(OrDefault(options, "affinity", List([]))),
      user := When(Truthy(At(options, "user")), At(options, "user")),
      stateful := Some(Bool(At(options, "stateful") == Bool(true))),
      privileged := When(!At(options, "privileged").Nil?, At(options, "privileged")),
      capAdd := When(Truthy(At(options, "cap_add")), At(options, "cap_add")),
      capDrop := When(Truthy(At(options, "cap_drop")), At(options, "cap_drop")),
      net := When(Truthy(At(options, "net")), At(options, "net")),
      pid := When(Truthy(At(options, "pid")), At(options, "pid")),
      logDriver := When(Truthy(At(options, "log_driver")), At(options, "log_driver")),
      logOpts := When(p.logOpts, At(options, "log_opt")),
      strategy := p.strategy,
      deployOpts := p.deployOpts,
      hooks := Some(OrDefault(options, "hooks", Hash([]))),
      secrets := When(Truthy(At(options, "secrets")), At(options, "secrets")),
      build := p.build,
      healthCheck := p.healthCheck));
  }
}
