/**
 * The agent's weave worker: it keeps the overlay attachment and the DNS
 * records of a container in step with the events of the container runtime
 * and of the weave router.
 *
 * The worker's collaborators (the network adapter, the runtime's container
 * lookup, the DNS registrar and the destroy handler) are parameters; every
 * call the worker makes, to them or to its own handlers, is recorded in a
 * call trace, so that "called exactly once" and "never called" are facts
 * about that trace.
 */
module WeaveWorker {
  import opened RubyStrings

  /** A runtime event: the container id, its status and, for a restart, the image it ran. */
  datatype Event = Event(id: string, status: string, from: Option<string>)

  /**
   * The container snapshot the worker reads: its overlay address
   * (`overlay_cidr`), the domain name of its config, and the labels among
   * those the worker reads that it carries.
   */
  datatype Container = Container(
    id: string,
    overlayCidr: Option<string>,
    domainName: string,
    labels: map<LabelKey, string>)

  /** `overlay_ip`: the address of the overlay CIDR, the text before its `/`. */
  function OverlayIp(c: Container): Option<string>
  {
    match c.overlayCidr
    case Some(cidr) => Some(TakeUntil(cidr, '/'))
    case None => None
  }

  /** `overlay_suffix`: the prefix length of the overlay CIDR, the text after its `/`. */
  function OverlaySuffix(c: Container): Option<string>
  {
    match c.overlayCidr
    case Some(cidr) => Some(AfterFirst(cidr, '/'))
    case None => None
  }

  /** The prefix length under which older agents allocated overlay addresses. */
  const OlderPrefix := "19"

  /** A container whose overlay address is of the older form, under `/19`. */
  predicate IsOlderForm(c: Container)
  {
    OverlaySuffix(c) == Some(OlderPrefix)
  }

  /** A call the worker makes. */
  datatype Call =
    | Started                                                // the worker's own `start`
    | StartingContainer(container: Container)                // `start_container(container)`
    | AttachingOverlay(container: Container)                 // `attach_overlay(container)`
    | RegisteringDns(container: Container)                   // `register_container_dns(container)`
    | DestroyHandled(event: Event)                           // `on_container_destroy(event)`
    | AttachContainer(id: string, cidr: string)              // `network_adapter.attach_container`
    | MigrateContainer(id: string, cidr: string)             // `network_adapter.migrate_container`
    | AddDns(id: string, ip: Option<string>, name: string)   // `add_dns(id, ip, name)`

  /** The network adapter as the worker queries it. */
  datatype Adapter = Adapter(running: bool, routerImage: string -> bool)
  {
    /** `network_adapter.router_image?(image)` */
    predicate IsRouterImage(image: string) { routerImage(image) }
  }

  /** `Docker::Container.get(id)`, with `None` for a container it cannot find. */
  datatype Runtime = Runtime(get: string -> Option<Container>)
  {
    function Lookup(id: string): Option<Container> { get(id) }
  }

  /** The container labels the worker reads. */
  datatype LabelKey = StackLabel | GridLabel | ServiceLabel | InstanceLabel | ContainerLabel | ExposedLabel

  /** The name each label has on the container. */
  function LabelName(k: LabelKey): string
  {
    match k
    case StackLabel => "io.kontena.stack.name"
    case GridLabel => "io.kontena.grid.name"
    case ServiceLabel => "io.kontena.service.name"
    case InstanceLabel => "io.kontena.service.instance_number"
    case ContainerLabel => "io.kontena.container.name"
    case ExposedLabel => "io.kontena.service.exposed"
  }

  /** The value of a label interpolated into a name: an absent label reads as empty. */
  function Label(c: Container, key: LabelKey): string
  {
    if key in c.labels then c.labels[key] else ""
  }

  /** The default stack: no stack label, or the stack label `null`. */
  predicate IsDefaultStack(c: Container)
  {
    StackLabel !in c.labels || c.labels[StackLabel] == "null"
  }

  /** A service is exposed when its exposed label is set. */
  predicate Exposed(c: Container)
  {
    ExposedLabel in c.labels
  }

  /** The DNS zone of all grids. */
  const LocalDomain := "kontena.local"

  /** `<grid>.kontena.local`, the zone of the container's grid. */
  function GridDomain(c: Container): string
  {
    Label(c, GridLabel) + "." + LocalDomain
  }

  /**
   * The names `register_container_dns` registers: the container and the
   * service under the container's domain; for the default stack the same two
   * under `kontena.local`; for an exposed service of a named stack, the
   * stack and the stack instance under the grid's domain.
   */
  function DnsNames(c: Container): seq<string>
  {
    var container := Label(c, ContainerLabel);
    var service := Label(c, ServiceLabel);
    var base := [container + "." + c.domainName, service + "." + c.domainName];
    if IsDefaultStack(c) then
      base + [container + "." + LocalDomain, service + "." + LocalDomain]
    else if Exposed(c) then
      var stack := Label(c, StackLabel);
      base + [stack + "." + GridDomain(c), stack + "-" + Label(c, InstanceLabel) + "." + GridDomain(c)]
    else
      base
  }

  /** One `add_dns` per name, with the container's id and overlay IP. */
  function DnsCalls(c: Container): (calls: seq<Call>)
    ensures |calls| == |DnsNames(c)|
    ensures forall i :: 0 <= i < |calls| ==> calls[i] == AddDns(c.id, OverlayIp(c), DnsNames(c)[i])
  {
    var names := DnsNames(c);
    seq(|names|, i requires 0 <= i < |names| => AddDns(c.id, OverlayIp(c), names[i]))
  }

  /**
   * The one adapter call of `attach_overlay`: a container of the older form
   * migrates to its address under the canonical `/16`; any other container
   * is attached with its CIDR as it is.
   */
  function OverlayCall(c: Container): (call: Call)
    requires c.overlayCidr.Some?
    ensures call.MigrateContainer? <==> IsOlderForm(c)
    ensures call.AttachContainer? || call.MigrateContainer?
    ensures call.id == c.id
    ensures call.MigrateContainer? ==> call.cidr == OverlayIp(c).value + "/16"
    ensures call.AttachContainer? ==> call.cidr == c.overlayCidr.value
  {
    if IsOlderForm(c) then MigrateContainer(c.id, OverlayIp(c).value + "/16")
    else AttachContainer(c.id, c.overlayCidr.value)
  }

  /** The calls of `start_container`: attach and register only a container with an overlay CIDR. */
  function StartContainerCalls(c: Container): seq<Call>
  {
    [StartingContainer(c)] +
    if c.overlayCidr.Some? then [AttachingOverlay(c), OverlayCall(c), RegisteringDns(c)] + DnsCalls(c)
    else []
  }

  /**
   * The calls of `on_container_event`: a restart of the router image starts
   * the worker whether or not the adapter runs; otherwise nothing happens
   * while the adapter is not running; a start event starts the container the
   * runtime finds, and a destroy event goes to the destroy handler.
   */
  function EventCalls(adapter: Adapter, runtime: Runtime, e: Event): seq<Call>
  {
    if e.status == "restart" && e.from.Some? && adapter.IsRouterImage(e.from.value) then [Started]
    else if !adapter.running then []
    else if e.status == "start" then
      match runtime.Lookup(e.id)
      case Some(c) => StartContainerCalls(c)
      case None => []
    else if e.status == "destroy" then [DestroyHandled(e)]
    else []
  }

  class Worker {
    const adapter: Adapter
    const runtime: Runtime
    /** Every call made so far, in order. */
    var trace: seq<Call>

    constructor (adapter: Adapter, runtime: Runtime)
      ensures this.adapter == adapter && this.runtime == runtime
      ensures trace == []
    {
      this.adapter := adapter;
      this.runtime := runtime;
      trace := [];
    }

    /** `start`, whose body is not part of this model. */
    method Start()
      modifies this
      ensures trace == old(trace) + [Started]
    {
      trace := trace + [Started];
    }

    /** `on_weave_start`: any router event starts the worker, whatever it holds. */
    method OnWeaveStart(topic: string, event: Event)
      modifies this
      ensures trace == old(trace) + [Started]
    {
      Start();
    }

    /** `on_container_destroy`, whose body is not part of this model. */
    method OnContainerDestroy(event: Event)
      modifies this
      ensures trace == old(trace) + [DestroyHandled(event)]
    {
      trace := trace + [DestroyHandled(event)];
    }

    /** `add_dns`, handing one record to the DNS registrar. */
    method AddDnsRecord(id: string, ip: Option<string>, name: string)
      modifies this
      ensures trace == old(trace) + [AddDns(id, ip, name)]
    {
      trace := trace + [AddDns(id, ip, name)];
    }

    /** `attach_overlay` */
    method AttachOverlay(c: Container)
      requires c.overlayCidr.Some?
      modifies this
      ensures trace == old(trace) + [AttachingOverlay(c), OverlayCall(c)]
    {
      trace := trace + [AttachingOverlay(c)];
      if OverlaySuffix(c) == Some(OlderPrefix) {
        trace := trace + [MigrateContainer(c.id, OverlayIp(c).value + "/16")];
      } else {
        trace := trace + [AttachContainer(c.id, c.overlayCidr.value)];
      }
    }

    /** `register_container_dns`: one `add_dns` per name, in order. */
    method RegisterContainerDns(c: Container)
      modifies this
      ensures trace == old(trace) + [RegisteringDns(c)] + DnsCalls(c)
    {
      trace := trace + [RegisteringDns(c)];
      var names := DnsNames(c);
      for i := 0 to |names|
        invariant trace == old(trace) + [RegisteringDns(c)] + DnsCalls(c)[..i]
      {
        AddDnsRecord(c.id, OverlayIp(c), names[i]);
        assert DnsCalls(c)[..i + 1] == DnsCalls(c)[..i] + [AddDns(c.id, OverlayIp(c), names[i])];
      }
      assert DnsCalls(c)[..|names|] == DnsCalls(c);
    }

    /** `start_container` */
    method StartContainer(c: Container)
      modifies this
      ensures trace == old(trace) + StartContainerCalls(c)
    {
      trace := trace + [StartingContainer(c)];
      if c.overlayCidr.Some? {
        AttachOverlay(c);
        RegisterContainerDns(c);
      }
    }

    /** `on_container_event` */
    method OnContainerEvent(topic: string, event: Event)
      modifies this
      ensures trace == old(trace) + EventCalls(adapter, runtime, event)
    {
      if event.status == "restart" && event.from.Some? && adapter.IsRouterImage(event.from.value) {
        Start();
      } else if !adapter.running {
      } else if event.status == "start" {
        var container := runtime.Lookup(event.id);
        if container.Some? {
          StartContainer(container.value);
        }
      } else if event.status == "destroy" {
        OnContainerDestroy(event);
      }
    }
  }

  // ---------------------------------------------------------------------
  // The event dispatcher
  // ---------------------------------------------------------------------

  /** The calls an adapter attach or migrate makes to the network adapter. */
  predicate IsAdapterCall(call: Call)
  {
    call.AttachContainer? || call.MigrateContainer?
  }

  /** How many calls of `calls` are adapter attach or migrate calls. */
  function AdapterCalls(calls: seq<Call>): nat
    decreases |calls|
  {
    if calls == [] then 0
    else (if IsAdapterCall(calls[0]) then 1 else 0) + AdapterCalls(calls[1..])
  }

  lemma {:induction false} AdapterCallsConcat(a: seq<Call>, b: seq<Call>)
    ensures AdapterCalls(a + b) == AdapterCalls(a) + AdapterCalls(b)
    decreases |a|
  {
    if a != [] {
      assert (a + b)[0] == a[0];
      assert (a + b)[1..] == a[1..] + b;
      AdapterCallsConcat(a[1..], b);
    } else {
      assert a + b == b;
    }
  }

  /** `add_dns` makes no adapter call. */
  lemma {:induction false} NoAdapterCallsInDns(calls: seq<Call>)
    requires forall i :: 0 <= i < |calls| ==> calls[i].AddDns?
    ensures AdapterCalls(calls) == 0
    decreases |calls|
  {
    if calls != [] {
      NoAdapterCallsInDns(calls[1..]);
    }
  }

  /** A call that occurs at `i` and nowhere else occurs exactly once. */
  lemma OnceAt(calls: seq<Call>, i: nat)
    requires i < |calls|
    requires forall k :: 0 <= k < |calls| && k != i ==> calls[k] != calls[i]
    ensures multiset(calls)[calls[i]] == 1
  {
    assert calls == calls[..i] + [calls[i]] + calls[i + 1..];
    assert calls[i] !in calls[..i];
    assert calls[i] !in calls[i + 1..];
  }

  /** `start_container` announces its container first and starts no other. */
  lemma StartsOnlyFirst(c: Container)
    ensures StartContainerCalls(c)[0] == StartingContainer(c)
    ensures forall k :: 1 <= k < |StartContainerCalls(c)| ==> !StartContainerCalls(c)[k].StartingContainer?
  {
    var calls := StartContainerCalls(c);
    if c.overlayCidr.Some? {
      var dns := DnsCalls(c);
      forall k | 1 <= k < |calls|
        ensures !calls[k].StartingContainer?
      {
        if k >= 4 {
          assert calls[k] == dns[k - 4];
        }
      }
    }
  }

  /** A start event with a running adapter starts the container the runtime finds, exactly once. */
  lemma StartEventStartsContainerOnce(adapter: Adapter, runtime: Runtime, e: Event, c: Container)
    requires adapter.running && e.status == "start" && runtime.Lookup(e.id) == Some(c)
    ensures multiset(EventCalls(adapter, runtime, e))[StartingContainer(c)] == 1
    ensures forall other :: other != c ==> StartingContainer(other) !in EventCalls(adapter, runtime, e)
  {
    var calls := StartContainerCalls(c);
    assert EventCalls(adapter, runtime, e) == calls;
    StartsOnlyFirst(c);
    OnceAt(calls, 0);
  }

  /** A destroy event with a running adapter only reaches the destroy handler, once. */
  lemma DestroyEventHandledOnce(adapter: Adapter, runtime: Runtime, e: Event)
    requires adapter.running && e.status == "destroy"
    ensures EventCalls(adapter, runtime, e) == [DestroyHandled(e)]
  {
  }

  /** A restart of the router image starts the worker once, even while the adapter is not running. */
  lemma RouterRestartStartsOnce(adapter: Adapter, runtime: Runtime, e: Event)
    requires e.status == "restart" && e.from.Some? && adapter.IsRouterImage(e.from.value)
    ensures EventCalls(adapter, runtime, e) == [Started]
  {
  }

  /** While the adapter is not running, no other event does anything. */
  lemma StoppedAdapterIgnoresEvents(adapter: Adapter, runtime: Runtime, e: Event)
    requires !adapter.running
    requires !(e.status == "restart" && e.from.Some? && adapter.IsRouterImage(e.from.value))
    ensures EventCalls(adapter, runtime, e) == []
  {
  }

  // ---------------------------------------------------------------------
  // start_container and attach_overlay
  // ---------------------------------------------------------------------

  /** A container without an overlay CIDR is neither attached nor registered. */
  lemma NoOverlayNoCalls(c: Container)
    requires c.overlayCidr.None?
    ensures AttachingOverlay(c) !in StartContainerCalls(c)
    ensures RegisteringDns(c) !in StartContainerCalls(c)
    ensures AdapterCalls(StartContainerCalls(c)) == 0
    ensures forall call :: call in StartContainerCalls(c) ==> !call.AddDns?
  {
  }

  /** The attach-and-register head of `start_container` followed by `add_dns` calls makes one adapter call. */
  lemma {:induction false} OneAdapterCall(c: Container, dns: seq<Call>)
    requires c.overlayCidr.Some?
    requires forall i :: 0 <= i < |dns| ==> dns[i].AddDns?
    ensures AdapterCalls([StartingContainer(c), AttachingOverlay(c), OverlayCall(c), RegisteringDns(c)] + dns) == 1
  {
    var head := [StartingContainer(c), AttachingOverlay(c), OverlayCall(c), RegisteringDns(c)];
    assert head == [StartingContainer(c)] + [AttachingOverlay(c)] + [OverlayCall(c)] + [RegisteringDns(c)];
    AdapterCallsConcat([StartingContainer(c)] + [AttachingOverlay(c)] + [OverlayCall(c)], [RegisteringDns(c)]);
    AdapterCallsConcat([StartingContainer(c)] + [AttachingOverlay(c)], [OverlayCall(c)]);
    AdapterCallsConcat([StartingContainer(c)], [AttachingOverlay(c)]);
    AdapterCallsConcat(head, dns);
    NoAdapterCallsInDns(dns);
  }

  /**
   * A container with an overlay CIDR is attached and registered, and gets
   * exactly one adapter call, the one `OverlayCall` chooses.
   */
  lemma OverlayAttachedAndRegistered(c: Container)
    requires c.overlayCidr.Some?
    ensures AttachingOverlay(c) in StartContainerCalls(c)
    ensures RegisteringDns(c) in StartContainerCalls(c)
    ensures AdapterCalls(StartContainerCalls(c)) == 1
    ensures OverlayCall(c) in StartContainerCalls(c)
  {
    var calls := StartContainerCalls(c);
    assert calls == [StartingContainer(c), AttachingOverlay(c), OverlayCall(c), RegisteringDns(c)] + DnsCalls(c);
    assert calls[1] == AttachingOverlay(c) && calls[2] == OverlayCall(c) && calls[3] == RegisteringDns(c);
    OneAdapterCall(c, DnsCalls(c));
  }

  /** The address and the prefix length of `<address>/<prefix>`. */
  lemma CidrParts(c: Container, address: string, prefix: string)
    requires c.overlayCidr == Some(address + "/" + prefix) && '/' !in address
    ensures OverlayIp(c) == Some(address) && OverlaySuffix(c) == Some(prefix)
  {
    assert address + "/" + prefix == address + ['/'] + prefix;
    TakeUntilConcat(address, '/', prefix);
    AfterFirstConcat(address, '/', prefix);
  }

  /** A container of the older form migrates with its address under `/16`: the old `/19` is dropped. */
  lemma MigrationKeepsAddress(c: Container, address: string)
    requires c.overlayCidr == Some(address + "/" + OlderPrefix) && '/' !in address
    ensures OverlayCall(c) == MigrateContainer(c.id, address + "/16")
  {
    CidrParts(c, address, OlderPrefix);
  }

  /** A container under any other prefix is attached with its CIDR as it is. */
  lemma AttachKeepsCidr(c: Container, address: string, prefix: string)
    requires c.overlayCidr == Some(address + "/" + prefix) && '/' !in address && prefix != OlderPrefix
    ensures OverlayCall(c) == AttachContainer(c.id, address + "/" + prefix)
  {
    CidrParts(c, address, prefix);
  }

  /** Every `add_dns` of a container carries the address of its overlay CIDR. */
  lemma DnsAddressOfCidr(c: Container, address: string, prefix: string)
    requires c.overlayCidr == Some(address + "/" + prefix) && '/' !in address
    ensures forall call <- DnsCalls(c) :: call.AddDns? && call.ip == Some(address)
  {
    CidrParts(c, address, prefix);
  }

  /** The new container of the attach test is attached with its CIDR as it is. */
  lemma AttachScenario()
    ensures OverlayCall(Container("12345", Some("10.81.128.1/16"), "", map[]))
         == AttachContainer("12345", "10.81.128.1/16")
  {
    assert "10.81.128.1/16" == "10.81.128.1" + "/" + "16";
    AttachKeepsCidr(Container("12345", Some("10.81.128.1/16"), "", map[]), "10.81.128.1", "16");
  }

  /** The old container of the migrate test moves from `/19` to `/16`. */
  lemma MigrateScenario()
    ensures OverlayCall(Container("12345", Some("10.81.1.1" + "/19"), "", map[]))
         == MigrateContainer("12345", "10.81.1.1" + "/16")
  {
    assert "10.81.1.1" + "/19" == "10.81.1.1" + "/" + OlderPrefix;
    assert '/' !in "10.81.1.1";
    MigrationKeepsAddress(Container("12345", Some("10.81.1.1" + "/19"), "", map[]), "10.81.1.1");
  }

  // ---------------------------------------------------------------------
  // register_container_dns
  // ---------------------------------------------------------------------

  /** Two names for a named stack that is not exposed, four otherwise. */
  lemma DnsNameCount(c: Container)
    ensures |DnsCalls(c)| == if !IsDefaultStack(c) && !Exposed(c) then 2 else 4
  {
  }

  /** The names of a container of the default stack. */
  lemma DefaultStackNames(c: Container)
    requires IsDefaultStack(c)
    ensures var container, service := Label(c, ContainerLabel), Label(c, ServiceLabel);
      DnsNames(c) == [container + "." + c.domainName, service + "." + c.domainName,
                      container + "." + LocalDomain, service + "." + LocalDomain]
  {
  }

  /** The names of a container of a named stack. */
  lemma NamedStackNames(c: Container)
    requires !IsDefaultStack(c)
    ensures var container, service := Label(c, ContainerLabel), Label(c, ServiceLabel);
      var stack, grid := Label(c, StackLabel), Label(c, GridLabel);
      DnsNames(c) == [container + "." + c.domainName, service + "." + c.domainName] +
        if Exposed(c) then [stack + "." + GridDomain(c), stack + "-" + Label(c, InstanceLabel) + "." + GridDomain(c)]
        else []
  {
  }

  /** Names `<label>.<rest>` with dot-free labels differ when their labels or their rests do. */
  lemma NamesApart(a: string, b: string, ra: string, rb: string)
    requires '.' !in a && '.' !in b
    requires a != b || ra != rb
    ensures a + "." + ra != b + "." + rb
  {
    if a + "." + ra == b + "." + rb {
      TakeUntilConcat(a, '.', ra);
      TakeUntilConcat(b, '.', rb);
      AfterFirstConcat(a, '.', ra);
      AfterFirstConcat(b, '.', rb);
    }
  }

  /**
   * The labels the names are built from are single DNS labels, the container
   * and the service are named apart, and the domain of the container is the
   * one of its stack: `<grid>.kontena.local` for the default stack,
   * `<stack>.<grid>.kontena.local` for a named one.
   */
  predicate WellNamed(c: Container)
  {
    var grid := Label(c, GridLabel);
    && '.' !in Label(c, ContainerLabel) && '.' !in Label(c, ServiceLabel)
    && '.' !in Label(c, StackLabel) && '.' !in Label(c, InstanceLabel)
    && Label(c, ContainerLabel) != Label(c, ServiceLabel)
    && c.domainName == if IsDefaultStack(c) then GridDomain(c) else Label(c, StackLabel) + "." + GridDomain(c)
  }

  /** No two names in `names` coincide. */
  predicate Distinct(names: seq<string>)
  {
    forall i, j :: 0 <= i < j < |names| ==> names[i] != names[j]
  }

  /** The four names of a well-named container of the default stack are distinct. */
  lemma DefaultStackNamesDistinct(c: Container)
    requires WellNamed(c) && IsDefaultStack(c)
    ensures Distinct(DnsNames(c))
  {
    DefaultStackNames(c);
    var container, service := Label(c, ContainerLabel), Label(c, ServiceLabel);
    var local := LocalDomain;
    assert |c.domainName| > |local|;
    NamesApart(container, service, c.domainName, c.domainName);
    NamesApart(container, container, c.domainName, local);
    NamesApart(container, service, c.domainName, local);
    NamesApart(service, container, c.domainName, local);
    NamesApart(service, service, c.domainName, local);
    NamesApart(container, service, local, local);
  }

  /** The names of a well-named container of a named stack are distinct, exposed or not. */
  lemma NamedStackNamesDistinct(c: Container)
    requires WellNamed(c) && !IsDefaultStack(c)
    ensures Distinct(DnsNames(c))
  {
    NamedStackNames(c);
    var container, service := Label(c, ContainerLabel), Label(c, ServiceLabel);
    var stack, grid := Label(c, StackLabel), Label(c, GridLabel);
    NamesApart(container, service, c.domainName, c.domainName);
    if Exposed(c) {
      var instance := stack + "-" + Label(c, InstanceLabel);
      var gridDomain := GridDomain(c);
      assert |c.domainName| > |gridDomain|;
      assert '.' !in instance;
      assert |stack| < |instance|;
      NamesApart(container, stack, c.domainName, gridDomain);
      NamesApart(container, instance, c.domainName, gridDomain);
      NamesApart(service, stack, c.domainName, gridDomain);
      NamesApart(service, instance, c.domainName, gridDomain);
      NamesApart(stack, instance, gridDomain, gridDomain);
    }
  }

  /** For a well-named container the names never coincide, so each is registered exactly once. */
  lemma DnsNamesDistinct(c: Container)
    requires WellNamed(c)
    ensures Distinct(DnsNames(c))
  {
    if IsDefaultStack(c) {
      DefaultStackNamesDistinct(c);
    } else {
      NamedStackNamesDistinct(c);
    }
  }

  /** Every name of a well-named container goes to `add_dns` exactly once. */
  lemma DnsRegisteredOnce(c: Container, name: string)
    requires WellNamed(c) && name in DnsNames(c)
    ensures multiset(DnsCalls(c))[AddDns(c.id, OverlayIp(c), name)] == 1
  {
    var names := DnsNames(c);
    DnsNamesDistinct(c);
    var calls := DnsCalls(c);
    var i :| 0 <= i < |names| && names[i] == name;
    forall k | 0 <= k < |calls| && k != i
      ensures calls[k] != calls[i]
    {
      assert names[k] != names[i] by {
        if k < i {} else {}
      }
    }
    OnceAt(calls, i);
  }


  /** The container of the default-stack test. */
  const DefaultStackRedis := Container("12345", Some("10.81.1.1/16"), "foo.kontena.local",
    map[StackLabel := "null", GridLabel := "foo", ServiceLabel := "redis",
        InstanceLabel := "2", ContainerLabel := "redis-2"])

  /** The container of the named-stack tests, exposed or not. */
  function CustomStackRedis(exposed: bool): Container
  {
    var labels := map[StackLabel := "custom", GridLabel := "foo", ServiceLabel := "redis",
                      InstanceLabel := "2", ContainerLabel := "redis-2"];
    Container("12345", Some("10.81.1.1/16"), "custom.foo.kontena.local",
      if exposed then labels[ExposedLabel := "1"] else labels)
  }

  /**
   * The default stack registers four names, under the grid's domain and
   * under `kontena.local`, each with the address `10.81.1.1`.
   */
  lemma DefaultStackScenario()
    ensures DnsNames(DefaultStackRedis) ==
      ["redis-2" + "." + "foo.kontena.local", "redis" + "." + "foo.kontena.local",
       "redis-2" + "." + "kontena.local", "redis" + "." + "kontena.local"]
    ensures forall call <- DnsCalls(DefaultStackRedis) :: call.AddDns? && call.ip == Some("10.81.1.1")
  {
    DefaultStackNames(DefaultStackRedis);
    assert "10.81.1.1/16" == "10.81.1.1" + "/" + "16";
    DnsAddressOfCidr(DefaultStackRedis, "10.81.1.1", "16");
  }

  /** A named stack that is not exposed registers two names, under the stack's domain. */
  lemma NamedStackScenario()
    ensures DnsNames(CustomStackRedis(false)) ==
      ["redis-2" + "." + "custom.foo.kontena.local", "redis" + "." + "custom.foo.kontena.local"]
  {
    NamedStackNames(CustomStackRedis(false));
  }

  /** An exposed service of a named stack adds the stack and the stack instance under the grid's domain. */
  lemma ExposedStackScenario()
    ensures DnsNames(CustomStackRedis(true)) ==
      ["redis-2" + "." + "custom.foo.kontena.local", "redis" + "." + "custom.foo.kontena.local",
       "custom" + "." + ("foo" + "." + "kontena.local"), "custom" + "-" + "2" + "." + ("foo" + "." + "kontena.local")]
  {
    NamedStackNames(CustomStackRedis(true));
  }
}
