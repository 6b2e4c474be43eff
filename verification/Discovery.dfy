/**
 Discovery (internal/controller/discovery.go): from the status of the bootstrap listeners to the
 bootstrap-server text clients read, and the ports that must be declared for it to succeed.
 */
module Discovery {
  import opened Wrappers
  import opened Text
  import opened Security
  import opened SpecValues
  import opened Listeners
  import opened ListenerCompiler
  import opened PodVolumes

  newtype int32 = i: int | -0x8000_0000 <= i < 0x8000_0000

  datatype HostPort = HostPort(host: string, port: int32)
  datatype IngressAddress = IngressAddress(address: string, ports: map<string, int32>)

  /** The part of a Listener's status that discovery reads; `None` is a nil slice. */
  datatype Listener = Listener(ingressAddresses: Option<seq<IngressAddress>>)

  function Addresses(l: Listener): seq<IngressAddress>
  {
    if l.ingressAddresses.Some? then l.ingressAddresses.value else []
  }

  /** Every ingress address of every listener, in order. */
  function AllAddresses(listeners: seq<Listener>): seq<IngressAddress>
  {
    if listeners == [] then []
    else AllAddresses(listeners[..|listeners| - 1]) + Addresses(listeners[|listeners| - 1])
  }

  ghost predicate Exposes(addresses: seq<IngressAddress>, portName: string)
  {
    forall i | 0 <= i < |addresses| :: portName in addresses[i].ports
  }

  /** `hosts` pairs every address with its port, in order. */
  ghost predicate HostsOf(hosts: seq<HostPort>, addresses: seq<IngressAddress>, portName: string)
  {
    && |hosts| == |addresses|
    && forall i | 0 <= i < |addresses| ::
         portName in addresses[i].ports
         && hosts[i] == HostPort(addresses[i].address, addresses[i].ports[portName])
  }

  lemma ExposesPrefix(prefix: seq<Listener>, listeners: seq<Listener>, portName: string)
    requires prefix <= listeners
    requires Exposes(AllAddresses(listeners), portName)
    ensures Exposes(AllAddresses(prefix), portName)
    decreases |listeners|
  {
    if |prefix| < |listeners| {
      var shorter := listeners[..|listeners| - 1];
      var all, some := AllAddresses(listeners), AllAddresses(shorter);
      assert forall i | 0 <= i < |some| :: some[i] == all[i];
      ExposesPrefix(prefix, shorter, portName);
    } else {
      assert prefix == listeners;
    }
  }

  /** The nested loops of `listenerHosts`: an error if and only if an address lacks the port name. */
  method ListenerHosts(listeners: seq<Listener>, portName: string) returns (r: Result<seq<HostPort>>)
    ensures r.Ok? <==> Exposes(AllAddresses(listeners), portName)
    ensures r.Ok? ==> HostsOf(r.value, AllAddresses(listeners), portName)
  {
    var result: seq<HostPort> := [];
    for i := 0 to |listeners|
      invariant HostsOf(result, AllAddresses(listeners[..i]), portName)
    {
      ghost var done := AllAddresses(listeners[..i]);
      assert listeners[..i + 1][..i] == listeners[..i];
      if listeners[i].ingressAddresses.None? {
        continue;
      }
      var addresses := listeners[i].ingressAddresses.value;
      assert AllAddresses(listeners[..i + 1]) == done + addresses;
      for j := 0 to |addresses|
        invariant HostsOf(result, done + addresses[..j], portName)
      {
        if portName !in addresses[j].ports {
          assert (done + addresses)[|done| + j] == addresses[j];
          if Exposes(AllAddresses(listeners), portName) {
            ExposesPrefix(listeners[..i + 1], listeners, portName);
          }
          return Err("no service port with name " + portName);
        }
        result := result + [HostPort(addresses[j].address, addresses[j].ports[portName])];
        assert done + addresses[..j + 1] == done + addresses[..j] + [addresses[j]];
      }
      assert addresses[..|addresses|] == addresses;
    }
    assert listeners[..|listeners|] == listeners;
    return Ok(result);
  }

  // ---------- the bootstrap-server text ----------

  function HostPortText(h: HostPort): string
  {
    h.host + [':'] + Decimal(h.port as int)
  }

  function BootstrapServers(hosts: seq<HostPort>): string
  {
    Join(Map(HostPortText, hosts), ',')
  }

  method MakeBootstrapServers(hosts: seq<HostPort>) returns (s: string)
    ensures s == BootstrapServers(hosts)
  {
    var servers := [];
    for i := 0 to |hosts|
      invariant servers == Map(HostPortText, hosts[..i])
    {
      servers := servers + [hosts[i].host + ":" + Decimal(hosts[i].port as int)];
    }
    assert hosts[..|hosts|] == hosts;
    s := Join(servers, ',');
  }

  /** What a client reads: the host before the last ':' and a 32-bit port after it. */
  function ParseHostPort(s: string): (r: Option<HostPort>)
    ensures r.Some? ==> HostPortText(r.value) == s
  {
    var cut := CutLast(s, ':');
    if cut.None? then None
    else
      var port := ParseDecimal(cut.value.1);
      if port.None? || !(-0x8000_0000 <= port.value < 0x8000_0000) then None
      else Some(HostPort(cut.value.0, port.value as int32))
  }

  function ParseBootstrapServers(s: string): Option<seq<HostPort>>
  {
    ReadList(s, ',', ParseHostPort)
  }

  lemma ParseHostPortText(h: HostPort)
    ensures ParseHostPort(HostPortText(h)) == Some(h)
    ensures ',' in HostPortText(h) <==> ',' in h.host
  {
    DecimalCharacters(h.port as int);
    CutLastAt(h.host, ':', Decimal(h.port as int));
    ParseDecimalOfDecimal(h.port as int);
  }

  /** For every host list: the text is read back as the same list iff no host contains a comma. */
  lemma BootstrapServersRoundTrip(hosts: seq<HostPort>)
    ensures ParseBootstrapServers(BootstrapServers(hosts)) == Some(hosts)
            <==> forall i | 0 <= i < |hosts| :: ',' !in hosts[i].host
  {
    assert Sound(HostPortText, ParseHostPort);
    ListRoundTrip(hosts, ',', HostPortText, ParseHostPort);
    forall i | 0 <= i < |hosts|
      ensures ParseHostPort(HostPortText(hosts[i])) == Some(hosts[i])
      ensures ',' in HostPortText(hosts[i]) <==> ',' in hosts[i].host
    {
      ParseHostPortText(hosts[i]);
    }
  }

  /** Every text a client can read is the printed form of what it reads. */
  lemma ReadServersPrintBack(s: string)
    requires ParseBootstrapServers(s).Some?
    ensures BootstrapServers(ParseBootstrapServers(s).value) == s
  {
    ReadListSound(s, ',', HostPortText, ParseHostPort);
  }

  lemma BootstrapServersInjective(a: seq<HostPort>, b: seq<HostPort>)
    requires forall i | 0 <= i < |a| :: ',' !in a[i].host
    requires forall i | 0 <= i < |b| :: ',' !in b[i].host
    requires BootstrapServers(a) == BootstrapServers(b)
    ensures a == b
  {
    BootstrapServersRoundTrip(a);
    BootstrapServersRoundTrip(b);
  }

  // ---------- the builder ----------

  function DiscoveryPortName(k: KafkaSecurity): string
  {
    if k.IsKerberosEnabled() then BOOTSTRAP_PORT_NAME else k.ClientPortName()
  }

  /** A client reading `s` sees every address of every listener with its port, in order. */
  ghost predicate Discoverable(s: string, listeners: seq<Listener>, portName: string)
  {
    exists hosts :: HostsOf(hosts, AllAddresses(listeners), portName) && ParseBootstrapServers(s) == Some(hosts)
  }

  /** `DiscoveryBuilder.Build`, given the listeners the API server returned. */
  method BuildDiscovery(k: KafkaSecurity, listeners: seq<Listener>) returns (r: Result<string>)
    ensures r.Ok? <==> Exposes(AllAddresses(listeners), DiscoveryPortName(k))
    ensures r.Ok? ==>
              (Discoverable(r.value, listeners, DiscoveryPortName(k))
               <==> forall i | 0 <= i < |AllAddresses(listeners)| :: ',' !in AllAddresses(listeners)[i].address)
  {
    var portName := k.ClientPortName();
    if k.IsKerberosEnabled() {
      portName := BOOTSTRAP_PORT_NAME;
    }
    var hosts := ListenerHosts(listeners, portName);
    if hosts.Err? {
      return Err(hosts.message);
    }
    var s := MakeBootstrapServers(hosts.value);
    BootstrapServersRoundTrip(hosts.value);
    assert forall hs | HostsOf(hs, AllAddresses(listeners), portName) :: hs == hosts.value;
    return Ok(s);
  }

  // ---------- declared ports ----------

  ghost predicate Declares(ports: seq<Port>, name: string)
  {
    exists i :: 0 <= i < |ports| && ports[i].name == name
  }

  /** The text looks up one of the declared ports in the broker listener's directory. */
  ghost predicate LooksUpDeclared(text: string, ports: seq<Port>)
  {
    exists i :: 0 <= i < |ports| && text == NodePortCmd(LISTENER_BROKER_DIR, ports[i].name)
  }

  /** A bound listener uses the number of one of the declared ports. */
  ghost predicate BindsDeclared(text: string, ports: seq<Port>)
  {
    exists i :: 0 <= i < |ports| && text == Decimal(ports[i].number)
  }

  /**
   Every port name that is looked up later is declared: the one discovery asks for and the one in
   each advertised NodePort command. Except for the internal listener, which is reached inside the
   cluster, every number the broker binds is declared.
   */
  ghost predicate CoversLookups(ports: seq<Port>, k: KafkaSecurity)
  {
    && Declares(ports, DiscoveryPortName(k))
    && (forall namespace, objectName, l | l in Advertised(namespace, k, objectName) ::
          l.name == INTERNAL || LooksUpDeclared(l.port, ports))
    && (forall l | l in Bound(k) :: l.name == INTERNAL || BindsDeclared(l.port, ports))
  }

  /** The port is declared for this listener, under its name and with the number the listener binds. */
  predicate DeclaredFor(p: Port, l: KafkaListener, client: string)
  {
    p.name == (if l.name == "BOOTSTRAP" then "bootstrap" else client) && Decimal(p.number) == l.port
  }

  /**
   Each external listener has its port, declared under its name with its number; beside those only
   the metrics port is declared. All are TCP, and no name or number is declared twice.
   */
  ghost predicate PortsExact(ports: seq<Port>, k: KafkaSecurity)
  {
    && ListenersDeclared(ports, Bound(k), k.ClientPortName()) && OnlyDeclared(ports, Bound(k), k.ClientPortName())
    && Declares(ports, "metrics")
    && (forall i | 0 <= i < |ports| :: ports[i].protocol == "TCP")
    && DistinctPorts(ports)
  }

  ghost predicate ListenersDeclared(ports: seq<Port>, bound: seq<KafkaListener>, client: string)
  {
    forall i | 0 <= i < |bound| && bound[i].name != "INTERNAL" ::
      exists j :: 0 <= j < |ports| && DeclaredFor(ports[j], bound[i], client)
  }

  ghost predicate OnlyDeclared(ports: seq<Port>, bound: seq<KafkaListener>, client: string)
  {
    forall j | 0 <= j < |ports| ::
      || (ports[j].name == "metrics" && ports[j].number == 9606)
      || exists i :: 0 <= i < |bound| && bound[i].name != "INTERNAL" && DeclaredFor(ports[j], bound[i], client)
  }

  ghost predicate DistinctPorts(ports: seq<Port>)
  {
    forall i, j | 0 <= i < j < |ports| :: ports[i].name != ports[j].name && ports[i].number != ports[j].number
  }

  /** `KafkaContainerPorts`: what is declared pairs names with bound numbers and covers every lookup. */
  method KafkaContainerPorts(k: KafkaSecurity) returns (ports: seq<Port>)
    ensures CoversLookups(ports, k) && PortsExact(ports, k)
  {
    ports := [Port(k.ClientPortName(), k.ClientPort(), "TCP"), Port(METRICS_PORT_NAME, METRICS_PORT, "TCP")];
    if k.IsKerberosEnabled() {
      ports := ports + [Port(BOOTSTRAP_PORT_NAME, k.BootstrapPort(), "TCP")];
    }
    assert ports[0] == Port(k.ClientPortName(), k.ClientPort(), "TCP");
    assert ports[1] == Port(METRICS_PORT_NAME, METRICS_PORT, "TCP");
    assert k.IsKerberosEnabled() ==> ports[2] == Port(BOOTSTRAP_PORT_NAME, k.BootstrapPort(), "TCP");
    DeclaredPortsCover(k, ports);
    DeclaredPortsExact(k, ports);
  }

  lemma PortNamesDiffer(k: KafkaSecurity)
    ensures k.ClientPortName() != "metrics" && k.ClientPortName() != "bootstrap" && "metrics" != "bootstrap"
  {
    assert "metrics"[0] == 'm' && "bootstrap"[0] == 'b' && k.ClientPortName()[0] == 'k';
  }

  /** The listeners in order: the client's, INTERNAL, and BOOTSTRAP under Kerberos. */
  lemma ListenerAt(k: KafkaSecurity, i: nat)
    requires i < |Bound(k)|
    ensures |Bound(k)| == if k.IsKerberosEnabled() then 3 else 2
    ensures Bound(k)[i].name == "INTERNAL" <==> i == 1
    ensures Bound(k)[i].name == "BOOTSTRAP" <==> i == 2
    ensures Bound(k)[i] in Bound(k) && Bound(k)[i].port == Decimal(Ports(k)[i])
  {
    assert |CLIENT| == 6 && |CLIENT_AUTH| == 11 && |INTERNAL| == 8 && |BOOTSTRAP| == 9;
  }

  /** The ports in the order of the listeners, with the metrics port in the place of INTERNAL. */
  predicate InOrder(ports: seq<Port>, k: KafkaSecurity)
  {
    && |ports| == |Bound(k)| && ports[0] == Port(k.ClientPortName(), k.ClientPort(), "TCP")
    && ports[1] == Port(METRICS_PORT_NAME, METRICS_PORT, "TCP")
    && (k.IsKerberosEnabled() ==> ports[2] == Port(BOOTSTRAP_PORT_NAME, k.BootstrapPort(), "TCP"))
  }

  lemma PortsDistinct(k: KafkaSecurity, ports: seq<Port>)
    requires InOrder(ports, k)
    ensures DistinctPorts(ports)
  {
    PortNamesDiffer(k);
    assert k.ClientPort() != METRICS_PORT && k.ClientPort() != k.BootstrapPort() && k.BootstrapPort() != METRICS_PORT;
  }

  lemma DeclaredPairs(ports: seq<Port>, bound: seq<KafkaListener>, client: string)
    requires |ports| == |bound| > 1 && ports[1].name == "metrics" && ports[1].number == 9606
    requires forall i | 0 <= i < |bound| :: bound[i].name == "INTERNAL" <==> i == 1
    requires forall i | 0 <= i < |bound| && i != 1 :: DeclaredFor(ports[i], bound[i], client)
    ensures ListenersDeclared(ports, bound, client) && OnlyDeclared(ports, bound, client)
  {
    forall j | 0 <= j < |ports| && j != 1
      ensures exists i :: 0 <= i < |bound| && bound[i].name != "INTERNAL" && DeclaredFor(ports[j], bound[i], client)
    {
      assert DeclaredFor(ports[j], bound[j], client);
    }
  }

  lemma DeclaredPortsExact(k: KafkaSecurity, ports: seq<Port>)
    requires InOrder(ports, k)
    ensures PortsExact(ports, k)
  {
    assert ports[1].name == "metrics" && ports[1].number == 9606;
    forall i | 0 <= i < |Bound(k)|
      ensures Bound(k)[i].name == "INTERNAL" <==> i == 1
      ensures i != 1 ==> DeclaredFor(ports[i], Bound(k)[i], k.ClientPortName())
    {
      ListenerAt(k, i);
    }
    DeclaredPairs(ports, Bound(k), k.ClientPortName());
    PortsDistinct(k, ports);
  }

  lemma DiscoveryPortBound(ports: seq<Port>, bound: seq<KafkaListener>, client: string, kerberos: bool, i: nat)
    requires OnlyDeclared(ports, bound, client) && client != "bootstrap" && client != "metrics" && i < |ports|
    requires |bound| == (if kerberos then 3 else 2) && ports[i].name == if kerberos then "bootstrap" else client
    requires forall j | 0 <= j < |bound| ::
               (bound[j].name == "INTERNAL" <==> j == 1) && (bound[j].name == "BOOTSTRAP" <==> j == 2)
    ensures bound[if kerberos then 2 else 0].port == Decimal(ports[i].number)
  {
    assert "metrics"[0] != "bootstrap"[0];
    var j :| 0 <= j < |bound| && bound[j].name != "INTERNAL" && DeclaredFor(ports[i], bound[j], client);
  }

  lemma ListenersInOrder(k: KafkaSecurity)
    ensures |Bound(k)| == if k.IsKerberosEnabled() then 3 else 2
    ensures forall j | 0 <= j < |Bound(k)| ::
              (Bound(k)[j].name == "INTERNAL" <==> j == 1) && (Bound(k)[j].name == "BOOTSTRAP" <==> j == 2)
  {
    forall j | 0 <= j < |Bound(k)|
      ensures (Bound(k)[j].name == "INTERNAL" <==> j == 1) && (Bound(k)[j].name == "BOOTSTRAP" <==> j == 2)
    {
      ListenerAt(k, j);
    }
    ListenerAt(k, 0);
  }

  lemma DiscoveryPort(k: KafkaSecurity, ports: seq<Port>, i: nat)
    requires PortsExact(ports, k) && i < |ports| && ports[i].name == DiscoveryPortName(k)
    ensures Bound(k)[if k.IsKerberosEnabled() then 2 else 0].port == Decimal(ports[i].number)
  {
    PortNamesDiffer(k);
    ListenersInOrder(k);
    DiscoveryPortBound(ports, Bound(k), k.ClientPortName(), k.IsKerberosEnabled(), i);
  }

  /** The port that discovery publishes is the one BOOTSTRAP binds under Kerberos, else the one CLIENT binds. */
  lemma DiscoveryLeadsToListener(cluster: ClusterConfig, ports: seq<Port>, i: nat)
    requires PortsExact(ports, NewKafkaSecurity(cluster))
    requires i < |ports| && ports[i].name == DiscoveryPortName(NewKafkaSecurity(cluster))
    ensures KafkaListener(if KerberosOn(cluster) then "BOOTSTRAP" else "CLIENT", "0.0.0.0", Decimal(ports[i].number))
            in Bound(NewKafkaSecurity(cluster))
  {
    var k := NewKafkaSecurity(cluster);
    SecurityOfCluster(cluster);
    DiscoveryPort(k, ports, i);
    assert Bound(k)[if KerberosOn(cluster) then 2 else 0] in Bound(k);
  }

  lemma PortCmdInjective(a: string, b: string)
    requires NodePortCmd(LISTENER_BROKER_DIR, a) == NodePortCmd(LISTENER_BROKER_DIR, b)
    ensures a == b
  {
    var head := "$(cat " + LISTENER_BROKER_DIR + "/default-address/ports/";
    assert a == NodePortCmd(LISTENER_BROKER_DIR, a)[|head|..|head| + |a|];
    assert b == NodePortCmd(LISTENER_BROKER_DIR, b)[|head|..|head| + |b|];
  }

  /** The port behind the name that the text looks up is the one that `bound` binds. */
  ghost predicate LeadsTo(text: string, ports: seq<Port>, bound: KafkaListener)
  {
    exists i :: 0 <= i < |ports| && text == NodePortCmd(LISTENER_BROKER_DIR, ports[i].name)
             && Decimal(ports[i].number) == bound.port
  }

  lemma LeadsToFirst(ports: seq<Port>, bound: seq<KafkaListener>, client: string, i: nat)
    requires ListenersDeclared(ports, bound, client) && DistinctPorts(ports)
    requires i < |bound| && bound[0].name != "INTERNAL" && bound[0].name != "BOOTSTRAP"
    ensures LeadsTo(NodePortCmd(LISTENER_BROKER_DIR, client), ports, bound[i]) <==> bound[i].port == bound[0].port
  {
    var j :| 0 <= j < |ports| && DeclaredFor(ports[j], bound[0], client);
    if LeadsTo(NodePortCmd(LISTENER_BROKER_DIR, client), ports, bound[i]) {
      var l :| 0 <= l < |ports| && Decimal(ports[l].number) == bound[i].port
            && NodePortCmd(LISTENER_BROKER_DIR, client) == NodePortCmd(LISTENER_BROKER_DIR, ports[l].name);
      PortCmdInjective(client, ports[l].name);
    }
  }

  lemma ClientPortApart(k: KafkaSecurity, i: nat)
    requires i < |Bound(k)|
    ensures Bound(k)[i].port == Bound(k)[0].port <==> i == 0
  {
    PortNumbersDiffer(k);
    ParseDecimalOfDecimal(Ports(k)[0]);
    ParseDecimalOfDecimal(Ports(k)[i]);
  }

  /**
   Every external listener is advertised with the declared port it binds, except BOOTSTRAP, which is
   advertised with the port of the client listener.
   */
  lemma AdvertisedPortBoundIff(namespace: string, k: KafkaSecurity, objectName: string, ports: seq<Port>, i: nat)
    requires PortsExact(ports, k) && i < |Names(k)| && Names(k)[i] != INTERNAL
    ensures LeadsTo(Advertised(namespace, k, objectName)[i].port, ports, Bound(k)[i]) <==> Names(k)[i] != BOOTSTRAP
  {
    ListenersInOrder(k);
    LeadsToFirst(ports, Bound(k), k.ClientPortName(), i);
    ClientPortApart(k, i);
    assert Bound(k)[i].name == Names(k)[i];
  }

  /** Declaring the client port, and under Kerberos the bootstrap port, is enough. */
  lemma DeclaredPortsCover(k: KafkaSecurity, ports: seq<Port>)
    requires exists i :: 0 <= i < |ports| && ports[i].name == k.ClientPortName() && ports[i].number == k.ClientPort()
    requires k.IsKerberosEnabled() ==>
               exists i :: && 0 <= i < |ports| && ports[i].name == BOOTSTRAP_PORT_NAME
                           && ports[i].number == k.BootstrapPort()
    ensures CoversLookups(ports, k)
  {
    forall namespace, objectName, l | l in Advertised(namespace, k, objectName)
      ensures l.name == INTERNAL || LooksUpDeclared(l.port, ports)
    {
      var i :| 0 <= i < |Advertised(namespace, k, objectName)| && Advertised(namespace, k, objectName)[i] == l;
    }
    forall l | l in Bound(k)
      ensures l.name == INTERNAL || BindsDeclared(l.port, ports)
    {
      var i :| 0 <= i < |Bound(k)| && Bound(k)[i] == l;
      assert i == 0 || i == 1 || i == 2;
    }
  }

  /** `containerPortToListenerPort`: the Listener object declares the container's ports. */
  method ContainerPortToListenerPort(ports: seq<Port>) returns (declared: seq<Port>)
    ensures declared == ports
  {
    declared := [];
    for i := 0 to |ports|
      invariant declared == ports[..i]
    {
      declared := declared + [Port(ports[i].name, ports[i].number, ports[i].protocol)];
    }
  }

  ghost predicate ExposesAll(listeners: seq<Listener>, ports: seq<Port>)
  {
    forall p | p in ports :: Exposes(AllAddresses(listeners), p.name)
  }

  /** The ports of the bootstrap Listener: if every ingress address exposes them, discovery cannot fail. */
  method ListenerPorts(k: KafkaSecurity) returns (declared: seq<Port>)
    ensures CoversLookups(declared, k) && PortsExact(declared, k)
    ensures forall listeners | ExposesAll(listeners, declared) :: Exposes(AllAddresses(listeners), DiscoveryPortName(k))
  {
    var ports := KafkaContainerPorts(k);
    declared := ContainerPortToListenerPort(ports);
    forall listeners | ExposesAll(listeners, declared)
      ensures Exposes(AllAddresses(listeners), DiscoveryPortName(k))
    {
      DiscoverySucceeds(k, declared, listeners);
    }
  }

  /** The Listener object that a role group registers. */
  datatype BootstrapListener = BootstrapListener(name: string, className: string, ports: seq<Port>)

  /** `NewRoleGroupBootstrapListenerReconciler`: the object that the group's listener claim names. */
  method BuildListener(fullName: string, bootstrapListenerClass: string, k: KafkaSecurity)
    returns (listener: BootstrapListener)
    ensures listener.name == fullName + "-bootstrap" && listener.className == bootstrapListenerClass
    ensures CoversLookups(listener.ports, k) && PortsExact(listener.ports, k)
  {
    var ports := ListenerPorts(k);
    listener := BootstrapListener(BootstrapListenerName(fullName), bootstrapListenerClass, ports);
  }

  /** The format that clients expect. */
  lemma ServersAsDocumented(h: HostPort, g: HostPort)
    ensures BootstrapServers([h, g])
         == h.host + ":" + Decimal(h.port as int) + ("," + (g.host + ":" + Decimal(g.port as int)))
  {
    JoinTwo(HostPortText(h), HostPortText(g));
    assert Map(HostPortText, [h, g]) == [HostPortText(h), HostPortText(g)];
  }

  /** If every ingress address exposes ports that cover the lookups, discovery cannot fail, for any listener list. */
  lemma DiscoverySucceeds(k: KafkaSecurity, declared: seq<Port>, listeners: seq<Listener>)
    requires CoversLookups(declared, k) && ExposesAll(listeners, declared)
    ensures Exposes(AllAddresses(listeners), DiscoveryPortName(k))
  {
    var i :| 0 <= i < |declared| && declared[i].name == DiscoveryPortName(k);
    assert declared[i] in declared;
  }
}
