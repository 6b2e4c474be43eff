/** `GetKafkaListenerConfig`: from the security object to the listeners of one broker. */
module ListenerCompiler {
  import opened Wrappers
  import opened Sequences
  import opened Text
  import opened SpecValues
  import opened Security
  import opened Listeners

  function NodeAddressCmd(directory: string): string
  {
    "$(cat " + directory + "/default-address/address)"
  }

  function NodePortCmd(directory: string, portName: string): string
  {
    "$(cat " + directory + "/default-address/ports/" + portName + ")"
  }

  function PodFqdn(namespace: string, objectName: string): string
  {
    "$POD_NAME." + objectName + "." + namespace + ".svc.cluster.local"
  }

  // ---------- the reference: one row per listener ----------

  function ClientName(k: KafkaSecurity): string
  {
    if k.resolvedAuthenticationClass != "" then CLIENT_AUTH else CLIENT
  }

  predicate ClientEncrypted(k: KafkaSecurity)
  {
    k.TlsEnabled() || k.IsKerberosEnabled()
  }

  predicate InternalEncrypted(k: KafkaSecurity)
  {
    k.internalSecretClass != "" || k.IsKerberosEnabled()
  }

  function Protocol(encrypted: bool): string
  {
    if encrypted then SSL else PLAINTEXT
  }

  function Names(k: KafkaSecurity): seq<string>
  {
    [ClientName(k), INTERNAL] + if k.IsKerberosEnabled() then [BOOTSTRAP] else []
  }

  function Ports(k: KafkaSecurity): seq<int>
  {
    [k.ClientPort(), k.InternalPort()] + if k.IsKerberosEnabled() then [k.BootstrapPort()] else []
  }

  function Bound(k: KafkaSecurity): (listeners: seq<KafkaListener>)
    ensures |listeners| == |Names(k)| == |Ports(k)|
    ensures forall i | 0 <= i < |listeners| ::
              listeners[i] == KafkaListener(Names(k)[i], LISTENER_LOCAL_ADDRESS, Decimal(Ports(k)[i]))
  {
    seq(|Names(k)|, i requires 0 <= i < |Names(k)| =>
      KafkaListener(Names(k)[i], LISTENER_LOCAL_ADDRESS, Decimal(Ports(k)[i])))
  }

  /** Only the internal listener is advertised under the pod's own name and port. */
  function Advertised(namespace: string, k: KafkaSecurity, objectName: string): (listeners: seq<KafkaListener>)
    ensures |listeners| == |Names(k)|
    ensures forall i | 0 <= i < |listeners| :: listeners[i].name == Names(k)[i]
  {
    seq(|Names(k)|, i requires 0 <= i < |Names(k)| =>
      if i == 1 then KafkaListener(INTERNAL, PodFqdn(namespace, objectName), Decimal(k.InternalPort()))
      else KafkaListener(Names(k)[i], NodeAddressCmd(LISTENER_BROKER_DIR),
                         NodePortCmd(LISTENER_BROKER_DIR, k.ClientPortName())))
  }

  function Protocols(k: KafkaSecurity): map<string, string>
  {
    map[ClientName(k) := Protocol(ClientEncrypted(k)), INTERNAL := Protocol(InternalEncrypted(k))]
      + if k.IsKerberosEnabled() then map[BOOTSTRAP := SSL] else map[]
  }

  function ListenerConfig(namespace: string, k: KafkaSecurity, objectName: string): KafkaListenerConfig
  {
    KafkaListenerConfig(Bound(k), Advertised(namespace, k, objectName), Protocols(k))
  }

  // ---------- the source's branches ----------

  /** The four-way choice of the client listener. */
  method ClientListener(k: KafkaSecurity)
    returns (bound: KafkaListener, advertised: KafkaListener, protocol: string)
    ensures bound == KafkaListener(ClientName(k), LISTENER_LOCAL_ADDRESS, Decimal(k.ClientPort()))
    ensures advertised == KafkaListener(ClientName(k), NodeAddressCmd(LISTENER_BROKER_DIR),
                                        NodePortCmd(LISTENER_BROKER_DIR, k.ClientPortName()))
    ensures protocol == Protocol(ClientEncrypted(k))
  {
    var name := CLIENT;
    var port := Decimal(k.ClientPort());
    if k.resolvedAuthenticationClass != "" {
      name := CLIENT_AUTH;
      protocol := SSL;
    } else if k.IsKerberosEnabled() {
      protocol := SSL;
    } else if k.serverSecretClass != "" {
      protocol := SSL;
    } else {
      port := Decimal(CLIENT_PORT);
      protocol := PLAINTEXT;
    }
    bound := KafkaListener(name, LISTENER_LOCAL_ADDRESS, port);
    advertised := KafkaListener(name, NodeAddressCmd(LISTENER_BROKER_DIR),
                                NodePortCmd(LISTENER_BROKER_DIR, k.ClientPortName()));
  }

  method GetKafkaListenerConfig(namespace: string, k: KafkaSecurity, objectName: string)
    returns (config: KafkaListenerConfig)
    ensures config == ListenerConfig(namespace, k, objectName)
  {
    var podFqdn := PodFqdn(namespace, objectName);
    var listeners: seq<KafkaListener> := [];
    var advertisedListeners: seq<KafkaListener> := [];
    var protocols: map<string, string> := map[];

    var bound, advertised, protocol := ClientListener(k);
    listeners := listeners + [bound];
    advertisedListeners := advertisedListeners + [advertised];
    protocols := protocols[bound.name := protocol];

    var internalPort := Decimal(k.InternalPort());
    listeners := listeners + [KafkaListener(INTERNAL, LISTENER_LOCAL_ADDRESS, internalPort)];
    advertisedListeners := advertisedListeners + [KafkaListener(INTERNAL, podFqdn, internalPort)];
    if k.internalSecretClass != "" || k.IsKerberosEnabled() {
      protocols := protocols[INTERNAL := SSL];
    } else {
      protocols := protocols[INTERNAL := PLAINTEXT];
    }

    if k.IsKerberosEnabled() {
      listeners := listeners + [KafkaListener(BOOTSTRAP, LISTENER_LOCAL_ADDRESS, Decimal(k.BootstrapPort()))];
      advertisedListeners := advertisedListeners
        + [KafkaListener(BOOTSTRAP, NodeAddressCmd(LISTENER_BROKER_DIR),
                         NodePortCmd(LISTENER_BROKER_DIR, k.ClientPortName()))];
      protocols := protocols[BOOTSTRAP := SSL];
    }
    config := KafkaListenerConfig(listeners, advertisedListeners, protocols);
    assert listeners == Bound(k);
    assert advertisedListeners == Advertised(namespace, k, objectName);
    assert protocols == Protocols(k) by {
      NamesDiffer(k);
    }
  }

  /** The texts are printed from the listeners of `k`; the protocol map in any order. */
  ghost predicate LaunchedFrom(t: LaunchTexts, namespace: string, k: KafkaSecurity, objectName: string)
  {
    && t.properties == "/kubedoop/config" + "/server.properties"
    && t.listeners == ListenersText(Bound(k))
    && t.advertised == ListenersText(Advertised(namespace, k, objectName))
    && ParseProtocols(t.protocols) == Some(Protocols(k)) && Lists(t.protocols, Protocols(k))
  }

  const CONFIG_DIR := "/kubedoop/config"

  /** The arguments that `CommandArgs` hands to `LaunchCommand`, with the file that one names itself. */
  method LaunchArguments(namespace: string, k: KafkaSecurity, objectName: string) returns (t: LaunchTexts)
    ensures LaunchedFrom(t, namespace, k, objectName)
  {
    var config := GetKafkaListenerConfig(namespace, k, objectName);
    var listeners := ListenersString(config.listeners);
    var advertised := ListenersString(config.advertisedListeners);
    var protocols := ListenerSecurityProtocolMapString(config.protocols);
    t := LaunchTexts(CONFIG_DIR + "/server.properties", listeners, advertised, protocols);
    ProtocolsReadable(k);
  }

  // ---------- what every compiled configuration satisfies ----------

  /** The names agree across the two lists and the protocol map, and INTERNAL is always there. */
  lemma NamesAgree(namespace: string, k: KafkaSecurity, objectName: string)
    ensures var c := ListenerConfig(namespace, k, objectName);
            && |c.listeners| == |c.advertisedListeners|
            && (forall i | 0 <= i < |c.listeners| :: c.listeners[i].name == c.advertisedListeners[i].name)
            && NoDuplicates(Map((l: KafkaListener) => l.name, c.listeners))
            && (forall name ::
                  name in c.protocols <==> exists i :: 0 <= i < |c.listeners| && c.listeners[i].name == name)
            && Settings(k)[INTER_BROKER_LISTENER_NAME] in c.protocols
  {
    InterBrokerListenerIsInternal(k);
    NamesDiffer(k);
    forall name
      ensures name in Protocols(k) <==> exists i :: 0 <= i < |Bound(k)| && Bound(k)[i].name == name
    {
      ProtocolNames(k, name);
    }
  }

  lemma ProtocolNames(k: KafkaSecurity, name: string)
    ensures name in Protocols(k) <==> name in Names(k)
    ensures name in Names(k) <==> exists i :: 0 <= i < |Bound(k)| && Bound(k)[i].name == name
  {
    if name in Names(k) {
      var i :| 0 <= i < |Names(k)| && Names(k)[i] == name;
      assert Bound(k)[i].name == name;
    }
  }

  lemma NamesDiffer(k: KafkaSecurity)
    ensures NoDuplicates(Names(k))
  {
    assert |CLIENT| == 6 && |CLIENT_AUTH| == 11 && |INTERNAL| == 8 && |BOOTSTRAP| == 9;
  }

  /** The broker binds each port once and never the metrics port, also as printed text. */
  lemma BoundPortsDiffer(k: KafkaSecurity)
    ensures NoDuplicates(Map((l: KafkaListener) => l.port, Bound(k)))
    ensures forall l | l in Bound(k) :: l.port != Decimal(METRICS_PORT)
  {
    PortNumbersDiffer(k);
    ParseDecimalOfDecimal(METRICS_PORT);
    forall i | 0 <= i < |Ports(k)|
      ensures ParseDecimal(Decimal(Ports(k)[i])) == Some(Ports(k)[i])
    {
      ParseDecimalOfDecimal(Ports(k)[i]);
    }
  }

  lemma PortNumbersDiffer(k: KafkaSecurity)
    ensures NoDuplicates(Ports(k)) && METRICS_PORT !in Ports(k)
  {
  }

  /** The ports reserved for encrypted listeners. */
  predicate SecurePort(port: int)
  {
    port == SECURITY_CLIENT_PORT || port == SECURITY_INTERNAL_PORT || port == BOOTSTRAP_SECURE_PORT
  }

  /** Every listener speaks SSL exactly on a port reserved for it, and the client port is named for what it speaks. */
  ghost predicate PortsMatchProtocols(k: KafkaSecurity)
  {
    && (forall i | 0 <= i < |Names(k)| :: Protocols(k)[Names(k)[i]] == SSL <==> SecurePort(Ports(k)[i]))
    && (Protocols(k)[ClientName(k)] == SSL <==> k.ClientPortName() == SECURE_CLIENT_PORT_NAME)
  }

  /**
   Ports, port names and protocols are chosen by separate branches. They agree if and only if
   Kerberos is off or the user set the server secret class; the internal listener always agrees.
   */
  lemma PortsMatchProtocolsExact(cluster: ClusterConfig)
    ensures var k := NewKafkaSecurity(cluster);
            && (PortsMatchProtocols(k) <==> !KerberosOn(cluster) || ServerClass(cluster) != "")
            && (Protocols(k)[INTERNAL] == SSL <==> SecurePort(k.InternalPort()))
  {
    var k := NewKafkaSecurity(cluster);
    SecurityOfCluster(cluster);
    NamesDiffer(k);
    assert |SECURE_CLIENT_PORT_NAME| != |CLIENT_PORT_NAME|;
    assert Protocols(k)[Names(k)[0]] == Protocol(ClientEncrypted(k));
    assert Protocols(k)[Names(k)[1]] == Protocol(InternalEncrypted(k));
    assert SecurePort(Ports(k)[0]) <==> k.TlsEnabled();
  }

  /**
   The bound listeners of every cluster in the user's terms. Only the server secret class moves CLIENT
   and BOOTSTRAP to their secure ports; Kerberos or the internal class moves INTERNAL, and Kerberos
   adds BOOTSTRAP.
   */
  lemma BoundOfCluster(cluster: ClusterConfig)
    ensures var secure := ServerClass(cluster) != "";
            var internal := InternalClass(cluster) != "" || KerberosOn(cluster);
            Bound(NewKafkaSecurity(cluster))
            == [KafkaListener("CLIENT", "0.0.0.0", Decimal(if secure then 9093 else 9092)),
                KafkaListener("INTERNAL", "0.0.0.0", Decimal(if internal then 19093 else 19092))]
               + (if !KerberosOn(cluster) then []
                  else [KafkaListener("BOOTSTRAP", "0.0.0.0", Decimal(if secure then 9095 else 9094))])
  {
    SecurityOfCluster(cluster);
  }

  /**
   The protocols of every cluster in the user's terms: CLIENT is encrypted iff Kerberos is on or the
   server secret class is set, INTERNAL iff Kerberos is on or the internal one is.
   */
  lemma ProtocolsOfCluster(cluster: ClusterConfig)
    ensures var secure := ServerClass(cluster) != "" || KerberosOn(cluster);
            var internal := InternalClass(cluster) != "" || KerberosOn(cluster);
            Protocols(NewKafkaSecurity(cluster))
            == map["CLIENT" := if secure then "SSL" else "PLAINTEXT",
                   "INTERNAL" := if internal then "SSL" else "PLAINTEXT"]
               + (if KerberosOn(cluster) then map["BOOTSTRAP" := "SSL"] else map[])
  {
    SecurityOfCluster(cluster);
  }

  /** Where an advertised listener points: INTERNAL at the pod's own name and bound port, the others through files. */
  ghost predicate AdvertisedRightly(l: KafkaListener, namespace: string, cluster: ClusterConfig, objectName: string)
  {
    if l.name == "INTERNAL" then
      && l.host == "$POD_NAME." + objectName + "." + namespace + ".svc.cluster.local"
      && KafkaListener("INTERNAL", "0.0.0.0", l.port) in Bound(NewKafkaSecurity(cluster))
    else
      && l.host == "$(cat " + "/kubedoop/listener-broker" + "/default-address/address)"
      && l.port == "$(cat " + "/kubedoop/listener-broker" + "/default-address/ports/"
                   + (if ServerClass(cluster) != "" then "kafka-tls" else "kafka") + ")"
  }

  /** Every advertised listener of every cluster points there. */
  lemma AdvertisedOfCluster(namespace: string, cluster: ClusterConfig, objectName: string, i: nat)
    requires i < |Advertised(namespace, NewKafkaSecurity(cluster), objectName)|
    ensures AdvertisedRightly(Advertised(namespace, NewKafkaSecurity(cluster), objectName)[i],
                              namespace, cluster, objectName)
  {
    var k := NewKafkaSecurity(cluster);
    SecurityOfCluster(cluster);
    NamesDiffer(k);
    var l := Advertised(namespace, k, objectName)[i];
    if i == 1 {
      assert Bound(k)[1] in Bound(k);
      assert l == KafkaListener(INTERNAL, PodFqdn(namespace, objectName), Decimal(k.InternalPort()));
    } else {
      assert Names(k)[i] != Names(k)[1];
      assert l.host == NodeAddressCmd(LISTENER_BROKER_DIR);
      assert l.port == NodePortCmd(LISTENER_BROKER_DIR, k.ClientPortName());
    }
  }

  /** With Kerberos and no TLS section, CLIENT speaks SSL on port 9092 under the name of the plain port. */
  lemma KerberosOnPlainPort()
    ensures var k := NewKafkaSecurity(KERBEROS_ONLY);
            Protocols(k)[CLIENT] == SSL && k.ClientPort() == 9092 && k.ClientPortName() == "kafka"
  {
    assert UsesKerberos(NewKafkaSecurity(KERBEROS_ONLY).authentications[0]);
    NamesDiffer(NewKafkaSecurity(KERBEROS_ONLY));
  }

  lemma NamesReadable(k: KafkaSecurity)
    ensures forall i | 0 <= i < |Names(k)| :: ',' !in Names(k)[i] && ':' !in Names(k)[i]
  {
  }

  lemma BoundReadable(k: KafkaSecurity)
    ensures forall i | 0 <= i < |Bound(k)| :: Readable(Bound(k)[i])
  {
    NamesReadable(k);
    forall i | 0 <= i < |Bound(k)|
      ensures Readable(Bound(k)[i])
    {
      DecimalCharacters(Ports(k)[i]);
      NoFirstCut(Names(k)[i], SCHEME);
    }
  }

  lemma CommandsReadable(k: KafkaSecurity)
    ensures ',' !in NodeAddressCmd(LISTENER_BROKER_DIR)
    ensures ',' !in NodePortCmd(LISTENER_BROKER_DIR, k.ClientPortName())
    ensures ':' !in NodePortCmd(LISTENER_BROKER_DIR, k.ClientPortName())
  {
    assert Plain("$(cat ") && Plain(LISTENER_BROKER_DIR);
    assert Plain("/default-address/address)");
    assert Plain("/default-address/ports/") && Plain(")");
    assert Plain(k.ClientPortName());
  }

  predicate Plain(s: string)
  {
    ',' !in s && ':' !in s
  }

  lemma PodFqdnComma(namespace: string, objectName: string)
    ensures ',' in PodFqdn(namespace, objectName) <==> ',' in namespace || ',' in objectName
  {
    assert ',' !in "$POD_NAME." && ',' !in "." && ',' !in ".svc.cluster.local";
  }

  /** The advertised listeners are readable exactly when namespace and object name have no comma. */
  lemma AdvertisedReadable(namespace: string, k: KafkaSecurity, objectName: string)
    ensures (forall i | 0 <= i < |Advertised(namespace, k, objectName)| ::
               Readable(Advertised(namespace, k, objectName)[i]))
            <==> ',' !in namespace && ',' !in objectName
  {
    var advertised := Advertised(namespace, k, objectName);
    NamesReadable(k);
    CommandsReadable(k);
    PodFqdnComma(namespace, objectName);
    DecimalCharacters(k.InternalPort());
    forall i | 0 <= i < |advertised|
      ensures Readable(advertised[i]) <==> i != 1 || ',' !in PodFqdn(namespace, objectName)
    {
      NoFirstCut(Names(k)[i], SCHEME);
    }
    assert Readable(advertised[1]) <==> ',' !in PodFqdn(namespace, objectName);
  }

  lemma ProtocolsReadable(k: KafkaSecurity)
    ensures ReadableProtocols(Protocols(k))
  {
    NamesReadable(k);
    assert ',' !in SSL && ',' !in PLAINTEXT;
    assert ',' !in Names(k)[0] && ':' !in Names(k)[0] && ',' !in Names(k)[1] && ':' !in Names(k)[1];
    assert k.IsKerberosEnabled() ==> Names(k)[2] == BOOTSTRAP;
  }

  /**
   The printed lists, before the shell sees them, denote what was compiled: the bound listeners
   always, the advertised ones exactly when namespace and object name have no comma.
   */
  lemma CompiledTextsReadBack(namespace: string, k: KafkaSecurity, objectName: string)
    ensures var c := ListenerConfig(namespace, k, objectName);
            && ParseListeners(ListenersText(c.listeners)) == Some(c.listeners)
            && (ParseListeners(ListenersText(c.advertisedListeners)) == Some(c.advertisedListeners)
                <==> ',' !in namespace && ',' !in objectName)
  {
    BoundReadable(k);
    ListenersRoundTrip(Bound(k));
    AdvertisedReadable(namespace, k, objectName);
    ListenersRoundTrip(Advertised(namespace, k, objectName));
  }
}
