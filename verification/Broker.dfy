/**
 One broker, end to end: what Kafka reads from the launch command's three listener overrides, once
 the shell has expanded them, and from server.properties, and the StatefulSet it runs in. `Coherent`
 and `StoresPresent` speak only of the texts and properties a broker sees, not of how they were made.
 */
module Broker {
  import opened Wrappers
  import opened Sequences
  import opened Text
  import opened SpecValues
  import opened Objects
  import opened ConfigMerge
  import opened Security
  import opened Listeners
  import opened ListenerCompiler
  import opened Shell
  import opened ResolvedListeners
  import opened PodVolumes
  import opened ServerProperties
  import opened StatefulSetBuilder
  import opened Discovery

  /** The texts that `sh -c` passes to the broker. */
  function Expanded(t: LaunchTexts, env: Environment): LaunchTexts
  {
    LaunchTexts(t.properties, Expand(t.listeners, env), Expand(t.advertised, env), Expand(t.protocols, env))
  }

  /** What a broker reads, if it can read all three. */
  function Read(t: LaunchTexts): Option<KafkaListenerConfig>
  {
    var listeners, advertised := ParseListeners(t.listeners), ParseListeners(t.advertised);
    var protocols := ParseProtocols(t.protocols);
    if listeners.None? || advertised.None? || protocols.None? then None
    else Some(KafkaListenerConfig(listeners.value, advertised.value, protocols.value))
  }

  /**
   The listeners agree with each other and with the properties: the same names in both lists, each
   once and with a protocol; each port bound once; the inter-broker listener exists.
   */
  ghost predicate Agrees(c: KafkaListenerConfig, server: Properties)
  {
    && |c.listeners| == |c.advertisedListeners|
    && (forall i | 0 <= i < |c.listeners| :: c.listeners[i].name == c.advertisedListeners[i].name)
    && NoDuplicates(Map((l: KafkaListener) => l.name, c.listeners))
    && NoDuplicates(Map((l: KafkaListener) => l.port, c.listeners))
    && (forall name :: name in c.protocols <==> exists i :: 0 <= i < |c.listeners| && c.listeners[i].name == name)
    && INTER_BROKER_LISTENER_NAME in server && server[INTER_BROKER_LISTENER_NAME] in c.protocols
  }

  /** The texts are readable, and what they say agrees. */
  ghost predicate Coherent(t: LaunchTexts, server: Properties)
  {
    Read(t).Some? && Agrees(Read(t).value, server)
  }

  /** Every listener read as SSL finds its six store settings, pointing into a mounted keystore of its own class. */
  ghost predicate StoresPresent(t: LaunchTexts, server: Properties, cluster: ClusterConfig)
  {
    && Read(t).Some?
    && forall name | name in Read(t).value.protocols && Read(t).value.protocols[name] == SSL ::
         StoresServed(server, NewKafkaSecurity(cluster), name, ClassFor(cluster, name), StorePassword(cluster))
  }

  /** Whatever the user overrides, a readable launch is coherent with server.properties. */
  lemma LaunchIsCoherent(namespace: string, k: KafkaSecurity, objectName: string, env: Environment, user: Properties,
                         t: LaunchTexts)
    requires Read(t) == Some(ResolvedConfig(namespace, k, objectName, env))
    ensures Coherent(t, EffectiveServerProperties(user, k))
  {
    ResolvedAgrees(namespace, k, objectName, env, user);
  }

  lemma ResolvedAgrees(namespace: string, k: KafkaSecurity, objectName: string, env: Environment, user: Properties)
    ensures Agrees(ResolvedConfig(namespace, k, objectName, env), EffectiveServerProperties(user, k))
  {
    NamesAgree(namespace, k, objectName);
    BoundPortsDiffer(k);
    InterBrokerListenerIsInternal(k);
    ServerPrecedence(user, k, INTER_BROKER_LISTENER_NAME);
  }

  lemma ExpandedReadBack(namespace: string, k: KafkaSecurity, objectName: string, env: Environment, t: LaunchTexts)
    requires Literal(namespace) && Literal(objectName)
    requires LaunchedFrom(t, namespace, k, objectName)
    ensures Read(Expanded(t, env)) == Some(ResolvedConfig(namespace, k, objectName, env))
            <==> ',' !in namespace && ',' !in objectName && Clean(k, env)
  {
    BoundStays(k, env);
    AdvertisedExpands(namespace, k, objectName, env);
    ProtocolsStay(k, t.protocols, env);
    BoundReadable(k);
    ListenersRoundTrip(Bound(k));
    ResolvedReadable(namespace, k, objectName, env);
    ListenersRoundTrip(Resolved(namespace, k, objectName, env));
  }

  /**
   The listener part of `CommandArgs`, for names without shell characters. In every container, what
   the broker reads is what was compiled, with address, port and pod name filled in, exactly when
   the names and the container's values do not contain the list's punctuation; and then no user
   override makes it incoherent.
   */
  method Launch(namespace: string, k: KafkaSecurity, objectName: string) returns (t: LaunchTexts)
    ensures Literal(namespace) && Literal(objectName) ==>
              forall env ::
                Read(Expanded(t, env)) == Some(ResolvedConfig(namespace, k, objectName, env))
                <==> ',' !in namespace && ',' !in objectName && Clean(k, env)
    ensures Literal(namespace) && Literal(objectName) && ',' !in namespace && ',' !in objectName ==>
              forall env, user | Clean(k, env) :: Coherent(Expanded(t, env), EffectiveServerProperties(user, k))
  {
    t := LaunchArguments(namespace, k, objectName);
    if Literal(namespace) && Literal(objectName) {
      forall env
        ensures Read(Expanded(t, env)) == Some(ResolvedConfig(namespace, k, objectName, env))
                <==> ',' !in namespace && ',' !in objectName && Clean(k, env)
      {
        ExpandedReadBack(namespace, k, objectName, env, t);
      }
      forall env, user | Clean(k, env) && ',' !in namespace && ',' !in objectName
        ensures Coherent(Expanded(t, env), EffectiveServerProperties(user, k))
      {
        LaunchIsCoherent(namespace, k, objectName, env, user, Expanded(t, env));
      }
    }
  }

  // ---------- keystores ----------

  /** The user's server.properties sets no store of any listener. */
  ghost predicate NoStores(user: Properties)
  {
    forall name: string, item: StoreItem :: SslKey(Lower(name), item.Text()) !in user
  }

  /**
   Every SSL listener the broker reads has its stores if Kerberos is off or both secret classes are
   set; and only then, unless the user sets stores by hand.
   */
  lemma LaunchHasStores(namespace: string, cluster: ClusterConfig, objectName: string, env: Environment,
                        user: Properties, t: LaunchTexts)
    requires Read(t) == Some(ResolvedConfig(namespace, NewKafkaSecurity(cluster), objectName, env))
    ensures var server := EffectiveServerProperties(user, NewKafkaSecurity(cluster));
            && (CompleteTls(cluster) ==> StoresPresent(t, server, cluster))
            && (NoStores(user) ==> (StoresPresent(t, server, cluster) <==> CompleteTls(cluster)))
  {
    var k := NewKafkaSecurity(cluster);
    if CompleteTls(cluster) {
      forall name | name in Protocols(k) && Protocols(k)[name] == SSL
        ensures StoresServed(EffectiveServerProperties(user, k), k, name, ClassFor(cluster, name),
                             StorePassword(cluster))
      {
        CompleteTlsServes(cluster, name);
        ServedInEffectiveProperties(k, user, name, ClassFor(cluster, name), StorePassword(cluster));
      }
    } else if NoStores(user) {
      var name := IncompleteTlsLeaves(cluster);
      UnservedInEffectiveProperties(k, user, name, ClassFor(cluster, name), StorePassword(cluster));
    }
  }

  /** A listener without a store directory is not served, unless the user sets its stores. */
  lemma UnservedInEffectiveProperties(k: KafkaSecurity, user: Properties, name: string, secretClass: string,
                                      password: string)
    requires Lower(name) !in StoreDirs(k) && NoStores(user)
    ensures !StoresServed(EffectiveServerProperties(user, k), k, name, secretClass, password)
  {
    var key := SslKey(Lower(name), KeystoreLocation.Text());
    SettingsExact(k, Lower(name), KeystoreLocation);
    DefaultsHoldNoStores(Lower(name), KeystoreLocation);
    ServerPrecedence(user, k, key);
    assert key !in EffectiveServerProperties(user, k);
  }

  lemma DefaultsHoldNoStores(segment: string, item: StoreItem)
    ensures SslKey(segment, item.Text()) !in DEFAULT_SERVER
  {
    var key := SslKey(segment, item.Text());
    assert key[0] == 'l' && key[1] == 'i';
    assert "log.dirs"[1] == 'o';
    assert "zookeeper.connection.timeout.ms"[0] == 'z' && "controlled.shutdown.enable"[0] == 'c';
  }

  /** Store settings in a mounted directory survive whatever the user writes into server.properties. */
  lemma ServedInEffectiveProperties(k: KafkaSecurity, user: Properties, name: string, secretClass: string,
                                    password: string)
    requires StoresServed(Settings(k), k, name, secretClass, password)
    ensures StoresServed(EffectiveServerProperties(user, k), k, name, secretClass, password)
  {
    var server := EffectiveServerProperties(user, k);
    var dir :| MountedKeystore(k, dir, secretClass, password) && StoresIn(Settings(k), password, dir, name);
    forall item: StoreItem
      ensures SslKey(Lower(name), item.Text()) in server
      ensures server[SslKey(Lower(name), item.Text())] == item.Expected(dir, password)
    {
      ServerPrecedence(user, k, SslKey(Lower(name), item.Text()));
    }
    assert StoresIn(server, password, dir, name);
  }

  // ---------- one role group, from the user's configuration to its objects ----------

  /** The storage behind a broker's data: what the user set, else the default. */
  function StorageOf(user: BrokersConfig, d: KafkaDefaults): Option<StorageResource>
  {
    if user.roleGroupConfig.Some? && user.roleGroupConfig.value.resources.Some?
       && user.roleGroupConfig.value.resources.value.storage.Some?
    then user.roleGroupConfig.value.resources.value.storage else d.resources.storage
  }

  /** That storage is claimed; without any, as before a merge, it would be two gibibytes. */
  lemma StorageReachesClaim(user: BrokersConfig, d: KafkaDefaults)
    requires CompleteDefaults(d)
    ensures var c := FilledConfig(user, d);
            Some(DataStorage(c.roleGroupConfig.value.resources.value)) == StorageOf(user, d)
    ensures DataStorage(SpecValues.Resources(None, None, None)) == StorageResource(2 * 1024 * 1024 * 1024, "")
  {
  }

  /** The value of a field: the user's, else the default. */
  function Chosen(user: string, default: string): string
  {
    if user != "" then user else default
  }

  /**
   Merging, then the ConfigMap, the StatefulSet and the Listener, each reconciled on its own. Whatever
   the user left out, this panics exactly when one of the two property files is given as a nil map or
   logging is given without the agent's flag. Otherwise the ConfigMap fails exactly when the library
   cannot render a file, or the log agent is on and the aggregator is not named or the library cannot
   render the agent's configuration; the StatefulSet fails exactly when the library does. Storage and
   listener classes are the user's, else the defaults. What is built is stated for any sharing of the
   user's maps.
   */
  method Assemble(cluster: ClusterConfig, namespace: string, clusterName: string, roleGroup: string,
                  mergedConfig: BrokersConfigSpec?, overrides: OverridesSpec?, defaults: KafkaDefaults,
                  log4j: Result<string>, vector: Result<string>, marshals: Properties -> bool, sidecar: Sidecar,
                  error: LibraryError)
    returns (outcome: Outcome, data: Result<ConfigData>, sts: Result<StatefulSet>, listener: BootstrapListener,
             ghost late: bool)
    requires CompleteDefaults(defaults)
    modifies BrokersConfigRepr(mergedConfig), OverridesRepr(overrides)
    ensures outcome.Panicked? <==>
              NilFile(old(GivenFiles(overrides))) || LoggingWithoutFlag(old(GivenConfig(mergedConfig)))
    ensures outcome.Returned? ==>
              var on := AgentOn(FilledConfig(old(GivenConfig(mergedConfig)), defaults));
              var user, oneMap := old(GivenFiles(overrides)), OneMapAt(old(GivenMaps(overrides)));
              var server := GroupServer(defaults, user, oneMap, NewKafkaSecurity(cluster));
              var security := GroupSecurity(defaults, user, oneMap, NewKafkaSecurity(cluster), late);
              && (data.Err? <==>
                    || log4j.Err? || !marshals(server) || !marshals(security)
                    || (on && (cluster.vectorAggregatorConfigMapName == "" || vector.Err?)))
              && (data.Ok? ==>
                    && data.value.server == server && data.value.security == Some(security)
                    && data.value.log4j == log4j.value && data.value.vector == if on then vector.value else "")
    ensures outcome.Returned? ==>
              var k, user := NewKafkaSecurity(cluster), old(GivenConfig(mergedConfig));
              var fullName, on := FullName(clusterName, roleGroup), AgentOn(FilledConfig(user, defaults));
              && (sts.Ok? <==> error.None?)
              && (sts.Ok? ==>
                    && sts.value.name == sts.value.serviceName == fullName
                    && sts.value.serviceAccountName == clusterName
                    && sts.value.containers.Length > 0
                    && IsBroker(sts.value.containers[0], namespace, k, fullName)
                    && sts.value.containers[1..] == (if on then [sidecar.container] else [])
                    && sts.value.volumes
                       == PodVolumesOf(k, fullName, Chosen(user.brokerListenerClass, defaults.brokerListenerClass),
                                       if on then sidecar.volumes else [])
                    && StorageOf(user, defaults).Some?
                    && sts.value.claims == Claims(fullName, StorageOf(user, defaults).value))
              && listener.name == fullName + "-bootstrap"
              && listener.className == Chosen(user.bootstrapListenerClass, defaults.bootstrapListenerClass)
              && CoversLookups(listener.ports, k) && PortsExact(listener.ports, k)
  {
    sts, listener := Err(""), BootstrapListener("", "", []);
    ghost var user := GivenConfig(mergedConfig);
    var config;
    var lib := Library(log4j, cluster.vectorAggregatorConfigMapName, vector, marshals);
    outcome, config, data, late := CompileRoleGroup(mergedConfig, overrides, defaults, NewKafkaSecurity(cluster), lib);
    if outcome.Returned? {
      assert BrokersConfigValue(config).value == FilledConfig(user, defaults);
      StorageReachesClaim(user, defaults);
      outcome, sts := Build(cluster, namespace, clusterName, roleGroup, config, sidecar, error);
      listener := BuildListener(FullName(clusterName, roleGroup), config.bootstrapListenerClass,
                                NewKafkaSecurity(cluster));
    }
  }
}
