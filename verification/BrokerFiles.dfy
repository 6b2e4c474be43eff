/**
 Where the files of a broker come from. Several stages name paths on their own: the launch command
 (internal/controller/container.go), the default properties (internal/controller/cluster_config.go),
 the store settings (internal/security/security.go) and the listener commands
 (internal/util/listener_volume.go). Each path has to lie in a mount of the right volume or claim.
 */
module BrokerFiles {
  import opened Wrappers
  import opened Text
  import opened SpecValues
  import opened ConfigMerge
  import opened Security
  import opened Listeners
  import opened ListenerCompiler
  import opened ResolvedListeners
  import opened SecretVolume
  import opened PodVolumes
  import opened StatefulSetBuilder

  // ---------- at most one mount ----------

  /** The file lies in this directory or below it. */
  predicate Under(path: string, dir: string)
  {
    dir + "/" <= path
  }

  /** Directly below "/kubedoop". */
  predicate TopLevel(dir: string)
  {
    |dir| > 10 && forall i | 10 <= i < |dir| :: dir[i] != '/'
  }

  lemma OneDirectory(path: string, a: string, b: string)
    requires TopLevel(a) && TopLevel(b) && Under(path, a) && Under(path, b)
    ensures a == b
  {
    assert path[..|a|] == a && path[|a|] == '/' by {
      assert (a + "/")[|a|] == '/';
    }
    assert path[..|b|] == b && path[|b|] == '/' by {
      assert (b + "/")[|b|] == '/';
    }
  }

  lemma ShortPathsTopLevel()
    ensures TopLevel("/kubedoop/data") && TopLevel("/kubedoop/config") && TopLevel("/kubedoop/log")
  {
  }

  lemma LongPathsTopLevel()
    ensures TopLevel("/kubedoop/log_config") && TopLevel("/kubedoop/listener-broker")
    ensures TopLevel("/kubedoop/listener-bootstrap")
  {
  }

  lemma BasePathsTopLevel()
    ensures forall i | 0 <= i < |BaseMounts()| :: TopLevel(BaseMounts()[i].path)
  {
    ShortPathsTopLevel();
    LongPathsTopLevel();
  }

  lemma OptionalPathsTopLevel()
    ensures TopLevel("/kubedoop/kerberos") && TopLevel("/kubedoop/tls_keystore_server")
    ensures TopLevel("/kubedoop/tls_keystore_internal")
  {
  }

  lemma PathsTopLevel(k: KafkaSecurity, i: nat)
    requires i < |KafkaMounts(k)|
    ensures TopLevel(KafkaMounts(k)[i].path)
  {
    BasePathsTopLevel();
    OptionalPathsTopLevel();
  }

  /** For every path whatever, at most one mount of the kafka container covers it. */
  lemma MountsNeverOverlap(k: KafkaSecurity, path: string, i: nat, j: nat)
    requires i < |KafkaMounts(k)| && j < |KafkaMounts(k)|
    requires Under(path, KafkaMounts(k)[i].path) && Under(path, KafkaMounts(k)[j].path)
    ensures i == j
  {
    PathsTopLevel(k, i);
    PathsTopLevel(k, j);
    OneDirectory(path, KafkaMounts(k)[i].path, KafkaMounts(k)[j].path);
    MountPathsDistinct(k);
    assert MountPaths(KafkaMounts(k))[i] == MountPaths(KafkaMounts(k))[j];
  }

  // ---------- what is mounted where ----------

  datatype Provider = FromVolume(source: VolumeSource) | FromClaim(claim: Claim)

  predicate Provides(volumes: seq<Volume>, claims: seq<Claim>, name: string, p: Provider)
  {
    match p
    case FromVolume(source) => Volume(name, source) in volumes
    case FromClaim(claim) => claim in claims && claim.name == name
  }

  /** The secret that the first Kerberos entry names, for the service "kafka" and both listener volumes. */
  ghost predicate IsKerberosSecret(source: VolumeSource, cluster: ClusterConfig)
  {
    && source.EphemeralSecret? && source.annotations.Some?
    && var a := source.annotations.value;
       && a.Keys == {SecretsClass, SecretsScope, SecretsKerberosServiceNames}
       && (exists i: nat :: IsFirstKerberos(Authentications(cluster), i)
                         && a[SecretsClass] == Authentications(cluster)[i].kerberos.value.kerberosSecretClass)
       && a[SecretsKerberosServiceNames] == "kafka"
       && Split(a[SecretsScope], ',') == ["listener-volume=listener-broker", "listener-volume=listener-bootstrap"]
  }

  /** What a broker keeps or reads, by directory. */
  datatype Use =
    | Data | Config | Log | LogConfig | BrokerListener | GroupListener | KerberosFiles | ServerStores | InternalStores
  {
    function Dir(): string
    {
      match this
      case Data => "/kubedoop/data"
      case Config => "/kubedoop/config"
      case Log => "/kubedoop/log"
      case LogConfig => "/kubedoop/log_config"
      case BrokerListener => "/kubedoop/listener-broker"
      case GroupListener => "/kubedoop/listener-bootstrap"
      case KerberosFiles => "/kubedoop/kerberos"
      case ServerStores => "/kubedoop/tls_keystore_server"
      case InternalStores => "/kubedoop/tls_keystore_internal"
    }

    predicate Needed(cluster: ClusterConfig)
    {
      match this
      case KerberosFiles => KerberosOn(cluster)
      case ServerStores => ServerClass(cluster) != ""
      case InternalStores => InternalClass(cluster) != ""
      case _ => true
    }

    /** Data on the claimed storage, logs on scratch space, files of the group's own ConfigMap, and so on. */
    ghost predicate Right(p: Provider, cluster: ClusterConfig, fullName: string, listenerClass: string,
                          storage: StorageResource)
    {
      match this
      case Data => p.FromClaim? && p.claim.DataClaim? && p.claim.storage == storage
      case Config => p == FromVolume(ConfigMap(fullName))
      case Log => p == FromVolume(EmptyDir)
      case LogConfig => p == FromVolume(ConfigMap(fullName))
      case BrokerListener => p == FromVolume(EphemeralListener(ListenerClass(listenerClass)))
      case GroupListener =>
        p.FromClaim? && p.claim.ListenerClaim? && p.claim.annotation == ListenerName(fullName + "-bootstrap")
      case KerberosFiles => p.FromVolume? && IsKerberosSecret(p.source, cluster)
      case ServerStores => p.FromVolume? && IsKeystore(p.source, ServerClass(cluster), StorePassword(cluster))
      case InternalStores => p.FromVolume? && IsKeystore(p.source, InternalClass(cluster), StorePassword(cluster))
    }
  }

  /** The path lies in exactly one mount, and what is mounted there is right for this use. */
  ghost predicate Provided(path: string, use: Use, cluster: ClusterConfig, fullName: string, listenerClass: string,
                           storage: StorageResource, agent: seq<Volume>)
  {
    var k := NewKafkaSecurity(cluster);
    exists i, p ::
      && OnlyMount(k, path, i) && use.Right(p, cluster, fullName, listenerClass, storage)
      && Provides(PodVolumesOf(k, fullName, listenerClass, agent), Claims(fullName, storage), KafkaMounts(k)[i].name, p)
  }

  ghost predicate OnlyMount(k: KafkaSecurity, path: string, i: int)
  {
    && 0 <= i < |KafkaMounts(k)| && Under(path, KafkaMounts(k)[i].path)
    && forall j | 0 <= j < |KafkaMounts(k)| && Under(path, KafkaMounts(k)[j].path) :: j == i
  }

  lemma UnderDir(dir: string, file: string)
    ensures Under(dir + "/" + file, dir)
  {
  }

  lemma OnlyMountAt(k: KafkaSecurity, use: Use, file: string, i: nat)
    requires i < |KafkaMounts(k)| && KafkaMounts(k)[i].path == use.Dir()
    ensures OnlyMount(k, use.Dir() + "/" + file, i)
  {
    var path := use.Dir() + "/" + file;
    UnderDir(use.Dir(), file);
    forall j | 0 <= j < |KafkaMounts(k)| && Under(path, KafkaMounts(k)[j].path)
      ensures j == i
    {
      MountsNeverOverlap(k, path, i, j);
    }
  }

  lemma KerberosVolumeExact(cluster: ClusterConfig)
    requires KerberosOn(cluster)
    ensures IsKerberosSecret(KerberosVolume(KerberosAuthentication(cluster)).source, cluster)
  {
    KerberosSecretClassIsFirst(Authentications(cluster));
    var scopes := Map(ScopeText, LISTENER_SCOPES);
    ScopeTexts();
    SplitJoin(scopes, ',');
  }

  lemma ScopeTexts()
    ensures Map(ScopeText, LISTENER_SCOPES) == ["listener-volume=listener-broker", "listener-volume=listener-bootstrap"]
    ensures ',' !in "listener-volume=listener-broker" && ',' !in "listener-volume=listener-bootstrap"
  {
    assert ScopeText("listener-broker") == "listener-volume=listener-broker";
    assert ScopeText("listener-bootstrap") == "listener-volume=listener-bootstrap";
  }

  /** The index of the mount for this use. */
  function MountIndex(k: KafkaSecurity, use: Use): nat
  {
    match use
    case Data => 0
    case Config => 1
    case Log => 2
    case LogConfig => 3
    case BrokerListener => 4
    case GroupListener => 5
    case KerberosFiles => 6
    case ServerStores => 6 + |KerberosMounts(k)|
    case InternalStores => 6 + |KerberosMounts(k)| + (if k.serverSecretClass == "" then 0 else 1)
  }

  lemma MountOf(cluster: ClusterConfig, use: Use)
    requires use.Needed(cluster)
    ensures var k := NewKafkaSecurity(cluster);
            && MountIndex(k, use) < |KafkaMounts(k)| && KafkaMounts(k)[MountIndex(k, use)].path == use.Dir()
            && KafkaMounts(k)[MountIndex(k, use)].name == VolumeName(use)
  {
    SecurityOfCluster(cluster);
  }

  function VolumeName(use: Use): string
  {
    match use
    case Data => DATA
    case Config => CONFIG
    case Log => LOG
    case LogConfig => LOG_CONFIG
    case BrokerListener => LISTENER_BROKER
    case GroupListener => LISTENER_BOOTSTRAP
    case KerberosFiles => KERBEROS
    case ServerStores => KEYSTORE_SERVER
    case InternalStores => KEYSTORE_INTERNAL
  }

  lemma InParts(a: seq<Volume>, b: seq<Volume>, c: seq<Volume>, d: seq<Volume>, v: Volume)
    ensures v in a + b + c + d <==> v in a || v in b || v in c || v in d
  {
  }

  lemma ProviderOf(cluster: ClusterConfig, fullName: string, listenerClass: string, storage: StorageResource,
                   agent: seq<Volume>, use: Use)
    returns (p: Provider)
    requires use.Needed(cluster)
    ensures use.Right(p, cluster, fullName, listenerClass, storage)
    ensures Provides(PodVolumesOf(NewKafkaSecurity(cluster), fullName, listenerClass, agent), Claims(fullName, storage),
                     VolumeName(use), p)
  {
    var k := NewKafkaSecurity(cluster);
    SecurityOfCluster(cluster);
    match use {
      case Data =>
        p := FromClaim(DataClaim(DATA, storage));
        assert Claims(fullName, storage)[1] == p.claim;
      case GroupListener =>
        p := FromClaim(ListenerClaim(LISTENER_BOOTSTRAP, ListenerName(BootstrapListenerName(fullName))));
        assert Claims(fullName, storage)[0] == p.claim;
      case _ =>
        var source := SourceOf(cluster, fullName, listenerClass, use);
        p := FromVolume(source);
        InParts(BaseVolumes(fullName, listenerClass), KerberosVolumes(k), agent, TlsVolumes(k),
                Volume(VolumeName(use), source));
    }
  }

  lemma SourceOf(cluster: ClusterConfig, fullName: string, listenerClass: string, use: Use)
    returns (source: VolumeSource)
    requires use.Needed(cluster) && !use.Data? && !use.GroupListener?
    ensures forall storage :: use.Right(FromVolume(source), cluster, fullName, listenerClass, storage)
    ensures var k := NewKafkaSecurity(cluster);
            Volume(VolumeName(use), source)
            in BaseVolumes(fullName, listenerClass) + KerberosVolumes(k) + TlsVolumes(k)
  {
    var k := NewKafkaSecurity(cluster);
    SecurityOfCluster(cluster);
    var all := BaseVolumes(fullName, listenerClass) + KerberosVolumes(k) + TlsVolumes(k);
    match use {
      case Log =>
        source := EmptyDir;
        assert all[0] == Volume(LOG, source);
      case LogConfig =>
        source := ConfigMap(fullName);
        assert all[1] == Volume(LOG_CONFIG, source);
      case Config =>
        source := ConfigMap(fullName);
        assert all[2] == Volume(CONFIG, source);
      case BrokerListener =>
        source := EphemeralListener(ListenerClass(listenerClass));
        assert all[3] == Volume(LISTENER_BROKER, source);
      case KerberosFiles =>
        KerberosVolumeExact(cluster);
        source := KerberosVolume(KerberosAuthentication(cluster)).source;
        assert all[4] == Volume(KERBEROS, source);
      case ServerStores =>
        TlsAnnotationsExact(ServerClass(cluster), StorePassword(cluster));
        source := EphemeralSecret(Some(TlsAnnotations(ServerClass(cluster), StorePassword(cluster))));
        assert all[|all| - |TlsVolumes(k)|] == Volume(KEYSTORE_SERVER, source);
      case InternalStores =>
        TlsAnnotationsExact(InternalClass(cluster), StorePassword(cluster));
        source := EphemeralSecret(Some(TlsAnnotations(InternalClass(cluster), StorePassword(cluster))));
        assert all[|all| - 1] == Volume(KEYSTORE_INTERNAL, source);
    }
  }

  lemma UseTopLevel(use: Use)
    ensures TopLevel(use.Dir())
  {
    BasePathsTopLevel();
    OptionalPathsTopLevel();
    assert TopLevel(BaseMounts()[0].path) && TopLevel(BaseMounts()[1].path) && TopLevel(BaseMounts()[2].path);
    assert TopLevel(BaseMounts()[3].path) && TopLevel(BaseMounts()[4].path) && TopLevel(BaseMounts()[5].path);
  }

  lemma BaseLengths(i: nat)
    requires i < 6
    ensures |BaseMounts()[i].path| !in {18, 29, 31}
  {
    PathLengths();
  }

  lemma OptionalPaths(k: KafkaSecurity, i: nat)
    requires 6 <= i < |KafkaMounts(k)|
    ensures || (k.IsKerberosEnabled() && KafkaMounts(k)[i].path == KERBEROS_DIR)
            || (k.serverSecretClass != "" && KafkaMounts(k)[i].path == KEYSTORE_SERVER_DIR)
            || (k.internalSecretClass != "" && KafkaMounts(k)[i].path == KEYSTORE_INTERNAL_DIR)
  {
  }

  lemma NotMounted(cluster: ClusterConfig, use: Use, i: nat)
    requires !use.Needed(cluster) && i < |KafkaMounts(NewKafkaSecurity(cluster))|
    ensures KafkaMounts(NewKafkaSecurity(cluster))[i].path != use.Dir()
  {
    var k := NewKafkaSecurity(cluster);
    SecurityOfCluster(cluster);
    assert |KERBEROS_DIR| == 18 && |KEYSTORE_SERVER_DIR| == 29 && |KEYSTORE_INTERNAL_DIR| == 31;
    if i < 6 {
      assert KafkaMounts(k)[i] == BaseMounts()[i];
      BaseLengths(i);
    } else {
      OptionalPaths(k, i);
    }
  }

  /**
   Every file that a broker may keep or read, whatever its name, lies in exactly one mount with the
   right volume or claim behind it, if and only if the user's settings call for its directory.
   */
  lemma FileProvided(cluster: ClusterConfig, fullName: string, listenerClass: string, storage: StorageResource,
                     agent: seq<Volume>, use: Use, file: string)
    ensures Provided(use.Dir() + "/" + file, use, cluster, fullName, listenerClass, storage, agent)
            <==> use.Needed(cluster)
  {
    var k := NewKafkaSecurity(cluster);
    if use.Needed(cluster) {
      MountOf(cluster, use);
      OnlyMountAt(k, use, file, MountIndex(k, use));
      var p := ProviderOf(cluster, fullName, listenerClass, storage, agent, use);
      assert KafkaMounts(k)[MountIndex(k, use)].name == VolumeName(use);
    } else {
      forall i | 0 <= i < |KafkaMounts(k)|
        ensures !OnlyMount(k, use.Dir() + "/" + file, i)
      {
        NoMountCovers(cluster, use, file, i);
      }
    }
  }

  lemma NoMountCovers(cluster: ClusterConfig, use: Use, file: string, i: nat)
    requires !use.Needed(cluster) && i < |KafkaMounts(NewKafkaSecurity(cluster))|
    ensures !Under(use.Dir() + "/" + file, KafkaMounts(NewKafkaSecurity(cluster))[i].path)
  {
    var k := NewKafkaSecurity(cluster);
    NotMounted(cluster, use, i);
    if Under(use.Dir() + "/" + file, KafkaMounts(k)[i].path) {
      UnderDir(use.Dir(), file);
      UseTopLevel(use);
      PathsTopLevel(k, i);
      OneDirectory(use.Dir() + "/" + file, use.Dir(), KafkaMounts(k)[i].path);
    }
  }

  // ---------- the paths that other stages name ----------

  lemma DataPath()
    ensures DEFAULT_SERVER["log.dirs"] == Data.Dir() + "/" + "topicdata"
  {
  }

  lemma ConfigPath()
    ensures "/kubedoop/config" + "/server.properties" == Config.Dir() + "/" + SERVER_PROPERTIES
  {
    assert "/server.properties" == "/" + SERVER_PROPERTIES;
  }

  lemma Regroup(dir: string, head: string, tail: string)
    ensures dir + ("/" + head) == dir + "/" + head
    ensures dir + ("/" + head) + tail == dir + "/" + (head + tail)
  {
  }

  lemma AddressPath()
    ensures ADDRESS_FILE == BrokerListener.Dir() + "/" + "default-address/address"
  {
    assert "/default-address/address" == "/" + "default-address/address";
    Regroup(LISTENER_BROKER_DIR, "default-address/address", "");
  }

  lemma PortPath(k: KafkaSecurity)
    ensures PortFile(k) == BrokerListener.Dir() + "/" + ("default-address/ports/" + k.ClientPortName())
  {
    assert "/default-address/ports/" == "/" + "default-address/ports/";
    Regroup(LISTENER_BROKER_DIR, "default-address/ports/", k.ClientPortName());
  }

  lemma PathProvided(cluster: ClusterConfig, fullName: string, listenerClass: string, storage: StorageResource,
                     agent: seq<Volume>, use: Use, path: string, file: string)
    requires path == use.Dir() + "/" + file
    ensures Provided(path, use, cluster, fullName, listenerClass, storage, agent) <==> use.Needed(cluster)
  {
    FileProvided(cluster, fullName, listenerClass, storage, agent, use, file);
  }

  /** Topic data goes to the claimed storage. */
  lemma TopicDataProvided(cluster: ClusterConfig, fullName: string, listenerClass: string, storage: StorageResource,
                          agent: seq<Volume>)
    ensures Provided(DEFAULT_SERVER["log.dirs"], Data, cluster, fullName, listenerClass, storage, agent)
  {
    DataPath();
    PathProvided(cluster, fullName, listenerClass, storage, agent, Data, DEFAULT_SERVER["log.dirs"], "topicdata");
  }

  /** The launch command's properties file is server.properties of the group's own ConfigMap. */
  lemma PropertiesProvided(cluster: ClusterConfig, fullName: string, listenerClass: string, storage: StorageResource,
                           agent: seq<Volume>, namespace: string, serviceName: string, t: LaunchTexts)
    requires LaunchedFrom(t, namespace, NewKafkaSecurity(cluster), serviceName)
    ensures t.properties == Config.Dir() + "/" + SERVER_PROPERTIES
    ensures Provided(t.properties, Config, cluster, fullName, listenerClass, storage, agent)
  {
    ConfigPath();
    PathProvided(cluster, fullName, listenerClass, storage, agent, Config, t.properties, SERVER_PROPERTIES);
  }

  /** So are the files that the container's Java options name: security.properties, and log4j.properties beside it. */
  lemma OptionFilesProvided(cluster: ClusterConfig, fullName: string, listenerClass: string, storage: StorageResource,
                            agent: seq<Volume>)
    ensures SECURITY_PROPERTIES == "security.properties"
    ensures Provided("/kubedoop/config" + "/" + SECURITY_PROPERTIES, Config, cluster, fullName, listenerClass, storage,
                     agent)
    ensures Provided("/kubedoop/log_config" + "/" + "log4j.properties", LogConfig, cluster, fullName, listenerClass,
                     storage, agent)
  {
    FileProvided(cluster, fullName, listenerClass, storage, agent, Config, SECURITY_PROPERTIES);
    FileProvided(cluster, fullName, listenerClass, storage, agent, LogConfig, "log4j.properties");
  }

  /** The address and port that are advertised are read from the listener of the broker's class. */
  lemma ListenerFilesProvided(cluster: ClusterConfig, fullName: string, listenerClass: string, storage: StorageResource,
                              agent: seq<Volume>)
    ensures Provided(ADDRESS_FILE, BrokerListener, cluster, fullName, listenerClass, storage, agent)
    ensures var k := NewKafkaSecurity(cluster);
            Provided(PortFile(k), BrokerListener, cluster, fullName, listenerClass, storage, agent)
  {
    var k := NewKafkaSecurity(cluster);
    AddressPath();
    PathProvided(cluster, fullName, listenerClass, storage, agent, BrokerListener, ADDRESS_FILE,
                 "default-address/address");
    PortPath(k);
    PathProvided(cluster, fullName, listenerClass, storage, agent, BrokerListener, PortFile(k),
                 "default-address/ports/" + k.ClientPortName());
  }

  /** The stores that settings name for a listener. */
  function StoresOf(listener: string): Use
  {
    if listener == "internal" then InternalStores else ServerStores
  }

  lemma StoresDirectory(listener: string)
    ensures StoresOf(listener).Dir() == StoreDirectory(listener)
  {
  }

  /** The value of a location setting. */
  lemma StorePath(cluster: ClusterConfig, listener: string, item: string) returns (file: string)
    requires HasStores(cluster, listener) && item in {"keystore.location", "truststore.location"}
    ensures var server := Settings(NewKafkaSecurity(cluster));
            && DocumentedKey(listener, item) in server
            && server[DocumentedKey(listener, item)] == StoreDirectory(listener) + "/" + file
  {
    file := DocumentedLocation(StoreDirectory(listener), StorePassword(cluster), item);
    StoreSettingOfCluster(cluster, listener, item, StoreDirectory(listener) + "/" + file);
  }

  lemma DocumentedLocation(dir: string, password: string, item: string) returns (file: string)
    requires item in {"keystore.location", "truststore.location"}
    ensures item in DocumentedStores(dir, password) && DocumentedStores(dir, password)[item] == dir + "/" + file
  {
    assert |"keystore.location"| == 17 && |"truststore.location"| == 19 && |"truststore.password"| == 19;
    assert "keystore.location"[9] == 'l' && "keystore.password"[9] == 'p' && "truststore.password"[11] == 'p';
    file := if item == "keystore.location" then "keystore.p12" else "truststore.p12";
    StorePathText(dir);
  }

  /**
   The keystore and truststore that the settings name are in the keystore of the listener's own secret
   class if and only if the user set that class.
   */
  lemma StorePathsProvided(cluster: ClusterConfig, fullName: string, listenerClass: string, storage: StorageResource,
                           agent: seq<Volume>, listener: string, item: string)
    requires HasStores(cluster, listener) && item in {"keystore.location", "truststore.location"}
    ensures DocumentedKey(listener, item) in Settings(NewKafkaSecurity(cluster))
    ensures Provided(Settings(NewKafkaSecurity(cluster))[DocumentedKey(listener, item)], StoresOf(listener),
                     cluster, fullName, listenerClass, storage, agent)
            <==> StoresOf(listener).Needed(cluster)
  {
    var file := StorePath(cluster, listener, item);
    StoresDirectory(listener);
    PathProvided(cluster, fullName, listenerClass, storage, agent, StoresOf(listener),
                 Settings(NewKafkaSecurity(cluster))[DocumentedKey(listener, item)], file);
  }

  lemma StorePathText(dir: string)
    ensures dir + "/keystore.p12" == dir + "/" + "keystore.p12"
    ensures dir + "/truststore.p12" == dir + "/" + "truststore.p12"
  {
    assert "/keystore.p12" == "/" + "keystore.p12" && "/truststore.p12" == "/" + "truststore.p12";
  }

  /** The two volumes that secrets are scoped to are listener volumes of the pod. */
  lemma ScopedVolumesExist(k: KafkaSecurity, fullName: string, listenerClass: string, storage: StorageResource,
                           agent: seq<Volume>)
    ensures Volume("listener-broker", EphemeralListener(ListenerClass(listenerClass)))
            in PodVolumesOf(k, fullName, listenerClass, agent)
    ensures ListenerClaim("listener-bootstrap", ListenerName(fullName + "-bootstrap")) in Claims(fullName, storage)
  {
    assert PodVolumesOf(k, fullName, listenerClass, agent)[3] == BaseVolumes(fullName, listenerClass)[3];
    assert Claims(fullName, storage)[0] in Claims(fullName, storage);
  }

  /** The name that SASL announces is the one the Kerberos secret was made for. */
  lemma ServiceNamesAgree(cluster: ClusterConfig, source: VolumeSource)
    requires KerberosOn(cluster) && IsKerberosSecret(source, cluster)
    ensures var server := Settings(NewKafkaSecurity(cluster));
            && "sasl.kerberos.service.name" in server
            && server["sasl.kerberos.service.name"] == source.annotations.value[SecretsKerberosServiceNames]
  {
    SecurityOfCluster(cluster);
    SaslExact(NewKafkaSecurity(cluster), "sasl.kerberos.service.name");
  }
}
