/**
 The StatefulSet assembly (internal/controller/statefulset.go, container.go): the pod's volumes,
 claims and mounts, and the theorems that tie them to listeners and keystore settings. The builder
 calls of operator-go append; what that library provides for the log agent is a parameter.
 */
module StatefulSetBuilder {
  import opened Wrappers
  import opened Sequences
  import opened Text
  import opened SpecValues
  import opened Security
  import opened Listeners
  import opened ListenerCompiler
  import opened SecretVolume
  import opened PodVolumes
  import opened Objects
  import opened Vector
  import opened Discovery

  // ---------- Kerberos ----------

  const KERBEROS_DIR := "/kubedoop/kerberos"
  const LISTENER_SCOPES: seq<string> := [LISTENER_BROKER, LISTENER_BOOTSTRAP]

  function ScopeText(s: string): string
  {
    "listener-volume=" + s
  }

  /** The scope loop of `GetVolumes`: prepend a comma each time, then drop the first character. */
  method ListenerScope(scopes: seq<string>) returns (s: string)
    requires scopes != []
    ensures s == Join(Map(ScopeText, scopes), ',')
  {
    var scopeStr := "";
    for i := 0 to |scopes|
      invariant i == 0 ==> scopeStr == ""
      invariant i > 0 ==> scopeStr == "," + Join(Map(ScopeText, scopes[..i]), ',')
    {
      ghost var texts := Map(ScopeText, scopes[..i]);
      assert Map(ScopeText, scopes[..i + 1]) == texts + [ScopeText(scopes[i])];
      JoinAppend(texts, ScopeText(scopes[i]), ',');
      Append(if i == 0 then "" else Join(texts, ','), "listener-volume=", scopes[i]);
      scopeStr := scopeStr + "," + "listener-volume=" + scopes[i];
    }
    assert scopes[..|scopes|] == scopes;
    s := scopeStr[1..];
  }

  lemma Append(joined: string, prefix: string, scope: string)
    ensures "," + joined + "," + prefix + scope == "," + (joined + [','] + (prefix + scope))
    ensures "" + "," + prefix + scope == "," + (prefix + scope)
  {
  }

  lemma {:induction false} JoinAppend(parts: seq<string>, p: string, sep: char)
    ensures Join(parts + [p], sep) == if parts == [] then p else Join(parts, sep) + [sep] + p
  {
    if |parts| > 1 {
      JoinAppend(parts[1..], p, sep);
      assert (parts + [p])[1..] == parts[1..] + [p];
    } else if |parts| == 1 {
      assert (parts + [p])[1..] == [p];
    }
  }

  function KerberosVolume(auth: KerberosAuthentication): Volume
  {
    Volume(KERBEROS, EphemeralSecret(Some(map[
      SecretsClass := KerberosSecretClass(Authentications(auth.cluster)),
      SecretsScope := Join(Map(ScopeText, LISTENER_SCOPES), ','),
      SecretsKerberosServiceNames := "kafka"])))
  }

  method GetKerberosVolumes(auth: KerberosAuthentication) returns (volumes: seq<Volume>)
    ensures volumes == [KerberosVolume(auth)]
  {
    var scope := ListenerScope(LISTENER_SCOPES);
    var secretClass := ScanKerberosSecretClass(auth.cluster);
    volumes := [Volume(KERBEROS, EphemeralSecret(Some(map[
      SecretsClass := secretClass, SecretsScope := scope, SecretsKerberosServiceNames := "kafka"])))];
  }

  // ---------- mounts, volumes and claims ----------

  /** `VolumeMount` of the kafka container. */
  method ContainerMounts(k: KafkaSecurity) returns (mounts: seq<VolumeMount>)
    ensures mounts == BaseMounts() + KerberosMounts(k)
  {
    mounts := BaseMounts();
    if k.IsKerberosEnabled() {
      mounts := mounts + [VolumeMount(KERBEROS, KERBEROS_DIR)];
    }
  }

  function BaseMounts(): seq<VolumeMount>
  {
    [VolumeMount(DATA, "/kubedoop/data"), VolumeMount(CONFIG, CONFIG_DIR), VolumeMount(LOG, "/kubedoop/log"),
     VolumeMount(LOG_CONFIG, "/kubedoop/log_config"), VolumeMount(LISTENER_BROKER, LISTENER_BROKER_DIR),
     VolumeMount(LISTENER_BOOTSTRAP, "/kubedoop/listener-bootstrap")]
  }

  function KerberosMounts(k: KafkaSecurity): seq<VolumeMount>
  {
    if k.IsKerberosEnabled() then [VolumeMount(KERBEROS, KERBEROS_DIR)] else []
  }

  function KafkaMounts(k: KafkaSecurity): seq<VolumeMount>
  {
    BaseMounts() + KerberosMounts(k) + TlsMounts(k)
  }

  function BaseVolumes(fullName: string, brokerListenerClass: string): seq<Volume>
  {
    [Volume(LOG, EmptyDir), Volume(LOG_CONFIG, ConfigMap(fullName)), Volume(CONFIG, ConfigMap(fullName)),
     Volume(LISTENER_BROKER, EphemeralListener(ListenerClass(brokerListenerClass)))]
  }

  function KerberosVolumes(k: KafkaSecurity): seq<Volume>
  {
    if k.IsKerberosEnabled() && k.kerberosAuth.Some? then [KerberosVolume(k.kerberosAuth.value)] else []
  }

  /** The pod's volumes, with those of the log agent's sidecar between the operator's own. */
  function PodVolumesOf(k: KafkaSecurity, fullName: string, brokerListenerClass: string, agent: seq<Volume>)
    : seq<Volume>
  {
    BaseVolumes(fullName, brokerListenerClass) + KerberosVolumes(k) + agent + TlsVolumes(k)
  }

  /** What the library provides for the log agent. */
  datatype Sidecar = Sidecar(container: Container, volumes: seq<Volume>)

  /** The library's error from putting the object together, if any. */
  type LibraryError = Option<string>

  function Claims(fullName: string, storage: StorageResource): seq<Claim>
  {
    [ListenerClaim(LISTENER_BOOTSTRAP, ListenerName(BootstrapListenerName(fullName))), DataClaim(DATA, storage)]
  }

  /** `dataPvc`: two gibibytes of the default class unless the role group says otherwise. */
  function DataStorage(r: SpecValues.Resources): StorageResource
  {
    if r.storage.Some? then r.storage.value else StorageResource(0x8000_0000, "")
  }

  /** `Volumes`: fails exactly when the broker listener class is empty. */
  method Volumes(k: KafkaSecurity, fullName: string, brokerListenerClass: string) returns (r: Result<seq<Volume>>)
    requires k.IsKerberosEnabled() ==> k.kerberosAuth.Some?
    ensures r.Ok? <==> brokerListenerClass != ""
    ensures r.Ok? ==> r.value == BaseVolumes(fullName, brokerListenerClass) + KerberosVolumes(k)
  {
    var annotation := ToAnnotation(ListenerReference(brokerListenerClass, ""));
    if annotation.Err? {
      return Err("failed to get listener reference annotation: " + annotation.message);
    }
    var volumes := [Volume(LOG, EmptyDir), Volume(LOG_CONFIG, ConfigMap(fullName)), Volume(CONFIG, ConfigMap(fullName)),
                    Volume(LISTENER_BROKER, EphemeralListener(annotation.value))];
    if k.IsKerberosEnabled() {
      var kerberos := GetKerberosVolumes(k.kerberosAuth.value);
      volumes := volumes + kerberos;
    }
    return Ok(volumes);
  }

  /** The broker's container: what is mounted, which ports are declared, and what the launch command says. */
  ghost predicate IsBroker(c: Container, namespace: string, k: KafkaSecurity, serviceName: string)
  {
    && c.name == "kafka" && c.mounts == KafkaMounts(k) && PortsExact(c.ports, k)
    && LaunchedFrom(c.launch, namespace, k, serviceName)
  }

  /** `createMainContainer`; the keystores are mounted later. */
  method CreateMainContainer(namespace: string, k: KafkaSecurity, name: string) returns (c: Container)
    ensures c.name == "kafka" && c.mounts == BaseMounts() + KerberosMounts(k)
    ensures PortsExact(c.ports, k) && LaunchedFrom(c.launch, namespace, k, name)
  {
    var launch := LaunchArguments(namespace, k, name);
    var mounts := ContainerMounts(k);
    var ports := KafkaContainerPorts(k);
    c := Container("kafka", mounts, ports, launch);
  }

  /** The containers of the pod, as an array the StatefulSet owns. */
  method PodContainers(kafka: Container, agent: seq<Container>) returns (containers: array<Container>)
    requires kafka.name == "kafka"
    ensures fresh(containers) && containers[..] == [kafka] + agent
    ensures IsFirst(containers[..], "kafka", 0)
  {
    var all := [kafka] + agent;
    containers := new Container[|all|](i requires 0 <= i < |all| => all[i]);
    assert containers[..] == all;
  }

  /**
   `Build`, for the security object of `cluster`. It panics exactly when resources are missing or,
   once the volumes are there, the log agent's flag is; it fails exactly when the broker listener
   class is empty or the library fails. Otherwise it assembles exactly these containers, volumes and
   claims; the broker advertises itself under the StatefulSet's governing service.
   */
  method Build(cluster: ClusterConfig, namespace: string, clusterName: string, roleGroup: string,
               config: BrokersConfigSpec, sidecar: Sidecar, error: LibraryError)
    returns (outcome: Outcome, r: Result<StatefulSet>)
    ensures outcome.Panicked? <==>
              || config.roleGroupConfig == null || config.roleGroupConfig.resources == null
              || (config.brokerListenerClass != "" && FlagMissing(config.roleGroupConfig.logging))
    ensures outcome.Returned? ==> (r.Ok? <==> config.brokerListenerClass != "" && error.None?)
    ensures outcome.Returned? && r.Ok? ==>
              var on := VectorOn(config.roleGroupConfig.logging);
              && fresh(r.value) && fresh(r.value.containers)
              && r.value.name == r.value.serviceName == FullName(clusterName, roleGroup)
              && r.value.serviceAccountName == clusterName
              && r.value.containers.Length > 0
              && IsBroker(r.value.containers[0], namespace, NewKafkaSecurity(cluster), r.value.serviceName)
              && r.value.containers[1..] == (if on then [sidecar.container] else [])
              && r.value.volumes == PodVolumesOf(NewKafkaSecurity(cluster), FullName(clusterName, roleGroup),
                                                 config.brokerListenerClass, if on then sidecar.volumes else [])
              && r.value.claims == Claims(FullName(clusterName, roleGroup),
                                          DataStorage(config.roleGroupConfig.resources.value))
  {
    var k := NewKafkaSecurity(cluster);
    KerberosScansAgree(cluster);
    var fullName := FullName(clusterName, roleGroup);
    if config.roleGroupConfig == null || config.roleGroupConfig.resources == null {
      return Panicked, Err("");
    }
    var kafka := CreateMainContainer(namespace, k, fullName);
    var bootstrap := ToAnnotation(ListenerReference("", BootstrapListenerName(fullName)));
    // never an error: the name is not empty
    var claims := [ListenerClaim(LISTENER_BOOTSTRAP, bootstrap.value),
                   DataClaim(DATA, DataStorage(config.roleGroupConfig.resources.value))];
    var volumes := Volumes(k, fullName, config.brokerListenerClass);
    if volumes.Err? {
      return Returned, Err(volumes.message);
    }
    var on;
    outcome, on := IsVectorEnable(config.roleGroupConfig.logging);
    if outcome.Panicked? {
      return Panicked, Err("");
    }
    if error.Some? {
      return Returned, Err(error.value);
    }
    var sts := Finish(k, fullName, clusterName, kafka, if on then [sidecar.container] else [],
                      volumes.value + (if on then sidecar.volumes else []), claims, config.requestedSecretLifeTime);
    r := Ok(sts);
  }

  /** The finished object: the pod's parts put together, then the keystores added. */
  method Finish(k: KafkaSecurity, name: string, clusterName: string, kafka: Container, agent: seq<Container>,
                volumes: seq<Volume>, claims: seq<Claim>, lifetime: string)
    returns (sts: StatefulSet)
    requires kafka.name == "kafka"
    ensures fresh(sts) && fresh(sts.containers) && sts.name == sts.serviceName == name
    ensures sts.serviceAccountName == clusterName && sts.claims == claims
    ensures sts.containers.Length > 0 && sts.containers[0] == kafka.(mounts := kafka.mounts + TlsMounts(k))
    ensures sts.containers[1..] == agent
    ensures sts.volumes == volumes + TlsVolumes(k)
  {
    var containers := PodContainers(kafka, agent);
    sts := new StatefulSet(name, containers, volumes, claims);
    sts.serviceAccountName := clusterName;
    ghost var before := containers[..];
    assert before[0] == kafka && before[1..] == agent;
    var _ := AddVolumeAndVolumeMounts(k, sts, lifetime);
    assert containers[0] == kafka.(mounts := kafka.mounts + TlsMounts(k));
    assert forall i | 1 <= i < containers.Length :: !IsFirst(before, "kafka", i) && containers[i] == before[i];
    assert containers[1..] == before[1..];
  }

  // ---------- every mount has its volume ----------

  function MountNames(mounts: seq<VolumeMount>): seq<string>
  {
    Map((m: VolumeMount) => m.name, mounts)
  }

  function MountPaths(mounts: seq<VolumeMount>): seq<string>
  {
    Map((m: VolumeMount) => m.path, mounts)
  }

  function ProviderNames(volumes: seq<Volume>, claims: seq<Claim>): seq<string>
  {
    Map((v: Volume) => v.name, volumes) + Map((c: Claim) => c.name, claims)
  }

  lemma NameLengths()
    ensures |DATA| == 4 && |CONFIG| == 6 && |LOG| == 3 && |LOG_CONFIG| == 10 && |LISTENER_BROKER| == 15
    ensures |LISTENER_BOOTSTRAP| == 18 && |KERBEROS| == 17 && |KEYSTORE_SERVER| == 19 && |KEYSTORE_INTERNAL| == 21
  {
  }

  lemma PathLengths()
    ensures |"/kubedoop/data"| == 14 && |"/kubedoop/config"| == 16 && |"/kubedoop/log"| == 13
    ensures |"/kubedoop/log_config"| == 20 && |LISTENER_BROKER_DIR| == 25 && |"/kubedoop/listener-bootstrap"| == 28
    ensures |KERBEROS_DIR| == 18 && |KEYSTORE_SERVER_DIR| == 29 && |KEYSTORE_INTERNAL_DIR| == 31
  {
  }

  lemma MountNamesDistinct(k: KafkaSecurity)
    ensures NoDuplicates(MountNames(KafkaMounts(k)))
  {
    NameLengths();
  }

  lemma MountPathsDistinct(k: KafkaSecurity)
    ensures NoDuplicates(MountPaths(KafkaMounts(k)))
  {
    PathLengths();
  }

  /** The names of the optional volumes, in the order they are added. */
  function OptionalNames(k: KafkaSecurity): seq<string>
  {
    (if k.IsKerberosEnabled() then [KERBEROS] else [])
    + ((if k.serverSecretClass == "" then [] else [KEYSTORE_SERVER])
       + (if k.internalSecretClass == "" then [] else [KEYSTORE_INTERNAL]))
  }

  lemma MountedNames(k: KafkaSecurity)
    ensures MountNames(KafkaMounts(k))
         == [DATA, CONFIG, LOG, LOG_CONFIG, LISTENER_BROKER, LISTENER_BOOTSTRAP] + OptionalNames(k)
  {
  }

  function VolumeNames(volumes: seq<Volume>): seq<string>
  {
    Map((v: Volume) => v.name, volumes)
  }

  function KerberosNames(k: KafkaSecurity): seq<string>
  {
    if k.IsKerberosEnabled() then [KERBEROS] else []
  }

  function TlsNames(k: KafkaSecurity): seq<string>
  {
    (if k.serverSecretClass == "" then [] else [KEYSTORE_SERVER])
    + (if k.internalSecretClass == "" then [] else [KEYSTORE_INTERNAL])
  }

  lemma OperatorVolumeNames(k: KafkaSecurity, fullName: string, brokerListenerClass: string)
    requires k.IsKerberosEnabled() ==> k.kerberosAuth.Some?
    ensures VolumeNames(BaseVolumes(fullName, brokerListenerClass) + KerberosVolumes(k))
         == [LOG, LOG_CONFIG, CONFIG, LISTENER_BROKER] + KerberosNames(k)
    ensures VolumeNames(TlsVolumes(k)) == TlsNames(k)
  {
  }

  /** The names of volumes and claims, with those of the log agent in the middle. */
  lemma ProvidedNames(k: KafkaSecurity, fullName: string, brokerListenerClass: string, storage: StorageResource,
                      agent: seq<Volume>)
    requires k.IsKerberosEnabled() ==> k.kerberosAuth.Some?
    ensures ProviderNames(PodVolumesOf(k, fullName, brokerListenerClass, agent), Claims(fullName, storage))
         == ([LOG, LOG_CONFIG, CONFIG, LISTENER_BROKER] + KerberosNames(k)) + VolumeNames(agent)
            + (TlsNames(k) + [LISTENER_BOOTSTRAP, DATA])
  {
    OperatorVolumeNames(k, fullName, brokerListenerClass);
    var own := BaseVolumes(fullName, brokerListenerClass) + KerberosVolumes(k);
    NamesConcat(own, agent, TlsVolumes(k));
    assert Map((c: Claim) => c.name, Claims(fullName, storage)) == [LISTENER_BOOTSTRAP, DATA];
  }

  lemma NamesConcat(a: seq<Volume>, b: seq<Volume>, c: seq<Volume>)
    ensures VolumeNames(a + b + c) == VolumeNames(a) + VolumeNames(b) + VolumeNames(c)
  {
  }

  lemma OperatorNamesDistinct(k: KafkaSecurity)
    ensures NoDuplicates(([LOG, LOG_CONFIG, CONFIG, LISTENER_BROKER] + KerberosNames(k))
                         + (TlsNames(k) + [LISTENER_BOOTSTRAP, DATA]))
  {
    NameLengths();
  }

  /** A list with something put in the middle repeats nothing iff neither part does and they have nothing in common. */
  lemma InsertedDistinct(a: seq<string>, x: seq<string>, b: seq<string>)
    requires NoDuplicates(a + b)
    ensures NoDuplicates(a + x + b) <==> NoDuplicates(x) && forall name | name in x :: name !in a + b
  {
    var all := a + x + b;
    if NoDuplicates(all) {
      forall i, j | 0 <= i < j < |x|
        ensures x[i] != x[j]
      {
        assert all[|a| + i] != all[|a| + j];
      }
      forall i, j | 0 <= i < |x| && 0 <= j < |a + b|
        ensures x[i] != (a + b)[j]
      {
        InsertedAt(a, x, b, |a| + i);
        InsertedAt(a, x, b, if j < |a| then j else j + |x|);
      }
    } else {
      var i, j :| 0 <= i < j < |all| && all[i] == all[j];
      InsertedAt(a, x, b, i);
      InsertedAt(a, x, b, j);
      if |a| <= i && j < |a + x| {
        assert x[i - |a|] == x[j - |a|];
      } else if |a| <= i < |a + x| {
        assert x[i - |a|] in x && (a + b)[j - |x|] in a + b;
      } else {
        assert |a| <= j < |a + x| && x[j - |a|] in x && (a + b)[if i < |a| then i else i - |x|] in a + b;
      }
    }
  }

  /** Where each element of such a list comes from. */
  lemma InsertedAt(a: seq<string>, x: seq<string>, b: seq<string>, i: nat)
    requires i < |a + x + b|
    ensures (a + x + b)[i] == if i < |a| then (a + b)[i] else if i < |a + x| then x[i - |a|] else (a + b)[i - |x|]
  {
  }

  lemma SameNames(k: KafkaSecurity, name: string)
    ensures name in [DATA, CONFIG, LOG, LOG_CONFIG, LISTENER_BROKER, LISTENER_BOOTSTRAP] + OptionalNames(k)
            <==> name in ([LOG, LOG_CONFIG, CONFIG, LISTENER_BROKER] + KerberosNames(k))
                         + (TlsNames(k) + [LISTENER_BOOTSTRAP, DATA])
  {
  }

  /**
   Mount closure, for every combination of Kerberos and TLS and whatever volumes the log agent
   brings: mount names and paths are pairwise different, and what volumes and claims provide beside
   the agent's volumes is exactly what is mounted. No name is provided twice, so that every mount has
   exactly one provider, if and only if the agent's volumes repeat no name and use none of the mounted.
   */
  lemma MountClosure(cluster: ClusterConfig, fullName: string, brokerListenerClass: string, storage: StorageResource,
                     agent: seq<Volume>)
    ensures var k := NewKafkaSecurity(cluster);
            var mounted := MountNames(KafkaMounts(k));
            var provided := ProviderNames(PodVolumesOf(k, fullName, brokerListenerClass, agent),
                                          Claims(fullName, storage));
            && NoDuplicates(mounted) && NoDuplicates(MountPaths(KafkaMounts(k)))
            && (forall name :: name in provided <==> name in mounted || name in VolumeNames(agent))
            && (NoDuplicates(provided) <==>
                  NoDuplicates(VolumeNames(agent)) && forall name | name in VolumeNames(agent) :: name !in mounted)
  {
    var k := NewKafkaSecurity(cluster);
    KerberosScansAgree(cluster);
    MountNamesDistinct(k);
    MountPathsDistinct(k);
    MountedNames(k);
    ProvidedNames(k, fullName, brokerListenerClass, storage, agent);
    OperatorNamesDistinct(k);
    var a, b := [LOG, LOG_CONFIG, CONFIG, LISTENER_BROKER] + KerberosNames(k), TlsNames(k) + [LISTENER_BOOTSTRAP, DATA];
    InsertedDistinct(a, VolumeNames(agent), b);
    forall name
      ensures name in MountNames(KafkaMounts(k)) <==> name in a + b
    {
      SameNames(k, name);
    }
  }

  // ---------- every encrypted listener has its stores ----------

  /** `dir` is mounted in the kafka container from a keystore volume of this secret class. */
  ghost predicate MountedKeystore(k: KafkaSecurity, dir: string, secretClass: string, password: string)
  {
    exists i :: 0 <= i < |TlsVolumes(k)|
             && VolumeMount(TlsVolumes(k)[i].name, dir) in KafkaMounts(k)
             && IsKeystore(TlsVolumes(k)[i].source, secretClass, password)
  }

  /** A listener's six store settings are in the file and point into one mounted keystore of this class. */
  ghost predicate StoresServed(server: Properties, k: KafkaSecurity, name: string, secretClass: string,
                               password: string)
  {
    exists dir :: MountedKeystore(k, dir, secretClass, password) && StoresIn(server, password, dir, name)
  }

  ghost predicate StoresIn(server: Properties, password: string, dir: string, name: string)
  {
    forall item: StoreItem ::
      && SslKey(Lower(name), item.Text()) in server
      && server[SslKey(Lower(name), item.Text())] == item.Expected(dir, password)
  }

  /** The user's secret class for the certificates of this listener. */
  function ClassFor(cluster: ClusterConfig, name: string): string
  {
    if name == "INTERNAL" then InternalClass(cluster) else ServerClass(cluster)
  }

  /** Every listener that speaks SSL finds, in this file, stores of its own class that the user's password opens. */
  ghost predicate SslClosed(cluster: ClusterConfig, server: Properties)
  {
    var k := NewKafkaSecurity(cluster);
    forall name | name in Protocols(k) && Protocols(k)[name] == SSL ::
      StoresServed(server, k, name, ClassFor(cluster, name), StorePassword(cluster))
  }

  /** The secret classes that the encrypted listeners need are set. */
  predicate CompleteTls(cluster: ClusterConfig)
  {
    !KerberosOn(cluster) || (ServerClass(cluster) != "" && InternalClass(cluster) != "")
  }

  /** A listener without an entry in `StoreDirs` cannot be served. */
  lemma UnservedWithoutStores(k: KafkaSecurity, name: string, secretClass: string, password: string)
    requires Lower(name) !in StoreDirs(k)
    ensures !StoresServed(Settings(k), k, name, secretClass, password)
  {
    SettingsExact(k, Lower(name), KeystoreLocation);
    assert SslKey(Lower(name), KeystoreLocation.Text()) !in Settings(k);
  }

  /** A listener with an entry in `StoreDirs` is served if that directory is a mounted keystore. */
  lemma ServedFromMountedStores(k: KafkaSecurity, name: string, secretClass: string)
    requires Lower(name) in StoreDirs(k)
    requires MountedKeystore(k, StoreDirs(k)[Lower(name)], secretClass, k.sslStorePassword)
    ensures StoresServed(Settings(k), k, name, secretClass, k.sslStorePassword)
  {
    var dir := StoreDirs(k)[Lower(name)];
    forall item: StoreItem
      ensures SslKey(Lower(name), item.Text()) in Settings(k)
      ensures Settings(k)[SslKey(Lower(name), item.Text())] == item.Expected(dir, k.sslStorePassword)
    {
      SettingsExact(k, Lower(name), item);
    }
  }

  lemma TlsMountsMounted(k: KafkaSecurity, i: nat, secretClass: string)
    requires i < |TlsMounts(k)| == |TlsVolumes(k)|
    requires IsKeystore(TlsVolumes(k)[i].source, secretClass, k.sslStorePassword)
    ensures MountedKeystore(k, TlsMounts(k)[i].path, secretClass, k.sslStorePassword)
  {
    TlsVolumesMatchMounts(k);
    assert KafkaMounts(k)[|BaseMounts() + KerberosMounts(k)| + i] == TlsMounts(k)[i];
    assert TlsMounts(k)[i] == VolumeMount(TlsVolumes(k)[i].name, TlsMounts(k)[i].path);
  }

  /** Each keystore directory is mounted from the keystore of its own secret class, if that is set. */
  lemma KeystoreDirsMounted(k: KafkaSecurity)
    ensures k.serverSecretClass != "" ==>
              MountedKeystore(k, "/kubedoop/tls_keystore_server", k.serverSecretClass, k.sslStorePassword)
    ensures k.internalSecretClass != "" ==>
              MountedKeystore(k, "/kubedoop/tls_keystore_internal", k.internalSecretClass, k.sslStorePassword)
  {
    TlsVolumesMatchMounts(k);
    if k.serverSecretClass != "" {
      TlsAnnotationsExact(k.serverSecretClass, k.sslStorePassword);
      TlsMountsMounted(k, 0, k.serverSecretClass);
    }
    if k.internalSecretClass != "" {
      TlsAnnotationsExact(k.internalSecretClass, k.sslStorePassword);
      TlsMountsMounted(k, |TlsMounts(k)| - 1, k.internalSecretClass);
    }
  }

  lemma LowerNames()
    ensures Lower(CLIENT) == "client" && Lower(CLIENT_AUTH) == "client_auth"
    ensures Lower(INTERNAL) == "internal" && Lower(BOOTSTRAP) == "bootstrap"
  {
  }

  /** With complete TLS settings an SSL listener has stores, in the directory of its own class. */
  lemma EncryptedHasStores(cluster: ClusterConfig, name: string)
    requires CompleteTls(cluster)
    requires name in Protocols(NewKafkaSecurity(cluster)) && Protocols(NewKafkaSecurity(cluster))[name] == SSL
    ensures HasStores(cluster, Lower(name)) && ClassFor(cluster, name) != ""
    ensures StoreDirectory(Lower(name))
         == if name == "INTERNAL" then "/kubedoop/tls_keystore_internal" else "/kubedoop/tls_keystore_server"
  {
    ProtocolsOfCluster(cluster);
    LowerNames();
    assert |CLIENT| == 6 && |INTERNAL| == 8 && |BOOTSTRAP| == 9 && |SSL| != |PLAINTEXT|;
  }

  lemma CompleteTlsServes(cluster: ClusterConfig, name: string)
    requires CompleteTls(cluster)
    requires name in Protocols(NewKafkaSecurity(cluster)) && Protocols(NewKafkaSecurity(cluster))[name] == SSL
    ensures var k := NewKafkaSecurity(cluster);
            StoresServed(Settings(k), k, name, ClassFor(cluster, name), StorePassword(cluster))
  {
    var k := NewKafkaSecurity(cluster);
    SecurityOfCluster(cluster);
    EncryptedHasStores(cluster, name);
    StoreDirsOfCluster(cluster, Lower(name));
    KeystoreDirsMounted(k);
    ServedFromMountedStores(k, name, ClassFor(cluster, name));
  }

  /** Without complete TLS settings some SSL listener has no stores. */
  lemma IncompleteTlsLeaves(cluster: ClusterConfig) returns (name: string)
    requires !CompleteTls(cluster)
    ensures name in Protocols(NewKafkaSecurity(cluster)) && Protocols(NewKafkaSecurity(cluster))[name] == SSL
    ensures Lower(name) !in StoreDirs(NewKafkaSecurity(cluster))
  {
    name := if ServerClass(cluster) == "" then CLIENT else INTERNAL;
    ProtocolsOfCluster(cluster);
    LowerNames();
    StoreDirsOfCluster(cluster, Lower(name));
    assert |CLIENT| == 6 && |INTERNAL| == 8 && |BOOTSTRAP| == 9;
  }

  /**
   SSL closure, exactly characterised: in every cluster, each listener mapped to SSL has its six store
   settings, and they point into a directory that the kafka container mounts from a keystore of the
   user's own class for that listener, opened by the user's password, if and only if Kerberos is off
   or both secret classes are set.
   */
  lemma SslClosureExact(cluster: ClusterConfig)
    ensures SslClosed(cluster, Settings(NewKafkaSecurity(cluster))) <==> CompleteTls(cluster)
  {
    var k := NewKafkaSecurity(cluster);
    if CompleteTls(cluster) {
      forall name | name in Protocols(k) && Protocols(k)[name] == SSL
        ensures StoresServed(Settings(k), k, name, ClassFor(cluster, name), StorePassword(cluster))
      {
        CompleteTlsServes(cluster, name);
      }
    } else {
      var name := IncompleteTlsLeaves(cluster);
      UnservedWithoutStores(k, name, ClassFor(cluster, name), StorePassword(cluster));
    }
  }

  /** A cluster with Kerberos and no TLS section at all: its CLIENT listener speaks SSL without stores. */
  lemma KerberosWithoutTlsIsOpen()
    ensures var k := NewKafkaSecurity(KERBEROS_ONLY);
            && CLIENT in Protocols(k) && Protocols(k)[CLIENT] == SSL
            && forall secretClass, password :: !StoresServed(Settings(k), k, CLIENT, secretClass, password)
  {
    var k := NewKafkaSecurity(KERBEROS_ONLY);
    assert UsesKerberos(k.authentications[0]);
    LowerNames();
    forall secretClass, password
      ensures !StoresServed(Settings(k), k, CLIENT, secretClass, password)
    {
      UnservedWithoutStores(k, CLIENT, secretClass, password);
    }
  }
}
