/**
 Listener and keystore volumes (internal/util/listener_volume.go and the volume half of
 internal/security/security.go), and how they are added to a StatefulSet.
 */
module PodVolumes {
  import opened Wrappers
  import opened Text
  import opened SpecValues
  import opened Security
  import opened Listeners
  import opened SecretVolume

  // volume names
  const DATA := "data"
  const LOG_CONFIG := "log-config"
  const CONFIG := "config"
  const LOG := "log"
  const LISTENER_BROKER := "listener-broker"
  const LISTENER_BOOTSTRAP := "listener-bootstrap"
  const KERBEROS := "listener-kerberos"
  const KEYSTORE_SERVER := "tls-keystore-server"
  const KEYSTORE_INTERNAL := "tls-keystore-internal"

  datatype ListenerAnnotation = ListenerClass(value: string) | ListenerName(value: string)

  datatype VolumeSource =
    | EmptyDir
    | ConfigMap(name: string)
    | EphemeralListener(annotation: ListenerAnnotation)
    | EphemeralSecret(annotations: Option<Annotations>)

  datatype Volume = Volume(name: string, source: VolumeSource)
  datatype VolumeMount = VolumeMount(name: string, path: string)
  datatype Port = Port(name: string, number: int, protocol: string)

  /** A container, as far as other parts refer to it; only a broker's has launch texts. */
  datatype Container = Container(name: string, mounts: seq<VolumeMount>, ports: seq<Port>, launch: LaunchTexts)

  /** A volume claim template: for a listener, or for the brokers' data. */
  datatype Claim =
    | ListenerClaim(name: string, annotation: ListenerAnnotation)
    | DataClaim(name: string, storage: StorageResource)

  // ---------- names ----------

  function FullName(cluster: string, roleGroup: string): string
  {
    cluster + "-broker-" + roleGroup
  }

  function BootstrapListenerName(fullName: string): string
  {
    fullName + "-bootstrap"
  }

  // ---------- listener volumes ----------

  datatype ListenerReference = ListenerReference(listenerClass: string, listenerName: string)

  /** `ToAnnotation`: the class wins over the name, and one of them must be set. */
  function ToAnnotation(r: ListenerReference): (a: Result<ListenerAnnotation>)
    ensures a.Ok? <==> r.listenerClass != "" || r.listenerName != ""
    ensures a.Ok? ==> a.value.value != ""
    ensures a.Ok? ==> (a.value.ListenerClass? <==> r.listenerClass != "")
    ensures a.Ok? ==> a.value.value in {r.listenerClass, r.listenerName}
  {
    if r.listenerClass != "" then Ok(ListenerClass(r.listenerClass))
    else if r.listenerName != "" then Ok(ListenerName(r.listenerName))
    else Err("either ListenerClass or ListenerName must be set")
  }

  // ---------- keystore volumes ----------

  const TLS_SCOPES: seq<string> := [
    "listener-volume=listener-broker", "listener-volume=listener-bootstrap", "pod", "node"]

  function TlsAnnotations(secretClass: string, password: string): Annotations
  {
    map[SecretsClass := secretClass, SecretsScope := Join(TLS_SCOPES, ','), SecretsFormat := "tls-p12"]
      + if password == "" then map[] else map[SecretsPkcs12Password := password]
  }

  /**
   `CreateTlsKeystoreVolume`. The lifetime is added before `SetAnnotations` replaces the map, so it
   never reaches the volume, although the CRD field says it is requested.
   */
  method CreateTlsKeystoreVolume(name: string, secretClass: string, password: string, lifetime: string)
    returns (v: Volume)
    ensures v == Volume(name, EphemeralSecret(Some(TlsAnnotations(secretClass, password))))
  {
    var builder := new SecretVolumeBuilder(name);
    if lifetime != "" {
      builder.AddAnnotation(SecretCertLifeTime, lifetime);
    }
    var base := new AnnotationMap(map[
      SecretsClass := secretClass, SecretsScope := Join(TLS_SCOPES, ','), SecretsFormat := "tls-p12"]);
    builder.SetAnnotations(base);
    if password != "" {
      builder.AddAnnotation(SecretsPkcs12Password, password);
    }
    var annotations := builder.Build();
    assert annotations.value == TlsAnnotations(secretClass, password);
    v := Volume(name, EphemeralSecret(annotations));
  }

  /**
   A keystore that the secret operator fills: from this secret class, in the format the store
   settings name, opened by this password if there is one, valid for both listener volumes, the pod
   and its node, and with no other annotation.
   */
  predicate IsKeystore(source: VolumeSource, secretClass: string, password: string)
  {
    && source.EphemeralSecret? && source.annotations.Some?
    && var a := source.annotations.value;
       && a.Keys == {SecretsClass, SecretsScope, SecretsFormat}
                    + (if password == "" then {} else {SecretsPkcs12Password})
       && a[SecretsClass] == secretClass && a[SecretsFormat] == "tls-p12"
       && (password != "" ==> a[SecretsPkcs12Password] == password)
       && Split(a[SecretsScope], ',')
          == ["listener-volume=listener-broker", "listener-volume=listener-bootstrap", "pod", "node"]
  }

  lemma ScopesReadBack()
    ensures Split(Join(TLS_SCOPES, ','), ',') == TLS_SCOPES
  {
    assert ',' !in TLS_SCOPES[0] && ',' !in TLS_SCOPES[1] && ',' !in TLS_SCOPES[2] && ',' !in TLS_SCOPES[3];
    SplitJoin(TLS_SCOPES, ',');
  }

  lemma TlsAnnotationsExact(secretClass: string, password: string)
    ensures IsKeystore(EphemeralSecret(Some(TlsAnnotations(secretClass, password))), secretClass, password)
  {
    var a := TlsAnnotations(secretClass, password);
    assert a.Keys == {SecretsClass, SecretsScope, SecretsFormat}
                     + (if password == "" then {} else {SecretsPkcs12Password});
    assert a[SecretsScope] == Join(TLS_SCOPES, ',');
    ScopesReadBack();
  }

  /** The documented request: a non-empty lifetime is passed on as an annotation. */
  ghost predicate LifetimeRequested(lifetime: string, annotations: Annotations)
  {
    lifetime != "" ==> SecretCertLifeTime in annotations && annotations[SecretCertLifeTime] == lifetime
  }

  /** The request reaches the volume if and only if there was none. */
  lemma LifetimeReachesVolumeIffEmpty(secretClass: string, password: string, lifetime: string)
    ensures LifetimeRequested(lifetime, TlsAnnotations(secretClass, password)) <==> lifetime == ""
    ensures SecretsPkcs12Password in TlsAnnotations(secretClass, password) <==> password != ""
  {
  }

  function TlsVolumes(k: KafkaSecurity): seq<Volume>
  {
    (if k.serverSecretClass == "" then []
     else [Volume(KEYSTORE_SERVER, EphemeralSecret(Some(TlsAnnotations(k.serverSecretClass, k.sslStorePassword))))])
    + (if k.internalSecretClass == "" then []
       else [Volume(KEYSTORE_INTERNAL,
                    EphemeralSecret(Some(TlsAnnotations(k.internalSecretClass, k.sslStorePassword))))])
  }

  function TlsMounts(k: KafkaSecurity): seq<VolumeMount>
  {
    (if k.serverSecretClass == "" then [] else [VolumeMount(KEYSTORE_SERVER, KEYSTORE_SERVER_DIR)])
    + (if k.internalSecretClass == "" then [] else [VolumeMount(KEYSTORE_INTERNAL, KEYSTORE_INTERNAL_DIR)])
  }

  /** In every cluster, each keystore volume is added iff the user set its secret class, and is filled from it. */
  lemma KeystoresOfCluster(cluster: ClusterConfig)
    ensures var volumes := TlsVolumes(NewKafkaSecurity(cluster));
            && ((exists i :: 0 <= i < |volumes| && volumes[i].name == "tls-keystore-server")
                <==> ServerClass(cluster) != "")
            && ((exists i :: 0 <= i < |volumes| && volumes[i].name == "tls-keystore-internal")
                <==> InternalClass(cluster) != "")
            && (forall i | 0 <= i < |volumes| ::
                  || (volumes[i].name == "tls-keystore-server"
                      && IsKeystore(volumes[i].source, ServerClass(cluster), StorePassword(cluster)))
                  || (volumes[i].name == "tls-keystore-internal"
                      && IsKeystore(volumes[i].source, InternalClass(cluster), StorePassword(cluster))))
  {
    var volumes := TlsVolumes(NewKafkaSecurity(cluster));
    SecurityOfCluster(cluster);
    TlsAnnotationsExact(ServerClass(cluster), StorePassword(cluster));
    TlsAnnotationsExact(InternalClass(cluster), StorePassword(cluster));
    assert |KEYSTORE_SERVER| == 19 && |KEYSTORE_INTERNAL| == 21;
    if ServerClass(cluster) != "" {
      assert volumes[0].name == KEYSTORE_SERVER;
    }
    if InternalClass(cluster) != "" {
      assert volumes[|volumes| - 1].name == KEYSTORE_INTERNAL;
    }
  }

  /** The appended volumes and mounts match one to one, by name and in order. */
  lemma TlsVolumesMatchMounts(k: KafkaSecurity)
    ensures |TlsVolumes(k)| == |TlsMounts(k)|
    ensures forall i | 0 <= i < |TlsVolumes(k)| :: TlsVolumes(k)[i].name == TlsMounts(k)[i].name
  {
  }

  // ---------- adding them to a StatefulSet ----------

  class StatefulSet {
    var name: string
    var serviceName: string
    var serviceAccountName: string
    var containers: array<Container>
    var volumes: seq<Volume>
    var claims: seq<Claim>

    /** `GetObject`: the governing service has the StatefulSet's own name. */
    constructor (name: string, containers: array<Container>, volumes: seq<Volume>, claims: seq<Claim>)
      ensures this.name == name && serviceName == name && serviceAccountName == "" && this.containers == containers
      ensures this.volumes == volumes && this.claims == claims
    {
      this.name, serviceName, serviceAccountName := name, name, "";
      this.containers, this.volumes, this.claims := containers, volumes, claims;
    }
  }

  predicate IsFirst(containers: seq<Container>, name: string, i: int)
  {
    && 0 <= i < |containers| && containers[i].name == name
    && forall j | 0 <= j < i :: containers[j].name != name
  }

  /** `getContainer`: the index stands for the returned element pointer, -1 for nil. */
  method GetContainer(containers: array<Container>, name: string) returns (i: int)
    ensures i == -1 || IsFirst(containers[..], name, i)
    ensures i == -1 <==> forall j | 0 <= j < containers.Length :: containers[j].name != name
  {
    for j := 0 to containers.Length
      invariant forall l | 0 <= l < j :: containers[l].name != name
    {
      if containers[j].name == name {
        return j;
      }
    }
    return -1;
  }

  /** `container.VolumeMounts = append(...)` through the element pointer; a nil pointer panics. */
  method AddVolumeMount(containers: array<Container>, i: int, mount: VolumeMount) returns (outcome: Outcome)
    requires -1 <= i < containers.Length
    modifies containers
    ensures outcome.Panicked? <==> i == -1
    ensures containers[..] == if i == -1 then old(containers[..])
                              else var c := old(containers[i]);
                                   old(containers[..])[i := c.(mounts := c.mounts + [mount])]
  {
    if i == -1 {
      return Panicked;
    }
    containers[i] := containers[i].(mounts := containers[i].mounts + [mount]);
    return Returned;
  }

  /**
   `AddVolumeAndVolumeMounts`: only the pod volumes and the mounts of the first container named
   "kafka" change, and both only grow at the end. Without such a container it panics as soon as a
   keystore has to be mounted, when that keystore's volume is already added.
   */
  method AddVolumeAndVolumeMounts(k: KafkaSecurity, sts: StatefulSet, lifetime: string) returns (outcome: Outcome)
    modifies sts`volumes, sts.containers
    ensures outcome.Panicked? <==>
              && (k.serverSecretClass != "" || k.internalSecretClass != "")
              && forall i | 0 <= i < sts.containers.Length :: old(sts.containers[i]).name != "kafka"
    ensures sts.volumes == old(sts.volumes) + if outcome.Returned? then TlsVolumes(k) else TlsVolumes(k)[..1]
    ensures forall i | 0 <= i < sts.containers.Length && !IsFirst(old(sts.containers[..]), "kafka", i) ::
              sts.containers[i] == old(sts.containers[i])
    ensures outcome.Returned? ==>
              forall i | IsFirst(old(sts.containers[..]), "kafka", i) ::
                sts.containers[i] == old(sts.containers[i]).(mounts := old(sts.containers[i]).mounts + TlsMounts(k))
  {
    var kafka := GetContainer(sts.containers, "kafka");
    if k.serverSecretClass != "" {
      outcome := AddKeystore(sts, kafka, KEYSTORE_SERVER, k.serverSecretClass, k.sslStorePassword, lifetime,
                             KEYSTORE_SERVER_DIR);
      if outcome.Panicked? {
        return;
      }
    }
    if k.internalSecretClass != "" {
      outcome := AddKeystore(sts, kafka, KEYSTORE_INTERNAL, k.internalSecretClass, k.sslStorePassword, lifetime,
                             KEYSTORE_INTERNAL_DIR);
      if outcome.Panicked? {
        return;
      }
    }
    return Returned;
  }

  /** One keystore: its volume is added before its mount, which panics without a container. */
  method AddKeystore(sts: StatefulSet, kafka: int, name: string, secretClass: string, password: string,
                     lifetime: string, dir: string)
    returns (outcome: Outcome)
    requires -1 <= kafka < sts.containers.Length
    modifies sts`volumes, sts.containers
    ensures outcome.Panicked? <==> kafka == -1
    ensures sts.volumes
         == old(sts.volumes) + [Volume(name, EphemeralSecret(Some(TlsAnnotations(secretClass, password))))]
    ensures sts.containers[..]
         == if kafka == -1 then old(sts.containers[..])
            else var c := old(sts.containers[kafka]);
                 old(sts.containers[..])[kafka := c.(mounts := c.mounts + [VolumeMount(name, dir)])]
  {
    var v := CreateTlsKeystoreVolume(name, secretClass, password, lifetime);
    sts.volumes := sts.volumes + [v];
    outcome := AddVolumeMount(sts.containers, kafka, VolumeMount(name, dir));
  }
}
