/**
 The security choices of internal/security: which listeners are encrypted, on which ports they
 are served and which keystore settings server.properties receives.
 */
module Security {
  import opened Wrappers
  import opened SpecValues

  const CLIENT_PORT_NAME := "kafka"
  const SECURE_CLIENT_PORT_NAME := "kafka-tls"
  const METRICS_PORT_NAME := "metrics"
  const BOOTSTRAP_PORT_NAME := "bootstrap"

  const CLIENT_PORT := 9092
  const SECURITY_CLIENT_PORT := 9093
  const INTERNAL_PORT := 19092
  const SECURITY_INTERNAL_PORT := 19093
  const METRICS_PORT := 9606
  const BOOTSTRAP_PORT := 9094
  const BOOTSTRAP_SECURE_PORT := 9095

  const KEYSTORE_SERVER_DIR := "/kubedoop/tls_keystore_server"
  const KEYSTORE_INTERNAL_DIR := "/kubedoop/tls_keystore_internal"

  // ---------- the security object ----------

  predicate UsesKerberos(a: Authentication)
  {
    a.kerberos.Some? && a.kerberos.value.kerberosSecretClass != ""
  }

  function Authentications(cluster: ClusterConfig): seq<Authentication>
  {
    if cluster.authentication.Some? then cluster.authentication.value else []
  }

  /** Holds the cluster, as the source's Kerberos object holds the role that points at it. */
  datatype KerberosAuthentication = KerberosAuthentication(cluster: ClusterConfig)

  datatype KafkaSecurity = KafkaSecurity(
    authentications: seq<Authentication>,
    resolvedAuthenticationClass: string,
    internalSecretClass: string,
    serverSecretClass: string,
    sslStorePassword: string,
    kerberosAuth: Option<KerberosAuthentication>)
  {
    predicate IsKerberosEnabled()
    {
      exists i | 0 <= i < |authentications| :: UsesKerberos(authentications[i])
    }

    predicate TlsEnabled()
    {
      resolvedAuthenticationClass != "" || serverSecretClass != ""
    }

    function ClientPort(): int
    {
      if TlsEnabled() then SECURITY_CLIENT_PORT else CLIENT_PORT
    }

    function BootstrapPort(): int
    {
      if TlsEnabled() then BOOTSTRAP_SECURE_PORT else BOOTSTRAP_PORT
    }

    function ClientPortName(): string
    {
      if TlsEnabled() then SECURE_CLIENT_PORT_NAME else CLIENT_PORT_NAME
    }

    function InternalPort(): int
    {
      if internalSecretClass != "" || IsKerberosEnabled() then SECURITY_INTERNAL_PORT else INTERNAL_PORT
    }

    /** `GetKerberosAuth`: an error when Kerberos is on but the object is missing. */
    function GetKerberosAuth(): Result<Option<KerberosAuthentication>>
    {
      if IsKerberosEnabled() then
        if kerberosAuth.None? then Err("kerberos is enabled, but has a nil kerberos auth in KafkaSecurit")
        else Ok(kerberosAuth)
      else Ok(None)
    }
  }

  /** `NewKafkaSecurity`. The source dereferences the cluster configuration, so it must be present. */
  function NewKafkaSecurity(cluster: ClusterConfig): KafkaSecurity
  {
    var instance := KafkaSecurity(Authentications(cluster), "", "", "", "", None);
    var instance :=
      if cluster.tls.None? then instance
      else instance.(internalSecretClass := cluster.tls.value.internalSecretClass,
                     serverSecretClass := cluster.tls.value.serverSecretClass,
                     sslStorePassword := cluster.tls.value.sslStorePassword);
    if instance.IsKerberosEnabled() then instance.(kerberosAuth := Some(KerberosAuthentication(cluster)))
    else instance
  }

  // ---------- what the user asked for ----------

  predicate KerberosOn(cluster: ClusterConfig)
  {
    exists i | 0 <= i < |Authentications(cluster)| :: UsesKerberos(Authentications(cluster)[i])
  }

  /** The secret class of the user's TLS section for clients; empty without one. */
  function ServerClass(cluster: ClusterConfig): string
  {
    if cluster.tls.Some? then cluster.tls.value.serverSecretClass else ""
  }

  /** The same for traffic between brokers. */
  function InternalClass(cluster: ClusterConfig): string
  {
    if cluster.tls.Some? then cluster.tls.value.internalSecretClass else ""
  }

  function StorePassword(cluster: ClusterConfig): string
  {
    if cluster.tls.Some? then cluster.tls.value.sslStorePassword else ""
  }

  /** Every choice of the security object goes back to the user's own field. */
  lemma SecurityOfCluster(cluster: ClusterConfig)
    ensures var k := NewKafkaSecurity(cluster);
            && (k.IsKerberosEnabled() <==> KerberosOn(cluster))
            && (k.TlsEnabled() <==> ServerClass(cluster) != "")
            && k.serverSecretClass == ServerClass(cluster) && k.internalSecretClass == InternalClass(cluster)
            && k.sslStorePassword == StorePassword(cluster) && k.resolvedAuthenticationClass == ""
            && k.ClientPort() == (if ServerClass(cluster) != "" then 9093 else 9092)
            && k.ClientPortName() == (if ServerClass(cluster) != "" then "kafka-tls" else "kafka")
            && k.BootstrapPort() == (if ServerClass(cluster) != "" then 9095 else 9094)
            && k.InternalPort() == (if InternalClass(cluster) != "" || KerberosOn(cluster) then 19093 else 19092)
  {
  }

  /** A cluster with Kerberos and no TLS section. */
  const KERBEROS_ONLY := ClusterConfig(
    "cluster.local", Some([Authentication("", Some(KerberosProvider("kerberos")))]), None, "", "znode")

  /** The loop of `IsKerberosEnabled`. */
  method ScanKerberosEnabled(k: KafkaSecurity) returns (enabled: bool)
    ensures enabled <==> k.IsKerberosEnabled()
  {
    for i := 0 to |k.authentications|
      invariant forall j | 0 <= j < i :: !UsesKerberos(k.authentications[j])
    {
      if UsesKerberos(k.authentications[i]) {
        return true;
      }
    }
    return false;
  }

  ghost predicate IsFirstKerberos(auths: seq<Authentication>, i: nat)
  {
    && i < |auths|
    && UsesKerberos(auths[i])
    && forall j | 0 <= j < i :: !UsesKerberos(auths[j])
  }

  /** The loop of `GetKerberosSecretClass`: the class of the first Kerberos entry, or "". */
  method ScanKerberosSecretClass(cluster: ClusterConfig) returns (secretClass: string)
    ensures secretClass == KerberosSecretClass(Authentications(cluster))
    ensures forall i: nat | IsFirstKerberos(Authentications(cluster), i) ::
              secretClass == Authentications(cluster)[i].kerberos.value.kerberosSecretClass
    ensures secretClass != "" <==> exists i: nat :: IsFirstKerberos(Authentications(cluster), i)
  {
    var auths := Authentications(cluster);
    KerberosSecretClassIsFirst(auths);
    for i := 0 to |auths|
      invariant forall j | 0 <= j < i :: !UsesKerberos(auths[j])
    {
      if UsesKerberos(auths[i]) {
        assert IsFirstKerberos(auths, i);
        return auths[i].kerberos.value.kerberosSecretClass;
      }
    }
    return "";
  }

  function KerberosSecretClass(auths: seq<Authentication>): string
  {
    if auths == [] then ""
    else if UsesKerberos(auths[0]) then auths[0].kerberos.value.kerberosSecretClass
    else KerberosSecretClass(auths[1..])
  }

  lemma {:induction false} KerberosSecretClassIsFirst(auths: seq<Authentication>)
    ensures forall i: nat | IsFirstKerberos(auths, i) ::
              KerberosSecretClass(auths) == auths[i].kerberos.value.kerberosSecretClass
    ensures KerberosSecretClass(auths) != "" <==> exists i | 0 <= i < |auths| :: UsesKerberos(auths[i])
    ensures KerberosSecretClass(auths) != "" <==> exists i: nat :: IsFirstKerberos(auths, i)
  {
    if auths != [] {
      var rest := auths[1..];
      KerberosSecretClassIsFirst(rest);
      if UsesKerberos(auths[0]) {
        assert IsFirstKerberos(auths, 0);
      } else {
        forall i: nat | IsFirstKerberos(auths, i)
          ensures IsFirstKerberos(rest, i - 1)
        {
        }
        if KerberosSecretClass(rest) != "" {
          var i: nat :| IsFirstKerberos(rest, i);
          assert IsFirstKerberos(auths, i + 1);
        }
      }
    }
  }

  /**
   The two independent scans over the authentication list agree, and a security object made by
   `NewKafkaSecurity` never yields a missing Kerberos object where one is dereferenced.
   */
  lemma KerberosScansAgree(cluster: ClusterConfig)
    ensures var k := NewKafkaSecurity(cluster);
            && (k.IsKerberosEnabled() <==> KerberosSecretClass(Authentications(cluster)) != "")
            && (k.IsKerberosEnabled() <==> k.kerberosAuth.Some?)
            && k.GetKerberosAuth() == Ok(k.kerberosAuth)
            && (k.IsKerberosEnabled() ==>
                  KerberosSecretClass(Authentications(k.kerberosAuth.value.cluster)) != "")
  {
    KerberosSecretClassIsFirst(Authentications(cluster));
  }

  // ---------- keystore settings ----------

  datatype StoreItem =
    | KeystoreLocation | KeystorePassword | KeystoreType
    | TruststoreLocation | TruststorePassword | TruststoreType
  {
    function Text(): string
    {
      match this
      case KeystoreLocation => "keystore.location"
      case KeystorePassword => "keystore.password"
      case KeystoreType => "keystore.type"
      case TruststoreLocation => "truststore.location"
      case TruststorePassword => "truststore.password"
      case TruststoreType => "truststore.type"
    }

    /** What a broker must find under this item to use the stores in `dir`. */
    function Expected(dir: string, password: string): string
    {
      match this
      case KeystoreLocation => dir + "/keystore.p12"
      case TruststoreLocation => dir + "/truststore.p12"
      case KeystorePassword | TruststorePassword => password
      case KeystoreType | TruststoreType => "PKCS12"
    }
  }

  /** Kafka's per-listener key: `listener.name.<listener in lower case>.ssl.<item>`. */
  function SslKey(segment: string, item: string): string
  {
    "listener.name." + (segment + (".ssl." + item))
  }

  const INTER_BROKER_LISTENER_NAME := "inter.broker.listener.name"
  const SASL_ENABLED_MECHANISMS := "sasl.enabled.mechanisms"
  const SASL_KERBEROS_SERVICE_NAME := "sasl.kerberos.service.name"
  const SASL_INTER_BROKER_PROTOCOL := "sasl.mechanism.inter.broker.protocol"

  /** The six store settings the source writes out for each encrypted listener. */
  method WriteStore(config: Properties, segment: string, dir: string, password: string) returns (r: Properties)
    ensures r == config + StoreSettings(segment, dir, password)
  {
    r := config[SslKey(segment, KeystoreLocation.Text()) := dir + "/keystore.p12"];
    r := r[SslKey(segment, KeystorePassword.Text()) := password];
    r := r[SslKey(segment, KeystoreType.Text()) := "PKCS12"];
    r := r[SslKey(segment, TruststoreLocation.Text()) := dir + "/truststore.p12"];
    r := r[SslKey(segment, TruststorePassword.Text()) := password];
    r := r[SslKey(segment, TruststoreType.Text()) := "PKCS12"];
  }

  method WriteClient(config: Properties, k: KafkaSecurity) returns (r: Properties)
    ensures r == config + ClientSettings(k)
  {
    r := config;
    if k.resolvedAuthenticationClass != "" {
      r := WriteStore(r, "client_auth", KEYSTORE_SERVER_DIR, k.sslStorePassword);
      r := r[SslKey("client_auth", CLIENT_AUTH_ITEM) := "required"];
    } else if k.serverSecretClass != "" {
      r := WriteStore(r, "client", KEYSTORE_SERVER_DIR, k.sslStorePassword);
    }
  }

  method WriteSasl(config: Properties, k: KafkaSecurity) returns (r: Properties)
    ensures r == config + SaslSettings(k)
  {
    r := config;
    if k.IsKerberosEnabled() {
      r := r[SASL_ENABLED_MECHANISMS := "GSSAPI"];
      r := r[SASL_KERBEROS_SERVICE_NAME := "kafka"];
      r := r[SASL_INTER_BROKER_PROTOCOL := "GSSAPI"];
    }
  }

  method WriteInternal(config: Properties, k: KafkaSecurity) returns (r: Properties)
    ensures r == config + InternalSettings(k)
  {
    r := config;
    if k.internalSecretClass != "" {
      r := WriteStore(r, "internal", KEYSTORE_INTERNAL_DIR, k.sslStorePassword);
      r := r[SslKey("internal", CLIENT_AUTH_ITEM) := "required"];
    }
  }

  method WriteBootstrap(config: Properties, k: KafkaSecurity) returns (r: Properties)
    ensures r == config + BootstrapSettings(k)
  {
    r := config;
    if k.IsKerberosEnabled() {
      r := WriteStore(r, "bootstrap", KEYSTORE_SERVER_DIR, k.sslStorePassword);
    }
  }

  /** The method `ConfigSettings`: the source's writes, in the source's order. */
  method ConfigSettings(k: KafkaSecurity) returns (config: Properties)
    ensures config == Settings(k)
  {
    config := WriteClient(map[], k);
    EmptyIsNeutral(ClientSettings(k));
    config := WriteBootstrap(config, k);
    config := WriteSasl(config, k);
    config := WriteInternal(config, k);
    UpdateIsUnion(config, INTER_BROKER_LISTENER_NAME, "INTERNAL");
    config := config[INTER_BROKER_LISTENER_NAME := "INTERNAL"];
  }

  lemma UpdateIsUnion(m: Properties, key: string, value: string)
    ensures m[key := value] == m + map[key := value]
  {
  }

  lemma EmptyIsNeutral(m: Properties)
    ensures map[] + m == m
  {
  }

  function StoreSettings(segment: string, dir: string, password: string): Properties
  {
    map[SslKey(segment, KeystoreLocation.Text()) := KeystoreLocation.Expected(dir, password),
        SslKey(segment, KeystorePassword.Text()) := KeystorePassword.Expected(dir, password),
        SslKey(segment, KeystoreType.Text()) := KeystoreType.Expected(dir, password),
        SslKey(segment, TruststoreLocation.Text()) := TruststoreLocation.Expected(dir, password),
        SslKey(segment, TruststorePassword.Text()) := TruststorePassword.Expected(dir, password),
        SslKey(segment, TruststoreType.Text()) := TruststoreType.Expected(dir, password)]
  }

  function ClientSettings(k: KafkaSecurity): Properties
  {
    if k.resolvedAuthenticationClass != "" then
      StoreSettings("client_auth", KEYSTORE_SERVER_DIR, k.sslStorePassword)
        + map[SslKey("client_auth", CLIENT_AUTH_ITEM) := "required"]
    else if k.serverSecretClass != "" then
      StoreSettings("client", KEYSTORE_SERVER_DIR, k.sslStorePassword)
    else map[]
  }

  function BootstrapSettings(k: KafkaSecurity): Properties
  {
    if k.IsKerberosEnabled() then StoreSettings("bootstrap", KEYSTORE_SERVER_DIR, k.sslStorePassword) else map[]
  }

  function SaslSettings(k: KafkaSecurity): Properties
  {
    if k.IsKerberosEnabled() then
      map[SASL_ENABLED_MECHANISMS := "GSSAPI",
          SASL_KERBEROS_SERVICE_NAME := "kafka",
          SASL_INTER_BROKER_PROTOCOL := "GSSAPI"]
    else map[]
  }

  function InternalSettings(k: KafkaSecurity): Properties
  {
    if k.internalSecretClass != "" then
      StoreSettings("internal", KEYSTORE_INTERNAL_DIR, k.sslStorePassword)
        + map[SslKey("internal", CLIENT_AUTH_ITEM) := "required"]
    else map[]
  }

  /** The settings as a union of blocks, one per group of writes. */
  function Settings(k: KafkaSecurity): Properties
  {
    ClientSettings(k) + BootstrapSettings(k) + SaslSettings(k) + InternalSettings(k)
      + map[INTER_BROKER_LISTENER_NAME := "INTERNAL"]
  }

  // ---------- which settings are present, for every listener ----------

  function ClientDirs(k: KafkaSecurity): map<string, string>
  {
    if k.resolvedAuthenticationClass != "" then map["client_auth" := KEYSTORE_SERVER_DIR]
    else if k.serverSecretClass != "" then map["client" := KEYSTORE_SERVER_DIR]
    else map[]
  }

  function BootstrapDirs(k: KafkaSecurity): map<string, string>
  {
    if k.IsKerberosEnabled() then map["bootstrap" := KEYSTORE_SERVER_DIR] else map[]
  }

  function InternalDirs(k: KafkaSecurity): map<string, string>
  {
    if k.internalSecretClass != "" then map["internal" := KEYSTORE_INTERNAL_DIR] else map[]
  }

  /** The listeners that get store settings, with the directory their stores are read from. */
  function StoreDirs(k: KafkaSecurity): map<string, string>
  {
    ClientDirs(k) + BootstrapDirs(k) + InternalDirs(k)
  }

  const CLIENT_AUTH_ITEM := "client.auth"

  /** The last parts of per-listener keys that the settings use. */
  predicate IsItem(item: string)
  {
    || item == CLIENT_AUTH_ITEM
    || item == KeystoreLocation.Text() || item == KeystorePassword.Text() || item == KeystoreType.Text()
    || item == TruststoreLocation.Text() || item == TruststorePassword.Text() || item == TruststoreType.Text()
  }

  /** Where a shorter item could end a longer one there is no dot before it. */
  lemma NoItemEndsInItem(item: string, longer: string)
    requires IsItem(item) && IsItem(longer) && |item| < |longer|
    ensures longer[|longer| - |item| - 1] != '.'
  {
    assert |CLIENT_AUTH_ITEM| == 11 && |KeystoreLocation.Text()| == 17 && |KeystorePassword.Text()| == 17;
    assert |KeystoreType.Text()| == 13 && |TruststoreType.Text()| == 15;
    assert |TruststoreLocation.Text()| == 19 && |TruststorePassword.Text()| == 19;
  }

  /** A key determines its listener and its item, whatever characters the listener's name has. */
  lemma SslKeyInjective(segment: string, item: string, segment': string, item': string)
    requires IsItem(item) && IsItem(item')
    requires SslKey(segment, item) == SslKey(segment', item')
    ensures segment == segment' && item == item'
  {
    if |item| < |item'| {
      SuffixDot(segment, item, segment', item');
      NoItemEndsInItem(item, item');
    } else if |item'| < |item| {
      SuffixDot(segment', item', segment, item);
      NoItemEndsInItem(item', item);
    } else {
      var tail, tail' := segment + (".ssl." + item), segment' + (".ssl." + item');
      assert tail == SslKey(segment, item)[|"listener.name."|..] == tail';
      assert segment == tail[..|segment|] && ".ssl." + item == tail[|segment|..] == ".ssl." + item';
      assert item == (".ssl." + item)[|".ssl."|..];
    }
  }

  lemma SuffixDot(segment: string, item: string, segment': string, item': string)
    requires SslKey(segment, item) == SslKey(segment', item') && |item| < |item'|
    ensures item'[|item'| - |item| - 1] == '.'
  {
    var key := SslKey(segment, item);
    assert key[|key| - |item| - 1] == '.';
    assert key[|key| - |item'|..] == item';
  }

  lemma ItemTextsDiffer(item: StoreItem, item': StoreItem)
    ensures item.Text() == item'.Text() ==> item == item'
    ensures item.Text() != CLIENT_AUTH_ITEM
  {
  }

  lemma StoreSettingsLookup(written: string, dir: string, password: string, segment: string, item: StoreItem)
    ensures var m := StoreSettings(written, dir, password);
            var key := SslKey(segment, item.Text());
            && (key in m <==> segment == written)
            && (segment == written ==> m[key] == item.Expected(dir, password))
  {
    forall item': StoreItem | SslKey(segment, item.Text()) == SslKey(written, item'.Text())
      ensures segment == written && item == item'
    {
      SslKeyInjective(segment, item.Text(), written, item'.Text());
      ItemTextsDiffer(item, item');
    }
  }

  lemma SslKeyIsNotCommon(segment: string, item: string)
    ensures SslKey(segment, item) != INTER_BROKER_LISTENER_NAME
    ensures SslKey(segment, item) != SASL_ENABLED_MECHANISMS
    ensures SslKey(segment, item) != SASL_KERBEROS_SERVICE_NAME
    ensures SslKey(segment, item) != SASL_INTER_BROKER_PROTOCOL
  {
    assert SslKey(segment, item)[0] == 'l';
  }

  lemma ClientAuthKeyIsNoStoreKey(written: string, segment: string, item: StoreItem)
    ensures SslKey(written, CLIENT_AUTH_ITEM) != SslKey(segment, item.Text())
  {
    if SslKey(written, CLIENT_AUTH_ITEM) == SslKey(segment, item.Text()) {
      SslKeyInjective(written, CLIENT_AUTH_ITEM, segment, item.Text());
      ItemTextsDiffer(item, item);
    }
  }

  /** One block: present for exactly one listener name, with the stores of one directory. */
  ghost predicate StoresFor(m: Properties, dirs: map<string, string>, password: string, segment: string,
                            item: StoreItem)
  {
    var key := SslKey(segment, item.Text());
    && (key in m <==> segment in dirs)
    && (segment in dirs ==> m[key] == item.Expected(dirs[segment], password))
  }

  lemma StoreBlock(written: string, dir: string, password: string, segment: string, item: StoreItem)
    ensures StoresFor(StoreSettings(written, dir, password), map[written := dir], password, segment, item)
    ensures StoresFor(StoreSettings(written, dir, password) + map[SslKey(written, CLIENT_AUTH_ITEM) := "required"],
                      map[written := dir], password, segment, item)
  {
    StoreSettingsLookup(written, dir, password, segment, item);
    ClientAuthKeyIsNoStoreKey(written, segment, item);
  }

  lemma ClientBlock(k: KafkaSecurity, segment: string, item: StoreItem)
    ensures StoresFor(ClientSettings(k), ClientDirs(k), k.sslStorePassword, segment, item)
  {
    StoreBlock("client_auth", KEYSTORE_SERVER_DIR, k.sslStorePassword, segment, item);
    StoreBlock("client", KEYSTORE_SERVER_DIR, k.sslStorePassword, segment, item);
  }

  lemma BootstrapBlock(k: KafkaSecurity, segment: string, item: StoreItem)
    ensures StoresFor(BootstrapSettings(k), BootstrapDirs(k), k.sslStorePassword, segment, item)
  {
    StoreBlock("bootstrap", KEYSTORE_SERVER_DIR, k.sslStorePassword, segment, item);
  }

  lemma InternalBlock(k: KafkaSecurity, segment: string, item: StoreItem)
    ensures StoresFor(InternalSettings(k), InternalDirs(k), k.sslStorePassword, segment, item)
  {
    StoreBlock("internal", KEYSTORE_INTERNAL_DIR, k.sslStorePassword, segment, item);
  }

  lemma CommonSettingsHoldNoStores(k: KafkaSecurity, segment: string, item: StoreItem)
    ensures SslKey(segment, item.Text()) !in SaslSettings(k)
    ensures SslKey(segment, item.Text()) != INTER_BROKER_LISTENER_NAME
  {
    SslKeyIsNotCommon(segment, item.Text());
  }

  /**
   The settings say exactly which listeners have stores: for every listener name Kafka could ask
   about and every store item, the key is present if and only if the listener is in `StoreDirs`,
   and then it carries the value that listener needs.
   */
  lemma SettingsExact(k: KafkaSecurity, segment: string, item: StoreItem)
    ensures StoresFor(Settings(k), StoreDirs(k), k.sslStorePassword, segment, item)
  {
    ClientBlock(k, segment, item);
    BootstrapBlock(k, segment, item);
    InternalBlock(k, segment, item);
    CommonSettingsHoldNoStores(k, segment, item);
    FiveBlocks(ClientSettings(k), ClientDirs(k), BootstrapSettings(k), BootstrapDirs(k), SaslSettings(k),
               InternalSettings(k), InternalDirs(k), INTER_BROKER_LISTENER_NAME, k.sslStorePassword, segment, item);
  }

  lemma FiveBlocks(c: Properties, cd: map<string, string>, b: Properties, bd: map<string, string>, s: Properties,
                   i: Properties, id: map<string, string>, common: string,
                   password: string, segment: string, item: StoreItem)
    requires StoresFor(c, cd, password, segment, item)
    requires StoresFor(b, bd, password, segment, item)
    requires StoresFor(i, id, password, segment, item)
    requires SslKey(segment, item.Text()) !in s && SslKey(segment, item.Text()) != common
    ensures StoresFor(c + b + s + i + map[common := "INTERNAL"], cd + bd + id, password, segment, item)
  {
  }

  /** The listeners whose clients must present a certificate. */
  function MutualTls(k: KafkaSecurity): set<string>
  {
    (if k.resolvedAuthenticationClass != "" then {"client_auth"} else {})
    + (if k.internalSecretClass != "" then {"internal"} else {})
  }

  lemma StoresHoldNoClientAuth(written: string, dir: string, password: string, segment: string)
    ensures SslKey(segment, CLIENT_AUTH_ITEM) !in StoreSettings(written, dir, password)
    ensures SslKey(segment, CLIENT_AUTH_ITEM) == SslKey(written, CLIENT_AUTH_ITEM) <==> segment == written
  {
    forall item: StoreItem
      ensures SslKey(segment, CLIENT_AUTH_ITEM) != SslKey(written, item.Text())
    {
      ClientAuthKeyIsNoStoreKey(segment, written, item);
    }
    if SslKey(segment, CLIENT_AUTH_ITEM) == SslKey(written, CLIENT_AUTH_ITEM) {
      SslKeyInjective(segment, CLIENT_AUTH_ITEM, written, CLIENT_AUTH_ITEM);
    }
  }

  /** Client certificates are demanded on exactly those listeners, whatever name Kafka asks about. */
  lemma ClientAuthExact(k: KafkaSecurity, segment: string)
    ensures SslKey(segment, CLIENT_AUTH_ITEM) in Settings(k) <==> segment in MutualTls(k)
    ensures segment in MutualTls(k) ==> Settings(k)[SslKey(segment, CLIENT_AUTH_ITEM)] == "required"
  {
    var key := SslKey(segment, CLIENT_AUTH_ITEM);
    StoresHoldNoClientAuth("client_auth", KEYSTORE_SERVER_DIR, k.sslStorePassword, segment);
    StoresHoldNoClientAuth("client", KEYSTORE_SERVER_DIR, k.sslStorePassword, segment);
    StoresHoldNoClientAuth("bootstrap", KEYSTORE_SERVER_DIR, k.sslStorePassword, segment);
    StoresHoldNoClientAuth("internal", KEYSTORE_INTERNAL_DIR, k.sslStorePassword, segment);
    SslKeyIsNotCommon(segment, CLIENT_AUTH_ITEM);
    assert key in ClientSettings(k) <==> segment == "client_auth" && k.resolvedAuthenticationClass != "";
    assert key in InternalSettings(k) <==> segment == "internal" && k.internalSecretClass != "";
    assert key !in BootstrapSettings(k) && key !in SaslSettings(k);
  }

  lemma InterBrokerListenerIsInternal(k: KafkaSecurity)
    ensures INTER_BROKER_LISTENER_NAME in Settings(k)
    ensures Settings(k)[INTER_BROKER_LISTENER_NAME] == "INTERNAL"
  {
  }

  predicate IsSaslKey(key: string)
  {
    key in {"sasl.enabled.mechanisms", "sasl.kerberos.service.name", "sasl.mechanism.inter.broker.protocol"}
  }

  /** GSSAPI is set up exactly under Kerberos, for the service name "kafka". */
  lemma SaslExact(k: KafkaSecurity, key: string)
    requires IsSaslKey(key)
    ensures key in Settings(k) <==> k.IsKerberosEnabled()
    ensures k.IsKerberosEnabled() ==>
              Settings(k)[key] == if key == "sasl.kerberos.service.name" then "kafka" else "GSSAPI"
  {
    assert key[0] == 's';
    StoresHoldListenerKeys(k, key);
    if ListenerKey(key) {
      ListenerKeysStart(key);
    }
    assert key != INTER_BROKER_LISTENER_NAME;
    assert |SASL_ENABLED_MECHANISMS| == 23 && |SASL_KERBEROS_SERVICE_NAME| == 26 && |SASL_INTER_BROKER_PROTOCOL| == 36;
    OneOfBlocks(ClientSettings(k), BootstrapSettings(k), SaslSettings(k), InternalSettings(k),
                INTER_BROKER_LISTENER_NAME, key);
  }

  /** A store or client.auth key of some listener. */
  ghost predicate ListenerKey(key: string)
  {
    exists segment, item :: IsItem(item) && key == SslKey(segment, item)
  }

  lemma ListenerKeysStart(key: string)
    requires ListenerKey(key)
    ensures key != "" && key[0] == 'l'
  {
    var segment, item :| IsItem(item) && key == SslKey(segment, item);
    assert key[0] == "listener.name."[0];
  }

  lemma StoresHoldListenerKeys(k: KafkaSecurity, key: string)
    ensures key in ClientSettings(k) || key in BootstrapSettings(k) || key in InternalSettings(k) ==> ListenerKey(key)
  {
    if key in ClientSettings(k) {
      var segment := if k.resolvedAuthenticationClass != "" then "client_auth" else "client";
      StoreKeys(segment, KEYSTORE_SERVER_DIR, k.sslStorePassword, key);
    } else if key in BootstrapSettings(k) {
      StoreKeys("bootstrap", KEYSTORE_SERVER_DIR, k.sslStorePassword, key);
    } else if key in InternalSettings(k) {
      StoreKeys("internal", KEYSTORE_INTERNAL_DIR, k.sslStorePassword, key);
    }
  }

  lemma StoreKeys(segment: string, dir: string, password: string, key: string)
    requires key in StoreSettings(segment, dir, password) || key == SslKey(segment, CLIENT_AUTH_ITEM)
    ensures ListenerKey(key)
  {
    if key == SslKey(segment, CLIENT_AUTH_ITEM) {
      assert IsItem(CLIENT_AUTH_ITEM);
    } else {
      var item: StoreItem :| key == SslKey(segment, item.Text());
      assert IsItem(item.Text());
    }
  }

  lemma OneOfBlocks(c: Properties, b: Properties, s: Properties, i: Properties, common: string, key: string)
    ensures var all := c + b + s + i + map[common := "INTERNAL"];
            && (key in all <==> key in c || key in b || key in s || key in i || key == common)
            && (key !in i && key != common && key in s ==> all[key] == s[key])
  {
  }

  /** The settings hold nothing but keys of listeners, the three of SASL and the inter-broker listener. */
  lemma SettingsDomain(k: KafkaSecurity, key: string)
    requires key in Settings(k)
    ensures ListenerKey(key) || (IsSaslKey(key) && k.IsKerberosEnabled()) || key == INTER_BROKER_LISTENER_NAME
  {
    StoresHoldListenerKeys(k, key);
    OneOfBlocks(ClientSettings(k), BootstrapSettings(k), SaslSettings(k), InternalSettings(k),
                INTER_BROKER_LISTENER_NAME, key);
  }

  // ---------- the same in Kafka's and the user's terms ----------

  /** The key Kafka documents for one listener's setting. */
  function DocumentedKey(listener: string, item: string): string
  {
    "listener.name." + listener + ".ssl." + item
  }

  /** The settings Kafka documents for stores in `dir`. */
  function DocumentedStores(dir: string, password: string): map<string, string>
  {
    map["keystore.location" := dir + "/keystore.p12", "keystore.password" := password, "keystore.type" := "PKCS12",
        "truststore.location" := dir + "/truststore.p12", "truststore.password" := password,
        "truststore.type" := "PKCS12"]
  }

  /** The listeners that get stores: CLIENT and INTERNAL by their secret class, BOOTSTRAP with Kerberos. */
  predicate HasStores(cluster: ClusterConfig, listener: string)
  {
    || (listener == "client" && ServerClass(cluster) != "")
    || (listener == "internal" && InternalClass(cluster) != "")
    || (listener == "bootstrap" && KerberosOn(cluster))
  }

  function StoreDirectory(listener: string): string
  {
    if listener == "internal" then "/kubedoop/tls_keystore_internal" else "/kubedoop/tls_keystore_server"
  }

  lemma StoreDirsOfCluster(cluster: ClusterConfig, listener: string)
    ensures var dirs := StoreDirs(NewKafkaSecurity(cluster));
            && (listener in dirs <==> HasStores(cluster, listener))
            && (listener in dirs ==> dirs[listener] == StoreDirectory(listener))
  {
    SecurityOfCluster(cluster);
    assert |"client"| == 6 && |"internal"| == 8 && |"bootstrap"| == 9;
  }

  lemma DocumentedItem(dir: string, password: string, item: string)
    requires item in DocumentedStores(dir, password)
    ensures exists i: StoreItem ::
              i.Text() == item && i.Expected(dir, password) == DocumentedStores(dir, password)[item]
  {
    var i :=
      if item == "keystore.location" then KeystoreLocation
      else if item == "keystore.password" then KeystorePassword
      else if item == "keystore.type" then KeystoreType
      else if item == "truststore.location" then TruststoreLocation
      else if item == "truststore.password" then TruststorePassword else TruststoreType;
    ItemTextsDiffer(i, KeystoreLocation);
    assert i.Text() == item;
  }

  lemma KeyIsDocumented(listener: string, item: string)
    ensures SslKey(listener, item) == DocumentedKey(listener, item)
  {
  }

  lemma StoreSettingOfCluster(cluster: ClusterConfig, listener: string, item: string, value: string)
    requires var stores := DocumentedStores(StoreDirectory(listener), StorePassword(cluster));
             item in stores && value == stores[item]
    ensures var server := Settings(NewKafkaSecurity(cluster));
            && (DocumentedKey(listener, item) in server <==> HasStores(cluster, listener))
            && (HasStores(cluster, listener) ==> server[DocumentedKey(listener, item)] == value)
  {
    var k := NewKafkaSecurity(cluster);
    SecurityOfCluster(cluster);
    StoreDirsOfCluster(cluster, listener);
    DocumentedItem(StoreDirectory(listener), StorePassword(cluster), item);
    var i: StoreItem :| i.Text() == item && i.Expected(StoreDirectory(listener), StorePassword(cluster)) == value;
    SettingsExact(k, listener, i);
    KeyIsDocumented(listener, item);
  }

  /**
   For every cluster and every listener name: the settings Kafka documents are there exactly for the
   listeners that get stores, with the files of that listener's directory and the user's password,
   and clients of exactly the TLS internal listener must present a certificate.
   */
  lemma SettingsOfCluster(cluster: ClusterConfig, listener: string)
    ensures var server := Settings(NewKafkaSecurity(cluster));
            var stores := DocumentedStores(StoreDirectory(listener), StorePassword(cluster));
            && (forall item | item in stores ::
                  && (DocumentedKey(listener, item) in server <==> HasStores(cluster, listener))
                  && (HasStores(cluster, listener) ==> server[DocumentedKey(listener, item)] == stores[item]))
            && (DocumentedKey(listener, "client.auth") in server <==>
                  listener == "internal" && InternalClass(cluster) != "")
            && (DocumentedKey(listener, "client.auth") in server ==>
                  server[DocumentedKey(listener, "client.auth")] == "required")
  {
    var k := NewKafkaSecurity(cluster);
    var stores := DocumentedStores(StoreDirectory(listener), StorePassword(cluster));
    forall item | item in stores
      ensures DocumentedKey(listener, item) in Settings(k) <==> HasStores(cluster, listener)
      ensures HasStores(cluster, listener) ==> Settings(k)[DocumentedKey(listener, item)] == stores[item]
    {
      StoreSettingOfCluster(cluster, listener, item, stores[item]);
    }
    SecurityOfCluster(cluster);
    ClientAuthExact(k, listener);
    KeyIsDocumented(listener, "client.auth");
  }
}
