/**
 The KafkaCluster specification as the Go program holds it: structs reached through pointers,
 maps and slices that may be shared. For a possibly nil pointer, `...Repr` is the set of mutable
 objects reachable from it and `...Value` what it denotes. Nothing here assumes that two pointers
 differ. Pointers inside the commons API that the operator never writes through are values here.
 */
module Objects {
  import opened Wrappers
  import opened SpecValues
  import opened GoHeap

  // ---------- types of the commons API ----------

  class RoleGroupConfigSpec {
    var affinity: Option<string>
    var gracefulShutdownTimeout: string
    var logging: Option<Logging>
    var resources: Ptr?<Resources>

    constructor (affinity: Option<string>, gracefulShutdownTimeout: string,
                 logging: Option<Logging>, resources: Ptr?<Resources>)
      ensures this.affinity == affinity && this.gracefulShutdownTimeout == gracefulShutdownTimeout
      ensures this.logging == logging && this.resources == resources
    {
      this.affinity, this.gracefulShutdownTimeout := affinity, gracefulShutdownTimeout;
      this.logging, this.resources := logging, resources;
    }
  }

  ghost function RoleGroupConfigRepr(c: RoleGroupConfigSpec?): set<object?>
    reads c
  {
    if c == null then {} else {c as object?, c.resources}
  }

  ghost function RoleGroupConfigValue(c: RoleGroupConfigSpec?): Option<RoleGroupConfig>
    reads RoleGroupConfigRepr(c)
  {
    if c == null then None
    else Some(RoleGroupConfig(c.affinity, c.gracefulShutdownTimeout, c.logging, Deref(c.resources)))
  }

  class OverridesSpec {
    var cliOverrides: Option<seq<string>>
    var envOverrides: StringMap?
    var configOverrides: FileMap?

    constructor (cli: Option<seq<string>>, env: StringMap?, config: FileMap?)
      ensures cliOverrides == cli && envOverrides == env && configOverrides == config
    {
      cliOverrides, envOverrides, configOverrides := cli, env, config;
    }
  }

  ghost function OverridesRepr(o: OverridesSpec?): set<object?>
    reads o, if o == null then {} else {o.configOverrides}
  {
    if o == null then {}
    else {o as object?, o.envOverrides, o.configOverrides}
         + if o.configOverrides == null then {} else o.configOverrides.m.Values
  }

  ghost function OverridesValue(o: OverridesSpec?): Option<Overrides>
    reads o, if o == null then {} else {o.envOverrides as object?, o.configOverrides},
      if o == null || o.configOverrides == null then {} else o.configOverrides.m.Values
  {
    if o == null then None
    else Some(Overrides(o.cliOverrides, MapValue(o.envOverrides), FilesValue(o.configOverrides)))
  }

  // ---------- types of the kafka API ----------

  class BrokersConfigSpec {
    var roleGroupConfig: RoleGroupConfigSpec?
    var brokerListenerClass: string
    var bootstrapListenerClass: string
    var requestedSecretLifeTime: string

    constructor (roleGroupConfig: RoleGroupConfigSpec?, brokerListenerClass: string,
                 bootstrapListenerClass: string, requestedSecretLifeTime: string)
      ensures this.roleGroupConfig == roleGroupConfig && this.brokerListenerClass == brokerListenerClass
      ensures this.bootstrapListenerClass == bootstrapListenerClass
      ensures this.requestedSecretLifeTime == requestedSecretLifeTime
    {
      this.roleGroupConfig, this.brokerListenerClass := roleGroupConfig, brokerListenerClass;
      this.bootstrapListenerClass, this.requestedSecretLifeTime := bootstrapListenerClass, requestedSecretLifeTime;
    }
  }

  ghost function BrokersConfigRepr(c: BrokersConfigSpec?): set<object?>
    reads c, if c == null then {} else RoleGroupConfigRepr(c.roleGroupConfig)
  {
    if c == null then {} else {c as object?} + RoleGroupConfigRepr(c.roleGroupConfig)
  }

  ghost function BrokersConfigValue(c: BrokersConfigSpec?): Option<BrokersConfig>
    reads BrokersConfigRepr(c)
  {
    if c == null then None
    else Some(BrokersConfig(RoleGroupConfigValue(c.roleGroupConfig), c.brokerListenerClass,
                            c.bootstrapListenerClass, c.requestedSecretLifeTime))
  }

  class BrokersRoleGroupSpec {
    var replicas: int
    var config: BrokersConfigSpec?
    var overrides: OverridesSpec?

    constructor (replicas: int, config: BrokersConfigSpec?, overrides: OverridesSpec?)
      ensures this.replicas == replicas && this.config == config && this.overrides == overrides
    {
      this.replicas, this.config, this.overrides := replicas, config, overrides;
    }
  }

  ghost function RoleGroupRepr(g: BrokersRoleGroupSpec?): set<object?>
    reads g, if g == null then {} else BrokersConfigRepr(g.config),
      if g == null then {} else OverridesRepr(g.overrides)
  {
    if g == null then {} else {g as object?} + BrokersConfigRepr(g.config) + OverridesRepr(g.overrides)
  }

  ghost function RoleGroupValue(g: BrokersRoleGroupSpec?): Option<RoleGroup>
    reads RoleGroupRepr(g)
  {
    if g == null then None
    else Some(RoleGroup(g.replicas, BrokersConfigValue(g.config), OverridesValue(g.overrides)))
  }

  /** `map[string]*BrokersRoleGroupSpec`; entries may be nil. */
  class RoleGroupMap {
    var m: map<string, BrokersRoleGroupSpec?>

    constructor (m: map<string, BrokersRoleGroupSpec?>)
      ensures this.m == m
    {
      this.m := m;
    }
  }

  ghost function RoleGroupsRepr(p: RoleGroupMap?): set<object?>
    reads p, if p == null then {} else set g, o | g in p.m.Values && o in RoleGroupRepr(g) :: o
  {
    if p == null then {} else {p as object?} + set g, o | g in p.m.Values && o in RoleGroupRepr(g) :: o
  }

  ghost function RoleGroupsValue(p: RoleGroupMap?): Option<map<string, Option<RoleGroup>>>
    reads p, if p == null then {} else set g, o | g in p.m.Values && o in RoleGroupRepr(g) :: o
  {
    if p == null then None else Some(map name | name in p.m :: RoleGroupValue(p.m[name]))
  }

  class BrokersSpec {
    var config: BrokersConfigSpec?
    var roleGroups: RoleGroupMap?
    var roleConfig: Ptr?<string>
    var overrides: OverridesSpec?

    constructor (config: BrokersConfigSpec?, roleGroups: RoleGroupMap?, roleConfig: Ptr?<string>,
                 overrides: OverridesSpec?)
      ensures this.config == config && this.roleGroups == roleGroups
      ensures this.roleConfig == roleConfig && this.overrides == overrides
    {
      this.config, this.roleGroups := config, roleGroups;
      this.roleConfig, this.overrides := roleConfig, overrides;
    }
  }

  ghost function BrokersRepr(b: BrokersSpec?): set<object?>
    reads b, if b == null then {} else BrokersConfigRepr(b.config),
      if b == null then {} else RoleGroupsRepr(b.roleGroups),
      if b == null then {} else OverridesRepr(b.overrides)
  {
    if b == null then {}
    else {b as object?, b.roleConfig} + BrokersConfigRepr(b.config)
         + RoleGroupsRepr(b.roleGroups) + OverridesRepr(b.overrides)
  }

  ghost function BrokersValue(b: BrokersSpec?): Option<Brokers>
    reads BrokersRepr(b)
  {
    if b == null then None
    else Some(Brokers(BrokersConfigValue(b.config), RoleGroupsValue(b.roleGroups),
                      Deref(b.roleConfig), OverridesValue(b.overrides)))
  }

  /** One element of the authentication slice: a struct holding a pointer. */
  datatype AuthenticationSpec = AuthenticationSpec(
    authenticationClass: string,
    kerberos: Ptr?<KerberosProvider>)

  ghost function AuthenticationValue(a: AuthenticationSpec): Authentication
    reads a.kerberos
  {
    Authentication(a.authenticationClass, Deref(a.kerberos))
  }

  ghost function AuthenticationValues(s: seq<AuthenticationSpec>): (r: seq<Authentication>)
    reads set a | a in s :: a.kerberos
    ensures |r| == |s|
    ensures forall i | 0 <= i < |s| :: r[i] == AuthenticationValue(s[i])
  {
    if s == [] then []
    else AuthenticationValues(s[..|s| - 1]) + [AuthenticationValue(s[|s| - 1])]
  }

  class ClusterConfigSpec {
    var clusterDomain: string
    var authentication: array?<AuthenticationSpec>
    var tls: Ptr?<Tls>
    var vectorAggregatorConfigMapName: string
    var zookeeperConfigMapName: string

    constructor (clusterDomain: string, authentication: array?<AuthenticationSpec>, tls: Ptr?<Tls>,
                 vectorAggregatorConfigMapName: string, zookeeperConfigMapName: string)
      ensures this.clusterDomain == clusterDomain && this.authentication == authentication && this.tls == tls
      ensures this.vectorAggregatorConfigMapName == vectorAggregatorConfigMapName
      ensures this.zookeeperConfigMapName == zookeeperConfigMapName
    {
      this.clusterDomain, this.authentication, this.tls := clusterDomain, authentication, tls;
      this.vectorAggregatorConfigMapName := vectorAggregatorConfigMapName;
      this.zookeeperConfigMapName := zookeeperConfigMapName;
    }
  }

  ghost function ClusterConfigRepr(c: ClusterConfigSpec?): set<object?>
    reads c, if c == null then {} else {c.authentication}
  {
    if c == null then {}
    else {c as object?, c.authentication, c.tls}
         + if c.authentication == null then {} else set a | a in c.authentication[..] :: a.kerberos
  }

  ghost function ClusterConfigValue(c: ClusterConfigSpec?): Option<ClusterConfig>
    reads ClusterConfigRepr(c)
  {
    if c == null then None
    else Some(ClusterConfig(
      c.clusterDomain,
      if c.authentication == null then None else Some(AuthenticationValues(c.authentication[..])),
      Deref(c.tls), c.vectorAggregatorConfigMapName, c.zookeeperConfigMapName))
  }

  class ImageSpec {
    var custom: string
    var repo: string
    var kubedoopVersion: string
    var productVersion: string
    var pullPolicy: Ptr?<string>
    var pullSecretName: string

    constructor (custom: string, repo: string, kubedoopVersion: string, productVersion: string,
                 pullPolicy: Ptr?<string>, pullSecretName: string)
      ensures this.custom == custom && this.repo == repo && this.kubedoopVersion == kubedoopVersion
      ensures this.productVersion == productVersion && this.pullPolicy == pullPolicy
      ensures this.pullSecretName == pullSecretName
    {
      this.custom, this.repo, this.kubedoopVersion := custom, repo, kubedoopVersion;
      this.productVersion, this.pullPolicy, this.pullSecretName := productVersion, pullPolicy, pullSecretName;
    }
  }

  ghost function ImageRepr(i: ImageSpec?): set<object?>
    reads i
  {
    if i == null then {} else {i as object?, i.pullPolicy}
  }

  ghost function ImageValue(i: ImageSpec?): Option<Image>
    reads ImageRepr(i)
  {
    if i == null then None
    else Some(Image(i.custom, i.repo, i.kubedoopVersion, i.productVersion, Deref(i.pullPolicy), i.pullSecretName))
  }

  class KafkaClusterSpec {
    var image: ImageSpec?
    var clusterConfig: ClusterConfigSpec?
    var clusterOperation: Ptr?<ClusterOperation>
    var brokers: BrokersSpec?

    constructor (image: ImageSpec?, clusterConfig: ClusterConfigSpec?,
                 clusterOperation: Ptr?<ClusterOperation>, brokers: BrokersSpec?)
      ensures this.image == image && this.clusterConfig == clusterConfig
      ensures this.clusterOperation == clusterOperation && this.brokers == brokers
    {
      this.image, this.clusterConfig := image, clusterConfig;
      this.clusterOperation, this.brokers := clusterOperation, brokers;
    }
  }

  ghost function ClusterSpecRepr(k: KafkaClusterSpec): set<object?>
    reads k, ImageRepr(k.image), ClusterConfigRepr(k.clusterConfig), BrokersRepr(k.brokers)
  {
    {k as object?, k.clusterOperation} + ImageRepr(k.image)
    + ClusterConfigRepr(k.clusterConfig) + BrokersRepr(k.brokers)
  }

  ghost function ClusterSpecValue(k: KafkaClusterSpec): ClusterSpec
    reads ClusterSpecRepr(k)
  {
    ClusterSpec(ImageValue(k.image), ClusterConfigValue(k.clusterConfig),
                Deref(k.clusterOperation), BrokersValue(k.brokers))
  }
}
