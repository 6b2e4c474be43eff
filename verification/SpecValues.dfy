/**
 The KafkaCluster specification as plain values: what a user wrote, without sharing.
 `None` is a nil pointer, nil map or nil slice, so it differs from an empty collection.
 Quantities are integers; affinity and role configuration, which the operator only passes
 on, are opaque text.
 */
module SpecValues {
  import opened Wrappers

  type Properties = map<string, string>

  datatype CpuResource = CpuResource(max: int, min: int)
  datatype MemoryResource = MemoryResource(limit: int)
  datatype StorageResource = StorageResource(capacity: int, storageClass: string)

  datatype Resources = Resources(
    cpu: Option<CpuResource>,
    memory: Option<MemoryResource>,
    storage: Option<StorageResource>)

  datatype Logging = Logging(enableVectorAgent: Option<bool>)

  datatype RoleGroupConfig = RoleGroupConfig(
    affinity: Option<string>,
    gracefulShutdownTimeout: string,
    logging: Option<Logging>,
    resources: Option<Resources>)

  datatype BrokersConfig = BrokersConfig(
    roleGroupConfig: Option<RoleGroupConfig>,
    brokerListenerClass: string,
    bootstrapListenerClass: string,
    requestedSecretLifeTime: string)

  datatype Overrides = Overrides(
    cli: Option<seq<string>>,
    env: Option<Properties>,
    files: Option<map<string, Option<Properties>>>)

  datatype RoleGroup = RoleGroup(
    replicas: int,
    config: Option<BrokersConfig>,
    overrides: Option<Overrides>)

  datatype Brokers = Brokers(
    config: Option<BrokersConfig>,
    roleGroups: Option<map<string, Option<RoleGroup>>>,
    roleConfig: Option<string>,
    overrides: Option<Overrides>)

  datatype KerberosProvider = KerberosProvider(kerberosSecretClass: string)

  datatype Authentication = Authentication(
    authenticationClass: string,
    kerberos: Option<KerberosProvider>)

  datatype Tls = Tls(
    serverSecretClass: string,
    internalSecretClass: string,
    sslStorePassword: string)

  datatype ClusterConfig = ClusterConfig(
    clusterDomain: string,
    authentication: Option<seq<Authentication>>,
    tls: Option<Tls>,
    vectorAggregatorConfigMapName: string,
    zookeeperConfigMapName: string)

  datatype Image = Image(
    custom: string,
    repo: string,
    kubedoopVersion: string,
    productVersion: string,
    pullPolicy: Option<string>,
    pullSecretName: string)

  datatype ClusterOperation = ClusterOperation(stopped: bool, reconciliationPaused: bool)

  datatype ClusterSpec = ClusterSpec(
    image: Option<Image>,
    clusterConfig: Option<ClusterConfig>,
    clusterOperation: Option<ClusterOperation>,
    brokers: Option<Brokers>)
}
