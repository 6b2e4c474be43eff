# A verified model of the Kafka operator

The operator turns a `KafkaCluster` resource into Kubernetes objects: it merges a role group's
configuration with defaults, decides which listeners a broker has and how they are secured, writes
the launch command and `server.properties`, assembles the StatefulSet, registers everything and
publishes bootstrap addresses. This project models that path in Dafny and proves what has to hold
between its stages.

Check it with `dafny verify dfyconfig.toml`.

## Results

- **Launch coherence.** For every security setting, every container and every user override, what a
  broker reads from the three listener texts of its launch command, after the shell has expanded
  them, and from the final `server.properties` fits together: same names in both lists, each port
  bound once, a protocol for every listener, an inter-broker listener that exists (`Broker.Launch`).
  It reads what was compiled if and only if neither the names nor the container's values contain the
  punctuation of the lists.
- **SSL closure.** Every listener that speaks SSL has its six store settings, and they point into a
  directory that the container mounts from a keystore of the user's own secret class for that listener,
  opened by the user's password, if and only if Kerberos is off or both secret classes are set
  (`StatefulSetBuilder.SslClosureExact`, and through the broker's eyes `Broker.LaunchHasStores`).
- **Ports and protocols.** They agree if and only if Kerberos is off or the user set the server secret class
  (`ListenerCompiler.PortsMatchProtocolsExact`). What every cluster binds, advertises and encrypts is stated
  on the user's own fields (`ListenerCompiler.BoundOfCluster`, `ListenerCompiler.ProtocolsOfCluster`,
  `ListenerCompiler.AdvertisedOfCluster`). An external listener is advertised with the declared port it binds
  unless it is BOOTSTRAP, which is advertised with the client's (`Discovery.AdvertisedPortBoundIff`).
- **Files.** No path is covered by two mounts, and every file a broker keeps or reads lies on the right volume
  or claim if and only if the user's settings call for its directory: topic data on the claimed storage, the
  launch command's server.properties in the group's own ConfigMap, address and port in the listener of the
  broker's class, each store in the keystore of its own secret class (`BrokerFiles.FileProvided`,
  `BrokerFiles.MountsNeverOverlap`).
- **Merge.** `mergeOverrides` writes into Go maps in arbitrary order, and the user's files may share maps.
  It panics if and only if a default meets a nil file map, removes or replaces no file even then, loses
  no user entry, and fills each map from the defaults of the files it is held under; without sharing
  this is a user-biased union (`OverrideMerge.MergeOverrides`, `OverrideMerge.MergedExactly`). A second
  call ends like the first, also if that is a panic. If they return, configuration, arguments,
  environment, the user's maps and the installed default maps hold what one call leaves, under any
  sharing (`ConfigMerge.MergeTwice`).
- **End to end.** From any user input, nil and partial included, assembling a role group panics if and
  only if a property file is given as a nil map or logging is given without the log agent's flag. Each field
  the user left out takes the default of that same field (`ConfigMerge.FilledConfigExact`).
  Otherwise the configuration is complete, the property files are known for any sharing of maps and have
  the documented precedence unless one map is used for both. The ConfigMap fails if and only if a file
  cannot be rendered, or the log agent is on and its aggregator is not named or its configuration cannot
  be rendered; the StatefulSet if and only if the library fails (`Broker.Assemble`,
  `ServerProperties.FilesOfOwnMaps`).
- **All role groups.** Groups may share overrides, maps of files and single maps; all merges run before any
  build, and every build writes into the map it reads. No merge changes what another group's merge will
  give or has given, so every group gets the files of its own input, in every order of merging and of
  building (`GroupFiles.MergeStep`, `GroupFiles.FilesOfGroups`). The one condition is that no map is one
  group's server.properties and another's security.properties, unless both use it for both;
  `GroupFiles.MergeCrossed` and `GroupFiles.MergeCrossedBoth` say exactly when such a map goes wrong.
- **Registration.** The loop over role groups, with the merge it runs for each, ends early if and only if
  the specification is incomplete or some group is nil, has such a nil file or cannot be combined with the
  role, in every order and however groups share their objects. Otherwise the same objects are registered in
  every order, with pairwise different names if and only if no role group is named like another plus
  `-metrics`, and everything that a group's StatefulSet refers to by name is among them
  (`Registration.RegisterResources`).
- **Deep copy.** The copy of a whole specification is equal, consists of new objects only and is separate
  from the original (`DeepCopy.CopyClusterSpec`). No write to anything that existed before shows in the
  copy (`DeepCopy.CopyOutlivesOriginal`), and no write to the objects of a separate copy shows in the
  original (`DeepCopy.OriginalOutlivesCopy`), whatever sharing the original has.
- **Mount closure.** For every combination of Kerberos and TLS, what volumes and claims provide beside the
  log agent's volumes is exactly what is mounted, and every mount has exactly one provider if and only if
  the agent's volumes repeat no name and use none of the mounted (`StatefulSetBuilder.MountClosure`).
- **Discovery.** It fails if and only if an ingress address lacks the wanted port; what it prints is read
  back as the same address list if and only if no address holds a comma
  (`Discovery.BuildDiscovery`). Every port name looked up later is declared, with the number its listener
  binds (`Discovery.ListenerPorts`), and the published one leads to BOOTSTRAP under Kerberos, else to CLIENT
  (`Discovery.DiscoveryLeadsToListener`).

## Conventions

- Go pointers, maps and slices that the operator writes through are heap objects (`GoHeap`, `Objects`),
  with nil as `null`; `...Value` functions give what an object denotes and `...Repr` what is reachable.
- A Go panic is `Outcome.Panicked`, an error return is `Result.Err`.
- Iteration over a Go map picks keys arbitrarily, so results hold for every order.
- `OwnMaps`, `Separate` and `OneMapAt` say which map objects are used twice; nothing decoded from a
  resource is. They are conditions of some conclusions, not of any call.
- Where both property files are one map, the order of building them shows; `late` says that
  security.properties came after server.properties. It does not matter otherwise.
- A `Moment` records overrides at one time: what they denote and which map objects they hold.
- A `footprint`, `known` or `written` parameter is a set of objects that bounds what is reachable or
  written; it restricts no input. `defaults` stands for any complete defaults; the operator's own are
  `ConfigMerge.DefaultConfig`, which `ConfigMerge.DefaultConfigComplete` shows to be complete.
- `KerberosOn`, `ServerClass`, `InternalClass` and `StorePassword` read the user's cluster configuration, not the
  security object made from it.
- `IsKerberosEnabled` is a predicate where the source has a loop; `ScanKerberosEnabled` is that loop.
- The text of the constants that live in operator-go is not in this repository. Annotation names are
  distinct constructors; scopes `pod` and `node`, format `tls-p12`, the data directory `/kubedoop/data`
  and the full name `<cluster>-broker-<group>` are used as that library defines them.
- The Listeners that the API server returns, the marshalled affinity, and what operator-go provides (the
  rendered log4j text, which properties it marshals, the log agent's container, volumes and rendered
  configuration, the combined role and role-group settings, its errors) are parameters.

## Where code and documentation disagree

- `requestedSecretLifeTime` is documented as passed to the secret operator
  (`api/v1alpha1/kafkacluster_types.go:207-210`), but the annotation is overwritten before the volume
  is built. The model follows the code; `PodVolumes.LifetimeReachesVolumeIffEmpty` states it exactly.
- `enableVectorAgent` is optional in the CRD, but both builders dereference it for every logging section
  (`internal/controller/vector.go:20-25`). The merge neither creates nor repairs this case:
  `ConfigMerge.FilledConfigLaws` and `ServerProperties.LoggingSectionWithoutFlag`.
- Kerberos maps listeners to SSL also when no keystore is configured for them, and leaves the client and
  bootstrap listeners on their plain ports; see `StatefulSetBuilder.KerberosWithoutTlsIsOpen` and
  `ListenerCompiler.KerberosOnPlainPort`.

## Model

| member | source | states |
|---|---|---|
| `Broker.Launch` | internal/controller/container.go:184-191 | For names without shell characters and every container: after expansion the broker reads the compiled listeners, with address, port and pod name filled in, iff names and container values hold no list punctuation; then it is coherent with server.properties under every user override |
| `Broker.LaunchIsCoherent` | internal/controller/listener.go:110-237 | What the broker reads agrees across both listener lists, the protocol map and the final inter-broker setting |
| `Broker.LaunchHasStores` | internal/security/security.go:277-329 | Each SSL listener the broker reads finds its six settings in the final file, in a mounted keystore of its own secret class, if Kerberos is off or both secret classes are set, and only then unless the user sets stores by hand |
| `Broker.ServedInEffectiveProperties` | internal/controller/configmap.go:134-144 | Store settings that point into a mounted keystore survive the overlay with user properties |
| `Broker.UnservedInEffectiveProperties` | internal/controller/configmap.go:134-144 | A listener without a store directory stays unserved in the final file, whatever the class, unless the user sets its stores |
| `Broker.ExpandedReadBack` | internal/controller/container.go:217-219 | The expanded texts denote the resolved listeners iff names and container values hold no list punctuation |
| `Broker.Assemble` | internal/controller/role.go:52-96 | Panics iff a property file is a nil map or logging lacks the agent flag; the ConfigMap fails iff a file cannot be rendered or the agent is on and the aggregator is not named or its configuration not rendered, the StatefulSet iff the library fails; files, StatefulSet and Listener follow from the user's values, else the defaults, under any sharing of maps |
| `Broker.StorageReachesClaim` | internal/controller/statefulset.go:230-257 | The claimed storage is the user's, else the default of the role group; two gibibytes without any |
| `ListenerCompiler.ClientListener` | internal/controller/listener.go:121-170 | The four-way client branch equals name by authentication class, protocol by encryption, port by TLS |
| `ListenerCompiler.GetKafkaListenerConfig` | internal/controller/listener.go:110-237 | The appends produce the reference table of names, ports, addresses and protocols |
| `ListenerCompiler.NamesAgree` | internal/controller/listener.go:110-237 | Both lists and the protocol map have the same distinct names, and the inter-broker listener is one of them |
| `ListenerCompiler.BoundPortsDiffer` | internal/security/security.go:142-175 | No port is bound twice, and never the metrics port, also as printed text |
| `ListenerCompiler.PortsMatchProtocolsExact` | internal/security/security.go:119-175 | SSL exactly on the reserved ports, and the client port named for it, iff Kerberos is off or the user set the server class; INTERNAL always agrees |
| `ListenerCompiler.BoundOfCluster` | internal/controller/listener.go:110-237 | On the user's fields: CLIENT on 9093 iff the server class is set, INTERNAL on 19093 iff Kerberos or the internal class, BOOTSTRAP iff Kerberos, each at 0.0.0.0 and in this order |
| `ListenerCompiler.ProtocolsOfCluster` | internal/controller/listener.go:110-237 | On the user's fields: CLIENT is SSL iff Kerberos or the server class, INTERNAL iff Kerberos or the internal class, BOOTSTRAP exists iff Kerberos and is SSL |
| `ListenerCompiler.AdvertisedOfCluster` | internal/util/listener_volume.go:108-120 | INTERNAL is advertised under the pod's name in its service with the port it binds, the others through the address and client-port files of the broker's listener |
| `ListenerCompiler.LaunchArguments` | internal/controller/container.go:184-191 | The launch names server.properties of the config directory and the printed listeners, the protocol map in any order |
| `ListenerCompiler.KerberosOnPlainPort` | internal/security/security.go:142-170 | Concrete cluster whose CLIENT speaks SSL on 9092 under the plain name |
| `ListenerCompiler.AdvertisedReadable` | internal/util/listener_volume.go:108-120 | Advertised listeners are readable iff namespace and object name have no comma |
| `ListenerCompiler.CompiledTextsReadBack` | internal/controller/listener.go:86-108 | Before expansion, bound listeners always survive printing; advertised ones iff there is no comma |
| `ListenerCompiler.ProtocolsReadable` | internal/controller/listener.go:102-108 | Every compiled protocol map can be printed and read back |
| `Shell.PiecesExpand` | internal/controller/container.go:178-180 | A double-quoted text of plain parts, file reads and variables expands to their values |
| `Shell.ListExpands` | internal/controller/container.go:217-219 | A separator list expands item by item, for lists of any length |
| `ResolvedListeners.AdvertisedExpands` | internal/util/listener_volume.go:108-120 | In every container the advertised text becomes the text of the listeners with address, port and pod name filled in |
| `ResolvedListeners.ResolvedReadable` | internal/util/listener_volume.go:108-120 | Those listeners are readable iff names and container values hold no list punctuation |
| `ResolvedListeners.BoundStays` | internal/controller/listener.go:86-92 | The bound text is not changed by the shell |
| `ResolvedListeners.ProtocolsStay` | internal/controller/listener.go:102-108 | Nor is the protocol map, in any order |
| `Listeners.ListenersString` | internal/controller/listener.go:86-100 | The loop prints the comma-joined list of name://host:port |
| `Listeners.ParseListenerText` | internal/controller/listener.go:76-78 | One listener is read back iff its name has no `://` and its port no colon |
| `Listeners.ListenersRoundTrip` | internal/controller/listener.go:86-100 | A list of any length is read back as itself iff every listener is readable |
| `Listeners.ListenersTextInjective` | internal/controller/listener.go:86-100 | Readable lists that print alike are equal |
| `Listeners.ReadListenersPrintBack` | internal/controller/listener.go:86-100 | Every text that can be read is the printed form of what is read |
| `Listeners.ListenerSecurityProtocolMapString` | internal/controller/listener.go:102-108 | In every map order, the text denotes the same map iff names have no comma or colon and protocols no comma |
| `Listeners.ProtocolsRoundTrip` | internal/controller/listener.go:102-108 | The same, for any listing of the map's entries |
| `Listeners.TextsAsDocumented` | internal/controller/listener.go:76-108 | Printed listeners are name://host:port and printed protocols name:protocol, comma-joined |
| `Security.ScanKerberosEnabled` | internal/security/security.go:110-117 | The loop finds a Kerberos entry iff there is one |
| `Security.ScanKerberosSecretClass` | internal/pkg/kafka_role.go:22-30 | Returns the class of the first Kerberos entry, and empty iff there is none |
| `Security.KerberosSecretClassIsFirst` | internal/pkg/kafka_role.go:22-30 | The recursive reference is the class of the first Kerberos entry |
| `Security.KerberosScansAgree` | internal/security/security.go:80-117 | The two scans agree, and the Kerberos object is present exactly when it is dereferenced |
| `Security.SecurityOfCluster` | internal/security/security.go:80-175 | Every secret class, password, port and port name goes back to the user's own field of the cluster configuration |
| `Security.WriteStore` | internal/security/security.go:283-288 | The six writes add exactly the store settings of one listener and directory |
| `Security.ConfigSettings` | internal/security/security.go:277-329 | The writes in source order give the settings that `SettingsOfCluster`, `SaslExact` and `SettingsDomain` characterise |
| `Security.SslKeyInjective` | internal/security/security.go:15-54 | Per-listener keys determine listener and item |
| `Security.SettingsExact` | internal/security/security.go:277-329 | For every listener name and store item: present iff that listener has a store directory, with the value the listener needs |
| `Security.ClientAuthExact` | internal/security/security.go:277-329 | Client certificates are required on exactly the authenticated client and the TLS internal listener |
| `Security.InterBrokerListenerIsInternal` | internal/security/security.go:326-328 | The inter-broker listener is always INTERNAL |
| `Security.SaslExact` | internal/security/security.go:310-314 | Each SASL key is there iff Kerberos is on, with GSSAPI and the service name kafka |
| `Security.SettingsDomain` | internal/security/security.go:277-329 | The settings hold no key beside those of listeners, SASL and the inter-broker listener |
| `Security.SettingsOfCluster` | internal/security/security.go:277-329 | On the user's fields and Kafka's documented keys: which listeners get stores, from which directory and with which password, and which demand client certificates |
| `StatefulSetBuilder.ListenerScope` | internal/security/kerberos.go:51-55 | Prepending commas and dropping the first character gives the comma-joined scopes |
| `StatefulSetBuilder.GetKerberosVolumes` | internal/security/kerberos.go:49-87 | One volume with the first Kerberos class and both listener scopes |
| `StatefulSetBuilder.ContainerMounts` | internal/controller/container.go:114-145 | Six base mounts, and the Kerberos mount iff Kerberos is on |
| `StatefulSetBuilder.Volumes` | internal/controller/statefulset.go:177-227 | Fails iff the broker listener class is empty; otherwise the pod's volumes |
| `StatefulSetBuilder.CreateMainContainer` | internal/controller/statefulset.go:152-174 | The container has the mounts, the exact ports and the launch texts of its security object and service |
| `StatefulSetBuilder.Build` | internal/controller/statefulset.go:114-150 | Panics iff resources are missing or, with a broker listener class, the agent flag is; fails iff that class is empty or the library fails; otherwise exactly these mounts, ports, launch texts, volumes and claims, on new objects, with the broker advertised under the StatefulSet's own service |
| `StatefulSetBuilder.MountClosure` | internal/controller/statefulset.go:114-150 | Mount names and paths are distinct; beside the agent's volumes exactly the mounted names are provided; each has one provider iff the agent's volumes repeat no name and use none of the mounted |
| `StatefulSetBuilder.ServedFromMountedStores` | internal/security/security.go:221-243 | A listener with a store directory is served if that directory is a mounted keystore |
| `StatefulSetBuilder.UnservedWithoutStores` | internal/security/security.go:277-329 | A listener without a store directory cannot be served, whatever the class and password |
| `StatefulSetBuilder.KeystoreDirsMounted` | internal/security/security.go:221-243 | Each keystore directory is mounted from the keystore of its own secret class, with the user's password, if that class is set |
| `StatefulSetBuilder.CompleteTlsServes` | internal/security/security.go:277-329 | With complete TLS settings every SSL listener is served from its own class |
| `StatefulSetBuilder.IncompleteTlsLeaves` | internal/security/security.go:277-329 | Otherwise some SSL listener has no stores |
| `StatefulSetBuilder.SslClosureExact` | internal/controller/listener.go:110-237 | All SSL listeners are served, each from a keystore of the user's class for it, iff Kerberos is off or the user set both secret classes |
| `StatefulSetBuilder.KerberosWithoutTlsIsOpen` | internal/controller/listener.go:134-146 | Concrete cluster whose CLIENT listener is SSL without stores of any class |
| `BrokerFiles.MountsNeverOverlap` | internal/controller/container.go:114-145 | For every path at most one mount of the kafka container covers it |
| `BrokerFiles.FileProvided` | internal/controller/container.go:114-145 | Every file under one of the nine directories lies in exactly one mount of the right volume or claim iff the user's settings call for that directory |
| `BrokerFiles.TopicDataProvided` | internal/controller/cluster_config.go:57-69 | The default log.dirs lies on the claimed storage |
| `BrokerFiles.PropertiesProvided` | internal/controller/container.go:217-219 | The properties file of the launch command is server.properties of the group's own ConfigMap |
| `BrokerFiles.OptionFilesProvided` | internal/controller/container.go:74-82 | So are security.properties and log4j.properties of the Java options |
| `BrokerFiles.ListenerFilesProvided` | internal/util/listener_volume.go:108-116 | The address and port files belong to the listener of the broker's class |
| `BrokerFiles.StorePathsProvided` | internal/security/security.go:277-329 | The key and trust stores that settings name lie in the keystore of the listener's own class iff that class is set |
| `BrokerFiles.KerberosVolumeExact` | internal/security/kerberos.go:49-87 | The Kerberos secret is of the first Kerberos entry's class, for the service kafka and both listener volumes |
| `BrokerFiles.ScopedVolumesExist` | internal/controller/statefulset.go:177-227 | The two listener volumes that secrets are scoped to are in the pod |
| `BrokerFiles.ServiceNamesAgree` | internal/security/kerberos.go:49-87 | SASL announces the service name that the Kerberos secret was made for |
| `PodVolumes.ToAnnotation` | internal/util/listener_volume.go:19-45 | Succeeds iff a class or a name is set, never with an empty value; it is the class iff that is set |
| `PodVolumes.CreateTlsKeystoreVolume` | internal/security/security.go:332-355 | Through the builder, the volume carries class, scopes, format and a non-empty password, and nothing else |
| `PodVolumes.LifetimeReachesVolumeIffEmpty` | internal/security/security.go:332-355 | The requested lifetime reaches the volume iff it is empty; the password annotation is there iff it is not |
| `PodVolumes.TlsAnnotationsExact` | internal/security/security.go:332-355 | The annotations are the class, the tls-p12 format, the four scopes and the password if there is one, and nothing else |
| `PodVolumes.KeystoresOfCluster` | internal/security/security.go:221-243 | On the user's fields: each keystore volume is added iff its class is set, and is filled from that class with the user's password |
| `PodVolumes.TlsVolumesMatchMounts` | internal/security/security.go:221-243 | Added volumes and mounts match one to one by name |
| `PodVolumes.GetContainer` | internal/security/security.go:256-263 | First container with the name, or nil iff none has it |
| `PodVolumes.AddVolumeMount` | internal/security/security.go:251-253 | Appends one mount to one container and touches nothing else; panics iff the container is nil |
| `PodVolumes.AddVolumeAndVolumeMounts` | internal/security/security.go:221-243 | Only pod volumes and the first kafka container's mounts grow, at the end; panics iff a keystore is needed and there is no kafka container, leaving the first keystore volume behind |
| `SecretVolume.SecretVolumeBuilder.AddAnnotation` | internal/util/secret_volume.go:16-22 | Writes one key in place, creating the map if nil |
| `SecretVolume.SecretVolumeBuilder.SetAnnotations` | internal/util/secret_volume.go:25-28 | The map object is replaced by the caller's |
| `SecretVolume.SecretVolumeBuilder.Build` | internal/util/secret_volume.go:31-57 | The volume carries the held annotations |
| `SecretVolume.SetForgets` | internal/util/secret_volume.go:16-28 | In every run, nothing added before a map is first given reaches that map |
| `SecretVolume.AdditionsOverlay` | internal/util/secret_volume.go:16-28 | In every run, each key of a map holds the last addition made while that map was given, else what was there |
| `SecretVolume.OwnHoldsRecent` | internal/util/secret_volume.go:16-28 | The builder's own map is nil iff the run is empty or ends in a replacement, and each key holds the last addition since the last replacement |
| `SecretVolume.Run` | internal/util/secret_volume.go:16-57 | Any sequence of calls, also giving one map several times, builds the held map's content overlaid by the additions made to it |
| `OverrideMerge.MergedFilesExact` | internal/controller/cluster_config.go:167-181 | Domain and value of every key: the user wins, defaults fill in |
| `OverrideMerge.MergedFilesIdempotent` | internal/controller/cluster_config.go:167-181 | A second file merge changes nothing and does not panic |
| `OverrideMerge.MergedCliExact` | internal/controller/cluster_config.go:149-156 | User arguments stay a prefix, the union is complete, and nothing appended is a repetition |
| `OverrideMerge.MergedCliIdempotent` | internal/controller/cluster_config.go:149-156 | A second argument merge changes nothing |
| `OverrideMerge.MergedOverridesIdempotent` | internal/controller/cluster_config.go:133-184 | Merging the same defaults again changes no part and does not panic |
| `OverrideMerge.MergeCli` | internal/controller/cluster_config.go:149-156 | The argument loop computes that list |
| `OverrideMerge.FillMap` | internal/controller/cluster_config.go:173-178 | Missing keys are filled in any order; panics iff something must be written to nil |
| `OverrideMerge.MergeEntry` | internal/controller/cluster_config.go:170-179 | A missing file is installed by reference, a present one filled in place; panics iff a default meets nil |
| `OverrideMerge.MergeFiles` | internal/controller/cluster_config.go:167-181 | In any order and under any sharing: exact panic condition, no file removed or replaced and no entry lost even then, every map filled from the defaults of its files; the user-biased union if no map is shared |
| `OverrideMerge.SeparateFilesMerged` | internal/controller/cluster_config.go:167-181 | Filling without sharing is the user-biased union |
| `OverrideMerge.MergeOverrides` | internal/controller/cluster_config.go:133-184 | Nil input is untouched; otherwise the same for all three parts, with default maps installed for missing files |
| `OverrideMerge.MergedExactly` | internal/controller/cluster_config.go:133-184 | A merge without shared maps leaves the user-biased union in all three parts |
| `OverrideMerge.MergedAbsorbs` | internal/controller/cluster_config.go:133-184 | A merge that returned leaves every default in place, under any sharing of files, with or without defaults for the environment |
| `OverrideMerge.AbsorbedUnchanged` | internal/controller/cluster_config.go:133-184 | Where every default is in place a merge changes nothing, under any sharing |
| `ConfigMerge.FilledConfigLaws` | internal/controller/cluster_config.go:222-266 | The filled configuration is complete iff the user did not configure logging without the agent flag; it keeps every user field, takes every other from the same default, and is a fixed point of further merges |
| `ConfigMerge.FilledConfigExact` | internal/controller/cluster_config.go:222-266 | It is the only configuration that keeps each field the user set and takes each other from the default of that same field |
| `ConfigMerge.EmptyGroupGetsDefaults` | internal/controller/cluster_config.go:57-105 | A role group that sets nothing gets the operator's default values |
| `ConfigMerge.MergeResources` | internal/controller/cluster_config.go:256-266 | Each missing resource is filled, also when both pointers are the same |
| `ConfigMerge.MergeBaseConfig` | internal/controller/cluster_config.go:222-253 | The user's object denotes the filled configuration; existing inner objects are kept |
| `ConfigMerge.DefaultKafkaConfig` | internal/controller/cluster_config.go:71-105 | New resources with the operator's default values |
| `ConfigMerge.DefaultConfigComplete` | internal/controller/cluster_config.go:57-105 | The operator's defaults are complete: all resources, classes, lifetime and flag, and two non-empty files with different keys |
| `ConfigMerge.ComputeDefaults` | internal/controller/cluster_config.go:47-69 | Only file defaults exist, in new and different map objects |
| `ConfigMerge.MergeFromUserConfig` | internal/controller/cluster_config.go:186-210 | Configuration filled, overrides merged under any sharing, neither disturbing the other; exact panic condition, no file removed or replaced even then; everything added is new |
| `ConfigMerge.MergedUnion` | internal/controller/cluster_config.go:133-184 | Overrides that used no map twice denote the user-biased union of all three parts once they are merged |
| `ConfigMerge.MergeTwice` | internal/controller/cluster_config.go:186-210 | A second call, made in either case, ends like the first and keeps configuration, file maps and pointers; if they return, arguments, environment, user maps and installed default maps hold what one call leaves, under any sharing: the user-biased union if no map is used twice |
| `ServerProperties.CopyInto` | internal/controller/configmap.go:140 | Every key is overwritten in any order; panics iff something must be written to nil |
| `ServerProperties.BuildServerProperties` | internal/controller/configmap.go:134-144 | Writes the settings over the user's map in place; panics iff overrides hold no server.properties map |
| `ServerProperties.BuildSecurityProperties` | internal/controller/configmap.go:123-131 | The merged security file, or nothing if it is absent |
| `ServerProperties.BuildFiles` | internal/controller/configmap.go:93-108 | In any order: stops early iff server.properties is missing from given overrides, which panics, or a file cannot be rendered; the in-place write reaches the other file only if both are one map |
| `Vector.IsVectorEnable` | internal/controller/vector.go:20-25 | On iff the flag is true; panics iff logging is configured without the flag |
| `Vector.BuildVectorConfig` | internal/controller/configmap.go:171-193 | Fails iff the flag is set and the aggregator is missing or the rendering failed; text only if the agent is on |
| `ServerProperties.BuildConfigMap` | internal/controller/configmap.go:93-120 | With all files rendered, panics iff given overrides hold no server.properties map or the agent flag cannot be read, and fails iff the agent is on and cannot be configured |
| `ServerProperties.LoggingSectionWithoutFlag` | config/crd/bases/kafka.kubedoop.dev_kafkaclusters.yaml:148-149 | Concrete configuration that the merge leaves without the flag |
| `ConfigMerge.DefaultPanicExact` | internal/controller/cluster_config.go:167-181 | With two non-empty default files the merge panics iff one of them is present but nil |
| `ServerProperties.FilesAfterMerge` | internal/controller/cluster_config.go:167-181 | After the merge both files exist and hold defaults overlaid by the user; one map used for both holds both defaults |
| `ServerProperties.CompileRoleGroup` | internal/controller/role.go:63-73 | Merge and ConfigMap: panics iff a property file is nil or, with all files rendered, logging lacks the agent flag; fails iff a file is not rendered or the agent cannot be configured; the configuration is complete iff no flag is missing; files stated for any sharing of maps |
| `ServerProperties.FilesOfOwnMaps` | internal/controller/configmap.go:123-144 | With the operator's defaults, and unless one map is used for both, the files have the documented precedence |
| `ServerProperties.DefaultsLeaveAgent` | internal/controller/cluster_config.go:222-253 | The operator's defaults leave the log agent as the user has it |
| `GroupFiles.GoalExact` | internal/controller/cluster_config.go:167-181 | What a merge will make of a group's two files, in terms of its input: nil panics, defaults overlaid by the user |
| `GroupFiles.MergeOne` | internal/controller/cluster_config.go:133-184 | One group's merge panics iff it has a nil default file; otherwise its files become what was to come |
| `GroupFiles.GoalAfter` | internal/controller/role.go:52-73 | A merge changes neither what another group's merge will give nor what it has given, whatever the two share, unless files cross |
| `GroupFiles.MergeStep` | internal/controller/role.go:52-73 | The same for all groups at once; no merge makes files cross |
| `GroupFiles.MergeAll` | internal/controller/role.go:52-73 | All merges, in any order: panics iff some group has a nil default file; otherwise every group has the files of its own input |
| `GroupFiles.BuildAll` | internal/controller/configmap.go:93-108 | All builds, in any order: each group gets the files of its own input |
| `GroupFiles.FilesOfGroups` | internal/controller/role.go:52-96 | For any groups whose files do not cross, however they share objects, merging and then building in any orders gives every group the files of its own input; the ConfigMap is missing iff they cannot be rendered |
| `GroupFiles.MergeCrossed` | internal/controller/cluster_config.go:167-181 | Where one group's server.properties is another's security.properties only, the first one's merge changes what the second gets iff the map lacks a server default |
| `GroupFiles.MergeCrossedBoth` | internal/controller/cluster_config.go:167-181 | Where one group's server.properties only is both files of another, the second one's merge changes what the first gets iff the map lacks a security default |
| `ServerProperties.ServerPrecedence` | internal/controller/configmap.go:134-144 | Each key: security setting, else user value, else default; and no other key |
| `ServerProperties.RebuildIsStable` | internal/controller/configmap.go:134-144 | Building again from the map left behind gives the same file |
| `DeepCopy.CopyBrokersConfig` | api/v1alpha1/zz_generated.deepcopy.go:30-47 | Equal value, new objects, nil for nil |
| `DeepCopy.CopyRoleGroup` | api/v1alpha1/zz_generated.deepcopy.go:50-72 | Equal value, new objects, nil for nil |
| `DeepCopy.CopyRoleGroups` | api/v1alpha1/zz_generated.deepcopy.go:82-97 | The role-group map is equal entry by entry, nil entries included, on new objects |
| `DeepCopy.CopyBrokers` | api/v1alpha1/zz_generated.deepcopy.go:75-118 | Equal value, and everything reachable is new |
| `DeepCopy.CopyAuthentications` | api/v1alpha1/zz_generated.deepcopy.go:123-129 | Element by element equal, with new providers |
| `DeepCopy.CopyClusterConfig` | api/v1alpha1/zz_generated.deepcopy.go:121-145 | Equal value, new objects, nil for nil |
| `DeepCopy.CopyImage` | api/v1alpha1/zz_generated.deepcopy.go:177-194 | Equal value, new objects, nil for nil |
| `DeepCopy.CopyClusterSpec` | api/v1alpha1/zz_generated.deepcopy.go:276-308 | Equal specification; every object of the copy is new; copy and original have nothing in common, and the original has the objects it had |
| `DeepCopy.RoleGroupsStable` | api/v1alpha1/zz_generated.deepcopy.go:82-97 | Writes outside a role-group map do not change what it denotes |
| `DeepCopy.BrokersStable` | api/v1alpha1/zz_generated.deepcopy.go:75-118 | Writes outside a brokers object do not change what it denotes |
| `DeepCopy.ClusterSpecStable` | api/v1alpha1/zz_generated.deepcopy.go:276-308 | Writes outside a specification do not change what it denotes |
| `DeepCopy.CopyOutlivesOriginal` | api/v1alpha1/zz_generated.deepcopy.go:276-308 | After a copy, arbitrary writes to the original or anything else that existed leave the copy equal to the original as it was, with none of the written objects in it |
| `DeepCopy.OriginalOutlivesCopy` | api/v1alpha1/zz_generated.deepcopy.go:276-308 | Arbitrary writes to objects of a separate specification, as every copy is, leave the original's value |
| `Discovery.ListenerHosts` | internal/controller/discovery.go:102-121 | Error iff an address lacks the port name; otherwise every address with its port, in order |
| `Discovery.MakeBootstrapServers` | internal/controller/discovery.go:123-129 | The loop prints the comma-joined list of host:port |
| `Discovery.BootstrapServersRoundTrip` | internal/controller/discovery.go:123-129 | A list of any length is read back as itself iff no host has a comma |
| `Discovery.BootstrapServersInjective` | internal/controller/discovery.go:123-129 | Comma-free lists that print alike are equal |
| `Discovery.ReadServersPrintBack` | internal/controller/discovery.go:123-129 | Every text that can be read is the printed form of what is read |
| `Discovery.ServersAsDocumented` | internal/controller/discovery.go:123-129 | Printed servers are host:port, comma-joined |
| `Discovery.BuildDiscovery` | internal/controller/discovery.go:70-95 | Fails iff the chosen port name is missing; a client recovers every address and port iff no address has a comma |
| `Discovery.KafkaContainerPorts` | internal/controller/util.go:22-45 | Each external listener's port is declared under its name with the number it binds, beside them only metrics on 9606, all TCP and without repetition; every later lookup is covered |
| `Discovery.ContainerPortToListenerPort` | internal/pkg/listener_builder.go:50-61 | The Listener declares the container's ports, in order |
| `Discovery.DeclaredPortsCover` | internal/controller/listener.go:121-230 | Declaring the client port, and under Kerberos the bootstrap port, covers discovery and every advertised listener |
| `Discovery.ListenerPorts` | internal/pkg/listener_builder.go:50-61 | The same for the Listener's ports; if addresses expose them discovery cannot fail, for any listener list |
| `Discovery.BuildListener` | internal/controller/listener.go:17-39 | The Listener has the name the group's claim refers to, the given class and those ports |
| `Discovery.DiscoveryLeadsToListener` | internal/controller/discovery.go:70-74 | The declared port that discovery publishes is the one BOOTSTRAP binds under Kerberos, else the one CLIENT binds |
| `Discovery.AdvertisedPortBoundIff` | internal/controller/listener.go:121-230 | An external listener is advertised with the declared port it binds iff it is not BOOTSTRAP |
| `Discovery.DiscoverySucceeds` | internal/controller/discovery.go:70-95 | Exposing ports that cover the lookups is enough for discovery |
| `Registration.SameResource` | internal/controller/role.go:98-155 | Two registrations coincide iff they are the same one or a metrics service meets a group's service |
| `Registration.NamesUniqueIff` | internal/controller/cluster.go:62-99 | All kinds and names are pairwise different iff no group is another plus -metrics |
| `Registration.UnregistrableExact` | internal/controller/role.go:52-74 | A group cannot be registered iff it is nil or its merge would write a default into a nil map |
| `Registration.GroupIsComplete` | internal/controller/role.go:98-155 | The service, service account, ConfigMaps and Listener that a group's StatefulSet needs are registered, for every security, listener class and storage, as are the StatefulSet and its metrics service |
| `GroupMerge.MergeGroup` | internal/controller/role.go:63-73 | One group's merge panics iff that group has a nil default file, and changes this for no other group, whatever they share |
| `GroupMerge.OverridesStayWithin` | internal/controller/role.go:58-70 | Overrides that share maps with merged ones keep their nil entries and reach only known or new objects |
| `Registration.RegisterRoleGroups` | internal/controller/role.go:52-96 | In any order, with the merge per group and under any sharing: ends early iff some entry is nil, has a nil default file or cannot be combined, and says which; otherwise five objects per group |
| `Registration.RegisterResources` | internal/controller/cluster.go:41-99 | The same 3 + 5n objects in every order, distinct iff no clash, with everything each group's StatefulSet needs among them; ends early iff cluster configuration, image, pull policy or brokers are missing, which panics, or some group cannot be combined or registered |
| `HeapSize.HeapBound` | internal/controller/container.go:89-96 | The heap is at most 80% of the limit and misses it by less than 1.6 MiB |
| `HeapSize.HeapMonotone` | internal/controller/container.go:89-96 | A larger limit never gives a smaller heap |
| `HeapSize.HeapMirrored` | internal/util/resource.go:38-40 | Truncation toward zero mirrors negative quantities |

## Left out

- OverrideMerge.MergeOverrides: requires that none of the default maps is one of the user's, as `ComputeFile` builds new maps on every call; after a panic it states which files and entries are kept, not which defaults are already written, since that depends on map order.
- Broker.Launch: names that contain `$`, a backquote, a backslash or a double quote are outside the shell model; Kubernetes allows none of them.
- GroupFiles.FilesOfGroups: requires that no map is one group's server.properties and another's security.properties, unless both use it for both; other maps may be shared freely. It follows the overrides only, since filling configurations does not touch them (`ConfigMerge.MergeFromUserConfig`).
- HeapSize.HeapBound: the factor 0.8 is exact, floating-point rounding is not modelled; the container builder never receives a resource specification, so the branch is not reached today.
- `MergeObject` of operator-go, which combines role and role-group settings; its result, which may share objects, and its errors are the input here.
- The reconcile loop, client calls, status handling and object ownership: all I/O.
- The text of marshalled properties (whether marshalling succeeds is a parameter), and the rendering of log4j and the log agent's configuration.
- The rest of the launch command: shell traps, JAAS text, the Kerberos realm export; the container's environment variables.
- Probes, affinity, image selection, labels, RBAC, graceful shutdown and replica handling.
- The kcat prober and service container commands.
- Deep copies of `KafkaCluster`, `KafkaClusterList` and `ConfigOverridesSpec`, which add only wrappers around those modelled; `DeepCopyInto` on a struct that already holds data.
- Pointers inside the commons API that the operator never writes through; they are values. The argument list is a value too, so Go slice aliasing on append is not modelled.
- Parsing of quantities; they are integers.
