/**
 The rest of internal/controller/cluster_config.go: filling a role group's configuration with the
 defaults, in place and through shared pointers.
 */
module ConfigMerge {
  import opened Wrappers
  import opened SpecValues
  import opened GoHeap
  import opened Objects
  import opened OverrideMerge
  import opened Vector

  const SERVER_PROPERTIES := "server.properties"
  const SECURITY_PROPERTIES := "security.properties"

  /** The values of `KafkaConfig`, with the two files that `ComputeFile` returns. */
  datatype KafkaDefaults = KafkaDefaults(
    affinity: Option<string>,
    gracefulShutdownTimeout: string,
    logging: Option<Logging>,
    resources: Resources,
    bootstrapListenerClass: string,
    brokerListenerClass: string,
    requestedSecretLifetime: string,
    server: Properties,
    security: Properties)

  /** `KafkaConfig` as the source passes it: a struct by value that points at its resources. */
  datatype KafkaConfig = KafkaConfig(
    affinity: Option<string>,
    gracefulShutdownTimeout: string,
    logging: Option<Logging>,
    resources: Ptr<Resources>,
    bootstrapListenerClass: string,
    brokerListenerClass: string,
    requestedSecretLifetime: string,
    server: Properties,
    security: Properties)

  ghost function DefaultsOf(d: KafkaConfig): KafkaDefaults
    reads d.resources
  {
    KafkaDefaults(d.affinity, d.gracefulShutdownTimeout, d.logging, d.resources.value,
                  d.bootstrapListenerClass, d.brokerListenerClass, d.requestedSecretLifetime, d.server, d.security)
  }

  /** The default files. */
  function FilesOf(d: KafkaDefaults): Files
  {
    map[SERVER_PROPERTIES := Some(d.server), SECURITY_PROPERTIES := Some(d.security)]
  }

  /** Only file defaults exist: `ComputeCli` and `ComputeEnv` return an error. */
  function OverridesOf(d: KafkaDefaults): DefaultValues
  {
    DefaultValues(None, None, Some(FilesOf(d)))
  }

  // ---------- the specification, on values ----------

  function FilledResources(user: Resources, d: Resources): Resources
  {
    Resources(if user.cpu.None? then d.cpu else user.cpu,
              if user.memory.None? then d.memory else user.memory,
              if user.storage.None? then d.storage else user.storage)
  }

  function OrDefault(s: string, d: string): string
  {
    if s == "" then d else s
  }

  /** Affinity, shutdown timeout and logging are defaulted only when the whole part is missing. */
  function FilledConfig(user: BrokersConfig, d: KafkaDefaults): BrokersConfig
  {
    BrokersConfig(
      Some(if user.roleGroupConfig.None? then
             RoleGroupConfig(d.affinity, d.gracefulShutdownTimeout, d.logging, Some(d.resources))
           else
             var r := user.roleGroupConfig.value;
             r.(resources := Some(if r.resources.None? then d.resources
                                  else FilledResources(r.resources.value, d.resources)))),
      OrDefault(user.brokerListenerClass, d.brokerListenerClass),
      OrDefault(user.bootstrapListenerClass, d.bootstrapListenerClass),
      OrDefault(user.requestedSecretLifeTime, d.requestedSecretLifetime))
  }

  predicate CompleteResources(r: Resources)
  {
    r.cpu.Some? && r.memory.Some? && r.storage.Some?
  }

  /** What the object builders dereference or reject: everything they need is there. */
  predicate Ready(c: BrokersConfig)
  {
    && c.roleGroupConfig.Some?
    && c.roleGroupConfig.value.resources.Some?
    && CompleteResources(c.roleGroupConfig.value.resources.value)
    && !FlagMissing(c.roleGroupConfig.value.logging)
    && c.brokerListenerClass != "" && c.bootstrapListenerClass != "" && c.requestedSecretLifeTime != ""
  }

  predicate CompleteDefaults(d: KafkaDefaults)
  {
    && CompleteResources(d.resources) && !FlagMissing(d.logging)
    && d.brokerListenerClass != "" && d.bootstrapListenerClass != "" && d.requestedSecretLifetime != ""
    && d.server != map[] && d.security != map[] && d.server.Keys !! d.security.Keys
  }

  /** Every field the user set survives. */
  ghost predicate KeepsUser(user: BrokersConfig, c: BrokersConfig)
  {
    && (user.brokerListenerClass != "" ==> c.brokerListenerClass == user.brokerListenerClass)
    && (user.bootstrapListenerClass != "" ==> c.bootstrapListenerClass == user.bootstrapListenerClass)
    && (user.requestedSecretLifeTime != "" ==> c.requestedSecretLifeTime == user.requestedSecretLifeTime)
    && (user.roleGroupConfig.Some? ==>
          && c.roleGroupConfig.Some?
          && var u, r := user.roleGroupConfig.value, c.roleGroupConfig.value;
             && r.affinity == u.affinity && r.logging == u.logging
             && r.gracefulShutdownTimeout == u.gracefulShutdownTimeout
             && (u.resources.Some? ==>
                   && r.resources.Some?
                   && (u.resources.value.cpu.Some? ==> r.resources.value.cpu == u.resources.value.cpu)
                   && (u.resources.value.memory.Some? ==> r.resources.value.memory == u.resources.value.memory)
                   && (u.resources.value.storage.Some? ==> r.resources.value.storage == u.resources.value.storage)))
  }

  /** Every field the user left empty takes the default of that same field. */
  ghost predicate FillsMissing(user: BrokersConfig, d: KafkaDefaults, c: BrokersConfig)
  {
    && (user.brokerListenerClass == "" ==> c.brokerListenerClass == d.brokerListenerClass)
    && (user.bootstrapListenerClass == "" ==> c.bootstrapListenerClass == d.bootstrapListenerClass)
    && (user.requestedSecretLifeTime == "" ==> c.requestedSecretLifeTime == d.requestedSecretLifetime)
    && c.roleGroupConfig.Some? && c.roleGroupConfig.value.resources.Some?
    && var r := c.roleGroupConfig.value;
       && (user.roleGroupConfig.None? ==>
             && r.affinity == d.affinity && r.logging == d.logging && r.resources.value == d.resources
             && r.gracefulShutdownTimeout == d.gracefulShutdownTimeout)
       && (user.roleGroupConfig.Some? ==>
             var u := user.roleGroupConfig.value.resources;
             && (u.None? || u.value.cpu.None? ==> r.resources.value.cpu == d.resources.cpu)
             && (u.None? || u.value.memory.None? ==> r.resources.value.memory == d.resources.memory)
             && (u.None? || u.value.storage.None? ==> r.resources.value.storage == d.resources.storage))
  }

  /** Keeping what the user set and filling the rest, field by field, leaves exactly one configuration. */
  lemma FilledConfigExact(user: BrokersConfig, d: KafkaDefaults, c: BrokersConfig)
    ensures c == FilledConfig(user, d) <==> KeepsUser(user, c) && FillsMissing(user, d, c)
  {
    if KeepsUser(user, c) && FillsMissing(user, d, c) {
      var filled := FilledConfig(user, d);
      var r, f := c.roleGroupConfig.value, filled.roleGroupConfig.value;
      assert r.resources.value.cpu == f.resources.value.cpu && r.resources.value.memory == f.resources.value.memory
          && r.resources.value.storage == f.resources.value.storage;
      assert r == f;
    }
  }

  /** The configuration has a logging section without the agent's flag, which the CRD allows. */
  predicate LoggingWithoutFlag(c: BrokersConfig)
  {
    c.roleGroupConfig.Some? && FlagMissing(c.roleGroupConfig.value.logging)
  }

  /**
   The filled configuration is ready unless the user configured logging without the agent's flag,
   which the merge neither creates nor repairs. It keeps what the user set, takes every other field
   from the same field of the defaults, and is a fixed point of any further merge.
   */
  lemma FilledConfigLaws(user: BrokersConfig, d: KafkaDefaults, d': KafkaDefaults)
    requires CompleteDefaults(d)
    ensures Ready(FilledConfig(user, d)) <==> !LoggingWithoutFlag(user)
    ensures LoggingWithoutFlag(FilledConfig(user, d)) <==> LoggingWithoutFlag(user)
    ensures KeepsUser(user, FilledConfig(user, d)) && FillsMissing(user, d, FilledConfig(user, d))
    ensures FilledConfig(FilledConfig(user, d), d') == FilledConfig(user, d)
  {
  }

  // ---------- the in-place merge ----------

  /** `mergeResources`; `user` and `d` may be the same object. */
  method MergeResources(user: Ptr<Resources>, d: Ptr<Resources>)
    modifies user
    ensures user.value == FilledResources(old(user.value), old(d.value))
  {
    if user.value.cpu.None? {
      user.value := user.value.(cpu := d.value.cpu);
    }
    if user.value.memory.None? {
      user.value := user.value.(memory := d.value.memory);
    }
    if user.value.storage.None? {
      user.value := user.value.(storage := d.value.storage);
    }
  }

  /** `mergeBaseConfig`. A nil argument is replaced by a local object. */
  method MergeBaseConfig(user: BrokersConfigSpec?, d: KafkaConfig)
    modifies BrokersConfigRepr(user), d.resources
    ensures forall x | x in BrokersConfigRepr(user) && x != null ::
              x in old(BrokersConfigRepr(user)) || x == d.resources || fresh(x)
    ensures user != null ==>
              BrokersConfigValue(user) == Some(FilledConfig(old(BrokersConfigValue(user).value), old(DefaultsOf(d))))
    ensures user != null && old(user.roleGroupConfig) != null ==>
              && user.roleGroupConfig == old(user.roleGroupConfig)
              && (old(user.roleGroupConfig.resources) != null ==>
                    user.roleGroupConfig.resources == old(user.roleGroupConfig.resources))
  {
    var target := user;
    if target == null {
      var r := new RoleGroupConfigSpec(d.affinity, d.gracefulShutdownTimeout, d.logging, d.resources);
      target := new BrokersConfigSpec(r, "", "", "");
    }
    if target.roleGroupConfig == null {
      target.roleGroupConfig := new RoleGroupConfigSpec(d.affinity, d.gracefulShutdownTimeout, d.logging, d.resources);
    }
    if target.roleGroupConfig.resources == null {
      target.roleGroupConfig.resources := d.resources;
    } else {
      MergeResources(target.roleGroupConfig.resources, d.resources);
    }
    if target.bootstrapListenerClass == "" {
      target.bootstrapListenerClass := d.bootstrapListenerClass;
    }
    if target.brokerListenerClass == "" {
      target.brokerListenerClass := d.brokerListenerClass;
    }
    if target.requestedSecretLifeTime == "" {
      target.requestedSecretLifeTime := d.requestedSecretLifetime;
    }
  }

  // ---------- the operator's defaults ----------

  const DEFAULT_RESOURCES := Resources(
    Some(CpuResource(1000, 250)), Some(MemoryResource(0x4000_0000)), Some(StorageResource(0x8000_0000, "")))

  const DEFAULT_SERVER: Properties := map[
    "zookeeper.connection.timeout.ms" := "18000",
    "controlled.shutdown.enable" := "true",
    "log.dirs" := "/kubedoop/data/topicdata"]

  const DEFAULT_SECURITY: Properties := map[
    "networkaddress.cache.ttl" := "30",
    "networkaddress.cache.negative.ttl" := "0"]

  function DefaultConfig(rawAffinity: string): KafkaDefaults
  {
    KafkaDefaults(Some(rawAffinity), "30s", Some(Logging(Some(false))), DEFAULT_RESOURCES,
                  "cluster-internal", "cluster-internal", "1d", DEFAULT_SERVER, DEFAULT_SECURITY)
  }

  /** What a role group gets that sets nothing. */
  lemma EmptyGroupGetsDefaults(rawAffinity: string)
    ensures DefaultConfig(rawAffinity).server
         == map["log.dirs" := "/kubedoop/data/topicdata"] + map["controlled.shutdown.enable" := "true"]
            + map["zookeeper.connection.timeout.ms" := "18000"]
    ensures DefaultConfig(rawAffinity).security
         == map["networkaddress.cache.negative.ttl" := "0"] + map["networkaddress.cache.ttl" := "30"]
    ensures var c := FilledConfig(BrokersConfig(None, "", "", ""), DefaultConfig(rawAffinity));
            && c.brokerListenerClass == "cluster-internal" && c.bootstrapListenerClass == "cluster-internal"
            && c.requestedSecretLifeTime == "1d"
            && c.roleGroupConfig.value.affinity == Some(rawAffinity)
            && c.roleGroupConfig.value.gracefulShutdownTimeout == "30s"
            && c.roleGroupConfig.value.logging == Some(Logging(Some(false)))
            && c.roleGroupConfig.value.resources.value
               == Resources(Some(CpuResource(1000, 250)), Some(MemoryResource(1024 * 1024 * 1024)),
                            Some(StorageResource(2 * 1024 * 1024 * 1024, "")))
  {
  }

  /** A `KafkaConfig` with these values, on new resources. */
  method NewConfig(values: KafkaDefaults) returns (d: KafkaConfig)
    ensures fresh(d.resources) && DefaultsOf(d) == values
  {
    var resources := new Ptr(values.resources);
    d := KafkaConfig(values.affinity, values.gracefulShutdownTimeout, values.logging, resources,
                     values.bootstrapListenerClass, values.brokerListenerClass, values.requestedSecretLifetime,
                     values.server, values.security);
  }

  /** `DefaultKafkaConfig`, given the affinity it marshals for the cluster. */
  method DefaultKafkaConfig(rawAffinity: string) returns (d: KafkaConfig)
    ensures fresh(d.resources)
    ensures DefaultsOf(d) == DefaultConfig(rawAffinity)
  {
    d := NewConfig(DefaultConfig(rawAffinity));
  }

  lemma DefaultConfigComplete(rawAffinity: string)
    ensures CompleteDefaults(DefaultConfig(rawAffinity))
  {
    assert "log.dirs" in DEFAULT_SERVER && "networkaddress.cache.ttl" in DEFAULT_SECURITY;
    assert |"zookeeper.connection.timeout.ms"| == 31 && |"controlled.shutdown.enable"| == 26 && |"log.dirs"| == 8;
    assert |"networkaddress.cache.ttl"| == 24 && |"networkaddress.cache.negative.ttl"| == 33;
  }

  // ---------- the whole merge, for any defaults ----------

  /** Two maps for the default files, new and different. */
  twostate predicate NewMaps(new files: map<string, StringMap?>)
  {
    && files.Keys == {SERVER_PROPERTIES, SECURITY_PROPERTIES}
    && (forall f | f in files :: files[f] != null && fresh(files[f]))
    && files[SERVER_PROPERTIES] != files[SECURITY_PROPERTIES]
  }

  /** The same, with the default files. */
  twostate predicate NewDefaults(new files: map<string, StringMap?>, d: KafkaDefaults)
    reads files.Values
  {
    && NewMaps(files)
    && files[SERVER_PROPERTIES].m == d.server && files[SECURITY_PROPERTIES].m == d.security
  }

  lemma DefaultFileValues(files: map<string, StringMap?>, d: KafkaDefaults)
    requires files.Keys == {SERVER_PROPERTIES, SECURITY_PROPERTIES}
    requires MapValue(files[SERVER_PROPERTIES]) == Some(d.server)
    requires MapValue(files[SECURITY_PROPERTIES]) == Some(d.security)
    ensures Values(files) == FilesOf(d)
  {
    assert FilesOf(d).Keys == {SERVER_PROPERTIES, SECURITY_PROPERTIES};
  }

  /** The `OverrideConfiguration` of `KafkaConfig`; `ComputeFile` builds new maps on every call. */
  method ComputeDefaults(d: KafkaConfig) returns (o: DefaultOverrides)
    ensures ValuesOf(o) == OverridesOf(DefaultsOf(d)) && o.env.Err?
    ensures o.files.Ok? && NewDefaults(o.files.value, DefaultsOf(d)) && Separate(o.files.value)
  {
    var server := new StringMap(d.server);
    var security := new StringMap(d.security);
    var files: map<string, StringMap?> := map[SERVER_PROPERTIES := server, SECURITY_PROPERTIES := security];
    DefaultFileValues(files, DefaultsOf(d));
    o := DefaultOverrides(Err("unimplemented"), Err("unimplemented"), Ok(files));
  }

  /** One of the two files that have defaults is given as a nil map. */
  predicate NilFile(user: Files)
  {
    || (SERVER_PROPERTIES in user && user[SERVER_PROPERTIES].None?)
    || (SECURITY_PROPERTIES in user && user[SECURITY_PROPERTIES].None?)
  }

  /** The merge panics iff one of the two default files is present but nil. */
  lemma DefaultPanicExact(user: Files, d: KafkaDefaults)
    requires d.server != map[] && d.security != map[]
    ensures Panics(user, FilesOf(d)) <==> NilFile(user)
  {
    if SERVER_PROPERTIES in user && user[SERVER_PROPERTIES].None? {
      assert NilWrite(user, FilesOf(d), SERVER_PROPERTIES);
    }
    if SECURITY_PROPERTIES in user && user[SECURITY_PROPERTIES].None? {
      assert NilWrite(user, FilesOf(d), SECURITY_PROPERTIES);
    }
  }

  /** `mergeOverrides` with the defaults of `d`; `files` are the default maps it installs. */
  method MergeDefaults(o: OverridesSpec, d: KafkaConfig)
    returns (outcome: Outcome, ghost files: map<string, StringMap?>)
    modifies OverridesRepr(o)
    ensures NewDefaults(files, DefaultsOf(d))
    ensures outcome.Panicked? <==> OverridesPanic(old(OverridesValue(o).value), OverridesOf(DefaultsOf(d)))
    ensures KeptOrNew(old(o.envOverrides), o.envOverrides) && KeptOrNew(old(o.configOverrides), o.configOverrides)
    ensures Extends(old(FileMaps(o)), FileMaps(o), files)
    ensures outcome.Returned? ==> MergedSince(o, old(Now(o)), files, OverridesOf(DefaultsOf(d)))
  {
    var defaults := ComputeBeside(o, d);
    files := defaults.files.value;
    outcome := MergeAndNote(o, defaults);
  }

  /** Computing the defaults leaves overrides alone, and the new maps are none of theirs. */
  method ComputeBeside(o: OverridesSpec, d: KafkaConfig) returns (defaults: DefaultOverrides)
    ensures ValuesOf(defaults) == OverridesOf(DefaultsOf(d)) && defaults.env.Err?
    ensures defaults.files.Ok? && NewDefaults(defaults.files.value, DefaultsOf(d)) && Foreign(o, defaults)
    ensures Now(o) == old(Now(o)) && OverridesRepr(o) == old(OverridesRepr(o))
    ensures forall f | f in defaults.files.value :: defaults.files.value[f] !in OverridesRepr(o)
  {
    ghost var was, repr := Now(o), OverridesRepr(o);
    defaults := ComputeDefaults(d);
    assert FileMaps(o) == was.maps && Contents(FileMaps(o)) == was.contents && OverridesValue(o).value == was.value;
    assert OverridesRepr(o) == repr;
  }

  method MergeUserConfig(userConfig: BrokersConfigSpec?, d: KafkaConfig)
    modifies BrokersConfigRepr(userConfig), d.resources
    ensures forall x | x in BrokersConfigRepr(userConfig) && x != null ::
              x in old(BrokersConfigRepr(userConfig)) || x == d.resources || fresh(x)
    ensures userConfig != null ==>
              BrokersConfigValue(userConfig)
              == Some(FilledConfig(old(BrokersConfigValue(userConfig).value), old(DefaultsOf(d))))
    ensures userConfig != null && old(userConfig.roleGroupConfig) != null ==>
              userConfig.roleGroupConfig == old(userConfig.roleGroupConfig)
  {
    var target := userConfig;
    if target == null {
      var r := new RoleGroupConfigSpec(d.affinity, "", None, d.resources);
      target := new BrokersConfigSpec(r, "", "", "");
    }
    MergeBaseConfig(target, d);
  }

  /** A configuration and overrides never share an object: their objects have different types. */
  lemma DifferentTypes(c: BrokersConfigSpec?, o: OverridesSpec?)
    ensures forall x | x in BrokersConfigRepr(c) && x != null :: x !in OverridesRepr(o)
  {
    forall x: object? | x in BrokersConfigRepr(c) && x != null
      ensures x !in OverridesRepr(o)
    {
      assert x is BrokersConfigSpec || x is RoleGroupConfigSpec || x is Ptr<Resources>;
    }
  }

  /** `MergeFromUserConfig` on given overrides, once the defaults are there. */
  method MergeBoth(config: BrokersConfigSpec?, o: OverridesSpec, d: KafkaConfig, ghost defaults: KafkaDefaults)
    returns (outcome: Outcome, ghost files: map<string, StringMap?>)
    requires defaults == DefaultsOf(d)
    modifies BrokersConfigRepr(config), OverridesRepr(o), d.resources
    ensures config != null ==>
              BrokersConfigValue(config) == Some(FilledConfig(old(BrokersConfigValue(config).value), defaults))
    ensures config != null && old(config.roleGroupConfig) != null ==>
              config.roleGroupConfig == old(config.roleGroupConfig)
    ensures forall x | x in BrokersConfigRepr(config) && x != null ::
              x in old(BrokersConfigRepr(config)) || x == d.resources || fresh(x)
    ensures NewDefaults(files, defaults)
    ensures outcome.Panicked? <==> OverridesPanic(old(OverridesValue(o).value), OverridesOf(defaults))
    ensures KeptOrNew(old(o.envOverrides), o.envOverrides) && KeptOrNew(old(o.configOverrides), o.configOverrides)
    ensures Extends(old(FileMaps(o)), FileMaps(o), files)
    ensures outcome.Returned? ==> MergedSince(o, old(Now(o)), files, OverridesOf(defaults))
  {
    FillBeside(config, o, d);
    outcome, files := MergeBeside(config, o, d);
  }

  /** Filling the configuration leaves overrides alone. */
  method FillBeside(config: BrokersConfigSpec?, o: OverridesSpec, d: KafkaConfig)
    modifies BrokersConfigRepr(config), d.resources
    ensures forall x | x in BrokersConfigRepr(config) && x != null ::
              x in old(BrokersConfigRepr(config)) || x == d.resources || fresh(x)
    ensures config != null ==>
              BrokersConfigValue(config)
              == Some(FilledConfig(old(BrokersConfigValue(config).value), old(DefaultsOf(d))))
    ensures config != null && old(config.roleGroupConfig) != null ==>
              config.roleGroupConfig == old(config.roleGroupConfig)
    ensures Now(o) == old(Now(o)) && OverridesRepr(o) == old(OverridesRepr(o))
    ensures o.configOverrides == old(o.configOverrides)
  {
    DifferentTypes(config, o);
    MergeUserConfig(config, d);
    assert FileMaps(o) == old(FileMaps(o));
    assert Contents(FileMaps(o)) == old(Contents(FileMaps(o))) && OverridesValue(o) == old(OverridesValue(o));
  }

  /** Merging overrides leaves the configuration alone. */
  method MergeBeside(config: BrokersConfigSpec?, o: OverridesSpec, d: KafkaConfig)
    returns (outcome: Outcome, ghost files: map<string, StringMap?>)
    modifies OverridesRepr(o)
    ensures BrokersConfigValue(config) == old(BrokersConfigValue(config))
    ensures BrokersConfigRepr(config) == old(BrokersConfigRepr(config))
    ensures config != null ==> config.roleGroupConfig == old(config.roleGroupConfig)
    ensures NewDefaults(files, DefaultsOf(d))
    ensures outcome.Panicked? <==> OverridesPanic(old(OverridesValue(o).value), OverridesOf(DefaultsOf(d)))
    ensures KeptOrNew(old(o.envOverrides), o.envOverrides) && KeptOrNew(old(o.configOverrides), o.configOverrides)
    ensures Extends(old(FileMaps(o)), FileMaps(o), files)
    ensures outcome.Returned? ==> MergedSince(o, old(Now(o)), files, OverridesOf(DefaultsOf(d)))
  {
    DifferentTypes(config, o);
    outcome, files := MergeDefaults(o, d);
  }

  /** `MergeFromUserConfig` once the defaults are there; nil overrides are replaced by a local object. */
  method MergeWith(config: BrokersConfigSpec?, overrides: OverridesSpec?, d: KafkaConfig, ghost defaults: KafkaDefaults)
    returns (outcome: Outcome, ghost files: map<string, StringMap?>)
    requires defaults == DefaultsOf(d)
    modifies BrokersConfigRepr(config), OverridesRepr(overrides), d.resources
    ensures config != null ==>
              BrokersConfigValue(config) == Some(FilledConfig(old(BrokersConfigValue(config).value), defaults))
    ensures config != null && old(config.roleGroupConfig) != null ==>
              config.roleGroupConfig == old(config.roleGroupConfig)
    ensures forall x | x in BrokersConfigRepr(config) && x != null ::
              x in old(BrokersConfigRepr(config)) || x == d.resources || fresh(x)
    ensures NewDefaults(files, defaults)
    ensures overrides == null ==> outcome.Returned?
    ensures overrides != null ==>
              && (outcome.Panicked? <==> OverridesPanic(old(OverridesValue(overrides).value), OverridesOf(defaults)))
              && KeptOrNew(old(overrides.envOverrides), overrides.envOverrides)
              && KeptOrNew(old(overrides.configOverrides), overrides.configOverrides)
              && Extends(old(FileMaps(overrides)), FileMaps(overrides), files)
    ensures overrides != null && outcome.Returned? ==>
              MergedSince(overrides, old(Now(overrides)), files, OverridesOf(defaults))
  {
    if overrides != null {
      outcome, files := MergeBoth(config, overrides, d, defaults);
    } else {
      var o := new OverridesSpec(None, null, null);
      outcome, files := MergeBoth(config, o, d, defaults);
    }
  }

  /**
   `MergeFromUserConfig`: the configuration is filled first, then the overrides are merged. It
   panics exactly when a file that has defaults is present as a nil map, and even then removes or
   replaces no file. `files` are the new default maps, installed for missing files; everything else
   it adds is new as well. However maps are shared, each is filled from the defaults of the files it
   is held under. The operator's own defaults are `DefaultConfig`.
   */
  method MergeFromUserConfig(userConfig: BrokersConfigSpec?, userOverrides: OverridesSpec?, defaults: KafkaDefaults)
    returns (outcome: Outcome, ghost files: map<string, StringMap?>)
    modifies BrokersConfigRepr(userConfig), OverridesRepr(userOverrides)
    ensures userConfig != null ==>
              BrokersConfigValue(userConfig) == Some(FilledConfig(old(BrokersConfigValue(userConfig).value), defaults))
    ensures userConfig != null && old(userConfig.roleGroupConfig) != null ==>
              userConfig.roleGroupConfig == old(userConfig.roleGroupConfig)
    ensures forall x | x in BrokersConfigRepr(userConfig) && x != null ::
              x in old(BrokersConfigRepr(userConfig)) || fresh(x)
    ensures NewDefaults(files, defaults)
    ensures userOverrides == null ==> outcome.Returned?
    ensures userOverrides != null ==>
              && (outcome.Panicked?
                  <==> OverridesPanic(old(OverridesValue(userOverrides).value), OverridesOf(defaults)))
              && KeptOrNew(old(userOverrides.envOverrides), userOverrides.envOverrides)
              && KeptOrNew(old(userOverrides.configOverrides), userOverrides.configOverrides)
              && Extends(old(FileMaps(userOverrides)), FileMaps(userOverrides), files)
    ensures userOverrides != null && outcome.Returned? ==>
              MergedSince(userOverrides, old(Now(userOverrides)), files, OverridesOf(defaults))
  {
    var d := NewConfig(defaults);
    outcome, files := MergeWith(userConfig, userOverrides, d, defaults);
  }

  /** If no map was used twice, merged overrides denote the user-biased union. */
  twostate lemma MergedUnion(o: OverridesSpec, new was: Moment, new files: map<string, StringMap?>,
                             new given: DefaultValues)
    requires was == old(Now(o)) && old(OwnMaps(o)) && KeptOrNew(old(o.envOverrides), o.envOverrides)
    requires MergedSince(o, was, files, given)
    ensures OverridesValue(o) == Some(MergedOverrides(old(OverridesValue(o).value), given))
  {
    assert forall f | f in was.maps && was.maps[f] != null :: old(allocated(was.maps[f]));
    MergedExactly(o, was, files, given);
  }

  // ---------- merging twice ----------

  /** Everything reachable from merged overrides was reachable before or is new. */
  twostate lemma ReprAfter(o: OverridesSpec, new files: map<string, StringMap?>)
    requires Extends(old(FileMaps(o)), FileMaps(o), files)
    requires KeptOrNew(old(o.envOverrides), o.envOverrides) && KeptOrNew(old(o.configOverrides), o.configOverrides)
    requires forall f | f in files :: files[f] != null && fresh(files[f])
    ensures forall x | x in OverridesRepr(o) && x != null :: x in old(OverridesRepr(o)) || fresh(x)
  {
    forall f | f in FileMaps(o)
      ensures FileMaps(o)[f] in old(FileMaps(o)).Values || fresh(FileMaps(o)[f])
    {
      if f in old(FileMaps(o)) {
        assert old(FileMaps(o))[f] in old(FileMaps(o)).Values;
      }
    }
  }

  /** A file with a nil map still has it after a merge that panicked, so another merge panics as well. */
  lemma PanicPersists(before: map<string, StringMap?>, after: map<string, StringMap?>, files: map<string, StringMap?>,
                      user: Files, given: Files)
    requires Extends(before, after, files)
    requires user.Keys == before.Keys && forall f | f in before :: user[f].None? <==> before[f] == null
    requires Panics(user, given)
    ensures Panics(Values(after), given)
  {
    var f :| f in user && NilWrite(user, given, f);
    assert NilWrite(Values(after), given, f);
  }

  /** Where the defaults are in place in both parts, a merge returns and changes nothing, however maps are shared. */
  method MergeAgain(config: BrokersConfigSpec, o: OverridesSpec, d: KafkaConfig, ghost defaults: KafkaDefaults,
                    ghost user: BrokersConfig)
    returns (outcome: Outcome)
    requires defaults == DefaultsOf(d) && CompleteDefaults(defaults)
    requires BrokersConfigValue(config) == Some(FilledConfig(user, defaults))
    requires Absorbed(o, OverridesOf(defaults))
    modifies BrokersConfigRepr(config), OverridesRepr(o), d.resources
    ensures outcome.Returned?
    ensures BrokersConfigValue(config) == Some(FilledConfig(user, defaults))
    ensures Now(o) == old(Now(o)) && o.configOverrides == old(o.configOverrides)
  {
    ghost var was := Now(o);
    FilledConfigLaws(user, defaults, defaults);
    AbsorbedReturns(o, OverridesOf(defaults));
    ghost var files;
    outcome, files := MergeBoth(config, o, d, defaults);
    assert outcome.Returned? && MergedSince(o, was, files, OverridesOf(defaults));
    assert Now(o) == was by {
      AbsorbedUnchanged(o, was, files, OverridesOf(defaults));
      SameMoment(o, was);
    }
  }

  /** Overrides that look the same are still merged since then. */
  twostate lemma StillMergedSince(o: OverridesSpec, new was: Moment, new files: map<string, StringMap?>,
                                  new given: DefaultValues)
    requires old(allocated(was)) && old(allocated(files))
    requires old(MergedSince(o, was, files, given)) && was.Consistent()
    requires Now(o) == old(Now(o)) && o.configOverrides == old(o.configOverrides)
    ensures MergedSince(o, was, files, given)
  {
    assert forall f | f in FileMaps(o) && FileMaps(o)[f] != null :: FileMaps(o)[f].m == old(FileMaps(o)[f].m) by {
      forall f | f in FileMaps(o) && FileMaps(o)[f] != null
        ensures FileMaps(o)[f].m == old(FileMaps(o)[f].m)
      {
        assert FileMaps(o)[f] in FileMaps(o).Values;
        assert Contents(FileMaps(o))[FileMaps(o)[f]] == old(Contents(FileMaps(o)))[FileMaps(o)[f]];
      }
    }
    forall p | p in was.maps.Values && p != null
      ensures p.m == old(p.m)
    {
      var f :| f in was.maps && was.maps[f] == p;
      assert FileMaps(o)[f] == p;
    }
    forall f | f in files && f !in was.maps
      ensures MapValue(files[f]) == old(MapValue(files[f]))
    {
      assert FileMaps(o)[f] == files[f];
    }
  }

  /** The second merge after one that returned. */
  method MergeAfterReturn(config: BrokersConfigSpec, o: OverridesSpec, d: KafkaConfig, ghost defaults: KafkaDefaults,
                          ghost user: BrokersConfig, ghost was: Moment, ghost files: map<string, StringMap?>)
    returns (outcome: Outcome)
    requires defaults == DefaultsOf(d) && CompleteDefaults(defaults)
    requires BrokersConfigValue(config) == Some(FilledConfig(user, defaults))
    requires MergedSince(o, was, files, OverridesOf(defaults)) && was.Consistent()
    requires !OverridesPanic(was.value, OverridesOf(defaults))
    modifies BrokersConfigRepr(config), OverridesRepr(o), d.resources
    ensures outcome.Returned?
    ensures BrokersConfigValue(config) == Some(FilledConfig(user, defaults))
    ensures MergedSince(o, was, files, OverridesOf(defaults))
    ensures o.envOverrides == old(o.envOverrides) && o.configOverrides == old(o.configOverrides)
  {
    MergedAbsorbs(o, was, files, OverridesOf(defaults));
    outcome := MergeAgain(config, o, d, defaults, user);
    StillMergedSince(o, was, files, OverridesOf(defaults));
  }

  /** No file is removed or replaced. */
  predicate Kept(before: map<string, StringMap?>, after: map<string, StringMap?>)
  {
    forall f | f in before :: f in after && after[f] == before[f]
  }

  /** The second merge after one that panicked. */
  method MergeAfterPanic(config: BrokersConfigSpec, o: OverridesSpec, d: KafkaConfig, ghost defaults: KafkaDefaults,
                         ghost user: BrokersConfig, ghost was: Moment, ghost files: map<string, StringMap?>)
    returns (outcome: Outcome)
    requires defaults == DefaultsOf(d) && CompleteDefaults(defaults)
    requires BrokersConfigValue(config) == Some(FilledConfig(user, defaults))
    requires Extends(was.maps, FileMaps(o), files) && was.Consistent()
    requires OverridesPanic(was.value, OverridesOf(defaults))
    modifies BrokersConfigRepr(config), OverridesRepr(o), d.resources
    ensures outcome.Panicked?
    ensures BrokersConfigValue(config) == Some(FilledConfig(user, defaults))
    ensures KeptOrNew(old(o.envOverrides), o.envOverrides) && KeptOrNew(old(o.configOverrides), o.configOverrides)
    ensures Kept(was.maps, FileMaps(o))
  {
    FilledConfigLaws(user, defaults, defaults);
    PanicPersists(was.maps, FileMaps(o), files, GetOr(was.value.files, map[]), FilesOf(defaults));
    ghost var again;
    outcome, again := MergeBoth(config, o, d, defaults);
  }

  /** Two merges, each with its own copy of the defaults. */
  method MergeBothTwice(config: BrokersConfigSpec, o: OverridesSpec, d: KafkaConfig, d': KafkaConfig,
                    ghost defaults: KafkaDefaults)
    returns (first: Outcome, second: Outcome, ghost files: map<string, StringMap?>)
    requires defaults == DefaultsOf(d) == DefaultsOf(d') && CompleteDefaults(defaults)
    requires d'.resources != d.resources && d'.resources !in BrokersConfigRepr(config)
    modifies BrokersConfigRepr(config), OverridesRepr(o), d.resources, d'.resources
    ensures first.Panicked? <==> OverridesPanic(old(OverridesValue(o).value), OverridesOf(defaults))
    ensures second == first && NewMaps(files)
    ensures BrokersConfigValue(config) == Some(FilledConfig(old(BrokersConfigValue(config).value), defaults))
    ensures KeptOrNew(old(o.envOverrides), o.envOverrides) && KeptOrNew(old(o.configOverrides), o.configOverrides)
    ensures Kept(old(FileMaps(o)), FileMaps(o))
    ensures first.Returned? ==> MergedSince(o, old(Now(o)), files, OverridesOf(defaults))
  {
    ghost var was, user := Now(o), BrokersConfigValue(config).value;
    ghost var configRepr, repr := BrokersConfigRepr(config), OverridesRepr(o);
    assert d'.resources !in repr;
    first, files := MergeBoth(config, o, d, defaults);
    assert DefaultsOf(d') == defaults;
    ReprAfter(o, files);
    assert forall x | x in BrokersConfigRepr(config) && x != null :: x in configRepr || x == d.resources || fresh(x);
    assert forall x | x in OverridesRepr(o) && x != null :: x in repr || fresh(x);
    if first.Returned? {
      second := MergeAfterReturn(config, o, d', defaults, user, was, files);
    } else {
      second := MergeAfterPanic(config, o, d', defaults, user, was, files);
    }
  }

  /**
   `MergeFromUserConfig` twice, as when a resource is reconciled again: the second call ends like
   the first, and even if they panic the configuration is filled and no file removed or replaced. If
   they return, every part is as one call leaves it, the installed default maps included, however
   maps are shared; if none is used twice, the overrides denote the user-biased union.
   */
  method MergeTwice(config: BrokersConfigSpec, o: OverridesSpec, defaults: KafkaDefaults)
    returns (first: Outcome, second: Outcome, ghost files: map<string, StringMap?>)
    requires CompleteDefaults(defaults)
    modifies BrokersConfigRepr(config), OverridesRepr(o)
    ensures first.Panicked? <==> OverridesPanic(old(OverridesValue(o).value), OverridesOf(defaults))
    ensures second == first && NewMaps(files)
    ensures BrokersConfigValue(config) == Some(FilledConfig(old(BrokersConfigValue(config).value), defaults))
    ensures KeptOrNew(old(o.envOverrides), o.envOverrides) && KeptOrNew(old(o.configOverrides), o.configOverrides)
    ensures Kept(old(FileMaps(o)), FileMaps(o))
    ensures first.Returned? ==> MergedSince(o, old(Now(o)), files, OverridesOf(defaults))
    ensures first.Returned? && old(OwnMaps(o)) ==>
              OverridesValue(o) == Some(MergedOverrides(old(OverridesValue(o).value), OverridesOf(defaults)))
  {
    ghost var was, user := Now(o), BrokersConfigValue(config);
    var d := NewConfig(defaults);
    var d' := NewConfig(defaults);
    assert Now(o) == was && BrokersConfigValue(config) == user;
    first, second, files := MergeBothTwice(config, o, d, d', defaults);
    if first.Returned? && old(OwnMaps(o)) {
      MergedUnion(o, was, files, OverridesOf(defaults));
    }
  }
}
