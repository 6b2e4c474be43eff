/**
 The map stage of internal/controller/configmap.go: `buildServerProperties` writes the security
 settings into the very map the overrides hold.
 */
module ServerProperties {
  import opened Wrappers
  import opened SpecValues
  import opened GoHeap
  import opened Objects
  import opened OverrideMerge
  import opened ConfigMerge
  import opened Security
  import opened Vector

  /** `maps.Copy`: every key is written, in any order; writing to a nil map panics. */
  method CopyInto(target: StringMap?, source: Properties) returns (outcome: Outcome)
    modifies target
    ensures outcome.Panicked? <==> target == null && source != map[]
    ensures target != null ==> target.m == old(target.m) + source
  {
    var todo := source.Keys;
    while todo != {}
      invariant todo <= source.Keys
      invariant target != null ==> target.m == old(target.m) + (map key | key in source && key !in todo :: source[key])
      invariant target == null ==> todo == source.Keys
    {
      var key :| key in todo;
      if target == null {
        assert key in source;
        return Panicked;
      }
      target.m := target.m[key := source[key]];
      todo := todo - {key};
    }
    if target != null {
      assert (map key | key in source && key !in todo :: source[key]) == source;
    }
    return Returned;
  }

  /** The map object of one file; null if the file is absent or its map is nil. */
  ghost function FileOf(o: OverridesSpec?, f: string): StringMap?
    reads o, if o == null then {} else {o.configOverrides}
  {
    if o == null || o.configOverrides == null || f !in o.configOverrides.m then null else o.configOverrides.m[f]
  }

  predicate HasFiles(o: OverridesSpec?)
    reads o
  {
    o != null && o.configOverrides != null
  }

  /**
   `buildServerProperties` up to marshalling. It panics exactly when overrides are given but hold no
   server.properties map, and it writes only that map.
   */
  method BuildServerProperties(o: OverridesSpec?, k: KafkaSecurity) returns (outcome: Outcome, data: Properties)
    modifies FileOf(o, SERVER_PROPERTIES)
    ensures outcome.Panicked? <==> HasFiles(o) && FileOf(o, SERVER_PROPERTIES) == null
    ensures outcome.Returned? ==> data == GetOr(old(MapValue(FileOf(o, SERVER_PROPERTIES))), map[]) + Settings(k)
    ensures outcome.Returned? && HasFiles(o) ==> MapValue(FileOf(o, SERVER_PROPERTIES)) == Some(data)
  {
    data := map[];
    var target: StringMap? := new StringMap(map[]);
    if o != null && o.configOverrides != null {
      target := null;
      if SERVER_PROPERTIES in o.configOverrides.m {
        target := o.configOverrides.m[SERVER_PROPERTIES];
      }
    }
    var settings := ConfigSettings(k);
    InterBrokerListenerIsInternal(k);
    outcome := CopyInto(target, settings);
    if outcome.Returned? {
      data := target.m;
    }
  }

  /** What security.properties holds, if it is there; a nil map reads as an empty one. */
  ghost function SecurityFile(o: OverridesSpec?): Option<Properties>
    reads o, if o == null then {} else {o.configOverrides}, FileOf(o, SECURITY_PROPERTIES)
  {
    if HasFiles(o) && SECURITY_PROPERTIES in o.configOverrides.m
    then Some(GetOr(MapValue(o.configOverrides.m[SECURITY_PROPERTIES]), map[])) else None
  }

  /** `buildSecurityProperties` up to marshalling. */
  method BuildSecurityProperties(o: OverridesSpec?) returns (data: Option<Properties>)
    ensures data == SecurityFile(o)
  {
    if o != null && o.configOverrides != null && SECURITY_PROPERTIES in o.configOverrides.m {
      var inner := o.configOverrides.m[SECURITY_PROPERTIES];
      return Some(if inner == null then map[] else inner.m);
    }
    return None;
  }

  /** What the library renders or refuses to, and the name the log agent's configuration needs. */
  datatype Library = Library(log4j: Result<string>, aggregator: string, vector: Result<string>,
                             marshals: Properties -> bool)
  {
    /** All property files can be rendered. */
    predicate Renders(server: Properties, security: Option<Properties>)
    {
      log4j.Ok? && marshals(server) && (security.Some? ==> marshals(security.value))
    }

    predicate AgentFails()
    {
      aggregator == "" || vector.Err?
    }
  }

  /** The ConfigMap's content; no agent configuration is the empty text. */
  datatype ConfigData = ConfigData(server: Properties, security: Option<Properties>, log4j: string, vector: string)

  datatype FileName = ServerFile | SecurityFileName | Log4jFile

  ghost predicate ServerMissing(o: OverridesSpec?)
    reads o, if o == null then {} else {o.configOverrides}
  {
    HasFiles(o) && FileOf(o, SERVER_PROPERTIES) == null
  }

  /** Both files are the same map object. */
  ghost predicate OneMap(o: OverridesSpec?)
    reads o, if o == null then {} else {o.configOverrides}
  {
    FileOf(o, SERVER_PROPERTIES) != null && FileOf(o, SERVER_PROPERTIES) == FileOf(o, SECURITY_PROPERTIES)
  }

  /** What server.properties is built as, if it is there. */
  ghost function ServerBuilt(o: OverridesSpec?, k: KafkaSecurity): Properties
    reads o, if o == null then {} else {o.configOverrides}, FileOf(o, SERVER_PROPERTIES)
  {
    GetOr(MapValue(FileOf(o, SERVER_PROPERTIES)), map[]) + Settings(k)
  }

  /** What security.properties is built as; if it shares its map and comes late, it shows the security settings. */
  ghost function SecurityBuilt(o: OverridesSpec?, k: KafkaSecurity, late: bool): Option<Properties>
    reads o, if o == null then {} else {o.configOverrides},
      FileOf(o, SERVER_PROPERTIES), FileOf(o, SECURITY_PROPERTIES)
  {
    if OneMap(o) && late then Some(ServerBuilt(o, k)) else SecurityFile(o)
  }

  /** Whether this file can be rendered. */
  predicate FileRenders(f: FileName, lib: Library, data: Option<Properties>)
  {
    if f == Log4jFile then lib.log4j.Ok? else data.Some? ==> lib.marshals(data.value)
  }

  /** What one of the functions in `propertyFiles` marshals, and whether that succeeds. */
  method BuildFile(f: FileName, o: OverridesSpec?, k: KafkaSecurity, lib: Library)
    returns (outcome: Outcome, data: Option<Properties>, ok: bool)
    modifies if f == ServerFile then {FileOf(o, SERVER_PROPERTIES)} else {}
    ensures outcome.Panicked? <==> f == ServerFile && ServerMissing(o)
    ensures f == ServerFile && outcome.Returned? ==> data == Some(old(ServerBuilt(o, k)))
    ensures f == ServerFile && outcome.Returned? && HasFiles(o) ==> MapValue(FileOf(o, SERVER_PROPERTIES)) == data
    ensures f == ServerFile && outcome.Returned? ==> SecurityFile(o) == old(SecurityBuilt(o, k, true))
    ensures f == SecurityFileName ==> data == SecurityFile(o)
    ensures outcome.Returned? ==> ok == FileRenders(f, lib, data)
  {
    outcome, data := Returned, None;
    match f {
      case ServerFile =>
        var server;
        outcome, server := BuildServerProperties(o, k);
        data := Some(server);
      case SecurityFileName =>
        data := BuildSecurityProperties(o);
      case Log4jFile =>
    }
    ok := FileRenders(f, lib, data);
  }

  /** What the files are before the first turn, and what they are built as. */
  datatype Plan = Plan(before: Option<Properties>, server: Properties, file: Option<Properties>, oneMap: bool)
  {
    function Security(late: bool): Option<Properties>
    {
      if oneMap && late then Some(server) else file
    }
  }

  ghost function PlanOf(o: OverridesSpec?, k: KafkaSecurity): Plan
    reads o, if o == null then {} else {o.configOverrides},
      FileOf(o, SERVER_PROPERTIES), FileOf(o, SECURITY_PROPERTIES)
  {
    Plan(MapValue(FileOf(o, SERVER_PROPERTIES)), ServerBuilt(o, k), SecurityFile(o), OneMap(o))
  }

  /** The state once only the files in `todo` remain. */
  ghost predicate Progress(o: OverridesSpec?, lib: Library, plan: Plan, todo: set<FileName>,
                           server: Option<Properties>, security: Option<Properties>, late: bool)
    reads o, if o == null then {} else {o.configOverrides},
      FileOf(o, SERVER_PROPERTIES), FileOf(o, SECURITY_PROPERTIES)
  {
    && plan.oneMap == OneMap(o)
    && (if ServerFile in todo then
          MapValue(FileOf(o, SERVER_PROPERTIES)) == plan.before && SecurityFile(o) == plan.file
        else
          && !ServerMissing(o) && server == Some(plan.server) && lib.marshals(plan.server)
          && SecurityFile(o) == plan.Security(true)
          && (HasFiles(o) ==> MapValue(FileOf(o, SERVER_PROPERTIES)) == server))
    && (SecurityFileName in todo || (security == plan.Security(late) && FileRenders(SecurityFileName, lib, security)))
    && (Log4jFile in todo || lib.log4j.Ok?)
  }

  /** One turn of the loop: a panic, a file that cannot be rendered, or one file less to do. */
  method BuildNext(o: OverridesSpec?, k: KafkaSecurity, lib: Library, ghost plan: Plan, ghost todo: set<FileName>,
                   server: Option<Properties>, security: Option<Properties>, ghost late: bool, f: FileName)
    returns (outcome: Outcome, ok: bool, server': Option<Properties>, security': Option<Properties>, ghost late': bool)
    requires f in todo && Progress(o, lib, plan, todo, server, security, late)
    requires plan.server == GetOr(plan.before, map[]) + Settings(k)
    modifies FileOf(o, SERVER_PROPERTIES)
    ensures outcome.Panicked? ==> ServerMissing(o)
    ensures outcome.Returned? && !ok ==> !lib.Renders(plan.server, plan.Security(late'))
    ensures outcome.Returned? && ok ==> Progress(o, lib, plan, todo - {f}, server', security', late')
    ensures FileOf(o, SERVER_PROPERTIES) != null ==>
              MapValue(FileOf(o, SERVER_PROPERTIES)) in {plan.before, Some(plan.server)}
  {
    server', security', late' := server, security, late;
    var data;
    outcome, data, ok := BuildFile(f, o, k, lib);
    if f == ServerFile {
      server' := data;
    } else if f == SecurityFileName {
      security', late' := data, ServerFile !in todo;
    }
  }

  /**
   The property files of `Build`, which visits them in arbitrary order and stops at the first error.
   It stops early exactly when server.properties is missing from given overrides, which panics, or
   some file cannot be rendered; if both, the order decides. The write into the server.properties map
   does not reach security.properties unless both are one map and security.properties comes `late`.
   */
  method BuildFiles(o: OverridesSpec?, k: KafkaSecurity, lib: Library)
    returns (outcome: Outcome, r: Result<ConfigData>, ghost late: bool)
    modifies FileOf(o, SERVER_PROPERTIES)
    ensures outcome.Panicked? || r.Err? <==>
              ServerMissing(o) || !lib.Renders(old(ServerBuilt(o, k)), old(SecurityBuilt(o, k, late)))
    ensures outcome.Panicked? ==> ServerMissing(o)
    ensures outcome.Returned? && r.Err? ==> !lib.Renders(old(ServerBuilt(o, k)), old(SecurityBuilt(o, k, late)))
    ensures outcome.Returned? && r.Ok? ==>
              && r.value.server == old(ServerBuilt(o, k)) && r.value.security == old(SecurityBuilt(o, k, late))
              && r.value.log4j == lib.log4j.value && r.value.vector == ""
    ensures FileOf(o, SERVER_PROPERTIES) != null ==>
              || FileOf(o, SERVER_PROPERTIES).m == old(FileOf(o, SERVER_PROPERTIES).m)
              || FileOf(o, SERVER_PROPERTIES).m == old(FileOf(o, SERVER_PROPERTIES).m) + Settings(k)
  {
    var server: Option<Properties>, security: Option<Properties> := None, None;
    var todo := {ServerFile, SecurityFileName, Log4jFile};
    ghost var plan := PlanOf(o, k);
    late := false;
    while todo != {}
      invariant todo <= {ServerFile, SecurityFileName, Log4jFile}
      invariant Progress(o, lib, plan, todo, server, security, late)
    {
      var f :| f in todo;
      var ok;
      outcome, ok, server, security, late := BuildNext(o, k, lib, plan, todo, server, security, late, f);
      if outcome.Panicked? || !ok {
        return outcome, Err("file"), late;
      }
      todo := todo - {f};
    }
    return Returned, Ok(ConfigData(server.value, security, lib.log4j.value, "")), late;
  }

  /**
   `Build` of the ConfigMap: the property files, then the log agent's configuration. If the files can
   be rendered, it panics exactly when server.properties is missing from given overrides or the
   agent's flag cannot be read, and fails exactly when the agent is on and its configuration cannot
   be made.
   */
  method BuildConfigMap(o: OverridesSpec?, c: RoleGroupConfigSpec?, k: KafkaSecurity, lib: Library)
    returns (outcome: Outcome, r: Result<ConfigData>, ghost late: bool)
    modifies FileOf(o, SERVER_PROPERTIES)
    ensures lib.Renders(old(ServerBuilt(o, k)), old(SecurityBuilt(o, k, late))) ==>
              && (outcome.Panicked? <==> ServerMissing(o) || c == null || FlagMissing(c.logging))
              && (outcome.Returned? ==> (r.Err? <==> VectorOn(c.logging) && lib.AgentFails()))
    ensures !lib.Renders(old(ServerBuilt(o, k)), old(SecurityBuilt(o, k, late))) ==>
              if outcome.Panicked? then ServerMissing(o) else r.Err?
    ensures outcome.Returned? && r.Ok? ==>
              && r.value.server == old(ServerBuilt(o, k)) && r.value.security == old(SecurityBuilt(o, k, late))
              && r.value.log4j == lib.log4j.value
              && r.value.vector == if VectorOn(c.logging) then lib.vector.value else ""
  {
    outcome, r, late := BuildFiles(o, k, lib);
    if outcome.Panicked? || r.Err? {
      return;
    }
    if c == null {
      return Panicked, r, late;
    }
    var enabled;
    outcome, enabled := IsVectorEnable(c.logging);
    if outcome.Returned? && enabled {
      var config := BuildVectorConfig(c.logging, lib.aggregator, lib.vector);
      r := if config.Err? then Err(config.message) else Ok(r.value.(vector := config.value));
    }
  }

  // ---------- one role group, end to end ----------

  /** What the user wrote for one file; nothing if the file is absent. */
  function UserFile(files: Files, f: string): Properties
  {
    if f in files then GetOr(files[f], map[]) else map[]
  }

  /** The merged server.properties: defaults, overlaid by the user; a map used for both files has both defaults. */
  function MergedServer(d: KafkaDefaults, user: Files, oneMap: bool): Properties
  {
    (if oneMap then d.server + d.security else d.server) + UserFile(user, SERVER_PROPERTIES)
  }

  function MergedSecurity(d: KafkaDefaults, user: Files, oneMap: bool): Properties
  {
    if oneMap then MergedServer(d, user, true) else d.security + UserFile(user, SECURITY_PROPERTIES)
  }

  /** The reference for server.properties: defaults, overlaid by the user, overlaid by security. */
  function EffectiveServerProperties(user: Properties, k: KafkaSecurity): Properties
  {
    DEFAULT_SERVER + user + Settings(k)
  }

  ghost function GivenFiles(o: OverridesSpec?): Files
    reads OverridesRepr(o)
  {
    if o == null then map[] else GetOr(OverridesValue(o).value.files, map[])
  }

  /** A missing configuration is an empty one. */
  ghost function GivenConfig(c: BrokersConfigSpec?): BrokersConfig
    reads BrokersConfigRepr(c)
  {
    if c == null then BrokersConfig(None, "", "", "") else BrokersConfigValue(c).value
  }

  /** The log agent is on; without a configuration it is off. */
  predicate AgentOn(c: BrokersConfig)
  {
    c.roleGroupConfig.Some? && VectorOn(c.roleGroupConfig.value.logging)
  }

  method CreateIfNil(c: BrokersConfigSpec?) returns (r: BrokersConfigSpec)
    ensures if c == null then fresh(r) && r.roleGroupConfig == null else r == c
    ensures BrokersConfigValue(r) == Some(GivenConfig(c))
  {
    if c != null {
      return c;
    }
    r := new BrokersConfigSpec(null, "", "", "");
  }

  // what the merge leaves in the two files

  lemma FilledByOne(m: map<string, StringMap?>, before: Properties, after: Properties, d: KafkaDefaults, f: string,
                    g: string)
    requires {f, g} == FilesOf(d).Keys && f != g && f in m && m[f] != null && !(g in m && m[g] == m[f])
    requires Filled(before, after, FilesOf(d), Uses(m, FilesOf(d).Keys, m[f]))
    ensures after == FilesOf(d)[f].value + before
  {
    assert Uses(m, FilesOf(d).Keys, m[f]) == {f};
    FilledAlone(before, after, FilesOf(d), {f}, f);
  }

  lemma FilledByBoth(m: map<string, StringMap?>, before: Properties, after: Properties, d: KafkaDefaults)
    requires d.server.Keys !! d.security.Keys
    requires SERVER_PROPERTIES in m && SECURITY_PROPERTIES in m
               && m[SERVER_PROPERTIES] == m[SECURITY_PROPERTIES] != null
    requires Filled(before, after, FilesOf(d), Uses(m, FilesOf(d).Keys, m[SERVER_PROPERTIES]))
    ensures after == d.server + d.security + before
  {
    assert FilesOf(d).Keys == {SERVER_PROPERTIES, SECURITY_PROPERTIES};
    assert Uses(m, FilesOf(d).Keys, m[SERVER_PROPERTIES]) == {SERVER_PROPERTIES, SECURITY_PROPERTIES};
    FilledPair(before, after, FilesOf(d), SERVER_PROPERTIES, SECURITY_PROPERTIES);
  }

  /** Both files are one map at that moment. */
  predicate OneMapAt(maps: map<string, StringMap?>)
  {
    && SERVER_PROPERTIES in maps && SECURITY_PROPERTIES in maps
    && maps[SERVER_PROPERTIES] == maps[SECURITY_PROPERTIES] != null
  }

  /** What a merge that returned leaves in the two files, however maps are shared. */
  lemma FilesAfterMerge(o: OverridesSpec, was: Moment, files: map<string, StringMap?>, d: KafkaDefaults)
    requires MergedSince(o, was, files, OverridesOf(d)) && was.Consistent()
    requires d.server.Keys !! d.security.Keys && !NilFile(GetOr(was.value.files, map[]))
    requires files[SERVER_PROPERTIES] != files[SECURITY_PROPERTIES]
    ensures FileOf(o, SERVER_PROPERTIES) != null && FileOf(o, SECURITY_PROPERTIES) != null
    ensures OneMap(o) <==> OneMapAt(was.maps)
    ensures FileOf(o, SERVER_PROPERTIES).m == MergedServer(d, GetOr(was.value.files, map[]), OneMapAt(was.maps))
    ensures FileOf(o, SECURITY_PROPERTIES).m == MergedSecurity(d, GetOr(was.value.files, map[]), OneMapAt(was.maps))
  {
    FilesKeys(d);
    if OneMapAt(was.maps) {
      var p := was.maps[SERVER_PROPERTIES];
      assert p in was.maps.Values;
      FilledByBoth(was.maps, was.contents[p], p.m, d);
    } else {
      FileAfterMerge(o, was, files, d, SERVER_PROPERTIES, SECURITY_PROPERTIES);
      FileAfterMerge(o, was, files, d, SECURITY_PROPERTIES, SERVER_PROPERTIES);
    }
  }

  lemma FilesKeys(d: KafkaDefaults)
    ensures FilesOf(d).Keys == {SERVER_PROPERTIES, SECURITY_PROPERTIES} && SERVER_PROPERTIES != SECURITY_PROPERTIES
  {
    assert |SERVER_PROPERTIES| != |SECURITY_PROPERTIES|;
  }

  /** One file whose map is not the other's. */
  lemma FileAfterMerge(o: OverridesSpec, was: Moment, files: map<string, StringMap?>, d: KafkaDefaults, f: string,
                       g: string)
    requires MergedSince(o, was, files, OverridesOf(d)) && was.Consistent()
    requires {f, g} == FilesOf(d).Keys && f != g && !OneMapAt(was.maps)
    requires f in was.maps ==> was.maps[f] != null && !(g in was.maps && was.maps[g] == was.maps[f])
    ensures FileOf(o, f) != null
    ensures FileOf(o, f).m == FilesOf(d)[f].value + UserFile(GetOr(was.value.files, map[]), f)
  {
    assert FilesOf(d)[f].Some?;
    if f in was.maps {
      var p := was.maps[f];
      assert p in was.maps.Values && GetOr(was.value.files, map[])[f] == Some(was.contents[p]);
      FilledByOne(was.maps, was.contents[p], p.m, d, f, g);
    } else {
      assert MapValue(files[f]) == FilesOf(d)[f] && FileOf(o, f) == files[f];
      assert FilesOf(d)[f].value + map[] == FilesOf(d)[f].value;
    }
  }

  /** The merge as the builders see it. */
  method MergeReady(config: BrokersConfigSpec, o: OverridesSpec, d: KafkaConfig, ghost defaults: KafkaDefaults)
    returns (outcome: Outcome)
    requires defaults == DefaultsOf(d) && CompleteDefaults(defaults)
    modifies BrokersConfigRepr(config), OverridesRepr(o), d.resources
    ensures outcome.Panicked? <==> NilFile(old(GivenFiles(o)))
    ensures BrokersConfigValue(config) == Some(FilledConfig(old(BrokersConfigValue(config).value), defaults))
    ensures outcome.Returned? ==>
              && HasFiles(o) && (OneMap(o) <==> OneMapAt(old(FileMaps(o))))
              && FileOf(o, SERVER_PROPERTIES) != null
              && (FileOf(o, SERVER_PROPERTIES) in old(OverridesRepr(o)) || fresh(FileOf(o, SERVER_PROPERTIES)))
              && FileOf(o, SERVER_PROPERTIES).m
                 == MergedServer(defaults, old(GivenFiles(o)), OneMapAt(old(FileMaps(o))))
              && SecurityFile(o) == Some(MergedSecurity(defaults, old(GivenFiles(o)), OneMapAt(old(FileMaps(o)))))
  {
    ghost var was := Now(o);
    DefaultPanicExact(GivenFiles(o), defaults);
    ghost var files;
    outcome, files := MergeBoth(config, o, d, defaults);
    if outcome.Returned? {
      FilesAfterMerge(o, was, files, defaults);
    }
  }

  /** Building the ConfigMap does not touch the configuration. */
  method BuildBeside(config: BrokersConfigSpec, o: OverridesSpec, k: KafkaSecurity, lib: Library)
    returns (outcome: Outcome, r: Result<ConfigData>, ghost late: bool)
    requires HasFiles(o) && FileOf(o, SERVER_PROPERTIES) != null && config.roleGroupConfig != null
    modifies FileOf(o, SERVER_PROPERTIES)
    ensures var rendered := lib.Renders(old(ServerBuilt(o, k)), old(SecurityBuilt(o, k, late)));
            && (outcome.Panicked? <==> rendered && FlagMissing(config.roleGroupConfig.logging))
            && (outcome.Returned? ==>
                  (r.Err? <==> !rendered || (VectorOn(config.roleGroupConfig.logging) && lib.AgentFails())))
    ensures outcome.Returned? && r.Ok? ==>
              && r.value.server == old(ServerBuilt(o, k)) && r.value.security == old(SecurityBuilt(o, k, late))
              && r.value.log4j == lib.log4j.value
              && r.value.vector == if VectorOn(config.roleGroupConfig.logging) then lib.vector.value else ""
    ensures BrokersConfigValue(config) == old(BrokersConfigValue(config))
  {
    DifferentTypes(config, o);
    assert FileOf(o, SERVER_PROPERTIES) in OverridesRepr(o);
    outcome, r, late := BuildConfigMap(o, config.roleGroupConfig, k, lib);
  }

  /** The operator's defaults leave the agent as the user has it. */
  lemma DefaultsLeaveAgent(user: BrokersConfig, rawAffinity: string)
    ensures AgentOn(FilledConfig(user, DefaultConfig(rawAffinity))) <==> AgentOn(user)
  {
  }

  /** What one role group's server.properties is built as: security settings win. */
  function GroupServer(d: KafkaDefaults, user: Files, oneMap: bool, k: KafkaSecurity): Properties
  {
    MergedServer(d, user, oneMap) + Settings(k)
  }

  /** Its security.properties; one map for both shows the security settings if the file is built late. */
  function GroupSecurity(d: KafkaDefaults, user: Files, oneMap: bool, k: KafkaSecurity, late: bool): Properties
  {
    if oneMap && late then GroupServer(d, user, oneMap, k) else MergedSecurity(d, user, oneMap)
  }

  /** The library can render these files. */
  predicate GroupRenders(lib: Library, d: KafkaDefaults, user: Files, oneMap: bool, k: KafkaSecurity, late: bool)
  {
    lib.Renders(GroupServer(d, user, oneMap, k), Some(GroupSecurity(d, user, oneMap, k, late)))
  }

  /** A ConfigMap holds these files. */
  predicate FilesBuilt(data: ConfigData, d: KafkaDefaults, user: Files, oneMap: bool, k: KafkaSecurity, late: bool)
  {
    data.server == GroupServer(d, user, oneMap, k) && data.security == Some(GroupSecurity(d, user, oneMap, k, late))
  }

  /** Merging and building on given objects, for any defaults. */
  method CompileWith(config: BrokersConfigSpec, o: OverridesSpec, d: KafkaConfig, ghost defaults: KafkaDefaults,
                     k: KafkaSecurity, lib: Library)
    returns (outcome: Outcome, r: Result<ConfigData>, ghost late: bool)
    requires defaults == DefaultsOf(d) && CompleteDefaults(defaults)
    modifies BrokersConfigRepr(config), OverridesRepr(o), d.resources
    ensures BrokersConfigValue(config) == Some(FilledConfig(old(GivenConfig(config)), defaults))
    ensures Ready(BrokersConfigValue(config).value) <==> !LoggingWithoutFlag(old(GivenConfig(config)))
    ensures var rendered := GroupRenders(lib, defaults, old(GivenFiles(o)), OneMapAt(old(FileMaps(o))), k, late);
            && (outcome.Panicked? <==>
                  NilFile(old(GivenFiles(o))) || (rendered && LoggingWithoutFlag(old(GivenConfig(config)))))
            && (outcome.Returned? ==>
                  (r.Err? <==>
                     !rendered || (AgentOn(FilledConfig(old(GivenConfig(config)), defaults)) && lib.AgentFails())))
    ensures outcome.Returned? && r.Ok? ==>
              && FilesBuilt(r.value, defaults, old(GivenFiles(o)), OneMapAt(old(FileMaps(o))), k, late)
              && r.value.log4j == lib.log4j.value
              && r.value.vector
                 == if AgentOn(FilledConfig(old(GivenConfig(config)), defaults)) then lib.vector.value else ""
  {
    r, late := Err(""), false;
    ghost var filled := FilledConfig(GivenConfig(config), defaults);
    FilledConfigLaws(GivenConfig(config), defaults, defaults);
    outcome := MergeReady(config, o, d, defaults);
    if outcome.Returned? {
      assert config.roleGroupConfig.logging == filled.roleGroupConfig.value.logging;
      outcome, r, late := BuildBeside(config, o, k, lib);
    }
  }

  ghost function GivenMaps(o: OverridesSpec?): map<string, StringMap?>
    reads o, if o == null then {} else {o.configOverrides}
  {
    if o == null then map[] else FileMaps(o)
  }

  /**
   One turn of `RegisterResources` followed by the ConfigMap builder: missing objects are created,
   the defaults merged in, and the files built. It panics exactly when one of the two property files
   is given as a nil map or, once the files are rendered, logging is given without the agent's flag.
   It fails exactly when a file cannot be rendered or the agent is on and cannot be configured. The
   files are stated for any sharing of maps; see `FilesOfOwnMaps` for the usual case and the
   operator's own defaults.
   */
  method CompileRoleGroup(mergedConfig: BrokersConfigSpec?, overrides: OverridesSpec?, defaults: KafkaDefaults,
                          k: KafkaSecurity, lib: Library)
    returns (outcome: Outcome, config: BrokersConfigSpec, r: Result<ConfigData>, ghost late: bool)
    requires CompleteDefaults(defaults)
    modifies BrokersConfigRepr(mergedConfig), OverridesRepr(overrides)
    ensures mergedConfig != null ==> config == mergedConfig
    ensures BrokersConfigValue(config) == Some(FilledConfig(old(GivenConfig(mergedConfig)), defaults))
    ensures Ready(BrokersConfigValue(config).value) <==> !LoggingWithoutFlag(old(GivenConfig(mergedConfig)))
    ensures var rendered :=
              GroupRenders(lib, defaults, old(GivenFiles(overrides)), OneMapAt(old(GivenMaps(overrides))), k, late);
            && (outcome.Panicked? <==>
                  || NilFile(old(GivenFiles(overrides)))
                  || (rendered && LoggingWithoutFlag(old(GivenConfig(mergedConfig)))))
            && (outcome.Returned? ==>
                  (r.Err? <==>
                     || !rendered
                     || (AgentOn(FilledConfig(old(GivenConfig(mergedConfig)), defaults)) && lib.AgentFails())))
    ensures outcome.Returned? && r.Ok? ==>
              && FilesBuilt(r.value, defaults, old(GivenFiles(overrides)), OneMapAt(old(GivenMaps(overrides))), k, late)
              && r.value.log4j == lib.log4j.value
              && r.value.vector
                 == if AgentOn(FilledConfig(old(GivenConfig(mergedConfig)), defaults)) then lib.vector.value else ""
  {
    var o := overrides;
    if o == null {
      o := new OverridesSpec(None, null, null);
    }
    ghost var given, user, maps := GivenFiles(overrides), GivenConfig(mergedConfig), GivenMaps(overrides);
    config := CreateIfNil(mergedConfig);
    var d := NewConfig(defaults);
    assert GivenFiles(o) == given && GivenConfig(config) == user && FileMaps(o) == maps;
    outcome, r, late := CompileWith(config, o, d, defaults, k, lib);
  }

  /** Unless one map is used for both, the files have the documented precedence. */
  lemma FilesOfOwnMaps(data: ConfigData, rawAffinity: string, user: Files, k: KafkaSecurity, late: bool)
    requires FilesBuilt(data, DefaultConfig(rawAffinity), user, false, k, late)
    ensures data.server == EffectiveServerProperties(UserFile(user, SERVER_PROPERTIES), k)
    ensures data.security == Some(DEFAULT_SECURITY + UserFile(user, SECURITY_PROPERTIES))
  {
  }

  /** A logging section that only names containers, as the CRD allows: the merge leaves it, and the builders panic. */
  lemma LoggingSectionWithoutFlag(rawAffinity: string)
    ensures var user := BrokersConfig(Some(RoleGroupConfig(None, "", Some(Logging(None)), None)), "", "", "");
            var filled := FilledConfig(user, DefaultConfig(rawAffinity));
            && LoggingWithoutFlag(user) && !Ready(filled)
            && filled.roleGroupConfig.value.logging == Some(Logging(None))
  {
  }

  // ---------- precedence ----------

  /** Each key takes the security setting if there is one, else the user's value, else the default. */
  lemma ServerPrecedence(user: Properties, k: KafkaSecurity, key: string)
    ensures var p := EffectiveServerProperties(user, k);
            && (key in p <==> key in Settings(k) || key in user || key in DEFAULT_SERVER)
            && (key in Settings(k) ==> p[key] == Settings(k)[key])
            && (key !in Settings(k) && key in user ==> p[key] == user[key])
            && (key !in Settings(k) && key !in user && key in DEFAULT_SERVER ==> p[key] == DEFAULT_SERVER[key])
  {
    UnionLookup(DEFAULT_SERVER, user, Settings(k), key);
  }

  lemma UnionLookup(a: Properties, b: Properties, c: Properties, key: string)
    ensures key in a + b + c <==> key in a || key in b || key in c
    ensures key in c ==> (a + b + c)[key] == c[key]
    ensures key !in c && key in b ==> (a + b + c)[key] == b[key]
    ensures key !in c && key !in b && key in a ==> (a + b + c)[key] == a[key]
  {
  }

  /** Building again from the map left behind by the first build gives the same file. */
  lemma RebuildIsStable(user: Properties, k: KafkaSecurity)
    ensures EffectiveServerProperties(user, k) + Settings(k) == EffectiveServerProperties(user, k)
    ensures EffectiveServerProperties(EffectiveServerProperties(user, k), k) == EffectiveServerProperties(user, k)
  {
    UnionIdempotent(DEFAULT_SERVER, user, Settings(k));
  }

  lemma UnionIdempotent(a: Properties, b: Properties, c: Properties)
    ensures a + b + c + c == a + b + c
    ensures a + (a + b + c) + c == a + b + c
  {
  }
}
