/**
 The generated deep copies (api/v1alpha1/zz_generated.deepcopy.go). Each `DeepCopyInto` fills a
 struct its caller has just allocated, so the pair of `DeepCopy` and `DeepCopyInto` is one method
 here that returns a new object. The copy denotes the same value, and every mutable object
 reachable from it is new; writes elsewhere are shown not to change what an object denotes.
 */
module DeepCopy {
  import opened GoHeap
  import opened Objects

  twostate predicate New(new o: object?)
  {
    o != null ==> fresh(o)
  }

  twostate predicate NewRoleGroupConfig(new c: RoleGroupConfigSpec?)
    reads c
  {
    c != null ==> fresh(c) && New(c.resources)
  }

  twostate predicate NewFiles(new f: FileMap?)
    reads f
  {
    f != null ==> fresh(f) && forall name | name in f.m :: New(f.m[name])
  }

  twostate predicate NewOverrides(new o: OverridesSpec?)
    reads o, if o == null then {} else {o.configOverrides}
  {
    o != null ==> fresh(o) && New(o.envOverrides) && NewFiles(o.configOverrides)
  }

  method CopyRoleGroupConfig(r: RoleGroupConfigSpec?) returns (c: RoleGroupConfigSpec?)
    ensures RoleGroupConfigValue(c) == old(RoleGroupConfigValue(r))
    ensures NewRoleGroupConfig(c)
  {
    if r == null {
      return null;
    }
    var resources := CopyPtr(r.resources);
    c := new RoleGroupConfigSpec(r.affinity, r.gracefulShutdownTimeout, r.logging, resources);
  }

  method CopyOverrides(o: OverridesSpec?) returns (c: OverridesSpec?)
    ensures OverridesValue(c) == OverridesValue(o)
    ensures NewOverrides(c)
  {
    if o == null {
      return null;
    }
    var env := CopyMap(o.envOverrides);
    var files := CopyFiles(o.configOverrides);
    c := new OverridesSpec(o.cliOverrides, env, files);
  }

  twostate predicate NewBrokersConfig(new c: BrokersConfigSpec?)
    reads BrokersConfigRepr(c)
  {
    c != null ==> fresh(c) && NewRoleGroupConfig(c.roleGroupConfig)
  }

  method CopyBrokersConfig(c: BrokersConfigSpec?) returns (out: BrokersConfigSpec?)
    ensures BrokersConfigValue(out) == old(BrokersConfigValue(c))
    ensures NewBrokersConfig(out)
  {
    if c == null {
      return null;
    }
    var r := CopyRoleGroupConfig(c.roleGroupConfig);
    out := new BrokersConfigSpec(r, c.brokerListenerClass, c.bootstrapListenerClass, c.requestedSecretLifeTime);
  }

  twostate predicate NewRoleGroup(new g: BrokersRoleGroupSpec?)
    reads RoleGroupRepr(g)
  {
    g != null ==> fresh(g) && NewBrokersConfig(g.config) && NewOverrides(g.overrides)
  }

  method CopyRoleGroup(g: BrokersRoleGroupSpec?) returns (out: BrokersRoleGroupSpec?)
    ensures RoleGroupValue(out) == old(RoleGroupValue(g))
    ensures NewRoleGroup(out)
  {
    if g == null {
      return null;
    }
    out := CopyRoleGroupFields(g);
  }

  method CopyRoleGroupFields(g: BrokersRoleGroupSpec) returns (out: BrokersRoleGroupSpec)
    ensures fresh(out) && out.replicas == g.replicas
    ensures BrokersConfigValue(out.config) == old(BrokersConfigValue(g.config)) && NewBrokersConfig(out.config)
    ensures OverridesValue(out.overrides) == old(OverridesValue(g.overrides)) && NewOverrides(out.overrides)
  {
    ghost var configValue, overridesValue := BrokersConfigValue(g.config), OverridesValue(g.overrides);
    var overrides := CopyOverrides(g.overrides);
    assert BrokersConfigValue(g.config) == configValue;
    out := CopyRoleGroupWith(g, overrides);
    assert OverridesValue(overrides) == overridesValue;
    assert BrokersConfigValue(out.config) == configValue;
  }

  method CopyRoleGroupWith(g: BrokersRoleGroupSpec, overrides: OverridesSpec?) returns (out: BrokersRoleGroupSpec)
    ensures fresh(out) && out.replicas == g.replicas && out.overrides == overrides
    ensures BrokersConfigValue(out.config) == old(BrokersConfigValue(g.config)) && NewBrokersConfig(out.config)
  {
    var config := CopyBrokersConfig(g.config);
    out := new BrokersRoleGroupSpec(g.replicas, config, overrides);
  }

  method CopyEntries(groups: map<string, BrokersRoleGroupSpec?>) returns (copies: map<string, BrokersRoleGroupSpec?>)
    ensures copies.Keys == groups.Keys
    ensures forall name | name in copies :: RoleGroupValue(copies[name]) == old(RoleGroupValue(groups[name]))
    ensures forall name | name in copies :: NewRoleGroup(copies[name])
  {
    copies := map[];
    var todo := groups.Keys;
    while todo != {}
      invariant todo <= groups.Keys
      invariant copies.Keys == groups.Keys - todo
      invariant forall name | name in copies :: RoleGroupValue(copies[name]) == old(RoleGroupValue(groups[name]))
      invariant forall name | name in copies :: NewRoleGroup(copies[name])
    {
      var name :| name in todo;
      label before:
      assert RoleGroupValue(groups[name]) == old(RoleGroupValue(groups[name]));
      var group := CopyRoleGroup(groups[name]);
      forall other | other in copies
        ensures RoleGroupValue(copies[other]) == old@before(RoleGroupValue(copies[other]))
        ensures NewRoleGroup(copies[other])
      {
      }
      copies := copies[name := group];
      todo := todo - {name};
    }
  }

  twostate predicate NewRoleGroups(new p: RoleGroupMap?)
    reads RoleGroupsRepr(p)
  {
    p != null ==> fresh(p) && forall name | name in p.m :: NewRoleGroup(p.m[name])
  }

  method CopyRoleGroups(p: RoleGroupMap?) returns (c: RoleGroupMap?)
    ensures RoleGroupsValue(c) == old(RoleGroupsValue(p))
    ensures NewRoleGroups(c)
  {
    if p == null {
      return null;
    }
    var copies := CopyEntries(p.m);
    label copied:
    c := new RoleGroupMap(copies);
    forall name | name in copies
      ensures RoleGroupValue(c.m[name]) == old(RoleGroupValue(p.m[name]))
      ensures NewRoleGroup(c.m[name])
    {
      assert RoleGroupValue(c.m[name]) == old@copied(RoleGroupValue(copies[name]));
    }
    assert RoleGroupsValue(c).value == old(RoleGroupsValue(p)).value;
  }

  /** The rest of the copy, once the role groups are copied. */
  method CopyBrokersWith(b: BrokersSpec, roleGroups: RoleGroupMap?) returns (out: BrokersSpec)
    ensures fresh(out) && out.roleGroups == roleGroups
    ensures Deref(out.roleConfig) == old(Deref(b.roleConfig)) && New(out.roleConfig)
    ensures BrokersConfigValue(out.config) == old(BrokersConfigValue(b.config)) && NewBrokersConfig(out.config)
    ensures OverridesValue(out.overrides) == old(OverridesValue(b.overrides)) && NewOverrides(out.overrides)
  {
    ghost var configValue, overridesValue := BrokersConfigValue(b.config), OverridesValue(b.overrides);
    var config := CopyBrokersConfig(b.config);
    assert OverridesValue(b.overrides) == overridesValue;
    var overrides := CopyOverrides(b.overrides);
    assert BrokersConfigValue(config) == configValue;
    var roleConfig := CopyPtr(b.roleConfig);
    out := new BrokersSpec(config, roleGroups, roleConfig, overrides);
    assert BrokersConfigValue(config) == configValue;
    assert OverridesValue(overrides) == overridesValue;
  }

  // ---------- the cluster configuration ----------

  /** The slice loop: element by element, a new array and a new pointer per Kerberos entry. */
  method CopyAuthentications(a: array<AuthenticationSpec>) returns (c: array<AuthenticationSpec>)
    ensures fresh(c) && c.Length == a.Length
    ensures forall i | 0 <= i < c.Length ::
              AuthenticationValue(c[i]) == old(AuthenticationValue(a[i])) && New(c[i].kerberos)
  {
    c := new AuthenticationSpec[a.Length](i requires 0 <= i < a.Length reads a => a[i]);
    for i := 0 to a.Length
      invariant forall j | i <= j < c.Length :: c[j] == a[j]
      invariant forall j | 0 <= j < i ::
                  AuthenticationValue(c[j]) == old(AuthenticationValue(a[j])) && New(c[j].kerberos)
    {
      var kerberos := CopyPtr(a[i].kerberos);
      c[i] := AuthenticationSpec(a[i].authenticationClass, kerberos);
    }
  }

  twostate predicate NewClusterConfig(new c: ClusterConfigSpec?)
    reads ClusterConfigRepr(c)
  {
    c != null ==>
      && fresh(c) && New(c.authentication) && New(c.tls)
      && (c.authentication != null ==> forall i | 0 <= i < c.authentication.Length :: New(c.authentication[i].kerberos))
  }

  method CopyClusterConfig(c: ClusterConfigSpec?) returns (out: ClusterConfigSpec?)
    ensures ClusterConfigValue(out) == old(ClusterConfigValue(c))
    ensures NewClusterConfig(out)
  {
    if c == null {
      return null;
    }
    var authentication: array?<AuthenticationSpec> := null;
    if c.authentication != null {
      authentication := CopyAuthentications(c.authentication);
    }
    var tls := CopyPtr(c.tls);
    out := new ClusterConfigSpec(c.clusterDomain, authentication, tls,
                                 c.vectorAggregatorConfigMapName, c.zookeeperConfigMapName);
    if authentication != null {
      assert AuthenticationValues(authentication[..]) == old(AuthenticationValues(c.authentication[..]));
    }
  }

  twostate predicate NewImage(new i: ImageSpec?)
    reads i
  {
    i != null ==> fresh(i) && New(i.pullPolicy)
  }

  method CopyImage(i: ImageSpec?) returns (out: ImageSpec?)
    ensures ImageValue(out) == old(ImageValue(i))
    ensures NewImage(out)
  {
    if i == null {
      return null;
    }
    var pullPolicy := CopyPtr(i.pullPolicy);
    out := new ImageSpec(i.custom, i.repo, i.kubedoopVersion, i.productVersion, pullPolicy, i.pullSecretName);
  }

  // ---------- the brokers ----------

  twostate predicate NewBrokers(new b: BrokersSpec?)
    reads BrokersRepr(b)
  {
    b != null ==>
      && fresh(b) && New(b.roleConfig)
      && NewBrokersConfig(b.config) && NewRoleGroups(b.roleGroups) && NewOverrides(b.overrides)
  }

  method CopyBrokersFields(b: BrokersSpec) returns (out: BrokersSpec)
    ensures fresh(out)
    ensures Deref(out.roleConfig) == old(Deref(b.roleConfig)) && New(out.roleConfig)
    ensures BrokersConfigValue(out.config) == old(BrokersConfigValue(b.config)) && NewBrokersConfig(out.config)
    ensures OverridesValue(out.overrides) == old(OverridesValue(b.overrides)) && NewOverrides(out.overrides)
    ensures RoleGroupsValue(out.roleGroups) == old(RoleGroupsValue(b.roleGroups)) && NewRoleGroups(out.roleGroups)
  {
    ghost var configValue, overridesValue := BrokersConfigValue(b.config), OverridesValue(b.overrides);
    ghost var groupsValue := RoleGroupsValue(b.roleGroups);
    var roleGroups := CopyRoleGroups(b.roleGroups);
    assert OverridesValue(b.overrides) == overridesValue;
    assert BrokersConfigValue(b.config) == configValue;
    label copied:
    out := CopyBrokersWith(b, roleGroups);
    if roleGroups != null {
      forall name | name in roleGroups.m
        ensures RoleGroupValue(roleGroups.m[name]) == old@copied(RoleGroupValue(roleGroups.m[name]))
        ensures NewRoleGroup(roleGroups.m[name])
      {
      }
      assert RoleGroupsValue(roleGroups).value == groupsValue.value;
    }
  }

  method CopyBrokers(b: BrokersSpec?) returns (out: BrokersSpec?)
    ensures BrokersValue(out) == old(BrokersValue(b))
    ensures NewBrokers(out)
    ensures forall o | o in BrokersRepr(out) && o != null :: fresh(o)
  {
    if b == null {
      return null;
    }
    out := CopyBrokersFields(b);
    NewBrokersIsFresh(out);
  }

  // ---------- writes elsewhere do not show ----------

  twostate lemma RoleGroupStable(g: BrokersRoleGroupSpec?, new untouched: set<object>)
    requires forall o | o in old(RoleGroupRepr(g)) && o != null :: o in untouched
    requires old(allocated(untouched)) && unchanged(untouched)
    ensures RoleGroupValue(g) == old(RoleGroupValue(g))
  {
  }

  twostate lemma RoleGroupsStable(p: RoleGroupMap?, new untouched: set<object>)
    requires forall o | o in old(RoleGroupsRepr(p)) && o != null :: o in untouched
    requires old(allocated(untouched)) && unchanged(untouched)
    ensures RoleGroupsValue(p) == old(RoleGroupsValue(p))
  {
    if p != null {
      assert p in untouched;
      forall name | name in p.m
        ensures RoleGroupValue(p.m[name]) == old(RoleGroupValue(p.m[name]))
      {
        assert p.m[name] in p.m.Values;
        assert forall o | o in old(RoleGroupRepr(p.m[name])) :: o in old(RoleGroupsRepr(p));
        RoleGroupStable(p.m[name], untouched);
      }
      assert RoleGroupsValue(p).value == old(RoleGroupsValue(p)).value;
    }
  }

  /** If none of the objects of `b` is written, `b` denotes the same value as before. */
  twostate lemma BrokersStable(b: BrokersSpec?, new untouched: set<object>)
    requires forall o | o in old(BrokersRepr(b)) && o != null :: o in untouched
    requires old(allocated(untouched)) && unchanged(untouched)
    ensures BrokersValue(b) == old(BrokersValue(b))
  {
    if b != null {
      RoleGroupsStable(b.roleGroups, untouched);
      assert BrokersConfigValue(b.config) == old(BrokersConfigValue(b.config));
      assert OverridesValue(b.overrides) == old(OverridesValue(b.overrides));
    }
  }

  // ---------- the whole specification ----------

  twostate predicate NewClusterSpec(new k: KafkaClusterSpec)
    reads ClusterSpecRepr(k)
  {
    && fresh(k) && New(k.clusterOperation) && NewImage(k.image)
    && NewClusterConfig(k.clusterConfig) && NewBrokers(k.brokers)
  }

  /** The rest of the copy, once cluster configuration and brokers are copied. */
  method CopyClusterSpecLeaves(k: KafkaClusterSpec, clusterConfig: ClusterConfigSpec?, brokers: BrokersSpec?)
    returns (out: KafkaClusterSpec)
    ensures fresh(out) && out.brokers == brokers && out.clusterConfig == clusterConfig
    ensures Deref(out.clusterOperation) == old(Deref(k.clusterOperation)) && New(out.clusterOperation)
    ensures ImageValue(out.image) == old(ImageValue(k.image)) && NewImage(out.image)
  {
    var image := CopyImage(k.image);
    var clusterOperation := CopyPtr(k.clusterOperation);
    out := new KafkaClusterSpec(image, clusterConfig, clusterOperation, brokers);
  }

  /** The rest of the copy, once the brokers are copied. */
  method CopyClusterSpecWith(k: KafkaClusterSpec, brokers: BrokersSpec?) returns (out: KafkaClusterSpec)
    ensures fresh(out) && out.brokers == brokers
    ensures Deref(out.clusterOperation) == old(Deref(k.clusterOperation)) && New(out.clusterOperation)
    ensures ImageValue(out.image) == old(ImageValue(k.image)) && NewImage(out.image)
    ensures ClusterConfigValue(out.clusterConfig) == old(ClusterConfigValue(k.clusterConfig))
    ensures NewClusterConfig(out.clusterConfig)
  {
    var clusterConfig := CopyClusterConfig(k.clusterConfig);
    label copied:
    out := CopyClusterSpecLeaves(k, clusterConfig, brokers);
    assert ClusterConfigValue(clusterConfig) == old@copied(ClusterConfigValue(clusterConfig));
  }

  /** As `CopyClusterSpecWith`; the brokers passed in keep their value. */
  method CopyClusterSpecAround(k: KafkaClusterSpec, brokers: BrokersSpec?) returns (out: KafkaClusterSpec)
    ensures fresh(out) && out.brokers == brokers && BrokersValue(brokers) == old(BrokersValue(brokers))
    ensures Deref(out.clusterOperation) == old(Deref(k.clusterOperation)) && New(out.clusterOperation)
    ensures ImageValue(out.image) == old(ImageValue(k.image)) && NewImage(out.image)
    ensures ClusterConfigValue(out.clusterConfig) == old(ClusterConfigValue(k.clusterConfig))
    ensures NewClusterConfig(out.clusterConfig)
  {
    out := CopyClusterSpecWith(k, brokers);
    if brokers != null {
      if brokers.roleGroups != null {
        forall name | name in brokers.roleGroups.m
          ensures RoleGroupValue(brokers.roleGroups.m[name]) == old(RoleGroupValue(brokers.roleGroups.m[name]))
        {
        }
        assert RoleGroupsValue(brokers.roleGroups).value == old(RoleGroupsValue(brokers.roleGroups)).value;
      }
      assert BrokersConfigValue(brokers.config) == old(BrokersConfigValue(brokers.config));
      assert OverridesValue(brokers.overrides) == old(OverridesValue(brokers.overrides));
    }
  }

  method CopyClusterSpecFields(k: KafkaClusterSpec) returns (out: KafkaClusterSpec)
    ensures fresh(out)
    ensures Deref(out.clusterOperation) == old(Deref(k.clusterOperation)) && New(out.clusterOperation)
    ensures ImageValue(out.image) == old(ImageValue(k.image)) && NewImage(out.image)
    ensures ClusterConfigValue(out.clusterConfig) == old(ClusterConfigValue(k.clusterConfig))
    ensures NewClusterConfig(out.clusterConfig)
    ensures BrokersValue(out.brokers) == old(BrokersValue(k.brokers)) && NewBrokers(out.brokers)
  {
    ghost var configValue := ClusterConfigValue(k.clusterConfig);
    var brokers := CopyBrokers(k.brokers);
    assert ClusterConfigValue(k.clusterConfig) == configValue;
    out := CopyClusterSpecAround(k, brokers);
  }

  twostate lemma NewRoleGroupIsFresh(new g: BrokersRoleGroupSpec?)
    requires NewRoleGroup(g)
    ensures forall o | o in RoleGroupRepr(g) && o != null :: fresh(o)
  {
    if g != null {
      NewOverridesIsFresh(g.overrides);
    }
  }

  twostate lemma NewOverridesIsFresh(new o: OverridesSpec?)
    requires NewOverrides(o)
    ensures forall x | x in OverridesRepr(o) && x != null :: fresh(x)
  {
  }

  twostate lemma NewBrokersConfigIsFresh(new c: BrokersConfigSpec?)
    requires NewBrokersConfig(c)
    ensures forall o | o in BrokersConfigRepr(c) && o != null :: fresh(o)
  {
  }

  twostate lemma NewRoleGroupsIsFresh(new p: RoleGroupMap?)
    requires NewRoleGroups(p)
    ensures forall o | o in RoleGroupsRepr(p) && o != null :: fresh(o)
  {
    if p != null {
      forall name | name in p.m
        ensures forall o | o in RoleGroupRepr(p.m[name]) && o != null :: fresh(o)
      {
        NewRoleGroupIsFresh(p.m[name]);
      }
    }
  }

  twostate lemma NewBrokersIsFresh(new b: BrokersSpec?)
    requires NewBrokers(b)
    ensures forall o | o in BrokersRepr(b) && o != null :: fresh(o)
  {
    if b != null {
      NewOverridesIsFresh(b.overrides);
      NewRoleGroupsIsFresh(b.roleGroups);
      NewBrokersConfigIsFresh(b.config);
      forall o | o in BrokersRepr(b) && o != null
        ensures fresh(o)
      {
        if o !in RoleGroupsRepr(b.roleGroups) && o !in OverridesRepr(b.overrides) && o !in BrokersConfigRepr(b.config) {
          assert o == b || o == b.roleConfig;
        }
      }
    }
  }

  twostate lemma NewClusterConfigIsFresh(new c: ClusterConfigSpec?)
    requires NewClusterConfig(c)
    ensures forall o | o in ClusterConfigRepr(c) && o != null :: fresh(o)
  {
  }

  twostate lemma NewClusterSpecIsFresh(new k: KafkaClusterSpec)
    requires NewClusterSpec(k)
    ensures forall o | o in ClusterSpecRepr(k) && o != null :: fresh(o)
  {
    NewBrokersIsFresh(k.brokers);
    NewClusterConfigIsFresh(k.clusterConfig);
    assert forall o | o in ImageRepr(k.image) && o != null :: fresh(o);
    assert fresh(k) && New(k.clusterOperation);
  }


  twostate lemma ClusterConfigStable(c: ClusterConfigSpec?, new untouched: set<object>)
    requires forall o | o in old(ClusterConfigRepr(c)) && o != null :: o in untouched
    requires old(allocated(untouched)) && unchanged(untouched)
    ensures ClusterConfigValue(c) == old(ClusterConfigValue(c))
  {
    if c != null && c.authentication != null {
      assert AuthenticationValues(c.authentication[..]) == old(AuthenticationValues(c.authentication[..]));
    }
  }

  /**
   No write outside a specification changes what it denotes.
   */
  twostate lemma ClusterSpecStable(k: KafkaClusterSpec, new untouched: set<object>)
    requires forall o | o in old(ClusterSpecRepr(k)) && o != null :: o in untouched
    requires old(allocated(untouched)) && unchanged(untouched)
    ensures ClusterSpecValue(k) == old(ClusterSpecValue(k))
  {
    BrokersStable(k.brokers, untouched);
    ClusterConfigStable(k.clusterConfig, untouched);
  }

  /** The objects of a specification, without nil. */
  ghost function Footprint(k: KafkaClusterSpec): set<object>
    reads ClusterSpecRepr(k)
  {
    set o: object | o in ClusterSpecRepr(k)
  }

  /** What a specification is made of depends on its own objects only. */
  twostate lemma FootprintStable(k: KafkaClusterSpec, new untouched: set<object>)
    requires untouched == old(Footprint(k)) && old(allocated(untouched)) && unchanged(untouched)
    ensures Footprint(k) == old(Footprint(k))
  {
    assert ClusterSpecRepr(k) == old(ClusterSpecRepr(k));
  }

  /** Arbitrary writes to objects that are not part of `k`. */
  method WriteElsewhere(k: KafkaClusterSpec, ghost written: set<object>)
    requires written !! Footprint(k)
    modifies written
    ensures ClusterSpecValue(k) == old(ClusterSpecValue(k)) && Footprint(k) == old(Footprint(k))
  {
    ghost var kept := Footprint(k);
    modify written;
    ClusterSpecStable(k, kept);
    FootprintStable(k, kept);
  }

  /**
   `KafkaClusterSpec.DeepCopy`: an equal specification made of new objects, so it has nothing in
   common with the original, which stays as it was, or with anything else.
   */
  method CopyClusterSpec(k: KafkaClusterSpec) returns (out: KafkaClusterSpec)
    ensures ClusterSpecValue(out) == old(ClusterSpecValue(k))
    ensures forall o | o in Footprint(out) :: fresh(o)
    ensures Footprint(k) == old(Footprint(k)) && Footprint(out) !! Footprint(k)
  {
    ghost var original := Footprint(k);
    out := CopyClusterSpecFields(k);
    NewClusterSpecIsFresh(out);
    FootprintStable(k, original);
  }

  /** A copy has nothing in common with any objects that were there. */
  method CopyApart(k: KafkaClusterSpec, ghost others: set<object>) returns (out: KafkaClusterSpec)
    ensures ClusterSpecValue(out) == old(ClusterSpecValue(k)) && others !! Footprint(out)
  {
    out := CopyClusterSpec(k);
    assert forall o | o in others :: o !in Footprint(out);
  }

  /**
   Whatever is written, after a copy, to the original or to anything else that was there, the copy
   keeps the value.
   */
  method CopyOutlivesOriginal(k: KafkaClusterSpec, ghost written: set<object>) returns (out: KafkaClusterSpec)
    modifies written
    ensures ClusterSpecValue(out) == old(ClusterSpecValue(k)) && written !! Footprint(out)
  {
    ghost var value := ClusterSpecValue(k);
    out := CopyApart(k, written);
    assert ClusterSpecValue(out) == value;
    WriteElsewhere(out, written);
  }

  /** Whatever is written to objects of the copy, the original keeps its value; `out` is any separate specification. */
  method OriginalOutlivesCopy(k: KafkaClusterSpec, out: KafkaClusterSpec, ghost written: set<object>)
    requires Footprint(out) !! Footprint(k) && written <= Footprint(out)
    modifies written
    ensures ClusterSpecValue(k) == old(ClusterSpecValue(k))
  {
    WriteElsewhere(k, written);
  }
}
