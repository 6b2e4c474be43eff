/**
 Resource registration (internal/controller/role.go, cluster.go): every role group contributes five
 objects, in map iteration order, beside three cluster-level ones.
 */
module Registration {
  import opened Wrappers
  import opened Sequences
  import opened SpecValues
  import opened OverrideMerge
  import opened ConfigMerge
  import opened ServerProperties
  import opened GroupMerge
  import opened Security
  import opened PodVolumes
  import opened StatefulSetBuilder

  datatype Kind = Service | ConfigMap | StatefulSet | Listener | ServiceAccount
  datatype Resource = Resource(kind: Kind, name: string)

  const METRICS := "-metrics"

  /** `RegisterResourceWithRoleGroup`, as kinds and names. */
  function RoleGroupResources(cluster: string, group: string): (r: seq<Resource>)
    ensures |r| == 5
  {
    var full := FullName(cluster, group);
    [Resource(Service, full), Resource(Kind.ConfigMap, full), Resource(Kind.StatefulSet, full),
     Resource(Kind.Listener, BootstrapListenerName(full)), Resource(Service, full + METRICS)]
  }

  /** The resources of the groups in the order they are visited. */
  function Registered(cluster: string, order: seq<string>): seq<Resource>
  {
    if order == [] then []
    else Registered(cluster, order[..|order| - 1]) + RoleGroupResources(cluster, order[|order| - 1])
  }

  lemma {:induction false} RegisteredAt(cluster: string, order: seq<string>, i: nat, slot: nat)
    requires i < |order| && slot < 5
    ensures |Registered(cluster, order)| == 5 * |order|
    ensures Registered(cluster, order)[5 * i + slot] == RoleGroupResources(cluster, order[i])[slot]
  {
    var n := |order| - 1;
    var shorter := order[..n];
    if n > 0 {
      RegisteredAt(cluster, shorter, if i < n then i else 0, slot);
    }
    assert |Registered(cluster, shorter)| == 5 * n;
  }

  lemma RegisteredLength(cluster: string, order: seq<string>)
    ensures |Registered(cluster, order)| == 5 * |order|
  {
    if order != [] {
      RegisteredAt(cluster, order, 0, 0);
    }
  }

  // ---------- names ----------

  lemma FullNamesDiffer(cluster: string, g: string, h: string)
    ensures FullName(cluster, g) == FullName(cluster, h) ==> g == h
    ensures FullName(cluster, g) == FullName(cluster, h) + METRICS <==> g == h + METRICS
    ensures FullName(cluster, g) + METRICS == FullName(cluster, h) + METRICS ==> g == h
    ensures BootstrapListenerName(FullName(cluster, g)) == BootstrapListenerName(FullName(cluster, h)) ==> g == h
  {
    var p := cluster + "-broker-";
    assert g == FullName(cluster, g)[|p|..] && h == FullName(cluster, h)[|p|..];
    assert h + METRICS == (FullName(cluster, h) + METRICS)[|p|..];
    assert g + METRICS == (FullName(cluster, g) + METRICS)[|p|..];
    assert FullName(cluster, h) + METRICS == p + (h + METRICS);
    assert g == (g + METRICS)[..|g|] && h == (h + METRICS)[..|h|];
    assert FullName(cluster, g) == BootstrapListenerName(FullName(cluster, g))[..|FullName(cluster, g)|];
    assert FullName(cluster, h) == BootstrapListenerName(FullName(cluster, h))[..|FullName(cluster, h)|];
  }

  /** Two registrations coincide only if they are the same one, or a metrics service meets a group service. */
  lemma SameResource(cluster: string, g: string, s: nat, h: string, t: nat)
    requires s < 5 && t < 5
    ensures RoleGroupResources(cluster, g)[s] == RoleGroupResources(cluster, h)[t] <==>
              || (g == h && s == t)
              || (s == 0 && t == 4 && g == h + METRICS)
              || (s == 4 && t == 0 && h == g + METRICS)
  {
    FullNamesDiffer(cluster, g, h);
    FullNamesDiffer(cluster, h, g);
  }

  /** No role group is named like another followed by "-metrics". */
  ghost predicate NoMetricsClash(groups: set<string>)
  {
    forall g, h | g in groups && h in groups :: g != h + METRICS
  }

  ghost predicate Lists(order: seq<string>, groups: set<string>)
  {
    NoDuplicates(order) && forall g :: g in order <==> g in groups
  }

  function ClusterResources(cluster: string, order: seq<string>): seq<Resource>
  {
    [Resource(ServiceAccount, cluster)] + Registered(cluster, order)
      + [Resource(Kind.ConfigMap, cluster), Resource(Kind.ConfigMap, cluster + "-nodeport")]
  }

  lemma NotClusterLevel(cluster: string, g: string, slot: nat)
    requires slot < 5
    ensures var r := RoleGroupResources(cluster, g)[slot];
            && r != Resource(ServiceAccount, cluster) && r != Resource(Kind.ConfigMap, cluster)
            && r != Resource(Kind.ConfigMap, cluster + "-nodeport")
  {
    assert |FullName(cluster, g)| > |cluster|;
    assert FullName(cluster, g)[|cluster| + 1] == 'b';
    assert (cluster + "-nodeport")[|cluster| + 1] == 'n';
  }

  lemma RegisteredUnique(cluster: string, order: seq<string>, groups: set<string>)
    requires Lists(order, groups) && NoMetricsClash(groups)
    ensures NoDuplicates(Registered(cluster, order))
  {
    var all := Registered(cluster, order);
    RegisteredLength(cluster, order);
    forall i, j | 0 <= i < j < |all|
      ensures all[i] != all[j]
    {
      RegisteredAt(cluster, order, i / 5, i % 5);
      RegisteredAt(cluster, order, j / 5, j % 5);
      SameResource(cluster, order[i / 5], i % 5, order[j / 5], j % 5);
      assert order[i / 5] in groups && order[j / 5] in groups;
    }
  }

  lemma MetricsClashDuplicates(cluster: string, order: seq<string>, i: nat, j: nat)
    requires i < |order| && j < |order| && order[i] == order[j] + METRICS
    ensures !NoDuplicates(Registered(cluster, order))
  {
    RegisteredAt(cluster, order, i, 0);
    RegisteredAt(cluster, order, j, 4);
    SameResource(cluster, order[i], 0, order[j], 4);
    assert 5 * i != 5 * j + 4;
  }

  lemma RegisteredMember(cluster: string, order: seq<string>, r: Resource)
    ensures r in Registered(cluster, order) <==> exists g :: g in order && r in RoleGroupResources(cluster, g)
  {
    RegisteredLength(cluster, order);
    if r in Registered(cluster, order) {
      var p :| 0 <= p < |Registered(cluster, order)| && Registered(cluster, order)[p] == r;
      RegisteredAt(cluster, order, p / 5, p % 5);
      assert order[p / 5] in order;
    }
    if g :| g in order && r in RoleGroupResources(cluster, g) {
      var i :| 0 <= i < |order| && order[i] == g;
      var slot :| 0 <= slot < 5 && RoleGroupResources(cluster, g)[slot] == r;
      RegisteredAt(cluster, order, i, slot);
    }
  }

  /** Cluster-level objects never collide with role-group objects or with each other. */
  lemma ClusterUniqueIffRegistered(cluster: string, order: seq<string>)
    ensures NoDuplicates(ClusterResources(cluster, order)) <==> NoDuplicates(Registered(cluster, order))
  {
    var inner, all := Registered(cluster, order), ClusterResources(cluster, order);
    assert forall i | 0 <= i < |inner| :: all[i + 1] == inner[i];
    forall i | 0 <= i < |inner|
      ensures inner[i] != all[0] && inner[i] != all[|inner| + 1] && inner[i] != all[|inner| + 2]
    {
      RegisteredMember(cluster, order, inner[i]);
      var g :| g in order && inner[i] in RoleGroupResources(cluster, g);
      var slot :| 0 <= slot < 5 && RoleGroupResources(cluster, g)[slot] == inner[i];
      NotClusterLevel(cluster, g, slot);
    }
    assert |cluster + "-nodeport"| != |cluster|;
    if NoDuplicates(inner) {
      forall i, j | 0 <= i < j < |all|
        ensures all[i] != all[j]
      {
        if 0 < i && j <= |inner| {
          assert all[i] == inner[i - 1] && all[j] == inner[j - 1];
        } else if 0 < i <= |inner| {
          assert all[i] == inner[i - 1];
        } else if i == 0 && j <= |inner| {
          assert all[j] == inner[j - 1];
        }
      }
    }
    if NoDuplicates(all) {
      forall i, j | 0 <= i < j < |inner|
        ensures inner[i] != inner[j]
      {
        assert all[i + 1] != all[j + 1];
      }
    }
  }

  /**
   All registered (kind, name) pairs are pairwise different if and only if no role group is named
   like another one followed by "-metrics".
   */
  lemma NamesUniqueIff(cluster: string, order: seq<string>, groups: set<string>)
    requires Lists(order, groups)
    ensures NoDuplicates(ClusterResources(cluster, order)) <==> NoMetricsClash(groups)
  {
    ClusterUniqueIffRegistered(cluster, order);
    if NoMetricsClash(groups) {
      RegisteredUnique(cluster, order, groups);
    } else {
      var g, h :| g in groups && h in groups && g == h + METRICS;
      assert g in order && h in order;
      var i :| 0 <= i < |order| && order[i] == g;
      var j :| 0 <= j < |order| && order[j] == h;
      MetricsClashDuplicates(cluster, order, i, j);
    }
  }

  /** What a cluster registers, without order. */
  ghost predicate IsRegistered(cluster: string, groups: set<string>, r: Resource)
  {
    || r in [Resource(ServiceAccount, cluster), Resource(Kind.ConfigMap, cluster),
             Resource(Kind.ConfigMap, cluster + "-nodeport")]
    || exists g :: g in groups && r in RoleGroupResources(cluster, g)
  }

  // ---------- references ----------

  /** A StatefulSet with these parts needs the object `x`. */
  ghost predicate Needs(serviceName: string, serviceAccount: string, volumes: seq<Volume>, claims: seq<Claim>,
                        x: Resource)
  {
    || x == Resource(Service, serviceName)
    || x == Resource(ServiceAccount, serviceAccount)
    || (x.kind == Kind.ConfigMap
        && exists i :: 0 <= i < |volumes| && volumes[i].source == VolumeSource.ConfigMap(x.name))
    || (x.kind == Kind.Listener
        && exists i :: 0 <= i < |claims| && claims[i].ListenerClaim? && claims[i].annotation == ListenerName(x.name))
  }

  /**
   Whatever security, listener class and storage a role group has, everything its StatefulSet needs is
   registered: its governing service, under which brokers advertise themselves, its service account,
   the ConfigMaps it mounts and the Listener its claim names. So are its metrics service and itself.
   */
  ghost predicate GroupComplete(registered: seq<Resource>, name: string, group: string)
  {
    var full := name + "-broker-" + group;
    && Resource(Kind.StatefulSet, full) in registered && Resource(Service, full + "-metrics") in registered
    && forall k: KafkaSecurity, listenerClass, storage, x
         | Needs(full, name, PodVolumesOf(k, full, listenerClass, []), Claims(full, storage), x) :: x in registered
  }

  lemma ConfigMapsOfVolumes(k: KafkaSecurity, full: string, listenerClass: string, n: string, i: nat)
    requires i < |PodVolumesOf(k, full, listenerClass, [])|
    requires PodVolumesOf(k, full, listenerClass, [])[i].source == VolumeSource.ConfigMap(n)
    ensures n == full
  {
  }

  lemma NeedsOwn(name: string, group: string, k: KafkaSecurity, listenerClass: string, storage: StorageResource,
                 x: Resource)
    requires var full := name + "-broker-" + group;
             Needs(full, name, PodVolumesOf(k, full, listenerClass, []), Claims(full, storage), x)
    ensures x in RoleGroupResources(name, group) || x == Resource(ServiceAccount, name)
  {
    var full := name + "-broker-" + group;
    var own := RoleGroupResources(name, group);
    assert own[0] == Resource(Service, full) && own[1] == Resource(Kind.ConfigMap, full);
    assert own[3] == Resource(Kind.Listener, full + "-bootstrap");
    if x.kind == Kind.ConfigMap {
      var volumes := PodVolumesOf(k, full, listenerClass, []);
      var i :| 0 <= i < |volumes| && volumes[i].source == VolumeSource.ConfigMap(x.name);
      ConfigMapsOfVolumes(k, full, listenerClass, x.name, i);
      assert x == own[1];
    }
  }

  lemma GroupIsComplete(registered: seq<Resource>, name: string, groups: set<string>, group: string)
    requires group in groups && forall x :: x in registered <==> IsRegistered(name, groups, x)
    ensures GroupComplete(registered, name, group)
  {
    var full := name + "-broker-" + group;
    var own := RoleGroupResources(name, group);
    assert forall x | x in own :: IsRegistered(name, groups, x);
    assert IsRegistered(name, groups, Resource(ServiceAccount, name));
    assert own[2] == Resource(Kind.StatefulSet, full) && own[4] == Resource(Service, full + "-metrics");
    forall k: KafkaSecurity, listenerClass, storage, x
      | Needs(full, name, PodVolumesOf(k, full, listenerClass, []), Claims(full, storage), x)
      ensures x in registered
    {
      NeedsOwn(name, group, k, listenerClass, storage, x);
    }
  }

  // ---------- registration ----------

  lemma {:induction false} ListLength(order: seq<string>, groups: set<string>)
    requires Lists(order, groups)
    ensures |order| == |groups|
  {
    if order == [] {
      assert groups == {};
    } else {
      var n := |order| - 1;
      assert order[n] in order;
      assert forall g :: g in order[..n] <==> g in groups - {order[n]};
      ListLength(order[..n], groups - {order[n]});
    }
  }

  /** Registering this group panics: it is nil, or a file that has defaults is given with a nil map. */
  ghost predicate Unregistrable(group: Option<Group>)
    reads if group.None? || group.value.overrides == null then {}
          else {group.value.overrides as object?, group.value.overrides.configOverrides}
  {
    group.None? || NilEntry(group.value.overrides)
  }

  /** The same in terms of the merge: it would write a default into a nil map. */
  lemma UnregistrableExact(group: Option<Group>, defaults: KafkaDefaults)
    requires CompleteDefaults(defaults)
    ensures Unregistrable(group) <==> group.None? || Panics(GivenFiles(group.value.overrides), FilesOf(defaults))
  {
    if group.Some? {
      NilEntryIsNilFile(group.value.overrides);
      DefaultPanicExact(GivenFiles(group.value.overrides), defaults);
    }
  }

  /**
   The loop of `RegisterResources` over the role groups, with the merge it runs for each. `errors` are
   the groups whose settings the library cannot combine with the role's. The loop ends early exactly
   when some group has an error or cannot be registered, whatever the order and however groups share
   their objects: a merge never makes another group panic, nor saves it from panicking. A nil group
   panics before its error shows, a nil file only without an error; if there are groups of both
   kinds, the order decides which is met first.
   */
  method RegisterRoleGroups(cluster: string, groups: Groups, errors: map<string, string>, defaults: KafkaDefaults,
                            ghost footprint: set<object>)
    returns (outcome: Outcome, r: Result<seq<Resource>>, ghost order: seq<string>)
    requires CompleteDefaults(defaults) && Within(groups, footprint)
    modifies footprint
    ensures outcome.Panicked? || r.Err? <==>
              exists g :: g in groups && (old(Unregistrable(groups[g])) || g in errors)
    ensures outcome.Panicked? ==>
              exists g :: g in groups && old(Unregistrable(groups[g])) && (groups[g].None? || g !in errors)
    ensures outcome.Returned? && r.Err? ==>
              exists g :: g in groups && groups[g].Some? && g in errors && r == Err(errors[g])
    ensures outcome.Returned? && r.Ok? ==> Lists(order, groups.Keys) && r.value == Registered(cluster, order)
  {
    var registered := [];
    order := [];
    r := Err("");
    var todo := groups.Keys;
    ghost var known := footprint;
    while todo != {}
      invariant todo <= groups.Keys
      invariant Lists(order, groups.Keys - todo)
      invariant registered == Registered(cluster, order)
      invariant forall x | x in known :: x in footprint || fresh(x)
      invariant Within(groups, known)
      invariant forall g | g in groups && groups[g].Some? ::
                  NilEntry(groups[g].value.overrides) == old(NilEntry(groups[g].value.overrides))
      invariant forall g | g in groups && g !in todo :: !old(Unregistrable(groups[g])) && g !in errors
    {
      var g :| g in todo;
      if groups[g].None? {
        return Panicked, r, order;
      }
      if g in errors {
        return Returned, Err(errors[g]), order;
      }
      outcome, known := MergeGroup(groups, g, defaults, known);
      if outcome.Panicked? {
        return;
      }
      registered := registered + RoleGroupResources(cluster, g);
      assert (order + [g])[..|order|] == order;
      order := order + [g];
      todo := todo - {g};
    }
    assert groups.Keys - todo == groups.Keys;
    return Returned, Ok(registered), order;
  }

  /** What `RegisterResources` reads of a cluster; the role groups' objects are those combined with the role's. */
  datatype Cluster = Cluster(config: Option<ClusterConfig>, image: Option<Image>, brokers: Option<Groups>)

  /** What all role groups get from the cluster. */
  datatype Shared = Shared(security: KafkaSecurity, pullPolicy: string)

  /** A part of the specification that is dereferenced is missing; the CRD requires or defaults each. */
  predicate Incomplete(c: Cluster)
  {
    c.config.None? || c.image.None? || c.image.value.pullPolicy.None? || c.brokers.None?
  }

  /**
   The cluster's `RegisterResources`: whatever the map iteration order, the same objects are
   registered, they are pairwise different exactly when no two role groups clash, and everything the
   role groups' StatefulSets need is among them. It ends early
   exactly when the specification is incomplete, which panics, or some group has an error or cannot
   be registered.
   */
  method RegisterResources(name: string, cluster: Cluster, errors: map<string, string>, defaults: KafkaDefaults,
                           ghost footprint: set<object>)
    returns (outcome: Outcome, r: Result<seq<Resource>>, shared: Option<Shared>)
    requires CompleteDefaults(defaults) && (cluster.brokers.Some? ==> Within(cluster.brokers.value, footprint))
    modifies footprint
    ensures outcome.Panicked? || r.Err? <==>
              || Incomplete(cluster)
              || exists g :: g in cluster.brokers.value
                          && (old(Unregistrable(cluster.brokers.value[g])) || g in errors)
    ensures outcome.Panicked? ==>
              || Incomplete(cluster)
              || exists g :: g in cluster.brokers.value && old(Unregistrable(cluster.brokers.value[g]))
                          && (cluster.brokers.value[g].None? || g !in errors)
    ensures outcome.Returned? && r.Err? ==>
              && !Incomplete(cluster)
              && exists g :: g in cluster.brokers.value && cluster.brokers.value[g].Some? && g in errors
                          && r == Err(errors[g])
    ensures !Incomplete(cluster) ==>
              shared == Some(Shared(NewKafkaSecurity(cluster.config.value), cluster.image.value.pullPolicy.value))
    ensures outcome.Returned? && r.Ok? ==>
              var groups := cluster.brokers.value;
              && |r.value| == 3 + 5 * |groups|
              && (forall x :: x in r.value <==> IsRegistered(name, groups.Keys, x))
              && (NoDuplicates(r.value) <==> NoMetricsClash(groups.Keys))
              && (forall g | g in groups :: GroupComplete(r.value, name, g))
  {
    var registered := [Resource(ServiceAccount, name)];
    if cluster.config.None? {
      return Panicked, Err(""), None;
    }
    var k := NewKafkaSecurity(cluster.config.value);
    if cluster.image.None? || cluster.image.value.pullPolicy.None? || cluster.brokers.None? {
      return Panicked, Err(""), None;
    }
    shared := Some(Shared(k, cluster.image.value.pullPolicy.value));
    var groups := cluster.brokers.value;
    ghost var order;
    outcome, r, order := RegisterRoleGroups(name, groups, errors, defaults, footprint);
    if outcome.Panicked? || r.Err? {
      return;
    }
    registered := registered + r.value;
    registered := registered + [Resource(Kind.ConfigMap, name), Resource(Kind.ConfigMap, name + "-nodeport")];
    assert registered == ClusterResources(name, order);
    NamesUniqueIff(name, order, groups.Keys);
    ListLength(order, groups.Keys);
    RegisteredLength(name, order);
    forall x
      ensures x in registered <==> IsRegistered(name, groups.Keys, x)
    {
      RegisteredMember(name, order, x);
    }
    forall g | g in groups
      ensures GroupComplete(registered, name, g)
    {
      GroupIsComplete(registered, name, groups.Keys, g);
    }
    r := Ok(registered);
  }
}
