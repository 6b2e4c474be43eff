/**
 The property files of all role groups: every group's overrides are merged before any ConfigMap is
 built, and groups may share the role's objects, so merges and builds of one group write into maps
 that other groups read.
 */
module GroupFiles {
  import opened Wrappers
  import opened SpecValues
  import opened GoHeap
  import opened Objects
  import opened OverrideMerge
  import opened ConfigMerge
  import opened Security
  import opened ServerProperties
  import opened GroupMerge

  // ---------- what a group holds and what it will have ----------

  /** What a file holds; nothing if it is absent. */
  ghost function Held(o: OverridesSpec, f: string): Properties
    reads o, o.configOverrides, FileOf(o, f)
  {
    GetOr(MapValue(FileOf(o, f)), map[])
  }

  /** The defaults for one of the two files; one map for both gets both. */
  function Base(d: KafkaDefaults, own: Properties, oneMap: bool): Properties
  {
    if oneMap then d.server + d.security else own
  }

  /** What a merge makes of the two files. */
  datatype Goal = Goal(nilFile: bool, oneMap: bool, server: Properties, security: Properties)

  ghost function GoalOf(o: OverridesSpec, d: KafkaDefaults): Goal
    reads o, o.configOverrides, FileOf(o, SERVER_PROPERTIES), FileOf(o, SECURITY_PROPERTIES)
  {
    Goal(NilEntry(o), OneMap(o),
         Base(d, d.server, OneMap(o)) + Held(o, SERVER_PROPERTIES),
         Base(d, d.security, OneMap(o)) + Held(o, SECURITY_PROPERTIES))
  }

  function GoalFor(d: KafkaDefaults, user: Files, oneMap: bool): Goal
  {
    Goal(NilFile(user), oneMap, MergedServer(d, user, oneMap), MergedSecurity(d, user, oneMap))
  }

  /** The goal in terms of the input. */
  lemma GoalExact(o: OverridesSpec, d: KafkaDefaults)
    ensures GoalOf(o, d) == GoalFor(d, GivenFiles(o), OneMapAt(FileMaps(o)))
  {
    NilEntryIsNilFile(o);
  }

  /** The goal is reached. */
  ghost predicate AtGoal(o: OverridesSpec, goal: Goal)
    reads o, o.configOverrides, FileOf(o, SERVER_PROPERTIES), FileOf(o, SECURITY_PROPERTIES)
  {
    && FileOf(o, SERVER_PROPERTIES) != null && FileOf(o, SERVER_PROPERTIES).m == goal.server
    && FileOf(o, SECURITY_PROPERTIES) != null && FileOf(o, SECURITY_PROPERTIES).m == goal.security
    && OneMap(o) == goal.oneMap
  }

  /** One group's merge reaches its goal. */
  method MergeOne(o: OverridesSpec, defaults: KafkaDefaults)
    returns (outcome: Outcome, ghost files: map<string, StringMap?>)
    requires CompleteDefaults(defaults)
    modifies OverridesRepr(o)
    ensures outcome.Panicked? <==> old(GoalOf(o, defaults)).nilFile
    ensures outcome.Returned? ==> AtGoal(o, old(GoalOf(o, defaults)))
    ensures NewMaps(files)
    ensures KeptOrNew(old(o.envOverrides), o.envOverrides) && KeptOrNew(old(o.configOverrides), o.configOverrides)
    ensures outcome.Returned? ==> MergedSince(o, old(Now(o)), files, OverridesOf(defaults))
  {
    ghost var now := Now(o);
    GoalExact(o, defaults);
    DefaultPanicExact(GivenFiles(o), defaults);
    var d := NewConfig(defaults);
    assert Now(o) == now;
    outcome, files := MergeDefaults(o, d);
    if outcome.Returned? {
      FilesAfterMerge(o, now, files, defaults);
    }
  }

  // ---------- what one merge does to other groups ----------

  /** A map is not one group's server.properties and another's security.properties, unless it is both for both. */
  ghost predicate Uncrossed(o: OverridesSpec, p: OverridesSpec)
    reads o, o.configOverrides, p, p.configOverrides
  {
    FileOf(o, SERVER_PROPERTIES) != null && FileOf(o, SERVER_PROPERTIES) == FileOf(p, SECURITY_PROPERTIES) ==>
      OneMap(o) && OneMap(p)
  }

  predicate HeldUnder(m: map<string, StringMap?>, f: string, p: StringMap)
  {
    f in m && m[f] == p
  }

  /** A merge fills a map of another group with the defaults of its own use, if at all. */
  lemma FilledElsewhere(m: map<string, StringMap?>, p: StringMap, before: Properties, after: Properties,
                        d: KafkaDefaults, f: string, g: string, oneMap: bool)
    requires {f, g} == FilesOf(d).Keys && f != g && d.server.Keys !! d.security.Keys
    requires Filled(before, after, FilesOf(d), Uses(m, FilesOf(d).Keys, p))
    requires if oneMap then HeldUnder(m, f, p) <==> HeldUnder(m, g, p) else !HeldUnder(m, g, p)
    ensures after == before || after == Base(d, FilesOf(d)[f].value, oneMap) + before
  {
    if !HeldUnder(m, f, p) {
      assert Uses(m, FilesOf(d).Keys, p) == {};
      assert after == before;
    } else if oneMap {
      FilesKeys(d);
      FilledByBoth(m, before, after, d);
    } else {
      FilledByOne(m, before, after, d, f, g);
    }
  }

  /** Filling with what is to come anyway changes no goal, and nothing that has reached it. */
  lemma FilledOnce(base: Properties, before: Properties, after: Properties)
    requires after == before || after == base + before
    ensures base + after == base + before
    ensures before == base + before ==> after == before
  {
  }

  /** A group that does not share the merged map of files. */
  twostate lemma GoalBeside(b: OverridesSpec, new a: OverridesSpec, new was: Moment, new d: KafkaDefaults)
    requires d.server.Keys !! d.security.Keys
    requires old(allocated(a)) && was == old(Now(a))
    requires AllFilled(was.maps, was.contents, FilesOf(d), FilesOf(d).Keys)
    requires unchanged(b) && (b.configOverrides != null ==> unchanged(b.configOverrides))
    requires forall p | p in FileMaps(b).Values && p != null && p !in was.maps.Values :: p.m == old(p.m)
    requires old(Uncrossed(a, b)) && old(Uncrossed(b, a))
    ensures GoalOf(b, d) == old(GoalOf(b, d))
    ensures old(AtGoal(b, GoalOf(b, d))) ==> AtGoal(b, GoalOf(b, d))
  {
    FilesKeys(d);
    HeldBeside(b, a, was, d, SERVER_PROPERTIES, SECURITY_PROPERTIES);
    HeldBeside(b, a, was, d, SECURITY_PROPERTIES, SERVER_PROPERTIES);
  }

  twostate lemma HeldBeside(b: OverridesSpec, new a: OverridesSpec, new was: Moment, new d: KafkaDefaults,
                            new f: string, new g: string)
    requires {f, g} == FilesOf(d).Keys && f != g && d.server.Keys !! d.security.Keys
    requires old(allocated(a)) && was == old(Now(a))
    requires AllFilled(was.maps, was.contents, FilesOf(d), FilesOf(d).Keys)
    requires unchanged(b) && (b.configOverrides != null ==> unchanged(b.configOverrides))
    requires forall p | p in FileMaps(b).Values && p != null && p !in was.maps.Values :: p.m == old(p.m)
    requires old(Uncrossed(a, b)) && old(Uncrossed(b, a))
    ensures FileOf(b, f) == old(FileOf(b, f))
    ensures var base := Base(d, FilesOf(d)[f].value, OneMap(b));
            && base + Held(b, f) == base + old(Held(b, f))
            && (old(Held(b, f)) == base + old(Held(b, f)) ==> Held(b, f) == old(Held(b, f)))
  {
    var p := FileOf(b, f);
    if p != null {
      assert p in FileMaps(b).Values;
      if p in was.maps.Values {
        assert was.contents[p] == old(p.m);
        assert forall h :: HeldUnder(was.maps, h, p) <==> old(FileOf(a, h)) == p;
        FilledElsewhere(was.maps, p, old(p.m), p.m, d, f, g, OneMap(b));
      }
      FilledOnce(Base(d, FilesOf(d)[f].value, OneMap(b)), old(p.m), p.m);
    }
  }

  /** A merge changes no goal and undoes none that was reached. */
  twostate predicate GoalKept(b: OverridesSpec, new d: KafkaDefaults)
    reads b, b.configOverrides, FileOf(b, SERVER_PROPERTIES), FileOf(b, SECURITY_PROPERTIES)
  {
    GoalOf(b, d) == old(GoalOf(b, d)) && (old(AtGoal(b, GoalOf(b, d))) ==> AtGoal(b, GoalOf(b, d)))
  }

  /** The merged group, and every group with the same map of files. */
  twostate lemma GoalTogether(b: OverridesSpec, new a: OverridesSpec, new d: KafkaDefaults)
    requires old(allocated(a)) && !old(GoalOf(a, d)).nilFile && AtGoal(a, old(GoalOf(a, d)))
    requires b.configOverrides == a.configOverrides && old(b.configOverrides) == old(a.configOverrides)
    ensures GoalKept(b, d) && AtGoal(b, GoalOf(b, d))
  {
    FilledOnce(Base(d, d.server, OneMap(b)), old(Held(a, SERVER_PROPERTIES)), Held(a, SERVER_PROPERTIES));
    FilledOnce(Base(d, d.security, OneMap(b)), old(Held(a, SECURITY_PROPERTIES)), Held(a, SECURITY_PROPERTIES));
  }

  /** A file keeps its map, or it had none and gets the default one. */
  twostate predicate Installs(b: OverridesSpec, new files: map<string, StringMap?>)
    reads b, b.configOverrides
  {
    forall f | f in files ::
      FileOf(b, f) == old(FileOf(b, f)) || (old(FileOf(b, f)) == null && FileOf(b, f) == files[f])
  }

  /** The group has another map of files than `o`, and of its objects only maps that `o` has may have changed. */
  twostate predicate Beside(p: OverridesSpec, new o: OverridesSpec)
    requires old(allocated(o))
    reads p, p.configOverrides, FileMaps(p).Values
  {
    && unchanged(p) && (p.configOverrides != null ==> unchanged(p.configOverrides))
    && forall x | x in FileMaps(p).Values && x != null && x !in old(OverridesRepr(o)) :: x.m == old(x.m)
  }

  /** Whether or not the group has the same map of files as `o`, nothing else of it may have changed. */
  twostate predicate Related(p: OverridesSpec, new o: OverridesSpec)
    requires old(allocated(o))
    reads p, p.configOverrides, FileMaps(p).Values, o
  {
    && (p == o || unchanged(p))
    && (Beside(p, o) || (p.configOverrides == o.configOverrides && old(p.configOverrides) == old(o.configOverrides)))
  }

  /** The environment is written only as a file. */
  twostate lemma EnvironmentStays(o: OverridesSpec, new was: Moment, new files: map<string, StringMap?>,
                                  new d: KafkaDefaults)
    requires was == old(Now(o)) && MergedSince(o, was, files, OverridesOf(d))
    ensures was.env != null && was.env !in was.maps.Values ==> was.env.m == old(was.env.m)
  {
    if was.env != null {
      assert map[] + old(was.env.m) == old(was.env.m);
    }
  }

  twostate lemma MapsBeside(p: OverridesSpec, new o: OverridesSpec, new env: StringMap?,
                            new maps: map<string, StringMap?>)
    requires old(allocated(o)) && Beside(p, o) && env == old(o.envOverrides) && maps == old(FileMaps(o))
    requires env != null && env !in maps.Values ==> env.m == old(env.m)
    ensures forall x | x in FileMaps(p).Values && x != null && x !in maps.Values :: x.m == old(x.m)
  {
  }

  /** What a merge of `o` since `was` does to any group. */
  twostate lemma GoalAfter(p: OverridesSpec, new o: OverridesSpec, new was: Moment, new files: map<string, StringMap?>,
                           new d: KafkaDefaults)
    requires old(allocated(o)) && d.server.Keys !! d.security.Keys
    requires was == old(Now(o)) && MergedSince(o, was, files, OverridesOf(d))
    requires !old(GoalOf(o, d)).nilFile && AtGoal(o, old(GoalOf(o, d)))
    requires Related(p, o) && old(Uncrossed(o, p)) && old(Uncrossed(p, o))
    ensures GoalKept(p, d)
  {
    if Beside(p, o) {
      EnvironmentStays(o, was, files, d);
      MapsBeside(p, o, was.env, was.maps);
      GoalBeside(p, o, was, d);
    } else {
      GoalTogether(p, o, d);
    }
  }

  method MergeRelated(ghost objs: set<OverridesSpec>, o: OverridesSpec, defaults: KafkaDefaults)
    returns (outcome: Outcome, ghost files: map<string, StringMap?>)
    requires CompleteDefaults(defaults) && o in objs
    modifies OverridesRepr(o)
    ensures outcome.Panicked? <==> old(GoalOf(o, defaults)).nilFile
    ensures outcome.Returned? ==> AtGoal(o, old(GoalOf(o, defaults)))
    ensures NewMaps(files)
    ensures KeptOrNew(old(o.envOverrides), o.envOverrides) && KeptOrNew(old(o.configOverrides), o.configOverrides)
    ensures outcome.Returned? ==> MergedSince(o, old(Now(o)), files, OverridesOf(defaults))
    ensures forall p | p in objs :: Related(p, o)
  {
    ghost var written := OverridesRepr(o);
    assert forall p | p in objs :: OtherOverrides(p, o, written);
    outcome, files := MergeOne(o, defaults);
    forall p | p in objs
      ensures Related(p, o)
    {
      assert old(OtherOverrides(p, o, written));
      if p != o && p.configOverrides != o.configOverrides {
        assert Beside(p, o);
      }
    }
  }

  /** One merge reaches the group's goal and changes no other goal, however groups share objects. */
  method MergeKeepingGoals(ghost objs: set<OverridesSpec>, o: OverridesSpec, defaults: KafkaDefaults)
    returns (outcome: Outcome, ghost files: map<string, StringMap?>)
    requires CompleteDefaults(defaults) && o in objs
    requires forall p, q | p in objs && q in objs :: Uncrossed(p, q)
    modifies OverridesRepr(o)
    ensures outcome.Panicked? <==> old(GoalOf(o, defaults)).nilFile
    ensures NewMaps(files)
    ensures KeptOrNew(old(o.envOverrides), o.envOverrides) && KeptOrNew(old(o.configOverrides), o.configOverrides)
    ensures outcome.Returned? ==> AtGoal(o, GoalOf(o, defaults))
    ensures outcome.Returned? ==> forall p | p in objs :: GoalKept(p, defaults) && Related(p, o)
    ensures outcome.Returned? ==> FileMaps(o) == files + old(FileMaps(o))
  {
    ghost var was := Now(o);
    outcome, files := MergeRelated(objs, o, defaults);
    if outcome.Returned? {
      forall p | p in objs
        ensures GoalKept(p, defaults)
      {
        assert old(Uncrossed(o, p)) && old(Uncrossed(p, o)) && Related(p, o);
        GoalAfter(p, o, was, files, defaults);
      }
    }
  }

  /** New maps for missing files cross nothing. */
  twostate lemma UncrossedStays(o: OverridesSpec, new p: OverridesSpec, new files: map<string, StringMap?>)
    requires old(allocated(p)) && old(Uncrossed(o, p)) && NewMaps(files) && Installs(o, files) && Installs(p, files)
    ensures Uncrossed(o, p)
  {
  }

  twostate lemma RelatedInstalls(p: OverridesSpec, new o: OverridesSpec, new files: map<string, StringMap?>)
    requires old(allocated(o)) && Related(p, o) && FileMaps(o) == files + old(FileMaps(o))
    ensures Installs(p, files)
  {
  }

  twostate lemma ReprGrows(p: OverridesSpec, new o: OverridesSpec, new files: map<string, StringMap?>)
    requires old(allocated(o)) && Related(p, o) && FileMaps(o) == files + old(FileMaps(o)) && NewMaps(files)
    requires KeptOrNew(old(o.envOverrides), o.envOverrides) && KeptOrNew(old(o.configOverrides), o.configOverrides)
    ensures forall x | x in OverridesRepr(p) && x != null :: x in old(OverridesRepr(p)) || fresh(x)
  {
    forall f | f in FileMaps(p) && FileMaps(p)[f] != null
      ensures FileMaps(p)[f] in old(FileMaps(p)).Values || fresh(FileMaps(p)[f])
    {
      if f in old(FileMaps(p)) {
        assert old(FileMaps(p))[f] in old(FileMaps(p)).Values;
      }
    }
  }

  ghost predicate AllUncrossed(objs: set<OverridesSpec>)
    reads objs, set o | o in objs :: o.configOverrides
  {
    forall p, q | p in objs && q in objs :: Uncrossed(p, q)
  }

  /** One merge among groups that share objects. */
  method MergeStep(ghost objs: set<OverridesSpec>, o: OverridesSpec, defaults: KafkaDefaults)
    returns (outcome: Outcome)
    requires CompleteDefaults(defaults) && o in objs && AllUncrossed(objs)
    modifies OverridesRepr(o)
    ensures outcome.Panicked? <==> old(GoalOf(o, defaults)).nilFile
    ensures outcome.Returned? ==>
              && AllUncrossed(objs) && AtGoal(o, GoalOf(o, defaults))
              && forall p | p in objs :: GoalKept(p, defaults)
    ensures outcome.Returned? ==>
              forall p, x | p in objs && x in OverridesRepr(p) && x != null :: x in old(OverridesRepr(p)) || fresh(x)
  {
    ghost var files;
    outcome, files := MergeKeepingGoals(objs, o, defaults);
    if outcome.Returned? {
      forall p | p in objs
        ensures Installs(p, files)
        ensures forall x | x in OverridesRepr(p) && x != null :: x in old(OverridesRepr(p)) || fresh(x)
      {
        RelatedInstalls(p, o, files);
        ReprGrows(p, o, files);
      }
      forall p, q | p in objs && q in objs
        ensures Uncrossed(p, q)
      {
        assert old(Uncrossed(p, q));
        UncrossedStays(p, q, files);
      }
    }
  }

  // ---------- building ----------

  /** The goal is reached, with or without the security settings that a build adds. */
  ghost predicate FilesReady(o: OverridesSpec, goal: Goal, k: KafkaSecurity)
    reads o, o.configOverrides, FileOf(o, SERVER_PROPERTIES), FileOf(o, SECURITY_PROPERTIES)
  {
    && FileOf(o, SERVER_PROPERTIES) != null && FileOf(o, SECURITY_PROPERTIES) != null
    && OneMap(o) == goal.oneMap
    && FileOf(o, SERVER_PROPERTIES).m in {goal.server, goal.server + Settings(k)}
    && (if goal.oneMap then goal.server == goal.security else FileOf(o, SECURITY_PROPERTIES).m == goal.security)
  }

  /** A ConfigMap with the files of a goal; it is missing exactly when they cannot be rendered. */
  ghost predicate BuiltFrom(r: Result<ConfigData>, goal: Goal, k: KafkaSecurity, lib: Library, late: bool)
  {
    var server := goal.server + Settings(k);
    var security := if goal.oneMap && late then server else goal.security;
    && (r.Err? <==> !lib.Renders(server, Some(security)))
    && (r.Ok? ==> r.value.server == server && r.value.security == Some(security))
  }

  lemma SettingsTwice(base: Properties, k: KafkaSecurity)
    ensures base + Settings(k) + Settings(k) == base + Settings(k)
  {
  }

  /** A build leaves the map or adds the settings. */
  twostate predicate Rewritten(q: StringMap?, k: KafkaSecurity)
    reads q
  {
    q != null && (q.m == old(q.m) || q.m == old(q.m) + Settings(k))
  }

  /** Groups stay ready when a map of uncrossed files is rewritten. */
  twostate lemma ReadyStays(p: OverridesSpec, new o: OverridesSpec, new q: StringMap, new goal: Goal,
                            new k: KafkaSecurity)
    requires old(allocated(o)) && old(allocated(q)) && old(FilesReady(p, goal, k)) && old(Uncrossed(o, p))
    requires q == old(FileOf(o, SERVER_PROPERTIES)) && Rewritten(q, k)
    requires unchanged(p) && unchanged(p.configOverrides)
    requires FileOf(p, SERVER_PROPERTIES) != q ==> unchanged(FileOf(p, SERVER_PROPERTIES))
    requires FileOf(p, SECURITY_PROPERTIES) != q ==> unchanged(FileOf(p, SECURITY_PROPERTIES))
    ensures FilesReady(p, goal, k)
  {
    SettingsTwice(goal.server, k);
  }

  /** One build from ready files: the group's own files, however often their map was built from before. */
  method BuildOne(o: OverridesSpec, ghost goal: Goal, k: KafkaSecurity, lib: Library)
    returns (outcome: Outcome, r: Result<ConfigData>, ghost late: bool)
    requires FilesReady(o, goal, k)
    modifies FileOf(o, SERVER_PROPERTIES)
    ensures outcome.Returned? && BuiltFrom(r, goal, k, lib, late)
    ensures Rewritten(FileOf(o, SERVER_PROPERTIES), k)
  {
    SettingsTwice(goal.server, k);
    ghost var written := FileOf(o, SERVER_PROPERTIES).m == goal.server + Settings(k);
    outcome, r, late := BuildFiles(o, k, lib);
    late := late || written;
  }

  /** Building from one group's files leaves the others ready. */
  method BuildStep(ghost objs: set<OverridesSpec>, ghost goals: map<OverridesSpec, Goal>, o: OverridesSpec,
                   k: KafkaSecurity, lib: Library)
    returns (outcome: Outcome, r: Result<ConfigData>, ghost late: bool)
    requires o in objs && AllUncrossed(objs)
    requires forall p | p in objs :: p in goals && FilesReady(p, goals[p], k)
    modifies FileOf(o, SERVER_PROPERTIES)
    ensures outcome.Returned? && BuiltFrom(r, goals[o], k, lib, late)
    ensures AllUncrossed(objs)
    ensures forall p | p in objs ::
              FilesReady(p, goals[p], k) && FileOf(p, SERVER_PROPERTIES) == old(FileOf(p, SERVER_PROPERTIES))
  {
    ghost var q := FileOf(o, SERVER_PROPERTIES);
    outcome, r, late := BuildOne(o, goals[o], k, lib);
    forall p | p in objs
      ensures FilesReady(p, goals[p], k) && FileOf(p, SERVER_PROPERTIES) == old(FileOf(p, SERVER_PROPERTIES))
    {
      assert old(FilesReady(p, goals[p], k)) && old(Uncrossed(o, p));
      ReadyStays(p, o, q, goals[p], k);
    }
    forall p, p' | p in objs && p' in objs
      ensures Uncrossed(p, p')
    {
      assert old(Uncrossed(p, p'));
    }
  }

  // ---------- all groups ----------

  /** All merges, in any order. */
  method MergeAll(groups: map<string, OverridesSpec>, defaults: KafkaDefaults, ghost goals: map<OverridesSpec, Goal>,
                  ghost footprint: set<object>)
    returns (outcome: Outcome)
    requires CompleteDefaults(defaults) && AllUncrossed(groups.Values)
    requires forall o | o in groups.Values :: o in goals && GoalOf(o, defaults) == goals[o]
    requires forall o, x | o in groups.Values && x in OverridesRepr(o) && x != null :: x in footprint
    modifies footprint
    ensures outcome.Panicked? <==> exists g :: g in groups && goals[groups[g]].nilFile
    ensures outcome.Returned? ==>
              && AllUncrossed(groups.Values) && (forall o | o in groups.Values :: AtGoal(o, goals[o]))
              && forall o, x | o in groups.Values && x in OverridesRepr(o) && x != null :: x in footprint || fresh(x)
  {
    var todo := groups.Keys;
    ghost var merged: set<OverridesSpec> := {};
    while todo != {}
      invariant todo <= groups.Keys && AllUncrossed(groups.Values)
      invariant forall o | o in groups.Values :: GoalOf(o, defaults) == goals[o]
      invariant forall o | o in groups.Values && o in merged :: AtGoal(o, goals[o])
      invariant forall o, x | o in groups.Values && x in OverridesRepr(o) && x != null :: x in footprint || fresh(x)
      invariant forall g | g in groups && g !in todo :: groups[g] in merged && !goals[groups[g]].nilFile
    {
      var g :| g in todo;
      outcome := MergeStep(groups.Values, groups[g], defaults);
      if outcome.Panicked? {
        return;
      }
      merged := merged + {groups[g]};
      todo := todo - {g};
    }
    forall o | o in groups.Values
      ensures AtGoal(o, goals[o])
    {
      var g :| g in groups && groups[g] == o;
      assert groups[g] in merged;
    }
    outcome := Returned;
  }

  /** All builds, in any order. */
  method BuildAll(groups: map<string, OverridesSpec>, k: KafkaSecurity, lib: Library,
                  ghost goals: map<OverridesSpec, Goal>, ghost footprint: set<object>)
    returns (built: map<string, Result<ConfigData>>)
    requires AllUncrossed(groups.Values)
    requires forall o | o in groups.Values :: o in goals && FilesReady(o, goals[o], k)
    requires forall o, x | o in groups.Values && x in OverridesRepr(o) && x != null :: x in footprint
    modifies footprint
    ensures built.Keys == groups.Keys
    ensures forall g | g in groups :: exists late :: BuiltFrom(built[g], goals[groups[g]], k, lib, late)
  {
    built := map[];
    forall o | o in groups.Values
      ensures FileOf(o, SERVER_PROPERTIES) in footprint
    {
      assert FileOf(o, SERVER_PROPERTIES) in OverridesRepr(o);
    }
    var todo := groups.Keys;
    while todo != {}
      invariant todo <= groups.Keys && built.Keys == groups.Keys - todo
      invariant forall o | o in groups.Values :: FilesReady(o, goals[o], k)
      invariant AllUncrossed(groups.Values)
      invariant forall o | o in groups.Values :: FileOf(o, SERVER_PROPERTIES) in footprint
      invariant forall g | g in built :: exists late :: BuiltFrom(built[g], goals[groups[g]], k, lib, late)
    {
      var g :| g in todo;
      assert groups[g] in groups.Values;
      var outcome, r;
      ghost var late;
      outcome, r, late := BuildStep(groups.Values, goals, groups[g], k, lib);
      built := built[g := r];
      todo := todo - {g};
    }
  }

  /**
   The files of any set of role groups: the merges run first, in any order, then the builds, in any
   order. Groups may share overrides, maps of files and single maps, as long as no map is one
   group's server.properties and another's security.properties, unless both use it for both. It
   panics exactly when some group has a file with defaults as a nil map. Otherwise every group gets
   the files of its own input, as if it were alone. A group without overrides enters with the new
   object that the source creates.
   */
  method FilesOfGroups(groups: map<string, OverridesSpec>, defaults: KafkaDefaults, k: KafkaSecurity, lib: Library,
                       ghost footprint: set<object>)
    returns (outcome: Outcome, built: map<string, Result<ConfigData>>)
    requires CompleteDefaults(defaults) && AllUncrossed(groups.Values)
    requires forall o, x | o in groups.Values && x in OverridesRepr(o) && x != null :: x in footprint
    modifies footprint
    ensures outcome.Panicked? <==> exists g :: g in groups && NilFile(old(GivenFiles(groups[g])))
    ensures outcome.Returned? ==>
              && built.Keys == groups.Keys
              && forall g | g in groups ::
                   var own := GoalFor(defaults, old(GivenFiles(groups[g])), OneMapAt(old(GivenMaps(groups[g]))));
                   exists late :: BuiltFrom(built[g], own, k, lib, late)
  {
    built := map[];
    ghost var goals := map o | o in groups.Values :: GoalOf(o, defaults);
    forall g | g in groups
      ensures groups[g] in groups.Values
           && goals[groups[g]] == GoalFor(defaults, GivenFiles(groups[g]), OneMapAt(GivenMaps(groups[g])))
    {
      GoalExact(groups[g], defaults);
    }
    outcome := MergeAll(groups, defaults, goals, footprint);
    if outcome.Returned? {
      ghost var reached := set o, x: object | o in groups.Values && x in OverridesRepr(o) :: x;
      built := BuildAll(groups, k, lib, goals, reached);
    }
  }

  /** The same terms in which `ServerProperties.CompileRoleGroup` states the files of one group. */
  lemma BuiltFromOwn(r: Result<ConfigData>, d: KafkaDefaults, user: Files, oneMap: bool, k: KafkaSecurity,
                     lib: Library, late: bool)
    ensures BuiltFrom(r, GoalFor(d, user, oneMap), k, lib, late) <==>
              && (r.Err? <==> !GroupRenders(lib, d, user, oneMap, k, late))
              && (r.Ok? ==> FilesBuilt(r.value, d, user, oneMap, k, late))
  {
  }

  // ---------- crossed files ----------

  lemma CrossedFill(own: Properties, other: Properties, filled: Properties, before: Properties)
    requires own.Keys !! other.Keys && (filled == other || filled == other + own)
    ensures own + (filled + before) == own + before <==> other.Keys <= before.Keys
  {
    if own + (filled + before) == own + before {
      forall key | key in other
        ensures key in before
      {
        assert key in own + (filled + before);
      }
    }
  }

  twostate lemma CrossedAfter(p: OverridesSpec, new o: OverridesSpec, new d: KafkaDefaults)
    requires old(allocated(o)) && d.server.Keys !! d.security.Keys && Related(p, o)
    requires !old(OneMap(p)) && old(FileOf(o, SERVER_PROPERTIES)) == old(FileOf(p, SECURITY_PROPERTIES)) != null
    requires FileOf(o, SERVER_PROPERTIES) == old(FileOf(o, SERVER_PROPERTIES)) && AtGoal(o, old(GoalOf(o, d)))
    ensures GoalOf(p, d).security == old(GoalOf(p, d).security) <==>
            d.server.Keys <= old(Held(p, SECURITY_PROPERTIES)).Keys
  {
    assert Beside(p, o);
    CrossedFill(d.security, d.server, Base(d, d.server, old(OneMap(o))), old(Held(p, SECURITY_PROPERTIES)));
  }

  /**
   If one group's server.properties is the map of another's security.properties only, the first
   group's merge leaves what the second will have if and only if every server default was there.
   */
  method MergeCrossed(o: OverridesSpec, p: OverridesSpec, defaults: KafkaDefaults) returns (outcome: Outcome)
    requires CompleteDefaults(defaults) && !OneMap(p)
    requires FileOf(o, SERVER_PROPERTIES) != null && FileOf(o, SERVER_PROPERTIES) == FileOf(p, SECURITY_PROPERTIES)
    modifies OverridesRepr(o)
    ensures outcome.Panicked? <==> old(GoalOf(o, defaults)).nilFile
    ensures outcome.Returned? ==>
              (GoalOf(p, defaults).security == old(GoalOf(p, defaults).security) <==>
               defaults.server.Keys <= old(Held(p, SECURITY_PROPERTIES)).Keys)
  {
    ghost var files;
    ghost var objs := {o, p};
    outcome, files := MergeRelated(objs, o, defaults);
    if outcome.Returned? {
      assert p in objs;
      CrossedAfter(p, o, defaults);
    }
  }

  twostate lemma CrossedBothAfter(o: OverridesSpec, new p: OverridesSpec, new d: KafkaDefaults)
    requires old(allocated(p)) && d.server.Keys !! d.security.Keys && Related(o, p)
    requires !old(OneMap(o)) && old(OneMap(p))
    requires old(FileOf(o, SERVER_PROPERTIES)) == old(FileOf(p, SERVER_PROPERTIES)) != null
    requires FileOf(p, SERVER_PROPERTIES) == old(FileOf(p, SERVER_PROPERTIES)) && AtGoal(p, old(GoalOf(p, d)))
    ensures GoalOf(o, d).server == old(GoalOf(o, d).server) <==>
            d.security.Keys <= old(Held(o, SERVER_PROPERTIES)).Keys
  {
    assert Beside(o, p);
    assert d.server + d.security == d.security + d.server;
    CrossedFill(d.server, d.security, d.security + d.server, old(Held(o, SERVER_PROPERTIES)));
  }

  /**
   If one group uses a map for server.properties only and another for both files, the second group's
   merge leaves what the first will have if and only if every security default was there.
   */
  method MergeCrossedBoth(o: OverridesSpec, p: OverridesSpec, defaults: KafkaDefaults) returns (outcome: Outcome)
    requires CompleteDefaults(defaults) && OneMap(p) && !OneMap(o)
    requires FileOf(o, SERVER_PROPERTIES) == FileOf(p, SERVER_PROPERTIES)
    modifies OverridesRepr(p)
    ensures outcome.Panicked? <==> old(GoalOf(p, defaults)).nilFile
    ensures outcome.Returned? ==>
              (GoalOf(o, defaults).server == old(GoalOf(o, defaults).server) <==>
               defaults.security.Keys <= old(Held(o, SERVER_PROPERTIES)).Keys)
  {
    ghost var files;
    ghost var objs := {o, p};
    outcome, files := MergeRelated(objs, p, defaults);
    if outcome.Returned? {
      assert o in objs;
      CrossedBothAfter(o, p, defaults);
    }
  }
}
