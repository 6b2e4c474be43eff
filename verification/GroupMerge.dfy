/**
 The merge inside the loop of `RegisterResources` (internal/controller/role.go): one role group at a
 time, on objects that groups may share. A group without settings of its own gets the role's
 objects, so the same overrides can be merged several times.
 */
module GroupMerge {
  import opened Wrappers
  import opened GoHeap
  import opened Objects
  import opened OverrideMerge
  import opened ConfigMerge
  import opened ServerProperties

  /** A role group's configuration and overrides, combined with the role's. */
  datatype Group = Group(config: BrokersConfigSpec?, overrides: OverridesSpec?)

  type Groups = map<string, Option<Group>>

  // ---------- which objects are reachable ----------

  ghost predicate ConfigWithin(c: BrokersConfigSpec?, known: set<object>)
    reads known
  {
    c != null ==>
      && c in known
      && (c.roleGroupConfig != null ==>
            && c.roleGroupConfig in known
            && (c.roleGroupConfig.resources != null ==> c.roleGroupConfig.resources in known))
  }

  ghost predicate OverridesWithin(o: OverridesSpec?, known: set<object>)
    reads known
  {
    o != null ==>
      && o in known
      && (o.envOverrides != null ==> o.envOverrides in known)
      && (o.configOverrides != null ==>
            && o.configOverrides in known
            && forall f | f in o.configOverrides.m && o.configOverrides.m[f] != null :: o.configOverrides.m[f] in known)
  }

  /** Everything reachable from the groups is in `known`. */
  ghost predicate Within(groups: Groups, known: set<object>)
    reads known
  {
    forall g | g in groups && groups[g].Some? ::
      ConfigWithin(groups[g].value.config, known) && OverridesWithin(groups[g].value.overrides, known)
  }

  /** One of the two files that have defaults is present with a nil map. */
  ghost predicate NilEntry(o: OverridesSpec?)
    reads o, if o == null then {} else {o.configOverrides}
  {
    o != null &&
    (|| (SERVER_PROPERTIES in FileMaps(o) && FileMaps(o)[SERVER_PROPERTIES] == null)
     || (SECURITY_PROPERTIES in FileMaps(o) && FileMaps(o)[SECURITY_PROPERTIES] == null))
  }

  lemma NilEntryIsNilFile(o: OverridesSpec?)
    ensures NilEntry(o) <==> NilFile(GivenFiles(o))
  {
  }

  // ---------- one group ----------

  ghost function NotNull(objects: set<object?>): set<object>
  {
    set x: object | x in objects
  }

  /** What is reachable after a merge that installed `files`. */
  ghost function Reached(known: set<object>, c: BrokersConfigSpec, o: OverridesSpec,
                         files: map<string, StringMap?>): set<object>
    reads BrokersConfigRepr(c), o
  {
    known + NotNull(BrokersConfigRepr(c))
    + NotNull({o.envOverrides as object?, o.configOverrides}) + NotNull(files.Values)
  }

  /**
   Other overrides stay within what is reachable and keep their nil entries, also if they share
   maps with the merged ones.
   */
  twostate lemma OverridesStayWithin(other: OverridesSpec?, new o: OverridesSpec, new files: map<string, StringMap?>,
                                     new known: set<object>, new known': set<object>)
    requires old(allocated(o)) && old(allocated(known)) && old(OverridesWithin(other, known)) && known <= known'
    requires other != null && other != o ==>
               && unchanged(other)
               && (other.configOverrides != null && other.configOverrides != o.configOverrides ==>
                     unchanged(other.configOverrides))
    requires KeptOrNew(old(o.envOverrides), o.envOverrides) && KeptOrNew(old(o.configOverrides), o.configOverrides)
    requires o.envOverrides in known' && o.configOverrides in known'
    requires forall f | f in files && files[f] != null :: files[f] in known'
    requires FileMaps(o) == files + old(FileMaps(o))
    ensures OverridesWithin(other, known')
    ensures (forall f | f in files :: files[f] != null) && !old(NilEntry(o)) ==> NilEntry(other) == old(NilEntry(other))
  {
  }

  /** Other configurations stay within what is reachable, also if they share objects with the filled one. */
  twostate lemma ConfigStaysWithin(other: BrokersConfigSpec?, new c: BrokersConfigSpec, new known: set<object>,
                                   new known': set<object>)
    requires old(allocated(c)) && old(allocated(known)) && old(ConfigWithin(other, known)) && known <= known'
    requires NotNull(BrokersConfigRepr(c)) <= known'
    requires other != null && other != c ==> unchanged(other)
    requires other != null && other.roleGroupConfig != null && other.roleGroupConfig != c.roleGroupConfig ==>
               old(allocated(other.roleGroupConfig)) && unchanged(other.roleGroupConfig)
    requires old(c.roleGroupConfig) != null ==> c.roleGroupConfig == old(c.roleGroupConfig)
    ensures ConfigWithin(other, known')
  {
  }

  /** `MergeFromUserConfig`, as far as pointers go. */
  method MergeObjects(c: BrokersConfigSpec, o: OverridesSpec, defaults: KafkaDefaults)
    returns (outcome: Outcome, ghost files: map<string, StringMap?>)
    requires CompleteDefaults(defaults)
    modifies BrokersConfigRepr(c), OverridesRepr(o)
    ensures outcome.Panicked? <==> old(NilEntry(o))
    ensures forall x | x in BrokersConfigRepr(c) && x != null :: x in old(BrokersConfigRepr(c)) || fresh(x)
    ensures old(c.roleGroupConfig) != null ==> c.roleGroupConfig == old(c.roleGroupConfig)
    ensures KeptOrNew(old(o.envOverrides), o.envOverrides) && KeptOrNew(old(o.configOverrides), o.configOverrides)
    ensures forall f | f in files :: files[f] != null && fresh(files[f])
    ensures outcome.Returned? ==> FileMaps(o) == files + old(FileMaps(o))
  {
    NilEntryIsNilFile(o);
    DefaultPanicExact(GivenFiles(o), defaults);
    outcome, files := MergeFromUserConfig(c, o, defaults);
  }

  /** The same, with what is reachable: `known'` adds the new objects. */
  method MergeKnown(c: BrokersConfigSpec, o: OverridesSpec, defaults: KafkaDefaults, ghost known: set<object>)
    returns (outcome: Outcome, ghost files: map<string, StringMap?>, ghost known': set<object>)
    requires CompleteDefaults(defaults) && ConfigWithin(c, known) && OverridesWithin(o, known)
    modifies BrokersConfigRepr(c), OverridesRepr(o)
    ensures outcome.Panicked? <==> old(NilEntry(o))
    ensures old(c.roleGroupConfig) != null ==> c.roleGroupConfig == old(c.roleGroupConfig)
    ensures KeptOrNew(old(o.envOverrides), o.envOverrides) && KeptOrNew(old(o.configOverrides), o.configOverrides)
    ensures forall f | f in files :: files[f] != null && files[f] in known'
    ensures outcome.Returned? ==> FileMaps(o) == files + old(FileMaps(o))
    ensures known <= known' && NotNull(BrokersConfigRepr(c)) <= known' && {o.envOverrides, o.configOverrides} <= known'
    ensures forall x | x in known' :: x in known || fresh(x)
  {
    ghost var repr := BrokersConfigRepr(c);
    assert forall x | x in repr && x != null :: x in known;
    outcome, files := MergeObjects(c, o, defaults);
    known' := Reached(known, c, o, files);
  }

  /** An overrides object and its map of files are written only by their own merge. */
  ghost predicate OtherOverrides(other: OverridesSpec?, o: OverridesSpec, written: set<object?>)
    reads o, other
  {
    other != null && other != o ==>
      && other !in written
      && (other.configOverrides != null && other.configOverrides != o.configOverrides ==>
          other.configOverrides !in written)
  }

  ghost predicate OtherConfig(other: BrokersConfigSpec?, c: BrokersConfigSpec, written: set<object?>)
    reads c, other
  {
    other != null && other != c ==>
      && other !in written
      && (other.roleGroupConfig != null && other.roleGroupConfig != c.roleGroupConfig ==>
          other.roleGroupConfig !in written)
  }

  lemma OthersNotWritten(g: Group, c: BrokersConfigSpec, o: OverridesSpec)
    ensures OtherOverrides(g.overrides, o, BrokersConfigRepr(c) + OverridesRepr(o))
    ensures OtherConfig(g.config, c, BrokersConfigRepr(c) + OverridesRepr(o))
  {
  }

  /** The merge of one group on given objects: it panics iff they have a nil entry, and gives no other group one. */
  method MergePresent(groups: Groups, c: BrokersConfigSpec, o: OverridesSpec, defaults: KafkaDefaults,
                      ghost known: set<object>)
    returns (outcome: Outcome, ghost known': set<object>)
    requires CompleteDefaults(defaults)
    requires Within(groups, known) && ConfigWithin(c, known) && OverridesWithin(o, known)
    modifies known
    ensures outcome.Panicked? <==> old(NilEntry(o))
    ensures forall x | x in known' :: x in known || fresh(x)
    ensures outcome.Returned? ==> Within(groups, known')
    ensures outcome.Returned? ==>
              forall g | g in groups && groups[g].Some? ::
                NilEntry(groups[g].value.overrides) == old(NilEntry(groups[g].value.overrides))
  {
    ghost var written := BrokersConfigRepr(c) + OverridesRepr(o);
    assert forall x | x in written && x != null :: x in known;
    forall g | g in groups && groups[g].Some?
      ensures OtherOverrides(groups[g].value.overrides, o, written) && OtherConfig(groups[g].value.config, c, written)
    {
      OthersNotWritten(groups[g].value, c, o);
    }
    ghost var files;
    outcome, files, known' := MergeKnown(c, o, defaults, known);
    if outcome.Returned? {
      forall g | g in groups && groups[g].Some?
        ensures ConfigWithin(groups[g].value.config, known') && OverridesWithin(groups[g].value.overrides, known')
        ensures NilEntry(groups[g].value.overrides) == old(NilEntry(groups[g].value.overrides))
      {
        OverridesStayWithin(groups[g].value.overrides, o, files, known, known');
        ConfigStaysWithin(groups[g].value.config, c, known, known');
      }
    }
  }

  /** One turn of the loop up to the registration: missing objects are created, then the defaults merged in. */
  method MergeGroup(groups: Groups, g: string, defaults: KafkaDefaults, ghost known: set<object>)
    returns (outcome: Outcome, ghost known': set<object>)
    requires CompleteDefaults(defaults) && g in groups && groups[g].Some? && Within(groups, known)
    modifies known
    ensures outcome.Panicked? <==> old(NilEntry(groups[g].value.overrides))
    ensures forall x | x in known' :: x in known || fresh(x)
    ensures outcome.Returned? ==> Within(groups, known')
    ensures outcome.Returned? ==>
              forall h | h in groups && groups[h].Some? ::
                NilEntry(groups[h].value.overrides) == old(NilEntry(groups[h].value.overrides))
  {
    var o := groups[g].value.overrides;
    if o == null {
      o := new OverridesSpec(None, null, null);
    }
    var c := CreateIfNil(groups[g].value.config);
    ghost var all := known + {o, c};
    forall h | h in groups && groups[h].Some?
      ensures ConfigWithin(groups[h].value.config, all) && OverridesWithin(groups[h].value.overrides, all)
      ensures NilEntry(groups[h].value.overrides) == old(NilEntry(groups[h].value.overrides))
    {
      assert old(ConfigWithin(groups[h].value.config, known) && OverridesWithin(groups[h].value.overrides, known));
    }
    outcome, known' := MergePresent(groups, c, o, defaults, all);
  }
}
