/**
 `mergeOverrides` (internal/controller/cluster_config.go): defaults are written into the user's
 maps in place. Map iteration order is arbitrary, inner maps may be nil, and writing to a nil map
 panics. Each loop is proved to compute a user-biased union whatever order it takes.
 */
module OverrideMerge {
  import opened Wrappers
  import opened SpecValues
  import opened GoHeap
  import opened Objects

  // ---------- the specification, on values ----------

  type Files = map<string, Option<Properties>>

  /** One file: a nil map stays nil unless there is something to write, which panics. */
  function MergedFile(user: Option<Properties>, defaults: Option<Properties>): Option<Properties>
  {
    if user.Some? && defaults.Some? then Some(defaults.value + user.value) else user
  }

  function MergedFiles(user: Files, defaults: Files): Files
  {
    map f | f in user.Keys + defaults.Keys ::
      if f !in user then defaults[f]
      else if f !in defaults then user[f]
      else MergedFile(user[f], defaults[f])
  }

  /** A default would have to be written into a nil map. */
  predicate NilWrite(user: Files, defaults: Files, f: string)
  {
    f in user && f in defaults && user[f].None? && defaults[f].Some? && defaults[f].value != map[]
  }

  ghost predicate Panics(user: Files, defaults: Files)
  {
    exists f | f in user :: NilWrite(user, defaults, f)
  }

  /** The user's arguments, then each default not already present, once, in order. */
  function MergedCli(user: seq<string>, defaults: seq<string>): seq<string>
  {
    if defaults == [] then user
    else
      var merged := MergedCli(user, defaults[..|defaults| - 1]);
      var last := defaults[|defaults| - 1];
      if last in merged then merged else merged + [last]
  }

  // ---------- laws of the specification ----------

  /** Domain and values of every merged file, key by key: the user wins, the default fills in. */
  lemma MergedFilesExact(user: Files, defaults: Files, f: string, key: string)
    ensures f in MergedFiles(user, defaults) <==> f in user || f in defaults
    ensures f in user && f !in defaults ==> MergedFiles(user, defaults)[f] == user[f]
    ensures f !in user && f in defaults ==> MergedFiles(user, defaults)[f] == defaults[f]
    ensures f in user && user[f].Some? && f in defaults && defaults[f].Some? ==>
              && MergedFiles(user, defaults)[f].Some?
              && var merged := MergedFiles(user, defaults)[f].value;
                 && (key in merged <==> key in user[f].value || key in defaults[f].value)
                 && (key in user[f].value ==> merged[key] == user[f].value[key])
                 && (key !in user[f].value && key in defaults[f].value ==> merged[key] == defaults[f].value[key])
  {
  }

  /** A second merge changes nothing, and if the first did not panic neither does the second. */
  lemma MergedFilesIdempotent(user: Files, defaults: Files)
    requires !Panics(user, defaults)
    ensures MergedFiles(MergedFiles(user, defaults), defaults) == MergedFiles(user, defaults)
    ensures !Panics(MergedFiles(user, defaults), defaults)
  {
    var once := MergedFiles(user, defaults);
    var twice := MergedFiles(once, defaults);
    forall f | f in once
      ensures twice[f] == once[f] && !NilWrite(once, defaults, f)
    {
      if f in user {
        assert !NilWrite(user, defaults, f);
        if f in defaults {
          MergedFileTwice(user[f], defaults[f]);
        }
      } else {
        MergedFileTwice(defaults[f], defaults[f]);
      }
    }
  }

  lemma MergedFileTwice(user: Option<Properties>, defaults: Option<Properties>)
    ensures MergedFile(MergedFile(user, defaults), defaults) == MergedFile(user, defaults)
    ensures MergedFile(defaults, defaults) == defaults
  {
    if defaults.Some? {
      assert defaults.value + defaults.value == defaults.value;
      if user.Some? {
        assert defaults.value + (defaults.value + user.value) == defaults.value + user.value;
      }
    }
  }

  lemma {:induction false} MergedCliExact(user: seq<string>, defaults: seq<string>)
    ensures user <= MergedCli(user, defaults)
    ensures forall arg :: arg in MergedCli(user, defaults) <==> arg in user || arg in defaults
    ensures forall i, j | |user| <= i < |MergedCli(user, defaults)| && 0 <= j < i ::
              MergedCli(user, defaults)[j] != MergedCli(user, defaults)[i]
  {
    if defaults != [] {
      var shorter := defaults[..|defaults| - 1];
      MergedCliExact(user, shorter);
      assert defaults == shorter + [defaults[|defaults| - 1]];
    }
  }

  lemma {:induction false} MergedCliIdempotent(user: seq<string>, defaults: seq<string>, again: seq<string>)
    requires forall arg | arg in again :: arg in defaults
    ensures MergedCli(MergedCli(user, defaults), again) == MergedCli(user, defaults)
  {
    MergedCliExact(user, defaults);
    if again != [] {
      var shorter := again[..|again| - 1];
      assert forall arg | arg in shorter :: arg in again;
      MergedCliIdempotent(user, defaults, shorter);
      assert again[|again| - 1] in again;
    }
  }

  // ---------- the loops ----------

  method MergeCli(user: seq<string>, defaults: seq<string>) returns (merged: seq<string>)
    ensures merged == MergedCli(user, defaults)
  {
    merged := user;
    for i := 0 to |defaults|
      invariant merged == MergedCli(user, defaults[..i])
    {
      assert defaults[..i + 1][..i] == defaults[..i];
      if defaults[i] !in merged {
        merged := merged + [defaults[i]];
      }
    }
    assert defaults[..|defaults|] == defaults;
  }

  /** Fills missing keys of one map, in any order. Writing to a nil map panics. */
  method FillMap(target: StringMap?, defaults: Properties) returns (outcome: Outcome)
    modifies target
    ensures outcome.Panicked? <==> target == null && defaults != map[]
    ensures target != null ==> target.m == defaults + old(target.m)
  {
    var todo := defaults.Keys;
    while todo != {}
      invariant todo <= defaults.Keys
      invariant target != null ==>
                  target.m == (map key | key in defaults && key !in todo :: defaults[key]) + old(target.m)
      invariant target == null ==> todo == defaults.Keys
    {
      var key :| key in todo;
      if target == null {
        assert key in defaults;
        return Panicked;
      }
      if key !in target.m {
        target.m := target.m[key := defaults[key]];
      }
      todo := todo - {key};
    }
    if target != null {
      assert (map key | key in defaults && key !in todo :: defaults[key]) == defaults;
    }
    return Returned;
  }

  /** One turn of the outer loop: a missing file is installed by reference, a present one filled in place. */
  method MergeEntry(files: FileMap, f: string, configs: StringMap?) returns (outcome: Outcome)
    modifies files, if f in files.m then {files.m[f]} else {}
    ensures outcome.Panicked? <==> NilWrite(old(Values(files.m)), map[f := old(MapValue(configs))], f)
    ensures files.m == if f in old(files.m) then old(files.m) else old(files.m)[f := configs]
    ensures f in old(files.m) && files.m[f] != null ==>
              files.m[f].m == GetOr(old(MapValue(configs)), map[]) + old(files.m[f].m)
  {
    if f !in files.m {
      files.m := files.m[f := configs];
    } else if configs != null {
      outcome := FillMap(files.m[f], configs.m);
      return;
    }
    return Returned;
  }

  // ---------- the files, however they share maps ----------

  /** Different file names hold different map objects, as after decoding a resource. */
  predicate Separate(files: map<string, StringMap?>)
  {
    forall f, g | f in files && g in files && f != g && files[f] != null :: files[f] != files[g]
  }

  /** None of the default maps is one of the user's; `ComputeFile` builds new maps on every call. */
  predicate Apart(files: map<string, StringMap?>, defaults: map<string, StringMap?>)
  {
    forall f, g | f in files && g in defaults && files[f] != null :: files[f] != defaults[g]
  }

  predicate Provides(given: Files, f: string, key: string)
  {
    f in given && given[f].Some? && key in given[f].value
  }

  /** No entry is lost or changed. */
  ghost predicate Grows(before: Properties, after: Properties)
  {
    forall key | key in before :: key in after && after[key] == before[key]
  }

  /** Every map in `before` still has what it had. */
  ghost predicate GrowsIn(before: map<StringMap?, Properties>)
    reads before.Keys
  {
    forall p | p in before && p != null :: Grows(before[p], p.m)
  }

  /** `after` keeps `before` and has every other key of the defaults for `names`, with one of their values. */
  ghost predicate Filled(before: Properties, after: Properties, given: Files, names: set<string>)
  {
    && Grows(before, after)
    && (forall f, key | f in names && Provides(given, f, key) :: key in after)
    && (forall key | key in after && key !in before ::
          exists f :: f in names && Provides(given, f, key) && after[key] == given[f].value[key])
  }

  lemma FilledStep(before: Properties, after: Properties, given: Files, names: set<string>, f: string)
    requires Filled(before, after, given, names) && f in given
    ensures Filled(before, GetOr(given[f], map[]) + after, given, names + {f})
  {
    var next := GetOr(given[f], map[]) + after;
    forall key | key in next && key !in before
      ensures exists g :: g in names + {f} && Provides(given, g, key) && next[key] == given[g].value[key]
    {
      if key in after {
        var g :| g in names && Provides(given, g, key) && after[key] == given[g].value[key];
        assert g in names + {f};
      } else {
        assert f in names + {f} && Provides(given, f, key);
      }
    }
  }

  lemma FilledAlone(before: Properties, after: Properties, given: Files, names: set<string>, f: string)
    requires Filled(before, after, given, names)
    requires names == if f in given then {f} else {}
    ensures after == (if f in given then GetOr(given[f], map[]) else map[]) + before
  {
    assert f in given && given[f].Some? ==> forall key | key in given[f].value :: Provides(given, f, key);
  }

  /** A map held under two files with defaults for different keys gets both. */
  lemma FilledPair(before: Properties, after: Properties, given: Files, f: string, g: string)
    requires Filled(before, after, given, {f, g})
    requires f in given && g in given && given[f].Some? && given[g].Some?
    requires given[f].value.Keys !! given[g].value.Keys
    ensures after == given[f].value + given[g].value + before
  {
    forall key: string
      ensures SameAt(after, given[f].value + given[g].value + before, key)
    {
      FilledPairAt(before, after, given, f, g, key);
    }
    SameEverywhere(after, given[f].value + given[g].value + before);
  }

  predicate SameAt(a: Properties, b: Properties, key: string)
  {
    if key in a then key in b && a[key] == b[key] else key !in b
  }

  lemma SameEverywhere(a: Properties, b: Properties)
    requires forall key: string :: SameAt(a, b, key)
    ensures a == b
  {
    assert forall key | key in a :: SameAt(a, b, key);
    assert forall key | key in b :: SameAt(a, b, key);
  }

  lemma FilledPairAt(before: Properties, after: Properties, given: Files, f: string, g: string, key: string)
    requires Filled(before, after, given, {f, g})
    requires f in given && g in given && given[f].Some? && given[g].Some?
    requires given[f].value.Keys !! given[g].value.Keys
    ensures SameAt(after, given[f].value + given[g].value + before, key)
  {
    if key !in before {
      if key in after {
        var h :| h in {f, g} && Provides(given, h, key) && after[key] == given[h].value[key];
        assert h == f ==> key !in given[g].value.Keys;
      } else {
        assert !Provides(given, f, key) && !Provides(given, g, key);
      }
    }
  }

  /** The files in `done` that are held in the map `p`. */
  function Uses(m: map<string, StringMap?>, done: set<string>, p: StringMap?): set<string>
  {
    set f | f in m && f in done && m[f] == p
  }

  lemma FilledNext(m: map<string, StringMap?>, before: Properties, after: Properties, given: Files,
                   done: set<string>, f: string, p: StringMap)
    requires Filled(before, after, given, Uses(m, done, p)) && f in given
    ensures Filled(before, if f in m && m[f] == p then GetOr(given[f], map[]) + after else after, given,
                   Uses(m, done + {f}, p))
  {
    if f in m && m[f] == p {
      FilledStep(before, after, given, Uses(m, done, p), f);
      assert Uses(m, done + {f}, p) == Uses(m, done, p) + {f};
    } else {
      assert Uses(m, done + {f}, p) == Uses(m, done, p);
    }
  }

  function Restrict<V>(m: map<string, V>, keys: set<string>): map<string, V>
  {
    map f | f in m && f in keys :: m[f]
  }

  ghost function Contents(m: map<string, StringMap?>): map<StringMap?, Properties>
    reads m.Values
  {
    map p | p in m.Values && p != null :: p.m
  }

  /** Every user map is filled from the defaults in `done` of the files it is held under. */
  ghost predicate AllFilled(m: map<string, StringMap?>, before: map<StringMap?, Properties>, given: Files,
                            done: set<string>)
    reads m.Values
  {
    forall p | p in m.Values && p != null :: p in before && Filled(before[p], p.m, given, Uses(m, done, p))
  }

  lemma NothingFilled(m: map<string, StringMap?>, given: Files)
    ensures AllFilled(m, Contents(m), given, {})
  {
    assert forall p | p in m.Values && p != null :: Uses(m, {}, p) == {};
  }

  /** The state once the defaults in `done` are merged into a user map `m`. */
  ghost predicate Merged(files: FileMap, m: map<string, StringMap?>, before: map<StringMap?, Properties>,
                         defaults: map<string, StringMap?>, given: Files, done: set<string>)
    reads files, m.Values, defaults.Values
  {
    && files.m == Restrict(defaults, done) + m
    && Values(defaults) == given
    && AllFilled(m, before, given, done)
  }

  method MergeNext(files: FileMap, ghost m: map<string, StringMap?>, ghost before: map<StringMap?, Properties>,
                   defaults: map<string, StringMap?>, ghost given: Files, ghost done: set<string>, f: string)
    returns (outcome: Outcome)
    requires Apart(m, defaults)
    requires Merged(files, m, before, defaults, given, done)
    requires f in defaults && f !in done
    modifies files, m.Values
    ensures outcome.Panicked? <==> f in m && m[f] == null && given[f].Some? && given[f].value != map[]
    ensures outcome.Returned? ==> Merged(files, m, before, defaults, given, done + {f})
    ensures outcome.Panicked? ==> files.m == old(files.m)
    ensures AllFilled(m, before, given, done + {f})
  {
    assert f in files.m <==> f in m;
    outcome := MergeEntry(files, f, defaults[f]);
    assert Values(defaults) == given;
    forall p | p in m.Values && p != null
      ensures p in before && Filled(before[p], p.m, given, Uses(m, done + {f}, p))
    {
      assert p.m == if f in m && m[f] == p then GetOr(given[f], map[]) + old(p.m) else old(p.m);
      FilledNext(m, before[p], old(p.m), given, done, f, p);
    }
    assert Restrict(defaults, done + {f}) + m
        == if f in m then Restrict(defaults, done) + m else (Restrict(defaults, done) + m)[f := defaults[f]];
  }

  /** Nothing is removed or replaced, and what is added are default maps. */
  predicate Extends(before: map<string, StringMap?>, after: map<string, StringMap?>, defaults: map<string, StringMap?>)
  {
    && (forall f | f in before :: f in after && after[f] == before[f])
    && (forall f | f in after && f !in before :: f in defaults && after[f] == defaults[f])
  }

  /** The outer loop, in any order and however the user's files share maps. */
  method MergeEachFile(files: FileMap, defaults: map<string, StringMap?>) returns (outcome: Outcome)
    requires Apart(files.m, defaults)
    modifies files, files.m.Values
    ensures outcome.Panicked? <==> Panics(old(Values(files.m)), old(Values(defaults)))
    ensures GrowsIn(old(Contents(files.m)))
    ensures Extends(old(files.m), files.m, defaults)
    ensures outcome.Returned? ==> files.m == defaults + old(files.m)
    ensures outcome.Returned? ==>
              AllFilled(old(files.m), old(Contents(files.m)), old(Values(defaults)), defaults.Keys)
  {
    ghost var m, user, given, before := files.m, Values(files.m), Values(defaults), Contents(files.m);
    var todo := defaults.Keys;
    ghost var done := {};
    NothingFilled(m, given);
    while todo != {}
      invariant done == defaults.Keys - todo && todo <= defaults.Keys
      invariant Merged(files, m, before, defaults, given, done)
      invariant forall f | f in done :: !NilWrite(user, given, f)
    {
      var f :| f in todo;
      outcome := MergeNext(files, m, before, defaults, given, done, f);
      if outcome.Panicked? {
        assert NilWrite(user, given, f);
        return;
      }
      done := done + {f};
      todo := todo - {f};
    }
    assert done == defaults.Keys && Restrict(defaults, done) == defaults;
    return Returned;
  }

  /** Every key of every default file is there already. */
  ghost predicate FilesAbsorbed(m: map<string, StringMap?>, given: Files)
    reads m.Values
  {
    && (forall f | f in given :: f in m)
    && (forall f, key | f in m && Provides(given, f, key) :: m[f] != null && key in m[f].m)
  }

  /** `user` and `before` are what the maps in `m` hold. */
  ghost predicate Snapshot(m: map<string, StringMap?>, before: map<StringMap?, Properties>, user: Files)
  {
    && user.Keys == m.Keys
    && forall f | f in m ::
         if m[f] == null then user[f] == None else m[f] in before && user[f] == Some(before[m[f]])
  }

  /** The default maps that were installed for missing files hold the defaults. */
  ghost predicate Installed(m: map<string, StringMap?>, files: map<string, StringMap?>, given: Files)
    reads files.Values
  {
    files.Keys == given.Keys && forall f | f in files && f !in m :: MapValue(files[f]) == given[f]
  }

  lemma FilledAbsorbs(m: map<string, StringMap?>, before: map<StringMap?, Properties>, user: Files,
                      defaults: map<string, StringMap?>, given: Files)
    requires Installed(m, defaults, given) && Snapshot(m, before, user) && !Panics(user, given)
    requires AllFilled(m, before, given, defaults.Keys)
    ensures FilesAbsorbed(defaults + m, given)
  {
    forall f, key | f in defaults + m && Provides(given, f, key)
      ensures (defaults + m)[f] != null && key in (defaults + m)[f].m
    {
      if f in m {
        assert !NilWrite(user, given, f);
        assert m[f] in m.Values && f in Uses(m, defaults.Keys, m[f]);
      } else {
        assert MapValue(defaults[f]) == given[f];
      }
    }
  }

  /** `FilesAbsorbed`, of contents that may have changed since. */
  predicate WasAbsorbed(m: map<string, StringMap?>, before: map<StringMap?, Properties>, given: Files)
  {
    && (forall f | f in given :: f in m)
    && (forall f | f in m && f in given && given[f].Some? && given[f].value != map[] ::
          m[f] != null && m[f] in before && given[f].value.Keys <= before[m[f]].Keys)
  }

  lemma AbsorbedWas(m: map<string, StringMap?>, given: Files)
    requires FilesAbsorbed(m, given)
    ensures WasAbsorbed(m, Contents(m), given)
  {
    forall f | f in m && f in given && given[f].Some? && given[f].value != map[]
      ensures m[f] != null && m[f] in Contents(m) && given[f].value.Keys <= Contents(m)[m[f]].Keys
    {
      var some :| some in given[f].value;
      assert Provides(given, f, some);
      assert forall key | key in given[f].value :: Provides(given, f, key);
    }
  }

  /** Filling adds nothing to maps that have every default key, and cannot panic. */
  lemma AbsorbedStays(m: map<string, StringMap?>, before: map<StringMap?, Properties>, given: Files)
    requires WasAbsorbed(m, before, given) && AllFilled(m, before, given, given.Keys)
    ensures forall p | p in m.Values && p != null :: p.m == before[p]
  {
    forall p | p in m.Values && p != null
      ensures p.m == before[p]
    {
      assert forall key | key in p.m :: key in before[p];
    }
  }

  lemma AbsorbedDoesNotPanic(m: map<string, StringMap?>, before: map<StringMap?, Properties>, user: Files, given: Files)
    requires Snapshot(m, before, user) && WasAbsorbed(m, before, given)
    ensures !Panics(user, given)
  {
  }

  /**
   The files of `mergeOverrides`, in any order and however the user's files share maps. Files that
   share no map get exactly the user-biased union.
   */
  method MergeFiles(files: FileMap, defaults: map<string, StringMap?>) returns (outcome: Outcome)
    requires Apart(files.m, defaults)
    modifies files, files.m.Values
    ensures outcome.Panicked? <==> Panics(old(Values(files.m)), old(Values(defaults)))
    ensures GrowsIn(old(Contents(files.m)))
    ensures Extends(old(files.m), files.m, defaults)
    ensures outcome.Returned? ==> files.m == defaults + old(files.m)
    ensures outcome.Returned? ==>
              AllFilled(old(files.m), old(Contents(files.m)), old(Values(defaults)), defaults.Keys)
    ensures outcome.Returned? && Separate(old(files.m)) ==>
              Values(files.m) == MergedFiles(old(Values(files.m)), old(Values(defaults)))
  {
    ghost var m, user, given, before := files.m, Values(files.m), Values(defaults), Contents(files.m);
    outcome := MergeEachFile(files, defaults);
    if outcome.Returned? && Separate(m) {
      SeparateFilesMerged(m, before, user, defaults, given);
    }
  }

  /** Without sharing, filling is the user-biased union. */
  lemma SeparateFilesMerged(m: map<string, StringMap?>, before: map<StringMap?, Properties>, user: Files,
                            defaults: map<string, StringMap?>, given: Files)
    requires Separate(m) && Installed(m, defaults, given) && Snapshot(m, before, user)
    requires AllFilled(m, before, given, defaults.Keys)
    ensures Values(defaults + m) == MergedFiles(user, given)
  {
    assert defaults.Keys == given.Keys;
    forall f | f in m && m[f] != null
      ensures MapValue(m[f]) == MergedFiles(user, given)[f]
    {
      assert m[f] in m.Values;
      SeparateFileMerged(m, before[m[f]], m[f].m, given, f);
    }
  }

  lemma SeparateFileMerged(m: map<string, StringMap?>, before: Properties, after: Properties, given: Files, f: string)
    requires Separate(m) && f in m && m[f] != null
    requires Filled(before, after, given, Uses(m, given.Keys, m[f]))
    ensures Some(after) == if f in given then MergedFile(Some(before), given[f]) else Some(before)
  {
    assert Uses(m, given.Keys, m[f]) == if f in given then {f} else {};
    FilledAlone(before, after, given, Uses(m, given.Keys, m[f]), f);
    assert map[] + before == before;
  }

  // ---------- the whole merge ----------

  /** What an `OverrideConfiguration` computes; `Err` leaves that part of the overrides alone. */
  datatype DefaultOverrides = DefaultOverrides(
    cli: Result<seq<string>>,
    env: Result<Properties>,
    files: Result<map<string, StringMap?>>)

  /** The same with file contents instead of map objects; `None` for an error. */
  datatype DefaultValues = DefaultValues(cli: Option<seq<string>>, env: Option<Properties>, files: Option<Files>)

  ghost function ValuesOf(d: DefaultOverrides): DefaultValues
    reads if d.files.Ok? then d.files.value.Values else {}
  {
    DefaultValues(if d.cli.Ok? then Some(d.cli.value) else None,
                  if d.env.Ok? then Some(d.env.value) else None,
                  if d.files.Ok? then Some(Values(d.files.value)) else None)
  }

  function GetOr<T>(o: Option<T>, fallback: T): T
  {
    if o.Some? then o.value else fallback
  }

  function MergedOverrides(user: Overrides, d: DefaultValues): Overrides
  {
    Overrides(Some(MergedCli(GetOr(user.cli, []), GetOr(d.cli, []))),
              Some(GetOr(d.env, map[]) + GetOr(user.env, map[])),
              Some(MergedFiles(GetOr(user.files, map[]), GetOr(d.files, map[]))))
  }

  ghost predicate OverridesPanic(user: Overrides, d: DefaultValues)
  {
    Panics(GetOr(user.files, map[]), GetOr(d.files, map[]))
  }

  /** Merging the same defaults again changes nothing and does not panic. */
  lemma MergedOverridesIdempotent(user: Overrides, d: DefaultValues)
    requires !OverridesPanic(user, d)
    ensures MergedOverrides(MergedOverrides(user, d), d) == MergedOverrides(user, d)
    ensures !OverridesPanic(MergedOverrides(user, d), d)
  {
    MergedCliIdempotent(GetOr(user.cli, []), GetOr(d.cli, []), GetOr(d.cli, []));
    MergedFilesIdempotent(GetOr(user.files, map[]), GetOr(d.files, map[]));
    var defaults, env := GetOr(d.env, map[]), GetOr(user.env, map[]);
    assert defaults + (defaults + env) == defaults + env;
  }

  function DefaultFileMaps(d: DefaultOverrides): map<string, StringMap?>
  {
    if d.files.Ok? then d.files.value else map[]
  }

  /** The map objects of the user's files. */
  ghost function FileMaps(user: OverridesSpec): map<string, StringMap?>
    reads user, user.configOverrides
  {
    if user.configOverrides == null then map[] else user.configOverrides.m
  }

  /** None of the default maps is one of the user's. */
  ghost predicate Foreign(user: OverridesSpec, d: DefaultOverrides)
    reads user, user.configOverrides
  {
    && Apart(FileMaps(user), DefaultFileMaps(d))
    && (user.envOverrides != null ==> user.envOverrides !in DefaultFileMaps(d).Values)
  }

  /** The environment is a map of its own. */
  ghost predicate OwnEnv(user: OverridesSpec)
    reads user, user.configOverrides
  {
    user.envOverrides != null ==> user.envOverrides !in FileMaps(user).Values
  }

  /** No map object is used twice in a user's overrides. */
  ghost predicate OwnMaps(user: OverridesSpec)
    reads user, user.configOverrides
  {
    Separate(FileMaps(user)) && OwnEnv(user)
  }

  /** "Initialize all required maps". */
  method InitializeMaps(user: OverridesSpec)
    modifies user
    ensures user.cliOverrides == Some(GetOr(old(user.cliOverrides), []))
    ensures user.envOverrides != null && user.envOverrides.m == GetOr(old(MapValue(user.envOverrides)), map[])
    ensures if old(user.envOverrides) == null then fresh(user.envOverrides)
              else user.envOverrides == old(user.envOverrides)
    ensures user.configOverrides != null && user.configOverrides.m == old(FileMaps(user))
    ensures if old(user.configOverrides) == null then fresh(user.configOverrides)
              else user.configOverrides == old(user.configOverrides)
  {
    if user.cliOverrides.None? {
      user.cliOverrides := Some([]);
    }
    if user.envOverrides == null {
      user.envOverrides := new StringMap(map[]);
    }
    if user.configOverrides == null {
      user.configOverrides := new FileMap(map[]);
    }
  }

  method MergeCliAndEnv(user: OverridesSpec, d: DefaultOverrides)
    requires user.cliOverrides.Some? && user.envOverrides != null
    modifies user`cliOverrides, if d.env.Ok? then {user.envOverrides} else {}
    ensures user.cliOverrides == Some(MergedCli(old(user.cliOverrides.value), if d.cli.Ok? then d.cli.value else []))
    ensures user.envOverrides.m == (if d.env.Ok? then d.env.value else map[]) + old(user.envOverrides.m)
  {
    if d.cli.Ok? {
      var cli := MergeCli(user.cliOverrides.value, d.cli.value);
      user.cliOverrides := Some(cli);
    }
    if d.env.Ok? {
      var _ := FillMap(user.envOverrides, d.env.value);
    }
  }

  /** Every default is there already, in all three parts. */
  ghost predicate Absorbed(user: OverridesSpec, d: DefaultValues)
    reads user, user.envOverrides, user.configOverrides, FileMaps(user).Values
  {
    && CliAndEnvAbsorbed(user, d)
    && user.configOverrides != null && FilesAbsorbed(FileMaps(user), GetOr(d.files, map[]))
  }

  ghost predicate CliAndEnvAbsorbed(user: OverridesSpec, d: DefaultValues)
    reads user, user.envOverrides
  {
    && user.cliOverrides.Some? && (forall arg | arg in GetOr(d.cli, []) :: arg in user.cliOverrides.value)
    && user.envOverrides != null && (forall key | key in GetOr(d.env, map[]) :: key in user.envOverrides.m)
  }

  lemma {:induction false} MergedCliAbsorbed(user: seq<string>, defaults: seq<string>)
    requires forall arg | arg in defaults :: arg in user
    ensures MergedCli(user, defaults) == user
  {
    if defaults != [] {
      assert defaults[|defaults| - 1] in defaults;
      MergedCliAbsorbed(user, defaults[..|defaults| - 1]);
    }
  }

  method MergeFileOverrides(user: OverridesSpec, d: DefaultOverrides) returns (outcome: Outcome)
    requires user.configOverrides != null && Apart(FileMaps(user), DefaultFileMaps(d))
    modifies user.configOverrides, user.configOverrides.m.Values
    ensures outcome.Panicked? <==> Panics(old(Values(FileMaps(user))), old(Values(DefaultFileMaps(d))))
    ensures GrowsIn(old(Contents(FileMaps(user))))
    ensures Extends(old(FileMaps(user)), FileMaps(user), DefaultFileMaps(d))
    ensures outcome.Returned? ==> FileMaps(user) == DefaultFileMaps(d) + old(FileMaps(user))
    ensures outcome.Returned? ==>
              AllFilled(old(FileMaps(user)), old(Contents(FileMaps(user))), old(Values(DefaultFileMaps(d))),
                        DefaultFileMaps(d).Keys)
    ensures outcome.Returned? && Separate(old(FileMaps(user))) ==>
              Values(FileMaps(user)) == MergedFiles(old(Values(FileMaps(user))), old(Values(DefaultFileMaps(d))))
  {
    outcome := Returned;
    if d.files.Ok? {
      outcome := MergeFiles(user.configOverrides, d.files.value);
    } else {
      NothingFilled(FileMaps(user), map[]);
    }
  }

  /** The merge once all maps exist. */
  method MergeInitialized(user: OverridesSpec, d: DefaultOverrides) returns (outcome: Outcome)
    requires user.cliOverrides.Some? && user.envOverrides != null && user.configOverrides != null
    requires Foreign(user, d)
    modifies user, user.envOverrides, user.configOverrides, user.configOverrides.m.Values
    ensures user.configOverrides == old(user.configOverrides) && user.envOverrides == old(user.envOverrides)
    ensures user.cliOverrides == Some(MergedCli(old(user.cliOverrides.value), GetOr(old(ValuesOf(d)).cli, [])))
    ensures old(OwnEnv(user)) ==>
              user.envOverrides.m == GetOr(old(ValuesOf(d)).env, map[]) + old(user.envOverrides.m)
    ensures outcome.Panicked? <==> Panics(old(Values(FileMaps(user))), old(Values(DefaultFileMaps(d))))
    ensures GrowsIn(old(Contents(FileMaps(user))))
    ensures Extends(old(FileMaps(user)), FileMaps(user), DefaultFileMaps(d))
    ensures outcome.Returned? ==> FileMaps(user) == DefaultFileMaps(d) + old(FileMaps(user))
    ensures outcome.Returned? && (d.env.Err? || old(OwnEnv(user))) ==>
              AllFilled(old(FileMaps(user)), old(Contents(FileMaps(user))), old(Values(DefaultFileMaps(d))),
                        DefaultFileMaps(d).Keys)
    ensures outcome.Returned? && old(OwnMaps(user)) ==>
              OverridesValue(user) == Some(MergedOverrides(old(OverridesValue(user).value), old(ValuesOf(d))))
  {
    ghost var m, values := FileMaps(user), Values(FileMaps(user));
    MergeBesideFiles(user, d);
    ghost var middle, env := Contents(m), user.envOverrides.m;
    PanicsByNil(m, values, Values(m), Values(DefaultFileMaps(d)));
    outcome := MergeFileOverrides(user, d);
    assert forall p | p in m.Values && p != null :: Grows(middle[p], p.m);
    if old(OwnEnv(user)) {
      assert user.envOverrides.m == env;
    }
  }

  /** Whether the merge panics depends only on which maps are nil. */
  lemma PanicsByNil(m: map<string, StringMap?>, user: Files, user': Files, defaults: Files)
    requires user.Keys == user'.Keys == m.Keys
    requires forall f | f in m :: (user[f].None? <==> m[f] == null) && (user'[f].None? <==> m[f] == null)
    ensures Panics(user, defaults) <==> Panics(user', defaults)
  {
    assert forall f | f in m :: NilWrite(user, defaults, f) <==> NilWrite(user', defaults, f);
  }

  /** `MergeCliAndEnv` and what the user's files see of it: nothing, unless one of them is the environment. */
  method MergeBesideFiles(user: OverridesSpec, d: DefaultOverrides)
    requires user.cliOverrides.Some? && user.envOverrides != null && Foreign(user, d)
    modifies user`cliOverrides, user.envOverrides
    ensures user.cliOverrides == Some(MergedCli(old(user.cliOverrides.value), if d.cli.Ok? then d.cli.value else []))
    ensures user.envOverrides.m == (if d.env.Ok? then d.env.value else map[]) + old(user.envOverrides.m)
    ensures Values(DefaultFileMaps(d)) == old(Values(DefaultFileMaps(d)))
    ensures GrowsIn(old(Contents(FileMaps(user))))
    ensures d.env.Err? || OwnEnv(user) ==>
              && Contents(FileMaps(user)) == old(Contents(FileMaps(user)))
              && Values(FileMaps(user)) == old(Values(FileMaps(user)))
  {
    MergeCliAndEnv(user, d);
  }

  /** What `mergeOverrides` does to a given object. */
  method MergeGiven(user: OverridesSpec, d: DefaultOverrides) returns (outcome: Outcome)
    requires Foreign(user, d)
    modifies OverridesRepr(user)
    ensures outcome.Panicked? <==> OverridesPanic(old(OverridesValue(user).value), old(ValuesOf(d)))
    ensures user.cliOverrides == Some(MergedCli(GetOr(old(user.cliOverrides), []), GetOr(old(ValuesOf(d)).cli, [])))
    ensures KeptOrNew(old(user.envOverrides), user.envOverrides)
    ensures old(OwnEnv(user)) ==>
              user.envOverrides.m == GetOr(old(ValuesOf(d)).env, map[]) + GetOr(old(MapValue(user.envOverrides)), map[])
    ensures KeptOrNew(old(user.configOverrides), user.configOverrides)
    ensures GrowsIn(old(Contents(FileMaps(user))))
    ensures Extends(old(FileMaps(user)), FileMaps(user), DefaultFileMaps(d))
    ensures outcome.Returned? ==> FileMaps(user) == DefaultFileMaps(d) + old(FileMaps(user))
    ensures outcome.Returned? && (d.env.Err? || old(OwnEnv(user))) ==>
              AllFilled(old(FileMaps(user)), old(Contents(FileMaps(user))), old(Values(DefaultFileMaps(d))),
                        DefaultFileMaps(d).Keys)
    ensures outcome.Returned? && old(OwnMaps(user)) ==>
              OverridesValue(user) == Some(MergedOverrides(old(OverridesValue(user).value), old(ValuesOf(d))))
  {
    ghost var value, defaults, m := OverridesValue(user).value, ValuesOf(d), FileMaps(user);
    InitializeMaps(user);
    assert ValuesOf(d) == defaults && Values(DefaultFileMaps(d)) == GetOr(defaults.files, map[]);
    assert FileMaps(user) == m && Values(m) == old(Values(m)) == GetOr(value.files, map[]);
    assert Contents(m) == old(Contents(m));
    assert old(OwnEnv(user)) ==> OwnEnv(user);
    ghost var filled := OverridesValue(user).value;
    assert GetOr(filled.cli, []) == GetOr(value.cli, []) && GetOr(filled.env, map[]) == GetOr(value.env, map[])
        && GetOr(filled.files, map[]) == GetOr(value.files, map[]);
    outcome := MergeInitialized(user, d);
  }

  /** A pointer is kept, or was nil and points at a new object. */
  twostate predicate KeptOrNew(new was: object?, new now: object?)
  {
    if was == null then now != null && fresh(now) else now == was
  }

  /**
   `mergeOverrides`. A nil argument is replaced by a local object, so the caller sees nothing.
   Otherwise the merge panics exactly when a default must be written into a nil file map. Whatever
   maps the user's files share, no user entry is lost, each map is filled from the defaults of the
   files it is held under, and the default maps are installed for missing files. If no map is used
   twice, the user's object denotes the user-biased union.
   */
  method MergeOverrides(user: OverridesSpec?, d: DefaultOverrides) returns (outcome: Outcome)
    requires user != null ==> Foreign(user, d)
    modifies OverridesRepr(user)
    ensures user == null ==> outcome.Returned?
    ensures user != null ==>
              && (outcome.Panicked? <==> OverridesPanic(old(OverridesValue(user).value), old(ValuesOf(d))))
              && user.cliOverrides
                 == Some(MergedCli(GetOr(old(user.cliOverrides), []), GetOr(old(ValuesOf(d)).cli, [])))
              && KeptOrNew(old(user.envOverrides), user.envOverrides)
              && (old(OwnEnv(user)) ==>
                    user.envOverrides.m
                    == GetOr(old(ValuesOf(d)).env, map[]) + GetOr(old(MapValue(user.envOverrides)), map[]))
              && KeptOrNew(old(user.configOverrides), user.configOverrides)
              && GrowsIn(old(Contents(FileMaps(user))))
              && Extends(old(FileMaps(user)), FileMaps(user), DefaultFileMaps(d))
    ensures user != null && outcome.Returned? ==> FileMaps(user) == DefaultFileMaps(d) + old(FileMaps(user))
    ensures user != null && outcome.Returned? && (d.env.Err? || old(OwnEnv(user))) ==>
              AllFilled(old(FileMaps(user)), old(Contents(FileMaps(user))), old(Values(DefaultFileMaps(d))),
                        DefaultFileMaps(d).Keys)
    ensures user != null && outcome.Returned? && old(OwnMaps(user)) ==>
              OverridesValue(user) == Some(MergedOverrides(old(OverridesValue(user).value), old(ValuesOf(d))))
  {
    var target := user;
    if target == null {
      target := new OverridesSpec(None, null, null);
    }
    outcome := MergeGiven(target, d);
  }

  // ---------- one merge seen from outside ----------

  /** Overrides at one moment: what they denote and which map objects they hold. */
  datatype Moment = Moment(value: Overrides, env: StringMap?, maps: map<string, StringMap?>,
                           contents: map<StringMap?, Properties>)
  {
    ghost predicate Consistent()
    {
      && Snapshot(maps, contents, GetOr(value.files, map[]))
      && (env == null ==> value.env.None?)
      && (env != null && env in maps.Values ==> env in contents && value.env == Some(contents[env]))
    }
  }

  ghost function Now(o: OverridesSpec): (t: Moment)
    reads OverridesRepr(o)
    ensures t.Consistent()
  {
    Moment(OverridesValue(o).value, o.envOverrides, FileMaps(o), Contents(FileMaps(o)))
  }

  /**
   The overrides are merged since `was`, by installing `files` and filling maps from `given`,
   however maps are shared. This says what every part holds, unless a map is used for several.
   */
  ghost predicate MergedSince(o: OverridesSpec, was: Moment, files: map<string, StringMap?>, given: DefaultValues)
    reads o, o.envOverrides, o.configOverrides, was.maps.Values, files.Values
  {
    && o.configOverrides != null && FileMaps(o) == files + was.maps && Apart(was.maps, files)
    && Installed(was.maps, files, GetOr(given.files, map[]))
    && AllFilled(was.maps, was.contents, GetOr(given.files, map[]), files.Keys)
    && o.cliOverrides == Some(MergedCli(GetOr(was.value.cli, []), GetOr(given.cli, [])))
    && o.envOverrides != null && (was.env != null ==> o.envOverrides == was.env)
    && (o.envOverrides !in was.maps.Values ==>
          o.envOverrides.m == GetOr(given.env, map[]) + GetOr(was.value.env, map[]))
  }

  /** `MergeOverrides` for defaults that leave a shared environment alone, as those of `KafkaConfig` do. */
  method MergeAndNote(o: OverridesSpec, d: DefaultOverrides) returns (outcome: Outcome)
    requires Foreign(o, d) && (d.env.Err? || OwnEnv(o))
    modifies OverridesRepr(o)
    ensures outcome.Panicked? <==> OverridesPanic(old(OverridesValue(o).value), old(ValuesOf(d)))
    ensures KeptOrNew(old(o.envOverrides), o.envOverrides) && KeptOrNew(old(o.configOverrides), o.configOverrides)
    ensures Extends(old(FileMaps(o)), FileMaps(o), DefaultFileMaps(d))
    ensures outcome.Returned? ==> MergedSince(o, old(Now(o)), DefaultFileMaps(d), old(ValuesOf(d)))
  {
    outcome := MergeOverrides(o, d);
  }

  /** Without sharing, the overrides denote the user-biased union. */
  lemma MergedExactly(o: OverridesSpec, was: Moment, files: map<string, StringMap?>, given: DefaultValues)
    requires MergedSince(o, was, files, given) && was.Consistent()
    requires Separate(was.maps) && o.envOverrides !in was.maps.Values
    ensures OverridesValue(o) == Some(MergedOverrides(was.value, given))
  {
    SeparateFilesMerged(was.maps, was.contents, GetOr(was.value.files, map[]), files, GetOr(given.files, map[]));
  }

  // ---------- merging again ----------

  /** A merge that returned leaves every default in place. */
  lemma MergedAbsorbs(o: OverridesSpec, was: Moment, files: map<string, StringMap?>, given: DefaultValues)
    requires MergedSince(o, was, files, given) && was.Consistent() && !OverridesPanic(was.value, given)
    requires given.env.None? || o.envOverrides !in was.maps.Values
    ensures Absorbed(o, given)
  {
    FilledAbsorbs(was.maps, was.contents, GetOr(was.value.files, map[]), files, GetOr(given.files, map[]));
    MergedCliExact(GetOr(was.value.cli, []), GetOr(given.cli, []));
  }

  /** Everything of `given` was in place at `was`. */
  ghost predicate AbsorbedAt(was: Moment, given: DefaultValues)
  {
    && WasAbsorbed(was.maps, was.contents, GetOr(given.files, map[]))
    && was.value.files.Some?
    && was.value.cli.Some? && (forall arg | arg in GetOr(given.cli, []) :: arg in was.value.cli.value)
    && was.env != null && was.value.env.Some? && GetOr(given.env, map[]).Keys <= was.value.env.value.Keys
  }

  /** Where every default is in place, a merge cannot panic. */
  lemma AbsorbedReturns(o: OverridesSpec, given: DefaultValues)
    requires Absorbed(o, given)
    ensures !OverridesPanic(OverridesValue(o).value, given) && AbsorbedAt(Now(o), given)
  {
    AbsorbedWas(FileMaps(o), GetOr(given.files, map[]));
    AbsorbedDoesNotPanic(FileMaps(o), Contents(FileMaps(o)), Values(FileMaps(o)), GetOr(given.files, map[]));
  }

  /** A merge into overrides that had every default changes nothing, however maps are shared. */
  lemma AbsorbedUnchanged(o: OverridesSpec, was: Moment, files: map<string, StringMap?>, given: DefaultValues)
    requires MergedSince(o, was, files, given) && was.Consistent() && AbsorbedAt(was, given)
    ensures FileMaps(o) == was.maps && o.envOverrides == was.env && OverridesValue(o) == Some(was.value)
    ensures forall p | p in was.maps.Values && p != null :: p.m == was.contents[p]
  {
    AbsorbedStays(was.maps, was.contents, GetOr(given.files, map[]));
    MergedCliAbsorbed(was.value.cli.value, GetOr(given.cli, []));
    assert files + was.maps == was.maps;
    assert Values(was.maps) == GetOr(was.value.files, map[]);
    assert GetOr(given.env, map[]) + was.value.env.value == was.value.env.value;
  }

  lemma SameMoment(o: OverridesSpec, was: Moment)
    requires FileMaps(o) == was.maps && o.envOverrides == was.env && OverridesValue(o) == Some(was.value)
    requires was.contents.Keys == (set p | p in was.maps.Values && p != null)
    requires forall p | p in was.maps.Values && p != null :: p.m == was.contents[p]
    ensures Now(o) == was
  {
    assert Contents(FileMaps(o)) == was.contents;
  }
}
