/**
 The secret-volume builder (internal/util/secret_volume.go) as a small state machine over annotation
 maps that it shares with its callers.
 */
module SecretVolume {
  import opened Wrappers

  /** The annotation names of operator-go that are used here; they are pairwise different. */
  datatype AnnotationKey =
    | SecretsClass | SecretsScope | SecretsFormat
    | SecretsPkcs12Password | SecretCertLifeTime | SecretsKerberosServiceNames

  type Annotations = map<AnnotationKey, string>

  class AnnotationMap {
    var m: Annotations

    constructor (m: Annotations)
      ensures this.m == m
    {
      this.m := m;
    }
  }

  ghost function Content(a: AnnotationMap?): Option<Annotations>
    reads a
  {
    if a == null then None else Some(a.m)
  }

  class SecretVolumeBuilder {
    var volumeName: string
    var annotations: AnnotationMap?

    constructor (volumeName: string)
      ensures this.volumeName == volumeName && annotations == null
    {
      this.volumeName, annotations := volumeName, null;
    }

    /** Writes into the map in place, also when the caller of `SetAnnotations` still holds it. */
    method AddAnnotation(key: AnnotationKey, value: string)
      modifies this`annotations, annotations
      ensures annotations != null
      ensures if old(annotations) == null then fresh(annotations) else annotations == old(annotations)
      ensures annotations.m == (if old(annotations) == null then map[] else old(annotations.m))[key := value]
    {
      if annotations == null {
        annotations := new AnnotationMap(map[]);
      }
      annotations.m := annotations.m[key := value];
    }

    /** Replaces the map: earlier additions are lost. */
    method SetAnnotations(annotations: AnnotationMap?)
      modifies this`annotations
      ensures this.annotations == annotations
    {
      this.annotations := annotations;
    }

    method Build() returns (annotations: Option<Annotations>)
      ensures annotations == Content(this.annotations)
    {
      return if this.annotations == null then None else Some(this.annotations.m);
    }
  }

  // ---------- whole runs ----------

  /** A call on a builder; a replacement passes a map object, which may be passed again later. */
  datatype Step = Add(key: AnnotationKey, value: string) | Set(annotations: AnnotationMap?)

  /** The map given to the builder last; null if it holds none but its own. */
  function Held(start: AnnotationMap?, steps: seq<Step>): AnnotationMap?
  {
    if steps == [] then start
    else
      var last := steps[|steps| - 1];
      if last.Set? then last.annotations else Held(start, steps[..|steps| - 1])
  }

  /** What the map `p` holds after a run: the additions made while it was given, over `content`. */
  function Overlaid(start: AnnotationMap?, steps: seq<Step>, p: AnnotationMap, content: Annotations): Annotations
  {
    if steps == [] then content
    else
      var earlier, last := steps[..|steps| - 1], steps[|steps| - 1];
      var before := Overlaid(start, earlier, p, content);
      if last.Add? && Held(start, earlier) == p then before[last.key := last.value] else before
  }

  /** What the builder's own map holds after a run; a replacement drops it. */
  function Own(start: AnnotationMap?, steps: seq<Step>): Option<Annotations>
  {
    if steps == [] then None
    else
      var earlier, last := steps[..|steps| - 1], steps[|steps| - 1];
      var before := Own(start, earlier);
      if last.Set? then None
      else if Held(start, earlier) == null then
        Some((if before.None? then map[] else before.value)[last.key := last.value])
      else before
  }

  /** The value last added for `key` while `p` was given. */
  function LastAdded(start: AnnotationMap?, steps: seq<Step>, p: AnnotationMap, key: AnnotationKey): Option<string>
  {
    if steps == [] then None
    else
      var earlier, last := steps[..|steps| - 1], steps[|steps| - 1];
      if last.Add? && last.key == key && Held(start, earlier) == p then Some(last.value)
      else LastAdded(start, earlier, p, key)
  }

  /** Each key of a map holds the last addition made while it was given, else what was there. */
  lemma {:induction false} AdditionsOverlay(start: AnnotationMap?, steps: seq<Step>, p: AnnotationMap,
                                            content: Annotations, key: AnnotationKey)
    ensures var r, added := Overlaid(start, steps, p, content), LastAdded(start, steps, p, key);
            && (key in r <==> added.Some? || key in content)
            && (added.Some? ==> r[key] == added.value)
            && (added.None? && key in content ==> r[key] == content[key])
  {
    if steps != [] {
      AdditionsOverlay(start, steps[..|steps| - 1], p, content, key);
    }
  }

  /** The additions at the end of a run, since the last replacement. */
  function Recent(steps: seq<Step>): seq<Step>
  {
    if steps == [] || steps[|steps| - 1].Set? then [] else Recent(steps[..|steps| - 1]) + [steps[|steps| - 1]]
  }

  /** The value last added for `key` in a list of additions. */
  function LastValue(adds: seq<Step>, key: AnnotationKey): Option<string>
  {
    if adds == [] then None
    else
      var last := adds[|adds| - 1];
      if last.Add? && last.key == key then Some(last.value) else LastValue(adds[..|adds| - 1], key)
  }

  /**
   The builder's own map, while no given map is held: there is none iff the run is empty or ends in a
   replacement, and each key holds the last addition since the last replacement.
   */
  lemma {:induction false} OwnHoldsRecent(start: AnnotationMap?, steps: seq<Step>, key: AnnotationKey)
    requires Held(start, steps) == null
    ensures Own(start, steps).None? <==> steps == [] || steps[|steps| - 1].Set?
    ensures var held := if Own(start, steps).None? then map[] else Own(start, steps).value;
            && (key in held <==> LastValue(Recent(steps), key).Some?)
            && (key in held ==> held[key] == LastValue(Recent(steps), key).value)
  {
    if steps != [] && steps[|steps| - 1].Add? {
      var earlier := steps[..|steps| - 1];
      OwnHoldsRecent(start, earlier, key);
      assert Recent(steps)[..|Recent(steps)| - 1] == Recent(earlier);
    }
  }

  /** Nothing added before a map is given for the first time reaches it. */
  lemma {:induction false} SetForgets(start: AnnotationMap?, before: seq<Step>, p: AnnotationMap, after: seq<Step>,
                                      content: Annotations)
    requires start != p && Set(p) !in before
    ensures var run := before + [Set(p)] + after;
            Held(start, run) == Held(p, after) && Overlaid(start, run, p, content) == Overlaid(p, after, p, content)
  {
    var run := before + [Set(p)] + after;
    if after == [] {
      assert run[..|run| - 1] == before;
      NeverHeld(start, before, p, content);
    } else {
      assert run[..|run| - 1] == before + [Set(p)] + after[..|after| - 1];
      SetForgets(start, before, p, after[..|after| - 1], content);
    }
  }

  lemma {:induction false} NeverHeld(start: AnnotationMap?, steps: seq<Step>, p: AnnotationMap, content: Annotations)
    requires start != p && Set(p) !in steps
    ensures Held(start, steps) != p && Overlaid(start, steps, p, content) == content
  {
    if steps != [] {
      assert steps[|steps| - 1] in steps;
      NeverHeld(start, steps[..|steps| - 1], p, content);
    }
  }

  /** The maps a run may write: the one held at the start and those given later. */
  function Given(start: AnnotationMap?, steps: seq<Step>): set<AnnotationMap?>
  {
    {start} + set i | 0 <= i < |steps| && steps[i].Set? :: steps[i].annotations
  }

  lemma {:induction false} HeldIsGiven(start: AnnotationMap?, steps: seq<Step>)
    ensures Held(start, steps) in Given(start, steps)
  {
    if steps != [] {
      HeldIsGiven(start, steps[..|steps| - 1]);
    }
  }

  /** Any sequence of calls on a builder, also with the same map given several times. */
  method Run(b: SecretVolumeBuilder, steps: seq<Step>) returns (built: Option<Annotations>)
    modifies b, Given(b.annotations, steps)
    ensures var start := old(b.annotations);
            var held := Held(start, steps);
            built == if held == null then Own(start, steps) else Some(Overlaid(start, steps, held, old(held.m)))
  {
    ghost var start := b.annotations;
    for i := 0 to |steps|
      invariant forall p | p in Given(start, steps) && p != null :: p.m == Overlaid(start, steps[..i], p, old(p.m))
      invariant Held(start, steps[..i]) != null ==> b.annotations == Held(start, steps[..i])
      invariant Held(start, steps[..i]) == null ==>
                  Content(b.annotations) == Own(start, steps[..i]) && (b.annotations == null || fresh(b.annotations))
    {
      assert steps[..i + 1][..i] == steps[..i];
      HeldIsGiven(start, steps[..i]);
      match steps[i] {
        case Add(key, value) => b.AddAnnotation(key, value);
        case Set(a) => b.SetAnnotations(a);
      }
    }
    assert steps[..|steps|] == steps;
    HeldIsGiven(start, steps);
    built := b.Build();
  }
}
