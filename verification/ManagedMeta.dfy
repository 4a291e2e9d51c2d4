/**
 Three-way merge of labels and annotations with the owned keys tracked in annotations
 (internal/controller/yanet_reconciler.go, mergeManagedMeta and its helpers).
 A nil map and an empty map are one value here, as for the source's semantic equality.
 */
module ManagedMeta {
  import opened Options
  import opened Strings

  type KV = map<string, string>

  const MANAGED_LABELS := "yanet.yanet-platform.io/managed-labels"
  const MANAGED_ANNOTATIONS := "yanet.yanet-platform.io/managed-annotations"
  const TRACKERS: set<string> := {MANAGED_LABELS, MANAGED_ANNOTATIONS}

  datatype Meta = Meta(labels: KV, annotations: KV)

  // ---- The tracking annotation ---------------------------------------------------------------

  function NonEmpty(parts: seq<string>): (r: seq<string>)
    ensures forall p :: p in r <==> p in parts && p != ""
  {
    if parts == [] then []
    else if parts[0] == "" then NonEmpty(parts[1..])
    else [parts[0]] + NonEmpty(parts[1..])
  }

  function ParseManagedKeys(s: string): seq<string> {
    if s == "" then [] else NonEmpty(Split(s))
  }

  /** The keys in increasing order. */
  ghost function Arranged(keys: set<string>): (r: seq<string>)
    ensures Sorted(r) && forall k :: k in r <==> k in keys
  {
    if keys == {} then []
    else
      var k :| k in keys;
      var rest := Arranged(keys - {k});
      InsertKeepsSorted(rest, k);
      InsertSorted(rest, k)
  }

  ghost function Serialized(keys: set<string>): string {
    Join(Arranged(keys))
  }

  /** serializeManagedKeys: the result does not depend on the map's iteration order. */
  method SerializeManagedKeys(m: KV) returns (s: string)
    ensures s == Serialized(m.Keys)
  {
    var keys, remaining := [], m.Keys;
    while remaining != {}
      invariant remaining <= m.Keys && Sorted(keys)
      invariant forall k :: k in keys <==> k in m.Keys - remaining
      decreases |remaining|
    {
      var key :| key in remaining;
      InsertKeepsSorted(keys, key);
      keys := InsertSorted(keys, key);
      remaining := remaining - {key};
    }
    SortedIsUnique(keys, Arranged(m.Keys));
    s := Join(keys);
  }

  ghost function AsSet(keys: seq<string>): set<string> {
    set k | k in keys
  }

  predicate Trackable(key: string) {
    key != "" && ',' !in key
  }

  /** Parsing undoes serializing exactly for non-empty, comma-free keys. */
  lemma ParseUndoesSerialize(keys: set<string>)
    ensures AsSet(ParseManagedKeys(Serialized(keys))) == keys <==> forall k :: k in keys ==> Trackable(k)
  {
    var arranged, text := Arranged(keys), Serialized(keys);
    var parsed := ParseManagedKeys(text);
    assert forall k :: k in parsed ==> Trackable(k);
    if forall k :: k in keys ==> Trackable(k) {
      if arranged == [] {
        assert keys == {};
      } else {
        assert arranged[0] in arranged;
        SplitUndoesJoin(arranged);
        assert Split(text) == arranged;
        assert Split("") == [""];
        assert AsSet(parsed) == keys;
      }
    } else {
      var k :| k in keys && !Trackable(k);
      assert k !in AsSet(parsed);
    }
  }

  // ---- The merge -----------------------------------------------------------------------------

  /** Existing entries without the retracted ones, overridden by the desired entries. */
  function Merged(existing: KV, desired: KV, previous: set<string>): KV {
    (existing - (previous - desired.Keys)) + desired
  }

  /** The first loop of mergeManagedKV: drop what the operator owned and no longer wants. */
  method DropRetracted(existing: KV, desired: KV, previous: seq<string>) returns (out: KV)
    ensures out == existing - (AsSet(previous) - desired.Keys)
  {
    out := existing;
    for i := 0 to |previous|
      invariant forall k :: k in out <==> k in existing && !(k in previous[..i] && k !in desired)
      invariant forall k :: k in out ==> out[k] == existing[k]
    {
      assert previous[..i + 1] == previous[..i] + [previous[i]];
      if previous[i] !in desired {
        out := out - {previous[i]};
      }
    }
    assert previous[..|previous|] == previous;
  }

  /** The second loop: write every desired entry. */
  method Overlay(kept: KV, desired: KV) returns (out: KV)
    ensures out == kept + desired
  {
    out := kept;
    var remaining := desired.Keys;
    while remaining != {}
      invariant remaining <= desired.Keys
      invariant out.Keys == kept.Keys + (desired.Keys - remaining)
      invariant forall k :: k in out ==> out[k] == if k in desired && k !in remaining then desired[k] else kept[k]
      decreases |remaining|
    {
      var key :| key in remaining;
      out := out[key := desired[key]];
      remaining := remaining - {key};
    }
  }

  method MergeManagedKV(existing: KV, desired: KV, previous: seq<string>) returns (out: KV)
    ensures out == Merged(existing, desired, AsSet(previous))
  {
    if |existing| == 0 && |desired| == 0 {
      return map[];
    }
    var kept := DropRetracted(existing, desired, previous);
    out := Overlay(kept, desired);
  }

  /** The value of an annotation, empty when absent. */
  function Lookup(m: KV, key: string): string {
    if key in m then m[key] else ""
  }

  ghost function Tracked(annotations: KV, tracker: string): set<string> {
    AsSet(ParseManagedKeys(Lookup(annotations, tracker)))
  }

  /** The tracker names the desired keys, or is absent when there are none. */
  ghost function WithTracker(annotations: KV, tracker: string, desired: KV): KV {
    Tagged(annotations, tracker, desired != map[], Serialized(desired.Keys))
  }

  function Tagged(annotations: KV, key: string, present: bool, value: string): KV {
    if present then annotations[key := value] else annotations - {key}
  }

  method Track(annotations: KV, tracker: string, desired: KV) returns (out: KV)
    ensures out == WithTracker(annotations, tracker, desired)
  {
    if |desired| > 0 {
      var keys := SerializeManagedKeys(desired);
      out := annotations[tracker := keys];
    } else {
      out := annotations - {tracker};
    }
  }

  ghost function MergedMeta(existing: Meta, desired: Meta): Meta {
    var annotations := Merged(existing.annotations, desired.annotations,
                              Tracked(existing.annotations, MANAGED_ANNOTATIONS));
    Meta(Merged(existing.labels, desired.labels, Tracked(existing.annotations, MANAGED_LABELS)),
         WithTracker(WithTracker(annotations, MANAGED_LABELS, desired.labels), MANAGED_ANNOTATIONS,
                     desired.annotations))
  }

  class ObjectMeta {
    var labels: KV
    var annotations: KV

    function Value(): Meta
      reads this
    {
      Meta(labels, annotations)
    }

    constructor (meta: Meta)
      ensures Value() == meta
    {
      labels, annotations := meta.labels, meta.annotations;
    }

    method MergeManagedMeta(desired: Meta)
      modifies this
      ensures Value() == MergedMeta(old(Value()), desired)
    {
      var previousLabels := ParseManagedKeys(Lookup(annotations, MANAGED_LABELS));
      var previousAnnotations := ParseManagedKeys(Lookup(annotations, MANAGED_ANNOTATIONS));
      labels := MergeManagedKV(labels, desired.labels, previousLabels);
      annotations := MergeManagedKV(annotations, desired.annotations, previousAnnotations);
      annotations := Track(annotations, MANAGED_LABELS, desired.labels);
      annotations := Track(annotations, MANAGED_ANNOTATIONS, desired.annotations);
    }
  }

  // ---- Histories -----------------------------------------------------------------------------

  /** The operator applies a desired state, or somebody else edits one key. */
  datatype Event =
    | Apply(desired: Meta)
    | EditLabel(key: string, value: Option<string>)
    | EditAnnotation(key: string, value: Option<string>)

  function Set(m: KV, key: string, value: Option<string>): KV {
    match value
    case None => m - {key}
    case Some(v) => m[key := v]
  }

  /** The reference: foreign entries and the operator's own entries kept apart. */
  datatype Layers = Layers(foreign: KV, own: KV, owned: set<string>) {
    ghost predicate Valid() {
      foreign.Keys !! owned && own.Keys <= owned
    }

    function View(): KV {
      foreign + own
    }

    /** Applying replaces the own layer; a key once desired is no longer foreign. */
    function Applied(desired: KV): Layers {
      Layers(foreign - desired.Keys, desired, desired.Keys)
    }

    function Edited(key: string, value: Option<string>): Layers {
      if key in owned then Layers(foreign, Set(own, key, value), owned)
      else Layers(Set(foreign, key, value), own, owned)
    }
  }

  ghost predicate Admissible(e: Event) {
    match e
    case Apply(desired) => forall k :: k in desired.labels || k in desired.annotations ==> Trackable(k)
    case EditLabel(_, _) => true
    case EditAnnotation(key, _) => key !in TRACKERS
  }

  ghost function Step(m: Meta, e: Event): Meta {
    match e
    case Apply(desired) => MergedMeta(m, desired)
    case EditLabel(key, value) => m.(labels := Set(m.labels, key, value))
    case EditAnnotation(key, value) => m.(annotations := Set(m.annotations, key, value))
  }

  ghost function Replay(m: Meta, events: seq<Event>): Meta
    decreases |events|
  {
    if events == [] then m else Replay(Step(m, events[0]), events[1..])
  }

  function LabelStep(l: Layers, e: Event): Layers {
    match e
    case Apply(desired) => l.Applied(desired.labels)
    case EditLabel(key, value) => l.Edited(key, value)
    case EditAnnotation(_, _) => l
  }

  function AnnotationStep(l: Layers, e: Event): Layers {
    match e
    case Apply(desired) => l.Applied(desired.annotations - TRACKERS)
    case EditLabel(_, _) => l
    case EditAnnotation(key, value) => l.Edited(key, value)
  }

  function LabelLayers(l: Layers, events: seq<Event>): Layers
    decreases |events|
  {
    if events == [] then l else LabelLayers(LabelStep(l, events[0]), events[1..])
  }

  function AnnotationLayers(l: Layers, events: seq<Event>): Layers
    decreases |events|
  {
    if events == [] then l else AnnotationLayers(AnnotationStep(l, events[0]), events[1..])
  }

  /** The object's labels show the layers and the tracker names the owned keys. */
  ghost predicate ShowsLabels(m: Meta, l: Layers) {
    l.Valid() && m.labels == l.View() && Tracked(m.annotations, MANAGED_LABELS) == l.owned
  }

  /** The same for its annotations, the tracker keys apart. */
  ghost predicate ShowsAnnotations(m: Meta, l: Layers) {
    && l.Valid() && m.annotations - TRACKERS == l.View()
    && Tracked(m.annotations, MANAGED_ANNOTATIONS) - TRACKERS == l.owned
  }

  /** A tracker written for the desired keys is read back as those keys. */
  lemma TrackerReadsBack(annotations: KV, tracker: string, desired: KV)
    requires forall k :: k in desired ==> Trackable(k)
    ensures Tracked(WithTracker(annotations, tracker, desired), tracker) == desired.Keys
    ensures forall other :: other != tracker ==>
              Lookup(WithTracker(annotations, tracker, desired), other) == Lookup(annotations, other)
    ensures WithTracker(annotations, tracker, desired) - {tracker} == annotations - {tracker}
  {
    ParseUndoesSerialize(desired.Keys);
    if desired == map[] {
      assert AsSet(ParseManagedKeys("")) == {};
    }
  }

  /** One merge of a represented map is one application to its layers. */
  lemma MergeAppliesLayer(m: KV, l: Layers, desired: KV, previous: set<string>)
    requires l.Valid() && m == l.View() && previous == l.owned
    ensures Merged(m, desired, previous) == l.Applied(desired).View()
  {
  }

  lemma ApplyShowsLabels(m: Meta, l: Layers, desired: Meta)
    requires ShowsLabels(m, l) && Admissible(Apply(desired))
    ensures ShowsLabels(MergedMeta(m, desired), l.Applied(desired.labels))
  {
    MergeAppliesLayer(m.labels, l, desired.labels, Tracked(m.annotations, MANAGED_LABELS));
    var merged := Merged(m.annotations, desired.annotations, Tracked(m.annotations, MANAGED_ANNOTATIONS));
    TrackerReadsBack(merged, MANAGED_LABELS, desired.labels);
    TrackerReadsBack(WithTracker(merged, MANAGED_LABELS, desired.labels), MANAGED_ANNOTATIONS, desired.annotations);
  }

  /** Tracker keys do not disturb the merge of the other annotations. */
  lemma MergeOutsideTrackers(existing: KV, desired: KV, previous: set<string>)
    ensures Merged(existing, desired, previous) - TRACKERS
            == Merged(existing - TRACKERS, desired - TRACKERS, previous - TRACKERS)
  {
  }

  lemma TrackersStayOutside(annotations: KV, desired: Meta)
    ensures WithTracker(WithTracker(annotations, MANAGED_LABELS, desired.labels), MANAGED_ANNOTATIONS,
                        desired.annotations) - TRACKERS
         == annotations - TRACKERS
  {
  }

  lemma ApplyShowsAnnotations(m: Meta, l: Layers, desired: Meta)
    requires ShowsAnnotations(m, l) && Admissible(Apply(desired))
    ensures ShowsAnnotations(MergedMeta(m, desired), l.Applied(desired.annotations - TRACKERS))
  {
    var previous := Tracked(m.annotations, MANAGED_ANNOTATIONS);
    var merged := Merged(m.annotations, desired.annotations, previous);
    MergeOutsideTrackers(m.annotations, desired.annotations, previous);
    MergeAppliesLayer(m.annotations - TRACKERS, l, desired.annotations - TRACKERS, previous - TRACKERS);
    TrackersStayOutside(merged, desired);
    TrackerReadsBack(WithTracker(merged, MANAGED_LABELS, desired.labels), MANAGED_ANNOTATIONS, desired.annotations);
  }

  lemma EditShows(m: Meta, labels: Layers, annotations: Layers, e: Event)
    requires ShowsLabels(m, labels) && ShowsAnnotations(m, annotations) && Admissible(e) && !e.Apply?
    ensures ShowsLabels(Step(m, e), LabelStep(labels, e))
    ensures ShowsAnnotations(Step(m, e), AnnotationStep(annotations, e))
  {
    match e
    case EditLabel(key, value) => EditShowsView(labels, key, value);
    case EditAnnotation(key, value) => EditAnnotationShows(m, labels, annotations, key, value);
  }

  lemma EditAnnotationShows(m: Meta, labels: Layers, annotations: Layers, key: string, value: Option<string>)
    requires ShowsLabels(m, labels) && ShowsAnnotations(m, annotations) && key !in TRACKERS
    ensures ShowsLabels(m.(annotations := Set(m.annotations, key, value)), labels)
    ensures ShowsAnnotations(m.(annotations := Set(m.annotations, key, value)), annotations.Edited(key, value))
  {
    EditMissesTrackers(m.annotations, key, value);
    EditShowsView(annotations, key, value);
  }

  lemma EditMissesTrackers(kv: KV, key: string, value: Option<string>)
    requires key !in TRACKERS
    ensures Set(kv, key, value) - TRACKERS == Set(kv - TRACKERS, key, value)
    ensures forall t :: t in TRACKERS ==> Lookup(Set(kv, key, value), t) == Lookup(kv, t)
  {
  }

  lemma EditShowsView(l: Layers, key: string, value: Option<string>)
    requires l.Valid()
    ensures l.Edited(key, value).Valid() && l.Edited(key, value).View() == Set(l.View(), key, value)
  {
  }

  /**
   For every history of applications and outside edits of an object, labels and annotations
   are what the layered reference shows.
   */
  lemma {:induction false} HistoryFollowsLayers(m: Meta, labels: Layers, annotations: Layers, events: seq<Event>)
    requires ShowsLabels(m, labels) && ShowsAnnotations(m, annotations)
    requires forall e :: e in events ==> Admissible(e)
    ensures ShowsLabels(Replay(m, events), LabelLayers(labels, events))
    ensures ShowsAnnotations(Replay(m, events), AnnotationLayers(annotations, events))
    decreases |events|
  {
    if events != [] {
      var e := events[0];
      assert Admissible(e);
      if e.Apply? {
        ApplyShowsLabels(m, labels, e.desired);
        ApplyShowsAnnotations(m, annotations, e.desired);
      } else {
        EditShows(m, labels, annotations, e);
      }
      HistoryFollowsLayers(Step(m, e), LabelStep(labels, e), AnnotationStep(annotations, e), events[1..]);
    }
  }

  // ---- Histories of desired states alone -----------------------------------------------------

  /** All keys some desired state used. */
  function Ever(ds: seq<KV>): set<string> {
    if ds == [] then {} else ds[0].Keys + Ever(ds[1..])
  }

  function Applications(ds: seq<Meta>): (events: seq<Event>)
    ensures |events| == |ds| && forall i :: 0 <= i < |ds| ==> events[i] == Apply(ds[i])
  {
    seq(|ds|, i requires 0 <= i < |ds| => Apply(ds[i]))
  }

  function LabelsOf(ds: seq<Meta>): (r: seq<KV>)
    ensures |r| == |ds| && forall i :: 0 <= i < |ds| ==> r[i] == ds[i].labels
  {
    seq(|ds|, i requires 0 <= i < |ds| => ds[i].labels)
  }

  function AnnotationsOf(ds: seq<Meta>): (r: seq<KV>)
    ensures |r| == |ds| && forall i :: 0 <= i < |ds| ==> r[i] == ds[i].annotations - TRACKERS
  {
    seq(|ds|, i requires 0 <= i < |ds| => ds[i].annotations - TRACKERS)
  }

  /** A layer after a series of applications. */
  function AppliedAll(l: Layers, ds: seq<KV>): Layers
    decreases |ds|
  {
    if ds == [] then l else AppliedAll(l.Applied(ds[0]), ds[1..])
  }

  lemma {:induction false} LastAppliedShows(l: Layers, ds: seq<KV>)
    requires ds != []
    ensures AppliedAll(l, ds).View() == (l.foreign - Ever(ds)) + ds[|ds| - 1]
    decreases |ds|
  {
    var next := l.Applied(ds[0]);
    if |ds| > 1 {
      LastAppliedShows(next, ds[1..]);
      assert (l.foreign - ds[0].Keys) - Ever(ds[1..]) == l.foreign - Ever(ds);
    } else {
      assert Ever(ds) == ds[0].Keys;
    }
  }

  lemma {:induction false} ApplicationsApplyLayers(l: Layers, ds: seq<Meta>)
    ensures LabelLayers(l, Applications(ds)) == AppliedAll(l, LabelsOf(ds))
    ensures AnnotationLayers(l, Applications(ds)) == AppliedAll(l, AnnotationsOf(ds))
    decreases |ds|
  {
    if ds != [] {
      var rest := ds[1..];
      assert Applications(ds)[1..] == Applications(rest);
      assert LabelsOf(ds)[1..] == LabelsOf(rest);
      assert AnnotationsOf(ds)[1..] == AnnotationsOf(rest);
      ApplicationsApplyLayers(l.Applied(ds[0].labels), rest);
      ApplicationsApplyLayers(l.Applied(ds[0].annotations - TRACKERS), rest);
    }
  }

  lemma UntrackedShows(m: Meta)
    requires m.annotations.Keys !! TRACKERS
    ensures ShowsLabels(m, Layers(m.labels, map[], {})) && ShowsAnnotations(m, Layers(m.annotations, map[], {}))
  {
    assert m.annotations - TRACKERS == m.annotations;
    assert AsSet(ParseManagedKeys("")) == {};
  }

  lemma ApplicationsAreAdmissible(ds: seq<Meta>)
    requires forall d :: d in ds ==> Admissible(Apply(d))
    ensures forall e :: e in Applications(ds) ==> Admissible(e)
  {
    forall e | e in Applications(ds) ensures Admissible(e) {
      var i :| 0 <= i < |ds| && Applications(ds)[i] == e;
      assert ds[i] in ds;
    }
  }

  /**
   Applying D1..Dn to an untracked object leaves exactly Dn plus the original entries whose
   keys no Di ever used; likewise for annotations outside the trackers.
   */
  lemma LastDesiredStateWins(m: Meta, ds: seq<Meta>)
    requires ds != [] && m.annotations.Keys !! TRACKERS
    requires forall d :: d in ds ==> Admissible(Apply(d))
    ensures var r := Replay(m, Applications(ds));
            && r.labels == (m.labels - Ever(LabelsOf(ds))) + ds[|ds| - 1].labels
            && r.annotations - TRACKERS
               == (m.annotations - Ever(AnnotationsOf(ds))) + (ds[|ds| - 1].annotations - TRACKERS)
  {
    var labels, annotations := Layers(m.labels, map[], {}), Layers(m.annotations, map[], {});
    UntrackedShows(m);
    ApplicationsAreAdmissible(ds);
    HistoryFollowsLayers(m, labels, annotations, Applications(ds));
    ApplicationsApplyLayers(labels, ds);
    ApplicationsApplyLayers(annotations, ds);
    LastAppliedShows(labels, LabelsOf(ds));
    LastAppliedShows(annotations, AnnotationsOf(ds));
  }

  /** Merging the same desired metadata again changes nothing. */
  lemma MergeIsIdempotent(m: Meta, desired: Meta)
    requires Admissible(Apply(desired))
    ensures MergedMeta(MergedMeta(m, desired), desired) == MergedMeta(m, desired)
  {
    var merged := Merged(m.annotations, desired.annotations, Tracked(m.annotations, MANAGED_ANNOTATIONS));
    var tracked := WithTracker(merged, MANAGED_LABELS, desired.labels);
    TrackerReadsBack(merged, MANAGED_LABELS, desired.labels);
    TrackerReadsBack(tracked, MANAGED_ANNOTATIONS, desired.annotations);
    var once := MergedMeta(m, desired);
    assert Tracked(once.annotations, MANAGED_LABELS) == desired.labels.Keys;
    OverlayIsStable(m.labels, desired.labels, Tracked(m.annotations, MANAGED_LABELS));
    assert Tracked(once.annotations, MANAGED_ANNOTATIONS) == desired.annotations.Keys;
    RetagIsStable(merged, desired.annotations, desired.labels != map[], Serialized(desired.labels.Keys),
                  desired.annotations != map[], Serialized(desired.annotations.Keys));
  }

  lemma OverlayIsStable(existing: KV, desired: KV, previous: set<string>)
    ensures Merged(Merged(existing, desired, previous), desired, desired.Keys) == Merged(existing, desired, previous)
  {
  }

  lemma RetagIsStable(merged: KV, desired: KV, p: bool, v: string, q: bool, u: string)
    requires forall k :: k in desired ==> k in merged && merged[k] == desired[k]
    ensures var once := Tagged(Tagged(merged, MANAGED_LABELS, p, v), MANAGED_ANNOTATIONS, q, u);
            Tagged(Tagged(Merged(once, desired, desired.Keys), MANAGED_LABELS, p, v), MANAGED_ANNOTATIONS, q, u) == once
  {
  }
}
