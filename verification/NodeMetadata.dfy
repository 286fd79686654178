/** reconcileNodeLabels: declared labels and annotations are merged into the Node, and the keys
    applied last are remembered in two tracking annotations. */
module NodeMetadata {
  import opened Common
  import opened ManagedKeys

  function LabelsKey(): string { "infrastructure.cluster.x-k8s.io/libvirt-managed-labels" }

  function AnnotationsKey(): string { "infrastructure.cluster.x-k8s.io/libvirt-managed-annotations" }

  type Metadata = map<string, string>

  datatype Node = Node(labels: Metadata, annotations: Metadata)

  /** The keys a tracking annotation lists; none if it is missing. */
  function Tracked(annotations: Metadata, key: string): seq<string> {
    ParseKeys(if key in annotations then annotations[key] else "")
  }

  /** Drop the keys applied before and no longer desired, then write the desired ones. */
  ghost function Merged(current: Metadata, applied: seq<string>, desired: Metadata): Metadata {
    (current - (set k | k in Elements(applied) && k !in desired)) + desired
  }

  ghost function Noted(annotations: Metadata, key: string, desired: Metadata): Metadata {
    if desired != map[] then annotations[key := FormatKeys(desired.Keys)] else annotations - {key}
  }

  ghost function Reconciled(n: Node, labels: Metadata, annotations: Metadata): Node {
    if labels == map[] && annotations == map[] then n
    else
      var merged := Merged(n.annotations, Tracked(n.annotations, AnnotationsKey()), annotations);
      Node(Merged(n.labels, Tracked(n.annotations, LabelsKey()), labels),
           Noted(Noted(merged, LabelsKey(), labels), AnnotationsKey(), annotations))
  }

  /** A Node object as the reconciler reads, changes and patches it. */
  class NodeObject {
    var labels: Metadata
    var annotations: Metadata

    ghost function View(): Node
      reads this
    {
      Node(labels, annotations)
    }

    static method Merge(current: Metadata, applied: seq<string>, desired: Metadata) returns (merged: Metadata)
      ensures merged == Merged(current, applied, desired)
    {
      merged := current;
      for i := 0 to |applied|
        invariant merged == current - (set k | k in Elements(applied[..i]) && k !in desired)
      {
        PrefixElements(applied, i);
        if applied[i] !in desired {
          merged := merged - {applied[i]};
        }
      }
      assert applied[..|applied|] == applied;
      merged := merged + desired;
    }

    method ReconcileNodeLabels(desiredLabels: Metadata, desiredAnnotations: Metadata)
      modifies this
      ensures View() == Reconciled(old(View()), desiredLabels, desiredAnnotations)
    {
      hide Merged, FormatKeys, ParseKeys, LabelsKey, AnnotationsKey;
      if |desiredLabels| == 0 && |desiredAnnotations| == 0 {
        return;
      }
      var prevLabels := ParseManagedKeys(if LabelsKey() in annotations then annotations[LabelsKey()] else "");
      var prevAnnotations :=
        ParseManagedKeys(if AnnotationsKey() in annotations then annotations[AnnotationsKey()] else "");
      labels := Merge(labels, prevLabels, desiredLabels);
      annotations := Merge(annotations, prevAnnotations, desiredAnnotations);
      if |desiredLabels| > 0 {
        var text := FormatManagedKeys(desiredLabels);
        annotations := annotations[LabelsKey() := text];
      } else {
        annotations := annotations - {LabelsKey()};
      }
      if |desiredAnnotations| > 0 {
        var text := FormatManagedKeys(desiredAnnotations);
        annotations := annotations[AnnotationsKey() := text];
      } else {
        annotations := annotations - {AnnotationsKey()};
      }
    }
  }

  lemma PrefixElements(l: seq<string>, i: nat)
    requires i < |l|
    ensures Elements(l[..i + 1]) == Elements(l[..i]) + {l[i]}
  {
    var a, b := l[..i], l[..i + 1];
    forall x | x in Elements(b)
      ensures x in Elements(a) + {l[i]}
    {
      var j :| 0 <= j < |b| && b[j] == x;
      if j < i {
        assert a[j] == x;
      }
    }
    forall x | x in Elements(a) + {l[i]}
      ensures x in Elements(b)
    {
      if x in Elements(a) {
        var j :| 0 <= j < |a| && a[j] == x;
        assert b[j] == x;
      } else {
        assert b[i] == x;
      }
    }
  }

  // ----- Runs -----

  /** Reconciles with changing declarations, some of which do not get through (no Node yet, or
      the patch fails), and writes by administrators to keys that are not managed. */
  datatype Event =
    | Sync(labels: Metadata, annotations: Metadata, works: bool)
    | AdminLabel(key: string, value: Option<string>)
    | AdminAnnotation(key: string, value: Option<string>)

  /** The node, and the declarations applied last. */
  datatype World = World(node: Node, labels: Metadata, annotations: Metadata)

  predicate TrackingKey(k: string) { k == LabelsKey() || k == AnnotationsKey() }

  function Put(m: Metadata, k: string, v: Option<string>): Metadata {
    match v
    case Some(x) => m[k := x]
    case None => m - {k}
  }

  ghost function Step(w: World, e: Event): World {
    match e
    case Sync(labels, annotations, works) =>
      if !works then w
      else
        var none := labels == map[] && annotations == map[];
        World(Reconciled(w.node, labels, annotations),
              if none then w.labels else labels, if none then w.annotations else annotations)
    case AdminLabel(k, v) =>
      if k in w.labels then w else w.(node := w.node.(labels := Put(w.node.labels, k, v)))
    case AdminAnnotation(k, v) =>
      if k in w.annotations || TrackingKey(k) then w
      else w.(node := w.node.(annotations := Put(w.node.annotations, k, v)))
  }

  ghost function Run(w: World, events: seq<Event>): World {
    if events == [] then w else Step(Run(w, events[..|events| - 1]), events[|events| - 1])
  }

  ghost predicate GoodDeclaration(m: Metadata) { forall k | k in m :: GoodKey(k) && !TrackingKey(k) }

  ghost predicate GoodEvents(events: seq<Event>) {
    forall e | e in events :: e.Sync? ==> GoodDeclaration(e.labels) && GoodDeclaration(e.annotations)
  }

  /** The tracking annotations list exactly the keys applied last, and these hold their values. */
  ghost predicate Owned(w: World) {
    && GoodDeclaration(w.labels) && GoodDeclaration(w.annotations)
    && Elements(Tracked(w.node.annotations, LabelsKey())) == w.labels.Keys
    && Elements(Tracked(w.node.annotations, AnnotationsKey())) == w.annotations.Keys
    && (forall k | k in w.labels :: Find(w.node.labels, k) == Some(w.labels[k]))
    && (forall k | k in w.annotations :: Find(w.node.annotations, k) == Some(w.annotations[k]))
  }

  lemma TrackingKeysDiffer()
    ensures LabelsKey() != AnnotationsKey()
  {
    assert |LabelsKey()| != |AnnotationsKey()|;
  }

  lemma TrackedAfterNote(a: Metadata, key: string, desired: Metadata)
    requires GoodDeclaration(desired)
    ensures Elements(Tracked(Noted(a, key, desired), key)) == desired.Keys
  {
    ParseUndoesFormat(desired.Keys);
    if desired == map[] {
      assert desired.Keys == {};
    }
  }

  lemma MergeOwns(current: Metadata, applied: seq<string>, desired: Metadata)
    ensures var m := Merged(current, applied, desired);
            && (forall k | k in desired :: Find(m, k) == Some(desired[k]))
            && (forall k | k in Elements(applied) && k !in desired :: k !in m)
            && (forall k | k !in Elements(applied) && k !in desired :: Find(m, k) == Find(current, k))
  {
    hide Elements;
  }

  lemma NotedElsewhere(a: Metadata, key: string, desired: Metadata, k: string)
    requires k != key
    ensures Find(Noted(a, key, desired), k) == Find(a, k)
  {
    hide FormatKeys;
  }

  /** One effective reconcile: declared pairs are there, keys applied before and no longer
      declared are gone, every other key is as it was, and the tracking annotations list the
      declared keys. */
  lemma SyncOwns(w: World, labels: Metadata, annotations: Metadata)
    requires Owned(w) && GoodDeclaration(labels) && GoodDeclaration(annotations)
    requires labels != map[] || annotations != map[]
    ensures var n := Reconciled(w.node, labels, annotations);
            && Owned(World(n, labels, annotations))
            && (forall k | k in w.labels && k !in labels :: k !in n.labels)
            && (forall k | k in w.annotations && k !in annotations :: k !in n.annotations)
            && (forall k | k !in w.labels && k !in labels :: Find(n.labels, k) == Find(w.node.labels, k))
            && (forall k | k !in w.annotations && k !in annotations && !TrackingKey(k) ::
                  Find(n.annotations, k) == Find(w.node.annotations, k))
  {
    hide Merged, Noted, FormatKeys, ParseKeys, GoodKey, LabelsKey, AnnotationsKey, Elements, Tracked;
    TrackingKeysDiffer();
    var n := Reconciled(w.node, labels, annotations);
    var prevLabels, prevAnnotations := Tracked(w.node.annotations, LabelsKey()),
        Tracked(w.node.annotations, AnnotationsKey());
    var merged := Merged(w.node.annotations, prevAnnotations, annotations);
    var noted := Noted(merged, LabelsKey(), labels);
    MergeOwns(w.node.labels, prevLabels, labels);
    MergeOwns(w.node.annotations, prevAnnotations, annotations);
    TrackedAfterNote(merged, LabelsKey(), labels);
    TrackedAfterNote(noted, AnnotationsKey(), annotations);
    NotedElsewhere(noted, AnnotationsKey(), annotations, LabelsKey());
    TrackedReadsOneKey(n.annotations, noted, LabelsKey());
    forall k | !TrackingKey(k)
      ensures Find(n.annotations, k) == Find(merged, k)
    {
      NotedElsewhere(merged, LabelsKey(), labels, k);
      NotedElsewhere(noted, AnnotationsKey(), annotations, k);
    }
  }

  lemma NothingDeclared(n: Node)
    ensures Reconciled(n, map[], map[]) == n
  {
  }

  lemma TrackedReadsOneKey(a: Metadata, b: Metadata, key: string)
    requires Find(a, key) == Find(b, key)
    ensures Tracked(a, key) == Tracked(b, key)
  {
    hide ParseKeys;
  }

  /** Administrators' writes leave ownership alone. */
  lemma AdminKeepsOwned(w: World, e: Event)
    requires Owned(w) && !e.Sync?
    ensures Owned(Step(w, e))
  {
    hide GoodKey, LabelsKey, AnnotationsKey, Elements, Tracked;
    if e.AdminAnnotation? {
      TrackedReadsOneKey(Step(w, e).node.annotations, w.node.annotations, LabelsKey());
      TrackedReadsOneKey(Step(w, e).node.annotations, w.node.annotations, AnnotationsKey());
    }
  }

  /** Over every run: the tracking annotations list exactly the keys applied last, and each of
      them is on the Node with the value applied last. */
  lemma {:induction false} OwnershipOverRun(w: World, events: seq<Event>)
    requires Owned(w) && GoodEvents(events)
    ensures Owned(Run(w, events))
  {
    hide Owned, Reconciled, GoodDeclaration, LabelsKey, AnnotationsKey;
    if events != [] {
      var front, e := events[..|events| - 1], events[|events| - 1];
      assert GoodEvents(front) && e in events;
      OwnershipOverRun(w, front);
      var now := Run(w, front);
      NothingDeclared(now.node);
      if e.Sync? {
        if e.works && !(e.labels == map[] && e.annotations == map[]) {
          SyncOwns(now, e.labels, e.annotations);
        }
      } else {
        AdminKeepsOwned(now, e);
      }
    }
  }

  /** A Node that was never labelled owns nothing. */
  lemma FreshNodeIsOwned(n: Node)
    requires LabelsKey() !in n.annotations && AnnotationsKey() !in n.annotations
    ensures Owned(World(n, map[], map[]))
  {
    hide LabelsKey, AnnotationsKey;
  }

  // ----- Keys that are never declared -----

  /** What administrators alone would have made of the Node. */
  function AdminStep(n: Node, e: Event): Node {
    match e
    case Sync(_, _, _) => n
    case AdminLabel(k, v) => n.(labels := Put(n.labels, k, v))
    case AdminAnnotation(k, v) => if TrackingKey(k) then n else n.(annotations := Put(n.annotations, k, v))
  }

  function AdminRun(n: Node, events: seq<Event>): Node {
    if events == [] then n else AdminStep(AdminRun(n, events[..|events| - 1]), events[|events| - 1])
  }

  ghost predicate NeverLabel(k: string, events: seq<Event>) { forall e | e in events && e.Sync? :: k !in e.labels }

  ghost predicate NeverAnnotation(k: string, events: seq<Event>) {
    forall e | e in events && e.Sync? :: k !in e.annotations
  }

  lemma {:induction false} NotApplied(w: World, events: seq<Event>, k: string)
    ensures k !in w.labels && NeverLabel(k, events) ==> k !in Run(w, events).labels
    ensures k !in w.annotations && NeverAnnotation(k, events) ==> k !in Run(w, events).annotations
  {
    hide Reconciled, LabelsKey, AnnotationsKey;
    if events != [] {
      var front, e := events[..|events| - 1], events[|events| - 1];
      assert e in events;
      NotApplied(w, front, k);
    }
  }

  /** A key that no reconcile ever declared always has the value administrators gave it last. */
  lemma {:induction false} AdminKeysAreTheirs(w: World, events: seq<Event>, k: string)
    requires Owned(w) && GoodEvents(events)
    ensures k !in w.labels && NeverLabel(k, events) ==>
              Find(Run(w, events).node.labels, k) == Find(AdminRun(w.node, events).labels, k)
    ensures k !in w.annotations && NeverAnnotation(k, events) && !TrackingKey(k) ==>
              Find(Run(w, events).node.annotations, k) == Find(AdminRun(w.node, events).annotations, k)
  {
    hide Owned, Reconciled, GoodDeclaration, LabelsKey, AnnotationsKey;
    if events != [] {
      var front, e := events[..|events| - 1], events[|events| - 1];
      assert GoodEvents(front) && e in events;
      AdminKeysAreTheirs(w, front, k);
      OwnershipOverRun(w, front);
      NotApplied(w, front, k);
      var now := Run(w, front);
      NothingDeclared(now.node);
      if e.Sync? && e.works && !(e.labels == map[] && e.annotations == map[]) {
        SyncOwns(now, e.labels, e.annotations);
      }
    }
  }

  // ----- When the last declaration is withdrawn -----

  /** The documentation promises that keys which disappear from the spec are removed.  The code
      keeps the promise exactly when something is still declared, or nothing was applied: a
      reconcile with nothing declared returns early and leaves the managed keys on the Node. */
  lemma WithdrawnKeysGoExactlyWhen(w: World, labels: Metadata, annotations: Metadata)
    requires Owned(w) && GoodDeclaration(labels) && GoodDeclaration(annotations)
    ensures var n := Reconciled(w.node, labels, annotations);
            (forall k | k in w.labels && k !in labels :: k !in n.labels)
                && (forall k | k in w.annotations && k !in annotations :: k !in n.annotations)
            <==> !(labels == map[] && annotations == map[]) || (w.labels == map[] && w.annotations == map[])
  {
    hide GoodDeclaration, LabelsKey, AnnotationsKey, Elements, Tracked, Merged, Noted;
    if labels == map[] && annotations == map[] {
      if w.labels != map[] {
        var k :| k in w.labels;
        assert Find(w.node.labels, k) == Some(w.labels[k]);
      }
      if w.annotations != map[] {
        var k :| k in w.annotations;
        assert Find(w.node.annotations, k) == Some(w.annotations[k]);
      }
    } else {
      SyncOwns(w, labels, annotations);
    }
  }
}
