/** What a life leaves behind once the object is gone: exactly which lives restore the host. */
module Leftovers {
  import opened LibvirtHost
  import opened LibvirtMachine
  import opened Provisioning
  import opened PassCalls
  import opened Teardown
  import opened Life
  import opened Convergence

  // ----- Strays: volumes of the machine that deletion does not look for -----

  ghost predicate Stray(m: Machine, k: Key) { Touchable(m, k) && !Removed(m, k) && !IsImageKey(m, k) }

  ghost predicate NoStray(m: Machine, h: Host) { forall k | k in h.volumes :: !Stray(m, k) }

  /** Which they are: a full clone made in another pool than the machine works in, and the cloud-init ISO
      in the storage pool of a machine that works in an ephemeral one. */
  lemma StraysExactly(m: Machine, k: Key)
    ensures Stray(m, k) <==>
              && !IsDiskKey(m, k) && !IsImageKey(m, k) && k.pool != WorkPool(m)
              && (|| k == Key(RootHome(m), RootVolume(m))
                  || (m.format.CloudInit? && k == Key(m.storagePool, IsoVolume(m))))
  {
    hide EphemeralPool, IsDiskKey;
    var n, i := RootVolume(m), IsoVolume(m);
    assert n[|n| - 1] == '2' && i[|i| - 1] == 'o';
  }

  /** A machine that clones within its pool, and has no ISO or no ephemeral pool, has none: whatever the
      host and however it came about. */
  lemma SomeNeverStray(m: Machine, h: Host)
    requires RootHome(m) == WorkPool(m) && (!m.format.CloudInit? || !m.ephemeral)
    ensures NoStray(m, h)
  {
    hide Stray, RootHome, IsDiskKey, IsImageKey, EphemeralPool;
    forall k | k in h.volumes
      ensures !Stray(m, k)
    {
      StraysExactly(m, k);
    }
  }

  lemma StrayIsOutside(m: Machine, k: Key)
    requires Stray(m, k)
    ensures !InEphemeral(m, k.pool)
  {
    hide Stray, RootHome, IsDiskKey, IsImageKey, EphemeralPool;
    StraysExactly(m, k);
  }

  lemma SurvivesDelete(m: Machine, x: Inputs, p: Pass, k: Key, v: Volume)
    requires Stored(p.remote.host, k, v) && !Removed(m, k) && !InEphemeral(m, k.pool)
    ensures Stored(Delete(m, x, p).pass.remote.host, k, v)
  {
    hide Delete, Stored, Takes, HostAfter, Removed, InEphemeral;
    var inv, ok := (r: Remote) => Stored(r.host, k, v), (c: Call) => Takes(m, c);
    forall r: Remote, c | inv(r) && ok(c)
      ensures inv(Send(r, c))
    {
      SurvivesTaking(m, r, c, k, v);
    }
    DeleteKeeps(m, x, p, inv, ok);
  }

  lemma SurvivesTaking(m: Machine, r: Remote, c: Call, k: Key, v: Volume)
    requires Takes(m, c) && Stored(r.host, k, v) && !Removed(m, k) && !InEphemeral(m, k.pool)
    ensures Stored(Send(r, c).host, k, v)
  {
    hide HostAfter, Removed, EphemeralPool, Touchable;
    VolumesAfter(r.host, c, NextFault(r.faults));
  }

  /** Over every run, under every schedule of faults: a volume outside the ephemeral pool that deletion
      does not look for is never removed or changed. */
  lemma {:induction false} StrayStays(m: Machine, w: World, events: seq<Event>, k: Key, v: Volume)
    requires Stored(w.host, k, v) && !Removed(m, k) && !InEphemeral(m, k.pool)
    ensures Stored(Run(m, w, events).host, k, v)
  {
    hide Step, Stored, Removed, InEphemeral;
    if events != [] {
      StrayStays(m, w, events[..|events| - 1], k, v);
      StrayStaysOnce(m, Run(m, w, events[..|events| - 1]), events[|events| - 1], k, v);
    }
  }

  lemma StrayStaysOnce(m: Machine, s: World, e: Event, k: Key, v: Volume)
    requires Stored(s.host, k, v) && !Removed(m, k) && !InEphemeral(m, k.pool)
    ensures Stored(Step(m, s, e).host, k, v)
  {
    hide Normal, Delete, Removed, BaseName, EphemeralPool, AutoSize, Kept, Allowed, OutsideDir;
    if e.Reconcile? && s.obj.Live? {
      var p := StartOf(m, s, e.faults);
      if s.obj.deleting {
        SurvivesDelete(m, e.x, p, k, v);
      } else {
        var g := AnyMode(m, e.x);
        StoredIsKept(g, k, v);
        NormalKeeps(g, p, (r: Remote) => Stored(r.host, k, v), c => Allowed(g, c));
      }
    }
  }

  lemma StraysStayOnce(m: Machine, s: World, e: Event)
    requires NoStray(m, Step(m, s, e).host)
    ensures NoStray(m, s.host)
  {
    hide Step, Stray, Removed, InEphemeral;
    forall k | k in s.host.volumes
      ensures !Stray(m, k)
    {
      if Stray(m, k) {
        StrayIsOutside(m, k);
        StrayIsNotRemoved(m, k);
        StrayStaysOnce(m, s, e, k, s.host.volumes[k]);
      }
    }
  }

  lemma StrayIsNotRemoved(m: Machine, k: Key)
    requires Stray(m, k)
    ensures !Removed(m, k)
  {
  }

  // ----- What can be on the host -----

  /** Every volume was there before, is the machine's, or is the cluster's image. */
  ghost predicate Traced(m: Machine, was: Host, h: Host) {
    && Framed(m, was, h)
    && (forall k | k in h.volumes :: k in was.volumes || Touchable(m, k) || IsImageKey(m, k))
  }

  lemma TracedByCall(m: Machine, was: Host, h: Host, c: Call, f: Fault)
    requires Traced(m, was, h) && Within(m, c)
    ensures Traced(m, was, HostAfter(h, c, f))
  {
    hide HostAfter, Framed, Touchable, Removed, BaseName, EphemeralPool, EphemeralPath, IgnitionPath, BootPath;
    FramedByCall(m, was, h, c, f);
    VolumesAfter(h, c, f);
  }

  lemma TracedIsClosed(m: Machine, was: Host, ok: Call -> bool)
    requires forall c | ok(c) :: Within(m, c)
    ensures Closed((r: Remote) => Traced(m, was, r.host), ok)
  {
    hide HostAfter, Traced, Within;
    forall r: Remote, c | Traced(m, was, r.host) && ok(c)
      ensures Traced(m, was, Send(r, c).host)
    {
      TracedByCall(m, was, r.host, c, NextFault(r.faults));
    }
  }

  lemma TracedByPass(m: Machine, was: Host, w: World, x: Inputs, faults: seq<Fault>)
    requires w.obj.Live? && Traced(m, was, w.host)
    ensures Traced(m, was, PassOf(m, w, x, faults).pass.remote.host)
  {
    hide Traced, Normal, Delete, Within, AutoSize;
    var p := StartOf(m, w, faults);
    var inv := (r: Remote) => Traced(m, was, r.host);
    if w.obj.deleting {
      TracedIsClosed(m, was, c => Takes(m, c));
      DeleteKeeps(m, x, p, inv, c => Takes(m, c));
    } else {
      var g := AnyMode(m, x);
      TracedIsClosed(m, was, c => Allowed(g, c));
      NormalKeeps(g, p, inv, c => Allowed(g, c));
    }
  }

  lemma TracedByHostEvent(m: Machine, was: Host, h: Host)
    requires Traced(m, was, h)
    ensures Traced(m, was, Restarted(m, h))
    ensures Traced(m, was, Unmounted(m, h))
    ensures Traced(m, was, Stopped(m, h))
  {
    hide Framed, Touchable, BaseName, EphemeralPool, OutsideDir;
    FramedByHostEvent(m, was, h);
  }

  lemma TracedAtStart(m: Machine, h: Host)
    requires Fresh(m, h)
    ensures Traced(m, h, h)
  {
    hide Touchable;
    FramedAtStart(m, h);
  }

  /** Over every run, under every schedule of faults. */
  lemma {:induction false} TracedOverRun(m: Machine, w: World, events: seq<Event>)
    requires Fresh(m, w.host)
    ensures Traced(m, w.host, Run(m, w, events).host)
  {
    hide Traced, Fresh, PassOf, Restarted, Unmounted, Stopped;
    if events == [] {
      TracedAtStart(m, w.host);
    } else {
      var before := Run(m, w, events[..|events| - 1]);
      TracedOverRun(m, w, events[..|events| - 1]);
      TracedByHostEvent(m, w.host, before.host);
      match events[|events| - 1]
      case Reconcile(x, faults, _) =>
        if before.obj.Live? {
          TracedByPass(m, w.host, before, x, faults);
        }
      case _ =>
    }
  }

  // ----- Where strays come from -----

  /** A pass that passes over no refusal of its pool, on a machine that clones within its pool, leaves
      no stray. */
  lemma SettledStepStraysNothing(m: Machine, was: Host, s: World, e: Event)
    requires Fresh(m, was) && Traced(m, was, s.host) && NoStray(m, s.host)
    requires RootHome(m) == WorkPool(m) && SettlesAt(m, s, e)
    ensures NoStray(m, Step(m, s, e).host)
  {
    hide Grown, Traced, NoStray, Fresh, Normal, Delete, SettlesPool, RootHome, WorkPool, Restarted, Unmounted, Stopped;
    TracedIsGrown(m, was, s.host);
    GrownByHostEvent(m, was, s.host);
    if e.Reconcile? && s.obj.Live? {
      FreshLacksPool(m, was);
      GrownByPass(m, was, s, e.x, e.faults);
    }
    GrownStraysNothing(m, was, Step(m, s, e).host);
  }

  lemma FreshLacksPool(m: Machine, h: Host)
    requires Fresh(m, h)
    ensures m.ephemeral ==> EphemeralPool(m) !in h.pools
  {
  }

  lemma RemovedIsOwned(m: Machine, k: Key)
    requires RootHome(m) == WorkPool(m)
    ensures Removed(m, k) <==> Owned(m, k)
  {
    hide IsDiskKey, RootHome, WorkPool;
  }

  lemma TracedIsGrown(m: Machine, was: Host, h: Host)
    requires RootHome(m) == WorkPool(m) && Traced(m, was, h) && NoStray(m, h)
    ensures Grown(m, was, h)
  {
    hide Framed, Touchable, Removed, Owned, IsImageKey, RootHome, WorkPool;
    forall k | k in h.volumes
      ensures k in was.volumes || Owned(m, k) || IsImageKey(m, k)
    {
      RemovedIsOwned(m, k);
    }
  }

  lemma GrownStraysNothing(m: Machine, was: Host, h: Host)
    requires RootHome(m) == WorkPool(m) && Fresh(m, was) && Grown(m, was, h)
    ensures NoStray(m, h)
  {
    hide Framed, Touchable, Removed, Owned, IsImageKey, RootHome, WorkPool;
    forall k | k in h.volumes
      ensures !Stray(m, k)
    {
      RemovedIsOwned(m, k);
    }
  }

  /** The event leaves a stray: a pass of a machine that clones into another pool, or one that passed
      over a refusal of the ephemeral pool. */
  ghost predicate LeavesStray(m: Machine, s: World, e: Event) {
    && (RootHome(m) != WorkPool(m) || !SettlesAt(m, s, e))
    && !NoStray(m, Step(m, s, e).host)
  }

  ghost predicate StraysNothing(m: Machine, w: World, events: seq<Event>) {
    Throughout(m, w, events, (s: World, e: Event) => !LeavesStray(m, s, e))
  }

  /** Where strays come from, exactly: over every life, under every schedule of faults, there is none at
      the end if and only if no such pass left one. */
  lemma {:induction false} StraysComeFromPasses(m: Machine, w: World, events: seq<Event>)
    requires Fresh(m, w.host)
    ensures NoStray(m, Run(m, w, events).host) <==> StraysNothing(m, w, events)
  {
    hide Step, Run, Throughout, Fresh, Traced, NoStray, RootHome, WorkPool, SettlesAt;
    var ok := (s: World, e: Event) => !LeavesStray(m, s, e);
    if events == [] {
      NoEvents(m, w, ok);
      FreshHasNoStray(m, w.host);
    } else {
      var front, last := events[..|events| - 1], events[|events| - 1];
      StraysComeFromPasses(m, w, front);
      ThroughoutFront(m, w, events, ok);
      RunExtends(m, w, events);
      var s := Run(m, w, front);
      if NoStray(m, Step(m, s, last).host) {
        StraysStayOnce(m, s, last);
      } else if NoStray(m, s.host) && RootHome(m) == WorkPool(m) && SettlesAt(m, s, last) {
        TracedOverRun(m, w, front);
        SettledStepStraysNothing(m, w.host, s, last);
      }
    }
  }

  lemma FreshHasNoStray(m: Machine, h: Host)
    requires Fresh(m, h)
    ensures NoStray(m, h)
  {
    hide Touchable;
  }

  lemma SettledLifeStraysNothing(m: Machine, w: World, events: seq<Event>)
    requires RootHome(m) == WorkPool(m) && SettledLife(m, w, events)
    ensures StraysNothing(m, w, events)
  {
    hide Run, Step, SettlesAt, NoStray, RootHome, WorkPool;
  }

  // ----- Finalizer safety -----

  lemma RestoredHasNoStray(m: Machine, was: Host, h: Host)
    requires Fresh(m, was) && Restored(m, was, h)
    ensures NoStray(m, h)
  {
    hide Touchable, Removed, FramedFiles;
  }

  /** A cleared host is the host as it was if and only if there is no stray. */
  lemma ClearedIsRestoredExactly(m: Machine, was: Host, h: Host)
    requires Fresh(m, was) && Traced(m, was, h) && Cleared(m, h)
    ensures Restored(m, was, h) <==> NoStray(m, h)
  {
    hide BaseName, EphemeralPool, EphemeralPath, FramedFiles, FramedPools, FramedDomains, Touchable, Removed;
    if NoStray(m, h) {
      PoolsRestored(m, was.pools, h.pools);
      DomainsRestored(m, was.domains, h.domains);
    } else if Restored(m, was, h) {
      RestoredHasNoStray(m, was, h);
    }
  }

  lemma StepOfLife(m: Machine, was: Host, w: World, e: Event)
    requires Fresh(m, was) && Traced(m, was, w.host) && (w.obj.Live? ==> w.obj.finalizer || !w.obj.deleting)
    ensures var end := Step(m, w, e);
            && (end.obj.Live? ==> w.obj.Live? && (end.obj.finalizer || !end.obj.deleting))
            && (w.obj.Live? && w.obj.finalizer && end.obj.Live? ==> end.obj.finalizer)
            && (w.obj.Gone? ==> end.obj.Gone? && (Restored(m, was, end.host) <==> Restored(m, was, w.host)))
            && (w.obj.Live? && e.RequestDeletion? && !w.obj.finalizer ==> end.obj.Gone? && end.host == w.host)
            && (w.obj.Live? && end.obj.Gone? && !(e.RequestDeletion? && !w.obj.finalizer)
                ==> (Restored(m, was, end.host) <==> NoStray(m, end.host)))
  {
    hide Traced, Normal, Delete, Restarted, Unmounted, Stopped, FramedFiles, Touchable, Cleared, Restored, NoStray;
    HostEventsRestoreNothing(m, was, w.host);
    if w.obj.Live? && e.Reconcile? {
      TracedByPass(m, was, w, e.x, e.faults);
      var r := PassOf(m, w, e.x, e.faults);
      if w.obj.deleting && r.flow.Going? {
        DeleteComplete(m, e.x, StartOf(m, w, e.faults));
        ClearedIsRestoredExactly(m, was, r.pass.remote.host);
      }
    }
  }

  lemma GoneAddsNoStray(m: Machine, w: World, e: Event)
    requires w.obj.Gone? && NoStray(m, w.host)
    ensures NoStray(m, Step(m, w, e).host)
  {
    hide Stray, BaseName, EphemeralPool, OutsideDir;
  }

  /** Finalizer safety over whole lives, exactly, for every machine.  Start from a host without artifacts
      of the machine; let any passes be cut short by any faults, any refusal be passed over and any patch
      be lost.  Once the object is gone, the host is what it was (a staged base image aside) if and only if
      each deletion request found the finalizer stored, or found the host still or again as it was, and no
      volume is left where deletion does not look. */
  lemma {:induction false} FinalizerGuards(m: Machine, w: World, events: seq<Event>)
    requires Fresh(m, w.host) && w.obj.Live? && (w.obj.finalizer || !w.obj.deleting)
    ensures var end := Run(m, w, events);
            && (end.obj.Live? ==> CleanRequests(m, w, events) && (end.obj.finalizer || !end.obj.deleting))
            && (end.obj.Gone? ==>
                  (Restored(m, w.host, end.host) <==> CleanRequests(m, w, events) && NoStray(m, end.host)))
  {
    hide Traced, Step, Fresh, Restored, NoStray, Run, Throughout;
    var ok := (s: World, e: Event) => RequestsCleanly(m, w.host, s, e);
    if events == [] {
      NoEvents(m, w, ok);
    } else {
      var front, last := events[..|events| - 1], events[|events| - 1];
      ThroughoutFront(m, w, events, ok);
      FinalizerGuards(m, w, front);
      RunExtends(m, w, events);
      TracedOverRun(m, w, front);
      var s := Run(m, w, front);
      StepOfLife(m, w.host, s, last);
      if NoStray(m, Step(m, s, last).host) {
        StraysStayOnce(m, s, last);
      } else if s.obj.Gone? && NoStray(m, s.host) {
        GoneAddsNoStray(m, s, last);
      }
      if Restored(m, w.host, Step(m, s, last).host) {
        RestoredHasNoStray(m, w.host, Step(m, s, last).host);
      }
    }
  }

  /** The same as a condition on the events alone. */
  lemma FinalizerGuardsExactly(m: Machine, w: World, events: seq<Event>)
    requires Fresh(m, w.host) && w.obj.Live? && (w.obj.finalizer || !w.obj.deleting)
    ensures var end := Run(m, w, events);
            end.obj.Gone? ==>
              (Restored(m, w.host, end.host) <==> CleanRequests(m, w, events) && StraysNothing(m, w, events))
  {
    hide Run, Fresh, Restored, CleanRequests, StraysNothing, NoStray;
    FinalizerGuards(m, w, events);
    StraysComeFromPasses(m, w, events);
  }

  lemma {:induction false} FinalizerStays(m: Machine, w: World, events: seq<Event>)
    requires w.obj.Live? && w.obj.finalizer
    ensures var end := Run(m, w, events); end.obj.Live? ==> end.obj.finalizer
  {
    hide PassOf;
    if events != [] {
      FinalizerStays(m, w, events[..|events| - 1]);
    }
  }

  /** With the finalizer stored from the start, it stays until the object is gone, and the host is then
      what it was if and only if no pass left a stray. */
  lemma LifeRestoresHost(m: Machine, w: World, events: seq<Event>)
    requires Fresh(m, w.host) && w.obj.Live? && w.obj.finalizer
    ensures var end := Run(m, w, events);
            && (end.obj.Live? ==> end.obj.finalizer)
            && (end.obj.Gone? ==> (Restored(m, w.host, end.host) <==> StraysNothing(m, w, events)))
  {
    hide Run, Fresh, Restored, StraysNothing;
    FinalizerStays(m, w, events);
    forall i | 0 <= i < |events|
      ensures RequestsCleanly(m, w.host, Run(m, w, events[..i]), events[i])
    {
      FinalizerStays(m, w, events[..i]);
    }
    FinalizerGuardsExactly(m, w, events);
  }
}
