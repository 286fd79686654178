/** What a machine's life can come to: a recorded failure absorbs, a lost finalizer leaks, and a plain life
    restores the host exactly when its root disk is created where it is looked for. */
module Outcomes {
  import opened Common
  import opened LibvirtHost
  import opened LibvirtMachine
  import opened Provisioning
  import opened PassCalls
  import opened Teardown
  import opened Ready
  import opened QuietPass
  import opened Convergence
  import opened Life
  import opened Retry
  import opened Definitions
  import opened Leftovers
  import Preflight

  // ----- A recorded failure absorbs -----

  /** What restarts and losses alone make of a host. */
  function Weathered(m: Machine, h: Host, events: seq<Event>): Host {
    if events == [] then h
    else
      var now := Weathered(m, h, events[..|events| - 1]);
      match events[|events| - 1]
      case DaemonRestart => Restarted(m, now)
      case TmpfsLoss => Unmounted(m, now)
      case DomainStops => Stopped(m, now)
      case _ => now
  }

  /** Once a failure is stored, every later reconcile leaves the host alone and the failure in place, for
      every input and every schedule of faults: the host is what restarts and losses alone make of it. */
  lemma {:induction false} FailureAbsorbs(m: Machine, w: World, events: seq<Event>)
    requires w.obj.Live? && !w.obj.deleting && w.obj.failure.Some?
    requires RequestDeletion !in events
    ensures var end := Run(m, w, events);
            && end.host == Weathered(m, w.host, events)
            && end.obj.Live? && !end.obj.deleting && end.obj.failure.Some?
  {
    hide Normal, Delete, Restarted, Unmounted, Stopped;
    if events != [] {
      var front, last := events[..|events| - 1], events[|events| - 1];
      assert RequestDeletion !in front && last in events;
      FailureAbsorbs(m, w, front);
      if last.Reconcile? {
        FailedPassIsIdle(m, last.x, StartOf(m, Run(m, w, front), last.faults));
      }
    }
  }

  // ----- The finalizer must be stored before the first artifact -----

  /** The finalizer is added in memory and stored by the deferred patch only.  If that patch is
      lost on the first pass, the object can vanish while everything it made keeps running. */
  lemma UnstoredFinalizerLeaks(m: Machine, x: Inputs, w: World)
    requires CalmStart(m, x, w) && !w.obj.finalizer
    ensures var end := Run(m, w, [Reconcile(x, [], false), RequestDeletion]);
            && end.obj.Gone?
            && ViewOf(m, x, end.host) == Blueprint(StrictMode(m, x, w.host), BaseOf(StrictMode(m, x, w.host), w.host))
  {
    hide Normal, Fresh, Sane, Sound, Distinct, RootHome, WorkPool, ViewOf, Blueprint, Offers, AutoSize,
         GenuineFiles, GenuineImage, Supplied, BaseKey, IsImageKey;
    var e1, e2 := Reconcile(x, [], false), RequestDeletion;
    CalmStartIsSound(m, x, w);
    CleanPassReaches(StrictMode(m, x, w.host), Begin(m, Remote(w.host, [], []), w.obj.failure, w.obj.ready));
    OfferedBase(m, w.host);
    TwoEvents(m, w, e1, e2);
  }

  lemma TwoEvents(m: Machine, w: World, a: Event, b: Event)
    ensures Run(m, w, [a, b]) == Step(m, Step(m, w, a), b)
  {
    hide Step;
    assert [a, b][..1] == [a] && [a][..0] == [];
    assert Run(m, w, [a]) == Step(m, Run(m, w, []), a);
  }

  // ----- A full clone made in another pool is never found again -----

  /** Once root disk and pool are settled, the rest of a pass keeps what its calls keep. */
  lemma RestOfProvisionKeeps(g: Mode, p: Pass, inv: Remote -> bool, ok: Call -> bool)
    requires p == Begin(g.m, p.remote, p.failure, p.ready) && Loose(g) && g.phase == 1
    requires Kept(g, inv, ok)
    requires !Stops(StageImage(g.m, g.x, p).flow) && !Stops(Rooted(g.m, g.x, p).flow)
        && inv(Rooted(g.m, g.x, p).pass.remote)
    ensures inv(Provision(g.m, g.x, p, g.size).pass.remote)
  {
    hide StageImage, Rooted, Bootstrap, FirstDisks, BootArtifacts, RunDomain, Provision, Kept, WorkPool, KernelFile,
         InitrdFile;
    ProvisionUnfolds(g.m, g.x, p, g.size);
    FieldsAlong(g.m, g.x, p);
    BootstrapKeeps(g, Rooted(g.m, g.x, p).pass, inv, ok);
    FirstDisksKeeps(g, |g.m.disks|, Bootstrapping(g.m, g.x, p).pass, inv, ok);
    BootArtifactsKeeps(g, Disked(g.m, g.x, p).pass, inv, ok);
    RunDomainKeeps(g, Booted(g.m, g.x, p).pass, inv, ok);
  }

  /** Neither root disk nor domain, on a host where only this machine worked, without faults. */
  ghost predicate Rootless(m: Machine, was: Host, r: Remote) {
    && Grown(m, was, r.host) && r.faults == []
    && RootKey(m) !in r.host.volumes && BaseName(m) !in r.host.domains
  }

  lemma RootlessByCall(g: Mode, was: Host, r: Remote, c: Call)
    requires g.strict && g.defines.Never? && Allowed(g, c) && Rootless(g.m, was, r)
    requires g.m.fullClone && RootHome(g.m) != WorkPool(g.m) && Distinct(g.m)
    ensures Rootless(g.m, was, Send(r, c))
  {
    hide HostAfter, Grown, BaseName, EphemeralPool, IgnitionPath, BootPath, RootVolume, DiskVolume, IsoVolume,
         WantedDefinition;
    GrownByCall(g, was, r.host, c, NextFault(r.faults));
    VolumesAfter(r.host, c, NextFault(r.faults));
    DomainsAfter(r.host, c, NextFault(r.faults));
    IsoIsNoDisk(g.m);
    assert Touchable(g.m, RootKey(g.m));
    if c.CreateVolume? {
      var i :| 0 <= i < |g.m.disks| && Key(c.pool, c.vol) == DiskKey(g.m, g.m.disks[i]);
      assert IsDiskKey(g.m, Key(c.pool, c.vol));
    }
  }

  lemma RootlessIsKept(g: Mode, was: Host)
    requires g.strict && g.defines.Never? && g.site == Site(g.m, was)
    requires g.m.ephemeral ==> EphemeralPool(g.m) !in was.pools
    requires g.m.fullClone && RootHome(g.m) != WorkPool(g.m) && Distinct(g.m)
    ensures Kept(g, (r: Remote) => Rootless(g.m, was, r), c => Allowed(g, c))
  {
    hide HostAfter, Grown, Allowed, Agrees, Site, RootHome, WorkPool, Distinct, BaseName, RootKey;
    forall r: Remote, c | Rootless(g.m, was, r) && Allowed(g, c)
      ensures Rootless(g.m, was, Send(r, c))
    {
      RootlessByCall(g, was, r, c);
    }
    forall r: Remote | Rootless(g.m, was, r)
      ensures Agrees(g.site, r.host)
    {
      GrownAgrees(g, was, r.host);
    }
  }

  lemma NoRootNoDomain(m: Machine, p: Pass, size: Capacity)
    requires Quiet(p) && p.pool == WorkPool(m)
    requires RootKey(m) !in p.remote.host.volumes && BaseName(m) !in p.remote.host.domains
    ensures BaseName(m) !in RunDomain(m, p, size).pass.remote.host.domains
  {
    hide Send, Reply, Start, BaseName, WorkPool, IgnitionPath, IsoVolume, RootVolume;
    var c, root := DomainExists(BaseName(m)), GetVolumePath(p.pool, RootVolume(m));
    StaysQuiet(p.remote, c);
    StaysQuiet(After(p, c).remote, root);
  }

  lemma NeverDefined(m: Machine, x: Inputs, was: Host, p: Pass, size: Capacity)
    requires p == Begin(m, p.remote, p.failure, p.ready) && Rootless(m, was, p.remote)
    requires m.ephemeral ==> EphemeralPool(m) !in was.pools
    requires m.fullClone && RootHome(m) != WorkPool(m) && Distinct(m)
    ensures BaseName(m) !in Provision(m, x, p, size).pass.remote.host.domains
  {
    hide StageImage, RootDisk, Bootstrap, FirstDisks, BootArtifacts, RunDomain, Provision, Kept, RootHome, WorkPool,
         Distinct, Grown, Allowed, BaseName, RootKey, Site, KernelFile, InitrdFile;
    var g := StrictMode(m, x, was).(size := size, defines := Never);
    var inv, ok := (r: Remote) => Rootless(m, was, r), (c: Call) => Allowed(g, c);
    RootlessIsKept(g, was);
    ProvisionUnfolds(m, x, p, size);
    FieldsAlong(m, x, p);
    StageImageKeeps(g, p, inv, ok);
    RootDiskSettles(m, StageImage(m, x, p).pass);
    StepsKeep(g, p, inv, ok);
    if Arrives(m, x, p) {
      NoRootNoDomain(m, Booted(m, x, p).pass, size);
    }
  }

  ghost function CloneKey(m: Machine): Key { Key(RootHome(m), RootVolume(m)) }

  /** With nothing at the place it looks, the clone goes to the place it is made. */
  lemma ClonedElsewhere(p: Pass, pool: string, vol: string, basePool: string, base: string)
    requires Quiet(p) && Active(p.remote.host, pool) && Key(pool, vol) !in p.remote.host.volumes
    requires Active(p.remote.host, basePool) && Key(basePool, base) in p.remote.host.volumes
    requires Key(basePool, vol) !in p.remote.host.volumes
    ensures var r := EnsureVolume(p, pool, vol, Cloned(basePool, base));
            r.flow.Going? && Key(basePool, vol) in r.pass.remote.host.volumes
                && r.pass.remote.host.pools == p.remote.host.pools
  {
    hide Send, Reply;
    var c, d := VolumeExists(pool, vol), CloneVolume(basePool, base, vol);
    StaysQuiet(p.remote, c);
    StaysQuiet(After(p, c).remote, d);
  }

  lemma RootDiskClonesElsewhere(m: Machine, p: Pass)
    requires Quiet(p) && p.pool == m.storagePool && m.fullClone && RootHome(m) != WorkPool(m)
    requires Has(p.remote.host, {BaseKey(m)}, NamedPools(m))
    requires forall q | q in NamedPools(m) :: !InEphemeral(m, q)
    requires RootKey(m) !in p.remote.host.volumes && CloneKey(m) !in p.remote.host.volumes
    ensures var r := RootDisk(m, p);
            r.flow.Going? && Has(r.pass.remote.host, {CloneKey(m)}, NamedPools(m) + {WorkPool(m)})
  {
    hide EnsurePool, EnsureVolume, EphemeralPool, EphemeralPath;
    var r := if m.ephemeral then EnsurePool(p, EphemeralPool(m), EphemeralPath(m)) else Result(p, Going);
    if m.ephemeral {
      EnsurePoolQuiet(p, EphemeralPool(m), EphemeralPath(m));
      EnsurePoolGives(p, EphemeralPool(m), EphemeralPath(m));
      EnsurePoolFields(p, EphemeralPool(m), EphemeralPath(m));
      EnsurePoolAddsNone(p, EphemeralPool(m), EphemeralPath(m), RootKey(m));
      EnsurePoolAddsNone(p, EphemeralPool(m), EphemeralPath(m), CloneKey(m));
    }
    assert BasePool(m) in NamedPools(m);
    ClonedElsewhere(r.pass, r.pass.pool, RootVolume(m), BasePool(m), m.baseImage);
  }

  lemma EnsurePoolAddsNone(p: Pass, pool: string, path: string, k: Key)
    requires k !in p.remote.host.volumes
    ensures k !in EnsurePool(p, pool, path).pass.remote.host.volumes
  {
    hide EnsurePool;
    var inv, ok := (r: Remote) => k !in r.host.volumes, (c: Call) => !MakesVolume(c);
    assert Closed(inv, ok) by {
      hide HostAfter;
      forall r: Remote, c | inv(r) && ok(c)
        ensures inv(Send(r, c))
      {
        VolumesAfter(r.host, c, NextFault(r.faults));
      }
    }
    EnsurePoolKeeps(p, pool, path, inv, ok);
  }

  /** Staging the cluster image creates no volume of the machine. */
  lemma StageImageAddsNone(m: Machine, x: Inputs, p: Pass, k: Key)
    requires k !in p.remote.host.volumes && !IsImageKey(m, k)
    ensures k !in StageImage(m, x, p).pass.remote.host.volumes
  {
    hide Send, Reply, EnsureVolume;
    if m.clusterImage.Some? {
      var pool, vol := m.clusterImage.value.pool, m.clusterImage.value.volume;
      var q := After(p, VolumeExists(pool, vol));
      SaidVolume(p.remote, pool, vol);
      if x.image.Some? {
        UploadAddsOne(q, pool, vol, x.image.value, k);
      }
    }
  }

  lemma UploadAddsOne(p: Pass, pool: string, vol: string, image: Volume, k: Key)
    requires k !in p.remote.host.volumes && k != Key(pool, vol)
    ensures k !in EnsureVolume(p, pool, vol, Fetched(image)).pass.remote.host.volumes
  {
    hide HostAfter, Reply;
    SaidVolume(p.remote, pool, vol);
    var q := After(p, VolumeExists(pool, vol));
    VolumesAfter(q.remote.host, UploadQcow2Volume(pool, vol, image), NextFault(q.remote.faults));
  }

  /** The first, undisturbed pass of such a machine leaves the clone and no domain. */
  lemma FirstPassLeavesClone(m: Machine, x: Inputs, h: Host, p: Pass)
    requires p == Begin(m, p.remote, None, p.ready) && Quiet(p) && p.remote.host == h
    requires Fresh(m, h) && Offers(m, h) && Supplied(m, x) && Distinct(m)
    requires m.fullClone && RootHome(m) != WorkPool(m)
    ensures var h' := Normal(m, x, p).pass.remote.host;
            && Has(h', {CloneKey(m)}, NamedPools(m) + {WorkPool(m)})
            && BaseName(m) !in h'.domains
  {
    hide CheckPools, Provision, FirstMentions, ReferencedPools, RootHome, WorkPool, BaseKey, Has, NamedPools, Grown;
    var list := FirstMentions(ReferencedPools(m));
    var q := CheckPools(list, p).pass;
    PreflightPasses(m, p);
    CheckPoolsFields(list, p);
    ReadyUntouched(list, p);
    var size := AutoSize(m.vcpus, m.memoryMB, x.capacity).size;
    CloneLeft(m, x, h, q, size);
  }

  lemma PreflightPasses(m: Machine, p: Pass)
    requires Quiet(p) && Offers(m, p.remote.host)
    ensures var r := CheckPools(FirstMentions(ReferencedPools(m)), p);
            Through(p, r) && r.pass.remote.host == p.remote.host
  {
    hide CheckPools, FirstMentions, ReferencedPools, BaseKey, IsImageKey;
    var list := FirstMentions(ReferencedPools(m));
    Preflight.FirstMentionsExact(ReferencedPools(m));
    Preflight.ReferencedPoolsExact(m);
    forall i | 0 <= i < |list|
      ensures list[i].pool in p.remote.host.pools
    {
      assert Names(list, list[i].pool);
    }
    CheckPoolsQuiet(list, p);
  }

  lemma CloneLeft(m: Machine, x: Inputs, h: Host, p: Pass, size: Capacity)
    requires p == Begin(m, p.remote, None, p.ready) && Quiet(p) && p.remote.host == h
    requires Fresh(m, h) && Offers(m, h) && Supplied(m, x) && Distinct(m)
    requires m.fullClone && RootHome(m) != WorkPool(m)
    ensures var h' := Provision(m, x, p, size).pass.remote.host;
            && Has(h', {CloneKey(m)}, NamedPools(m) + {WorkPool(m)})
            && BaseName(m) !in h'.domains
  {
    hide StageImage, RootDisk, Bootstrap, FirstDisks, BootArtifacts, RunDomain, Has, NamedPools, Kept, Allowed,
         WorkPool, AutoSize, Provision, Grown, KernelFile, InitrdFile;
    assert Touchable(m, RootKey(m)) && Touchable(m, CloneKey(m));
    FieldsAlong(m, x, p);
    StagedAndOffered(m, x, p);
    var a := StageImage(m, x, p).pass;
    StageImageAddsNone(m, x, p, RootKey(m));
    StageImageAddsNone(m, x, p, CloneKey(m));
    RootDiskClonesElsewhere(m, a);
    var late := Mode(m, x, size, (q: string) => "", false, 1, Free, true);
    var keys, pools := {CloneKey(m)}, NamedPools(m) + {WorkPool(m)};
    HasIsKept(late, keys, pools);
    RestOfProvisionKeeps(late, p, (r: Remote) => Has(r.host, keys, pools), c => Allowed(late, c));
    GrownAtStart(m, h);
    NeverDefined(m, x, h, p, size);
  }

  // ----- An undisturbed deletion -----

  lemma RemoveQuiet(p: Pass, c: Call)
    requires Quiet(p) && !TrueAnswer(p.remote.host, c).Err?
    ensures Remove(p, c).flow.Going? && Quiet(Remove(p, c).pass)
    ensures RemoveQuietly(p, c).flow.Going? && Quiet(RemoveQuietly(p, c).pass)
    ensures Remove(p, c).pass.remote.host == RemoveQuietly(p, c).pass.remote.host == Effect(p.remote.host, c)
  {
    hide Send, Reply, TrueAnswer, Effect;
    StaysQuiet(p.remote, c);
  }

  lemma RemoveDisksQuiet(m: Machine, n: nat, p: Pass)
    requires Quiet(p) && n <= |m.disks| && Has(p.remote.host, {}, DiskPools(m))
    ensures var r := RemoveDisks(m, n, p);
            r.flow.Going? && Quiet(r.pass) && r.pass.remote.host.pools == p.remote.host.pools
  {
    hide Remove, Quiet;
    if n > 0 {
      RemoveDisksQuiet(m, n - 1, p);
      var d := m.disks[n - 1];
      assert d.storagePool in DiskPools(m);
      RemoveQuiet(RemoveDisks(m, n - 1, p).pass, DeleteVolume(d.storagePool, DiskVolume(m, d)));
    }
  }

  lemma RemoveVolumesQuiet(m: Machine, p: Pass)
    requires Quiet(p) && Has(p.remote.host, {}, DiskPools(m) + {WorkPool(m)})
    ensures RemoveVolumes(m, p).flow.Going? && Quiet(RemoveVolumes(m, p).pass)
  {
    hide Remove, RemoveQuietly, Quiet, RemoveDisks, DiskPools, WorkPool, IgnitionPath;
    assert WorkPool(m) in DiskPools(m) + {WorkPool(m)};
    RemoveQuiet(p, DeleteVolume(WorkPool(m), RootVolume(m)));
    var a := Remove(p, DeleteVolume(WorkPool(m), RootVolume(m))).pass;
    if m.format.Ignition? {
      RemoveQuiet(a, DeleteRemoteFile(IgnitionPath(m)));
    } else if m.format.CloudInit? {
      RemoveQuiet(a, DeleteVolume(WorkPool(m), IsoVolume(m)));
    }
    var b := RemoveBootstrap(m, a).pass;
    RemoveDisksQuiet(m, |m.disks|, b);
  }

  lemma DeleteQuiet(m: Machine, x: Inputs, p: Pass)
    requires Quiet(p) && x.hostReady && x.clients
    requires BaseName(m) in p.remote.host.domains ==> p.remote.host.domains[BaseName(m)].running
    requires Has(p.remote.host, {}, DiskPools(m) + {WorkPool(m)})
    ensures Delete(m, x, p).flow.Going?
  {
    hide Remove, Quiet, RemoveVolumes, DiskPools, WorkPool, BaseName, EphemeralPool;
    RemoveQuiet(p, DestroyDomain(BaseName(m)));
    var p1 := Remove(p, DestroyDomain(BaseName(m))).pass;
    RemoveQuiet(p1, UndefineDomain(BaseName(m)));
    var a := RemoveDomain(m, p).pass;
    RemoveVolumesQuiet(m, a);
    RemoveQuiet(RemoveVolumes(m, a).pass, DestroyPool(EphemeralPool(m)));
  }

  // ----- When a life leaves the host as it found it -----

  /** One undisturbed pass, a request to delete, one undisturbed deletion. */
  function PlainLife(x: Inputs): seq<Event> { [Reconcile(x, [], true), RequestDeletion, Reconcile(x, [], true)] }

  lemma ThreeEvents(m: Machine, w: World, a: Event, b: Event, c: Event)
    ensures Run(m, w, [a, b, c]) == Step(m, Step(m, Step(m, w, a), b), c)
  {
    hide Step;
    assert [a, b, c][..2] == [a, b];
    TwoEvents(m, w, a, b);
  }

  /** The start of a life: as for a calm run, wherever a full clone may land; the clone's key
      does not happen to be the name of an additional disk. */
  ghost predicate LifeStart(m: Machine, x: Inputs, w: World) {
    && Fresh(m, w.host) && Offers(m, w.host) && Supplied(m, x) && Distinct(m)
    && !IsDiskKey(m, CloneKey(m))
    && GenuineImage(StrictMode(m, x, w.host), w.host.volumes) && GenuineFiles(StrictMode(m, x, w.host), w.host.files)
    && w.obj.Live? && w.obj.finalizer && !w.obj.deleting && w.obj.failure.None?
  }

  /** The deletion pass of a plain life. */
  function LastPass(m: Machine, x: Inputs, w: World): Pass
    requires w.obj.Live? && w.obj.finalizer
  {
    var w2 := Step(m, Step(m, w, Reconcile(x, [], true)), RequestDeletion);
    if w2.obj.Live? then Begin(m, Remote(w2.host, [], []), w2.obj.failure, w2.obj.ready)
    else Begin(m, Remote(w2.host, [], []), None, false)
  }

  lemma PlainLifeUnfolds(m: Machine, x: Inputs, w: World)
    requires w.obj.Live? && w.obj.finalizer && !w.obj.deleting
    ensures var q := LastPass(m, x, w);
            && q == Begin(m, q.remote, q.failure, q.ready) && Quiet(q)
            && q.remote.host == Normal(m, x,
                Begin(m, Remote(w.host, [], []), w.obj.failure, w.obj.ready)).pass.remote.host
            && Run(m, w, PlainLife(x)).host == Delete(m, x, q).pass.remote.host
            && (Delete(m, x, q).flow.Going? ==> Run(m, w, PlainLife(x)).obj.Gone?)
  {
    hide Normal, Delete, Run;
    ThreeEvents(m, w, Reconcile(x, [], true), RequestDeletion, Reconcile(x, [], true));
  }

  lemma PlainLifeLeaksClone(m: Machine, x: Inputs, w: World)
    requires LifeStart(m, x, w) && RootHome(m) != WorkPool(m)
    ensures var end := Run(m, w, PlainLife(x));
            end.obj.Gone? && CloneKey(m) in end.host.volumes && !Restored(m, w.host, end.host)
  {
    hide Run, Normal, Delete, LastPass, Fresh, Distinct, RootHome, WorkPool, Offers, AutoSize, GenuineFiles,
         GenuineImage, Supplied, Has, DiskPools, NamedPools, FramedFiles, IsDiskKey, Removed, IsImageKey, BaseName,
         CloneKey, InEphemeral;
    OnlyClonesMove(m);
    FirstPassLeavesClone(m, x, w.host, Begin(m, Remote(w.host, [], []), w.obj.failure, w.obj.ready));
    PlainLifeUnfolds(m, x, w);
    var q := LastPass(m, x, w);
    var h := q.remote.host;
    DisksAreNamed(m);
    HasPart(h, {CloneKey(m)}, NamedPools(m) + {WorkPool(m)}, {}, DiskPools(m) + {WorkPool(m)});
    HasPart(h, {CloneKey(m)}, NamedPools(m) + {WorkPool(m)}, {CloneKey(m)}, {});
    HasIso(h, CloneKey(m));
    SuppliedHost(m, x);
    DeleteQuiet(m, x, q);
    CloneIsStray(m, w.host);
    SurvivesDelete(m, x, q, CloneKey(m), h.volumes[CloneKey(m)]);
  }

  lemma OnlyClonesMove(m: Machine)
    requires RootHome(m) != WorkPool(m)
    ensures m.fullClone
  {
  }

  lemma SuppliedHost(m: Machine, x: Inputs)
    requires Supplied(m, x)
    ensures x.hostReady && x.clients
  {
  }

  /** Deletion does not look where the clone is, and the host did not have it. */
  lemma CloneIsStray(m: Machine, h: Host)
    requires m.fullClone && RootHome(m) != WorkPool(m) && !IsDiskKey(m, CloneKey(m)) && Fresh(m, h)
        && Offers(m, h) && Distinct(m)
    ensures !Removed(m, CloneKey(m)) && !InEphemeral(m, CloneKey(m).pool)
    ensures CloneKey(m) !in h.volumes && !IsImageKey(m, CloneKey(m))
  {
    hide EphemeralPool;
    assert Refers(m, BasePool(m));
    assert Touchable(m, CloneKey(m));
    var n, i := RootVolume(m), IsoVolume(m);
    assert n[|n| - 1] == '2' && i[|i| - 1] == 'o';
  }

  /** After an undisturbed first pass every pool that the deletion visits is active. */
  lemma FirstPassReadiesDeletion(m: Machine, x: Inputs, h: Host, p: Pass)
    requires Fresh(m, h) && Offers(m, h) && Supplied(m, x) && RootHome(m) == WorkPool(m)
    requires p == Begin(m, Remote(h, [], []), None, p.ready)
    ensures var h' := Normal(m, x, p).pass.remote.host;
            && Has(h', {}, DiskPools(m) + {WorkPool(m)})
            && (BaseName(m) in h'.domains ==> h'.domains[BaseName(m)].running)
  {
    hide Normal, Fresh, RootHome, WorkPool, Offers, AutoSize, Supplied, Has, DiskPools, Provisioned, BaseName;
    NormalQuiet(m, x, p);
    NormalIsComplete(m, x, p);
    PoolsForDeletion(m, x, h, p);
  }

  lemma PlainLifeIsRetryable(x: Inputs)
    ensures RetryableEvents(PlainLife(x))
  {
    NoFaultsAreRetryable();
  }

  lemma PlainLifeRestores(m: Machine, x: Inputs, w: World)
    requires LifeStart(m, x, w) && RootHome(m) == WorkPool(m)
    ensures var end := Run(m, w, PlainLife(x)); end.obj.Gone? && Restored(m, w.host, end.host)
    ensures IgnitionPath(m) !in w.host.files ==> IgnitionPath(m) !in Run(m, w, PlainLife(x)).host.files
  {
    hide Run, Normal, Delete, LastPass, Fresh, Distinct, RootHome, WorkPool, Offers, AutoSize, GenuineFiles,
         GenuineImage, Supplied, Has, DiskPools, Restored, IsDiskKey, RetryableEvents, SettledLife, StraysNothing,
         PlainLife, BaseName, Quiet, CloneKey, IgnitionPath, Grown, NoMore;
    FirstPassReadiesDeletion(m, x, w.host, Begin(m, Remote(w.host, [], []), w.obj.failure, w.obj.ready));
    PlainLifeUnfolds(m, x, w);
    SuppliedHost(m, x);
    DeleteQuiet(m, x, LastPass(m, x, w));
    PlainLifeIsRetryable(x);
    LifeSettles(m, w, PlainLife(x));
    SettledLifeStraysNothing(m, w, PlainLife(x));
    LifeRestoresHost(m, w, PlainLife(x));
    if IgnitionPath(m) !in w.host.files { IgnitionFileGone(m, x, w); }
  }

  /** Of the machine's own files, the one with the bootstrap data goes with it. */
  lemma IgnitionFileGone(m: Machine, x: Inputs, w: World)
    requires Fresh(m, w.host) && w.obj.Live? && w.obj.finalizer && !w.obj.deleting
    requires Delete(m, x, LastPass(m, x, w)).flow.Going? && IgnitionPath(m) !in w.host.files
    ensures IgnitionPath(m) !in Run(m, w, PlainLife(x)).host.files
  {
    hide Run, Normal, Delete, LastPass, Fresh, PlainLife, BaseName, IgnitionPath, Grown;
    var q := LastPass(m, x, w);
    PlainLifeUnfolds(m, x, w);
    if m.format.Ignition? {
      ReleaseRemovesIgnitionFile(m, x, q);
    } else {
      GrownAtStart(m, w.host);
      NoFaultsAreRetryable();
      RetryableGathers(m, x, StartOf(m, w, []));
      NoIgnitionFile(m, x, w.host, StartOf(m, w, []));
      DeleteAddsNothing(m, x, q);
    }
  }

  ghost predicate GrownWithoutFile(m: Machine, was: Host, h: Host) { Grown(m, was, h) && IgnitionPath(m) !in h.files }

  lemma WithoutFileByCall(g: Mode, was: Host, h: Host, c: Call, f: Fault)
    requires g.strict && !g.m.format.Ignition? && GrownWithoutFile(g.m, was, h) && Allowed(g, c)
    ensures GrownWithoutFile(g.m, was, HostAfter(h, c, f))
  {
    hide HostAfter, Grown, BaseName, EphemeralPool, EphemeralPath, IgnitionPath, BootPath, OutsideDir, WantedDefinition,
         KernelFile, InitrdFile, Within;
    GrownByCall(g, was, h, c, f);
    FilesAfter(h, c, f);
    if c.WriteRemoteFile? {
      BootFilesAreApart(g.m, g.m.boot.value, g.x.bootFiles.value);
    }
    OutsideDirIsLess(h.files, if c.CreateTmpfsPool? then c.path else "");
    if c.DestroyPool? && c.pool in h.pools { OutsideDirIsLess(h.files, h.pools[c.pool].path); }
  }

  lemma OutsideDirIsLess(files: map<string, File>, dir: string)
    ensures OutsideDir(files, dir).Keys <= files.Keys
  {
  }

  /** A machine with other bootstrap data never writes an ignition file. */
  lemma NoIgnitionFile(m: Machine, x: Inputs, was: Host, p: Pass)
    requires Fresh(m, was) && !m.format.Ignition? && p == Begin(m, p.remote, p.failure, p.ready)
    requires GrownWithoutFile(m, was, p.remote.host) && SettlesPool(m, x, p)
    ensures IgnitionPath(m) !in Normal(m, x, p).pass.remote.host.files
  {
    hide Normal, Grown, Allowed, Agrees, Site, IgnitionPath, HostAfter, SettlesPool, AutoSize;
    var g := GrowingMode(m, x, was);
    var inv, ok := (r: Remote) => GrownWithoutFile(m, was, r.host), (c: Call) => Allowed(g, c);
    FreshLacksPool(m, was);
    forall r: Remote, c | inv(r) && ok(c)
      ensures inv(Send(r, c))
    {
      WithoutFileByCall(g, was, r.host, c, NextFault(r.faults));
    }
    forall r: Remote | inv(r)
      ensures Agrees(g.site, r.host)
    {
      GrownAgrees(g, was, r.host);
    }
    NormalKeeps(g, p, inv, ok);
  }

  lemma NoFaultsAreRetryable()
    ensures Retryable([])
  {
  }

  lemma PoolsForDeletion(m: Machine, x: Inputs, h: Host, p: Pass)
    requires Fresh(m, h) && Offers(m, h)
    requires p == Begin(m, Remote(h, p.remote.faults, []), p.failure, p.ready)
    requires Provisioned(m, x, Normal(m, x, p).pass.remote.host)
    ensures var h' := Normal(m, x, p).pass.remote.host;
            && Has(h', {}, DiskPools(m) + {WorkPool(m)})
            && (BaseName(m) in h'.domains ==> h'.domains[BaseName(m)].running)
  {
    hide Normal, AutoSize, Touchable, EphemeralPool, EphemeralPath, WorkPool, FramedVolumes, FramedDomains,
         FramedFiles, Bootstrapped, DiskKeys, Delete;
    var w := World(h, Live(true, false, p.failure, p.ready));
    FramedAtStart(m, h);
    FramedByPass(m, h, w, x, p.remote.faults);
    var h' := Normal(m, x, p).pass.remote.host;
    assert PassOf(m, w, x, p.remote.faults).pass.remote.host == h';
    forall q | q in DiskPools(m)
      ensures Active(h', q)
    {
      var i :| 0 <= i < |m.disks| && q == m.disks[i].storagePool;
      assert Refers(m, q);
    }
  }

  /** Cleanup completeness, exactly.  A machine's plain life leaves the host as it found it if
      and only if the root disk is created in the pool where it is looked for: not for a full
      clone whose base image pool is not the pool the machine works in, in particular not for a
      full clone with an ephemeral pool. */
  lemma LifeRestoresExactly(m: Machine, x: Inputs, w: World)
    requires LifeStart(m, x, w)
    ensures Run(m, w, PlainLife(x)).obj.Gone?
    ensures Restored(m, w.host, Run(m, w, PlainLife(x)).host) <==> RootHome(m) == WorkPool(m)
  {
    hide Run, Restored, LifeStart, RootHome, WorkPool;
    if RootHome(m) == WorkPool(m) {
      PlainLifeRestores(m, x, w);
    } else {
      PlainLifeLeaksClone(m, x, w);
    }
  }
}
