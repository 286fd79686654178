/** What becomes of a refusal that a pass records and passes over: lives in which it does harm. */
module Refusals {
  import opened Common
  import opened LibvirtHost
  import opened LibvirtMachine
  import opened Provisioning
  import opened PassCalls
  import opened Ready
  import opened QuietPass
  import opened Convergence
  import opened Life
  import opened Retry
  import opened Definitions
  import opened Leftovers
  import Preflight

  // ----- A terminal error is swallowed -----

  /** A refused call on the first additional disk records a failure and abandons the disks, and
      the pass goes on: it still defines and starts the domain, without them. */
  lemma RefusedDiskStillStarts(m: Machine, x: Inputs, p: Pass, size: Capacity)
    requires |m.disks| > 0 && p.disks == [] && p.pool == WorkPool(m)
    requires p.remote.faults == [Broken(Nothing, Terminal)]
    requires Has(p.remote.host, {RootKey(m)}, {WorkPool(m)})
    requires m.format.CloudInit? ==> IsoKey(m) in p.remote.host.volumes
    requires m.boot.None?
    ensures var d := FirstDisks(m, |m.disks|, p);
            && d.flow.Skipped? && d.pass.failure.Some? && d.pass.disks == [] && d.pass.remote.host == p.remote.host
            && BootArtifacts(m, x, d.pass).flow.Going?
            && RunDomain(m, BootArtifacts(m, x, d.pass).pass, size).flow.Going?
  {
    hide Send, Reply, OneDisk, RunDomain, Has, WorkPool, RootKey, IsoKey;
    RefusedDisk(m, p);
    RefusalEndsLoop(m, |m.disks|, p);
    RunDomainQuiet(m, FirstDisks(m, |m.disks|, p).pass, size);
  }

  lemma RefusedDisk(m: Machine, p: Pass)
    requires |m.disks| > 0 && p.remote.faults == [Broken(Nothing, Terminal)]
    ensures var r := OneDisk(m, m.disks[0], p);
            && r.flow.Skipped? && r.pass.failure.Some? && r.pass.remote.faults == []
                && r.pass.remote.host == p.remote.host
            && r.pass.disks == p.disks && r.pass.pool == p.pool
  {
    hide DiskVolume;
    var c := VolumeExists(m.disks[0].storagePool, DiskVolume(m, m.disks[0]));
    assert Said(p, c) == Err(Terminal);
  }

  lemma RefusalEndsLoop(m: Machine, n: nat, p: Pass)
    requires 0 < n <= |m.disks| && OneDisk(m, m.disks[0], p).flow.Skipped?
    ensures FirstDisks(m, n, p) == OneDisk(m, m.disks[0], p)
  {
    hide OneDisk;
    if n == 1 {
      assert FirstDisks(m, 0, p) == Result(p, Going);
    } else {
      RefusalEndsLoop(m, n - 1, p);
    }
  }

  // ----- A pass that works until one call is refused -----

  function Fines(n: nat): seq<Fault> { seq(n, _ => Fine) }

  /** The call that works before the others. */
  lemma FineCall(r: Remote, c: Call, n: nat, rest: seq<Fault>)
    requires n > 0 && r.faults == Fines(n) + rest
    ensures Send(r, c).faults == Fines(n - 1) + rest && Reply(r, c) == TrueAnswer(r.host, c)
    ensures Send(r, c).host == (if TrueAnswer(r.host, c).Err? then r.host else Effect(r.host, c))
  {
    hide TrueAnswer, Effect;
    assert r.faults[0] == Fine && r.faults[1..] == Fines(n - 1) + rest;
  }

  lemma FinePools(list: seq<Required>, p: Pass, n: nat, rest: seq<Fault>)
    requires n >= |list| && p.remote.faults == Fines(n) + rest
    requires forall i | 0 <= i < |list| :: list[i].pool in p.remote.host.pools
    ensures var r := CheckPools(list, p);
            && r.flow.Going? && r.pass.remote.host == p.remote.host && r.pass.remote.faults == Fines(n - |list|) + rest
            && r.pass.(remote := p.remote) == p
  {
    hide Send, Reply;
    if list != [] {
      FineCall(p.remote, PoolExists(list[0].pool), n, rest);
      FinePools(list[1..], After(p, PoolExists(list[0].pool)), n - 1, rest);
    }
  }

  lemma FinePreflight(m: Machine, p: Pass, n: nat, rest: seq<Fault>)
    requires Offers(m, p.remote.host) && p.remote.faults == Fines(|FirstMentions(ReferencedPools(m))| + n) + rest
    ensures var r := Provisioning.Preflight(m, p);
            && r.flow.Going? && r.pass.remote.host == p.remote.host && r.pass.remote.faults == Fines(n) + rest
            && r.pass.(remote := p.remote) == p
  {
    hide CheckPools, FirstMentions, ReferencedPools, BaseKey, IsImageKey, Fines;
    var list := FirstMentions(ReferencedPools(m));
    Preflight.FirstMentionsExact(ReferencedPools(m));
    Preflight.ReferencedPoolsExact(m);
    forall i | 0 <= i < |list|
      ensures list[i].pool in p.remote.host.pools
    {
      assert Names(list, list[i].pool);
    }
    FinePools(list, p, |list| + n, rest);
  }

  // ----- A refused disk whose failure is lost -----

  /** The machines of the example: an overlay root disk in the storage pool, ignition, additional disks. */
  predicate Simple(m: Machine) {
    !m.ephemeral && !m.fullClone && m.clusterImage.None? && m.boot.None? && m.format.Ignition? && |m.disks| > 0
  }

  lemma FineRootDisk(m: Machine, p: Pass, rest: seq<Fault>)
    requires Simple(m) && p.pool == m.storagePool && p.remote.faults == Fines(4) + rest
    requires Active(p.remote.host, m.storagePool) && RootKey(m) !in p.remote.host.volumes
    requires Active(p.remote.host, BasePool(m)) && BaseKey(m) in p.remote.host.volumes
    ensures var r := RootDisk(m, p);
            && r.flow.Going? && r.pass.remote.faults == Fines(1) + rest
            && r.pass.(remote := p.remote) == p
            && Has(r.pass.remote.host, {RootKey(m)}, {WorkPool(m)})
            && r.pass.remote.host.domains == p.remote.host.domains
  {
    hide Send, Reply, RootVolume, BasePool, Fines;
    var pool, vol := m.storagePool, RootVolume(m);
    var c1, c2 := VolumeExists(pool, vol), GetVolumePath(BasePool(m), m.baseImage);
    FineCall(p.remote, c1, 4, rest);
    var p1 := After(p, c1);
    FineCall(p1.remote, c2, 3, rest);
    var p2 := After(p1, c2);
    FineCall(p2.remote, CreateVolumeFromBackingStore(pool, vol,
        VolumePath(p.remote.host, BasePool(m), m.baseImage), m.rootSize), 2, rest);
  }

  lemma FineBootstrap(m: Machine, x: Inputs, p: Pass, rest: seq<Fault>)
    requires m.format.Ignition? && x.bootstrap.Some? && p.remote.faults == Fines(1) + rest
    ensures var r := Bootstrap(m, x, p);
            && r.flow.Going? && r.pass.remote.faults == rest && r.pass.(remote := p.remote) == p
            && r.pass.remote.host.volumes == p.remote.host.volumes && r.pass.remote.host.pools == p.remote.host.pools
            && r.pass.remote.host.domains == p.remote.host.domains
  {
    hide Send, Reply, IgnitionPath;
    FineCall(p.remote, WriteRemoteFile(IgnitionPath(m), x.bootstrap.value), 1, rest);
    assert Fines(0) + rest == rest;
  }

  /** The schedule: everything works until the first look at a disk, which is refused. */
  function RefuseDisk(m: Machine): seq<Fault> {
    Fines(|FirstMentions(ReferencedPools(m))| + 4) + [Broken(Nothing, Terminal)]
  }

  lemma RefusedPass(m: Machine, x: Inputs, p: Pass)
    requires Simple(m) && Supplied(m, x) && p == Begin(m, p.remote, None, p.ready)
    requires Fresh(m, p.remote.host) && Offers(m, p.remote.host) && p.remote.faults == RefuseDisk(m)
    ensures var r := Normal(m, x, p);
            && r.flow.Going? && r.pass.failure.Some? && DefOf(m, r.pass.remote.host).Some?
            && Reaches(m, x, p) && !Disked(m, x, Provisioning.Preflight(m, p).pass).flow.Going?
  {
    hide CheckPools, FirstMentions, ReferencedPools, RootDisk, Bootstrap, FirstDisks, RunDomain, Provision, Normal,
         AutoSize, Fines, Has, RootVolume, BasePool, EphemeralPool, BaseName;
    var rest := [Broken(Nothing, Terminal)];
    FinePreflight(m, p, 4, rest);
    NormalUnfolds(m, x, p);
    var q := Provisioning.Preflight(m, p).pass;
    var size := AutoSize(m.vcpus, m.memoryMB, x.capacity).size;
    assert Refers(m, m.storagePool) && Refers(m, BasePool(m)) && Touchable(m, RootKey(m));
    FineRootDisk(m, q, rest);
    FineBootstrap(m, x, RootDisk(m, q).pass, rest);
    var c := Bootstrap(m, x, RootDisk(m, q).pass).pass;
    assert Has(c.remote.host, {RootKey(m)}, {WorkPool(m)})
        by { HasSame(RootDisk(m, q).pass.remote.host, c.remote.host, {RootKey(m)}, {WorkPool(m)}); }
    RefusedDiskStillStarts(m, x, c, size);
    ProvisionUnfolds(m, x, q, size);
    RunDomainGives(m, Booted(m, x, q).pass, size);
    RunDomainSticks(m, Booted(m, x, q).pass, size);
    assert Running(m, Normal(m, x, p).pass.remote.host);
  }

  lemma HasSame(h: Host, h': Host, keys: set<Key>, pools: set<string>)
    requires Has(h, keys, pools) && h'.volumes == h.volumes && h'.pools == h.pools
    ensures Has(h', keys, pools)
  {
  }

  /** So Ready with no failure recorded is not enough: when the pass that met the refusal loses its
      patch, the next, undisturbed pass finds the domain, sets Ready with no failure recorded, and the
      domain runs without the disks for good. */
  lemma LostRefusal(m: Machine, x: Inputs, w: World)
    requires Simple(m) && Supplied(m, x) && Fresh(m, w.host) && Offers(m, w.host) && Distinct(m)
    requires w.obj.Live? && !w.obj.deleting && w.obj.failure.None?
    ensures var now := Run(m, w, [Reconcile(x, RefuseDisk(m), false)]);
            && now.obj == w.obj && !KeepsFailures(m, w, [Reconcile(x, RefuseDisk(m), false)])
            && var r := PassOf(m, now, x, []);
            && r.flow.Going? && r.pass.ready && r.pass.failure.None?
            && Provisioned(m, x, r.pass.remote.host)
            && !DefinedOverDisks(m, Site(m, w.host), r.pass.remote.host)
  {
    hide Normal, CheckPools, Fresh, Offers, Supplied, Distinct, DefinedOverDisks, DefOf, Site, Agrees, OwnSite,
         AutoSize, RefuseDisk, Provisioned, FramedVolumes, FramedPools, FramedDomains, FramedFiles, Assembled,
         OwnDirectory, Reaches, Disked;
    var e := Reconcile(x, RefuseDisk(m), false);
    var p := StartOf(m, w, RefuseDisk(m));
    OneEvent(m, w, e);
    RefusedPass(m, x, p);
    var h := Normal(m, x, p).pass.remote.host;
    assert Run(m, w, [e]) == World(h, w.obj);
    var now := World(h, w.obj);
    FreshIsOwn(m, w.host);
    assert DefOf(m, w.host).None? by { NoDef(m, w.host); }
    assert Agrees(Site(m, w.host), w.host) by { SiteAgreesHere(m, w.host); }
    assert !Assembled(m, x, Provisioning.Preflight(m, p).pass)
        by { NotAssembled(m, x, Provisioning.Preflight(m, p).pass); }
    assert ApartSite(m, Site(m, w.host));
    NewDefinition(m, x, p, Site(m, w.host));
    FramedAtStart(m, w.host);
    FramedByPass(m, w.host, w, x, RefuseDisk(m));
    BaseIsForeign(m);
    OffersStays(m, w.host, h);
    var q := StartOf(m, now, []);
    NormalQuiet(m, x, q);
    NormalIsComplete(m, x, q);
    RunAgrees(m, w, [e]);
    PassDefines(m, x, q, Site(m, w.host)) by { hide *; }
    assert !DefinedOverDisks(m, Site(m, w.host), Normal(m, x, q).pass.remote.host) by {
      if DefinedOverDisks(m, Site(m, w.host), Normal(m, x, q).pass.remote.host) {
        DefinedByDef(m, Site(m, w.host), Normal(m, x, q).pass.remote.host, h);
      }
    }
    assert !KeepsFailure(m, w, e);
    assert !KeepsFailures(m, w, [e]) by { OneLost(m, w, e); }
  }

  lemma OneEvent(m: Machine, w: World, e: Event)
    ensures Run(m, w, [e]) == Step(m, w, e)
  {
    hide Step;
    assert [e][..0] == [];
  }

  lemma OneLost(m: Machine, w: World, e: Event)
    requires !KeepsFailure(m, w, e)
    ensures !KeepsFailures(m, w, [e])
  {
    hide KeepsFailure, Step;
    assert [e][..0] == [];
  }

  lemma NoDef(m: Machine, h: Host)
    requires BaseName(m) !in h.domains
    ensures DefOf(m, h).None?
  {
  }

  lemma NotAssembled(m: Machine, x: Inputs, p: Pass)
    requires !Disked(m, x, p).flow.Going?
    ensures !Assembled(m, x, p)
  {
    hide Disked, Rooted;
  }

  // ----- A refused ephemeral pool -----

  lemma {:induction false} RunSplits(m: Machine, w: World, e: Event, events: seq<Event>)
    ensures Run(m, w, [e] + events) == Run(m, Step(m, w, e), events)
  {
    hide Step;
    if events == [] {
      OneEvent(m, w, e);
      assert [e] + events == [e];
    } else {
      var n := |events| - 1;
      assert ([e] + events)[..n + 1] == [e] + events[..n];
      RunSplits(m, w, e, events[..n]);
    }
  }

  /** Everything works until the first look at the ephemeral pool, which is refused. */
  function RefusePool(m: Machine): seq<Fault> {
    Fines(|FirstMentions(ReferencedPools(m))|) + [Broken(Nothing, Terminal)]
  }

  ghost function StrayIso(m: Machine): Key { Key(m.storagePool, IsoVolume(m)) }

  lemma StrayIsoIsStray(m: Machine, h: Host)
    requires m.ephemeral && m.format.CloudInit? && m.storagePool != EphemeralPool(m) && m.clusterImage.None?
        && Fresh(m, h)
    ensures var k := StrayIso(m);
            k !in h.volumes && Stray(m, k) && !Removed(m, k) && !InEphemeral(m, k.pool) && !IsImageKey(m, k)
  {
    var n := IsoVolume(m);
    assert n[|n| - 1] == 'o';
    assert Touchable(m, StrayIso(m));
    forall i | 0 <= i < |m.disks|
      ensures DiskVolume(m, m.disks[i]) != n
    {
      var d := DiskVolume(m, m.disks[i]);
      assert d[|d| - 1] == '2';
    }
  }

  lemma RefusedPoolStep(m: Machine, p: Pass)
    requires m.ephemeral && p.pool == m.storagePool && p.remote.faults == [Broken(Nothing, Terminal)]
    ensures var r := RootDisk(m, p);
            && r.flow.Skipped? && r.pass.failure.Some? && Quiet(r.pass) && r.pass.remote.host == p.remote.host
            && r.pass.(remote := p.remote, failure := p.failure, ready := p.ready) == p
  {
    hide EphemeralPool, EphemeralPath;
    assert Said(p, PoolExists(EphemeralPool(m))) == Err(Terminal);
  }

  lemma RefusedPoolPass(m: Machine, x: Inputs, p: Pass)
    requires m.ephemeral && m.format.CloudInit? && m.storagePool != EphemeralPool(m) && m.clusterImage.None?
    requires Supplied(m, x) && p == Begin(m, p.remote, None, p.ready) && p.remote.faults == RefusePool(m)
    requires Offers(m, p.remote.host) && Active(p.remote.host, m.storagePool)
    ensures StrayIso(m) in Normal(m, x, p).pass.remote.host.volumes && !SettlesPool(m, x, p)
  {
    hide CheckPools, FirstMentions, ReferencedPools, RootDisk, EnsureVolume, FirstDisks, BootArtifacts, RunDomain,
         Provision, Normal, AutoSize, Fines, Offers, Kept, Allowed, KernelFile, InitrdFile, EphemeralPool, Has;
    FinePreflight(m, p, 0, [Broken(Nothing, Terminal)]);
    NormalUnfolds(m, x, p);
    var q := Provisioning.Preflight(m, p).pass;
    var size := AutoSize(m.vcpus, m.memoryMB, x.capacity).size;
    assert Fines(0) + [Broken(Nothing, Terminal)] == [Broken(Nothing, Terminal)]
        by { NoFines([Broken(Nothing, Terminal)]); }
    RefusedPoolStep(m, q);
    var b := Rooted(m, x, q).pass;
    EnsureVolumeQuiet(b, b.pool, IsoVolume(m), Built(x.iso.value));
    EnsureVolumeGives(b, b.pool, IsoVolume(m), Built(x.iso.value));
    var keys := {StrayIso(m)};
    var g := Mode(m, x, size, (q: string) => "", false, 1, Free, true);
    var inv, ok := (r: Remote) => Has(r.host, keys, {}), (c: Call) => Allowed(g, c);
    HasIsKept(g, keys, {});
    HasPart(Bootstrapping(m, x, q).pass.remote.host, keys, {b.pool}, keys, {});
    FieldsAlong(m, x, q);
    FirstDisksKeeps(g, |m.disks|, Bootstrapping(m, x, q).pass, inv, ok);
    BootArtifactsKeeps(g, Disked(m, x, q).pass, inv, ok);
    RunDomainKeeps(g, Booted(m, x, q).pass, inv, ok);
    ProvisionUnfolds(m, x, q, size);
    HasIso(Normal(m, x, p).pass.remote.host, StrayIso(m));
  }

  lemma NoFines(rest: seq<Fault>)
    ensures Fines(0) + rest == rest
  {
  }

  /** How a pass leaves a stray: after a refusal of the ephemeral pool it puts the cloud-init ISO into the
      storage pool, where no deletion looks for it.  Whatever follows, the host never becomes again what
      it was. */
  lemma RefusedPoolLeaksIso(m: Machine, x: Inputs, w: World, patched: bool, events: seq<Event>)
    requires m.ephemeral && m.format.CloudInit? && m.storagePool != EphemeralPool(m) && m.clusterImage.None?
    requires Supplied(m, x) && Fresh(m, w.host) && Offers(m, w.host) && Active(w.host, m.storagePool)
    requires w.obj.Live? && !w.obj.deleting && w.obj.failure.None?
    ensures var e := Reconcile(x, RefusePool(m), patched);
            && LeavesStray(m, w, e)
            && StrayIso(m) in Run(m, w, [e] + events).host.volumes
            && !Restored(m, w.host, Run(m, w, [e] + events).host)
  {
    hide Normal, Run, Offers, Supplied, Fresh, RefusePool, Removed, InEphemeral, SettlesPool, AutoSize, IsImageKey,
         FramedFiles, Stray;
    var e := Reconcile(x, RefusePool(m), patched);
    var k := StrayIso(m);
    RefusedPoolPass(m, x, StartOf(m, w, RefusePool(m)));
    StrayIsoIsStray(m, w.host);
    var next := Step(m, w, e);
    RunSplits(m, w, e, events);
    StrayStays(m, next, events, k, next.host.volumes[k]);
  }
}
