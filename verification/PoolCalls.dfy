/** After preflight, every volume call of a pass names a pool that exists. */
module PoolCalls {
  import opened LibvirtHost
  import opened LibvirtMachine
  import opened Provisioning
  import opened PassCalls
  import opened Ready
  import opened Life
  import opened Definitions
  import Convergence
  import Preflight
  import QuietPass
  import Retry

  predicate VolumeCall(c: Call) {
    MakesVolume(c) || c.VolumeExists? || c.GetVolumePath? || c.DeleteVolume?
  }

  /** No pool named in the spec has the name generated for the ephemeral pool. */
  ghost predicate PoolsApart(m: Machine) {
    !InEphemeral(m, m.storagePool) && forall q | Refers(m, q) :: !InEphemeral(m, q)
  }

  ghost predicate ReferredThere(m: Machine, h: Host) { forall q | Refers(m, q) && q != "" :: q in h.pools }

  /** Up to the ephemeral pool: volume calls name referenced pools, and those exist. */
  ghost predicate Early(m: Machine, r: Remote) {
    ReferredThere(m, r.host) && forall c | c in r.log && VolumeCall(c) :: Refers(m, c.pool)
  }

  /** From then on: volume calls name referenced pools or the machine's own, and all of those exist. */
  ghost predicate Late(m: Machine, site: string -> string, r: Remote) {
    && ReferredThere(m, r.host) && (WorkPool(m) != "" ==> WorkPool(m) in r.host.pools) && Agrees(site, r.host)
    && forall c | c in r.log && VolumeCall(c) :: Named(m, c.pool)
  }

  // ----- Up to the ephemeral pool -----

  ghost predicate EarlyCall(m: Machine, c: Call) {
    && (VolumeCall(c) ==> Refers(m, c.pool))
    && (ChangesPool(c) ==> InEphemeral(m, c.pool))
  }

  lemma EarlyIsClosed(m: Machine)
    requires PoolsApart(m)
    ensures Closed((r: Remote) => Early(m, r), c => EarlyCall(m, c))
  {
    hide HostAfter, Refers, InEphemeral;
    forall r: Remote, c | Early(m, r) && EarlyCall(m, c)
      ensures Early(m, Send(r, c))
    {
      PoolsAfter(r.host, c, NextFault(r.faults));
    }
  }

  lemma StageImageIsEarly(m: Machine, x: Inputs, p: Pass)
    requires PoolsApart(m) && Early(m, p.remote)
    ensures Early(m, StageImage(m, x, p).pass.remote)
  {
    hide Send, Reply, Early, PoolsApart;
    if m.clusterImage.Some? {
      var pool, vol := m.clusterImage.value.pool, m.clusterImage.value.volume;
      assert Refers(m, pool);
      EarlyIsClosed(m);
      var ok := (c: Call) => EarlyCall(m, c);
      assert ok(VolumeExists(pool, vol)) && forall image :: ok(UploadQcow2Volume(pool, vol, image));
    }
  }

  lemma PoolStepIsEarly(m: Machine, p: Pass)
    requires PoolsApart(m) && m.ephemeral && Early(m, p.remote)
    ensures Early(m, EnsurePool(p, EphemeralPool(m), EphemeralPath(m)).pass.remote)
  {
    hide EnsurePool, Early, PoolsApart, Refers, EphemeralPath;
    EarlyIsClosed(m);
    EnsurePoolKeeps(p, EphemeralPool(m), EphemeralPath(m), (r: Remote) => Early(m, r), c => EarlyCall(m, c));
  }

  // ----- From then on -----

  lemma AllowedIsNamed(g: Mode, c: Call)
    requires g.strict && Allowed(g, c) && VolumeCall(c)
    ensures Named(g.m, c.pool)
  {
    hide BaseName, EphemeralPool, Touchable, Defines;
    assert Refers(g.m, BasePool(g.m));
  }

  lemma LateIsKept(g: Mode)
    requires g.strict && g.phase == 1 && OwnSite(g.m, g.site)
    ensures Kept(g, (r: Remote) => Late(g.m, g.site, r), c => Allowed(g, c))
  {
    hide HostAfter, Allowed, Agrees, Refers, WorkPool, Named, OwnSite;
    forall r: Remote, c | Late(g.m, g.site, r) && Allowed(g, c)
      ensures Late(g.m, g.site, Send(r, c))
    {
      PoolsAfter(r.host, c, NextFault(r.faults));
      AgreesByCall(g, g.site, r.host, c, NextFault(r.faults));
      assert !ChangesPool(c) by { NoPoolChange(g, c); }
      if VolumeCall(c) { AllowedIsNamed(g, c); }
    }
  }

  lemma NoPoolChange(g: Mode, c: Call)
    requires Allowed(g, c) && g.phase >= 1
    ensures !ChangesPool(c)
  {
    hide Within, Faithful, Defines;
  }

  lemma EarlyIsLate(m: Machine, site: string -> string, r: Remote)
    requires Early(m, r) && Agrees(site, r.host) && (m.ephemeral ==> EphemeralPool(m) in r.host.pools)
    ensures Late(m, site, r)
  {
    hide EphemeralPool, Agrees;
    assert !m.ephemeral ==> Refers(m, m.storagePool);
  }

  /** The root disk step ends early when it stops at the pool, and late otherwise. */
  lemma RootDiskCalls(g: Mode, p: Pass)
    requires g.strict && g.phase == 1 && OwnSite(g.m, g.site) && PoolsApart(g.m)
    requires p.pool == g.m.storagePool && Early(g.m, p.remote) && Agrees(g.site, p.remote.host)
    ensures var r := RootDisk(g.m, p);
            || (Early(g.m, r.pass.remote) && (Stops(r.flow) || r.pass.pool != WorkPool(g.m)))
            || Late(g.m, g.site, r.pass.remote)
  {
    hide EnsurePool, EnsureVolume, Early, Late, Agrees, OwnSite, EphemeralPool, EphemeralPath, Kept, Allowed;
    var m := g.m;
    LateIsKept(g);
    if m.ephemeral {
      var pool, path := EphemeralPool(m), EphemeralPath(m);
      var r := EnsurePool(p, pool, path);
      PoolStepIsEarly(m, p);
      EnsurePoolFields(p, pool, path);
      if r.flow.Going? {
        EnsurePoolGives(p, pool, path);
        assert Agrees(g.site, r.pass.remote.host) by { PoolStepAgrees(m, p, g.site); }
        EarlyIsLate(m, g.site, r.pass.remote);
        RootVolumeKeeps(g, r.pass, (r: Remote) => Late(m, g.site, r), c => Allowed(g, c));
      }
    } else {
      EarlyIsLate(m, g.site, p.remote);
      RootVolumeKeeps(g, p, (r: Remote) => Late(m, g.site, r), c => Allowed(g, c));
    }
  }

  lemma PoolStepAgrees(m: Machine, p: Pass, site: string -> string)
    requires m.ephemeral && OwnSite(m, site) && Agrees(site, p.remote.host)
    ensures Agrees(site, EnsurePool(p, EphemeralPool(m), EphemeralPath(m)).pass.remote.host)
  {
    hide EnsurePool, Agrees, HostAfter, Allowed, OwnSite;
    var g := Mode(m, QuietPass.NoInputs(), Capacity(0, 0), site, false, 0, Never, true);
    var inv, ok := (r: Remote) => Agrees(site, r.host), (c: Call) => Allowed(g, c);
    forall r: Remote, c | inv(r) && ok(c)
      ensures inv(Send(r, c))
    {
      AgreesByCall(g, site, r.host, c, NextFault(r.faults));
    }
    Convergence.EphemeralCallsAllowed(g);
    EnsurePoolKeeps(p, EphemeralPool(m), EphemeralPath(m), inv, ok);
  }

  lemma StageImageAgrees(m: Machine, x: Inputs, p: Pass, site: string -> string)
    requires OwnSite(m, site) && Agrees(site, p.remote.host)
    ensures Agrees(site, StageImage(m, x, p).pass.remote.host)
  {
    hide StageImage, Agrees, HostAfter, Allowed, OwnSite;
    var g := Mode(m, x, Capacity(0, 0), site, false, 0, Never, true);
    var inv, ok := (r: Remote) => Agrees(site, r.host), (c: Call) => Allowed(g, c);
    forall r: Remote, c | inv(r) && ok(c)
      ensures inv(Send(r, c))
    {
      AgreesByCall(g, site, r.host, c, NextFault(r.faults));
    }
    StageImageKeeps(g, p, inv, ok);
  }

  lemma ProvisionCalls(m: Machine, x: Inputs, p: Pass, size: Capacity, site: string -> string)
    requires p == Begin(m, p.remote, p.failure, p.ready) && Settled(m, x, p)
    requires OwnSite(m, site) && PoolsApart(m) && Early(m, p.remote) && Agrees(site, p.remote.host)
    ensures var end := Provision(m, x, p, size).pass.remote; Early(m, end) || Late(m, site, end)
  {
    hide StageImage, RootDisk, Bootstrap, FirstDisks, BootArtifacts, RunDomain, Provision, Kept, Allowed, Early,
         Late, Agrees, OwnSite, PoolsApart, KernelFile, InitrdFile, WorkPool;
    var g := Mode(m, x, size, site, true, 1, Free, true);
    var inv, ok := (r: Remote) => Late(m, site, r), (c: Call) => Allowed(g, c);
    ProvisionUnfolds(m, x, p, size);
    FieldsAlong(m, x, p);
    StageImageIsEarly(m, x, p);
    StageImageAgrees(m, x, p, site);
    RootDiskCalls(g, StageImage(m, x, p).pass);
    if !Stops(StageImage(m, x, p).flow) && !Stops(Rooted(m, x, p).flow) {
      LateIsKept(g);
      BootstrapKeeps(g, Rooted(m, x, p).pass, inv, ok);
      FirstDisksKeeps(g, |m.disks|, Bootstrapping(m, x, p).pass, inv, ok);
      BootArtifactsKeeps(g, Disked(m, x, p).pass, inv, ok);
      assert Named(m, WorkPool(m));
      RunDomainKeeps(g, Booted(m, x, p).pass, inv, ok);
    }
  }

  /** Under every schedule of faults, on every host, a pass that passes over no refusal of its ephemeral
      pool makes volume calls only on pools that the spec refers to or on the machine's own, and each of
      those pools (empty names aside) exists on the host it leaves. */
  lemma VolumeCallsFindTheirPool(m: Machine, x: Inputs, p: Pass)
    requires p == Begin(m, p.remote, p.failure, p.ready) && p.remote.log == []
    requires OwnDirectory(m, p.remote.host.pools) && PoolsApart(m) && SettlesPool(m, x, p)
    ensures var end := Normal(m, x, p).pass.remote;
            forall c | c in end.log && VolumeCall(c) ::
              && (Refers(m, c.pool) || c.pool == WorkPool(m))
              && (c.pool != "" ==> c.pool in end.host.pools)
  {
    hide Normal, Provision, CheckPools, FirstMentions, ReferencedPools, Settled, AutoSize, PoolsApart, Agrees,
         OwnSite, Refers, WorkPool, OwnDirectory, Site;
    var site, list := Site(m, p.remote.host), FirstMentions(ReferencedPools(m));
    NormalUnfolds(m, x, p);
    PreflightCallsNoVolume(list, p);
    if Reaches(m, x, p) {
      var q := Provisioning.Preflight(m, p).pass;
      assert Agrees(site, p.remote.host) && OwnSite(m, site) by { OwnAgrees(m, p.remote.host); }
      PreflightLeavesHost(list, p);
      assert Early(m, q.remote) by { PreflightSees(m, p); }
      ProvisionCalls(m, x, q, AutoSize(m.vcpus, m.memoryMB, x.capacity).size, site);
    }
  }

  lemma OwnAgrees(m: Machine, h: Host)
    requires OwnDirectory(m, h.pools)
    ensures Agrees(Site(m, h), h) && OwnSite(m, Site(m, h))
  {
  }

  lemma PreflightCallsNoVolume(list: seq<Required>, p: Pass)
    requires forall c | c in p.remote.log :: !VolumeCall(c)
    ensures forall c | c in CheckPools(list, p).pass.remote.log :: !VolumeCall(c)
  {
    hide HostAfter, Reply;
    if list != [] {
      PreflightCallsNoVolume(list[1..], After(p, PoolExists(list[0].pool)));
    }
  }

  lemma PreflightSees(m: Machine, p: Pass)
    requires p.remote.log == [] && Provisioning.Preflight(m, p).flow.Going?
    ensures Early(m, Provisioning.Preflight(m, p).pass.remote)
  {
    hide CheckPools, FirstMentions, ReferencedPools, Refers;
    var list := FirstMentions(ReferencedPools(m));
    PreflightCallsNoVolume(list, p);
    PreflightLeavesHost(list, p);
    CheckPoolsSeen(list, p);
    Preflight.FirstMentionsExact(ReferencedPools(m));
    Preflight.ReferencedPoolsExact(m);
    forall q | Refers(m, q) && q != ""
      ensures q in p.remote.host.pools
    {
      assert Names(list, q);
    }
  }

  /** Pools that preflight saw, under any faults, exist. */
  lemma CheckPoolsSeen(list: seq<Required>, p: Pass)
    requires CheckPools(list, p).flow.Going?
    ensures forall i | 0 <= i < |list| :: list[i].pool in p.remote.host.pools
  {
    hide Send, Reply;
    if list != [] {
      Retry.SaidExists(p.remote, list[0].pool);
      CheckPoolsSeen(list[1..], After(p, PoolExists(list[0].pool)));
      assert forall i | 0 < i < |list| :: list[i] == list[1..][i - 1];
    }
  }
}
