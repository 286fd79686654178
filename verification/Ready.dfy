/** A pass that reports Ready without a recorded failure has every artifact in place. */
module Ready {
  import opened LibvirtHost
  import opened LibvirtMachine
  import opened Provisioning
  import opened PassCalls

  // ----- A recorded failure is never taken back -----

  predicate Sticks(p: Pass, r: Result) {
    r.pass.failure.None? ==> p.failure.None? && !r.flow.Skipped?
  }

  lemma EnsureVolumeSticks(p: Pass, pool: string, vol: string, how: Recipe)
    ensures Sticks(p, EnsureVolume(p, pool, vol, how))
  {
    hide Send, Reply;
  }

  lemma EnsurePoolSticks(p: Pass, pool: string, path: string)
    ensures Sticks(p, EnsurePool(p, pool, path))
  {
    hide Send, Reply;
  }

  lemma ArtifactsSticks(m: Machine, x: Inputs, p: Pass)
    ensures Sticks(p, StageImage(m, x, p))
    ensures Sticks(p, RootDisk(m, p))
    ensures Sticks(p, Bootstrap(m, x, p))
  {
    hide Send, Reply, EnsureVolume, EnsurePool;
    forall q, pool, vol, how {:trigger EnsureVolume(q, pool, vol, how)} | true
      ensures Sticks(q, EnsureVolume(q, pool, vol, how))
    {
      EnsureVolumeSticks(q, pool, vol, how);
    }
    EnsurePoolSticks(p, EphemeralPool(m), EphemeralPath(m));
  }

  lemma OneDiskSticks(m: Machine, d: DiskSpec, p: Pass)
    ensures Sticks(p, OneDisk(m, d, p))
  {
    hide Send, Reply, EnsureVolume;
    EnsureVolumeSticks(p, d.storagePool, DiskVolume(m, d), Empty(d.size));
  }

  lemma FirstDisksSticks(m: Machine, n: nat, p: Pass)
    requires n <= |m.disks|
    ensures Sticks(p, FirstDisks(m, n, p))
  {
    hide OneDisk;
    if n > 0 {
      FirstDisksSticks(m, n - 1, p);
      OneDiskSticks(m, m.disks[n - 1], FirstDisks(m, n - 1, p).pass);
    }
  }

  lemma EnsureFileSticks(p: Pass, path: string, data: string)
    ensures Sticks(p, EnsureFile(p, path, data))
  {
    hide Send, Reply;
  }

  lemma BootArtifactsSticks(m: Machine, x: Inputs, p: Pass)
    ensures Sticks(p, BootArtifacts(m, x, p))
  {
    hide EnsureFile, KernelFile, InitrdFile;
    if m.boot.Some? && x.bootFiles.Some? {
      var b, f := m.boot.value, x.bootFiles.value;
      EnsureFileSticks(p, KernelFile(b, f), f.kernel);
      EnsureFileSticks(EnsureFile(p, KernelFile(b, f), f.kernel).pass, InitrdFile(b, f), f.initrd);
    }
  }

  lemma DefineSticks(m: Machine, p: Pass, size: Capacity)
    ensures Sticks(p, Define(m, p, size))
  {
    hide Send, Reply, BaseName, RootVolume, IsoVolume, IgnitionPath;
  }

  lemma StartSticks(m: Machine, p: Pass)
    ensures Sticks(p, Start(m, p))
  {
    hide Send, Reply, BaseName;
  }

  lemma RunDomainSticks(m: Machine, p: Pass, size: Capacity)
    ensures Sticks(p, RunDomain(m, p, size))
  {
    hide Send, Reply, Define, Start, BaseName;
    var p1 := After(p, DomainExists(BaseName(m)));
    StartSticks(m, p1);
    DefineSticks(m, p1, size);
    StartSticks(m, Define(m, p1, size).pass);
  }

  // ----- Artifacts, once there, stay for the rest of the pass -----

  ghost predicate Has(h: Host, keys: set<Key>, pools: set<string>) {
    && keys <= h.volumes.Keys
    && forall q | q in pools :: q in h.pools && h.pools[q].active
  }

  lemma HasByCall(g: Mode, h: Host, c: Call, f: Fault, keys: set<Key>, pools: set<string>)
    requires g.phase >= 1 && Allowed(g, c) && Has(h, keys, pools)
    ensures Has(HostAfter(h, c, f), keys, pools)
  {
    hide HostAfter, Within, Faithful;
    VolumesAfter(h, c, f);
    PoolsAfter(h, c, f);
  }

  lemma HasIsKept(g: Mode, keys: set<Key>, pools: set<string>)
    requires g.phase >= 1 && !g.strict
    ensures Kept(g, (r: Remote) => Has(r.host, keys, pools), c => Allowed(g, c))
  {
    hide HostAfter, Allowed, Has;
    forall r: Remote, c | Has(r.host, keys, pools) && Allowed(g, c)
      ensures Has(Send(r, c).host, keys, pools)
    {
      HasByCall(g, r.host, c, NextFault(r.faults), keys, pools);
    }
  }

  predicate Wrote(h: Host, path: string, data: string) { path in h.files && h.files[path] == Contents(data) }

  lemma WroteByCall(g: Mode, h: Host, c: Call, f: Fault, data: string)
    requires g.phase >= 2 && Allowed(g, c) && Wrote(h, IgnitionPath(g.m), data)
    ensures Wrote(HostAfter(h, c, f), IgnitionPath(g.m), data)
  {
    hide HostAfter, Within, Faithful, IgnitionPath;
    FilesAfter(h, c, f);
  }

  lemma WroteIsKept(g: Mode, data: string)
    requires g.phase >= 2 && !g.strict
    ensures Kept(g, (r: Remote) => Wrote(r.host, IgnitionPath(g.m), data), c => Allowed(g, c))
  {
    hide HostAfter, Allowed, Wrote;
    forall r: Remote, c | Wrote(r.host, IgnitionPath(g.m), data) && Allowed(g, c)
      ensures Wrote(Send(r, c).host, IgnitionPath(g.m), data)
    {
      WroteByCall(g, r.host, c, NextFault(r.faults), data);
    }
  }

  // ----- What each step leaves behind when it runs to its end -----

  predicate Active(h: Host, pool: string) { pool in h.pools && h.pools[pool].active }

  lemma SaidActive(r: Remote, pool: string, path: string)
    ensures Reply(r, PoolIsActive(pool)) == Is(true) ==> Active(Send(r, PoolIsActive(pool)).host, pool)
    ensures !Reply(r, StartPool(pool)).Err? ==> Active(Send(r, StartPool(pool)).host, pool)
    ensures !Reply(r, CreateTmpfsPool(pool, path)).Err? ==> Active(Send(r, CreateTmpfsPool(pool, path)).host, pool)
  {
    hide OutsidePool, OutsideDir;
  }

  lemma EnsurePoolGives(p: Pass, pool: string, path: string)
    requires EnsurePool(p, pool, path).flow.Going?
    ensures Active(EnsurePool(p, pool, path).pass.remote.host, pool)
  {
    hide Send, Active;
    var p1 := After(p, PoolExists(pool));
    var p2 := After(p1, PoolIsActive(pool));
    var p3 := After(p2, StartPool(pool));
    SaidActive(p1.remote, pool, path);
    SaidActive(p2.remote, pool, path);
    SaidActive(After(p3, DestroyPool(pool)).remote, pool, path);
  }

  lemma SaidThere(r: Remote, pool: string, vol: string)
    ensures var a := Reply(r, VolumeExists(pool, vol));
            || a.Err? || a == Is(false)
            || (a == Is(true) && Has(Send(r, VolumeExists(pool, vol)).host, {Key(pool, vol)}, {pool}))
  {
  }

  lemma MadeThere(r: Remote, c: Call)
    requires MakesVolume(c) && !Reply(r, c).Err?
    ensures Has(Send(r, c).host, {Key(c.pool, c.vol)}, {c.pool})
  {
    hide OutsidePool, OutsideDir;
  }

  lemma EnsureVolumeGives(p: Pass, pool: string, vol: string, how: Recipe)
    requires EnsureVolume(p, pool, vol, how).flow.Going?
    requires how.Cloned? ==> how.basePool == pool
    ensures Has(EnsureVolume(p, pool, vol, how).pass.remote.host, {Key(pool, vol)}, {pool})
  {
    hide Send, Has, Reply;
    SaidThere(p.remote, pool, vol);
    var p1 := After(p, VolumeExists(pool, vol));
    forall q: Remote, c | MakesVolume(c) && !Reply(q, c).Err?
      ensures Has(Send(q, c).host, {Key(c.pool, c.vol)}, {c.pool})
    {
      MadeThere(q, c);
    }
  }

  lemma RootDiskGives(m: Machine, p: Pass)
    requires RootDisk(m, p).flow.Going? && p.pool == m.storagePool && RootHome(m) == WorkPool(m)
    ensures Has(RootDisk(m, p).pass.remote.host, {RootKey(m)}, {WorkPool(m)})
    ensures RootDisk(m, p).pass.pool == WorkPool(m)
  {
    hide EnsurePool, EnsureVolume, Has, EphemeralPool, EphemeralPath;
    EnsurePoolFields(p, EphemeralPool(m), EphemeralPath(m));
    var q := if m.ephemeral then EnsurePool(p, EphemeralPool(m), EphemeralPath(m)).pass else p;
    EnsureVolumeGives(q, q.pool, RootVolume(m), RootRecipe(m));
    EnsureVolumeFields(q, q.pool, RootVolume(m), RootRecipe(m));
  }

  /** The bootstrap data is on the host in the form the spec asks for. */
  predicate Bootstrapped(m: Machine, x: Inputs, h: Host) {
    match m.format
    case Ignition => x.bootstrap.Some? && Wrote(h, IgnitionPath(m), x.bootstrap.value)
    case CloudInit => IsoKey(m) in h.volumes
    case Unsupported => false
  }

  lemma BootstrapGives(m: Machine, x: Inputs, p: Pass)
    requires Bootstrap(m, x, p).flow.Going? && p.pool == WorkPool(m)
    ensures Bootstrapped(m, x, Bootstrap(m, x, p).pass.remote.host)
  {
    hide EnsureVolume, EphemeralPool, IgnitionPath;
    if m.format.CloudInit? && x.bootstrap.Some? {
      var how := Built(if x.iso.Some? then x.iso.value else "");
      if EnsureVolume(p, p.pool, IsoVolume(m), how).flow.Going? {
        EnsureVolumeGives(p, p.pool, IsoVolume(m), how);
      }
    }
  }

  ghost function DiskKeys(m: Machine, n: nat): set<Key>
    requires n <= |m.disks|
  {
    set i | 0 <= i < n :: DiskKey(m, m.disks[i])
  }

  lemma OneDiskGives(m: Machine, d: DiskSpec, p: Pass)
    requires OneDisk(m, d, p).flow.Going?
    ensures Has(OneDisk(m, d, p).pass.remote.host, {DiskKey(m, d)}, {d.storagePool})
  {
    hide EnsureVolume, Send, Reply;
    EnsureVolumeGives(p, d.storagePool, DiskVolume(m, d), Empty(d.size));
    var q := EnsureVolume(p, d.storagePool, DiskVolume(m, d), Empty(d.size)).pass;
    LookupChangesNothing(q.remote, d.storagePool, DiskVolume(m, d));
  }

  lemma LookupChangesNothing(r: Remote, pool: string, vol: string)
    ensures Send(r, GetVolumePath(pool, vol)).host == r.host
  {
  }

  lemma FirstDisksGives(g: Mode, n: nat, p: Pass)
    requires Loose(g) && g.phase == 1
    requires n <= |g.m.disks| && FirstDisks(g.m, n, p).flow.Going? && p.disks == []
    ensures Has(FirstDisks(g.m, n, p).pass.remote.host, DiskKeys(g.m, n), {})
  {
    hide OneDisk, Has, Kept, Allowed;
    if n > 0 {
      var q := FirstDisks(g.m, n - 1, p).pass;
      FirstDisksGives(g, n - 1, p);
      HasIsKept(g, DiskKeys(g.m, n - 1), {});
      OneDiskKeeps(g, n - 1, q, (r: Remote) => Has(r.host, DiskKeys(g.m, n - 1), {}), c => Allowed(g, c));
      OneDiskGives(g.m, g.m.disks[n - 1], q);
      assert DiskKeys(g.m, n) == DiskKeys(g.m, n - 1) + {DiskKey(g.m, g.m.disks[n - 1])};
      HasBoth(OneDisk(g.m, g.m.disks[n - 1], q).pass.remote.host,
              DiskKeys(g.m, n - 1), {}, {DiskKey(g.m, g.m.disks[n - 1])}, {g.m.disks[n - 1].storagePool});
    } else {
      assert DiskKeys(g.m, 0) == {};
      HasNothing(p.remote.host);
    }
  }

  lemma HasNothing(h: Host)
    ensures Has(h, {}, {})
  {
  }

  lemma HasBoth(h: Host, keys: set<Key>, pools: set<string>, keys': set<Key>, pools': set<string>)
    requires Has(h, keys, pools) && Has(h, keys', pools')
    ensures Has(h, keys + keys', pools) && Has(h, keys + keys', pools + pools')
  {
  }

  predicate Running(m: Machine, h: Host) { BaseName(m) in h.domains && h.domains[BaseName(m)].running }

  lemma SaidRunning(m: Machine, r: Remote)
    ensures Send(r, GetDomain(BaseName(m))).host == r.host
    ensures Reply(r, GetDomain(BaseName(m))) == Is(true) ==> Running(m, r.host)
    ensures !Reply(r, StartDomain(BaseName(m))).Err? ==> Running(m, Send(r, StartDomain(BaseName(m))).host)
  {
    hide BaseName;
  }

  lemma StartGives(m: Machine, p: Pass)
    requires Start(m, p).flow.Going?
    ensures Running(m, Start(m, p).pass.remote.host)
  {
    hide Send, Reply, BaseName, Running;
    var p1 := After(p, GetDomain(BaseName(m)));
    SaidRunning(m, p.remote);
    SaidRunning(m, p1.remote);
    SaidRunning(m, After(p1, StartDomain(BaseName(m))).remote);
  }

  lemma RunDomainGives(m: Machine, p: Pass, size: Capacity)
    requires RunDomain(m, p, size).flow.Going?
    ensures Running(m, RunDomain(m, p, size).pass.remote.host)
  {
    hide Send, Reply, Start, Define;
    var p1 := After(p, DomainExists(BaseName(m)));
    var q := if Start(m, p1) == RunDomain(m, p, size) then p1 else Define(m, p1, size).pass;
    StartGives(m, q);
  }

  // ----- The whole pass -----

  /** Every artifact of the machine is on the host and its domain runs. */
  ghost predicate Provisioned(m: Machine, x: Inputs, h: Host) {
    && Has(h, {RootKey(m)}, {WorkPool(m)})
    && Bootstrapped(m, x, h)
    && Has(h, DiskKeys(m, |m.disks|), {})
    && Running(m, h)
  }

  /** The later steps keep the root disk and the bootstrap data. */
  lemma LaterStepsKeep(g: Mode, b: Pass)
    requires Loose(g) && g.phase == 1 && b.pool == WorkPool(g.m)
    requires b.disks == [] && b.kernel == b.initrd == b.cmdline == ""
    requires Has(b.remote.host, {RootKey(g.m)}, {WorkPool(g.m)})
    ensures var c := Bootstrap(g.m, g.x, b);
            var d := FirstDisks(g.m, |g.m.disks|, c.pass);
            var e := BootArtifacts(g.m, g.x, d.pass);
            Has(RunDomain(g.m, e.pass, g.size).pass.remote.host, {RootKey(g.m)}, {WorkPool(g.m)})
  {
    hide Bootstrap, FirstDisks, BootArtifacts, RunDomain, Kept, Allowed, Has;
    var keys, pools := {RootKey(g.m)}, {WorkPool(g.m)};
    HasIsKept(g, keys, pools);
    RestKeeps(g, b, (r: Remote) => Has(r.host, keys, pools), c => Allowed(g, c));
  }

  lemma RestKeeps(g: Mode, b: Pass, inv: Remote -> bool, ok: Call -> bool)
    requires Kept(g, inv, ok) && inv(b.remote) && Loose(g) && g.phase == 1
    requires b.pool in {g.m.storagePool, WorkPool(g.m)}
    requires b.disks == [] && b.kernel == b.initrd == b.cmdline == ""
    ensures var c := Bootstrap(g.m, g.x, b);
            var d := FirstDisks(g.m, |g.m.disks|, c.pass);
            var e := BootArtifacts(g.m, g.x, d.pass);
            inv(RunDomain(g.m, e.pass, g.size).pass.remote)
  {
    hide Bootstrap, FirstDisks, BootArtifacts, RunDomain, Kept;
    BootstrapKeeps(g, b, inv, ok);
    var c := Bootstrap(g.m, g.x, b).pass;
    FirstDisksKeeps(g, |g.m.disks|, c, inv, ok);
    var d := FirstDisks(g.m, |g.m.disks|, c).pass;
    BootArtifactsKeeps(g, d, inv, ok);
    RunDomainKeeps(g, BootArtifacts(g.m, g.x, d).pass, inv, ok);
  }

  /** From the disks on, nothing touches the bootstrap data. */
  lemma TailKeeps(g: Mode, c: Pass, inv: Remote -> bool, ok: Call -> bool)
    requires Kept(g, inv, ok) && inv(c.remote) && Loose(g)
    requires c.disks == [] && c.kernel == c.initrd == c.cmdline == ""
    ensures var d := FirstDisks(g.m, |g.m.disks|, c);
            var e := BootArtifacts(g.m, g.x, d.pass);
            inv(RunDomain(g.m, e.pass, g.size).pass.remote)
  {
    hide FirstDisks, BootArtifacts, RunDomain, Kept;
    FirstDisksKeeps(g, |g.m.disks|, c, inv, ok);
    var d := FirstDisks(g.m, |g.m.disks|, c).pass;
    BootArtifactsKeeps(g, d, inv, ok);
    RunDomainKeeps(g, BootArtifacts(g.m, g.x, d).pass, inv, ok);
  }

  lemma BootstrapStays(g: Mode, c: Pass)
    requires Loose(g) && g.phase == 2
    requires c.disks == [] && c.kernel == c.initrd == c.cmdline == ""
    requires Bootstrapped(g.m, g.x, c.remote.host)
    ensures var d := FirstDisks(g.m, |g.m.disks|, c);
            var e := BootArtifacts(g.m, g.x, d.pass);
            Bootstrapped(g.m, g.x, RunDomain(g.m, e.pass, g.size).pass.remote.host)
  {
    hide FirstDisks, BootArtifacts, RunDomain, Kept, Allowed, Wrote, IgnitionPath;
    if g.m.format.Ignition? {
      var data := g.x.bootstrap.value;
      WroteIsKept(g, data);
      TailKeeps(g, c, (r: Remote) => Wrote(r.host, IgnitionPath(g.m), data), c => Allowed(g, c));
    } else {
      HasIsKept(g, {IsoKey(g.m)}, {});
      TailKeeps(g, c, (r: Remote) => Has(r.host, {IsoKey(g.m)}, {}), c => Allowed(g, c));
    }
  }

  lemma DisksStay(g: Mode, d: Pass)
    requires Loose(g) && g.phase >= 1 && d.kernel == d.initrd == d.cmdline == ""
    requires Has(d.remote.host, DiskKeys(g.m, |g.m.disks|), {})
    ensures var e := BootArtifacts(g.m, g.x, d);
            Has(RunDomain(g.m, e.pass, g.size).pass.remote.host, DiskKeys(g.m, |g.m.disks|), {})
  {
    hide BootArtifacts, RunDomain, Kept, Allowed, Has;
    var keys := DiskKeys(g.m, |g.m.disks|);
    var inv, ok := (r: Remote) => Has(r.host, keys, {}), (c: Call) => Allowed(g, c);
    HasIsKept(g, keys, {});
    BootArtifactsKeeps(g, d, inv, ok);
    RunDomainKeeps(g, BootArtifacts(g.m, g.x, d).pass, inv, ok);
  }

  /** Under every schedule of faults: a pass that ends by setting Ready, with no failure
      recorded, leaves the machine provisioned. */
  lemma ProvisionIsComplete(m: Machine, x: Inputs, p: Pass, size: Capacity)
    requires RootHome(m) == WorkPool(m)
    requires p == Begin(m, p.remote, p.failure, p.ready)
    requires var r := Provision(m, x, p, size); r.flow.Going? && r.pass.failure.None?
    ensures Provisioned(m, x, Provision(m, x, p, size).pass.remote.host)
  {
    hide StageImage, RootDisk, Bootstrap, FirstDisks, BootArtifacts, RunDomain, Provision,
         Has, Bootstrapped, Running, DiskKeys, RootHome, WorkPool, RootKey, KernelFile, InitrdFile;
    var g := Mode(m, x, size, (q: string) => "", false, 1, Free, true);
    NoStepSkipped(m, x, p, size);
    FieldsAlong(m, x, p);
    RootDiskGives(m, StageImage(m, x, p).pass);
    LaterStepsKeep(g, Rooted(m, x, p).pass);
    BootstrapGives(m, x, Rooted(m, x, p).pass);
    BootstrapStays(g.(phase := 2), Bootstrapping(m, x, p).pass);
    FirstDisksGives(g, |m.disks|, Bootstrapping(m, x, p).pass);
    DisksStay(g, Disked(m, x, p).pass);
    RunDomainGives(m, Booted(m, x, p).pass, size);
  }

  /** A failure recorded by a step that the pass executed is still recorded at its end. */
  lemma FailureStays(m: Machine, x: Inputs, p: Pass, size: Capacity)
    requires Provision(m, x, p, size).pass.failure.None?
    ensures var a, b, c := StageImage(m, x, p), Rooted(m, x, p), Bootstrapping(m, x, p);
            var d, e := Disked(m, x, p), Booted(m, x, p);
            && p.failure.None? && !a.flow.Skipped?
            && (!Stops(a.flow) ==> !b.flow.Skipped?)
            && (!Stops(a.flow) && !Stops(b.flow) ==> !c.flow.Skipped?)
            && (Arrives(m, x, p) ==>
                  && d.flow.Going? && e.flow.Going? && e.pass.failure.None?
                  && !RunDomain(m, e.pass, size).flow.Skipped?)
  {
    hide StageImage, RootDisk, Bootstrap, FirstDisks, BootArtifacts, RunDomain, Provision;
    ProvisionUnfolds(m, x, p, size);
    ArtifactsSticks(m, x, p);
    ArtifactsSticks(m, x, StageImage(m, x, p).pass);
    ArtifactsSticks(m, x, Rooted(m, x, p).pass);
    FirstDisksSticks(m, |m.disks|, Bootstrapping(m, x, p).pass);
    BootArtifactsSticks(m, x, Disked(m, x, p).pass);
    RunDomainSticks(m, Booted(m, x, p).pass, size);
  }

  lemma NoStepSkipped(m: Machine, x: Inputs, p: Pass, size: Capacity)
    requires var r := Provision(m, x, p, size); r.flow.Going? && r.pass.failure.None?
    ensures StageImage(m, x, p).flow.Going? && Rooted(m, x, p).flow.Going? && Bootstrapping(m, x, p).flow.Going?
    ensures Disked(m, x, p).flow.Going? && Booted(m, x, p).flow.Going?
    ensures var f := RunDomain(m, Booted(m, x, p).pass, size);
            f.flow.Going? && Provision(m, x, p, size).pass == f.pass.(ready := true)
  {
    hide StageImage, Rooted, Bootstrapping, Disked, Booted, RunDomain, Provision;
    ProvisionUnfolds(m, x, p, size);
    FailureStays(m, x, p, size);
  }

  // ----- When no refusal is passed over -----

  /** A pass that ends with no failure recorded passed over none, under every schedule. */
  lemma NoFailureGathers(m: Machine, x: Inputs, p: Pass)
    requires p == Begin(m, p.remote, p.failure, p.ready) && Normal(m, x, p).pass.failure.None?
    ensures SettlesPool(m, x, p) && AssemblesAll(m, x, p) && GathersAll(m, x, p)
  {
    hide StageImage, Rooted, Bootstrapping, Disked, Booted, Provision, Normal, CheckPools, AutoSize, WorkPool,
         KernelFile, InitrdFile;
    NormalUnfolds(m, x, p);
    if Reaches(m, x, p) {
      var q := Preflight(m, p).pass;
      FailureStays(m, x, q, AutoSize(m.vcpus, m.memoryMB, x.capacity).size);
      FieldsAlong(m, x, q);
    }
  }

  ghost predicate RetryableSoFar(r: Remote) { Retryable(r.faults) }

  lemma RetryableIsKept(g: Mode)
    requires !g.strict
    ensures Kept(g, (r: Remote) => RetryableSoFar(r), c => Allowed(g, c))
  {
    hide HostAfter, Allowed, Retryable;
    forall r: Remote, c | RetryableSoFar(r) && Allowed(g, c)
      ensures RetryableSoFar(Send(r, c))
    {
      LaterRetryable(r.faults);
    }
  }

  lemma EnsureVolumeRetryable(p: Pass, pool: string, vol: string, how: Recipe)
    requires Retryable(p.remote.faults)
    ensures Retryable(EnsureVolume(p, pool, vol, how).pass.remote.faults)
  {
    hide Reply, HostAfter, Retryable;
    LaterRetryable(p.remote.faults);
    LaterRetryable(LaterFaults(p.remote.faults));
    LaterRetryable(LaterFaults(LaterFaults(p.remote.faults)));
  }

  lemma OneDiskNeverSkips(m: Machine, d: DiskSpec, p: Pass)
    requires Retryable(p.remote.faults)
    ensures !OneDisk(m, d, p).flow.Skipped? && Retryable(OneDisk(m, d, p).pass.remote.faults)
  {
    hide EnsureVolume, Retryable, DiskVolume;
    EnsureVolumeNeverSkips(p, d.storagePool, DiskVolume(m, d), Empty(d.size));
    EnsureVolumeRetryable(p, d.storagePool, DiskVolume(m, d), Empty(d.size));
    LaterRetryable(EnsureVolume(p, d.storagePool, DiskVolume(m, d), Empty(d.size)).pass.remote.faults);
  }

  lemma FirstDisksNeverSkips(m: Machine, n: nat, p: Pass)
    requires n <= |m.disks| && Retryable(p.remote.faults)
    ensures !FirstDisks(m, n, p).flow.Skipped? && Retryable(FirstDisks(m, n, p).pass.remote.faults)
  {
    hide OneDisk, Retryable;
    if n > 0 {
      FirstDisksNeverSkips(m, n - 1, p);
      OneDiskNeverSkips(m, m.disks[n - 1], FirstDisks(m, n - 1, p).pass);
    }
  }

  lemma BootArtifactsNeverSkips(m: Machine, x: Inputs, p: Pass)
    requires Retryable(p.remote.faults)
    ensures !BootArtifacts(m, x, p).flow.Skipped?
  {
    hide EnsureFile, KernelFile, InitrdFile, Retryable;
    if m.boot.Some? && x.bootFiles.Some? {
      var b, f := m.boot.value, x.bootFiles.value;
      EnsureFileNeverSkips(p, KernelFile(b, f), f.kernel);
      EnsureFileNeverSkips(EnsureFile(p, KernelFile(b, f), f.kernel).pass, InitrdFile(b, f), f.initrd);
    }
  }

  lemma RootDiskSettles(m: Machine, p: Pass)
    requires Retryable(p.remote.faults) && p.pool == m.storagePool
    ensures Stops(RootDisk(m, p).flow) || RootDisk(m, p).pass.pool == WorkPool(m)
  {
    hide EnsurePool, EnsureVolume, Retryable, EphemeralPool, EphemeralPath;
    EnsurePoolNeverSkips(p, EphemeralPool(m), EphemeralPath(m));
    EnsurePoolFields(p, EphemeralPool(m), EphemeralPath(m));
    var q := if m.ephemeral then EnsurePool(p, EphemeralPool(m), EphemeralPath(m)).pass else p;
    EnsureVolumeFields(q, q.pool, RootVolume(m), RootRecipe(m));
  }

  /** Nor does a pass that meets no terminal fault. */
  lemma RetryableGathers(m: Machine, x: Inputs, p: Pass)
    requires p == Begin(m, p.remote, p.failure, p.ready) && Retryable(p.remote.faults)
    ensures SettlesPool(m, x, p) && AssemblesAll(m, x, p) && GathersAll(m, x, p)
  {
    hide StageImage, RootDisk, Bootstrap, FirstDisks, BootArtifacts, Provision, Normal, CheckPools, FirstMentions,
         ReferencedPools, AutoSize, WorkPool, Kept, Allowed, Retryable, KernelFile, InitrdFile;
    var g := Mode(m, x, Capacity(0, 0), (q: string) => "", false, 0, Free, true);
    var inv, ok := (r: Remote) => RetryableSoFar(r), (c: Call) => Allowed(g, c);
    RetryableIsKept(g);
    NormalUnfolds(m, x, p);
    if Reaches(m, x, p) {
      var q := Preflight(m, p).pass;
      assert RetryableSoFar(q.remote) by { CheckedPoolsRetryable(FirstMentions(ReferencedPools(m)), p); }
      StepsKeep(g, q, inv, ok);
      FieldsAlong(m, x, q);
      RootDiskSettles(m, StageImage(m, x, q).pass);
      if Arrives(m, x, q) {
        FirstDisksNeverSkips(m, |m.disks|, Bootstrapping(m, x, q).pass);
        BootArtifactsNeverSkips(m, x, Disked(m, x, q).pass);
      }
    }
  }

  lemma CheckedPoolsRetryable(list: seq<Required>, p: Pass)
    requires Retryable(p.remote.faults)
    ensures Retryable(CheckPools(list, p).pass.remote.faults)
  {
    hide Reply, Retryable, HostAfter;
    if list != [] {
      LaterRetryable(p.remote.faults);
      CheckedPoolsRetryable(list[1..], After(p, PoolExists(list[0].pool)));
    }
  }

  /** A machine without an ephemeral pool has no pool step to refuse. */
  lemma PlainSettles(m: Machine, x: Inputs, p: Pass)
    requires p == Begin(m, p.remote, p.failure, p.ready) && !m.ephemeral
    ensures SettlesPool(m, x, p)
  {
    hide StageImage, RootDisk, Bootstrapping, Disked, Booted, Normal, Provision, CheckPools, AutoSize, KernelFile,
         InitrdFile;
    NormalUnfolds(m, x, p);
    if Reaches(m, x, p) {
      FieldsAlong(m, x, Preflight(m, p).pass);
    }
  }
}
