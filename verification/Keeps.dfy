/** What a pass can do to the host, for every schedule of faults: any property of the remote
    state that the calls of a step keep is kept by the step, wherever it is cut short. */
module PassCalls {
  import opened Common
  import opened LibvirtHost
  import opened LibvirtMachine
  import opened Provisioning

  predicate BootPath(m: Machine, path: string) { m.boot.Some? && Under(path, m.boot.value.hostPath) }

  /** Changing calls stay within the artifacts of the machine, the cluster image aside. */
  ghost predicate Within(m: Machine, c: Call) {
    match c
    case StartPool(pool) => InEphemeral(m, pool)
    case DestroyPool(pool) => InEphemeral(m, pool)
    case CreateTmpfsPool(pool, path) => InEphemeral(m, pool) && path == EphemeralPath(m)
    case CreateVolumeFromBackingStore(pool, vol, _, _) => Touchable(m, Key(pool, vol))
    case CloneVolume(pool, _, vol) => Touchable(m, Key(pool, vol))
    case CreateVolume(pool, vol, _) => Touchable(m, Key(pool, vol))
    case UploadVolumeFromBytes(pool, vol, _) => Touchable(m, Key(pool, vol))
    case UploadQcow2Volume(pool, vol, _) => IsImageKey(m, Key(pool, vol))
    case DeleteVolume(pool, vol) => Removed(m, Key(pool, vol))
    case WriteRemoteFile(path, _) => path == IgnitionPath(m) || BootPath(m, path)
    case DeleteRemoteFile(path) => path == IgnitionPath(m)
    case DefineDomain(d, _) => d == BaseName(m)
    case StartDomain(d) => d == BaseName(m)
    case DestroyDomain(d) => d == BaseName(m)
    case UndefineDomain(d) => d == BaseName(m)
    case _ => true
  }

  /** What a pass may define: no domain, any domain of its size, or exactly the one asked for. */
  datatype Defining = Never | Free | Exact

  /** One pass: its inputs, and the directory of each pool on the host.  In a `strict` pass the
      volumes and files made are the ones asked for, and so is the domain when `defines` is
      `Exact`: no step went on after a refusal that would show there.  `phase` is how far the pass
      has come: 1 once the ephemeral pool is settled, 2 once bootstrap data is written.  `boots` is
      whether boot files may be written. */
  datatype Mode = Mode(
    m: Machine, x: Inputs, size: Capacity, site: string -> string,
    strict: bool, phase: nat, defines: Defining, boots: bool)

  /** The mode of steps about which nothing is known. */
  predicate Loose(g: Mode) { !g.strict && g.defines.Free? && g.boots }

  predicate ChangesPool(c: Call) { c.StartPool? || c.DestroyPool? || c.CreateTmpfsPool? }

  ghost predicate Agrees(site: string -> string, h: Host) {
    forall q | q in h.pools :: h.pools[q].path == site(q)
  }

  function DiskPaths(m: Machine, n: nat, site: string -> string): seq<Disk>
    requires n <= |m.disks|
  {
    seq(n, i requires 0 <= i < n =>
      Disk(site(m.disks[i].storagePool) + "/" + DiskVolume(m, m.disks[i]), m.disks[i].bus))
  }

  /** The definition a machine's domain is meant to have. */
  function WantedDefinition(m: Machine, x: Inputs, size: Capacity, site: string -> string): Definition {
    var boot := m.boot.Some? && x.bootFiles.Some?;
    Definition(size.vcpus, size.memoryMB * 1024,
               site(WorkPool(m)) + "/" + RootVolume(m),
               if m.format.CloudInit? then site(WorkPool(m)) + "/" + IsoVolume(m) else "",
               if m.format.Ignition? then IgnitionPath(m) else "",
               DiskPaths(m, |m.disks|, site),
               if boot then KernelFile(m.boot.value, x.bootFiles.value) else "",
               if boot then InitrdFile(m.boot.value, x.bootFiles.value) else "",
               if boot then m.boot.value.kernelArgs else "")
  }

  ghost predicate WritesBootFile(g: Mode, path: string, data: string) {
    g.m.boot.Some? && g.x.bootFiles.Some? &&
    var b, f := g.m.boot.value, g.x.bootFiles.value;
    (path == KernelFile(b, f) && data == f.kernel) || (path == InitrdFile(b, f) && data == f.initrd)
  }

  /** Creating calls of a strict pass make exactly what the spec asks for, where it asks for it;
      lookups stay in the pools the machine names. */
  ghost predicate Faithful(g: Mode, c: Call) {
    match c
    case VolumeExists(pool, _) => Named(g.m, pool)
    case GetVolumePath(pool, _) => Named(g.m, pool)
    case CreateVolumeFromBackingStore(pool, vol, backing, size) =>
      && !g.m.fullClone && Key(pool, vol) == RootKey(g.m) && size == g.m.rootSize
      && backing == g.site(BasePool(g.m)) + "/" + g.m.baseImage
    case CloneVolume(pool, source, vol) =>
      g.m.fullClone && pool == BasePool(g.m) && source == g.m.baseImage && vol == RootVolume(g.m)
    case CreateVolume(pool, vol, size) =>
      exists i | 0 <= i < |g.m.disks| :: Key(pool, vol) == DiskKey(g.m, g.m.disks[i]) && size == g.m.disks[i].size
    case UploadVolumeFromBytes(pool, vol, data) =>
      g.m.format.CloudInit? && Key(pool, vol) == IsoKey(g.m) && g.x.iso == Some(data)
    case UploadQcow2Volume(_, _, image) => g.x.image == Some(image)
    case WriteRemoteFile(path, data) =>
      || (g.m.format.Ignition? && path == IgnitionPath(g.m) && g.x.bootstrap == Some(data))
      || WritesBootFile(g, path, data)
    case _ => true
  }

  /** A definition always has the size that was settled on. */
  predicate Defines(g: Mode, def: Definition) {
    && !g.defines.Never?
    && def.vcpus == g.size.vcpus && def.memoryKB == g.size.memoryMB * 1024
    && (g.defines.Exact? ==> def == WantedDefinition(g.m, g.x, g.size, g.site))
  }

  /** The calls a provisioning pass makes from a phase on. */
  ghost predicate Allowed(g: Mode, c: Call) {
    && Within(g.m, c)
    && (g.strict ==> Faithful(g, c))
    && !c.DeleteVolume? && !c.DeleteRemoteFile? && !c.DestroyDomain? && !c.UndefineDomain?
    && (ChangesPool(c) ==> g.phase == 0)
    && (c.DefineDomain? ==> Defines(g, c.def))
    && (c.WriteRemoteFile? ==> if c.path == IgnitionPath(g.m) then g.phase <= 1 else g.boots)
  }

  /** `ok` allows every call of such a pass, each of them keeps `inv`, and in a strict pass
      `inv` implies that pools are where `site` says. */
  ghost predicate Kept(g: Mode, inv: Remote -> bool, ok: Call -> bool) {
    && Closed(inv, ok)
    && (forall c {:trigger ok(c)} :: Allowed(g, c) ==> ok(c))
    && (g.strict ==> forall r {:trigger inv(r)} :: inv(r) ==> Agrees(g.site, r.host))
  }

  // ----- Steps -----

  lemma CheckPoolsKeeps(list: seq<Required>, p: Pass, inv: Remote -> bool, ok: Call -> bool)
    requires Closed(inv, ok) && inv(p.remote)
    requires forall i | 0 <= i < |list| :: ok(PoolExists(list[i].pool))
    ensures inv(CheckPools(list, p).pass.remote)
  {
    hide Send, Reply;
    if list != [] {
      CheckPoolsKeeps(list[1..], After(p, PoolExists(list[0].pool)), inv, ok);
    }
  }

  /** Preflight changes nothing but the failure it may record. */
  lemma CheckPoolsFields(list: seq<Required>, p: Pass)
    ensures var q := CheckPools(list, p).pass;
            q.(remote := p.remote, failure := p.failure, ready := p.ready) == p
  {
    hide Send, Reply;
    if list != [] {
      CheckPoolsFields(list[1..], After(p, PoolExists(list[0].pool)));
    }
  }

  lemma EnsurePoolKeeps(p: Pass, pool: string, path: string, inv: Remote -> bool, ok: Call -> bool)
    requires Closed(inv, ok) && inv(p.remote)
    requires ok(PoolExists(pool)) && ok(PoolIsActive(pool)) && ok(StartPool(pool))
    requires ok(DestroyPool(pool)) && ok(CreateTmpfsPool(pool, path))
    ensures inv(EnsurePool(p, pool, path).pass.remote)
  {
    hide Send, Reply;
  }

  lemma EnsurePoolFields(p: Pass, pool: string, path: string)
    ensures var r := EnsurePool(p, pool, path);
            && r.pass.(remote := p.remote, failure := p.failure, ready := p.ready, pool := p.pool) == p
            && r.pass.pool == (if r.flow.Going? then pool else p.pool)
  {
    hide Send, Reply;
  }

  lemma LaterRetryable(faults: seq<Fault>)
    requires Retryable(faults)
    ensures Retryable(LaterFaults(faults))
    ensures NextFault(faults).Broken? ==> !NextFault(faults).cat.Terminal?
  {
  }

  /** Without terminal faults the ephemeral pool is ready or the pass stops. */
  lemma EnsurePoolNeverSkips(p: Pass, pool: string, path: string)
    requires Retryable(p.remote.faults)
    ensures !EnsurePool(p, pool, path).flow.Skipped?
  {
    hide Retryable, WithTmpfs, OutsideDir, OutsidePool;
    var f0 := p.remote.faults;
    var f1 := LaterFaults(f0);
    var f2 := LaterFaults(f1);
    var f3 := LaterFaults(f2);
    LaterRetryable(f0);
    LaterRetryable(f1);
    LaterRetryable(f2);
    LaterRetryable(f3);
    LaterRetryable(LaterFaults(f3));
  }

  /** The calls that create volume `vol` in `pool` by this recipe. */
  ghost predicate Creates(g: Mode, c: Call, pool: string, vol: string, how: Recipe) {
    match how
    case Fetched(image) => c == UploadQcow2Volume(pool, vol, image)
    case Empty(size) => c == CreateVolume(pool, vol, size)
    case Built(data) => c == UploadVolumeFromBytes(pool, vol, data)
    case Cloned(basePool, base) => c == CloneVolume(basePool, base, vol)
    case Layered(basePool, base, size) =>
      || c == GetVolumePath(basePool, base)
      || (&& c.CreateVolumeFromBackingStore? && c.pool == pool && c.vol == vol && c.size == size
          && (g.strict ==> c.backing == g.site(basePool) + "/" + base))
  }

  lemma PathAgrees(site: string -> string, r: Remote, pool: string, vol: string)
    requires Agrees(site, r.host)
    ensures var a := Reply(r, GetVolumePath(pool, vol)); a.Err? || a == At(site(pool) + "/" + vol)
  {
  }

  lemma EnsureVolumeKeeps(g: Mode, p: Pass, pool: string, vol: string, how: Recipe,
                          inv: Remote -> bool, ok: Call -> bool)
    requires Kept(g, inv, ok) && inv(p.remote)
    requires g.strict ==> Named(g.m, pool)
    requires forall c | Creates(g, c, pool, vol, how) :: ok(c)
    ensures inv(EnsureVolume(p, pool, vol, how).pass.remote)
  {
    hide Send, Reply, Allowed, Agrees, Retryable;
    var p1 := After(p, VolumeExists(pool, vol));
    assert Allowed(g, VolumeExists(pool, vol)) by { AllowsQuery(g, VolumeExists(pool, vol)); }
    if how.Layered? && g.strict {
      PathAgrees(g.site, p1.remote, how.basePool, how.base);
    }
  }

  lemma AllowsQuery(g: Mode, c: Call)
    requires c.VolumeExists? || c.GetVolumePath? || c.RemoteFileExists? || c.DomainExists? || c.GetDomain?
        || c.PoolExists? || c.PoolIsActive?
    requires g.strict && (c.VolumeExists? || c.GetVolumePath?) ==> Named(g.m, c.pool)
    ensures Allowed(g, c)
  {
  }

  lemma EnsureVolumeFields(p: Pass, pool: string, vol: string, how: Recipe)
    ensures var q := EnsureVolume(p, pool, vol, how).pass;
            q.(remote := p.remote, failure := p.failure, ready := p.ready) == p
  {
    hide Send, Reply;
  }

  /** Check-then-create is never refused as a duplicate: only a missing base image, or a clone
      that lands in another pool than the one checked, makes it give up. */
  lemma EnsureVolumeNeverSkips(p: Pass, pool: string, vol: string, how: Recipe)
    requires Retryable(p.remote.faults)
    requires !how.Cloned? && !how.Layered?
    ensures !EnsureVolume(p, pool, vol, how).flow.Skipped?
  {
    hide Retryable;
    LaterRetryable(p.remote.faults);
    LaterRetryable(LaterFaults(p.remote.faults));
  }

  lemma EnsureFileKeeps(g: Mode, p: Pass, path: string, data: string, inv: Remote -> bool, ok: Call -> bool)
    requires Kept(g, inv, ok) && inv(p.remote) && ok(WriteRemoteFile(path, data))
    ensures inv(EnsureFile(p, path, data).pass.remote)
    ensures EnsureFile(p, path, data).pass.(remote := p.remote, failure := p.failure, ready := p.ready) == p
  {
    hide Send, Reply, Allowed, Agrees, Retryable;
    AllowsQuery(g, RemoteFileExists(path));
  }

  lemma EnsureFileNeverSkips(p: Pass, path: string, data: string)
    requires Retryable(p.remote.faults)
    ensures !EnsureFile(p, path, data).flow.Skipped?
    ensures Retryable(EnsureFile(p, path, data).pass.remote.faults)
  {
    hide Retryable;
    LaterRetryable(p.remote.faults);
    LaterRetryable(LaterFaults(p.remote.faults));
  }

  // ----- Sub-steps -----

  lemma StageImageKeeps(g: Mode, p: Pass, inv: Remote -> bool, ok: Call -> bool)
    requires Kept(g, inv, ok) && inv(p.remote)
    ensures inv(StageImage(g.m, g.x, p).pass.remote)
    ensures StageImage(g.m, g.x, p).pass.(remote := p.remote, failure := p.failure, ready := p.ready) == p
  {
    hide Send, Reply, EnsureVolume, Agrees, Retryable;
    if g.m.clusterImage.Some? {
      var pool, vol := g.m.clusterImage.value.pool, g.m.clusterImage.value.volume;
      var p1 := After(p, VolumeExists(pool, vol));
      assert Refers(g.m, pool);
      AllowsQuery(g, VolumeExists(pool, vol));
      if g.x.image.Some? {
        EnsureVolumeKeeps(g, p1, pool, vol, Fetched(g.x.image.value), inv, ok);
        EnsureVolumeFields(p1, pool, vol, Fetched(g.x.image.value));
      }
    }
  }

  lemma RootDiskKeeps(g: Mode, p: Pass, inv: Remote -> bool, ok: Call -> bool)
    requires Kept(g, inv, ok) && inv(p.remote) && g.phase == 0
    requires p.pool == g.m.storagePool
    ensures var r := RootDisk(g.m, p);
            && inv(r.pass.remote)
            && r.pass.(remote := p.remote, failure := p.failure, ready := p.ready, pool := p.pool) == p
            && r.pass.pool in {g.m.storagePool, WorkPool(g.m)}
            && (r.flow.Going? ==> r.pass.pool == WorkPool(g.m))
  {
    hide Send, Reply, EnsurePool, EnsureVolume, Agrees;
    var m := g.m;
    var r := if m.ephemeral then EnsurePool(p, EphemeralPool(m), EphemeralPath(m)) else Result(p, Going);
    if m.ephemeral {
      EnsurePoolKeeps(p, EphemeralPool(m), EphemeralPath(m), inv, ok);
      EnsurePoolFields(p, EphemeralPool(m), EphemeralPath(m));
    }
    if r.flow.Going? {
      RootVolumeKeeps(g, r.pass, inv, ok);
    }
  }

  lemma RootVolumeKeeps(g: Mode, p: Pass, inv: Remote -> bool, ok: Call -> bool)
    requires Kept(g, inv, ok) && inv(p.remote)
    requires p.pool == WorkPool(g.m)
    ensures var r := EnsureVolume(p, p.pool, RootVolume(g.m), RootRecipe(g.m));
            inv(r.pass.remote) && r.pass.(remote := p.remote, failure := p.failure, ready := p.ready) == p
  {
    hide Send, Reply, EnsureVolume, Agrees, Retryable;
    assert Refers(g.m, BasePool(g.m)) && Named(g.m, WorkPool(g.m));
    EnsureVolumeKeeps(g, p, p.pool, RootVolume(g.m), RootRecipe(g.m), inv, ok);
    EnsureVolumeFields(p, p.pool, RootVolume(g.m), RootRecipe(g.m));
  }

  lemma BootstrapKeeps(g: Mode, p: Pass, inv: Remote -> bool, ok: Call -> bool)
    requires Kept(g, inv, ok) && inv(p.remote) && g.phase <= 1
    requires p.pool in {g.m.storagePool, WorkPool(g.m)}
    requires g.strict ==> p.pool == WorkPool(g.m)
    ensures inv(Bootstrap(g.m, g.x, p).pass.remote)
    ensures Bootstrap(g.m, g.x, p).pass.(remote := p.remote, failure := p.failure, ready := p.ready) == p
  {
    hide Send, Reply, EnsureVolume, Agrees, Retryable;
    if g.x.bootstrap.Some? && g.m.format.CloudInit? {
      AllowsQuery(g, VolumeExists(p.pool, IsoVolume(g.m)));
      if g.x.iso.Some? {
        EnsureVolumeKeeps(g, p, p.pool, IsoVolume(g.m), Built(g.x.iso.value), inv, ok);
        EnsureVolumeFields(p, p.pool, IsoVolume(g.m), Built(g.x.iso.value));
      } else {
        NothingToBuild(p, p.pool, IsoVolume(g.m));
      }
    } else if g.m.format.Ignition? && g.x.bootstrap.Some? {
      assert ok(WriteRemoteFile(IgnitionPath(g.m), g.x.bootstrap.value));
    }
  }

  /** When the ISO is present or cannot be looked up, the recipe does not matter. */
  lemma NothingToBuild(p: Pass, pool: string, vol: string)
    ensures var c := VolumeExists(pool, vol);
            !(!Said(p, c).Err? && !Said(p, c).yes) ==>
              && EnsureVolume(p, pool, vol, Built("")).pass.remote == Send(p.remote, c)
              && EnsureVolume(p, pool, vol, Built("")).pass.(remote := p.remote, failure := p.failure,
                  ready := p.ready) == p
  {
    hide Send;
  }

  lemma OneDiskKeeps(g: Mode, n: nat, p: Pass, inv: Remote -> bool, ok: Call -> bool)
    requires Kept(g, inv, ok) && inv(p.remote)
    requires n < |g.m.disks|
    ensures var d := g.m.disks[n];
            var r := OneDisk(g.m, d, p);
            && inv(r.pass.remote)
            && r.pass.(remote := p.remote, failure := p.failure, ready := p.ready, disks := p.disks) == p
            && |r.pass.disks| == |p.disks| + (if r.flow.Going? then 1 else 0)
            && (g.strict && r.flow.Going? ==>
                  r.pass.disks == p.disks + [Disk(g.site(d.storagePool) + "/" + DiskVolume(g.m, d), d.bus)])
  {
    hide Send, Reply, EnsureVolume, Agrees, Retryable;
    var d := g.m.disks[n];
    assert DiskKey(g.m, d) == Key(d.storagePool, DiskVolume(g.m, d)) && IsDiskKey(g.m, DiskKey(g.m, d));
    assert Refers(g.m, d.storagePool);
    EnsureVolumeKeeps(g, p, d.storagePool, DiskVolume(g.m, d), Empty(d.size), inv, ok);
    EnsureVolumeFields(p, d.storagePool, DiskVolume(g.m, d), Empty(d.size));
    var q := EnsureVolume(p, d.storagePool, DiskVolume(g.m, d), Empty(d.size)).pass;
    AllowsQuery(g, GetVolumePath(d.storagePool, DiskVolume(g.m, d)));
    PathOrError(q.remote, d.storagePool, DiskVolume(g.m, d));
    if g.strict {
      PathAgrees(g.site, q.remote, d.storagePool, DiskVolume(g.m, d));
    }
  }

  lemma PathOrError(r: Remote, pool: string, vol: string)
    ensures var a := Reply(r, GetVolumePath(pool, vol)); a.Err? || a.At?
  {
  }

  lemma FirstDisksKeeps(g: Mode, n: nat, p: Pass, inv: Remote -> bool, ok: Call -> bool)
    requires n <= |g.m.disks|
    requires Kept(g, inv, ok) && inv(p.remote)
    requires p.disks == []
    ensures var r := FirstDisks(g.m, n, p);
            && inv(r.pass.remote)
            && r.pass.(remote := p.remote, failure := p.failure, ready := p.ready, disks := p.disks) == p
            && (r.flow.Going? ==> |r.pass.disks| == n) && (!r.flow.Going? ==> |r.pass.disks| < n)
            && (g.strict && r.flow.Going? ==> r.pass.disks == DiskPaths(g.m, n, g.site))
  {
    hide OneDisk, Kept;
    if n > 0 {
      FirstDisksKeeps(g, n - 1, p, inv, ok);
      var r := FirstDisks(g.m, n - 1, p);
      if r.flow.Going? {
        OneDiskKeeps(g, n - 1, r.pass, inv, ok);
        var d := g.m.disks[n - 1];
        assert DiskPaths(g.m, n, g.site) == DiskPaths(g.m, n - 1, g.site)
               + [Disk(g.site(d.storagePool) + "/" + DiskVolume(g.m, d), d.bus)];
      }
    }
  }

  /** The kernel and initramfs files end in other letters than the ignition file. */
  lemma BootFilesAreApart(m: Machine, b: BootSpec, f: BootFiles)
    ensures KernelFile(b, f) != IgnitionPath(m) && InitrdFile(b, f) != IgnitionPath(m)
    ensures KernelFile(b, f) != InitrdFile(b, f)
  {
    var k, i, g := KernelFile(b, f), InitrdFile(b, f), IgnitionPath(m);
    assert k[|k| - 1] == 'z' && i[|i| - 1] == 'g' && g[|g| - 1] == 'n';
  }

  lemma BootArtifactsKeeps(g: Mode, p: Pass, inv: Remote -> bool, ok: Call -> bool)
    requires Kept(g, inv, ok) && inv(p.remote) && g.boots
    requires p.kernel == p.initrd == p.cmdline == ""
    ensures var r := BootArtifacts(g.m, g.x, p);
            var w := WantedDefinition(g.m, g.x, g.size, g.site);
            && inv(r.pass.remote) && r.pass.pool == p.pool && r.pass.disks == p.disks
            && (if r.flow.Going?
                then r.pass.kernel == w.kernel && r.pass.initrd == w.initrd && r.pass.cmdline == w.cmdline
                else r.pass.kernel == r.pass.initrd == r.pass.cmdline == "")
  {
    hide Send, Reply, EnsureFile, Agrees, Retryable, DiskPaths, IgnitionPath, WorkPool, BaseName;
    if g.m.boot.Some? && g.x.bootFiles.Some? {
      var b, f := g.m.boot.value, g.x.bootFiles.value;
      BootFilesAreApart(g.m, b, f);
      assert KernelFile(b, f) == b.hostPath + "/" + (f.kernelDigest + "/vmlinuz");
      assert InitrdFile(b, f) == b.hostPath + "/" + (f.initrdDigest + "/initramfs.img");
      EnsureFileKeeps(g, p, KernelFile(b, f), f.kernel, inv, ok);
      var q := EnsureFile(p, KernelFile(b, f), f.kernel).pass;
      EnsureFileKeeps(g, q, InitrdFile(b, f), f.initrd, inv, ok);
    }
  }

  lemma DefineKeeps(g: Mode, p: Pass, inv: Remote -> bool, ok: Call -> bool)
    requires Kept(g, inv, ok) && inv(p.remote) && !g.defines.Never?
    requires g.strict ==> Named(g.m, p.pool)
    requires g.defines.Exact? ==>
               var w := WantedDefinition(g.m, g.x, g.size, g.site);
               && g.strict && p.pool == WorkPool(g.m) && p.disks == w.disks
               && p.kernel == w.kernel && p.initrd == w.initrd && p.cmdline == w.cmdline
    ensures inv(Define(g.m, p, g.size).pass.remote)
  {
    hide Send, Reply, Agrees, Retryable, DiskPaths;
    var root, iso := GetVolumePath(p.pool, RootVolume(g.m)), GetVolumePath(p.pool, IsoVolume(g.m));
    AllowsQuery(g, root);
    AllowsQuery(g, iso);
    if g.strict {
      PathAgrees(g.site, p.remote, p.pool, RootVolume(g.m));
      PathAgrees(g.site, Send(p.remote, root), p.pool, IsoVolume(g.m));
    }
  }

  lemma StartKeeps(m: Machine, p: Pass, inv: Remote -> bool, ok: Call -> bool)
    requires Closed(inv, ok) && inv(p.remote)
    requires ok(GetDomain(BaseName(m))) && ok(StartDomain(BaseName(m)))
    ensures inv(Start(m, p).pass.remote)
  {
    hide Send, Reply;
  }

  lemma RunDomainKeeps(g: Mode, p: Pass, inv: Remote -> bool, ok: Call -> bool)
    requires Kept(g, inv, ok) && inv(p.remote) && !g.defines.Never?
    requires g.strict ==> Named(g.m, p.pool)
    requires g.defines.Exact? ==>
               var w := WantedDefinition(g.m, g.x, g.size, g.site);
               && g.strict && p.pool == WorkPool(g.m) && p.disks == w.disks
               && p.kernel == w.kernel && p.initrd == w.initrd && p.cmdline == w.cmdline
    ensures inv(RunDomain(g.m, p, g.size).pass.remote)
  {
    hide Send, Reply, Define, Start, Agrees, Retryable, WantedDefinition;
    var p1 := After(p, DomainExists(BaseName(g.m)));
    AllowsQuery(g, DomainExists(BaseName(g.m)));
    StartKeeps(g.m, p1, inv, ok);
    DefineKeeps(g, p1, inv, ok);
    StartKeeps(g.m, Define(g.m, p1, g.size).pass, inv, ok);
  }

  // ----- The whole pass -----

  function Rooted(m: Machine, x: Inputs, p: Pass): Result { RootDisk(m, StageImage(m, x, p).pass) }

  function Bootstrapping(m: Machine, x: Inputs, p: Pass): Result { Bootstrap(m, x, Rooted(m, x, p).pass) }

  function Disked(m: Machine, x: Inputs, p: Pass): Result {
    FirstDisks(m, |m.disks|, Bootstrapping(m, x, p).pass)
  }

  function Booted(m: Machine, x: Inputs, p: Pass): Result { BootArtifacts(m, x, Disked(m, x, p).pass) }

  /** Past the root disk the pass works in the machine's own pool. */
  predicate Settled(m: Machine, x: Inputs, p: Pass) {
    !Stops(StageImage(m, x, p).flow) && !Stops(Rooted(m, x, p).flow) ==> Rooted(m, x, p).pass.pool == WorkPool(m)
  }

  /** The pass comes to its last step, the domain. */
  predicate Arrives(m: Machine, x: Inputs, p: Pass) {
    && !Stops(StageImage(m, x, p).flow) && !Stops(Rooted(m, x, p).flow) && !Stops(Bootstrapping(m, x, p).flow)
    && !Stops(Disked(m, x, p).flow) && !Stops(Booted(m, x, p).flow)
  }

  /** It comes there with its pool and every disk. */
  predicate Assembled(m: Machine, x: Inputs, p: Pass) {
    Rooted(m, x, p).pass.pool == WorkPool(m) && Disked(m, x, p).flow.Going?
  }

  /** With its pool, every disk and the boot files. */
  predicate Gathered(m: Machine, x: Inputs, p: Pass) { Assembled(m, x, p) && Booted(m, x, p).flow.Going? }

  lemma ProvisionUnfolds(m: Machine, x: Inputs, p: Pass, size: Capacity)
    ensures var a, b, c := StageImage(m, x, p), Rooted(m, x, p), Bootstrapping(m, x, p);
            var d, e := Disked(m, x, p), Booted(m, x, p);
            var r := Provision(m, x, p, size);
            && (Arrives(m, x, p) ==>
                  var f := RunDomain(m, e.pass, size);
                  r == if f.flow.Going? then Result(f.pass.(ready := true), Going) else f)
            && (!Arrives(m, x, p) ==>
                  && Stops(r.flow)
                  && r == if Stops(a.flow) then a else if Stops(b.flow) then b else if Stops(c.flow) then c
                          else if Stops(d.flow) then d else e)
  {
    hide StageImage, RootDisk, Bootstrap, FirstDisks, BootArtifacts, RunDomain;
  }

  /** The context fields a step reads are as the steps before it left them. */
  lemma FieldsAlong(m: Machine, x: Inputs, p: Pass)
    requires p == Begin(m, p.remote, p.failure, p.ready)
    ensures StageImage(m, x, p).pass.pool == m.storagePool
    ensures var b, c, d, e := Rooted(m, x, p), Bootstrapping(m, x, p), Disked(m, x, p), Booted(m, x, p);
            && b.pass.pool == c.pass.pool == d.pass.pool == e.pass.pool
            && b.pass.pool in {m.storagePool, WorkPool(m)} && (b.flow.Going? ==> b.pass.pool == WorkPool(m))
            && b.pass.disks == c.pass.disks == [] && d.pass.disks == e.pass.disks
            && b.pass.kernel == b.pass.initrd == b.pass.cmdline == ""
            && c.pass.kernel == c.pass.initrd == c.pass.cmdline == ""
            && d.pass.kernel == d.pass.initrd == d.pass.cmdline == ""
            && (d.flow.Going? <==> |d.pass.disks| == |m.disks|)
    ensures var e := Booted(m, x, p);
            var boot := e.flow.Going? && m.boot.Some? && x.bootFiles.Some?;
            && e.pass.kernel == (if boot then KernelFile(m.boot.value, x.bootFiles.value) else "")
            && e.pass.initrd == (if boot then InitrdFile(m.boot.value, x.bootFiles.value) else "")
            && e.pass.cmdline == (if boot then m.boot.value.kernelArgs else "")
  {
    hide StageImage, RootDisk, Bootstrap, FirstDisks, BootArtifacts, DiskPaths, WorkPool, KernelFile, InitrdFile;
    var g := Mode(m, x, Capacity(0, 0), (q: string) => "", false, 0, Free, true);
    var inv, ok := (r: Remote) => true, (c: Call) => true;
    StageImageKeeps(g, p, inv, ok);
    RootDiskKeeps(g, StageImage(m, x, p).pass, inv, ok);
    BootstrapKeeps(g, Rooted(m, x, p).pass, inv, ok);
    FirstDisksKeeps(g, |m.disks|, Bootstrapping(m, x, p).pass, inv, ok);
    BootArtifactsKeeps(g, Disked(m, x, p).pass, inv, ok);
  }

  /** What the steps before the domain keep. */
  lemma StepsKeep(g: Mode, p: Pass, inv: Remote -> bool, ok: Call -> bool)
    requires Kept(g, inv, ok) && inv(p.remote) && g.phase == 0
    requires p == Begin(g.m, p.remote, p.failure, p.ready)
    requires g.strict ==> Settled(g.m, g.x, p)
    ensures inv(StageImage(g.m, g.x, p).pass.remote) && inv(Rooted(g.m, g.x, p).pass.remote)
    ensures !Stops(StageImage(g.m, g.x, p).flow) && !Stops(Rooted(g.m, g.x, p).flow) ==>
              && inv(Bootstrapping(g.m, g.x, p).pass.remote)
              && inv(Disked(g.m, g.x, p).pass.remote)
              && (g.boots ==> inv(Booted(g.m, g.x, p).pass.remote))
              && (g.strict && Disked(g.m, g.x, p).flow.Going? ==>
                    Disked(g.m, g.x, p).pass.disks == DiskPaths(g.m, |g.m.disks|, g.site))
  {
    hide StageImage, RootDisk, Bootstrap, FirstDisks, BootArtifacts, Kept, DiskPaths, WorkPool, KernelFile, InitrdFile;
    FieldsAlong(g.m, g.x, p);
    StageImageKeeps(g, p, inv, ok);
    RootDiskKeeps(g, StageImage(g.m, g.x, p).pass, inv, ok);
    if !Stops(StageImage(g.m, g.x, p).flow) && !Stops(Rooted(g.m, g.x, p).flow) {
      BootstrapKeeps(g, Rooted(g.m, g.x, p).pass, inv, ok);
      FirstDisksKeeps(g, |g.m.disks|, Bootstrapping(g.m, g.x, p).pass, inv, ok);
      if g.boots { BootArtifactsKeeps(g, Disked(g.m, g.x, p).pass, inv, ok); }
    }
  }

  lemma ProvisionKeeps(g: Mode, p: Pass, inv: Remote -> bool, ok: Call -> bool)
    requires Kept(g, inv, ok) && inv(p.remote) && !g.defines.Never? && g.boots && g.phase == 0
    requires p == Begin(g.m, p.remote, p.failure, p.ready)
    requires g.strict ==> Settled(g.m, g.x, p)
    requires g.defines.Exact? ==> g.strict && (Arrives(g.m, g.x, p) ==> Gathered(g.m, g.x, p))
    ensures inv(Provision(g.m, g.x, p, g.size).pass.remote)
  {
    hide StageImage, Rooted, Bootstrapping, Disked, Booted, Provision, RunDomain, Kept, DiskPaths, WorkPool,
         KernelFile, InitrdFile;
    ProvisionUnfolds(g.m, g.x, p, g.size);
    FieldsAlong(g.m, g.x, p);
    StepsKeep(g, p, inv, ok);
    if Arrives(g.m, g.x, p) {
      assert Named(g.m, WorkPool(g.m));
      RunDomainKeeps(g, Booted(g.m, g.x, p).pass, inv, ok);
    }
  }

  // ----- Preflight and what follows -----

  /** The pass gets past preflight. */
  predicate Reaches(m: Machine, x: Inputs, p: Pass) {
    && x.hostReady && x.clients && x.secretExists && AutoSize(m.vcpus, m.memoryMB, x.capacity).Sized?
    && !m.sessionNetwork && p.failure.None? && Preflight(m, p).flow.Going?
  }

  /** A refusal of the ephemeral pool is not passed over. */
  predicate SettlesPool(m: Machine, x: Inputs, p: Pass) { Reaches(m, x, p) ==> Settled(m, x, Preflight(m, p).pass) }

  /** No refused pool or disk is passed over on the way to the domain. */
  predicate AssemblesAll(m: Machine, x: Inputs, p: Pass) {
    Reaches(m, x, p) && Arrives(m, x, Preflight(m, p).pass) ==> Assembled(m, x, Preflight(m, p).pass)
  }

  /** Nor is a refused boot file. */
  predicate GathersAll(m: Machine, x: Inputs, p: Pass) {
    Reaches(m, x, p) && Arrives(m, x, Preflight(m, p).pass) ==> Gathered(m, x, Preflight(m, p).pass)
  }

  lemma CheckPoolsFlow(list: seq<Required>, p: Pass)
    ensures var r := CheckPools(list, p);
            && (r.flow.Going? ==> r.pass.failure == p.failure && r.pass.ready == p.ready)
            && (r.flow.Skipped? ==> r.pass.failure.Some?)
  {
    hide Send, Reply;
    if list != [] {
      CheckPoolsFlow(list[1..], After(p, PoolExists(list[0].pool)));
    }
  }

  /** A pass is its preflight, followed by the steps when it gets past it. */
  lemma NormalUnfolds(m: Machine, x: Inputs, p: Pass)
    requires p == Begin(m, p.remote, p.failure, p.ready)
    ensures var q := Preflight(m, p).pass;
            && (Reaches(m, x, p) ==>
                  && q == Begin(m, q.remote, None, p.ready)
                  && Normal(m, x, p) == Provision(m, x, q, AutoSize(m.vcpus, m.memoryMB, x.capacity).size))
            && (!Reaches(m, x, p) ==>
                  && !Normal(m, x, p).flow.Going?
                  && Normal(m, x, p).pass.remote in {p.remote, q.remote}
                  && (p.failure.Some? ==> Normal(m, x, p).pass.remote == p.remote))
  {
    hide CheckPools, Provision, FirstMentions, ReferencedPools;
    var list := FirstMentions(ReferencedPools(m));
    CheckPoolsFlow(list, p);
    CheckPoolsFields(list, p);
  }

  /** Whatever the faults, a provisioning pass keeps what its allowed calls keep. */
  lemma NormalKeeps(g: Mode, p: Pass, inv: Remote -> bool, ok: Call -> bool)
    requires Kept(g, inv, ok) && inv(p.remote) && !g.defines.Never? && g.boots && g.phase == 0
    requires p == Begin(g.m, p.remote, p.failure, p.ready)
    requires AutoSize(g.m.vcpus, g.m.memoryMB, g.x.capacity).Sized? ==>
               AutoSize(g.m.vcpus, g.m.memoryMB, g.x.capacity) == Sized(g.size)
    requires g.strict ==> SettlesPool(g.m, g.x, p)
    requires g.defines.Exact? ==> g.strict && GathersAll(g.m, g.x, p)
    ensures inv(Normal(g.m, g.x, p).pass.remote)
  {
    hide Send, Reply, CheckPools, Provision, Normal, Agrees, FirstMentions, ReferencedPools, Settled, Arrives,
         Gathered, AutoSize;
    NormalUnfolds(g.m, g.x, p);
    CheckPoolsKeeps(FirstMentions(ReferencedPools(g.m)), p, inv, ok);
    if Reaches(g.m, g.x, p) {
      ProvisionKeeps(g, Preflight(g.m, p).pass, inv, ok);
    }
  }
}
