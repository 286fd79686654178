/** A pass that meets no fault, on a host that offers what the spec refers to, goes through. */
module QuietPass {
  import opened Common
  import opened LibvirtHost
  import opened LibvirtMachine
  import opened Provisioning
  import opened PassCalls
  import opened Ready
  import Preflight

  /** The pass went through without recording a failure, and no fault is left. */
  predicate Through(p: Pass, r: Result) {
    r.flow.Going? && r.pass.failure == p.failure && r.pass.remote.faults == []
  }

  predicate Quiet(p: Pass) { p.remote.faults == [] }

  lemma StaysQuiet(r: Remote, c: Call)
    requires r.faults == []
    ensures Send(r, c).faults == [] && Reply(r, c) == TrueAnswer(r.host, c)
    ensures Send(r, c).host == (if TrueAnswer(r.host, c).Err? then r.host else Effect(r.host, c))
  {
    hide Effect, TrueAnswer;
  }

  lemma CheckPoolsQuiet(list: seq<Required>, p: Pass)
    requires Quiet(p)
    requires forall i | 0 <= i < |list| :: list[i].pool in p.remote.host.pools
    ensures Through(p, CheckPools(list, p)) && CheckPools(list, p).pass.remote.host == p.remote.host
  {
    hide Send, Reply;
    if list != [] {
      StaysQuiet(p.remote, PoolExists(list[0].pool));
      CheckPoolsQuiet(list[1..], After(p, PoolExists(list[0].pool)));
    }
  }

  /** Reviving or recreating the pool leaves everything outside it alone. */
  lemma EnsurePoolQuiet(p: Pass, pool: string, path: string)
    requires Quiet(p)
    ensures var r := EnsurePool(p, pool, path);
            && Through(p, r)
            && (forall k | k in p.remote.host.volumes && k.pool != pool :: k in r.pass.remote.host.volumes)
            && (pool in p.remote.host.pools
                && (p.remote.host.pools[pool].active || p.remote.host.pools[pool].mounted) ==>
                  r.pass.remote.host.volumes == p.remote.host.volumes)
            && (forall q | q in p.remote.host.pools && q != pool ::
                  q in r.pass.remote.host.pools && r.pass.remote.host.pools[q] == p.remote.host.pools[q])
  {
    hide Send, Reply, OutsideDir;
    var p1 := After(p, PoolExists(pool));
    var p2 := After(p1, PoolIsActive(pool));
    var p3 := After(p2, StartPool(pool));
    var p4 := After(p3, DestroyPool(pool));
    StaysQuiet(p.remote, PoolExists(pool));
    StaysQuiet(p1.remote, PoolIsActive(pool));
    StaysQuiet(p1.remote, CreateTmpfsPool(pool, path));
    StaysQuiet(p2.remote, StartPool(pool));
    StaysQuiet(p3.remote, DestroyPool(pool));
    StaysQuiet(p4.remote, CreateTmpfsPool(pool, path));
  }

  predicate Feasible(h: Host, pool: string, how: Recipe) {
    match how
    case Cloned(basePool, base) => basePool == pool && Key(basePool, base) in h.volumes
    case Layered(basePool, base, _) => Active(h, basePool) && Key(basePool, base) in h.volumes
    case _ => true
  }

  lemma EnsureVolumeQuiet(p: Pass, pool: string, vol: string, how: Recipe)
    requires Quiet(p) && Active(p.remote.host, pool) && Feasible(p.remote.host, pool, how)
    ensures Through(p, EnsureVolume(p, pool, vol, how))
  {
    hide Send, Reply, Effect;
    StaysQuiet(p.remote, VolumeExists(pool, vol));
    var p1 := After(p, VolumeExists(pool, vol));
    assert p1.remote.host == p.remote.host by { LookupsChangeNothing(p.remote.host, pool, vol); }
    match how
    case Fetched(image) => StaysQuiet(p1.remote, UploadQcow2Volume(pool, vol, image));
    case Empty(size) => StaysQuiet(p1.remote, CreateVolume(pool, vol, size));
    case Built(data) => StaysQuiet(p1.remote, UploadVolumeFromBytes(pool, vol, data));
    case Cloned(basePool, base) => StaysQuiet(p1.remote, CloneVolume(basePool, base, vol));
    case Layered(basePool, base, size) =>
      StaysQuiet(p1.remote, GetVolumePath(basePool, base));
      LookupsChangeNothing(p1.remote.host, basePool, base);
      var p2 := After(p1, GetVolumePath(basePool, base));
      StaysQuiet(p2.remote, CreateVolumeFromBackingStore(pool, vol, VolumePath(p.remote.host, basePool, base), size));
  }

  lemma LookupsChangeNothing(h: Host, pool: string, vol: string)
    ensures var c := VolumeExists(pool, vol); TrueAnswer(h, c).Err? || Effect(h, c) == h
    ensures var c := GetVolumePath(pool, vol); TrueAnswer(h, c).Err? || Effect(h, c) == h
  {
  }

  lemma EnsureFileQuiet(p: Pass, path: string, data: string)
    requires Quiet(p)
    ensures Through(p, EnsureFile(p, path, data))
  {
    hide Send, Reply, Effect;
    StaysQuiet(p.remote, RemoteFileExists(path));
    StaysQuiet(After(p, RemoteFileExists(path)).remote, WriteRemoteFile(path, data));
  }

  lemma StageImageQuiet(m: Machine, x: Inputs, p: Pass)
    requires Quiet(p)
    requires m.clusterImage.Some? ==> x.image.Some? && Active(p.remote.host, m.clusterImage.value.pool)
    ensures Through(p, StageImage(m, x, p))
    ensures m.clusterImage.Some? ==>
              Has(StageImage(m, x, p).pass.remote.host,
                  {Key(m.clusterImage.value.pool, m.clusterImage.value.volume)}, {})
  {
    hide Send, Reply, EnsureVolume;
    if m.clusterImage.Some? {
      var pool, vol := m.clusterImage.value.pool, m.clusterImage.value.volume;
      var p1 := After(p, VolumeExists(pool, vol));
      StaysQuiet(p.remote, VolumeExists(pool, vol));
      EnsureVolumeQuiet(p1, pool, vol, Fetched(x.image.value));
      EnsureVolumeGives(p1, pool, vol, Fetched(x.image.value));
    }
  }

  lemma BootstrapQuiet(m: Machine, x: Inputs, p: Pass)
    requires Quiet(p) && Active(p.remote.host, p.pool)
    requires x.bootstrap.Some? && !m.format.Unsupported? && (m.format.CloudInit? ==> x.iso.Some?)
    ensures Through(p, Bootstrap(m, x, p))
  {
    hide Send, Reply, Effect, EnsureVolume, IgnitionPath;
    if m.format.Ignition? {
      StaysQuiet(p.remote, WriteRemoteFile(IgnitionPath(m), x.bootstrap.value));
    } else {
      EnsureVolumeQuiet(p, p.pool, IsoVolume(m), Built(x.iso.value));
    }
  }

  lemma OneDiskQuiet(m: Machine, d: DiskSpec, p: Pass)
    requires Quiet(p) && Active(p.remote.host, d.storagePool)
    ensures Through(p, OneDisk(m, d, p))
  {
    hide Send, Reply, Effect, EnsureVolume;
    EnsureVolumeQuiet(p, d.storagePool, DiskVolume(m, d), Empty(d.size));
    EnsureVolumeGives(p, d.storagePool, DiskVolume(m, d), Empty(d.size));
    var q := EnsureVolume(p, d.storagePool, DiskVolume(m, d), Empty(d.size)).pass;
    StaysQuiet(q.remote, GetVolumePath(d.storagePool, DiskVolume(m, d)));
  }

  ghost function DiskPools(m: Machine): set<string> {
    set i | 0 <= i < |m.disks| :: m.disks[i].storagePool
  }

  lemma FirstDisksQuiet(g: Mode, n: nat, p: Pass)
    requires Loose(g) && g.phase == 1
    requires Quiet(p) && n <= |g.m.disks| && p.disks == [] && Has(p.remote.host, {}, DiskPools(g.m))
    ensures Through(p, FirstDisks(g.m, n, p))
  {
    hide OneDisk, Kept, Allowed;
    if n > 0 {
      FirstDisksQuiet(g, n - 1, p);
      HasIsKept(g, {}, DiskPools(g.m));
      FirstDisksKeeps(g, n - 1, p, (r: Remote) => Has(r.host, {}, DiskPools(g.m)), c => Allowed(g, c));
      var q := FirstDisks(g.m, n - 1, p).pass;
      assert g.m.disks[n - 1].storagePool in DiskPools(g.m);
      OneDiskQuiet(g.m, g.m.disks[n - 1], q);
    }
  }

  lemma BootArtifactsQuiet(m: Machine, x: Inputs, p: Pass)
    requires Quiet(p) && (m.boot.Some? ==> x.bootFiles.Some?)
    ensures Through(p, BootArtifacts(m, x, p))
  {
    hide EnsureFile, KernelFile, InitrdFile;
    if m.boot.Some? {
      var b, f := m.boot.value, x.bootFiles.value;
      EnsureFileQuiet(p, KernelFile(b, f), f.kernel);
      EnsureFileQuiet(EnsureFile(p, KernelFile(b, f), f.kernel).pass, InitrdFile(b, f), f.initrd);
    }
  }

  lemma DefineQuiet(m: Machine, p: Pass, size: Capacity)
    requires Quiet(p) && p.pool == WorkPool(m)
    requires Has(p.remote.host, {RootKey(m)}, {WorkPool(m)})
    requires m.format.CloudInit? ==> IsoKey(m) in p.remote.host.volumes
    ensures Through(p, Define(m, p, size)) && BaseName(m) in Define(m, p, size).pass.remote.host.domains
  {
    hide Send, Reply, BaseName, IgnitionPath, WorkPool;
    var root, iso := GetVolumePath(p.pool, RootVolume(m)), GetVolumePath(p.pool, IsoVolume(m));
    StaysQuiet(p.remote, root);
    var p1 := After(p, root);
    StaysQuiet(p1.remote, iso);
    var p2 := if m.format.CloudInit? then After(p1, iso) else p1;
    forall def {:trigger DefineDomain(BaseName(m), def)} | true
      ensures Send(p2.remote, DefineDomain(BaseName(m), def)).faults == []
      ensures !Reply(p2.remote, DefineDomain(BaseName(m), def)).Err?
      ensures BaseName(m) in Send(p2.remote, DefineDomain(BaseName(m), def)).host.domains
    {
      StaysQuiet(p2.remote, DefineDomain(BaseName(m), def));
    }
  }

  lemma StartQuiet(m: Machine, p: Pass)
    requires Quiet(p) && BaseName(m) in p.remote.host.domains
    ensures Through(p, Start(m, p))
  {
    hide Send, Reply, BaseName;
    var d := BaseName(m);
    StaysQuiet(p.remote, GetDomain(d));
    var p1 := After(p, GetDomain(d));
    StaysQuiet(p1.remote, StartDomain(d));
    StaysQuiet(After(p1, StartDomain(d)).remote, GetDomain(d));
  }

  lemma RunDomainQuiet(m: Machine, p: Pass, size: Capacity)
    requires Quiet(p) && p.pool == WorkPool(m)
    requires Has(p.remote.host, {RootKey(m)}, {WorkPool(m)})
    requires m.format.CloudInit? ==> IsoKey(m) in p.remote.host.volumes
    ensures Through(p, RunDomain(m, p, size))
  {
    hide Send, Reply, Define, Start, BaseName, WorkPool;
    StaysQuiet(p.remote, DomainExists(BaseName(m)));
    var p1 := After(p, DomainExists(BaseName(m)));
    if BaseName(m) in p.remote.host.domains {
      StartQuiet(m, p1);
    } else {
      DefineQuiet(m, p1, size);
      StartQuiet(m, Define(m, p1, size).pass);
    }
  }

  // ----- The whole pass -----

  /** The host has every pool the machine refers to, active and apart from the one the machine
      provisions itself, and the base image is there or will be staged. */
  ghost predicate Offers(m: Machine, h: Host) {
    && (forall pool | Refers(m, pool) :: Active(h, pool) && !InEphemeral(m, pool))
    && (BaseKey(m) in h.volumes || IsImageKey(m, BaseKey(m)))
  }

  /** Everything a pass gets from elsewhere is there. */
  predicate Supplied(m: Machine, x: Inputs) {
    && x.hostReady && x.clients && x.secretExists && !m.sessionNetwork
    && AutoSize(m.vcpus, m.memoryMB, x.capacity).Sized?
    && x.bootstrap.Some? && !m.format.Unsupported? && (m.format.CloudInit? ==> x.iso.Some?)
    && (m.clusterImage.Some? ==> x.image.Some?)
    && (m.boot.Some? ==> x.bootFiles.Some?)
  }

  ghost function NamedPools(m: Machine): set<string> {
    (if m.clusterImage.Some? then {m.clusterImage.value.pool} else {})
    + {BasePool(m)} + (if m.ephemeral then {} else {m.storagePool}) + DiskPools(m)
  }

  lemma NamedPoolsAreReferred(m: Machine)
    ensures forall pool :: pool in NamedPools(m) <==> Refers(m, pool)
  {
  }

  lemma RootDiskQuiet(m: Machine, p: Pass)
    requires Quiet(p) && p.pool == m.storagePool && RootHome(m) == WorkPool(m)
    requires Has(p.remote.host, {BaseKey(m)}, NamedPools(m))
    requires forall q | q in NamedPools(m) :: !InEphemeral(m, q)
    ensures Through(p, RootDisk(m, p))
    ensures Has(RootDisk(m, p).pass.remote.host, {BaseKey(m)}, NamedPools(m))
  {
    hide EnsurePool, EnsureVolume, EphemeralPool, EphemeralPath;
    var r := if m.ephemeral then EnsurePool(p, EphemeralPool(m), EphemeralPath(m)) else Result(p, Going);
    if m.ephemeral {
      EnsurePoolQuiet(p, EphemeralPool(m), EphemeralPath(m));
      EnsurePoolGives(p, EphemeralPool(m), EphemeralPath(m));
      EnsurePoolFields(p, EphemeralPool(m), EphemeralPath(m));
    }
    assert BasePool(m) in NamedPools(m);
    assert r.pass.pool == WorkPool(m);
    assert Has(r.pass.remote.host, {BaseKey(m)}, NamedPools(m));
    EnsureVolumeQuiet(r.pass, r.pass.pool, RootVolume(m), RootRecipe(m));
    var g := Mode(m, NoInputs(), Capacity(0, 0), (q: string) => "", false, 1, Free, true);
    HasIsKept(g, {BaseKey(m)}, NamedPools(m));
    EnsureVolumeKept(g, r.pass);
  }

  function NoInputs(): Inputs { Inputs(false, false, false, None, None, None, None, None) }

  lemma EnsureVolumeKept(g: Mode, p: Pass)
    requires Loose(g) && g.phase == 1 && p.pool == WorkPool(g.m)
    requires Has(p.remote.host, {BaseKey(g.m)}, NamedPools(g.m))
    ensures Has(EnsureVolume(p, p.pool, RootVolume(g.m), RootRecipe(g.m)).pass.remote.host, {BaseKey(g.m)},
        NamedPools(g.m))
  {
    hide EnsureVolume, Has, Kept, NamedPools, Allowed;
    var keys, pools := {BaseKey(g.m)}, NamedPools(g.m);
    HasIsKept(g, keys, pools);
    RootVolumeKeeps(g, p, (r: Remote) => Has(r.host, keys, pools), c => Allowed(g, c));
  }

  lemma ProvisionQuiet(m: Machine, x: Inputs, p: Pass, size: Capacity)
    requires Quiet(p) && p == Begin(m, p.remote, p.failure, p.ready)
    requires Supplied(m, x) && Offers(m, p.remote.host) && RootHome(m) == WorkPool(m)
    ensures var r := Provision(m, x, p, size); Through(p, r) && r.pass.ready
  {
    hide StageImage, RootDisk, Bootstrap, FirstDisks, BootArtifacts, RunDomain, Provision, Has, NamedPools,
         DiskKeys, RootHome, WorkPool, RootKey, IsoKey, BaseKey, Refers, InEphemeral, Bootstrapped, AutoSize,
         KernelFile, InitrdFile;
    ProvisionUnfolds(m, x, p, size);
    FieldsAlong(m, x, p);
    StagedAndOffered(m, x, p);
    RootDiskQuiet(m, StageImage(m, x, p).pass);
    RootDiskGives(m, StageImage(m, x, p).pass);
    RestQuiet(Mode(m, x, size, (q: string) => "", false, 1, Free, true), Rooted(m, x, p).pass);
  }

  lemma StagedAndOffered(m: Machine, x: Inputs, p: Pass)
    requires Quiet(p) && Supplied(m, x) && Offers(m, p.remote.host)
    ensures var a := StageImage(m, x, p);
            && Through(p, a)
            && Has(a.pass.remote.host, {BaseKey(m)}, NamedPools(m))
            && forall q | q in NamedPools(m) :: !InEphemeral(m, q)
  {
    hide StageImage, Kept, Allowed, EphemeralPool, NamedPools, AutoSize;
    NamedPoolsAreReferred(m);
    StageImageQuiet(m, x, p);
    var g := Mode(m, x, Capacity(0, 0), (q: string) => "", false, 1, Free, true);
    var keys := if BaseKey(m) in p.remote.host.volumes then {BaseKey(m)} else {};
    HasIsKept(g, keys, NamedPools(m));
    assert Has(p.remote.host, keys, NamedPools(m));
    StageImageKeeps(g, p, (r: Remote) => Has(r.host, keys, NamedPools(m)), c => Allowed(g, c));
  }

  lemma RestQuiet(g: Mode, b: Pass)
    requires Loose(g) && g.phase == 1 && Quiet(b) && b.pool == WorkPool(g.m)
    requires b.disks == [] && b.kernel == b.initrd == b.cmdline == ""
    requires Supplied(g.m, g.x)
    requires Has(b.remote.host, {RootKey(g.m)}, {WorkPool(g.m)}) && Has(b.remote.host, {BaseKey(g.m)}, NamedPools(g.m))
    ensures var c := Bootstrap(g.m, g.x, b);
            var d := FirstDisks(g.m, |g.m.disks|, c.pass);
            var e := BootArtifacts(g.m, g.x, d.pass);
            Through(b, c) && Through(c.pass, d) && Through(d.pass, e) && Through(e.pass, RunDomain(g.m, e.pass, g.size))
  {
    hide Bootstrap, FirstDisks, BootArtifacts, RunDomain, Kept, Allowed, Has, NamedPools, RootKey, IsoKey, WorkPool,
         AutoSize;
    var ok := (c: Call) => Allowed(g, c);
    var keys, pools := {RootKey(g.m), BaseKey(g.m)}, {WorkPool(g.m)} + NamedPools(g.m);
    var inv := (r: Remote) => Has(r.host, keys, pools);
    HasIsKept(g, keys, pools);
    HasBoth(b.remote.host, {RootKey(g.m)}, {WorkPool(g.m)}, {BaseKey(g.m)}, NamedPools(g.m));
    assert {RootKey(g.m)} + {BaseKey(g.m)} == keys;
    HasPart(b.remote.host, keys, pools, {}, {WorkPool(g.m)});
    assert Active(b.remote.host, b.pool) by { HasActive(b.remote.host, b.pool); }
    BootstrapQuiet(g.m, g.x, b);
    BootstrapKeeps(g, b, inv, ok);
    BootstrapGives(g.m, g.x, b);
    var c := Bootstrap(g.m, g.x, b).pass;
    assert DiskPools(g.m) <= NamedPools(g.m) by { DisksAreNamed(g.m); }
    HasPart(c.remote.host, keys, pools, {}, DiskPools(g.m));
    FirstDisksQuiet(g, |g.m.disks|, c);
    FirstDisksKeeps(g, |g.m.disks|, c, inv, ok);
    var d := FirstDisks(g.m, |g.m.disks|, c).pass;
    BootArtifactsQuiet(g.m, g.x, d);
    BootArtifactsKeeps(g, d, inv, ok);
    var e := BootArtifacts(g.m, g.x, d).pass;
    HasPart(e.remote.host, keys, pools, {RootKey(g.m)}, {WorkPool(g.m)});
    if g.m.format.CloudInit? {
      var isoInv := (r: Remote) => Has(r.host, {IsoKey(g.m)}, {});
      HasIsKept(g, {IsoKey(g.m)}, {});
      HasIso(c.remote.host, IsoKey(g.m));
      FirstDisksKeeps(g, |g.m.disks|, c, isoInv, ok);
      BootArtifactsKeeps(g, d, isoInv, ok);
      HasIso(e.remote.host, IsoKey(g.m));
    }
    RunDomainQuiet(g.m, e, g.size);
  }

  lemma HasPart(h: Host, keys: set<Key>, pools: set<string>, keys': set<Key>, pools': set<string>)
    requires Has(h, keys, pools) && keys' <= keys && pools' <= pools
    ensures Has(h, keys', pools')
  {
  }

  lemma HasActive(h: Host, pool: string)
    ensures Has(h, {}, {pool}) <==> Active(h, pool)
  {
    if Has(h, {}, {pool}) {
      assert pool in {pool};
    }
  }

  lemma HasIso(h: Host, k: Key)
    ensures Has(h, {k}, {}) <==> k in h.volumes
  {
  }

  lemma DisksAreNamed(m: Machine)
    ensures DiskPools(m) <= NamedPools(m)
  {
  }

  /** A pass without faults on a host that offers what the spec refers to ends Ready. */
  lemma NormalQuiet(m: Machine, x: Inputs, p: Pass)
    requires Quiet(p) && p == Begin(m, p.remote, None, p.ready)
    requires Supplied(m, x) && Offers(m, p.remote.host) && RootHome(m) == WorkPool(m)
    ensures var r := Normal(m, x, p); Through(p, r) && r.pass.ready
    ensures var size := AutoSize(m.vcpus, m.memoryMB, x.capacity).size;
            && Through(p, Provisioning.Preflight(m, p))
            && Normal(m, x, p) == Provision(m, x, Provisioning.Preflight(m, p).pass, size)
            && Provisioning.Preflight(m, p).pass == Begin(m, Provisioning.Preflight(m, p).pass.remote, None, p.ready)
            && Provisioning.Preflight(m, p).pass.remote.host == p.remote.host
  {
    hide CheckPools, Provision, FirstMentions, ReferencedPools, RootHome, WorkPool, BaseKey, IsImageKey;
    var list := FirstMentions(ReferencedPools(m));
    Preflight.FirstMentionsExact(ReferencedPools(m));
    Preflight.ReferencedPoolsExact(m);
    forall i | 0 <= i < |list|
      ensures list[i].pool in p.remote.host.pools
    {
      assert Names(list, list[i].pool);
    }
    CheckPoolsQuiet(list, p);
    CheckPoolsFields(list, p);
    Preflight.CheckPoolsVerdict(list, p);
    ReadyUntouched(list, p);
    ProvisionQuiet(m, x, CheckPools(list, p).pass, AutoSize(m.vcpus, m.memoryMB, x.capacity).size);
  }

  lemma ReadyUntouched(list: seq<Required>, p: Pass)
    ensures CheckPools(list, p).flow.Going? ==> CheckPools(list, p).pass.ready == p.ready
  {
    hide Send, Reply;
    if list != [] {
      ReadyUntouched(list[1..], After(p, PoolExists(list[0].pool)));
    }
  }

  // ----- What stops a pass for good, and what does not -----

  /** Before it makes a call: a host, a secret or a capacity that is not there yet only makes the pass wait; a
      size the host cannot give and a network type it does not support are failures for good. */
  lemma VerdictBeforeCalls(m: Machine, x: Inputs, p: Pass)
    requires p.failure.None?
    ensures var size, r := AutoSize(m.vcpus, m.memoryMB, x.capacity), Normal(m, x, p);
            if !x.hostReady || !x.clients || !x.secretExists || size.Wait? then r == Result(p, Failed)
            else if size.Insufficient? then
              r == Result(p.(failure := Some("StorageInsufficient"), ready := false), Skipped)
            else m.sessionNetwork ==>
              r == Result(p.(failure := Some("NetworkTypeUnsupported"), ready := false), Skipped)
  {
    hide AutoSize, CheckPools, Provision, FirstMentions, ReferencedPools;
  }

  /** An image that is staged is not fetched again, and an ISO that is there is not built again: neither needs
      its source. */
  lemma PresentNeedsNoSource(m: Machine, x: Inputs, p: Pass)
    requires Quiet(p)
    ensures m.clusterImage.Some? && Active(p.remote.host, m.clusterImage.value.pool)
            && Key(m.clusterImage.value.pool, m.clusterImage.value.volume) in p.remote.host.volumes ==>
              var r := StageImage(m, x, p); Through(p, r) && r.pass.remote.host == p.remote.host
    ensures m.format.CloudInit? && x.bootstrap.Some? && Active(p.remote.host, p.pool)
            && Key(p.pool, IsoVolume(m)) in p.remote.host.volumes ==>
              var r := Bootstrap(m, x, p); Through(p, r) && r.pass.remote.host == p.remote.host
  {
    hide Send, Reply, IsoVolume;
    if m.clusterImage.Some? {
      StaysQuiet(p.remote, VolumeExists(m.clusterImage.value.pool, m.clusterImage.value.volume));
    }
    StaysQuiet(p.remote, VolumeExists(p.pool, IsoVolume(m)));
  }

  /** Without its source an image that is absent is waited for, and an ISO that cannot be built is a failure for
      good; so is a bootstrap format that is not supported, and bootstrap data that is not there yet is waited
      for. */
  lemma AbsentNeedsSource(m: Machine, x: Inputs, p: Pass)
    requires Quiet(p)
    ensures m.clusterImage.Some? && Active(p.remote.host, m.clusterImage.value.pool) && x.image.None?
            && Key(m.clusterImage.value.pool, m.clusterImage.value.volume) !in p.remote.host.volumes ==>
              StageImage(m, x, p).flow.Failed? && StageImage(m, x, p).pass.failure == p.failure
    ensures m.format.CloudInit? && x.bootstrap.Some? && x.iso.None? && Active(p.remote.host, p.pool)
            && Key(p.pool, IsoVolume(m)) !in p.remote.host.volumes ==>
              Bootstrap(m, x, p).flow.Skipped? && Bootstrap(m, x, p).pass.failure == Some("InvalidBootstrapData")
    ensures m.format.Unsupported? && x.bootstrap.Some? ==>
              Bootstrap(m, x, p).flow.Skipped? && Bootstrap(m, x, p).pass.failure == Some("InvalidBootstrapData")
    ensures x.bootstrap.None? ==> Bootstrap(m, x, p) == Result(p, Failed)
  {
    hide Send, Reply, IsoVolume;
    if m.clusterImage.Some? {
      StaysQuiet(p.remote, VolumeExists(m.clusterImage.value.pool, m.clusterImage.value.volume));
    }
    StaysQuiet(p.remote, VolumeExists(p.pool, IsoVolume(m)));
  }

  /** A base image that is missing from a pool that is there is a failure for good, cloned or layered. */
  lemma MissingBaseIsTerminal(m: Machine, p: Pass)
    requires Quiet(p) && !m.ephemeral && p.pool == m.storagePool && Active(p.remote.host, p.pool)
    requires Key(p.pool, RootVolume(m)) !in p.remote.host.volumes
    requires Active(p.remote.host, BasePool(m)) && BaseKey(m) !in p.remote.host.volumes
    ensures var r := RootDisk(m, p);
            && r.flow.Skipped? && r.pass.failure == Some("BaseImageNotFound") && !r.pass.ready
            && r.pass.remote.host == p.remote.host
  {
    hide Send, Reply, RootVolume, BasePool, Effect;
    StaysQuiet(p.remote, VolumeExists(p.pool, RootVolume(m)));
    var p1 := After(p, VolumeExists(p.pool, RootVolume(m)));
    assert p1.remote.host == p.remote.host by { LookupsChangeNothing(p.remote.host, p.pool, RootVolume(m)); }
    StaysQuiet(p1.remote, CloneVolume(BasePool(m), m.baseImage, RootVolume(m)));
    StaysQuiet(p1.remote, GetVolumePath(BasePool(m), m.baseImage));
  }
}
