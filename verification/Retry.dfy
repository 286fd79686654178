/** Retrying over whole runs: interrupted passes never mark the machine as failed, and the
    first undisturbed one completes it. */
module Retry {
  import opened Common
  import opened LibvirtHost
  import opened LibvirtMachine
  import opened Provisioning
  import opened PassCalls
  import opened Ready
  import opened QuietPass
  import opened Definitions
  import opened Convergence
  import opened Life
  import Preflight

  // ----- Retryable faults never record a failure -----

  /** The step recorded no failure. */
  predicate Unharmed(p: Pass, r: Result) { !r.flow.Skipped? && r.pass.failure == p.failure }

  predicate Steady(c: Call) {
    || c.PoolExists? || c.VolumeExists? || c.GetVolumePath? || c.RemoteFileExists? || c.WriteRemoteFile?
    || c.DomainExists? || c.GetDomain? || c.DefineDomain? || c.StartDomain?
  }

  lemma PerformUnharmed(p: Pass, c: Call)
    requires Retryable(p.remote.faults) && Steady(c)
    ensures Unharmed(p, Perform(p, c)) && Retryable(Send(p.remote, c).faults)
    ensures Reply(p.remote, c) != Err(Terminal)
    ensures Reply(p.remote, c) == Err(NotFound) ==> TrueAnswer(p.remote.host, c) == Err(NotFound)
  {
    hide HostAfter, Retryable;
    LaterRetryable(p.remote.faults);
  }

  lemma CheckPoolsUnharmed(list: seq<Required>, p: Pass)
    requires Retryable(p.remote.faults)
    requires forall i | 0 <= i < |list| :: list[i].pool in p.remote.host.pools
    ensures Unharmed(p, CheckPools(list, p)) && Retryable(CheckPools(list, p).pass.remote.faults)
    ensures CheckPools(list, p).pass.remote.host == p.remote.host
  {
    hide Send, Reply, Retryable;
    if list != [] {
      PerformUnharmed(p, PoolExists(list[0].pool));
      SaidExists(p.remote, list[0].pool);
      CheckPoolsUnharmed(list[1..], After(p, PoolExists(list[0].pool)));
    }
  }

  lemma SaidExists(r: Remote, pool: string)
    ensures Send(r, PoolExists(pool)).host == r.host
    ensures Reply(r, PoolExists(pool)).Err? || Reply(r, PoolExists(pool)) == Is(pool in r.host.pools)
  {
  }

  lemma EnsurePoolUnharmed(p: Pass, pool: string, path: string)
    requires Retryable(p.remote.faults)
    ensures Unharmed(p, EnsurePool(p, pool, path))
  {
    hide Send, Reply;
    EnsurePoolNeverSkips(p, pool, path);
  }

  lemma EnsureVolumeUnharmed(p: Pass, pool: string, vol: string, how: Recipe)
    requires Retryable(p.remote.faults)
    requires how.Layered?
        ==> Key(how.basePool, how.base) in p.remote.host.volumes && how.basePool in p.remote.host.pools
    requires how.Cloned?
        ==> how.basePool == pool && Key(how.basePool, how.base) in p.remote.host.volumes && pool in p.remote.host.pools
    ensures Unharmed(p, EnsureVolume(p, pool, vol, how))
  {
    hide Send, Reply, Retryable;
    var c := VolumeExists(pool, vol);
    var p1 := After(p, c);
    PerformUnharmed(p, c);
    SaidVolume(p.remote, pool, vol);
    match how
    case Layered(basePool, base, size) =>
      PerformUnharmed(p1, GetVolumePath(basePool, base));
      var p2 := After(p1, GetVolumePath(basePool, base));
      SaidVolume(p1.remote, basePool, base);
      forall where {:trigger CreateVolumeFromBackingStore(pool, vol, where, size)} | Reply(p.remote, c) == Is(false)
        ensures Reply(p2.remote, CreateVolumeFromBackingStore(pool, vol, where, size)) != Err(Terminal)
      {
        NoDuplicate(p2.remote, CreateVolumeFromBackingStore(pool, vol, where, size));
      }
    case Cloned(basePool, base) =>
      if Reply(p.remote, c) == Is(false) {
        NoDuplicate(p1.remote, CloneVolume(basePool, base, vol));
      }
    case Fetched(image) =>
      if Reply(p.remote, c) == Is(false) {
        NoDuplicate(p1.remote, UploadQcow2Volume(pool, vol, image));
      }
    case Empty(size) =>
      if Reply(p.remote, c) == Is(false) {
        NoDuplicate(p1.remote, CreateVolume(pool, vol, size));
      }
    case Built(data) =>
      if Reply(p.remote, c) == Is(false) {
        NoDuplicate(p1.remote, UploadVolumeFromBytes(pool, vol, data));
      }
  }

  /** Lookups answer truthfully or with an error, and change nothing. */
  lemma SaidVolume(r: Remote, pool: string, vol: string)
    ensures Send(r, VolumeExists(pool, vol)).host == r.host && Send(r, GetVolumePath(pool, vol)).host == r.host
    ensures var a := Reply(r, VolumeExists(pool, vol)); a.Err? || a.Is?
    ensures Reply(r, VolumeExists(pool, vol)) == Is(false)
        ==> pool !in r.host.pools || Key(pool, vol) !in r.host.volumes
    ensures var a := Reply(r, GetVolumePath(pool, vol));
            pool in r.host.pools && Key(pool, vol) in r.host.volumes ==> a != Err(NotFound)
  {
  }

  lemma NoDuplicate(r: Remote, c: Call)
    requires MakesVolume(c) && Retryable(r.faults)
    requires c.pool !in r.host.pools || Key(c.pool, c.vol) !in r.host.volumes
    ensures Reply(r, c) != Err(Terminal)
    ensures c.CloneVolume? && c.pool in r.host.pools && Key(c.pool, c.source) in r.host.volumes
        ==> Reply(r, c) != Err(NotFound)
  {
    hide Retryable;
    LaterRetryable(r.faults);
  }

  lemma StageImageUnharmed(m: Machine, x: Inputs, p: Pass)
    requires Retryable(p.remote.faults)
    ensures Unharmed(p, StageImage(m, x, p))
  {
    hide Send, Reply, EnsureVolume, Retryable;
    if m.clusterImage.Some? {
      var pool, vol := m.clusterImage.value.pool, m.clusterImage.value.volume;
      PerformUnharmed(p, VolumeExists(pool, vol));
      if x.image.Some? {
        EnsureVolumeUnharmed(After(p, VolumeExists(pool, vol)), pool, vol, Fetched(x.image.value));
      }
    }
  }

  lemma RootDiskUnharmed(m: Machine, p: Pass)
    requires Retryable(p.remote.faults) && p.pool == m.storagePool && RootHome(m) == WorkPool(m) && BaseApart(m)
    requires BaseKey(m) in p.remote.host.volumes && BasePool(m) in p.remote.host.pools
    ensures Unharmed(p, RootDisk(m, p))
  {
    hide EnsurePool, EnsureVolume, Retryable, EphemeralPool, EphemeralPath;
    var r := if m.ephemeral then EnsurePool(p, EphemeralPool(m), EphemeralPath(m)) else Result(p, Going);
    if m.ephemeral {
      EnsurePoolUnharmed(p, EphemeralPool(m), EphemeralPath(m));
      EnsurePoolFields(p, EphemeralPool(m), EphemeralPath(m));
      EnsurePoolSpares(m, p);
    }
    if r.flow.Going? {
      EnsureVolumeUnharmed(r.pass, r.pass.pool, RootVolume(m), RootRecipe(m));
    }
  }

  ghost predicate BaseReady(m: Machine, r: Remote) {
    BaseKey(m) in r.host.volumes && BasePool(m) in r.host.pools && Retryable(r.faults)
  }

  lemma BaseReadyIsClosed(g: Mode)
    requires BaseApart(g.m)
    ensures Closed((r: Remote) => BaseReady(g.m, r), c => Allowed(g, c))
  {
    hide HostAfter, Faithful, Touchable, EphemeralPool, EphemeralPath, BasePool, Retryable;
    forall r: Remote, c | BaseReady(g.m, r) && Allowed(g, c)
      ensures BaseReady(g.m, Send(r, c))
    {
      VolumesAfter(r.host, c, NextFault(r.faults));
      PoolsAfter(r.host, c, NextFault(r.faults));
      LaterRetryable(r.faults);
    }
  }

  lemma EnsurePoolSpares(m: Machine, p: Pass)
    requires m.ephemeral && BaseApart(m) && BaseReady(m, p.remote)
    ensures BaseReady(m, EnsurePool(p, EphemeralPool(m), EphemeralPath(m)).pass.remote)
  {
    hide EnsurePool, Allowed, BaseReady;
    var g := Mode(m, NoInputs(), Capacity(0, 0), (q: string) => "", false, 0, Free, true);
    BaseReadyIsClosed(g);
    EphemeralCallsAllowed(g);
    EnsurePoolKeeps(p, EphemeralPool(m), EphemeralPath(m), (r: Remote) => BaseReady(m, r), c => Allowed(g, c));
  }

  /** What the inputs must not be for a pass to record no failure; reads may fail. */
  predicate Usable(m: Machine, x: Inputs) {
    && !m.sessionNetwork && !AutoSize(m.vcpus, m.memoryMB, x.capacity).Insufficient?
    && !m.format.Unsupported? && (m.format.CloudInit? && x.bootstrap.Some? ==> x.iso.Some?)
  }

  lemma BootstrapUnharmed(m: Machine, x: Inputs, p: Pass)
    requires Retryable(p.remote.faults) && Usable(m, x)
    ensures Unharmed(p, Bootstrap(m, x, p))
  {
    hide Send, Reply, EnsureVolume, IgnitionPath, AutoSize, Retryable;
    if x.bootstrap.Some? {
      if m.format.Ignition? {
        PerformUnharmed(p, WriteRemoteFile(IgnitionPath(m), x.bootstrap.value));
      } else {
        EnsureVolumeUnharmed(p, p.pool, IsoVolume(m), Built(x.iso.value));
      }
    }
  }

  lemma OneDiskUnharmed(m: Machine, d: DiskSpec, p: Pass)
    requires Retryable(p.remote.faults)
    ensures Unharmed(p, OneDisk(m, d, p)) && Retryable(OneDisk(m, d, p).pass.remote.faults)
  {
    hide Send, Reply, EnsureVolume, Retryable;
    EnsureVolumeUnharmed(p, d.storagePool, DiskVolume(m, d), Empty(d.size));
    var q := EnsureVolume(p, d.storagePool, DiskVolume(m, d), Empty(d.size)).pass;
    EnsureVolumeRetryable(p, d.storagePool, DiskVolume(m, d), Empty(d.size));
    PerformUnharmed(q, GetVolumePath(d.storagePool, DiskVolume(m, d)));
  }

  lemma FirstDisksUnharmed(m: Machine, n: nat, p: Pass)
    requires n <= |m.disks| && Retryable(p.remote.faults)
    ensures Unharmed(p, FirstDisks(m, n, p)) && Retryable(FirstDisks(m, n, p).pass.remote.faults)
  {
    hide OneDisk, Retryable;
    if n > 0 {
      FirstDisksUnharmed(m, n - 1, p);
      OneDiskUnharmed(m, m.disks[n - 1], FirstDisks(m, n - 1, p).pass);
    }
  }

  lemma EnsureFileUnharmed(p: Pass, path: string, data: string)
    requires Retryable(p.remote.faults)
    ensures Unharmed(p, EnsureFile(p, path, data)) && Retryable(EnsureFile(p, path, data).pass.remote.faults)
  {
    hide Send, Reply, Retryable;
    PerformUnharmed(p, RemoteFileExists(path));
    PerformUnharmed(After(p, RemoteFileExists(path)), WriteRemoteFile(path, data));
  }

  lemma BootArtifactsUnharmed(m: Machine, x: Inputs, p: Pass)
    requires Retryable(p.remote.faults)
    ensures Unharmed(p, BootArtifacts(m, x, p)) && Retryable(BootArtifacts(m, x, p).pass.remote.faults)
  {
    hide EnsureFile, KernelFile, InitrdFile, Retryable;
    if m.boot.Some? && x.bootFiles.Some? {
      var b, f := m.boot.value, x.bootFiles.value;
      EnsureFileUnharmed(p, KernelFile(b, f), f.kernel);
      EnsureFileUnharmed(EnsureFile(p, KernelFile(b, f), f.kernel).pass, InitrdFile(b, f), f.initrd);
    }
  }

  lemma DefineUnharmed(m: Machine, p: Pass, size: Capacity)
    requires Retryable(p.remote.faults)
    ensures Unharmed(p, Define(m, p, size)) && Retryable(Define(m, p, size).pass.remote.faults)
  {
    hide Send, Reply, Retryable, BaseName, IgnitionPath, RootVolume, IsoVolume;
    var root, iso := GetVolumePath(p.pool, RootVolume(m)), GetVolumePath(p.pool, IsoVolume(m));
    PerformUnharmed(p, root);
    var p1 := After(p, root);
    PerformUnharmed(p1, iso);
    var p2 := if m.format.CloudInit? then After(p1, iso) else p1;
    forall def {:trigger DefineDomain(BaseName(m), def)} | true
      ensures Unharmed(p2, Perform(p2, DefineDomain(BaseName(m), def)))
      ensures Retryable(Send(p2.remote, DefineDomain(BaseName(m), def)).faults)
    {
      PerformUnharmed(p2, DefineDomain(BaseName(m), def));
    }
  }

  lemma StartUnharmed(m: Machine, p: Pass)
    requires Retryable(p.remote.faults)
    ensures Unharmed(p, Start(m, p))
  {
    hide Send, Reply, Retryable, BaseName;
    var d := BaseName(m);
    PerformUnharmed(p, GetDomain(d));
    var p1 := After(p, GetDomain(d));
    PerformUnharmed(p1, StartDomain(d));
    PerformUnharmed(After(p1, StartDomain(d)), GetDomain(d));
  }

  lemma RunDomainUnharmed(m: Machine, p: Pass, size: Capacity)
    requires Retryable(p.remote.faults)
    ensures Unharmed(p, RunDomain(m, p, size))
  {
    hide Send, Reply, Retryable, BaseName, Define, Start;
    PerformUnharmed(p, DomainExists(BaseName(m)));
    var p1 := After(p, DomainExists(BaseName(m)));
    StartUnharmed(m, p1);
    DefineUnharmed(m, p1, size);
    StartUnharmed(m, Define(m, p1, size).pass);
  }

  lemma BaseReadyWhenStaged(g: Mode, p: Pass)
    requires Loose(g) && g.phase == 0 && BaseApart(g.m) && Offers(g.m, p.remote.host) && Retryable(p.remote.faults)
    requires StageImage(g.m, g.x, p).flow.Going?
    ensures BaseReady(g.m, StageImage(g.m, g.x, p).pass.remote)
  {
    hide StageImage, Allowed, Retryable, InEphemeral, BasePool, HostAfter;
    var inv := (r: Remote) => BaseReady(g.m, r);
    assert Refers(g.m, BasePool(g.m));
    if BaseKey(g.m) in p.remote.host.volumes {
      BaseReadyIsClosed(g);
      StageImageKeeps(g, p, inv, c => Allowed(g, c));
    } else {
      StageImageGives(g.m, g.x, p);
      var late := g.(phase := 1);
      RetryableIsKept(g);
      StageImageKeeps(g, p, (r: Remote) => RetryableSoFar(r), c => Allowed(g, c));
      var pools := {BasePool(g.m)};
      HasIsKept(late, {}, pools);
      StageImageKeeps(late, p, (r: Remote) => Has(r.host, {}, pools), c => Allowed(late, c));
    }
  }

  lemma ProvisionUnharmed(m: Machine, x: Inputs, p: Pass, size: Capacity)
    requires p == Begin(m, p.remote, p.failure, p.ready) && Retryable(p.remote.faults)
    requires Usable(m, x) && Offers(m, p.remote.host) && RootHome(m) == WorkPool(m) && BaseApart(m)
    ensures Provision(m, x, p, size).pass.failure == p.failure
  {
    hide StageImage, RootDisk, Bootstrap, FirstDisks, BootArtifacts, RunDomain, Provision, Retryable, Offers,
         Usable, Kept, Allowed, RootHome, WorkPool, BaseApart, KernelFile, InitrdFile;
    var g := Mode(m, x, size, (q: string) => "", false, 0, Free, true);
    ProvisionUnfolds(m, x, p, size);
    StageImageUnharmed(m, x, p);
    if !Stops(StageImage(m, x, p).flow) {
      BaseReadyWhenStaged(g, p);
      FieldsAlong(m, x, p);
      RootDiskUnharmed(m, StageImage(m, x, p).pass);
      if !Stops(Rooted(m, x, p).flow) {
        RetryableIsKept(g);
        StepsKeep(g, p, (r: Remote) => RetryableSoFar(r), c => Allowed(g, c));
        BootstrapUnharmed(m, x, Rooted(m, x, p).pass);
        FirstDisksUnharmed(m, |m.disks|, Bootstrapping(m, x, p).pass);
        BootArtifactsUnharmed(m, x, Disked(m, x, p).pass);
        RunDomainUnharmed(m, Booted(m, x, p).pass, size);
      }
    }
  }

  /** On a host that offers what the spec refers to, faults that are not terminal and reads that
      fail never make a pass record a failure: the next pass will try again. */
  lemma NormalUnharmed(m: Machine, x: Inputs, p: Pass)
    requires p == Begin(m, p.remote, None, p.ready) && Retryable(p.remote.faults)
    requires Usable(m, x) && Offers(m, p.remote.host) && RootHome(m) == WorkPool(m)
    ensures Normal(m, x, p).pass.failure.None?
  {
    hide CheckPools, Provision, FirstMentions, ReferencedPools, RootHome, WorkPool, BaseKey, IsImageKey, Retryable;
    var list := FirstMentions(ReferencedPools(m));
    Preflight.FirstMentionsExact(ReferencedPools(m));
    Preflight.ReferencedPoolsExact(m);
    forall i | 0 <= i < |list|
      ensures list[i].pool in p.remote.host.pools
    {
      assert Names(list, list[i].pool);
    }
    CheckPoolsUnharmed(list, p);
    CheckPoolsFields(list, p);
    var q := CheckPools(list, p);
    if q.flow.Going? && AutoSize(m.vcpus, m.memoryMB, x.capacity).Sized? {
      ReadyUntouched(list, p);
      assert Refers(m, BasePool(m));
      ProvisionUnharmed(m, x, q.pass, AutoSize(m.vcpus, m.memoryMB, x.capacity).size);
    }
  }

  // ----- Runs -----

  /** The inputs `y` are those of `x`, except that the host may not be ready, clients or secret may be
      missing, the capacity may not be known yet, and reading the bootstrap data, the image or the
      boot files may fail. */
  predicate PartOf(y: Inputs, x: Inputs) {
    && y.iso == x.iso
    && y.capacity in {None, x.capacity} && y.bootstrap in {None, x.bootstrap}
    && y.image in {None, x.image} && y.bootFiles in {None, x.bootFiles}
  }

  ghost predicate CalmEvent(x: Inputs, e: Event) {
    !e.RequestDeletion? && (e.Reconcile? ==> PartOf(e.x, x) && Retryable(e.faults) && Untorn(e.faults))
  }

  /** Reconciles with the same inputs, as far as they can be read, cut short anywhere by retryable
      faults that tear no transfer; restarts and losses on the host; no deletion. */
  ghost predicate Calm(x: Inputs, events: seq<Event>) { forall e | e in events :: CalmEvent(x, e) }

  lemma PartIsUsable(m: Machine, y: Inputs, x: Inputs)
    requires PartOf(y, x) && Supplied(m, x)
    ensures Usable(m, y)
    ensures AutoSize(m.vcpus, m.memoryMB, y.capacity).Sized? ==>
              AutoSize(m.vcpus, m.memoryMB, y.capacity) == AutoSize(m.vcpus, m.memoryMB, x.capacity)
  {
  }

  /** With part of the inputs a pass makes no call that it would not make with all of them. */
  lemma PartAllows(g: Mode, y: Inputs, size: Capacity, c: Call)
    requires g.strict && g.defines.Exact? && g.boots && PartOf(y, g.x)
    requires Allowed(g.(x := y, size := size), c)
    requires c.DefineDomain? ==> size == g.size && (g.m.boot.None? || y.bootFiles == g.x.bootFiles)
    ensures Allowed(g, c)
  {
    hide Within, Touchable, IgnitionPath, DiskPaths, KernelFile, InitrdFile, WorkPool, RootVolume, IsoVolume, BaseName;
  }

  /** Without the boot files a pass that needs them never comes to the domain. */
  lemma BootReadNeeded(m: Machine, x: Inputs, p: Pass)
    requires m.boot.Some? && x.bootFiles.None?
    ensures !Arrives(m, x, p)
  {
    hide StageImage, Rooted, Bootstrapping, Disked;
  }

  lemma SoundIsKeptByPart(g: Mode, y: Inputs, size: Capacity, defines: Defining)
    requires Sane(g) && g.phase == 0 && PartOf(y, g.x)
    requires defines.Never? || (defines.Exact? && size == g.size && (g.m.boot.None? || y.bootFiles == g.x.bootFiles))
    ensures var part := g.(x := y, size := size, defines := defines);
            Kept(part, (r: Remote) => SoundSoFar(g, r), c => Allowed(part, c))
  {
    hide HostAfter, Allowed, Agrees, Genuine, Untorn, Sane, PartOf;
    var part := g.(x := y, size := size, defines := defines);
    SoundIsKept(g);
    forall r: Remote, c | SoundSoFar(g, r) && Allowed(part, c)
      ensures SoundSoFar(g, Send(r, c))
    {
      assert g.strict && g.defines.Exact? && g.boots by { SaneIsStrict(g); }
      NeverIsExact(part, c);
      assert part.(defines := Exact) == g.(x := y, size := size);
      PartAllows(g, y, size, c);
      assert (c => Allowed(g, c))(c) && ((r: Remote) => SoundSoFar(g, r))(r);
      SoundCall(g, r, c);
    }
  }

  lemma SaneIsStrict(g: Mode)
    requires Sane(g)
    ensures g.strict && g.defines.Exact? && g.boots
  {
  }

  lemma NeverIsExact(g: Mode, c: Call)
    requires Allowed(g, c) && !g.defines.Free?
    ensures Allowed(g.(defines := Exact), c) && (c.DefineDomain? ==> g.defines.Exact?)
  {
    hide Within, IgnitionPath, WantedDefinition, Named, KernelFile, InitrdFile;
  }

  lemma SoundCall(g: Mode, r: Remote, c: Call)
    requires Sane(g) && SoundSoFar(g, r) && Allowed(g, c)
    ensures SoundSoFar(g, Send(r, c))
  {
    hide HostAfter, Allowed, Genuine, Agrees, Untorn, Sane;
    LaterUntorn(r.faults);
    SoundByCall(g, r.host, c, NextFault(r.faults));
  }

  /** A pass with part of the inputs leaves only artifacts that are genuine for all of them. */
  lemma SoundByPartialPass(g: Mode, y: Inputs, p: Pass)
    requires Sane(g) && g.phase == 0 && PartOf(y, g.x) && Supplied(g.m, g.x)
    requires AutoSize(g.m.vcpus, g.m.memoryMB, g.x.capacity) == Sized(g.size)
    requires p == Begin(g.m, p.remote, p.failure, p.ready) && SoundSoFar(g, p.remote)
    requires SettlesPool(g.m, y, p) && GathersAll(g.m, y, p)
    ensures SoundSoFar(g, Normal(g.m, y, p).pass.remote)
  {
    hide Kept, Normal, Provision, SoundSoFar, Sane, Allowed, AutoSize, Settled, Gathered, Arrives, CheckPools,
         FirstMentions, ReferencedPools, StageImage, Rooted, Bootstrapping, Disked, Booted;
    assert g.strict && g.defines.Exact? && g.boots by { SaneIsStrict(g); }
    PartIsUsable(g.m, y, g.x);
    var inv := (r: Remote) => SoundSoFar(g, r);
    if g.m.boot.None? || y.bootFiles == g.x.bootFiles {
      var part := g.(x := y, size := g.size, defines := Exact);
      SoundIsKeptByPart(g, y, g.size, Exact);
      NormalKeeps(part, p, inv, c => Allowed(part, c));
    } else {
      var part := g.(x := y, size := g.size, defines := Never);
      SoundIsKeptByPart(g, y, g.size, Never);
      NormalUnfolds(g.m, y, p);
      CheckPoolsKeeps(FirstMentions(ReferencedPools(g.m)), p, inv, c => Allowed(part, c))
          by { PoolQueriesAllowed(part, inv); }
      if Reaches(g.m, y, p) {
        var q := Provisioning.Preflight(g.m, p).pass;
        BootReadNeeded(g.m, y, q);
        StepsKeep(part, q, inv, c => Allowed(part, c));
        ProvisionUnfolds(g.m, y, q, AutoSize(g.m.vcpus, g.m.memoryMB, y.capacity).size);
      }
    }
  }

  lemma PoolQueriesAllowed(g: Mode, inv: Remote -> bool)
    requires Kept(g, inv, c => Allowed(g, c))
    ensures Closed(inv, c => Allowed(g, c)) && forall pool :: Allowed(g, PoolExists(pool))
  {
    hide Closed;
    forall pool
      ensures Allowed(g, PoolExists(pool))
    {
      AllowsQuery(g, PoolExists(pool));
    }
  }

  lemma SoundByHostEvent(g: Mode, h: Host)
    requires Sane(g) && Sound(g, h)
    ensures Sound(g, Restarted(g.m, h)) && Sound(g, Unmounted(g.m, h)) && Sound(g, Stopped(g.m, h))
  {
    hide BaseName, EphemeralPool, EphemeralPath, RootVolume, IsoVolume, DiskVolume, WantedDefinition, KernelFile,
         InitrdFile, Distinct, RootHome, WorkPool, Under;
    SoundSmaller(g, h, Unmounted(g.m, h));
  }

  /** Losing volumes of the ephemeral pool and files leaves the rest genuine. */
  lemma SoundSmaller(g: Mode, h: Host, h': Host)
    requires Sane(g) && Genuine(g, h)
    requires forall k | k in h'.volumes :: k in h.volumes && h'.volumes[k] == h.volumes[k]
    requires forall k | k in h.volumes && !InEphemeral(g.m, k.pool) :: k in h'.volumes
    requires forall f | f in h'.files :: f in h.files && h'.files[f] == h.files[f]
    requires h'.domains == h.domains
    ensures Genuine(g, h')
  {
    hide BaseName, EphemeralPool, EphemeralPath, RootVolume, IsoVolume, DiskVolume, WantedDefinition, KernelFile,
         InitrdFile, Distinct, RootHome, WorkPool;
  }

  lemma OffersStays(m: Machine, was: Host, h: Host)
    requires Offers(m, was) && FramedPools(m, was.pools, h.pools) && FramedVolumes(m, was.volumes, h.volumes)
    requires !Touchable(m, BaseKey(m))
    ensures Offers(m, h)
    ensures BaseKey(m) in was.volumes ==> BaseKey(m) in h.volumes && h.volumes[BaseKey(m)] == was.volumes[BaseKey(m)]
  {
    hide Touchable, EphemeralPool, EphemeralPath, IsImageKey;
    assert Refers(m, BasePool(m));
  }

  /** The start of a calm run: a host without artifacts of the machine, offering what the spec
      refers to, on which a staged image or boot file already there is genuine. */
  ghost predicate CalmStart(m: Machine, x: Inputs, w: World) {
    var g := StrictMode(m, x, w.host);
    && Fresh(m, w.host) && Offers(m, w.host) && Supplied(m, x)
    && Distinct(m) && RootHome(m) == WorkPool(m)
    && GenuineImage(g, w.host.volumes) && GenuineFiles(g, w.host.files)
    && w.obj.Live? && !w.obj.deleting && w.obj.failure.None?
  }

  /** The names in a spec keep the machine's volumes apart: images do not carry its prefix, disks have
      different names, none of them "root", and no pool of the spec is the generated one. */
  ghost predicate WellNamed(m: Machine) {
    && !(BaseName(m) + "-" <= m.baseImage)
    && (m.clusterImage.Some? ==> !(BaseName(m) + "-" <= m.clusterImage.value.volume))
    && (forall i | 0 <= i < |m.disks| :: m.disks[i].name != "root")
    && (forall i, j | 0 <= i < j < |m.disks| :: m.disks[i].name != m.disks[j].name)
    && (forall pool | Refers(m, pool) :: !InEphemeral(m, pool))
  }

  lemma SameMiddle(prefix: string, a: string, b: string, suffix: string)
    requires prefix + a + suffix == prefix + b + suffix
    ensures a == b
  {
    assert (prefix + a + suffix)[|prefix|..|prefix| + |a|] == a;
    assert (prefix + b + suffix)[|prefix|..|prefix| + |b|] == b;
  }

  lemma WellNamedIsDistinct(m: Machine)
    requires WellNamed(m)
    ensures Distinct(m)
  {
    hide Touchable, BaseName, InEphemeral;
    var prefix := BaseName(m) + "-";
    assert RootVolume(m) == prefix + "root" + ".qcow2";
    assert forall i | 0 <= i < |m.disks| :: DiskVolume(m, m.disks[i]) == prefix + m.disks[i].name + ".qcow2";
    forall i | 0 <= i < |m.disks|
      ensures RootKey(m) != DiskKey(m, m.disks[i])
    {
      if RootVolume(m) == DiskVolume(m, m.disks[i]) { SameMiddle(prefix, "root", m.disks[i].name, ".qcow2"); }
    }
    forall i, j | 0 <= i < j < |m.disks|
      ensures DiskKey(m, m.disks[i]) != DiskKey(m, m.disks[j])
    {
      if DiskVolume(m, m.disks[i]) == DiskVolume(m, m.disks[j]) {
        SameMiddle(prefix, m.disks[i].name, m.disks[j].name, ".qcow2");
      }
    }
    forall k | Touchable(m, k)
      ensures prefix <= k.name
    {
      TouchableCarriesBaseName(m, k);
    }
  }

  /** A host with just what the spec refers to: its pools and, unless the cluster stages it, the base
      image. */
  ghost function Prepared(m: Machine, base: Volume): Host {
    Host(map pool | pool in NamedPools(m) :: Pool(pool, true, true),
         if IsImageKey(m, BaseKey(m)) then map[] else map[BaseKey(m) := base],
         map[], map[])
  }

  /** The premises of convergence can be met by every spec whose names keep its volumes apart: a new
      object on a prepared host starts calm. */
  lemma PreparedHostIsCalm(m: Machine, x: Inputs, base: Volume, finalizer: bool)
    requires WellNamed(m) && Supplied(m, x) && RootHome(m) == WorkPool(m)
    ensures CalmStart(m, x, World(Prepared(m, base), Live(finalizer, false, None, false)))
  {
    hide Touchable, BaseName, RootHome, WorkPool, NamedPools, Refers, Site, Supplied, AutoSize, KernelFile, InitrdFile;
    var g := StrictMode(m, x, Prepared(m, base));
    assert g.m == m && g.x == x;
    WellNamedIsDistinct(m);
    NamedPoolsAreReferred(m);
    assert Refers(m, BasePool(m)) by { BasePoolIsReferred(m); }
    assert m.ephemeral ==> !Refers(m, EphemeralPool(m));
  }

  lemma BasePoolIsReferred(m: Machine)
    ensures Refers(m, BasePool(m))
  {
  }

  lemma FreshIsGenuine(g: Mode, h: Host)
    requires Fresh(g.m, h) && GenuineImage(g, h.volumes) && GenuineFiles(g, h.files)
    ensures Genuine(g, h)
  {
    hide BaseName, EphemeralPool, RootVolume, IsoVolume, DiskVolume, WantedDefinition, GenuineImage, GenuineFiles,
         WorkPool, InEphemeral;
    assert Touchable(g.m, RootKey(g.m));
    assert g.m.format.CloudInit? ==> Touchable(g.m, IsoKey(g.m));
    forall i | 0 <= i < |g.m.disks|
      ensures DiskKey(g.m, g.m.disks[i]) !in h.volumes
    {
      assert IsDiskKey(g.m, DiskKey(g.m, g.m.disks[i]));
    }
  }

  lemma CalmStartIsSound(m: Machine, x: Inputs, w: World)
    requires CalmStart(m, x, w)
    ensures var g := StrictMode(m, x, w.host);
            && Sane(g) && Sound(g, w.host) && AutoSize(m.vcpus, m.memoryMB, x.capacity) == Sized(g.size)
  {
    hide Fresh, Distinct, RootHome, WorkPool, Genuine, GenuineImage, GenuineFiles, Agrees, OwnSite, Site, AutoSize,
         EphemeralPool, OwnDirectory, BaseKey, IsImageKey;
    var g := StrictMode(m, x, w.host);
    FreshIsGenuine(g, w.host);
    FreshIsOwn(m, w.host);
    assert Agrees(g.site, w.host) by { SiteAgreesHere(m, w.host); }
    assert BaseApart(m) by { BasePoolIsReferred(m); }
  }

  lemma SiteAgreesHere(m: Machine, h: Host)
    ensures Agrees(Site(m, h), h)
  {
  }

  /** What every calm run keeps: the machine is never marked failed, everything foreign is as
      it was, and everything that is there of the machine is genuine. */
  lemma {:induction false} CalmRun(m: Machine, x: Inputs, w: World, events: seq<Event>)
    requires CalmStart(m, x, w) && Calm(x, events)
    ensures var end := Run(m, w, events);
            && end.obj.Live? && !end.obj.deleting && end.obj.failure.None?
            && Framed(m, w.host, end.host) && Sound(StrictMode(m, x, w.host), end.host)
  {
    hide Framed, Sound, Step, StrictMode, CalmStart, CalmEvent;
    if events == [] {
      CalmStartIsSound(m, x, w);
      assert OwnDirectory(m, w.host.pools) && w.obj.Live? && !w.obj.deleting && w.obj.failure.None?
          by { CalmStartFacts(m, x, w); }
      FramedAtStart(m, w.host);
    } else {
      var front, last := events[..|events| - 1], events[|events| - 1];
      assert Calm(x, front) && last in events;
      CalmRun(m, x, w, front);
      CalmStep(m, x, w, Run(m, w, front), last);
    }
  }

  lemma CalmStartFacts(m: Machine, x: Inputs, w: World)
    requires CalmStart(m, x, w)
    ensures OwnDirectory(m, w.host.pools) && w.obj.Live? && !w.obj.deleting && w.obj.failure.None?
  {
  }

  lemma CalmStep(m: Machine, x: Inputs, w: World, now: World, e: Event)
    requires CalmStart(m, x, w) && CalmEvent(x, e)
    requires now.obj.Live? && !now.obj.deleting && now.obj.failure.None?
    requires Framed(m, w.host, now.host) && Sound(StrictMode(m, x, w.host), now.host)
    ensures var end := Step(m, now, e);
            && end.obj.Live? && !end.obj.deleting && end.obj.failure.None?
            && Framed(m, w.host, end.host) && Sound(StrictMode(m, x, w.host), end.host)
  {
    hide Normal, Restarted, Unmounted, Stopped, CalmStart, Retryable, Untorn, Framed, Sound, PartOf, StrictMode,
         AutoSize, Sane;
    CalmStartIsSound(m, x, w);
    FramedByHostEvent(m, w.host, now.host);
    SoundByHostEvent(StrictMode(m, x, w.host), now.host) by { StrictOf(m, x, w.host); }
    assert StrictMode(m, x, w.host).m == m by { StrictOf(m, x, w.host); }
    if e.Reconcile? { CalmPass(m, x, w, now, e.x, e.faults); }
  }

  lemma StrictOf(m: Machine, x: Inputs, was: Host)
    ensures var g := StrictMode(m, x, was); g.m == m && g.x == x && g.phase == 0
  {
    hide AutoSize, Site;
  }

  lemma CalmPass(m: Machine, x: Inputs, w: World, now: World, y: Inputs, faults: seq<Fault>)
    requires CalmStart(m, x, w) && PartOf(y, x)
    requires now.obj.Live? && !now.obj.deleting && now.obj.failure.None?
    requires Framed(m, w.host, now.host) && Sound(StrictMode(m, x, w.host), now.host)
    requires Retryable(faults) && Untorn(faults)
    ensures var r := PassOf(m, now, y, faults);
            && r.pass.failure.None?
            && Framed(m, w.host, r.pass.remote.host) && Sound(StrictMode(m, x, w.host), r.pass.remote.host)
  {
    hide Normal, Fresh, Supplied, Distinct, RootHome, WorkPool, Retryable, Untorn, Offers, Sane, PartOf, StrictMode,
         SettlesPool, GathersAll, FramedVolumes, FramedPools, FramedDomains, FramedFiles, GenuineFiles,
         GenuineImage, Sound, AutoSize, Usable;
    var g := StrictMode(m, x, w.host);
    StrictOf(m, x, w.host);
    FramedByPass(m, w.host, now, y, faults);
    var p := StartOf(m, now, faults);
    assert SoundSoFar(g, p.remote);
    CalmStartIsSound(m, x, w);
    RetryableGathers(m, y, p);
    SoundByPartialPass(g, y, p);
    assert !Touchable(m, BaseKey(m)) by { BaseIsForeign(m); }
    OffersStays(m, w.host, now.host);
    PartIsUsable(m, y, x);
    NormalUnharmed(m, y, p);
  }

  lemma BaseIsForeign(m: Machine)
    requires Distinct(m)
    ensures !Touchable(m, BaseKey(m))
  {
  }

  /** The pass that meets no fault. */
  function CleanPass(m: Machine, x: Inputs, w: World): Result
    requires w.obj.Live?
  {
    Normal(m, x, Begin(m, Remote(w.host, [], []), w.obj.failure, w.obj.ready))
  }

  /** Retry convergence.  Take any run of passes interrupted at any calls by crashes and retryable
      errors, or lacking some of their inputs, mixed with daemon restarts, lost tmpfs mounts and stopped
      domains.  One undisturbed pass after it ends Ready with exactly the artifacts that a single
      undisturbed pass on the original host produces. */
  lemma RetryConverges(m: Machine, x: Inputs, w: World, events: seq<Event>)
    requires CalmStart(m, x, w) && Calm(x, events)
    ensures var end := Run(m, w, events);
            && end.obj.Live?
            && var again, once := CleanPass(m, x, end), CleanPass(m, x, w);
            && again.flow.Going? && again.pass.ready && again.pass.failure.None?
            && ViewOf(m, x, again.pass.remote.host) == ViewOf(m, x, once.pass.remote.host)
            && ViewOf(m, x, once.pass.remote.host)
                == Blueprint(StrictMode(m, x, w.host), BaseOf(StrictMode(m, x, w.host), w.host))
  {
    hide Run, Normal, Fresh, Sane, Sound, Distinct, RootHome, WorkPool, ViewOf, Blueprint, Offers, AutoSize,
         FramedDomains, FramedFiles, FramedPools, FramedVolumes, GenuineFiles, GenuineImage, Supplied, BaseKey,
         IsImageKey;
    var g := StrictMode(m, x, w.host);
    CalmStartIsSound(m, x, w);
    CalmRun(m, x, w, events);
    var end := Run(m, w, events);
    BaseIsForeign(m);
    OffersStays(m, w.host, end.host);
    CleanPassReaches(g, Begin(m, Remote(w.host, [], []), w.obj.failure, w.obj.ready));
    CleanPassReaches(g, Begin(m, Remote(end.host, [], []), end.obj.failure, end.obj.ready));
    OfferedBase(m, w.host);
    OfferedBase(m, end.host);
    SameBase(g, w.host, end.host);
  }

  /** And once its patch gets through, the object says so: Ready, no failure, and the finalizer in place. */
  lemma ConvergedIsStored(m: Machine, x: Inputs, w: World, events: seq<Event>)
    requires CalmStart(m, x, w) && Calm(x, events)
    ensures var now := Step(m, Run(m, w, events), Reconcile(x, [], true));
            && now.obj == Live(true, false, None, true)
            && ViewOf(m, x, now.host) == Blueprint(StrictMode(m, x, w.host), BaseOf(StrictMode(m, x, w.host), w.host))
  {
    hide Run, Normal, CalmStart, Calm, ViewOf, Blueprint, Framed, Sound, StrictMode;
    RetryConverges(m, x, w, events);
    CalmRun(m, x, w, events);
  }

  lemma SameBase(g: Mode, was: Host, h: Host)
    requires Supplied(g.m, g.x) && Sound(g, h)
    requires BaseKey(g.m) in was.volumes || IsImageKey(g.m, BaseKey(g.m))
    requires BaseKey(g.m) in was.volumes
        ==> BaseKey(g.m) in h.volumes && h.volumes[BaseKey(g.m)] == was.volumes[BaseKey(g.m)]
    ensures BaseOf(g, h) == BaseOf(g, was)
  {
    hide GenuineRoot, GenuineIso, GenuineDisks, GenuineDomain, GenuineFiles, Agrees, BaseKey, AutoSize;
  }
}
