/** Retrying converges: from whatever interrupted passes, daemon restarts and lost tmpfs mounts
    left on the host, one undisturbed pass reaches the artifacts of a single clean pass. */
module Convergence {
  import opened Common
  import opened LibvirtHost
  import opened LibvirtMachine
  import opened Provisioning
  import opened PassCalls
  import opened Ready
  import opened QuietPass
  import opened Definitions

  /** The machine's volumes do not share names with each other or with the staged image. */
  ghost predicate Distinct(m: Machine) {
    && !IsDiskKey(m, RootKey(m))
    && (forall i, j | 0 <= i < j < |m.disks| :: DiskKey(m, m.disks[i]) != DiskKey(m, m.disks[j]))
    && (forall k | IsImageKey(m, k) :: !Touchable(m, k))
    && !Touchable(m, BaseKey(m))
  }

  /** Root disk contents: a clone of the base image, or an overlay on its path. */
  predicate GenuineRoot(g: Mode, volumes: map<Key, Volume>) {
    RootKey(g.m) in volumes ==>
      if g.m.fullClone then BaseKey(g.m) in volumes && volumes[RootKey(g.m)] == volumes[BaseKey(g.m)]
      else volumes[RootKey(g.m)] == Overlay(g.site(BasePool(g.m)) + "/" + g.m.baseImage, g.m.rootSize)
  }

  predicate GenuineIso(g: Mode, volumes: map<Key, Volume>) {
    g.m.format.CloudInit? && IsoKey(g.m) in volumes ==> g.x.iso.Some? && volumes[IsoKey(g.m)] == Media(g.x.iso.value)
  }

  ghost predicate GenuineDisks(g: Mode, volumes: map<Key, Volume>) {
    forall i | 0 <= i < |g.m.disks| && DiskKey(g.m, g.m.disks[i]) in volumes ::
      volumes[DiskKey(g.m, g.m.disks[i])] == Blank(g.m.disks[i].size)
  }

  predicate GenuineImage(g: Mode, volumes: map<Key, Volume>) {
    g.m.clusterImage.Some? ==>
      var k := Key(g.m.clusterImage.value.pool, g.m.clusterImage.value.volume);
      k in volumes ==> Some(volumes[k]) == g.x.image
  }

  predicate GenuineDomain(g: Mode, domains: map<string, Domain>) {
    BaseName(g.m) in domains ==> domains[BaseName(g.m)].def == WantedDefinition(g.m, g.x, g.size, g.site)
  }

  predicate GenuineFiles(g: Mode, files: map<string, File>) {
    g.m.boot.Some? && g.x.bootFiles.Some? ==>
      var b, f := g.m.boot.value, g.x.bootFiles.value;
      && (KernelFile(b, f) in files ==> files[KernelFile(b, f)] == Contents(f.kernel))
      && (InitrdFile(b, f) in files ==> files[InitrdFile(b, f)] == Contents(f.initrd))
  }

  /** Whatever is there of the machine is what the spec asks for. */
  ghost predicate Genuine(g: Mode, h: Host) {
    && GenuineRoot(g, h.volumes)
    && GenuineIso(g, h.volumes)
    && GenuineDisks(g, h.volumes)
    && GenuineImage(g, h.volumes)
    && GenuineDomain(g, h.domains)
    && GenuineFiles(g, h.files)
  }

  lemma MadeAsAsked(h: Host, c: Call, f: Fault)
    requires MakesVolume(c) && !(f.Broken? && f.extent.Torn?)
    ensures var now := HostAfter(h, c, f).volumes;
            || now == h.volumes
            || (&& Key(c.pool, c.vol) !in h.volumes
                && (c.CreateVolumeFromBackingStore?
                    ==> now == h.volumes[Key(c.pool, c.vol) := Overlay(c.backing, c.size)])
                && (c.CreateVolume? ==> now == h.volumes[Key(c.pool, c.vol) := Blank(c.size)])
                && (c.UploadVolumeFromBytes? ==> now == h.volumes[Key(c.pool, c.vol) := Media(c.data)])
                && (c.UploadQcow2Volume? ==> now == h.volumes[Key(c.pool, c.vol) := c.image])
                && (c.CloneVolume? ==>
                      && Key(c.pool, c.source) in h.volumes
                      && now == h.volumes[Key(c.pool, c.vol) := h.volumes[Key(c.pool, c.source)]]))
  {
    hide OutsidePool, OutsideDir;
  }

  lemma IsoIsNoDisk(m: Machine)
    ensures IsoKey(m) != RootKey(m) && !IsDiskKey(m, IsoKey(m))
  {
    var n := IsoVolume(m);
    assert n[|n| - 1] == 'o';
    assert RootVolume(m)[|RootVolume(m)| - 1] == '2';
    forall i | 0 <= i < |m.disks|
      ensures DiskKey(m, m.disks[i]) != IsoKey(m)
    {
      var d := DiskVolume(m, m.disks[i]);
      assert d[|d| - 1] == '2';
    }
  }

  /** The base image lies outside the ephemeral pool. */
  predicate BaseApart(m: Machine) { !InEphemeral(m, BasePool(m)) }

  ghost predicate GenuineVolumes(g: Mode, volumes: map<Key, Volume>) {
    GenuineRoot(g, volumes) && GenuineIso(g, volumes) && GenuineDisks(g, volumes) && GenuineImage(g, volumes)
  }

  lemma GenuineMade(g: Mode, h: Host, c: Call, f: Fault)
    requires g.strict && Allowed(g, c) && MakesVolume(c) && !(f.Broken? && f.extent.Torn?)
    requires Distinct(g.m) && RootHome(g.m) == WorkPool(g.m)
    requires GenuineVolumes(g, h.volumes)
    ensures GenuineVolumes(g, HostAfter(h, c, f).volumes)
  {
    hide HostAfter, BaseName, EphemeralPool, WantedDefinition, BootPath, IgnitionPath, DiskVolume, RootVolume,
         IsoVolume;
    MadeAsAsked(h, c, f);
    IsoIsNoDisk(g.m);
    var k := Key(c.pool, c.vol);
    if c.CreateVolume? {
      var i :| 0 <= i < |g.m.disks| && k == DiskKey(g.m, g.m.disks[i]) && c.size == g.m.disks[i].size;
      assert IsDiskKey(g.m, k);
    }
  }

  lemma GenuineVolumesByCall(g: Mode, h: Host, c: Call, f: Fault)
    requires g.strict && Allowed(g, c) && !(f.Broken? && f.extent.Torn?)
    requires Distinct(g.m) && RootHome(g.m) == WorkPool(g.m) && BaseApart(g.m)
    requires GenuineVolumes(g, h.volumes)
    ensures GenuineVolumes(g, HostAfter(h, c, f).volumes)
  {
    hide HostAfter, BaseName, EphemeralPool, WantedDefinition, Faithful, Touchable, DiskVolume, RootVolume,
         IsoVolume, WorkPool;
    if MakesVolume(c) {
      GenuineMade(g, h, c, f);
    } else {
      VolumesAfter(h, c, f);
    }
  }

  lemma GenuineDomainByCall(g: Mode, h: Host, c: Call, f: Fault)
    requires g.defines.Exact? && Allowed(g, c) && GenuineDomain(g, h.domains)
    ensures GenuineDomain(g, HostAfter(h, c, f).domains)
  {
    hide HostAfter, BaseName, WantedDefinition, Within, Faithful;
    DomainsAfter(h, c, f);
  }

  lemma WrittenAsAsked(h: Host, path: string, data: string, f: Fault)
    requires !(f.Broken? && f.extent.Torn?)
    ensures var now := HostAfter(h, WriteRemoteFile(path, data), f).files;
            now == h.files || now == h.files[path := Contents(data)]
  {
  }

  lemma GenuineFilesByCall(g: Mode, h: Host, c: Call, f: Fault)
    requires g.strict && Allowed(g, c) && !(f.Broken? && f.extent.Torn?)
    requires GenuineFiles(g, h.files)
    ensures GenuineFiles(g, HostAfter(h, c, f).files)
  {
    hide HostAfter, Within, IgnitionPath, KernelFile, InitrdFile, WantedDefinition, Under;
    if g.m.boot.Some? && g.x.bootFiles.Some? {
      BootFilesAreApart(g.m, g.m.boot.value, g.x.bootFiles.value);
    }
    if c.WriteRemoteFile? {
      WrittenAsAsked(h, c.path, c.data, f);
    } else {
      FilesAfter(h, c, f);
    }
  }

  /** The standing facts about a machine and where its pools lie. */
  ghost predicate Sane(g: Mode) {
    && g.strict && g.defines.Exact? && g.boots
    && Distinct(g.m) && RootHome(g.m) == WorkPool(g.m) && BaseApart(g.m) && OwnSite(g.m, g.site)
  }

  ghost predicate Sound(g: Mode, h: Host) { Genuine(g, h) && Agrees(g.site, h) }

  lemma SoundByCall(g: Mode, h: Host, c: Call, f: Fault)
    requires Sane(g) && Allowed(g, c) && !(f.Broken? && f.extent.Torn?) && Sound(g, h)
    ensures Sound(g, HostAfter(h, c, f))
  {
    hide HostAfter, Allowed, Agrees, GenuineRoot, GenuineIso, GenuineDisks, GenuineImage, GenuineDomain, GenuineFiles,
         Distinct, OwnSite, RootHome, WorkPool, BaseApart;
    GenuineVolumesByCall(g, h, c, f);
    GenuineDomainByCall(g, h, c, f);
    GenuineFilesByCall(g, h, c, f);
    AgreesByCall(g, g.site, h, c, f);
  }

  ghost predicate SoundSoFar(g: Mode, r: Remote) { Sound(g, r.host) && Untorn(r.faults) }

  lemma LaterUntorn(faults: seq<Fault>)
    requires Untorn(faults)
    ensures Untorn(LaterFaults(faults)) && !(NextFault(faults).Broken? && NextFault(faults).extent.Torn?)
  {
  }

  lemma SoundIsKept(g: Mode)
    requires Sane(g)
    ensures Kept(g, (r: Remote) => SoundSoFar(g, r), c => Allowed(g, c))
  {
    hide HostAfter, Allowed, Genuine, Agrees, Untorn;
    forall r: Remote, c | SoundSoFar(g, r) && Allowed(g, c)
      ensures SoundSoFar(g, Send(r, c))
    {
      LaterUntorn(r.faults);
      SoundByCall(g, r.host, c, NextFault(r.faults));
    }
  }

  /** A provisioning pass, cut short anywhere by faults that tear no transfer and passing over no
      refusal, leaves only genuine artifacts. */
  lemma SoundByPass(g: Mode, p: Pass)
    requires Sane(g) && g.phase == 0 && p == Begin(g.m, p.remote, p.failure, p.ready)
    requires AutoSize(g.m.vcpus, g.m.memoryMB, g.x.capacity) == Sized(g.size)
    requires SoundSoFar(g, p.remote) && SettlesPool(g.m, g.x, p) && GathersAll(g.m, g.x, p)
    ensures SoundSoFar(g, Normal(g.m, g.x, p).pass.remote)
  {
    hide Kept, Normal, SoundSoFar, Distinct, RootHome, WorkPool, Allowed, AutoSize, SettlesPool, GathersAll, OwnSite;
    SoundIsKept(g);
    NormalKeeps(g, p, (r: Remote) => SoundSoFar(g, r), c => Allowed(g, c));
  }

  // ----- Boot files -----

  ghost predicate HasFiles(h: Host, files: set<string>) { files <= h.files.Keys }

  lemma HasFilesIsKept(g: Mode, files: set<string>)
    requires g.phase >= 1 && !g.strict
    ensures Kept(g, (r: Remote) => HasFiles(r.host, files), c => Allowed(g, c))
  {
    hide HostAfter, Within, Faithful;
    forall r: Remote, c | HasFiles(r.host, files) && Allowed(g, c)
      ensures HasFiles(Send(r, c).host, files)
    {
      FilesAfter(r.host, c, NextFault(r.faults));
    }
  }

  lemma EnsureFileGives(p: Pass, path: string, data: string)
    requires EnsureFile(p, path, data).flow.Going?
    ensures HasFiles(EnsureFile(p, path, data).pass.remote.host, {path})
  {
  }

  ghost function BootFileSet(m: Machine, x: Inputs): set<string> {
    if m.boot.Some? && x.bootFiles.Some?
    then {KernelFile(m.boot.value, x.bootFiles.value), InitrdFile(m.boot.value, x.bootFiles.value)} else {}
  }

  lemma BootArtifactsGives(g: Mode, p: Pass)
    requires g.phase >= 1 && Loose(g) && BootArtifacts(g.m, g.x, p).flow.Going?
    ensures HasFiles(BootArtifacts(g.m, g.x, p).pass.remote.host, BootFileSet(g.m, g.x))
  {
    hide EnsureFile, KernelFile, InitrdFile, Kept, Allowed;
    if g.m.boot.Some? && g.x.bootFiles.Some? {
      var b, f := g.m.boot.value, g.x.bootFiles.value;
      EnsureFileGives(p, KernelFile(b, f), f.kernel);
      var q := EnsureFile(p, KernelFile(b, f), f.kernel).pass;
      EnsureFileGives(q, InitrdFile(b, f), f.initrd);
      HasFilesIsKept(g, {KernelFile(b, f)});
      SecondBootFileKeeps(g, q);
    }
  }

  lemma SecondBootFileKeeps(g: Mode, q: Pass)
    requires g.phase >= 1 && Loose(g) && g.m.boot.Some? && g.x.bootFiles.Some?
    requires HasFiles(q.remote.host, {KernelFile(g.m.boot.value, g.x.bootFiles.value)})
    ensures var b, f := g.m.boot.value, g.x.bootFiles.value;
            HasFiles(EnsureFile(q, InitrdFile(b, f), f.initrd).pass.remote.host, {KernelFile(b, f)})
  {
    hide EnsureFile, Kept, HasFiles;
    var b, f := g.m.boot.value, g.x.bootFiles.value;
    HasFilesIsKept(g, {KernelFile(b, f)});
    BootFilesAreApart(g.m, b, f);
    assert InitrdFile(b, f) == b.hostPath + "/" + (f.initrdDigest + "/initramfs.img");
    assert Allowed(g, WriteRemoteFile(InitrdFile(b, f), f.initrd));
    EnsureFileKeeps(g, q, InitrdFile(b, f), f.initrd, (r: Remote) => HasFiles(r.host, {KernelFile(b, f)}),
        c => Allowed(g, c));
  }

  lemma ProvisionStagesBootFiles(m: Machine, x: Inputs, p: Pass, size: Capacity)
    requires p == Begin(m, p.remote, p.failure, p.ready)
    requires var r := Provision(m, x, p, size); r.flow.Going? && r.pass.failure.None?
    ensures HasFiles(Provision(m, x, p, size).pass.remote.host, BootFileSet(m, x))
  {
    hide StageImage, RootDisk, Bootstrap, FirstDisks, BootArtifacts, RunDomain, HasFiles, BootFileSet, Kept, Allowed;
    var late, files := Mode(m, x, size, (q: string) => "", false, 1, Free, true), BootFileSet(m, x);
    NoStepSkipped(m, x, p, size);
    BootArtifactsGives(late, Disked(m, x, p).pass);
    HasFilesIsKept(late, files);
    RunDomainKeeps(late, Booted(m, x, p).pass, (r: Remote) => HasFiles(r.host, files), c => Allowed(late, c));
  }

  // ----- The artifacts of a machine, and what they are meant to be -----

  datatype View = View(
    image: Option<Volume>, pool: bool, root: Option<Volume>, iso: Option<Volume>, ignition: Option<File>,
    disks: seq<Option<Volume>>, domain: Option<Domain>, kernel: Option<File>, initrd: Option<File>)

  function ImageKey(m: Machine): Key
    requires m.clusterImage.Some?
  {
    Key(m.clusterImage.value.pool, m.clusterImage.value.volume)
  }

  ghost function ImageKeys(m: Machine): set<Key> { if m.clusterImage.Some? then {ImageKey(m)} else {} }

  /** The machine's artifacts as they are on the host. */
  function ViewOf(m: Machine, x: Inputs, h: Host): View {
    var boot := m.boot.Some? && x.bootFiles.Some?;
    View(if m.clusterImage.Some? then Find(h.volumes, ImageKey(m)) else None,
         Active(h, WorkPool(m)),
         Find(h.volumes, RootKey(m)),
         if m.format.CloudInit? then Find(h.volumes, IsoKey(m)) else None,
         if m.format.Ignition? then Find(h.files, IgnitionPath(m)) else None,
         seq(|m.disks|, i requires 0 <= i < |m.disks| => Find(h.volumes, DiskKey(m, m.disks[i]))),
         Find(h.domains, BaseName(m)),
         if boot then Find(h.files, KernelFile(m.boot.value, x.bootFiles.value)) else None,
         if boot then Find(h.files, InitrdFile(m.boot.value, x.bootFiles.value)) else None)
  }

  /** The machine's artifacts as spec and inputs ask for them, over this base image. */
  function Blueprint(g: Mode, base: Volume): View
    requires Supplied(g.m, g.x)
  {
    var boot := g.m.boot.Some?;
    View(if g.m.clusterImage.Some? then g.x.image else None,
         true,
         Some(if g.m.fullClone then base else Overlay(g.site(BasePool(g.m)) + "/" + g.m.baseImage, g.m.rootSize)),
         if g.m.format.CloudInit? then Some(Media(g.x.iso.value)) else None,
         if g.m.format.Ignition? then Some(Contents(g.x.bootstrap.value)) else None,
         seq(|g.m.disks|, i requires 0 <= i < |g.m.disks| => Some(Blank(g.m.disks[i].size))),
         Some(Domain(WantedDefinition(g.m, g.x, g.size, g.site), true)),
         if boot then Some(Contents(g.x.bootFiles.value.kernel)) else None,
         if boot then Some(Contents(g.x.bootFiles.value.initrd)) else None)
  }

  lemma GenuineAndThere(g: Mode, h: Host, base: Volume)
    requires Supplied(g.m, g.x) && Genuine(g, h)
    requires Provisioned(g.m, g.x, h) && HasFiles(h, BootFileSet(g.m, g.x)) && Has(h, ImageKeys(g.m), {})
    requires g.m.fullClone ==> BaseKey(g.m) in h.volumes && h.volumes[BaseKey(g.m)] == base
    ensures ViewOf(g.m, g.x, h) == Blueprint(g, base)
  {
    hide BaseName, WorkPool, RootVolume, IsoVolume, DiskVolume, IgnitionPath, KernelFile, InitrdFile,
         WantedDefinition, AutoSize;
    var v, b := ViewOf(g.m, g.x, h), Blueprint(g, base);
    assert v.image == b.image && v.pool && v.root == b.root && v.iso == b.iso && v.ignition == b.ignition
        && v.domain == b.domain;
    forall i | 0 <= i < |g.m.disks|
      ensures v.disks[i] == b.disks[i]
    {
      assert DiskKey(g.m, g.m.disks[i]) in DiskKeys(g.m, |g.m.disks|);
    }
    assert v.disks == b.disks;
  }

  // ----- One undisturbed pass -----

  predicate BaseIs(m: Machine, base: Volume, h: Host) { BaseKey(m) in h.volumes && h.volumes[BaseKey(m)] == base }

  lemma BaseIsKept(g: Mode, base: Volume)
    requires !g.strict && BaseApart(g.m)
    ensures Kept(g, (r: Remote) => BaseIs(g.m, base, r.host), c => Allowed(g, c))
  {
    hide HostAfter, Faithful, Touchable, EphemeralPool, EphemeralPath, BasePool;
    forall r: Remote, c | BaseIs(g.m, base, r.host) && Allowed(g, c)
      ensures BaseIs(g.m, base, Send(r, c).host)
    {
      VolumesAfter(r.host, c, NextFault(r.faults));
    }
  }

  lemma BaseStays(g: Mode, p: Pass, base: Volume)
    requires Loose(g) && g.phase == 0 && BaseApart(g.m) && BaseIs(g.m, base, p.remote.host)
    requires p == Begin(g.m, p.remote, p.failure, p.ready)
    requires AutoSize(g.m.vcpus, g.m.memoryMB, g.x.capacity) == Sized(g.size)
    ensures BaseIs(g.m, base, Normal(g.m, g.x, p).pass.remote.host)
  {
    hide Kept, Normal, BaseIs, Allowed, AutoSize, BaseApart;
    BaseIsKept(g, base);
    NormalKeeps(g, p, (r: Remote) => BaseIs(g.m, base, r.host), c => Allowed(g, c));
  }

  /** The base image a clean pass works from: the one on the host, or the one it stages. */
  function BaseOf(g: Mode, h: Host): Volume
    requires Supplied(g.m, g.x) && (BaseKey(g.m) in h.volumes || IsImageKey(g.m, BaseKey(g.m)))
  {
    if BaseKey(g.m) in h.volumes then h.volumes[BaseKey(g.m)] else g.x.image.value
  }

  /** A pass that meets no fault and finds only genuine artifacts ends Ready with exactly the
      artifacts the spec asks for. */
  lemma CleanPassReaches(g: Mode, p: Pass)
    requires Sane(g) && g.phase == 0 && Quiet(p) && p == Begin(g.m, p.remote, None, p.ready)
    requires AutoSize(g.m.vcpus, g.m.memoryMB, g.x.capacity) == Sized(g.size)
    requires Supplied(g.m, g.x) && Offers(g.m, p.remote.host) && Sound(g, p.remote.host)
    ensures var r := Normal(g.m, g.x, p);
            && Through(p, r) && r.pass.ready
            && Sound(g, r.pass.remote.host)
            && ViewOf(g.m, g.x, r.pass.remote.host) == Blueprint(g, BaseOf(g, p.remote.host))
  {
    hide Normal, Provision, CheckPools, Genuine, Agrees, Provisioned, HasFiles, BootFileSet, ViewOf, Blueprint,
         AutoSize, BaseKey, Distinct, RootHome, WorkPool, IsImageKey, BaseApart, OwnSite, Has, ImageKeys,
         SettlesPool, GathersAll, EphemeralPool;
    var m, x := g.m, g.x;
    NormalQuiet(m, x, p);
    var q := Provisioning.Preflight(m, p).pass;
    ProvisionIsComplete(m, x, q, g.size);
    ProvisionStagesBootFiles(m, x, q, g.size);
    RetryableGathers(m, x, p);
    SoundByPass(g, p);
    var h := Normal(m, x, p).pass.remote.host;
    ImageStays(g.(strict := false, defines := Free), q);
    CloneIsOfBase(g, p);
    GenuineAndThere(g, h, BaseOf(g, p.remote.host));
  }

  // A volume outside the ephemeral pool, once there, is never removed or changed by a pass.

  ghost predicate Stored(h: Host, k: Key, v: Volume) { k in h.volumes && h.volumes[k] == v }

  lemma StoredIsKept(g: Mode, k: Key, v: Volume)
    requires !g.strict && (g.phase == 0 ==> !InEphemeral(g.m, k.pool))
    ensures Kept(g, (r: Remote) => Stored(r.host, k, v), c => Allowed(g, c))
  {
    hide HostAfter, Faithful, Touchable, EphemeralPool, EphemeralPath;
    forall r: Remote, c | Stored(r.host, k, v) && Allowed(g, c)
      ensures Stored(Send(r, c).host, k, v)
    {
      VolumesAfter(r.host, c, NextFault(r.faults));
    }
  }

  lemma ImageStays(g: Mode, p: Pass)
    requires Loose(g) && g.phase == 0 && p == Begin(g.m, p.remote, p.failure, p.ready)
    requires g.m.clusterImage.Some? ==> !InEphemeral(g.m, g.m.clusterImage.value.pool)
    requires var r := Provision(g.m, g.x, p, g.size); r.flow.Going? && r.pass.failure.None?
    ensures Has(Provision(g.m, g.x, p, g.size).pass.remote.host, ImageKeys(g.m), {})
  {
    hide StageImage, RootDisk, Bootstrap, FirstDisks, BootArtifacts, RunDomain, Kept, Allowed, EphemeralPool,
         InEphemeral;
    NoStepSkipped(g.m, g.x, p, g.size);
    FieldsAlong(g.m, g.x, p);
    if g.m.clusterImage.Some? {
      var k, late := ImageKey(g.m), g.(phase := 1);
      var a := StageImage(g.m, g.x, p).pass;
      StageImageGives(g.m, g.x, p);
      var v := a.remote.host.volumes[k];
      var inv := (r: Remote) => Stored(r.host, k, v);
      StoredIsKept(g, k, v);
      StoredIsKept(late, k, v);
      RootDiskKeeps(g, a, inv, c => Allowed(g, c));
      RestKeeps(late, Rooted(g.m, g.x, p).pass, inv, c => Allowed(late, c));
    }
  }

  lemma StageImageGives(m: Machine, x: Inputs, p: Pass)
    requires m.clusterImage.Some? && StageImage(m, x, p).flow.Going?
    ensures ImageKey(m) in StageImage(m, x, p).pass.remote.host.volumes
  {
    hide Send, Reply, EnsureVolume;
    SaidThere(p.remote, m.clusterImage.value.pool, m.clusterImage.value.volume);
    if x.image.Some? {
      var q := After(p, VolumeExists(m.clusterImage.value.pool, m.clusterImage.value.volume));
      var r := EnsureVolume(q, m.clusterImage.value.pool, m.clusterImage.value.volume, Fetched(x.image.value));
      if r.flow.Going? {
        EnsureVolumeGives(q, m.clusterImage.value.pool, m.clusterImage.value.volume, Fetched(x.image.value));
      }
    }
  }

  lemma CloneIsOfBase(g: Mode, p: Pass)
    requires Sane(g) && g.phase == 0 && p == Begin(g.m, p.remote, None, p.ready)
    requires AutoSize(g.m.vcpus, g.m.memoryMB, g.x.capacity) == Sized(g.size)
    requires Supplied(g.m, g.x) && (BaseKey(g.m) in p.remote.host.volumes || IsImageKey(g.m, BaseKey(g.m)))
    requires var h := Normal(g.m, g.x, p).pass.remote.host; Provisioned(g.m, g.x, h) && Genuine(g, h)
    ensures var h := Normal(g.m, g.x, p).pass.remote.host;
            g.m.fullClone ==> BaseKey(g.m) in h.volumes && h.volumes[BaseKey(g.m)] == BaseOf(g, p.remote.host)
  {
    hide Normal, AutoSize, BaseKey, Distinct, RootHome, WorkPool, BaseApart, EphemeralPool, EphemeralPath,
         GenuineIso, GenuineDisks, GenuineDomain, GenuineFiles, Bootstrapped, Running, DiskKeys, RootKey;
    if BaseKey(g.m) in p.remote.host.volumes {
      BaseStays(g.(strict := false, defines := Free), p, BaseOf(g, p.remote.host));
    }
  }

  // ----- Volumes that are there stay as they are -----

  /** A volume of the ephemeral pool is there only while its tmpfs is. */
  predicate Backed(m: Machine, h: Host, k: Key) {
    InEphemeral(m, k.pool) ==> k.pool in h.pools && (h.pools[k.pool].active || h.pools[k.pool].mounted)
  }

  lemma StoredBackedIsKept(g: Mode, k: Key, v: Volume)
    requires Loose(g) && g.phase >= 1
    ensures Kept(g, (r: Remote) => Stored(r.host, k, v) && Backed(g.m, r.host, k), c => Allowed(g, c))
  {
    hide HostAfter, Faithful, Within, EphemeralPool;
    forall r: Remote, c | Stored(r.host, k, v) && Backed(g.m, r.host, k) && Allowed(g, c)
      ensures Stored(Send(r, c).host, k, v) && Backed(g.m, Send(r, c).host, k)
    {
      VolumesAfter(r.host, c, NextFault(r.faults));
      PoolsAfter(r.host, c, NextFault(r.faults));
    }
  }

  lemma EphemeralStepKeeps(m: Machine, p: Pass, k: Key, v: Volume)
    requires Quiet(p) && m.ephemeral && Stored(p.remote.host, k, v) && Backed(m, p.remote.host, k)
    ensures Stored(EnsurePool(p, EphemeralPool(m), EphemeralPath(m)).pass.remote.host, k, v)
  {
    hide EnsurePool, EphemeralPool, EphemeralPath, Allowed;
    EnsurePoolQuiet(p, EphemeralPool(m), EphemeralPath(m));
    if k.pool != EphemeralPool(m) {
      var g := Mode(m, NoInputs(), Capacity(0, 0), (q: string) => "", false, 0, Free, true);
      StoredIsKept(g, k, v);
      EphemeralCallsAllowed(g);
      EnsurePoolKeeps(p, EphemeralPool(m), EphemeralPath(m), (r: Remote) => Stored(r.host, k, v), c => Allowed(g, c));
    }
  }

  /** A pass without faults repairs no volume: what was there before is there after, as it was. */
  lemma QuietKeepsStored(g: Mode, p: Pass, k: Key, v: Volume)
    requires Loose(g) && g.phase == 0 && Quiet(p) && p == Begin(g.m, p.remote, p.failure, p.ready)
    requires Stored(p.remote.host, k, v) && Backed(g.m, p.remote.host, k)
    requires var r := Provision(g.m, g.x, p, g.size); Through(p, r) && p.failure.None?
    requires Supplied(g.m, g.x) && Offers(g.m, p.remote.host)
    ensures Stored(Provision(g.m, g.x, p, g.size).pass.remote.host, k, v)
  {
    hide StageImage, RootDisk, Bootstrap, FirstDisks, BootArtifacts, RunDomain, Kept, Allowed, EphemeralPool,
         Stored, Backed, Offers, Supplied;
    NoStepSkipped(g.m, g.x, p, g.size);
    FieldsAlong(g.m, g.x, p);
    var late := g.(phase := 1);
    var a := StageImage(g.m, g.x, p).pass;
    StagedAndOffered(g.m, g.x, p);
    StoredBackedIsKept(late, k, v);
    StageImageKeeps(late, p, (r: Remote) => Stored(r.host, k, v) && Backed(g.m, r.host, k), c => Allowed(late, c));
    StoredIsKept(late, k, v);
    RootDiskKeepsStored(late, a, k, v);
    RestKeeps(late, Rooted(g.m, g.x, p).pass, (r: Remote) => Stored(r.host, k, v), c => Allowed(late, c));
  }

  lemma RootDiskKeepsStored(g: Mode, p: Pass, k: Key, v: Volume)
    requires Loose(g) && g.phase == 1 && Quiet(p) && p.pool == g.m.storagePool
    requires Stored(p.remote.host, k, v) && Backed(g.m, p.remote.host, k)
    ensures Stored(RootDisk(g.m, p).pass.remote.host, k, v)
  {
    hide EnsurePool, EnsureVolume, Kept, Allowed, EphemeralPool, EphemeralPath, Stored, Backed;
    var m := g.m;
    if m.ephemeral {
      EphemeralStepKeeps(m, p, k, v);
      EnsurePoolFields(p, EphemeralPool(m), EphemeralPath(m));
    }
    var r := if m.ephemeral then EnsurePool(p, EphemeralPool(m), EphemeralPath(m)) else Result(p, Going);
    if r.flow.Going? {
      StoredIsKept(g, k, v);
      RootVolumeKeeps(g, r.pass, (r: Remote) => Stored(r.host, k, v), c => Allowed(g, c));
    }
  }

  // ----- Files that are there stay as they are -----

  predicate FileIs(h: Host, path: string, v: File) { path in h.files && h.files[path] == v }

  ghost predicate FileStays(m: Machine, site: string -> string, path: string, v: File, r: Remote) {
    Agrees(site, r.host) && FileIs(r.host, path, v)
  }

  lemma FileByCall(g: Mode, site: string -> string, h: Host, c: Call, f: Fault, path: string, v: File)
    requires Allowed(g, c) && !g.boots && Agrees(site, h) && OwnSite(g.m, site)
    requires path != IgnitionPath(g.m) && (g.m.ephemeral ==> !Under(path, EphemeralPath(g.m)))
    requires FileIs(h, path, v)
    ensures FileIs(HostAfter(h, c, f), path, v)
  {
    hide HostAfter, Faithful, Touchable, EphemeralPool, EphemeralPath, Defines, Under, IgnitionPath, BootPath;
    FilesAfter(h, c, f);
  }

  lemma FileIsKept(g: Mode, site: string -> string, path: string, v: File)
    requires !g.strict && !g.boots && OwnSite(g.m, site)
    requires path != IgnitionPath(g.m) && (g.m.ephemeral ==> !Under(path, EphemeralPath(g.m)))
    ensures Kept(g, (r: Remote) => FileStays(g.m, site, path, v, r), c => Allowed(g, c))
  {
    hide HostAfter, Allowed, Agrees, FileIs, OwnSite, Under, IgnitionPath, EphemeralPath;
    forall r: Remote, c | FileStays(g.m, site, path, v, r) && Allowed(g, c)
      ensures FileStays(g.m, site, path, v, Send(r, c))
    {
      FileByCall(g, site, r.host, c, NextFault(r.faults), path, v);
      AgreesByCall(g, site, r.host, c, NextFault(r.faults));
    }
  }

  /** A file is written only where there is none. */
  lemma EnsureFileSpares(p: Pass, path: string, data: string, other: string, v: File)
    requires FileIs(p.remote.host, other, v)
    ensures FileIs(EnsureFile(p, path, data).pass.remote.host, other, v)
    ensures EnsureFile(p, path, data).pass.remote.host.pools == p.remote.host.pools
  {
    hide HostAfter, Reply;
    SaidFile(p.remote, path);
    var q := After(p, RemoteFileExists(path)).remote;
    FilesAfter(q.host, WriteRemoteFile(path, data), NextFault(q.faults));
    PoolsAfter(q.host, WriteRemoteFile(path, data), NextFault(q.faults));
  }

  lemma SaidFile(r: Remote, path: string)
    ensures Send(r, RemoteFileExists(path)).host == r.host
    ensures var a := Reply(r, RemoteFileExists(path)); a.Err? || a == Is(path in r.host.files)
  {
  }

  lemma BootArtifactsSpares(m: Machine, x: Inputs, p: Pass, path: string, v: File)
    requires FileIs(p.remote.host, path, v)
    ensures FileIs(BootArtifacts(m, x, p).pass.remote.host, path, v)
    ensures BootArtifacts(m, x, p).pass.remote.host.pools == p.remote.host.pools
  {
    hide EnsureFile, KernelFile, InitrdFile, FileIs;
    if m.boot.Some? && x.bootFiles.Some? {
      var b, f := m.boot.value, x.bootFiles.value;
      EnsureFileSpares(p, KernelFile(b, f), f.kernel, path, v);
      EnsureFileSpares(EnsureFile(p, KernelFile(b, f), f.kernel).pass, InitrdFile(b, f), f.initrd, path, v);
    }
  }

  lemma ProvisionKeepsFile(m: Machine, x: Inputs, p: Pass, size: Capacity, site: string -> string, path: string,
      v: File)
    requires p == Begin(m, p.remote, p.failure, p.ready) && Agrees(site, p.remote.host) && OwnSite(m, site)
    requires path != IgnitionPath(m) && (m.ephemeral ==> !Under(path, EphemeralPath(m)))
    requires FileIs(p.remote.host, path, v)
    ensures FileIs(Provision(m, x, p, size).pass.remote.host, path, v)
  {
    hide StageImage, Rooted, Bootstrapping, Disked, BootArtifacts, RunDomain, Provision, Kept, Allowed, FileIs,
         Agrees, OwnSite, Under, IgnitionPath, EphemeralPath, KernelFile, InitrdFile;
    var g := Mode(m, x, size, site, false, 0, Free, false);
    var inv, ok := (r: Remote) => FileStays(m, site, path, v, r), (c: Call) => Allowed(g, c);
    FileIsKept(g, site, path, v);
    ProvisionUnfolds(m, x, p, size);
    StepsKeep(g, p, inv, ok);
    if !Stops(StageImage(m, x, p).flow) && !Stops(Rooted(m, x, p).flow) {
      var d, e := Disked(m, x, p).pass, Booted(m, x, p).pass;
      BootArtifactsSpares(m, x, d, path, v);
      assert Agrees(site, e.remote.host) by { SamePools(site, d.remote.host, e.remote.host); }
      RunDomainKeeps(g, e, inv, ok);
    }
  }

  lemma SamePools(site: string -> string, h: Host, h': Host)
    requires h'.pools == h.pools && Agrees(site, h)
    ensures Agrees(site, h')
  {
  }

  /** Under every schedule of faults, no pass changes or removes a file that is there, its ignition file
      and those in the machine's own directory aside: a torn kernel stays torn. */
  lemma PassKeepsFile(m: Machine, x: Inputs, p: Pass, site: string -> string, path: string, v: File)
    requires p == Begin(m, p.remote, p.failure, p.ready) && Agrees(site, p.remote.host) && OwnSite(m, site)
    requires path != IgnitionPath(m) && (m.ephemeral ==> !Under(path, EphemeralPath(m)))
    requires FileIs(p.remote.host, path, v)
    ensures FileIs(Normal(m, x, p).pass.remote.host, path, v)
  {
    hide Normal, Provision, CheckPools, FirstMentions, ReferencedPools, FileIs, Agrees, OwnSite, Under,
         IgnitionPath, EphemeralPath, AutoSize;
    NormalUnfolds(m, x, p);
    PreflightLeavesHost(FirstMentions(ReferencedPools(m)), p);
    if Reaches(m, x, p) {
      ProvisionKeepsFile(m, x, Provisioning.Preflight(m, p).pass, AutoSize(m.vcpus, m.memoryMB, x.capacity).size,
          site, path, v);
    }
  }

  // ----- Exactly when an undisturbed pass completes the machine -----

  /** The boot files are not staged into the machine's own directory. */
  ghost predicate BootApart(m: Machine, x: Inputs) {
    m.ephemeral ==> forall f | f in BootFileSet(m, x) :: !Under(f, EphemeralPath(m))
  }

  /** What a view shows of the volumes is what the blueprint asks for. */
  lemma ShownIsGenuine(g: Mode, h: Host, h': Host)
    requires Supplied(g.m, g.x) && (BaseKey(g.m) in h.volumes || IsImageKey(g.m, BaseKey(g.m)))
    requires ViewOf(g.m, g.x, h') == Blueprint(g, BaseOf(g, h))
    requires forall k | k in h.volumes :: Stored(h', k, h.volumes[k])
    requires g.m.fullClone && RootKey(g.m) in h.volumes ==> BaseKey(g.m) in h.volumes
    ensures GenuineVolumes(g, h.volumes)
  {
    hide BaseName, WorkPool, RootVolume, IsoVolume, DiskVolume, IgnitionPath, KernelFile, InitrdFile,
         WantedDefinition, AutoSize, Active;
    var v, b := ViewOf(g.m, g.x, h'), Blueprint(g, BaseOf(g, h));
    assert v.root == b.root && v.iso == b.iso && v.image == b.image;
    forall i | 0 <= i < |g.m.disks| && DiskKey(g.m, g.m.disks[i]) in h.volumes
      ensures h.volumes[DiskKey(g.m, g.m.disks[i])] == Blank(g.m.disks[i].size)
    {
      assert v.disks[i] == b.disks[i];
    }
  }

  /** And so is what it shows of the domain and the boot files. */
  lemma ShownRestIsGenuine(g: Mode, h: Host, h': Host, base: Volume)
    requires Supplied(g.m, g.x) && ViewOf(g.m, g.x, h') == Blueprint(g, base)
    requires DefOf(g.m, h).Some? ==> DefOf(g.m, h') == DefOf(g.m, h)
    requires forall f | f in BootFileSet(g.m, g.x) && f in h.files :: FileIs(h', f, h.files[f])
    ensures GenuineDomain(g, h.domains) && GenuineFiles(g, h.files)
  {
    hide BaseName, WorkPool, RootVolume, IsoVolume, DiskVolume, IgnitionPath, KernelFile, InitrdFile,
         WantedDefinition, AutoSize, Active;
    var v, b := ViewOf(g.m, g.x, h'), Blueprint(g, base);
    assert v.domain == b.domain && v.kernel == b.kernel && v.initrd == b.initrd;
    if g.m.boot.Some? {
      var k, i := KernelFile(g.m.boot.value, g.x.bootFiles.value), InitrdFile(g.m.boot.value, g.x.bootFiles.value);
      assert k in BootFileSet(g.m, g.x) && i in BootFileSet(g.m, g.x);
    }
  }

  /** Retrying helps exactly when nothing was left torn or foreign.  On a host that offers what the
      spec refers to, an undisturbed pass reaches the artifacts asked for if and only if whatever is
      already there of the machine is what it should be: its volumes, the staged image, the definition of
      its domain, kernel and initramfs.  A pass creates what is missing and repairs nothing. */
  lemma ReachesExactlyWhenGenuine(g: Mode, p: Pass)
    requires Sane(g) && g.phase == 0 && Quiet(p) && p == Begin(g.m, p.remote, None, p.ready)
    requires AutoSize(g.m.vcpus, g.m.memoryMB, g.x.capacity) == Sized(g.size)
    requires Supplied(g.m, g.x) && Offers(g.m, p.remote.host) && Agrees(g.site, p.remote.host) && BootApart(g.m, g.x)
    requires forall k | k in p.remote.host.volumes :: Backed(g.m, p.remote.host, k)
    requires g.m.fullClone && RootKey(g.m) in p.remote.host.volumes ==> BaseKey(g.m) in p.remote.host.volumes
    ensures ViewOf(g.m, g.x, Normal(g.m, g.x, p).pass.remote.host) == Blueprint(g, BaseOf(g, p.remote.host))
            <==> Genuine(g, p.remote.host)
  {
    hide Normal, Genuine, GenuineDomain, GenuineFiles, GenuineVolumes, Agrees, ViewOf, Blueprint, AutoSize, BaseKey,
         RootKey, Distinct, RootHome, WorkPool, IsImageKey, BaseApart, OwnSite, Backed, BootApart, Offers, Supplied;
    var h := p.remote.host;
    OfferedBase(g.m, h);
    if Genuine(g, h) {
      CleanPassReaches(g, p);
    }
    if ViewOf(g.m, g.x, Normal(g.m, g.x, p).pass.remote.host) == Blueprint(g, BaseOf(g, h)) {
      ReachedVolumesAreGenuine(g, p);
      ReachedRestIsGenuine(g, p);
      GenuineParts(g, h);
    }
  }

  lemma OfferedBase(m: Machine, h: Host)
    requires Offers(m, h)
    ensures BaseKey(m) in h.volumes || IsImageKey(m, BaseKey(m))
  {
  }

  lemma GenuineParts(g: Mode, h: Host)
    ensures Genuine(g, h) <==> GenuineVolumes(g, h.volumes) && GenuineDomain(g, h.domains) && GenuineFiles(g, h.files)
  {
    hide GenuineRoot, GenuineIso, GenuineDisks, GenuineImage, GenuineDomain, GenuineFiles;
  }

  lemma ReachedVolumesAreGenuine(g: Mode, p: Pass)
    requires Sane(g) && g.phase == 0 && Quiet(p) && p == Begin(g.m, p.remote, None, p.ready)
    requires AutoSize(g.m.vcpus, g.m.memoryMB, g.x.capacity) == Sized(g.size)
    requires Supplied(g.m, g.x) && Offers(g.m, p.remote.host)
    requires forall k | k in p.remote.host.volumes :: Backed(g.m, p.remote.host, k)
    requires g.m.fullClone && RootKey(g.m) in p.remote.host.volumes ==> BaseKey(g.m) in p.remote.host.volumes
    requires ViewOf(g.m, g.x, Normal(g.m, g.x, p).pass.remote.host) == Blueprint(g, BaseOf(g, p.remote.host))
    ensures GenuineVolumes(g, p.remote.host.volumes)
  {
    hide Normal, Provision, CheckPools, GenuineVolumes, ViewOf, Blueprint, AutoSize, Refers, BaseKey, RootKey,
         Distinct, RootHome, WorkPool, IsImageKey, BaseApart, OwnSite, Stored, Backed;
    var h := p.remote.host;
    var h' := Normal(g.m, g.x, p).pass.remote.host;
    NormalQuiet(g.m, g.x, p);
    forall k | k in h.volumes
      ensures Stored(h', k, h.volumes[k])
    {
      StoredSelf(h, k);
      QuietKeepsStored(g.(strict := false, defines := Free), Provisioning.Preflight(g.m, p).pass, k, h.volumes[k]);
    }
    ShownIsGenuine(g, h, h');
  }

  lemma ReachedRestIsGenuine(g: Mode, p: Pass)
    requires Sane(g) && p == Begin(g.m, p.remote, None, p.ready)
    requires Supplied(g.m, g.x) && Offers(g.m, p.remote.host) && Agrees(g.site, p.remote.host) && BootApart(g.m, g.x)
    requires ViewOf(g.m, g.x, Normal(g.m, g.x, p).pass.remote.host) == Blueprint(g, BaseOf(g, p.remote.host))
    ensures GenuineDomain(g, p.remote.host.domains) && GenuineFiles(g, p.remote.host.files)
  {
    hide Normal, GenuineDomain, GenuineFiles, ViewOf, Blueprint, AutoSize, Refers, BaseKey, Distinct, RootHome,
         WorkPool, IsImageKey, BaseApart, OwnSite, Agrees, FileIs, Under, IgnitionPath, EphemeralPath, KernelFile,
         InitrdFile, DefOf, DefinitionOf, Arrives, Booted;
    var h := p.remote.host;
    var h' := Normal(g.m, g.x, p).pass.remote.host;
    PassDefines(g.m, g.x, p, g.site);
    forall f | f in BootFileSet(g.m, g.x) && f in h.files
      ensures FileIs(h', f, h.files[f])
    {
      BootFilesAreApart(g.m, g.m.boot.value, g.x.bootFiles.value);
      assert FileIs(h, f, h.files[f]) by { FileSelf(h, f); }
      PassKeepsFile(g.m, g.x, p, g.site, f, h.files[f]);
    }
    ShownRestIsGenuine(g, h, h', BaseOf(g, h));
  }

  lemma FileSelf(h: Host, f: string)
    requires f in h.files
    ensures FileIs(h, f, h.files[f])
  {
  }

  lemma StoredSelf(h: Host, k: Key)
    requires k in h.volumes
    ensures Stored(h, k, h.volumes[k])
  {
  }

  /** How a volume gets torn: the transfer of the ISO stops after the volume was created.  The
      step reports a retryable error and leaves a volume that later passes take for the ISO. */
  lemma InterruptedIsoUpload(m: Machine, x: Inputs, p: Pass)
    requires m.format.CloudInit? && x.bootstrap.Some? && x.iso.Some?
    requires Active(p.remote.host, p.pool) && Key(p.pool, IsoVolume(m)) !in p.remote.host.volumes
    requires p.remote.faults == [Fine, Broken(Torn, Transient)]
    ensures var r := Bootstrap(m, x, p);
            && r.flow.Failed? && r.pass.failure == p.failure
            && Stored(r.pass.remote.host, Key(p.pool, IsoVolume(m)), TornUpload)
  {
    hide IsoVolume;
    var c := VolumeExists(p.pool, IsoVolume(m));
    assert Said(p, c) == Is(false);
    assert After(p, c).remote.faults == [Broken(Torn, Transient)];
  }

  /** How a boot file gets torn: writing the kernel stops in the middle.  The step reports a retryable
      error and leaves a file that later passes take for the kernel. */
  lemma InterruptedKernelWrite(m: Machine, x: Inputs, p: Pass)
    requires m.boot.Some? && x.bootFiles.Some?
    requires KernelFile(m.boot.value, x.bootFiles.value) !in p.remote.host.files
    requires p.remote.faults == [Fine, Broken(Torn, Transient)]
    ensures var r := BootArtifacts(m, x, p);
            && r.flow.Failed? && r.pass.failure == p.failure
            && FileIs(r.pass.remote.host, KernelFile(m.boot.value, x.bootFiles.value), TornWrite)
  {
    hide KernelFile, InitrdFile;
    var c := RemoteFileExists(KernelFile(m.boot.value, x.bootFiles.value));
    assert Said(p, c) == Is(false);
    assert After(p, c).remote.faults == [Broken(Torn, Transient)];
  }

  /** And what comes of it: an undisturbed pass ends Ready with the kernel still torn. */
  lemma TornKernelStays(m: Machine, x: Inputs, p: Pass, site: string -> string)
    requires Quiet(p) && p == Begin(m, p.remote, None, p.ready) && RootHome(m) == WorkPool(m)
    requires Supplied(m, x) && Offers(m, p.remote.host) && Agrees(site, p.remote.host) && OwnSite(m, site)
    requires m.boot.Some? && BootApart(m, x)
    requires FileIs(p.remote.host, KernelFile(m.boot.value, x.bootFiles.value), TornWrite)
    ensures var r := Normal(m, x, p);
            && r.flow.Going? && r.pass.ready && r.pass.failure.None?
            && FileIs(r.pass.remote.host, KernelFile(m.boot.value, x.bootFiles.value), TornWrite)
  {
    hide Normal, RootHome, WorkPool, Agrees, OwnSite, FileIs, KernelFile, InitrdFile, Under, EphemeralPath,
         IgnitionPath, AutoSize;
    var k := KernelFile(m.boot.value, x.bootFiles.value);
    assert k in BootFileSet(m, x);
    BootFilesAreApart(m, m.boot.value, x.bootFiles.value);
    NormalQuiet(m, x, p);
    PassKeepsFile(m, x, p, site, k, TornWrite);
  }

  lemma EphemeralCallsAllowed(g: Mode)
    requires g.phase == 0 && g.m.ephemeral && !g.strict
    ensures var pool := EphemeralPool(g.m);
            && Allowed(g, PoolExists(pool)) && Allowed(g, PoolIsActive(pool)) && Allowed(g, StartPool(pool))
            && Allowed(g, DestroyPool(pool)) && Allowed(g, CreateTmpfsPool(pool, EphemeralPath(g.m)))
  {
  }
}
