/** Reference semantics of reconcileNormal: each sub-step as a function from the state of a
    pass to its new state and the way it ended. */
module Provisioning {
  import opened Common
  import opened LibvirtHost
  import opened LibvirtMachine

  /** How a sub-step ended: it ran to its end, it returned nil early with a terminal failure
      recorded, it returned an error, or the controller died in it. */
  datatype Flow = Going | Skipped | Failed | Crashed

  /** The fields of reconcileCtx and of the machine's status that a pass writes. */
  datatype Pass = Pass(
    remote: Remote,
    failure: Option<string>, ready: bool,
    pool: string, disks: seq<Disk>,
    kernel: string, initrd: string, cmdline: string)

  datatype Result = Result(pass: Pass, flow: Flow)

  function After(p: Pass, c: Call): Pass { p.(remote := Send(p.remote, c)) }

  function Said(p: Pass, c: Call): Answer { Reply(p.remote, c) }

  function GiveUp(p: Pass, reason: string): Result {
    Result(p.(failure := Some(reason), ready := false), Skipped)
  }

  /** A terminal error is recorded and swallowed; any other error is returned for retry. */
  function HandleError(p: Pass, cat: Category): Result {
    match cat
    case Terminal => GiveUp(p, "SpecMismatch")
    case Cut => Result(p, Crashed)
    case _ => Result(p, Failed)
  }

  /** Make one call and go on when it works. */
  function Perform(p: Pass, c: Call): Result {
    if Said(p, c).Err? then HandleError(After(p, c), Said(p, c).cat) else Result(After(p, c), Going)
  }

  predicate Stops(flow: Flow) { flow.Failed? || flow.Crashed? }

  // ----- Pools -----

  datatype Required = Required(pool: string, reason: string)

  /** The pools a machine refers to, in the order they are checked, with repeats. */
  function ReferencedPools(m: Machine): seq<Required> {
    (if m.clusterImage.Some? then [Required(m.clusterImage.value.pool, "BaseImagePoolNotFound")] else [])
    + [Required(BasePool(m), "BaseImagePoolNotFound")]
    + (if m.ephemeral then [] else [Required(m.storagePool, "StoragePoolNotFound")])
    + seq(|m.disks|, i requires 0 <= i < |m.disks| => Required(m.disks[i].storagePool, "StoragePoolNotFound"))
  }

  predicate Names(list: seq<Required>, pool: string) {
    exists i | 0 <= i < |list| :: list[i].pool == pool
  }

  /** Keep the first mention of each non-empty pool name. */
  function FirstMentions(list: seq<Required>): seq<Required> {
    if list == [] then []
    else
      var front := FirstMentions(list[..|list| - 1]);
      var r := list[|list| - 1];
      if r.pool == "" || Names(front, r.pool) then front else front + [r]
  }

  function CheckPools(list: seq<Required>, p: Pass): Result {
    if list == [] then Result(p, Going)
    else
      var c := PoolExists(list[0].pool);
      if Said(p, c).Err? then HandleError(After(p, c), Said(p, c).cat)
      else if !Said(p, c).yes then GiveUp(After(p, c), list[0].reason)
      else CheckPools(list[1..], After(p, c))
  }

  function Preflight(m: Machine, p: Pass): Result { CheckPools(FirstMentions(ReferencedPools(m)), p) }

  function CreatePool(p: Pass, pool: string, path: string): Result {
    var r := Perform(p, CreateTmpfsPool(pool, path));
    if r.flow.Going? then Result(r.pass.(pool := pool), Going) else r
  }

  /** Find, revive or (re)create the ephemeral pool and work in it from then on. */
  function EnsurePool(p: Pass, pool: string, path: string): Result {
    var exists_ := PoolExists(pool);
    var p1 := After(p, exists_);
    if Said(p, exists_).Err? then HandleError(p1, Said(p, exists_).cat)
    else if !Said(p, exists_).yes then CreatePool(p1, pool, path)
    else
      var active := PoolIsActive(pool);
      var p2 := After(p1, active);
      if Said(p1, active).Err? then HandleError(p2, Said(p1, active).cat)
      else if Said(p1, active).yes then Result(p2.(pool := pool), Going)
      else
        var start := StartPool(pool);
        var p3 := After(p2, start);
        if !Said(p2, start).Err? then Result(p3.(pool := pool), Going)
        else if Said(p2, start).cat.Cut? then Result(p3, Crashed)
        else
          var r := Perform(p3, DestroyPool(pool));
          if r.flow.Going? then CreatePool(r.pass, pool, path) else r
  }

  // ----- Volumes -----

  datatype Recipe =
    | Fetched(image: Volume)
    | Cloned(basePool: string, base: string)
    | Layered(basePool: string, base: string, size: int)
    | Empty(size: int)
    | Built(data: string)

  function Create(p: Pass, pool: string, vol: string, how: Recipe): Result {
    match how
    case Fetched(image) => Perform(p, UploadQcow2Volume(pool, vol, image))
    case Empty(size) => Perform(p, CreateVolume(pool, vol, size))
    case Built(data) => Perform(p, UploadVolumeFromBytes(pool, vol, data))
    case Cloned(basePool, base) =>
      var c := CloneVolume(basePool, base, vol);
      if Said(p, c) == Err(NotFound) then GiveUp(After(p, c), "BaseImageNotFound") else Perform(p, c)
    case Layered(basePool, base, size) =>
      var c := GetVolumePath(basePool, base);
      if Said(p, c) == Err(NotFound) then GiveUp(After(p, c), "BaseImageNotFound")
      else if Said(p, c).Err? then HandleError(After(p, c), Said(p, c).cat)
      else
        var where := if Said(p, c).At? then Said(p, c).where else "";
        Perform(After(p, c), CreateVolumeFromBackingStore(pool, vol, where, size))
  }

  /** Check, then create if absent. */
  function EnsureVolume(p: Pass, pool: string, vol: string, how: Recipe): Result {
    var c := VolumeExists(pool, vol);
    if Said(p, c).Err? then HandleError(After(p, c), Said(p, c).cat)
    else if Said(p, c).yes then Result(After(p, c), Going)
    else Create(After(p, c), pool, vol, how)
  }

  function EnsureFile(p: Pass, path: string, data: string): Result {
    var c := RemoteFileExists(path);
    if Said(p, c).Err? then HandleError(After(p, c), Said(p, c).cat)
    else if Said(p, c).yes then Result(After(p, c), Going)
    else Perform(After(p, c), WriteRemoteFile(path, data))
  }

  // ----- Sub-steps of reconcileNormal -----

  function StageImage(m: Machine, x: Inputs, p: Pass): Result {
    if m.clusterImage.None? then Result(p, Going)
    else
      var pool, vol := m.clusterImage.value.pool, m.clusterImage.value.volume;
      var c := VolumeExists(pool, vol);
      if Said(p, c).Err? then HandleError(After(p, c), Said(p, c).cat)
      else if Said(p, c).yes then Result(After(p, c), Going)
      else if x.image.None? then Result(After(p, c), Failed)
      else EnsureVolume(After(p, c), pool, vol, Fetched(x.image.value))
  }

  function RootRecipe(m: Machine): Recipe {
    if m.fullClone then Cloned(BasePool(m), m.baseImage) else Layered(BasePool(m), m.baseImage, m.rootSize)
  }

  function RootDisk(m: Machine, p: Pass): Result {
    var r := if m.ephemeral then EnsurePool(p, EphemeralPool(m), EphemeralPath(m)) else Result(p, Going);
    if r.flow.Going? then EnsureVolume(r.pass, r.pass.pool, RootVolume(m), RootRecipe(m)) else r
  }

  function Bootstrap(m: Machine, x: Inputs, p: Pass): Result {
    if x.bootstrap.None? then Result(p, Failed)
    else
      match m.format
      case Ignition => Perform(p, WriteRemoteFile(IgnitionPath(m), x.bootstrap.value))
      case CloudInit =>
        (var c := VolumeExists(p.pool, IsoVolume(m));
         if x.iso.None? && !Said(p, c).Err? && !Said(p, c).yes then GiveUp(After(p, c), "InvalidBootstrapData")
         else EnsureVolume(p, p.pool, IsoVolume(m), Built(if x.iso.Some? then x.iso.value else "")))
      case Unsupported => GiveUp(p, "InvalidBootstrapData")
  }

  function OneDisk(m: Machine, d: DiskSpec, p: Pass): Result {
    var r := EnsureVolume(p, d.storagePool, DiskVolume(m, d), Empty(d.size));
    if !r.flow.Going? then r
    else
      var c := GetVolumePath(d.storagePool, DiskVolume(m, d));
      if Said(r.pass, c).At? then
        Result(After(r.pass, c).(disks := r.pass.disks + [Disk(Said(r.pass, c).where, d.bus)]), Going)
      else Perform(r.pass, c)
  }

  /** The loop over the first `n` additional disks. */
  function FirstDisks(m: Machine, n: nat, p: Pass): Result
    requires n <= |m.disks|
  {
    if n == 0 then Result(p, Going)
    else
      var r := FirstDisks(m, n - 1, p);
      if r.flow.Going? then OneDisk(m, m.disks[n - 1], r.pass) else r
  }

  function BootArtifacts(m: Machine, x: Inputs, p: Pass): Result {
    if m.boot.None? then Result(p, Going)
    else if x.bootFiles.None? then Result(p, Failed)
    else
      var b, f := m.boot.value, x.bootFiles.value;
      var r := EnsureFile(p, KernelFile(b, f), f.kernel);
      if !r.flow.Going? then r
      else
        var s := EnsureFile(r.pass, InitrdFile(b, f), f.initrd);
        if !s.flow.Going? then s
        else Result(s.pass.(kernel := KernelFile(b, f), initrd := InitrdFile(b, f), cmdline := b.kernelArgs), Going)
  }

  /** Define the domain over the paths the host reports for its disks. */
  function Define(m: Machine, p: Pass, size: Capacity): Result {
    var root := GetVolumePath(p.pool, RootVolume(m));
    var p1 := After(p, root);
    if !Said(p, root).At? then Perform(p, root)
    else
      var iso := GetVolumePath(p.pool, IsoVolume(m));
      var cd := m.format.CloudInit?;
      if cd && !Said(p1, iso).At? then Perform(p1, iso)
      else
        var p2 := if cd then After(p1, iso) else p1;
        var def := Definition(size.vcpus, size.memoryMB * 1024,
                              Said(p, root).where,
                              if cd then Said(p1, iso).where else "",
                              if m.format.Ignition? then IgnitionPath(m) else "",
                              p.disks, p.kernel, p.initrd, p.cmdline);
        Perform(p2, DefineDomain(BaseName(m), def))
  }

  function Start(m: Machine, p: Pass): Result {
    var info := GetDomain(BaseName(m));
    var r := Perform(p, info);
    if !r.flow.Going? || (Said(p, info).Is? && Said(p, info).yes) then r
    else
      var s := Perform(r.pass, StartDomain(BaseName(m)));
      if s.flow.Going? then Perform(s.pass, info) else s
  }

  function RunDomain(m: Machine, p: Pass, size: Capacity): Result {
    var c := DomainExists(BaseName(m));
    if Said(p, c).Err? then HandleError(After(p, c), Said(p, c).cat)
    else if Said(p, c).yes then Start(m, After(p, c))
    else
      var r := Define(m, After(p, c), size);
      if r.flow.Going? then Start(m, r.pass) else r
  }

  /** The steps from the base image up to the additional disks. */
  function Artifacts(m: Machine, x: Inputs, p: Pass): Result {
    var a := StageImage(m, x, p);
    if Stops(a.flow) then a
    else
      var b := RootDisk(m, a.pass);
      if Stops(b.flow) then b
      else
        var c := Bootstrap(m, x, b.pass);
        if Stops(c.flow) then c else FirstDisks(m, |m.disks|, c.pass)
  }

  /** Everything after preflight.  `Going` is a pass that sets Ready. */
  function Provision(m: Machine, x: Inputs, p: Pass, size: Capacity): Result {
    var a := Artifacts(m, x, p);
    if Stops(a.flow) then a
    else
      var b := BootArtifacts(m, x, a.pass);
      if Stops(b.flow) then b
      else
        var d := RunDomain(m, b.pass, size);
        if d.flow.Going? then Result(d.pass.(ready := true), Going) else d
  }

  datatype Sizing = Sized(size: Capacity) | Wait | Insufficient

  /** Zero vCPUs or memory mean "what the host has left". */
  function AutoSize(vcpus: int, memoryMB: int, capacity: Option<Capacity>): Sizing {
    if vcpus != 0 && memoryMB != 0 then Sized(Capacity(vcpus, memoryMB))
    else if capacity.None? then Wait
    else
      var v := if vcpus == 0 then capacity.value.vcpus else vcpus;
      var mem := if memoryMB == 0 then capacity.value.memoryMB else memoryMB;
      if v <= 0 || mem <= 0 then Insufficient else Sized(Capacity(v, mem))
  }

  function Begin(m: Machine, remote: Remote, failure: Option<string>, ready: bool): Pass {
    Pass(remote, failure, ready, m.storagePool, [], "", "", "")
  }

  /** reconcileNormal.  `Failed` also stands for a pass that asks to be run again later. */
  function Normal(m: Machine, x: Inputs, p: Pass): Result {
    if !x.hostReady || !x.clients || !x.secretExists then Result(p, Failed)
    else
      match AutoSize(m.vcpus, m.memoryMB, x.capacity)
      case Wait => Result(p, Failed)
      case Insufficient => GiveUp(p, "StorageInsufficient")
      case Sized(size) =>
        (var p1 := if m.sessionNetwork then GiveUp(p, "NetworkTypeUnsupported").pass else p;
         if p1.failure.Some? then Result(p1, Skipped)
         else
           var r := Preflight(m, p1);
           if Stops(r.flow) then r
           else if r.pass.failure.Some? then Result(r.pass, Skipped)
           else Provision(m, x, r.pass, size))
  }
}
