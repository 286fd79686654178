/** A LibvirtMachine as the reconciler reads it, the deterministic names of
    internal/scope/machine.go, and the artifacts that carry those names. */
module LibvirtMachine {
  import opened Common
  import opened LibvirtHost

  datatype Format = Ignition | CloudInit | Unsupported

  datatype DiskSpec = DiskSpec(name: string, storagePool: string, size: int, bus: string)

  datatype ClusterImage = ClusterImage(pool: string, volume: string)

  datatype BootSpec = BootSpec(hostPath: string, kernelArgs: string)

  /** Metadata and spec of the machine, with the two cluster settings a pass reads. */
  datatype Machine = Machine(
    namespace: string, cluster: string, name: string,
    storagePool: string, baseImage: string, baseImagePool: string,
    rootSize: int, ephemeral: bool, fullClone: bool,
    disks: seq<DiskSpec>,
    format: Format,
    vcpus: int, memoryMB: int,
    sessionNetwork: bool,
    clusterImage: Option<ClusterImage>,
    boot: Option<BootSpec>)

  datatype Capacity = Capacity(vcpus: int, memoryMB: int)

  datatype BootFiles = BootFiles(kernelDigest: string, kernel: string, initrdDigest: string, initrd: string)

  /** What a pass gets from elsewhere: host readiness, secrets, fetched images.  `None` is a
      failed read, fetch or build. */
  datatype Inputs = Inputs(
    hostReady: bool, clients: bool, secretExists: bool,
    capacity: Option<Capacity>,
    bootstrap: Option<string>, iso: Option<string>,
    image: Option<Volume>, bootFiles: Option<BootFiles>)

  function BaseName(m: Machine): string { m.namespace + "-" + m.cluster + "-" + m.name }

  function RootVolume(m: Machine): string { BaseName(m) + "-root.qcow2" }

  function IsoVolume(m: Machine): string { BaseName(m) + "-bootstrap.iso" }

  function DiskVolume(m: Machine, d: DiskSpec): string { BaseName(m) + "-" + d.name + ".qcow2" }

  function EphemeralPool(m: Machine): string { BaseName(m) + "-pool" }

  function EphemeralPath(m: Machine): string { "/run/caplv/" + BaseName(m) }

  function IgnitionPath(m: Machine): string { "/run/caplv/" + BaseName(m) + "/ignition.json" }

  /** rootDisk.baseImagePool, which defaults to storagePool. */
  function BasePool(m: Machine): string {
    if m.baseImagePool == "" then m.storagePool else m.baseImagePool
  }

  /** The pool where a pass looks for the root disk and the ISO. */
  function WorkPool(m: Machine): string {
    if m.ephemeral then EphemeralPool(m) else m.storagePool
  }

  /** The pool where a pass creates the root disk: vol-clone stays in the source's pool. */
  function RootHome(m: Machine): string {
    if m.fullClone then BasePool(m) else WorkPool(m)
  }

  function DiskKey(m: Machine, d: DiskSpec): Key { Key(d.storagePool, DiskVolume(m, d)) }

  function RootKey(m: Machine): Key { Key(WorkPool(m), RootVolume(m)) }

  function IsoKey(m: Machine): Key { Key(WorkPool(m), IsoVolume(m)) }

  function BaseKey(m: Machine): Key { Key(BasePool(m), m.baseImage) }

  ghost predicate IsDiskKey(m: Machine, k: Key) {
    exists i | 0 <= i < |m.disks| :: k == DiskKey(m, m.disks[i])
  }

  /** The volume the cluster stages its base image into. */
  predicate IsImageKey(m: Machine, k: Key) {
    m.clusterImage.Some? && k == Key(m.clusterImage.value.pool, m.clusterImage.value.volume)
  }

  /** Volumes that deletion removes one by one. */
  ghost predicate Removed(m: Machine, k: Key) {
    || k == RootKey(m)
    || (m.format.CloudInit? && k == IsoKey(m))
    || IsDiskKey(m, k)
  }

  /** Volumes a pass may create for this machine while no call is refused. */
  ghost predicate Owned(m: Machine, k: Key) {
    || k == Key(RootHome(m), RootVolume(m))
    || (m.format.CloudInit? && k == IsoKey(m))
    || IsDiskKey(m, k)
  }

  /** Volumes any pass may create or delete under any faults, the cluster image aside. */
  ghost predicate Touchable(m: Machine, k: Key) {
    || Removed(m, k)
    || Owned(m, k)
    || (m.format.CloudInit? && k == Key(m.storagePool, IsoVolume(m)))
  }

  predicate InEphemeral(m: Machine, pool: string) { m.ephemeral && pool == EphemeralPool(m) }

  /** A pool some step of the machine names, other than the one it provisions itself. */
  ghost predicate Refers(m: Machine, pool: string) {
    || (m.clusterImage.Some? && pool == m.clusterImage.value.pool)
    || pool == BasePool(m)
    || (!m.ephemeral && pool == m.storagePool)
    || exists i | 0 <= i < |m.disks| :: pool == m.disks[i].storagePool
  }

  /** A pool that some volume call of a pass may name. */
  ghost predicate Named(m: Machine, pool: string) { Refers(m, pool) || pool == WorkPool(m) }

  function KernelFile(b: BootSpec, f: BootFiles): string { b.hostPath + "/" + f.kernelDigest + "/vmlinuz" }

  function InitrdFile(b: BootSpec, f: BootFiles): string { b.hostPath + "/" + f.initrdDigest + "/initramfs.img" }

  /** Every volume a machine may touch carries its base name and a dash. */
  lemma TouchableCarriesBaseName(m: Machine, k: Key)
    requires Touchable(m, k)
    ensures BaseName(m) + "-" <= k.name
  {
    if IsDiskKey(m, k) {
      var i :| 0 <= i < |m.disks| && k == DiskKey(m, m.disks[i]);
      assert k.name == BaseName(m) + "-" + (m.disks[i].name + ".qcow2");
    }
  }

  /** Boot files are named by what they hold: under one directory, equal paths have equal digests. */
  lemma BootFilesNamedByDigest(b: BootSpec, f: BootFiles, g: BootFiles)
    ensures KernelFile(b, f) == KernelFile(b, g) <==> f.kernelDigest == g.kernelDigest
    ensures InitrdFile(b, f) == InitrdFile(b, g) <==> f.initrdDigest == g.initrdDigest
  {
    Between(b.hostPath + "/", f.kernelDigest, g.kernelDigest, "/vmlinuz");
    Between(b.hostPath + "/", f.initrdDigest, g.initrdDigest, "/initramfs.img");
  }

  lemma Between(a: string, x: string, y: string, b: string)
    ensures a + x + b == a + y + b ==> x == y
  {
    var s, t := a + x + b, a + y + b;
    if s == t {
      assert |x| == |y|;
      assert s[|a|..|a| + |x|] == x && t[|a|..|a| + |y|] == y;
    }
  }
}
