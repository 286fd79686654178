/** LibvirtMachineReconciler's passes over its context, statement by statement, each proved to
    be the step function of the same name in Provisioning and Teardown. */
module Reconciler {
  import opened Common
  import opened LibvirtHost
  import opened LibvirtMachine
  import opened Provisioning
  import opened Teardown

  /** What a Go sub-step returns: nil, an error to retry, or nothing because the process died. */
  datatype Error = Nil | Retry | Died

  function ErrorOf(flow: Flow): Error {
    match flow
    case Failed => Retry
    case Crashed => Died
    case _ => Nil
  }

  predicate Asks(c: Call) {
    c.PoolExists? || c.PoolIsActive? || c.VolumeExists? || c.RemoteFileExists? || c.DomainExists? || c.GetDomain?
  }

  class Context {
    const m: Machine
    const x: Inputs
    var remote: Remote
    var failure: Option<string>
    var ready: bool
    var storagePool: string
    var additionalDisks: seq<Disk>
    var kernelPath: string
    var initrdPath: string
    var kernelCmdline: string

    ghost function View(): Pass
      reads this
    {
      Pass(remote, failure, ready, storagePool, additionalDisks, kernelPath, initrdPath, kernelCmdline)
    }

    constructor (m: Machine, x: Inputs, remote: Remote, failure: Option<string>, ready: bool)
      ensures this.m == m && this.x == x && View() == Begin(m, remote, failure, ready)
    {
      this.m, this.x, this.remote, this.failure, this.ready := m, x, remote, failure, ready;
      storagePool, additionalDisks := m.storagePool, [];
      kernelPath, initrdPath, kernelCmdline := "", "", "";
    }

    /** One call through the libvirt client. */
    method Client(c: Call) returns (a: Answer)
      modifies this
      ensures View() == After(old(View()), c) && a == Said(old(View()), c)
      ensures Asks(c) ==> a.Err? || a.Is?
      ensures c.GetVolumePath? ==> a.Err? || a.At?
    {
      a := Reply(remote, c);
      remote := Send(remote, c);
    }

    method SetTerminalError(reason: string)
      modifies this
      ensures View() == GiveUp(old(View()), reason).pass
    {
      failure := Some(reason);
      ready := false;
    }

    method HandleLibvirtError(cat: Category) returns (err: Error)
      modifies this
      ensures View() == HandleError(old(View()), cat).pass && err == ErrorOf(HandleError(old(View()), cat).flow)
    {
      match cat
      case Terminal =>
        SetTerminalError("SpecMismatch");
        err := Nil;
      case Cut => err := Died;
      case _ => err := Retry;
    }

    // ----- Preflight -----

    static method Add(required: seq<Required>, seen: set<string>, pool: string, reason: string)
      returns (required': seq<Required>, seen': set<string>)
      requires forall q :: q in seen <==> Names(required, q)
      ensures forall q :: q in seen' <==> Names(required', q)
      ensures required' == if pool == "" || Names(required, pool) then required else required + [Required(pool, reason)]
    {
      required', seen' := required, seen;
      if pool == "" || pool in seen {
        return;
      }
      seen' := seen + {pool};
      required' := required + [Required(pool, reason)];
      forall q
        ensures q in seen' <==> Names(required', q)
      {
        if Names(required, q) {
          var i :| 0 <= i < |required| && required[i].pool == q;
          assert required'[i].pool == q;
        }
        assert required'[|required|].pool == pool;
      }
    }

    method RequiredPools() returns (required: seq<Required>)
      ensures required == FirstMentions(ReferencedPools(m))
    {
      hide FirstMentions, Names, ReferencedPools, BasePool;
      ghost var list := ReferencedPools(m);
      ghost var k := 0;
      ListShape(m);
      var seen: set<string>;
      required, seen := [], {};
      NothingRequired(list);
      if m.clusterImage.Some? {
        NextMention(list, k);
        required, seen := Add(required, seen, m.clusterImage.value.pool, "BaseImagePoolNotFound");
        k := k + 1;
      }
      NextMention(list, k);
      required, seen := Add(required, seen, BasePool(m), "BaseImagePoolNotFound");
      k := k + 1;
      if !m.ephemeral {
        NextMention(list, k);
        required, seen := Add(required, seen, m.storagePool, "StoragePoolNotFound");
        k := k + 1;
      }
      for i := 0 to |m.disks|
        invariant k == FixedMentions(m) + i && required == FirstMentions(list[..k])
        invariant forall q :: q in seen <==> Names(required, q)
      {
        NextMention(list, k);
        required, seen := Add(required, seen, m.disks[i].storagePool, "StoragePoolNotFound");
        k := k + 1;
      }
      assert list[..k] == list;
    }

    /** How many pools are mentioned before the additional disks. */
    static ghost function FixedMentions(m: Machine): nat {
      (if m.clusterImage.Some? then 1 else 0) + 1 + (if m.ephemeral then 0 else 1)
    }

    static lemma ListShape(m: Machine)
      ensures var list, n := ReferencedPools(m), FixedMentions(m);
              && |list| == n + |m.disks|
              && (m.clusterImage.Some? ==> list[0] == Required(m.clusterImage.value.pool, "BaseImagePoolNotFound"))
              && list[if m.clusterImage.Some? then 1 else 0] == Required(BasePool(m), "BaseImagePoolNotFound")
              && (!m.ephemeral ==> list[n - 1] == Required(m.storagePool, "StoragePoolNotFound"))
              && (forall i | 0 <= i < |m.disks| ::
                  list[n + i] == Required(m.disks[i].storagePool, "StoragePoolNotFound"))
    {
    }

    static lemma NothingRequired(list: seq<Required>)
      ensures FirstMentions(list[..0]) == [] && forall q :: !Names([], q)
    {
    }

    static lemma NextMention(list: seq<Required>, k: nat)
      requires k < |list|
      ensures var front, r := FirstMentions(list[..k]), list[k];
              FirstMentions(list[..k + 1]) == if r.pool == "" || Names(front, r.pool) then front else front + [r]
    {
      assert list[..k + 1][..k] == list[..k];
    }

    method PreflightPools() returns (err: Error)
      modifies this
      ensures var r := Preflight(m, old(View())); View() == r.pass && err == ErrorOf(r.flow)
    {
      hide Send, Reply, FirstMentions, ReferencedPools;
      var required := RequiredPools();
      ghost var start := View();
      for i := 0 to |required|
        invariant CheckPools(required, start) == CheckPools(required[i..], View())
      {
        var exists_ := Client(PoolExists(required[i].pool));
        if exists_.Err? {
          err := HandleLibvirtError(exists_.cat);
          return;
        }
        if exists_.yes {
          continue;
        }
        SetTerminalError(required[i].reason);
        return Nil;
      }
      return Nil;
    }

    // ----- Base image, root disk -----

    method ReconcileBaseImage() returns (err: Error)
      modifies this
      ensures var r := StageImage(m, x, old(View())); View() == r.pass && err == ErrorOf(r.flow)
    {
      hide Send, Reply;
      if m.clusterImage.None? {
        return Nil;
      }
      var pool, vol := m.clusterImage.value.pool, m.clusterImage.value.volume;
      var exists_ := Client(VolumeExists(pool, vol));
      if exists_.Err? {
        err := HandleLibvirtError(exists_.cat);
        return;
      }
      if exists_.yes {
        return Nil;
      }
      if x.image.None? {
        return Retry;
      }
      exists_ := Client(VolumeExists(pool, vol));
      if exists_.Err? {
        err := HandleLibvirtError(exists_.cat);
        return;
      } else if exists_.yes {
        return Nil;
      }
      var upload := Client(UploadQcow2Volume(pool, vol, x.image.value));
      if upload.Err? {
        err := HandleLibvirtError(upload.cat);
        return;
      }
      return Nil;
    }

    method EnsureEphemeralPool() returns (err: Error, settled: bool)
      modifies this
      ensures var r := EnsurePool(old(View()), EphemeralPool(m), EphemeralPath(m));
              View() == r.pass && err == ErrorOf(r.flow) && settled == r.flow.Going?
    {
      hide Send, Reply;
      var pool := EphemeralPool(m);
      settled := false;
      var a := Client(PoolExists(pool));
      if a.Err? {
        err := HandleLibvirtError(a.cat);
        return;
      }
      var poolExists := a.yes;
      if poolExists {
        a := Client(PoolIsActive(pool));
        if a.Err? {
          err := HandleLibvirtError(a.cat);
          return;
        }
        if !a.yes {
          a := Client(StartPool(pool));
          if a.Err? {
            if a.cat.Cut? {
              return Died, false;
            }
            a := Client(DestroyPool(pool));
            if a.Err? {
              err := HandleLibvirtError(a.cat);
              return;
            }
            poolExists := false;
          }
        }
      }
      if !poolExists {
        a := Client(CreateTmpfsPool(pool, EphemeralPath(m)));
        if a.Err? {
          err := HandleLibvirtError(a.cat);
          return;
        }
      }
      storagePool := pool;
      return Nil, true;
    }

    method ReconcileRootDisk() returns (err: Error)
      modifies this
      ensures var r := RootDisk(m, old(View())); View() == r.pass && err == ErrorOf(r.flow)
    {
      hide Send, Reply, EnsurePool;
      if m.ephemeral {
        var settled;
        err, settled := EnsureEphemeralPool();
        if !settled {
          return;
        }
      }
      var a := Client(VolumeExists(storagePool, RootVolume(m)));
      if a.Err? {
        err := HandleLibvirtError(a.cat);
        return;
      }
      if !a.yes {
        if m.fullClone {
          a := Client(CloneVolume(BasePool(m), m.baseImage, RootVolume(m)));
          if a.Err? {
            if a.cat.NotFound? {
              SetTerminalError("BaseImageNotFound");
              return Nil;
            }
            err := HandleLibvirtError(a.cat);
            return;
          }
        } else {
          a := Client(GetVolumePath(BasePool(m), m.baseImage));
          if a.Err? {
            if a.cat.NotFound? {
              SetTerminalError("BaseImageNotFound");
              return Nil;
            }
            err := HandleLibvirtError(a.cat);
            return;
          }
          a := Client(CreateVolumeFromBackingStore(storagePool, RootVolume(m), a.where, m.rootSize));
          if a.Err? {
            err := HandleLibvirtError(a.cat);
            return;
          }
        }
      }
      return Nil;
    }

    // ----- Bootstrap data, additional disks, boot files -----

    method ReconcileBootstrapArtifacts() returns (err: Error)
      modifies this
      ensures var r := Bootstrap(m, x, old(View())); View() == r.pass && err == ErrorOf(r.flow)
    {
      hide Send, Reply;
      if x.bootstrap.None? {
        return Retry;
      }
      match m.format {
      case Ignition =>
        var a := Client(WriteRemoteFile(IgnitionPath(m), x.bootstrap.value));
        if a.Err? {
          err := HandleLibvirtError(a.cat);
          return;
        }
      case CloudInit =>
        var a := Client(VolumeExists(storagePool, IsoVolume(m)));
        if a.Err? {
          err := HandleLibvirtError(a.cat);
          return;
        }
        if !a.yes {
          if x.iso.None? {
            SetTerminalError("InvalidBootstrapData");
            return Nil;
          }
          a := Client(UploadVolumeFromBytes(storagePool, IsoVolume(m), x.iso.value));
          if a.Err? {
            err := HandleLibvirtError(a.cat);
            return;
          }
        }
      case Unsupported =>
        SetTerminalError("InvalidBootstrapData");
      }
      return Nil;
    }

    /** One turn of the loop over additional disks. */
    method ReconcileDisk(d: DiskSpec) returns (err: Error, done: bool)
      modifies this
      ensures var r := OneDisk(m, d, old(View()));
              View() == r.pass && err == ErrorOf(r.flow) && done == r.flow.Going?
    {
      hide Send, Reply;
      var vol := DiskVolume(m, d);
      done := false;
      var a := Client(VolumeExists(d.storagePool, vol));
      if a.Err? {
        err := HandleLibvirtError(a.cat);
        return;
      }
      if !a.yes {
        a := Client(CreateVolume(d.storagePool, vol, d.size));
        if a.Err? {
          err := HandleLibvirtError(a.cat);
          return;
        }
      }
      a := Client(GetVolumePath(d.storagePool, vol));
      if a.Err? {
        err := HandleLibvirtError(a.cat);
        return;
      }
      additionalDisks := additionalDisks + [Disk(a.where, d.bus)];
      return Nil, true;
    }

    method ReconcileAdditionalDisks() returns (err: Error)
      modifies this
      ensures var r := FirstDisks(m, |m.disks|, old(View())); View() == r.pass && err == ErrorOf(r.flow)
    {
      hide OneDisk;
      for i := 0 to |m.disks|
        invariant FirstDisks(m, i, old(View())) == Result(View(), Going)
      {
        var done;
        err, done := ReconcileDisk(m.disks[i]);
        if !done {
          LoopEnded(m, i + 1, |m.disks|, old(View()));
          return;
        }
      }
      return Nil;
    }

    static lemma LoopEnded(m: Machine, i: nat, n: nat, p: Pass)
      requires i <= n <= |m.disks| && !FirstDisks(m, i, p).flow.Going?
      ensures FirstDisks(m, n, p) == FirstDisks(m, i, p)
    {
      hide OneDisk;
      if i < n {
        LoopEnded(m, i, n - 1, p);
      }
    }

    method EnsureRemoteArtifact(path: string, data: string) returns (a: Answer)
      modifies this
      ensures var r := EnsureFile(old(View()), path, data);
              if a.Err? then r == HandleError(View(), a.cat) else r == Result(View(), Going)
    {
      hide Send, Reply;
      a := Client(RemoteFileExists(path));
      if a.Err? || a.yes {
        return;
      }
      a := Client(WriteRemoteFile(path, data));
    }

    method ReconcileBootArtifacts() returns (err: Error)
      modifies this
      ensures var r := BootArtifacts(m, x, old(View())); View() == r.pass && err == ErrorOf(r.flow)
    {
      hide EnsureFile;
      if m.boot.None? {
        return Nil;
      }
      if x.bootFiles.None? {
        return Retry;
      }
      var kernel, initrd := KernelFile(m.boot.value, x.bootFiles.value), InitrdFile(m.boot.value, x.bootFiles.value);
      var a := EnsureRemoteArtifact(kernel, x.bootFiles.value.kernel);
      if a.Err? {
        err := HandleLibvirtError(a.cat);
        return;
      }
      a := EnsureRemoteArtifact(initrd, x.bootFiles.value.initrd);
      if a.Err? {
        err := HandleLibvirtError(a.cat);
        return;
      }
      kernelPath, initrdPath, kernelCmdline := kernel, initrd, m.boot.value.kernelArgs;
      return Nil;
    }

    // ----- Domain -----

    method DefineMachine(size: Capacity) returns (err: Error, defined: bool)
      modifies this
      ensures var r := Define(m, old(View()), size);
              View() == r.pass && err == ErrorOf(r.flow) && defined == r.flow.Going?
    {
      hide Send, Reply;
      defined := false;
      var a := Client(GetVolumePath(storagePool, RootVolume(m)));
      if a.Err? {
        err := HandleLibvirtError(a.cat);
        return;
      }
      var root, iso, ignition := a.where, "", "";
      match m.format {
      case Ignition => ignition := IgnitionPath(m);
      case CloudInit =>
        a := Client(GetVolumePath(storagePool, IsoVolume(m)));
        if a.Err? {
          err := HandleLibvirtError(a.cat);
          return;
        }
        iso := a.where;
      case Unsupported =>
      }
      var def := Definition(size.vcpus, size.memoryMB * 1024, root, iso, ignition,
                            additionalDisks, kernelPath, initrdPath, kernelCmdline);
      a := Client(DefineDomain(BaseName(m), def));
      if a.Err? {
        err := HandleLibvirtError(a.cat);
        return;
      }
      return Nil, true;
    }

    /** `info` tells whether domain information came back. */
    method ReconcileDomain(size: Capacity) returns (info: bool, err: Error)
      modifies this
      ensures var r := RunDomain(m, old(View()), size);
              View() == r.pass && err == ErrorOf(r.flow) && info == r.flow.Going?
    {
      hide Send, Reply, Define;
      info := false;
      var a := Client(DomainExists(BaseName(m)));
      if a.Err? {
        err := HandleLibvirtError(a.cat);
        return;
      }
      if !a.yes {
        var defined;
        err, defined := DefineMachine(size);
        if !defined {
          return;
        }
      }
      a := Client(GetDomain(BaseName(m)));
      if a.Err? {
        err := HandleLibvirtError(a.cat);
        return;
      }
      if !a.yes {
        a := Client(StartDomain(BaseName(m)));
        if a.Err? {
          err := HandleLibvirtError(a.cat);
          return;
        }
        a := Client(GetDomain(BaseName(m)));
        if a.Err? {
          err := HandleLibvirtError(a.cat);
          return;
        }
      }
      return true, Nil;
    }

    // ----- Whole passes -----

    method ReconcileNormal() returns (err: Error)
      modifies this
      ensures View() == Normal(m, x, old(View())).pass && err == ErrorOf(Normal(m, x, old(View())).flow)
    {
      hide CheckPools, StageImage, RootDisk, Bootstrap, FirstDisks, BootArtifacts, RunDomain;
      if !x.hostReady || !x.clients || !x.secretExists {
        return Retry;
      }
      var sizing := AutoSize(m.vcpus, m.memoryMB, x.capacity);
      if sizing.Wait? {
        return Retry;
      }
      if sizing.Insufficient? {
        SetTerminalError("StorageInsufficient");
        return Nil;
      }
      if m.sessionNetwork {
        SetTerminalError("NetworkTypeUnsupported");
      }
      if failure.Some? {
        return Nil;
      }
      err := PreflightPools();
      if err != Nil || failure.Some? {
        return;
      }
      err := ReconcileBaseImage();
      if err != Nil {
        return;
      }
      err := ReconcileRootDisk();
      if err != Nil {
        return;
      }
      err := ReconcileBootstrapArtifacts();
      if err != Nil {
        return;
      }
      err := ReconcileAdditionalDisks();
      if err != Nil {
        return;
      }
      err := ReconcileBootArtifacts();
      if err != Nil {
        return;
      }
      var info;
      info, err := ReconcileDomain(sizing.size);
      if err != Nil || !info {
        return;
      }
      ready := true;
      return Nil;
    }

    /** A removing call of reconcileDelete, which ignores "not found" only. */
    method Discard(c: Call) returns (err: Error)
      modifies this
      ensures var r := Remove(old(View()), c); View() == r.pass && err == ErrorOf(r.flow) && !r.flow.Skipped?
    {
      hide Send, Reply;
      var a := Client(c);
      if a.Err? && !a.cat.NotFound? {
        return if a.cat.Cut? then Died else Retry;
      }
      return Nil;
    }

    /** `released` tells that the finalizer was removed. */
    method ReconcileDelete() returns (released: bool, err: Error)
      modifies this
      ensures var r := Delete(m, x, old(View()));
              View() == r.pass && released == r.flow.Going? && err == ErrorOf(r.flow)
    {
      hide Send, Reply, Remove;
      released := false;
      if !x.hostReady || !x.clients {
        return false, Retry;
      }
      err := Discard(DestroyDomain(BaseName(m)));
      if err != Nil {
        return;
      }
      err := Discard(UndefineDomain(BaseName(m)));
      if err != Nil {
        return;
      }
      err := Discard(DeleteVolume(WorkPool(m), RootVolume(m)));
      if err != Nil {
        return;
      }
      match m.format {
        case Ignition =>
          var a := Client(DeleteRemoteFile(IgnitionPath(m)));
          if a == Err(Cut) {
            return false, Died;
          }
        case CloudInit =>
          err := Discard(DeleteVolume(WorkPool(m), IsoVolume(m)));
          if err != Nil {
            return;
          }
        case Unsupported =>
      }
      ghost var start := View();
      for i := 0 to |m.disks|
        invariant RemoveDisks(m, i, start) == Result(View(), Going)
      {
        err := Discard(DeleteVolume(m.disks[i].storagePool, DiskVolume(m, m.disks[i])));
        if err != Nil {
          DeletionEnded(m, i + 1, |m.disks|, start);
          return;
        }
      }
      if m.ephemeral {
        err := Discard(DestroyPool(EphemeralPool(m)));
        if err != Nil {
          return;
        }
      }
      return true, Nil;
    }

    static lemma DeletionEnded(m: Machine, i: nat, n: nat, p: Pass)
      requires i <= n <= |m.disks| && !RemoveDisks(m, i, p).flow.Going?
      ensures RemoveDisks(m, n, p) == RemoveDisks(m, i, p)
    {
      hide Remove;
      if i < n {
        DeletionEnded(m, i, n - 1, p);
      }
    }
  }
}
