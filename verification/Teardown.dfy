/** Reference semantics of reconcileDelete's host side, and what it guarantees. */
module Teardown {
  import opened LibvirtHost
  import opened LibvirtMachine
  import opened Provisioning
  import PassCalls

  /** Make one removing call; only "not found" is ignored. */
  function Remove(p: Pass, c: Call): Result {
    var a := Said(p, c);
    if a.Err? && !a.cat.NotFound? then Result(After(p, c), if a.cat.Cut? then Crashed else Failed)
    else Result(After(p, c), Going)
  }

  /** Deleting the ignition file may fail without consequence. */
  function RemoveQuietly(p: Pass, c: Call): Result {
    Result(After(p, c), if Said(p, c) == Err(Cut) then Crashed else Going)
  }

  function RemoveBootstrap(m: Machine, p: Pass): Result {
    match m.format
    case Ignition => RemoveQuietly(p, DeleteRemoteFile(IgnitionPath(m)))
    case CloudInit => Remove(p, DeleteVolume(WorkPool(m), IsoVolume(m)))
    case Unsupported => Result(p, Going)
  }

  function RemoveDisks(m: Machine, n: nat, p: Pass): Result
    requires n <= |m.disks|
  {
    if n == 0 then Result(p, Going)
    else
      var r := RemoveDisks(m, n - 1, p);
      var d := m.disks[n - 1];
      if r.flow.Going? then Remove(r.pass, DeleteVolume(d.storagePool, DiskVolume(m, d))) else r
  }

  function RemoveDomain(m: Machine, p: Pass): Result {
    var r := Remove(p, DestroyDomain(BaseName(m)));
    if r.flow.Going? then Remove(r.pass, UndefineDomain(BaseName(m))) else r
  }

  function RemoveVolumes(m: Machine, p: Pass): Result {
    var a := Remove(p, DeleteVolume(WorkPool(m), RootVolume(m)));
    if !a.flow.Going? then a
    else
      var b := RemoveBootstrap(m, a.pass);
      if b.flow.Going? then RemoveDisks(m, |m.disks|, b.pass) else b
  }

  /** reconcileDelete.  The finalizer is removed exactly when this ends `Going`. */
  function Delete(m: Machine, x: Inputs, p: Pass): Result {
    if !x.hostReady || !x.clients then Result(p, Failed)
    else
      var a := RemoveDomain(m, p);
      if !a.flow.Going? then a
      else
        var b := RemoveVolumes(m, a.pass);
        if b.flow.Going? && m.ephemeral then Remove(b.pass, DestroyPool(EphemeralPool(m))) else b
  }

  /** Calls that only take away, and only from this machine. */
  ghost predicate Takes(m: Machine, c: Call) {
    && PassCalls.Within(m, c)
    && (c.DeleteVolume? || c.DeleteRemoteFile? || c.DestroyDomain? || c.UndefineDomain? || c.DestroyPool?)
  }

  lemma RemoveDisksKeeps(m: Machine, n: nat, p: Pass, inv: Remote -> bool, ok: Call -> bool)
    requires n <= |m.disks|
    requires Closed(inv, ok) && inv(p.remote)
    requires forall c {:trigger ok(c)} :: Takes(m, c) ==> ok(c)
    ensures inv(RemoveDisks(m, n, p).pass.remote)
  {
    hide Send, Reply;
    if n > 0 {
      RemoveDisksKeeps(m, n - 1, p, inv, ok);
      var d := m.disks[n - 1];
      assert IsDiskKey(m, DiskKey(m, d));
      assert ok(DeleteVolume(d.storagePool, DiskVolume(m, d)));
    }
  }

  lemma RemoveVolumesKeeps(m: Machine, p: Pass, inv: Remote -> bool, ok: Call -> bool)
    requires Closed(inv, ok) && inv(p.remote)
    requires forall c {:trigger ok(c)} :: Takes(m, c) ==> ok(c)
    ensures inv(RemoveVolumes(m, p).pass.remote)
  {
    hide Send, Reply, RemoveDisks;
    assert ok(DeleteVolume(WorkPool(m), RootVolume(m)));
    assert m.format.CloudInit? ==> ok(DeleteVolume(WorkPool(m), IsoVolume(m)));
    assert ok(DeleteRemoteFile(IgnitionPath(m)));
    var b := RemoveBootstrap(m, Remove(p, DeleteVolume(WorkPool(m), RootVolume(m))).pass);
    RemoveDisksKeeps(m, |m.disks|, b.pass, inv, ok);
  }

  /** A deletion pass keeps whatever its taking calls keep, wherever it is cut short. */
  lemma DeleteKeeps(m: Machine, x: Inputs, p: Pass, inv: Remote -> bool, ok: Call -> bool)
    requires Closed(inv, ok) && inv(p.remote)
    requires forall c {:trigger ok(c)} :: Takes(m, c) ==> ok(c)
    ensures inv(Delete(m, x, p).pass.remote)
  {
    hide Send, Reply, RemoveVolumes;
    assert ok(DestroyDomain(BaseName(m))) && ok(UndefineDomain(BaseName(m)));
    assert m.ephemeral ==> ok(DestroyPool(EphemeralPool(m)));
    RemoveVolumesKeeps(m, RemoveDomain(m, p).pass, inv, ok);
  }

  /** `h` holds nothing that `was` did not hold. */
  ghost predicate NoMore(was: Host, h: Host) {
    && (forall k | k in h.volumes :: k in was.volumes && h.volumes[k] == was.volumes[k])
    && h.domains.Keys <= was.domains.Keys
    && h.pools.Keys <= was.pools.Keys
    && (forall f | f in h.files :: f in was.files && h.files[f] == was.files[f])
  }

  lemma TakingAddsNothing(m: Machine, r: Remote, c: Call)
    requires Takes(m, c)
    ensures NoMore(r.host, Send(r, c).host)
  {
  }

  lemma TakingIsClosed(m: Machine, was: Host)
    ensures Closed((r: Remote) => NoMore(was, r.host), c => Takes(m, c))
  {
    hide Send, Takes;
    forall r: Remote, c | NoMore(was, r.host) && Takes(m, c)
      ensures NoMore(was, Send(r, c).host)
    {
      TakingAddsNothing(m, r, c);
    }
  }

  /** A deletion pass never adds an artifact, under any faults. */
  lemma DeleteAddsNothing(m: Machine, x: Inputs, p: Pass)
    ensures NoMore(p.remote.host, Delete(m, x, p).pass.remote.host)
  {
    hide Delete, NoMore, Takes;
    var was := p.remote.host;
    TakingIsClosed(m, was);
    assert NoMore(was, was) by { NothingIsNoMore(was); }
    DeleteKeeps(m, x, p, (r: Remote) => NoMore(was, r.host), c => Takes(m, c));
  }

  lemma NothingIsNoMore(h: Host)
    ensures NoMore(h, h)
  {
  }

  // ----- Completeness -----

  /** The host holds none of the artifacts that deletion is to remove. */
  ghost predicate Cleared(m: Machine, h: Host) {
    && BaseName(m) !in h.domains
    && (forall k | k in h.volumes :: !Removed(m, k))
    && (m.ephemeral ==> EphemeralPool(m) !in h.pools)
  }

  lemma RemovesVolume(p: Pass, pool: string, vol: string)
    ensures Remove(p, DeleteVolume(pool, vol)).flow.Going? ==>
              Key(pool, vol) !in Remove(p, DeleteVolume(pool, vol)).pass.remote.host.volumes
  {
  }

  lemma RemoveDomainComplete(m: Machine, p: Pass)
    ensures RemoveDomain(m, p).flow.Going? ==> BaseName(m) !in RemoveDomain(m, p).pass.remote.host.domains
  {
  }

  lemma RemoveDisksComplete(m: Machine, n: nat, p: Pass)
    requires n <= |m.disks| && RemoveDisks(m, n, p).flow.Going?
    ensures forall i | 0 <= i < n :: DiskKey(m, m.disks[i]) !in RemoveDisks(m, n, p).pass.remote.host.volumes
  {
    hide Send, Reply;
    if n > 0 {
      RemoveDisksComplete(m, n - 1, p);
      var q := RemoveDisks(m, n - 1, p).pass;
      var d := m.disks[n - 1];
      assert IsDiskKey(m, DiskKey(m, d));
      TakingAddsNothing(m, q.remote, DeleteVolume(d.storagePool, DiskVolume(m, d)));
      RemovesVolume(q, d.storagePool, DiskVolume(m, d));
    }
  }

  lemma RemoveDisksAddsNothing(m: Machine, n: nat, p: Pass)
    requires n <= |m.disks|
    ensures NoMore(p.remote.host, RemoveDisks(m, n, p).pass.remote.host)
  {
    hide RemoveDisks, NoMore, Takes;
    var was := p.remote.host;
    TakingIsClosed(m, was);
    NothingIsNoMore(was);
    RemoveDisksKeeps(m, n, p, (r: Remote) => NoMore(was, r.host), c => Takes(m, c));
  }

  lemma RemoveVolumesAddsNothing(m: Machine, p: Pass)
    ensures NoMore(p.remote.host, RemoveVolumes(m, p).pass.remote.host)
  {
    hide RemoveVolumes, NoMore, Takes;
    var was := p.remote.host;
    TakingIsClosed(m, was);
    NothingIsNoMore(was);
    RemoveVolumesKeeps(m, p, (r: Remote) => NoMore(was, r.host), c => Takes(m, c));
  }

  lemma RemoveVolumesComplete(m: Machine, p: Pass)
    requires RemoveVolumes(m, p).flow.Going?
    ensures forall k | k in RemoveVolumes(m, p).pass.remote.host.volumes :: !Removed(m, k)
  {
    hide Send, Reply, RemoveDisks;
    var a := Remove(p, DeleteVolume(WorkPool(m), RootVolume(m)));
    RemovesVolume(p, WorkPool(m), RootVolume(m));
    var b := RemoveBootstrap(m, a.pass);
    assert NoMore(a.pass.remote.host, b.pass.remote.host) by {
      NothingIsNoMore(a.pass.remote.host);
      if m.format.Ignition? {
        TakingAddsNothing(m, a.pass.remote, DeleteRemoteFile(IgnitionPath(m)));
      } else if m.format.CloudInit? {
        TakingAddsNothing(m, a.pass.remote, DeleteVolume(WorkPool(m), IsoVolume(m)));
      }
    }
    RemovesVolume(a.pass, WorkPool(m), IsoVolume(m));
    RemoveDisksAddsNothing(m, |m.disks|, b.pass);
    RemoveDisksComplete(m, |m.disks|, b.pass);
  }

  /** Under every schedule of faults, a deletion pass that releases the finalizer leaves
      neither the domain nor any of the machine's volumes nor its ephemeral pool. */
  lemma DeleteComplete(m: Machine, x: Inputs, p: Pass)
    requires Delete(m, x, p).flow.Going?
    ensures Cleared(m, Delete(m, x, p).pass.remote.host)
  {
    hide RemoveDomain, RemoveVolumes, Removed;
    var a := RemoveDomain(m, p);
    var b := RemoveVolumes(m, a.pass);
    RemoveDomainComplete(m, p);
    RemoveVolumesAddsNothing(m, a.pass);
    RemoveVolumesComplete(m, a.pass);
    if m.ephemeral {
      TakingAddsNothing(m, b.pass.remote, DestroyPool(EphemeralPool(m)));
    }
  }

  // ----- The finalizer waits for every call -----

  /** An answer that lets a deletion go on: nothing but success and "not found" will do, except for the
      ignition file, of which only the controller's death matters. */
  predicate Tolerated(c: Call, a: Answer) {
    if c.DeleteRemoteFile? then a != Err(Cut) else a.Err? ==> a.cat.NotFound?
  }

  ghost predicate Smooth(r: Remote, calls: seq<Call>) {
    forall i | 0 <= i < |calls| :: Tolerated(calls[i], Reply(Played(r, calls[..i]), calls[i]))
  }

  /** The result goes on exactly when every call made since `r` was answered well. */
  ghost predicate Accounts(r: Remote, result: Result) {
    var q := result.pass.remote;
    Logged(r, q) && (result.flow.Going? <==> Smooth(r, q.log[|r.log|..]))
  }

  lemma SmoothOn(r: Remote, a: seq<Call>, b: seq<Call>)
    ensures Smooth(r, a + b) <==> Smooth(r, a) && Smooth(Played(r, a), b)
  {
    hide Tolerated, Reply, Played;
    forall i | 0 <= i < |a|
      ensures (a + b)[..i] == a[..i] && (a + b)[i] == a[i]
    {
    }
    forall i | 0 <= i < |b|
      ensures Played(r, (a + b)[..|a| + i]) == Played(Played(r, a), b[..i]) && (a + b)[|a| + i] == b[i]
    {
      assert (a + b)[..|a| + i] == a + b[..i];
      PlayedOn(r, a, b[..i]);
    }
    if Smooth(r, a + b) {
      forall i | 0 <= i < |a|
        ensures Tolerated(a[i], Reply(Played(r, a[..i]), a[i]))
      {
        assert Tolerated((a + b)[i], Reply(Played(r, (a + b)[..i]), (a + b)[i]));
      }
      forall i | 0 <= i < |b|
        ensures Tolerated(b[i], Reply(Played(Played(r, a), b[..i]), b[i]))
      {
        assert Tolerated((a + b)[|a| + i], Reply(Played(r, (a + b)[..|a| + i]), (a + b)[|a| + i]));
      }
    }
    if Smooth(r, a) && Smooth(Played(r, a), b) {
      forall i | 0 <= i < |a + b|
        ensures Tolerated((a + b)[i], Reply(Played(r, (a + b)[..i]), (a + b)[i]))
      {
        if i >= |a| {
          assert (a + b)[|a| + (i - |a|)] == b[i - |a|];
        }
      }
    }
  }

  lemma AccountsOn(r: Remote, first: Result, second: Result)
    requires Accounts(r, first) && first.flow.Going? && Accounts(first.pass.remote, second)
    ensures Accounts(r, second)
  {
    hide Smooth, Played;
    var a := first.pass.remote.log[|r.log|..];
    var b := second.pass.remote.log[|first.pass.remote.log|..];
    PlayedLog(first.pass.remote, b);
    PlayedLog(r, a);
    assert second.pass.remote.log[|r.log|..] == a + b;
    PlayedOn(r, a, b);
    SmoothOn(r, a, b);
  }

  lemma AccountsNone(p: Pass)
    ensures Accounts(p.remote, Result(p, Going))
  {
    assert p.remote.log[|p.remote.log|..] == [];
  }

  lemma AccountsOne(p: Pass, c: Call)
    ensures !c.DeleteRemoteFile? ==> Accounts(p.remote, Remove(p, c))
    ensures c.DeleteRemoteFile? ==> Accounts(p.remote, RemoveQuietly(p, c))
  {
    hide HostAfter, AnswerUnder;
    var r := p.remote;
    assert Send(r, c).log[|r.log|..] == [c] && [c][..0] == [];
    assert Played(r, [c]) == Send(Played(r, []), c);
    assert Smooth(r, [c]) <==> Tolerated([c][0], Reply(Played(r, [c][..0]), [c][0]));
  }

  lemma {:induction false} RemoveDisksAccounts(m: Machine, n: nat, p: Pass)
    requires n <= |m.disks|
    ensures Accounts(p.remote, RemoveDisks(m, n, p))
  {
    hide Accounts, Remove;
    if n == 0 {
      AccountsNone(p);
    } else {
      RemoveDisksAccounts(m, n - 1, p);
      var r, d := RemoveDisks(m, n - 1, p), m.disks[n - 1];
      if r.flow.Going? {
        AccountsOne(r.pass, DeleteVolume(d.storagePool, DiskVolume(m, d)));
        AccountsOn(p.remote, r, RemoveDisks(m, n, p));
      }
    }
  }

  lemma RemoveVolumesAccounts(m: Machine, p: Pass)
    ensures Accounts(p.remote, RemoveVolumes(m, p))
  {
    hide Accounts, Remove, RemoveQuietly, RemoveDisks;
    var a := Remove(p, DeleteVolume(WorkPool(m), RootVolume(m)));
    AccountsOne(p, DeleteVolume(WorkPool(m), RootVolume(m)));
    if a.flow.Going? {
      var b := RemoveBootstrap(m, a.pass);
      AccountsNone(a.pass);
      AccountsOne(a.pass, DeleteRemoteFile(IgnitionPath(m)));
      AccountsOne(a.pass, DeleteVolume(WorkPool(m), IsoVolume(m)));
      AccountsOn(p.remote, a, b);
      if b.flow.Going? {
        RemoveDisksAccounts(m, |m.disks|, b.pass);
        AccountsOn(p.remote, b, RemoveDisks(m, |m.disks|, b.pass));
      }
    }
  }

  /** The finalizer waits for every call: under every schedule of faults a deletion pass on a host that
      can be reached releases it if and only if each call it made was answered by success or by "not
      found", that on the ignition file aside. */
  lemma ReleasedExactly(m: Machine, x: Inputs, p: Pass)
    requires x.hostReady && x.clients
    ensures Accounts(p.remote, Delete(m, x, p))
  {
    hide Accounts, Remove, RemoveVolumes;
    var d := Remove(p, DestroyDomain(BaseName(m)));
    AccountsOne(p, DestroyDomain(BaseName(m)));
    if d.flow.Going? {
      AccountsOne(d.pass, UndefineDomain(BaseName(m)));
      AccountsOn(p.remote, d, RemoveDomain(m, p));
    }
    var a := RemoveDomain(m, p);
    if a.flow.Going? {
      var b := RemoveVolumes(m, a.pass);
      RemoveVolumesAccounts(m, a.pass);
      AccountsOn(p.remote, a, b);
      if b.flow.Going? && m.ephemeral {
        AccountsOne(b.pass, DestroyPool(EphemeralPool(m)));
        AccountsOn(p.remote, b, Delete(m, x, p));
      }
    }
  }

  /** So a pass that releases it met no fault, except at the ignition file. */
  lemma ReleaseMeetsNoFault(m: Machine, x: Inputs, p: Pass, i: nat)
    requires Delete(m, x, p).flow.Going? && |p.remote.log| + i < |Delete(m, x, p).pass.remote.log|
    ensures var c := Delete(m, x, p).pass.remote.log[|p.remote.log| + i];
            FaultAt(p.remote.faults, i).Fine? || c.DeleteRemoteFile?
  {
    hide Delete, Played, TrueAnswer, HostAfter;
    assert x.hostReady && x.clients by { DeleteNeedsHost(m, x, p); }
    ReleasedExactly(m, x, p);
    var r := p.remote;
    var calls := Delete(m, x, p).pass.remote.log[|r.log|..];
    assert Tolerated(calls[i], Reply(Played(r, calls[..i]), calls[i]));
    PlayedLog(r, calls[..i]);
  }

  lemma DeleteNeedsHost(m: Machine, x: Inputs, p: Pass)
    requires Delete(m, x, p).flow.Going?
    ensures x.hostReady && x.clients
  {
    hide RemoveDomain, RemoveVolumes;
  }

  // ----- What a releasing pass did -----

  /** The calls of a deletion that gets through: the domain is stopped and undefined, then the root disk,
      the bootstrap data, the additional disks in order and the ephemeral pool are removed. */
  function ReleasingCalls(m: Machine): seq<Call> {
    [DestroyDomain(BaseName(m)), UndefineDomain(BaseName(m)), DeleteVolume(WorkPool(m), RootVolume(m))]
    + (match m.format
       case Ignition => [DeleteRemoteFile(IgnitionPath(m))]
       case CloudInit => [DeleteVolume(WorkPool(m), IsoVolume(m))]
       case Unsupported => [])
    + seq(|m.disks|, i requires 0 <= i < |m.disks| =>
        DeleteVolume(m.disks[i].storagePool, BaseName(m) + "-" + m.disks[i].name + ".qcow2"))
    + (if m.ephemeral then [DestroyPool(EphemeralPool(m))] else [])
  }

  lemma {:induction false} RemoveDisksLog(m: Machine, n: nat, p: Pass)
    requires n <= |m.disks| && RemoveDisks(m, n, p).flow.Going?
    ensures RemoveDisks(m, n, p).pass.remote.log == p.remote.log + seq(n, i requires 0 <= i < n =>
                DeleteVolume(m.disks[i].storagePool, BaseName(m) + "-" + m.disks[i].name + ".qcow2"))
  {
    hide HostAfter, AnswerUnder, BaseName;
    if n > 0 {
      RemoveDisksLog(m, n - 1, p);
    }
  }

  lemma RemoveVolumesLog(m: Machine, p: Pass)
    requires RemoveVolumes(m, p).flow.Going?
    ensures RemoveVolumes(m, p).pass.remote.log == p.remote.log + [DeleteVolume(WorkPool(m), RootVolume(m))]
        + (match m.format
           case Ignition => [DeleteRemoteFile(IgnitionPath(m))]
           case CloudInit => [DeleteVolume(WorkPool(m), IsoVolume(m))]
           case Unsupported => [])
        + seq(|m.disks|, i requires 0 <= i < |m.disks| =>
            DeleteVolume(m.disks[i].storagePool, BaseName(m) + "-" + m.disks[i].name + ".qcow2"))
  {
    hide HostAfter, AnswerUnder, BaseName, RemoveDisks, WorkPool, RootVolume, IsoVolume, IgnitionPath;
    var a := Remove(p, DeleteVolume(WorkPool(m), RootVolume(m)));
    RemoveDisksLog(m, |m.disks|, RemoveBootstrap(m, a.pass).pass);
  }

  /** Under every schedule of faults, a deletion pass that releases the finalizer made exactly these calls,
      in this order. */
  lemma ReleaseMakesAllCalls(m: Machine, x: Inputs, p: Pass)
    requires Delete(m, x, p).flow.Going?
    ensures Delete(m, x, p).pass.remote.log == p.remote.log + ReleasingCalls(m)
  {
    hide HostAfter, AnswerUnder, BaseName, RemoveVolumes, WorkPool, RootVolume, IsoVolume, IgnitionPath, EphemeralPool;
    RemoveVolumesLog(m, RemoveDomain(m, p).pass);
  }

  /** The ignition file, with the bootstrap data, is gone when the finalizer is released, unless its removal
      met a fault: nothing else is allowed to fail. */
  lemma ReleaseRemovesIgnitionFile(m: Machine, x: Inputs, p: Pass)
    requires Delete(m, x, p).flow.Going? && m.format.Ignition?
    ensures IgnitionPath(m) in Delete(m, x, p).pass.remote.host.files ==>
              FaultAt(p.remote.faults, 3).Broken? && !FaultAt(p.remote.faults, 3).extent.All?
    ensures |ReleasingCalls(m)| > 3 && ReleasingCalls(m)[3] == DeleteRemoteFile(IgnitionPath(m))
  {
    hide RemoveVolumes, RemoveDomain, IgnitionPath, RootVolume, IsoVolume;
    var a := RemoveDomain(m, p);
    var b := RemoveVolumes(m, a.pass);
    RemoveDomainFaults(m, p);
    BootstrapFileGone(m, a.pass);
    if m.ephemeral {
      TakingAddsNothing(m, b.pass.remote, DestroyPool(EphemeralPool(m)));
    }
  }

  lemma RemoveDomainFaults(m: Machine, p: Pass)
    requires RemoveDomain(m, p).flow.Going?
    ensures FaultAt(RemoveDomain(m, p).pass.remote.faults, 1) == FaultAt(p.remote.faults, 3)
  {
    hide HostAfter, AnswerUnder;
  }

  lemma BootstrapFileGone(m: Machine, p: Pass)
    requires RemoveVolumes(m, p).flow.Going? && m.format.Ignition?
    ensures IgnitionPath(m) in RemoveVolumes(m, p).pass.remote.host.files ==>
              FaultAt(p.remote.faults, 1).Broken? && !FaultAt(p.remote.faults, 1).extent.All?
  {
    hide RemoveDisks, Takes, TrueAnswer, WorkPool, RootVolume, IgnitionPath;
    var a := Remove(p, DeleteVolume(WorkPool(m), RootVolume(m)));
    var b := RemoveQuietly(a.pass, DeleteRemoteFile(IgnitionPath(m)));
    RemovesFile(a.pass.remote, IgnitionPath(m));
    RemoveDisksAddsNothing(m, |m.disks|, b.pass);
  }

  lemma RemovesFile(r: Remote, path: string)
    ensures path in Send(r, DeleteRemoteFile(path)).host.files ==>
              NextFault(r.faults).Broken? && !NextFault(r.faults).extent.All?
  {
  }
}
