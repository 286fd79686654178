/** What preflightPools checks, and what it concludes. */
module Preflight {
  import opened Common
  import opened LibvirtHost
  import opened LibvirtMachine
  import opened Provisioning

  ghost predicate NoRepeats(list: seq<Required>) {
    forall i, j | 0 <= i < j < |list| :: list[i].pool != list[j].pool
  }

  /** Index `i` of `list` is the first mention of its pool. */
  ghost predicate FirstMention(list: seq<Required>, i: nat) {
    i < |list| && list[i].pool != "" && forall j | 0 <= j < i :: list[j].pool != list[i].pool
  }

  /** The pools to check are the non-empty names of the list, each once. */
  lemma {:induction false} FirstMentionsExact(list: seq<Required>)
    ensures NoRepeats(FirstMentions(list))
    ensures forall pool :: Names(FirstMentions(list), pool) <==> pool != "" && Names(list, pool)
    ensures forall i | 0 <= i < |FirstMentions(list)| :: FirstMentions(list)[i] in list
  {
    if list != [] {
      var front, r := list[..|list| - 1], list[|list| - 1];
      FirstMentionsExact(front);
      var kept := FirstMentions(front);
      assert list == front + [r];
      assert forall pool :: Names(list, pool) <==> Names(front, pool) || pool == r.pool by { NamesOfAppend(front, r); }
      NamesOfAppend(kept, r);
    }
  }

  lemma NamesOfAppend(list: seq<Required>, r: Required)
    ensures forall pool :: Names(list + [r], pool) <==> Names(list, pool) || pool == r.pool
  {
    forall pool
      ensures Names(list + [r], pool) <==> Names(list, pool) || pool == r.pool
    {
      if Names(list, pool) {
        var i :| 0 <= i < |list| && list[i].pool == pool;
        assert (list + [r])[i].pool == pool;
      }
      assert (list + [r])[|list|] == r;
    }
  }

  /** The reason kept for a pool is the one of its first mention. */
  lemma {:induction false} FirstMentionWins(list: seq<Required>, i: nat)
    requires FirstMention(list, i)
    ensures list[i] in FirstMentions(list)
  {
    var front := list[..|list| - 1];
    if i < |front| {
      assert FirstMention(front, i);
      FirstMentionWins(front, i);
    } else {
      FirstMentionsExact(front);
      assert !Names(front, list[i].pool);
    }
  }

  /** Without faults, preflight gives up exactly when a pool is missing, with the reason of the
      first missing one, and otherwise lets the pass go on unchanged. */
  lemma {:induction false} CheckPoolsVerdict(list: seq<Required>, p: Pass)
    requires p.remote.faults == []
    ensures var r := CheckPools(list, p);
            && r.pass.remote.host == p.remote.host && r.pass.remote.faults == []
            && (r.flow.Going? <==> forall i | 0 <= i < |list| :: list[i].pool in p.remote.host.pools)
            && (r.flow.Going? ==> r.pass.failure == p.failure)
            && (!r.flow.Going? ==> r.flow.Skipped? && exists i ::
                  && 0 <= i < |list| && list[i].pool !in p.remote.host.pools
                  && (forall j | 0 <= j < i :: list[j].pool in p.remote.host.pools)
                  && r.pass.failure == Some(list[i].reason) && !r.pass.ready)
  {
    hide Effect;
    if list != [] {
      var c := PoolExists(list[0].pool);
      assert Send(p.remote, c).host == p.remote.host by { QueryChangesNothing(p.remote.host, list[0].pool); }
      if list[0].pool in p.remote.host.pools {
        var rest, q := list[1..], After(p, c);
        CheckPoolsVerdict(rest, q);
        assert forall i | 0 < i < |list| :: list[i] == rest[i - 1];
        var r := CheckPools(rest, q);
        assert CheckPools(list, p) == r;
        if !r.flow.Going? {
          var i :| && 0 <= i < |rest| && rest[i].pool !in p.remote.host.pools
                   && (forall j | 0 <= j < i :: rest[j].pool in p.remote.host.pools)
                   && r.pass.failure == Some(rest[i].reason) && !r.pass.ready;
          assert list[i + 1] == rest[i];
        }
      } else {
        assert list[0].pool !in p.remote.host.pools;
      }
    }
  }

  lemma QueryChangesNothing(h: Host, pool: string)
    ensures !TrueAnswer(h, PoolExists(pool)).Err? && Effect(h, PoolExists(pool)) == h
  {
  }

  lemma ReferencedPoolsExact(m: Machine)
    ensures forall pool :: Names(ReferencedPools(m), pool) <==> Refers(m, pool)
  {
    var list := ReferencedPools(m);
    var a := if m.clusterImage.Some? then [Required(m.clusterImage.value.pool, "BaseImagePoolNotFound")] else [];
    var b := if m.ephemeral then [] else [Required(m.storagePool, "StoragePoolNotFound")];
    forall pool | Refers(m, pool)
      ensures Names(list, pool)
    {
      if exists i | 0 <= i < |m.disks| :: pool == m.disks[i].storagePool {
        var i :| 0 <= i < |m.disks| && pool == m.disks[i].storagePool;
        assert list[|a| + 1 + |b| + i].pool == pool;
      } else if pool == BasePool(m) {
        assert list[|a|].pool == pool;
      } else if m.clusterImage.Some? && pool == m.clusterImage.value.pool {
        assert list[0].pool == pool;
      } else {
        assert list[|a| + 1].pool == pool;
      }
    }
  }

  /** Preflight of a machine, without faults: it goes on exactly when every pool the machine
      refers to (empty names aside) exists. */
  lemma PreflightExact(m: Machine, p: Pass)
    requires p.remote.faults == []
    ensures Provisioning.Preflight(m, p).flow.Going? <==>
              forall pool | Refers(m, pool) && pool != "" :: pool in p.remote.host.pools
  {
    hide FirstMentions, ReferencedPools, CheckPools, Refers;
    var list := FirstMentions(ReferencedPools(m));
    FirstMentionsExact(ReferencedPools(m));
    ReferencedPoolsExact(m);
    CheckPoolsVerdict(list, p);
    if forall i | 0 <= i < |list| :: list[i].pool in p.remote.host.pools {
      forall pool | Refers(m, pool) && pool != ""
        ensures pool in p.remote.host.pools
      {
        assert Names(list, pool);
        var i :| 0 <= i < |list| && list[i].pool == pool;
      }
    } else {
      var i :| 0 <= i < |list| && list[i].pool !in p.remote.host.pools;
      assert Names(list, list[i].pool);
    }
  }

  // ----- Which pool is blamed -----

  lemma {:induction false} FirstMentionsGrow(a: seq<Required>, b: seq<Required>)
    ensures FirstMentions(a) <= FirstMentions(a + b)
    ensures forall i | |FirstMentions(a)| <= i < |FirstMentions(a + b)| :: FirstMentions(a + b)[i] in b
  {
    if b == [] {
      assert a + b == a;
    } else {
      var n := |b| - 1;
      assert (a + b)[..|a| + n] == a + b[..n];
      FirstMentionsGrow(a, b[..n]);
      assert forall r | r in b[..n] :: r in b;
    }
  }

  /** A pool that a base image is looked for in: the cluster's, or the machine's own. */
  ghost predicate ImagePool(m: Machine, pool: string) {
    || (m.clusterImage.Some? && pool == m.clusterImage.value.pool)
    || pool == (if m.baseImagePool != "" then m.baseImagePool else m.storagePool)
  }

  function ImageRequirements(m: Machine): seq<Required> {
    (if m.clusterImage.Some? then [Required(m.clusterImage.value.pool, "BaseImagePoolNotFound")] else [])
    + [Required(if m.baseImagePool != "" then m.baseImagePool else m.storagePool, "BaseImagePoolNotFound")]
  }

  function StorageRequirements(m: Machine): seq<Required> {
    (if m.ephemeral then [] else [Required(m.storagePool, "StoragePoolNotFound")])
    + seq(|m.disks|, i requires 0 <= i < |m.disks| => Required(m.disks[i].storagePool, "StoragePoolNotFound"))
  }

  lemma RequirementsInTwoParts(m: Machine)
    ensures ReferencedPools(m) == ImageRequirements(m) + StorageRequirements(m)
    ensures forall r | r in ImageRequirements(m) :: r.reason == "BaseImagePoolNotFound" && ImagePool(m, r.pool)
    ensures forall r | r in StorageRequirements(m) :: r.reason == "StoragePoolNotFound"
    ensures forall pool | ImagePool(m, pool) :: Names(ImageRequirements(m), pool)
  {
    var list := ImageRequirements(m);
    assert list[|list| - 1].pool == (if m.baseImagePool != "" then m.baseImagePool else m.storagePool);
    assert m.clusterImage.Some? ==> list[0].pool == m.clusterImage.value.pool;
  }

  /** Without faults, preflight that gives up blames the base image's pool if and only if one of the pools a
      base image is looked for in is missing, and a storage pool otherwise. */
  lemma PreflightBlames(m: Machine, p: Pass)
    requires p.remote.faults == [] && !Provisioning.Preflight(m, p).flow.Going?
    ensures var r := Provisioning.Preflight(m, p);
            && r.flow.Skipped? && !r.pass.ready
            && r.pass.failure == Some(
                if exists pool :: ImagePool(m, pool) && pool != "" && pool !in p.remote.host.pools
                then "BaseImagePoolNotFound" else "StoragePoolNotFound")
  {
    hide FirstMentions, ReferencedPools, CheckPools, ImagePool, ImageRequirements, StorageRequirements, Names;
    var images, storage := ImageRequirements(m), StorageRequirements(m);
    RequirementsInTwoParts(m);
    FirstMentionsGrow(images, storage);
    FirstMentionsExact(images);
    var first, list := FirstMentions(images), FirstMentions(images + storage);
    CheckPoolsVerdict(list, p);
    var pools := p.remote.host.pools;
    var i :| && 0 <= i < |list| && list[i].pool !in pools && (forall j | 0 <= j < i :: list[j].pool in pools)
             && Provisioning.Preflight(m, p).pass.failure == Some(list[i].reason);
    if i < |first| {
      assert list[i] == first[i] && first[i] in images;
      NamedHere(first, i);
      assert ImagePool(m, list[i].pool) && list[i].pool != "";
    } else {
      forall pool | ImagePool(m, pool) && pool != ""
        ensures pool in pools
      {
        var j := IndexOf(first, pool);
        assert list[j] == first[j];
      }
    }
  }

  lemma NamedHere(list: seq<Required>, i: nat)
    requires i < |list|
    ensures Names(list, list[i].pool)
  {
  }

  lemma IndexOf(list: seq<Required>, pool: string) returns (i: nat)
    requires Names(list, pool)
    ensures i < |list| && list[i].pool == pool
  {
    i :| 0 <= i < |list| && list[i].pool == pool;
  }
}
