/** What a pass does to the volumes of an ephemeral pool that is there: exactly when they are lost. */
module PoolLoss {
  import opened LibvirtHost
  import opened LibvirtMachine
  import opened Provisioning
  import opened PassCalls
  import opened Life
  import opened Convergence
  import Outcomes

  // ----- A pass as the calls it makes -----

  ghost predicate LoggedAs(g: Mode, start: Remote, r: Remote) {
    Logged(start, r) && forall i | |start.log| <= i < |r.log| :: Allowed(g, r.log[i])
  }

  lemma LoggedAsByCall(g: Mode, start: Remote, r: Remote, c: Call)
    requires LoggedAs(g, start, r) && Allowed(g, c)
    ensures LoggedAs(g, start, Send(r, c))
  {
    hide HostAfter, Logged, Allowed;
    LoggedCall(start, r, c);
  }

  lemma LoggedAtStart(r: Remote)
    ensures Logged(r, r)
  {
    assert r.log[|r.log|..] == [];
  }

  /** Under every schedule of faults, the host a pass leaves is what the calls of its log made of it, and
      each of them is one that a pass may make. */
  lemma PassIsItsCalls(m: Machine, x: Inputs, p: Pass)
    requires p == Begin(m, p.remote, p.failure, p.ready)
    ensures LoggedAs(AnyMode(m, x), p.remote, Normal(m, x, p).pass.remote)
  {
    hide Normal, LoggedAs, Allowed, HostAfter, AutoSize;
    var g := AnyMode(m, x);
    var inv := (r: Remote) => LoggedAs(g, p.remote, r);
    forall r: Remote, c | LoggedAs(g, p.remote, r) && Allowed(g, c)
      ensures LoggedAs(g, p.remote, Send(r, c))
    {
      LoggedAsByCall(g, p.remote, r, c);
    }
    assert inv(p.remote) by { NoCallsYet(g, p.remote); }
    NormalKeeps(g, p, inv, c => Allowed(g, c));
  }

  lemma NoCallsYet(g: Mode, r: Remote)
    ensures LoggedAs(g, r, r)
  {
    hide Allowed, Logged;
    LoggedAtStart(r);
  }

  // ----- When a volume of the ephemeral pool is lost -----

  /** The call removes the ephemeral pool, with everything in it. */
  predicate Wipes(m: Machine, c: Call, f: Fault) {
    c == DestroyPool(EphemeralPool(m)) && (f.Fine? || f.extent.All?)
  }

  ghost predicate StoredInPool(h: Host, k: Key, v: Volume) { k.pool in h.pools && Stored(h, k, v) }

  lemma LossByCall(g: Mode, h: Host, c: Call, f: Fault, k: Key, v: Volume)
    requires InEphemeral(g.m, k.pool) && StoredInPool(h, k, v) && Allowed(g, c)
    ensures if Wipes(g.m, c, f) then k !in HostAfter(h, c, f).volumes else StoredInPool(HostAfter(h, c, f), k, v)
  {
    hide EphemeralPool, EphemeralPath, IgnitionPath, BootPath, BaseName, Touchable, Removed, IsImageKey, Faithful,
         Defines, OutsideDir;
    if !c.DestroyPool? && !c.CreateTmpfsPool? {
      OtherCallsLoseNothing(h, c, f, k, v);
    }
  }

  lemma OtherCallsLoseNothing(h: Host, c: Call, f: Fault, k: Key, v: Volume)
    requires StoredInPool(h, k, v) && !c.DestroyPool? && !c.CreateTmpfsPool? && !c.DeleteVolume?
    ensures StoredInPool(HostAfter(h, c, f), k, v)
  {
    hide HostAfter;
    VolumesAfter(h, c, f);
    PoolsAfter(h, c, f);
  }

  ghost predicate StoredThroughout(r: Remote, calls: seq<Call>, k: Key, v: Volume) {
    forall i | 0 <= i <= |calls| :: Stored(Played(r, calls[..i]).host, k, v)
  }

  ghost predicate NeverWiped(m: Machine, r: Remote, calls: seq<Call>) {
    forall i | 0 <= i < |calls| :: !Wipes(m, calls[i], FaultAt(r.faults, i))
  }

  lemma {:induction false} LossOverCalls(g: Mode, r: Remote, calls: seq<Call>, k: Key, v: Volume)
    requires InEphemeral(g.m, k.pool) && StoredInPool(r.host, k, v)
    requires forall i | 0 <= i < |calls| :: Allowed(g, calls[i])
    ensures StoredThroughout(r, calls, k, v) <==> NeverWiped(g.m, r, calls)
    ensures NeverWiped(g.m, r, calls) ==> StoredInPool(Played(r, calls).host, k, v)
  {
    hide HostAfter, Allowed, Wipes, InEphemeral, Stored, Played;
    if calls == [] {
      assert Played(r, []) == r by { NothingPlayed(r); }
    } else {
      var n := |calls| - 1;
      var front, c := calls[..n], calls[n];
      var q := Played(r, front);
      LossOverCalls(g, r, front, k, v);
      assert forall i | 0 <= i <= n :: front[..i] == calls[..i];
      assert calls[..n + 1] == calls;
      PlayedLog(r, front);
      assert Played(r, calls) == Send(q, c) by { OneMore(r, calls); }
      assert NeverWiped(g.m, r, calls) <==> NeverWiped(g.m, r, front) && !Wipes(g.m, c, FaultAt(r.faults, n));
      assert StoredThroughout(r, calls, k, v) <==>
          StoredThroughout(r, front, k, v) && Stored(Played(r, calls[..n + 1]).host, k, v);
      if NeverWiped(g.m, r, front) {
        LossByCall(g, q.host, c, FaultAt(r.faults, n), k, v);
        if Wipes(g.m, c, FaultAt(r.faults, n)) { AbsentIsNotStored(Send(q, c).host, k, v); }
      }
    }
  }

  lemma AbsentIsNotStored(h: Host, k: Key, v: Volume)
    requires k !in h.volumes
    ensures !Stored(h, k, v)
  {
  }

  lemma NothingPlayed(r: Remote)
    ensures Played(r, []) == r
  {
  }

  lemma OneMore(r: Remote, calls: seq<Call>)
    requires calls != []
    ensures Played(r, calls) == Send(Played(r, calls[..|calls| - 1]), calls[|calls| - 1])
  {
    hide Send;
  }

  /** Exactly when a pass loses a volume of the ephemeral pool: under every schedule of faults it is there,
      unchanged, after each call of the pass if and only if no call destroys the pool. */
  lemma LostExactlyWhenDestroyed(m: Machine, x: Inputs, p: Pass, k: Key, v: Volume)
    requires p == Begin(m, p.remote, p.failure, p.ready)
    requires InEphemeral(m, k.pool) && StoredInPool(p.remote.host, k, v)
    ensures var end := Normal(m, x, p).pass.remote;
            && Logged(p.remote, end)
            && (StoredThroughout(p.remote, end.log[|p.remote.log|..], k, v)
                <==> NeverWiped(m, p.remote, end.log[|p.remote.log|..]))
  {
    hide Normal, Allowed, Played, Stored, Wipes, AutoSize;
    PassIsItsCalls(m, x, p);
    LossOverCalls(AnyMode(m, x), p.remote, Normal(m, x, p).pass.remote.log[|p.remote.log|..], k, v);
  }

  // ----- When a pass destroys it -----

  /** Each call that destroys a pool comes right after a start of the pool that failed. */
  ghost predicate DestroysAfterFailedStart(m: Machine, start: Remote, r: Remote) {
    && Logged(start, r)
    && forall i | |start.log| <= i < |r.log| && r.log[i].DestroyPool? ::
         && i > |start.log| && r.log[i - 1] == StartPool(EphemeralPool(m))
         && Reply(Played(start, r.log[|start.log|..i - 1]), r.log[i - 1]).Err?
  }

  lemma TameCall(m: Machine, start: Remote, r: Remote, c: Call)
    requires DestroysAfterFailedStart(m, start, r) && !c.DestroyPool?
    ensures DestroysAfterFailedStart(m, start, Send(r, c))
  {
    hide HostAfter, AnswerUnder, EphemeralPool, Logged;
    LoggedCall(start, r, c);
    var q := Send(r, c);
    forall i | |start.log| <= i < |q.log| && q.log[i].DestroyPool?
      ensures i > |start.log| && q.log[i - 1] == StartPool(EphemeralPool(m))
          && Reply(Played(start, q.log[|start.log|..i - 1]), q.log[i - 1]).Err?
    {
      assert i < |r.log| && q.log[i] == r.log[i];
      assert q.log[|start.log|..i - 1] == r.log[|start.log|..i - 1];
    }
  }

  lemma TameDestroy(m: Machine, start: Remote, r: Remote)
    requires DestroysAfterFailedStart(m, start, r) && Reply(r, StartPool(EphemeralPool(m))).Err?
    ensures DestroysAfterFailedStart(m, start,
                Send(Send(r, StartPool(EphemeralPool(m))), DestroyPool(EphemeralPool(m))))
  {
    hide HostAfter, AnswerUnder, EphemeralPool, Played;
    var c, d := StartPool(EphemeralPool(m)), DestroyPool(EphemeralPool(m));
    TameCall(m, start, r, c);
    LoggedCall(start, Send(r, c), d);
    var s, q := Send(r, c), Send(Send(r, c), d);
    forall i | |start.log| <= i < |q.log| && q.log[i].DestroyPool?
      ensures i > |start.log| && q.log[i - 1] == c && Reply(Played(start, q.log[|start.log|..i - 1]), q.log[i - 1]).Err?
    {
      if i == |q.log| - 1 {
        assert q.log[|start.log|..i - 1] == r.log[|start.log|..];
      } else {
        assert q.log[i] == s.log[i] && q.log[|start.log|..i - 1] == s.log[|start.log|..i - 1];
      }
    }
  }

  lemma EnsurePoolTame(m: Machine, start: Remote, p: Pass)
    requires DestroysAfterFailedStart(m, start, p.remote)
    ensures DestroysAfterFailedStart(m, start, EnsurePool(p, EphemeralPool(m), EphemeralPath(m)).pass.remote)
  {
    hide Send, Reply, DestroysAfterFailedStart, EphemeralPool, EphemeralPath;
    var pool, path := EphemeralPool(m), EphemeralPath(m);
    var r0 := p.remote;
    TameCall(m, start, r0, PoolExists(pool));
    var r1 := Send(r0, PoolExists(pool));
    TameCall(m, start, r1, CreateTmpfsPool(pool, path));
    TameCall(m, start, r1, PoolIsActive(pool));
    var r2 := Send(r1, PoolIsActive(pool));
    TameCall(m, start, r2, StartPool(pool));
    if Reply(r2, StartPool(pool)).Err? {
      TameDestroy(m, start, r2);
      TameCall(m, start, Send(Send(r2, StartPool(pool)), DestroyPool(pool)), CreateTmpfsPool(pool, path));
    }
  }

  lemma TameIsKept(g: Mode, start: Remote)
    requires !g.strict && g.phase > 0
    ensures Kept(g, (r: Remote) => DestroysAfterFailedStart(g.m, start, r), c => Allowed(g, c))
  {
    hide HostAfter, DestroysAfterFailedStart, Within, Faithful, Defines;
    forall r: Remote, c | DestroysAfterFailedStart(g.m, start, r) && Allowed(g, c)
      ensures DestroysAfterFailedStart(g.m, start, Send(r, c))
    {
      TameCall(g.m, start, r, c);
    }
  }

  lemma RootedTame(g: Mode, start: Remote, p: Pass)
    requires p == Begin(g.m, p.remote, p.failure, p.ready) && !g.strict && g.phase == 1
    requires DestroysAfterFailedStart(g.m, start, p.remote)
    ensures DestroysAfterFailedStart(g.m, start, StageImage(g.m, g.x, p).pass.remote)
    ensures DestroysAfterFailedStart(g.m, start, Rooted(g.m, g.x, p).pass.remote)
  {
    hide DestroysAfterFailedStart, Kept, StageImage, EnsurePool, EnsureVolume, EphemeralPool, EphemeralPath, Allowed;
    var m, q := g.m, StageImage(g.m, g.x, p).pass;
    var inv, ok := (r: Remote) => DestroysAfterFailedStart(m, start, r), (c: Call) => Allowed(g, c);
    TameIsKept(g, start);
    StageImageKeeps(g, p, inv, ok);
    if m.ephemeral {
      EnsurePoolTame(m, start, q);
      EnsurePoolFields(q, EphemeralPool(m), EphemeralPath(m));
    }
    var r := if m.ephemeral then EnsurePool(q, EphemeralPool(m), EphemeralPath(m)) else Result(q, Going);
    if r.flow.Going? {
      RootVolumeKeeps(g, r.pass, inv, ok);
    }
  }

  lemma ProvisionTame(g: Mode, start: Remote, p: Pass)
    requires p == Begin(g.m, p.remote, p.failure, p.ready) && Loose(g) && g.phase == 1
    requires DestroysAfterFailedStart(g.m, start, p.remote)
    ensures DestroysAfterFailedStart(g.m, start, Provision(g.m, g.x, p, g.size).pass.remote)
  {
    hide DestroysAfterFailedStart, Kept, StageImage, Rooted, Bootstrapping, Disked, Booted, Provision, RunDomain,
         Allowed;
    var inv, ok := (r: Remote) => DestroysAfterFailedStart(g.m, start, r), (c: Call) => Allowed(g, c);
    RootedTame(g, start, p);
    ProvisionUnfolds(g.m, g.x, p, g.size);
    if !Stops(StageImage(g.m, g.x, p).flow) && !Stops(Rooted(g.m, g.x, p).flow) {
      TameIsKept(g, start);
      Outcomes.RestOfProvisionKeeps(g, p, inv, ok);
    }
  }

  /** And a pass destroys it only then: under every schedule of faults, right after a start that failed. */
  lemma DestroyedOnlyAfterFailedStart(m: Machine, x: Inputs, p: Pass)
    requires p == Begin(m, p.remote, p.failure, p.ready)
    ensures DestroysAfterFailedStart(m, p.remote, Normal(m, x, p).pass.remote)
  {
    hide Normal, DestroysAfterFailedStart, CheckPools, FirstMentions, ReferencedPools, Kept, Provision, AutoSize,
         Allowed, Send, Reply;
    var g := AnyMode(m, x).(phase := 1);
    var inv, ok := (r: Remote) => DestroysAfterFailedStart(m, p.remote, r), (c: Call) => Allowed(g, c);
    assert inv(p.remote) by { NothingDestroyedYet(m, p.remote); }
    TameIsKept(g, p.remote);
    var list := FirstMentions(ReferencedPools(m));
    TameQueries(g, p.remote, list);
    CheckPoolsKeeps(list, p, inv, ok);
    NormalUnfolds(m, x, p);
    if Reaches(m, x, p) {
      ProvisionTame(g, p.remote, Preflight(m, p).pass);
    }
  }

  lemma NothingDestroyedYet(m: Machine, r: Remote)
    ensures DestroysAfterFailedStart(m, r, r)
  {
    hide Logged, Played;
    LoggedAtStart(r);
  }

  lemma TameQueries(g: Mode, start: Remote, list: seq<Required>)
    requires !g.strict && g.phase > 0
    ensures Closed((r: Remote) => DestroysAfterFailedStart(g.m, start, r), c => Allowed(g, c))
    ensures forall i | 0 <= i < |list| :: Allowed(g, PoolExists(list[i].pool))
  {
    hide DestroysAfterFailedStart, Allowed, Send;
    TameIsKept(g, start);
    forall i | 0 <= i < |list|
      ensures Allowed(g, PoolExists(list[i].pool))
    {
      AllowsQuery(g, PoolExists(list[i].pool));
    }
  }

  /** It need not be the tmpfs that is gone: any failing start of an inactive pool, one worth a retry
      included, costs the machine everything it has there. */
  lemma FailedStartWipesPool(m: Machine, p: Pass, k: Key)
    requires m.ephemeral && k.pool == EphemeralPool(m) && k in p.remote.host.volumes
    requires EphemeralPool(m) in p.remote.host.pools && !p.remote.host.pools[EphemeralPool(m)].active
    requires p.remote.faults == [Fine, Fine, Broken(Nothing, Transient)]
    ensures var r := EnsurePool(p, EphemeralPool(m), EphemeralPath(m));
            r.flow.Going? && r.pass.failure == p.failure && k !in r.pass.remote.host.volumes
  {
    hide EphemeralPool, EphemeralPath, OutsideDir;
    var pool := EphemeralPool(m);
    var r1 := Send(p.remote, PoolExists(pool));
    assert r1.host == p.remote.host && r1.faults == [Fine, Broken(Nothing, Transient)];
    var r2 := Send(r1, PoolIsActive(pool));
    assert r2.host == p.remote.host && r2.faults == [Broken(Nothing, Transient)];
    var r3 := Send(r2, StartPool(pool));
    assert r3.host == p.remote.host && r3.faults == [];
  }
}
