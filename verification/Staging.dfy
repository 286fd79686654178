/** Concurrent staging of base images (reconcileBaseImage): any number of reconciles check for
    the volume, fetch the image, take the mutex of (host, digest), check again and upload.  An upload
    creates the volume first and fills it later; when filling fails it tries to delete the volume.
    Every interleaving of their steps, with failing checks, fetches and uploads and with restarts of
    the controller, is a sequence of events. */
module Staging {

  datatype Target = Target(host: string, pool: string, volume: string)

  datatype Pc =
    | Arrived
    | Fetching
    | Waiting(mutex: nat)
    | Holding(mutex: nat)
    | Uploading(mutex: nat)
    | Filling(mutex: nat)
    | Returned(outcome: Outcome)

  /** An error to retry, or nil; a refusal is recorded as a failure of the machine and returned as
      nil, so that the caller goes on. */
  datatype Outcome = Error | Nil(failed: bool)

  /** How a call is answered: it works, it is refused for good, or it breaks and may be retried. */
  datatype Reply = Works | Refused | Breaks

  datatype Proc = Proc(target: Target, pc: Pc)

  /** A volume is being filled, was left unfilled for good, or holds the image. */
  datatype Content = Partial | Torn | Whole

  /** `mutexes` is the sync.Map of mutexes, `holders` tells who holds which, and `filled` lists the volumes
      that uploads filled. */
  datatype State = State(
    procs: map<nat, Proc>,
    mutexes: map<string, nat>,
    holders: map<nat, nat>,
    volumes: map<Target, Content>,
    filled: seq<Target>)

  /** What a failing upload leaves: it deletes the volume, fails to, or had filled it before. */
  datatype Remains = Deleted | Damaged | Complete

  /** `works` is false for a fetch that fails; a failing creation may still have made the volume.  A
      restart forgets all reconciles and mutexes; a call it cuts off failed just before. */
  datatype Event =
    | Arrive(p: nat, target: Target)
    | Check(p: nat, reply: Reply)
    | Fetch(p: nat, works: bool)
    | Lock(p: nat)
    | Recheck(p: nat, reply: Reply)
    | Create(p: nat, reply: Reply, made: bool)
    | Fill(p: nat, reply: Reply, remains: Remains)
    | Restart

  function UploadKey(host: string, digest: string): string { host + "|" + digest }

  /** The key tells host and digest apart: a hex digest contains no bar. */
  lemma UploadKeyInjective(h: string, d: string, h': string, d': string)
    requires '|' !in d && '|' !in d'
    requires UploadKey(h, d) == UploadKey(h', d')
    ensures h == h' && d == d'
  {
    var k := UploadKey(h, d);
    assert k[|h|] == '|' && k[|h'|] == '|';
    assert forall i | |h| < i < |k| :: k[i] == d[i - |h| - 1];
    assert forall i | |h'| < i < |k| :: k[i] == d'[i - |h'| - 1];
    assert |h| == |h'|;
    assert k[..|h|] == h && k[..|h'|] == h' && k[|h| + 1..] == d && k[|h'| + 1..] == d';
  }

  predicate Inside(pc: Pc) { pc.Holding? || pc.Uploading? || pc.Filling? }

  predicate Knows(pc: Pc) { pc.Waiting? || Inside(pc) }

  function Moved(s: State, p: nat, pc: Pc): State
    requires p in s.procs
  {
    s.(procs := s.procs[p := s.procs[p].(pc := pc)])
  }

  /** Return from the critical section. */
  function Left(s: State, p: nat, outcome: Outcome): State
    requires p in s.procs && Inside(s.procs[p].pc)
  {
    Moved(s, p, Returned(outcome)).(holders := s.holders - {s.procs[p].pc.mutex})
  }

  /** What handleLibvirtError makes of a failing call. */
  function Handled(reply: Reply): Outcome { if reply.Refused? then Nil(true) else Error }

  /** The first number no mutex has yet. */
  function NewMutex(s: State): nat { |s.mutexes| }

  /** `digest` is the digest of the image each volume is staged from. */
  function Step(digest: Target -> string, s: State, e: Event): State {
    match e
    case Arrive(p, t) => if p in s.procs then s else s.(procs := s.procs[p := Proc(t, Arrived)])
    case Check(p, reply) =>
      if p !in s.procs || !s.procs[p].pc.Arrived? then s
      else if !reply.Works? then Moved(s, p, Returned(Handled(reply)))
      else if s.procs[p].target in s.volumes then Moved(s, p, Returned(Nil(false)))
      else Moved(s, p, Fetching)
    case Fetch(p, works) =>
      if p !in s.procs || !s.procs[p].pc.Fetching? then s
      else if !works then Moved(s, p, Returned(Error))
      else
        // LoadOrStore: the stored mutex if there is one, a new one otherwise.
        var key := UploadKey(s.procs[p].target.host, digest(s.procs[p].target));
        var stored := if key in s.mutexes then s.mutexes else s.mutexes[key := NewMutex(s)];
        Moved(s, p, Waiting(stored[key])).(mutexes := stored)
    case Lock(p) =>
      if p !in s.procs || !s.procs[p].pc.Waiting? || s.procs[p].pc.mutex in s.holders then s
      else Moved(s, p, Holding(s.procs[p].pc.mutex)).(holders := s.holders[s.procs[p].pc.mutex := p])
    case Recheck(p, reply) =>
      if p !in s.procs || !s.procs[p].pc.Holding? then s
      else if !reply.Works? then Left(s, p, Handled(reply))
      else if s.procs[p].target in s.volumes then Left(s, p, Nil(false))
      else Moved(s, p, Uploading(s.procs[p].pc.mutex))
    case Create(p, reply, made) =>
      if p !in s.procs || !s.procs[p].pc.Uploading? then s
      else
        var t := s.procs[p].target;
        // A volume that is there already is a refusal.
        if t in s.volumes then Left(s, p, Nil(true))
        else if reply.Works? then
          Moved(s, p, Filling(s.procs[p].pc.mutex)).(volumes := s.volumes[t := Partial])
        else
          Left(s, p, Handled(reply)).(volumes := if made then s.volumes[t := Torn] else s.volumes)
    case Fill(p, reply, remains) =>
      if p !in s.procs || !s.procs[p].pc.Filling? then s
      else
        var t := s.procs[p].target;
        if reply.Works? || remains.Complete? then
          Left(s, p, if reply.Works? then Nil(false) else Handled(reply)).(
            volumes := s.volumes[t := Whole], filled := s.filled + [t])
        else
          Left(s, p, Handled(reply)).(
            volumes := if remains.Deleted? then s.volumes - {t} else s.volumes[t := Torn])
    case Restart => State(map[], map[], map[], CutOff(s.volumes), s.filled)
  }

  /** Volumes that were being filled stay unfilled. */
  function CutOff(volumes: map<Target, Content>): map<Target, Content> {
    map t | t in volumes :: if volumes[t].Partial? then Torn else volumes[t]
  }

  function Run(digest: Target -> string, s: State, events: seq<Event>): State {
    if events == [] then s
    else Step(digest, Run(digest, s, events[..|events| - 1]), events[|events| - 1])
  }

  function Start(volumes: set<Target>): State {
    State(map[], map[], map[], map t | t in volumes :: Whole, [])
  }

  // ----- Invariant -----

  function KeyOf(digest: Target -> string, t: Target): string { UploadKey(t.host, digest(t)) }

  /** The mutex stored for the image of this target. */
  predicate HasMutex(digest: Target -> string, s: State, t: Target, u: nat) {
    KeyOf(digest, t) in s.mutexes && s.mutexes[KeyOf(digest, t)] == u
  }

  /** Everyone past the fetch has the stored mutex of its key, and mutexes are told apart. */
  ghost predicate MutexesShared(digest: Target -> string, s: State) {
    && (forall p | p in s.procs && Knows(s.procs[p].pc) ::
          HasMutex(digest, s, s.procs[p].target, s.procs[p].pc.mutex))
    && (forall k | k in s.mutexes :: s.mutexes[k] < |s.mutexes|)
    && (forall k, l | k in s.mutexes && l in s.mutexes && s.mutexes[k] == s.mutexes[l] :: k == l)
  }

  /** A mutex is held by the one reconcile that is inside under it. */
  ghost predicate HeldByInsiders(s: State) {
    && (forall p | p in s.procs && Inside(s.procs[p].pc) ::
          s.procs[p].pc.mutex in s.holders && s.holders[s.procs[p].pc.mutex] == p)
    && (forall u | u in s.holders ::
          && s.holders[u] in s.procs
          && Inside(s.procs[s.holders[u]].pc) && s.procs[s.holders[u]].pc.mutex == u)
  }

  predicate Fills(s: State, p: nat, t: Target) {
    p in s.procs && s.procs[p].pc.Filling? && s.procs[p].target == t
  }

  /** A volume is partial exactly while somebody fills it, and nobody creates one that is there. */
  ghost predicate VolumesRespected(s: State) {
    && (forall p | p in s.procs && s.procs[p].pc.Uploading? :: s.procs[p].target !in s.volumes)
    && (forall p | p in s.procs && s.procs[p].pc.Filling? :: Holds(s.volumes, s.procs[p].target, Partial))
    && (forall t | t in s.volumes && s.volumes[t].Partial? :: exists p :: Fills(s, p, t))
  }

  predicate Holds(volumes: map<Target, Content>, t: Target, c: Content) { t in volumes && volumes[t] == c }

  ghost predicate UploadsHonest(s: State) {
    && (forall i | 0 <= i < |s.filled| :: Holds(s.volumes, s.filled[i], Whole))
    && (forall i, j | 0 <= i < j < |s.filled| :: s.filled[i] != s.filled[j])
  }

  ghost predicate Safe(digest: Target -> string, s: State) {
    MutexesShared(digest, s) && HeldByInsiders(s) && VolumesRespected(s) && UploadsHonest(s)
  }

  /** Mutual exclusion: two reconciles inside under the same key are one. */
  lemma OneInside(digest: Target -> string, s: State, p: nat, q: nat)
    requires MutexesShared(digest, s) && HeldByInsiders(s)
    requires p in s.procs && q in s.procs && Inside(s.procs[p].pc) && Inside(s.procs[q].pc)
    requires KeyOf(digest, s.procs[p].target) == KeyOf(digest, s.procs[q].target)
    ensures p == q
  {
    hide KeyOf;
  }

  lemma MutexesMoved(digest: Target -> string, s: State, s': State, p: nat, pc: Pc)
    requires MutexesShared(digest, s) && p in s.procs && s'.mutexes == s.mutexes
    requires s'.procs == s.procs[p := s.procs[p].(pc := pc)]
    requires Knows(pc) ==> HasMutex(digest, s, s.procs[p].target, pc.mutex)
    ensures MutexesShared(digest, s')
  {
    hide KeyOf;
  }

  lemma KnownMutex(digest: Target -> string, s: State, p: nat)
    requires MutexesShared(digest, s) && p in s.procs && Knows(s.procs[p].pc)
    ensures HasMutex(digest, s, s.procs[p].target, s.procs[p].pc.mutex)
  {
    hide KeyOf;
  }

  /** Moves that neither enter nor leave an upload. */
  lemma VolumesMoved(s: State, s': State, p: nat, pc: Pc)
    requires VolumesRespected(s) && p in s.procs && s'.volumes == s.volumes
    requires s'.procs == s.procs[p := s.procs[p].(pc := pc)]
    requires !s.procs[p].pc.Filling? && !pc.Filling?
    requires pc.Uploading? ==> s.procs[p].target !in s.volumes
    ensures VolumesRespected(s')
  {
    forall t | t in s'.volumes && s'.volumes[t].Partial?
      ensures exists q :: Fills(s', q, t)
    {
      var q :| Fills(s, q, t);
      assert Fills(s', q, t);
    }
  }

  /** Moves outside the critical section. */
  lemma MoveIsSafe(digest: Target -> string, s: State, p: nat, pc: Pc)
    requires Safe(digest, s) && p in s.procs && !Inside(s.procs[p].pc) && !Inside(pc)
    requires pc.Waiting? ==> HasMutex(digest, s, s.procs[p].target, pc.mutex)
    ensures Safe(digest, Moved(s, p, pc))
  {
    hide KeyOf, UploadsHonest, MutexesShared, VolumesRespected;
    MutexesMoved(digest, s, Moved(s, p, pc), p, pc);
    VolumesMoved(s, Moved(s, p, pc), p, pc);
    HonestStays(s, Moved(s, p, pc));
  }

  lemma HonestStays(s: State, s': State)
    requires UploadsHonest(s) && s'.filled == s.filled && s'.volumes == s.volumes
    ensures UploadsHonest(s')
  {
  }

  /** Mutexes when somebody leaves the critical section. */
  lemma LeaveFrees(digest: Target -> string, s: State, s': State, p: nat, outcome: Outcome)
    requires MutexesShared(digest, s) && HeldByInsiders(s) && p in s.procs && Inside(s.procs[p].pc)
    requires var left := Left(s, p, outcome);
             s'.procs == left.procs && s'.mutexes == left.mutexes && s'.holders == left.holders
    ensures MutexesShared(digest, s') && HeldByInsiders(s')
  {
    hide KeyOf, MutexesShared;
    MutexesMoved(digest, s, s', p, Returned(outcome));
  }

  lemma LeaveIsSafe(digest: Target -> string, s: State, p: nat, outcome: Outcome)
    requires Safe(digest, s) && p in s.procs && s.procs[p].pc.Holding?
    ensures Safe(digest, Left(s, p, outcome))
  {
    hide KeyOf, UploadsHonest, MutexesShared, HeldByInsiders, VolumesRespected;
    LeaveFrees(digest, s, Left(s, p, outcome), p, outcome);
    VolumesMoved(s, Left(s, p, outcome), p, Returned(outcome));
    HonestStays(s, Left(s, p, outcome));
  }

  lemma StoreIsSafe(digest: Target -> string, s: State, key: string)
    requires Safe(digest, s) && key !in s.mutexes
    ensures Safe(digest, s.(mutexes := s.mutexes[key := NewMutex(s)]))
  {
    hide KeyOf, UploadsHonest, VolumesRespected, HeldByInsiders;
    var s' := s.(mutexes := s.mutexes[key := NewMutex(s)]);
    assert |s'.mutexes| == |s.mutexes| + 1;
    HonestStays(s, s');
    assert VolumesRespected(s') && HeldByInsiders(s') by { OnlyMutexesDiffer(s, s'); }
  }

  lemma OnlyMutexesDiffer(s: State, s': State)
    requires s'.(mutexes := s.mutexes) == s && VolumesRespected(s) && HeldByInsiders(s)
    ensures VolumesRespected(s') && HeldByInsiders(s')
  {
    forall t | t in s'.volumes && s'.volumes[t].Partial?
      ensures exists q :: Fills(s', q, t)
    {
      var q :| Fills(s, q, t);
      assert Fills(s', q, t);
    }
  }

  lemma FetchStep(digest: Target -> string, s: State, p: nat)
    requires Safe(digest, s) && p in s.procs && s.procs[p].pc.Fetching?
    ensures Safe(digest, Step(digest, s, Fetch(p, true)))
  {
    hide UploadKey, Safe;
    var key := KeyOf(digest, s.procs[p].target);
    var stored := if key in s.mutexes then s else s.(mutexes := s.mutexes[key := NewMutex(s)]);
    if key !in s.mutexes {
      StoreIsSafe(digest, s, key);
    }
    MoveIsSafe(digest, stored, p, Waiting(stored.mutexes[key]));
  }

  lemma LockStep(digest: Target -> string, s: State, p: nat)
    requires Safe(digest, s)
    ensures Safe(digest, Step(digest, s, Lock(p)))
  {
    hide KeyOf, UploadsHonest, MutexesShared, VolumesRespected;
    var s' := Step(digest, s, Lock(p));
    HonestStays(s, s');
    if p in s.procs && s.procs[p].pc.Waiting? && s.procs[p].pc.mutex !in s.holders {
      KnownMutex(digest, s, p);
      MutexesMoved(digest, s, s', p, Holding(s.procs[p].pc.mutex));
      VolumesMoved(s, s', p, Holding(s.procs[p].pc.mutex));
    }
  }

  /** Moves within the critical section. */
  lemma InsideMoves(digest: Target -> string, s: State, s': State, p: nat, pc: Pc)
    requires MutexesShared(digest, s) && HeldByInsiders(s) && p in s.procs && Inside(s.procs[p].pc)
    requires Inside(pc) && pc.mutex == s.procs[p].pc.mutex
    requires s'.procs == s.procs[p := s.procs[p].(pc := pc)] && s'.mutexes == s.mutexes && s'.holders == s.holders
    ensures MutexesShared(digest, s') && HeldByInsiders(s')
  {
    hide KeyOf, MutexesShared;
    KnownMutex(digest, s, p);
    MutexesMoved(digest, s, s', p, pc);
  }

  lemma RecheckStep(digest: Target -> string, s: State, p: nat, reply: Reply)
    requires Safe(digest, s) && p in s.procs && s.procs[p].pc.Holding?
    ensures Safe(digest, Step(digest, s, Recheck(p, reply)))
  {
    hide KeyOf, UploadsHonest, MutexesShared, HeldByInsiders, VolumesRespected;
    var s' := Step(digest, s, Recheck(p, reply));
    if !reply.Works? || s.procs[p].target in s.volumes {
      LeaveIsSafe(digest, s, p, if reply.Works? then Nil(false) else Handled(reply));
    } else {
      HonestStays(s, s');
      InsideMoves(digest, s, s', p, Uploading(s.procs[p].pc.mutex));
      VolumesMoved(s, s', p, Uploading(s.procs[p].pc.mutex));
    }
  }

  /** Nobody else is inside an upload of the same volume. */
  ghost predicate Alone(s: State, p: nat, t: Target) {
    forall q | q in s.procs && q != p && Inside(s.procs[q].pc) :: s.procs[q].target != t
  }

  lemma InsideAlone(digest: Target -> string, s: State, p: nat)
    requires MutexesShared(digest, s) && HeldByInsiders(s) && p in s.procs && Inside(s.procs[p].pc)
    ensures Alone(s, p, s.procs[p].target)
  {
    hide MutexesShared, HeldByInsiders;
    forall q | q in s.procs && q != p && Inside(s.procs[q].pc)
      ensures s.procs[q].target != s.procs[p].target
    {
      if s.procs[q].target == s.procs[p].target {
        OneInside(digest, s, p, q);
      }
    }
  }

  /** What `p` does to its own volume does not concern the others. */
  lemma UploadRespects(s: State, s': State, p: nat, pc: Pc)
    requires VolumesRespected(s) && p in s.procs && Inside(s.procs[p].pc) && Alone(s, p, s.procs[p].target)
    requires s'.procs == s.procs[p := s.procs[p].(pc := pc)]
    requires forall t | t != s.procs[p].target ::
               (t in s'.volumes <==> t in s.volumes) && (t in s.volumes ==> s'.volumes[t] == s.volumes[t])
    requires !pc.Uploading? && (pc.Filling? <==> Holds(s'.volumes, s.procs[p].target, Partial))
    ensures VolumesRespected(s')
  {
    forall t | t in s'.volumes && s'.volumes[t].Partial?
      ensures exists q :: Fills(s', q, t)
    {
      if t == s.procs[p].target {
        assert Fills(s', p, t);
      } else {
        var q :| Fills(s, q, t);
        assert Fills(s', q, t);
      }
    }
  }

  /** A volume that is not whole may change without making the list untrue. */
  lemma HonestChange(s: State, s': State, t: Target)
    requires UploadsHonest(s) && !Holds(s.volumes, t, Whole) && s'.filled == s.filled
    requires forall u | u != t && u in s.volumes :: u in s'.volumes && s'.volumes[u] == s.volumes[u]
    ensures UploadsHonest(s')
  {
  }

  lemma HonestFilling(s: State, s': State, t: Target)
    requires UploadsHonest(s) && !Holds(s.volumes, t, Whole) && s'.volumes == s.volumes[t := Whole]
    requires s'.filled == s.filled + [t]
    ensures UploadsHonest(s')
  {
  }

  lemma CreateStep(digest: Target -> string, s: State, p: nat, reply: Reply, made: bool)
    requires Safe(digest, s) && p in s.procs && s.procs[p].pc.Uploading?
    ensures Safe(digest, Step(digest, s, Create(p, reply, made)))
  {
    hide KeyOf, UploadKey, MutexesShared, HeldByInsiders, UploadsHonest;
    var s', t := Step(digest, s, Create(p, reply, made)), s.procs[p].target;
    InsideAlone(digest, s, p);
    HonestChange(s, s', t);
    if reply.Works? {
      InsideMoves(digest, s, s', p, Filling(s.procs[p].pc.mutex));
      UploadRespects(s, s', p, Filling(s.procs[p].pc.mutex));
    } else {
      LeaveFrees(digest, s, s', p, Handled(reply));
      UploadRespects(s, s', p, Returned(Handled(reply)));
    }
  }

  lemma FillStep(digest: Target -> string, s: State, p: nat, reply: Reply, remains: Remains)
    requires Safe(digest, s) && p in s.procs && s.procs[p].pc.Filling?
    ensures Safe(digest, Step(digest, s, Fill(p, reply, remains)))
  {
    hide KeyOf, UploadKey, MutexesShared, HeldByInsiders, UploadsHonest;
    var s', t := Step(digest, s, Fill(p, reply, remains)), s.procs[p].target;
    var outcome := if reply.Works? then Nil(false) else Handled(reply);
    InsideAlone(digest, s, p);
    assert !Holds(s.volumes, t, Whole);
    LeaveFrees(digest, s, s', p, outcome);
    UploadRespects(s, s', p, Returned(outcome));
    if reply.Works? || remains.Complete? {
      HonestFilling(s, s', t);
    } else {
      HonestChange(s, s', t);
    }
  }

  lemma ArriveStep(digest: Target -> string, s: State, e: Event)
    requires Safe(digest, s) && e.Arrive? && e.p !in s.procs
    ensures Safe(digest, Step(digest, s, e))
  {
    hide KeyOf, UploadKey, UploadsHonest;
    var s' := Step(digest, s, e);
    HonestStays(s, s');
    forall t | t in s'.volumes && s'.volumes[t].Partial?
      ensures exists q :: Fills(s', q, t)
    {
      var q :| Fills(s, q, t);
      assert Fills(s', q, t);
    }
  }

  lemma RestartStep(digest: Target -> string, s: State)
    requires Safe(digest, s)
    ensures Safe(digest, Step(digest, s, Restart))
  {
    hide KeyOf, UploadKey;
    var s' := Step(digest, s, Restart);
    assert forall t | Holds(s.volumes, t, Whole) :: Holds(s'.volumes, t, Whole);
  }

  lemma QuietSteps(digest: Target -> string, s: State, e: Event)
    requires Safe(digest, s) && (e.Check? || (e.Fetch? && !e.works))
    ensures Safe(digest, Step(digest, s, e))
  {
    hide KeyOf, UploadKey, Safe;
    if e.Check? && e.p in s.procs && s.procs[e.p].pc.Arrived? {
      MoveIsSafe(digest, s, e.p, Step(digest, s, e).procs[e.p].pc);
    }
    if e.Fetch? && e.p in s.procs && s.procs[e.p].pc.Fetching? {
      MoveIsSafe(digest, s, e.p, Returned(Error));
    }
  }

  lemma StepIsSafe(digest: Target -> string, s: State, e: Event)
    requires Safe(digest, s)
    ensures Safe(digest, Step(digest, s, e))
  {
    hide Safe, KeyOf, UploadKey;
    match e
    case Create(p, reply, made) =>
      if p in s.procs && s.procs[p].pc.Uploading? { CreateStep(digest, s, p, reply, made); }
    case Fill(p, reply, remains) =>
      if p in s.procs && s.procs[p].pc.Filling? { FillStep(digest, s, p, reply, remains); }
    case Fetch(p, true) =>
      if p in s.procs && s.procs[p].pc.Fetching? { FetchStep(digest, s, p); }
    case Arrive(p, _) =>
      if p !in s.procs { ArriveStep(digest, s, e); }
    case Lock(p) => LockStep(digest, s, p);
    case Recheck(p, reply) =>
      if p in s.procs && s.procs[p].pc.Holding? { RecheckStep(digest, s, p, reply); }
    case Restart => RestartStep(digest, s);
    case _ => QuietSteps(digest, s, e);
  }

  /** Over every interleaving of any number of reconciles, failures and restarts, with nobody else
      touching the volumes: mutual exclusion under each (host, digest); no creation over an existing
      volume; a volume partial exactly while somebody fills it; at most one upload fills each volume. */
  lemma {:induction false} StagingIsSafe(digest: Target -> string, volumes: set<Target>, events: seq<Event>)
    ensures Safe(digest, Run(digest, Start(volumes), events))
  {
    hide Safe, Step;
    if events == [] {
      StartIsSafe(digest, volumes);
    } else {
      StagingIsSafe(digest, volumes, events[..|events| - 1]);
      StepIsSafe(digest, Run(digest, Start(volumes), events[..|events| - 1]), events[|events| - 1]);
    }
  }

  lemma StartIsSafe(digest: Target -> string, volumes: set<Target>)
    ensures Safe(digest, Start(volumes))
  {
  }

  lemma WholeStaysOnce(digest: Target -> string, s: State, e: Event, t: Target)
    requires VolumesRespected(s) && Holds(s.volumes, t, Whole)
    ensures Holds(Step(digest, s, e).volumes, t, Whole)
  {
    hide UploadKey;
    if e.Create? && e.p in s.procs && s.procs[e.p].pc.Uploading? {
      assert s.procs[e.p].target != t;
    }
    if e.Fill? && e.p in s.procs && s.procs[e.p].pc.Filling? {
      assert s.procs[e.p].target != t;
    }
  }

  /** A volume that holds the image holds it from then on, whatever happens. */
  lemma {:induction false} WholeStays(
    digest: Target -> string, volumes: set<Target>, events: seq<Event>, more: seq<Event>, t: Target)
    requires Holds(Run(digest, Start(volumes), events).volumes, t, Whole)
    ensures Holds(Run(digest, Start(volumes), events + more).volumes, t, Whole)
  {
    hide Step, MutexesShared, HeldByInsiders, UploadsHonest, Holds;
    if more == [] {
      assert events + more == events;
    } else {
      var n := |more| - 1;
      assert (events + more)[..|events| + n] == events + more[..n] && (events + more)[|events| + n] == more[n];
      WholeStays(digest, volumes, events, more[..n], t);
      StagingIsSafe(digest, volumes, events + more[..n]);
      WholeStaysOnce(digest, Run(digest, Start(volumes), events + more[..n]), more[n], t);
    }
  }

  /** The staging protocol in one statement, for one volume: at most one upload ever fills it, nobody is
      about to create it while it is there, and one reconcile is inside at a time. */
  lemma StagedAtMostOnce(digest: Target -> string, volumes: set<Target>, events: seq<Event>, t: Target)
    ensures var s := Run(digest, Start(volumes), events);
            && multiset(s.filled)[t] <= 1
            && (t in s.filled ==> Holds(s.volumes, t, Whole))
            && (forall p | p in s.procs && s.procs[p].pc.Uploading? && s.procs[p].target == t :: t !in s.volumes)
            && (forall p, q | p in s.procs && q in s.procs && Inside(s.procs[p].pc) && Inside(s.procs[q].pc)
                              && s.procs[p].target == s.procs[q].target == t :: p == q)
  {
    hide Run, KeyOf;
    StagingIsSafe(digest, volumes, events);
    var s := Run(digest, Start(volumes), events);
    DistinctCount(s.filled, t);
    forall p, q | p in s.procs && q in s.procs && Inside(s.procs[p].pc) && Inside(s.procs[q].pc)
                  && s.procs[p].target == s.procs[q].target == t
      ensures p == q
    {
      OneInside(digest, s, p, q);
    }
  }

  lemma {:induction false} DistinctCount(list: seq<Target>, t: Target)
    requires forall i, j | 0 <= i < j < |list| :: list[i] != list[j]
    ensures multiset(list)[t] <= 1
  {
    if list != [] {
      var front := list[..|list| - 1];
      DistinctCount(front, t);
      assert list == front + [list[|list| - 1]];
      if list[|list| - 1] == t {
        assert t !in front;
      }
    }
  }

  // ----- What nil means -----

  /** The event refuses a call that `p` is waiting for. */
  predicate RefusedAt(s: State, e: Event, p: nat) {
    p in s.procs &&
    match e
    case Check(q, reply) => q == p && reply.Refused? && s.procs[p].pc.Arrived?
    case Recheck(q, reply) => q == p && reply.Refused? && s.procs[p].pc.Holding?
    case Create(q, reply, _) => q == p && reply.Refused? && s.procs[p].pc.Uploading?
    case Fill(q, reply, _) => q == p && reply.Refused? && s.procs[p].pc.Filling?
    case _ => false
  }

  /** The event tells `p` that the volume exists. */
  predicate FoundAt(s: State, e: Event, p: nat) {
    && p in s.procs && s.procs[p].target in s.volumes
    && ((e == Check(p, Works) && s.procs[p].pc.Arrived?) || (e == Recheck(p, Works) && s.procs[p].pc.Holding?))
  }

  /** It exists and does not hold the image. */
  predicate MisledAt(s: State, e: Event, p: nat) { FoundAt(s, e, p) && s.volumes[s.procs[p].target] != Whole }

  /** Since the last restart, such an event happened to `p`. */
  ghost predicate Happened(
    digest: Target -> string, s: State, events: seq<Event>, p: nat, what: (State, Event, nat) -> bool)
  {
    events != [] &&
    var front, last := events[..|events| - 1], events[|events| - 1];
    !last.Restart? && (Happened(digest, s, front, p, what) || what(Run(digest, s, front), last, p))
  }

  ghost predicate WasRefused(digest: Target -> string, s: State, events: seq<Event>, p: nat) {
    Happened(digest, s, events, p, RefusedAt)
  }

  ghost predicate WasMisled(digest: Target -> string, s: State, events: seq<Event>, p: nat) {
    Happened(digest, s, events, p, MisledAt)
  }

  predicate Is(s: State, p: nat, pc: Pc) { p in s.procs && s.procs[p].pc == pc }

  /** At most this reconcile moves; it keeps its target, and stays when it has returned. */
  predicate OnlyMoves(s: State, s': State, p: nat) {
    || s'.procs == s.procs
    || (&& p in s'.procs && s'.procs == s.procs[p := s'.procs[p]]
        && (p in s.procs ==> s'.procs[p].target == s.procs[p].target && !s.procs[p].pc.Returned?))
  }

  lemma EarlyEventMoves(digest: Target -> string, s: State, e: Event)
    requires e.Arrive? || e.Check? || e.Fetch? || e.Lock?
    ensures OnlyMoves(s, Step(digest, s, e), e.p)
  {
    hide UploadKey;
  }

  lemma InsideEventMoves(digest: Target -> string, s: State, e: Event)
    requires e.Recheck? || e.Create? || e.Fill?
    ensures OnlyMoves(s, Step(digest, s, e), e.p)
  {
  }

  /** Other reconciles stay where they are. */
  lemma OthersStay(digest: Target -> string, s: State, e: Event, p: nat)
    requires !e.Restart? && e.p != p
    ensures var s' := Step(digest, s, e);
            (p in s'.procs <==> p in s.procs) && (p in s.procs ==> s'.procs[p] == s.procs[p])
  {
    hide Step;
    if e.Recheck? || e.Create? || e.Fill? { InsideEventMoves(digest, s, e); } else { EarlyEventMoves(digest, s, e); }
  }

  lemma FailedByCheck(digest: Target -> string, s: State, e: Event)
    requires e.Check? || e.Recheck?
    ensures Is(Step(digest, s, e), e.p, Returned(Nil(true)))
        <==> Is(s, e.p, Returned(Nil(true))) || RefusedAt(s, e, e.p)
  {
  }

  lemma FailedByUpload(digest: Target -> string, s: State, e: Event)
    requires VolumesRespected(s) && (e.Create? || e.Fill?)
    ensures Is(Step(digest, s, e), e.p, Returned(Nil(true)))
        <==> Is(s, e.p, Returned(Nil(true))) || RefusedAt(s, e, e.p)
  {
  }

  lemma FailedByNothingElse(digest: Target -> string, s: State, e: Event)
    requires e.Arrive? || e.Fetch? || e.Lock?
    ensures Is(Step(digest, s, e), e.p, Returned(Nil(true))) <==> Is(s, e.p, Returned(Nil(true)))
  {
    hide UploadKey;
  }

  lemma FailedByEvent(digest: Target -> string, s: State, e: Event, p: nat)
    requires VolumesRespected(s) && !e.Restart?
    ensures Is(Step(digest, s, e), p, Returned(Nil(true))) <==> Is(s, p, Returned(Nil(true))) || RefusedAt(s, e, p)
  {
    hide Step, VolumesRespected;
    if e.p != p {
      OthersStay(digest, s, e, p);
    } else if e.Check? || e.Recheck? {
      FailedByCheck(digest, s, e);
    } else if e.Create? || e.Fill? {
      FailedByUpload(digest, s, e);
    } else {
      FailedByNothingElse(digest, s, e);
    }
  }

  /** A reconcile returns nil with a failure recorded if and only if one of its calls was refused. */
  lemma {:induction false} FailedExactlyWhenRefused(
    digest: Target -> string, volumes: set<Target>, events: seq<Event>, p: nat)
    ensures Is(Run(digest, Start(volumes), events), p, Returned(Nil(true)))
        <==> WasRefused(digest, Start(volumes), events, p)
  {
    hide Step, RefusedAt, MutexesShared, HeldByInsiders, UploadsHonest;
    if events != [] {
      var front, last := events[..|events| - 1], events[|events| - 1];
      FailedExactlyWhenRefused(digest, volumes, front, p);
      StagingIsSafe(digest, volumes, front);
      if last.Restart? {
        RestartForgets(digest, Run(digest, Start(volumes), front));
      } else {
        FailedByEvent(digest, Run(digest, Start(volumes), front), last, p);
      }
    }
  }

  lemma RestartForgets(digest: Target -> string, s: State)
    ensures Step(digest, s, Restart).procs == map[]
  {
  }

  /** Whom an answer misleads, exactly: in every state of every run, the check without the lock finds a
      volume that does not hold the image if and only if somebody is just filling it or an upload left it
      torn; the check under the lock if and only if it is torn. */
  lemma MisledExactly(digest: Target -> string, volumes: set<Target>, events: seq<Event>, e: Event, p: nat)
    requires FoundAt(Run(digest, Start(volumes), events), e, p)
    ensures var s := Run(digest, Start(volumes), events);
            var t := s.procs[p].target;
            && (e.Check? ==> (MisledAt(s, e, p) <==> (exists q :: Fills(s, q, t)) || s.volumes[t].Torn?))
            && (e.Recheck? ==> (MisledAt(s, e, p) <==> s.volumes[t].Torn?))
  {
    hide Run, KeyOf;
    StagingIsSafe(digest, volumes, events);
    var s := Run(digest, Start(volumes), events);
    var t := s.procs[p].target;
    if q :| Fills(s, q, t) {
      assert Holds(s.volumes, t, Partial);
      if e.Recheck? { OneInside(digest, s, p, q); }
    }
  }

  /** The event tears no volume: uploads are not cut off, and what a failing one made it deletes. */
  predicate Tidy(e: Event) {
    match e
    case Create(_, reply, made) => reply.Works? || !made
    case Fill(_, reply, remains) => reply.Works? || !remains.Damaged?
    case Restart => false
    case _ => true
  }

  predicate NothingTorn(s: State) { forall t | t in s.volumes :: !s.volumes[t].Torn? }

  lemma TidyTearsNothing(digest: Target -> string, s: State, e: Event)
    requires Tidy(e) && NothingTorn(s)
    ensures NothingTorn(Step(digest, s, e))
  {
    hide UploadKey;
  }

  /** So where uploads are tidy, the check under the lock misleads nobody. */
  lemma {:induction false} TidyRunTearsNothing(digest: Target -> string, volumes: set<Target>, events: seq<Event>)
    requires forall e | e in events :: Tidy(e)
    ensures NothingTorn(Run(digest, Start(volumes), events))
    ensures forall p :: !MisledAt(Run(digest, Start(volumes), events), Recheck(p, Works), p)
  {
    hide Step, Tidy;
    if events != [] {
      var front, last := events[..|events| - 1], events[|events| - 1];
      assert last in events && forall e | e in front :: e in events;
      TidyRunTearsNothing(digest, volumes, front);
      TidyTearsNothing(digest, Run(digest, Start(volumes), front), last);
    }
    var s := Run(digest, Start(volumes), events);
    forall p
      ensures !MisledAt(s, Recheck(p, Works), p)
    {
      if FoundAt(s, Recheck(p, Works), p) {
        MisledExactly(digest, volumes, events, Recheck(p, Works), p);
      }
    }
  }

  lemma NilByOwnCall(digest: Target -> string, s: State, e: Event)
    requires VolumesRespected(s) && !e.Restart? && !Is(s, e.p, Returned(Nil(false)))
    requires Is(Step(digest, s, e), e.p, Returned(Nil(false)))
    ensures FoundAt(s, e, e.p) || Holds(Step(digest, s, e).volumes, Step(digest, s, e).procs[e.p].target, Whole)
  {
    hide UploadKey;
  }

  lemma ReturnedStays(digest: Target -> string, s: State, e: Event, p: nat)
    requires !e.Restart? && p in s.procs && s.procs[p].pc.Returned?
    ensures p in Step(digest, s, e).procs && Step(digest, s, e).procs[p] == s.procs[p]
  {
    hide Step;
    if e.Recheck? || e.Create? || e.Fill? { InsideEventMoves(digest, s, e); } else { EarlyEventMoves(digest, s, e); }
  }

  lemma FoundVolumeStays(digest: Target -> string, s: State, e: Event, p: nat)
    requires FoundAt(s, e, p) && s.volumes[s.procs[p].target] == Whole
    ensures Holds(Step(digest, s, e).volumes, Step(digest, s, e).procs[p].target, Whole)
  {
    hide UploadKey;
  }

  /** What nil with no failure recorded is worth: the volume holds the image, then and from then on, unless
      the reconcile was misled. */
  lemma {:induction false} NilMeansWhole(
    digest: Target -> string, volumes: set<Target>, events: seq<Event>, p: nat)
    requires Is(Run(digest, Start(volumes), events), p, Returned(Nil(false)))
    requires !WasMisled(digest, Start(volumes), events, p)
    ensures var s := Run(digest, Start(volumes), events); Holds(s.volumes, s.procs[p].target, Whole)
  {
    hide Step, MutexesShared, HeldByInsiders, UploadsHonest, Holds, VolumesRespected, FoundAt;
    if events != [] {
      var front, last := events[..|events| - 1], events[|events| - 1];
      var s := Run(digest, Start(volumes), front);
      StagingIsSafe(digest, volumes, front);
      if last.Restart? {
        RestartForgets(digest, s);
      } else if Is(s, p, Returned(Nil(false))) {
        NilMeansWhole(digest, volumes, front, p);
        ReturnedStays(digest, s, last, p);
        WholeStaysOnce(digest, s, last, s.procs[p].target);
      } else if last.p != p {
        OthersStay(digest, s, last, p);
      } else {
        NilByOwnCall(digest, s, last);
        if FoundAt(s, last, p) {
          FoundVolumeStays(digest, s, last, p);
        }
      }
    }
  }

  /** A reconcile that returned nil although the volume is not there had a call refused or was misled. */
  lemma NilWithoutVolume(digest: Target -> string, volumes: set<Target>, events: seq<Event>, p: nat)
    requires var s := Run(digest, Start(volumes), events);
             p in s.procs && s.procs[p].pc.Returned? && s.procs[p].pc.outcome.Nil? && s.procs[p].target !in s.volumes
    ensures WasRefused(digest, Start(volumes), events, p) || WasMisled(digest, Start(volumes), events, p)
  {
    hide Run, WasRefused, WasMisled;
    FailedExactlyWhenRefused(digest, volumes, events, p);
    var s := Run(digest, Start(volumes), events);
    if s.procs[p].pc == Returned(Nil(false)) && !WasMisled(digest, Start(volumes), events, p) {
      NilMeansWhole(digest, volumes, events, p);
    }
  }

  /** Both happen.  A refused check returns nil with nothing staged. */
  lemma RefusalReturnsNil(digest: Target -> string, t: Target)
    ensures var s := Run(digest, Start({}), [Arrive(0, t), Check(0, Refused)]);
            s.procs == map[0 := Proc(t, Returned(Nil(true)))] && t !in s.volumes
  {
    hide UploadKey;
    var a := [Arrive(0, t), Check(0, Refused)];
    assert a[..1] == [Arrive(0, t)] && [Arrive(0, t)][..0] == [];
    assert Run(digest, Start({}), [Arrive(0, t)]) == Step(digest, Run(digest, Start({}), []), Arrive(0, t));
  }

  lemma {:induction false} RunOn(digest: Target -> string, s: State, a: seq<Event>, b: seq<Event>)
    ensures Run(digest, s, a + b) == Run(digest, Run(digest, s, a), b)
  {
    hide Step;
    if b == [] {
      assert a + b == a;
    } else {
      assert (a + b)[..|a + b| - 1] == a + b[..|b| - 1];
      RunOn(digest, s, a, b[..|b| - 1]);
    }
  }

  lemma RunOfThree(digest: Target -> string, s: State, a: Event, b: Event, c: Event)
    ensures Run(digest, s, [a, b, c]) == Step(digest, Step(digest, Step(digest, s, a), b), c)
  {
    hide Step;
    assert [a, b, c][..2] == [a, b] && [a, b][..1] == [a] && [a][..0] == [];
    assert Run(digest, s, [a]) == Step(digest, Run(digest, s, []), a);
    assert Run(digest, s, [a, b]) == Step(digest, Run(digest, s, [a]), b);
  }

  function Fetches(t: Target): seq<Event> { [Arrive(0, t), Check(0, Works), Fetch(0, true)] }

  function Creates(): seq<Event> { [Lock(0), Recheck(0, Works), Create(0, Works, true)] }

  function Overtaken(t: Target): seq<Event> { [Arrive(1, t), Check(1, Works), Fill(0, Breaks, Deleted)] }

  lemma FetchesFirst(digest: Target -> string, t: Target)
    ensures Run(digest, Start({}), Fetches(t))
        == State(map[0 := Proc(t, Waiting(0))], map[KeyOf(digest, t) := 0], map[], map[], [])
  {
    hide UploadKey, Run;
    RunOfThree(digest, Start({}), Arrive(0, t), Check(0, Works), Fetch(0, true));
    var s1 := Step(digest, Start({}), Arrive(0, t));
    assert s1 == State(map[0 := Proc(t, Arrived)], map[], map[], map[], []);
    var s2 := Step(digest, s1, Check(0, Works));
    assert s2 == State(map[0 := Proc(t, Fetching)], map[], map[], map[], []);
  }

  lemma ThenCreates(digest: Target -> string, t: Target, s: State)
    requires s == State(map[0 := Proc(t, Waiting(0))], map[KeyOf(digest, t) := 0], map[], map[], [])
    ensures var s' := Run(digest, s, Creates());
            s'.procs == map[0 := Proc(t, Filling(0))] && s'.volumes == map[t := Partial]
  {
    hide KeyOf, Run;
    RunOfThree(digest, s, Lock(0), Recheck(0, Works), Create(0, Works, true));
    var s1 := Step(digest, s, Lock(0));
    assert s1 == s.(procs := map[0 := Proc(t, Holding(0))], holders := map[0 := 0]);
    var s2 := Step(digest, s1, Recheck(0, Works));
    assert s2 == s1.(procs := map[0 := Proc(t, Uploading(0))]);
  }

  lemma ThenIsOvertaken(digest: Target -> string, t: Target, s: State)
    requires s.procs == map[0 := Proc(t, Filling(0))] && s.volumes == map[t := Partial]
    ensures var s' := Run(digest, s, Overtaken(t));
            Is(s', 1, Returned(Nil(false))) && s'.procs[1].target == t && t !in s'.volumes
  {
    hide KeyOf, Run;
    RunOfThree(digest, s, Arrive(1, t), Check(1, Works), Fill(0, Breaks, Deleted));
    var s1 := Step(digest, s, Arrive(1, t));
    assert s1 == s.(procs := map[0 := Proc(t, Filling(0)), 1 := Proc(t, Arrived)]);
    var s2 := Step(digest, s1, Check(1, Works));
    assert s2 == s.(procs := map[0 := Proc(t, Filling(0)), 1 := Proc(t, Returned(Nil(false)))]);
  }

  /** And a reconcile that checks while another fills the volume returns nil with no failure recorded; then
      the filling fails, and the volume is deleted. */
  lemma CheckTrustsPartialVolume(digest: Target -> string, t: Target)
    ensures var s := Run(digest, Start({}), Fetches(t) + Creates() + Overtaken(t));
            Is(s, 1, Returned(Nil(false))) && s.procs[1].target == t && t !in s.volumes
  {
    hide KeyOf, Run, Fetches, Creates, Overtaken;
    RunOn(digest, Start({}), Fetches(t), Creates());
    RunOn(digest, Start({}), Fetches(t) + Creates(), Overtaken(t));
    FetchesFirst(digest, t);
    ThenCreates(digest, t, Run(digest, Start({}), Fetches(t)));
    ThenIsOvertaken(digest, t, Run(digest, Start({}), Fetches(t) + Creates()));
  }

  // ----- Staging gets done -----

  /** Nobody holds the mutex of the image of this target. */
  predicate Unlocked(digest: Target -> string, s: State, t: Target) {
    KeyOf(digest, t) in s.mutexes ==> s.mutexes[KeyOf(digest, t)] !in s.holders
  }

  /** One reconcile goes through undisturbed: from the check to the mutex. */
  function FetchesFor(p: nat, t: Target): seq<Event> { [Arrive(p, t), Check(p, Works), Fetch(p, true)] }

  lemma FetchesToMutex(digest: Target -> string, s: State, p: nat, t: Target)
    requires Safe(digest, s) && p !in s.procs && t !in s.volumes && Unlocked(digest, s, t)
    ensures var s' := Run(digest, s, FetchesFor(p, t));
            && p in s'.procs && s'.procs[p].target == t && s'.procs[p].pc.Waiting?
            && s'.procs[p].pc.mutex !in s'.holders && s'.volumes == s.volumes
  {
    hide UploadKey, Run, VolumesRespected, UploadsHonest;
    RunOfThree(digest, s, Arrive(p, t), Check(p, Works), Fetch(p, true));
    var s1 := Step(digest, s, Arrive(p, t));
    assert s1 == s.(procs := s.procs[p := Proc(t, Arrived)]);
    var s2 := Step(digest, s1, Check(p, Works));
    assert s2 == s.(procs := s.procs[p := Proc(t, Fetching)]);
    assert |s.mutexes| !in s.holders by { NewMutexIsFree(digest, s); }
  }

  lemma NewMutexIsFree(digest: Target -> string, s: State)
    requires MutexesShared(digest, s) && HeldByInsiders(s)
    ensures |s.mutexes| !in s.holders
  {
    hide KeyOf;
  }

  /** From the mutex to the volume. */
  lemma LocksAndCreates(digest: Target -> string, s: State, p: nat, t: Target)
    requires p in s.procs && s.procs[p].target == t && s.procs[p].pc.Waiting? && t !in s.volumes
    requires s.procs[p].pc.mutex !in s.holders
    ensures var s' := Run(digest, s, [Lock(p), Recheck(p, Works), Create(p, Works, true)]);
            p in s'.procs && s'.procs[p].target == t && s'.procs[p].pc.Filling?
  {
    hide UploadKey, Run;
    RunOfThree(digest, s, Lock(p), Recheck(p, Works), Create(p, Works, true));
    var u := s.procs[p].pc.mutex;
    var s1 := Step(digest, s, Lock(p));
    assert s1 == s.(procs := s.procs[p := Proc(t, Holding(u))], holders := s.holders[u := p]);
    var s2 := Step(digest, s1, Recheck(p, Works));
    assert s2 == s1.(procs := s.procs[p := Proc(t, Uploading(u))]);
  }

  /** Whatever happened before, a reconcile of a volume that is absent and whose mutex is free, and that meets
      no error, returns nil with no failure recorded and leaves the volume holding the image. */
  lemma UndisturbedStages(digest: Target -> string, volumes: set<Target>, events: seq<Event>, p: nat, t: Target)
    requires var s := Run(digest, Start(volumes), events);
             p !in s.procs && t !in s.volumes && Unlocked(digest, s, t)
    ensures var upload := FetchesFor(p, t) + [Lock(p), Recheck(p, Works), Create(p, Works, true)];
            var s' := Step(digest, Run(digest, Start(volumes), events + upload), Fill(p, Works, Complete));
            Is(s', p, Returned(Nil(false))) && Holds(s'.volumes, t, Whole)
  {
    hide Run, Safe, KeyOf, FetchesFor, UploadKey;
    var s := Run(digest, Start(volumes), events);
    var rest := [Lock(p), Recheck(p, Works), Create(p, Works, true)];
    StagingIsSafe(digest, volumes, events);
    RunOn(digest, Start(volumes), events, FetchesFor(p, t) + rest);
    RunOn(digest, s, FetchesFor(p, t), rest);
    FetchesToMutex(digest, s, p, t);
    LocksAndCreates(digest, Run(digest, s, FetchesFor(p, t)), p, t);
  }

  /** And a mutex is free as soon as nobody is inside under its key. */
  lemma UnlockedExactly(digest: Target -> string, volumes: set<Target>, events: seq<Event>, t: Target)
    ensures var s := Run(digest, Start(volumes), events);
            Unlocked(digest, s, t) <==>
              forall q | q in s.procs && Inside(s.procs[q].pc) :: KeyOf(digest, s.procs[q].target) != KeyOf(digest, t)
  {
    hide Run, KeyOf, VolumesRespected, UploadsHonest;
    StagingIsSafe(digest, volumes, events);
  }
}
