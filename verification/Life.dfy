/** The life of one LibvirtMachine: any sequence of reconciles, each with its own inputs,
    faults and outcome of the deferred status patch, mixed with restarts and losses on the
    host and the user's request to delete the object. */
module Life {
  import opened Common
  import opened LibvirtHost
  import opened LibvirtMachine
  import opened Provisioning
  import opened PassCalls
  import opened Teardown
  import Ready

  /** The stored object; `Gone` once it is marked for deletion and has no finalizer left. */
  datatype Object =
    | Live(finalizer: bool, deleting: bool, failure: Option<string>, ready: bool)
    | Gone

  datatype World = World(host: Host, obj: Object)

  datatype Event =
    | Reconcile(x: Inputs, faults: seq<Fault>, patched: bool)
    | RequestDeletion
    | DaemonRestart
    | TmpfsLoss
    | DomainStops

  function Settle(o: Object): Object {
    if o.Live? && o.deleting && !o.finalizer then Gone else o
  }

  function Restarted(m: Machine, h: Host): Host {
    if m.ephemeral && EphemeralPool(m) in h.pools
    then WithPool(h, EphemeralPool(m), h.pools[EphemeralPool(m)].(active := false))
    else h
  }

  function Unmounted(m: Machine, h: Host): Host {
    if m.ephemeral && EphemeralPool(m) in h.pools
    then
      var info := h.pools[EphemeralPool(m)];
      WithPool(WithoutPool(h, EphemeralPool(m)), EphemeralPool(m), Pool(info.path, false, false))
    else h
  }

  function Stopped(m: Machine, h: Host): Host {
    if BaseName(m) in h.domains
    then h.(domains := h.domains[BaseName(m) := h.domains[BaseName(m)].(running := false)])
    else h
  }

  /** The context that a reconcile starts from. */
  function StartOf(m: Machine, w: World, faults: seq<Fault>): Pass
    requires w.obj.Live?
  {
    Begin(m, Remote(w.host, faults, []), w.obj.failure, w.obj.ready)
  }

  /** The pass that a reconcile event runs. */
  function PassOf(m: Machine, w: World, x: Inputs, faults: seq<Fault>): Result
    requires w.obj.Live?
  {
    var p := StartOf(m, w, faults);
    if w.obj.deleting then Delete(m, x, p) else Normal(m, x, p)
  }

  /** What the deferred patch stores when it gets through. */
  function Patched(o: Object, r: Result): Object
    requires o.Live?
  {
    if o.deleting then (if r.flow.Going? then o.(finalizer := false) else o)
    else o.(finalizer := true, failure := r.pass.failure, ready := r.pass.ready)
  }

  function Step(m: Machine, w: World, e: Event): World {
    match e
    case Reconcile(x, faults, patched) =>
      if w.obj.Gone? then w
      else
        var r := PassOf(m, w, x, faults);
        World(r.pass.remote.host,
              Settle(if r.flow.Crashed? || !patched then w.obj else Patched(w.obj, r)))
    case RequestDeletion =>
      if w.obj.Gone? then w else w.(obj := Settle(w.obj.(deleting := true)))
    case DaemonRestart => w.(host := Restarted(m, w.host))
    case TmpfsLoss => w.(host := Unmounted(m, w.host))
    case DomainStops => w.(host := Stopped(m, w.host))
  }

  function Run(m: Machine, w: World, events: seq<Event>): World {
    if events == [] then w
    else Step(m, Run(m, w, events[..|events| - 1]), events[|events| - 1])
  }

  /** Every event of the run meets a world that suits it. */
  ghost predicate Throughout(m: Machine, w: World, events: seq<Event>, suits: (World, Event) -> bool) {
    forall i | 0 <= i < |events| :: suits(Run(m, w, events[..i]), events[i])
  }

  lemma ThroughoutFront(m: Machine, w: World, events: seq<Event>, suits: (World, Event) -> bool)
    requires events != []
    ensures Throughout(m, w, events, suits) <==>
              && Throughout(m, w, events[..|events| - 1], suits)
              && suits(Run(m, w, events[..|events| - 1]), events[|events| - 1])
  {
    hide Run;
    var n := |events| - 1;
    var front := events[..n];
    assert forall i | 0 <= i < n :: front[..i] == events[..i] && front[i] == events[i];
  }

  // ----- Frame: what no run ever touches -----

  ghost predicate FileOfMachine(m: Machine, f: string) {
    f == IgnitionPath(m) || BootPath(m, f) || (m.ephemeral && Under(f, EphemeralPath(m)))
  }

  ghost predicate FramedVolumes(m: Machine, was: map<Key, Volume>, now: map<Key, Volume>) {
    && (forall k | k in was && !Touchable(m, k) && !InEphemeral(m, k.pool) :: k in now && now[k] == was[k])
    && (forall k | k in now && !Touchable(m, k) && !InEphemeral(m, k.pool) :: k in was || IsImageKey(m, k))
  }

  /** If the machine's ephemeral pool is defined, it lives in the machine's directory. */
  predicate OwnDirectory(m: Machine, pools: map<string, Pool>) {
    m.ephemeral && EphemeralPool(m) in pools ==> pools[EphemeralPool(m)].path == EphemeralPath(m)
  }

  ghost predicate FramedPools(m: Machine, was: map<string, Pool>, now: map<string, Pool>) {
    && (forall q | q in was && !InEphemeral(m, q) :: q in now && now[q] == was[q])
    && (forall q | q in now && !InEphemeral(m, q) :: q in was)
    && OwnDirectory(m, now)
  }

  ghost predicate FramedDomains(m: Machine, was: map<string, Domain>, now: map<string, Domain>) {
    && (forall d | d in was && d != BaseName(m) :: d in now && now[d] == was[d])
    && (forall d | d in now && d != BaseName(m) :: d in was)
  }

  ghost predicate FramedFiles(m: Machine, was: map<string, File>, now: map<string, File>) {
    && (forall f | f in was && !FileOfMachine(m, f) :: f in now && now[f] == was[f])
    && (forall f | f in now && !FileOfMachine(m, f) :: f in was)
  }

  /** Between `was` and `h`, nothing outside the machine's own artifacts changed, except that
      the cluster's base image may have been added where it was absent. */
  ghost predicate Framed(m: Machine, was: Host, h: Host) {
    && FramedVolumes(m, was.volumes, h.volumes)
    && FramedPools(m, was.pools, h.pools)
    && FramedDomains(m, was.domains, h.domains)
    && FramedFiles(m, was.files, h.files)
  }

  lemma VolumesFramedByCall(m: Machine, was: map<Key, Volume>, h: Host, c: Call, f: Fault)
    requires FramedVolumes(m, was, h.volumes) && Within(m, c)
    ensures FramedVolumes(m, was, HostAfter(h, c, f).volumes)
  {
    hide HostAfter, Within, Touchable, InEphemeral, IsImageKey;
    NamesOwnVolume(m, c);
    VolumesAfter(h, c, f);
  }

  lemma NamesOwnVolume(m: Machine, c: Call)
    requires Within(m, c)
    ensures MakesVolume(c) ==> Touchable(m, Key(c.pool, c.vol)) || IsImageKey(m, Key(c.pool, c.vol))
    ensures c.DeleteVolume? ==> Touchable(m, Key(c.pool, c.vol))
    ensures c.DestroyPool? || c.CreateTmpfsPool? ==> InEphemeral(m, c.pool)
  {
    hide BaseName, Removed, Owned, EphemeralPath, InEphemeral, IgnitionPath, BootPath, IsImageKey;
  }

  lemma PoolsFramedByCall(m: Machine, was: map<string, Pool>, h: Host, c: Call, f: Fault)
    requires FramedPools(m, was, h.pools) && Within(m, c)
    ensures FramedPools(m, was, HostAfter(h, c, f).pools)
  {
    hide HostAfter, Touchable, Removed, BaseName, EphemeralPath, EphemeralPool, IgnitionPath, BootPath;
    PoolsAfter(h, c, f);
  }

  lemma NamesOwnDomain(m: Machine, c: Call)
    requires Within(m, c)
    ensures c.DefineDomain? || c.StartDomain? || c.DestroyDomain? || c.UndefineDomain? ==> c.domain == BaseName(m)
  {
    hide BaseName, Touchable, Removed, EphemeralPath, InEphemeral, IgnitionPath, BootPath, IsImageKey;
  }

  lemma DomainsFramedByCall(m: Machine, was: map<string, Domain>, h: Host, c: Call, f: Fault)
    requires FramedDomains(m, was, h.domains) && Within(m, c)
    ensures FramedDomains(m, was, HostAfter(h, c, f).domains)
  {
    hide HostAfter, Within, BaseName;
    NamesOwnDomain(m, c);
    DomainsAfter(h, c, f);
  }

  lemma FilesFramedByCall(m: Machine, was: map<string, File>, h: Host, c: Call, f: Fault)
    requires FramedFiles(m, was, h.files) && Within(m, c)
    requires OwnDirectory(m, h.pools)
    ensures FramedFiles(m, was, HostAfter(h, c, f).files)
  {
    hide HostAfter, Touchable, Removed, BaseName, EphemeralPath, EphemeralPool, IgnitionPath, BootPath, Under;
    FilesAfter(h, c, f);
  }

  lemma FramedByCall(m: Machine, was: Host, h: Host, c: Call, f: Fault)
    requires Framed(m, was, h) && Within(m, c)
    ensures Framed(m, was, HostAfter(h, c, f))
  {
    hide HostAfter, FramedVolumes, FramedDomains, FramedFiles, Within;
    VolumesFramedByCall(m, was.volumes, h, c, f);
    PoolsFramedByCall(m, was.pools, h, c, f);
    DomainsFramedByCall(m, was.domains, h, c, f);
    FilesFramedByCall(m, was.files, h, c, f);
  }

  lemma FramedIsClosed(m: Machine, was: Host, ok: Call -> bool)
    requires forall c | ok(c) :: Within(m, c)
    ensures Closed((r: Remote) => Framed(m, was, r.host), ok)
  {
    hide HostAfter, Framed, Within;
    forall r: Remote, c | Framed(m, was, r.host) && ok(c)
      ensures Framed(m, was, Send(r, c).host)
    {
      FramedByCall(m, was, r.host, c, NextFault(r.faults));
    }
  }

  /** The mode of a pass about which nothing is known but its machine and inputs. */
  function AnyMode(m: Machine, x: Inputs): Mode {
    var s := AutoSize(m.vcpus, m.memoryMB, x.capacity);
    Mode(m, x, if s.Sized? then s.size else Capacity(0, 0), (q: string) => "", false, 0, Free, true)
  }

  lemma FramedByPass(m: Machine, was: Host, w: World, x: Inputs, faults: seq<Fault>)
    requires w.obj.Live? && Framed(m, was, w.host)
    ensures Framed(m, was, PassOf(m, w, x, faults).pass.remote.host)
  {
    hide Framed, Normal, Delete, Within, AutoSize;
    var p := StartOf(m, w, faults);
    var inv := (r: Remote) => Framed(m, was, r.host);
    if w.obj.deleting {
      FramedIsClosed(m, was, c => Takes(m, c));
      DeleteKeeps(m, x, p, inv, c => Takes(m, c));
    } else {
      var g := AnyMode(m, x);
      FramedIsClosed(m, was, c => Allowed(g, c));
      NormalKeeps(g, p, inv, c => Allowed(g, c));
    }
  }

  lemma FramedByHostEvent(m: Machine, was: Host, h: Host)
    requires Framed(m, was, h)
    ensures Framed(m, was, Restarted(m, h))
    ensures Framed(m, was, Unmounted(m, h))
    ensures Framed(m, was, Stopped(m, h))
  {
    hide FramedVolumes, FramedDomains, FramedFiles, FramedPools, BaseName, EphemeralPool, EphemeralPath, OutsideDir,
         OutsidePool;
    if m.ephemeral && EphemeralPool(m) in h.pools {
      assert OwnDirectory(m, h.pools) by { DirectoryFramed(m, was.pools, h.pools); }
      PoolChangeFramed(m, was.pools, h.pools, h.pools[EphemeralPool(m)].(active := false));
      PoolChangeFramed(m, was.pools, h.pools - {EphemeralPool(m)}, Pool(EphemeralPath(m), false, false)) by {
        PoolLossFramed(m, was, h);
      }
      PoolLossFramed(m, was, h);
    }
    if BaseName(m) in h.domains {
      DomainChangeFramed(m, was.domains, h.domains, h.domains[BaseName(m)].(running := false));
    }
  }

  lemma DirectoryFramed(m: Machine, was: map<string, Pool>, now: map<string, Pool>)
    requires FramedPools(m, was, now)
    ensures OwnDirectory(m, now)
  {
  }

  lemma PoolChangeFramed(m: Machine, was: map<string, Pool>, now: map<string, Pool>, info: Pool)
    requires FramedPools(m, was, now) && m.ephemeral && info.path == EphemeralPath(m)
    ensures FramedPools(m, was, now[EphemeralPool(m) := info])
  {
    hide EphemeralPool, EphemeralPath;
  }

  lemma PoolLossFramed(m: Machine, was: Host, h: Host)
    requires Framed(m, was, h) && m.ephemeral
    ensures FramedPools(m, was.pools, h.pools - {EphemeralPool(m)})
    ensures FramedVolumes(m, was.volumes, OutsidePool(h.volumes, EphemeralPool(m)))
    ensures FramedFiles(m, was.files, OutsideDir(h.files, EphemeralPath(m)))
  {
    hide EphemeralPool, EphemeralPath, Touchable, Under, IgnitionPath, BootPath;
  }

  lemma DomainChangeFramed(m: Machine, was: map<string, Domain>, now: map<string, Domain>, d: Domain)
    requires FramedDomains(m, was, now)
    ensures FramedDomains(m, was, now[BaseName(m) := d])
  {
    hide BaseName;
  }

  /** Over every run, under every schedule of faults, terminal ones included: volumes, pools,
      domains and files that are not the machine's stay exactly as they were. */
  lemma {:induction false} FrameOverRun(m: Machine, w: World, events: seq<Event>)
    requires OwnDirectory(m, w.host.pools)
    ensures Framed(m, w.host, Run(m, w, events).host)
  {
    hide Framed, PassOf, Restarted, Unmounted, Stopped, OwnDirectory;
    if events == [] {
      FramedAtStart(m, w.host);
    } else {
      var before := Run(m, w, events[..|events| - 1]);
      FrameOverRun(m, w, events[..|events| - 1]);
      FramedByHostEvent(m, w.host, before.host);
      match events[|events| - 1]
      case Reconcile(x, faults, _) =>
        if before.obj.Live? {
          FramedByPass(m, w.host, before, x, faults);
        }
      case _ =>
    }
  }

  lemma FramedAtStart(m: Machine, h: Host)
    requires OwnDirectory(m, h.pools)
    ensures Framed(m, h, h)
  {
  }

  /** A volume whose name does not start with the machine's base name and a dash, outside the
      ephemeral pool, is never changed, overwritten or deleted; the only one ever added is the
      cluster's base image. */
  lemma ForeignVolumesSurvive(m: Machine, w: World, events: seq<Event>, k: Key)
    requires OwnDirectory(m, w.host.pools)
    requires !(BaseName(m) + "-" <= k.name) && !InEphemeral(m, k.pool)
    ensures var now := Run(m, w, events).host.volumes;
            && (k in w.host.volumes ==> k in now && now[k] == w.host.volumes[k])
            && (k in now && k !in w.host.volumes ==> IsImageKey(m, k))
  {
    hide Run, Touchable, OwnDirectory;
    FrameOverRun(m, w, events);
    if Touchable(m, k) {
      TouchableCarriesBaseName(m, k);
    }
  }

  // ----- Cleanup: a whole life leaves the host as it found it -----

  /** Nothing on the host carries this machine's names yet. */
  ghost predicate Fresh(m: Machine, h: Host) {
    && (forall k | k in h.volumes :: !Touchable(m, k) && !InEphemeral(m, k.pool))
    && BaseName(m) !in h.domains
    && (m.ephemeral ==> EphemeralPool(m) !in h.pools)
  }

  /** Everything that was not on the fresh host is an artifact of the machine. */
  ghost predicate Grown(m: Machine, was: Host, h: Host) {
    && Framed(m, was, h)
    && (forall k | k in h.volumes :: k in was.volumes || Owned(m, k) || IsImageKey(m, k))
  }

  ghost predicate Restored(m: Machine, was: Host, h: Host) {
    && (forall k | k in was.volumes :: k in h.volumes && h.volumes[k] == was.volumes[k])
    && (forall k | k in h.volumes :: k in was.volumes || IsImageKey(m, k))
    && h.pools == was.pools
    && h.domains == was.domains
    && FramedFiles(m, was.files, h.files)
  }

  /** The directory of each pool: the fresh host's, or the machine's own. */
  function Site(m: Machine, was: Host): string -> string {
    q => if q in was.pools then was.pools[q].path else EphemeralPath(m)
  }

  function GrowingMode(m: Machine, x: Inputs, was: Host): Mode {
    AnyMode(m, x).(site := Site(m, was), strict := true)
  }

  function StrictMode(m: Machine, x: Inputs, was: Host): Mode { GrowingMode(m, x, was).(defines := Exact) }

  lemma GrownByCall(g: Mode, was: Host, h: Host, c: Call, f: Fault)
    requires g.strict && Grown(g.m, was, h) && Allowed(g, c)
    ensures Grown(g.m, was, HostAfter(h, c, f))
  {
    hide HostAfter, Framed, BaseName, EphemeralPath, EphemeralPool, IgnitionPath, BootPath, Removed, Touchable;
    FramedByCall(g.m, was, h, c, f);
    VolumesAfter(h, c, f);
    if MakesVolume(c) {
      FaithfulMakesOwned(g, c);
    }
  }

  lemma FaithfulMakesOwned(g: Mode, c: Call)
    requires MakesVolume(c) && Within(g.m, c) && Faithful(g, c)
    ensures Owned(g.m, Key(c.pool, c.vol)) || IsImageKey(g.m, Key(c.pool, c.vol))
  {
    hide BaseName, EphemeralPath, EphemeralPool, IgnitionPath, BootPath, Removed, Touchable;
  }

  lemma SiteAgrees(m: Machine, was: Host, h: Host)
    requires m.ephemeral ==> EphemeralPool(m) !in was.pools
    requires FramedPools(m, was.pools, h.pools)
    ensures Agrees(Site(m, was), h)
  {
    hide EphemeralPath, EphemeralPool;
  }

  lemma GrownByPass(m: Machine, was: Host, w: World, x: Inputs, faults: seq<Fault>)
    requires w.obj.Live? && Grown(m, was, w.host)
    requires !w.obj.deleting ==> SettlesPool(m, x, StartOf(m, w, faults))
    requires m.ephemeral ==> EphemeralPool(m) !in was.pools
    ensures Grown(m, was, PassOf(m, w, x, faults).pass.remote.host)
  {
    hide Framed, Normal, Delete, Within, AutoSize, Touchable, Owned, Site, SettlesPool;
    var p := StartOf(m, w, faults);
    if w.obj.deleting {
      FramedByPass(m, was, w, x, faults);
      DeleteAddsNothing(m, x, p);
    } else {
      var g := GrowingMode(m, x, was);
      GrownIsKept(g, was);
      NormalKeeps(g, p, (r: Remote) => Grown(m, was, r.host), c => Allowed(g, c));
    }
  }

  lemma GrownIsKept(g: Mode, was: Host)
    requires g.strict && g.site == Site(g.m, was)
    requires g.m.ephemeral ==> EphemeralPool(g.m) !in was.pools
    ensures Kept(g, (r: Remote) => Grown(g.m, was, r.host), c => Allowed(g, c))
  {
    hide HostAfter, Grown, Allowed, Site, Agrees;
    forall r: Remote, c | Grown(g.m, was, r.host) && Allowed(g, c)
      ensures Grown(g.m, was, Send(r, c).host)
    {
      GrownByCall(g, was, r.host, c, NextFault(r.faults));
    }
    forall r: Remote | Grown(g.m, was, r.host)
      ensures Agrees(g.site, r.host)
    {
      GrownAgrees(g, was, r.host);
    }
  }

  lemma GrownAgrees(g: Mode, was: Host, h: Host)
    requires g.site == Site(g.m, was) && Grown(g.m, was, h)
    requires g.m.ephemeral ==> EphemeralPool(g.m) !in was.pools
    ensures Agrees(g.site, h)
  {
    hide FramedVolumes, FramedDomains, FramedFiles, FramedPools, Agrees, Site, Owned;
    SiteAgrees(g.m, was, h);
  }

  lemma GrownByHostEvent(m: Machine, was: Host, h: Host)
    requires Grown(m, was, h)
    ensures Grown(m, was, Restarted(m, h))
    ensures Grown(m, was, Unmounted(m, h))
    ensures Grown(m, was, Stopped(m, h))
  {
    hide Framed, Owned, BaseName, EphemeralPool, OutsideDir;
    FramedByHostEvent(m, was, h);
  }

  lemma PoolsRestored(m: Machine, was: map<string, Pool>, now: map<string, Pool>)
    requires FramedPools(m, was, now)
    requires m.ephemeral ==> EphemeralPool(m) !in was && EphemeralPool(m) !in now
    ensures now == was
  {
    hide EphemeralPool, EphemeralPath;
    assert now.Keys == was.Keys;
  }

  lemma DomainsRestored(m: Machine, was: map<string, Domain>, now: map<string, Domain>)
    requires FramedDomains(m, was, now)
    requires BaseName(m) !in was && BaseName(m) !in now
    ensures now == was
  {
    hide BaseName;
    assert now.Keys == was.Keys;
  }

  ghost predicate RetryableEvents(events: seq<Event>) {
    forall e | e in events :: e.Reconcile? ==> Retryable(e.faults)
  }

  /** No provisioning pass of the run passes over a refusal of the ephemeral pool. */
  predicate SettlesAt(m: Machine, s: World, e: Event) {
    e.Reconcile? && s.obj.Live? && !s.obj.deleting ==> SettlesPool(m, e.x, StartOf(m, s, e.faults))
  }

  ghost predicate SettledLife(m: Machine, w: World, events: seq<Event>) {
    Throughout(m, w, events, (s: World, e: Event) => SettlesAt(m, s, e))
  }

  /** So it is for a machine without an ephemeral pool, whatever the faults, and for every life that
      meets no terminal fault. */
  lemma LifeSettles(m: Machine, w: World, events: seq<Event>)
    requires !m.ephemeral || RetryableEvents(events)
    ensures SettledLife(m, w, events)
  {
    hide Run, SettlesPool, Retryable;
    forall i | 0 <= i < |events|
      ensures SettlesAt(m, Run(m, w, events[..i]), events[i])
    {
      var s, e := Run(m, w, events[..i]), events[i];
      if e.Reconcile? && s.obj.Live? {
        assert e in events;
        if m.ephemeral {
          Ready.RetryableGathers(m, e.x, StartOf(m, s, e.faults));
        } else {
          Ready.PlainSettles(m, e.x, StartOf(m, s, e.faults));
        }
      }
    }
  }

  /** A deletion request that meets a live object without a stored finalizer removes the object at
      once; it does no harm on a host that is as it was. */
  ghost predicate RequestsCleanly(m: Machine, was: Host, s: World, e: Event) {
    e.RequestDeletion? && s.obj.Live? && !s.obj.finalizer ==> Restored(m, was, s.host)
  }

  ghost predicate CleanRequests(m: Machine, w: World, events: seq<Event>) {
    Throughout(m, w, events, (s: World, e: Event) => RequestsCleanly(m, w.host, s, e))
  }

  lemma NoEvents(m: Machine, w: World, suits: (World, Event) -> bool)
    ensures Run(m, w, []) == w && Throughout(m, w, [], suits)
  {
  }

  lemma RunExtends(m: Machine, w: World, events: seq<Event>)
    requires events != []
    ensures Run(m, w, events) == Step(m, Run(m, w, events[..|events| - 1]), events[|events| - 1])
  {
    hide Step;
  }

  lemma GrownAtStart(m: Machine, h: Host)
    requires Fresh(m, h)
    ensures Grown(m, h, h)
  {
    hide Touchable;
    FramedAtStart(m, h);
  }

  /** Neither a restart nor a loss turns an unrestored host into a restored one. */
  lemma HostEventsRestoreNothing(m: Machine, was: Host, h: Host)
    requires Fresh(m, was)
    ensures Restored(m, was, Restarted(m, h)) <==> Restored(m, was, h)
    ensures Restored(m, was, Unmounted(m, h)) <==> Restored(m, was, h)
    ensures Restored(m, was, Stopped(m, h)) <==> Restored(m, was, h)
  {
    hide Touchable, FramedFiles, BaseName, EphemeralPool, EphemeralPath, OutsideDir, OutsidePool, IsImageKey;
    if m.ephemeral && EphemeralPool(m) in h.pools {
      assert EphemeralPool(m) in Restarted(m, h).pools && EphemeralPool(m) in Unmounted(m, h).pools;
    }
    if BaseName(m) in h.domains {
      assert BaseName(m) in Stopped(m, h).domains;
    }
  }
}
