/** The definition a pass leaves behind, under every schedule of faults: which one it is, when it is
    the one asked for, and what that means over whole lives. */
module Definitions {
  import opened Common
  import opened LibvirtHost
  import opened LibvirtMachine
  import opened Provisioning
  import opened PassCalls
  import opened Teardown
  import opened Ready
  import opened Life

  // ----- One pass -----

  function DefOf(m: Machine, h: Host): Option<Definition> {
    if BaseName(m) in h.domains then Some(h.domains[BaseName(m)].def) else None
  }

  /** The definition over the paths of this context. */
  function DefinitionOf(m: Machine, p: Pass, size: Capacity, site: string -> string): Definition {
    Definition(size.vcpus, size.memoryMB * 1024,
               site(p.pool) + "/" + RootVolume(m),
               if m.format.CloudInit? then site(p.pool) + "/" + IsoVolume(m) else "",
               if m.format.Ignition? then IgnitionPath(m) else "",
               p.disks, p.kernel, p.initrd, p.cmdline)
  }

  /** The machine's directory is where its ephemeral pool lives. */
  predicate OwnSite(m: Machine, site: string -> string) { m.ephemeral ==> site(EphemeralPool(m)) == EphemeralPath(m) }

  ghost predicate DefinedAs(m: Machine, site: string -> string, d: Option<Definition>, r: Remote) {
    Agrees(site, r.host) && DefOf(m, r.host) == d
  }

  lemma DefByCall(m: Machine, h: Host, c: Call, f: Fault)
    requires !c.DefineDomain? && !c.UndefineDomain?
    ensures DefOf(m, HostAfter(h, c, f)) == DefOf(m, h)
  {
    hide HostAfter, BaseName;
    DomainsAfter(h, c, f);
  }

  lemma AgreesByCall(g: Mode, site: string -> string, h: Host, c: Call, f: Fault)
    requires Allowed(g, c) && Agrees(site, h) && OwnSite(g.m, site)
    ensures Agrees(site, HostAfter(h, c, f))
  {
    hide HostAfter, Faithful, Touchable, EphemeralPool, EphemeralPath, Defines;
    PoolsAfter(h, c, f);
  }

  lemma DefinedIsKept(g: Mode, site: string -> string, d: Option<Definition>)
    requires g.defines.Never? && OwnSite(g.m, site) && (g.strict ==> g.site == site)
    ensures Kept(g, (r: Remote) => DefinedAs(g.m, site, d, r), c => Allowed(g, c))
  {
    hide HostAfter, Agrees, DefOf, Within, Faithful, OwnSite;
    forall r: Remote, c | DefinedAs(g.m, site, d, r) && Allowed(g, c)
      ensures DefinedAs(g.m, site, d, Send(r, c))
    {
      DefByCall(g.m, r.host, c, NextFault(r.faults));
      AgreesByCall(g, site, r.host, c, NextFault(r.faults));
    }
  }

  lemma StartKeepsDef(m: Machine, p: Pass)
    ensures DefOf(m, Start(m, p).pass.remote.host) == DefOf(m, p.remote.host)
  {
    hide Start, HostAfter, DefOf;
    var d := DefOf(m, p.remote.host);
    var inv, ok := (r: Remote) => DefOf(m, r.host) == d, (c: Call) => !c.DefineDomain? && !c.UndefineDomain?;
    forall r: Remote, c | inv(r) && ok(c)
      ensures inv(Send(r, c))
    {
      DefByCall(m, r.host, c, NextFault(r.faults));
    }
    StartKeeps(m, p, inv, ok);
  }

  lemma DefineSets(m: Machine, h: Host, def: Definition, f: Fault)
    ensures DefOf(m, HostAfter(h, DefineDomain(BaseName(m), def), f)) in {DefOf(m, h), Some(def)}
  {
    hide HostAfter, BaseName;
    DomainsAfter(h, DefineDomain(BaseName(m), def), f);
  }

  lemma DefineDefines(m: Machine, p: Pass, size: Capacity, site: string -> string)
    requires Agrees(site, p.remote.host)
    ensures DefOf(m, Define(m, p, size).pass.remote.host)
            in {DefOf(m, p.remote.host), Some(DefinitionOf(m, p, size, site))}
  {
    hide HostAfter, Reply, DefOf, Agrees, BaseName, RootVolume, IsoVolume, IgnitionPath;
    var root, iso := GetVolumePath(p.pool, RootVolume(m)), GetVolumePath(p.pool, IsoVolume(m));
    var p1 := After(p, root);
    LookupChangesNothing(p.remote, p.pool, RootVolume(m));
    LookupChangesNothing(p1.remote, p.pool, IsoVolume(m));
    PathAgrees(site, p.remote, p.pool, RootVolume(m));
    PathAgrees(site, p1.remote, p.pool, IsoVolume(m));
    var p2 := if m.format.CloudInit? then After(p1, iso) else p1;
    DefineSets(m, p2.remote.host, DefinitionOf(m, p, size, site), NextFault(p2.remote.faults));
  }

  lemma SaidDomain(r: Remote, d: string)
    ensures Send(r, DomainExists(d)).host == r.host
    ensures var a := Reply(r, DomainExists(d)); a.Err? || a == Is(d in r.host.domains)
  {
  }

  /** A domain that exists is never defined anew; a new one is defined over the context's paths. */
  lemma RunDomainDefines(m: Machine, p: Pass, size: Capacity, site: string -> string)
    requires Agrees(site, p.remote.host)
    ensures var d, d' := DefOf(m, p.remote.host), DefOf(m, RunDomain(m, p, size).pass.remote.host);
            if d.Some? then d' == d else d' in {None, Some(DefinitionOf(m, p, size, site))}
  {
    hide HostAfter, Reply, Define, Start, Agrees, DefinitionOf;
    var p1 := After(p, DomainExists(BaseName(m)));
    SaidDomain(p.remote, BaseName(m));
    StartKeepsDef(m, p1);
    DefineDefines(m, p1, size, site);
    StartKeepsDef(m, Define(m, p1, size).pass);
    assert DefinitionOf(m, p1, size, site) == DefinitionOf(m, p, size, site) by { SameContext(m, p, p1, size, site); }
  }

  lemma SameContext(m: Machine, p: Pass, q: Pass, size: Capacity, site: string -> string)
    requires q.(remote := p.remote) == p
    ensures DefinitionOf(m, q, size, site) == DefinitionOf(m, p, size, site)
  {
  }

  lemma ProvisionDefines(m: Machine, x: Inputs, p: Pass, size: Capacity, site: string -> string)
    requires p == Begin(m, p.remote, p.failure, p.ready) && Agrees(site, p.remote.host) && OwnSite(m, site)
    ensures var d, d' := DefOf(m, p.remote.host), DefOf(m, Provision(m, x, p, size).pass.remote.host);
            && (d.Some? ==> d' == d)
            && (d.None? && d'.Some?
                ==> Arrives(m, x, p) && d'.value == DefinitionOf(m, Booted(m, x, p).pass, size, site))
  {
    hide StageImage, Rooted, Bootstrapping, Disked, Booted, Provision, RunDomain, Kept, Allowed, DefOf,
         DefinitionOf, OwnSite, Agrees;
    var g := Mode(m, x, size, site, false, 0, Never, true);
    var d := DefOf(m, p.remote.host);
    DefinedIsKept(g, site, d);
    StepsKeep(g, p, (r: Remote) => DefinedAs(m, site, d, r), c => Allowed(g, c));
    ProvisionUnfolds(m, x, p, size);
    if Arrives(m, x, p) {
      RunDomainDefines(m, Booted(m, x, p).pass, size, site);
    }
  }

  /** Under every schedule of faults: a pass leaves an existing definition alone; if there was none and
      there is one now, the pass went all the way and the definition is over what it brought along. */
  lemma PassDefines(m: Machine, x: Inputs, p: Pass, site: string -> string)
    requires p == Begin(m, p.remote, p.failure, p.ready) && Agrees(site, p.remote.host) && OwnSite(m, site)
    ensures var d, d' := DefOf(m, p.remote.host), DefOf(m, Normal(m, x, p).pass.remote.host);
            var q := Preflight(m, p).pass;
            && (d.Some? ==> d' == d)
            && (d.None? && d'.Some? ==>
                  && Reaches(m, x, p) && Arrives(m, x, q)
                  && d'.value == DefinitionOf(m, Booted(m, x, q).pass,
                      AutoSize(m.vcpus, m.memoryMB, x.capacity).size, site))
  {
    hide Normal, Provision, CheckPools, FirstMentions, ReferencedPools, Arrives, Booted, DefOf, DefinitionOf,
         Agrees, OwnSite, AutoSize;
    NormalUnfolds(m, x, p);
    PreflightLeavesHost(FirstMentions(ReferencedPools(m)), p);
    if Reaches(m, x, p) {
      ProvisionDefines(m, x, Preflight(m, p).pass, AutoSize(m.vcpus, m.memoryMB, x.capacity).size, site);
    }
  }

  lemma PreflightLeavesHost(list: seq<Required>, p: Pass)
    ensures CheckPools(list, p).pass.remote.host == p.remote.host
  {
    hide Reply;
    if list != [] {
      PreflightLeavesHost(list[1..], After(p, PoolExists(list[0].pool)));
    }
  }

  /** The domain, if defined, is defined over the machine's root disk and over one disk per
      entry of the spec, in that order. */
  predicate DefinedOverDisks(m: Machine, site: string -> string, h: Host) {
    BaseName(m) in h.domains ==>
      var def := h.domains[BaseName(m)].def;
      && def.rootDisk == site(WorkPool(m)) + "/" + RootVolume(m)
      && def.disks == DiskPaths(m, |m.disks|, site)
  }

  /** No pool of the spec lives in the directory of the machine's ephemeral pool. */
  predicate ApartSite(m: Machine, site: string -> string) {
    m.ephemeral && m.storagePool != EphemeralPool(m) ==> site(m.storagePool) != EphemeralPath(m)
  }

  lemma SamePrefix(a: string, b: string, suffix: string)
    requires a + suffix == b + suffix
    ensures a == b
  {
    assert |a| == |b|;
    assert (a + suffix)[..|a|] == a && (b + suffix)[..|b|] == b;
  }

  lemma RootPathTells(m: Machine, pool: string, site: string -> string)
    requires OwnSite(m, site) && ApartSite(m, site) && pool in {m.storagePool, WorkPool(m)}
    ensures site(pool) + "/" + RootVolume(m) == site(WorkPool(m)) + "/" + RootVolume(m) <==> pool == WorkPool(m)
  {
    hide EphemeralPool, EphemeralPath, RootVolume;
    if site(pool) + "/" + RootVolume(m) == site(WorkPool(m)) + "/" + RootVolume(m) {
      SamePrefix(site(pool) + "/", site(WorkPool(m)) + "/", RootVolume(m));
      SamePrefix(site(pool), site(WorkPool(m)), "/");
    }
  }

  /** The disks a context brings along are all of them exactly when no disk step was cut off. */
  lemma DisksBroughtAlong(m: Machine, x: Inputs, p: Pass, site: string -> string)
    requires p == Begin(m, p.remote, p.failure, p.ready) && Agrees(site, p.remote.host) && OwnSite(m, site)
    requires Arrives(m, x, p)
    ensures Assembled(m, x, p) ==> Booted(m, x, p).pass.disks == DiskPaths(m, |m.disks|, site)
    ensures Booted(m, x, p).pass.disks == DiskPaths(m, |m.disks|, site) ==> Disked(m, x, p).flow.Going?
  {
    hide StageImage, Rooted, Bootstrapping, Disked, Booted, Kept, Allowed, DefOf, OwnSite, Agrees, WorkPool,
         KernelFile, InitrdFile;
    FieldsAlong(m, x, p);
    assert |DiskPaths(m, |m.disks|, site)| == |m.disks|;
    if Assembled(m, x, p) {
      var g := Mode(m, x, Capacity(0, 0), site, true, 0, Never, true);
      var d := DefOf(m, p.remote.host);
      DefinedIsKept(g, site, d);
      StepsKeep(g, p, (r: Remote) => DefinedAs(m, site, d, r), c => Allowed(g, c));
    }
  }

  /** Exactly when a new definition is right.  Under every schedule of faults, a pass that defines the
      domain defines it over the root disk and all the disks if and only if no refusal of its pool or
      of a disk was passed over, and exactly as asked for if and only if none of a boot file was either.
      A refusal that was passed over is recorded as a failure. */
  lemma DefiningPassExactly(m: Machine, x: Inputs, p: Pass, site: string -> string)
    requires p == Begin(m, p.remote, p.failure, p.ready) && Agrees(site, p.remote.host)
    requires OwnSite(m, site) && ApartSite(m, site)
    requires DefOf(m, p.remote.host).None? && DefOf(m, Normal(m, x, p).pass.remote.host).Some?
    ensures var h, q := Normal(m, x, p).pass.remote.host, Preflight(m, p).pass;
            && (DefinedOverDisks(m, site, h) <==> Assembled(m, x, q))
            && (DefOf(m, h).value == WantedDefinition(m, x, AutoSize(m.vcpus, m.memoryMB, x.capacity).size, site)
                <==> Gathered(m, x, q))
            && (!Gathered(m, x, q) ==> Normal(m, x, p).pass.failure.Some?)
  {
    hide Normal, CheckPools, FirstMentions, ReferencedPools, StageImage, Rooted, Bootstrapping, Disked, Booted,
         AutoSize, Agrees, OwnSite, ApartSite, WorkPool, RootVolume, IsoVolume, IgnitionPath, DiskPaths,
         EphemeralPool;
    var q := Preflight(m, p).pass;
    PassDefines(m, x, p, site);
    NormalUnfolds(m, x, p);
    PreflightLeavesHost(FirstMentions(ReferencedPools(m)), p);
    FieldsAlong(m, x, q);
    DisksBroughtAlong(m, x, q, site);
    RootPathTells(m, Booted(m, x, q).pass.pool, site);
    BootFieldsTell(m, x, q);
    if !Gathered(m, x, q) && Normal(m, x, p).pass.failure.None? { NoFailureGathers(m, x, p); }
  }

  /** A context that brings no kernel along differs from one that was to bring one. */
  lemma BootFieldsTell(m: Machine, x: Inputs, p: Pass)
    requires Arrives(m, x, p)
    ensures !Booted(m, x, p).flow.Going?
        ==> m.boot.Some? && x.bootFiles.Some? && KernelFile(m.boot.value, x.bootFiles.value) != ""
  {
    hide StageImage, Rooted, Bootstrapping, Disked, EnsureFile;
  }

  lemma NormalIsComplete(m: Machine, x: Inputs, p: Pass)
    requires RootHome(m) == WorkPool(m) && p == Begin(m, p.remote, p.failure, p.ready)
    requires var r := Normal(m, x, p); r.flow.Going? && r.pass.failure.None?
    ensures Provisioned(m, x, Normal(m, x, p).pass.remote.host)
  {
    hide CheckPools, Normal, Provision, RootHome, WorkPool, Provisioned, FirstMentions, ReferencedPools, AutoSize;
    NormalUnfolds(m, x, p);
    ProvisionIsComplete(m, x, Preflight(m, p).pass, AutoSize(m.vcpus, m.memoryMB, x.capacity).size);
  }

  /** Ready means provisioned, for one pass and under every schedule of faults: on a host that does not
      have the domain yet, a pass that sets Ready with no failure recorded leaves every artifact in
      place and a running domain with exactly the definition asked for. */
  lemma PassIsComplete(m: Machine, x: Inputs, p: Pass, site: string -> string)
    requires RootHome(m) == WorkPool(m) && p == Begin(m, p.remote, p.failure, p.ready)
    requires Agrees(site, p.remote.host) && OwnSite(m, site) && ApartSite(m, site)
    requires BaseName(m) !in p.remote.host.domains
    requires var r := Normal(m, x, p); r.flow.Going? && r.pass.failure.None?
    ensures var h := Normal(m, x, p).pass.remote.host;
            && Provisioned(m, x, h)
            && DefOf(m, h) == Some(WantedDefinition(m, x, AutoSize(m.vcpus, m.memoryMB, x.capacity).size, site))
  {
    hide Normal, RootHome, WorkPool, Has, Bootstrapped, DiskKeys, Agrees, OwnSite, ApartSite, AutoSize, Gathered,
         Arrives, WantedDefinition, Preflight, DefinedOverDisks, BaseName;
    NormalIsComplete(m, x, p);
    NormalUnfolds(m, x, p);
    DefiningPassExactly(m, x, p, site);
  }

  // ----- Whole lives -----

  /** The definition of a machine's domain never changes while the object is not being deleted: no
      pass repairs a wrong one. */
  lemma {:induction false} DefinitionStays(m: Machine, w: World, events: seq<Event>)
    requires OwnDirectory(m, w.host.pools) && w.obj.Live? && !w.obj.deleting && DefOf(m, w.host).Some?
    requires forall e | e in events :: !e.RequestDeletion?
    ensures var end := Run(m, w, events); end.obj.Live? && !end.obj.deleting && DefOf(m, end.host) == DefOf(m, w.host)
  {
    hide Step, DefOf, OwnDirectory, Framed;
    if events != [] {
      var front, last := events[..|events| - 1], events[|events| - 1];
      assert last in events;
      DefinitionStays(m, w, front);
      FrameOverRun(m, w, front);
      DefinitionStaysOnce(m, w.host, Run(m, w, front), last);
    }
  }

  lemma DefinitionStaysOnce(m: Machine, was: Host, s: World, e: Event)
    requires Framed(m, was, s.host) && s.obj.Live? && !s.obj.deleting && DefOf(m, s.host).Some? && !e.RequestDeletion?
    ensures var end := Step(m, s, e); end.obj.Live? && !end.obj.deleting && DefOf(m, end.host) == DefOf(m, s.host)
  {
    hide Normal, Restarted, Unmounted, Stopped, DefOf, Framed, DefinitionOf, Arrives, Booted, AutoSize, Site,
         Preflight, Agrees, OwnSite;
    DefUnderHostEvent(m, s.host);
    if e.Reconcile? {
      HereAgrees(m, was, s.host);
      PassDefines(m, e.x, StartOf(m, s, e.faults), Site(m, s.host));
    }
  }

  lemma HereAgrees(m: Machine, was: Host, h: Host)
    requires Framed(m, was, h)
    ensures Agrees(Site(m, h), h) && OwnSite(m, Site(m, h))
  {
    hide FramedVolumes, FramedDomains, FramedFiles, EphemeralPool, EphemeralPath;
  }

  lemma DefUnderHostEvent(m: Machine, h: Host)
    ensures DefOf(m, Restarted(m, h)) == DefOf(m, Unmounted(m, h)) == DefOf(m, Stopped(m, h)) == DefOf(m, h)
  {
    hide BaseName, EphemeralPool, OutsideDir, OutsidePool;
  }

  /** The pass of a reconcile is stored: the controller lives and the patch gets through. */
  predicate StoredAt(m: Machine, s: World, e: Event)
    requires e.Reconcile? && s.obj.Live?
  {
    e.patched && !PassOf(m, s, e.x, e.faults).flow.Crashed?
  }

  /** A reconcile that defines the domain although a refusal of its pool or of a disk was passed over. */
  predicate ShortAt(m: Machine, s: World, e: Event) {
    && e.Reconcile? && s.obj.Live? && !s.obj.deleting
    && DefOf(m, s.host).None? && DefOf(m, PassOf(m, s, e.x, e.faults).pass.remote.host).Some?
    && !Assembled(m, e.x, Preflight(m, StartOf(m, s, e.faults)).pass)
  }

  /** If there is one, the failure it recorded is stored. */
  predicate KeepsFailure(m: Machine, s: World, e: Event) { ShortAt(m, s, e) ==> StoredAt(m, s, e) }

  ghost predicate KeepsFailures(m: Machine, w: World, events: seq<Event>) {
    Throughout(m, w, events, (s: World, e: Event) => KeepsFailure(m, s, e))
  }

  /** With no failure stored, the definition is right. */
  predicate DefinedUnlessFailed(m: Machine, site: string -> string, s: World) {
    s.obj.Live? && s.obj.failure.None? ==> DefinedOverDisks(m, site, s.host)
  }

  lemma DefinedByDef(m: Machine, site: string -> string, h: Host, h': Host)
    requires DefOf(m, h') in {None, DefOf(m, h)} && DefinedOverDisks(m, site, h)
    ensures DefinedOverDisks(m, site, h')
  {
    hide BaseName, WorkPool, RootVolume, DiskPaths;
  }

  lemma DefUnderDelete(m: Machine, x: Inputs, p: Pass)
    ensures DefOf(m, Delete(m, x, p).pass.remote.host) in {None, DefOf(m, p.remote.host)}
  {
    hide Delete, Takes, DefOf, HostAfter;
    var d := DefOf(m, p.remote.host);
    var inv, ok := (r: Remote) => DefOf(m, r.host) in {None, d}, (c: Call) => Takes(m, c);
    forall r: Remote, c | inv(r) && ok(c)
      ensures inv(Send(r, c))
    {
      DefUnderTaking(m, r.host, c, NextFault(r.faults));
    }
    DeleteKeeps(m, x, p, inv, ok);
  }

  lemma DefUnderTaking(m: Machine, h: Host, c: Call, f: Fault)
    requires Takes(m, c)
    ensures DefOf(m, HostAfter(h, c, f)) in {None, DefOf(m, h)}
  {
    hide HostAfter, Within, BaseName;
    DomainsAfter(h, c, f);
  }

  lemma ProvisioningStepDefines(m: Machine, site: string -> string, s: World, e: Event)
    requires Agrees(site, s.host) && OwnSite(m, site) && DefinedUnlessFailed(m, site, s)
    requires e.Reconcile? && s.obj.Live? && !s.obj.deleting
    ensures KeepsFailure(m, s, e) ==> DefinedUnlessFailed(m, site, Step(m, s, e))
    ensures ApartSite(m, site) && DefinedUnlessFailed(m, site, Step(m, s, e)) ==> KeepsFailure(m, s, e)
  {
    hide Normal, CheckPools, Preflight, Agrees, OwnSite, ApartSite, Assembled, Arrives, AutoSize, DefinitionOf,
         DefinedOverDisks;
    var p := StartOf(m, s, e.faults);
    var r := Normal(m, e.x, p);
    PassDefines(m, e.x, p, site);
    NormalUnfolds(m, e.x, p);
    if s.obj.failure.Some? {
      FailedPassIsIdle(m, e.x, p);
    } else if DefOf(m, s.host).None? && DefOf(m, r.pass.remote.host).Some? {
      NewDefinition(m, e.x, p, site);
    } else {
      DefinedByDef(m, site, s.host, r.pass.remote.host);
    }
  }

  lemma NewDefinition(m: Machine, x: Inputs, p: Pass, site: string -> string)
    requires p == Begin(m, p.remote, p.failure, p.ready) && Agrees(site, p.remote.host) && OwnSite(m, site)
    requires DefOf(m, p.remote.host).None? && DefOf(m, Normal(m, x, p).pass.remote.host).Some?
    ensures var h, q := Normal(m, x, p).pass.remote.host, Preflight(m, p).pass;
            && (Assembled(m, x, q) ==> DefinedOverDisks(m, site, h))
            && (ApartSite(m, site) && DefinedOverDisks(m, site, h) ==> Assembled(m, x, q))
            && (!Assembled(m, x, q) ==> Normal(m, x, p).pass.failure.Some?)
  {
    hide Normal, CheckPools, FirstMentions, ReferencedPools, StageImage, Rooted, Bootstrapping, Disked, Booted,
         AutoSize, Agrees, OwnSite, WorkPool, RootVolume, IsoVolume, IgnitionPath, DiskPaths, EphemeralPool,
         KernelFile, InitrdFile;
    var q := Preflight(m, p).pass;
    PassDefines(m, x, p, site);
    NormalUnfolds(m, x, p);
    PreflightLeavesHost(FirstMentions(ReferencedPools(m)), p);
    FieldsAlong(m, x, q);
    DisksBroughtAlong(m, x, q, site);
    if ApartSite(m, site) { RootPathTells(m, Booted(m, x, q).pass.pool, site); }
    if !Assembled(m, x, q) && Normal(m, x, p).pass.failure.None? { NoFailureGathers(m, x, p); }
  }

  /** With a failure recorded, a pass makes no call at all and keeps a failure recorded,
      whatever the inputs. */
  lemma FailedPassIsIdle(m: Machine, x: Inputs, p: Pass)
    requires p.failure.Some?
    ensures Normal(m, x, p).pass.remote == p.remote && Normal(m, x, p).pass.failure.Some?
  {
    hide CheckPools, Provision;
  }

  /** One event keeps the definition right exactly when it keeps the failure of a short pass. */
  lemma StepDefines(m: Machine, site: string -> string, s: World, e: Event)
    requires Agrees(site, s.host) && OwnSite(m, site) && DefinedUnlessFailed(m, site, s)
    ensures KeepsFailure(m, s, e) ==> DefinedUnlessFailed(m, site, Step(m, s, e))
    ensures ApartSite(m, site) && DefinedUnlessFailed(m, site, Step(m, s, e)) ==> KeepsFailure(m, s, e)
  {
    hide Normal, Delete, Restarted, Unmounted, Stopped, Agrees, OwnSite, ApartSite, Assembled, Preflight,
         DefinedOverDisks, DefOf;
    if e.Reconcile? && s.obj.Live? && !s.obj.deleting {
      ProvisioningStepDefines(m, site, s, e);
    } else if s.obj.Live? && s.obj.failure.None? {
      DefUnderHostEvent(m, s.host);
      DefinedByDef(m, site, s.host, s.host);
      DefinedByDef(m, site, s.host, Restarted(m, s.host));
      DefinedByDef(m, site, s.host, Unmounted(m, s.host));
      DefinedByDef(m, site, s.host, Stopped(m, s.host));
      if e.Reconcile? {
        DefUnderDelete(m, e.x, StartOf(m, s, e.faults));
        DefinedByDef(m, site, s.host, PassOf(m, s, e.x, e.faults).pass.remote.host);
      }
    }
  }

  ghost predicate DefinedAlong(m: Machine, w: World, events: seq<Event>) {
    forall i | 0 <= i <= |events| :: DefinedUnlessFailed(m, Site(m, w.host), Run(m, w, events[..i]))
  }

  lemma DefinedAlongFront(m: Machine, w: World, events: seq<Event>)
    requires events != []
    ensures DefinedAlong(m, w, events) <==>
              DefinedAlong(m, w, events[..|events| - 1]) && DefinedUnlessFailed(m, Site(m, w.host), Run(m, w, events))
  {
    hide Run, DefinedUnlessFailed, Site;
    var n := |events| - 1;
    var front := events[..n];
    assert forall i | 0 <= i <= n :: front[..i] == events[..i];
    assert events[..|events|] == events;
    if DefinedAlong(m, w, front) && DefinedUnlessFailed(m, Site(m, w.host), Run(m, w, events)) {
      forall i | 0 <= i <= |events|
        ensures DefinedUnlessFailed(m, Site(m, w.host), Run(m, w, events[..i]))
      {
        if i <= n { assert DefinedUnlessFailed(m, Site(m, w.host), Run(m, w, front[..i])); }
      }
    }
    if DefinedAlong(m, w, events) {
      forall i | 0 <= i <= |front|
        ensures DefinedUnlessFailed(m, Site(m, w.host), Run(m, w, front[..i]))
      {
        assert DefinedUnlessFailed(m, Site(m, w.host), Run(m, w, events[..i]));
      }
    }
  }

  lemma FreshIsOwn(m: Machine, h: Host)
    requires Fresh(m, h)
    ensures OwnDirectory(m, h.pools) && OwnSite(m, Site(m, h)) && BaseName(m) !in h.domains
    ensures m.ephemeral ==> EphemeralPool(m) !in h.pools
  {
    hide Touchable, EphemeralPath, BaseName;
  }

  lemma RunAgrees(m: Machine, w: World, events: seq<Event>)
    requires Fresh(m, w.host)
    ensures Agrees(Site(m, w.host), Run(m, w, events).host)
  {
    hide Run, Agrees, Site, FramedVolumes, FramedDomains, FramedFiles, FramedPools, Fresh, OwnDirectory, OwnSite;
    FreshIsOwn(m, w.host);
    FrameOverRun(m, w, events);
    SiteAgrees(m, w.host, Run(m, w, events).host);
  }

  /** If the failure of every short pass is stored, then in every state of the life, under every
      schedule of faults, the definition is right or a failure is stored. */
  lemma {:induction false} LifeIsDefined(m: Machine, w: World, events: seq<Event>)
    requires Fresh(m, w.host) && KeepsFailures(m, w, events)
    ensures DefinedAlong(m, w, events) && DefinedUnlessFailed(m, Site(m, w.host), Run(m, w, events))
  {
    hide Run, Step, DefinedUnlessFailed, KeepsFailure, Site, Agrees, OwnSite, OwnDirectory, Throughout, DefinedAlong;
    var ok := (s: World, e: Event) => KeepsFailure(m, s, e);
    if events == [] {
      NoEvents(m, w, ok);
      assert DefinedUnlessFailed(m, Site(m, w.host), w) by { FreshIsDefined(m, w); }
      assert DefinedAlong(m, w, events) by { DefinedAtStart(m, w); }
    } else {
      var front, last := events[..|events| - 1], events[|events| - 1];
      ThroughoutFront(m, w, events, ok);
      LifeIsDefined(m, w, front);
      RunAgrees(m, w, front);
      FreshIsOwn(m, w.host);
      RunExtends(m, w, events);
      StepDefines(m, Site(m, w.host), Run(m, w, front), last);
      DefinedAlongFront(m, w, events);
    }
  }

  lemma FreshIsDefined(m: Machine, w: World)
    requires Fresh(m, w.host)
    ensures DefinedUnlessFailed(m, Site(m, w.host), w)
  {
  }

  lemma DefinedAtStart(m: Machine, w: World)
    requires DefinedUnlessFailed(m, Site(m, w.host), w)
    ensures DefinedAlong(m, w, [])
  {
    hide DefinedUnlessFailed, Site;
  }

  /** And only then: a life whose states all have the right definition, or a failure stored, stores the
      failure of every short pass. */
  lemma {:induction false} LifeIsDefinedExactly(m: Machine, w: World, events: seq<Event>)
    requires Fresh(m, w.host) && ApartSite(m, Site(m, w.host))
    ensures DefinedAlong(m, w, events) <==> KeepsFailures(m, w, events)
  {
    hide Run, Step, DefinedUnlessFailed, KeepsFailure, Site, Agrees, OwnSite, OwnDirectory, Throughout,
         DefinedAlong, ApartSite;
    var ok := (s: World, e: Event) => KeepsFailure(m, s, e);
    if KeepsFailures(m, w, events) {
      LifeIsDefined(m, w, events);
    }
    if DefinedAlong(m, w, events) {
      if events == [] {
        NoEvents(m, w, ok);
      } else {
        var front, last := events[..|events| - 1], events[|events| - 1];
        ThroughoutFront(m, w, events, ok);
        DefinedAlongFront(m, w, events);
        LifeIsDefinedExactly(m, w, front);
        LifeIsDefined(m, w, front);
        RunAgrees(m, w, front);
        FreshIsOwn(m, w.host);
        RunExtends(m, w, events);
        StepDefines(m, Site(m, w.host), Run(m, w, front), last);
      }
    }
  }

  /** A failure that a pass records is stored. */
  predicate StoresFailure(m: Machine, s: World, e: Event) {
    e.Reconcile? && s.obj.Live? && !s.obj.deleting && PassOf(m, s, e.x, e.faults).pass.failure.Some? ==>
      StoredAt(m, s, e)
  }

  /** Two ways to keep the failures of short passes: store every failure, or meet no terminal fault. */
  lemma FailuresKept(m: Machine, w: World, events: seq<Event>)
    requires Fresh(m, w.host)
    requires RetryableEvents(events) || Throughout(m, w, events, (s: World, e: Event) => StoresFailure(m, s, e))
    ensures KeepsFailures(m, w, events)
  {
    hide Run, Normal, Retryable, Preflight, Agrees, OwnSite, Site, DefOf, Assembled, Fresh, DefinedOverDisks,
         ApartSite, OwnDirectory;
    FreshIsOwn(m, w.host);
    forall i | 0 <= i < |events|
      ensures KeepsFailure(m, Run(m, w, events[..i]), events[i])
    {
      var s, e := Run(m, w, events[..i]), events[i];
      assert e in events;
      if ShortAt(m, s, e) {
        RunAgrees(m, w, events[..i]);
        ShortPassFails(m, e.x, StartOf(m, s, e.faults), Site(m, w.host));
        if RetryableEvents(events) { RetryableGathers(m, e.x, StartOf(m, s, e.faults)); }
      }
    }
  }

  lemma ShortPassFails(m: Machine, x: Inputs, p: Pass, site: string -> string)
    requires p == Begin(m, p.remote, p.failure, p.ready) && Agrees(site, p.remote.host) && OwnSite(m, site)
    requires DefOf(m, p.remote.host).None? && DefOf(m, Normal(m, x, p).pass.remote.host).Some?
    requires !Assembled(m, x, Preflight(m, p).pass)
    ensures Normal(m, x, p).pass.failure.Some? && !AssemblesAll(m, x, p)
  {
    hide Normal, Preflight, Agrees, OwnSite, Assembled, DefOf, DefinedOverDisks, ApartSite, Arrives, AutoSize,
         DefinitionOf, Booted;
    NewDefinition(m, x, p, site);
    PassDefines(m, x, p, site);
  }

  /** Ready means provisioned, over whole lives and under every schedule of faults, terminal ones
      included: if the failure of every short pass was stored, then a pass that sets Ready with no
      failure recorded leaves root disk, bootstrap data and every additional disk in place, and a
      running domain over the root disk's path and one path per additional disk, in spec order. */
  lemma ReadyMeansProvisioned(m: Machine, w: World, events: seq<Event>, x: Inputs, faults: seq<Fault>)
    requires Fresh(m, w.host) && RootHome(m) == WorkPool(m) && KeepsFailures(m, w, events)
    requires Run(m, w, events).obj.Live? && !Run(m, w, events).obj.deleting
    requires var r := PassOf(m, Run(m, w, events), x, faults); r.flow.Going? && r.pass.failure.None?
    ensures var h := PassOf(m, Run(m, w, events), x, faults).pass.remote.host;
            && Provisioned(m, x, h)
            && BaseName(m) in h.domains
            && DefinedOverDisks(m, Site(m, w.host), h)
  {
    hide Run, Normal, Fresh, Site, RootHome, WorkPool, Has, Bootstrapped, DiskKeys, Agrees, OwnSite, KeepsFailures,
         DefinedAlong, DefinedOverDisks, Preflight, Assembled, ApartSite, AutoSize, DefinitionOf, Arrives, Booted;
    var now := Run(m, w, events);
    var p := StartOf(m, now, faults);
    LifeIsDefined(m, w, events);
    RunAgrees(m, w, events);
    FreshIsOwn(m, w.host);
    NormalIsComplete(m, x, p);
    NormalUnfolds(m, x, p);
    PassDefines(m, x, p, Site(m, w.host));
    if DefOf(m, now.host).None? {
      NewDefinition(m, x, p, Site(m, w.host));
    } else {
      DefinedByDef(m, Site(m, w.host), now.host, Normal(m, x, p).pass.remote.host);
    }
    if DefOf(m, now.host).None? { NoFailureGathers(m, x, p); }
  }
}
