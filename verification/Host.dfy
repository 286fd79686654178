/** A libvirt host as one machine's reconciler sees it: storage pools, volumes, domains and
    files, and the calls of the Client interface (internal/libvirt/client.go) against them.

    `TrueAnswer` and `Effect` give the meaning of a call that works.  `Send` plays one call
    against a script of faults: any call may be lost, refused, torn half-way or be the last
    thing a crashing controller did. */
module LibvirtHost {
  import opened Common

  datatype Key = Key(pool: string, name: string)

  /** `mounted` is false once the directory behind the pool is gone. */
  datatype Pool = Pool(path: string, active: bool, mounted: bool)

  datatype Volume =
    | Image(digest: string)
    | Overlay(backing: string, size: int)
    | Blank(size: int)
    | Media(data: string)
    | TornUpload

  datatype File = Contents(data: string) | TornWrite

  datatype Disk = Disk(path: string, bus: string)

  /** The part of a domain's XML that a pass computes. */
  datatype Definition = Definition(
    vcpus: int, memoryKB: int,
    rootDisk: string, isoPath: string, ignitionPath: string,
    disks: seq<Disk>,
    kernel: string, initrd: string, cmdline: string)

  datatype Domain = Domain(def: Definition, running: bool)

  datatype Host = Host(
    pools: map<string, Pool>,
    volumes: map<Key, Volume>,
    files: map<string, File>,
    domains: map<string, Domain>)

  /** One constructor per method of the Client interface that a pass uses. */
  datatype Call =
    | PoolExists(pool: string)
    | PoolIsActive(pool: string)
    | StartPool(pool: string)
    | CreateTmpfsPool(pool: string, path: string)
    | DestroyPool(pool: string)
    | VolumeExists(pool: string, vol: string)
    | CreateVolumeFromBackingStore(pool: string, vol: string, backing: string, size: int)
    | CloneVolume(pool: string, source: string, vol: string)
    | CreateVolume(pool: string, vol: string, size: int)
    | UploadVolumeFromBytes(pool: string, vol: string, data: string)
    | UploadQcow2Volume(pool: string, vol: string, image: Volume)
    | DeleteVolume(pool: string, vol: string)
    | GetVolumePath(pool: string, vol: string)
    | WriteRemoteFile(path: string, data: string)
    | RemoteFileExists(path: string)
    | DeleteRemoteFile(path: string)
    | DomainExists(domain: string)
    | GetDomain(domain: string)
    | DefineDomain(domain: string, def: Definition)
    | StartDomain(domain: string)
    | DestroyDomain(domain: string)
    | UndefineDomain(domain: string)

  /** Error categories of internal/libvirt/errors.go, and `Cut`: the controller died here. */
  datatype Category = Terminal | Transient | NotFound | Cut

  datatype Answer = Ok | Is(yes: bool) | At(where: string) | Err(cat: Category)

  /** How much of a failing call still happened on the host.  `Half` leaves a pool call between
      two of its commands; `Torn` leaves a volume created but not filled or a file cut short. */
  datatype Extent = Nothing | Half | Torn | All

  datatype Fault = Fine | Broken(extent: Extent, cat: Category)

  /** A host, the faults still to come, and the calls made so far. */
  datatype Remote = Remote(host: Host, faults: seq<Fault>, log: seq<Call>)

  predicate Under(path: string, dir: string) { dir + "/" <= path }

  function VolumePath(h: Host, pool: string, vol: string): string
    requires pool in h.pools
  {
    h.pools[pool].path + "/" + vol
  }

  /** What stands in the way of a volume call on this pool, if anything. */
  function PoolTrouble(h: Host, pool: string): Option<Category> {
    if pool !in h.pools then Some(NotFound)
    else if !h.pools[pool].active then Some(Transient)
    else None
  }

  function CreationAnswer(h: Host, pool: string, vol: string): Answer {
    match PoolTrouble(h, pool)
    case Some(cat) => Err(cat)
    case None => if Key(pool, vol) in h.volumes then Err(Terminal) else Ok
  }

  /** The answer of a call that reaches the host and comes back. */
  function TrueAnswer(h: Host, c: Call): Answer {
    match c
    case PoolExists(p) => Is(p in h.pools)
    case PoolIsActive(p) => if p in h.pools then Is(h.pools[p].active) else Err(NotFound)
    case StartPool(p) =>
      if p !in h.pools then Err(NotFound)
      else if h.pools[p].active || !h.pools[p].mounted then Err(Transient)
      else Ok
    case CreateTmpfsPool(p, _) => if p in h.pools then Err(Terminal) else Ok
    case DestroyPool(p) => Ok
    case VolumeExists(p, v) =>
      (match PoolTrouble(h, p)
       case Some(NotFound) => Is(false)
       case Some(cat) => Err(cat)
       case None => Is(Key(p, v) in h.volumes))
    case CreateVolumeFromBackingStore(p, v, _, _) => CreationAnswer(h, p, v)
    case CloneVolume(p, src, v) =>
      if PoolTrouble(h, p).None? && Key(p, src) !in h.volumes then Err(NotFound)
      else CreationAnswer(h, p, v)
    case CreateVolume(p, v, _) => CreationAnswer(h, p, v)
    case UploadVolumeFromBytes(p, v, _) => CreationAnswer(h, p, v)
    case UploadQcow2Volume(p, v, _) => CreationAnswer(h, p, v)
    case DeleteVolume(p, _) =>
      if PoolTrouble(h, p) == Some(Transient) then Err(Transient) else Ok
    case GetVolumePath(p, v) =>
      (match PoolTrouble(h, p)
       case Some(cat) => Err(cat)
       case None => if Key(p, v) in h.volumes then At(VolumePath(h, p, v)) else Err(NotFound))
    case WriteRemoteFile(_, _) => Ok
    case RemoteFileExists(path) => Is(path in h.files)
    case DeleteRemoteFile(_) => Ok
    case DomainExists(d) => Is(d in h.domains)
    case GetDomain(d) => if d in h.domains then Is(h.domains[d].running) else Err(NotFound)
    case DefineDomain(_, _) => Ok
    case StartDomain(d) =>
      if d !in h.domains then Err(NotFound)
      else if h.domains[d].running then Err(Transient)
      else Ok
    case DestroyDomain(d) =>
      if d in h.domains && !h.domains[d].running then Err(Transient) else Ok
    case UndefineDomain(_) => Ok
  }

  function WithVolume(h: Host, pool: string, vol: string, v: Volume): Host {
    h.(volumes := h.volumes[Key(pool, vol) := v])
  }

  function WithPool(h: Host, pool: string, info: Pool): Host {
    h.(pools := h.pools[pool := info])
  }

  function OutsidePool(volumes: map<Key, Volume>, pool: string): map<Key, Volume> {
    map k | k in volumes && k.pool != pool :: volumes[k]
  }

  function OutsideDir(files: map<string, File>, dir: string): map<string, File> {
    map f | f in files && !Under(f, dir) :: files[f]
  }

  /** The pool and the tmpfs behind it are gone, and everything stored there. */
  function WithoutPool(h: Host, pool: string): Host {
    if pool !in h.pools then h
    else h.(pools := h.pools - {pool},
            volumes := OutsidePool(h.volumes, pool),
            files := OutsideDir(h.files, h.pools[pool].path))
  }

  /** A fresh tmpfs mounted at `path` hides what was stored there. */
  function WithTmpfs(h: Host, pool: string, path: string, active: bool): Host {
    h.(pools := h.pools[pool := Pool(path, active, true)],
       volumes := OutsidePool(h.volumes, pool),
       files := OutsideDir(h.files, path))
  }

  /** The host after a call that worked. */
  function Effect(h: Host, c: Call): Host
    requires !TrueAnswer(h, c).Err?
  {
    match c
    case StartPool(p) => WithPool(h, p, h.pools[p].(active := true))
    case CreateTmpfsPool(p, path) => WithTmpfs(h, p, path, true)
    case DestroyPool(p) => WithoutPool(h, p)
    case CreateVolumeFromBackingStore(p, v, backing, size) => WithVolume(h, p, v, Overlay(backing, size))
    case CloneVolume(p, src, v) => WithVolume(h, p, v, h.volumes[Key(p, src)])
    case CreateVolume(p, v, size) => WithVolume(h, p, v, Blank(size))
    case UploadVolumeFromBytes(p, v, data) => WithVolume(h, p, v, Media(data))
    case UploadQcow2Volume(p, v, image) => WithVolume(h, p, v, image)
    case DeleteVolume(p, v) => h.(volumes := h.volumes - {Key(p, v)})
    case WriteRemoteFile(path, data) => h.(files := h.files[path := Contents(data)])
    case DeleteRemoteFile(path) => h.(files := h.files - {path})
    case DefineDomain(d, def) =>
      h.(domains := h.domains[d := Domain(def, d in h.domains && h.domains[d].running)])
    case StartDomain(d) => h.(domains := h.domains[d := h.domains[d].(running := true)])
    case DestroyDomain(d) =>
      if d in h.domains then h.(domains := h.domains[d := h.domains[d].(running := false)]) else h
    case UndefineDomain(d) => h.(domains := h.domains - {d})
    case _ => h
  }

  /** A pool call stopped half-way: the pool is defined but not started, or stopped only. */
  function HalfEffect(h: Host, c: Call): Host
    requires !TrueAnswer(h, c).Err?
  {
    match c
    case CreateTmpfsPool(p, path) => WithTmpfs(h, p, path, false)
    case DestroyPool(p) => if p in h.pools then WithPool(h, p, h.pools[p].(active := false)) else h
    case _ => h
  }

  /** A transfer stopped half-way: the target exists and its contents are not the data. */
  function TornEffect(h: Host, c: Call): Host
    requires !TrueAnswer(h, c).Err?
  {
    match c
    case UploadVolumeFromBytes(p, v, _) => WithVolume(h, p, v, TornUpload)
    case UploadQcow2Volume(p, v, _) => WithVolume(h, p, v, TornUpload)
    case WriteRemoteFile(path, _) => h.(files := h.files[path := TornWrite])
    case _ => h
  }

  function HostAfter(h: Host, c: Call, f: Fault): Host {
    if TrueAnswer(h, c).Err? then h
    else
      match (if f.Fine? then All else f.extent)
      case All => Effect(h, c)
      case Half => HalfEffect(h, c)
      case Torn => TornEffect(h, c)
      case Nothing => h
  }

  /** A broken call never says "not found": only a true answer does. */
  function AnswerUnder(h: Host, c: Call, f: Fault): Answer {
    match f
    case Fine => TrueAnswer(h, c)
    case Broken(_, cat) => Err(if cat.NotFound? then Transient else cat)
  }

  function NextFault(faults: seq<Fault>): Fault {
    if faults == [] then Fine else faults[0]
  }

  function LaterFaults(faults: seq<Fault>): seq<Fault> {
    if faults == [] then [] else faults[1..]
  }

  function Send(r: Remote, c: Call): Remote {
    Remote(HostAfter(r.host, c, NextFault(r.faults)), LaterFaults(r.faults), r.log + [c])
  }

  function Reply(r: Remote, c: Call): Answer {
    AnswerUnder(r.host, c, NextFault(r.faults))
  }

  /** No fault of the script is of category `Terminal`. */
  ghost predicate Retryable(faults: seq<Fault>) {
    forall f | f in faults :: f.Broken? ==> !f.cat.Terminal?
  }

  /** No fault of the script tears an upload or a file write. */
  ghost predicate Untorn(faults: seq<Fault>) {
    forall f | f in faults :: f.Broken? ==> !f.extent.Torn?
  }

  /** Every call allowed by `ok` keeps `inv`, whatever fault it meets. */
  ghost predicate Closed(inv: Remote -> bool, ok: Call -> bool) {
    forall r, c {:trigger Send(r, c)} :: inv(r) && ok(c) ==> inv(Send(r, c))
  }

  // ----- Calls one after another -----

  function Played(r: Remote, calls: seq<Call>): Remote {
    if calls == [] then r else Send(Played(r, calls[..|calls| - 1]), calls[|calls| - 1])
  }

  /** The fault that the call number `i` of a script meets. */
  function FaultAt(faults: seq<Fault>, i: nat): Fault { if i < |faults| then faults[i] else Fine }

  lemma {:induction false} PlayedLog(r: Remote, calls: seq<Call>)
    ensures var q := Played(r, calls);
            && q.log == r.log + calls
            && q.faults == (if |calls| <= |r.faults| then r.faults[|calls|..] else [])
            && NextFault(q.faults) == FaultAt(r.faults, |calls|)
  {
    hide HostAfter;
    if calls != [] {
      PlayedLog(r, calls[..|calls| - 1]);
    }
  }

  lemma {:induction false} PlayedOn(r: Remote, a: seq<Call>, b: seq<Call>)
    ensures Played(r, a + b) == Played(Played(r, a), b)
  {
    hide Send;
    if b == [] {
      assert a + b == a;
    } else {
      assert (a + b)[..|a + b| - 1] == a + b[..|b| - 1];
      PlayedOn(r, a, b[..|b| - 1]);
    }
  }

  /** `q` is what the calls logged since `r` made of it. */
  ghost predicate Logged(r: Remote, q: Remote) {
    |r.log| <= |q.log| && q == Played(r, q.log[|r.log|..])
  }

  lemma LoggedCall(r: Remote, q: Remote, c: Call)
    requires Logged(r, q)
    ensures Logged(r, Send(q, c))
  {
    hide HostAfter;
    assert Send(q, c).log[|r.log|..] == q.log[|r.log|..] + [c];
  }

  // ----- What one call can do to each part of the host, whatever the fault -----

  predicate MakesVolume(c: Call) {
    || c.CreateVolumeFromBackingStore? || c.CloneVolume? || c.CreateVolume?
    || c.UploadVolumeFromBytes? || c.UploadQcow2Volume?
  }

  predicate VolumesChange(h: Host, c: Call, now: map<Key, Volume>) {
    || now == h.volumes
    || (c.DeleteVolume? && now == h.volumes - {Key(c.pool, c.vol)})
    || ((c.DestroyPool? || c.CreateTmpfsPool?) && now == OutsidePool(h.volumes, c.pool))
    || (&& MakesVolume(c)
        && Key(c.pool, c.vol) !in h.volumes && Key(c.pool, c.vol) in now
        && now == h.volumes[Key(c.pool, c.vol) := now[Key(c.pool, c.vol)]])
  }

  lemma VolumesOfEffect(h: Host, c: Call)
    requires !TrueAnswer(h, c).Err?
    ensures VolumesChange(h, c, Effect(h, c).volumes)
  {
    hide OutsidePool, OutsideDir;
  }

  lemma VolumesOfPart(h: Host, c: Call)
    requires !TrueAnswer(h, c).Err?
    ensures VolumesChange(h, c, HalfEffect(h, c).volumes) && VolumesChange(h, c, TornEffect(h, c).volumes)
  {
    hide OutsidePool, OutsideDir;
  }

  lemma VolumesAfter(h: Host, c: Call, f: Fault)
    ensures VolumesChange(h, c, HostAfter(h, c, f).volumes)
  {
    hide TrueAnswer, Effect, HalfEffect, TornEffect;
    if !TrueAnswer(h, c).Err? {
      VolumesOfEffect(h, c);
      VolumesOfPart(h, c);
    }
  }

  predicate PoolsChange(h: Host, c: Call, now: map<string, Pool>) {
    || now == h.pools
    || (c.DestroyPool? && now == h.pools - {c.pool})
    || (&& (c.DestroyPool? || c.StartPool?) && c.pool in h.pools && c.pool in now
        && now == h.pools[c.pool := now[c.pool]] && now[c.pool].path == h.pools[c.pool].path)
    || (&& c.CreateTmpfsPool? && c.pool in now
        && now == h.pools[c.pool := now[c.pool]] && now[c.pool].path == c.path)
  }

  lemma PoolsOfEffect(h: Host, c: Call)
    requires !TrueAnswer(h, c).Err?
    ensures PoolsChange(h, c, Effect(h, c).pools)
  {
    hide OutsidePool, OutsideDir;
  }

  lemma PoolsOfPart(h: Host, c: Call)
    requires !TrueAnswer(h, c).Err?
    ensures PoolsChange(h, c, HalfEffect(h, c).pools) && PoolsChange(h, c, TornEffect(h, c).pools)
  {
    hide OutsidePool, OutsideDir;
  }

  lemma PoolsAfter(h: Host, c: Call, f: Fault)
    ensures PoolsChange(h, c, HostAfter(h, c, f).pools)
  {
    hide TrueAnswer, Effect, HalfEffect, TornEffect;
    if !TrueAnswer(h, c).Err? {
      PoolsOfEffect(h, c);
      PoolsOfPart(h, c);
    }
  }

  predicate DomainsChange(h: Host, c: Call, now: map<string, Domain>) {
    || now == h.domains
    || (c.UndefineDomain? && now == h.domains - {c.domain})
    || (&& c.DefineDomain?
        && now == h.domains[c.domain := Domain(c.def, c.domain in h.domains && h.domains[c.domain].running)])
    || (&& c.StartDomain? && c.domain in h.domains
        && now == h.domains[c.domain := h.domains[c.domain].(running := true)])
    || (&& c.DestroyDomain? && c.domain in h.domains
        && now == h.domains[c.domain := h.domains[c.domain].(running := false)])
  }

  lemma DomainsOfEffect(h: Host, c: Call)
    requires !TrueAnswer(h, c).Err?
    ensures DomainsChange(h, c, Effect(h, c).domains)
  {
    hide OutsidePool, OutsideDir;
  }

  lemma DomainsOfPart(h: Host, c: Call)
    requires !TrueAnswer(h, c).Err?
    ensures HalfEffect(h, c).domains == TornEffect(h, c).domains == h.domains
  {
    hide OutsidePool, OutsideDir;
  }

  lemma DomainsAfter(h: Host, c: Call, f: Fault)
    ensures DomainsChange(h, c, HostAfter(h, c, f).domains)
  {
    hide TrueAnswer, Effect, HalfEffect, TornEffect;
    if !TrueAnswer(h, c).Err? {
      DomainsOfEffect(h, c);
      DomainsOfPart(h, c);
    }
  }

  predicate FilesChange(h: Host, c: Call, now: map<string, File>) {
    || now == h.files
    || (c.DeleteRemoteFile? && now == h.files - {c.path})
    || (&& c.WriteRemoteFile?
        && (now == h.files[c.path := Contents(c.data)] || now == h.files[c.path := TornWrite]))
    || (c.DestroyPool? && c.pool in h.pools && now == OutsideDir(h.files, h.pools[c.pool].path))
    || (c.CreateTmpfsPool? && now == OutsideDir(h.files, c.path))
  }

  lemma FilesOfEffect(h: Host, c: Call)
    requires !TrueAnswer(h, c).Err?
    ensures FilesChange(h, c, Effect(h, c).files)
  {
    hide OutsidePool, OutsideDir;
  }

  lemma FilesOfPart(h: Host, c: Call)
    requires !TrueAnswer(h, c).Err?
    ensures FilesChange(h, c, HalfEffect(h, c).files) && FilesChange(h, c, TornEffect(h, c).files)
  {
    hide OutsidePool, OutsideDir;
  }

  lemma FilesAfter(h: Host, c: Call, f: Fault)
    ensures FilesChange(h, c, HostAfter(h, c, f).files)
  {
    hide TrueAnswer, Effect, HalfEffect, TornEffect;
    if !TrueAnswer(h, c).Err? {
      FilesOfEffect(h, c);
      FilesOfPart(h, c);
    }
  }
}
