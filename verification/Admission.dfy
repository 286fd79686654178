/** The validating webhook for machines (internal/webhook/v1alpha1/libvirtmachine_webhook.go) and what
    it guarantees over every history of requests to the API server. */
module Admission {
  import opened Common
  import Shell

  datatype DiskSpec = DiskSpec(name: string, storagePool: string)

  /** `rest` stands for the fields that the webhook only compares. */
  datatype Spec = Spec(
    host: string, addresses: seq<string>,
    storagePool: string, baseImage: string, baseImagePool: string, fullClone: bool,
    disks: seq<DiskSpec>, rest: string,
    providerID: Option<string>)

  // ----- Field errors -----

  /** Where an error is reported. */
  datatype Field =
    | Addresses | Address(i: int)
    | StoragePool | BaseImage | BaseImagePool | DiskName(i: int) | DiskPool(i: int)
    | CloneStrategy | HostRef | ProviderID | Whole

  predicate NameChar(c: char) {
    'A' <= c <= 'Z' || 'a' <= c <= 'z' || '0' <= c <= '9' || c in {'_', '.', ':', '-'}
  }

  /** Empty, or libvirtIdentifierPattern. */
  predicate Identifier(s: string) { forall i | 0 <= i < |s| :: NameChar(s[i]) }

  function BasePool(s: Spec): string { if s.baseImagePool == "" then s.storagePool else s.baseImagePool }

  predicate UnsafeName(s: Spec, f: Field) {
    match f
    case StoragePool => !Identifier(s.storagePool)
    case BaseImage => !Identifier(s.baseImage)
    case BaseImagePool => !Identifier(s.baseImagePool)
    case DiskName(i) => 0 <= i < |s.disks| && !Identifier(s.disks[i].name)
    case DiskPool(i) => 0 <= i < |s.disks| && !Identifier(s.disks[i].storagePool)
    case _ => false
  }

  /** `cidr` is net.ParseCIDR; `free` is whether the host check passes. */
  predicate WrongToCreate(cidr: string -> bool, free: bool, s: Spec, f: Field) {
    match f
    case Addresses => s.addresses == []
    case Address(i) => 0 <= i < |s.addresses| && !cidr(s.addresses[i])
    case CloneStrategy => s.fullClone && BasePool(s) != s.storagePool
    case HostRef => !free
    case _ => UnsafeName(s, f)
  }

  predicate WrongToUpdate(before: Spec, after: Spec, f: Field) {
    match f
    case ProviderID => before.providerID.Some? && after.providerID != before.providerID
    case Whole => before.(providerID := None) != after.(providerID := None)
    case _ => UnsafeName(after, f)
  }

  function NameError(errors: seq<Field>, f: Field, value: string): seq<Field> {
    if Identifier(value) then errors else errors + [f]
  }

  method ValidateNames(s: Spec) returns (errors: seq<Field>)
    ensures forall f :: f in errors <==> UnsafeName(s, f)
  {
    hide Identifier;
    errors := NameError([], StoragePool, s.storagePool);
    errors := NameError(errors, BaseImage, s.baseImage);
    if s.baseImagePool != "" { errors := NameError(errors, BaseImagePool, s.baseImagePool); }
    assert s.baseImagePool == "" ==> Identifier(s.baseImagePool) by { EmptyIsIdentifier(); }
    for i := 0 to |s.disks|
      invariant forall f :: f in errors <==> UnsafeName(s, f) && ((f.DiskName? || f.DiskPool?) ==> f.i < i)
    {
      errors := NameError(errors, DiskName(i), s.disks[i].name);
      errors := NameError(errors, DiskPool(i), s.disks[i].storagePool);
    }
  }

  lemma EmptyIsIdentifier()
    ensures Identifier("")
  {
  }

  method ValidateCreate(cidr: string -> bool, s: Spec, free: bool) returns (errors: seq<Field>)
    ensures forall f :: f in errors <==> WrongToCreate(cidr, free, s, f)
  {
    hide UnsafeName, BasePool;
    errors := if s.addresses == [] then [Addresses] else [];
    for i := 0 to |s.addresses|
      invariant forall f :: f in errors <==>
                  && (f.Addresses? || f.Address?)
                  && WrongToCreate(cidr, free, s, f)
                  && (f.Address? ==> f.i < i)
    {
      if !cidr(s.addresses[i]) { errors := errors + [Address(i)]; }
    }
    NoOtherUnsafe(s);
    var names := ValidateNames(s);
    errors := errors + names;
    if s.fullClone && BasePool(s) != s.storagePool { errors := errors + [CloneStrategy]; }
    if !free { errors := errors + [HostRef]; }
  }

  method ValidateUpdate(before: Spec, after: Spec) returns (errors: seq<Field>)
    ensures forall f :: f in errors <==> WrongToUpdate(before, after, f)
  {
    hide UnsafeName;
    NoOtherUnsafe(after);
    errors := ValidateNames(after);
    if before.providerID.Some? {
      if after.providerID.None? { errors := errors + [ProviderID]; }
      else if before.providerID.value != after.providerID.value { errors := errors + [ProviderID]; }
    }
    if before.(providerID := None) != after.(providerID := None) { errors := errors + [Whole]; }
  }

  lemma NoOtherUnsafe(s: Spec)
    ensures forall f | UnsafeName(s, f) ::
      f.StoragePool? || f.BaseImage? || f.BaseImagePool? || f.DiskName? || f.DiskPool?
  {
  }

  // ----- Names on a command line -----

  lemma {:induction false} NameIsReadWhole(word: string, s: string)
    requires Identifier(s)
    ensures Shell.Words(Shell.Plain, word, s) == Some([word + s])
    decreases |s|
  {
    if s == "" {
      assert word + s == word;
    } else {
      assert NameChar(s[0]);
      NameIsReadWhole(word + [s[0]], s[1..]);
      assert word + [s[0]] + s[1..] == word + s;
    }
  }

  /** An accepted name is shell-safe: even unquoted, a shell reads it as one word, itself. */
  lemma AcceptedNameIsOneWord(s: string)
    requires Identifier(s) && s != ""
    ensures Shell.Tokenize(s) == Some([s])
  {
    assert NameChar(s[0]);
    NameIsReadWhole("" + [s[0]], s[1..]);
    assert "" + [s[0]] + s[1..] == s;
  }

  // ----- The API server -----

  datatype Key = Key(namespace: string, name: string)

  datatype Machine = Machine(spec: Spec, deleting: bool)

  type Store = map<Key, Machine>

  /** No other live machine of the namespace names the host. */
  ghost predicate HostFree(s: Store, k: Key, host: string) {
    forall o | o in s && o.namespace == k.namespace && o != k && !s[o].deleting :: s[o].spec.host != host
  }

  /** One listed machine. */
  datatype Item = Item(key: Key, machine: Machine)

  ghost predicate Lists(items: seq<Item>, s: Store, namespace: string) {
    && (forall j | 0 <= j < |items| ::
          && items[j].key in s && items[j].key.namespace == namespace
          && s[items[j].key] == items[j].machine)
    && (forall o | o in s && o.namespace == namespace :: Item(o, s[o]) in items)
  }

  /** validateHostUniqueness on a successful listing. */
  method ValidateHostUniqueness(items: seq<Item>, k: Key, host: string, ghost s: Store) returns (free: bool)
    requires Lists(items, s, k.namespace)
    ensures free <==> HostFree(s, k, host)
  {
    for j := 0 to |items|
      invariant forall n | 0 <= n < j ::
                  items[n].key == k || items[n].machine.deleting || items[n].machine.spec.host != host
    {
      var it := items[j];
      if it.key == k { continue; }
      if it.machine.deleting { continue; }
      if it.machine.spec.host == host { return false; }
    }
    return true;
  }

  ghost predicate NothingWrong(cidr: string -> bool, free: bool, spec: Spec) {
    forall f :: !WrongToCreate(cidr, free, spec, f)
  }

  /** `listed` is whether the machines of the namespace could be listed. */
  ghost predicate CreateAccepted(cidr: string -> bool, s: Store, k: Key, spec: Spec, listed: bool) {
    NothingWrong(cidr, listed && HostFree(s, k, spec.host), spec)
  }

  ghost predicate UpdateAccepted(before: Spec, after: Spec) { forall f :: !WrongToUpdate(before, after, f) }

  /** Creation in two steps: the webhook reads the store and approves; later the server commits.  The
      approvals not yet committed are part of the state. */
  datatype State = State(store: Store, approved: map<nat, (Key, Spec)>)

  datatype Event =
    | Approve(id: nat, key: Key, spec: Spec, listed: bool)
    | Commit(id: nat)
    | Update(key: Key, spec: Spec)
    | Delete(key: Key)
    | Remove(key: Key)

  ghost function Step(cidr: string -> bool, s: State, e: Event): State {
    match e
    case Approve(id, key, spec, listed) =>
      if CreateAccepted(cidr, s.store, key, spec, listed)
      then s.(approved := s.approved[id := (key, spec)]) else s.(approved := s.approved - {id})
    case Commit(id) =>
      if id !in s.approved then s
      else
        var (key, spec) := s.approved[id];
        State(if key in s.store then s.store else s.store[key := Machine(spec, false)], s.approved - {id})
    case Update(key, spec) =>
      if key in s.store && UpdateAccepted(s.store[key].spec, spec)
      then s.(store := s.store[key := s.store[key].(spec := spec)]) else s
    case Delete(key) =>
      if key in s.store then s.(store := s.store[key := s.store[key].(deleting := true)]) else s
    case Remove(key) =>
      if key in s.store && s.store[key].deleting then s.(store := s.store - {key}) else s
  }

  ghost function Run(cidr: string -> bool, s: State, events: seq<Event>): State {
    if events == [] then s else Step(cidr, Run(cidr, s, events[..|events| - 1]), events[|events| - 1])
  }

  ghost const EMPTY := State(map[], map[])

  // ----- What every stored machine is -----

  ghost predicate Proper(cidr: string -> bool, s: Spec) {
    && s.addresses != [] && (forall i | 0 <= i < |s.addresses| :: cidr(s.addresses[i]))
    && (s.fullClone ==> s.baseImagePool == "" || s.baseImagePool == s.storagePool)
    && Identifier(s.storagePool) && Identifier(s.baseImage) && Identifier(s.baseImagePool)
    && (forall i | 0 <= i < |s.disks| :: Identifier(s.disks[i].name) && Identifier(s.disks[i].storagePool))
  }

  lemma NothingWrongIsProper(cidr: string -> bool, free: bool, s: Spec)
    requires NothingWrong(cidr, free, s)
    ensures Proper(cidr, s) && free
  {
    hide Identifier;
    assert !WrongToCreate(cidr, free, s, Addresses) && !WrongToCreate(cidr, free, s, CloneStrategy);
    assert !WrongToCreate(cidr, free, s, HostRef) && !WrongToCreate(cidr, free, s, StoragePool);
    assert !WrongToCreate(cidr, free, s, BaseImage) && !WrongToCreate(cidr, free, s, BaseImagePool);
    forall i | 0 <= i < |s.addresses|
      ensures cidr(s.addresses[i])
    {
      assert !WrongToCreate(cidr, free, s, Address(i));
    }
    forall i | 0 <= i < |s.disks|
      ensures Identifier(s.disks[i].name) && Identifier(s.disks[i].storagePool)
    {
      assert !WrongToCreate(cidr, free, s, DiskName(i));
      assert !WrongToCreate(cidr, free, s, DiskPool(i));
    }
  }

  lemma AcceptedIsProper(cidr: string -> bool, s: Store, k: Key, spec: Spec, listed: bool)
    requires CreateAccepted(cidr, s, k, spec, listed)
    ensures Proper(cidr, spec) && listed && HostFree(s, k, spec.host)
  {
    hide Proper, HostFree, NothingWrong;
    NothingWrongIsProper(cidr, listed && HostFree(s, k, spec.host), spec);
  }

  /** The webhook accepts a creation exactly when the machine is proper, the machines of the namespace could
      be listed, and none of them holds the host. */
  lemma CreateAcceptedExactly(cidr: string -> bool, s: Store, k: Key, spec: Spec, listed: bool)
    ensures CreateAccepted(cidr, s, k, spec, listed) <==> Proper(cidr, spec) && listed && HostFree(s, k, spec.host)
  {
    hide Proper, HostFree, CreateAccepted;
    if CreateAccepted(cidr, s, k, spec, listed) {
      AcceptedIsProper(cidr, s, k, spec, listed);
    } else if Proper(cidr, spec) && listed && HostFree(s, k, spec.host) {
      ProperIsAccepted(cidr, s, k, spec);
    }
  }

  /** Only a missing provider ID may be filled in. */
  ghost predicate Aged(before: Spec, after: Spec) {
    && after.(providerID := None) == before.(providerID := None)
    && (before.providerID.Some? ==> after.providerID == before.providerID)
  }

  lemma UpdateAges(before: Spec, after: Spec)
    requires UpdateAccepted(before, after)
    ensures Aged(before, after)
  {
    assert !WrongToUpdate(before, after, ProviderID) && !WrongToUpdate(before, after, Whole);
  }

  ghost predicate SafeNames(s: Spec) {
    && Identifier(s.storagePool) && Identifier(s.baseImage) && Identifier(s.baseImagePool)
    && (forall i | 0 <= i < |s.disks| :: Identifier(s.disks[i].name) && Identifier(s.disks[i].storagePool))
  }

  lemma SafeNamesExactly(s: Spec)
    ensures SafeNames(s) <==> forall f :: !UnsafeName(s, f)
  {
    hide Identifier;
    if forall f :: !UnsafeName(s, f) {
      assert !UnsafeName(s, StoragePool) && !UnsafeName(s, BaseImage) && !UnsafeName(s, BaseImagePool);
      forall i | 0 <= i < |s.disks|
        ensures Identifier(s.disks[i].name) && Identifier(s.disks[i].storagePool)
      {
        assert !UnsafeName(s, DiskName(i)) && !UnsafeName(s, DiskPool(i));
      }
    }
  }

  /** And an update exactly when it only fills in a missing provider ID, if anything, and names are safe. */
  lemma UpdateAcceptedExactly(before: Spec, after: Spec)
    ensures UpdateAccepted(before, after) <==> Aged(before, after) && SafeNames(after)
  {
    hide UnsafeName, SafeNames;
    SafeNamesExactly(after);
    NoOtherUnsafe(after);
    if UpdateAccepted(before, after) {
      UpdateAges(before, after);
      forall f
        ensures !UnsafeName(after, f)
      {
        assert !WrongToUpdate(before, after, f);
      }
    }
  }

  lemma AgedIsProper(cidr: string -> bool, before: Spec, after: Spec)
    requires Aged(before, after) && Proper(cidr, before)
    ensures Proper(cidr, after) && after.host == before.host
  {
    hide Identifier;
    var b, a := before.(providerID := None), after.(providerID := None);
    assert a.disks == after.disks && b.disks == before.disks && a.addresses == after.addresses
        && b.addresses == before.addresses;
    assert a.storagePool == after.storagePool && b.storagePool == before.storagePool && a.baseImage == after.baseImage;
    assert b.baseImage == before.baseImage && a.baseImagePool == after.baseImagePool
        && b.baseImagePool == before.baseImagePool;
    assert a.fullClone == after.fullClone && b.fullClone == before.fullClone && a.host == after.host
        && b.host == before.host;
  }

  ghost predicate AllProper(cidr: string -> bool, s: State) {
    && (forall k | k in s.store :: Proper(cidr, s.store[k].spec))
    && (forall id | id in s.approved :: Proper(cidr, s.approved[id].1))
  }

  lemma StepKeepsProper(cidr: string -> bool, s: State, e: Event)
    requires AllProper(cidr, s)
    ensures AllProper(cidr, Step(cidr, s, e))
  {
    hide Proper, CreateAccepted, UpdateAccepted, Aged;
    match e {
      case Approve(id, key, spec, listed) =>
        if CreateAccepted(cidr, s.store, key, spec, listed) { AcceptedIsProper(cidr, s.store, key, spec, listed); }
      case Update(key, spec) =>
        if key in s.store && UpdateAccepted(s.store[key].spec, spec) {
          UpdateAges(s.store[key].spec, spec);
          AgedIsProper(cidr, s.store[key].spec, spec);
        }
      case _ =>
    }
  }

  /** Whatever the interleaving of approvals, commits, updates and deletions: every stored machine
      has valid addresses, shell-safe names and a full clone only inside its own pool. */
  lemma {:induction false} StoredMachinesAreProper(cidr: string -> bool, events: seq<Event>)
    ensures AllProper(cidr, Run(cidr, EMPTY, events))
  {
    hide Proper, Step;
    if events != [] {
      StoredMachinesAreProper(cidr, events[..|events| - 1]);
      StepKeepsProper(cidr, Run(cidr, EMPTY, events[..|events| - 1]), events[|events| - 1]);
    }
  }

  lemma StepAges(cidr: string -> bool, s: State, e: Event, k: Key)
    requires k in s.store && e != Remove(k)
    ensures var t := Step(cidr, s, e).store;
      k in t && Aged(s.store[k].spec, t[k].spec) && (s.store[k].deleting ==> t[k].deleting)
  {
    hide CreateAccepted, UpdateAccepted;
    if e.Update? && e.key == k && UpdateAccepted(s.store[k].spec, e.spec) { UpdateAges(s.store[k].spec, e.spec); }
  }

  /** From its creation to its removal a machine's spec never changes, except that a missing provider
      ID is filled in once; and a deletion is never taken back. */
  lemma {:induction false} SpecIsImmutable(cidr: string -> bool, s: State, events: seq<Event>, k: Key)
    requires k in s.store && Remove(k) !in events
    ensures var t := Run(cidr, s, events).store;
      k in t && Aged(s.store[k].spec, t[k].spec) && (s.store[k].deleting ==> t[k].deleting)
  {
    hide Step;
    if events != [] {
      var before := Run(cidr, s, events[..|events| - 1]);
      SpecIsImmutable(cidr, s, events[..|events| - 1], k);
      StepAges(cidr, before, events[|events| - 1], k);
      AgedTwice(s.store[k].spec, before.store[k].spec, Run(cidr, s, events).store[k].spec);
    }
  }

  lemma AgedTwice(a: Spec, b: Spec, c: Spec)
    requires Aged(a, b) && Aged(b, c)
    ensures Aged(a, c)
  {
  }

  /** An accepted creation that is committed at once is stored as it was sent. */
  lemma ProperCreationIsStored(cidr: string -> bool, s: State, id: nat, k: Key, spec: Spec)
    requires Proper(cidr, spec) && HostFree(s.store, k, spec.host) && k !in s.store
    ensures Step(cidr, Step(cidr, s, Approve(id, k, spec, true)), Commit(id)).store
        == s.store[k := Machine(spec, false)]
  {
    hide Proper, HostFree, CreateAccepted;
    CreateAcceptedExactly(cidr, s.store, k, spec, true);
  }

  /** So is the provider ID that the controller fills in, for every machine that the webhook let in. */
  lemma ProviderIDIsStored(cidr: string -> bool, events: seq<Event>, k: Key, id: string)
    requires var s := Run(cidr, EMPTY, events).store; k in s && s[k].spec.providerID.None?
    ensures var s := Run(cidr, EMPTY, events);
            Step(cidr, s, Update(k, s.store[k].spec.(providerID := Some(id)))).store
            == s.store[k := s.store[k].(spec := s.store[k].spec.(providerID := Some(id)))]
  {
    hide Run, UpdateAccepted, Identifier;
    var s := Run(cidr, EMPTY, events);
    var after := s.store[k].spec.(providerID := Some(id));
    StoredMachinesAreProper(cidr, events);
    assert SafeNames(after);
    assert Aged(s.store[k].spec, after);
    UpdateAcceptedExactly(s.store[k].spec, after);
  }

  /** A deletion request marks the machine and changes nothing else; only then can it be removed. */
  lemma DeletionTakesTwoSteps(cidr: string -> bool, s: State, k: Key)
    requires k in s.store
    ensures var marked := Step(cidr, s, Delete(k));
            && marked.store == s.store[k := Machine(s.store[k].spec, true)]
            && Step(cidr, marked, Remove(k)).store == s.store - {k}
            && (!s.store[k].deleting ==> Step(cidr, s, Remove(k)) == s)
  {
  }

  // ----- One live machine per host -----

  ghost predicate OneLivePerHost(s: Store) {
    forall j, k | j in s && k in s && j != k && j.namespace == k.namespace && !s[j].deleting && !s[k].deleting ::
      s[j].spec.host != s[k].spec.host
  }

  /** Committing an approval keeps one live machine per host exactly when the webhook would still
      find the host free. */
  lemma CommitKeepsHosts(cidr: string -> bool, s: State, id: nat)
    requires OneLivePerHost(s.store) && id in s.approved && s.approved[id].0 !in s.store
    ensures OneLivePerHost(Step(cidr, s, Commit(id)).store)
        <==> HostFree(s.store, s.approved[id].0, s.approved[id].1.host)
  {
    var (key, spec) := s.approved[id];
    var t := Step(cidr, s, Commit(id)).store;
    assert t == s.store[key := Machine(spec, false)];
    if !HostFree(s.store, key, spec.host) {
      var o :| o in s.store && o.namespace == key.namespace && o != key && !s.store[o].deleting
          && s.store[o].spec.host == spec.host;
      assert t[o].spec.host == t[key].spec.host;
    }
  }

  lemma OtherStepsKeepHosts(cidr: string -> bool, s: State, e: Event)
    requires OneLivePerHost(s.store) && !e.Commit?
    ensures OneLivePerHost(Step(cidr, s, e).store)
  {
    hide CreateAccepted, UpdateAccepted, Aged;
    if e.Update? && e.key in s.store && UpdateAccepted(s.store[e.key].spec, e.spec) {
      UpdateKeepsHost(s.store[e.key].spec, e.spec);
    }
  }

  lemma UpdateKeepsHost(before: Spec, after: Spec)
    requires UpdateAccepted(before, after)
    ensures after.host == before.host
  {
    UpdateAges(before, after);
    assert before.(providerID := None).host == after.(providerID := None).host;
  }

  /** An approval is committed before anything else happens. */
  ghost predicate Serial(events: seq<Event>) {
    forall i | 0 <= i < |events| && events[i].Commit? ::
      i > 0 && events[i - 1].Approve? && events[i - 1].id == events[i].id
  }

  /** A commit that takes effect still finds the host free. */
  ghost predicate Timely(s: State, e: Event) {
    e.Commit? && e.id in s.approved && s.approved[e.id].0 !in s.store ==>
      HostFree(s.store, s.approved[e.id].0, s.approved[e.id].1.host)
  }

  ghost predicate TimelyRun(cidr: string -> bool, s: State, events: seq<Event>) {
    forall i | 0 <= i < |events| :: Timely(Run(cidr, s, events[..i]), events[i])
  }

  ghost predicate UniqueAlong(cidr: string -> bool, s: State, events: seq<Event>) {
    forall i | 0 <= i <= |events| :: OneLivePerHost(Run(cidr, s, events[..i]).store)
  }

  lemma StepKeepsHostsExactly(cidr: string -> bool, s: State, e: Event)
    requires OneLivePerHost(s.store)
    ensures OneLivePerHost(Step(cidr, s, e).store) <==> Timely(s, e)
  {
    hide OneLivePerHost, HostFree, CreateAccepted, UpdateAccepted;
    if !e.Commit? {
      OtherStepsKeepHosts(cidr, s, e);
    } else if e.id in s.approved && s.approved[e.id].0 !in s.store {
      CommitKeepsHosts(cidr, s, e.id);
    }
  }

  /** One live machine per host, exactly.  Over every interleaving of approvals, commits, updates and
      deletions, no two live machines of a namespace ever share a host if and only if every commit that
      takes effect still finds the host free. */
  lemma {:induction false} HostsAreUniqueExactly(cidr: string -> bool, s: State, events: seq<Event>)
    requires OneLivePerHost(s.store)
    ensures UniqueAlong(cidr, s, events) <==> TimelyRun(cidr, s, events)
  {
    hide Step, OneLivePerHost, Timely, Run;
    if events == [] {
      assert Run(cidr, s, []) == s by { NoEvents(cidr, s); }
    } else {
      var n := |events| - 1;
      var front := events[..n];
      assert forall i | 0 <= i <= n :: front[..i] == events[..i];
      assert events[..n + 1] == events;
      HostsAreUniqueExactly(cidr, s, front);
      RunExtends(cidr, s, events);
      if OneLivePerHost(Run(cidr, s, front).store) {
        StepKeepsHostsExactly(cidr, Run(cidr, s, front), events[n]);
      }
      assert UniqueAlong(cidr, s, events) <==>
          UniqueAlong(cidr, s, front) && OneLivePerHost(Run(cidr, s, events[..n + 1]).store);
      assert UniqueAlong(cidr, s, front) ==> OneLivePerHost(Run(cidr, s, front[..n]).store);
      assert TimelyRun(cidr, s, events) <==>
          TimelyRun(cidr, s, front) && Timely(Run(cidr, s, events[..n]), events[n]);
    }
  }

  lemma NoEvents(cidr: string -> bool, s: State)
    ensures Run(cidr, s, []) == s
  {
  }

  lemma RunExtends(cidr: string -> bool, s: State, events: seq<Event>)
    requires events != []
    ensures Run(cidr, s, events) == Step(cidr, Run(cidr, s, events[..|events| - 1]), events[|events| - 1])
  {
    hide Step;
  }

  /** So it is when approvals are committed at once. */
  lemma HostsAreUnique(cidr: string -> bool, events: seq<Event>)
    requires Serial(events)
    ensures UniqueAlong(cidr, EMPTY, events)
  {
    hide Step, OneLivePerHost, Run, Timely;
    EmptyIsUnique();
    forall i | 0 <= i < |events|
      ensures Timely(Run(cidr, EMPTY, events[..i]), events[i])
    {
      if events[i].Commit? {
        assert events[..i][..i - 1] == events[..i - 1] && events[..i][i - 1] == events[i - 1];
        RunExtends(cidr, EMPTY, events[..i]);
        SerialIsTimely(cidr, Run(cidr, EMPTY, events[..i - 1]), events[i - 1], events[i]);
      } else {
        OthersAreTimely(Run(cidr, EMPTY, events[..i]), events[i]);
      }
    }
    HostsAreUniqueExactly(cidr, EMPTY, events);
  }

  lemma OthersAreTimely(s: State, e: Event)
    requires !e.Commit?
    ensures Timely(s, e)
  {
  }

  lemma EmptyIsUnique()
    ensures OneLivePerHost(EMPTY.store)
  {
  }

  lemma SerialIsTimely(cidr: string -> bool, s: State, a: Event, c: Event)
    requires a.Approve? && c.Commit? && a.id == c.id
    ensures Timely(Step(cidr, s, a), c)
  {
    hide CreateAccepted, HostFree, Proper;
    if CreateAccepted(cidr, s.store, a.key, a.spec, a.listed) {
      AcceptedIsProper(cidr, s.store, a.key, a.spec, a.listed);
    }
  }

  /** Two creations approved against the same store both commit, and share their host. */
  lemma RacingCreationsShareHost(cidr: string -> bool, spec: Spec, a: Key, b: Key)
    requires Proper(cidr, spec) && a.namespace == b.namespace && a != b
    ensures !OneLivePerHost(Run(cidr, EMPTY,
        [Approve(0, a, spec, true), Approve(1, b, spec, true), Commit(0), Commit(1)]).store)
  {
    hide Proper, CreateAccepted, HostFree, Run;
    ProperIsAccepted(cidr, EMPTY.store, a, spec) by { NobodyHolds(a, spec.host); }
    ProperIsAccepted(cidr, EMPTY.store, b, spec) by { NobodyHolds(b, spec.host); }
    var e0, e1 := Approve(0, a, spec, true), Approve(1, b, spec, true);
    RunOfFour(cidr, EMPTY, e0, e1, Commit(0), Commit(1));
    var s1 := Step(cidr, EMPTY, e0);
    assert s1 == State(map[], map[0 := (a, spec)]);
    var s2 := Step(cidr, s1, e1);
    assert s2 == State(map[], map[0 := (a, spec), 1 := (b, spec)]);
    var s3 := Step(cidr, s2, Commit(0));
    assert s3.store == map[a := Machine(spec, false)] && 1 in s3.approved && s3.approved[1] == (b, spec);
    var s4 := Step(cidr, s3, Commit(1));
    assert s4.store == map[a := Machine(spec, false), b := Machine(spec, false)];
    assert s4.store[a].spec.host == s4.store[b].spec.host;
  }

  lemma RunOfFour(cidr: string -> bool, s: State, a: Event, b: Event, c: Event, d: Event)
    ensures Run(cidr, s, [a, b, c, d]) == Step(cidr, Step(cidr, Step(cidr, Step(cidr, s, a), b), c), d)
  {
    hide Step;
    assert [a, b, c, d][..3] == [a, b, c] && [a, b, c][..2] == [a, b] && [a, b][..1] == [a] && [a][..0] == [];
    assert Run(cidr, s, [a]) == Step(cidr, s, a);
    assert Run(cidr, s, [a, b]) == Step(cidr, Step(cidr, s, a), b);
    assert Run(cidr, s, [a, b, c]) == Step(cidr, Step(cidr, Step(cidr, s, a), b), c);
  }

  lemma NobodyHolds(k: Key, host: string)
    ensures HostFree(EMPTY.store, k, host)
  {
  }

  lemma ProperIsAccepted(cidr: string -> bool, s: Store, k: Key, spec: Spec)
    requires Proper(cidr, spec) && HostFree(s, k, spec.host)
    ensures CreateAccepted(cidr, s, k, spec, true)
  {
    hide Identifier, HostFree;
  }

  /** A machine being deleted no longer holds its host: a new one is accepted beside it. */
  lemma DeletingMachineSharesHost(cidr: string -> bool, spec: Spec, a: Key, b: Key)
    requires Proper(cidr, spec) && a.namespace == b.namespace && a != b
    ensures CreateAccepted(cidr, map[a := Machine(spec, true)], b, spec, true)
    ensures !CreateAccepted(cidr, map[a := Machine(spec, false)], b, spec, true)
  {
    hide Identifier, BasePool, Proper;
    ProperIsAccepted(cidr, map[a := Machine(spec, true)], b, spec);
    var live := map[a := Machine(spec, false)];
    assert !live[a].deleting && live[a].spec.host == spec.host;
    assert WrongToCreate(cidr, true && HostFree(live, b, spec.host), spec, HostRef);
  }
}
