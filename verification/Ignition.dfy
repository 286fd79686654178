/** Per-machine files injected into an ignition config (internal/ignition): parse, replace the file
    entries at a few paths, marshal. */
module Ignition {
  import opened Common

  /** A number is its canonical decimal text. */
  datatype Json =
    | Null
    | Bool(b: bool)
    | Number(n: string)
    | Str(s: string)
    | Array(items: seq<Json>)
    | Object(fields: map<string, Json>)

  type Fields = map<string, Json>

  // ----- Reading a config -----

  function ObjectAt(c: Fields, key: string): Option<Fields> {
    if key in c && c[key].Object? then Some(c[key].fields) else None
  }

  /** Whether the config is of spec 3 (true) or spec 2 (false), if it is of either. */
  function Version(c: Fields): Option<bool> {
    var ignition := ObjectAt(c, "ignition");
    if ignition.None? || "version" !in ignition.value || !ignition.value["version"].Str? then None
    else
      var v := ignition.value["version"].s;
      if v == "" then None else if v[0] == '3' then Some(true) else if v[0] == '2' then Some(false) else None
  }

  /** The storage section, empty when absent or not an object. */
  function Storage(c: Fields): Fields {
    if ObjectAt(c, "storage").Some? then ObjectAt(c, "storage").value else map[]
  }

  function Files(c: Fields): seq<Json> {
    if "files" in Storage(c) && Storage(c)["files"].Array? then Storage(c)["files"].items else []
  }

  function WithFiles(c: Fields, files: seq<Json>): Fields {
    c["storage" := Object(Storage(c)["files" := Array(files)])]
  }

  predicate IsAt(f: Json, path: string) {
    f.Object? && (if "path" in f.fields && f.fields["path"].Str? then f.fields["path"].s else "") == path
  }

  // ----- Injections -----

  datatype Injection = Injection(path: string, source: string, mode: string)

  function Entry(i: Injection, v3: bool): Json {
    var entry: map<string, Json> :=
      map["path" := Str(i.path), "mode" := Number(i.mode), "contents" := Object(map["source" := Str(i.source)])];
    Object(if v3 then entry["overwrite" := Bool(true)] else entry["filesystem" := Str("root")])
  }

  /** The entries that are not at `path`, in order. */
  function Without(files: seq<Json>, path: string): seq<Json> {
    if files == [] then []
    else
      var rest := Without(files[..|files| - 1], path);
      var f := files[|files| - 1];
      if IsAt(f, path) then rest else rest + [f]
  }

  function Injected(c: Fields, i: Injection, v3: bool): Fields {
    WithFiles(c, Without(Files(c), i.path) + [Entry(i, v3)])
  }

  function InjectedAll(c: Fields, plan: seq<Injection>, v3: bool): Fields {
    if plan == [] then c else Injected(InjectedAll(c, plan[..|plan| - 1], v3), plan[|plan| - 1], v3)
  }

  class Config {
    var fields: Fields

    constructor (fields: Fields)
      ensures this.fields == fields
    {
      this.fields := fields;
    }

    method InjectFile(i: Injection, v3: bool)
      modifies this
      ensures fields == Injected(old(fields), i, v3)
    {
      hide IsAt, Entry;
      var storage := Storage(fields);
      var files := Files(fields);
      var filtered := [];
      for k := 0 to |files|
        invariant filtered == Without(files[..k], i.path)
        invariant fields == old(fields)
      {
        assert files[..k + 1][..k] == files[..k];
        if !IsAt(files[k], i.path) { filtered := filtered + [files[k]]; }
      }
      assert files[..|files|] == files;
      filtered := filtered + [Entry(i, v3)];
      fields := fields["storage" := Object(storage["files" := Array(filtered)])];
    }
  }

  // ----- What a whole plan does -----

  ghost predicate Planned(plan: seq<Injection>, f: Json) { exists i :: i in plan && IsAt(f, i.path) }

  /** The entries at none of the planned paths, in order. */
  ghost function Keep(files: seq<Json>, plan: seq<Injection>): seq<Json> {
    if files == [] then []
    else
      var rest := Keep(files[..|files| - 1], plan);
      var f := files[|files| - 1];
      if Planned(plan, f) then rest else rest + [f]
  }

  function Entries(plan: seq<Injection>, v3: bool): (r: seq<Json>)
    ensures |r| == |plan| && forall k | 0 <= k < |plan| :: r[k] == Entry(plan[k], v3)
  {
    seq(|plan|, k requires 0 <= k < |plan| => Entry(plan[k], v3))
  }

  ghost predicate NotPlanned(plan: seq<Injection>, path: string) {
    forall k | 0 <= k < |plan| :: plan[k].path != path
  }

  ghost predicate DistinctPaths(plan: seq<Injection>) {
    forall j, k | 0 <= j < k < |plan| :: plan[j].path != plan[k].path
  }

  lemma EntryIsAtItsPath(i: Injection, v3: bool, path: string)
    ensures IsAt(Entry(i, v3), path) <==> path == i.path
  {
  }

  lemma {:induction false} WithoutOfSum(a: seq<Json>, b: seq<Json>, path: string)
    ensures Without(a + b, path) == Without(a, path) + Without(b, path)
  {
    if b == [] {
      assert a + b == a;
    } else {
      assert (a + b)[..|a + b| - 1] == a + b[..|b| - 1];
      WithoutOfSum(a, b[..|b| - 1], path);
    }
  }

  lemma {:induction false} KeepOfSum(a: seq<Json>, b: seq<Json>, plan: seq<Injection>)
    ensures Keep(a + b, plan) == Keep(a, plan) + Keep(b, plan)
  {
    hide Planned;
    if b == [] {
      assert a + b == a;
    } else {
      assert (a + b)[..|a + b| - 1] == a + b[..|b| - 1];
      KeepOfSum(a, b[..|b| - 1], plan);
    }
  }

  ghost predicate NoneAt(files: seq<Json>, path: string) { forall k | 0 <= k < |files| :: !IsAt(files[k], path) }

  lemma {:induction false} WithoutChangesNothing(files: seq<Json>, path: string)
    requires NoneAt(files, path)
    ensures Without(files, path) == files
  {
    hide IsAt;
    if files != [] {
      WithoutChangesNothing(files[..|files| - 1], path);
      assert files[..|files| - 1] + [files[|files| - 1]] == files;
    }
  }

  lemma {:induction false} KeepDropsAll(files: seq<Json>, plan: seq<Injection>)
    requires forall k | 0 <= k < |files| :: Planned(plan, files[k])
    ensures Keep(files, plan) == []
  {
    hide Planned;
    if files != [] { KeepDropsAll(files[..|files| - 1], plan); }
  }

  lemma {:induction false} KeepTwice(files: seq<Json>, plan: seq<Injection>)
    ensures Keep(Keep(files, plan), plan) == Keep(files, plan)
  {
    hide Planned;
    if files != [] {
      var rest, f := files[..|files| - 1], files[|files| - 1];
      KeepTwice(rest, plan);
      KeepOfSum(Keep(rest, plan), [f], plan);
      assert Keep(rest, plan) + [] == Keep(rest, plan);
    }
  }

  lemma {:induction false} KeepNothingPlanned(files: seq<Json>)
    ensures Keep(files, []) == files
  {
    if files != [] {
      KeepNothingPlanned(files[..|files| - 1]);
      assert files[..|files| - 1] + [files[|files| - 1]] == files;
    }
  }

  lemma PlannedByOneMore(plan: seq<Injection>, i: Injection, f: Json)
    ensures Planned(plan + [i], f) <==> Planned(plan, f) || IsAt(f, i.path)
  {
    hide IsAt;
    if IsAt(f, i.path) { assert i in plan + [i]; }
  }

  lemma {:induction false} KeepOneMore(files: seq<Json>, plan: seq<Injection>, i: Injection)
    ensures Keep(files, plan + [i]) == Without(Keep(files, plan), i.path)
  {
    hide IsAt, Planned;
    if files != [] {
      var rest, f := files[..|files| - 1], files[|files| - 1];
      KeepOneMore(rest, plan, i);
      PlannedByOneMore(plan, i, f);
      WithoutOfSum(Keep(rest, plan), [f], i.path);
    }
  }

  /** A plan replaces the entries at its paths by its own entries, at the end and in plan order, and
      keeps every other entry in order. */
  lemma {:induction false} PlanIsExact(c: Fields, plan: seq<Injection>, v3: bool)
    requires DistinctPaths(plan)
    ensures Files(InjectedAll(c, plan, v3)) == Keep(Files(c), plan) + Entries(plan, v3)
  {
    hide *;
    if plan == [] {
      assert InjectedAll(c, plan, v3) == c by { NoPlan(c, v3); }
      KeepNothingPlanned(Files(c));
      assert Entries(plan, v3) == [];
      assert Files(c) + [] == Files(c);
    } else {
      var n := |plan| - 1;
      var before, i := plan[..n], plan[n];
      assert plan == before + [i];
      PlanIsExact(c, before, v3) by { LastIsApart(plan); }
      var kept, earlier := Keep(Files(c), before), Entries(before, v3);
      assert Keep(Files(c), plan) == Without(kept, i.path) by { KeepOneMore(Files(c), before, i); }
      assert Without(kept + earlier, i.path) == Without(kept, i.path) + earlier by {
        LastIsApart(plan);
        OtherEntriesAreElsewhere(before, i.path, v3);
        WithoutChangesNothing(earlier, i.path);
        WithoutOfSum(kept, earlier, i.path);
      }
      LastInjection(c, plan, v3);
      assert Entries(plan, v3) == earlier + [Entry(i, v3)];
      assert Without(kept, i.path) + earlier + [Entry(i, v3)] == Without(kept, i.path) + (earlier + [Entry(i, v3)]);
    }
  }

  lemma NoPlan(c: Fields, v3: bool)
    ensures InjectedAll(c, [], v3) == c
  {
  }

  lemma LastIsApart(plan: seq<Injection>)
    requires DistinctPaths(plan) && plan != []
    ensures DistinctPaths(plan[..|plan| - 1])
    ensures NotPlanned(plan[..|plan| - 1], plan[|plan| - 1].path)
  {
  }

  lemma LastInjection(c: Fields, plan: seq<Injection>, v3: bool)
    requires plan != []
    ensures var before, i := InjectedAll(c, plan[..|plan| - 1], v3), plan[|plan| - 1];
      Files(InjectedAll(c, plan, v3)) == Without(Files(before), i.path) + [Entry(i, v3)]
  {
    hide Without, Entry, Files, WithFiles;
    var before, i := InjectedAll(c, plan[..|plan| - 1], v3), plan[|plan| - 1];
    WithFilesOnly(before, Without(Files(before), i.path) + [Entry(i, v3)]);
  }

  lemma OtherEntriesAreElsewhere(plan: seq<Injection>, path: string, v3: bool)
    requires NotPlanned(plan, path)
    ensures NoneAt(Entries(plan, v3), path)
  {
    hide IsAt, Entry;
    forall k | 0 <= k < |plan|
      ensures !IsAt(Entry(plan[k], v3), path)
    {
      EntryIsAtItsPath(plan[k], v3, path);
    }
  }

  /** Every section but storage, and everything in storage but the files, is untouched. */
  ghost predicate SameElsewhere(c: Fields, d: Fields) {
    && d - {"storage"} == c - {"storage"}
    && Storage(d) - {"files"} == Storage(c) - {"files"}
    && Version(d) == Version(c)
  }

  lemma WithFilesOnly(c: Fields, files: seq<Json>)
    ensures Files(WithFiles(c, files)) == files
    ensures SameElsewhere(c, WithFiles(c, files))
  {
    assert Storage(WithFiles(c, files)) == Storage(c)["files" := Array(files)];
    assert ObjectAt(WithFiles(c, files), "ignition") == ObjectAt(c, "ignition");
  }

  lemma {:induction false} PlanTouchesOnlyFiles(c: Fields, plan: seq<Injection>, v3: bool)
    ensures SameElsewhere(c, InjectedAll(c, plan, v3))
    ensures plan != [] ==> InjectedAll(c, plan, v3) == WithFiles(c, Files(InjectedAll(c, plan, v3)))
  {
    if plan != [] {
      hide Without, Entry, Files, WithFiles, Storage, Version;
      var n := |plan| - 1;
      var mid := InjectedAll(c, plan[..n], v3);
      var files := Without(Files(mid), plan[n].path) + [Entry(plan[n], v3)];
      PlanTouchesOnlyFiles(c, plan[..n], v3);
      WithFilesOnly(mid, files);
      if n > 0 { WithFilesTwice(c, Files(mid), files); }
    }
  }

  /** Entries of the plan are planned, so that a second round of the plan replaces exactly them. */
  lemma PlanTwice(c: Fields, plan: seq<Injection>, v3: bool)
    requires DistinctPaths(plan)
    ensures InjectedAll(InjectedAll(c, plan, v3), plan, v3) == InjectedAll(c, plan, v3)
  {
    hide Without, Entry, Keep, IsAt, Files, WithFiles;
    var once := InjectedAll(c, plan, v3);
    var twice := InjectedAll(once, plan, v3);
    PlanTouchesOnlyFiles(c, plan, v3);
    PlanTouchesOnlyFiles(once, plan, v3);
    PlanIsExact(c, plan, v3);
    PlanIsExact(once, plan, v3);
    KeepOfSum(Keep(Files(c), plan), Entries(plan, v3), plan);
    KeepTwice(Files(c), plan);
    forall k | 0 <= k < |plan|
      ensures Planned(plan, Entries(plan, v3)[k])
    {
      EntryIsAtItsPath(plan[k], v3, plan[k].path);
      assert plan[k] in plan;
    }
    KeepDropsAll(Entries(plan, v3), plan);
    assert Keep(Files(c), plan) + [] == Keep(Files(c), plan);
    if plan != [] {
      WithFilesTwice(c, Files(once), Files(twice));
    }
  }

  lemma WithFilesTwice(c: Fields, f: seq<Json>, g: seq<Json>)
    ensures WithFiles(WithFiles(c, f), g) == WithFiles(c, g)
  {
    assert Storage(WithFiles(c, f)) == Storage(c)["files" := Array(f)];
    assert Storage(c)["files" := Array(f)]["files" := Array(g)] == Storage(c)["files" := Array(g)];
  }

  // ----- The injectors -----

  /** `addresses` is whether the machine has static addresses; `keyfile` is the connection file
      generated from its network settings. */
  datatype Settings = Settings(hostname: string, providerID: string, addresses: bool, keyfile: string)

  function FileMode(): string { "420" }   // 0644

  function PrivateMode(): string { "384" }   // 0600

  function HostnamePath(): string { "/etc/hostname" }

  function DropInPath(): string { "/etc/systemd/system/kubelet.service.d/90-provider-id.conf" }

  function ProviderIDPath(): string { "/etc/kubernetes/caplv-provider-id" }

  function ConnectionPath(): string { "/etc/NetworkManager/system-connections/enp1s0.nmconnection" }

  function DropIn(providerID: string): string {
    "[Service]\nEnvironment=\"KUBELET_PROVIDERID_FLAG=--provider-id=" + providerID + "\"\n"
  }

  function HostnameFile(hostname: string): Injection { Injection(HostnamePath(), "data:," + hostname, FileMode()) }

  /** `escape` is url.PathEscape. */
  function DropInFile(escape: string -> string, providerID: string): Injection {
    Injection(DropInPath(), "data:," + escape(DropIn(providerID)), FileMode())
  }

  function ProviderIDFile(escape: string -> string, providerID: string): Injection {
    Injection(ProviderIDPath(), "data:," + escape("KUBELET_PROVIDER_ID=" + providerID), FileMode())
  }

  function ConnectionFile(escape: string -> string, keyfile: string): Injection {
    Injection(ConnectionPath(), "data:," + escape(keyfile), PrivateMode())
  }

  function MetadataPlan(escape: string -> string, hostname: string, providerID: string): seq<Injection> {
    (if hostname != "" then [HostnameFile(hostname)] else [])
    + (if providerID != "" then [DropInFile(escape, providerID), ProviderIDFile(escape, providerID)] else [])
  }

  function NetworkPlan(escape: string -> string, addresses: bool, keyfile: string): seq<Injection> {
    if addresses then [ConnectionFile(escape, keyfile)] else []
  }

  /** encoding/json: `parse` fails on text that is not a JSON object. */
  datatype Codec = Codec(parse: string -> Option<Fields>, marshal: Fields -> string)

  ghost predicate Faithful(codec: Codec) { forall c :: codec.parse(codec.marshal(c)) == Some(c) }

  /** Parse, check the version, inject, marshal; None is an error. */
  function InjectText(codec: Codec, data: string, plan: seq<Injection>): Option<string> {
    var c := codec.parse(data);
    if c.None? || Version(c.value).None? then None
    else Some(codec.marshal(InjectedAll(c.value, plan, Version(c.value).value)))
  }

  lemma InjectedAllExtends(c: Fields, plan: seq<Injection>, i: Injection, v3: bool)
    ensures InjectedAll(c, plan + [i], v3) == Injected(InjectedAll(c, plan, v3), i, v3)
  {
    assert (plan + [i])[..|plan + [i]| - 1] == plan;
  }

  method InjectMachineMetadata(codec: Codec, escape: string -> string, data: string, hostname: string,
      providerID: string)
    returns (r: Option<string>)
    ensures r == InjectText(codec, data, MetadataPlan(escape, hostname, providerID))
  {
    hide Injected, InjectedAll, Version, MetadataPlan, HostnameFile, DropInFile, ProviderIDFile;
    var parsed := codec.parse(data);
    if parsed.None? { return None; }
    var version := Version(parsed.value);
    if version.None? { return None; }
    var v3 := version.value;
    var c := new Config(parsed.value);
    MetadataPlanSteps(parsed.value, escape, hostname, providerID, v3);
    if hostname != "" { c.InjectFile(HostnameFile(hostname), v3); }
    if providerID != "" {
      c.InjectFile(DropInFile(escape, providerID), v3);
      c.InjectFile(ProviderIDFile(escape, providerID), v3);
    }
    return Some(codec.marshal(c.fields));
  }

  lemma MetadataPlanSteps(c: Fields, escape: string -> string, hostname: string, providerID: string, v3: bool)
    ensures var named := if hostname != "" then Injected(c, HostnameFile(hostname), v3) else c;
      InjectedAll(c, MetadataPlan(escape, hostname, providerID), v3)
      == if providerID == "" then named
         else Injected(Injected(named, DropInFile(escape, providerID), v3), ProviderIDFile(escape, providerID), v3)
  {
    hide Injected, InjectedAll, HostnameFile, DropInFile, ProviderIDFile;
    NoPlan(c, v3);
    OneInjection(c, HostnameFile(hostname), v3);
    var first := if hostname != "" then [HostnameFile(hostname)] else [];
    TwoMore(c, first, DropInFile(escape, providerID), ProviderIDFile(escape, providerID), v3);
    assert first + [] == first;
  }

  lemma OneInjection(c: Fields, i: Injection, v3: bool)
    ensures InjectedAll(c, [i], v3) == Injected(c, i, v3)
  {
    hide Injected;
    assert [i][..0] == [];
  }

  lemma TwoMore(c: Fields, plan: seq<Injection>, i: Injection, j: Injection, v3: bool)
    ensures InjectedAll(c, plan + [i, j], v3) == Injected(Injected(InjectedAll(c, plan, v3), i, v3), j, v3)
  {
    hide Injected, InjectedAll;
    InjectedAllExtends(c, plan, i, v3);
    InjectedAllExtends(c, plan + [i], j, v3);
    assert plan + [i] + [j] == plan + [i, j];
  }

  method InjectStaticNetwork(codec: Codec, escape: string -> string, data: string, addresses: bool, keyfile: string)
    returns (r: Option<string>)
    ensures r == if addresses then InjectText(codec, data, NetworkPlan(escape, addresses, keyfile)) else Some(data)
  {
    hide Injected, InjectedAll, Version, ConnectionFile;
    if !addresses { return Some(data); }
    var parsed := codec.parse(data);
    if parsed.None? { return None; }
    var version := Version(parsed.value);
    if version.None? { return None; }
    var v3 := version.value;
    var c := new Config(parsed.value);
    OneInjection(parsed.value, ConnectionFile(escape, keyfile), v3);
    c.InjectFile(ConnectionFile(escape, keyfile), v3);
    return Some(codec.marshal(c.fields));
  }

  function OrOriginal(r: Option<string>, data: string): string { if r.Some? then r.value else data }

  /** The data written to the host: an injector that fails leaves the data as it was. */
  function Personalized(codec: Codec, escape: string -> string, data: string, x: Settings): string {
    var named := OrOriginal(InjectText(codec, data, MetadataPlan(escape, x.hostname, x.providerID)), data);
    if x.addresses then OrOriginal(InjectText(codec, named, NetworkPlan(escape, true, x.keyfile)), named) else named
  }

  method Personalize(codec: Codec, escape: string -> string, data: string, x: Settings) returns (r: string)
    ensures r == Personalized(codec, escape, data, x)
  {
    hide InjectText, MetadataPlan;
    r := data;
    var injected := InjectMachineMetadata(codec, escape, r, x.hostname, x.providerID);
    if injected.Some? { r := injected.value; }
    if x.addresses {
      injected := InjectStaticNetwork(codec, escape, r, x.addresses, x.keyfile);
      if injected.Some? { r := injected.value; }
    }
  }

  function Plan(escape: string -> string, x: Settings): seq<Injection> {
    MetadataPlan(escape, x.hostname, x.providerID) + NetworkPlan(escape, x.addresses, x.keyfile)
  }

  lemma PathsDiffer()
    ensures HostnamePath() != DropInPath() && HostnamePath() != ProviderIDPath() && HostnamePath() != ConnectionPath()
    ensures DropInPath() != ProviderIDPath() && DropInPath() != ConnectionPath() && ProviderIDPath() != ConnectionPath()
  {
    assert |HostnamePath()| == 13 && |DropInPath()| == 57 && |ProviderIDPath()| == 33 && |ConnectionPath()| == 58;
  }

  lemma PlanPathsAreDistinct(escape: string -> string, x: Settings)
    ensures DistinctPaths(Plan(escape, x))
  {
    hide HostnamePath, DropInPath, ProviderIDPath, ConnectionPath, DropIn;
    PathsDiffer();
  }

  lemma {:induction false} InjectedInTwoRounds(c: Fields, a: seq<Injection>, b: seq<Injection>, v3: bool)
    ensures InjectedAll(InjectedAll(c, a, v3), b, v3) == InjectedAll(c, a + b, v3)
  {
    hide Injected;
    if b == [] {
      assert a + b == a;
    } else {
      assert (a + b)[..|a + b| - 1] == a + b[..|b| - 1];
      InjectedInTwoRounds(c, a, b[..|b| - 1], v3);
    }
  }

  /** The config a machine boots with, seen as a document: an unreadable or unsupported config is
      passed on byte for byte, any other gets the whole plan. */
  lemma PersonalizedDocument(codec: Codec, escape: string -> string, data: string, x: Settings)
    requires Faithful(codec)
    ensures var c := codec.parse(data);
      if c.None? || Version(c.value).None? then Personalized(codec, escape, data, x) == data
      else
        var d := InjectedAll(c.value, Plan(escape, x), Version(c.value).value);
        Personalized(codec, escape, data, x) == codec.marshal(d)
  {
    hide Injected, Version, MetadataPlan, Files, WithFiles, Storage;
    var c := codec.parse(data);
    if c.Some? && Version(c.value).Some? {
      var v3 := Version(c.value).value;
      var a, b := MetadataPlan(escape, x.hostname, x.providerID), NetworkPlan(escape, x.addresses, x.keyfile);
      PlanTouchesOnlyFiles(c.value, a, v3);
      InjectedInTwoRounds(c.value, a, b, v3);
      assert codec.parse(codec.marshal(InjectedAll(c.value, a, v3))) == Some(InjectedAll(c.value, a, v3));
      if !x.addresses { assert a + b == a; }
    }
  }

  /** Every machine file is present exactly once and last, every other file entry survives in order,
      and nothing outside storage.files changes. */
  lemma PersonalizedExactly(codec: Codec, escape: string -> string, data: string, x: Settings)
    requires Faithful(codec)
    requires codec.parse(data).Some? && Version(codec.parse(data).value).Some?
    ensures var c := codec.parse(data).value;
      var d := codec.parse(Personalized(codec, escape, data, x));
      && d.Some?
      && Files(d.value) == Keep(Files(c), Plan(escape, x)) + Entries(Plan(escape, x), Version(c).value)
      && SameElsewhere(c, d.value)
  {
    hide Injected, Version, Plan, Files, WithFiles, Storage, Keep, Personalized;
    var c := codec.parse(data).value;
    var v3 := Version(c).value;
    PersonalizedDocument(codec, escape, data, x);
    PlanPathsAreDistinct(escape, x);
    PlanIsExact(c, Plan(escape, x), v3);
    PlanTouchesOnlyFiles(c, Plan(escape, x), v3);
    assert codec.parse(codec.marshal(InjectedAll(c, Plan(escape, x), v3))) == Some(InjectedAll(c, Plan(escape, x), v3));
  }

  /** Writing the data again, after a retried reconcile, writes the same bytes. */
  lemma PersonalizedTwice(codec: Codec, escape: string -> string, data: string, x: Settings)
    requires Faithful(codec)
    ensures var once := Personalized(codec, escape, data, x); Personalized(codec, escape, once, x) == once
  {
    hide Injected, Version, Plan, Files, WithFiles, Storage, Personalized;
    var once := Personalized(codec, escape, data, x);
    PersonalizedDocument(codec, escape, data, x);
    PersonalizedDocument(codec, escape, once, x);
    var c := codec.parse(data);
    if c.Some? && Version(c.value).Some? {
      var v3 := Version(c.value).value;
      var plan := Plan(escape, x);
      PlanPathsAreDistinct(escape, x);
      PlanTouchesOnlyFiles(c.value, plan, v3);
      PlanTwice(c.value, plan, v3);
      assert codec.parse(codec.marshal(InjectedAll(c.value, plan, v3))) == Some(InjectedAll(c.value, plan, v3));
    }
  }

  // ----- What the guest reads -----

  /** The config names a spec version that starts with this character. */
  predicate VersionStarts(c: Fields, ch: char) {
    && "ignition" in c && c["ignition"].Object?
    && "version" in c["ignition"].fields && c["ignition"].fields["version"].Str?
    && |c["ignition"].fields["version"].s| > 0 && c["ignition"].fields["version"].s[0] == ch
  }

  lemma VersionExactly(c: Fields)
    ensures Version(c) == Some(true) <==> VersionStarts(c, '3')
    ensures Version(c) == Some(false) <==> VersionStarts(c, '2')
  {
  }

  /** The file entry of a config that describes a path. */
  predicate HasPath(f: Json, path: string) { f.Object? && "path" in f.fields && f.fields["path"] == Str(path) }

  /** An entry that makes the guest write this file, in the words of either spec: a 3.x entry says to
      overwrite, a 2.x entry names the file system. */
  predicate Writes(f: Json, path: string, source: string, mode: string, v3: bool) {
    && f.Object? && f.fields.Keys == {"path", "mode", "contents", if v3 then "overwrite" else "filesystem"}
    && f.fields["path"] == Str(path) && f.fields["mode"] == Number(mode)
    && f.fields["contents"] == Object(map["source" := Str(source)])
    && (if v3 then f.fields["overwrite"] == Bool(true) else f.fields["filesystem"] == Str("root"))
  }

  /** The config has one entry for the path, and it writes this file. */
  ghost predicate WritesOnce(files: seq<Json>, path: string, source: string, mode: string, v3: bool) {
    exists k :: 0 <= k < |files| && Writes(files[k], path, source, mode, v3)
        && forall j | 0 <= j < |files| && j != k :: !HasPath(files[j], path)
  }

  lemma EntryWrites(i: Injection, v3: bool)
    ensures Writes(Entry(i, v3), i.path, i.source, i.mode, v3)
  {
  }

  lemma EntryHasItsPath(i: Injection, v3: bool, path: string)
    ensures HasPath(Entry(i, v3), path) <==> path == i.path
  {
  }

  lemma NotPlannedElsewhere(plan: seq<Injection>, f: Json, n: nat)
    requires !Planned(plan, f) && n < |plan|
    ensures !HasPath(f, plan[n].path)
  {
    assert plan[n] in plan;
  }

  lemma {:induction false} KeptIsNotPlanned(files: seq<Json>, plan: seq<Injection>, k: nat)
    requires k < |Keep(files, plan)|
    ensures !Planned(plan, Keep(files, plan)[k])
  {
    hide Planned;
    if files != [] {
      var rest := files[..|files| - 1];
      if k < |Keep(rest, plan)| { KeptIsNotPlanned(rest, plan, k); }
    }
  }

  lemma PlanWritesOnce(files: seq<Json>, plan: seq<Injection>, v3: bool, n: nat)
    requires DistinctPaths(plan) && n < |plan|
    ensures WritesOnce(Keep(files, plan) + Entries(plan, v3), plan[n].path, plan[n].source, plan[n].mode, v3)
  {
    hide Keep, IsAt, HasPath, Entry, Writes;
    var kept, i := Keep(files, plan), plan[n];
    var all, k := kept + Entries(plan, v3), |kept| + n;
    assert all[k] == Entry(i, v3);
    EntryWrites(i, v3);
    forall j | 0 <= j < |all| && j != k
      ensures !HasPath(all[j], i.path)
    {
      if j < |kept| {
        KeptIsNotPlanned(files, plan, j);
        NotPlannedElsewhere(plan, all[j], n);
      } else {
        assert all[j] == Entry(plan[j - |kept|], v3);
        EntryHasItsPath(plan[j - |kept|], v3, i.path);
      }
    }
  }

  lemma PlanHasAll(escape: string -> string, x: Settings)
    ensures var plan := Plan(escape, x);
            && (x.hostname != "" ==> Injection("/etc/hostname", "data:," + x.hostname, "420") in plan)
            && (x.providerID != "" ==>
                  && Injection(DropInPath(), "data:," + escape(DropIn(x.providerID)), "420") in plan
                  && Injection("/etc/kubernetes/caplv-provider-id",
                         "data:," + escape("KUBELET_PROVIDER_ID=" + x.providerID), "420") in plan)
            && (x.addresses ==> Injection(ConnectionPath(), "data:," + escape(x.keyfile), "384") in plan)
  {
    hide DropIn, DropInPath, ConnectionPath;
    var a, b := MetadataPlan(escape, x.hostname, x.providerID), NetworkPlan(escape, x.addresses, x.keyfile);
    if x.hostname != "" { assert a[0] == HostnameFile(x.hostname) && (a + b)[0] == a[0]; }
    if x.providerID != "" {
      var k := |a| - 2;
      assert a[k] == DropInFile(escape, x.providerID) && a[k + 1] == ProviderIDFile(escape, x.providerID);
      assert (a + b)[k] == a[k] && (a + b)[k + 1] == a[k + 1];
    }
    if x.addresses { assert (a + b)[|a|] == ConnectionFile(escape, x.keyfile); }
  }

  /** Host name, provider ID and network connection each have one entry, with their contents and mode. */
  ghost predicate WritesMachineFiles(files: seq<Json>, escape: string -> string, x: Settings, v3: bool) {
    && (x.hostname != "" ==> WritesOnce(files, "/etc/hostname", "data:," + x.hostname, "420", v3))
    && (x.providerID != "" ==>
          && WritesOnce(files, "/etc/systemd/system/kubelet.service.d/90-provider-id.conf",
                 "data:," + escape("[Service]\nEnvironment=\"KUBELET_PROVIDERID_FLAG=--provider-id="
                     + x.providerID + "\"\n"), "420", v3)
          && WritesOnce(files, "/etc/kubernetes/caplv-provider-id",
                 "data:," + escape("KUBELET_PROVIDER_ID=" + x.providerID), "420", v3))
    && (x.addresses ==>
          WritesOnce(files, "/etc/NetworkManager/system-connections/enp1s0.nmconnection",
              "data:," + escape(x.keyfile), "384", v3))
  }

  lemma PlanWritesMachineFiles(files: seq<Json>, escape: string -> string, x: Settings, v3: bool)
    requires forall i | i in Plan(escape, x) :: WritesOnce(files, i.path, i.source, i.mode, v3)
    ensures WritesMachineFiles(files, escape, x, v3)
  {
    hide WritesOnce, Plan;
    PlanHasAll(escape, x);
  }

  /** The files a machine boots with, read off the written document: each once, with the fields of the
      document's own spec version; a document of another version, or that is none, is passed on byte for
      byte. */
  lemma GuestReadsMachineFiles(codec: Codec, escape: string -> string, data: string, x: Settings)
    requires Faithful(codec)
    ensures var c := codec.parse(data);
            var supported := c.Some? && (VersionStarts(c.value, '2') || VersionStarts(c.value, '3'));
            var out := Personalized(codec, escape, data, x);
            && (!supported ==> out == data)
            && (supported ==>
                  var v3, d := VersionStarts(c.value, '3'), codec.parse(out);
                  && d.Some? && VersionStarts(d.value, if v3 then '3' else '2')
                  && WritesMachineFiles(Files(d.value), escape, x, v3))
  {
    hide Personalized, Files, Version, VersionStarts, Plan, Keep, WritesOnce, Injected, SameElsewhere,
         WritesMachineFiles;
    var c := codec.parse(data);
    PersonalizedDocument(codec, escape, data, x);
    if c.Some? {
      VersionExactly(c.value);
      if Version(c.value).Some? {
        PersonalizedExactly(codec, escape, data, x);
        PersonalizedKeepsVersion(codec, escape, data, x);
        PlanPathsAreDistinct(escape, x);
        var d := codec.parse(Personalized(codec, escape, data, x)).value;
        forall i | i in Plan(escape, x)
          ensures WritesOnce(Files(d), i.path, i.source, i.mode, Version(c.value).value)
        {
          var n :| 0 <= n < |Plan(escape, x)| && Plan(escape, x)[n] == i;
          PlanWritesOnce(Files(c.value), Plan(escape, x), Version(c.value).value, n);
        }
        PlanWritesMachineFiles(Files(d), escape, x, Version(c.value).value);
      }
    }
  }

  lemma PersonalizedKeepsVersion(codec: Codec, escape: string -> string, data: string, x: Settings)
    requires Faithful(codec)
    requires codec.parse(data).Some? && Version(codec.parse(data).value).Some?
    ensures var d := codec.parse(Personalized(codec, escape, data, x));
            d.Some? && Version(d.value) == Version(codec.parse(data).value)
            && (VersionStarts(d.value, '3') <==> Version(d.value) == Some(true))
            && (VersionStarts(d.value, '2') <==> Version(d.value) == Some(false))
  {
    hide Personalized, Files, Version, VersionStarts, Plan, Keep, Storage;
    PersonalizedExactly(codec, escape, data, x);
    VersionExactly(codec.parse(Personalized(codec, escape, data, x)).value);
  }
}
