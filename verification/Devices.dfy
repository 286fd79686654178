/** The disks of a generated domain (internal/libvirt/domain_xml.go): target names and the delivery
    of the ignition config. */
module Devices {

  datatype ExtraDisk = ExtraDisk(path: string, bus: string)

  datatype Params = Params(
    rootPath: string, rootBus: string, isoPath: string,
    kernelPath: string, ignitionPath: string, extra: seq<ExtraDisk>)

  /** A target device name: the prefix and the character after it. */
  datatype Target = Target(sd: bool, letter: int)

  datatype Disk = Disk(path: string, cdrom: bool, target: Target, bus: string, serial: string)

  /** 'a' as a code point. */
  const A := 97

  /** string(rune(x)): the code point itself, or U+FFFD when x is a surrogate or beyond the last. */
  function Rune(x: int): int { if 0xD800 <= x <= 0xDFFF || x > 0x10FFFF then 0xFFFD else x }

  /** The first index whose character is replaced. */
  const FIRST_REPLACED := 0xD800 - 97

  predicate Scsi(bus: string) { bus == "sata" || bus == "scsi" }

  function DevName(idx: nat, bus: string): Target { Target(Scsi(bus), Rune(A + idx)) }

  function Bus(d: ExtraDisk): string { if d.bus == "" then "virtio" else d.bus }

  /** The ignition config is a disk of its own exactly under direct kernel boot. */
  predicate IgnitionDisk(p: Params) { p.kernelPath != "" && p.ignitionPath != "" }

  /** The fw_cfg entry, if any: the file behind opt/com.coreos/config. */
  function FirmwareConfig(p: Params): seq<string> {
    if p.ignitionPath == "" || p.kernelPath != "" then [] else [p.ignitionPath]
  }

  function RootDisk(p: Params, idx: nat): Disk { Disk(p.rootPath, false, DevName(idx, p.rootBus), p.rootBus, "") }

  /** The cdrom is always sda on sata. */
  function Cdrom(p: Params): Disk { Disk(p.isoPath, true, Target(true, A), "sata", "") }

  function ConfigDisk(p: Params, idx: nat): Disk {
    Disk(p.ignitionPath, false, DevName(idx, "virtio"), "virtio", "ignition")
  }

  function ExtraAt(d: ExtraDisk, idx: nat): Disk { Disk(d.path, false, DevName(idx, Bus(d)), Bus(d), "") }

  function FirstExtra(p: Params): nat { if IgnitionDisk(p) then 2 else 1 }

  function Fixed(p: Params): seq<Disk> {
    [RootDisk(p, 0)] + (if p.isoPath != "" then [Cdrom(p)] else [])
        + (if IgnitionDisk(p) then [ConfigDisk(p, 1)] else [])
  }

  function Extras(p: Params): (r: seq<Disk>)
    ensures |r| == |p.extra|
    ensures forall k | 0 <= k < |r| :: r[k] == ExtraAt(p.extra[k], FirstExtra(p) + k)
  {
    seq(|p.extra|, k requires 0 <= k < |p.extra| => ExtraAt(p.extra[k], FirstExtra(p) + k))
  }

  function Disks(p: Params): seq<Disk> { Fixed(p) + Extras(p) }

  method BuildDisks(p: Params) returns (disks: seq<Disk>)
    ensures disks == Disks(p)
  {
    hide RootDisk, Cdrom, ConfigDisk, ExtraAt;
    var idx := 0;
    disks := [RootDisk(p, idx)];
    idx := idx + 1;
    if p.isoPath != "" { disks := disks + [Cdrom(p)]; }
    if IgnitionDisk(p) {
      disks := disks + [ConfigDisk(p, idx)];
      idx := idx + 1;
    }
    ghost var fixed := disks;
    assert fixed == Fixed(p);
    for k := 0 to |p.extra|
      invariant idx == FirstExtra(p) + k
      invariant disks == fixed + Extras(p)[..k]
    {
      disks := disks + [ExtraAt(p.extra[k], idx)];
      idx := idx + 1;
    }
  }

  // ----- Properties -----

  predicate Carries(d: Disk, path: string, bus: string) { d.path == path && d.bus == bus }

  /** What is attached where: the root disk first; the cloud-init ISO, if any, as the one cdrom, second and
      on sata; the additional disks last and in order, on virtio when they name no bus. */
  lemma DisksAreAttached(p: Params)
    ensures var disks := Disks(p);
            && |disks| > |p.extra| && !disks[0].cdrom && Carries(disks[0], p.rootPath, p.rootBus)
            && (forall i | 0 <= i < |disks| :: disks[i].cdrom <==> p.isoPath != "" && i == 1)
            && (p.isoPath != "" ==> |disks| > 1 + |p.extra| && Carries(disks[1], p.isoPath, "sata"))
            && (forall k | 0 <= k < |p.extra| ::
                  Carries(disks[|disks| - |p.extra| + k], p.extra[k].path,
                      if p.extra[k].bus == "" then "virtio" else p.extra[k].bus))
    ensures |Disks(p)| == 1 + |p.extra| + (if p.isoPath != "" then 1 else 0)
                + if p.kernelPath != "" && p.ignitionPath != "" then 1 else 0
  {
    hide Extras, DevName;
    var disks, n := Disks(p), |Fixed(p)|;
    assert forall i | n <= i < |disks| :: disks[i] == Extras(p)[i - n];
    assert forall k | 0 <= k < |p.extra| :: disks[|disks| - |p.extra| + k] == Extras(p)[k];
  }

  predicate NamedByBus(d: Disk) { d.target.sd <==> d.bus == "sata" || d.bus == "scsi" }

  /** Targets on sata and scsi start with sd, all others with vd. */
  lemma TargetsNamedByBus(p: Params, i: nat)
    requires i < |Disks(p)|
    ensures NamedByBus(Disks(p)[i])
  {
    hide Extras, Rune, NamedByBus;
    forall idx: nat
      ensures NamedByBus(RootDisk(p, idx)) && NamedByBus(Cdrom(p)) && NamedByBus(ConfigDisk(p, idx))
    {
      FixedNamedByBus(p, idx);
    }
    if i >= |Fixed(p)| {
      var k := i - |Fixed(p)|;
      assert Disks(p)[i] == Extras(p)[k];
      ExtraNamedByBus(p.extra[k], FirstExtra(p) + k);
    }
  }

  lemma FixedNamedByBus(p: Params, idx: nat)
    ensures NamedByBus(RootDisk(p, idx)) && NamedByBus(Cdrom(p)) && NamedByBus(ConfigDisk(p, idx))
  {
  }

  lemma ExtraNamedByBus(d: ExtraDisk, idx: nat)
    ensures NamedByBus(ExtraAt(d, idx))
  {
  }

  ghost predicate DistinctTargets(disks: seq<Disk>) {
    forall i, j | 0 <= i < j < |disks| :: disks[i].target != disks[j].target
  }

  /** A position other than the cdrom's carries the letter of its rank among the lettered disks. */
  function Rank(p: Params, i: nat): nat { if p.isoPath != "" && i > 0 then i - 1 else i }

  predicate IsCdrom(p: Params, i: nat) { p.isoPath != "" && i == 1 }

  lemma LetterIsRank(p: Params, i: nat)
    requires i < |Disks(p)|
    ensures Disks(p)[i].target.letter == if IsCdrom(p, i) then A else Rune(A + Rank(p, i))
    ensures IsCdrom(p, i) ==> Disks(p)[i].target.sd
    ensures i == 0 ==> Disks(p)[i].target.sd == Scsi(p.rootBus)
    ensures i >= |Fixed(p)| ==> Disks(p)[i].target.sd == Scsi(Bus(p.extra[i - |Fixed(p)|]))
  {
    hide Scsi, Bus, Rune;
    if i >= |Fixed(p)| { assert Disks(p)[i] == Extras(p)[i - |Fixed(p)|]; }
  }

  function Lettered(p: Params): nat { FirstExtra(p) + |p.extra| }

  lemma RanksOfDisks(p: Params)
    ensures |Disks(p)| == Lettered(p) + (if p.isoPath != "" then 1 else 0)
    ensures |Fixed(p)| == FirstExtra(p) + (if p.isoPath != "" then 1 else 0)
  {
  }

  lemma EarlyRunesDiffer(i: nat, j: nat)
    requires i < j <= FIRST_REPLACED
    ensures Rune(A + i) != Rune(A + j) && (j > 0 ==> Rune(A + j) != A)
  {
  }

  /** The characters do not run out: at most one is replaced, or two on different prefixes. */
  predicate RunesSuffice(p: Params) {
    || Lettered(p) <= FIRST_REPLACED + 1
    || (&& Lettered(p) == FIRST_REPLACED + 2
        && Scsi(Bus(p.extra[|p.extra| - 2])) != Scsi(Bus(p.extra[|p.extra| - 1])))
  }

  /** Two disks with the same prefix whose characters are both replaced. */
  lemma ReplacedClash(p: Params, r: nat, q: nat)
    requires FIRST_REPLACED <= r < q < Lettered(p) && q < FIRST_REPLACED + 0x800
    requires Scsi(Bus(p.extra[r - FirstExtra(p)])) == Scsi(Bus(p.extra[q - FirstExtra(p)]))
    ensures !DistinctTargets(Disks(p))
  {
    hide Extras, Scsi, Bus, Fixed, Disks;
    RanksOfDisks(p);
    var shift := if p.isoPath != "" then 1 else 0;
    LetterIsRank(p, r + shift);
    LetterIsRank(p, q + shift);
    assert Disks(p)[r + shift].target == Disks(p)[q + shift].target;
  }

  /** Target names are distinct, exactly: no cloud-init ISO meets a root disk on a sata or scsi bus, for
      both are then sda; and the list is not so long that replaced characters meet. */
  lemma TargetsAreDistinctExactly(p: Params)
    ensures DistinctTargets(Disks(p)) <==> !(p.isoPath != "" && Scsi(p.rootBus)) && RunesSuffice(p)
  {
    hide Extras, Scsi, Bus, Fixed, Disks, Rune;
    RanksOfDisks(p);
    if p.isoPath != "" && Scsi(p.rootBus) {
      LetterIsRank(p, 0);
      LetterIsRank(p, 1);
      assert Rune(A + 0) == A by { FirstRune(); }
      assert Disks(p)[0].target == Disks(p)[1].target;
    } else if RunesSuffice(p) {
      forall i, j | 0 <= i < j < |Disks(p)|
        ensures Disks(p)[i].target != Disks(p)[j].target
      {
        DistinctPair(p, i, j);
      }
    } else {
      LongListClashes(p);
    }
  }

  lemma FirstRune()
    ensures Rune(A + 0) == A
  {
  }

  lemma DistinctPair(p: Params, i: nat, j: nat)
    requires !(p.isoPath != "" && Scsi(p.rootBus)) && RunesSuffice(p) && i < j < |Disks(p)|
    ensures Disks(p)[i].target != Disks(p)[j].target
  {
    hide Extras, Scsi, Bus, Fixed, Disks, Rune;
    RanksOfDisks(p);
    LetterIsRank(p, i);
    LetterIsRank(p, j);
    if IsCdrom(p, j) {
    } else if IsCdrom(p, i) {
      EarlyOrReplaced(Rank(p, j));
    } else if Rank(p, j) <= FIRST_REPLACED {
      EarlyRunesDiffer(Rank(p, i), Rank(p, j));
    } else if Rank(p, i) < FIRST_REPLACED {
      EarlyAndReplaced(Rank(p, i), Rank(p, j));
    }
  }

  lemma EarlyOrReplaced(r: nat)
    requires r > 0
    ensures Rune(A + r) != A
  {
  }

  lemma EarlyAndReplaced(r: nat, q: nat)
    requires r < FIRST_REPLACED < q <= FIRST_REPLACED + 1
    ensures Rune(A + r) != Rune(A + q)
  {
  }

  lemma LongListClashes(p: Params)
    requires !RunesSuffice(p)
    ensures !DistinctTargets(Disks(p))
  {
    hide Extras, Scsi, Bus, Fixed, Disks, Rune, DistinctTargets;
    var f := FIRST_REPLACED;
    var first, second := p.extra[f - FirstExtra(p)], p.extra[f + 1 - FirstExtra(p)];
    if Scsi(Bus(first)) == Scsi(Bus(second)) {
      ReplacedClash(p, f, f + 1);
    } else if Scsi(Bus(first)) == Scsi(Bus(p.extra[f + 2 - FirstExtra(p)])) {
      ReplacedClash(p, f, f + 2);
    } else {
      ReplacedClash(p, f + 1, f + 2);
    }
  }

  /** Every name ends in a letter from a to z exactly when at most 26 disks take a letter. */
  lemma LettersExactly(p: Params)
    ensures (forall i | 0 <= i < |Disks(p)| :: A <= Disks(p)[i].target.letter <= A + 25) <==> Lettered(p) <= 26
  {
    hide Extras, Fixed, Disks;
    RanksOfDisks(p);
    forall i | 0 <= i < |Disks(p)|
      ensures Disks(p)[i].target.letter == if IsCdrom(p, i) then A else Rune(A + Rank(p, i))
    {
      LetterIsRank(p, i);
    }
    if Lettered(p) > 26 {
      var last := |Disks(p)| - 1;
      assert !IsCdrom(p, last) && Disks(p)[last].target.letter > A + 25;
    }
  }

  /** How often a disk with the serial that the guest looks for is attached. */
  function IgnitionDisks(disks: seq<Disk>): nat {
    if disks == [] then 0
    else IgnitionDisks(disks[..|disks| - 1]) + if disks[|disks| - 1].serial == "ignition" then 1 else 0
  }

  lemma {:induction false} IgnitionDisksOfSum(a: seq<Disk>, b: seq<Disk>)
    ensures IgnitionDisks(a + b) == IgnitionDisks(a) + IgnitionDisks(b)
  {
    if b == [] {
      assert a + b == a;
    } else {
      assert (a + b)[..|a + b| - 1] == a + b[..|b| - 1];
      IgnitionDisksOfSum(a, b[..|b| - 1]);
    }
  }

  lemma {:induction false} NoIgnitionDisks(disks: seq<Disk>)
    requires forall k | 0 <= k < |disks| :: disks[k].serial != "ignition"
    ensures IgnitionDisks(disks) == 0
  {
    if disks != [] { NoIgnitionDisks(disks[..|disks| - 1]); }
  }

  /** A config that exists reaches the guest exactly once, over fw_cfg without direct kernel boot and
      as the ignition disk with it; no config, no delivery. */
  lemma IgnitionDeliveredOnce(p: Params)
    ensures |FirmwareConfig(p)| + IgnitionDisks(Disks(p)) == if p.ignitionPath != "" then 1 else 0
    ensures IgnitionDisks(Disks(p)) == 1 <==> p.ignitionPath != "" && p.kernelPath != ""
    ensures forall i | 0 <= i < |Disks(p)| && Disks(p)[i].serial == "ignition" :: Disks(p)[i].path == p.ignitionPath
    ensures forall f | f in FirmwareConfig(p) :: f == p.ignitionPath
  {
    hide IgnitionDisks, Extras, DevName, Bus;
    IgnitionDisksOfSum(Fixed(p), Extras(p));
    NoIgnitionDisks(Extras(p));
    FixedIgnitionDisks(p);
    assert forall i | |Fixed(p)| <= i < |Disks(p)| :: Disks(p)[i] == Extras(p)[i - |Fixed(p)|];
  }

  lemma FixedIgnitionDisks(p: Params)
    ensures IgnitionDisks(Fixed(p)) == if IgnitionDisk(p) then 1 else 0
  {
    hide DevName;
    var plain := [RootDisk(p, 0)] + if p.isoPath != "" then [Cdrom(p)] else [];
    NoIgnitionDisks(plain);
    if IgnitionDisk(p) {
      assert Fixed(p)[..|Fixed(p)| - 1] == plain;
    } else {
      assert Fixed(p) == plain;
    }
  }
}
