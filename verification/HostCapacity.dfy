/** Host capacity and automatic sizing in the source's integer widths: the capacity computation of
    internal/controller/libvirthost_controller.go feeds resolveAutoSizing, whose result becomes the
    memory and the CPUs of the domain. */
module HostCapacity {

  import opened Common
  import opened LibvirtHost
  import opened LibvirtMachine
  import opened Provisioning
  import opened PassCalls
  import opened Teardown
  import opened Life

  /** Conversion to int32, and int32 subtraction: the low 32 bits, as a signed number. */
  function Int32(x: int): (r: int)
    ensures -0x8000_0000 <= r < 0x8000_0000
    ensures -0x8000_0000 <= x < 0x8000_0000 ==> r == x
  {
    (x + 0x8000_0000) % 0x1_0000_0000 - 0x8000_0000
  }

  const KB_PER_MB := 1024

  datatype Reserved = Reserved(vcpus: int, memoryMB: int)

  predicate Fits32(x: int) { -0x8000_0000 <= x < 0x8000_0000 }

  /** What the host has after reservations; a negative difference counts as nothing. */
  function Available(cpus: int, memoryKB: nat, reserved: Reserved): Capacity {
    var vcpus := Int32(cpus - reserved.vcpus);
    var memory := Int32(Int32(memoryKB / KB_PER_MB) - reserved.memoryMB);
    Capacity(if vcpus < 0 then 0 else vcpus, if memory < 0 then 0 else memory)
  }

  const DEFAULT_RESERVED := Reserved(2, 4096)

  /** Neither truncation nor wrap-around can inflate a positive availability. */
  lemma WrapOnlyLoses(total: nat, reserved: int)
    requires 0 <= reserved < 0x8000_0000
    requires Int32(Int32(total) - reserved) > 0
    ensures Int32(Int32(total) - reserved) <= total - reserved
  {
    var t := Int32(total);
    assert t <= total by {
      assert (total + 0x8000_0000) % 0x1_0000_0000 <= total + 0x8000_0000;
    }
    var d := t - reserved;
    assert d < 0x8000_0000;
    if d < -0x8000_0000 {
      assert (d + 0x8000_0000) % 0x1_0000_0000 == d + 0x8000_0000 + 0x1_0000_0000;
    }
  }

  /** The same for CPUs, whose total is already an int32: the bound holds exactly when the difference
      does not underflow. */
  lemma CpuBoundExactly(cpus: int, reserved: int)
    requires Fits32(cpus) && 0 <= reserved < 0x8000_0000
    ensures (Int32(cpus - reserved) > 0 ==> Int32(cpus - reserved) <= cpus - reserved)
        <==> cpus - reserved >= -0x8000_0000
  {
    var d := cpus - reserved;
    if d < -0x8000_0000 {
      assert (d + 0x8000_0000) % 0x1_0000_0000 == d + 0x8000_0000 + 0x1_0000_0000;
    }
  }

  /** Within the memory that the host has beyond its reservation. */
  ghost predicate Leaves(memoryKB: nat, reserved: Reserved, domainKB: int) {
    domainKB + reserved.memoryMB * KB_PER_MB <= memoryKB
  }

  ghost predicate Sensible(reserved: Reserved) {
    0 <= reserved.vcpus < 0x8000_0000 && 0 <= reserved.memoryMB < 0x8000_0000
  }

  /** An accepted size leaves the reservation alone exactly when the memory was left to the
      controller, or the spec asked for no more than the rest: an explicit size is never checked. */
  lemma SizeLeavesReservationExactly(m: Machine, cpus: int, memoryKB: nat, reserved: Reserved, size: Capacity)
    requires Sensible(reserved)
        && AutoSize(m.vcpus, m.memoryMB, Some(Available(cpus, memoryKB, reserved))) == Sized(size)
    ensures Leaves(memoryKB, reserved, size.memoryMB * KB_PER_MB)
            <==> m.memoryMB == 0 || m.memoryMB <= memoryKB / KB_PER_MB - reserved.memoryMB
  {
    if m.memoryMB == 0 { WrapOnlyLoses(memoryKB / KB_PER_MB, reserved.memoryMB); }
  }

  /** The same for CPUs; an explicit count is never checked either. */
  lemma CpusLeaveReservationExactly(m: Machine, cpus: int, memoryKB: nat, reserved: Reserved, size: Capacity)
    requires Fits32(cpus) && Sensible(reserved)
    requires AutoSize(m.vcpus, m.memoryMB, Some(Available(cpus, memoryKB, reserved))) == Sized(size)
    ensures size.vcpus + reserved.vcpus <= cpus
            <==> if m.vcpus == 0 then cpus - reserved.vcpus >= -0x8000_0000 else m.vcpus <= cpus - reserved.vcpus
    ensures m.vcpus == 0 || m.memoryMB == 0 ==> size.vcpus > 0 && size.memoryMB > 0
  {
    CpuBoundExactly(cpus, reserved.vcpus);
  }

  /** Below 2^41 KB nothing wraps: the availability is the plain difference, cut at 0, and
      the domain's kilobytes fit an int64. */
  lemma NothingWraps(cpus: int, memoryKB: nat, reserved: Reserved)
    requires 0 <= cpus < 0x8000_0000 && memoryKB < 0x200_0000_0000 && Sensible(reserved)
    ensures var a := Available(cpus, memoryKB, reserved);
      && a.vcpus == (if cpus < reserved.vcpus then 0 else cpus - reserved.vcpus)
      && a.memoryMB == (if memoryKB / KB_PER_MB < reserved.memoryMB then 0
          else memoryKB / KB_PER_MB - reserved.memoryMB)
      && a.memoryMB * KB_PER_MB < 0x8000_0000_0000_0000
  {
    assert memoryKB / KB_PER_MB < 0x8000_0000;
  }

  /** What a machine is given, exactly: what the spec says, and for what it leaves open all that the host
      has beyond its reservation.  It is refused exactly when one of the two is then not positive, and
      has to wait exactly while it leaves something open and the host is not probed. */
  lemma SizeIsTheRest(m: Machine, cpus: int, memoryKB: nat, reserved: Reserved)
    requires 0 <= cpus < 0x8000_0000 && memoryKB < 0x200_0000_0000 && Sensible(reserved)
    ensures var vcpus := if m.vcpus != 0 then m.vcpus else cpus - reserved.vcpus;
            var memoryMB := if m.memoryMB != 0 then m.memoryMB else memoryKB / 1024 - reserved.memoryMB;
            AutoSize(m.vcpus, m.memoryMB, Some(Available(cpus, memoryKB, reserved)))
            == if (m.vcpus == 0 || m.memoryMB == 0) && (vcpus <= 0 || memoryMB <= 0) then Insufficient
               else Sized(Capacity(vcpus, memoryMB))
    ensures AutoSize(m.vcpus, m.memoryMB, None)
            == if m.vcpus == 0 || m.memoryMB == 0 then Wait else Sized(Capacity(m.vcpus, m.memoryMB))
  {
    hide Available;
    NothingWraps(cpus, memoryKB, reserved);
  }

  /** The capacity part of a host's status. */
  class HostStatus {
    var total: Option<Capacity>
    var available: Option<Capacity>

    constructor ()
      ensures total == None && available == None
    {
      total, available := None, None;
    }

    /** The end of a health check that got through: capacity after reservations, two CPUs and 4096 MB
        when the host declares none. */
    method RecordCapacity(cpus: int, memoryKB: nat, declared: Option<Reserved>)
      requires Fits32(cpus)
      modifies this
      ensures total == Some(Capacity(cpus, Int32(memoryKB / KB_PER_MB)))
      ensures available == Some(Available(cpus, memoryKB, if declared.Some? then declared.value else DEFAULT_RESERVED))
      ensures var reserved := if declared.Some? then declared.value else DEFAULT_RESERVED;
              Sensible(reserved) && available.value.memoryMB > 0 ==>
                (available.value.memoryMB + reserved.memoryMB) * KB_PER_MB <= memoryKB
    {
      var reserved := DEFAULT_RESERVED;
      if declared.Some? { reserved := declared.value; }
      var totalMemoryMB := Int32(memoryKB / KB_PER_MB);
      var vcpus, memoryMB := Int32(cpus - reserved.vcpus), Int32(totalMemoryMB - reserved.memoryMB);
      if vcpus < 0 { vcpus := 0; }
      if memoryMB < 0 { memoryMB := 0; }
      if Sensible(reserved) && memoryMB > 0 { WrapOnlyLoses(memoryKB / KB_PER_MB, reserved.memoryMB); }
      total, available := Some(Capacity(cpus, totalMemoryMB)), Some(Capacity(vcpus, memoryMB));
    }
  }

  // ----- Over whole runs -----

  /** The domain, if defined, has a size that suits. */
  ghost predicate DomainSized(m: Machine, suits: (int, int) -> bool, h: Host) {
    BaseName(m) in h.domains ==>
      suits(h.domains[BaseName(m)].def.vcpus, h.domains[BaseName(m)].def.memoryKB)
  }

  lemma SizedByCall(g: Mode, suits: (int, int) -> bool, h: Host, c: Call, f: Fault)
    requires suits(g.size.vcpus, g.size.memoryMB * 1024) && Allowed(g, c) && DomainSized(g.m, suits, h)
    ensures DomainSized(g.m, suits, HostAfter(h, c, f))
  {
    hide HostAfter, BaseName, Within, Faithful, WantedDefinition;
    DomainsAfter(h, c, f);
  }

  lemma SizedIsKept(g: Mode, suits: (int, int) -> bool)
    requires !g.strict && suits(g.size.vcpus, g.size.memoryMB * 1024)
    ensures Kept(g, (r: Remote) => DomainSized(g.m, suits, r.host), c => Allowed(g, c))
  {
    hide HostAfter, Allowed, DomainSized;
    forall r: Remote, c | DomainSized(g.m, suits, r.host) && Allowed(g, c)
      ensures DomainSized(g.m, suits, Send(r, c).host)
    {
      SizedByCall(g, suits, r.host, c, NextFault(r.faults));
    }
  }

  lemma SizedUnderTaking(m: Machine, suits: (int, int) -> bool, r: Remote, c: Call)
    requires Takes(m, c) && DomainSized(m, suits, r.host)
    ensures DomainSized(m, suits, Send(r, c).host)
  {
    hide HostAfter, Within, BaseName;
    DomainsAfter(r.host, c, NextFault(r.faults));
  }

  lemma SizedUnderDelete(m: Machine, suits: (int, int) -> bool, x: Inputs, p: Pass)
    requires DomainSized(m, suits, p.remote.host)
    ensures DomainSized(m, suits, Delete(m, x, p).pass.remote.host)
  {
    hide Delete, Takes, DomainSized;
    var inv, ok := (r: Remote) => DomainSized(m, suits, r.host), (c: Call) => Takes(m, c);
    forall r: Remote, c | inv(r) && ok(c)
      ensures inv(Send(r, c))
    {
      SizedUnderTaking(m, suits, r, c);
    }
    DeleteKeeps(m, x, p, inv, ok);
  }

  lemma UnsizedPassIsIdle(m: Machine, x: Inputs, p: Pass)
    requires !AutoSize(m.vcpus, m.memoryMB, x.capacity).Sized?
    ensures Normal(m, x, p).pass.remote == p.remote
  {
    hide AutoSize, Provision, Preflight;
  }

  /** The size a reconcile settles on, if it does, suits. */
  ghost predicate SizesSuit(m: Machine, suits: (int, int) -> bool, e: Event) {
    e.Reconcile? ==>
      var s := AutoSize(m.vcpus, m.memoryMB, e.x.capacity);
      s.Sized? ==> suits(s.size.vcpus, s.size.memoryMB * 1024)
  }

  lemma SizedByEvent(m: Machine, suits: (int, int) -> bool, s: World, e: Event)
    requires DomainSized(m, suits, s.host) && SizesSuit(m, suits, e)
    ensures DomainSized(m, suits, Step(m, s, e).host)
  {
    hide Normal, Delete, AutoSize, DomainSized, Kept, Allowed, Restarted, Unmounted, Stopped;
    SizedUnderHostEvent(m, suits, s.host);
    if e.Reconcile? && s.obj.Live? {
      var p := StartOf(m, s, e.faults);
      if s.obj.deleting {
        SizedUnderDelete(m, suits, e.x, p);
      } else if !AutoSize(m.vcpus, m.memoryMB, e.x.capacity).Sized? {
        UnsizedPassIsIdle(m, e.x, p);
      } else {
        var g := AnyMode(m, e.x);
        SizedIsKept(g, suits);
        NormalKeeps(g, p, (r: Remote) => DomainSized(m, suits, r.host), c => Allowed(g, c));
      }
    }
  }

  lemma SizedUnderHostEvent(m: Machine, suits: (int, int) -> bool, h: Host)
    requires DomainSized(m, suits, h)
    ensures DomainSized(m, suits, Restarted(m, h))
    ensures DomainSized(m, suits, Unmounted(m, h))
    ensures DomainSized(m, suits, Stopped(m, h))
  {
    hide BaseName, EphemeralPool, OutsideDir, OutsidePool;
  }

  /** Over every life, under every schedule of faults: the domain has a size that some reconcile settled
      on. */
  lemma {:induction false} SizedLife(m: Machine, w: World, events: seq<Event>, suits: (int, int) -> bool)
    requires DomainSized(m, suits, w.host) && forall e | e in events :: SizesSuit(m, suits, e)
    ensures DomainSized(m, suits, Run(m, w, events).host)
  {
    hide Step, DomainSized, SizesSuit;
    if events != [] {
      var front, last := events[..|events| - 1], events[|events| - 1];
      assert last in events;
      SizedLife(m, w, front, suits);
      SizedByEvent(m, suits, Run(m, w, front), last);
    }
  }

  /** Every pass sees no capacity yet, or the one probed from this host. */
  ghost predicate Probed(events: seq<Event>, available: Capacity) {
    forall e | e in events && e.Reconcile? :: e.x.capacity == None || e.x.capacity == Some(available)
  }

  /** The sizes are those of the spec; what it leaves to the controller is positive, leaves the reservation
      alone, and is all the rest as long as nothing wraps. */
  predicate Spares(m: Machine, cpus: int, memoryKB: nat, reserved: Reserved, vcpus: int, domainKB: int) {
    && (m.memoryMB == 0 || m.vcpus == 0 ==> domainKB > 0 && vcpus > 0)
    && (m.memoryMB == 0 ==> domainKB + reserved.memoryMB * KB_PER_MB <= memoryKB)
    && (m.vcpus == 0 && cpus - reserved.vcpus >= -0x8000_0000 ==> vcpus + reserved.vcpus <= cpus)
    && (m.vcpus != 0 ==> vcpus == m.vcpus)
    && (m.memoryMB != 0 ==> domainKB == m.memoryMB * KB_PER_MB)
    && (m.vcpus == 0 && cpus >= 0 ==> vcpus == cpus - reserved.vcpus)
    && (m.memoryMB == 0 && memoryKB < 0x200_0000_0000 ==>
          domainKB == (memoryKB / KB_PER_MB - reserved.memoryMB) * KB_PER_MB)
  }

  /** The two parts of the availability do not depend on each other's range. */
  lemma RestOfHost(cpus: int, memoryKB: nat, reserved: Reserved)
    requires Fits32(cpus) && Sensible(reserved)
    ensures var a := Available(cpus, memoryKB, reserved);
            && (cpus >= 0 && a.vcpus > 0 ==> a.vcpus == cpus - reserved.vcpus)
            && (memoryKB < 0x200_0000_0000 && a.memoryMB > 0 ==> a.memoryMB == memoryKB / KB_PER_MB - reserved.memoryMB)
  {
    NothingWraps(if cpus >= 0 then cpus else 0, if memoryKB < 0x200_0000_0000 then memoryKB else 0, reserved);
  }

  lemma SizeSpares(m: Machine, cpus: int, memoryKB: nat, reserved: Reserved, capacity: Option<Capacity>)
    requires Fits32(cpus) && Sensible(reserved)
    requires capacity == None || capacity == Some(Available(cpus, memoryKB, reserved))
    ensures var s := AutoSize(m.vcpus, m.memoryMB, capacity);
            s.Sized? ==> Spares(m, cpus, memoryKB, reserved, s.size.vcpus, s.size.memoryMB * KB_PER_MB)
  {
    hide Available;
    var s := AutoSize(m.vcpus, m.memoryMB, capacity);
    if s.Sized? && capacity.Some? {
      SizeLeavesReservationExactly(m, cpus, memoryKB, reserved, s.size);
      CpusLeaveReservationExactly(m, cpus, memoryKB, reserved, s.size);
      RestOfHost(cpus, memoryKB, reserved);
    }
  }

  /** A machine that leaves its memory, its CPUs or both to the controller never eats into the host's
      reservation of them, and never has none: in every state of every life, under every schedule of
      faults, whatever the totals of the host. */
  lemma AutoSizedLifeLeavesReservation(
    m: Machine, w: World, events: seq<Event>, cpus: int, memoryKB: nat, reserved: Reserved)
    requires BaseName(m) !in w.host.domains && Fits32(cpus) && Sensible(reserved)
    requires Probed(events, Available(cpus, memoryKB, reserved))
    ensures var h := Run(m, w, events).host;
            BaseName(m) in h.domains ==>
              Spares(m, cpus, memoryKB, reserved, h.domains[BaseName(m)].def.vcpus, h.domains[BaseName(m)].def.memoryKB)
  {
    hide Run, Available, AutoSize, Spares, BaseName;
    var suits := (v: int, k: int) => Spares(m, cpus, memoryKB, reserved, v, k);
    forall e | e in events
      ensures SizesSuit(m, suits, e)
    {
      if e.Reconcile? { SizeSpares(m, cpus, memoryKB, reserved, e.x.capacity); }
    }
    SizedLife(m, w, events, suits);
  }
}
