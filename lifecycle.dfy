/**
 * A reference model of the probe/remove lifecycle of the rtbt_example PCI
 * driver, on values.
 *
 * Every kernel call the driver makes is an abstract step whose outcome is
 * an input (`Outcomes`). The driver's globals (`pdata`, `pdata->registers`,
 * `csr_addr`) and the kernel-side resources it acquires (the enabled
 * device, the reserved regions, the BAR 0 mapping, the LED class
 * registration) form a `State`. Probe runs its steps in a fixed order and
 * stops at the first failure without releasing anything. Remove unregisters
 * the LED, releases the regions and disables the device whatever probe
 * acquired; it unmaps only when `pdata->registers` is set, then frees `pdata`.
 */
module Lifecycle {

  datatype Option<T> = None | Some(value: T)

  /** Linux errno values returned (negated) by probe. */
  const ENOMEM: int := 12
  const ENODEV: int := 19

  /** Resource flag of a memory-mapped (not I/O-port) PCI region. */
  const IORESOURCE_MEM: bv64 := 0x0000_0200

  /** The region with these resource flags is memory-mapped. */
  predicate IsMemRegion(flags: bv64)
  {
    flags & IORESOURCE_MEM != 0
  }

  /** The kernel calls made by probe and by remove. */
  datatype Call =
    | Kzalloc          // kzalloc of the private data block
    | EnableDevice     // pci_enable_device
    | CheckMemRegion   // pci_resource_flags of region 0, tested for IORESOURCE_MEM
    | RequestRegions   // pci_request_regions
    | MapBar0          // pci_iomap of BAR 0
    | RegisterLed      // led_classdev_register
    | UnregisterLed    // led_classdev_unregister
    | UnmapBar0        // pci_iounmap
    | ReleaseRegions   // pci_release_regions
    | DisableDevice    // pci_disable_device
    | FreePrivData     // kfree of the private data block

  /** The steps of probe, in the order the code takes them. */
  const ProbeSteps: seq<Call> := [Kzalloc, EnableDevice, CheckMemRegion, RequestRegions, MapBar0, RegisterLed]

  /** What each kernel call of probe answers on this run. */
  datatype Outcomes = Outcomes(
    allocOk: bool,       // kzalloc returned a block (not NULL)
    enableResult: int,   // return value of pci_enable_device
    region0Flags: bv64,  // pci_resource_flags(pdev, 0)
    requestResult: int,  // return value of pci_request_regions
    mapped: bool,        // pci_iomap returned a mapping (not NULL)
    ledResult: int       // return value of led_classdev_register
  )

  /** Whether probe carries on after step `c`. */
  predicate Succeeds(o: Outcomes, c: Call)
  {
    match c
    case Kzalloc => o.allocOk
    case EnableDevice => o.enableResult == 0
    case CheckMemRegion => IsMemRegion(o.region0Flags)
    case RequestRegions => o.requestResult == 0
    case MapBar0 => o.mapped
    case RegisterLed => o.ledResult == 0
    case _ => true
  }

  /** Every step of probe succeeds, stated call by call. */
  predicate AllSucceed(o: Outcomes)
  {
    && o.allocOk
    && o.enableResult == 0
    && IsMemRegion(o.region0Flags)
    && o.requestResult == 0
    && o.mapped
    && o.ledResult == 0
  }

  /** The longest prefix of `steps` whose steps all succeed. */
  function Completed(o: Outcomes, steps: seq<Call>): (r: seq<Call>)
    ensures r <= steps
    ensures forall c | c in r :: Succeeds(o, c)
    ensures |r| < |steps| ==> !Succeeds(o, steps[|r|])
  {
    if steps == [] || !Succeeds(o, steps[0]) then []
    else [steps[0]] + Completed(o, steps[1..])
  }

  /** The steps of probe that succeed before it stops. */
  function Done(o: Outcomes): seq<Call>
  {
    Completed(o, ProbeSteps)
  }

  /** The step at which probe stops, if any fails. */
  function FailedStep(o: Outcomes): (f: Option<Call>)
    ensures f.None? <==> AllSucceed(o)
    ensures f.Some? ==> f.value in ProbeSteps && !Succeeds(o, f.value)
  {
    var d := Done(o);
    if |d| == |ProbeSteps| then
      assert d == ProbeSteps;
      assert d[0] in d && d[1] in d && d[2] in d && d[3] in d && d[4] in d && d[5] in d;
      None
    else
      Some(ProbeSteps[|d|])
  }

  /**
   * The number of steps probe completes, read off the outcomes one test
   * after the other in the order the code makes them.
   */
  function StopIndex(o: Outcomes): (k: nat)
    ensures k <= |ProbeSteps|
    ensures k == 0 <==> !o.allocOk
    ensures k == |ProbeSteps| <==> AllSucceed(o)
  {
    if !o.allocOk then 0
    else if o.enableResult != 0 then 1
    else if !IsMemRegion(o.region0Flags) then 2
    else if o.requestResult != 0 then 3
    else if !o.mapped then 4
    else if o.ledResult != 0 then 5
    else 6
  }

  /** The kernel calls probe makes, in order: the completed steps and then the one that failed, if any. */
  function Attempted(o: Outcomes): (a: seq<Call>)
    ensures a <= ProbeSteps
    ensures 0 < |a| && a[0] == Kzalloc
    ensures |a| == if AllSucceed(o) then |ProbeSteps| else StopIndex(o) + 1
  {
    var n := StopIndex(o);
    if n < |ProbeSteps| then ProbeSteps[..n + 1] else ProbeSteps
  }

  /** The value probe returns: 0 when every step succeeds, -ENOMEM for the allocation, -ENODEV for any later step. */
  function ProbeResult(o: Outcomes): (ret: int)
    ensures ret == 0 <==> AllSucceed(o)
    ensures ret == -ENOMEM <==> !o.allocOk
    ensures ret == -ENODEV <==> o.allocOk && !AllSucceed(o)
  {
    var n := StopIndex(o);
    if n == |ProbeSteps| then 0 else if n == 0 then -ENOMEM else -ENODEV
  }

  /**
   * The driver's globals and the kernel resources it holds.
   * `privData` is `pdata != NULL`; `privDataFreed` says the block `pdata`
   * points to was given back by kfree; `registers` is
   * `pdata->registers != NULL`; `csrAddr` is `csr_addr != NULL`.
   */
  datatype State = State(
    privData: bool,
    privDataFreed: bool,
    registers: bool,
    csrAddr: bool,
    enabled: bool,
    regions: bool,
    mapped: bool,
    led: bool
  )

  /** Before the first probe: every global is NULL and nothing is held. */
  const Initial: State := State(false, false, false, false, false, false, false, false)

  /** The private data block is allocated and not yet freed. */
  predicate Allocated(s: State)
  {
    s.privData && !s.privDataFreed
  }

  /** Bound: every acquisition of probe is held. */
  predicate Bound(s: State)
  {
    Allocated(s) && s.registers && s.csrAddr && s.enabled && s.regions && s.mapped && s.led
  }

  /**
   * The state probe leaves: each step's acquisition is held if the step
   * completed, and nothing is released. Step `ProbeSteps[k]` completed when
   * `k < StopIndex(o)`: 1 is EnableDevice, 3 RequestRegions, 4 MapBar0 and
   * 5 RegisterLed. The allocation always replaces `pdata`, with NULL when it
   * fails, and `csr_addr` is set to the mapping once MapBar0 completes.
   */
  function ProbeState(s: State, o: Outcomes): (t: State)
    ensures t.privData == o.allocOk && !t.privDataFreed
    ensures s.enabled ==> t.enabled
    ensures s.regions ==> t.regions
    ensures s.mapped ==> t.mapped
    ensures s.led ==> t.led
    ensures s.csrAddr ==> t.csrAddr
    ensures t.registers ==> t.csrAddr && t.enabled && t.regions && t.mapped
  {
    var n := StopIndex(o);
    State(
      privData := o.allocOk,
      privDataFreed := false,
      registers := n > 4,
      csrAddr := s.csrAddr || n > 4,
      enabled := s.enabled || n > 1,
      regions := s.regions || n > 3,
      mapped := s.mapped || n > 4,
      led := s.led || n > 5
    )
  }

  /** Remove reads `pdata->registers` before it tests `pdata`: it needs a live private data block. */
  predicate CanRemove(s: State)
  {
    Allocated(s)
  }

  /** The kernel calls remove makes, in order; the unmap only when `pdata->registers` is set. */
  function RemoveCalls(s: State): (c: seq<Call>)
    ensures |c| == if s.registers then 5 else 4
    ensures c[0] == UnregisterLed && c[|c| - 1] == FreePrivData
    ensures UnmapBar0 in c <==> s.registers
    ensures c[|c| - 3..] == [ReleaseRegions, DisableDevice, FreePrivData]
  {
    [UnregisterLed] + (if s.registers then [UnmapBar0] else []) + [ReleaseRegions, DisableDevice, FreePrivData]
  }

  /** The state remove leaves. `pdata` and `csr_addr` are not reset and are left dangling. */
  function RemoveState(s: State): (t: State)
    requires CanRemove(s)
    ensures !Allocated(t) && !t.enabled && !t.regions && !t.led
    ensures t.mapped <==> s.mapped && !s.registers
    ensures t.privData == s.privData && t.registers == s.registers && t.csrAddr == s.csrAddr
  {
    s.(privDataFreed := true, mapped := s.mapped && !s.registers,
       enabled := false, regions := false, led := false)
  }

  /** The brightness callback writes through `csr_addr`: it needs it set and the window mapped. */
  predicate CanSetBrightness(s: State)
  {
    s.csrAddr && s.mapped
  }

  // ----- Properties of probe -----

  /** Each step of probe occurs once in its order. */
  lemma ProbeStepsDistinct()
    ensures forall i, j | 0 <= i < j < |ProbeSteps| :: ProbeSteps[i] != ProbeSteps[j]
  {
  }

  /** The prefixes of the probe steps, written out. */
  lemma ProbePrefixes()
    ensures ProbeSteps[..1] == [Kzalloc]
    ensures ProbeSteps[..2] == [Kzalloc, EnableDevice]
    ensures ProbeSteps[..3] == [Kzalloc, EnableDevice, CheckMemRegion]
    ensures ProbeSteps[..4] == [Kzalloc, EnableDevice, CheckMemRegion, RequestRegions]
    ensures ProbeSteps[..5] == [Kzalloc, EnableDevice, CheckMemRegion, RequestRegions, MapBar0]
  {
  }

  /**
   * In the longest successful prefix, a step occurs exactly when it lies
   * within the prefix, and it lies within the prefix exactly when it and
   * every step before it succeed.
   */
  lemma {:induction false} DoneExactly(o: Outcomes, k: nat)
    requires k < |ProbeSteps|
    ensures ProbeSteps[k] in Done(o) <==> k < |Done(o)|
    ensures k < |Done(o)| <==> forall j | 0 <= j <= k :: Succeeds(o, ProbeSteps[j])
  {
    var d := Done(o);
    ProbeStepsDistinct();
    assert d == ProbeSteps[..|d|];
    if ProbeSteps[k] in d {
      var i :| 0 <= i < |d| && d[i] == ProbeSteps[k];
      assert i == k;
      forall j | 0 <= j <= k ensures Succeeds(o, ProbeSteps[j]) {
        assert d[j] in d;
      }
    }
    if forall j | 0 <= j <= k :: Succeeds(o, ProbeSteps[j]) {
      assert d[k] == ProbeSteps[k];
    }
  }

  /**
   * The code's chain of tests agrees with the reference: probe completes
   * exactly the longest successful prefix of its steps.
   */
  lemma StopsAt(o: Outcomes)
    ensures |Done(o)| == StopIndex(o)
    ensures Done(o) == ProbeSteps[..StopIndex(o)]
  {
    var k := StopIndex(o);
    var d := Done(o);
    assert d == ProbeSteps[..|d|];
    if k > 0 {
      assert forall j | 0 <= j <= k - 1 :: Succeeds(o, ProbeSteps[j]);
      DoneExactly(o, k - 1);
    }
    if k < |ProbeSteps| {
      assert !Succeeds(o, ProbeSteps[k]);
      DoneExactly(o, k);
    }
    assert |d| == k;
  }

  /** Probe completes step `k` exactly when that step and every step before it succeed. */
  lemma StepCompletedIff(o: Outcomes, k: nat)
    requires k < |ProbeSteps|
    ensures k < StopIndex(o) <==> forall j | 0 <= j <= k :: Succeeds(o, ProbeSteps[j])
  {
    StopsAt(o);
    DoneExactly(o, k);
  }

  /**
   * Fixed order, stop at the first failure: the calls probe makes are the
   * steps that succeeded, followed by the failing step when there is one.
   */
  lemma AttemptedOrder(o: Outcomes)
    ensures Attempted(o) <= ProbeSteps
    ensures |Attempted(o)| > 0 && Attempted(o)[0] == Kzalloc
    ensures FailedStep(o).None? ==> Attempted(o) == Done(o) == ProbeSteps
    ensures FailedStep(o).Some? ==> Attempted(o) == Done(o) + [FailedStep(o).value]
  {
    StopsAt(o);
    var k := StopIndex(o);
    if k < |ProbeSteps| {
      assert Attempted(o) == ProbeSteps[..k] + [ProbeSteps[k]];
    }
  }

  /** The return code is decided by the first failing step alone. */
  lemma ProbeResultFirstFailure(o: Outcomes)
    ensures ProbeResult(o) == match FailedStep(o)
                              case None => 0
                              case Some(c) => if c == Kzalloc then -ENOMEM else -ENODEV
  {
    StopsAt(o);
    ProbeStepsDistinct();
  }

  /** From the initial state, probe binds the driver exactly when it returns 0. */
  lemma ProbeBindsIff(o: Outcomes)
    ensures Bound(ProbeState(Initial, o)) <==> ProbeResult(o) == 0
  {
  }

  /**
   * `csr_addr` is set only once the mapping succeeds, and then it is set
   * together with `pdata->registers`; otherwise it keeps its earlier value.
   */
  lemma CsrAddrFollowsMapping(s: State, o: Outcomes)
    ensures var t := ProbeState(s, o);
      && (t.registers <==> o.allocOk && o.enableResult == 0 && IsMemRegion(o.region0Flags)
                           && o.requestResult == 0 && o.mapped)
      && (t.registers ==> t.csrAddr)
      && (!t.registers ==> t.csrAddr == s.csrAddr)
  {
  }

  /**
   * No rollback: a failed probe still holds every acquisition of the steps
   * that completed before the failure.
   */
  lemma FailedProbeKeepsAcquisitions(s: State, o: Outcomes)
    ensures var t := ProbeState(s, o);
      && (o.allocOk ==> Allocated(t))
      && (o.allocOk && o.enableResult == 0 ==> t.enabled)
      && ((o.allocOk && o.enableResult == 0 && IsMemRegion(o.region0Flags)
           && o.requestResult == 0) ==> t.regions)
      && ((o.allocOk && o.enableResult == 0 && IsMemRegion(o.region0Flags)
           && o.requestResult == 0 && o.mapped) ==> t.mapped && t.registers && t.csrAddr)
  {
  }

  /**
   * A step that is not reached acquires nothing: the resources of later
   * steps keep whatever value they had before probe.
   */
  lemma FailedProbeStopsEarly(s: State, o: Outcomes)
    ensures var t := ProbeState(s, o);
      && (!o.allocOk ==> t == s.(privData := false, privDataFreed := false, registers := false))
      && (o.enableResult != 0 ==> t.enabled == s.enabled && t.regions == s.regions
                                  && t.mapped == s.mapped && t.led == s.led
                                  && t.csrAddr == s.csrAddr && !t.registers)
      && (!IsMemRegion(o.region0Flags) ==> t.regions == s.regions && t.mapped == s.mapped
                                           && t.led == s.led && t.csrAddr == s.csrAddr && !t.registers)
      && (o.requestResult != 0 ==> t.regions == s.regions && t.mapped == s.mapped && !t.registers
                                   && t.led == s.led && t.csrAddr == s.csrAddr)
      && (!o.mapped ==> t.mapped == s.mapped && t.csrAddr == s.csrAddr && t.led == s.led)
  {
  }

  /**
   * A probe of an unbound device that fails only at LED registration
   * returns -ENODEV and leaves the device enabled, its regions reserved and
   * BAR 0 mapped.
   */
  lemma LedFailureLeaks(o: Outcomes)
    requires o.allocOk && o.enableResult == 0 && IsMemRegion(o.region0Flags)
    requires o.requestResult == 0 && o.mapped && o.ledResult != 0
    ensures ProbeResult(o) == -ENODEV
    ensures var t := ProbeState(Initial, o); t.enabled && t.regions && t.mapped && !t.led
  {
  }

  // ----- Properties of remove -----

  /** Remove after a successful probe releases everything and frees the private data exactly once. */
  lemma RemoveAfterProbe(o: Outcomes)
    requires ProbeResult(o) == 0
    ensures CanRemove(ProbeState(Initial, o))
    ensures var t := RemoveState(ProbeState(Initial, o));
      && !t.enabled && !t.regions && !t.mapped && !t.led && t.privDataFreed
      && !CanRemove(t)
      && !CanSetBrightness(t)
    ensures RemoveCalls(ProbeState(Initial, o)) == [UnregisterLed, UnmapBar0, ReleaseRegions, DisableDevice, FreePrivData]
  {
  }

  /** `csr_addr` survives remove: after it, the brightness callback's pointer is set but unmapped. */
  lemma RemoveLeavesCsrAddr(s: State)
    requires Bound(s)
    ensures RemoveState(s).csrAddr && !RemoveState(s).mapped
    ensures RemoveState(s) != Initial
  {
  }

  /** After a probe whose allocation failed, `pdata` is NULL and remove cannot run. */
  lemma RemoveNeedsAllocation(s: State, o: Outcomes)
    requires !o.allocOk
    ensures !CanRemove(ProbeState(s, o))
  {
  }

  /**
   * The LED class calls the brightness callback only while `led_dev` is
   * registered. Registration comes after `csr_addr` is set to the mapping, so
   * probe and remove both keep "registered implies the callback has a set
   * `csr_addr` and a mapped window".
   */
  lemma RegisteredLedCanSetBrightness(s: State, o: Outcomes)
    requires s.led ==> CanSetBrightness(s)
    ensures var t := ProbeState(s, o); t.led ==> CanSetBrightness(t)
    ensures CanRemove(s) ==> var t := RemoveState(s); t.led ==> CanSetBrightness(t)
  {
  }

  /** A successful probe gives the brightness callback a mapped window. */
  lemma ProbeEnablesBrightness(s: State, o: Outcomes)
    requires ProbeResult(o) == 0
    ensures CanSetBrightness(ProbeState(s, o))
  {
  }
}
