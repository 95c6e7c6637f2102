/**
 * The globals of the rtbt_example driver (`pdata`, `pdata->registers`,
 * `csr_addr`) and the kernel-side resources it acquires, as one object
 * whose probe, remove and brightness-set callbacks update it in place.
 *
 * Each kernel function the driver calls is a method whose answer is an
 * input and whose effect on the object is stated in its contract. Probe and
 * remove call them in the order the driver does and are proved against the
 * reference model in `Lifecycle`; the brightness callback is proved against
 * `LedPower`.
 */
module PciDriver {
  import opened LedPower
  import opened Lifecycle

  class Driver {
    // The driver's globals.
    var pdata: bool           // pdata != NULL
    var registers: bool       // pdata->registers != NULL
    var csrAddr: bool         // csr_addr != NULL

    // What the allocator and the kernel hold on the driver's behalf.
    var privDataFreed: bool   // the block pdata points to has been kfree'd
    var enabled: bool         // pci_enable_device succeeded and was not undone
    var regionsHeld: bool     // pci_request_regions succeeded and was not undone
    var windowMapped: bool    // a BAR 0 mapping is in place
    var ledRegistered: bool   // led_dev is registered with the LED class

    /** BAR 0 of the one supported device, in 32-bit words, as seen through a mapping. */
    const bar0: array<bv32>

    /** The kernel calls made so far, in order. */
    ghost var calls: seq<Call>

    /** The driver as a value of the reference model. */
    function Abstract(): State
      reads this
    {
      State(pdata, privDataFreed, registers, csrAddr, enabled, regionsHeld, windowMapped, ledRegistered)
    }

    /** A driver that has not been probed: every global NULL, nothing held. */
    constructor (bar0: array<bv32>)
      ensures Abstract() == Initial
      ensures this.bar0 == bar0 && calls == []
    {
      pdata, registers, csrAddr := false, false, false;
      privDataFreed, enabled, regionsHeld, windowMapped, ledRegistered := false, false, false, false, false;
      this.bar0 := bar0;
      calls := [];
    }

    // ----- The kernel calls, as steps with a given outcome -----

    /** `pdata = kzalloc(...)`: a zeroed block (so `pdata->registers` is NULL), or NULL. */
    method KzallocPrivData(ok: bool) returns (block: bool)
      modifies this`pdata, this`privDataFreed, this`registers, this`calls
      ensures block == ok
      ensures pdata == ok && !privDataFreed && !registers
      ensures calls == old(calls) + [Kzalloc]
    {
      pdata, privDataFreed, registers := ok, false, false;
      calls := calls + [Kzalloc];
      block := ok;
    }

    /** `pci_enable_device`: returns `result`; 0 means the device is now enabled. */
    method PciEnableDevice(result: int) returns (r: int)
      modifies this`enabled, this`calls
      ensures r == result
      ensures enabled == (old(enabled) || result == 0)
      ensures calls == old(calls) + [EnableDevice]
    {
      if result == 0 {
        enabled := true;
      }
      calls := calls + [EnableDevice];
      r := result;
    }

    /** `pci_resource_flags(pdev, 0)`: reads the flags of region 0 and changes nothing. */
    method PciResourceFlags(flags: bv64) returns (r: bv64)
      modifies this`calls
      ensures r == flags
      ensures calls == old(calls) + [CheckMemRegion]
    {
      calls := calls + [CheckMemRegion];
      r := flags;
    }

    /** `pci_request_regions`: returns `result`; 0 means the regions are now reserved. */
    method PciRequestRegions(result: int) returns (r: int)
      modifies this`regionsHeld, this`calls
      ensures r == result
      ensures regionsHeld == (old(regionsHeld) || result == 0)
      ensures calls == old(calls) + [RequestRegions]
    {
      if result == 0 {
        regionsHeld := true;
      }
      calls := calls + [RequestRegions];
      r := result;
    }

    /** `pdata->registers = pci_iomap(pdev, 0, ...)`: a mapping of BAR 0, or NULL. */
    method PciIomap(ok: bool)
      modifies this`registers, this`windowMapped, this`calls
      ensures registers == ok && windowMapped == (old(windowMapped) || ok)
      ensures calls == old(calls) + [MapBar0]
    {
      registers := ok;
      if ok {
        windowMapped := true;
      }
      calls := calls + [MapBar0];
    }

    /** `led_classdev_register`: returns `result`; 0 means `led_dev` is now registered. */
    method LedClassdevRegister(result: int) returns (r: int)
      modifies this`ledRegistered, this`calls
      ensures r == result
      ensures ledRegistered == (old(ledRegistered) || result == 0)
      ensures calls == old(calls) + [RegisterLed]
    {
      if result == 0 {
        ledRegistered := true;
      }
      calls := calls + [RegisterLed];
      r := result;
    }

    /** `led_classdev_unregister`. */
    method LedClassdevUnregister()
      modifies this
      ensures Abstract() == old(Abstract()).(led := false)
      ensures calls == old(calls) + [UnregisterLed]
    {
      ledRegistered := false;
      calls := calls + [UnregisterLed];
    }

    /** `pci_iounmap` of `pdata->registers`. */
    method PciIounmap()
      modifies this
      ensures Abstract() == old(Abstract()).(mapped := false)
      ensures calls == old(calls) + [UnmapBar0]
    {
      windowMapped := false;
      calls := calls + [UnmapBar0];
    }

    /** `pci_release_regions`. */
    method PciReleaseRegions()
      modifies this
      ensures Abstract() == old(Abstract()).(regions := false)
      ensures calls == old(calls) + [ReleaseRegions]
    {
      regionsHeld := false;
      calls := calls + [ReleaseRegions];
    }

    /** `pci_disable_device`. */
    method PciDisableDevice()
      modifies this
      ensures Abstract() == old(Abstract()).(enabled := false)
      ensures calls == old(calls) + [DisableDevice]
    {
      enabled := false;
      calls := calls + [DisableDevice];
    }

    /** `kfree(pdata)`: the block is given back; the pointer itself is not reset. */
    method KfreePrivData()
      modifies this
      ensures Abstract() == old(Abstract()).(privDataFreed := true)
      ensures calls == old(calls) + [FreePrivData]
    {
      privDataFreed := true;
      calls := calls + [FreePrivData];
    }

    // ----- The driver's callbacks -----

    /**
     * `rtbt_pci_probe`: the kernel calls in their fixed order, stopping at
     * the first failure, with no release of what was already acquired.
     */
    method Probe(o: Outcomes) returns (ret: int)
      modifies this
      ensures ret == ProbeResult(o)
      ensures Abstract() == ProbeState(old(Abstract()), o)
      ensures calls == old(calls) + Attempted(o)
    {
      ProbePrefixes();

      var ok := KzallocPrivData(o.allocOk);
      if !ok {
        ret := -ENOMEM;
        return;
      }

      var en := PciEnableDevice(o.enableResult);
      if en != 0 {
        ret := -ENODEV;
        return;
      }

      var baseFlags := PciResourceFlags(o.region0Flags);
      if !IsMemRegion(baseFlags) {
        ret := -ENODEV;
        return;
      }

      en := PciRequestRegions(o.requestResult);
      if en != 0 {
        ret := -ENODEV;
        return;
      }

      PciIomap(o.mapped);
      if !registers {
        ret := -ENODEV;
        return;
      }

      csrAddr := registers;

      var led := LedClassdevRegister(o.ledResult);
      if led != 0 {
        ret := -ENODEV;
        return;
      }

      ret := 0;
    }

    /**
     * `rtbt_pci_remove`: unregister the LED, unmap the window if
     * `pdata->registers` is set, release the regions, disable the device and
     * free the private data. `pdata` and `csr_addr` are left as they were.
     */
    method Remove()
      requires CanRemove(Abstract())
      modifies this
      ensures Abstract() == RemoveState(old(Abstract()))
      ensures calls == old(calls) + RemoveCalls(old(Abstract()))
    {
      // The hci_dev branch is left out: hdev is never assigned.
      LedClassdevUnregister();
      if registers {
        PciIounmap();
      }
      PciReleaseRegions();
      PciDisableDevice();
      if pdata {
        KfreePrivData();
      }
    }

    /**
     * `led_cdev_brightness_set`: any value but LED_OFF powers the GPIO1 line
     * on, LED_OFF powers it off; only the BT_FUN_CTRL word of the window is
     * written.
     */
    method BrightnessSet(value: int)
      requires CanSetBrightness(Abstract())
      requires FunCtrlWord < bar0.Length
      modifies bar0
      ensures bar0[..] == old(bar0[..])[FunCtrlWord := BrightnessWord(old(bar0[FunCtrlWord]), value)]
    {
      if value != LedOff {
        SetLedPower(bar0, true);
      } else {
        SetLedPower(bar0, false);
      }
    }
  }
}
