# rtbt_example: a verified model of the RT3290 LED driver core

`rt3290led/testpci.c` is a small Linux PCI driver for the Bluetooth function
of the Ralink RT3290 combo chip. It exposes the chip's GPIO1 line, which drives
the Bluetooth LED, as an LED class device. The core of the driver has two parts.

- **The GPIO1 read-modify-write.** `setLedPower` reads the 32-bit `BT_FUN_CTRL`
  word at byte offset 0x3C0 of the memory-mapped BAR 0 window. To switch the
  line on it clears bit 24 (output enable, 0 = output) and sets bit 16 (output
  data). To switch it off it clears bit 16 only. It then writes the word back.
  The LED class callback `led_cdev_brightness_set` switches the line on for
  every brightness value except `LED_OFF`.
- **The probe/remove lifecycle.** `rtbt_pci_probe` makes six kernel calls in a
  fixed order and stops at the first failure without releasing anything:
  1. allocate the private data;
  2. enable the device;
  3. check that region 0 is memory-mapped;
  4. reserve the regions;
  5. map BAR 0, with `csr_addr` set to the mapping;
  6. register the LED class device.

  `rtbt_pci_remove` unregisters the LED, releases the regions and disables
  the device whatever probe acquired. It unmaps the window only when
  `pdata->registers` is set, then frees `pdata` (which it tests for NULL only
  after having dereferenced it).

The project has three modules.

- `LedPower` (`ledpower.dfy`):
  - the bit transform as functions on `bv32` (`PowerOn`, `PowerOff`,
    `BrightnessWord`);
  - the read-modify-write as a method over the register window, an
    `array<bv32>` indexed by 32-bit word, so `BT_FUN_CTRL` is word
    0x3C0 / 4 = 0xF0;
  - lemmas about single and repeated brightness requests (`ApplyAll` folds a
    sequence of requests over the register).
- `Lifecycle` (`lifecycle.dfy`): a reference model of probe and remove on
  values.
  - Each kernel answer is an input (`Outcomes`).
  - `StopIndex` reads the outcomes in the order the code tests them.
  - `ProbeState`, `ProbeResult` and `Attempted` give the state, return code
    and kernel calls after probe.
  - `RemoveState` and `RemoveCalls` do the same for remove.
  - An independent definition of "the longest prefix of steps that succeed"
    (`Completed`, `Done`, `FailedStep`) is proved to agree with the code's chain
    of tests.
  - The other lemmas state return codes, the call order, no rollback, and
    remove's requirements.
- `PciDriver` (`driver.dfy`): the class `Driver`.
  - Its boolean fields are the driver's globals (`pdata != NULL`,
    `pdata->registers != NULL`, `csr_addr != NULL`), the kernel resources held
    on its behalf and a ghost trace of the kernel calls.
  - Each kernel call is a method whose outcome is a parameter.
  - `Probe` and `Remove` call those methods in the order the C code does, with
    the same early exits. They are proved to produce exactly the state, return
    code and call trace of the reference model.
  - `BrightnessSet` is proved against `LedPower`.

Kernel outcomes (allocation, `pci_enable_device`, `pci_resource_flags`,
`pci_request_regions`, `pci_iomap`, `led_classdev_register`) are parameters.
The constants come from the kernel headers: `LED_OFF` = 0, `ENOMEM` = 12,
`ENODEV` = 19, `IORESOURCE_MEM` = 0x200.

## Model

| member | source | states |
|---|---|---|
| `LedPower.PowerOff` | rt3290led/testpci.c:56-58 | switching off leaves bit 16 clear and every other bit as it was |
| `LedPower.PowerOn` | rt3290led/testpci.c:52-55 | switching on leaves bit 16 set, bit 24 clear and every bit outside GPIO1 as it was |
| `LedPower.SetLedPower` | rt3290led/testpci.c:46-63 | the window afterwards is the window before with only the `BT_FUN_CTRL` word replaced, by the transform of the word that was read |
| `LedPower.PowerSetting` | rt3290led/testpci.c:52-58 | the word written has bit 16 set exactly when the line is switched on, and every bit outside GPIO1 as the word read |
| `LedPower.BrightnessWord` | rt3290led/testpci.c:65-71 | `LED_OFF` gives the "off" word; every other value gives the "on" word |
| `LedPower.PowerOffKeeps` | rt3290led/testpci.c:56-58 | switching off keeps the output-enable bit: the line is not turned back into an input |
| `LedPower.BrightnessWordBits` | rt3290led/testpci.c:52-58 | after one request, bit 16 is set iff the value is not `LED_OFF`; bit 24 is clear iff the request was "on" or the bit was clear before; other bits are unchanged |
| `LedPower.PowerOnIdempotent` | rt3290led/testpci.c:52-55 | switching on a word that is already on leaves it unchanged |
| `LedPower.PowerOffIdempotent` | rt3290led/testpci.c:56-58 | switching off a word that is already off leaves it unchanged |
| `LedPower.PowerSettingIdempotent` | rt3290led/testpci.c:50-59 | applying the same setting twice gives the word of applying it once, both for on and for off |
| `LedPower.PowerSettingExamples` | rt3290led/testpci.c:52-58 | off from 0xFFFFFFFF gives 0xFFFEFFFF; on from 0 gives 0x00010000 |
| `LedPower.ApplyAllSnoc` | rt3290led/testpci.c:65-71 | a sequence of requests is applied one after another, the last to the word the earlier ones left |
| `LedPower.ApplyAllKeepsOtherBits` | rt3290led/testpci.c:46-71 | no sequence of requests changes a bit outside GPIO1 |
| `LedPower.ApplyAllLastWins` | rt3290led/testpci.c:65-71 | after any sequence of requests, bit 16 says whether the last request was "on" |
| `LedPower.ApplyAllOutputEnable` | rt3290led/testpci.c:52-58 | after a sequence of requests, bit 24 is clear iff it was clear before or some request was "on" |
| `LedPower.ApplyAllRepeatLast` | rt3290led/testpci.c:65-71 | repeating the last request leaves the register unchanged |
| `Lifecycle.StopIndex` | rt3290led/testpci.c:114-163 | the code's chain of tests: probe completes no step iff the allocation fails, and all six iff every call succeeds |
| `Lifecycle.Attempted` | rt3290led/testpci.c:111-163 | the calls probe makes are a prefix of the six steps, start with the allocation, and have one more call than the completed steps when a step fails |
| `Lifecycle.ProbeState` | rt3290led/testpci.c:111-163 | probe sets `pdata` iff the allocation succeeds, with a fresh block; it releases nothing already held; once `pdata->registers` is set, `csr_addr` is set and the device is enabled, the regions reserved and the window mapped |
| `Lifecycle.Completed` | rt3290led/testpci.c:111-163 | the steps completed form a prefix of the step list, each of them succeeded, and the step after them (if any) failed |
| `Lifecycle.FailedStep` | rt3290led/testpci.c:111-163 | there is no failing step iff all six calls succeed; a failing step is one of the probe steps and its call failed |
| `Lifecycle.ProbeResult` | rt3290led/testpci.c:97-166 | probe returns 0 iff every call succeeds, `-ENOMEM` iff the allocation fails, `-ENODEV` iff the allocation succeeds and a later call fails |
| `Lifecycle.DoneExactly` | rt3290led/testpci.c:111-163 | a step is in the completed prefix iff it lies within it, which holds iff that step and every earlier one succeeded |
| `Lifecycle.StopsAt` | rt3290led/testpci.c:111-163 | the code's chain of tests completes exactly the longest successful prefix of the steps |
| `Lifecycle.StepCompletedIff` | rt3290led/testpci.c:111-163 | probe completes step k iff that step and all steps before it succeed |
| `Lifecycle.AttemptedOrder` | rt3290led/testpci.c:111-163 | the calls probe makes are, in order, a prefix of allocate, enable, MEM check, request regions, map, register LED, beginning with the allocation: the successful steps followed by the failing one, if any; a later step is never called after a failure |
| `Lifecycle.ProbeResultFirstFailure` | rt3290led/testpci.c:117-161 | the return code depends only on which step failed first: `-ENOMEM` for the allocation, `-ENODEV` for any other step, 0 for none |
| `Lifecycle.ProbeBindsIff` | rt3290led/testpci.c:97-166 | from the initial state, probe leaves every resource held iff it returns 0 |
| `Lifecycle.CsrAddrFollowsMapping` | rt3290led/testpci.c:147-155 | `pdata->registers` is set iff every step up to the mapping succeeded; `csr_addr` is then set as well, and otherwise keeps its earlier value |
| `Lifecycle.FailedProbeKeepsAcquisitions` | rt3290led/testpci.c:114-166 | no rollback: every acquisition made before the failing step is still held after probe returns |
| `Lifecycle.FailedProbeStopsEarly` | rt3290led/testpci.c:114-163 | when a step fails, the resources of the later steps (the regions, the mapping, the LED registration) and `csr_addr` keep the values they had before probe, and a failure before the mapping leaves `pdata->registers` NULL |
| `Lifecycle.LedFailureLeaks` | rt3290led/testpci.c:157-166 | a probe that fails only at LED registration returns `-ENODEV` with the device enabled, the regions reserved and BAR 0 mapped |
| `Lifecycle.RemoveCalls` | rt3290led/testpci.c:180-186 | remove unregisters the LED first and frees `pdata` last, with release regions and disable device before the free; it unmaps iff `pdata->registers` is set (five calls, otherwise four) |
| `Lifecycle.RemoveState` | rt3290led/testpci.c:180-186 | after remove, the block is freed, the device is disabled, the regions are released and the LED is unregistered; the window stays mapped only if it was mapped while `pdata->registers` was NULL; `pdata`, `pdata->registers` and `csr_addr` keep their values |
| `Lifecycle.RegisteredLedCanSetBrightness` | rt3290led/testpci.c:155-157 | `csr_addr` is set and the window mapped before the LED is registered, so neither probe nor remove leaves the LED registered without the callback's `csr_addr` set and the window mapped |
| `Lifecycle.RemoveAfterProbe` | rt3290led/testpci.c:169-188 | after a successful probe, remove may run, makes the five calls unregister, unmap, release, disable, free in that order, and leaves nothing held |
| `Lifecycle.RemoveLeavesCsrAddr` | rt3290led/testpci.c:180-186 | remove does not reset `csr_addr`: it stays set while the window it points to is unmapped |
| `Lifecycle.RemoveNeedsAllocation` | rt3290led/testpci.c:181-186 | after a probe whose allocation failed, `pdata` is NULL and remove's requirement does not hold |
| `Lifecycle.ProbeEnablesBrightness` | rt3290led/testpci.c:147-155 | after a successful probe the brightness callback has a set `csr_addr` and a mapped window |
| `PciDriver.Driver.constructor` | rt3290led/testpci.c:41-44 | a new driver has every global NULL and holds nothing |
| `PciDriver.Driver.KzallocPrivData` | rt3290led/testpci.c:111 | `pdata` is set iff the allocation succeeds; the block is zeroed, so `pdata->registers` is NULL |
| `PciDriver.Driver.PciEnableDevice` | rt3290led/testpci.c:121 | the device is enabled when the call returns 0; the call is recorded |
| `PciDriver.Driver.PciResourceFlags` | rt3290led/testpci.c:129 | the region-0 flags are returned and nothing else changes |
| `PciDriver.Driver.PciRequestRegions` | rt3290led/testpci.c:137 | the regions are held when the call returns 0 |
| `PciDriver.Driver.PciIomap` | rt3290led/testpci.c:147 | `pdata->registers` is set iff the mapping succeeds |
| `PciDriver.Driver.LedClassdevRegister` | rt3290led/testpci.c:157 | the LED is registered when the call returns 0 |
| `PciDriver.Driver.LedClassdevUnregister` | rt3290led/testpci.c:180 | the LED registration is dropped |
| `PciDriver.Driver.PciIounmap` | rt3290led/testpci.c:181-182 | the BAR 0 mapping is dropped |
| `PciDriver.Driver.PciReleaseRegions` | rt3290led/testpci.c:183 | the regions are released |
| `PciDriver.Driver.PciDisableDevice` | rt3290led/testpci.c:184 | the device is disabled |
| `PciDriver.Driver.KfreePrivData` | rt3290led/testpci.c:185-186 | the private data block is freed; `pdata` keeps its value |
| `PciDriver.Driver.Probe` | rt3290led/testpci.c:97-167 | the return code, the new state and the calls made are exactly those of the reference model, for every combination of kernel outcomes |
| `PciDriver.Driver.Remove` | rt3290led/testpci.c:169-188 | requires a live `pdata`; the new state and the calls made are exactly those of the reference model |
| `PciDriver.Driver.BrightnessSet` | rt3290led/testpci.c:65-71 | requires a set `csr_addr` and a mapped window, which holds whenever the LED is registered (`RegisteredLedCanSetBrightness`); only the `BT_FUN_CTRL` word changes, to the on/off word for the value |

## Left out

- MMIO semantics of `ioread32`/`iowrite32` and the `mmiowb()` barrier. The register window is a plain array of words that keeps what was last written to it.
- The `DEFINE_SEMAPHORE`/`down`/`up` pairs. Each call creates its semaphore, so they exclude nothing; concurrency is not modelled.
- Module init/exit, `pci_register_driver`/`pci_unregister_driver` and the `pci_driver` table. These are calls into the kernel's driver framework.
- All `printk` logging, which is output only.
- The `hdev` branch of remove. `hdev` is never assigned and stays NULL, so the branch cannot run.
- The suspend and resume callbacks. They only return 0.
- The PCI device ID table and the static `led_classdev` initialiser, which are data.
- `pci_resource_len`, whose value only sizes the mapping. The model maps the whole window the array stands for.
- The kernel's own bookkeeping is reduced to booleans. The model does not count repeated acquisitions (a second probe after a failed one), the enable reference count of `pci_enable_device` or the pointer values. `csr_addr` and `pdata->registers` are modelled as "set or NULL".
- `pdata` is not reset by remove, so after it `pdata` and `csr_addr` dangle. The model keeps both set and records the free separately, which is what the code does (it never clears them).
- Remove's requirement also rules out a second remove. The block `pdata` points to must not have been freed, because remove reads `pdata->registers` before its NULL test.
