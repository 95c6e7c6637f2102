/**
 * The GPIO1 power line of the RT3290 Bluetooth function: two bits of the
 * 32-bit function-control register BT_FUN_CTRL, at byte offset 0x3C0 of the
 * memory-mapped BAR 0 window.
 *
 *   bit 16  GPIO1 output data
 *   bit 24  GPIO1 output enable (0 = output, 1 = input)
 *
 * The window is modelled as an array of 32-bit words; the read-modify-write
 * of `setLedPower` is a method on that array, and the bit transform it
 * applies is a pair of functions on `bv32`.
 */
module LedPower {

  /** Byte offset of the function-control register in the BAR 0 window. */
  const BtFunCtrl: nat := 0x3C0

  /** The same offset counted in 32-bit words (the offset is word aligned). */
  const FunCtrlWord: nat := BtFunCtrl / 4

  /** GPIO1 output-data bit (bit 16). */
  const OutputData: bv32 := 0x0001_0000

  /** GPIO1 output-enable bit (bit 24); clear means the line is an output. */
  const OutputEnable: bv32 := 0x0100_0000

  /** The two bits the driver may change; every other bit must be preserved. */
  const GpioBits: bv32 := 0x0101_0000

  /** The brightness value the LED class calls "off" (LED_OFF). */
  const LedOff: int := 0

  /** The word written back when the line is switched off. */
  function PowerOff(w: bv32): (r: bv32)
    ensures r & OutputData == 0
    ensures r & !OutputData == w & !OutputData
  {
    w & !OutputData
  }

  /** The word written back when the line is switched on. */
  function PowerOn(w: bv32): (r: bv32)
    ensures r & OutputData == OutputData
    ensures r & OutputEnable == 0
    ensures r & !GpioBits == w & !GpioBits
  {
    (w & !OutputEnable) | OutputData
  }

  /** The word `setLedPower(base, enabled)` writes, given the word it read. */
  function PowerSetting(w: bv32, enabled: bool): (r: bv32)
    ensures (r & OutputData != 0) == enabled
    ensures r & !GpioBits == w & !GpioBits
  {
    if enabled then PowerOn(w) else PowerOff(w)
  }

  /** Whether `led_cdev_brightness_set` switches the line on for `value`. */
  predicate PowersOn(value: int)
  {
    value != LedOff
  }

  /** The word `led_cdev_brightness_set(cdev, value)` leaves in the register. */
  function BrightnessWord(w: bv32, value: int): (r: bv32)
    ensures value == LedOff ==> r == PowerOff(w)
    ensures value != LedOff ==> r == PowerOn(w)
  {
    PowerSetting(w, PowersOn(value))
  }

  /**
   * The read-modify-write of `setLedPower`: read the control word, clear
   * (and for "on" also set) the GPIO1 bits, write it back. Nothing else in
   * the window is written.
   */
  method SetLedPower(base: array<bv32>, enabled: bool)
    requires FunCtrlWord < base.Length
    modifies base
    ensures base[..] == old(base[..])[FunCtrlWord := PowerSetting(old(base[FunCtrlWord]), enabled)]
  {
    var regWord := base[FunCtrlWord];
    ghost var read := regWord;
    if enabled {
      regWord := regWord & !OutputEnable;
      regWord := regWord | OutputData;
    } else {
      regWord := regWord & !OutputData;
    }
    ghost var written := regWord;
    assert written == PowerSetting(read, enabled) by { MaskedUpdate(read, enabled, written); }
    base[FunCtrlWord] := regWord;
  }

  /** The statements of `setLedPower` between its read and its write compute `PowerSetting`. */
  lemma MaskedUpdate(w: bv32, enabled: bool, r: bv32)
    requires r == if enabled then (w & !OutputEnable) | OutputData else w & !OutputData
    ensures r == PowerSetting(w, enabled)
  {
  }

  // ----- Properties of the transform -----

  /** Switching off also keeps the output-enable bit and every bit outside GPIO1. */
  lemma PowerOffKeeps(w: bv32)
    ensures PowerOff(w) & OutputEnable == w & OutputEnable
    ensures PowerOff(w) & !GpioBits == w & !GpioBits
  {
  }

  /** The GPIO1 bits after one brightness request, and the bits it leaves alone. */
  lemma BrightnessWordBits(w: bv32, value: int)
    ensures BrightnessWord(w, value) & !GpioBits == w & !GpioBits
    ensures (BrightnessWord(w, value) & OutputData != 0) == PowersOn(value)
    ensures (BrightnessWord(w, value) & OutputEnable == 0) == (PowersOn(value) || w & OutputEnable == 0)
  {
    if !PowersOn(value) {
      PowerOffKeeps(w);
    }
  }

  /** Switching on twice leaves the word of switching on once. */
  lemma PowerOnIdempotent(w: bv32)
    ensures PowerOn(PowerOn(w)) == PowerOn(w)
  {
  }

  /** Switching off twice leaves the word of switching off once. */
  lemma PowerOffIdempotent(w: bv32)
    ensures PowerOff(PowerOff(w)) == PowerOff(w)
  {
  }

  /** Applying the same setting twice leaves the word of applying it once. */
  lemma PowerSettingIdempotent(w: bv32, enabled: bool)
    ensures PowerSetting(PowerSetting(w, enabled), enabled) == PowerSetting(w, enabled)
  {
    if enabled {
      PowerOnIdempotent(w);
    } else {
      PowerOffIdempotent(w);
    }
  }

  /** Register values after a single call, from all-ones and from zero. */
  lemma PowerSettingExamples()
    ensures BrightnessWord(0xFFFF_FFFF, LedOff) == 0xFFFE_FFFF
    ensures BrightnessWord(0x0000_0000, 128) == 0x0001_0000
  {
  }

  /** The register after the LED class has delivered `values`, in order, starting from `w`. */
  function ApplyAll(w: bv32, values: seq<int>): bv32
    decreases |values|
  {
    if values == [] then w else ApplyAll(BrightnessWord(w, values[0]), values[1..])
  }

  /** Some value in `values` switches the line on. */
  predicate AnyOn(values: seq<int>)
  {
    exists i | 0 <= i < |values| :: PowersOn(values[i])
  }

  /** Some value in `values` switches the line on exactly when the first does or some later one does. */
  lemma AnyOnCons(values: seq<int>)
    requires values != []
    ensures AnyOn(values) <==> PowersOn(values[0]) || AnyOn(values[1..])
  {
    var rest := values[1..];
    if AnyOn(values) && !PowersOn(values[0]) {
      var i :| 0 <= i < |values| && PowersOn(values[i]);
      assert rest[i - 1] == values[i];
    }
    if AnyOn(rest) {
      var j :| 0 <= j < |rest| && PowersOn(rest[j]);
      assert values[j + 1] == rest[j];
    }
  }

  /** The last request is applied to the register the earlier ones left. */
  lemma {:induction false} ApplyAllSnoc(w: bv32, values: seq<int>, v: int)
    ensures ApplyAll(w, values + [v]) == BrightnessWord(ApplyAll(w, values), v)
    decreases |values|
  {
    if values == [] {
      assert values + [v] == [v];
      assert [v][1..] == [];
    } else {
      assert (values + [v])[1..] == values[1..] + [v];
      ApplyAllSnoc(BrightnessWord(w, values[0]), values[1..], v);
    }
  }

  /** Whatever sequence of brightness requests arrives, the bits outside GPIO1 never change. */
  lemma {:induction false} ApplyAllKeepsOtherBits(w: bv32, values: seq<int>)
    ensures ApplyAll(w, values) & !GpioBits == w & !GpioBits
    decreases |values|
  {
    if values != [] {
      BrightnessWordBits(w, values[0]);
      ApplyAllKeepsOtherBits(BrightnessWord(w, values[0]), values[1..]);
    }
  }

  /** The output-data bit follows the last request alone. */
  lemma ApplyAllLastWins(w: bv32, values: seq<int>, v: int)
    ensures ApplyAll(w, values + [v]) & OutputData != 0 <==> PowersOn(v)
  {
    ApplyAllSnoc(w, values, v);
    BrightnessWordBits(ApplyAll(w, values), v);
  }

  /**
   * The output-enable bit is clear after a sequence of requests exactly
   * when it was clear before or some request was "on": switching off never
   * turns the line back into an input.
   */
  lemma {:induction false} ApplyAllOutputEnable(w: bv32, values: seq<int>)
    ensures ApplyAll(w, values) & OutputEnable == 0 <==> (w & OutputEnable == 0 || AnyOn(values))
    decreases |values|
  {
    if values != [] {
      BrightnessWordBits(w, values[0]);
      ApplyAllOutputEnable(BrightnessWord(w, values[0]), values[1..]);
      AnyOnCons(values);
    }
  }

  /** Repeating the last request changes nothing. */
  lemma ApplyAllRepeatLast(w: bv32, values: seq<int>, v: int)
    ensures ApplyAll(w, values + [v, v]) == ApplyAll(w, values + [v])
  {
    assert values + [v, v] == (values + [v]) + [v];
    ApplyAllSnoc(w, values + [v], v);
    ApplyAllSnoc(w, values, v);
    PowerSettingIdempotent(ApplyAll(w, values), PowersOn(v));
  }
}
