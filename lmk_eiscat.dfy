/** Driver for the LMK04828 clock synthesiser on the EISCAT daughterboard.
    Constructing a driver brings the chip up: reset, identity check, bulk
    configuration, lock-detect sticky clear, PLL lock check and the
    SYNC/SYSREF sequence. Each step is a method on the driver object that
    issues operations on its register interface; next to each method is a
    function that gives, for a responder and the trace so far, the outcome
    of that step and the trace it leaves. */
module LmkEiscat {
  import opened RegisterBus

  /** The value the identity register of an LMK04828 holds. */
  const LMK_CHIP_ID: Byte := 6

  /** The identity register. */
  const CHIP_ID_ADDR: Addr := 0x03

  /** The lock-detect registers of PLL1 and PLL2: written to clear their
      sticky bits, read to learn the lock status. */
  const PLL1_LOCK_ADDR: Addr := 0x182
  const PLL2_LOCK_ADDR: Addr := 0x183

  /** A PLL counts as locked when the low three bits of its status read
      back as this pattern. */
  const PLL_STATUS_MASK: nat := 0x7
  const PLL_LOCKED_PATTERN: nat := 0x02

  /** Reset: assert then release reset, release power-down, and route the
      PLL2 lock-detect pin to SDO so that registers can be read back. */
  const RESET_SEQUENCE: seq<RegWrite> := [
    RegWrite(0x000, 0x90), RegWrite(0x000, 0x10), RegWrite(0x002, 0x00), RegWrite(0x16E, 0x3B)
  ]

  /** Bulk configuration, phase 1: the formatting of the clock outputs,
      one block of eight registers (0x100 + 8n to 0x107 + 8n, of which the
      third is not written) per output group n = 0 .. 6. */
  const CLKOUT0_CONFIG: seq<RegWrite> := [
    RegWrite(0x100, 0x6C), RegWrite(0x101, 0x55), RegWrite(0x103, 0x00), RegWrite(0x104, 0x20),
    RegWrite(0x105, 0x00), RegWrite(0x106, 0xF3), RegWrite(0x107, 0x05)
  ]
  const CLKOUT1_CONFIG: seq<RegWrite> := [
    RegWrite(0x108, 0x6C), RegWrite(0x109, 0x55), RegWrite(0x10B, 0x00), RegWrite(0x10C, 0x20),
    RegWrite(0x10D, 0x00), RegWrite(0x10E, 0xF1), RegWrite(0x10F, 0x05)
  ]
  const CLKOUT2_CONFIG: seq<RegWrite> := [
    RegWrite(0x110, 0x6C), RegWrite(0x111, 0x55), RegWrite(0x113, 0x00), RegWrite(0x114, 0x20),
    RegWrite(0x115, 0x00), RegWrite(0x116, 0xF1), RegWrite(0x117, 0x05)
  ]
  const CLKOUT3_CONFIG: seq<RegWrite> := [
    RegWrite(0x118, 0x6C), RegWrite(0x119, 0x55), RegWrite(0x11B, 0x00), RegWrite(0x11C, 0x20),
    RegWrite(0x11D, 0x00), RegWrite(0x11E, 0xF1), RegWrite(0x11F, 0x05)
  ]
  const CLKOUT4_CONFIG: seq<RegWrite> := [
    RegWrite(0x120, 0x78), RegWrite(0x121, 0x55), RegWrite(0x123, 0x00), RegWrite(0x124, 0x20),
    RegWrite(0x125, 0x00), RegWrite(0x126, 0xF3), RegWrite(0x127, 0x00)
  ]
  const CLKOUT5_CONFIG: seq<RegWrite> := [
    RegWrite(0x128, 0x6C), RegWrite(0x129, 0x55), RegWrite(0x12B, 0x00), RegWrite(0x12C, 0x20),
    RegWrite(0x12D, 0x00), RegWrite(0x12E, 0xF9), RegWrite(0x12F, 0x00)
  ]
  const CLKOUT6_CONFIG: seq<RegWrite> := [
    RegWrite(0x130, 0x6C), RegWrite(0x131, 0x55), RegWrite(0x133, 0x00), RegWrite(0x134, 0x20),
    RegWrite(0x135, 0x00), RegWrite(0x136, 0xF9), RegWrite(0x137, 0x00)
  ]

  const CLKOUT_CONFIG: seq<RegWrite> :=
    CLKOUT0_CONFIG + CLKOUT1_CONFIG + CLKOUT2_CONFIG + CLKOUT3_CONFIG
    + CLKOUT4_CONFIG + CLKOUT5_CONFIG + CLKOUT6_CONFIG

  /** Phase 2: VCO mux, SYSREF generation, feedback mux, SYNC set-up
      (SYSREF from the normal SYNC path, SYNC enabled on all outputs). */
  const SYSREF_SYNC_CONFIG: seq<RegWrite> := [
    RegWrite(0x138, 0x10), RegWrite(0x139, 0x00), RegWrite(0x13A, 0x01), RegWrite(0x13B, 0xE0),
    RegWrite(0x13C, 0x00), RegWrite(0x13D, 0x08), RegWrite(0x13E, 0x00), RegWrite(0x13F, 0x0B),
    RegWrite(0x140, 0x00), RegWrite(0x141, 0x00), RegWrite(0x142, 0x00), RegWrite(0x143, 0xD1),
    RegWrite(0x144, 0x00), RegWrite(0x145, 0x7F)
  ]

  /** Phase 3: clock-input selection and types, reset pin, holdover and
      DAC (registers 0x146 to 0x152). */
  const CLKIN_CONFIG: seq<RegWrite> := [
    RegWrite(0x146, 0x08), RegWrite(0x147, 0x0E), RegWrite(0x148, 0x01), RegWrite(0x149, 0x01),
    RegWrite(0x14A, 0x02), RegWrite(0x14B, 0x01), RegWrite(0x14C, 0xF6), RegWrite(0x14D, 0x00),
    RegWrite(0x14E, 0x00), RegWrite(0x14F, 0x7F), RegWrite(0x150, 0x03), RegWrite(0x151, 0x02),
    RegWrite(0x152, 0x00)
  ]

  /** Phase 4: the CLKin R dividers and the PLL1 N divider, PFD,
      lock-detect count, R/N delay and status pin (0x153 to 0x15F). */
  const PLL1_CONFIG: seq<RegWrite> := [
    RegWrite(0x153, 0x00), RegWrite(0x154, 0x0A), RegWrite(0x155, 0x00), RegWrite(0x156, 0x01),
    RegWrite(0x157, 0x00), RegWrite(0x158, 0x01), RegWrite(0x159, 0x00), RegWrite(0x15A, 0x68),
    RegWrite(0x15B, 0xCF), RegWrite(0x15C, 0x27), RegWrite(0x15D, 0x10), RegWrite(0x15E, 0x00),
    RegWrite(0x15F, 0x13)
  ]

  /** Phase 5: PLL2 R divider, prescaler and calibration values, ending
      with 0x165. */
  const PLL2_CAL_CONFIG: seq<RegWrite> := [
    RegWrite(0x160, 0x00), RegWrite(0x161, 0x01), RegWrite(0x162, 0x24), RegWrite(0x163, 0x00),
    RegWrite(0x164, 0x00), RegWrite(0x165, 0x0C)
  ]

  /** Phase 6: two registers that must be written after 0x165. */
  const POST_CAL_CONFIG: seq<RegWrite> := [
    RegWrite(0x171, 0xAA), RegWrite(0x172, 0x02)
  ]

  /** Phase 7: the VCO1 calibration registers, which must be written before
      0x168. */
  const VCO1_CAL_CONFIG: seq<RegWrite> := [
    RegWrite(0x17C, 0x15), RegWrite(0x17D, 0x33)
  ]

  /** Phase 8: the PLL2 N divider, ending with 0x168. */
  const PLL2_N_CONFIG: seq<RegWrite> := [
    RegWrite(0x166, 0x00), RegWrite(0x167, 0x00), RegWrite(0x168, 0x0C)
  ]

  /** Phase 9: PLL2 PFD, lock-detect count, loop filter and power. */
  const PLL2_LOOP_CONFIG: seq<RegWrite> := [
    RegWrite(0x169, 0x51), RegWrite(0x16A, 0x00), RegWrite(0x16B, 0x10), RegWrite(0x16C, 0x00),
    RegWrite(0x16D, 0x00), RegWrite(0x173, 0x00)
  ]

  /** The whole bulk-configuration table, the phases in the order the
      driver writes them. */
  const CONFIG_SEQUENCE: seq<RegWrite> :=
    CLKOUT_CONFIG + SYSREF_SYNC_CONFIG + CLKIN_CONFIG + PLL1_CONFIG + PLL2_CAL_CONFIG
    + POST_CAL_CONFIG + VCO1_CAL_CONFIG + PLL2_N_CONFIG + PLL2_LOOP_CONFIG

  /** Set then clear the lock-detect sticky bit of PLL1, then of PLL2. */
  const LOCK_CLEAR_SEQUENCE: seq<RegWrite> := [
    RegWrite(0x182, 0x1), RegWrite(0x182, 0x0), RegWrite(0x183, 0x1), RegWrite(0x183, 0x0)
  ]

  /** Toggle the SYNC polarity high then low to raise a SYNC event, switch
      the SYSREF mux to the pulser, disable SYNC on all outputs, then select
      the pulser with one-shot enabled. */
  const SYNC_SEQUENCE: seq<RegWrite> := [
    RegWrite(0x143, 0xF1), RegWrite(0x143, 0xD1), RegWrite(0x139, 0x02), RegWrite(0x144, 0xFF),
    RegWrite(0x143, 0x52)
  ]

  datatype Pll = Pll1 | Pll2

  /** Why bring-up failed: the identity register held the wrong value, or a
      PLL did not report lock (with the status byte it reported). */
  datatype InitError = ChipNotFound(observed: Byte) | PllNotLocked(pll: Pll, raw: Byte)

  /** The outcome of one bring-up step. */
  datatype Outcome = Pass | Fail(error: InitError)

  /** The outcome of constructing a driver: a driver, or why there is none. */
  datatype Result<T> = Success(value: T) | Failure(error: InitError)

  /** A step's outcome together with the bus trace after it. */
  datatype Run = Run(outcome: Outcome, trace: seq<BusOp>)

  predicate ChipIdMatches(id: Byte)
  {
    id == LMK_CHIP_ID
  }

  /** The lock test on a PLL status byte: its low three bits are 0b010. */
  predicate PllLocked(status: Byte)
  {
    BitAnd(status, PLL_STATUS_MASK) == PLL_LOCKED_PATTERN
  }

  /** The lock test reads the status modulo 8: exactly the statuses
      2, 10, 18, ... count as locked. */
  lemma PllLockedLowBits(status: Byte)
    ensures PllLocked(status) <==> status % 8 == 2
  {
    BitAndLowThreeBits(status);
  }

  /** Reset, then read the identity register once. */
  function InitRun(respond: Responder, h: seq<BusOp>): Run
  {
    var reset := h + PokeOps(RESET_SEQUENCE);
    var id := respond(reset, CHIP_ID_ADDR);
    Run(if ChipIdMatches(id) then Pass else Fail(ChipNotFound(id)),
        reset + [Peek(CHIP_ID_ADDR, id)])
  }

  /** Read one lock-status register and judge it. */
  function PllCheckRun(respond: Responder, h: seq<BusOp>, pllId: Pll, addr: Addr): Run
  {
    var status := respond(h, addr);
    Run(if PllLocked(status) then Pass else Fail(PllNotLocked(pllId, status)),
        h + [Peek(addr, status)])
  }

  /** Bulk configuration, sticky clear, PLL1 then PLL2 lock check, stopping
      at the first PLL that is not locked, then the SYNC sequence. */
  function ConfigRun(respond: Responder, h: seq<BusOp>): Run
  {
    var cleared := h + PokeOps(CONFIG_SEQUENCE) + PokeOps(LOCK_CLEAR_SEQUENCE);
    var pll1 := PllCheckRun(respond, cleared, Pll1, PLL1_LOCK_ADDR);
    if pll1.outcome.Fail? then pll1
    else
      var pll2 := PllCheckRun(respond, pll1.trace, Pll2, PLL2_LOCK_ADDR);
      if pll2.outcome.Fail? then pll2
      else Run(Pass, pll2.trace + PokeOps(SYNC_SEQUENCE))
  }

  /** The whole bring-up that constructing a driver performs. */
  function BringUpRun(respond: Responder, h: seq<BusOp>): Run
  {
    var init := InitRun(respond, h);
    if init.outcome.Fail? then init else ConfigRun(respond, init.trace)
  }

  class Lmk04828Eiscat {
    const regsIface: RegsIface

    /** Binds the driver to its register interface; `Construct` then
        brings the chip up. */
    constructor (regsIface: RegsIface)
      ensures this.regsIface == regsIface
    {
      this.regsIface := regsIface;
    }

    /** Issue one write per entry, in order, none skipped. */
    method Pokes8(addrVals: seq<RegWrite>)
      modifies regsIface
      ensures regsIface.ops == old(regsIface.ops) + PokeOps(addrVals)
    {
      for i := 0 to |addrVals|
        invariant regsIface.ops == old(regsIface.ops) + PokeOps(addrVals[..i])
      {
        regsIface.Poke8(addrVals[i].addr, addrVals[i].val);
        assert addrVals[..i + 1] == addrVals[..i] + [addrVals[i]];
        PokeOpsAppend(addrVals[..i], [addrVals[i]]);
      }
      assert addrVals[..|addrVals|] == addrVals;
    }

    /** Read the identity register. */
    method GetChipId() returns (chipId: Byte)
      modifies regsIface
      ensures chipId == regsIface.respond(old(regsIface.ops), CHIP_ID_ADDR)
      ensures regsIface.ops == old(regsIface.ops) + [Peek(CHIP_ID_ADDR, chipId)]
    {
      chipId := regsIface.Peek8(CHIP_ID_ADDR);
    }

    /** Read the identity register and compare it with `LMK_CHIP_ID`; the
        value read is returned beside the verdict for diagnostics. */
    method VerifyChipId() returns (ok: bool, chipId: Byte)
      modifies regsIface
      ensures chipId == regsIface.respond(old(regsIface.ops), CHIP_ID_ADDR)
      ensures ok <==> ChipIdMatches(chipId)
      ensures regsIface.ops == old(regsIface.ops) + [Peek(CHIP_ID_ADDR, chipId)]
    {
      chipId := GetChipId();
      if !ChipIdMatches(chipId) {
        return false, chipId;
      }
      return true, chipId;
    }

    /** Reset the chip and check that it is an LMK04828. */
    method Init() returns (o: Outcome)
      modifies regsIface
      ensures Run(o, regsIface.ops) == InitRun(regsIface.respond, old(regsIface.ops))
    {
      Pokes8(RESET_SEQUENCE);
      var found, chipId := VerifyChipId();
      if !found {
        return Fail(ChipNotFound(chipId));
      }
      return Pass;
    }

    /** Read one PLL's lock-status register; fail unless it reports lock. */
    method CheckPllLock(pllId: Pll, addr: Addr) returns (o: Outcome)
      modifies regsIface
      ensures Run(o, regsIface.ops) == PllCheckRun(regsIface.respond, old(regsIface.ops), pllId, addr)
    {
      var pllLockStatus := regsIface.Peek8(addr);
      if !PllLocked(pllLockStatus) {
        return Fail(PllNotLocked(pllId, pllLockStatus));
      }
      return Pass;
    }

    /** Bulk configuration, lock-detect clear, lock check, SYNC sequence. */
    method Config() returns (o: Outcome)
      modifies regsIface
      ensures Run(o, regsIface.ops) == ConfigRun(regsIface.respond, old(regsIface.ops))
    {
      Pokes8(CONFIG_SEQUENCE);
      Pokes8(LOCK_CLEAR_SEQUENCE);
      o := CheckPllLock(Pll1, PLL1_LOCK_ADDR);
      if o.Fail? {
        return;
      }
      o := CheckPllLock(Pll2, PLL2_LOCK_ADDR);
      if o.Fail? {
        return;
      }
      Pokes8(SYNC_SEQUENCE);
    }
  }

  /** Construct a driver on `regsIface`: bind it, run `Init`, and run
      `Config` only if `Init` passed. A driver is returned only when every
      step passed. */
  method Construct(regsIface: RegsIface) returns (r: Result<Lmk04828Eiscat>)
    modifies regsIface
    ensures var run := BringUpRun(regsIface.respond, old(regsIface.ops));
      regsIface.ops == run.trace
      && (r.Success? <==> run.outcome == Pass)
      && (r.Failure? ==> run.outcome == Fail(r.error))
      && (r.Success? ==> fresh(r.value) && r.value.regsIface == regsIface)
  {
    var lmk := new Lmk04828Eiscat(regsIface);
    var o := lmk.Init();
    if o.Fail? {
      return Failure(o.error);
    }
    o := lmk.Config();
    if o.Fail? {
      return Failure(o.error);
    }
    return Success(lmk);
  }
}
