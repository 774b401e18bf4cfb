/** What the LMK04828 bring-up promises, stated about the step functions of
    module LmkEiscat (which the driver's methods are proved to follow):
    the exact bus trace in each of the four possible endings, stopping at
    the first failed check, the writes that precede every read, and that
    the run depends only on what the chip answers. */
module LmkEiscatProperties {
  import opened RegisterBus
  import opened LmkEiscat

  // ---------------------------------------------------------------------
  // The bring-up run, step by step

  /** The trace after the reset writes. */
  function ResetTrace(h: seq<BusOp>): seq<BusOp>
  {
    h + PokeOps(RESET_SEQUENCE)
  }

  /** What the chip answers to the identity read. */
  function ChipIdAnswer(respond: Responder, h: seq<BusOp>): Byte
  {
    respond(ResetTrace(h), CHIP_ID_ADDR)
  }

  /** The trace after the bulk table and the sticky clear, when the
      identity check passed. */
  function ClearedTrace(respond: Responder, h: seq<BusOp>): seq<BusOp>
  {
    ResetTrace(h) + [Peek(CHIP_ID_ADDR, ChipIdAnswer(respond, h))]
    + PokeOps(CONFIG_SEQUENCE) + PokeOps(LOCK_CLEAR_SEQUENCE)
  }

  /** What the chip answers to the PLL1 lock-status read. */
  function Pll1Answer(respond: Responder, h: seq<BusOp>): Byte
  {
    respond(ClearedTrace(respond, h), PLL1_LOCK_ADDR)
  }

  /** What the chip answers to the PLL2 lock-status read. */
  function Pll2Answer(respond: Responder, h: seq<BusOp>): Byte
  {
    respond(ClearedTrace(respond, h) + [Peek(PLL1_LOCK_ADDR, Pll1Answer(respond, h))], PLL2_LOCK_ADDR)
  }

  lemma ClearedWrites(respond: Responder, h: seq<BusOp>)
    ensures Writes(ClearedTrace(respond, h))
      == Writes(h) + RESET_SEQUENCE + CONFIG_SEQUENCE + LOCK_CLEAR_SEQUENCE
    ensures Reads(ClearedTrace(respond, h)) == Reads(h) + [CHIP_ID_ADDR]
  {
    var id := ChipIdAnswer(respond, h);
    AfterPokes(h, RESET_SEQUENCE);
    AfterPeek(ResetTrace(h), CHIP_ID_ADDR, id);
    AfterPokes(ResetTrace(h) + [Peek(CHIP_ID_ADDR, id)], CONFIG_SEQUENCE);
    AfterPokes(ResetTrace(h) + [Peek(CHIP_ID_ADDR, id)] + PokeOps(CONFIG_SEQUENCE), LOCK_CLEAR_SEQUENCE);
  }

  /** A wrong identity value, and only that, ends bring-up with
      `ChipNotFound`: then the bus has seen the four reset writes and the
      one identity read, and nothing else. */
  lemma ChipNotFoundRun(respond: Responder, h: seq<BusOp>)
    ensures var run := BringUpRun(respond, h);
      var id := ChipIdAnswer(respond, h);
      (run.outcome.Fail? && run.outcome.error.ChipNotFound? <==> id != LMK_CHIP_ID)
      && (id != LMK_CHIP_ID ==>
            run.outcome == Fail(ChipNotFound(id))
            && run.trace == ResetTrace(h) + [Peek(CHIP_ID_ADDR, id)]
            && Writes(run.trace) == Writes(h) + RESET_SEQUENCE
            && Reads(run.trace) == Reads(h) + [CHIP_ID_ADDR])
  {
    var id := ChipIdAnswer(respond, h);
    AfterPokes(h, RESET_SEQUENCE);
    AfterPeek(ResetTrace(h), CHIP_ID_ADDR, id);
  }

  /** With the right identity, an unlocked PLL1, and only that, ends
      bring-up with `PllNotLocked(Pll1, status)`: the PLL2 status is never
      read and no SYNC write is issued. */
  lemma Pll1NotLockedRun(respond: Responder, h: seq<BusOp>)
    ensures var run := BringUpRun(respond, h);
      var id, s1 := ChipIdAnswer(respond, h), Pll1Answer(respond, h);
      var pll1Failed := run.outcome.Fail? && run.outcome.error.PllNotLocked? && run.outcome.error.pll == Pll1;
      (pll1Failed <==> ChipIdMatches(id) && !PllLocked(s1))
      && (ChipIdMatches(id) && !PllLocked(s1) ==>
            run.outcome == Fail(PllNotLocked(Pll1, s1))
            && run.trace == ClearedTrace(respond, h) + [Peek(PLL1_LOCK_ADDR, s1)]
            && Writes(run.trace) == Writes(h) + RESET_SEQUENCE + CONFIG_SEQUENCE + LOCK_CLEAR_SEQUENCE
            && Reads(run.trace) == Reads(h) + [CHIP_ID_ADDR, PLL1_LOCK_ADDR])
  {
    var s1 := Pll1Answer(respond, h);
    ClearedWrites(respond, h);
    AfterPeek(ClearedTrace(respond, h), PLL1_LOCK_ADDR, s1);
  }

  /** With the right identity and PLL1 locked, an unlocked PLL2, and only
      that, ends bring-up with `PllNotLocked(Pll2, status)`, before any
      SYNC write. */
  lemma Pll2NotLockedRun(respond: Responder, h: seq<BusOp>)
    ensures var run := BringUpRun(respond, h);
      var id, s1, s2 := ChipIdAnswer(respond, h), Pll1Answer(respond, h), Pll2Answer(respond, h);
      var pll2Failed := run.outcome.Fail? && run.outcome.error.PllNotLocked? && run.outcome.error.pll == Pll2;
      (pll2Failed <==> ChipIdMatches(id) && PllLocked(s1) && !PllLocked(s2))
      && (ChipIdMatches(id) && PllLocked(s1) && !PllLocked(s2) ==>
            run.outcome == Fail(PllNotLocked(Pll2, s2))
            && run.trace == ClearedTrace(respond, h) + [Peek(PLL1_LOCK_ADDR, s1), Peek(PLL2_LOCK_ADDR, s2)]
            && Writes(run.trace) == Writes(h) + RESET_SEQUENCE + CONFIG_SEQUENCE + LOCK_CLEAR_SEQUENCE
            && Reads(run.trace) == Reads(h) + [CHIP_ID_ADDR, PLL1_LOCK_ADDR, PLL2_LOCK_ADDR])
  {
    var s1, s2 := Pll1Answer(respond, h), Pll2Answer(respond, h);
    var c := ClearedTrace(respond, h);
    ClearedWrites(respond, h);
    AfterPeek(c, PLL1_LOCK_ADDR, s1);
    AfterPeek(c + [Peek(PLL1_LOCK_ADDR, s1)], PLL2_LOCK_ADDR, s2);
    assert c + [Peek(PLL1_LOCK_ADDR, s1), Peek(PLL2_LOCK_ADDR, s2)]
      == c + [Peek(PLL1_LOCK_ADDR, s1)] + [Peek(PLL2_LOCK_ADDR, s2)];
  }

  /** Bring-up succeeds exactly when the identity matches and both PLLs
      report lock; the bus has then seen the reset, bulk, sticky-clear and
      SYNC writes in that order, and the three reads 0x03, 0x182, 0x183. */
  lemma ReadyRun(respond: Responder, h: seq<BusOp>)
    ensures var run := BringUpRun(respond, h);
      var id, s1, s2 := ChipIdAnswer(respond, h), Pll1Answer(respond, h), Pll2Answer(respond, h);
      (run.outcome == Pass <==> ChipIdMatches(id) && PllLocked(s1) && PllLocked(s2))
      && (run.outcome == Pass ==>
            run.trace == ClearedTrace(respond, h) + [Peek(PLL1_LOCK_ADDR, s1), Peek(PLL2_LOCK_ADDR, s2)]
                         + PokeOps(SYNC_SEQUENCE)
            && Writes(run.trace)
               == Writes(h) + RESET_SEQUENCE + CONFIG_SEQUENCE + LOCK_CLEAR_SEQUENCE + SYNC_SEQUENCE
            && Reads(run.trace) == Reads(h) + [CHIP_ID_ADDR, PLL1_LOCK_ADDR, PLL2_LOCK_ADDR])
  {
    var s1, s2 := Pll1Answer(respond, h), Pll2Answer(respond, h);
    var c := ClearedTrace(respond, h);
    var locked := c + [Peek(PLL1_LOCK_ADDR, s1)] + [Peek(PLL2_LOCK_ADDR, s2)];
    ClearedWrites(respond, h);
    AfterPeek(c, PLL1_LOCK_ADDR, s1);
    AfterPeek(c + [Peek(PLL1_LOCK_ADDR, s1)], PLL2_LOCK_ADDR, s2);
    AfterPokes(locked, SYNC_SEQUENCE);
    assert c + [Peek(PLL1_LOCK_ADDR, s1), Peek(PLL2_LOCK_ADDR, s2)] == locked;
  }

  /** A failed bring-up stops at the read that failed: the last operation
      on the bus is that read, of the register the error names, and it
      returned the value the error carries. */
  lemma FailureStopsAtFailedRead(respond: Responder, h: seq<BusOp>)
    ensures var run := BringUpRun(respond, h);
      run.outcome.Fail? ==>
        |run.trace| > |h|
        && match run.outcome.error
           case ChipNotFound(v) => run.trace[|run.trace| - 1] == Peek(CHIP_ID_ADDR, v)
           case PllNotLocked(Pll1, v) => run.trace[|run.trace| - 1] == Peek(PLL1_LOCK_ADDR, v)
           case PllNotLocked(Pll2, v) => run.trace[|run.trace| - 1] == Peek(PLL2_LOCK_ADDR, v)
  {
  }

  /** Bring-up depends on the chip only through its answers to the reads
      it actually performs: two chips that give the same identity value,
      the same PLL1 status when it is read, and the same PLL2 status when
      it is read, lead to the same outcome and the same bus trace. */
  lemma DependsOnlyOnAnswers(r1: Responder, r2: Responder, h: seq<BusOp>)
    requires ChipIdAnswer(r1, h) == ChipIdAnswer(r2, h)
    requires ChipIdMatches(ChipIdAnswer(r1, h)) ==> Pll1Answer(r1, h) == Pll1Answer(r2, h)
    requires ChipIdMatches(ChipIdAnswer(r1, h)) && PllLocked(Pll1Answer(r1, h))
             ==> Pll2Answer(r1, h) == Pll2Answer(r2, h)
    ensures BringUpRun(r1, h) == BringUpRun(r2, h)
  {

  }

  /** Every read of the bring-up sees exactly the writes the chip needs
      before it: the identity read follows the reset writes alone, and
      each lock-status read follows the reset, bulk and sticky-clear
      writes, with no SYNC write before it. */
  lemma WritesBeforeEachRead(respond: Responder, h: seq<BusOp>)
    ensures var t := BringUpRun(respond, h).trace;
      forall k :: |h| <= k < |t| && t[k].Peek? ==>
        (t[k].addr == CHIP_ID_ADDR && Writes(t[..k]) == Writes(h) + RESET_SEQUENCE)
        || ((t[k].addr == PLL1_LOCK_ADDR || t[k].addr == PLL2_LOCK_ADDR)
            && Writes(t[..k]) == Writes(h) + RESET_SEQUENCE + CONFIG_SEQUENCE + LOCK_CLEAR_SEQUENCE)
  {
    var t := BringUpRun(respond, h).trace;
    var id, s1, s2 := ChipIdAnswer(respond, h), Pll1Answer(respond, h), Pll2Answer(respond, h);
    var reset, c := ResetTrace(h), ClearedTrace(respond, h);
    AfterPokes(h, RESET_SEQUENCE);
    ClearedWrites(respond, h);
    AfterPeek(c, PLL1_LOCK_ADDR, s1);
    forall k | |h| <= k < |t| && t[k].Peek?
      ensures (t[k].addr == CHIP_ID_ADDR && Writes(t[..k]) == Writes(h) + RESET_SEQUENCE)
        || ((t[k].addr == PLL1_LOCK_ADDR || t[k].addr == PLL2_LOCK_ADDR)
            && Writes(t[..k]) == Writes(h) + RESET_SEQUENCE + CONFIG_SEQUENCE + LOCK_CLEAR_SEQUENCE)
    {
      PeekPositions(respond, h, k);
    }
  }

  /** Where the reads of a bring-up sit in its trace. */
  lemma PeekPositions(respond: Responder, h: seq<BusOp>, k: int)
    requires var t := BringUpRun(respond, h).trace; |h| <= k < |t| && t[k].Peek?
    ensures var t := BringUpRun(respond, h).trace;
      var c := ClearedTrace(respond, h);
      (k == |ResetTrace(h)| && t[..k] == ResetTrace(h) && t[k].addr == CHIP_ID_ADDR)
      || (k == |c| && t[..k] == c && t[k].addr == PLL1_LOCK_ADDR)
      || (k == |c| + 1 && t[..k] == c + [Peek(PLL1_LOCK_ADDR, Pll1Answer(respond, h))]
          && t[k].addr == PLL2_LOCK_ADDR)
  {

  }
}
