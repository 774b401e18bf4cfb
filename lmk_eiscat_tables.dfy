/** Facts about the register tables of the LMK04828 bring-up: every
    address lies in the chip's register map and every value in a byte;
    the calibration registers keep the order the chip needs; the bulk
    table leaves the SYNC polarity bit low so that only the SYNC sequence
    toggles it. Each phase of the table is examined on its own and the
    facts are joined along the table's concatenation. */
module LmkEiscatTables {
  import opened RegisterBus
  import opened LmkEiscat

  /** Every write of `t` goes to an address in `lo` .. `hi`. */
  ghost predicate AddrsWithin(t: seq<RegWrite>, lo: int, hi: int)
  {
    forall w :: w in t ==> lo <= w.addr <= hi
  }

  /** No write of `t` goes to `a`. */
  ghost predicate Avoids(t: seq<RegWrite>, a: Addr)
  {
    forall w :: w in t ==> w.addr != a
  }

  /** Some write of `t` goes to `a`. */
  ghost predicate Touches(t: seq<RegWrite>, a: Addr)
  {
    exists w :: w in t && w.addr == a
  }

  /** Both `a` and `b` are written in `t`, and every write to `a` comes
      before every write to `b`. */
  ghost predicate WrittenBefore(t: seq<RegWrite>, a: Addr, b: Addr)
  {
    Touches(t, a) && Touches(t, b)
    && forall i, j :: 0 <= i < |t| && 0 <= j < |t| && t[i].addr == a && t[j].addr == b ==> i < j
  }

  /** The values written to `a` in `t`, in order. */
  function ValuesWrittenTo(t: seq<RegWrite>, a: Addr): (vs: seq<Byte>)
    ensures |vs| <= |t|
  {
    if t == [] then []
    else (if t[0].addr == a then [t[0].val] else []) + ValuesWrittenTo(t[1..], a)
  }

  // ---------------------------------------------------------------------
  // Joining facts about two tables into a fact about their concatenation

  /** Seven tables within one range: so is their concatenation. */
  lemma SevenWithin(c0: seq<RegWrite>, c1: seq<RegWrite>, c2: seq<RegWrite>, c3: seq<RegWrite>,
                    c4: seq<RegWrite>, c5: seq<RegWrite>, c6: seq<RegWrite>, lo: int, hi: int)
    requires AddrsWithin(c0 + c1, lo, hi) && AddrsWithin(c2 + c3, lo, hi)
    requires AddrsWithin(c4 + c5, lo, hi) && AddrsWithin(c6, lo, hi)
    ensures AddrsWithin(c0 + c1 + c2 + c3 + c4 + c5 + c6, lo, hi)
  {
  }

  lemma AvoidsOutside(t: seq<RegWrite>, lo: int, hi: int, a: Addr)
    requires AddrsWithin(t, lo, hi) && (a < lo || hi < a)
    ensures Avoids(t, a)
  {
  }

  lemma {:induction false} ValuesWrittenToAppend(s: seq<RegWrite>, t: seq<RegWrite>, a: Addr)
    ensures ValuesWrittenTo(s + t, a) == ValuesWrittenTo(s, a) + ValuesWrittenTo(t, a)
  {
    if s == [] {
      assert s + t == t;
    } else {
      assert (s + t)[0] == s[0] && (s + t)[1..] == s[1..] + t;
      ValuesWrittenToAppend(s[1..], t, a);
      var head := if s[0].addr == a then [s[0].val] else [];
      assert ValuesWrittenTo(s + t, a) == head + ValuesWrittenTo(s[1..] + t, a);
      assert ValuesWrittenTo(s, a) == head + ValuesWrittenTo(s[1..], a);
    }
  }

  /** A table that never writes `a` contributes no values to it. */
  lemma {:induction false} ValuesWrittenToAvoided(t: seq<RegWrite>, a: Addr)
    requires Avoids(t, a)
    ensures ValuesWrittenTo(t, a) == []
  {
    if t != [] {
      assert t[0] in t;
      assert forall w :: w in t[1..] ==> w in t;
      ValuesWrittenToAvoided(t[1..], a);
    }
  }

  /** Appending a table that never writes `a` leaves its values alone. */
  lemma ValuesAfterAvoiding(s: seq<RegWrite>, t: seq<RegWrite>, lo: int, hi: int, a: Addr)
    requires AddrsWithin(t, lo, hi) && (a < lo || hi < a)
    ensures ValuesWrittenTo(s + t, a) == ValuesWrittenTo(s, a)
  {
    AvoidsOutside(t, lo, hi, a);
    ValuesWrittenToAvoided(t, a);
    ValuesWrittenToAppend(s, t, a);
  }

  // ---------------------------------------------------------------------
  // The phases of the bulk table, one at a time

  lemma Clkout01Block()
    ensures AddrsWithin(CLKOUT0_CONFIG + CLKOUT1_CONFIG, 0x100, 0x10F)
  {
  }

  lemma Clkout23Block()
    ensures AddrsWithin(CLKOUT2_CONFIG + CLKOUT3_CONFIG, 0x110, 0x11F)
  {
  }

  lemma Clkout45Block()
    ensures AddrsWithin(CLKOUT4_CONFIG + CLKOUT5_CONFIG, 0x120, 0x12F)
  {
  }

  lemma Clkout6Block()
    ensures AddrsWithin(CLKOUT6_CONFIG, 0x130, 0x137)
  {
  }

  /** The clock-output phase writes only registers 0x100 .. 0x137. */
  lemma ClkoutBlock()
    ensures AddrsWithin(CLKOUT_CONFIG, 0x100, 0x137)
  {
    Clkout01Block();
    Clkout23Block();
    Clkout45Block();
    Clkout6Block();
    SevenWithin(CLKOUT0_CONFIG, CLKOUT1_CONFIG, CLKOUT2_CONFIG, CLKOUT3_CONFIG,
                CLKOUT4_CONFIG, CLKOUT5_CONFIG, CLKOUT6_CONFIG, 0x100, 0x137);
  }

  /** The SYSREF/SYNC phase writes only 0x138 .. 0x145. */
  lemma SysrefSyncBlock()
    ensures AddrsWithin(SYSREF_SYNC_CONFIG, 0x138, 0x145)
  {
  }

  /** The SYSREF/SYNC phase sets up the SYNC register 0x143 once, with
      polarity low (0xD1). */
  lemma SysrefSyncValues()
    ensures ValuesWrittenTo(SYSREF_SYNC_CONFIG, 0x143) == [0xD1]
  {
  }

  lemma ClkinBlock()
    ensures AddrsWithin(CLKIN_CONFIG, 0x146, 0x152)
  {
  }

  lemma Pll1Block()
    ensures AddrsWithin(PLL1_CONFIG, 0x153, 0x15F)
  {
  }

  lemma Pll2CalBlock()
    ensures AddrsWithin(PLL2_CAL_CONFIG, 0x160, 0x165) && Touches(PLL2_CAL_CONFIG, 0x165)
  {
    assert PLL2_CAL_CONFIG[5] in PLL2_CAL_CONFIG;
  }

  lemma PostCalBlock()
    ensures AddrsWithin(POST_CAL_CONFIG, 0x171, 0x172)
    ensures Touches(POST_CAL_CONFIG, 0x171) && Touches(POST_CAL_CONFIG, 0x172)
  {
    assert POST_CAL_CONFIG[0] in POST_CAL_CONFIG && POST_CAL_CONFIG[1] in POST_CAL_CONFIG;
  }

  lemma Vco1CalBlock()
    ensures AddrsWithin(VCO1_CAL_CONFIG, 0x17C, 0x17D)
    ensures Touches(VCO1_CAL_CONFIG, 0x17C) && Touches(VCO1_CAL_CONFIG, 0x17D)
  {
    assert VCO1_CAL_CONFIG[0] in VCO1_CAL_CONFIG && VCO1_CAL_CONFIG[1] in VCO1_CAL_CONFIG;
  }

  lemma Pll2NBlock()
    ensures AddrsWithin(PLL2_N_CONFIG, 0x166, 0x168) && Touches(PLL2_N_CONFIG, 0x168)
  {
    assert PLL2_N_CONFIG[2] in PLL2_N_CONFIG;
  }

  /** The loop-filter phase lies inside 0x169 .. 0x173 but skips the two
      post-calibration registers in that span. */
  lemma Pll2LoopBlock()
    ensures AddrsWithin(PLL2_LOOP_CONFIG, 0x169, 0x173)
    ensures Avoids(PLL2_LOOP_CONFIG, 0x171) && Avoids(PLL2_LOOP_CONFIG, 0x172)
  {
  }

  /** All nine phase facts at once. */
  lemma PhaseFacts()
    ensures PhasesLaidOut(CLKOUT_CONFIG, SYSREF_SYNC_CONFIG, CLKIN_CONFIG, PLL1_CONFIG,
                          PLL2_CAL_CONFIG, POST_CAL_CONFIG, VCO1_CAL_CONFIG, PLL2_N_CONFIG,
                          PLL2_LOOP_CONFIG)
  {
    ClkoutBlock();
    SysrefSyncBlock();
    SysrefSyncValues();
    ClkinBlock();
    Pll1Block();
    Pll2CalBlock();
    PostCalBlock();
    Vco1CalBlock();
    Pll2NBlock();
    Pll2LoopBlock();
  }

  // ---------------------------------------------------------------------
  // Any table laid out in nine phases like the bulk table

  /** The register ranges and calibration registers of the nine phases
      of the bulk table, in order. */
  ghost predicate PhasesLaidOut(clk: seq<RegWrite>, sys: seq<RegWrite>, cin: seq<RegWrite>,
                                p1: seq<RegWrite>, cal: seq<RegWrite>, post: seq<RegWrite>,
                                vco: seq<RegWrite>, n: seq<RegWrite>, loop: seq<RegWrite>)
  {
    AddrsWithin(clk, 0x100, 0x137)
    && AddrsWithin(sys, 0x138, 0x145) && ValuesWrittenTo(sys, 0x143) == [0xD1]
    && AddrsWithin(cin, 0x146, 0x152)
    && AddrsWithin(p1, 0x153, 0x15F)
    && AddrsWithin(cal, 0x160, 0x165) && Touches(cal, 0x165)
    && AddrsWithin(post, 0x171, 0x172) && Touches(post, 0x171) && Touches(post, 0x172)
    && AddrsWithin(vco, 0x17C, 0x17D) && Touches(vco, 0x17C) && Touches(vco, 0x17D)
    && AddrsWithin(n, 0x166, 0x168) && Touches(n, 0x168)
    && AddrsWithin(loop, 0x169, 0x173) && Avoids(loop, 0x171) && Avoids(loop, 0x172)
  }

  /** Writes to `b` in the post-calibration phase come after every write
      to 0x165. */
  lemma LayoutPostCalAfter165(clk: seq<RegWrite>, sys: seq<RegWrite>, cin: seq<RegWrite>,
                              p1: seq<RegWrite>, cal: seq<RegWrite>, post: seq<RegWrite>,
                              vco: seq<RegWrite>, n: seq<RegWrite>, loop: seq<RegWrite>, b: Addr)
    requires PhasesLaidOut(clk, sys, cin, p1, cal, post, vco, n, loop)
    requires b == 0x171 || b == 0x172
    ensures WrittenBefore(clk + sys + cin + p1 + cal + post + vco + n + loop, 0x165, b)
  {

  }

  /** Writes to `a` in the VCO1 calibration phase come before every write
      to 0x168. */
  lemma LayoutVco1CalBefore168(clk: seq<RegWrite>, sys: seq<RegWrite>, cin: seq<RegWrite>,
                               p1: seq<RegWrite>, cal: seq<RegWrite>, post: seq<RegWrite>,
                               vco: seq<RegWrite>, n: seq<RegWrite>, loop: seq<RegWrite>, a: Addr)
    requires PhasesLaidOut(clk, sys, cin, p1, cal, post, vco, n, loop)
    requires a == 0x17C || a == 0x17D
    ensures WrittenBefore(clk + sys + cin + p1 + cal + post + vco + n + loop, a, 0x168)
  {

  }

  lemma LayoutWithin(clk: seq<RegWrite>, sys: seq<RegWrite>, cin: seq<RegWrite>,
                     p1: seq<RegWrite>, cal: seq<RegWrite>, post: seq<RegWrite>,
                     vco: seq<RegWrite>, n: seq<RegWrite>, loop: seq<RegWrite>)
    requires PhasesLaidOut(clk, sys, cin, p1, cal, post, vco, n, loop)
    ensures AddrsWithin(clk + sys + cin + p1 + cal + post + vco + n + loop, 0x100, 0x17D)
  {

  }

  lemma LayoutSyncValue(clk: seq<RegWrite>, sys: seq<RegWrite>, cin: seq<RegWrite>,
                        p1: seq<RegWrite>, cal: seq<RegWrite>, post: seq<RegWrite>,
                        vco: seq<RegWrite>, n: seq<RegWrite>, loop: seq<RegWrite>)
    requires PhasesLaidOut(clk, sys, cin, p1, cal, post, vco, n, loop)
    ensures ValuesWrittenTo(clk + sys + cin + p1 + cal + post + vco + n + loop, 0x143) == [0xD1]
  {
    ValuesAfterAvoiding([], clk, 0x100, 0x137, 0x143);
    assert [] + clk == clk;
    ValuesWrittenToAppend(clk, sys, 0x143);
    ValuesAfterAvoiding(clk + sys, cin, 0x146, 0x152, 0x143);
    ValuesAfterAvoiding(clk + sys + cin, p1, 0x153, 0x15F, 0x143);
    ValuesAfterAvoiding(clk + sys + cin + p1, cal, 0x160, 0x165, 0x143);
    ValuesAfterAvoiding(clk + sys + cin + p1 + cal, post, 0x171, 0x172, 0x143);
    ValuesAfterAvoiding(clk + sys + cin + p1 + cal + post, vco, 0x17C, 0x17D, 0x143);
    ValuesAfterAvoiding(clk + sys + cin + p1 + cal + post + vco, n, 0x166, 0x168, 0x143);
    ValuesAfterAvoiding(clk + sys + cin + p1 + cal + post + vco + n, loop, 0x169, 0x173, 0x143);
  }

  // ---------------------------------------------------------------------
  // The bulk table itself

  /** The calibration order the chip needs: 0x171 and 0x172 after 0x165,
      0x17C and 0x17D before 0x168. */
  lemma CalibrationOrder()
    ensures WrittenBefore(CONFIG_SEQUENCE, 0x165, 0x171)
    ensures WrittenBefore(CONFIG_SEQUENCE, 0x165, 0x172)
    ensures WrittenBefore(CONFIG_SEQUENCE, 0x17C, 0x168)
    ensures WrittenBefore(CONFIG_SEQUENCE, 0x17D, 0x168)
  {
    PhaseFacts();
    LayoutPostCalAfter165(CLKOUT_CONFIG, SYSREF_SYNC_CONFIG, CLKIN_CONFIG, PLL1_CONFIG,
                          PLL2_CAL_CONFIG, POST_CAL_CONFIG, VCO1_CAL_CONFIG, PLL2_N_CONFIG,
                          PLL2_LOOP_CONFIG, 0x171);
    LayoutPostCalAfter165(CLKOUT_CONFIG, SYSREF_SYNC_CONFIG, CLKIN_CONFIG, PLL1_CONFIG,
                          PLL2_CAL_CONFIG, POST_CAL_CONFIG, VCO1_CAL_CONFIG, PLL2_N_CONFIG,
                          PLL2_LOOP_CONFIG, 0x172);
    LayoutVco1CalBefore168(CLKOUT_CONFIG, SYSREF_SYNC_CONFIG, CLKIN_CONFIG, PLL1_CONFIG,
                           PLL2_CAL_CONFIG, POST_CAL_CONFIG, VCO1_CAL_CONFIG, PLL2_N_CONFIG,
                           PLL2_LOOP_CONFIG, 0x17C);
    LayoutVco1CalBefore168(CLKOUT_CONFIG, SYSREF_SYNC_CONFIG, CLKIN_CONFIG, PLL1_CONFIG,
                           PLL2_CAL_CONFIG, POST_CAL_CONFIG, VCO1_CAL_CONFIG, PLL2_N_CONFIG,
                           PLL2_LOOP_CONFIG, 0x17D);
  }

  /** The bulk table writes only registers 0x100 .. 0x17D. */
  lemma BulkTableWithin()
    ensures AddrsWithin(CONFIG_SEQUENCE, 0x100, 0x17D)
  {
    PhaseFacts();
    LayoutWithin(CLKOUT_CONFIG, SYSREF_SYNC_CONFIG, CLKIN_CONFIG, PLL1_CONFIG,
                 PLL2_CAL_CONFIG, POST_CAL_CONFIG, VCO1_CAL_CONFIG, PLL2_N_CONFIG,
                 PLL2_LOOP_CONFIG);
  }

  /** The bulk table has 108 entries, in nine phases. */
  lemma BulkTableSize()
    ensures |CONFIG_SEQUENCE| == 108
  {
  }

  /** The reset, sticky-clear and SYNC tables stay within the chip's
      register map (0x000 .. 0x1FF). */
  lemma SmallTablesWithin()
    ensures AddrsWithin(RESET_SEQUENCE, 0x000, 0x1FF)
    ensures AddrsWithin(LOCK_CLEAR_SEQUENCE, 0x000, 0x1FF)
    ensures AddrsWithin(SYNC_SEQUENCE, 0x000, 0x1FF)
  {
  }

  /** The bulk table writes the SYNC register 0x143 once, with 0xD1. */
  lemma BulkSyncWrites()
    ensures ValuesWrittenTo(CONFIG_SEQUENCE, 0x143) == [0xD1]
  {
    PhaseFacts();
    LayoutSyncValue(CLKOUT_CONFIG, SYSREF_SYNC_CONFIG, CLKIN_CONFIG, PLL1_CONFIG,
                    PLL2_CAL_CONFIG, POST_CAL_CONFIG, VCO1_CAL_CONFIG, PLL2_N_CONFIG,
                    PLL2_LOOP_CONFIG);
  }

  /** The SYNC-polarity bit of register 0x143. */
  const SYNC_POL: nat := 0x20

  predicate SyncPolarityHigh(v: Byte)
  {
    BitAnd(v, SYNC_POL) != 0
  }

  /** The SYNC table writes 0x143 three times: polarity high (0xF1), back
      low (0xD1), and finally the pulser with one-shot (0x52). */
  lemma SyncSequenceSyncWrites()
    ensures ValuesWrittenTo(SYNC_SEQUENCE, 0x143) == [0xF1, 0xD1, 0x52]
  {
  }

  /** Between the polarity toggle and the final 0x143 write, the SYNC table
      selects the SYSREF pulser (0x139) and then disables SYNC on all
      outputs (0x144), each once. */
  lemma SyncSequenceMuxWrites()
    ensures ValuesWrittenTo(SYNC_SEQUENCE, 0x139) == [0x02]
    ensures ValuesWrittenTo(SYNC_SEQUENCE, 0x144) == [0xFF]
    ensures WrittenBefore(SYNC_SEQUENCE, 0x139, 0x144)
    ensures SYNC_SEQUENCE[1] == RegWrite(0x143, 0xD1) && SYNC_SEQUENCE[2].addr == 0x139
            && SYNC_SEQUENCE[3].addr == 0x144 && SYNC_SEQUENCE[4].addr == 0x143
  {
    assert SYNC_SEQUENCE[2] in SYNC_SEQUENCE && SYNC_SEQUENCE[3] in SYNC_SEQUENCE;
  }

  /** Of the three values, only 0xF1 has the polarity bit set. */
  lemma SyncPolarityBits()
    ensures SyncPolarityHigh(0xF1) && !SyncPolarityHigh(0xD1) && !SyncPolarityHigh(0x52)
  {
  }

  lemma ResetAndClearSkipSync()
    ensures ValuesWrittenTo(RESET_SEQUENCE, 0x143) == []
    ensures ValuesWrittenTo(LOCK_CLEAR_SEQUENCE, 0x143) == []
  {
  }

  lemma ValuesOfFour(r: seq<RegWrite>, c: seq<RegWrite>, l: seq<RegWrite>, y: seq<RegWrite>, a: Addr)
    requires ValuesWrittenTo(r, a) == [] && ValuesWrittenTo(l, a) == []
    ensures ValuesWrittenTo(r + c + l + y, a) == ValuesWrittenTo(c, a) + ValuesWrittenTo(y, a)
  {
    ValuesWrittenToAppend(r, c, a);
    ValuesWrittenToAppend(r + c, l, a);
    ValuesWrittenToAppend(r + c + l, y, a);
  }

  /** Over the whole bring-up the SYNC register sees 0xD1 from the bulk
      table, then 0xF1, 0xD1 and 0x52 from the SYNC table. */
  lemma BringUpSyncWrites()
    ensures ValuesWrittenTo(RESET_SEQUENCE + CONFIG_SEQUENCE + LOCK_CLEAR_SEQUENCE + SYNC_SEQUENCE,
                            0x143) == [0xD1, 0xF1, 0xD1, 0x52]
  {
    BulkSyncWrites();
    SyncSequenceSyncWrites();
    ResetAndClearSkipSync();
    ValuesOfFour(RESET_SEQUENCE, CONFIG_SEQUENCE, LOCK_CLEAR_SEQUENCE, SYNC_SEQUENCE, 0x143);
  }

  /** The polarity bit of the SYNC register rises exactly once over the
      whole bring-up, which is the one SYNC event, and is low again before
      the pulser is selected. */
  lemma SyncPulseOrder()
    ensures var vs := ValuesWrittenTo(RESET_SEQUENCE + CONFIG_SEQUENCE + LOCK_CLEAR_SEQUENCE
                                      + SYNC_SEQUENCE, 0x143);
      |vs| == 4 && forall k :: 0 <= k < |vs| ==> (SyncPolarityHigh(vs[k]) <==> k == 1)
  {
    BringUpSyncWrites();
    SyncPolarityBits();
    var vs: seq<Byte> := [0xD1, 0xF1, 0xD1, 0x52];
    forall k | 0 <= k < |vs|
      ensures SyncPolarityHigh(vs[k]) <==> k == 1
    {
      assert k == 0 || k == 1 || k == 2 || k == 3;
    }
  }
}
