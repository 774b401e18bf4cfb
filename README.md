# LMK04828 bring-up on the EISCAT daughterboard

This project models the driver that brings up the LMK04828 clock
synthesiser on the EISCAT daughterboard. The driver is
class `LMK04828EISCAT` in `mpm/python/usrp_mpm/dboard_manager/lmk_eiscat.py`.
Constructing the driver runs these steps in order:

1. Reset the chip.
2. Read the identity register (0x03) and require the value 6.
3. Write the 108-entry bulk configuration table.
4. Set and clear the lock-detect sticky bits, 0x182 first, then 0x183.
5. Read the PLL1 lock status, then the PLL2 lock status. A PLL counts as
   locked when its status masked with 0x7 equals 0x2.
6. Write the SYNC/SYSREF sequence.

If the identity check or a lock check fails, construction stops there
with an error.

The register interface is modelled as a class `RegsIface`:

- It records every `poke8` and `peek8` in one ordered trace of bus
  operations.
- What the chip answers to a read comes from a responder. The responder is
  a function of the trace so far and the address being read.

The driver is a class whose methods issue operations on that interface.
Module `LmkEiscat` also defines the step functions `InitRun`,
`PllCheckRun`, `ConfigRun` and `BringUpRun`. Each gives the outcome and the
new trace for a responder and the trace so far.

- `Init`, `CheckPllLock` and `Config`, and the module-level `Construct`,
  are proved to follow `InitRun`, `PllCheckRun`, `ConfigRun` and
  `BringUpRun` respectively.
- `Pokes8`, `GetChipId` and `VerifyChipId` state their new trace directly.

The properties live in two modules:

- `LmkEiscatProperties` proves facts about the step functions: the four
  possible bring-up runs, the writes before each read, and the dependence
  on the chip's answers.
- `LmkEiscatTables` proves facts about the constant register tables,
  phase by phase and joined along their concatenation.

Exceptions become a tagged error:

- `ChipNotFound(observed)` replaces the `Exception` raised by `init`.
- `PllNotLocked(pll, raw)` replaces the `RuntimeError` raised by
  `check_pll_lock`.

A Dafny constructor cannot fail, so `__init__` is modelled as follows:

- The class constructor only binds the register interface.
- The method `Construct` runs `Init` and then `Config`.
- `Construct` returns `Success(driver)` or `Failure(error)`.

Files:

- `register_bus.dfy`: addresses, bytes, the bus trace, `RegsIface`, and
  integer bitwise AND.
- `lmk_eiscat.dfy`: the tables, the step functions and the driver class.
- `lmk_eiscat_properties.dfy`: properties of the bring-up runs.
- `lmk_eiscat_tables.dfy`: properties of the tables.

## Model

| member | source | states |
|---|---|---|
| RegisterBus.RegsIface.Poke8 | mpm/python/usrp_mpm/dboard_manager/lmk_eiscat.py:41-42 | one write appends exactly one `Poke(addr, val)` to the trace |
| RegisterBus.RegsIface.Peek8 | mpm/python/usrp_mpm/dboard_manager/lmk_eiscat.py:184 | one read returns the chip's answer for the trace so far and appends that `Peek` to the trace |
| RegisterBus.BitAnd | mpm/python/usrp_mpm/dboard_manager/lmk_eiscat.py:185 | Python's `&` on non-negative integers; the result is no larger than either operand |
| RegisterBus.BitAndLowThreeBits | mpm/python/usrp_mpm/dboard_manager/lmk_eiscat.py:185 | masking with 0x7 gives the value modulo 8 |
| RegisterBus.PokeOpsRoundTrip | mpm/python/usrp_mpm/dboard_manager/lmk_eiscat.py:37-42 | reading the writes back off the trace of a table gives the table, in order, and no reads |
| RegisterBus.AfterPokes | mpm/python/usrp_mpm/dboard_manager/lmk_eiscat.py:37-42 | replaying a table extends the writes by exactly that table and adds no reads |
| RegisterBus.AfterPeek | mpm/python/usrp_mpm/dboard_manager/lmk_eiscat.py:200-206 | one read adds its address to the reads and no write |
| RegisterBus.WritesAppend | mpm/python/usrp_mpm/dboard_manager/lmk_eiscat.py:37-42 | the writes of a concatenated trace are the writes of each part, in order |
| RegisterBus.ReadsAppend | mpm/python/usrp_mpm/dboard_manager/lmk_eiscat.py:200-206 | the reads of a concatenated trace are the reads of each part, in order |
| RegisterBus.PokeOpsAppend | mpm/python/usrp_mpm/dboard_manager/lmk_eiscat.py:37-42 | replaying two tables one after the other is replaying their concatenation |
| LmkEiscat.LMK_CHIP_ID | mpm/python/usrp_mpm/dboard_manager/lmk_eiscat.py:24 | the identity value of an LMK04828, 6 |
| LmkEiscat.ChipIdMatches | mpm/python/usrp_mpm/dboard_manager/lmk_eiscat.py:213 | the identity check: the value read equals `LMK_CHIP_ID` |
| LmkEiscat.PllLocked | mpm/python/usrp_mpm/dboard_manager/lmk_eiscat.py:185 | the lock test: the status masked with 0x7 equals 0x2; its meaning is stated by `PllLockedLowBits` |
| LmkEiscat.RESET_SEQUENCE | mpm/python/usrp_mpm/dboard_manager/lmk_eiscat.py:49-54 | the four reset writes, entry for entry |
| LmkEiscat.CONFIG_SEQUENCE | mpm/python/usrp_mpm/dboard_manager/lmk_eiscat.py:64-173 | the 108-entry bulk table, entry for entry, as nine phases concatenated in the source's order |
| LmkEiscat.LOCK_CLEAR_SEQUENCE | mpm/python/usrp_mpm/dboard_manager/lmk_eiscat.py:175-180 | the four sticky-clear writes, 0x182 set and cleared, then 0x183 |
| LmkEiscat.SYNC_SEQUENCE | mpm/python/usrp_mpm/dboard_manager/lmk_eiscat.py:191-197 | the five SYNC/SYSREF writes, entry for entry |
| LmkEiscat.InitRun | mpm/python/usrp_mpm/dboard_manager/lmk_eiscat.py:44-56 | the reset writes, then one identity read; `Pass` if it matches, else `ChipNotFound` with the value read; its runs are stated by `ChipNotFoundRun` |
| LmkEiscat.PllCheckRun | mpm/python/usrp_mpm/dboard_manager/lmk_eiscat.py:183-187 | one lock-status read; `Pass` if locked, else `PllNotLocked` with the PLL and the status read |
| LmkEiscat.ConfigRun | mpm/python/usrp_mpm/dboard_manager/lmk_eiscat.py:59-198 | bulk table, sticky clear, PLL1 check, PLL2 check only after PLL1 passed, SYNC table only after both passed |
| LmkEiscat.BringUpRun | mpm/python/usrp_mpm/dboard_manager/lmk_eiscat.py:30-35 | `InitRun`, then `ConfigRun` only if `InitRun` passed; its four endings are stated by the run lemmas |
| LmkEiscat.Lmk04828Eiscat.constructor | mpm/python/usrp_mpm/dboard_manager/lmk_eiscat.py:30-33 | the driver is bound to the given register interface |
| LmkEiscat.Lmk04828Eiscat.Pokes8 | mpm/python/usrp_mpm/dboard_manager/lmk_eiscat.py:37-42 | the trace grows by exactly one poke per entry, in the table's order, and nothing else |
| LmkEiscat.Lmk04828Eiscat.GetChipId | mpm/python/usrp_mpm/dboard_manager/lmk_eiscat.py:200-206 | exactly one read of register 0x03 and no write; returns what the chip answered |
| LmkEiscat.Lmk04828Eiscat.VerifyChipId | mpm/python/usrp_mpm/dboard_manager/lmk_eiscat.py:208-216 | one read of 0x03 and no write; the verdict is true if and only if the value read is `LMK_CHIP_ID` (6) |
| LmkEiscat.Lmk04828Eiscat.Init | mpm/python/usrp_mpm/dboard_manager/lmk_eiscat.py:44-56 | the four reset writes, then the identity read; `ChipNotFound` with the value read when it is not 6 |
| LmkEiscat.Lmk04828Eiscat.CheckPllLock | mpm/python/usrp_mpm/dboard_manager/lmk_eiscat.py:183-187 | one read of the lock register; `PllNotLocked` with the status read unless `status & 0x7 == 0x2` |
| LmkEiscat.Lmk04828Eiscat.Config | mpm/python/usrp_mpm/dboard_manager/lmk_eiscat.py:59-198 | bulk table, sticky clear, PLL1 check, PLL2 check only if PLL1 locked, SYNC table only if both locked |
| LmkEiscat.Construct | mpm/python/usrp_mpm/dboard_manager/lmk_eiscat.py:30-35 | runs `Init` and, only if it passed, `Config`; a driver on the same interface exactly when bring-up passed, else the error |
| LmkEiscat.PllLockedLowBits | mpm/python/usrp_mpm/dboard_manager/lmk_eiscat.py:185 | a PLL counts as locked exactly when its status is 2 modulo 8 |
| LmkEiscatProperties.ClearedWrites | mpm/python/usrp_mpm/dboard_manager/lmk_eiscat.py:44-180 | before the lock reads, the writes are the reset table, the bulk table and the sticky clear, in that order, and the only read is 0x03 |
| LmkEiscatProperties.ChipNotFoundRun | mpm/python/usrp_mpm/dboard_manager/lmk_eiscat.py:44-56 | bring-up ends in `ChipNotFound` if and only if the identity is not 6; then the bus saw the four reset writes and the one identity read, and `config` never ran |
| LmkEiscatProperties.Pll1NotLockedRun | mpm/python/usrp_mpm/dboard_manager/lmk_eiscat.py:183-188 | bring-up fails on PLL1 if and only if the identity matched and PLL1 is unlocked; then PLL2 is never read and no SYNC write is issued |
| LmkEiscatProperties.Pll2NotLockedRun | mpm/python/usrp_mpm/dboard_manager/lmk_eiscat.py:183-189 | bring-up fails on PLL2 if and only if the identity matched, PLL1 locked and PLL2 is unlocked; then no SYNC write is issued |
| LmkEiscatProperties.ReadyRun | mpm/python/usrp_mpm/dboard_manager/lmk_eiscat.py:30-198 | bring-up passes if and only if the identity matched and both PLLs locked; then the writes are reset, bulk, clear and SYNC tables, and the reads are 0x03, 0x182, 0x183 |
| LmkEiscatProperties.FailureStopsAtFailedRead | mpm/python/usrp_mpm/dboard_manager/lmk_eiscat.py:44-189 | a failed bring-up ends with the failing read, of the register the error names, which returned the value the error carries |
| LmkEiscatProperties.DependsOnlyOnAnswers | mpm/python/usrp_mpm/dboard_manager/lmk_eiscat.py:44-198 | two chips that answer the reads actually performed alike give the same outcome and trace |
| LmkEiscatProperties.WritesBeforeEachRead | mpm/python/usrp_mpm/dboard_manager/lmk_eiscat.py:48-189 | the identity read follows exactly the reset writes; each lock read follows exactly the reset, bulk and sticky-clear writes |
| LmkEiscatProperties.PeekPositions | mpm/python/usrp_mpm/dboard_manager/lmk_eiscat.py:44-198 | the reads of a bring-up sit right after the reset table, and right after the sticky clear (one or two) |
| LmkEiscatTables.CalibrationOrder | mpm/python/usrp_mpm/dboard_manager/lmk_eiscat.py:159-166 | 0x171 and 0x172 are written only after every write to 0x165; 0x17C and 0x17D before every write to 0x168 |
| LmkEiscatTables.LayoutPostCalAfter165 | mpm/python/usrp_mpm/dboard_manager/lmk_eiscat.py:159-161 | in any table of nine phases with the bulk table's register ranges, 0x171 and 0x172 are written only after every write to 0x165 |
| LmkEiscatTables.LayoutVco1CalBefore168 | mpm/python/usrp_mpm/dboard_manager/lmk_eiscat.py:162-166 | in any such table, 0x17C and 0x17D are written before every write to 0x168 |
| LmkEiscatTables.BulkTableWithin | mpm/python/usrp_mpm/dboard_manager/lmk_eiscat.py:64-173 | every bulk-table write goes to a register in 0x100 .. 0x17D |
| LmkEiscatTables.SmallTablesWithin | mpm/python/usrp_mpm/dboard_manager/lmk_eiscat.py:48-197 | the reset, sticky-clear and SYNC tables write only registers in 0x000 .. 0x1FF |
| LmkEiscatTables.BulkTableSize | mpm/python/usrp_mpm/dboard_manager/lmk_eiscat.py:65-172 | the bulk table has 108 entries |
| LmkEiscatTables.BulkSyncWrites | mpm/python/usrp_mpm/dboard_manager/lmk_eiscat.py:64-173 | the bulk table writes the SYNC register 0x143 exactly once, with 0xD1 |
| LmkEiscatTables.SyncSequenceSyncWrites | mpm/python/usrp_mpm/dboard_manager/lmk_eiscat.py:191-197 | the SYNC table writes 0x143 three times: 0xF1, 0xD1, 0x52 |
| LmkEiscatTables.SyncSequenceMuxWrites | mpm/python/usrp_mpm/dboard_manager/lmk_eiscat.py:191-197 | the SYNC table writes 0x139 once (0x02) and 0x144 once (0xFF), 0x139 first, both between the return of 0x143 to 0xD1 and its final write |
| LmkEiscatTables.SyncPolarityBits | mpm/python/usrp_mpm/dboard_manager/lmk_eiscat.py:192-196 | of 0xF1, 0xD1 and 0x52 only 0xF1 has the SYNC polarity bit (0x20) set |
| LmkEiscatTables.BringUpSyncWrites | mpm/python/usrp_mpm/dboard_manager/lmk_eiscat.py:64-197 | over the whole write sequence, 0x143 receives 0xD1, 0xF1, 0xD1, 0x52 in that order |
| LmkEiscatTables.SyncPulseOrder | mpm/python/usrp_mpm/dboard_manager/lmk_eiscat.py:191-197 | the SYNC polarity rises exactly once over the bring-up, on the second of four writes to 0x143, and is low again afterwards |
| LmkEiscatTables.ValuesWrittenToAppend | mpm/python/usrp_mpm/dboard_manager/lmk_eiscat.py:64-197 | the values written to a register across two tables are those of each table, in order |
| LmkEiscatTables.ValuesWrittenToAvoided | mpm/python/usrp_mpm/dboard_manager/lmk_eiscat.py:64-173 | a table that never writes a register contributes no values to it |

## Left out

- The `time.sleep(0.1)` pauses after the bulk table and after the sticky clear are left out. Time is not modelled, and the order of bus operations, which is modelled, is unchanged by them.
- Logging (`get_logger` and every `log` call) is left out, and so is the `slot` argument, which only names the logger. Neither affects the bus.
- The real transport behind `regs_iface` is left out. It is replaced by a trace plus a responder. Transport errors from `poke8` or `peek8` are not modelled.
- The text of the exception messages is left out. A failure carries a tag, the PLL and the value read instead.
- `enable_sysref_pulse` is left out: it is commented out in the source and has no callers.
- `LmkEiscat.Lmk04828Eiscat.VerifyChipId` returns the value it read beside the boolean. The source returns only the boolean and logs the value. Returning the value lets `Init` put it into `ChipNotFound`.
- `LmkEiscat.Construct` stands in for `__init__`, because a Dafny constructor cannot fail. A failed bring-up returns `Failure` instead of raising. The half-constructed Python object, which the caller never receives, is not modelled.
- Register values are bytes and addresses are below 0x1000 by type. The source passes Python integers and relies on `poke8` and `peek8` to keep them in range.
