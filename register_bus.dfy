/** The register bus the LMK04828 driver talks to: 8-bit registers behind
    12-bit addresses, reached through `poke8` (write) and `peek8` (read).
    The transport itself is not modelled; the bus records every operation
    in one ordered trace, and the values that reads return come from a
    responder that may depend on everything sent to the chip so far. */
module RegisterBus {

  /** A register address: the bus carries up to 12 address bits. */
  type Addr = a: int | 0 <= a < 0x1000

  /** The contents of one 8-bit register. */
  type Byte = b: int | 0 <= b < 0x100

  /** One entry of a register-write table: write `val` to `addr`. */
  datatype RegWrite = RegWrite(addr: Addr, val: Byte)

  /** One bus operation as it appears in the trace. A read records the
      value the chip answered. */
  datatype BusOp = Poke(addr: Addr, val: Byte) | Peek(addr: Addr, val: Byte)

  /** What the chip answers to a read of an address, given every bus
      operation issued before it. */
  type Responder = (seq<BusOp>, Addr) -> Byte

  /** Bitwise AND of two non-negative integers, bit by bit from the least
      significant end. */
  function BitAnd(x: nat, y: nat): (r: nat)
    ensures r <= x && r <= y
    decreases x
  {
    if x == 0 || y == 0 then 0
    else 2 * BitAnd(x / 2, y / 2) + (if x % 2 == 1 && y % 2 == 1 then 1 else 0)
  }

  /** Masking with 0b111 keeps the low three bits, which is the value
      modulo 8. */
  lemma BitAndLowThreeBits(x: nat)
    ensures BitAnd(x, 7) == x % 8
  {
    var y, z := x / 2, x / 4;
    assert BitAnd(z, 1) == z % 2;
    assert BitAnd(y, 3) == 2 * BitAnd(z, 1) + y % 2;
    assert BitAnd(x, 7) == 2 * BitAnd(y, 3) + x % 2;
    assert x % 8 == 4 * (z % 2) + 2 * (y % 2) + x % 2;
  }

  /** The trace a table of writes leaves on the bus, one poke per entry. */
  function PokeOps(ws: seq<RegWrite>): (t: seq<BusOp>)
    ensures |t| == |ws|
    ensures forall i :: 0 <= i < |ws| ==> t[i] == Poke(ws[i].addr, ws[i].val)
  {
    seq(|ws|, i requires 0 <= i < |ws| => Poke(ws[i].addr, ws[i].val))
  }

  /** The writes of a trace, in the order they were issued. */
  function Writes(t: seq<BusOp>): seq<RegWrite>
  {
    if t == [] then []
    else (if t[0].Poke? then [RegWrite(t[0].addr, t[0].val)] else []) + Writes(t[1..])
  }

  /** The addresses read in a trace, in the order they were read. */
  function Reads(t: seq<BusOp>): seq<Addr>
  {
    if t == [] then []
    else (if t[0].Peek? then [t[0].addr] else []) + Reads(t[1..])
  }

  lemma PokeOpsAppend(a: seq<RegWrite>, b: seq<RegWrite>)
    ensures PokeOps(a + b) == PokeOps(a) + PokeOps(b)
  {
  }

  lemma {:induction false} WritesAppend(s: seq<BusOp>, t: seq<BusOp>)
    ensures Writes(s + t) == Writes(s) + Writes(t)
  {
    if s != [] {
      assert (s + t)[0] == s[0] && (s + t)[1..] == s[1..] + t;
      WritesAppend(s[1..], t);
    } else {
      assert s + t == t;
    }
  }

  lemma {:induction false} ReadsAppend(s: seq<BusOp>, t: seq<BusOp>)
    ensures Reads(s + t) == Reads(s) + Reads(t)
  {
    if s != [] {
      assert (s + t)[0] == s[0] && (s + t)[1..] == s[1..] + t;
      ReadsAppend(s[1..], t);
    } else {
      assert s + t == t;
    }
  }

  /** Replaying a table onto the bus and reading the writes back off the
      trace gives the table itself, and adds no reads. */
  lemma {:induction false} PokeOpsRoundTrip(ws: seq<RegWrite>)
    ensures Writes(PokeOps(ws)) == ws
    ensures Reads(PokeOps(ws)) == []
  {
    if ws != [] {
      assert PokeOps(ws) == [Poke(ws[0].addr, ws[0].val)] + PokeOps(ws[1..]);
      PokeOpsRoundTrip(ws[1..]);
    }
  }

  /** Appending a table's pokes to a trace extends its writes by exactly
      that table and leaves its reads alone. */
  lemma AfterPokes(h: seq<BusOp>, ws: seq<RegWrite>)
    ensures Writes(h + PokeOps(ws)) == Writes(h) + ws
    ensures Reads(h + PokeOps(ws)) == Reads(h)
  {
    WritesAppend(h, PokeOps(ws));
    ReadsAppend(h, PokeOps(ws));
    PokeOpsRoundTrip(ws);
  }

  /** Appending one read to a trace adds that address to its reads and
      leaves its writes alone. */
  lemma AfterPeek(h: seq<BusOp>, addr: Addr, val: Byte)
    ensures Writes(h + [Peek(addr, val)]) == Writes(h)
    ensures Reads(h + [Peek(addr, val)]) == Reads(h) + [addr]
  {
    WritesAppend(h, [Peek(addr, val)]);
    ReadsAppend(h, [Peek(addr, val)]);
  }

  /** The register interface object: the trace of everything issued so far
      and the chip's answers. */
  class RegsIface {
    var ops: seq<BusOp>
    const respond: Responder

    constructor (respond: Responder)
      ensures ops == [] && this.respond == respond
    {
      ops := [];
      this.respond := respond;
    }

    /** Write one register. */
    method Poke8(addr: Addr, val: Byte)
      modifies this
      ensures ops == old(ops) + [Poke(addr, val)]
    {
      ops := ops + [Poke(addr, val)];
    }

    /** Read one register; the chip's answer is recorded with the read. */
    method Peek8(addr: Addr) returns (val: Byte)
      modifies this
      ensures val == respond(old(ops), addr)
      ensures ops == old(ops) + [Peek(addr, val)]
    {
      val := respond(ops, addr);
      ops := ops + [Peek(addr, val)];
    }
  }
}
