/** The HD44780 character LCD as the tracker drives it over a 4-bit bus:
    the bytes the driver transfers, the nibbles they are split into, and
    what the transferred bytes do to the controller's display memory. */
module Hd44780 {

  /** An `unsigned char`. */
  type Byte = b: int | 0 <= b < 256

  /** The four bits D4-D7 carry in one transfer. */
  type Nibble = n: int | 0 <= n < 16

  /** One byte handed to the controller: RS low selects the instruction
      register, RS high the data register. */
  datatype Transfer = Instruction(code: Byte) | Data(code: Byte)

  /** One nibble latched by the controller on a falling edge of E,
      together with the level of RS at that moment. */
  datatype Latch = Latch(rs: bool, nibble: Nibble)

  /** The instruction that clears the display and homes the address counter. */
  const ClearDisplay: Byte := 0x01
  /** The code of a blank cell. */
  const Space: Byte := 0x20
  /** Display columns per row. */
  const Columns: nat := 16
  /** Size of the 7-bit DDRAM address space. */
  const DdramSize: nat := 128

  /** `b >> 4` of an `unsigned char`: the nibble a byte's first 4-bit
      transfer carries. */
  function HighNibble(b: Byte): (n: Nibble)
    ensures 16 * n + LowNibble(b) == b
  {
    b / 16
  }

  /** `b & 0x0F` of an `unsigned char`: the nibble a byte's second 4-bit
      transfer carries; a nibble is its own low nibble. */
  function LowNibble(b: Byte): (n: Nibble)
    ensures b < 16 ==> n == b
  {
    b % 16
  }

  /** A 4-bit transfer sends the high nibble first, then the low nibble,
      both with the RS level of the byte. */
  function Split(t: Transfer): (ls: seq<Latch>)
    ensures |ls| == 2
    ensures ls[0].rs == ls[1].rs == t.Data?
  {
    [Latch(t.Data?, HighNibble(t.code)), Latch(t.Data?, LowNibble(t.code))]
  }

  function SplitAll(ts: seq<Transfer>): (ls: seq<Latch>)
    ensures |ls| == 2 * |ts|
  {
    if ts == [] then [] else Split(ts[0]) + SplitAll(ts[1..])
  }

  lemma {:induction false} SplitAllAppend(a: seq<Transfer>, b: seq<Transfer>)
    ensures SplitAll(a + b) == SplitAll(a) + SplitAll(b)
  {
    if a == [] {
      assert a + b == b;
    } else {
      assert (a + b)[1..] == a[1..] + b;
      SplitAllAppend(a[1..], b);
    }
  }

  /** The controller's view of the bus: consecutive nibble pairs
      reassembled into bytes, the first nibble being the high one. */
  function Join(ls: seq<Latch>): seq<Transfer>
    requires |ls| % 2 == 0
  {
    if ls == [] then []
    else
      var code := ls[0].nibble * 16 + ls[1].nibble;
      [if ls[0].rs then Data(code) else Instruction(code)] + Join(ls[2..])
  }

  /** Splitting bytes into nibbles loses nothing: the controller
      reassembles exactly the bytes the driver sent. */
  lemma {:induction false} JoinSplitAll(ts: seq<Transfer>)
    ensures Join(SplitAll(ts)) == ts
  {
    if ts != [] {
      var ls := SplitAll(ts);
      assert ls[..2] == Split(ts[0]) && ls[2..] == SplitAll(ts[1..]);
      JoinSplitAll(ts[1..]);
    }
  }

  /** The DDRAM address where a row starts in two-line mode. */
  function RowBase(row: Byte): (base: nat)
    ensures base == 0x00 || base == 0x40
  {
    if row == 0 then 0x00 else 0x40
  }

  /** "Set DDRAM address" for column `col` of row `row`: the column is
      taken modulo 16 and every nonzero row selects the second line. The
      address is below 0x80, so or-ing in bit 7 adds 0x80. */
  function SetCursorCommand(col: Byte, row: Byte): (cmd: Byte)
    ensures 0x80 <= cmd <= 0x8F || 0xC0 <= cmd <= 0xCF
    ensures cmd % 16 == col % 16
    ensures cmd < 0xC0 <==> row == 0
  {
    0x80 + ((if row == 0 then 0x00 else 0x40) + col % 16)
  }

  /** Executing the cursor command loads the address counter with the
      row's base address plus the column modulo 16. */
  lemma SetCursorAddress(c: Controller, col: Byte, row: Byte)
    requires Ready(c)
    ensures Execute(c, Instruction(SetCursorCommand(col, row))).ac == RowBase(row) + col % 16
  {
  }

  /** A C `char` as the `unsigned char` the data register receives. */
  function ByteOf(c: char): Byte
  {
    c as int % 256
  }

  /** The bytes of a string, character by character. */
  function TextBytes(s: string): seq<Byte>
  {
    seq(|s|, i requires 0 <= i < |s| => ByteOf(s[i]))
  }

  /** Data transfers that write the given bytes. */
  function DataOf(bs: seq<Byte>): seq<Transfer>
  {
    seq(|bs|, i requires 0 <= i < |bs| => Data(bs[i]))
  }

  /** The part of the controller the driver's transfers act on: the
      display data RAM and the address counter. */
  datatype Controller = Controller(ddram: seq<Byte>, ac: nat)

  predicate Ready(c: Controller)
  {
    |c.ddram| == DdramSize && c.ac < DdramSize
  }

  /** The address counter after a data write: in two-line mode the first
      line ends at 0x27 and the second at 0x67. */
  function NextAddress(a: nat): (n: nat)
    requires a < DdramSize
    ensures n < DdramSize
    ensures a % 0x40 < 0x27 ==> n == a + 1
  {
    if a == 0x27 then 0x40 else if a == 0x67 then 0x00 else (a + 1) % DdramSize
  }

  /** One transfer. Clear display blanks every cell and homes the counter;
      "set DDRAM address" loads the counter; a data write stores the byte
      at the counter and advances it. */
  function Execute(c: Controller, t: Transfer): (c': Controller)
    requires Ready(c)
    ensures Ready(c')
  {
    match t
    case Instruction(code) =>
      if code == ClearDisplay then Controller(seq(DdramSize, _ => Space), 0)
      else if code >= 0x80 then c.(ac := code - 0x80)
      else c
    case Data(code) => Controller(c.ddram[c.ac := code], NextAddress(c.ac))
  }

  function Run(c: Controller, ts: seq<Transfer>): (c': Controller)
    requires Ready(c)
    ensures Ready(c')
    decreases |ts|
  {
    if ts == [] then c else Run(Execute(c, ts[0]), ts[1..])
  }

  lemma {:induction false} RunAppend(c: Controller, a: seq<Transfer>, b: seq<Transfer>)
    requires Ready(c)
    decreases |a|
    ensures Run(c, a + b) == Run(Run(c, a), b)
  {
    if a != [] {
      assert (a + b)[0] == a[0] && (a + b)[1..] == a[1..] + b;
      RunAppend(Execute(c, a[0]), a[1..], b);
    } else {
      assert a + b == b;
    }
  }

  /** The 16 visible cells of a row. */
  function Row(c: Controller, row: Byte): (cells: seq<Byte>)
    requires Ready(c)
    ensures |cells| == Columns
  {
    c.ddram[RowBase(row)..RowBase(row) + Columns]
  }

  function Padded(text: seq<Byte>): (cells: seq<Byte>)
    requires |text| <= Columns
    ensures |cells| == Columns
  {
    text + seq(Columns - |text|, _ => Space)
  }

  /** Writing text that fits in the rest of a row stores it at the
      counter, cell by cell, and leaves the counter just after it. */
  lemma {:induction false} WriteWithinRow(c: Controller, bs: seq<Byte>)
    requires Ready(c)
    requires c.ac % 0x40 + |bs| <= Columns && c.ac <= 0x50
    ensures Run(c, DataOf(bs)).ac == c.ac + |bs|
    ensures Run(c, DataOf(bs)).ddram == c.ddram[..c.ac] + bs + c.ddram[c.ac + |bs|..]
    decreases |bs|
  {
    if bs != [] {
      var c1 := Execute(c, Data(bs[0]));
      assert c1.ac == c.ac + 1;
      assert DataOf(bs)[1..] == DataOf(bs[1..]);
      WriteWithinRow(c1, bs[1..]);
      assert c1.ddram[..c.ac] == c.ddram[..c.ac];
      assert c1.ddram[..c1.ac] + bs[1..] == c.ddram[..c.ac] + bs;
    }
  }

  /** The transfers of a screen with `row0` on the first line and `row1`
      on the second: clear, cursor to (0,0), row0, cursor to (0,1), row1. */
  function TwoRowScreen(row0: seq<Byte>, row1: seq<Byte>): seq<Transfer>
  {
    [Instruction(ClearDisplay), Instruction(SetCursorCommand(0, 0))] + DataOf(row0)
    + [Instruction(SetCursorCommand(0, 1))] + DataOf(row1)
  }

  /** The transfers of a screen with `row0` on the first line only. */
  function OneRowScreen(row0: seq<Byte>): seq<Transfer>
  {
    [Instruction(ClearDisplay), Instruction(SetCursorCommand(0, 0))] + DataOf(row0)
  }

  /** Clear display followed by "cursor to (0,0)" leaves a blank display
      with the counter at the start of the first row. */
  lemma ClearAndHome(c: Controller)
    requires Ready(c)
    ensures Run(c, [Instruction(ClearDisplay), Instruction(SetCursorCommand(0, 0))])
         == Controller(seq(DdramSize, _ => Space), 0)
  {
    var blank := Controller(seq(DdramSize, _ => Space), 0);
    var head := [Instruction(ClearDisplay), Instruction(SetCursorCommand(0, 0))];
    assert SetCursorCommand(0, 0) == 0x80;
    assert Execute(c, head[0]) == blank;
    assert Execute(blank, head[1]) == blank;
    assert Run(blank, head[1..]) == Run(blank, []) by {
      assert head[1..][0] == head[1] && head[1..][1..] == [];
    }
    assert Run(c, head) == Run(blank, head[1..]);
  }

  lemma BlankRowAfterClear(bs: seq<Byte>)
    requires |bs| <= Columns
    ensures var c1 := Run(Controller(seq(DdramSize, _ => Space), 0), DataOf(bs));
            Row(c1, 0) == Padded(bs) && Row(c1, 1) == Padded([])
  {
    var blank := Controller(seq(DdramSize, _ => Space), 0);
    WriteWithinRow(blank, bs);
    var c1 := Run(blank, DataOf(bs));
    assert c1.ddram == bs + blank.ddram[|bs|..];
    assert Row(c1, 0) == bs + blank.ddram[|bs|..Columns];
    assert Row(c1, 1) == blank.ddram[0x40..0x50];
  }

  /** Whatever the display showed before, a one-row screen shows its text,
      padded with blanks, on the first line and a blank second line. */
  lemma {:induction false} OneRowScreenShows(c: Controller, row0: seq<Byte>)
    requires Ready(c) && |row0| <= Columns
    ensures Row(Run(c, OneRowScreen(row0)), 0) == Padded(row0)
    ensures Row(Run(c, OneRowScreen(row0)), 1) == Padded([])
  {
    var head := [Instruction(ClearDisplay), Instruction(SetCursorCommand(0, 0))];
    var blank := Controller(seq(DdramSize, _ => Space), 0);
    RunAppend(c, head, DataOf(row0));
    ClearAndHome(c);
    BlankRowAfterClear(row0);
  }

  /** Moving to the second row and writing `row1` there, over a blank
      second row, leaves the first row as it was. */
  lemma SecondRowWrite(c1: Controller, row1: seq<Byte>)
    requires Ready(c1) && |row1| <= Columns && Row(c1, 1) == Padded([])
    ensures Row(Run(c1, [Instruction(SetCursorCommand(0, 1))] + DataOf(row1)), 0) == Row(c1, 0)
    ensures Row(Run(c1, [Instruction(SetCursorCommand(0, 1))] + DataOf(row1)), 1) == Padded(row1)
  {
    var second := [Instruction(SetCursorCommand(0, 1))];
    assert SetCursorCommand(0, 1) == 0xC0;
    RunAppend(c1, second, DataOf(row1));
    var c2 := Run(c1, second);
    assert c2 == c1.(ac := 0x40) by {
      assert second[0] == Instruction(0xC0) && second[1..] == [];
      assert Execute(c1, second[0]) == c1.(ac := 0x40);
    }
    WriteWithinRow(c2, row1);
    var c3 := Run(c2, DataOf(row1));
    assert c3.ddram == c1.ddram[..0x40] + row1 + c1.ddram[0x40 + |row1|..];
    forall k | 0 <= k < Columns
      ensures Row(c3, 0)[k] == Row(c1, 0)[k] && Row(c3, 1)[k] == Padded(row1)[k]
    {
      assert Row(c1, 1)[k] == Padded([])[k];
    }
  }

  /** Whatever the display showed before, a two-row screen shows each row's
      text, padded with blanks, on its line. */
  lemma TwoRowScreenShows(c: Controller, row0: seq<Byte>, row1: seq<Byte>)
    requires Ready(c) && |row0| <= Columns && |row1| <= Columns
    ensures Row(Run(c, TwoRowScreen(row0, row1)), 0) == Padded(row0)
    ensures Row(Run(c, TwoRowScreen(row0, row1)), 1) == Padded(row1)
  {
    var head := [Instruction(ClearDisplay), Instruction(SetCursorCommand(0, 0))];
    var second := [Instruction(SetCursorCommand(0, 1))];
    assert TwoRowScreen(row0, row1) == (head + DataOf(row0)) + (second + DataOf(row1));
    RunAppend(c, head + DataOf(row0), second + DataOf(row1));
    RunAppend(c, head, DataOf(row0));
    ClearAndHome(c);
    BlankRowAfterClear(row0);
    SecondRowWrite(Run(c, head + DataOf(row0)), row1);
  }
}
