/** The output drivers of the tracker board: read-modify-write operations
    on the GPIO data registers of ports A, C, D, E and F, plus the two
    persistent toggle bits of the yellow flash and the buzzer. */
module Tracker {
  import opened Hd44780
  import opened Registers

  // Pins, as masks of their port's DATA register:
  //   PA2-PA5 0x3C  LCD data bus D4-D7     PC6 0x40  LCD enable E
  //   PE0     0x01  LCD register select    PD0-PD1 0x03  RGB LED channels
  //   PF1     0x02  buzzer                 PF4 0x10  push button, active low
  //
  // Each read-modify-write the drivers perform is one function below; its
  // contract says which bits it sets and that every other bit is kept.

  /** `GPIOE->DATA &= ~0x01`: RS low, the instruction register. */
  function ClearRs(e: bv32): (r: bv32)
    ensures !RsHigh(r)
    ensures r & !0x01 == e & !0x01
  {
    e & !0x01
  }

  /** `GPIOE->DATA |= 0x01`: RS high, the data register. */
  function SetRs(e: bv32): (r: bv32)
    ensures RsHigh(r)
    ensures r & !0x01 == e & !0x01
  {
    e | 0x01
  }

  /** Raising RS again changes nothing. */
  lemma SetRsTwice(e: bv32)
    ensures SetRs(SetRs(e)) == SetRs(e)
  {
  }

  predicate RsHigh(e: bv32)
  {
    e & 0x01 == 0x01
  }

  /** The data-bus write of `LCD_Write_4_Bits`: PA2-PA5 take the low four
      bits of the argument. */
  function PutNibble(a: bv32, nibble: Byte): (r: bv32)
    ensures BusNibble(r) == LowNibble(nibble)
    ensures r & !0x3C == a & !0x3C
  {
    (a & !0x3C) | ((LowNibble(nibble) as bv32) << 2)
  }

  /** The nibble PA2-PA5 present to the LCD's D4-D7. */
  function BusNibble(a: bv32): Nibble
  {
    ((a >> 2) & 0x0F) as int
  }

  /** Only the last nibble written stays on the bus. */
  lemma PutNibbleTwice(a: bv32, x: Byte, y: Byte)
    ensures PutNibble(PutNibble(a, x), y) == PutNibble(a, y)
  {
  }

  /** The two writes of `LCD_Pulse_Enable`: PC6 high, then low, each with
      all of PC0-PC7 cleared. */
  function Pulsed(c: bv32): (r: bv32)
    ensures r & 0xFF == 0
    ensures r & !0xFF == c & !0xFF
  {
    var high := (c & !0xFF) | 0x40;
    (high & !0xFF) & !0x40
  }

  /** A second pulse leaves port C as the first left it. */
  lemma PulsedTwice(c: bv32)
    ensures Pulsed(Pulsed(c)) == Pulsed(c)
  {
  }

  /** The RGB LED write of `RGB_LED_Set_Normal` and `RGB_LED_Flash_Yellow`:
      PD0-PD1 take `bits`. */
  function SetLeds(d: bv32, bits: bv32): (r: bv32)
    requires bits <= 0x03
    ensures Leds(r) == bits
    ensures r & !0x03 == d & !0x03
    ensures OtherD(r) == OtherD(d)
  {
    LedsSetShows(d, bits);
    LedsSetMasked(d, bits);
    LedsSetKeeps(d, bits);
    (d & !0x03) | bits
  }

  /** `GPIOD->DATA &= ~0x03`: both LED channels off. */
  function LedsOff(d: bv32): (r: bv32)
    ensures Leds(r) == 0
    ensures r & !0x03 == d & !0x03
    ensures OtherD(r) == OtherD(d)
  {
    LedsClearKeeps(d);
    d & !0x03
  }

  /** Clearing the LED channels is setting them to 0b00. */
  lemma LedsOffIsSetLeds(d: bv32)
    ensures LedsOff(d) == SetLeds(d, 0x00)
  {
  }

  /** `GPIOF->DATA |= 0x02`: the buzzer sounds. */
  function BuzzerOn(f: bv32): (r: bv32)
    ensures Buzzing(r)
    ensures r & !0x02 == f & !0x02
    ensures OtherF(r) == OtherF(f) && ButtonDown(r) == ButtonDown(f)
  {
    BuzzerSetKeeps(f);
    f | 0x02
  }

  /** `GPIOF->DATA &= ~0x02`: the buzzer is silent. */
  function Silenced(f: bv32): (r: bv32)
    ensures !Buzzing(r)
    ensures r & !0x02 == f & !0x02
    ensures OtherF(r) == OtherF(f) && ButtonDown(r) == ButtonDown(f)
  {
    BuzzerClearKeeps(f);
    f & !0x02
  }

  /** Silencing a silent buzzer changes nothing. */
  lemma SilencedTwice(f: bv32)
    ensures Silenced(Silenced(f)) == Silenced(f)
  {
  }

  /** The level the button puts on PF4; no other bit of port F moves. */
  function ButtonLevel(f: bv32, pressed: bool): (r: bv32)
    ensures ButtonDown(r) == pressed
    ensures r & !0x10 == f & !0x10
    ensures Buzzing(r) == Buzzing(f) && OtherF(r) == OtherF(f)
  {
    ButtonLowKeeps(f);
    ButtonHighKeeps(f);
    if pressed then f & !0x10 else f | 0x10
  }

  /** The LED bits `RGB_LED_Set_Normal` selects for a 24-hour change:
      0b10 above the dead-band, 0b01 below it, both off inside it. */
  function LedBits(change: real): (bits: bv32)
    ensures bits == 0x02 <==> change > 0.001
    ensures bits == 0x01 <==> change < -0.001
    ensures bits == 0x00 <==> -0.001 <= change <= 0.001
  {
    if change > 0.001 then 0x02
    else if change < -0.001 then 0x01
    else 0x00
  }

  /** The text a C string holds: the characters before the first NUL. */
  function CString(s: string): (r: string)
    ensures r <= s
    ensures '\0' !in r
    ensures |r| < |s| ==> s[|r|] == '\0'
  {
    if s == [] || s[0] == '\0' then [] else [s[0]] + CString(s[1..])
  }

  /** The nibbles the LCD latches for the data transfers of a text. */
  function DataLatches(text: string): (ls: seq<Latch>)
    ensures |ls| == 2 * |text|
  {
    SplitAll(DataOf(TextBytes(text)))
  }

  /** One more character adds its data transfer's two nibbles. */
  lemma DataLatchesSnoc(text: string, c: char)
    ensures DataLatches(text + [c]) == DataLatches(text) + Split(Data(ByteOf(c)))
  {
    var before := DataOf(TextBytes(text));
    assert DataOf(TextBytes(text + [c])) == before + [Data(ByteOf(c))];
    SplitAllAppend(before, [Data(ByteOf(c))]);
    assert SplitAll([Data(ByteOf(c))]) == Split(Data(ByteOf(c)));
  }

  /** Sending the next character of a text extends the nibble log by
      that character's two nibbles. */
  lemma DataLatchesStep(log: seq<Latch>, text: string, i: nat)
    requires i < |text|
    ensures log + DataLatches(text[..i]) + Split(Data(ByteOf(text[i])))
         == log + DataLatches(text[..i + 1])
  {
    assert text[..i + 1] == text[..i] + [text[i]];
    DataLatchesSnoc(text[..i], text[i]);
    var a, b := DataLatches(text[..i]), Split(Data(ByteOf(text[i])));
    assert log + a + b == log + (a + b);
  }

  /** Writing a NUL at `i` ends the C string there. */
  lemma {:induction false} CStringAtNul(s: string, i: nat)
    requires i < |s| && s[i] == '\0'
    ensures CString(s) == CString(s[..i])
  {
    if i > 0 && s[0] != '\0' {
      assert s[..i][0] == s[0] && s[..i][1..] == s[1..][..i - 1];
      CStringAtNul(s[1..], i - 1);
    }
  }

  /** A scan of `s` that stops at its end or at a NUL, having passed only
      characters of the C string, has passed all of them. */
  lemma CStringEnd(s: string, i: nat)
    requires i <= |CString(s)|
    requires i == |s| || s[i] == '\0'
    ensures CString(s)[..i] == CString(s)
  {
    assert forall j :: 0 <= j < |CString(s)| ==> s[j] == CString(s)[j] != '\0';
  }

  /** A text without a NUL is its own C string. */
  lemma CStringOfText(s: string)
    requires '\0' !in s
    ensures CString(s) == s
  {
    assert |CString(s)| == |s|;
  }

  /** The nibbles of a two-row screen, in the order main sends them:
      clear, cursor home, the first text, cursor to row 1, the second text. */
  lemma TwoRowLatches(log: seq<Latch>, row0: string, row1: string)
    ensures log + SplitAll(TwoRowScreen(TextBytes(row0), TextBytes(row1)))
         == log + SplitAll([Instruction(ClearDisplay)]) + SplitAll([Instruction(SetCursorCommand(0, 0))])
            + DataLatches(row0) + SplitAll([Instruction(SetCursorCommand(0, 1))]) + DataLatches(row1)
  {
    var clear, home := [Instruction(ClearDisplay)], [Instruction(SetCursorCommand(0, 0))];
    var second := [Instruction(SetCursorCommand(0, 1))];
    var t0, t1 := DataOf(TextBytes(row0)), DataOf(TextBytes(row1));
    assert TwoRowScreen(TextBytes(row0), TextBytes(row1)) == (((clear + home) + t0) + second) + t1;
    SplitAllAppend(((clear + home) + t0) + second, t1);
    SplitAllAppend((clear + home) + t0, second);
    SplitAllAppend(clear + home, t0);
    SplitAllAppend(clear, home);
  }

  /** The nibbles of a one-row screen: clear, cursor home, the text. */
  lemma OneRowLatches(log: seq<Latch>, row0: string)
    ensures log + SplitAll(OneRowScreen(TextBytes(row0)))
         == log + SplitAll([Instruction(ClearDisplay)]) + SplitAll([Instruction(SetCursorCommand(0, 0))])
            + DataLatches(row0)
  {
    var clear, home := [Instruction(ClearDisplay)], [Instruction(SetCursorCommand(0, 0))];
    var t0 := DataOf(TextBytes(row0));
    assert OneRowScreen(TextBytes(row0)) == (clear + home) + t0;
    SplitAllAppend(clear + home, t0);
    SplitAllAppend(clear, home);
  }

  /** The three LCD control words of the board: port A (data bus),
      port E (RS) and port C (enable). */
  datatype LcdPins = LcdPins(a: bv32, e: bv32, c: bv32)

  /** What `LCD_Send_Command` leaves on the pins: RS low, the command's
      low nibble on the bus, E low. */
  function CommandPins(p: LcdPins, cmd: Byte): LcdPins
  {
    LcdPins(PutNibble(p.a, LowNibble(cmd)), ClearRs(p.e), Pulsed(p.c))
  }

  /** What `LCD_Send_Data` leaves on the pins: RS high, the byte's low
      nibble on the bus, E low. */
  function DataPins(p: LcdPins, data: Byte): LcdPins
  {
    LcdPins(PutNibble(p.a, LowNibble(data)), SetRs(p.e), Pulsed(p.c))
  }

  /** What `LCD_Display_String` leaves on the pins: the pins as they were
      for an empty text, otherwise those of its last data transfer. */
  function TextPins(p: LcdPins, text: string): LcdPins
  {
    if text == [] then p else DataPins(p, ByteOf(text[|text| - 1]))
  }

  /** Sending the next character of a C string leaves the pins as that
      character's data transfer does, whatever came before it. */
  lemma TextPinsStep(p: LcdPins, s: string, i: nat)
    requires i < |CString(s)|
    ensures DataPins(TextPins(p, CString(s)[..i]), ByteOf(s[i])) == TextPins(p, CString(s)[..i + 1])
  {
    if i > 0 {
      var b := ByteOf(s[i - 1]);
      PutNibbleTwice(p.a, LowNibble(b), LowNibble(ByteOf(s[i])));
      SetRsTwice(p.e);
      PulsedTwice(p.c);
    }
  }

  class Board {
    var portA: bv32
    var portC: bv32
    var portD: bv32
    var portE: bv32
    var portF: bv32
    /** `led_state`, the static local of `RGB_LED_Flash_Yellow`. */
    var ledState: bool
    /** `buzzer_state`, the static local of `Buzzer_Toggle`. */
    var buzzerState: bool
    /** Every nibble the LCD has latched, in order. */
    ghost var latched: seq<Latch>

    function Pins(): LcdPins
      reads this
    {
      LcdPins(portA, portE, portC)
    }

    /** After the last enable pulse the bus still holds what was latched:
        the nibble on PA2-PA5, RS on PE0, and E (with all of PC0-PC7) low. */
    ghost predicate Valid()
      reads this`portA, this`portC, this`portE, this`latched
    {
      |latched| > 0 ==>
        var last := latched[|latched| - 1];
        && BusNibble(portA) == last.nibble
        && RsHigh(portE) == last.rs
        && portC & 0xFF == 0
    }

    /** The board after the port, LED and buzzer initialisation: the
        initialisation leaves the LED channels and the buzzer off, and
        both static toggles start at 0. */
    constructor (a: bv32, c: bv32, d: bv32, e: bv32, f: bv32)
      ensures Valid()
      ensures portA == a && portC == c && portE == e
      ensures portD == LedsOff(d) && portF == Silenced(f)
      ensures !ledState && !buzzerState && latched == []
    {
      portA, portC, portE := a, c, e;
      portD := LedsOff(d);
      portF := Silenced(f);
      ledState, buzzerState := false, false;
      latched := [];
    }

    /** `LCD_Pulse_Enable`: the LCD latches RS and the bus on the falling
        edge of E. */
    method PulseEnable()
      modifies this`portC, this`latched
      ensures Valid()
      ensures portC == Pulsed(old(portC))
      ensures latched == old(latched) + [Latch(RsHigh(portE), BusNibble(portA))]
    {
      portC := (portC & !0xFF) | 0x40;
      portC := (portC & !0xFF) & !0x40;
      latched := latched + [Latch(RsHigh(portE), BusNibble(portA))];
    }

    /** `LCD_Write_4_Bits`: the low four bits of the argument go onto
        PA2-PA5, and the LCD latches them. */
    method WriteFourBits(nibble: Byte)
      modifies this`portA, this`portC, this`latched
      ensures Valid()
      ensures portA == PutNibble(old(portA), nibble)
      ensures portC == Pulsed(old(portC))
      ensures latched == old(latched) + [Latch(RsHigh(portE), LowNibble(nibble))]
    {
      portA := PutNibble(portA, nibble);
      PulseEnable();
    }

    /** `LCD_Send_Command`: RS low, then the high and the low nibble. */
    method SendCommand(cmd: Byte)
      modifies this`portA, this`portC, this`portE, this`latched
      ensures Valid()
      ensures latched == old(latched) + Split(Instruction(cmd))
      ensures Pins() == CommandPins(old(Pins()), cmd)
    {
      portE := ClearRs(portE);
      WriteFourBits(HighNibble(cmd));
      WriteFourBits(LowNibble(cmd));
      PutNibbleTwice(old(portA), HighNibble(cmd), LowNibble(cmd));
      PulsedTwice(old(portC));
    }

    /** `LCD_Send_Data`: RS high, then the high and the low nibble. */
    method SendData(data: Byte)
      modifies this`portA, this`portC, this`portE, this`latched
      ensures Valid()
      ensures latched == old(latched) + Split(Data(data))
      ensures Pins() == DataPins(old(Pins()), data)
    {
      portE := SetRs(portE);
      WriteFourBits(HighNibble(data));
      WriteFourBits(LowNibble(data));
      PutNibbleTwice(old(portA), HighNibble(data), LowNibble(data));
      PulsedTwice(old(portC));
    }

    /** `LCD_Set_Cursor`: one "set DDRAM address" instruction. */
    method SetCursor(col: Byte, row: Byte)
      modifies this`portA, this`portC, this`portE, this`latched
      ensures Valid()
      ensures latched == old(latched) + SplitAll([Instruction(SetCursorCommand(col, row))])
      ensures Pins() == CommandPins(old(Pins()), SetCursorCommand(col, row))
    {
      SendCommand(SetCursorCommand(col, row));
      assert SplitAll([Instruction(SetCursorCommand(col, row))]) == Split(Instruction(SetCursorCommand(col, row)));
    }

    /** `LCD_Clear`: one clear-display instruction. */
    method Clear()
      modifies this`portA, this`portC, this`portE, this`latched
      ensures Valid()
      ensures latched == old(latched) + SplitAll([Instruction(ClearDisplay)])
      ensures Pins() == CommandPins(old(Pins()), ClearDisplay)
    {
      SendCommand(ClearDisplay);
      assert SplitAll([Instruction(ClearDisplay)]) == Split(Instruction(ClearDisplay));
    }

    /** `LCD_Display_String`: one data transfer per character before the
        first NUL, in order; an empty string touches nothing. */
    method DisplayString(s: string)
      requires Valid()
      modifies this`portA, this`portC, this`portE, this`latched
      ensures Valid()
      ensures latched == old(latched) + DataLatches(CString(s))
      ensures Pins() == TextPins(old(Pins()), CString(s))
    {
      var i := 0;
      while i < |s| && s[i] != '\0'
        invariant i <= |CString(s)|
        invariant Valid()
        invariant latched == old(latched) + DataLatches(CString(s)[..i])
        invariant Pins() == TextPins(old(Pins()), CString(s)[..i])
      {
        assert s[i] == CString(s)[i];
        SendData(ByteOf(s[i]));
        DataLatchesStep(old(latched), CString(s), i);
        TextPinsStep(old(Pins()), s, i);
        i := i + 1;
      }
      CStringEnd(s, i);
    }

    /** `RGB_LED_Set_Normal`: PD0-PD1 take the dead-band colour of the
        change. */
    method SetNormal(change: real)
      modifies this`portD
      ensures portD == SetLeds(old(portD), LedBits(change))
    {
      if change > 0.001 {
        portD := SetLeds(portD, 0x02);
      } else if change < -0.001 {
        portD := SetLeds(portD, 0x01);
      } else {
        LedsOffIsSetLeds(portD);
        portD := LedsOff(portD);
      }
    }

    /** Turns both LED channels off, as main does on an unparsed line. */
    method LedOff()
      modifies this`portD
      ensures portD == LedsOff(old(portD))
    {
      portD := portD & !0x03;
    }

    /** `RGB_LED_Flash_Yellow`: flips `led_state`; PD0-PD1 become both on
        when it turns on and both off when it turns off. */
    method FlashYellow()
      modifies this`portD, this`ledState
      ensures ledState == !old(ledState)
      ensures portD == (if ledState then SetLeds(old(portD), 0x03) else LedsOff(old(portD)))
    {
      if ledState {
        portD := portD & !0x03;
        ledState := false;
      } else {
        portD := (portD & !0x03) | 0x03;
        ledState := true;
      }
    }

    /** `Buzzer_Toggle`: flips `buzzer_state`; PF1 follows it. */
    method BuzzerToggle()
      modifies this`portF, this`buzzerState
      ensures buzzerState == !old(buzzerState)
      ensures portF == (if buzzerState then BuzzerOn(old(portF)) else Silenced(old(portF)))
    {
      if buzzerState {
        portF := portF & !0x02;
        buzzerState := false;
      } else {
        portF := portF | 0x02;
        buzzerState := true;
      }
    }

    /** `Buzzer_Off`: clears PF1 and nothing else; `buzzer_state` is
        left as it was. */
    method BuzzerOff()
      modifies this`portF
      ensures portF == Silenced(old(portF))
    {
      portF := portF & !0x02;
    }

    /** `PushButton_Pressed`: the button reads pressed exactly when PF4
        is low. */
    method PushButtonPressed() returns (pressed: bool)
      ensures pressed == ButtonDown(portF)
    {
      pressed := (portF & 0x10) == 0;
    }

    /** The outside world: the level the button puts on PF4. */
    method DriveButton(pressed: bool)
      modifies this`portF
      ensures portF == ButtonLevel(old(portF), pressed)
    {
      portF := ButtonLevel(portF, pressed);
    }
  }
}
