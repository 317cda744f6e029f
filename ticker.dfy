/** The ticker's `main`: threshold selection at start-up, then, byte by
    byte, line framing, quote parsing, the price alarm and the display. */
module Ticker {
  import opened Hd44780
  import opened Tracker
  import opened Registers
  import Scan
  import opened Options
  import opened Framing
  import opened Selector

  /** The `sprintf` calls of `main`, which this model leaves to the C
      library: the threshold field ("$%-7d"), the alarm's price
      ("$%d,%03d") and the second row of a quote ("$%d,%03d  %+.2f%%"). */
  datatype Printf = Printf(
    threshold: int -> string,
    price: (int, int) -> string,
    line2: (int, int, real) -> string)

  // The fixed texts `main` shows.
  const PromptText: string := "Set min val:"
  const SavedText: string := "Threshold Saved"
  const PriceLabel: string := "BTC Price:"
  const AlertText: string := "BUY NOW"
  const LoadingText: string := "Loading..."

  /** The C conversion `(int)x`: the fraction is discarded, towards zero. */
  function TruncateToInt(x: real): (n: int)
    ensures 0.0 <= x ==> 0 <= n && n as real <= x < (n + 1) as real
    ensures x < 0.0 ==> n <= 0 && (n - 1) as real < x <= n as real
  {
    if x >= 0.0 then x.Floor else -((-x).Floor)
  }

  /** C's `/`: the quotient truncated towards zero. It never exceeds the
      dividend in size, takes the dividend's sign, and falls short of it
      by less than one divisor. */
  function CDiv(a: int, b: int): (q: int)
    requires b > 0
    ensures a >= 0 ==> 0 <= q * b <= a < q * b + b
    ensures a < 0 ==> q * b - b < a <= q * b <= 0
  {
    FloorDivBounds(if a >= 0 then a else -a, b);
    if a >= 0 then a / b else -((-a) / b)
  }

  /** Euclidean division of a number that is not negative: the quotient
      times the divisor is within one divisor below the dividend. */
  lemma FloorDivBounds(m: int, b: int)
    requires m >= 0 && b > 0
    ensures 0 <= m / b && 0 <= (m / b) * b <= m < (m / b) * b + b
    ensures -((m / b) * b) == (-(m / b)) * b
  {
    var q, r := m / b, m % b;
    assert m == q * b + r && 0 <= r < b;
    assert q < 0 ==> q * b <= -b;
  }

  /** C's `%`: with `/` it rebuilds the dividend, and the remainder is
      smaller than the divisor and takes the sign of the dividend. */
  function CRem(a: int, b: int): (r: int)
    requires b > 0
    ensures CDiv(a, b) * b + r == a
    ensures a >= 0 ==> 0 <= r < b
    ensures a < 0 ==> -b < r <= 0
  {
    if a >= 0 then a % b else -((-a) % b)
  }

  /** The thousands/remainder split of the integer price: the two parts
      rebuild the price, and a price that is not negative has a remainder
      of three digits at most. */
  lemma PriceSplit(intPrice: int)
    ensures CDiv(intPrice, 1000) * 1000 + CRem(intPrice, 1000) == intPrice
    ensures intPrice >= 0 ==> 0 <= CRem(intPrice, 1000) <= 999 && 0 <= CDiv(intPrice, 1000)
    ensures intPrice < 0 ==> -999 <= CRem(intPrice, 1000) <= 0 && CDiv(intPrice, 1000) <= 0
  {
    if intPrice < 0 {
      var m := -intPrice;
      assert m / 1000 * 1000 + m % 1000 == m;
    }
  }

  /** The samples left after `n` polls. */
  function Drop(p: seq<bool>, n: nat): (rest: seq<bool>)
    ensures |rest| == if n <= |p| then |p| - n else 0
  {
    if n <= |p| then p[n..] else []
  }

  /** Polling once more reads the next sample and drops it. */
  lemma DropStep(p: seq<bool>, n: nat)
    ensures Pressed(Drop(p, n), 0) == Pressed(p, n)
    ensures Drop(Drop(p, n), 1) == Drop(p, n + 1)
  {
    if n < |p| {
      assert Drop(p, n)[0] == p[n];
      assert p[n..][1..] == p[n + 1..];
    }
  }

  /** The index of the first pressed sample, if any. */
  function FirstPress(p: seq<bool>): (r: Option<nat>)
    ensures r.Some? ==> r.value < |p| && p[r.value] && forall j :: 0 <= j < r.value ==> !p[j]
    ensures r.None? ==> forall j :: 0 <= j < |p| ==> !p[j]
  {
    if p == [] then None
    else if p[0] then Some(0)
    else match FirstPress(p[1..])
      case None => None
      case Some(k) => Some(k + 1)
  }

  /** How a completed line ends:
      - `Loading`: it did not parse;
      - `Normal`: the price is at or above the threshold;
      - `Alarm(k)`: the price is below it and the alarm ran `k` rounds
        before a press stopped it;
      - `AlarmPending(k)`: the alarm ran `k` rounds and the samples ran
        out; `main` would keep alarming until a press. */
  datatype Outcome = Loading | Normal | Alarm(rounds: nat) | AlarmPending(rounds: nat)

  /** The nibbles a line with this outcome sends to the LCD: the alarm
      screen once per round, then the quote screen, or "Loading...". */
  ghost function Shown(outcome: Outcome, fmt: Printf, price: real, line2: string): seq<Latch>
  {
    match outcome
    case Loading => LoadingScreen()
    case Normal => QuoteScreen(line2)
    case Alarm(k) => Repeat(AlarmScreen(AlertOf(fmt, price), AlertText), k) + QuoteScreen(line2)
    case AlarmPending(k) => Repeat(AlarmScreen(AlertOf(fmt, price), AlertText), k)
  }

  /** The button samples left after a line with this outcome: an alarm
      consumes its rounds and the press that stopped it, or all of them. */
  function Left(outcome: Outcome, samples: seq<bool>): seq<bool>
  {
    match outcome
    case Loading => samples
    case Normal => samples
    case Alarm(k) => Drop(samples, k + 1)
    case AlarmPending(_) => []
  }

  /** `alarmStopped` after a line with this outcome: cleared by a price at
      or above the threshold, set by a press that stopped the alarm. */
  function StoppedAfter(outcome: Outcome, stopped: int): int
  {
    match outcome
    case Normal => 0
    case Alarm(_) => 1
    case _ => stopped
  }

  /** Whether a line with this outcome leaves `led_state` and
      `buzzer_state` flipped: each alarm round flips both, and nothing
      else touches them. */
  function Flips(outcome: Outcome): bool
  {
    match outcome
    case Alarm(k) => k % 2 == 1
    case AlarmPending(k) => k % 2 == 1
    case _ => false
  }

  /** What `main` does with the text of a line, given the threshold and
      the button samples still to come: "Loading..." exactly when
      `sscanf` does not return 2, otherwise the alarm exactly when the
      price read is below the threshold. */
  function Decide(text: string, threshold: real, samples: seq<bool>): (o: Outcome)
    ensures o.Loading? <==> Scan.ScanQuote(text).count != 2
    ensures o.Normal? <==> Scan.ScanQuote(text).count == 2 && Scan.ScanQuote(text).values[0] >= threshold
  {
    var r := Scan.ScanQuote(text);
    if r.count != 2 then Loading else Verdict(r.values[0], threshold, samples)
  }

  /** The signal side of the board: ports D and F and the two toggle
      states. */
  datatype Signals = Signals(portD: bv32, portF: bv32, ledState: bool, buzzerState: bool)

  /** What a line leaves on ports D and F, `outcome` being how it ended,
      `change` the change read and `before` the signals it started from:
      both toggles flipped by an odd number of alarm rounds; the LED
      channels and the buzzer as the last screen set them; PF4 at the
      level of the last button poll; every other bit kept. An alarm cut
      short by the end of the samples leaves the signals of its last
      round, or the ports untouched when it ran no round. */
  predicate SignalledFrom(outcome: Outcome, change: real, before: Signals, after: Signals)
  {
    && after.ledState == (before.ledState != Flips(outcome))
    && after.buzzerState == (before.buzzerState != Flips(outcome))
    && OtherD(after.portD) == OtherD(before.portD)
    && OtherF(after.portF) == OtherF(before.portF)
    && match outcome
       case Loading =>
         && Leds(after.portD) == 0x00 && !Buzzing(after.portF)
         && ButtonDown(after.portF) == ButtonDown(before.portF)
       case Normal =>
         && Leds(after.portD) == LedBits(change) && !Buzzing(after.portF)
         && ButtonDown(after.portF) == ButtonDown(before.portF)
       case Alarm(_) =>
         Leds(after.portD) == LedBits(change) && !Buzzing(after.portF) && ButtonDown(after.portF)
       case AlarmPending(k) =>
         if k == 0 then after.portD == before.portD && after.portF == before.portF
         else
           && Leds(after.portD) == (if after.ledState then 0x03 else 0x00)
           && Buzzing(after.portF) == after.buzzerState && !ButtonDown(after.portF)
  }

  /** The quote screen's signals: the LED from the change, the buzzer off,
      both toggles as they were. */
  lemma QuoteSignals(before: Signals, after: Signals, change: real)
    requires after.portD == SetLeds(before.portD, LedBits(change)) && after.portF == Silenced(before.portF)
    requires after.ledState == before.ledState && after.buzzerState == before.buzzerState
    ensures SignalledFrom(Normal, change, before, after)
  {
  }

  /** The signals of "Loading...": both LED channels and the buzzer off. */
  lemma LoadingSignals(before: Signals, after: Signals, change: real)
    requires after.portD == LedsOff(before.portD) && after.portF == Silenced(before.portF)
    requires after.ledState == before.ledState && after.buzzerState == before.buzzerState
    ensures SignalledFrom(Loading, change, before, after)
  {
  }

  /** An alarm of `rounds` rounds cut short by the end of the samples. */
  lemma PendingSignals(before: Signals, after: Signals, rounds: nat, change: real)
    requires after.ledState == (before.ledState != (rounds % 2 == 1))
    requires after.buzzerState == (before.buzzerState != (rounds % 2 == 1))
    requires OtherD(after.portD) == OtherD(before.portD) && OtherF(after.portF) == OtherF(before.portF)
    requires rounds > 0 ==>
      && Leds(after.portD) == (if after.ledState then 0x03 else 0x00)
      && Buzzing(after.portF) == after.buzzerState && !ButtonDown(after.portF)
    requires rounds == 0 ==> after.portD == before.portD && after.portF == before.portF
    ensures SignalledFrom(AlarmPending(rounds), change, before, after)
  {
  }

  /** An alarm of `rounds` rounds ended by a press, then the quote screen. */
  lemma AlarmQuoteSignals(before: Signals, alarmed: Signals, after: Signals, rounds: nat, change: real)
    requires alarmed.ledState == (before.ledState != (rounds % 2 == 1))
    requires alarmed.buzzerState == (before.buzzerState != (rounds % 2 == 1))
    requires OtherD(alarmed.portD) == OtherD(before.portD) && OtherF(alarmed.portF) == OtherF(before.portF)
    requires ButtonDown(alarmed.portF)
    requires after.portD == SetLeds(alarmed.portD, LedBits(change)) && after.portF == Silenced(alarmed.portF)
    requires after.ledState == alarmed.ledState && after.buzzerState == alarmed.buzzerState
    ensures SignalledFrom(Alarm(rounds), change, before, after)
  {
  }

  /** What handling a completed line changes: the button samples, the
      values `sscanf` stored, `line2`, `alarmStopped`, the screens sent to
      the display and the signals. */
  datatype Handling = Handling(samples: seq<bool>, price: real, change: real, line2: string,
                               alarmStopped: int, latched: seq<Latch>, signals: Signals)

  /** What handling a line with text `text` does against `threshold`,
      from `before` to `after`, `outcome` being how it ended: the outcome
      `main` decides on; the values `sscanf` stored; `line2` reformatted
      for a quote and kept otherwise; the screens shown; the samples the
      alarm consumed; `alarmStopped`; and the LED and buzzer as
      `SignalledFrom` states. */
  ghost predicate Handled(fmt: Printf, text: string, outcome: Outcome, threshold: real, before: Handling, after: Handling)
  {
    && outcome == Decide(text, threshold, before.samples)
    && (after.price, after.change) == Assigned(Scan.ScanQuote(text), before.price, before.change)
    && after.line2 == (if outcome == Loading then before.line2 else LineOf(fmt, after.price, after.change))
    && after.latched == before.latched + Shown(outcome, fmt, after.price, after.line2)
    && after.samples == Left(outcome, before.samples)
    && after.alarmStopped == StoppedAfter(outcome, before.alarmStopped)
    && SignalledFrom(outcome, after.change, before.signals, after.signals)
  }

  /** The outcomes of a run of completed lines, in order, and the
      samples left after them: each line is decided against the same
      threshold with the samples the lines before it left. */
  datatype Judgement = Judgement(outcomes: seq<Outcome>, left: seq<bool>)

  function Judged(lines: seq<Frame>, threshold: real, samples: seq<bool>): (j: Judgement)
    ensures |j.outcomes| == |lines|
    decreases |lines|
  {
    if lines == [] then Judgement([], samples)
    else
      var before := Judged(lines[..|lines| - 1], threshold, samples);
      var o := Decide(CString(lines[|lines| - 1].text), threshold, before.left);
      Judgement(before.outcomes + [o], Left(o, before.left))
  }

  /** One more completed line is decided with the samples the lines
      before it left. */
  lemma JudgedSnoc(lines: seq<Frame>, f: Frame, threshold: real, samples: seq<bool>)
    ensures var j := Judged(lines, threshold, samples);
      var o := Decide(CString(f.text), threshold, j.left);
      Judged(lines + [f], threshold, samples) == Judgement(j.outcomes + [o], Left(o, j.left))
  {
    assert (lines + [f])[..|lines|] == lines;
  }

  /** What `main` does with a parsed price: no alarm when it reaches the
      threshold; otherwise the alarm runs one round per released sample
      and stops at the first press, or runs through every sample. */
  function Verdict(price: real, threshold: real, samples: seq<bool>): (o: Outcome)
    ensures o.Normal? <==> price >= threshold
    ensures !o.Loading?
    ensures o.Alarm? ==> o.rounds < |samples|
    ensures o.Alarm? ==> samples[o.rounds]
    ensures o.AlarmPending? ==> o.rounds == |samples|
    ensures o.Alarm? || o.AlarmPending? ==> forall j :: 0 <= j < o.rounds ==> !samples[j]
  {
    if price < threshold then
      match FirstPress(samples)
      case Some(k) => Alarm(k)
      case None => AlarmPending(|samples|)
    else Normal
  }

  /** `sscanf` stores each conversion it completes, even when it fails
      later: the price and the change after scanning. */
  function Assigned(r: Scan.Scanned, price: real, change: real): (real, real)
  {
    (if |r.values| >= 1 then r.values[0] else price,
     if |r.values| >= 2 then r.values[1] else change)
  }

  /** `sscanf`'s return value tells which of `price` and `change` were
      written: both on 2, only the price on 1, neither otherwise. */
  lemma AssignedByCount(text: string, price: real, change: real)
    ensures var r := Scan.ScanQuote(text);
      && (r.count == 2 ==> Assigned(r, price, change) == (r.values[0], r.values[1]))
      && (r.count == 1 ==> Assigned(r, price, change) == (r.values[0], change))
      && (r.count <= 0 ==> Assigned(r, price, change) == (price, change))
  {
  }

  /** A well-formed quote line is shown normally when its price reaches
      the threshold, and raises the alarm otherwise. */
  lemma QuoteDecides(price: Scan.Decimal, change: Scan.Decimal, rest: string, threshold: real, samples: seq<bool>)
    requires Scan.WellFormed(price) && Scan.WellFormed(change)
    requires rest == [] || (!Scan.IsDigit(rest[0]) && rest[0] != '.')
    ensures Decide(Scan.QuoteLine(price, change, rest), threshold, samples) == Normal
            <==> Scan.Value(price) >= threshold
    ensures Decide(Scan.QuoteLine(price, change, rest), threshold, samples).Loading? == false
  {
    Scan.QuoteRoundTrip(price, change, rest);
  }

  /** A line that only carries a price, and a line that does not start
      with the label, show "Loading...". */
  lemma IncompleteLinesLoad(price: Scan.Decimal, rest: string, other: string, threshold: real, samples: seq<bool>)
    requires Scan.WellFormed(price)
    requires rest == [] || (rest[0] != ',' && !Scan.IsDigit(rest[0]) && rest[0] != '.')
    requires other == [] || other[0] != 'B'
    ensures Decide("BTC Price: $" + Scan.Render(price) + rest, threshold, samples) == Loading
    ensures Decide(other, threshold, samples) == Loading
  {
    Scan.PriceOnly(price, rest);
    if other == [] {
      Scan.EmptyLineIsEof();
    } else {
      Scan.WrongLabel(other);
    }
  }

  /** The text `main` formats for the alarm's first row: the integer
      price split into thousands and a remainder ("$%d,%03d"). */
  function AlertOf(fmt: Printf, price: real): string
  {
    fmt.price(CDiv(TruncateToInt(price), 1000), CRem(TruncateToInt(price), 1000))
  }

  /** The text `main` formats into `line2` ("$%d,%03d  %+.2f%%"). */
  function LineOf(fmt: Printf, price: real, change: real): string
  {
    fmt.line2(CDiv(TruncateToInt(price), 1000), CRem(TruncateToInt(price), 1000), change)
  }

  /** The alarm's price text and `line2` are formatted from the same
      thousands and remainder, which rebuild the integer part of the price;
      for a price that is not negative the remainder has three digits at
      most. */
  lemma PriceTexts(fmt: Printf, price: real, change: real) returns (thousands: int, remainder: int)
    ensures AlertOf(fmt, price) == fmt.price(thousands, remainder)
    ensures LineOf(fmt, price, change) == fmt.line2(thousands, remainder, change)
    ensures thousands * 1000 + remainder == TruncateToInt(price)
    ensures price >= 0.0 ==> 0 <= thousands && 0 <= remainder <= 999
  {
    thousands, remainder := CDiv(TruncateToInt(price), 1000), CRem(TruncateToInt(price), 1000);
    PriceSplit(TruncateToInt(price));
  }

  /** The nibbles of one row written in place: the cursor to the start of
      row `row`, then the text up to its NUL. */
  ghost function RowLatches(row: Byte, text: string): seq<Latch>
  {
    SplitAll([Instruction(SetCursorCommand(0, row))]) + DataLatches(CString(text))
  }

  lemma LogAppend(log: seq<Latch>, a: seq<Latch>, b: seq<Latch>)
    ensures log + a + b == log + (a + b)
  {
  }

  /** `screen`, `n` times over. */
  ghost function Repeat(screen: seq<Latch>, n: nat): seq<Latch>
  {
    if n == 0 then [] else Repeat(screen, n - 1) + screen
  }

  lemma RepeatStep(log: seq<Latch>, screen: seq<Latch>, n: nat)
    ensures log + Repeat(screen, n) + screen == log + Repeat(screen, n + 1)
  {
    assert log + Repeat(screen, n) + screen == log + (Repeat(screen, n) + screen);
  }

  /** The threshold redraw of poll `n`: a press writes the newly
      selected threshold on the second row. */
  ghost function Redrawn(fmt: Printf, p: seq<bool>, n: nat): seq<Latch>
  {
    if Pressed(p, n) then RowLatches(1, fmt.threshold(Threshold(Index(p, n + 1)))) else []
  }

  /** The threshold redraws of the first `n` polls of the selection. */
  ghost function Redraws(fmt: Printf, p: seq<bool>, n: nat): seq<Latch>
  {
    if n == 0 then [] else Redraws(fmt, p, n - 1) + Redrawn(fmt, p, n - 1)
  }

  lemma RedrawStep(log: seq<Latch>, fmt: Printf, p: seq<bool>, n: nat)
    ensures log + Redraws(fmt, p, n + 1) == log + Redraws(fmt, p, n) + Redrawn(fmt, p, n)
  {
    assert log + (Redraws(fmt, p, n) + Redrawn(fmt, p, n)) == log + Redraws(fmt, p, n) + Redrawn(fmt, p, n);
  }

  /** The nibbles of the selection's end: "Threshold Saved" alone on the
      display, then a clear display. */
  ghost function SavedScreens(): seq<Latch>
  {
    SplitAll(OneRowScreen(TextBytes(SavedText))) + SplitAll([Instruction(ClearDisplay)])
  }

  /** The nibbles of one alarm screen: the formatted price on the first
      row, the notice ("BUY NOW") on the second. */
  ghost function AlarmScreen(alert: string, notice: string): seq<Latch>
  {
    SplitAll(TwoRowScreen(TextBytes(CString(alert)), TextBytes(notice)))
  }

  /** The nibbles of the quote screen: "BTC Price:" on the first row,
      the text of `line2` up to its NUL on the second. */
  ghost function QuoteScreen(line2: string): seq<Latch>
  {
    SplitAll(TwoRowScreen(TextBytes(PriceLabel), TextBytes(CString(line2))))
  }

  /** The nibbles of the screen of a line that did not parse. */
  ghost function LoadingScreen(): seq<Latch>
  {
    SplitAll(OneRowScreen(TextBytes(LoadingText)))
  }

  /** Whatever the display held, the quote screen shows "BTC Price:" on
      the first row and the text of `line2` on the second. */
  lemma QuoteScreenShows(c: Controller, line2: string)
    requires Ready(c) && |CString(line2)| <= Columns
    ensures var shown := Run(c, Join(QuoteScreen(line2)));
      Row(shown, 0) == Padded(TextBytes(PriceLabel)) && Row(shown, 1) == Padded(TextBytes(CString(line2)))
  {
    JoinSplitAll(TwoRowScreen(TextBytes(PriceLabel), TextBytes(CString(line2))));
    TwoRowScreenShows(c, TextBytes(PriceLabel), TextBytes(CString(line2)));
  }

  class Ticker {
    const board: Board
    /** `uart_buffer`. */
    const buffer: array<char>
    const fmt: Printf
    /** The write position in `uart_buffer`. */
    var index: nat
    var price: real
    var change: real
    /** The text of the `line2` buffer. */
    var line2: string
    /** `local_threshold`. */
    var threshold: real
    var alarmStopped: int
    /** The button samples the coming polls will read. */
    var samples: seq<bool>
    /** The lines completed so far. */
    ghost var frames: seq<Frame>

    ghost predicate Valid()
      reads this`index, board`portA, board`portC, board`portE, board`latched
    {
      buffer.Length == BufferSize && index < BufferSize && board.Valid()
    }

    /** `main`'s locals and the globals of the tracker, as initialised,
        over a board whose peripherals are initialised. */
    constructor (board: Board, fmt: Printf, samples: seq<bool>)
      requires board.Valid()
      ensures Valid()
      ensures this.board == board && this.fmt == fmt && this.samples == samples
      ensures index == 0 && price == 0.0 && change == 0.0 && line2 == []
      ensures threshold == 0.0 && alarmStopped == 0 && frames == []
      ensures fresh(buffer)
    {
      this.board := board;
      this.fmt := fmt;
      buffer := new char[BufferSize];
      index := 0;
      price, change, line2 := 0.0, 0.0, [];
      threshold, alarmStopped := 0.0, 0;
      this.samples := samples;
      frames := [];
    }

    /** `PushButton_Pressed` on the next sample; past the last sample the
        button reads released. */
    method Poll() returns (pressed: bool)
      modifies board`portF, this`samples
      ensures pressed == Pressed(old(samples), 0)
      ensures samples == Drop(old(samples), 1)
      ensures board.portF == ButtonLevel(old(board.portF), Pressed(old(samples), 0))
    {
      var level := Pressed(samples, 0);
      samples := Drop(samples, 1);
      board.DriveButton(level);
      pressed := board.PushButtonPressed();
    }

    /** The cursor to the start of row `row`, then `text` up to its NUL. */
    method ShowRow(row: Byte, text: string)
      requires board.Valid()
      modifies board`portA, board`portC, board`portE, board`latched
      ensures board.Valid()
      ensures board.latched
           == old(board.latched) + SplitAll([Instruction(SetCursorCommand(0, row))]) + DataLatches(CString(text))
    {
      board.SetCursor(0, row);
      board.DisplayString(text);
    }

    /** The threshold field: the text on the second row. */
    method ShowThreshold(text: string)
      requires board.Valid()
      modifies board`portA, board`portC, board`portE, board`latched
      ensures board.Valid()
      ensures board.latched == old(board.latched) + RowLatches(1, text)
    {
      ShowRow(1, text);
      LogAppend(old(board.latched), SplitAll([Instruction(SetCursorCommand(0, 1))]), DataLatches(CString(text)));
    }

    /** A row whose text holds no NUL shows all of it. */
    method ShowText(row: Byte, text: string)
      requires board.Valid() && '\0' !in text
      modifies board`portA, board`portC, board`portE, board`latched
      ensures board.Valid()
      ensures board.latched
           == old(board.latched) + SplitAll([Instruction(SetCursorCommand(0, row))]) + DataLatches(text)
    {
      CStringOfText(text);
      ShowRow(row, text);
    }

    /** Clear, then `text` from the start of the first row. */
    method ShowOneRow(text: string)
      requires board.Valid() && '\0' !in text
      modifies board`portA, board`portC, board`portE, board`latched
      ensures board.Valid()
      ensures board.latched == old(board.latched) + SplitAll(OneRowScreen(TextBytes(text)))
    {
      board.Clear();
      ShowText(0, text);
      OneRowLatches(old(board.latched), text);
    }

    /** Clear, then a fixed `caption` on the first row and `text` on the
        second. */
    method ShowLabelled(caption: string, text: string)
      requires board.Valid() && '\0' !in caption
      modifies board`portA, board`portC, board`portE, board`latched
      ensures board.Valid()
      ensures board.latched
           == old(board.latched) + SplitAll(TwoRowScreen(TextBytes(caption), TextBytes(CString(text))))
    {
      board.Clear();
      ShowText(0, caption);
      ShowRow(1, text);
      TwoRowLatches(old(board.latched), caption, CString(text));
    }

    /** Clear, then `text` on the first row and a fixed `notice` on the
        second. */
    method ShowNotice(text: string, notice: string)
      requires board.Valid() && '\0' !in notice
      modifies board`portA, board`portC, board`portE, board`latched
      ensures board.Valid()
      ensures board.latched == old(board.latched) + AlarmScreen(text, notice)
    {
      board.Clear();
      ShowRow(0, text);
      ShowText(1, notice);
      TwoRowLatches(old(board.latched), CString(text), notice);
    }

    /** The end of the selection: "Threshold Saved" alone on the display,
        then, after the pause, a clear display. */
    method Saved()
      requires board.Valid()
      modifies board`portA, board`portC, board`portE, board`latched
      ensures board.Valid()
      ensures board.latched == old(board.latched) + SavedScreens()
    {
      ShowOneRow(SavedText);
      board.Clear();
      LogAppend(old(board.latched), SplitAll(OneRowScreen(TextBytes(SavedText))), SplitAll([Instruction(ClearDisplay)]));
    }

    /** One poll of the selection: a press advances the index, wrapping
        after the last threshold, writes the new threshold on the second
        row and restarts the window; every poll then counts a tick. */
    method Adjust(ghost p: seq<bool>, ghost n: nat, elapsed: nat, adjustable: nat)
      returns (elapsed': nat, adjustable': nat)
      requires board.Valid() && samples == Drop(p, n)
      requires elapsed == Elapsed(p, n) < Window && adjustable == Index(p, n)
      modifies board`portA, board`portC, board`portE, board`portF, board`latched, this`samples
      ensures board.Valid()
      ensures samples == Drop(p, n + 1)
      ensures elapsed' == Elapsed(p, n + 1) <= Window && adjustable' == Index(p, n + 1)
      ensures board.latched == old(board.latched) + Redrawn(fmt, p, n)
    {
      DropStep(p, n);
      PollStep(p, n);
      ElapsedWithinWindow(p, n);
      var pressed := Poll();
      adjustable', elapsed' := adjustable, elapsed;
      if pressed {
        adjustable' := (adjustable + 1) % Choices;
        ShowThreshold(fmt.threshold(Threshold(adjustable')));
        elapsed' := 0;
      }
      elapsed' := elapsed' + Tick;
    }

    /** The polling loop of the selection: one poll every 100 ms until
        four seconds pass without a press; each press advances the index
        and redraws the threshold on the second row. */
    method AdjustThreshold() returns (polls: nat, adjustable: nat)
      requires board.Valid()
      modifies board`portA, board`portC, board`portE, board`portF, board`latched, this`samples
      ensures board.Valid()
      ensures Elapsed(old(samples), polls) == Window
      ensures forall k :: 0 <= k < polls ==> Waiting(old(samples), k)
      ensures adjustable == Index(old(samples), polls)
      ensures samples == Drop(old(samples), polls)
      ensures board.latched == old(board.latched) + Redraws(fmt, old(samples), polls)
    {
      ghost var p, start := samples, board.latched;
      adjustable := 0;
      var elapsed := 0;
      polls := 0;
      while elapsed < Window
        invariant board.Valid()
        invariant polls <= |p| + Window / Tick
        invariant elapsed == Elapsed(p, polls) && elapsed <= Window
        invariant adjustable == Index(p, polls)
        invariant forall k :: 0 <= k < polls ==> Waiting(p, k)
        invariant samples == Drop(p, polls)
        invariant board.latched == start + Redraws(fmt, p, polls)
        decreases |p| + Window / Tick - polls
      {
        WaitingBound(p, polls);
        RedrawStep(start, fmt, p, polls);
        elapsed, adjustable := Adjust(p, polls, elapsed, adjustable);
        polls := polls + 1;
      }
    }

    /** The threshold selection: the prompt with the first threshold, the
        polling loop, then the selected threshold saved and announced. */
    method SelectThreshold() returns (polls: nat)
      requires Valid()
      modifies board`portA, board`portC, board`portE, board`portF, board`latched
      modifies this`samples, this`threshold
      ensures Valid()
      ensures Elapsed(old(samples), polls) == Window
      ensures forall k :: 0 <= k < polls ==> Waiting(old(samples), k)
      ensures threshold == Threshold(Presses(old(samples), polls) % Choices) as real
      ensures samples == Drop(old(samples), polls)
      ensures board.latched
           == old(board.latched) + SplitAll(OneRowScreen(TextBytes(PromptText)))
              + RowLatches(1, fmt.threshold(Threshold(0))) + Redraws(fmt, old(samples), polls) + SavedScreens()
    {
      ShowOneRow(PromptText);
      ShowThreshold(fmt.threshold(Threshold(0)));
      var adjustable;
      polls, adjustable := AdjustThreshold();
      threshold := Threshold(adjustable) as real;
      IndexCountsPresses(old(samples), polls);
      Saved();
    }

    /** The signals of one alarm round: the yellow flash and the buzzer
        toggled. */
    method AlarmSignals()
      modifies board`portD, board`portF, board`ledState, board`buzzerState
      ensures board.ledState == !old(board.ledState) && board.buzzerState == !old(board.buzzerState)
      ensures board.portD == (if board.ledState then SetLeds(old(board.portD), 0x03) else LedsOff(old(board.portD)))
      ensures board.portF == (if board.buzzerState then BuzzerOn(old(board.portF)) else Silenced(old(board.portF)))
      ensures Leds(board.portD) == (if board.ledState then 0x03 else 0x00)
      ensures Buzzing(board.portF) == board.buzzerState
    {
      board.FlashYellow();
      board.BuzzerToggle();
    }

    /** One round of the alarm: the price and the notice on the display,
        the yellow flash and the buzzer toggled. */
    method AlarmRound(alert: string, notice: string)
      requires board.Valid() && '\0' !in notice
      modifies board`portA, board`portC, board`portD, board`portE, board`portF, board`latched
      modifies board`ledState, board`buzzerState
      ensures board.Valid()
      ensures board.ledState == !old(board.ledState) && board.buzzerState == !old(board.buzzerState)
      ensures board.latched == old(board.latched) + AlarmScreen(alert, notice)
      ensures board.portD == (if board.ledState then SetLeds(old(board.portD), 0x03) else LedsOff(old(board.portD)))
      ensures board.portF == (if board.buzzerState then BuzzerOn(old(board.portF)) else Silenced(old(board.portF)))
      ensures Leds(board.portD) == (if board.ledState then 0x03 else 0x00)
      ensures Buzzing(board.portF) == board.buzzerState
    {
      ShowNotice(alert, notice);
      AlarmSignals();
    }

    /** One pass of the alarm loop: the button is polled, and while it
        reads released an alarm round follows. */
    method AlarmStep(alert: string, notice: string) returns (silenced: bool)
      requires board.Valid() && '\0' !in notice
      modifies board`portA, board`portC, board`portD, board`portE, board`portF, board`latched
      modifies board`ledState, board`buzzerState, this`samples
      ensures board.Valid()
      ensures silenced == Pressed(old(samples), 0) && samples == Drop(old(samples), 1)
      ensures silenced ==>
        && board.ledState == old(board.ledState) && board.buzzerState == old(board.buzzerState)
        && board.latched == old(board.latched) && board.portD == old(board.portD)
        && board.portF == ButtonLevel(old(board.portF), true)
        && Buzzing(board.portF) == Buzzing(old(board.portF))
      ensures !silenced ==>
        && board.ledState == !old(board.ledState) && board.buzzerState == !old(board.buzzerState)
        && board.latched == old(board.latched) + AlarmScreen(alert, notice)
        && board.portD == (if board.ledState then SetLeds(old(board.portD), 0x03) else LedsOff(old(board.portD)))
        && board.portF == (var released := ButtonLevel(old(board.portF), false);
                           if board.buzzerState then BuzzerOn(released) else Silenced(released))
        && Leds(board.portD) == (if board.ledState then 0x03 else 0x00)
        && Buzzing(board.portF) == board.buzzerState
      ensures OtherD(board.portD) == OtherD(old(board.portD)) && OtherF(board.portF) == OtherF(old(board.portF))
      ensures ButtonDown(board.portF) == silenced
    {
      silenced := Poll();
      if !silenced {
        AlarmRound(alert, notice);
      }
    }

    /** The alarm: while the button reads released, the price and the
        notice are shown, the LED flashes yellow and the buzzer toggles.
        The price never changes inside the loop, so only a press ends it;
        when the samples run out first, the loop is cut there. */
    method AlarmLoop(alert: string, notice: string) returns (silenced: bool, rounds: nat)
      requires board.Valid() && '\0' !in notice
      modifies board`portA, board`portC, board`portD, board`portE, board`portF, board`latched
      modifies board`ledState, board`buzzerState, this`samples
      ensures board.Valid()
      ensures silenced ==> FirstPress(old(samples)) == Some(rounds) && samples == old(samples)[rounds + 1..]
      ensures !silenced ==> FirstPress(old(samples)) == None && rounds == |old(samples)| && samples == []
      ensures board.ledState == (old(board.ledState) != (rounds % 2 == 1))
      ensures board.buzzerState == (old(board.buzzerState) != (rounds % 2 == 1))
      ensures board.latched == old(board.latched) + Repeat(AlarmScreen(alert, notice), rounds)
      ensures rounds > 0 ==> Leds(board.portD) == (if board.ledState then 0x03 else 0x00)
      ensures rounds > 0 ==> Buzzing(board.portF) == board.buzzerState
      ensures rounds == 0 ==> board.portD == old(board.portD)
      ensures OtherD(board.portD) == OtherD(old(board.portD)) && OtherF(board.portF) == OtherF(old(board.portF))
      ensures silenced || rounds > 0 ==> ButtonDown(board.portF) == silenced
      ensures silenced && rounds == 0 ==> Buzzing(board.portF) == Buzzing(old(board.portF))
      ensures !silenced && rounds == 0 ==> board.portF == old(board.portF)
    {
      ghost var p, start := samples, board.latched;
      silenced, rounds := false, 0;
      while samples != [] && !silenced
        invariant board.Valid()
        invariant !silenced ==> rounds <= |p| && samples == Drop(p, rounds)
        invariant silenced ==> rounds < |p| && p[rounds] && samples == Drop(p, rounds + 1)
        invariant forall j :: 0 <= j < rounds ==> !p[j]
        invariant board.ledState == (old(board.ledState) != (rounds % 2 == 1))
        invariant board.buzzerState == (old(board.buzzerState) != (rounds % 2 == 1))
        invariant board.latched == start + Repeat(AlarmScreen(alert, notice), rounds)
        invariant rounds > 0 ==>
          Leds(board.portD) == (if board.ledState then 0x03 else 0x00) && Buzzing(board.portF) == board.buzzerState
        invariant rounds == 0 ==> board.portD == old(board.portD)
        invariant OtherD(board.portD) == OtherD(old(board.portD)) && OtherF(board.portF) == OtherF(old(board.portF))
        invariant silenced || rounds > 0 ==> ButtonDown(board.portF) == silenced
        invariant silenced && rounds == 0 ==> Buzzing(board.portF) == Buzzing(old(board.portF))
        invariant !silenced && rounds == 0 ==> board.portF == old(board.portF)
        decreases |samples|
      {
        DropStep(p, rounds);
        RepeatStep(start, AlarmScreen(alert, notice), rounds);
        silenced := AlarmStep(alert, notice);
        if !silenced {
          rounds := rounds + 1;
        }
      }
    }

    /** The alarm for a price below the threshold: the alarm loop with
        "BUY NOW"; once a press ends it, `alarmStopped` is set and the
        buzzer is silenced. */
    method RunAlarm(alert: string) returns (silenced: bool, rounds: nat)
      requires Valid()
      modifies board`portA, board`portC, board`portD, board`portE, board`portF, board`latched
      modifies board`ledState, board`buzzerState, this`samples, this`alarmStopped
      ensures Valid()
      ensures silenced ==>
        && FirstPress(old(samples)) == Some(rounds) && samples == old(samples)[rounds + 1..]
        && alarmStopped == 1
      ensures !silenced ==>
        && FirstPress(old(samples)) == None && rounds == |old(samples)| && samples == []
        && alarmStopped == old(alarmStopped)
      ensures board.latched == old(board.latched) + Repeat(AlarmScreen(alert, AlertText), rounds)
      ensures board.ledState == (old(board.ledState) != (rounds % 2 == 1))
      ensures board.buzzerState == (old(board.buzzerState) != (rounds % 2 == 1))
      ensures OtherD(board.portD) == OtherD(old(board.portD)) && OtherF(board.portF) == OtherF(old(board.portF))
      ensures rounds > 0 ==> Leds(board.portD) == (if board.ledState then 0x03 else 0x00)
      ensures rounds == 0 ==> board.portD == old(board.portD)
      ensures silenced ==> ButtonDown(board.portF) && !Buzzing(board.portF)
      ensures !silenced && rounds > 0 ==> !ButtonDown(board.portF) && Buzzing(board.portF) == board.buzzerState
      ensures !silenced && rounds == 0 ==> board.portF == old(board.portF)
    {
      silenced, rounds := AlarmLoop(alert, AlertText);
      if silenced {
        alarmStopped := 1;
        board.BuzzerOff();
      }
    }

    /** The quote screen: "BTC Price:" and `line2`, the LED from the
        change, the buzzer off. */
    method ShowQuote()
      requires Valid()
      modifies board`portA, board`portC, board`portD, board`portE, board`portF, board`latched
      ensures Valid()
      ensures board.latched == old(board.latched) + QuoteScreen(line2)
      ensures board.portD == SetLeds(old(board.portD), LedBits(change))
      ensures board.portF == Silenced(old(board.portF))
    {
      ShowLabelled(PriceLabel, line2);
      board.SetNormal(change);
      board.BuzzerOff();
    }

    /** The screen of a line that did not parse: "Loading...", both LED
        channels and the buzzer off. */
    method ShowLoading()
      requires Valid()
      modifies board`portA, board`portC, board`portD, board`portE, board`portF, board`latched
      ensures Valid()
      ensures board.latched == old(board.latched) + LoadingScreen()
      ensures board.portD == LedsOff(old(board.portD))
      ensures board.portF == Silenced(old(board.portF))
    {
      ShowOneRow(LoadingText);
      board.LedOff();
      board.BuzzerOff();
    }

    /** Ports D and F and both toggles, as they stand. */
    function Panel(): Signals
      reads board`portD, board`portF, board`ledState, board`buzzerState
    {
      Signals(board.portD, board.portF, board.ledState, board.buzzerState)
    }

    /** A price below the threshold: the alarm runs until a press, then
        the quote is shown. */
    method AlarmThenQuote() returns (outcome: Outcome)
      requires Valid() && price < threshold && line2 == LineOf(fmt, price, change)
      modifies board`portA, board`portC, board`portD, board`portE, board`portF, board`latched
      modifies board`ledState, board`buzzerState
      modifies this`samples, this`alarmStopped
      ensures Valid()
      ensures outcome == Verdict(price, threshold, old(samples))
      ensures board.latched == old(board.latched) + Shown(outcome, fmt, price, line2)
      ensures samples == Left(outcome, old(samples))
      ensures alarmStopped == StoppedAfter(outcome, old(alarmStopped))
      ensures SignalledFrom(outcome, change, old(Panel()), Panel())
    {
      ghost var before := Panel();
      var silenced, rounds := RunAlarm(AlertOf(fmt, price));
      if !silenced {
        outcome := AlarmPending(rounds);
        PendingSignals(before, Panel(), rounds, change);
        assert FirstPress(old(samples)) == None;
        return;
      }
      ghost var alarms := Repeat(AlarmScreen(AlertOf(fmt, price), AlertText), rounds);
      QuoteAfterPress(before, rounds);
      outcome := Alarm(rounds);
      assert FirstPress(old(samples)) == Some(rounds);
      LogAppend(old(board.latched), alarms, QuoteScreen(line2));
      assert samples == Drop(old(samples), rounds + 1);
    }

    /** The quote shown once a press has ended an alarm of `rounds`
        rounds that started from the signals `before`. */
    method QuoteAfterPress(ghost before: Signals, rounds: nat)
      requires Valid()
      requires board.ledState == (before.ledState != (rounds % 2 == 1))
      requires board.buzzerState == (before.buzzerState != (rounds % 2 == 1))
      requires OtherD(board.portD) == OtherD(before.portD) && OtherF(board.portF) == OtherF(before.portF)
      requires ButtonDown(board.portF)
      modifies board`portA, board`portC, board`portD, board`portE, board`portF, board`latched
      ensures Valid()
      ensures board.latched == old(board.latched) + QuoteScreen(line2)
      ensures SignalledFrom(Alarm(rounds), change, before, Panel())
    {
      ghost var alarmed := Panel();
      ShowQuote();
      AlarmQuoteSignals(before, alarmed, Panel(), rounds, change);
    }

    /** A line that parsed: format the second row from the price and the
        change, run the alarm when the price is below the threshold, then
        show the quote. */
    method HandleQuote() returns (outcome: Outcome)
      requires Valid()
      modifies board`portA, board`portC, board`portD, board`portE, board`portF, board`latched
      modifies board`ledState, board`buzzerState
      modifies this`samples, this`line2, this`alarmStopped
      ensures Valid()
      ensures outcome == Verdict(price, threshold, old(samples))
      ensures line2 == LineOf(fmt, price, change)
      ensures board.latched == old(board.latched) + Shown(outcome, fmt, price, line2)
      ensures samples == Left(outcome, old(samples))
      ensures alarmStopped == StoppedAfter(outcome, old(alarmStopped))
      ensures SignalledFrom(outcome, change, old(Panel()), Panel())
    {
      line2 := LineOf(fmt, price, change);
      if price < threshold {
        outcome := AlarmThenQuote();
      } else {
        QuoteAtThreshold();
        outcome := Normal;
      }
    }

    /** A price at or above the threshold: `alarmStopped` is cleared and
        the quote is shown. */
    method QuoteAtThreshold()
      requires Valid()
      modifies board`portA, board`portC, board`portD, board`portE, board`portF, board`latched
      modifies this`alarmStopped
      ensures Valid()
      ensures alarmStopped == 0
      ensures board.latched == old(board.latched) + QuoteScreen(line2)
      ensures SignalledFrom(Normal, change, old(Panel()), Panel())
    {
      alarmStopped := 0;
      ghost var before := Panel();
      ShowQuote();
      QuoteSignals(before, Panel(), change);
    }

    /** What handling a line with text `text` does, `outcome` being how it
        ended: the outcome `main` decides on against the threshold; the
        values `sscanf` stored; `line2` reformatted for a quote and kept
        otherwise; the screens shown; the samples the alarm consumed;
        `alarmStopped`; and the LED and buzzer as `SignalledFrom` states. */
    twostate predicate LineHandled(text: string, outcome: Outcome)
      reads this`threshold, this`samples, this`price, this`change, this`line2, this`alarmStopped
      reads board`portD, board`portF, board`ledState, board`buzzerState, board`latched
    {
      Handled(fmt, text, outcome, threshold, old(Now()), Now())
    }

    /** One completed line: parse it, storing each value `sscanf`
        converts; a line with both values is handled as a quote, any other
        shows "Loading...". */
    method HandleLine(text: string) returns (outcome: Outcome)
      requires Valid()
      modifies board`portA, board`portC, board`portD, board`portE, board`portF, board`latched
      modifies board`ledState, board`buzzerState
      modifies this`samples, this`price, this`change, this`line2, this`alarmStopped
      ensures Valid()
      ensures LineHandled(text, outcome)
    {
      ghost var before := Now();
      var r := Scan.ScanQuote(text);
      if |r.values| >= 1 {
        price := r.values[0];
      }
      if |r.values| >= 2 {
        change := r.values[1];
      }
      if r.count == 2 {
        outcome := QuoteLine(text, before);
      } else {
        outcome := FailedLine(text, before);
      }
    }

    /** The state as it stands, in the terms of `Handled`. */
    ghost function Now(): Handling
      reads this`samples, this`price, this`change, this`line2, this`alarmStopped
      reads board`portD, board`portF, board`ledState, board`buzzerState, board`latched
    {
      Handling(samples, price, change, line2, alarmStopped, board.latched, Panel())
    }

    /** A line `sscanf` matched in full, its values stored: the quote is
        handled from the state `before` the line. */
    method QuoteLine(ghost text: string, ghost before: Handling) returns (outcome: Outcome)
      requires Valid() && Scan.ScanQuote(text).count == 2
      requires (price, change) == Assigned(Scan.ScanQuote(text), before.price, before.change)
      requires Now() == before.(price := price, change := change)
      modifies board`portA, board`portC, board`portD, board`portE, board`portF, board`latched
      modifies board`ledState, board`buzzerState
      modifies this`samples, this`line2, this`alarmStopped
      ensures Valid()
      ensures Handled(fmt, text, outcome, threshold, before, Now())
    {
      outcome := HandleQuote();
    }

    /** A line `sscanf` did not match in full, what it converted stored:
        "Loading..." from the state `before` the line. */
    method FailedLine(ghost text: string, ghost before: Handling) returns (outcome: Outcome)
      requires Valid() && Scan.ScanQuote(text).count != 2
      requires (price, change) == Assigned(Scan.ScanQuote(text), before.price, before.change)
      requires Now() == before.(price := price, change := change)
      modifies board`portA, board`portC, board`portD, board`portE, board`portF, board`latched
      ensures Valid()
      ensures Handled(fmt, text, outcome, threshold, before, Now())
    {
      ghost var shown := Panel();
      ShowLoading();
      LoadingSignals(shown, Panel(), change);
      outcome := Loading;
    }

    /** A completed line: NUL-terminate the buffer, handle its text and
        restart the buffer. */
    method CompleteLine(c: char) returns (outcome: Outcome)
      requires Valid()
      modifies buffer, this`index, this`frames
      modifies board`portA, board`portC, board`portD, board`portE, board`portF, board`latched
      modifies board`ledState, board`buzzerState
      modifies this`samples, this`price, this`change, this`line2, this`alarmStopped
      ensures Valid()
      ensures index == 0 && frames == old(frames) + [Frame(old(buffer[..index]), c)]
      ensures LineHandled(CString(old(buffer[..index])), outcome)
    {
      buffer[index] := '\0';
      CStringAtNul(buffer[..], index);
      assert buffer[..][..index] == old(buffer[..index]);
      outcome := HandleLine(CString(buffer[..]));
      Restart(old(buffer[..index]), c);
    }

    /** The end of a completed line: `index` back to 0, and the line
        recorded with the byte that completed it. */
    method Restart(ghost line: string, c: char)
      requires Valid()
      modifies this`index, this`frames
      ensures Valid()
      ensures index == 0 && frames == old(frames) + [Frame(line, c)]
    {
      frames := frames + [Frame(line, c)];
      index := 0;
    }

    /** One byte from the UART: a line feed, a carriage return or a full
        buffer completes the line, which is NUL-terminated, handled and
        restarted; any other byte is stored. */
    method Receive(c: char) returns (outcome: Option<Outcome>)
      requires Valid()
      modifies buffer, this`index, this`frames
      modifies board`portA, board`portC, board`portD, board`portE, board`portF, board`latched
      modifies board`ledState, board`buzzerState
      modifies this`samples, this`price, this`change, this`line2, this`alarmStopped
      ensures Valid()
      ensures Completes(old(index), c) ==>
        && index == 0
        && frames == old(frames) + [Frame(old(buffer[..index]), c)]
        && outcome.Some? && LineHandled(CString(old(buffer[..index])), outcome.value)
      ensures !Completes(old(index), c) ==>
        && index == old(index) + 1
        && buffer[..index] == old(buffer[..index]) + [c]
        && frames == old(frames) && outcome == None
        && unchanged(board)
        && samples == old(samples) && price == old(price) && change == old(change)
        && line2 == old(line2) && alarmStopped == old(alarmStopped)
    {
      if c == '\n' || c == '\r' || index >= BufferSize - 1 {
        var handled := CompleteLine(c);
        outcome := Some(handled);
      } else {
        buffer[index] := c;
        index := index + 1;
        outcome := None;
      }
    }

    /** One pass of the main loop: a byte arrives and is received. What
        the loop needs of it: a byte that completes the line adds it as a
        frame and yields the outcome decided for its text with the samples
        it left; any other byte is appended to the pending ones. */
    method Consume(c: char) returns (last: Option<Outcome>)
      requires Valid()
      modifies buffer, this`index, this`frames
      modifies board`portA, board`portC, board`portD, board`portE, board`portF, board`latched
      modifies board`ledState, board`buzzerState
      modifies this`samples, this`price, this`change, this`line2, this`alarmStopped
      ensures Valid()
      ensures Completes(old(index), c) ==>
        && buffer[..index] == [] && frames == old(frames) + [Frame(old(buffer[..index]), c)]
        && last == Some(Decide(CString(old(buffer[..index])), threshold, old(samples)))
        && samples == Left(last.value, old(samples))
      ensures !Completes(old(index), c) ==>
        && buffer[..index] == old(buffer[..index]) + [c] && frames == old(frames)
        && last == None && samples == old(samples)
    {
      last := Receive(c);
    }

    /** The main loop over a finite byte stream. It stops early only when
        a line's alarm is left running because the samples ran out. */
    method MainLoop(input: string) returns (consumed: nat, last: Option<Outcome>, ghost outcomes: seq<Outcome>)
      requires Valid()
      modifies buffer, this`index, this`frames
      modifies board`portA, board`portC, board`portD, board`portE, board`portF, board`latched
      modifies board`ledState, board`buzzerState
      modifies this`samples, this`price, this`change, this`line2, this`alarmStopped
      ensures Valid()
      ensures consumed <= |input|
      ensures threshold == old(threshold)
      ensures var fed := Feed(old(buffer[..index]), input[..consumed]);
        && frames == old(frames) + fed.frames && buffer[..index] == fed.pending
        && Judged(fed.frames, threshold, old(samples)) == Judgement(outcomes, samples)
      ensures consumed < |input| ==> last.Some? && last.value.AlarmPending?
    {
      ghost var start := buffer[..index];
      consumed, last, outcomes := 0, None, [];
      while consumed < |input| && !(last.Some? && last.value.AlarmPending?)
        invariant Valid()
        invariant consumed <= |input|
        invariant frames == old(frames) + Feed(start, input[..consumed]).frames
        invariant buffer[..index] == Feed(start, input[..consumed]).pending
        invariant Judged(Feed(start, input[..consumed]).frames, threshold, old(samples)) == Judgement(outcomes, samples)
      {
        var c := input[consumed];
        last, outcomes := Step(start, old(frames), old(samples), input[..consumed], c, outcomes);
        assert input[..consumed] + [c] == input[..consumed + 1];
        consumed := consumed + 1;
      }
    }

    /** One pass of the main loop, over the bytes `seen` since the loop
        began with the pending bytes `start`, the frames `earlier` and the
        samples `initial`: the frames, the pending bytes, the outcomes and
        the samples left stay `Feed` and `Judged` of the bytes seen, now
        with `c` after them. */
    method Step(ghost start: string, ghost earlier: seq<Frame>, ghost initial: seq<bool>, ghost seen: string,
                c: char, ghost outcomes: seq<Outcome>)
      returns (last: Option<Outcome>, ghost judged: seq<Outcome>)
      requires Valid() && |start| < BufferSize
      requires frames == earlier + Feed(start, seen).frames && buffer[..index] == Feed(start, seen).pending
      requires Judged(Feed(start, seen).frames, threshold, initial) == Judgement(outcomes, samples)
      modifies buffer, this`index, this`frames
      modifies board`portA, board`portC, board`portD, board`portE, board`portF, board`latched
      modifies board`ledState, board`buzzerState
      modifies this`samples, this`price, this`change, this`line2, this`alarmStopped
      ensures Valid()
      ensures frames == earlier + Feed(start, seen + [c]).frames && buffer[..index] == Feed(start, seen + [c]).pending
      ensures Judged(Feed(start, seen + [c]).frames, threshold, initial) == Judgement(judged, samples)
      ensures last.Some? ==> judged == outcomes + [last.value]
    {
      ghost var r := Feed(start, seen);
      FeedSnoc(start, seen, c);
      if Completes(index, c) {
        assert Feed(start, seen + [c]) == Fed(r.frames + [Frame(r.pending, c)], []);
        JudgedSnoc(r.frames, Frame(r.pending, c), threshold, initial);
        last := Consume(c);
        judged := outcomes + [last.value];
      } else {
        assert Feed(start, seen + [c]) == Fed(r.frames, r.pending + [c]);
        last := Consume(c);
        judged := outcomes;
      }
    }
  }

  /** `main` from reset: the peripherals initialised, the threshold chosen
      with the button, then the main loop over the UART input. Every
      completed line is judged against the threshold the selection chose,
      with the button samples the selection left. */
  method Start(fmt: Printf, samples: seq<bool>, input: string)
    returns (polls: nat, consumed: nat, last: Option<Outcome>, ghost outcomes: seq<Outcome>)
    ensures Elapsed(samples, polls) == Window
    ensures consumed <= |input|
    ensures var chosen := Threshold(Presses(samples, polls) % Choices) as real;
      Judged(Feed([], input[..consumed]).frames, chosen, Drop(samples, polls)).outcomes == outcomes
    ensures consumed < |input| ==> last.Some? && last.value.AlarmPending?
  {
    var board := new Board(0, 0, 0, 0, 0);
    var t := new Ticker(board, fmt, samples);
    polls := t.SelectThreshold();
    consumed, last, outcomes := t.MainLoop(input);
  }
}
