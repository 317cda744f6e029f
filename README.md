# Serial BTC price ticker — Dafny model

This project models the firmware of a TM4C123 board that shows the Bitcoin
price on a 16x2 HD44780 character LCD. At start-up the user picks an alert
threshold with a push button. Then the board reads quote lines such as
`BTC Price: $67321.45, 24h Change: -1.25%` from UART1, byte by byte. For
each line it shows the price and the 24-hour change, and colours an RGB LED
by the sign of the change. While the price is below the threshold, it
flashes the LED yellow and toggles a buzzer until the button is pressed.

The model has eight modules:

- `Hd44780` (hd44780.dfy) holds the LCD side of the bus. Bytes are split
  into two 4-bit transfers and reassembled by the controller. The "set
  DDRAM address" instruction is here. So is what clear-display, cursor and
  data transfers do to the controller's display memory, which lets the
  model state what each screen shows.
- `Options` (options.dfy) holds the optional value shared by the scanner
  and the main loop.
- `Registers` (registers.dfy) names the bit fields of the GPIO DATA
  registers: the LED channels PD0-PD1, the buzzer PF1, the button PF4 and
  the bits of ports D and F that none of them owns.
- `Tracker` (tracker.dfy) models the drivers of `tracker.c`. The class
  `Board` holds the DATA registers of ports A, C, D, E and F and the two
  `static` toggle states (`led_state`, `buzzer_state`). It also keeps a
  ghost log of every nibble the LCD latches. Each read-modify-write is a
  function whose contract names the bits it sets and keeps the others.
- `Scan` (scan.dfy) models `sscanf` for the one format `main` uses, as a
  matcher over the directives of `"BTC Price: $%f, 24h Change: %f%%"`. The
  directives are ordinary characters, white space, `%f` and `%%`.
- `Framing` (framing.dfy) describes, as a function, how `main` cuts the
  byte stream into lines.
- `Selector` (selector.dfy) describes the threshold-selection loop as
  functions of the button samples.
- `Ticker` (ticker.dfy) models `main` imperatively. The class `Ticker`
  owns `uart_buffer` (an `array<char>` of `BUFFER_SIZE` = 128), `index`,
  `price`, `change`, `line2`, the global `local_threshold` and
  `alarmStopped`, and the button samples. Its methods are proved against
  the `Framing`, `Selector` and `Scan` functions and the screens of
  `Hd44780`. `SignalledFrom` states what a line leaves on ports D and F
  and in the two toggles, and `Start` runs `main` from reset.

The button is a finite sequence of samples, one per poll. The UART input is
a finite string. The three `sprintf` calls are a `Printf` parameter.

## Model

| member | source | states |
|---|---|---|
| `Hd44780.HighNibble` | tracker.c:52-64 | the first nibble of a byte, times 16, plus the second nibble rebuilds the byte |
| `Hd44780.LowNibble` | tracker.c:46-50 | `nibble & 0x0F` keeps a value below 16 unchanged |
| `Hd44780.Split` | tracker.c:52-64 | a byte goes out as two nibble transfers, both with RS high exactly for data |
| `Hd44780.JoinSplitAll` | tracker.c:52-64 | the controller reassembles from the nibble pairs exactly the bytes the driver sent |
| `Hd44780.SetCursorCommand` | tracker.c:66-71 | the command is in 0x80-0x8F or 0xC0-0xCF, carries the column modulo 16, and is below 0xC0 exactly for row 0 |
| `Hd44780.SetCursorAddress` | tracker.c:66-71 | executing the cursor command loads the address counter with the row base (0x00 or 0x40) plus the column modulo 16 |
| `Hd44780.WriteWithinRow` | tracker.c:96-100 | data bytes that fit in the row are stored at the counter, in order, and the counter ends just after them |
| `Hd44780.OneRowScreenShows` | main.c:114-116 | clear, cursor home and a text leave that text, padded with blanks, on row 0 and a blank row 1, whatever the display held |
| `Hd44780.TwoRowScreenShows` | main.c:105-109 | clear, row 0 text, cursor to row 1 and row 1 text leave each text, padded, on its row, whatever the display held |
| `Tracker.ClearRs` | tracker.c:53 | RS (PE0) is low and every other bit of port E is kept |
| `Tracker.SetRs` | tracker.c:60 | RS (PE0) is high and every other bit of port E is kept |
| `Tracker.PutNibble` | tracker.c:48 | PA2-PA5 carry the low four bits of the argument and every other bit of port A is kept |
| `Tracker.PutNibbleTwice` | tracker.c:46-50 | only the last nibble written stays on the bus |
| `Tracker.Pulsed` | tracker.c:39-44 | after the pulse all of PC0-PC7 are zero, not only PC6, and the higher bits of port C are kept |
| `Tracker.SetLeds` | tracker.c:159-173 | PD0-PD1 take the given bits and every other bit of port D is kept |
| `Tracker.LedsOff` | tracker.c:164 | both LED channels are off and every other bit of port D is kept |
| `Tracker.BuzzerOn` | tracker.c:194 | PF1 is high and every other bit of port F is kept |
| `Tracker.Silenced` | tracker.c:199-201 | PF1 is low and every other bit of port F is kept |
| `Tracker.SilencedTwice` | tracker.c:199-201 | `Buzzer_Off` is idempotent |
| `Tracker.LedBits` | tracker.c:156-165 | 0b10 exactly when change > 0.001, 0b01 exactly when change < -0.001, 0b00 exactly inside the dead band |
| `Tracker.CString` | tracker.c:96-100 | the text `LCD_Display_String` sends is a prefix of the string, holds no NUL, and stops at the first NUL |
| `Tracker.CStringAtNul` | main.c:72 | writing the terminator at `index` makes the line's C string exactly the bytes stored before it |
| `Tracker.CStringOfText` | main.c:31 | a text without a NUL is sent whole |
| `Tracker.Board.constructor` | tracker.c:148-189 | after initialisation the LED channels and the buzzer are off, both toggles start at 0, and nothing has been latched |
| `Tracker.Board.PulseEnable` | tracker.c:39-44 | port C becomes `Pulsed` of its old value and the LCD latches RS and the bus nibble |
| `Tracker.Board.WriteFourBits` | tracker.c:46-50 | port A gets the nibble on PA2-PA5, then one pulse latches that nibble with the current RS |
| `Tracker.Board.SendCommand` | tracker.c:52-57 | RS low, then the high and low nibble of the command are latched in that order; the pins end as `CommandPins` |
| `Tracker.Board.SendData` | tracker.c:59-64 | RS high, then the high and low nibble of the byte are latched in that order; the pins end as `DataPins` |
| `Tracker.Board.SetCursor` | tracker.c:66-71 | exactly one "set DDRAM address" instruction for (col, row) is latched |
| `Tracker.Board.Clear` | tracker.c:91-94 | exactly one clear-display instruction is latched |
| `Tracker.Board.DisplayString` | tracker.c:96-100 | one data transfer per character before the first NUL, in order, and nothing else; the pins end as after the last transfer |
| `Tracker.Board.SetNormal` | tracker.c:156-165 | port D becomes `SetLeds(old, LedBits(change))` |
| `Tracker.Board.LedOff` | main.c:117 | port D becomes `LedsOff` of its old value |
| `Tracker.Board.FlashYellow` | tracker.c:167-176 | `led_state` flips; PD0-PD1 become 0b11 when it turns on and 0b00 when it turns off |
| `Tracker.Board.BuzzerToggle` | tracker.c:188-197 | `buzzer_state` flips; PF1 follows it, and no other bit moves |
| `Tracker.Board.BuzzerOff` | tracker.c:199-201 | only PF1 is cleared; `buzzer_state` is untouched |
| `Tracker.Board.PushButtonPressed` | tracker.c:141-144 | pressed exactly when PF4 is low (active low) |
| `Tracker.ButtonLevel` | tracker.c:141-144 | the button's level on PF4 reads back as pressed exactly when it is pressed, and no other bit of port F moves |
| `Scan.SkipSpace` | main.c:74 | a white-space directive skips exactly the leading white space |
| `Scan.DigitRun` | main.c:74 | the longest run of digits at the start of the input |
| `Scan.ReadDecimalPrefix` | main.c:74 | what `%f` reads is a well-formed number at the start of the input, and no longer number is there |
| `Scan.ReadRendered` | main.c:74 | `%f` reads back exactly the number written, when what follows is neither a digit nor a point |
| `Scan.ReadSign` | main.c:74 | the optional sign read and the text after it rebuild the input |
| `Scan.RunLiterals` | main.c:74 | ordinary characters of the format match the same characters of the input, one by one |
| `Scan.RunBlank` | main.c:74 | a white-space directive matches a single blank not followed by more white space, and matching goes on after it |
| `Scan.RunRendered` | main.c:74 | `%f` over a rendered number assigns its value and goes on with the text after it |
| `Scan.RunPercent` | main.c:74 | once a value is assigned, `%%` cannot change the result: it is the count of values whatever follows |
| `Scan.InputFailure` | main.c:74 | running out of input gives EOF exactly when nothing was assigned |
| `Scan.Run` | main.c:74 | conversions are only ever added; EOF comes with no values; otherwise the count is the number of values assigned |
| `Scan.ScanQuote` | main.c:74 | the result is EOF with no values, or a count equal to the number of values assigned |
| `Scan.QuoteRoundTrip` | main.c:74 | a line of the expected shape scans to count 2 with the price and the change, whatever follows the change unless it continues the number |
| `Scan.PercentSignNotChecked` | main.c:74 | a line without the trailing `%` scans to count 2 like one with it |
| `Scan.PriceOnly` | main.c:74 | a price not followed by the change text gives count 1, with the price assigned |
| `Scan.EmptyLineIsEof` | main.c:74 | an empty line gives EOF |
| `Scan.WrongLabel` | main.c:74 | a line that does not start with `B` assigns nothing and gives 0 |
| `Scan.ReadDecimal` | main.c:74 | `%f` fails exactly when, after the optional sign, there is neither a digit nor a point followed by a digit; what it reads is well formed and carries the sign read |
| `Scan.ScanReal` | main.c:74 | a successful `%f` consumes at least one character and no more than the input |
| `Scan.SampleQuote` | main.c:73-74 | `BTC Price: $67321.45, 24h Change: -1.25%` scans to 2, 67321.45 and -1.25 |
| `Framing.Feed` | main.c:69-123 | after any input fewer than 128 bytes are pending, so `uart_buffer[index]` is always in bounds |
| `Framing.FeedLossless` | main.c:71-72 | the frames, each followed by the byte that completed it, then the pending bytes, are exactly the input: nothing is lost or reordered |
| `Framing.FeedBounds` | main.c:71-72 | every frame has at most 127 bytes and no CR or LF, and was completed by CR, LF or a full buffer |
| `Framing.FeedSnoc` | main.c:71-122 | one more byte either completes the pending line, which becomes a frame and empties the buffer, or is appended to it |
| `Framing.FeedStores` | main.c:121-122 | bytes that are not terminators and do not fill the buffer are only stored |
| `Framing.OneLine` | main.c:71 | a line of at most 127 bytes ended by LF is one frame |
| `Framing.CrLfLine` | main.c:71 | a line ended by CR LF gives two frames, the second one empty |
| `Framing.Overflow` | main.c:71-72 | 128 bytes without a terminator give one frame of the first 127; the 128th is dropped |
| `Selector.Threshold` | main.c:14 | every threshold is a multiple of 10000 between 10000 and 120000 |
| `Selector.ThresholdTable` | main.c:14-15 | the table has 12 entries and entry i is 10000 * (i + 1) |
| `Selector.Index` | main.c:44 | `adjustable_index` stays below 12 |
| `Selector.ElapsedTicks` | main.c:41-55 | `elapsed` is a multiple of 100, at most 100 per poll, and at least 100 once a poll was made |
| `Selector.PollStep` | main.c:42-54 | a press resets `elapsed` and the same poll then adds 100; a press advances the index modulo 12 |
| `Selector.IndexCountsPresses` | main.c:44 | after k presses the index is k modulo 12 |
| `Selector.ElapsedQuiet` | main.c:41-55 | `elapsed` has reached k polls' worth exactly when the last k - 1 polls were all released |
| `Selector.WindowFull` | main.c:41-55 | `elapsed` reaches 4000 at poll n exactly when poll n - 40 was a press (or n is 40) and the 39 polls after it were released |
| `Selector.ElapsedWithinWindow` | main.c:53-54 | from below 4000, one poll never passes 4000 |
| `Selector.SelectionEnds` | main.c:41-55 | forty polls past the last sample always end the selection |
| `Ticker.TruncateToInt` | main.c:76 | `(int)price` discards the fraction towards zero |
| `Ticker.CDiv` | main.c:77 | C's `/` by a positive divisor truncates towards zero: the quotient times the divisor lies between 0 and the dividend, less than one divisor away from it |
| `Ticker.CRem` | main.c:78 | C's `%`: quotient times divisor plus remainder is the dividend, and the remainder is smaller than the divisor and has the dividend's sign |
| `Ticker.PriceSplit` | main.c:76-78 | thousands * 1000 + remainder is the price; for a price that is not negative the remainder is in [0, 999] |
| `Ticker.FirstPress` | main.c:85 | the first pressed sample, with none before it, or none at all |
| `Ticker.Decide` | main.c:74-119 | a line shows "Loading..." exactly when `sscanf` does not return 2, and is shown normally exactly when it returns 2 and the price read reaches the threshold |
| `Ticker.Verdict` | main.c:83-103 | a parsed price is shown normally exactly when it reaches the threshold; otherwise the alarm runs one round per released sample and stops at the first press, or runs through every sample when there is none |
| `Ticker.Judged` | main.c:68-124 | one outcome per completed line, each decided against the same threshold with the samples the lines before it left |
| `Ticker.AssignedByCount` | main.c:74 | what `sscanf` stores: both values when it returns 2, only the price when it returns 1, neither otherwise, the old values being kept |
| `Ticker.QuoteDecides` | main.c:74-103 | a well-formed quote line is never "Loading...", and is shown normally exactly when its price reaches the threshold |
| `Ticker.IncompleteLinesLoad` | main.c:74-119 | a line with only a price, and a line without the label, show "Loading..." |
| `Ticker.PriceTexts` | main.c:76-88 | the alarm's price text and `line2` are formatted from the same thousands and remainder, which rebuild `(int)price`; for a price that is not negative the remainder is in [0, 999] |
| `Ticker.QuoteScreenShows` | main.c:105-109 | the quote screen leaves "BTC Price:" on row 0 and the text of `line2` on row 1 |
| `Ticker.Ticker.constructor` | main.c:8-19 | `index`, `price`, `change` and `line2` start at zero or empty, over a fresh `uart_buffer`; the globals `local_threshold` and `alarmStopped` start at 0, as tracker.c:6-7 defines them |
| `Ticker.Ticker.Poll` | tracker.c:141-144 | a poll reads the next sample (released past the end) and consumes it |
| `Ticker.Ticker.ShowRow` | main.c:48-49 | the cursor goes to the start of the row and the text up to its NUL is written there |
| `Ticker.Ticker.ShowText` | main.c:30-31 | the cursor goes to the start of the row and the whole text is written there |
| `Ticker.Ticker.ShowThreshold` | main.c:46-49 | the cursor goes to row 1 and the threshold text is written there |
| `Ticker.Ticker.ShowOneRow` | main.c:61-63 | clear, cursor home, then the text |
| `Ticker.Ticker.ShowLabelled` | main.c:105-109 | clear, the caption on row 0, the text up to its NUL on row 1 |
| `Ticker.Ticker.ShowNotice` | main.c:86-92 | clear, the formatted price on row 0, the notice on row 1 |
| `Ticker.Ticker.Saved` | main.c:61-65 | "Threshold Saved" alone on the display, then a clear |
| `Ticker.Ticker.Adjust` | main.c:42-54 | one poll: the samples, `elapsed`, the index and the redraw follow `Selector` for that poll |
| `Ticker.Ticker.AdjustThreshold` | main.c:41-55 | the loop stops exactly when `elapsed` reaches 4000; until then every poll left it below 4000; the index and every redraw follow the presses |
| `Ticker.Ticker.SelectThreshold` | main.c:28-65 | the committed threshold is entry (presses mod 12) of the table; the display gets the prompt, the first threshold, the redraws and the saved notice, in order |
| `Ticker.Ticker.AlarmSignals` | main.c:93-94 | both toggles flip; port D becomes `SetLeds(old, 0b11)` or `LedsOff(old)` and port F `BuzzerOn(old)` or `Silenced(old)`, as the new states say |
| `Ticker.Ticker.AlarmRound` | main.c:86-94 | one alarm screen, then both toggles flip, with ports D and F as in `AlarmSignals` |
| `Ticker.Ticker.AlarmStep` | main.c:85-96 | a press ends the loop and changes nothing but PF4, which reads pressed; a release is followed by one alarm round, with PF4 released; the bits of ports D and F that neither the LED, the buzzer nor the button owns are kept |
| `Ticker.Ticker.AlarmLoop` | main.c:85-96 | the alarm runs exactly until the first press, one screen per round; each toggle flipped once per round; after a round the LED and the buzzer follow the toggles; PF4 reads pressed exactly when a press ended the loop; other bits kept |
| `Ticker.Ticker.RunAlarm` | main.c:83-99 | after a press `alarmStopped` is 1, the samples up to the press are consumed and the buzzer is off; one alarm screen per round; `led_state` and `buzzer_state` flip exactly when the rounds are odd, and the LED follows `led_state` after a round; ports D and F untouched when no round ran; other bits kept |
| `Ticker.Ticker.ShowQuote` | main.c:105-111 | the quote screen, the LED from the change, the buzzer off |
| `Ticker.Ticker.ShowLoading` | main.c:114-118 | "Loading...", both LED channels off, the buzzer off |
| `Ticker.QuoteSignals` | main.c:110-111 | the quote's LED and buzzer writes leave the signals of a normal line: the LED from the change, the buzzer off, PF4 and the other bits kept |
| `Ticker.LoadingSignals` | main.c:117-118 | the writes of "Loading..." leave both LED channels and the buzzer off, PF4 and the other bits kept |
| `Ticker.PendingSignals` | main.c:85-96 | an alarm cut short leaves the signals of its last round, or untouched ports when it ran none |
| `Ticker.AlarmQuoteSignals` | main.c:85-111 | an alarm ended by a press, then the quote, leaves the LED from the change, the buzzer off, PF4 pressed and the other bits kept |
| `Ticker.Ticker.QuoteAfterPress` | main.c:97-111 | after a press the quote screen is shown and ports D and F end as `SignalledFrom` states for `Alarm(rounds)` |
| `Ticker.Ticker.QuoteAtThreshold` | main.c:100-111 | a price at or above the threshold clears `alarmStopped`, shows the quote screen and leaves ports D and F as `SignalledFrom` states for `Normal` |
| `Ticker.Ticker.AlarmThenQuote` | main.c:83-111 | a price below the threshold runs the alarm until the first press, then shows the quote; the screens, the samples left and `alarmStopped` follow the outcome; both toggles and all of ports D and F as `SignalledFrom` states |
| `Ticker.Ticker.HandleQuote` | main.c:76-111 | the outcome is `Verdict`; the display, the samples left and `alarmStopped` follow the outcome; both toggles flip exactly when the alarm ran an odd number of rounds; ports D and F as `SignalledFrom` states, so every shown quote ends with the LED set and the buzzer off |
| `Ticker.Ticker.HandleLine` | main.c:74-119 | the outcome is `Decide` of the line; `price` and `change` hold what `sscanf` assigned, even on a failed line; `line2` is reformatted for a quote and kept on "Loading..."; the screens, the samples left, `alarmStopped`, both toggles and ports D and F follow the outcome (`Handled`); an unparsed line ends on "Loading..." with LED and buzzer off |
| `Ticker.Ticker.QuoteLine` | main.c:74-111 | a line `sscanf` matched in full, its two values stored, is handled as `Handled` states from the state before the line |
| `Ticker.Ticker.FailedLine` | main.c:112-119 | a line `sscanf` did not match in full shows "Loading...", turns the LED and buzzer off, keeps `line2`, the samples and `alarmStopped`, and flips neither toggle (`Handled` with outcome `Loading`) |
| `Ticker.Ticker.CompleteLine` | main.c:71-120 | the buffer's text before the terminator is handled, with everything `HandleLine` states about it, recorded as a frame, and `index` is 0 again |
| `Ticker.Ticker.Restart` | main.c:120 | `index` is 0 again and the completed line is recorded as a frame |
| `Ticker.Ticker.Receive` | main.c:69-123 | a byte completes the line exactly when it is LF, CR or `index >= 127`, and the line is then handled as `HandleLine` states; otherwise it is stored at `index`, which grows by one, and the board, the samples, `price`, `change`, `line2` and `alarmStopped` are unchanged; the threshold is never written |
| `Ticker.Ticker.Consume` | main.c:69-123 | a completing byte adds one frame and yields `Decide` of its text with the samples it leaves; any other byte is appended to the pending ones |
| `Ticker.Ticker.Step` | main.c:69-123 | one more byte read extends the frames and pending bytes to `Framing.Feed` of the longer input, and the outcomes and samples left to `Judged` of its frames |
| `Ticker.Ticker.MainLoop` | main.c:68-124 | the frames handled and the bytes pending are exactly `Framing.Feed` of the input consumed; the outcomes and the samples left are `Judged` of those frames against the threshold chosen at start-up, which the loop never changes; the loop stops early only on a pending alarm |
| `Ticker.Start` | main.c:7-124 | from reset, the selection ends when `elapsed` reaches 4000; every completed line of the input consumed is judged against entry (presses mod 12) of the table, with the samples the selection left; the loop stops early only on a pending alarm |
| `Framing.BufferSize` | tracker.h:10 | the buffer size is 128 |

## Left out

- Peripheral initialisation (`LCD_Port_Init`, `LCD_Init`, `UART1_Init`, `PushButton_Init`, `RGB_LED_Init`, `Buzzer_Init`) is not modelled. This covers clock gating, pin muxing, the baud rate and busy-waits on hardware-ready bits. The `Board` constructor starts from the state these leave behind: LED channels and buzzer off, toggles at 0.
- `DelayMs` and the SysTick timing are not modelled. Each pause is a no-op; only the 100 ms per poll is counted, in `elapsed`.
- The blocking `UART1_Input_Character` becomes a finite input string. The unbounded `while (1)` becomes `MainLoop` over that string.
- The button is a finite sequence of samples, one per poll, and reads released past its end. `AlarmLoop` therefore stops when the samples run out (outcome `AlarmPending`), where the board would keep alarming until a press.
- `Ticker.Ticker.AlarmThenQuote`: on `AlarmPending`, `alarmStopped` and the quote screen are not reached. The contract states the state reached when the samples ran out.
- IEEE `float` is not modelled: price, change and threshold are reals. `(int)price` overflow for huge prices is not modelled.
- `%f` reads a sign, digits and an optional point with digits. Exponents, `inf`, `nan` and hexadecimal floats are not modelled.
- The `sprintf` calls are the `Printf` parameter, so their exact output text is not modelled. Neither is an overflow of the 17-byte `line2`, `threshStr` and `priceStr` buffers by long output.
- The fixed texts ("BUY NOW", "BTC Price:") reach `ShowNotice` and `ShowLabelled` as parameters with a no-NUL precondition. The constants themselves hold no NUL.
- Other HD44780 instructions (function set, entry mode, display control) are not modelled, since they are sent only by `LCD_Init`. Two-line mode with an incrementing address counter is assumed.
- The board's bus timing is not modelled. The LCD latches on each falling edge of E, which is recorded in `Board.latched`.
- `SystemCoreClock` (tracker.h:8) feeds only `DelayMs`, which is not modelled.

Behaviour of the code worth knowing (the comments at main.c:70 and main.c:73 suggest otherwise):

- A line ended by CR LF gives two completed lines: the text, then an empty one (`Framing.CrLfLine`). It does not give one line. The empty line scans to EOF (`Scan.EmptyLineIsEof`), so a quote ended by CR LF is at once replaced by "Loading...", with both LED channels and the buzzer off (main.c:113-118).
- A quote without the trailing `%` is accepted: `sscanf` returns 2 before `%%` is matched (`Scan.PercentSignNotChecked`).
- A line that fails after the price still writes `price`; only the display treats it as a failure (`Ticker.AssignedByCount`, `Scan.PriceOnly`).
