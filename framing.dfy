/** How the main loop cuts the UART byte stream into lines: bytes are
    stored in a 128-byte buffer until a line feed, a carriage return or a
    full buffer completes the line; the completing byte is not stored. */
module Framing {

  /** `BUFFER_SIZE`: the size of the receive buffer. */
  const BufferSize: nat := 128

  /** The byte `c`, arriving with `index` bytes stored, completes the
      line: it is a line feed or a carriage return, or only the slot for
      the terminating NUL is left. */
  predicate Completes(index: nat, c: char)
  {
    c == '\n' || c == '\r' || index >= BufferSize - 1
  }

  predicate IsTerminator(c: char)
  {
    c == '\n' || c == '\r'
  }

  predicate NoTerminator(s: string)
  {
    forall i :: 0 <= i < |s| ==> !IsTerminator(s[i])
  }

  /** A completed line: the bytes stored for it and the byte that
      completed it. */
  datatype Frame = Frame(text: string, cause: char)

  /** The lines a stream completes, and the bytes still pending in the
      buffer after it. */
  datatype Fed = Fed(frames: seq<Frame>, pending: string)

  /** Feeding `input` to a buffer that holds `pending`. */
  function Feed(pending: string, input: string): (r: Fed)
    requires |pending| < BufferSize
    ensures |r.pending| < BufferSize
    decreases |input|
  {
    if input == [] then Fed([], pending)
    else if Completes(|pending|, input[0]) then
      var rest := Feed([], input[1..]);
      Fed([Frame(pending, input[0])] + rest.frames, rest.pending)
    else Feed(pending + [input[0]], input[1..])
  }

  /** The bytes of some frames, each followed by the byte completing it. */
  function Flatten(frames: seq<Frame>): (s: string)
    ensures |frames| > 0 ==> |s| > 0
  {
    if frames == [] then [] else frames[0].text + [frames[0].cause] + Flatten(frames[1..])
  }

  lemma FlattenCons(f: Frame, frames: seq<Frame>)
    ensures Flatten([f] + frames) == f.text + [f.cause] + Flatten(frames)
  {
    assert ([f] + frames)[1..] == frames;
  }

  /** No byte is lost or reordered: the frames, their completing bytes and
      what is left pending are the pending bytes followed by the input. */
  lemma {:induction false} FeedLossless(pending: string, input: string)
    requires |pending| < BufferSize
    ensures Flatten(Feed(pending, input).frames) + Feed(pending, input).pending == pending + input
    decreases |input|, 1
  {
    if input == [] {
    } else if Completes(|pending|, input[0]) {
      CutLossless(pending, input);
    } else {
      FeedLossless(pending + [input[0]], input[1..]);
      assert pending + [input[0]] + input[1..] == pending + input;
    }
  }

  /** The step of `FeedLossless` where the first byte completes the line. */
  lemma {:induction false} CutLossless(pending: string, input: string)
    requires |pending| < BufferSize && input != [] && Completes(|pending|, input[0])
    ensures Flatten(Feed(pending, input).frames) + Feed(pending, input).pending == pending + input
    decreases |input|, 0
  {
    var rest := Feed([], input[1..]);
    var frames := [Frame(pending, input[0])] + rest.frames;
    assert Feed(pending, input) == Fed(frames, rest.pending);
    var a, b := pending + [input[0]], Flatten(rest.frames);
    calc {
      Flatten(frames) + rest.pending;
      == { FlattenCons(Frame(pending, input[0]), rest.frames); }
      a + b + rest.pending;
      == { assert a + b + rest.pending == a + (b + rest.pending); }
      a + (b + rest.pending);
      == { FeedLossless([], input[1..]); assert [] + input[1..] == input[1..]; }
      a + input[1..];
      == { assert [input[0]] + input[1..] == input; }
      pending + input;
    }
  }

  /** Every frame fits the buffer with its terminating NUL, holds no line
      terminator, and was completed for a reason: its byte is a
      terminator or the buffer was full. */
  lemma {:induction false} FeedBounds(pending: string, input: string)
    requires |pending| < BufferSize && NoTerminator(pending)
    ensures var r := Feed(pending, input);
      && NoTerminator(r.pending)
      && forall i :: 0 <= i < |r.frames| ==>
           |r.frames[i].text| < BufferSize && NoTerminator(r.frames[i].text)
           && Completes(|r.frames[i].text|, r.frames[i].cause)
    decreases |input|
  {
    if input == [] {
    } else if Completes(|pending|, input[0]) {
      FeedBounds([], input[1..]);
      var rest := Feed([], input[1..]);
      var frames := [Frame(pending, input[0])] + rest.frames;
      forall i | 0 <= i < |frames|
        ensures |frames[i].text| < BufferSize && NoTerminator(frames[i].text)
        ensures Completes(|frames[i].text|, frames[i].cause)
      {
        if i > 0 {
          assert frames[i] == rest.frames[i - 1];
        }
      }
    } else {
      FeedBounds(pending + [input[0]], input[1..]);
    }
  }

  /** Feeding one more byte: the frames so far are kept, and the byte
      either completes the pending line or is stored after it. */
  lemma {:induction false} FeedSnoc(pending: string, input: string, c: char)
    requires |pending| < BufferSize
    ensures var r := Feed(pending, input);
      Feed(pending, input + [c])
      == if Completes(|r.pending|, c) then Fed(r.frames + [Frame(r.pending, c)], [])
         else Fed(r.frames, r.pending + [c])
    decreases |input|
  {
    if input == [] {
      assert input + [c] == [c];
      assert [c][1..] == [];
      assert [Frame(pending, c)] + [] == [] + [Frame(pending, c)];
    } else {
      assert (input + [c])[0] == input[0] && (input + [c])[1..] == input[1..] + [c];
      if Completes(|pending|, input[0]) {
        FeedSnoc([], input[1..], c);
        var rest := Feed([], input[1..]);
        var head := [Frame(pending, input[0])];
        assert head + (rest.frames + [Frame(rest.pending, c)]) == head + rest.frames + [Frame(rest.pending, c)];
      } else {
        FeedSnoc(pending + [input[0]], input[1..], c);
      }
    }
  }

  /** Bytes that neither terminate nor fill the buffer are only stored. */
  lemma {:induction false} FeedStores(pending: string, input: string)
    requires |pending| + |input| < BufferSize && NoTerminator(input)
    ensures Feed(pending, input) == Fed([], pending + input)
    decreases |input|
  {
    if input != [] {
      FeedStores(pending + [input[0]], input[1..]);
      assert pending + [input[0]] + input[1..] == pending + input;
    }
  }

  /** Storing `text` from an empty buffer, then the byte `c` that
      completes it. */
  lemma StoredThenCompleted(text: string, c: char)
    requires |text| < BufferSize && NoTerminator(text) && Completes(|text|, c)
    ensures Feed([], text + [c]) == Fed([Frame(text, c)], [])
  {
    FeedStores([], text);
    assert [] + text == text;
    FeedSnoc([], text, c);
    assert [] + [Frame(text, c)] == [Frame(text, c)];
  }

  /** A line of at most 127 bytes ended by a line feed is one frame. */
  lemma OneLine(line: string)
    requires |line| < BufferSize && NoTerminator(line)
    ensures Feed([], line + "\n") == Fed([Frame(line, '\n')], [])
  {
    StoredThenCompleted(line, '\n');
  }

  /** A line ended by CR LF is two frames: the line, completed by the
      carriage return, and an empty one completed by the line feed. */
  lemma CrLfLine(line: string)
    requires |line| < BufferSize && NoTerminator(line)
    ensures Feed([], line + "\r\n") == Fed([Frame(line, '\r'), Frame([], '\n')], [])
  {
    var first := line + ['\r'];
    StoredThenCompleted(line, '\r');
    FeedSnoc([], first, '\n');
    assert first + ['\n'] == line + "\r\n";
    assert [Frame(line, '\r')] + [Frame([], '\n')] == [Frame(line, '\r'), Frame([], '\n')];
  }

  /** 128 bytes without a terminator: the first 127 fill the buffer and
      are cut as a line by the 128th, which is dropped. */
  lemma Overflow(input: string)
    requires |input| == BufferSize && NoTerminator(input)
    ensures Feed([], input) == Fed([Frame(input[..BufferSize - 1], input[BufferSize - 1])], [])
  {
    var full := input[..BufferSize - 1];
    assert NoTerminator(full) by {
      forall i | 0 <= i < |full| ensures !IsTerminator(full[i]) {
        assert full[i] == input[i];
      }
    }
    StoredThenCompleted(full, input[BufferSize - 1]);
    assert full + [input[BufferSize - 1]] == input;
  }
}
