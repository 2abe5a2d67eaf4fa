/** The client's reader: newline-delimited frames put together from chunks of a byte stream. */
module FrameReader {
  import opened Bytes
  import opened JsText
  import opened Utf8

  const NEWLINE: Byte := 0x0A

  /** The position of the first newline, or -1. */
  function NewlineAt(s: Text): (nl: int)
    ensures -1 <= nl < |s|
    ensures nl < 0 ==> NEWLINE !in s
    ensures nl >= 0 ==> s[nl] == NEWLINE && NEWLINE !in s[..nl]
  {
    if s == [] then -1
    else if s[0] == NEWLINE then 0
    else
      var nl := NewlineAt(s[1..]);
      assert nl >= 0 ==> s[..nl + 1] == [s[0]] + s[1..][..nl];
      if nl < 0 then -1 else nl + 1
  }

  /** The terminated lines of a stream, and what follows the last newline. */
  function Lines(s: Text): seq<Text>
    decreases |s|
  {
    var nl := NewlineAt(s);
    if nl < 0 then [] else [s[..nl]] + Lines(s[nl + 1..])
  }

  function Rest(s: Text): Text
    decreases |s|
  {
    var nl := NewlineAt(s);
    if nl < 0 then s else Rest(s[nl + 1..])
  }

  /** What one line hands over: the line decoded and trimmed, unless that leaves nothing. */
  function Frame(decode: Text -> string, line: Text): seq<string> {
    var frame := Trim(decode(line));
    if frame == "" then [] else [frame]
  }

  /** The frames handed over for some lines: decoded, trimmed, and blank ones left out. */
  function Frames(decode: Text -> string, lines: seq<Text>): seq<string> {
    if lines == [] then [] else Frame(decode, lines[0]) + Frames(decode, lines[1..])
  }

  lemma LinesStep(decode: Text -> string, s: Text)
    requires NewlineAt(s) >= 0
    ensures var nl := NewlineAt(s);
      && Rest(s) == Rest(s[nl + 1..])
      && Frames(decode, Lines(s)) == Frame(decode, s[..nl]) + Frames(decode, Lines(s[nl + 1..]))
  {
    hide Frame;
    assert Lines(s)[1..] == Lines(s[NewlineAt(s) + 1..]);
  }

  lemma LinesNone(decode: Text -> string, s: Text)
    requires NewlineAt(s) < 0
    ensures Rest(s) == s && Frames(decode, Lines(s)) == []
  {
  }

  class FrameReader {
    const decode: Text -> string
    var buf: Text
    var frames: seq<string>

    constructor (decode: Text -> string)
      ensures buf == [] && frames == [] && this.decode == decode
    {
      this.decode, buf, frames := decode, [], [];
    }

    method OnData(chunk: Text)
      modifies this
      ensures frames == old(frames) + Frames(decode, Lines(old(buf) + chunk))
      ensures buf == Rest(old(buf) + chunk)
    {
      buf := buf + chunk;
      Drain();
    }

    method Drain()
      modifies this
      ensures frames == old(frames) + Frames(decode, Lines(old(buf)))
      ensures buf == Rest(old(buf)) && |buf| <= old(|buf|)
    {
      hide Lines;
      hide Rest;
      hide Frames;
      hide Trim;
      var nl := NewlineAt(buf);
      while nl >= 0
        invariant nl == NewlineAt(buf)
        invariant frames + Frames(decode, Lines(buf)) == old(frames) + Frames(decode, Lines(old(buf)))
        invariant Rest(buf) == Rest(old(buf)) && |buf| <= old(|buf|)
        decreases |buf|
      {
        LinesStep(decode, buf);
        var line := Trim(decode(buf[..nl]));
        buf := buf[nl + 1..];
        if line != "" {
          frames := frames + [line];
        }
        nl := NewlineAt(buf);
      }
      LinesNone(decode, buf);
    }
  }

  // ---------- what lines and rest are ----------

  function Terminated(lines: seq<Text>): Text {
    if lines == [] then [] else lines[0] + [NEWLINE] + Terminated(lines[1..])
  }

  ghost predicate Splits(s: Text, lines: seq<Text>, rest: Text) {
    && s == Terminated(lines) + rest
    && NEWLINE !in rest
    && forall i :: 0 <= i < |lines| ==> NEWLINE !in lines[i]
  }

  lemma SplitsCons(line: Text, more: Text, lines: seq<Text>, rest: Text)
    requires NEWLINE !in line && Splits(more, lines, rest)
    ensures Splits(line + [NEWLINE] + more, [line] + lines, rest)
  {
    var all := [line] + lines;
    assert all[1..] == lines;
    assert line + [NEWLINE] + more == Terminated(all) + rest;
    assert forall i :: 0 <= i < |all| ==> all[i] == if i == 0 then line else lines[i - 1];
  }

  lemma {:induction false} LinesSplit(s: Text)
    ensures Splits(s, Lines(s), Rest(s))
    decreases |s|
  {
    hide NewlineAt;
    var nl := NewlineAt(s);
    if nl < 0 {
      assert s == Terminated([]) + s;
    } else {
      hide Splits;
      var more := s[nl + 1..];
      LinesSplit(more);
      SplitsCons(s[..nl], more, Lines(more), Rest(more));
      assert s == s[..nl] + [NEWLINE] + more;
    }
  }

  lemma {:induction false} FirstNewline(line: Text, more: Text)
    requires NEWLINE !in line
    ensures NewlineAt(line + [NEWLINE] + more) == |line|
  {
    if line == [] {
    } else {
      FirstNewline(line[1..], more);
      assert (line + [NEWLINE] + more)[1..] == line[1..] + [NEWLINE] + more;
    }
  }

  /** There is one way to cut a stream at its newlines, and the reader's is it. */
  lemma {:induction false} SplitUnique(s: Text, lines: seq<Text>, rest: Text)
    ensures Splits(s, lines, rest) <==> lines == Lines(s) && rest == Rest(s)
  {
    LinesSplit(s);
    if Splits(s, lines, rest) {
      SplitIs(s, lines, rest);
    }
  }

  lemma {:induction false} SplitIs(s: Text, lines: seq<Text>, rest: Text)
    requires Splits(s, lines, rest)
    ensures lines == Lines(s) && rest == Rest(s)
    decreases |lines|
  {
    if lines == [] {
      assert s == rest && NewlineAt(s) < 0;
    } else {
      var more := Terminated(lines[1..]) + rest;
      assert s == lines[0] + [NEWLINE] + more;
      FirstNewline(lines[0], more);
      assert s[..|lines[0]|] == lines[0] && s[|lines[0]| + 1..] == more;
      SplitIs(more, lines[1..], rest);
    }
  }

  // ---------- chunking ----------

  lemma {:induction false} TerminatedConcat(a: seq<Text>, b: seq<Text>)
    ensures Terminated(a + b) == Terminated(a) + Terminated(b)
  {
    if a == [] {
      assert a + b == b;
    } else {
      TerminatedConcat(a[1..], b);
      assert (a + b)[1..] == a[1..] + b;
    }
  }

  lemma {:induction false} FramesConcat(decode: Text -> string, a: seq<Text>, b: seq<Text>)
    ensures Frames(decode, a + b) == Frames(decode, a) + Frames(decode, b)
  {
    hide Frame;
    if a == [] {
      assert a + b == b;
    } else {
      FramesConcat(decode, a[1..], b);
      assert (a + b)[1..] == a[1..] + b;
      assert Frames(decode, a) == Frame(decode, a[0]) + Frames(decode, a[1..]);
    }
  }

  /** Reading on from the rest of `a` is reading `a` and `b` at once. */
  lemma LinesConcat(a: Text, b: Text)
    ensures Lines(a + b) == Lines(a) + Lines(Rest(a) + b) && Rest(a + b) == Rest(Rest(a) + b)
  {
    hide Lines;
    hide Rest;
    hide Terminated;
    var mid := Rest(a) + b;
    LinesSplit(a);
    LinesSplit(mid);
    TerminatedConcat(Lines(a), Lines(mid));
    assert a + b == Terminated(Lines(a)) + mid;
    assert a + b == (Terminated(Lines(a)) + Terminated(Lines(mid))) + Rest(mid);
    SplitUnique(a + b, Lines(a) + Lines(mid), Rest(mid));
  }

  function Flat(chunks: seq<Text>): Text {
    if chunks == [] then [] else Flat(chunks[..|chunks| - 1]) + chunks[|chunks| - 1]
  }

  /** What the reader hands over and keeps, chunk by chunk, from a buffer that starts with `left`. */
  function Handed(left: Text, chunks: seq<Text>): (seq<Text>, Text) {
    if chunks == [] then (Lines(left), Rest(left))
    else
      var (lines, buf) := Handed(left, chunks[..|chunks| - 1]);
      var all := buf + chunks[|chunks| - 1];
      (lines + Lines(all), Rest(all))
  }

  /** However the stream is cut into chunks, the lines handed over and the rest kept are those of the whole. */
  lemma {:induction false} ChunkingDoesNotMatter(left: Text, chunks: seq<Text>)
    ensures Handed(left, chunks) == (Lines(left + Flat(chunks)), Rest(left + Flat(chunks)))
  {
    if chunks == [] {
      assert left + Flat(chunks) == left;
    } else {
      var before, chunk := chunks[..|chunks| - 1], chunks[|chunks| - 1];
      ChunkingDoesNotMatter(left, before);
      LinesConcat(left + Flat(before), chunk);
      assert left + Flat(chunks) == (left + Flat(before)) + chunk;
    }
  }

  /** A whole connection, fed chunk by chunk to a fresh reader. */
  method ReadAll(decode: Text -> string, chunks: seq<Text>) returns (r: FrameReader)
    ensures fresh(r) && r.decode == decode
    ensures r.frames == Frames(decode, Lines(Flat(chunks))) && r.buf == Rest(Flat(chunks))
  {
    r := new FrameReader(decode);
    for i := 0 to |chunks|
      invariant fresh(r) && r.decode == decode
      invariant r.frames == Frames(decode, Lines(Flat(chunks[..i]))) && r.buf == Rest(Flat(chunks[..i]))
    {
      assert chunks[..i + 1][..i] == chunks[..i];
      LinesConcat(Flat(chunks[..i]), chunks[i]);
      FramesConcat(decode, Lines(Flat(chunks[..i])), Lines(r.buf + chunks[i]));
      r.OnData(chunks[i]);
    }
    assert chunks[..|chunks|] == chunks;
  }

  // ---------- a second connection ----------

  /** What decodes to white space ends on a character, so that the decoding of what follows is not disturbed. */
  ghost predicate BlankJoins(decode: Text -> string, left: Text) {
    IsBlank(decode(left)) ==> forall line :: decode(left + line) == decode(left) + decode(line)
  }

  lemma FirstLine(left: Text, stream: Text)
    requires NEWLINE !in left
    ensures var nl := NewlineAt(stream);
      if nl < 0 then Lines(left + stream) == [] && Lines(stream) == []
      else Lines(left + stream) == [left + stream[..nl]] + Lines(stream[nl + 1..])
  {
    var nl := NewlineAt(stream);
    if nl < 0 {
      assert Splits(left + stream, [], left + stream);
      SplitUnique(left + stream, [], left + stream);
    } else {
      var line, more := left + stream[..nl], stream[nl + 1..];
      assert left + stream == line + [NEWLINE] + more;
      FirstNewline(line, more);
      assert (line + [NEWLINE] + more)[..|line|] == line && (line + [NEWLINE] + more)[|line| + 1..] == more;
    }
  }

  lemma FramesCons(decode: Text -> string, line: Text, lines: seq<Text>)
    ensures Frames(decode, [line] + lines) == Frame(decode, line) + Frames(decode, lines)
  {
    hide Frame;
    assert ([line] + lines)[1..] == lines;
  }

  /** A blank leftover disappears in the trimming of the line it ends up in. */
  lemma BlankIsHarmless(decode: Text -> string, left: Text, stream: Text)
    requires NEWLINE !in left && IsBlank(decode(left)) && BlankJoins(decode, left)
    ensures Frames(decode, Lines(left + stream)) == Frames(decode, Lines(stream))
  {
    FirstLine(left, stream);
    var nl := NewlineAt(stream);
    if nl >= 0 {
      var line := stream[..nl];
      assert decode(left + line) == decode(left) + decode(line);
      TrimBlankPrefix(decode(left), decode(line));
      FramesCons(decode, left + line, Lines(stream[nl + 1..]));
      FramesCons(decode, line, Lines(stream[nl + 1..]));
    }
  }

  /** Anything else shows at once: an empty line would then hand over a frame of its own. */
  lemma OthersShow(decode: Text -> string, left: Text)
    requires NEWLINE !in left && decode([]) == "" && !IsBlank(decode(left))
    ensures Frames(decode, Lines(left + [NEWLINE])) == [Trim(decode(left))] && Frames(decode, Lines([NEWLINE])) == []
  {
    var empty: Text, none: seq<Text> := [], [];
    assert NewlineAt([NEWLINE]) == 0 && [NEWLINE][..0] == empty && [NEWLINE][1..] == empty;
    FirstLine(left, [NEWLINE]);
    assert left + empty == left && Lines(empty) == none;
    assert Lines([NEWLINE]) == [empty] + none && Lines(left + [NEWLINE]) == [left] + none;
    FramesCons(decode, left, none);
    FramesCons(decode, empty, none);
    TrimBlank(decode(left));
    TrimBlank("");
  }

  /**
   * The buffer outlives a connection. What it still holds leaves the frames of every later stream as they
   * would be with an empty buffer if and only if it decodes to nothing but white space.
   */
  lemma LeftoverSpoilsIff(decode: Text -> string, left: Text)
    requires NEWLINE !in left && decode([]) == "" && BlankJoins(decode, left)
    ensures (forall stream :: Frames(decode, Lines(left + stream)) == Frames(decode, Lines(stream)))
       <==> IsBlank(decode(left))
  {
    hide Frames;
    hide Lines;
    hide IsBlank;
    if IsBlank(decode(left)) {
      forall stream ensures Frames(decode, Lines(left + stream)) == Frames(decode, Lines(stream)) {
        BlankIsHarmless(decode, left, stream);
      }
    } else {
      OthersShow(decode, left);
    }
  }

  /** UTF-8 with replacement meets both conditions on the decoder. */
  lemma Utf8BlankJoins(left: Text)
    ensures Decode([]) == "" && BlankJoins(Decode, left)
  {
    if IsBlank(Decode(left)) {
      BlankIsWhole(left);
      forall line ensures Decode(left + line) == Decode(left) + Decode(line) {
        DecodeJoins(left, line);
      }
    }
  }

  /** So for the text that the client really decodes, nothing needs to be supposed. */
  lemma Utf8LeftoverSpoilsIff(left: Text)
    requires NEWLINE !in left
    ensures (forall stream :: Frames(Decode, Lines(left + stream)) == Frames(Decode, Lines(stream)))
       <==> IsBlank(Decode(left))
  {
    Utf8BlankJoins(left);
    LeftoverSpoilsIff(Decode, left);
  }

  // ---------- messages ----------

  /** A line hands over its text without the white space around it, and nothing if there is nothing else. */
  lemma FrameIs(decode: Text -> string, line: Text, t: string)
    ensures Frame(decode, line) == [t] <==> t != "" && Trimmed(decode(line), t)
    ensures Frame(decode, line) == [] <==> IsBlank(decode(line))
  {
    TrimIff(decode(line), t);
    TrimBlank(decode(line));
    hide Trim;
  }

  /** A message as the other side writes it: its UTF-8 form and a newline. */
  function Written(message: string): Text {
    EncodeAll(message) + [NEWLINE]
  }

  function AllWritten(messages: seq<string>): Text {
    if messages == [] then [] else Written(messages[0]) + AllWritten(messages[1..])
  }

  /** Something to say, on one line, without white space around it. */
  predicate IsMessage(message: string) {
    message != "" && Neat(message) && '\n' !in message
  }

  lemma {:induction false} NoNewlineInside(message: string)
    requires '\n' !in message
    ensures NEWLINE !in EncodeAll(message)
  {
    if message == "" {
    } else {
      NoNewlineInside(message[1..]);
      assert message[0] != '\n';
      NoNewlineIn(message[0]);
    }
  }

  lemma NoNewlineIn(c: char)
    requires c != '\n'
    ensures NEWLINE !in Encode(c)
  {
  }

  lemma MessageFrame(message: string)
    requires IsMessage(message)
    ensures Frame(Decode, EncodeAll(message)) == [message]
  {
    TextSurvives(message);
    NeatStays(message);
    hide Decode;
    hide EncodeAll;
    hide Trim;
  }

  lemma OneLineMore(decode: Text -> string, line: Text, more: Text)
    requires NEWLINE !in line
    ensures var all := line + [NEWLINE] + more;
      && Rest(all) == Rest(more)
      && Frames(decode, Lines(all)) == Frame(decode, line) + Frames(decode, Lines(more))
  {
    var all := line + [NEWLINE] + more;
    FirstNewline(line, more);
    hide Lines;
    hide Rest;
    hide Frame;
    hide NewlineAt;
    LinesStep(decode, all);
    assert all[..|line|] == line && all[|line| + 1..] == more;
  }

  lemma {:induction false} MessagesAreFrames(messages: seq<string>)
    requires forall m :: m in messages ==> IsMessage(m)
    ensures Frames(Decode, Lines(AllWritten(messages))) == messages && Rest(AllWritten(messages)) == []
    decreases |messages|
  {
    if messages == [] {
      LinesNone(Decode, AllWritten(messages));
    } else {
      hide *;
      var m := messages[0];
      assert m in messages;
      MessagesAreFrames(messages[1..]);
      MessageMore(m, AllWritten(messages[1..]));
      WrittenStep(messages);
      assert messages == [m] + messages[1..];
    }
  }

  lemma WrittenStep(messages: seq<string>)
    requires messages != []
    ensures AllWritten(messages) == EncodeAll(messages[0]) + [NEWLINE] + AllWritten(messages[1..])
  {
    hide EncodeAll;
  }

  lemma MessageMore(message: string, more: Text)
    requires IsMessage(message)
    ensures var all := EncodeAll(message) + [NEWLINE] + more;
      && Rest(all) == Rest(more)
      && Frames(Decode, Lines(all)) == [message] + Frames(Decode, Lines(more))
  {
    NoNewlineInside(message);
    MessageFrame(message);
    hide *;
    OneLineMore(Decode, EncodeAll(message), more);
  }

  /** Whatever messages the other side writes, and however the stream is cut, the reader hands over exactly them. */
  method Messages(messages: seq<string>, chunks: seq<Text>) returns (r: FrameReader)
    requires (forall m :: m in messages ==> IsMessage(m)) && Flat(chunks) == AllWritten(messages)
    ensures r.frames == messages && r.buf == []
  {
    r := ReadAll(Decode, chunks);
    MessagesAreFrames(messages);
  }
}
