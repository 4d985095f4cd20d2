/**
 What a sender may write, and that the decoder of internal/ai/stream.go gives it back: data
 lines with and without the space, comments and other fields, under either line ending.
 */
module SseFraming {
  import opened Wrappers
  import opened SseStream

  /** One line of an event. */
  datatype Line =
    | Data(payload: Bytes)       // data: payload
    | Tight(payload: Bytes)      // data:payload
    | Comment(text: Bytes)       // :text
    | Field(text: Bytes)         // anything else, such as event: or id:

  datatype Frame = Frame(lines: seq<Line>, crlf: bool)

  function Written(line: Line): Bytes {
    match line
    case Data(payload) => [100, 97, 116, 97, 58, 32] + payload
    case Tight(payload) => [100, 97, 116, 97, 58] + payload
    case Comment(text) => [58] + text
    case Field(text) => text
  }

  /** The part of the payload that a line carries. */
  function Carried(line: Line): Bytes {
    match line
    case Data(payload) => payload
    case Tight(payload) => payload
    case Comment(_) => []
    case Field(_) => []
  }

  function Body(lines: seq<Line>): Bytes { if lines == [] then [] else Carried(lines[0]) + Body(lines[1..]) }

  /** A text that can stand on a line: something, without a line feed, and not ending in a carriage return. */
  predicate OnALine(text: Bytes) { text != [] && LF !in text && text[|text| - 1] != CR }

  predicate Writable(line: Line) {
    && OnALine(Written(line))
    && (line.Tight? ==> !([SPACE] <= line.payload))
    && (line.Field? ==> !([COLON] <= line.text) && !(DATA <= line.text))
  }

  predicate Sendable(frame: Frame) { frame.lines != [] && forall l | l in frame.lines :: Writable(l) }

  function Texts(lines: seq<Line>): (r: seq<Bytes>)
    ensures |r| == |lines| && forall i | 0 <= i < |r| :: r[i] == Written(lines[i])
  {
    seq(|lines|, i requires 0 <= i < |lines| => Written(lines[i]))
  }

  function Eol(crlf: bool): Bytes { if crlf then CRLF else [LF] }

  function BlockText(texts: seq<Bytes>, eol: Bytes): Bytes
    requires texts != []
  {
    if |texts| == 1 then texts[0] else texts[0] + (eol + BlockText(texts[1..], eol))
  }

  function Encode(frame: Frame): Bytes
    requires frame.lines != []
  {
    BlockText(Texts(frame.lines), Eol(frame.crlf)) + Eol(frame.crlf) + Eol(frame.crlf)
  }

  function EncodeAll(frames: seq<Frame>): Bytes
    requires forall f | f in frames :: Sendable(f)
  {
    if frames == [] then []
    else assert Sendable(frames[0]); Encode(frames[0]) + EncodeAll(frames[1..])
  }

  /** What a receiver should see: each payload in turn, blank ones dropped, nothing past the terminator. */
  function Expected<E>(codec: Codec<E>, frames: seq<Frame>): (seq<E>, bool) {
    if frames == [] then ([], false)
    else
      var body := Body(frames[0].lines);
      if codec.trim(body) == [] then Expected(codec, frames[1..])
      else if codec.trim(body) == [91, 68, 79, 78, 69, 93] then ([], true)
      else ([codec.payload(body)] + Expected(codec, frames[1..]).0, Expected(codec, frames[1..]).1)
  }

  // ----- where an encoded event ends -----

  lemma BlankLineDrop(front: Bytes, s: Bytes, i: int, n: nat)
    requires |front| <= i
    ensures BlankLineAt(front + s, i, n) <==> BlankLineAt(s, i - |front|, n)
  {
    if i + n <= |front + s| {
      assert (front + s)[i..i + n] == s[i - |front|..i - |front| + n];
    }
  }

  /** No separator starts inside a line. */
  lemma NoBlankLineInLine(line: Bytes, rest: Bytes, i: int, n: nat)
    requires OnALine(line) && BlankLineAt(line + rest, i, n)
    ensures i >= |line|
  {
    BlankLineBytes(line + rest, i, n);
    assert forall k | 0 <= k < |line| :: (line + rest)[k] == line[k];
  }

  /** Nor in a single line ending, since a line follows it. */
  lemma NoBlankLineInEol(crlf: bool, line: Bytes, rest: Bytes, i: int, n: nat)
    requires OnALine(line) && BlankLineAt(Eol(crlf) + (line + rest), i, n)
    ensures i >= |Eol(crlf)|
  {
    var all := Eol(crlf) + (line + rest);
    BlankLineBytes(all, i, n);
    assert all[|Eol(crlf)|] == line[0] != LF;
    assert |line| > 1 ==> all[|Eol(crlf)| + 1] == line[1] != LF;
    assert n == 4 ==> all[i..i + 4][3] == LF == all[i + 3];
  }

  lemma BlockStarts(texts: seq<Bytes>, eol: Bytes) returns (rest: Bytes)
    requires texts != []
    ensures BlockText(texts, eol) == texts[0] + rest
  {
    rest := if |texts| == 1 then [] else eol + BlockText(texts[1..], eol);
    assert texts[0] + [] == texts[0];
  }

  /** No separator starts inside a block's own text. */
  lemma {:induction false} NoBlankLineInside(texts: seq<Bytes>, crlf: bool, tail: Bytes, i: int, n: nat)
    requires texts != [] && forall t | t in texts :: OnALine(t)
    requires BlankLineAt(BlockText(texts, Eol(crlf)) + tail, i, n)
    ensures i >= |BlockText(texts, Eol(crlf))|
  {
    var eol, line := Eol(crlf), texts[0];
    if |texts| == 1 {
      NoBlankLineInLine(line, tail, i, n);
    } else {
      var more := BlockText(texts[1..], eol);
      var rest := BlockStarts(texts[1..], eol);
      assert texts[1] in texts && forall t | t in texts[1..] :: t in texts;
      BlockWithTail(texts, eol, tail);
      NoBlankLineInLine(line, eol + (more + tail), i, n);
      BlankLineDrop(line, eol + (more + tail), i, n);
      assert more + tail == texts[1] + (rest + tail);
      NoBlankLineInEol(crlf, texts[1], rest + tail, i - |line|, n);
      BlankLineDrop(eol, more + tail, i - |line|, n);
      NoBlankLineInside(texts[1..], crlf, tail, i - |line| - |eol|, n);
    }
  }

  lemma BlockWithTail(texts: seq<Bytes>, eol: Bytes, tail: Bytes)
    requires |texts| > 1
    ensures BlockText(texts, eol) + tail == texts[0] + (eol + (BlockText(texts[1..], eol) + tail))
    ensures |BlockText(texts, eol)| == |texts[0]| + |eol| + |BlockText(texts[1..], eol)|
  {
  }

  lemma TextsOnLines(frame: Frame)
    requires Sendable(frame)
    ensures forall t | t in Texts(frame.lines) :: OnALine(t)
  {
    forall i | 0 <= i < |frame.lines|
      ensures OnALine(Texts(frame.lines)[i])
    {
      assert Writable(frame.lines[i]);
    }
  }

  lemma FrameSeparated(frame: Frame, tail: Bytes)
    requires Sendable(frame)
    ensures var text := BlockText(Texts(frame.lines), Eol(frame.crlf));
            NextBlankLine(Encode(frame) + tail) == Some(Separator(|text|, 2 * |Eol(frame.crlf)|))
  {
    var eol := Eol(frame.crlf);
    var text := BlockText(Texts(frame.lines), eol);
    var full := Encode(frame) + tail;
    TextsOnLines(frame);
    assert full == text + (eol + eol + tail);
    assert full[|text|..|text| + 2 * |eol|] == eol + eol;
    assert BlankLineAt(full, |text|, 2 * |eol|);
    forall i, n | BlankLineAt(full, i, n)
      ensures i >= |text|
    {
      NoBlankLineInside(Texts(frame.lines), frame.crlf, eol + eol + tail, i, n);
    }
    NextBlankLineIsFirst(full, Separator(|text|, 2 * |eol|));
  }

  // ----- what an encoded event holds -----

  lemma {:induction false} NormaliseLine(line: Bytes, tail: Bytes)
    requires LF !in line && (line != [] ==> line[|line| - 1] != CR)
    ensures Normalise(line + tail) == line + Normalise(tail)
  {
    if line == [] {
      assert line + tail == tail;
    } else {
      assert (line + tail)[1..] == line[1..] + tail;
      assert (line + tail)[0] == line[0];
      assert |line| > 1 ==> (line + tail)[1] == line[1] != LF;
      NormaliseLine(line[1..], tail);
    }
  }

  lemma NormaliseEol(crlf: bool, rest: Bytes)
    ensures Normalise(Eol(crlf) + rest) == [LF] + Normalise(rest)
  {
    assert (Eol(crlf) + rest)[|Eol(crlf)|..] == rest;
    if crlf {
      assert (CRLF + rest)[..2] == CRLF;
    } else {
      assert ([LF] + rest)[0] == LF;
    }
  }

  lemma {:induction false} NormaliseBlock(texts: seq<Bytes>, crlf: bool)
    requires texts != [] && forall t | t in texts :: OnALine(t)
    ensures Normalise(BlockText(texts, Eol(crlf))) == BlockText(texts, [LF])
  {
    assert texts[0] in texts;
    if |texts| == 1 {
      NormaliseLine(texts[0], []);
      assert texts[0] + [] == texts[0];
    } else {
      var rest := BlockText(texts[1..], Eol(crlf));
      NormaliseBlock(texts[1..], crlf);
      NormaliseLine(texts[0], Eol(crlf) + rest);
      NormaliseEol(crlf, rest);
    }
  }

  lemma OneByte(s: Bytes, x: byte)
    ensures forall i :: OccursAt(s, [x], i) <==> 0 <= i < |s| && s[i] == x
  {
    assert forall i | 0 <= i < |s| :: s[i..i + 1] == [s[i]];
  }

  lemma LinesCons(line: Bytes, rest: Bytes)
    requires LF !in line
    ensures Lines(line) == [line]
    ensures Lines(line + ([LF] + rest)) == [line] + Lines(rest)
  {
    var s := line + ([LF] + rest);
    IndexIsFirst(line, [LF]);
    IndexIsFirst(s, [LF]);
    OneByte(line, LF);
    OneByte(s, LF);
    assert OccursAt(s, [LF], |line|);
    assert Index(s, [LF]) == |line|;
    assert s[..|line|] == line;
    assert s[|line| + 1..] == rest;
  }

  lemma {:induction false} BlockLines(texts: seq<Bytes>)
    requires texts != [] && forall t | t in texts :: OnALine(t)
    ensures Lines(BlockText(texts, [LF])) == texts
  {
    assert texts[0] in texts;
    assert texts == [texts[0]] + texts[1..];
    if |texts| == 1 {
      LinesCons(texts[0], []);
    } else {
      LinesCons(texts[0], BlockText(texts[1..], [LF]));
      BlockLines(texts[1..]);
    }
  }

  /** A data line adds its payload, without the one space after the colon; any other line adds nothing. */
  lemma LineCarries(line: Line)
    requires Writable(line)
    ensures LineData(Written(line)) == Carried(line)
  {
    var text := Written(line);
    match line
    case Data(payload) =>
      assert text[..5] == DATA && text[5..] == [SPACE] + payload;
      assert ([SPACE] + payload)[1..] == payload;
      assert text[0] != COLON;
    case Tight(payload) =>
      assert text[..5] == DATA && text[5..] == payload;
      assert text[0] != COLON;
    case Comment(_) => assert text[..1] == [COLON];
    case Field(_) =>
  }

  lemma {:induction false} LinesCarry(lines: seq<Line>)
    requires forall l | l in lines :: Writable(l)
    ensures AllData(Texts(lines)) == Body(lines)
  {
    if lines != [] {
      LineCarries(lines[0]);
      LinesCarry(lines[1..]);
      assert Texts(lines)[1..] == Texts(lines[1..]);
    }
  }

  /** An encoded event is blank, the terminator or an event by its payload alone. */
  lemma DecodeEncoded<E>(codec: Codec<E>, frame: Frame)
    requires Sendable(frame)
    ensures var body := Body(frame.lines);
            DecodeBlock(codec, BlockText(Texts(frame.lines), Eol(frame.crlf))) ==
            if codec.trim(body) == [] then Nothing
            else if codec.trim(body) == [91, 68, 79, 78, 69, 93] then Finished
            else Event(codec.payload(body))
  {
    TextsOnLines(frame);
    NormaliseBlock(Texts(frame.lines), frame.crlf);
    BlockLines(Texts(frame.lines));
    LinesCarry(frame.lines);
  }

  lemma DrainFirst<E>(codec: Codec<E>, frame: Frame, tail: Bytes)
    requires Sendable(frame)
    ensures Drain(BlockDecoder(codec), Encode(frame) + tail) ==
            Follow(DecodeBlock(codec, BlockText(Texts(frame.lines), Eol(frame.crlf))), tail,
                   Drain(BlockDecoder(codec), tail))
  {
    var eol := Eol(frame.crlf);
    var text := BlockText(Texts(frame.lines), eol);
    FrameSeparated(frame, tail);
    var full := Encode(frame) + tail;
    assert full[..|text|] == text;
    assert full[|text| + 2 * |eol|..] == tail;
  }

  /** Encoding and draining are inverse: the events of encoded frames are their payloads. */
  lemma {:induction false} DrainEncoded<E>(codec: Codec<E>, frames: seq<Frame>)
    requires forall f | f in frames :: Sendable(f)
    ensures var got := Drain(BlockDecoder(codec), EncodeAll(frames));
            (got.events, got.done) == Expected(codec, frames) && (!got.done ==> got.rest == [])
  {
    if frames != [] {
      var frame, tail := frames[0], EncodeAll(frames[1..]);
      DrainFirst(codec, frame, tail);
      DecodeEncoded(codec, frame);
      DrainEncoded(codec, frames[1..]);
    }
  }

  /** The two results together: any cutting of any framing of the payloads is decoded to the payloads. */
  method DecodeFramed<E>(codec: Codec<E>, ghost frames: seq<Frame>, chunks: seq<Bytes>)
    returns (out: seq<E>, done: bool)
    requires forall f | f in frames :: Sendable(f)
    requires Flatten(chunks) == EncodeAll(frames)
    ensures (out, done) == Expected(codec, frames)
  {
    out, done := DecodeChunks(codec, chunks);
    DrainEncoded(codec, frames);
  }
}
