/**
 The incremental server-sent-events framer of internal/ai/stream.go.

 A decoder keeps the bytes that do not yet form a whole block.  Whatever the
 network chunks look like, the events it yields are those of the whole text.
 Trimming white space and reading a JSON payload are library calls; they enter
 as the two functions of a `Codec`, and every result holds for all of them.
 */
module SseStream {
  import opened Wrappers

  newtype byte = x: int | 0 <= x < 256
  type Bytes = seq<byte>

  const LF: byte := 10
  const CR: byte := 13
  const SPACE: byte := 32
  const COLON: byte := 58

  const LF_BLANK: Bytes := [LF, LF]
  const CRLF: Bytes := [CR, LF]
  const CRLF_BLANK: Bytes := [CR, LF, CR, LF]
  const DATA: Bytes := [100, 97, 116, 97, COLON]          // data:
  const DONE: Bytes := [91, 68, 79, 78, 69, 93]           // [DONE]

  /** The library calls of decodeSSEBlock: strings.TrimSpace and decodeStreamPayload. */
  datatype Codec<E> = Codec(trim: Bytes -> Bytes, payload: Bytes -> E)

  // ----- finding the end of a block -----

  predicate OccursAt(s: Bytes, sep: Bytes, i: int) {
    0 <= i && i + |sep| <= |s| && s[i..i + |sep|] == sep
  }

  /** bytes.Index */
  function Index(s: Bytes, sep: Bytes): (r: int)
    requires sep != []
    ensures r == -1 || 0 <= r <= |s| - |sep|
  {
    if |s| < |sep| then -1
    else if s[..|sep|] == sep then 0
    else
      var r := Index(s[1..], sep);
      if r < 0 then -1 else r + 1
  }

  lemma OccursShift(s: Bytes, sep: Bytes, i: int)
    requires 1 <= i && s != []
    ensures OccursAt(s, sep, i) <==> OccursAt(s[1..], sep, i - 1)
  {
    if i + |sep| <= |s| {
      var here, there := s[i..i + |sep|], s[1..][i - 1..i - 1 + |sep|];
      forall k | 0 <= k < |sep|
        ensures here[k] == there[k]
      {
        assert here[k] == s[i + k] && there[k] == s[1..][i - 1 + k];
      }
      assert here == there;
    }
  }

  lemma {:induction false} IndexOccurs(s: Bytes, sep: Bytes)
    requires sep != [] && Index(s, sep) >= 0
    ensures OccursAt(s, sep, Index(s, sep))
  {
    if s[..|sep|] == sep {
      assert s[0..0 + |sep|] == s[..|sep|];
    } else {
      IndexOccurs(s[1..], sep);
      OccursShift(s, sep, Index(s, sep));
    }
  }

  lemma {:induction false} NoneBefore(s: Bytes, sep: Bytes, i: int)
    requires sep != [] && (Index(s, sep) < 0 || i < Index(s, sep))
    ensures !OccursAt(s, sep, i)
    decreases i
  {
    if 0 <= i && i + |sep| <= |s| {
      assert s[0..0 + |sep|] == s[..|sep|];
      if i > 0 {
        NoneBefore(s[1..], sep, i - 1);
        OccursShift(s, sep, i);
      }
    }
  }

  lemma IndexIsFirst(s: Bytes, sep: Bytes)
    requires sep != []
    ensures var r := Index(s, sep);
            && (r < 0 ==> forall i :: !OccursAt(s, sep, i))
            && (r >= 0 ==> OccursAt(s, sep, r) && forall i | i < r :: !OccursAt(s, sep, i))
  {
    var r := Index(s, sep);
    if r >= 0 {
      IndexOccurs(s, sep);
    }
    forall i | r < 0 || i < r
      ensures !OccursAt(s, sep, i)
    {
      NoneBefore(s, sep, i);
    }
  }

  datatype Separator = Separator(at: nat, length: nat)

  predicate BlankLineAt(s: Bytes, i: int, length: nat) {
    || (length == 2 && OccursAt(s, LF_BLANK, i))
    || (length == 4 && OccursAt(s, CRLF_BLANK, i))
  }

  ghost predicate IsFirstBlankLine(s: Bytes, sep: Separator) {
    BlankLineAt(s, sep.at, sep.length) && forall i, n | i < sep.at :: !BlankLineAt(s, i, n)
  }

  /** nextBlankLine: the earlier of the two separators wins. */
  function NextBlankLine(s: Bytes): (r: Option<Separator>)
    ensures r.Some? ==> 0 < r.value.length && r.value.at + r.value.length <= |s|
  {
    var lf := Index(s, LF_BLANK);
    var crlf := Index(s, CRLF_BLANK);
    if lf < 0 && crlf < 0 then None
    else if crlf < 0 || (lf >= 0 && lf < crlf) then Some(Separator(lf, 2))
    else Some(Separator(crlf, 4))
  }

  /** The separator found is the first of either spelling, and it is the only first one. */
  lemma NextBlankLineIsFirst(s: Bytes, sep: Separator)
    ensures NextBlankLine(s) == Some(sep) <==> IsFirstBlankLine(s, sep)
    ensures NextBlankLine(s).None? <==> forall i, n :: !BlankLineAt(s, i, n)
  {
    IndexIsFirst(s, LF_BLANK);
    IndexIsFirst(s, CRLF_BLANK);
    forall i
      ensures !(OccursAt(s, LF_BLANK, i) && OccursAt(s, CRLF_BLANK, i))
    {
      if 0 <= i && i + 4 <= |s| {
        assert s[i] == s[i..i + 2][0] == s[i..i + 4][0];
      }
    }
    var lf, crlf := Index(s, LF_BLANK), Index(s, CRLF_BLANK);
    assert lf >= 0 ==> BlankLineAt(s, lf, 2);
    assert crlf >= 0 ==> BlankLineAt(s, crlf, 4);
  }

  lemma BlankLineBytes(s: Bytes, i: int, n: nat)
    requires BlankLineAt(s, i, n)
    ensures n == 2 ==> s[i] == LF && s[i + 1] == LF
    ensures n == 4 ==> s[i] == CR && s[i + 1] == LF && s[i + 2] == CR
    ensures n == 2 || n == 4
  {
    var t := s[i..i + n];
    assert s[i] == t[0] && s[i + 1] == t[1] && (n == 4 ==> s[i + 2] == t[2]);
  }

  /**
   The overlap argument.  A separator that would start earlier once more bytes
   arrive would have to run over the end of `a`, hence overlap the separator
   already found, and the two spellings disagree on the overlap.
   */
  lemma FirstBlankLineStable(a: Bytes, b: Bytes)
    requires NextBlankLine(a).Some?
    ensures NextBlankLine(a + b) == NextBlankLine(a)
  {
    var r := NextBlankLine(a).value;
    NextBlankLineIsFirst(a, r);
    BlankLineBytes(a, r.at, r.length);
    assert (a + b)[r.at..r.at + r.length] == a[r.at..r.at + r.length];
    forall i, n | BlankLineAt(a + b, i, n)
      ensures i >= r.at
    {
      BlankLineBytes(a + b, i, n);
      if i + n <= |a| {
        assert (a + b)[i..i + n] == a[i..i + n];
        assert BlankLineAt(a, i, n);
      }
    }
    NextBlankLineIsFirst(a + b, r);
  }

  // ----- one block -----

  /** strings.ReplaceAll(s, "\r\n", "\n") */
  function Normalise(s: Bytes): Bytes {
    if s == [] then []
    else if CRLF <= s then [LF] + Normalise(s[2..])
    else [s[0]] + Normalise(s[1..])
  }

  /** strings.Split(s, "\n") */
  function Lines(s: Bytes): (r: seq<Bytes>)
    ensures |r| >= 1
    decreases |s|
  {
    var k := Index(s, [LF]);
    if k < 0 then [s] else [s[..k]] + Lines(s[k + 1..])
  }

  /** What one line adds to the payload: nothing unless it is a data line. */
  function LineData(line: Bytes): Bytes {
    if [COLON] <= line then []
    else if DATA <= line then
      var payload := line[|DATA|..];
      if [SPACE] <= payload then payload[1..] else payload
    else []
  }

  function AllData(lines: seq<Bytes>): Bytes {
    if lines == [] then [] else LineData(lines[0]) + AllData(lines[1..])
  }

  datatype Decoded<E> = Nothing | Finished | Event(event: E)

  function Classify<E>(codec: Codec<E>, body: Bytes): Decoded<E> {
    if codec.trim(body) == [] then Nothing
    else if codec.trim(body) == DONE then Finished
    else Event(codec.payload(body))
  }

  function DecodeBlock<E>(codec: Codec<E>, raw: Bytes): Decoded<E> {
    Classify(codec, AllData(Lines(Normalise(raw))))
  }

  function BlockDecoder<E>(codec: Codec<E>): Bytes -> Decoded<E> {
    raw => DecodeBlock(codec, raw)
  }

  lemma {:induction false} AllDataAppend(a: seq<Bytes>, b: seq<Bytes>)
    ensures AllData(a + b) == AllData(a) + AllData(b)
  {
    if a == [] {
      assert a + b == b;
    } else {
      assert (a + b)[1..] == a[1..] + b;
      AllDataAppend(a[1..], b);
    }
  }

  /** decodeSSEBlock, with its loop over the lines of the block. */
  lemma AllDataNext(lines: seq<Bytes>, i: nat)
    requires i < |lines|
    ensures AllData(lines[..i + 1]) == AllData(lines[..i]) + LineData(lines[i])
  {
    assert lines[..i + 1] == lines[..i] + [lines[i]];
    AllDataAppend(lines[..i], [lines[i]]);
    assert AllData([lines[i]]) == LineData(lines[i]);
  }

  method DecodeSseBlock<E>(codec: Codec<E>, raw: Bytes) returns (r: Decoded<E>)
    ensures r == DecodeBlock(codec, raw)
  {
    var lines := Lines(Normalise(raw));
    var data: Bytes := [];
    for i := 0 to |lines|
      invariant data == AllData(lines[..i])
    {
      var line := lines[i];
      AllDataNext(lines, i);
      if [COLON] <= line {
        continue;
      }
      if !(DATA <= line) {
        continue;
      }
      var payload := line[|DATA|..];
      data := data + if [SPACE] <= payload then payload[1..] else payload;
    }
    assert lines[..|lines|] == lines;
    if codec.trim(data) == [] {
      return Nothing;
    }
    if codec.trim(data) == DONE {
      return Finished;
    }
    return Event(codec.payload(data));
  }

  // ----- the decoder -----

  datatype Drained<E> = Drained(events: seq<E>, rest: Bytes, done: bool)

  /** The result of a first block followed by `rest`, whose own result is `more`. */
  function Follow<E>(block: Decoded<E>, rest: Bytes, more: Drained<E>): Drained<E> {
    match block
    case Finished => Drained([], rest, true)
    case Nothing => more
    case Event(e) => more.(events := [e] + more.events)
  }

  /** Everything that is complete in `buf`, what is left over, and whether the terminator was met. */
  function Drain<E>(decode: Bytes -> Decoded<E>, buf: Bytes): (r: Drained<E>)
    decreases |buf|
  {
    match NextBlankLine(buf)
    case None => Drained([], buf, false)
    case Some(sep) =>
      var rest := buf[sep.at + sep.length..];
      Follow(decode(buf[..sep.at]), rest, Drain(decode, rest))
  }

  lemma DrainStep<E>(decode: Bytes -> Decoded<E>, buf: Bytes, sep: Separator)
    requires NextBlankLine(buf) == Some(sep)
    ensures var rest := buf[sep.at + sep.length..];
            Drain(decode, buf) == Follow(decode(buf[..sep.at]), rest, Drain(decode, rest))
  {
  }

  /** `out` has been put out already; `more` is still to come. */
  function Prepend<E>(out: seq<E>, more: Drained<E>): Drained<E> {
    more.(events := out + more.events)
  }

  lemma PrependFollow<E>(out: seq<E>, block: Decoded<E>, rest: Bytes, more: Drained<E>)
    ensures block.Finished? ==> Prepend(out, Follow(block, rest, more)) == Drained(out, rest, true)
    ensures block.Nothing? ==> Prepend(out, Follow(block, rest, more)) == Prepend(out, more)
    ensures block.Event? ==> Prepend(out, Follow(block, rest, more)) == Prepend(out + [block.event], more)
  {
    assert out + [] == out;
    if block.Event? {
      assert out + ([block.event] + more.events) == out + [block.event] + more.events;
    }
  }

  lemma Prepended<E>(more: Drained<E>)
    ensures Prepend([], more) == more
  {
  }

  /** The first whole block of `buf`, decoded, and what follows it. */
  method NextBlock<E>(codec: Codec<E>, buf: Bytes) returns (found: bool, block: Decoded<E>, rest: Bytes)
    ensures !found ==> Drain(BlockDecoder(codec), buf) == Drained([], buf, false)
    ensures found ==> |rest| < |buf|
    ensures found ==>
              Drain(BlockDecoder(codec), buf) == Follow(block, rest, Drain(BlockDecoder(codec), rest))
  {
    var next := NextBlankLine(buf);
    if next.None? {
      return false, Nothing, buf;
    }
    DrainStep(BlockDecoder(codec), buf, next.value);
    rest := buf[next.value.at + next.value.length..];
    block := DecodeSseBlock(codec, buf[..next.value.at]);
    found := true;
  }

  class StreamDecoder<E> {
    const codec: Codec<E>
    var buf: Bytes
    var done: bool

    constructor (codec: Codec<E>)
      ensures this.codec == codec && buf == [] && !done
    {
      this.codec := codec;
      buf := [];
      done := false;
    }

    method Feed(chunk: Bytes) returns (out: seq<E>)
      modifies this
      ensures old(done) ==> out == [] && done && buf == old(buf)
      ensures !old(done) ==> Drained(out, buf, done) == Drain(BlockDecoder(codec), old(buf) + chunk)
    {
      out := [];
      if done {
        return;
      }
      buf := buf + chunk;
      ghost var more := Drain(BlockDecoder(codec), buf);
      ghost var all := more;
      Prepended(all);
      while true
        invariant !done
        invariant more == Drain(BlockDecoder(codec), buf) && all == Prepend(out, more)
        decreases |buf|
      {
        var found, block, rest := NextBlock(codec, buf);
        if !found {
          return;
        }
        PrependFollow(out, block, rest, Drain(BlockDecoder(codec), rest));
        buf := rest;
        more := Drain(BlockDecoder(codec), rest);
        match block {
          case Finished =>
            done := true;
            return;
          case Nothing =>
          case Event(e) =>
            out := out + [e];
        }
      }
    }
  }

  /** The result of `first` once `second` is known for what it left over and the bytes that followed. */
  function Join<E>(first: Drained<E>, b: Bytes, second: Drained<E>): Drained<E> {
    if first.done then first.(rest := first.rest + b)
    else second.(events := first.events + second.events)
  }

  lemma FollowJoin<E>(block: Decoded<E>, rest: Bytes, more: Drained<E>, b: Bytes, second: Drained<E>)
    ensures Follow(block, rest + b, Join(more, b, second)) == Join(Follow(block, rest, more), b, second)
  {
    if block.Event? {
      assert [block.event] + (more.events + second.events) == [block.event] + more.events + second.events;
    }
  }

  /** Draining a longer buffer is draining its front and then the leftover with the rest. */
  lemma {:induction false} DrainAppend<E>(decode: Bytes -> Decoded<E>, a: Bytes, b: Bytes)
    ensures var first := Drain(decode, a);
            Drain(decode, a + b) == Join(first, b, Drain(decode, first.rest + b))
    decreases |a|
  {
    match NextBlankLine(a)
    case None =>
    case Some(sep) =>
      FirstBlankLineStable(a, b);
      var rest := a[sep.at + sep.length..];
      assert (a + b)[..sep.at] == a[..sep.at];
      assert (a + b)[sep.at + sep.length..] == rest + b;
      var block := decode(a[..sep.at]);
      var more := Drain(decode, rest);
      if !block.Finished? {
        DrainAppend(decode, rest, b);
        FollowJoin(block, rest, more, b, Drain(decode, more.rest + b));
      }
  }

  function Flatten(chunks: seq<Bytes>): Bytes {
    if chunks == [] then [] else chunks[0] + Flatten(chunks[1..])
  }

  lemma {:induction false} FlattenAppend(a: seq<Bytes>, b: seq<Bytes>)
    ensures Flatten(a + b) == Flatten(a) + Flatten(b)
  {
    if a == [] {
      assert a + b == b;
    } else {
      assert (a + b)[1..] == a[1..] + b;
      FlattenAppend(a[1..], b);
    }
  }

  lemma FlattenSnoc(chunks: seq<Bytes>, i: nat)
    requires i < |chunks|
    ensures Flatten(chunks[..i + 1]) == Flatten(chunks[..i]) + chunks[i]
  {
    assert chunks[..i + 1] == chunks[..i] + [chunks[i]];
    FlattenAppend(chunks[..i], [chunks[i]]);
    assert Flatten([chunks[i]]) == chunks[i];
  }

  /** What the decoder has put out and kept after some text is what draining that text gives. */
  ghost predicate Agrees<E>(decode: Bytes -> Decoded<E>, text: Bytes, out: seq<E>, buf: Bytes, done: bool) {
    var all := Drain(decode, text);
    out == all.events && done == all.done && (!done ==> buf == all.rest)
  }

  lemma AgreesStep<E>(decode: Bytes -> Decoded<E>, text: Bytes, out: seq<E>, buf: Bytes, done: bool,
                      chunk: Bytes, fed: Drained<E>)
    requires Agrees(decode, text, out, buf, done)
    requires done ==> fed.events == [] && fed.done
    requires !done ==> fed == Drain(decode, buf + chunk)
    ensures Agrees(decode, text + chunk, out + fed.events, fed.rest, fed.done)
  {
    DrainAppend(decode, text, chunk);
  }

  /**
   Chunk invariance: however the text is cut up, feeding the chunks one after
   the other yields the events and the done flag of the text as a whole.
   */
  method DecodeChunks<E>(codec: Codec<E>, chunks: seq<Bytes>) returns (out: seq<E>, done: bool)
    ensures out == Drain(BlockDecoder(codec), Flatten(chunks)).events
    ensures done == Drain(BlockDecoder(codec), Flatten(chunks)).done
  {
    var decoder := new StreamDecoder(codec);
    ghost var decode := BlockDecoder(codec);
    out := [];
    assert Agrees(decode, Flatten([]), [], [], false);
    for i := 0 to |chunks|
      invariant decoder.codec == codec
      invariant Agrees(decode, Flatten(chunks[..i]), out, decoder.buf, decoder.done)
    {
      ghost var buf, was := decoder.buf, decoder.done;
      var events := decoder.Feed(chunks[i]);
      AgreesStep(decode, Flatten(chunks[..i]), out, buf, was, chunks[i], Drained(events, decoder.buf, decoder.done));
      FlattenSnoc(chunks, i);
      out := out + events;
    }
    assert chunks[..|chunks|] == chunks;
    done := decoder.done;
  }
}
