/**
 Forwarding a model's answer in fewer, larger pieces: forwardAIStream of
 cmd/cashflux-services/main.go, and the receive loop it must not disturb, in
 internal/ai/proxy_transport.go.

 When a flush timer has run out is decided from outside, chunk by chunk.
 */
module Coalescer {
  import opened Sequences

  const FLUSH_BYTES: nat := 4096

  datatype Usage = Usage(prompt: int, completion: int, total: int)

  const NO_USAGE := Usage(0, 0, 0)

  datatype Chunk = Chunk(content: string, usage: Usage, done: bool)

  const NOTHING := Chunk("", NO_USAGE, false)

  /** How the stream ends if no chunk is the last one. */
  datatype Ending = Eof | Failed(reason: string)

  datatype Post = Event(number: nat, chunk: Chunk) | End | Failure(reason: string)

  // ----- the receiver -----

  datatype Outcome = Answer(content: string, usage: Usage) | EmptyReply | Error(reason: string)

  datatype Received = Received(content: string, usage: Usage)

  function Absorb(r: Received, c: Chunk): Received {
    Received(r.content + c.content, if c.usage != NO_USAGE then c.usage else r.usage)
  }

  /** The receive loop over raw chunks. */
  function ReceiveRaw(r: Received, chunks: seq<Chunk>, ending: Ending): Outcome
    decreases |chunks|
  {
    if chunks == [] then
      match ending
      case Eof => Answer(r.content, r.usage)
      case Failed(reason) => Error(reason)
    else
      var next := Absorb(r, chunks[0]);
      if chunks[0].done then (if next.content == "" then EmptyReply else Answer(next.content, next.usage))
      else ReceiveRaw(next, chunks[1..], ending)
  }

  /** The receive loop over what was posted. */
  function ReceivePosts(r: Received, posts: seq<Post>): Outcome
    decreases |posts|
  {
    if posts == [] then Error("cut off")
    else
      match posts[0]
      case End => Answer(r.content, r.usage)
      case Failure(reason) => Error(reason)
      case Event(_, c) =>
        var next := Absorb(r, c);
        if c.done then (if next.content == "" then EmptyReply else Answer(next.content, next.usage))
        else ReceivePosts(next, posts[1..])
  }

  // ----- the forwarder -----

  function Merge(pending: Chunk, c: Chunk): Chunk {
    Chunk(pending.content + c.content, if c.usage != NO_USAGE then c.usage else pending.usage, pending.done || c.done)
  }

  function Flushed(pending: Chunk, number: nat): seq<Post> {
    if pending == NOTHING then [] else [Event(number, pending)]
  }

  function Terminal(ending: Ending, pending: Chunk, number: nat): seq<Post> {
    match ending
    case Eof => Flushed(pending, number) + [End]
    case Failed(reason) => [Failure(reason)]
  }

  predicate Due(pending: Chunk, timer: bool) { pending.done || |pending.content| >= FLUSH_BYTES || timer }

  /** What is posted for the chunks still to come. */
  function Forward(chunks: seq<Chunk>, timers: seq<bool>, ending: Ending, pending: Chunk, number: nat): seq<Post>
    requires |timers| == |chunks|
    decreases |chunks|
  {
    if chunks == [] then Terminal(ending, pending, number)
    else
      var merged := Merge(pending, chunks[0]);
      if !Due(merged, timers[0]) then Forward(chunks[1..], timers[1..], ending, merged, number)
      else if merged.done then Flushed(merged, number) + [End]
      else
        var out := Flushed(merged, number);
        out + Forward(chunks[1..], timers[1..], ending, NOTHING, number + |out|)
  }

  /** The flush closure: post what is pending, if it is anything. */
  method Flush(posts: seq<Post>, pending: Chunk, number: nat) returns (posts': seq<Post>, pending': Chunk, number': nat)
    ensures posts' == posts + Flushed(pending, number) && pending' == NOTHING
    ensures number' == number + |Flushed(pending, number)|
  {
    posts', pending', number' := posts, pending, number;
    if pending.content == "" && pending.usage == NO_USAGE && !pending.done {
      return;
    }
    posts', pending', number' := posts + [Event(number, pending)], NOTHING, number + 1;
  }

  lemma ForwardStep(posts: seq<Post>, chunks: seq<Chunk>, timers: seq<bool>, ending: Ending, pending: Chunk,
                    number: nat)
    requires |timers| == |chunks| > 0
    ensures var merged := Merge(pending, chunks[0]);
            var out := Flushed(merged, number);
            var all := posts + Forward(chunks, timers, ending, pending, number);
            if !Due(merged, timers[0]) then all == posts + Forward(chunks[1..], timers[1..], ending, merged, number)
            else if merged.done then all == posts + out + [End]
            else all == posts + out + Forward(chunks[1..], timers[1..], ending, NOTHING, number + |out|)
  {
    var merged := Merge(pending, chunks[0]);
    var out := Flushed(merged, number);
    assert posts + (out + [End]) == posts + out + [End];
    var rest := Forward(chunks[1..], timers[1..], ending, NOTHING, number + |out|);
    assert posts + (out + rest) == posts + out + rest;
  }

  method ForwardAiStream(chunks: seq<Chunk>, timers: seq<bool>, ending: Ending) returns (posts: seq<Post>)
    requires |timers| == |chunks|
    ensures posts == Forward(chunks, timers, ending, NOTHING, 0)
  {
    posts := [];
    var number: nat := 0;
    var pending := NOTHING;
    ghost var all := Forward(chunks, timers, ending, NOTHING, 0);
    for i := 0 to |chunks|
      invariant posts + Forward(chunks[i..], timers[i..], ending, pending, number) == all
    {
      ForwardStep(posts, chunks[i..], timers[i..], ending, pending, number);
      assert chunks[i..][1..] == chunks[i + 1..] && timers[i..][1..] == timers[i + 1..];
      pending := Merge(pending, chunks[i]);
      if pending.done || |pending.content| >= FLUSH_BYTES || timers[i] {
        var done := pending.done;
        posts, pending, number := Flush(posts, pending, number);
        if done {
          posts := posts + [End];
          return;
        }
      }
    }
    match ending {
      case Eof =>
        posts, pending, number := Flush(posts, pending, number);
        posts := posts + [End];
      case Failed(reason) =>
        posts := posts + [Failure(reason)];
    }
  }

  // ----- the meaning is preserved -----

  lemma AbsorbMerge(r: Received, pending: Chunk, c: Chunk)
    ensures Absorb(r, Merge(pending, c)) == Absorb(Absorb(r, pending), c)
  {
    assert r.content + (pending.content + c.content) == r.content + pending.content + c.content;
  }

  lemma ReceiveFlushed(r: Received, pending: Chunk, number: nat, rest: seq<Post>)
    requires !pending.done
    ensures ReceivePosts(r, Flushed(pending, number) + rest) == ReceivePosts(Absorb(r, pending), rest)
  {
    if pending == NOTHING {
      assert Flushed(pending, number) + rest == rest;
      assert r.content + "" == r.content;
    } else {
      assert ([Event(number, pending)] + rest)[1..] == rest;
    }
  }

  /** With `pending` held back, the posts still to come mean what the chunks still to come mean after it. */
  lemma {:induction false} ForwardMeans(chunks: seq<Chunk>, timers: seq<bool>, ending: Ending, pending: Chunk,
                                        number: nat, r: Received)
    requires |timers| == |chunks| && !pending.done
    ensures ReceivePosts(r, Forward(chunks, timers, ending, pending, number)) ==
            ReceiveRaw(Absorb(r, pending), chunks, ending)
    decreases |chunks|
  {
    if chunks == [] {
      ReceiveFlushed(r, pending, number, [End]);
    } else {
      var merged := Merge(pending, chunks[0]);
      AbsorbMerge(r, pending, chunks[0]);
      if !Due(merged, timers[0]) {
        ForwardMeans(chunks[1..], timers[1..], ending, merged, number, r);
      } else if merged.done {
        assert (Flushed(merged, number) + [End])[0] == Event(number, merged);
      } else {
        var out := Flushed(merged, number);
        var rest := Forward(chunks[1..], timers[1..], ending, NOTHING, number + |out|);
        ReceiveFlushed(r, merged, number, rest);
        ForwardMeans(chunks[1..], timers[1..], ending, NOTHING, number + |out|, Absorb(r, merged));
        assert Absorb(r, merged).content + "" == Absorb(r, merged).content;
      }
    }
  }

  /** Coalescing preserves meaning: for every stream, every ending and every flush timing. */
  lemma CoalescingPreservesMeaning(chunks: seq<Chunk>, timers: seq<bool>, ending: Ending)
    requires |timers| == |chunks|
    ensures ReceivePosts(Received("", NO_USAGE), Forward(chunks, timers, ending, NOTHING, 0)) ==
            ReceiveRaw(Received("", NO_USAGE), chunks, ending)
  {
    ForwardMeans(chunks, timers, ending, NOTHING, 0, Received("", NO_USAGE));
    assert Absorb(Received("", NO_USAGE), NOTHING) == Received("", NO_USAGE);
  }

  // ----- what the receiver makes of a stream -----

  function Text(chunks: seq<Chunk>): string {
    if chunks == [] then "" else Text(chunks[..|chunks| - 1]) + chunks[|chunks| - 1].content
  }

  /** The usage reported last. */
  function LastUsage(chunks: seq<Chunk>): Usage {
    if chunks == [] then Usage(0, 0, 0)
    else if chunks[|chunks| - 1].usage != Usage(0, 0, 0) then chunks[|chunks| - 1].usage
    else LastUsage(chunks[..|chunks| - 1])
  }

  lemma {:induction false} ReceivedSoFar(chunks: seq<Chunk>, i: nat, ending: Ending)
    requires i <= |chunks| && forall j | 0 <= j < i :: !chunks[j].done
    ensures ReceiveRaw(Received("", NO_USAGE), chunks, ending) ==
            ReceiveRaw(Received(Text(chunks[..i]), LastUsage(chunks[..i])), chunks[i..], ending)
  {
    if i > 0 {
      ReceivedSoFar(chunks, i - 1, ending);
      assert chunks[..i][..i - 1] == chunks[..i - 1] && chunks[..i][i - 1] == chunks[i - 1];
      assert chunks[i - 1..][1..] == chunks[i..];
    } else {
      assert chunks[0..] == chunks;
    }
  }

  /** A stream whose first last chunk is the k-th: the text up to it with the usage reported last, or an empty reply. */
  lemma ReceivedToLast(chunks: seq<Chunk>, k: nat, ending: Ending)
    requires k < |chunks| && chunks[k].done && forall j | 0 <= j < k :: !chunks[j].done
    ensures var text, usage := Text(chunks[..k + 1]), LastUsage(chunks[..k + 1]);
            ReceiveRaw(Received("", NO_USAGE), chunks, ending) == if text == "" then EmptyReply else Answer(text, usage)
  {
    ReceivedSoFar(chunks, k, ending);
    assert chunks[..k + 1][..k] == chunks[..k] && chunks[..k + 1][k] == chunks[k];
  }

  /** A stream without a last chunk: all of the text, or the error that ended it. */
  lemma ReceivedToEnd(chunks: seq<Chunk>, ending: Ending)
    requires forall j | 0 <= j < |chunks| :: !chunks[j].done
    ensures ReceiveRaw(Received("", NO_USAGE), chunks, ending) ==
            if ending.Eof? then Answer(Text(chunks), LastUsage(chunks)) else Error(ending.reason)
  {
    ReceivedSoFar(chunks, |chunks|, ending);
    assert chunks[..|chunks|] == chunks;
  }

  // ----- numbering -----

  /** The events are numbered from `number` on, and exactly one end or failure follows them. */
  ghost predicate WellNumbered(posts: seq<Post>, number: nat) {
    && posts != []
    && !posts[|posts| - 1].Event?
    && forall i | 0 <= i < |posts| - 1 :: posts[i].Event? && posts[i].number == number + i
  }

  lemma {:induction false} ForwardNumbered(chunks: seq<Chunk>, timers: seq<bool>, ending: Ending, pending: Chunk,
                                           number: nat)
    requires |timers| == |chunks|
    ensures WellNumbered(Forward(chunks, timers, ending, pending, number), number)
    decreases |chunks|
  {
    if chunks != [] {
      var merged := Merge(pending, chunks[0]);
      if !Due(merged, timers[0]) {
        ForwardNumbered(chunks[1..], timers[1..], ending, merged, number);
      } else if !merged.done {
        ForwardNumbered(chunks[1..], timers[1..], ending, NOTHING, number + |Flushed(merged, number)|);
      }
    }
  }

  // ----- live deltas -----

  /** The text handed to the screen while the answer is being written: every chunk but the last. */
  function RawDeltas(chunks: seq<Chunk>): string {
    if chunks == [] || chunks[0].done then "" else chunks[0].content + RawDeltas(chunks[1..])
  }

  function PostedDeltas(posts: seq<Post>): string {
    if posts == [] || !posts[0].Event? || posts[0].chunk.done then ""
    else posts[0].chunk.content + PostedDeltas(posts[1..])
  }

  /** The text that is still held back when the last chunk arrives or the stream fails. */
  function HeldBack(chunks: seq<Chunk>, timers: seq<bool>, ending: Ending, pending: Chunk): string
    requires |timers| == |chunks|
    decreases |chunks|
  {
    if chunks == [] then (if ending.Eof? then "" else pending.content)
    else if chunks[0].done then pending.content
    else
      var merged := Merge(pending, chunks[0]);
      HeldBack(chunks[1..], timers[1..], ending, if Due(merged, timers[0]) then NOTHING else merged)
  }

  lemma DeltasFlushed(pending: Chunk, number: nat, rest: seq<Post>)
    requires !pending.done
    ensures PostedDeltas(Flushed(pending, number) + rest) == pending.content + PostedDeltas(rest)
  {
    if pending == NOTHING {
      assert Flushed(pending, number) + rest == rest;
    } else {
      assert ([Event(number, pending)] + rest)[1..] == rest;
    }
  }

  lemma DeltasAfterFlush(pending: Chunk, number: nat, rest: seq<Post>, held: string, raw: string)
    requires !pending.done && PostedDeltas(rest) + held == "" + raw
    ensures PostedDeltas(Flushed(pending, number) + rest) + held == pending.content + raw
  {
    DeltasFlushed(pending, number, rest);
    Regroup(pending.content, PostedDeltas(rest), held);
    assert "" + raw == raw;
  }

  /** The live text is not preserved: it falls short by exactly what was held back, which then arrives in
      the last chunk, where the receiver does not show it. */
  lemma {:induction false} DeltasFallShort(chunks: seq<Chunk>, timers: seq<bool>, ending: Ending, pending: Chunk,
                                           number: nat)
    requires |timers| == |chunks| && !pending.done
    ensures PostedDeltas(Forward(chunks, timers, ending, pending, number)) + HeldBack(chunks, timers, ending, pending)
            == pending.content + RawDeltas(chunks)
    decreases |chunks|
  {
    if chunks == [] {
      if ending.Eof? {
        DeltasFlushed(pending, number, [End]);
      }
    } else if chunks[0].done {
      assert Merge(pending, chunks[0]).done;
    } else {
      var merged := Merge(pending, chunks[0]);
      var c, ts := chunks[1..], timers[1..];
      Regroup(pending.content, chunks[0].content, RawDeltas(c));
      if !Due(merged, timers[0]) {
        DeltasFallShort(c, ts, ending, merged, number);
      } else {
        var out := Flushed(merged, number);
        DeltasFallShort(c, ts, ending, NOTHING, number + |out|);
        DeltasAfterFlush(merged, number, Forward(c, ts, ending, NOTHING, number + |out|),
                         HeldBack(c, ts, ending, NOTHING), RawDeltas(c));
      }
    }
  }

  /** The live text is complete exactly when nothing was held back. */
  lemma DeltasExactly(chunks: seq<Chunk>, timers: seq<bool>, ending: Ending)
    requires |timers| == |chunks|
    ensures PostedDeltas(Forward(chunks, timers, ending, NOTHING, 0)) == RawDeltas(chunks) <==>
            HeldBack(chunks, timers, ending, NOTHING) == ""
  {
    DeltasFallShort(chunks, timers, ending, NOTHING, 0);
    var posted := PostedDeltas(Forward(chunks, timers, ending, NOTHING, 0));
    var held := HeldBack(chunks, timers, ending, NOTHING);
    assert posted + held == RawDeltas(chunks);
    assert |posted + held| == |posted| + |held|;
  }

  /** No chunk is marked as the last one and the stream does not fail. */
  predicate EndsByItself(chunks: seq<Chunk>, ending: Ending) {
    if chunks == [] then ending.Eof? else !chunks[0].done && EndsByItself(chunks[1..], ending)
  }

  /** The last text that comes before the last chunk. */
  function LastText(chunks: seq<Chunk>): string {
    if chunks == [] || chunks[0].done then ""
    else if LastText(chunks[1..]) != "" then LastText(chunks[1..])
    else chunks[0].content
  }

  /** A caller can tell from the stream alone: the last text is long enough to be sent at once, or there is
      none, or nothing but the end of the stream follows it. */
  predicate AlwaysLive(chunks: seq<Chunk>, ending: Ending) {
    EndsByItself(chunks, ending) || LastText(chunks) == "" || |LastText(chunks)| >= 4096
  }

  lemma {:induction false} NothingHeldBack(chunks: seq<Chunk>, timers: seq<bool>, ending: Ending, pending: Chunk)
    requires |timers| == |chunks| && AlwaysLive(chunks, ending)
    requires !EndsByItself(chunks, ending) && LastText(chunks) == "" ==> pending.content == ""
    ensures HeldBack(chunks, timers, ending, pending) == ""
    decreases |chunks|
  {
    if chunks != [] && !chunks[0].done {
      var merged := Merge(pending, chunks[0]);
      NothingHeldBack(chunks[1..], timers[1..], ending, if Due(merged, timers[0]) then NOTHING else merged);
    }
  }

  /** A timer that has run out while there was nothing to send stays run out: only sending sets it back. */
  predicate Possible(chunks: seq<Chunk>, timers: seq<bool>, pending: Chunk)
    requires |timers| == |chunks|
    decreases |chunks|
  {
    |chunks| > 1 && !chunks[0].done ==>
      var merged := Merge(pending, chunks[0]);
      && (timers[0] && merged == NOTHING ==> timers[1])
      && Possible(chunks[1..], timers[1..], if Due(merged, timers[0]) then NOTHING else merged)
  }

  /** The timing that sends everything at once as long as more text is to come. */
  function Unlucky(chunks: seq<Chunk>): (timers: seq<bool>)
    ensures |timers| == |chunks|
  {
    if chunks == [] then []
    else [LastText(chunks[1..]) != "" && chunks[0] != NOTHING] + Unlucky(chunks[1..])
  }

  lemma {:induction false} UnluckyPossible(chunks: seq<Chunk>, pending: Chunk)
    ensures Possible(chunks, Unlucky(chunks), pending)
    decreases |chunks|
  {
    if |chunks| > 1 {
      var merged := Merge(pending, chunks[0]);
      assert Unlucky(chunks)[1..] == Unlucky(chunks[1..]);
      assert merged == NOTHING ==> chunks[0] == NOTHING;
      UnluckyPossible(chunks[1..], if Due(merged, Unlucky(chunks)[0]) then NOTHING else merged);
    }
  }

  lemma {:induction false} StaysHeldBack(chunks: seq<Chunk>, ending: Ending, pending: Chunk)
    requires !EndsByItself(chunks, ending) && LastText(chunks) == ""
    requires !pending.done && |pending.content| < FLUSH_BYTES
    ensures HeldBack(chunks, Unlucky(chunks), ending, pending) == pending.content
    decreases |chunks|
  {
    if chunks != [] && !chunks[0].done {
      var merged := Merge(pending, chunks[0]);
      assert chunks[0].content == "" && merged.content == pending.content;
      assert Unlucky(chunks)[1..] == Unlucky(chunks[1..]);
      StaysHeldBack(chunks[1..], ending, merged);
    }
  }

  lemma {:induction false} LastTextHeldBack(chunks: seq<Chunk>, ending: Ending)
    requires !AlwaysLive(chunks, ending)
    ensures HeldBack(chunks, Unlucky(chunks), ending, NOTHING) == LastText(chunks)
    decreases |chunks|
  {
    var c, rest := chunks[0], chunks[1..];
    assert Merge(NOTHING, c) == c;
    assert Unlucky(chunks)[1..] == Unlucky(rest);
    if LastText(rest) != "" {
      LastTextHeldBack(rest, ending);
    } else {
      StaysHeldBack(rest, ending, c);
    }
  }

  /** The live text is complete for every flush timing there can be exactly if the stream is always live. */
  lemma LiveExactly(chunks: seq<Chunk>, ending: Ending)
    ensures AlwaysLive(chunks, ending) <==>
            forall timers | |timers| == |chunks| && Possible(chunks, timers, NOTHING) ::
              PostedDeltas(Forward(chunks, timers, ending, NOTHING, 0)) == RawDeltas(chunks)
  {
    if AlwaysLive(chunks, ending) {
      forall timers: seq<bool> | |timers| == |chunks| && Possible(chunks, timers, NOTHING)
        ensures PostedDeltas(Forward(chunks, timers, ending, NOTHING, 0)) == RawDeltas(chunks)
      {
        NothingHeldBack(chunks, timers, ending, NOTHING);
        DeltasExactly(chunks, timers, ending);
      }
    } else {
      LastTextHeldBack(chunks, ending);
      UnluckyPossible(chunks, NOTHING);
      DeltasExactly(chunks, Unlucky(chunks), ending);
    }
  }

  /** One word and then the last chunk, before the timer has run out: the word is never shown live. */
  lemma DeltasLost(text: string)
    requires 0 < |text| < 4096
    ensures var chunks := [Chunk(text, NO_USAGE, false), Chunk("", NO_USAGE, true)];
            && RawDeltas(chunks) == text
            && PostedDeltas(Forward(chunks, [false, false], Eof, NOTHING, 0)) == ""
  {
    var chunks, timers := [Chunk(text, NO_USAGE, false), Chunk("", NO_USAGE, true)], [false, false];
    var merged := Merge(NOTHING, chunks[0]);
    assert merged.content == text && !Due(merged, timers[0]);
    var c, ts := chunks[1..], timers[1..];
    assert RawDeltas(c) == "" && text + "" == text;
    var posts := Forward(c, ts, Eof, merged, 0);
    assert posts[0].chunk.done;
    assert Forward(chunks, timers, Eof, NOTHING, 0) == posts;
  }
}
