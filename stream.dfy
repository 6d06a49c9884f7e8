/** The streamed completion and the loop of `run` that reads it. */
module Stream {
  import opened Wrappers
  import opened GoStrings
  import opened Errors

  /** `Choices[k].Delta.Content` of a streamed response. */
  datatype Choice = Choice(content: string)

  /** One result of `stream.Recv()`: a response (with its usage record when
      the server sends one), `io.EOF`, or another error. */
  datatype Event =
    | Response(usage: Option<nat>, choices: seq<Choice>)
    | EndOfStream
    | RecvError(error: Error)

  /** Why reading stopped. */
  datatype Stop = UsageSeen | EndOfInput | Failed(error: Error)

  /** The fragments read, in order, why reading stopped, and how many events
      were taken from the stream. */
  datatype Drained = Drained(chunks: seq<string>, stop: Stop, consumed: nat)

  /** A response that the loop appends to the buffer: no usage record, and a
      first choice to index. */
  predicate IsContent(e: Event)
  {
    e.Response? && e.usage.None? && e.choices != []
  }

  /** What ends the loop at an event that is not content. A usage record ends
      it even when the same response also carries choices; a response with
      neither is the runtime panic of `resp.Choices[0]`. */
  function StopAt(e: Event): Stop
    requires !IsContent(e)
  {
    match e
    case EndOfStream => EndOfInput
    case RecvError(err) => Failed(err)
    case Response(usage, _) => if usage.Some? then UsageSeen else Failed(IndexOutOfRange)
  }

  /** The fragments the loop collects from `events`. The stream is finite;
      running out of events counts as `io.EOF`. The result reads a run of
      content events, one fragment each, and then at most one event more:
      the one that stops it. */
  function Drain(events: seq<Event>): (d: Drained)
    ensures d.consumed <= |events|
    ensures d.consumed == |d.chunks| || d.consumed == |d.chunks| + 1
    ensures d.consumed == |d.chunks| ==> d.consumed == |events| && d.stop == EndOfInput
    ensures d.consumed == |d.chunks| + 1 ==>
      !IsContent(events[|d.chunks|]) && d.stop == StopAt(events[|d.chunks|])
  {
    if events == [] then Drained([], EndOfInput, 0)
    else if IsContent(events[0]) then
      var rest := Drain(events[1..]);
      Drained([events[0].choices[0].content] + rest.chunks, rest.stop, rest.consumed + 1)
    else Drained([], StopAt(events[0]), 1)
  }

  /** Every fragment is the first choice of a content event, in stream order:
      the buffer is exactly the content read before the stop. */
  lemma {:induction false} DrainChunks(events: seq<Event>)
    ensures var d := Drain(events);
      forall i :: 0 <= i < |d.chunks| ==>
        IsContent(events[i]) && events[i].choices[0].content == d.chunks[i]
  {
    if events != [] && IsContent(events[0]) {
      DrainChunks(events[1..]);
    }
  }

  /** Nothing after the event that stopped the loop is ever read: whatever
      follows it, the outcome is the same. */
  lemma {:induction false} DrainIgnoresUnread(events: seq<Event>, tail: seq<Event>)
    requires Drain(events).consumed == |Drain(events).chunks| + 1
    ensures Drain(events[..Drain(events).consumed] + tail) == Drain(events)
  {
    var d := Drain(events);
    var s := events[..d.consumed] + tail;
    assert s[0] == events[0];
    if IsContent(events[0]) {
      assert s[1..] == events[1..][..Drain(events[1..]).consumed] + tail;
      DrainIgnoresUnread(events[1..], tail);
    }
  }

  /** `d` with the fragments `cs` read before it. */
  function After(cs: seq<string>, d: Drained): Drained
  {
    Drained(cs + d.chunks, d.stop, |cs| + d.consumed)
  }

  /** The event at `i` is read, and either stops the loop or puts its
      fragment in front of what follows. */
  lemma DrainAt(events: seq<Event>, i: nat)
    requires i < |events|
    ensures IsContent(events[i]) ==>
      Drain(events[i..]) == After([events[i].choices[0].content], Drain(events[i + 1..]))
    ensures !IsContent(events[i]) ==> Drain(events[i..]) == Drained([], StopAt(events[i]), 1)
  {
    assert events[i..][0] == events[i];
    assert events[i..][1..] == events[i + 1..];
  }

  lemma AfterAfter(chunks: seq<string>, c: string, rest: Drained)
    ensures After(chunks, After([c], rest)) == After(chunks + [c], rest)
  {
    assert chunks + ([c] + rest.chunks) == (chunks + [c]) + rest.chunks;
  }

  /** The `for` loop of `run` over `stream.Recv()`: the buffer grows by each
      fragment, and reading stops at the first usage record, at `io.EOF`, or
      at an error. */
  method Accumulate(events: seq<Event>) returns (buffer: string, chunks: seq<string>, stop: Stop, consumed: nat)
    ensures Drained(chunks, stop, consumed) == Drain(events)
    ensures buffer == Concat(chunks)
  {
    buffer, chunks, stop, consumed := "", [], EndOfInput, 0;
    assert events[0..] == events;
    while consumed < |events|
      invariant consumed == |chunks| <= |events|
      invariant stop == EndOfInput
      invariant buffer == Concat(chunks)
      invariant Drain(events) == After(chunks, Drain(events[consumed..]))
    {
      var e := events[consumed];
      DrainAt(events, consumed);
      consumed := consumed + 1;
      if !IsContent(e) {
        stop := StopAt(e);
        assert chunks + [] == chunks;
        break;
      }
      var c := e.choices[0].content;
      AfterAfter(chunks, c, Drain(events[consumed..]));
      ConcatSnoc(chunks, c);
      buffer := buffer + c;
      chunks := chunks + [c];
    }
  }

  /** Fragments "He" and "llo", then a usage record, then more content that
      is never read: the buffer holds exactly "Hello". */
  lemma UsageEndsStream()
    ensures var d := Drain([Response(None, [Choice("He")]), Response(None, [Choice("llo")]),
                            Response(Some(42), []), Response(None, [Choice("ignored")])]);
      Concat(d.chunks) == "Hello" && d.stop == UsageSeen && d.consumed == 3
  {
    var events := [Response(None, [Choice("He")]), Response(None, [Choice("llo")]),
                   Response(Some(42), []), Response(None, [Choice("ignored")])];
    assert events[1..] == [Response(None, [Choice("llo")]), Response(Some(42), []), Response(None, [Choice("ignored")])];
    assert events[1..][1..] == [Response(Some(42), []), Response(None, [Choice("ignored")])];
    var d := Drain(events);
    assert d.chunks == ["He", "llo"];
    assert ["He", "llo"][..1] == ["He"];
  }

  /** "Hi" and then `io.EOF`: "Hi", and no error. */
  lemma EofEndsStream()
    ensures var d := Drain([Response(None, [Choice("Hi")]), EndOfStream]);
      Concat(d.chunks) == "Hi" && d.stop == EndOfInput
  {
    var events := [Response(None, [Choice("Hi")]), EndOfStream];
    assert events[1..] == [EndOfStream];
    assert Drain(events).chunks == ["Hi"];
  }
}
