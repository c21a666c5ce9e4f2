/** The streaming provider: which upstream deltas become fragments, how fragments are
    coalesced into time-boxed chunks, and when coalescing is switched on. Upstream
    events, their arrival times and the clock reading at which coalescing starts are
    inputs; time is in whole milliseconds. */
module Providers {
  import opened Common
  import Prompting

  // ---------------------------------------------------------------------------
  // Upstream events and `_extract_delta`
  // ---------------------------------------------------------------------------

  /** The `delta` of the first choice: missing (or `None`), a dict, or an object
      whose `content` attribute may be missing or `None`. */
  datatype Delta =
    | NoDelta
    | DictDelta(entries: map<string, Option<string>>)
    | ObjectDelta(content: Option<string>)

  datatype Choice = Choice(delta: Delta)

  /** One streamed chunk from the SDK; `Unreadable` is an event on which reading
      `event.choices[0]` raises. */
  datatype ChatEvent = Unreadable | ChatEvent(choices: seq<Choice>)

  /** An upstream event together with the clock reading when it was delivered. */
  datatype TimedEvent = TimedEvent(event: ChatEvent, at: int)

  /** `_extract_delta(event)`: the dict's "content" entry or the object's `content`
      attribute; `None` whenever any step fails or finds nothing. */
  function ExtractDelta(e: ChatEvent): (r: Option<string>)
    ensures r.Some? ==> e.ChatEvent? && |e.choices| > 0 && !e.choices[0].delta.NoDelta?
    ensures e.ChatEvent? && |e.choices| > 0 && e.choices[0].delta.DictDelta? ==>
              r == (if "content" in e.choices[0].delta.entries then e.choices[0].delta.entries["content"] else None)
    ensures e.ChatEvent? && |e.choices| > 0 && e.choices[0].delta.ObjectDelta? ==>
              r == e.choices[0].delta.content
  {
    match e
    case Unreadable => None
    case ChatEvent(choices) =>
      if |choices| == 0 then None
      else
        match choices[0].delta
        case NoDelta => None
        case DictDelta(entries) => if "content" in entries then entries["content"] else None
        case ObjectDelta(content) => content
  }

  // ---------------------------------------------------------------------------
  // `_tokens`: the filtering loop
  // ---------------------------------------------------------------------------

  /** A fragment handed on by `_tokens`, stamped with its arrival time. */
  datatype Arrival = Arrival(token: string, at: int)

  /** How the upstream iteration ended: normally, or by raising (with the error text). */
  datatype UpstreamEnd = Done | Broke(detail: string)

  /** How a provider stream ends for its consumer: normally, or with a `ProviderError`. */
  datatype StreamEnd = Exhausted | Failed(message: string)

  /** What `_tokens` yields, and how it ends. */
  datatype Fragments = Fragments(arrivals: seq<Arrival>, end: StreamEnd)

  /** The delta text of every event, with a missing delta read as "". */
  function Deltas(events: seq<TimedEvent>): seq<string> {
    seq(|events|, i requires 0 <= i < |events| => ExtractDelta(events[i].event).GetOr(""))
  }

  function Texts(arrivals: seq<Arrival>): seq<string> {
    seq(|arrivals|, i requires 0 <= i < |arrivals| => arrivals[i].token)
  }

  /** The events `_tokens` passes on: those whose delta is present and non-empty, in order. */
  function Usable(events: seq<TimedEvent>): (r: seq<Arrival>)
    ensures |r| <= |events|
    ensures forall i :: 0 <= i < |r| ==> r[i].token != ""
  {
    if events == [] then []
    else
      var rest := Usable(events[..|events| - 1]);
      var e := events[|events| - 1];
      match ExtractDelta(e.event)
      case Some(d) => if d != "" then rest + [Arrival(d, e.at)] else rest
      case None => rest
  }

  /** A `ProviderError` from the iteration carries the text "stream error: ...". */
  function EndOf(end: UpstreamEnd): (r: StreamEnd)
    ensures end.Done? <==> r.Exhausted?
  {
    match end
    case Done => Exhausted
    case Broke(detail) => Failed("stream error: " + detail)
  }

  /** `_tokens()` over the given upstream events. */
  method Tokens(events: seq<TimedEvent>, end: UpstreamEnd) returns (fr: Fragments)
    ensures fr == Fragments(Usable(events), EndOf(end))
  {
    var acc: seq<Arrival> := [];
    var i := 0;
    while i < |events|
      invariant 0 <= i <= |events|
      invariant acc == Usable(events[..i])
    {
      assert events[..i + 1][..i] == events[..i];
      var delta := ExtractDelta(events[i].event);
      if delta.Some? && delta.value != "" {
        acc := acc + [Arrival(delta.value, events[i].at)];
      }
      i := i + 1;
    }
    assert events[..i] == events;
    fr := Fragments(acc, EndOf(end));
  }

  /** One event gives exactly one fragment, its own delta at its own arrival time, when
      that delta is present and non-empty, and nothing otherwise. */
  lemma UsableOne(e: TimedEvent)
    ensures var d := ExtractDelta(e.event);
            Usable([e]) == if d.Some? && d.value != "" then [Arrival(d.value, e.at)] else []
  {
    assert [e][..0] == [];
  }

  /** `_tokens` treats every event on its own: the fragments of two runs of events are the
      fragments of the first run followed by those of the second. */
  lemma {:induction false} UsableAppend(a: seq<TimedEvent>, b: seq<TimedEvent>)
    ensures Usable(a + b) == Usable(a) + Usable(b)
    decreases |b|
  {
    if b == [] {
      assert a + b == a;
    } else {
      var b' := b[..|b| - 1];
      assert (a + b)[..|a + b| - 1] == a + b';
      assert (a + b)[|a + b| - 1] == b[|b| - 1];
      UsableAppend(a, b');
    }
  }

  lemma TextsAppend(a: seq<Arrival>, x: Arrival)
    ensures Texts(a + [x]) == Texts(a) + [x.token]
  {
  }

  /** Dropping missing and empty deltas loses no text: the fragments spell out exactly
      what the upstream deltas spell out. */
  lemma {:induction false} UsableKeepsText(events: seq<TimedEvent>)
    ensures Concat(Texts(Usable(events))) == Concat(Deltas(events))
    decreases |events|
  {
    if events != [] {
      var init := events[..|events| - 1];
      var e := events[|events| - 1];
      UsableKeepsText(init);
      assert Deltas(events) == Deltas(init) + [ExtractDelta(e.event).GetOr("")];
      var d := ExtractDelta(e.event);
      if d.Some? && d.value != "" {
        TextsAppend(Usable(init), Arrival(d.value, e.at));
      }
    }
  }

  // ---------------------------------------------------------------------------
  // `_coalesce`: the buffer state machine
  // ---------------------------------------------------------------------------

  /** `flush()`: `None` for an empty buffer, otherwise the joined buffer. */
  function Flush(buf: seq<string>): (r: Option<string>)
    ensures r.None? <==> buf == []
  {
    if buf == [] then None else Some(Concat(buf))
  }

  /** A chunk is yielded only when `flush()` returned something truthy. */
  function Emit(emitted: seq<string>, chunk: Option<string>): seq<string> {
    if chunk.Some? && chunk.value != "" then emitted + [chunk.value] else emitted
  }

  /** The coalescer's state between arrivals: the buffer, the time of the last flush
      decision, and the chunks yielded so far. */
  datatype Coalescer = Coalescer(buf: seq<string>, last: int, emitted: seq<string>)

  /** One arrival: append, then flush and reset `last` once the interval has elapsed. */
  function Feed(c: Coalescer, a: Arrival, intervalMs: int): Coalescer {
    var buf := c.buf + [a.token];
    if a.at - c.last >= intervalMs then Coalescer([], a.at, Emit(c.emitted, Flush(buf)))
    else Coalescer(buf, c.last, c.emitted)
  }

  /** The state after all the given arrivals, starting empty at clock reading `start`. */
  function FeedAll(start: int, arrivals: seq<Arrival>, intervalMs: int): Coalescer {
    if arrivals == [] then Coalescer([], start, [])
    else Feed(FeedAll(start, arrivals[..|arrivals| - 1], intervalMs), arrivals[|arrivals| - 1], intervalMs)
  }

  /** Everything `_coalesce` yields: the chunks flushed on the way, plus the final flush
      when, and only when, the source ended normally. */
  function Coalesced(fr: Fragments, start: int, intervalMs: int): seq<string> {
    var c := FeedAll(start, fr.arrivals, intervalMs);
    if fr.end.Exhausted? then Emit(c.emitted, Flush(c.buf)) else c.emitted
  }

  /** `_coalesce(source, interval_ms)`, with `buf` and `last` updated in place. */
  method Coalesce(fr: Fragments, start: int, intervalMs: int) returns (chunks: seq<string>)
    ensures chunks == Coalesced(fr, start, intervalMs)
  {
    var buf: seq<string> := [];
    var last := start;
    chunks := [];
    var i := 0;
    while i < |fr.arrivals|
      invariant 0 <= i <= |fr.arrivals|
      invariant Coalescer(buf, last, chunks) == FeedAll(start, fr.arrivals[..i], intervalMs)
    {
      assert fr.arrivals[..i + 1][..i] == fr.arrivals[..i];
      buf := buf + [fr.arrivals[i].token];
      var now := fr.arrivals[i].at;
      if now - last >= intervalMs {
        var chunk := Flush(buf);
        buf := [];
        if chunk.Some? && chunk.value != "" {
          chunks := chunks + [chunk.value];
        }
        last := now;
      }
      i := i + 1;
    }
    assert fr.arrivals[..i] == fr.arrivals;
    if fr.end.Exhausted? {
      var chunk := Flush(buf);
      if chunk.Some? && chunk.value != "" {
        chunks := chunks + [chunk.value];
      }
    }
  }

  lemma ConcatEmit(emitted: seq<string>, chunk: Option<string>)
    ensures Concat(Emit(emitted, chunk)) == Concat(emitted) + chunk.GetOr("")
  {
  }

  /** One arrival moves its token to the end of yielded-then-buffered text. */
  lemma FeedKeepsText(c: Coalescer, a: Arrival, intervalMs: int)
    ensures var d := Feed(c, a, intervalMs);
            Concat(d.emitted) + Concat(d.buf) == Concat(c.emitted) + Concat(c.buf) + a.token
  {
    var buf := c.buf + [a.token];
    assert buf[..|buf| - 1] == c.buf;
    if a.at - c.last >= intervalMs {
      ConcatEmit(c.emitted, Flush(buf));
    }
  }

  /** What has been yielded followed by what is buffered is, at every point, exactly the
      text that has arrived. */
  lemma {:induction false} FeedAllKeepsText(start: int, arrivals: seq<Arrival>, intervalMs: int)
    ensures var c := FeedAll(start, arrivals, intervalMs);
            Concat(c.emitted) + Concat(c.buf) == Concat(Texts(arrivals))
    decreases |arrivals|
  {
    if arrivals != [] {
      var init := arrivals[..|arrivals| - 1];
      var a := arrivals[|arrivals| - 1];
      FeedAllKeepsText(start, init, intervalMs);
      FeedKeepsText(FeedAll(start, init, intervalMs), a, intervalMs);
      assert arrivals == init + [a];
      TextsAppend(init, a);
      assert Texts(arrivals)[..|arrivals| - 1] == Texts(init);
    }
  }

  predicate NoEmptyChunk(chunks: seq<string>) {
    forall i :: 0 <= i < |chunks| ==> chunks[i] != ""
  }

  lemma EmitNoEmpty(emitted: seq<string>, chunk: Option<string>)
    requires NoEmptyChunk(emitted)
    ensures NoEmptyChunk(Emit(emitted, chunk))
  {
  }

  /** The coalescer never yields an empty chunk, even from a buffer of empty strings. */
  lemma {:induction false} FeedAllNoEmptyChunk(start: int, arrivals: seq<Arrival>, intervalMs: int)
    ensures NoEmptyChunk(FeedAll(start, arrivals, intervalMs).emitted)
    decreases |arrivals|
  {
    if arrivals != [] {
      var init := arrivals[..|arrivals| - 1];
      var a := arrivals[|arrivals| - 1];
      var c := FeedAll(start, init, intervalMs);
      FeedAllNoEmptyChunk(start, init, intervalMs);
      EmitNoEmpty(c.emitted, Flush(c.buf + [a.token]));
    }
  }

  /** For a source that ends normally the chunks spell out exactly the tokens, in order;
      after a failure what was yielded is a prefix of them, and the buffered rest is lost. */
  lemma CoalescedKeepsText(fr: Fragments, start: int, intervalMs: int)
    ensures fr.end.Exhausted? ==> Concat(Coalesced(fr, start, intervalMs)) == Concat(Texts(fr.arrivals))
    ensures fr.end.Failed? ==>
              var out := Concat(Coalesced(fr, start, intervalMs));
              |out| <= |Concat(Texts(fr.arrivals))| && out == Concat(Texts(fr.arrivals))[..|out|]
  {
    var c := FeedAll(start, fr.arrivals, intervalMs);
    FeedAllKeepsText(start, fr.arrivals, intervalMs);
    ConcatEmit(c.emitted, Flush(c.buf));
  }

  lemma CoalescedNoEmptyChunk(fr: Fragments, start: int, intervalMs: int)
    ensures NoEmptyChunk(Coalesced(fr, start, intervalMs))
  {
    var c := FeedAll(start, fr.arrivals, intervalMs);
    FeedAllNoEmptyChunk(start, fr.arrivals, intervalMs);
    EmitNoEmpty(c.emitted, Flush(c.buf));
  }

  /** The flush rule for one arrival: a chunk can only come out when the interval has
      elapsed since `last`; then the buffer is emptied and `last` moves to the arrival
      time, whether or not anything was yielded. Otherwise the token is only buffered. */
  lemma FeedRule(c: Coalescer, a: Arrival, intervalMs: int)
    ensures var d := Feed(c, a, intervalMs);
            |d.emitted| > |c.emitted| ==> a.at - c.last >= intervalMs
    ensures var d := Feed(c, a, intervalMs);
            a.at - c.last >= intervalMs ==> d.buf == [] && d.last == a.at && |d.emitted| <= |c.emitted| + 1
    ensures var d := Feed(c, a, intervalMs);
            a.at - c.last < intervalMs ==> d == Coalescer(c.buf + [a.token], c.last, c.emitted)
    ensures var d := Feed(c, a, intervalMs);
            d.emitted[..|c.emitted|] == c.emitted
  {
  }

  /** An empty source yields nothing, however it ends. */
  lemma EmptySourceYieldsNothing(end: StreamEnd, start: int, intervalMs: int)
    ensures Coalesced(Fragments([], end), start, intervalMs) == []
  {
  }

  predicate Nondecreasing(start: int, arrivals: seq<Arrival>) {
    (forall i :: 0 <= i < |arrivals| ==> start <= arrivals[i].at) &&
    (forall i, j :: 0 <= i < j < |arrivals| ==> arrivals[i].at <= arrivals[j].at)
  }

  /** With interval 0, a non-empty token that does not arrive before `last` is yielded
      on its own at once. */
  lemma FeedZeroInterval(c: Coalescer, a: Arrival)
    requires c.buf == [] && c.last <= a.at && a.token != ""
    ensures Feed(c, a, 0) == Coalescer([], a.at, c.emitted + [a.token])
  {
    ConcatSingle(a.token);
  }

  /** With interval 0 and a clock that never runs backwards, every non-empty token is
      yielded at once as its own chunk. */
  lemma {:induction false} ZeroIntervalPassesThrough(start: int, arrivals: seq<Arrival>)
    requires Nondecreasing(start, arrivals)
    requires forall i :: 0 <= i < |arrivals| ==> arrivals[i].token != ""
    ensures var c := FeedAll(start, arrivals, 0);
            c.buf == [] && c.emitted == Texts(arrivals) &&
            c.last == (if arrivals == [] then start else arrivals[|arrivals| - 1].at)
    decreases |arrivals|
  {
    if arrivals != [] {
      var init := arrivals[..|arrivals| - 1];
      var a := arrivals[|arrivals| - 1];
      assert Nondecreasing(start, init);
      ZeroIntervalPassesThrough(start, init);
      FeedZeroInterval(FeedAll(start, init, 0), a);
      assert arrivals == init + [a];
      TextsAppend(init, a);
    }
  }

  /** While no arrival comes `intervalMs` or more after `start`, nothing is yielded and
      everything stays buffered. */
  lemma {:induction false} QuietWindowBuffers(start: int, arrivals: seq<Arrival>, intervalMs: int)
    requires forall i :: 0 <= i < |arrivals| ==> arrivals[i].at - start < intervalMs
    ensures FeedAll(start, arrivals, intervalMs) == Coalescer(Texts(arrivals), start, [])
    decreases |arrivals|
  {
    if arrivals != [] {
      var init := arrivals[..|arrivals| - 1];
      QuietWindowBuffers(start, init, intervalMs);
      TextsAppend(init, arrivals[|arrivals| - 1]);
      assert init + [arrivals[|arrivals| - 1]] == arrivals;
    }
  }

  /** A stream that finishes normally within one quiet window comes out as one chunk
      holding all of its text (or nothing, when there is no text). */
  lemma QuietStreamIsOneChunk(fr: Fragments, start: int, intervalMs: int)
    requires fr.end.Exhausted?
    requires forall i :: 0 <= i < |fr.arrivals| ==> fr.arrivals[i].at - start < intervalMs
    ensures var text := Concat(Texts(fr.arrivals));
            Coalesced(fr, start, intervalMs) == (if text == "" then [] else [text])
  {
    QuietWindowBuffers(start, fr.arrivals, intervalMs);
  }

  // ---------------------------------------------------------------------------
  // `openai_adapt_stream`
  // ---------------------------------------------------------------------------

  datatype Message = Message(role: string, content: string)

  /** The arguments of `client.chat.completions.create`, plus the key the client holds. */
  datatype ChatRequest = ChatRequest(apiKey: string, model: string, messages: seq<Message>,
                                     temperature: real, stream: bool)

  /** What the upstream call does with a request: it raises, or it opens a stream. A
      stream holds the clock reading when coalescing starts, the events with their
      arrival times, and how the iteration ends. */
  datatype Upstream =
    | Refused(reason: string)
    | Streaming(startedAt: int, events: seq<TimedEvent>, end: UpstreamEnd)

  /** The SDK: its import fails, or it gives a client answering requests. */
  datatype Client = Missing(importError: string) | Available(respond: ChatRequest -> Upstream)

  datatype ProviderOutput = ProviderOutput(chunks: seq<string>, end: StreamEnd)

  /** The request for one adaptation: a system and a user message, temperature 0.5, streaming. */
  function BuildRequest(text: string, level: string, model: string, apiKey: string, mode: string): ChatRequest {
    ChatRequest(apiKey, model,
                [Message("system", Prompting.BuildSystemPrompt(level, mode)),
                 Message("user", Prompting.BuildUserPrompt(text))],
                0.5, true)
  }

  /** The request carries the prompts for the level and mode, and the text is recoverable
      from the user message. */
  lemma RequestCarriesText(text: string, level: string, model: string, apiKey: string, mode: string)
    ensures var r := BuildRequest(text, level, model, apiKey, mode);
            |r.messages| == 2 && r.stream &&
            r.messages[0] == Message("system", Prompting.BuildSystemPrompt(level, mode)) &&
            r.messages[1].role == "user" &&
            Prompting.UserPromptText(r.messages[1].content) == Some(text)
  {
    Prompting.UserPromptRoundTrip(text);
  }

  /** `batch_interval_ms and batch_interval_ms > 0`: coalescing only for a positive interval. */
  predicate BatchingOn(batchMs: Option<int>) {
    batchMs.Some? && batchMs.value > 0
  }

  /** What `openai_adapt_stream` yields, and how it ends. */
  function AdaptSpec(client: Client, text: string, level: string, model: string, apiKey: string,
                     mode: string, batchMs: Option<int>): ProviderOutput {
    match client
    case Missing(e) => ProviderOutput([], Failed("openai client not available: " + e))
    case Available(respond) =>
      match respond(BuildRequest(text, level, model, apiKey, mode))
      case Refused(reason) => ProviderOutput([], Failed(reason))
      case Streaming(startedAt, events, end) =>
        var fr := Fragments(Usable(events), EndOf(end));
        if BatchingOn(batchMs) then ProviderOutput(Coalesced(fr, startedAt, batchMs.value), fr.end)
        else ProviderOutput(Texts(fr.arrivals), fr.end)
  }

  /** `openai_adapt_stream(...)` run to its end. */
  method AdaptStream(client: Client, text: string, level: string, model: string, apiKey: string,
                     mode: string, batchMs: Option<int>) returns (out: ProviderOutput)
    ensures out == AdaptSpec(client, text, level, model, apiKey, mode, batchMs)
  {
    if client.Missing? {
      return ProviderOutput([], Failed("openai client not available: " + client.importError));
    }
    var up := client.respond(BuildRequest(text, level, model, apiKey, mode));
    if up.Refused? {
      return ProviderOutput([], Failed(up.reason));
    }
    var fr := Tokens(up.events, up.end);
    if batchMs.Some? && batchMs.value > 0 {
      var chunks := Coalesce(fr, up.startedAt, batchMs.value);
      out := ProviderOutput(chunks, fr.end);
    } else {
      out := ProviderOutput(Texts(fr.arrivals), fr.end);
    }
  }

  /** Failures before the stream opens yield nothing and end with the matching error;
      a failure of the iteration ends with "stream error: ...". */
  lemma AdaptErrors(client: Client, text: string, level: string, model: string, apiKey: string,
                    mode: string, batchMs: Option<int>)
    ensures var out := AdaptSpec(client, text, level, model, apiKey, mode, batchMs);
            client.Missing? ==> out == ProviderOutput([], Failed("openai client not available: " + client.importError))
    ensures client.Available? ==>
              var out := AdaptSpec(client, text, level, model, apiKey, mode, batchMs);
              var up := client.respond(BuildRequest(text, level, model, apiKey, mode));
              (up.Refused? ==> out == ProviderOutput([], Failed(up.reason))) &&
              (up.Streaming? ==> (out.end.Exhausted? <==> up.end.Done?) &&
                                 (up.end.Broke? ==> out.end == Failed("stream error: " + up.end.detail)))
  {
  }

  /** Without batching every usable delta passes through as its own chunk, in order. */
  lemma AdaptPassThrough(client: Client, text: string, level: string, model: string, apiKey: string,
                         mode: string, batchMs: Option<int>)
    requires client.Available? && !BatchingOn(batchMs)
    requires client.respond(BuildRequest(text, level, model, apiKey, mode)).Streaming?
    ensures var up := client.respond(BuildRequest(text, level, model, apiKey, mode));
            AdaptSpec(client, text, level, model, apiKey, mode, batchMs).chunks == Texts(Usable(up.events))
  {
  }

  /** With or without batching, no chunk is empty; a stream that ends normally yields
      exactly the upstream delta text, and a failed one a prefix of it. */
  lemma AdaptKeepsText(client: Client, text: string, level: string, model: string, apiKey: string,
                       mode: string, batchMs: Option<int>)
    requires client.Available?
    requires client.respond(BuildRequest(text, level, model, apiKey, mode)).Streaming?
    ensures NoEmptyChunk(AdaptSpec(client, text, level, model, apiKey, mode, batchMs).chunks)
    ensures var out := AdaptSpec(client, text, level, model, apiKey, mode, batchMs);
            var up := client.respond(BuildRequest(text, level, model, apiKey, mode));
            var whole := Concat(Deltas(up.events));
            |Concat(out.chunks)| <= |whole| && Concat(out.chunks) == whole[..|Concat(out.chunks)|] &&
            (out.end.Exhausted? ==> Concat(out.chunks) == whole)
  {
    var up := client.respond(BuildRequest(text, level, model, apiKey, mode));
    var fr := Fragments(Usable(up.events), EndOf(up.end));
    UsableKeepsText(up.events);
    if BatchingOn(batchMs) {
      CoalescedKeepsText(fr, up.startedAt, batchMs.value);
      CoalescedNoEmptyChunk(fr, up.startedAt, batchMs.value);
    }
  }
}
