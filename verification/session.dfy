/** One WebSocket adaptation session: the handshake checks in their fixed order, the
    event log sent to the client, the `seq` counter and the close codes. The parsed
    first message, the settings, the query-string parser, the crypto primitives and
    the provider's SDK are inputs. */
module Session {
  import opened Common
  import Security
  import Providers

  // ---------------------------------------------------------------------------
  // Outbound events and the socket
  // ---------------------------------------------------------------------------

  datatype EventType = StartEvent | TokenEvent | ErrorEvent | EndEvent {
    /** The value of the JSON "type" field. */
    function Name(): string {
      match this
      case StartEvent => "start"
      case TokenEvent => "token"
      case ErrorEvent => "error"
      case EndEvent => "end"
    }
  }

  /** `{"type": ..., "data": ..., "seq": ...}`; `None` is JSON null. */
  datatype OutEvent = OutEvent(kind: EventType, data: string, seqNo: Option<nat>)

  /** The server side of one connection. `connected` is the application state being
      CONNECTED; `sent` and `closes` are what the server has put on the wire; `room`
      is how many more messages the peer takes before it turns out to be gone. */
  class WebSocket {
    var connected: bool
    var sent: seq<OutEvent>
    var closes: seq<int>
    var room: nat

    /** An accepted connection whose peer will take `room` messages. */
    constructor (room: nat)
      ensures connected && sent == [] && closes == [] && this.room == room
    {
      connected := true;
      sent := [];
      closes := [];
      this.room := room;
    }

    /** `send_text`: delivered while the peer is there; otherwise the socket drops to
        DISCONNECTED and the caller sees `WebSocketDisconnect` (`ok` is false). */
    method SendText(e: OutEvent) returns (ok: bool)
      requires connected
      modifies this
      ensures ok == (old(room) > 0)
      ensures ok ==> sent == old(sent) + [e] && room == old(room) - 1 && connected
      ensures !ok ==> sent == old(sent) && room == old(room) && !connected
      ensures closes == old(closes)
    {
      if room > 0 {
        sent := sent + [e];
        room := room - 1;
        ok := true;
      } else {
        connected := false;
        ok := false;
      }
    }

    /** `close(code)`: recorded on a connected socket, which then leaves the CONNECTED
        state; on a socket that is no longer connected it has no visible effect. */
    method Close(code: int)
      modifies this
      ensures closes == (if old(connected) then old(closes) + [code] else old(closes))
      ensures !connected && sent == old(sent) && room == old(room)
    {
      if connected {
        closes := closes + [code];
      }
      connected := false;
    }
  }

  /** The handler's `send` helper: a no-op unless the socket is connected. `gone` is
      true when the send raised `WebSocketDisconnect`. */
  method Send(ws: WebSocket, e: OutEvent) returns (gone: bool)
    modifies ws
    ensures old(ws.connected) && old(ws.room) > 0 ==>
              ws.sent == old(ws.sent) + [e] && ws.room == old(ws.room) - 1 && ws.connected && !gone
    ensures old(ws.connected) && old(ws.room) == 0 ==> ws.sent == old(ws.sent) && ws.room == 0 && !ws.connected && gone
    ensures !old(ws.connected) ==> ws.sent == old(ws.sent) && ws.room == old(ws.room) && !ws.connected && !gone
    ensures ws.closes == old(ws.closes)
  {
    gone := false;
    if ws.connected {
      var ok := ws.SendText(e);
      gone := !ok;
    }
  }

  // ---------------------------------------------------------------------------
  // The handshake
  // ---------------------------------------------------------------------------

  /** The first client message: JSON that could not be read as an object (the error
      text), or an object with string fields. */
  datatype InitMessage = Unreadable(error: string) | InitObject(fields: map<string, string>)

  /** The settings the handler reads. */
  datatype Settings = Settings(botToken: string, openaiApiKey: Option<string>, openaiModel: string,
                               tokenDelayMs: int)

  /** What lies outside the handler: `parse_qsl` and the crypto primitives. */
  datatype Env = Env(parsePairs: string -> seq<Security.Pair>, prims: Security.Primitives)

  /** `init.get(name, default)`. */
  function Field(fields: map<string, string>, name: string, default: string): string {
    if name in fields then fields[name] else default
  }

  /** `verify_init_data(init_data, bot_token=settings.bot_token)`: its verdict, or the
      error it raises. */
  function SignatureCheck(initData: string, cfg: Settings, env: Env): Security.Outcome {
    Security.VerifyInitData(env.parsePairs(initData), cfg.botToken, env.prims)
  }

  predicate SignatureOk(initData: string, cfg: Settings, env: Env) {
    SignatureCheck(initData, cfg, env) == Security.Returned(true)
  }

  /** `not settings.openai_api_key` is false: a key is present and non-empty. */
  predicate KeyConfigured(cfg: Settings) {
    cfg.openaiApiKey.Some? && cfg.openaiApiKey.value != ""
  }

  /** The outcome of the handshake: an error text and close code, or what to stream. */
  datatype Verdict =
    | Rejected(message: string, code: int)
    | Accepted(payload: string, level: string, apiKey: string)

  const UnsupportedSource := "only source_type=text with non-empty payload supported"

  /** The checks in the handler's order: readable message, signature, source and
      payload, API key. An error raised by the signature check lands in the same
      `except` as an unreadable message. */
  function Handshake(msg: InitMessage, cfg: Settings, env: Env): Verdict {
    match msg
    case Unreadable(error) => Rejected("bad init message: " + error, 1003)
    case InitObject(f) =>
      var check := SignatureCheck(Field(f, "init_data", ""), cfg, env);
      if check.Raised? then Rejected("bad init message: " + check.error, 1003)
      else if !check.ok then Rejected("invalid init_data", 1008)
      else if Field(f, "source_type", "text") != "text" || Field(f, "payload", "") == "" then
        Rejected(UnsupportedSource, 1003)
      else if !KeyConfigured(cfg) then Rejected("OpenAI API key not configured", 1011)
      else Accepted(Field(f, "payload", ""), Field(f, "level", "B1"), cfg.openaiApiKey.value)
  }

  /** Which check fails decides the close code, and the message is accepted exactly when
      every check passes. */
  lemma HandshakeOrder(msg: InitMessage, cfg: Settings, env: Env)
    ensures var v := Handshake(msg, cfg, env);
            v.Accepted? <==>
              msg.InitObject? && SignatureOk(Field(msg.fields, "init_data", ""), cfg, env) &&
              Field(msg.fields, "source_type", "text") == "text" && Field(msg.fields, "payload", "") != "" &&
              KeyConfigured(cfg)
    ensures var v := Handshake(msg, cfg, env);
            v.Rejected? && v.code == 1008 <==>
              msg.InitObject? && SignatureCheck(Field(msg.fields, "init_data", ""), cfg, env) == Security.Returned(false)
    ensures var v := Handshake(msg, cfg, env);
            v.Rejected? && v.code == 1011 <==>
              msg.InitObject? && SignatureOk(Field(msg.fields, "init_data", ""), cfg, env) &&
              Field(msg.fields, "source_type", "text") == "text" && Field(msg.fields, "payload", "") != "" &&
              !KeyConfigured(cfg)
    ensures var v := Handshake(msg, cfg, env);
            v.Rejected? && v.code == 1003 <==>
              msg.Unreadable? ||
              SignatureCheck(Field(msg.fields, "init_data", ""), cfg, env).Raised? ||
              (SignatureOk(Field(msg.fields, "init_data", ""), cfg, env) &&
               (Field(msg.fields, "source_type", "text") != "text" || Field(msg.fields, "payload", "") == ""))
    ensures var v := Handshake(msg, cfg, env);
            v.Rejected? ==> v.code in {1003, 1008, 1011}
    ensures msg.InitObject? ==>
              var check := SignatureCheck(Field(msg.fields, "init_data", ""), cfg, env);
              check.Raised? ==> Handshake(msg, cfg, env) == Rejected("bad init message: " + check.error, 1003)
  {
  }

  /** An accepted message has a non-empty payload, and its level is the client's or "B1";
      a missing `source_type` counts as "text". */
  lemma HandshakeDefaults(msg: InitMessage, cfg: Settings, env: Env)
    ensures var v := Handshake(msg, cfg, env);
            v.Accepted? ==> v.payload != "" && v.payload == msg.fields["payload"] &&
                            v.level == (if "level" in msg.fields then msg.fields["level"] else "B1") &&
                            Some(v.apiKey) == cfg.openaiApiKey
    ensures (msg.InitObject? && "source_type" !in msg.fields && "payload" in msg.fields &&
             msg.fields["payload"] != "" && SignatureOk(Field(msg.fields, "init_data", ""), cfg, env) &&
             KeyConfigured(cfg)) ==> Handshake(msg, cfg, env).Accepted?
  {
  }

  // ---------------------------------------------------------------------------
  // The event log
  // ---------------------------------------------------------------------------

  /** What the handler means to send, and the close code it means to end with. */
  datatype Plan = Plan(events: seq<OutEvent>, code: int)

  function TokenEvents(chunks: seq<string>): (r: seq<OutEvent>)
    ensures |r| == |chunks|
  {
    seq(|chunks|, i requires 0 <= i < |chunks| => OutEvent(TokenEvent, chunks[i], Some(i)))
  }

  /** The event after the last token: `end` with the token count, or the provider error. */
  function Terminal(out: Providers.ProviderOutput): OutEvent {
    match out.end
    case Exhausted => OutEvent(EndEvent, "stream-end", Some(|out.chunks|))
    case Failed(message) => OutEvent(ErrorEvent, "provider error: " + message, None)
  }

  function StreamEvents(out: Providers.ProviderOutput): seq<OutEvent> {
    [OutEvent(StartEvent, "stream-begin", None)] + TokenEvents(out.chunks) + [Terminal(out)]
  }

  /** The whole session as planned: one error and the handshake's close code, or the
      stream of the provider's output and a normal close. */
  function SessionPlan(msg: InitMessage, cfg: Settings, env: Env, client: Providers.Client): Plan {
    match Handshake(msg, cfg, env)
    case Rejected(message, code) => Plan([OutEvent(ErrorEvent, message, None)], code)
    case Accepted(payload, level, apiKey) =>
      Plan(StreamEvents(Providers.AdaptSpec(client, payload, level, cfg.openaiModel, apiKey, "simplify",
                                            Some(cfg.tokenDelayMs))), 1000)
  }

  /** What reaches the wire when the peer takes `room` messages: the whole plan and its
      close, or the part the peer took and no close at all. */
  function Deliver(plan: Plan, room: nat): (seq<OutEvent>, seq<int>) {
    if |plan.events| <= room then (plan.events, [plan.code]) else (plan.events[..room], [])
  }

  // ---------------------------------------------------------------------------
  // `ws_adapt_handler`
  // ---------------------------------------------------------------------------

  /** The `except Exception` branch of the handshake: report and close with 1003. */
  method RejectBadInit(ws: WebSocket, detail: string)
    modifies ws
    ensures old(ws.connected) && old(ws.room) > 0 ==>
              ws.sent == old(ws.sent) + [OutEvent(ErrorEvent, "bad init message: " + detail, None)] &&
              ws.closes == old(ws.closes) + [1003]
    ensures old(ws.connected) && old(ws.room) == 0 ==> ws.sent == old(ws.sent) && ws.closes == old(ws.closes)
    ensures !old(ws.connected) ==> ws.sent == old(ws.sent) && ws.closes == old(ws.closes)
    ensures !ws.connected
  {
    var _ := Send(ws, OutEvent(ErrorEvent, "bad init message: " + detail, None));
    ws.Close(1003);
  }

  /** Sends a handshake rejection and closes with its code. A send that finds the peer
      gone raises inside the `try`, so the generic branch runs on a socket that is no
      longer connected, where neither its send nor its close shows. */
  method Reject(ws: WebSocket, message: string, code: int)
    requires ws.connected
    modifies ws
    ensures old(ws.room) > 0 ==>
              ws.sent == old(ws.sent) + [OutEvent(ErrorEvent, message, None)] && ws.closes == old(ws.closes) + [code]
    ensures old(ws.room) == 0 ==> ws.sent == old(ws.sent) && ws.closes == old(ws.closes)
  {
    var gone := Send(ws, OutEvent(ErrorEvent, message, None));
    if gone {
      RejectBadInit(ws, "");
      return;
    }
    ws.Close(code);
  }

  /** A one-event plan reaches the wire whole, or not at all. */
  lemma DeliverSingle(e: OutEvent, code: int, room: nat)
    ensures Deliver(Plan([e], code), room) == if room > 0 then ([e], [code]) else ([], [])
  {
    assert [e][..0] == [];
  }

  /** `ws_adapt_handler(ws)` after `accept()`, for the given first message. */
  method AdaptHandler(ws: WebSocket, msg: InitMessage, cfg: Settings, env: Env, client: Providers.Client)
    requires ws.connected && ws.sent == [] && ws.closes == []
    modifies ws
    ensures (ws.sent, ws.closes) == Deliver(SessionPlan(msg, cfg, env, client), old(ws.room))
  {
    // --- handshake: every failure sends one error and closes ---
    ghost var room := ws.room;
    ghost var v := Handshake(msg, cfg, env);
    if v.Rejected? {
      assert SessionPlan(msg, cfg, env, client) == Plan([OutEvent(ErrorEvent, v.message, None)], v.code);
      DeliverSingle(OutEvent(ErrorEvent, v.message, None), v.code, ws.room);
    }
    if msg.Unreadable? {
      RejectBadInit(ws, msg.error);
      if room > 0 {
        assert ws.sent == [OutEvent(ErrorEvent, v.message, None)] && ws.closes == [1003];
      } else {
        assert ws.sent == [] && ws.closes == [];
      }
      return;
    }
    var f := msg.fields;
    var initData := Field(f, "init_data", "");
    var check := SignatureCheck(initData, cfg, env);
    if check.Raised? {
      RejectBadInit(ws, check.error);
      if room > 0 {
        assert ws.sent == [OutEvent(ErrorEvent, v.message, None)] && ws.closes == [1003];
      } else {
        assert ws.sent == [] && ws.closes == [];
      }
      return;
    }
    if !check.ok {
      Reject(ws, "invalid init_data", 1008);
      if room > 0 {
        assert ws.sent == [OutEvent(ErrorEvent, v.message, None)] && ws.closes == [1008];
      }
      return;
    }
    var sourceType := Field(f, "source_type", "text");
    var payload := Field(f, "payload", "");
    var level := Field(f, "level", "B1");
    if sourceType != "text" || payload == "" {
      Reject(ws, UnsupportedSource, 1003);
      if room > 0 {
        assert ws.sent == [OutEvent(ErrorEvent, v.message, None)] && ws.closes == [1003];
      }
      return;
    }
    if !(cfg.openaiApiKey.Some? && cfg.openaiApiKey.value != "") {
      Reject(ws, "OpenAI API key not configured", 1011);
      if room > 0 {
        assert ws.sent == [OutEvent(ErrorEvent, v.message, None)] && ws.closes == [1011];
      }
      return;
    }

    // --- streaming ---
    var out := Providers.AdaptStream(client, payload, level, cfg.openaiModel, cfg.openaiApiKey.value,
                                     "simplify", Some(cfg.tokenDelayMs));
    assert v == Accepted(payload, level, cfg.openaiApiKey.value);
    Stream(ws, out);
  }

  /** The streaming half of the handler: `start`, one numbered `token` per chunk, then
      `end` or the provider error, and the final close if still connected. A send that
      finds the peer gone ends the session silently. */
  method Stream(ws: WebSocket, out: Providers.ProviderOutput)
    requires ws.connected && ws.sent == [] && ws.closes == []
    modifies ws
    ensures (ws.sent, ws.closes) == Deliver(Plan(StreamEvents(out), 1000), old(ws.room))
  {
    ghost var room := ws.room;
    ghost var plan := StreamEvents(out);
    var gone := Send(ws, OutEvent(StartEvent, "stream-begin", None));
    if gone {
      // raised outside the `try`: the handler ends without closing
      assert plan[..0] == [];
      return;
    }
    var n := 0;
    while n < |out.chunks|
      invariant 0 <= n <= |out.chunks|
      invariant ws.connected && ws.closes == []
      invariant ws.sent == plan[..n + 1] && ws.room == room - (n + 1)
    {
      gone := Send(ws, OutEvent(TokenEvent, out.chunks[n], Some(n)));
      if gone {
        break;
      }
      assert plan[..n + 2] == plan[..n + 1] + [plan[n + 1]];
      n := n + 1;
    }
    if !gone {
      assert plan[..|plan| - 1] == ws.sent;
      if out.end.Exhausted? {
        gone := Send(ws, OutEvent(EndEvent, "stream-end", Some(n)));
      } else {
        gone := Send(ws, OutEvent(ErrorEvent, "provider error: " + out.end.message, None));
      }
      assert !gone ==> ws.sent == plan;
    }
    assert gone ==> !ws.connected && ws.sent == plan[..room] && ws.closes == [] && room < |plan|;
    assert !gone ==> ws.connected && ws.sent == plan && |plan| <= room && ws.closes == [];
    // finally
    if ws.connected {
      ws.Close(1000);
      assert ws.closes == [1000];
      assert Deliver(Plan(plan, 1000), room) == (plan, [1000]);
    } else {
      assert Deliver(Plan(plan, 1000), room) == (plan[..room], []);
    }
  }

  // ---------------------------------------------------------------------------
  // Properties of the log
  // ---------------------------------------------------------------------------

  function CountKind(events: seq<OutEvent>, kind: EventType): nat {
    if events == [] then 0
    else CountKind(events[..|events| - 1], kind) + (if events[|events| - 1].kind == kind then 1 else 0)
  }

  lemma {:induction false} CountKindAppend(a: seq<OutEvent>, b: seq<OutEvent>, kind: EventType)
    ensures CountKind(a + b, kind) == CountKind(a, kind) + CountKind(b, kind)
    decreases |b|
  {
    if b != [] {
      assert (a + b)[..|a + b| - 1] == a + b[..|b| - 1];
      assert (a + b)[|a + b| - 1] == b[|b| - 1];
      CountKindAppend(a, b[..|b| - 1], kind);
    } else {
      assert a + b == a;
    }
  }

  lemma {:induction false} CountKindTokens(chunks: seq<string>, kind: EventType)
    requires kind != TokenEvent
    ensures CountKind(TokenEvents(chunks), kind) == 0
    decreases |chunks|
  {
    if chunks != [] {
      var init := chunks[..|chunks| - 1];
      assert TokenEvents(chunks)[..|chunks| - 1] == TokenEvents(init);
      CountKindTokens(init, kind);
    }
  }

  /** A rejected session sends exactly one `error`, with a null `seq`, and never `start`;
      it closes with the handshake's code. */
  lemma RejectedSession(msg: InitMessage, cfg: Settings, env: Env, client: Providers.Client)
    requires Handshake(msg, cfg, env).Rejected?
    ensures var p := SessionPlan(msg, cfg, env, client);
            p.events == [OutEvent(ErrorEvent, Handshake(msg, cfg, env).message, None)] &&
            p.code == Handshake(msg, cfg, env).code &&
            CountKind(p.events, StartEvent) == 0
  {
    assert [OutEvent(ErrorEvent, Handshake(msg, cfg, env).message, None)][..0] == [];
  }

  /** An empty payload is refused before any provider is involved: whatever the SDK
      would do, the plan is the same one error. */
  lemma EmptyPayloadNeverStreams(msg: InitMessage, cfg: Settings, env: Env, c1: Providers.Client, c2: Providers.Client)
    requires msg.InitObject? && Field(msg.fields, "payload", "") == ""
    ensures SessionPlan(msg, cfg, env, c1) == SessionPlan(msg, cfg, env, c2)
    ensures |SessionPlan(msg, cfg, env, c1).events| == 1
    ensures SessionPlan(msg, cfg, env, c1).events[0].kind == ErrorEvent
  {
  }

  /** The streaming log: `start` first with null `seq`, then the chunks as `token`
      events numbered 0..n-1 in order, then one terminal event, which is `end` with
      `seq` n exactly when the provider finished normally. */
  lemma StreamLogShape(out: Providers.ProviderOutput)
    ensures var ev := StreamEvents(out);
            var n := |out.chunks|;
            |ev| == n + 2 &&
            ev[0] == OutEvent(StartEvent, "stream-begin", None) &&
            (forall i :: 1 <= i <= n ==> ev[i] == OutEvent(TokenEvent, out.chunks[i - 1], Some(i - 1))) &&
            (ev[n + 1].kind == EndEvent <==> out.end.Exhausted?) &&
            (out.end.Exhausted? ==> ev[n + 1] == OutEvent(EndEvent, "stream-end", Some(n))) &&
            (out.end.Failed? ==> ev[n + 1] == OutEvent(ErrorEvent, "provider error: " + out.end.message, None))
  {
  }

  /** At most one `start` and exactly one terminal event, which comes last; a failed
      provider never produces `end`. */
  lemma StreamLogCounts(out: Providers.ProviderOutput)
    ensures var ev := StreamEvents(out);
            CountKind(ev, StartEvent) == 1 &&
            CountKind(ev, EndEvent) + CountKind(ev, ErrorEvent) == 1 &&
            (out.end.Failed? ==> CountKind(ev, EndEvent) == 0)
  {
    var start := [OutEvent(StartEvent, "stream-begin", None)];
    var toks := TokenEvents(out.chunks);
    var last := [Terminal(out)];
    CountKindAppend(start + toks, last, StartEvent);
    CountKindAppend(start, toks, StartEvent);
    CountKindAppend(start + toks, last, EndEvent);
    CountKindAppend(start, toks, EndEvent);
    CountKindAppend(start + toks, last, ErrorEvent);
    CountKindAppend(start, toks, ErrorEvent);
    CountKindTokens(out.chunks, StartEvent);
    CountKindTokens(out.chunks, EndEvent);
    CountKindTokens(out.chunks, ErrorEvent);
    assert start[..0] == [] && last[..0] == [];
  }

  /** In any session, every numbered event carries its position among the numbered
      events: the `seq` values run 0, 1, 2, ... with no gap or repeat, and no unnumbered
      event comes between numbered ones. */
  lemma SeqContiguous(msg: InitMessage, cfg: Settings, env: Env, client: Providers.Client)
    ensures var ev := SessionPlan(msg, cfg, env, client).events;
            forall i :: 0 <= i < |ev| && ev[i].seqNo.Some? ==> i >= 1 && ev[i].seqNo.value == i - 1
    ensures var ev := SessionPlan(msg, cfg, env, client).events;
            forall i, j :: 1 <= i < j < |ev| && ev[j].seqNo.Some? ==> ev[i].seqNo.Some?
  {
    ghost var v := Handshake(msg, cfg, env);
    if v.Accepted? {
      StreamLogShape(Providers.AdaptSpec(client, v.payload, v.level, cfg.openaiModel, v.apiKey, "simplify",
                                         Some(cfg.tokenDelayMs)));
    }
  }

  /** On the wire the client sees a prefix of the plan and at most one close; the close
      comes exactly when the whole plan got through, and a peer that left mid-way gets
      nothing after the point it left. */
  lemma DeliveryRules(plan: Plan, room: nat)
    ensures var (sent, closes) := Deliver(plan, room);
            |sent| <= |plan.events| && sent == plan.events[..|sent|] &&
            |closes| <= 1 &&
            (closes == [plan.code] <==> |plan.events| <= room) &&
            (closes == [] <==> room < |plan.events|) &&
            (room < |plan.events| ==> |sent| == room)
  {
  }

  /** With no coalescing (`token_delay_ms` at most 0): three fragments arrive, and the
      client sees `start`, tokens 0, 1, 2, then `end` with 3. */
  lemma ThreeFragmentExample(msg: InitMessage, cfg: Settings, env: Env, client: Providers.Client, t: int)
    requires Handshake(msg, cfg, env).Accepted? && cfg.tokenDelayMs <= 0
    requires client.Available?
    requires var v := Handshake(msg, cfg, env);
             client.respond(Providers.BuildRequest(v.payload, v.level, cfg.openaiModel, v.apiKey, "simplify")) ==
               Providers.Streaming(t, [ContentEvent("Hel", t), ContentEvent("lo ", t), ContentEvent("world", t)], Providers.Done)
    ensures SessionPlan(msg, cfg, env, client).events ==
            [OutEvent(StartEvent, "stream-begin", None),
             OutEvent(TokenEvent, "Hel", Some(0)), OutEvent(TokenEvent, "lo ", Some(1)),
             OutEvent(TokenEvent, "world", Some(2)),
             OutEvent(EndEvent, "stream-end", Some(3))]
  {
    ghost var v := Handshake(msg, cfg, env);
    var events := [ContentEvent("Hel", t), ContentEvent("lo ", t), ContentEvent("world", t)];
    ThreeFragmentsPass(t);
    var out := Providers.AdaptSpec(client, v.payload, v.level, cfg.openaiModel, v.apiKey, "simplify", Some(cfg.tokenDelayMs));
    assert !Providers.BatchingOn(Some(cfg.tokenDelayMs));
    assert out.chunks == Providers.Texts(Providers.Usable(events));
    assert out.end == Providers.Exhausted;
    assert out.chunks == ["Hel", "lo ", "world"];
    StreamOfThree(out, "Hel", "lo ", "world");
    assert SessionPlan(msg, cfg, env, client).events == StreamEvents(out);
  }

  lemma StreamOfThree(out: Providers.ProviderOutput, a: string, b: string, c: string)
    requires out.chunks == [a, b, c] && out.end.Exhausted?
    ensures StreamEvents(out) ==
            [OutEvent(StartEvent, "stream-begin", None),
             OutEvent(TokenEvent, a, Some(0)), OutEvent(TokenEvent, b, Some(1)),
             OutEvent(TokenEvent, c, Some(2)),
             OutEvent(EndEvent, "stream-end", Some(3))]
  {
    assert TokenEvents(out.chunks) ==
           [OutEvent(TokenEvent, a, Some(0)), OutEvent(TokenEvent, b, Some(1)), OutEvent(TokenEvent, c, Some(2))];
  }

  lemma ThreeFragmentsPass(t: int)
    ensures Providers.Texts(Providers.Usable([ContentEvent("Hel", t), ContentEvent("lo ", t), ContentEvent("world", t)])) ==
            ["Hel", "lo ", "world"]
  {
    var events := [ContentEvent("Hel", t), ContentEvent("lo ", t), ContentEvent("world", t)];
    assert events[..2][..1][..0] == [];
    assert events[..2][..1] == [ContentEvent("Hel", t)];
    assert Providers.Usable(events[..2][..1]) == [Providers.Arrival("Hel", t)];
    assert Providers.Usable(events[..2]) == [Providers.Arrival("Hel", t), Providers.Arrival("lo ", t)];
    assert Providers.Usable(events) ==
           [Providers.Arrival("Hel", t), Providers.Arrival("lo ", t), Providers.Arrival("world", t)];
  }

  /** An upstream event whose object delta carries `text`. */
  function ContentEvent(text: string, at: int): Providers.TimedEvent {
    Providers.TimedEvent(Providers.ChatEvent([Providers.Choice(Providers.ObjectDelta(Some(text)))]), at)
  }
}
