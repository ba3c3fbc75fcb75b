/**
 * One connection to Discord's real-time gateway, `src/network/gateway.ts`:
 * the opcode and intent tables, and a "generation", the inner `gateway`
 * function that owns one socket. A generation keeps four variables
 * (`heartbeat`, `acked`, `seq`, `sessionId`), reacts to each socket event
 * and each tick of its heartbeat timer, and ends by scheduling the next
 * generation, by a close event, by the end of the socket stream, or by an
 * exception.
 *
 * Frames arrive already parsed. What a generation does to the outside world
 * is a list of effects: frames sent, socket closes, timer starts and stops,
 * the next generation scheduled, and signals emitted on the shared
 * dispatcher.
 */
module Gateway {
  import opened Values
  import opened Signals
  import opened GatewayInterface

  /** The gateway opcodes. */
  datatype Opcode =
    | Dispatch | Heartbeat | Identify | PresenceUpdate | VoiceStateUpdate
    | Resume | Reconnect | RequestGuildMembers | InvalidSession | Hello | HeartbeatAck

  /** The number of each opcode on the wire. */
  function Code(o: Opcode): int {
    match o
    case Dispatch => 0
    case Heartbeat => 1
    case Identify => 2
    case PresenceUpdate => 3
    case VoiceStateUpdate => 4
    case Resume => 6
    case Reconnect => 7
    case RequestGuildMembers => 8
    case InvalidSession => 9
    case Hello => 10
    case HeartbeatAck => 11
  }

  /** The opcode a number stands for, if any: the `case Opcode.X` labels of the switch. */
  function FromCode(n: int): (r: Option<Opcode>)
    ensures r.Some? ==> Code(r.value) == n
  {
    if n == 0 then Some(Dispatch)
    else if n == 1 then Some(Heartbeat)
    else if n == 2 then Some(Identify)
    else if n == 3 then Some(PresenceUpdate)
    else if n == 4 then Some(VoiceStateUpdate)
    else if n == 6 then Some(Resume)
    else if n == 7 then Some(Reconnect)
    else if n == 8 then Some(RequestGuildMembers)
    else if n == 9 then Some(InvalidSession)
    else if n == 10 then Some(Hello)
    else if n == 11 then Some(HeartbeatAck)
    else None
  }

  /** Every opcode is recognised by its own number. */
  lemma CodeRoundTrip(o: Opcode)
    ensures FromCode(Code(o)) == Some(o)
  {
  }

  /** Exactly the numbers 0 to 11 except 5 are opcodes. */
  lemma AssignedCodes(n: int)
    ensures FromCode(n).Some? <==> (0 <= n <= 11 && n != 5)
  {
  }

  /** No two opcodes share a number. */
  lemma CodesDistinct(a: Opcode, b: Opcode)
    requires a != b
    ensures Code(a) != Code(b)
  {
    CodeRoundTrip(a);
    CodeRoundTrip(b);
  }

  /** The intent flags, one bit each. */
  const Guilds: bv32 := 1 << 0
  const GuildMembers: bv32 := 1 << 1
  const GuildBans: bv32 := 1 << 2
  const GuildEmojis: bv32 := 1 << 3
  const GuildIntegrations: bv32 := 1 << 4
  const GuildWebhooks: bv32 := 1 << 5
  const GuildInvites: bv32 := 1 << 6
  const GuildVoiceStates: bv32 := 1 << 7
  const GuildPresences: bv32 := 1 << 8
  const GuildMessages: bv32 := 1 << 9
  const GuildMessageReactions: bv32 := 1 << 10
  const GuildMessageTyping: bv32 := 1 << 11
  const DirectMessages: bv32 := 1 << 12
  const DirectMessageReactions: bv32 := 1 << 13
  const DirectMessageTyping: bv32 := 1 << 14

  /** Both message intents. */
  const Messages: bv32 := GuildMessages | DirectMessages

  /** Both reaction intents. */
  const MessageReactions: bv32 := GuildMessageReactions | DirectMessageReactions

  /** The combined intents are bits 9 and 12, and bits 10 and 13. */
  lemma CombinedIntents()
    ensures Messages == 0x1200 && Messages & GuildMessages != 0 && Messages & DirectMessages != 0
    ensures MessageReactions == 0x2400
  {
  }

  /** The close code of an ordinary close, and that of a missed heartbeat acknowledgement. */
  const NormalClosure: int := 1000
  const MissedAckClosure: int := 2000

  /** The delay before the next generation after INVALID_SESSION, in milliseconds. */
  const InvalidSessionDelay: int := 5000

  /** The browser and device names sent in IDENTIFY. */
  const LibraryName: string := "discosaurus"

  /** The signal emitted when the stream of socket events ends. */
  const DisconnectSignal: string := "disconnect"

  /** What a generation is started with when it resumes a session. */
  datatype ResumeInfo = ResumeInfo(sessionId: Json, seqNum: Json)

  /** What `openGateway` was given: the token, the intents if any, and the host's OS name. */
  datatype Config = Config(token: string, intents: Option<bv32>, os: string)

  /** The variables of a generation, and whether its loop over socket events has stopped. */
  datatype Session = Session(heartbeat: bool, acked: bool, seqNum: Json, sessionId: Json, ended: bool)

  /** What can happen to a generation: a text frame, a ping, a pong, a close event, the end of the stream, or a timer tick. */
  datatype Input = Text(m: Json) | Ping | Pong | Closed | End | Tick

  /** What a generation does to the outside. */
  datatype Effect =
    | Send(frame: Json)
    | CloseSocket(code: int)
    | StartTimer(interval: Json)
    | StopTimer
    | Reopen(delay: int, resume: Option<ResumeInfo>)
    | Emit(name: string, args: seq<Json>)
    | Fault

  /** The new variables and the effects, in order. */
  datatype Stepped = Stepped(state: Session, effects: seq<Effect>)

  /** A fresh generation: acknowledged, with no timer, and the resumed `seq` and session id if any. */
  function Initial(resume: Option<ResumeInfo>): Session {
    Session(
      heartbeat := false,
      acked := true,
      seqNum := if resume.Some? then resume.value.seqNum else JNull,
      sessionId := if resume.Some? && resume.value.sessionId != JNull then resume.value.sessionId else JStr(""),
      ended := false)
  }

  /** A frame `{op, d}`. */
  function Frame(op: Opcode, d: Json): Json {
    JObj([("op", JNum(Code(op))), ("d", d)])
  }

  /** Reading a frame back gives its opcode number and payload. */
  lemma FrameFields(op: Opcode, d: Json)
    ensures Member(Frame(op, d), "op") == JNum(Code(op))
    ensures Member(Frame(op, d), "d") == d
  {
  }

  /** The payload of IDENTIFY; an absent `intents` is left out, as `JSON.stringify` does. */
  function IdentifyPayload(cfg: Config): Json {
    JObj([("token", JStr(BotAuthorization(cfg.token))),
          ("properties", JObj([("$os", JStr(cfg.os)), ("$browser", JStr(LibraryName)), ("$device", JStr(LibraryName))]))]
         + (if cfg.intents.Some? then [("intents", JNum(cfg.intents.value as int))] else []))
  }

  /** The payload of RESUME. */
  function ResumePayload(cfg: Config, sessionId: Json, seqNum: Json): Json {
    JObj([("token", JStr(BotAuthorization(cfg.token))), ("session_id", sessionId), ("seq", seqNum)])
  }

  /** `sendHeartbeat`: a heartbeat when the last one was acknowledged, otherwise close 2000 and stop the timer. */
  function SendHeartbeat(s: Session): Stepped {
    if s.acked then Stepped(s.(acked := false), [Send(Frame(Heartbeat, s.seqNum))])
    else Stepped(s, [CloseSocket(MissedAckClosure), StopTimer])
  }

  /** Stopping the timer if the variable holds one, then closing normally. */
  function Closing(s: Session): seq<Effect> {
    (if s.heartbeat then [StopTimer] else []) + [CloseSocket(NormalClosure)]
  }

  /** A DISPATCH frame with event name `t`, payload `d` and sequence number `sn`. */
  function Dispatched(s: Session, t: Json, d: Json, sn: Json): Stepped {
    if t == JStr("READY") && d == JNull then Stepped(s.(ended := true), [Fault])
    else
      var s1 := if t == JStr("READY") then s.(sessionId := Member(d, "session_id")) else s;
      var s2 := if Truthy(sn) then s1.(seqNum := sn) else s1;
      if t.JStr? then Stepped(s2, [Emit(Lower(t.s), [d])])
      else Stepped(s2.(ended := true), [Fault])
  }

  /** The frame HELLO is answered with: IDENTIFY for a fresh session, RESUME otherwise. */
  function HelloReply(cfg: Config, resume: Option<ResumeInfo>, s: Session): Json {
    if resume.None? then Frame(Identify, IdentifyPayload(cfg))
    else Frame(Resume, ResumePayload(cfg, s.sessionId, s.seqNum))
  }

  /** The body of the loop for a parsed text frame `m`: the `switch(m.op)`. */
  function OnText(cfg: Config, resume: Option<ResumeInfo>, s: Session, m: Json): Stepped {
    if m == JNull then Stepped(s.(ended := true), [Fault])
    else
      var op := Member(m, "op");
      var d := Member(m, "d");
      var code := if op.JNum? then FromCode(op.n) else None;
      match code
      case Some(Hello) =>
        if d == JNull then Stepped(s.(ended := true), [Fault])
        else
            Stepped(s.(heartbeat := true), [StartTimer(Member(d, "heartbeat_interval")), Send(HelloReply(cfg, resume, s))])
      case Some(Heartbeat) => Stepped(s, [Send(Frame(Heartbeat, s.seqNum))])
      case Some(HeartbeatAck) => Stepped(s.(acked := true), [])
      case Some(Reconnect) => Stepped(s, Closing(s) + [Reopen(0, Some(ResumeInfo(s.sessionId, s.seqNum)))])
      case Some(InvalidSession) =>
        Stepped(s, Closing(s) + [Reopen(InvalidSessionDelay, if Truthy(d) then Some(ResumeInfo(s.sessionId, s.seqNum)) else None)])
      case Some(Dispatch) => Dispatched(s, Member(m, "t"), d, Member(m, "s"))
      case _ => Stepped(s, [])
  }

  /**
   * One input. A tick runs `sendHeartbeat` whether or not the loop has
   * stopped, since nothing stops the timer then; socket events after the
   * loop has stopped are not read.
   */
  function React(cfg: Config, resume: Option<ResumeInfo>, s: Session, input: Input): Stepped {
    if input.Tick? then SendHeartbeat(s)
    else if s.ended then Stepped(s, [])
    else
      match input
      case Text(m) => OnText(cfg, resume, s, m)
      case Ping => Stepped(s, [])
      case Pong => Stepped(s, [])
      case Closed => Stepped(s.(ended := true), [])
      case End => Stepped(s.(ended := true), [Emit(DisconnectSignal, [])])
  }

  /** A sequence of inputs, in order, with the effects of each appended. */
  function ReactAll(cfg: Config, resume: Option<ResumeInfo>, s: Session, inputs: seq<Input>): (r: Stepped)
    decreases |inputs|
  {
    if |inputs| == 0 then Stepped(s, [])
    else
      var before := ReactAll(cfg, resume, s, inputs[..|inputs| - 1]);
      var last := React(cfg, resume, before.state, inputs[|inputs| - 1]);
      Stepped(last.state, before.effects + last.effects)
  }

  /** A fresh generation is acknowledged, has no timer, and starts from the resumed state when given one. */
  lemma InitialState(resume: Option<ResumeInfo>)
    ensures var s := Initial(resume);
            && s.acked && !s.heartbeat && !s.ended
            && (resume.None? ==> s.seqNum == JNull && s.sessionId == JStr(""))
            && (resume.Some? ==> s.seqNum == resume.value.seqNum)
            && (resume.Some? && resume.value.sessionId != JNull ==> s.sessionId == resume.value.sessionId)
  {
  }

  /**
   * A tick after an acknowledgement sends exactly one heartbeat carrying
   * `seq` and clears `acked`; a tick without one sends nothing, closes with
   * 2000 and stops the timer. Neither schedules a new generation.
   */
  lemma TickHeartbeat(cfg: Config, resume: Option<ResumeInfo>, s: Session)
    ensures var r := React(cfg, resume, s, Tick);
            && (s.acked ==>
                  !r.state.acked && |r.effects| == 1 && r.effects[0].Send? &&
                  Member(r.effects[0].frame, "op") == JNum(1) && Member(r.effects[0].frame, "d") == s.seqNum)
            && (!s.acked ==> r.state == s && r.effects == [CloseSocket(MissedAckClosure), StopTimer])
            && forall i :: 0 <= i < |r.effects| ==> !r.effects[i].Reopen?
  {
  }

  /** Whether some effect schedules a new generation. */
  predicate Reopens(effects: seq<Effect>) {
    exists i :: 0 <= i < |effects| && effects[i].Reopen?
  }

  /**
   * However many ticks pass without any frame from the server, the
   * generation never schedules a new one: a missed acknowledgement closes
   * the socket but does not reconnect.
   */
  lemma {:induction false} TicksNeverReopen(cfg: Config, resume: Option<ResumeInfo>, s: Session, inputs: seq<Input>)
    requires forall i :: 0 <= i < |inputs| ==> inputs[i] == Tick
    ensures !Reopens(ReactAll(cfg, resume, s, inputs).effects)
    decreases |inputs|
  {
    if |inputs| > 0 {
      var init := inputs[..|inputs| - 1];
      assert forall i :: 0 <= i < |init| ==> init[i] == inputs[i];
      TicksNeverReopen(cfg, resume, s, init);
      var before := ReactAll(cfg, resume, s, init);
      TickHeartbeat(cfg, resume, before.state);
    }
  }

  /** Two ticks with no acknowledgement between them: a heartbeat, then a close with 2000. */
  lemma ZombieConnection(cfg: Config, resume: Option<ResumeInfo>, s: Session)
    requires s.acked
    ensures ReactAll(cfg, resume, s, [Tick, Tick]).effects
              == [Send(Frame(Heartbeat, s.seqNum)), CloseSocket(MissedAckClosure), StopTimer]
  {
    assert [Tick, Tick][..1] == [Tick];
    assert [Tick][..0] == [];
  }

  /**
   * HELLO starts the timer at `d.heartbeat_interval` and then sends one
   * frame: IDENTIFY exactly when the generation was not started with resume
   * information, RESUME with the session id and `seq` otherwise.
   */
  lemma HelloIdentifiesOrResumes(cfg: Config, resume: Option<ResumeInfo>, s: Session, m: Json)
    requires !s.ended && m.JObj? && Member(m, "op") == JNum(Code(Hello)) && Member(m, "d") != JNull
    ensures React(cfg, resume, s, Text(m)).state == s.(heartbeat := true)
    ensures React(cfg, resume, s, Text(m)).effects == [StartTimer(Member(Member(m, "d"), "heartbeat_interval")), Send(HelloReply(cfg, resume, s))]
    ensures Member(HelloReply(cfg, resume, s), "op") == JNum(Code(Identify)) <==> resume.None?
    ensures resume.None? ==> Member(HelloReply(cfg, resume, s), "d") == IdentifyPayload(cfg)
    ensures resume.Some? ==> Member(HelloReply(cfg, resume, s), "d") == ResumePayload(cfg, s.sessionId, s.seqNum)
  {
    assert FromCode(Code(Hello)) == Some(Hello);
    assert React(cfg, resume, s, Text(m)) == OnText(cfg, resume, s, m);
    HelloReplyKind(cfg, resume, s);
  }

  /** The reply to HELLO is IDENTIFY without resume information and RESUME with it. */
  lemma HelloReplyKind(cfg: Config, resume: Option<ResumeInfo>, s: Session)
    ensures Member(HelloReply(cfg, resume, s), "op") == JNum(Code(Identify)) <==> resume.None?
    ensures resume.None? ==> Member(HelloReply(cfg, resume, s), "d") == IdentifyPayload(cfg)
    ensures resume.Some? ==> Member(HelloReply(cfg, resume, s), "d") == ResumePayload(cfg, s.sessionId, s.seqNum)
  {
    FrameFields(Identify, IdentifyPayload(cfg));
    FrameFields(Resume, ResumePayload(cfg, s.sessionId, s.seqNum));
    CodesDistinct(Identify, Resume);
  }

  /** RESUME carries the credential, the session id and `seq`. */
  lemma ResumeFields(cfg: Config, sessionId: Json, seqNum: Json)
    ensures Member(ResumePayload(cfg, sessionId, seqNum), "token") == JStr(BotAuthorization(cfg.token))
    ensures Member(ResumePayload(cfg, sessionId, seqNum), "session_id") == sessionId
    ensures Member(ResumePayload(cfg, sessionId, seqNum), "seq") == seqNum
  {
    var fields := ResumePayload(cfg, sessionId, seqNum).fields;
    LastValueAt(fields, "token", 0);
    LastValueAt(fields, "session_id", 1);
    LastValueAt(fields, "seq", 2);
  }

  /** IDENTIFY carries the credential, and the intents exactly when they were given. */
  lemma IdentifyFields(cfg: Config)
    ensures Member(IdentifyPayload(cfg), "token") == JStr(BotAuthorization(cfg.token))
    ensures Member(IdentifyPayload(cfg), "intents") == (if cfg.intents.Some? then JNum(cfg.intents.value as int) else JNull)
  {
    var fields := IdentifyPayload(cfg).fields;
    if cfg.intents.Some? {
      LastValueAt(fields, "token", 0);
      LastValueAt(fields, "intents", 2);
    } else {
      LastValueAt(fields, "token", 0);
      assert forall i :: 0 <= i < |fields| ==> fields[i].0 != "intents";
    }
  }

  /** IDENTIFY names the host's OS, and the library as browser and device. */
  lemma IdentifyProperties(cfg: Config)
    ensures Member(Member(IdentifyPayload(cfg), "properties"), "$os") == JStr(cfg.os)
    ensures Member(Member(IdentifyPayload(cfg), "properties"), "$browser") == JStr(LibraryName)
    ensures Member(Member(IdentifyPayload(cfg), "properties"), "$device") == JStr(LibraryName)
  {
    var pf := [("$os", JStr(cfg.os)), ("$browser", JStr(LibraryName)), ("$device", JStr(LibraryName))];
    IdentifyPropertiesObject(cfg);
    LastValueAt(pf, "$os", 0);
    LastValueAt(pf, "$browser", 1);
    LastValueAt(pf, "$device", 2);
  }

  /** The `properties` member of IDENTIFY is the object of the three fixed fields. */
  lemma IdentifyPropertiesObject(cfg: Config)
    ensures Member(IdentifyPayload(cfg), "properties")
            == JObj([("$os", JStr(cfg.os)), ("$browser", JStr(LibraryName)), ("$device", JStr(LibraryName))])
  {
    var fields := IdentifyPayload(cfg).fields;
    assert fields[1].0 == "properties";
    LastValueAt(fields, "properties", 1);
  }

  /** HEARTBEAT from the server is answered with the current `seq`; `acked` is unchanged. */
  lemma HeartbeatEchoed(cfg: Config, resume: Option<ResumeInfo>, s: Session, m: Json)
    requires !s.ended && m.JObj? && Member(m, "op") == JNum(Code(Heartbeat))
    ensures React(cfg, resume, s, Text(m)) == Stepped(s, [Send(Frame(Heartbeat, s.seqNum))])
  {
  }

  /** HEARTBEAT_ACK sets `acked` and sends nothing. */
  lemma AckRecorded(cfg: Config, resume: Option<ResumeInfo>, s: Session, m: Json)
    requires !s.ended && m.JObj? && Member(m, "op") == JNum(Code(HeartbeatAck))
    ensures React(cfg, resume, s, Text(m)) == Stepped(s.(acked := true), [])
  {
  }

  /**
   * DISPATCH with a string event name: READY records the session id;
   * `seq` follows `s` only when `s` is truthy, so 0 or an absent `s` keeps
   * it; then the lower-cased event name is emitted with the payload.
   */
  lemma DispatchRecordsAndEmits(cfg: Config, resume: Option<ResumeInfo>, s: Session, m: Json)
    requires !s.ended && m.JObj? && Member(m, "op") == JNum(Code(Dispatch)) && Member(m, "t").JStr?
    requires Member(m, "t") == JStr("READY") ==> Member(m, "d") != JNull
    ensures var r := React(cfg, resume, s, Text(m));
            var t := Member(m, "t").s;
            var d := Member(m, "d");
            var sn := Member(m, "s");
            && r.effects == [Emit(Lower(t), [d])]
            && r.state.seqNum == (if Truthy(sn) then sn else s.seqNum)
            && r.state.sessionId == (if t == "READY" then Member(d, "session_id") else s.sessionId)
            && r.state.acked == s.acked && r.state.heartbeat == s.heartbeat && !r.state.ended
  {
  }

  /** READY without a payload faults: the generation stops and emits nothing. */
  lemma ReadyWithoutPayloadFaults(cfg: Config, resume: Option<ResumeInfo>, s: Session, m: Json)
    requires !s.ended && m.JObj? && Member(m, "op") == JNum(Code(Dispatch))
    requires Member(m, "t") == JStr("READY") && Member(m, "d") == JNull
    ensures React(cfg, resume, s, Text(m)) == Stepped(s.(ended := true), [Fault])
  {
  }

  /**
   * RECONNECT stops the timer if one was started, closes with 1000 and
   * schedules the next generation at once, resuming with the session id and
   * `seq`; INVALID_SESSION does the same after 5000 ms and resumes exactly
   * when `d` is truthy.
   */
  lemma ReconnectAndInvalidSession(cfg: Config, resume: Option<ResumeInfo>, s: Session, m: Json)
    requires !s.ended && m.JObj? && Member(m, "op").JNum?
    ensures var r := React(cfg, resume, s, Text(m));
            var info := ResumeInfo(s.sessionId, s.seqNum);
            var closing := (if s.heartbeat then [StopTimer] else []) + [CloseSocket(NormalClosure)];
            && (Member(m, "op") == JNum(Code(Reconnect)) ==> r == Stepped(s, closing + [Reopen(0, Some(info))]))
            && (Member(m, "op") == JNum(Code(InvalidSession)) ==>
                  r.state == s && r.effects[..|closing|] == closing && |r.effects| == |closing| + 1 &&
                  r.effects[|closing|].Reopen? && r.effects[|closing|].delay == InvalidSessionDelay &&
                  (r.effects[|closing|].resume.Some? <==> Truthy(Member(m, "d"))))
  {
  }

  /**
   * The generation a RECONNECT schedules starts where this one stopped: the
   * same `seq`, and the same session id, or `''` when it was unset.
   */
  lemma ReconnectCarriesSession(cfg: Config, resume: Option<ResumeInfo>, s: Session, m: Json)
    requires !s.ended && m.JObj? && Member(m, "op") == JNum(Code(Reconnect))
    ensures var r := React(cfg, resume, s, Text(m));
            var e := r.effects[|r.effects| - 1];
            && e.Reopen? && e.delay == 0 && e.resume.Some?
            && Initial(e.resume).seqNum == s.seqNum
            && Initial(e.resume).sessionId == (if s.sessionId != JNull then s.sessionId else JStr(""))
            && Initial(e.resume).acked
  {
  }

  /** Frames with other opcodes, or with no numeric opcode, change nothing and do nothing. */
  lemma OtherFramesIgnored(cfg: Config, resume: Option<ResumeInfo>, s: Session, m: Json)
    requires !s.ended && m != JNull
    requires !Member(m, "op").JNum? || Member(m, "op").n !in {0, 1, 7, 9, 10, 11}
    ensures React(cfg, resume, s, Text(m)) == Stepped(s, [])
  {
  }

  /**
   * Pings and pongs are skipped; a close event stops the loop without
   * emitting `disconnect`, and only the end of the stream emits it.
   */
  lemma SocketEvents(cfg: Config, resume: Option<ResumeInfo>, s: Session)
    requires !s.ended
    ensures React(cfg, resume, s, Ping) == Stepped(s, []) && React(cfg, resume, s, Pong) == Stepped(s, [])
    ensures React(cfg, resume, s, Closed) == Stepped(s.(ended := true), [])
    ensures React(cfg, resume, s, End) == Stepped(s.(ended := true), [Emit(DisconnectSignal, [])])
  {
  }

  /** Once the loop has stopped, socket events have no effect; only timer ticks still act. */
  lemma {:induction false} StoppedLoopReadsNothing(cfg: Config, resume: Option<ResumeInfo>, s: Session, inputs: seq<Input>)
    requires s.ended
    requires forall i :: 0 <= i < |inputs| ==> inputs[i] != Tick
    ensures ReactAll(cfg, resume, s, inputs) == Stepped(s, [])
    decreases |inputs|
  {
    if |inputs| > 0 {
      var init := inputs[..|inputs| - 1];
      assert forall i :: 0 <= i < |init| ==> init[i] == inputs[i];
      StoppedLoopReadsNothing(cfg, resume, s, init);
    }
  }

  /**
   * `disconnect` is emitted at most once per generation: after the first
   * End, socket events do nothing.
   */
  lemma {:induction false} DisconnectOnce(cfg: Config, resume: Option<ResumeInfo>, s: Session, inputs: seq<Input>)
    requires s.ended
    ensures forall i :: 0 <= i < |ReactAll(cfg, resume, s, inputs).effects| ==> !ReactAll(cfg, resume, s, inputs).effects[i].Emit?
    ensures ReactAll(cfg, resume, s, inputs).state.ended
    decreases |inputs|
  {
    if |inputs| > 0 {
      DisconnectOnce(cfg, resume, s, inputs[..|inputs| - 1]);
    }
  }

  /**
   * The close signal is all lower case, so a DISPATCH named
   * `__GATEWAY_CLOSE` is emitted as exactly that signal: it reaches the
   * close handlers, and not the `any` handlers.
   */
  lemma DispatchCanClose(cfg: Config, resume: Option<ResumeInfo>, s: Session, m: Json)
    requires !s.ended && m.JObj? && Member(m, "op") == JNum(Code(Dispatch)) && Member(m, "t") == JStr("__GATEWAY_CLOSE")
    ensures React(cfg, resume, s, Text(m)).effects == [Emit(CloseSignal, [Member(m, "d")])]
    ensures Internal(CloseSignal)
  {
    DispatchRecordsAndEmits(cfg, resume, s, m);
    assert Lower("__GATEWAY_CLOSE") == CloseSignal;
  }

  /**
   * An event name is lower-cased before it is emitted, so a DISPATCH can
   * never trigger the three command signals a generation registers, whose
   * names contain capitals.
   */
  lemma DispatchNeverCommands(t: string)
    ensures Lower(t) != UpdateStatusSignal
    ensures Lower(t) != UpdateVoiceStateSignal
    ensures Lower(t) != RequestGuildMembersSignal
  {
    if |t| == |UpdateStatusSignal| {
      assert UpdateStatusSignal[16] == 'S' && Lower(t)[16] != 'S';
    }
    if |t| == |UpdateVoiceStateSignal| {
      assert UpdateVoiceStateSignal[16] == 'V' && Lower(t)[16] != 'V';
    }
    if |t| == |RequestGuildMembersSignal| {
      assert RequestGuildMembersSignal[17] == 'G' && Lower(t)[17] != 'G';
    }
  }

  /**
   * A handler in the dispatcher table: one connected by a user, or a
   * command handler of generation `generation` that sends opcode `op`.
   */
  datatype Handler = User(id: nat) | Control(generation: nat, op: Opcode)

  /**
   * What invoking a command handler does: it sends `{op, d}` with the first
   * argument as `d` on its generation's socket. User handlers are not part
   * of this model.
   */
  function Sends(inv: Invocation<Handler>): Option<(nat, Json)> {
    match inv.handler
    case Control(g, op) => Some((g, Frame(op, if |inv.args| > 0 then inv.args[0] else JNull)))
    case User(_) => None
  }

  /** The table after generation `g` cleared and registered its three command handlers. */
  function Registered(m: map<string, seq<Handler>>, g: nat): map<string, seq<Handler>> {
    m[UpdateStatusSignal := [Control(g, PresenceUpdate)]]
     [UpdateVoiceStateSignal := [Control(g, VoiceStateUpdate)]]
     [RequestGuildMembersSignal := [Control(g, RequestGuildMembers)]]
  }

  /**
   * Registration leaves exactly one handler on each command signal, mapped
   * to opcodes 3, 4 and 8, keeps every other entry, and a later
   * generation's registration replaces an earlier one's entirely.
   */
  lemma RegistrationReplaces(m: map<string, seq<Handler>>, g1: nat, g2: nat)
    ensures var r := Registered(m, g1);
            && r[UpdateStatusSignal] == [Control(g1, PresenceUpdate)] && Code(PresenceUpdate) == 3
            && r[UpdateVoiceStateSignal] == [Control(g1, VoiceStateUpdate)] && Code(VoiceStateUpdate) == 4
            && r[RequestGuildMembersSignal] == [Control(g1, RequestGuildMembers)] && Code(RequestGuildMembers) == 8
            && (forall n :: n != UpdateStatusSignal && n != UpdateVoiceStateSignal && n != RequestGuildMembersSignal ==>
                  (n in r <==> n in m) && (n in m ==> r[n] == m[n]))
    ensures Registered(Registered(m, g1), g2) == Registered(m, g2)
  {
  }

  /**
   * With generation `g` registered, `updateStatus(x)` makes `g` send
   * `{op: 3, d: x}`, and nothing else happens; likewise for the voice
   * state (op 4) and member requests (op 8).
   */
  lemma CommandsReachGeneration(d: Signaler<Handler>, g: nat, x: Json)
    requires exists m :: d.listeners == Registered(m, g)
    ensures var r := UpdateStatus(d, x).invoked;
            |r| == 1 && Sends(r[0]) == Some((g, Frame(PresenceUpdate, x)))
    ensures var r := UpdateVoiceState(d, x).invoked;
            |r| == 1 && Sends(r[0]) == Some((g, Frame(VoiceStateUpdate, x)))
    ensures var r := GatewayInterface.RequestGuildMembers(d, x).invoked;
            |r| == 1 && Sends(r[0]) == Some((g, Frame(RequestGuildMembers, x)))
  {
  }

  /**
   * No generation registers a handler for `close()`: unless a user
   * connected one, closing the interface invokes nothing.
   */
  lemma CloseUnhandled(d: Signaler<Handler>, g: nat)
    requires exists m :: d.listeners == Registered(m, g) && CloseSignal !in m
    ensures Close(d).invoked == []
  {
  }

  /** The state of one running generation. */
  class Generation {
    /** Which generation this is, for telling its command handlers apart. */
    const id: nat
    const config: Config
    /** The `resumeInfo` argument. */
    const resume: Option<ResumeInfo>

    var heartbeat: bool
    var acked: bool
    var seqNum: Json
    var sessionId: Json
    var ended: bool

    /** The variables as a value. */
    function State(): Session
      reads this
    {
      Session(heartbeat, acked, seqNum, sessionId, ended)
    }

    /** `gateway(resumeInfo)`: the initial variables. */
    constructor (id: nat, config: Config, resume: Option<ResumeInfo>)
      ensures this.id == id && this.config == config && this.resume == resume
      ensures State() == Initial(resume)
    {
      this.id := id;
      this.config := config;
      this.resume := resume;
      heartbeat := false;
      acked := true;
      seqNum := if resume.Some? then resume.value.seqNum else JNull;
      sessionId := if resume.Some? && resume.value.sessionId != JNull then resume.value.sessionId else JStr("");
      ended := false;
    }

    /** Clearing each command signal and connecting this generation's handler to it. */
    method RegisterControls(d: Signaler<Handler>)
      modifies d
      ensures d.listeners == Registered(old(d.listeners), id)
    {
      ghost var m := d.listeners;
      d.Clear(UpdateStatusSignal);
      d.Connect(UpdateStatusSignal, Control(id, PresenceUpdate));
      assert [] + [Control(id, PresenceUpdate)] == [Control(id, PresenceUpdate)];
      assert d.listeners == m[UpdateStatusSignal := [Control(id, PresenceUpdate)]];
      m := d.listeners;
      d.Clear(UpdateVoiceStateSignal);
      d.Connect(UpdateVoiceStateSignal, Control(id, VoiceStateUpdate));
      assert [] + [Control(id, VoiceStateUpdate)] == [Control(id, VoiceStateUpdate)];
      assert d.listeners == m[UpdateVoiceStateSignal := [Control(id, VoiceStateUpdate)]];
      m := d.listeners;
      d.Clear(RequestGuildMembersSignal);
      d.Connect(RequestGuildMembersSignal, Control(id, RequestGuildMembers));
      assert [] + [Control(id, RequestGuildMembers)] == [Control(id, RequestGuildMembers)];
      assert d.listeners == m[RequestGuildMembersSignal := [Control(id, RequestGuildMembers)]];
    }

    /** `sendHeartbeat`. */
    method Beat() returns (effects: seq<Effect>)
      modifies this
      ensures Stepped(State(), effects) == SendHeartbeat(old(State()))
    {
      if acked {
        effects := [Send(Frame(Heartbeat, seqNum))];
        acked := false;
      } else {
        effects := [CloseSocket(MissedAckClosure), StopTimer];
      }
    }

    /** Stopping the timer if one was started, then closing normally. */
    method Close() returns (effects: seq<Effect>)
      ensures effects == Closing(State())
    {
      effects := [];
      if heartbeat {
        effects := [StopTimer];
      }
      effects := effects + [CloseSocket(NormalClosure)];
    }

    /** The DISPATCH case. */
    method OnDispatch(t: Json, d: Json, sn: Json) returns (effects: seq<Effect>)
      modifies this
      ensures Stepped(State(), effects) == Dispatched(old(State()), t, d, sn)
    {
      if t == JStr("READY") {
        if d == JNull {
          ended := true;
          return [Fault];
        }
        sessionId := Member(d, "session_id");
      }
      if Truthy(sn) {
        seqNum := sn;
      }
      if t.JStr? {
        effects := [Emit(Lower(t.s), [d])];
      } else {
        ended := true;
        effects := [Fault];
      }
    }

    /** The body of the loop for a text frame. */
    method OnFrame(m: Json) returns (effects: seq<Effect>)
      modifies this
      ensures Stepped(State(), effects) == OnText(config, resume, old(State()), m)
    {
      if m == JNull {
        ended := true;
        return [Fault];
      }
      var op := Member(m, "op");
      var d := Member(m, "d");
      var code := if op.JNum? then FromCode(op.n) else None;
      effects := [];
      if code == Some(Hello) {
        if d == JNull {
          ended := true;
          return [Fault];
        }
        heartbeat := true;
        var hello;
        if resume.None? {
          hello := Frame(Identify, IdentifyPayload(config));
        } else {
          hello := Frame(Resume, ResumePayload(config, sessionId, seqNum));
        }
        effects := [StartTimer(Member(d, "heartbeat_interval")), Send(hello)];
      } else if code == Some(Heartbeat) {
        effects := [Send(Frame(Heartbeat, seqNum))];
      } else if code == Some(HeartbeatAck) {
        acked := true;
      } else if code == Some(Reconnect) {
        effects := Close();
        effects := effects + [Reopen(0, Some(ResumeInfo(sessionId, seqNum)))];
      } else if code == Some(InvalidSession) {
        effects := Close();
        var info := if Truthy(d) then Some(ResumeInfo(sessionId, seqNum)) else None;
        effects := effects + [Reopen(InvalidSessionDelay, info)];
      } else if code == Some(Dispatch) {
        effects := OnDispatch(Member(m, "t"), d, Member(m, "s"));
      }
    }

    /** One input: a timer tick, or the next socket event while the loop runs. */
    method Receive(input: Input) returns (effects: seq<Effect>)
      modifies this
      ensures Stepped(State(), effects) == React(config, resume, old(State()), input)
    {
      if input.Tick? {
        effects := Beat();
        return;
      }
      effects := [];
      if ended {
        return;
      }
      match input
      case Text(m) =>
        effects := OnFrame(m);
      case Ping =>
      case Pong =>
      case Closed =>
        ended := true;
      case End =>
        ended := true;
        effects := [Emit(DisconnectSignal, [])];
    }

    /** The `for await` loop with the timer ticks interleaved: every input in order. */
    method Serve(inputs: seq<Input>) returns (effects: seq<Effect>)
      modifies this
      ensures Stepped(State(), effects) == ReactAll(config, resume, old(State()), inputs)
    {
      effects := [];
      var k := 0;
      while k < |inputs|
        invariant 0 <= k <= |inputs|
        invariant Stepped(State(), effects) == ReactAll(config, resume, old(State()), inputs[..k])
      {
        var e := Receive(inputs[k]);
        assert inputs[..k + 1][..k] == inputs[..k];
        effects := effects + e;
        k := k + 1;
      }
      assert inputs[..|inputs|] == inputs;
    }
  }
}
