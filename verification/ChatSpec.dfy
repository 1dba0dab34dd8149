/**
 One conversation: its machine, the basic messages of its own that it still waits
 to see reported, and what it sends out. As functions on values.
 */
module ChatSpec {
  import opened Wrappers
  import opened FsmTypes
  import opened FsmSpec
  import opened InPlace

  function MessageOf(e: Option<EventValue>): Option<BackendMsg> {
    if e.Some? then e.value.backend else None
  }

  /** A call to the agency. `id` is the protocol id that the server returns. */
  datatype ServerCall =
    | BMCall(content: string, id: string)
    | IssueCall(issuing: Issuing, id: string)
    | ProofCall(proofJSON: string, id: string)
    | ReplyCall(ack: bool)
    | EmailCall(mail: EmailMail)
    | HookCall(data: map<string, string>)

  /** What a send list sends: `toBroker` are the indexes of its backend sends, whose
      message objects go out by reference; `steps` go to the conversation itself. */
  datatype Effects = Effects(calls: seq<ServerCall>, registered: seq<string>, toBroker: seq<nat>, steps: seq<string>)

  const Nothing := Effects([], [], [], [])

  /** Initialize computes this for every send. */
  predicate WantStatus(protocol: Protocol) {
    protocol == IssueCred || protocol == PresentProof
  }

  function Calling(eff: Effects, d: SendDef, call: ServerCall, id: string): Option<Effects> {
    Some(eff.(calls := eff.calls + [call],
              registered := if WantStatus(d.protocol) then eff.registered else eff.registered + [id]))
  }

  /** Sends one built event; None is a nil dereference or a failed assertion. */
  function SendOne(d: SendDef, e: Option<EventValue>, i: nat, hasStatus: bool, id: string,
          eff: Effects): Option<Effects> {
    var payload := if e.Some? then e.value.payload else NoPayload;
    match d.protocol
    case BasicMessage =>
      if payload.basic.None? then None else Calling(eff, d, BMCall(payload.basic.value, id), id)
    case IssueCred =>
      if payload.issuing.None? then None else Calling(eff, d, IssueCall(payload.issuing.value, id), id)
    case PresentProof =>
      if payload.proof.None? then None else Calling(eff, d, ProofCall(payload.proof.value, id), id)
    case Backend =>
      if e.None? || e.value.backend.None? then None else Some(eff.(toBroker := eff.toBroker + [i]))
    case Email =>
      if payload.email.None? then None else Some(eff.(calls := eff.calls + [EmailCall(payload.email.value)]))
    case Answer =>
      if !hasStatus then None else Some(eff.(calls := eff.calls + [ReplyCall(d.data == "ACK")]))
    case Hook =>
      if payload.hook.None? then None else Some(eff.(calls := eff.calls + [HookCall(payload.hook.value)]))
    case Transient =>
      if payload.basic.None? then None else Some(eff.(steps := eff.steps + [payload.basic.value]))
    case _ => Some(eff)
  }

  function SendFrom(sends: seq<SendDef>, held: Held, i: nat, hasStatus: bool, ids: nat -> string,
          eff: Effects): Option<Effects>
    requires i <= |sends| == |held|
    decreases |sends| - i
  {
    if i == |sends| then Some(eff)
    else
      match SendOne(sends[i], held[i], i, hasStatus, ids(i), eff)
      case None => None
      case Some(eff') => SendFrom(sends, held, i + 1, hasStatus, ids, eff')
  }

  /** The backend sends of a list, in order. */
  function BackendSends(sends: seq<SendDef>, i: nat): seq<nat>
    requires i <= |sends|
    decreases |sends| - i
  {
    if i == |sends| then [] else (if sends[i].protocol == Backend then [i] else []) + BackendSends(sends, i + 1)
  }

  datatype Chat = Chat(p: PState, slots: Slots, last: set<string>)

  datatype ChatOutcome = ChatCrash | ChatNext(chat: Chat, eff: Effects, fired: Fired)

  function Ids(s: seq<string>): set<string> {
    set x | x in s
  }

  /** Hands an event to the machine and sends what it builds. */
  function Deliver(def: MachineDef, ctx: Ctx, chat: Chat, ev: Ev, pins: nat -> string, ids: nat -> string): ChatOutcome
    requires Shaped(def, chat.slots)
  {
    var o := Handle(def, ctx, chat.p, chat.slots, ev, pins);
    match o
    case Crash => ChatCrash
    case Next(p, Idle) => ChatNext(chat.(p := p), Nothing, Idle)
    case Next(p, Fired(place, held, handled, msg)) =>
      var chat' := chat.(p := p, slots := After(chat.slots, o));
      if !handled then ChatNext(chat', Nothing, o.fired)
      else
        match SendFrom(def.states[place.state].transitions[place.index].sends, held, 0,
                       ev.StatusEv? || ev.QuestionEv?, ids, Nothing)
        case None => ChatCrash
        case Some(eff) => ChatNext(chat'.(last := chat.last + Ids(eff.registered)), eff, o.fired)
  }

  /** A new conversation: starts its machine and sends what the start builds. */
  function OpenChat(def: MachineDef, ctx: Ctx, file: Slots, pins: nat -> string, ids: nat -> string): ChatOutcome {
    match (Start(def, ctx, pins), BuildFrom(ctx, NoInput, pins, def.initialSends, 0, map[], DefHeld(def.initialSends)))
    case (Next(p, _), BuiltAll(_, held, handled)) =>
      if !handled then ChatNext(Chat(p, file, {}), Nothing, Idle)
      else
        (match SendFrom(def.initialSends, held, 0, false, ids, Nothing)
         case None => ChatCrash
         case Some(eff) => ChatNext(Chat(p, file, Ids(eff.registered)), eff, Idle))
    case _ => ChatCrash
  }

  /** A status of a message of our own is dropped, once. */
  function StatusReceived(def: MachineDef, ctx: Ctx, chat: Chat, protocolID: string, status: Status,
                          pins: nat -> string, ids: nat -> string): ChatOutcome
    requires Shaped(def, chat.slots)
  {
    if protocolID in chat.last then ChatNext(chat.(last := chat.last - {protocolID}), Nothing, Idle)
    else Deliver(def, ctx, chat, StatusEv(status), pins, ids)
  }

  /** The message after the receiver has filled in a missing connection id. */
  function Addressed(id: string, msg: BackendMsg): BackendMsg {
    if msg.connID == "" then msg.(connID := id) else msg
  }

  /** The message of another chat room, or the echo of a message that wants none. */
  predicate Filtered(mem: Mem, id: string, msg: BackendMsg) {
    (SESSION_ID in mem && mem[SESSION_ID] != msg.sessionID) || (msg.noEcho && id == msg.connID)
  }

  function BackendReceived(def: MachineDef, ctx: Ctx, chat: Chat, msg: BackendMsg,
                           pins: nat -> string, ids: nat -> string): ChatOutcome
    requires Shaped(def, chat.slots)
  {
    var m := Addressed(ctx.connID, msg);
    if Filtered(chat.p.mem, ctx.connID, m) then ChatNext(chat, Nothing, Idle)
    else Deliver(def, ctx, chat, BackendEv(m), pins, ids)
  }

  // ----------------------------------------------------- what a send list is

  predicate HasHandler(protocol: Protocol) {
    protocol !in {NoProtocol, Connection, TrustPing}
  }

  /** Building from send i gets to send k: none on the way lacks a handler. */
  predicate Reached(sends: seq<SendDef>, i: nat, k: nat)
    requires k < |sends|
  {
    i <= k && forall j :: i <= j <= k ==> HasHandler(sends[j].protocol)
  }

  /** Send i of a list was built by one build of its own, in some memory. */
  ghost predicate BuiltAt(ctx: Ctx, input: Input, pin: string, m: Mem, d: SendDef, before: Option<EventValue>,
          after: Option<EventValue>) {
    var b := BuildOne(ctx, input, pin, m, d, before);
    b.Built? && b.event == after
  }

  lemma {:induction false} BuildFromEach(ctx: Ctx, input: Input, pins: nat -> string, sends: seq<SendDef>, i: nat,
                                         mem: Mem, held: Held, k: nat)
    requires i <= |sends| == |held| && k < |sends|
    requires BuildFrom(ctx, input, pins, sends, i, mem, held).BuiltAll?
    ensures
      var after := BuildFrom(ctx, input, pins, sends, i, mem, held).held;
      if Reached(sends, i, k)
      then exists m :: BuiltAt(ctx, input, pins(k), m, sends[k], held[k], after[k])
      else after[k] == held[k]
    decreases |sends| - i
  {
    if i < |sends| {
      match BuildOne(ctx, input, pins(i), mem, sends[i], held[i])
      case Built(m, e) =>
        BuildFromEach(ctx, input, pins, sends, i + 1, m, held[i := e], k);
        if i == k {
          assert BuiltAt(ctx, input, pins(k), mem, sends[k], held[k], e);
        }
      case _ =>
    }
  }

  /** A list that is handled has no send without a handler. */
  lemma {:induction false} HandledReaches(ctx: Ctx, input: Input, pins: nat -> string, sends: seq<SendDef>, i: nat,
                                          mem: Mem, held: Held)
    requires i <= |sends| == |held|
    ensures var b := BuildFrom(ctx, input, pins, sends, i, mem, held);
            b.BuiltAll? && b.handled ==> forall k :: i <= k < |sends| ==> HasHandler(sends[k].protocol)
    decreases |sends| - i
  {
    if i < |sends| {
      match BuildOne(ctx, input, pins(i), mem, sends[i], held[i])
      case Built(m, e) => HandledReaches(ctx, input, pins, sends, i + 1, m, held[i := e]);
      case _ =>
    }
  }

  lemma {:induction false} SendsToBroker(sends: seq<SendDef>, held: Held, i: nat, hasStatus: bool,
          ids: nat -> string, eff: Effects)
    requires i <= |sends| == |held| && SendFrom(sends, held, i, hasStatus, ids, eff).Some?
    requires forall x :: x in eff.toBroker ==> x < |sends| && sends[x].protocol == Backend
    ensures forall x :: x in SendFrom(sends, held, i, hasStatus, ids, eff).value.toBroker ==>
              x < |sends| && sends[x].protocol == Backend
    decreases |sends| - i
  {
    if i < |sends| {
      SendsToBroker(sends, held, i + 1, hasStatus, ids, SendOne(sends[i], held[i], i, hasStatus, ids(i), eff).value);
    }
  }

  /** The registered ids are those of the basic messages that went out, in order. */
  function BMIds(calls: seq<ServerCall>): seq<string> {
    if calls == [] then []
    else BMIds(calls[..|calls| - 1]) +
         if calls[|calls| - 1].BMCall? then [calls[|calls| - 1].id] else []
  }

  lemma {:induction false} RegistersBMs(sends: seq<SendDef>, held: Held, i: nat, hasStatus: bool, ids: nat -> string,
          eff: Effects)
    requires i <= |sends| == |held| && SendFrom(sends, held, i, hasStatus, ids, eff).Some?
    requires eff.registered == BMIds(eff.calls)
    ensures var out := SendFrom(sends, held, i, hasStatus, ids, eff).value; out.registered == BMIds(out.calls)
    decreases |sends| - i
  {
    if i < |sends| {
      var next := SendOne(sends[i], held[i], i, hasStatus, ids(i), eff).value;
      if |next.calls| == |eff.calls| + 1 {
        assert next.calls[..|next.calls| - 1] == eff.calls;
      }
      RegistersBMs(sends, held, i + 1, hasStatus, ids, next);
    }
  }

  lemma {:induction false} NoBackendWithoutInput(ctx: Ctx, pins: nat -> string, sends: seq<SendDef>, i: nat,
          mem: Mem, held: Held)
    requires i <= |sends| == |held|
    ensures var b := BuildFrom(ctx, NoInput, pins, sends, i, mem, held);
            b.BuiltAll? && b.handled ==> forall k :: i <= k < |sends| ==> sends[k].protocol != Backend
    decreases |sends| - i
  {
    if i < |sends| {
      match BuildOne(ctx, NoInput, pins(i), mem, sends[i], held[i])
      case Built(m, e) => NoBackendWithoutInput(ctx, pins, sends, i + 1, m, held[i := e]);
      case _ =>
    }
  }

  lemma {:induction false} NoBackendSends(sends: seq<SendDef>, held: Held, i: nat, hasStatus: bool,
          ids: nat -> string, eff: Effects)
    requires i <= |sends| == |held| && SendFrom(sends, held, i, hasStatus, ids, eff).Some?
    requires forall k :: i <= k < |sends| ==> sends[k].protocol != Backend
    ensures SendFrom(sends, held, i, hasStatus, ids, eff).value.toBroker == eff.toBroker
    decreases |sends| - i
  {
    if i < |sends| {
      NoBackendSends(sends, held, i + 1, hasStatus, ids, SendOne(sends[i], held[i], i, hasStatus, ids(i), eff).value);
    }
  }

  /** A start has no input, and a backend send without one is a crash. */
  lemma OpenSendsNoBackend(def: MachineDef, ctx: Ctx, file: Slots, pins: nat -> string, ids: nat -> string)
    ensures var o := OpenChat(def, ctx, file, pins, ids); o.ChatNext? ==> o.eff.toBroker == []
  {
    var b := BuildFrom(ctx, NoInput, pins, def.initialSends, 0, map[], DefHeld(def.initialSends));
    if OpenChat(def, ctx, file, pins, ids).ChatNext? && b.handled {
      NoBackendWithoutInput(ctx, pins, def.initialSends, 0, map[], DefHeld(def.initialSends));
      NoBackendSends(def.initialSends, b.held, 0, false, ids, Nothing);
    }
  }
}
