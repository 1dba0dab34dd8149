/**
 The values a state machine table is made of, and the values that travel
 through a machine: statuses, questions, backend messages and built events.
 */
module FsmTypes {
  import opened Wrappers

  /** The machine's memory map. A key that is missing reads as the empty string. */
  type Mem = map<string, string>

  function Get(mem: Mem, key: string): string {
    if key in mem then mem[key] else ""
  }

  // Registers with a fixed name.
  const CONN_ID := "CONN_ID"
  const SUBJECT := "SUBJECT"
  const SESSION_ID := "SESSION_ID"
  const LUA_INPUT := "INPUT"
  const LUA_OUTPUT := "OUTPUT"
  const LUA_TARGET := "TARGET"
  const LUA_ERROR := "ERR"
  const LUA_OK := "OK"
  const PIN := "PIN"

  datatype MachineType = Conversation | Broker

  /** The file names of the protocols. A name the table of names does not know
      behaves in every switch like the empty name, so it is NoProtocol too. */
  datatype Protocol =
    | NoProtocol | Connection | IssueCred | PresentProof | TrustPing
    | BasicMessage | Email | Answer | Hook | Backend | Transient

  /** The rules of triggers and sends; DataAsIs is the empty rule name. */
  datatype Rule =
    | Lua | OurMessage | UseInput | UseInputSave | UseInputSaveConnID
    | UseInputSaveSessionID | Format | FormatFromMem | GenPIN | DataAsIs
    | ValidateInputEqual | ValidateInputNotEqual | InputEqual
    | AcceptAndInputValues | NotAcceptValues | TransientRule | UnknownRule

  datatype Issuing = Issuing(credDefID: string, attrsJSON: string)

  datatype EmailMail = EmailMail(to: string, sender: string, subject: string, body: string)

  /** The message between conversation machines and the broker machine. */
  datatype BackendMsg = BackendMsg(
    connID: string, noEcho: bool, sessionID: string, subject: string, content: string)

  /** The part of an event's data that is replaced as a whole, never written in place. */
  datatype Payload = Payload(
    basic: Option<string>, issuing: Option<Issuing>, email: Option<EmailMail>,
    proof: Option<string>, hook: Option<map<string, string>>)

  const NoPayload := Payload(None, None, None, None, None)

  /** The value of an event's data; `backend` is the message object's value. */
  datatype EventValue = EventValue(payload: Payload, backend: Option<BackendMsg>)

  function BasicEvent(content: string): EventValue {
    EventValue(NoPayload.(basic := Some(content)), None)
  }

  /** A send as the table declares it; `eventData` is what the table file presets. */
  datatype SendDef = SendDef(
    protocol: Protocol, rule: Rule, data: string, typeID: string, noEcho: bool,
    eventData: Option<EventValue>)

  datatype Trigger = Trigger(protocol: Protocol, rule: Rule, data: string)

  datatype TransitionDef = TransitionDef(trigger: Trigger, sends: seq<SendDef>, target: string)

  datatype StateDef = StateDef(transitions: seq<TransitionDef>, terminate: bool)

  datatype MachineDef = MachineDef(
    mtype: MachineType, keepMemory: bool,
    initialSends: seq<SendDef>, initialTarget: string,
    states: map<string, StateDef>)

  /** An attribute a proof trigger asks for, and one that a wallet presents. */
  datatype WantedAttr = WantedAttr(name: string, credDefID: string)

  datatype ProofAttr = ProofAttr(name: string, credDefID: string, value: string)

  datatype Status = Status(protocol: Protocol, content: string, ok: bool)

  datatype Question = Question(protocol: Protocol, presented: seq<ProofAttr>)

  /** What one handler of a machine is called with. A question is always the
      proof-verify question: the other kinds are not handed to the machine. */
  datatype Ev =
    | StatusEv(status: Status)
    | BackendEv(msg: BackendMsg)
    | QuestionEv(question: Question)
    | HookEv(hookData: map<string, string>)
    | StepEv(stepData: string)

  datatype LuaRun = LuaRun(mem: Mem, failed: bool)

  /** The libraries behind the engine, as functions: template rendering, Sprintf,
      running a Lua script on the memory, and the two JSON readers. */
  datatype Env = Env(
    render: (string, Mem) -> string,
    sprintf: (string, string) -> string,
    lua: (string, Mem) -> LuaRun,
    email: string -> EmailMail,
    attrs: string -> Option<seq<WantedAttr>>)
}
