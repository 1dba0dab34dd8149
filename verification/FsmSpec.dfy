/**
 What one machine does with one event, as functions on values: search the
 current state's transitions, prepare the input event, build the sends, step.
 */
module FsmSpec {
  import opened Wrappers
  import opened FsmTypes

  /** What a machine never changes while it runs. */
  datatype Ctx = Ctx(env: Env, mtype: MachineType, connID: string)

  // ---------------------------------------------------------------- scripts

  datatype LuaOut = LuaOut(mem: Mem, out: string, target: string, ok: bool)

  /** Runs a script on the memory. A script that fails, or that leaves neither
      OUTPUT nor ERR, is not ok; `anyOutput` accepts whatever else it leaves. */
  function ExecLua(env: Env, script: string, content: string, anyOutput: bool, mem: Mem): LuaOut {
    var run := env.lua(script, mem[LUA_INPUT := content]);
    if run.failed || (LUA_OUTPUT !in run.mem && LUA_ERROR !in run.mem) then
      LuaOut(run.mem, "", "", false)
    else
      var out := Get(run.mem, LUA_OUTPUT);
      LuaOut(run.mem, out, Get(run.mem, LUA_TARGET),
             anyOutput || (LUA_OUTPUT in run.mem && out == LUA_OK))
  }

  // --------------------------------------------------------------- triggers

  /** `target` is empty unless a script chose another one. */
  datatype Verdict = Verdict(mem: Mem, ok: bool, target: string) | VerdictCrash

  function Says(mem: Mem, ok: bool): Verdict {
    Verdict(mem, ok, "")
  }

  function CopyBackend(mem: Mem, msg: BackendMsg): Mem {
    var m1 := if msg.connID != "" then mem[CONN_ID := msg.connID] else mem;
    var m2 := if msg.subject != "" then m1[SUBJECT := msg.subject] else m1;
    if msg.sessionID != "" then m2[SESSION_ID := msg.sessionID] else m2
  }

  function TriggersByBackend(env: Env, t: Trigger, mem: Mem, msg: BackendMsg): Verdict {
    var m := CopyBackend(mem, msg);
    match t.rule
    case ValidateInputNotEqual => Says(m, Get(m, t.data) != msg.content)
    case ValidateInputEqual => Says(m, Get(m, t.data) == msg.content)
    case InputEqual => Says(m, msg.content == t.data)
    case DataAsIs | UseInput | UseInputSave | UseInputSaveConnID | UseInputSaveSessionID =>
      Says(m, true)
    case Lua =>
      var r := ExecLua(env, t.data, msg.content, false, m);
      Verdict(r.mem, r.ok, r.target)
    case _ => Says(m, false)
  }

  function TriggersByStatus(env: Env, t: Trigger, mem: Mem, status: Status): Verdict {
    match status.protocol
    case IssueCred | Connection | PresentProof => Says(mem, true)
    case BasicMessage =>
      (match t.rule
       case ValidateInputNotEqual => Says(mem, Get(mem, t.data) != status.content)
       case ValidateInputEqual => Says(mem, Get(mem, t.data) == status.content)
       case InputEqual => Says(mem, status.content == t.data)
       case DataAsIs | UseInput | UseInputSave | TransientRule | UseInputSaveConnID | UseInputSaveSessionID =>
         Says(mem, true)
       case Lua =>
         var r := ExecLua(env, t.data, status.content, false, mem);
         Verdict(r.mem, r.ok, r.target)
       case _ => Says(mem, false))
    case _ => Says(mem, false)
  }

  /** Some presented attribute has the wanted name and credential definition. */
  predicate Presents(presented: seq<ProofAttr>, w: WantedAttr) {
    exists k :: 0 <= k < |presented| && presented[k].name == w.name && presented[k].credDefID == w.credDefID
  }

  /** The decline rule: another number of attributes, or a wanted one that is not presented. */
  predicate Declines(wanted: seq<WantedAttr>, presented: seq<ProofAttr>) {
    |wanted| != |presented| || exists i :: 0 <= i < |wanted| && !Presents(presented, wanted[i])
  }

  /** How many wanted attributes carry the name. */
  function NameCount(wanted: seq<WantedAttr>, name: string): nat {
    if wanted == [] then 0
    else NameCount(wanted[..|wanted| - 1], name) + if wanted[|wanted| - 1].name == name then 1 else 0
  }

  /** The accept rule counts the pairs of equal names... */
  function PairCount(wanted: seq<WantedAttr>, presented: seq<ProofAttr>): nat {
    if presented == [] then 0
    else PairCount(wanted, presented[..|presented| - 1]) + NameCount(wanted, presented[|presented| - 1].name)
  }

  /** ...and saves the value of every presented attribute whose name is wanted. */
  function SaveValues(wanted: seq<WantedAttr>, presented: seq<ProofAttr>, mem: Mem): Mem {
    if presented == [] then mem
    else
      var last := presented[|presented| - 1];
      var m := SaveValues(wanted, presented[..|presented| - 1], mem);
      if NameCount(wanted, last.name) > 0 then m[last.name := last.value] else m
  }

  function Answers(env: Env, t: Trigger, mem: Mem, q: Question): Verdict {
    if t.protocol != PresentProof || env.attrs(t.data).None? then VerdictCrash
    else
      var wanted := env.attrs(t.data).value;
      match t.rule
      case NotAcceptValues => Says(mem, Declines(wanted, q.presented))
      case AcceptAndInputValues =>
        Says(SaveValues(wanted, q.presented, mem), PairCount(wanted, q.presented) == |q.presented|)
      case _ => Says(mem, false)
  }

  /** Whether one transition fires on the event. */
  function Try(env: Env, t: Trigger, mem: Mem, ev: Ev): Verdict {
    match ev
    case StatusEv(st) =>
      if t.protocol == st.protocol then TriggersByStatus(env, t, mem, st) else Says(mem, false)
    case BackendEv(msg) =>
      if t.protocol == Backend then TriggersByBackend(env, t, mem, msg) else Says(mem, false)
    case QuestionEv(q) =>
      if t.protocol == q.protocol then Answers(env, t, mem, q) else Says(mem, false)
    case HookEv(_) => Says(mem, t.protocol == Hook)
    case StepEv(_) => Says(mem, t.protocol == Transient)
  }

  datatype Pick = NoPick | Pick(index: nat, target: string)

  datatype Selection = Selection(mem: Mem, pick: Pick) | SelectionCrash

  /** The first transition from `i` on that fires. A transition that does not fire
      may still have changed the memory. */
  function Select(env: Env, trs: seq<TransitionDef>, i: nat, mem: Mem, ev: Ev): (s: Selection)
    requires i <= |trs|
    ensures s.Selection? && s.pick.Pick? ==> s.pick.index < |trs|
    decreases |trs| - i
  {
    if i == |trs| then Selection(mem, NoPick)
    else
      match Try(env, trs[i].trigger, mem, ev)
      case VerdictCrash => SelectionCrash
      case Verdict(m, ok, tgt) =>
        if ok then Selection(m, Pick(i, if tgt == "" then trs[i].target else tgt))
        else Select(env, trs, i + 1, m, ev)
  }

  // ------------------------------------------------------------ input event

  datatype Input = NoInput | Input(protocol: Protocol, data: string, eventData: Option<EventValue>)

  /** `msg` is the received backend message after preparing: a trigger may write it. */
  datatype Prepared = PrepareCrash | Prepared(mem: Mem, input: Input, msg: Option<BackendMsg>)

  function PrepareStatus(ctx: Ctx, t: Trigger, mem: Mem, st: Status): Prepared {
    var bare := Input(st.protocol, "", None);
    if st.protocol != BasicMessage then Prepared(mem, bare, None)
    else
      var given := Input(st.protocol, st.content, Some(BasicEvent(st.content)));
      match t.rule
      case ValidateInputNotEqual | ValidateInputEqual | Lua | UseInput | TransientRule =>
        Prepared(mem, given, None)
      case UseInputSaveConnID => Prepared(mem[ctx.connID + t.data := st.content], given, None)
      case UseInputSaveSessionID => Prepared(mem[SESSION_ID := st.content], given, None)
      case UseInputSave => Prepared(mem[t.data := st.content], given, None)
      case DataAsIs | InputEqual => Prepared(mem, bare.(eventData := Some(BasicEvent(t.data))), None)
      case _ => Prepared(mem, bare, None)
  }

  /** A conversation machine takes a backend message in as a basic message, and
      saving a session id from it is a nil dereference. */
  function PrepareBackend(ctx: Ctx, t: Trigger, mem: Mem, msg: BackendMsg): Prepared {
    var saved := match t.rule
      case UseInputSaveSessionID => mem[msg.connID + SESSION_ID := msg.content]
      case UseInputSaveConnID => mem[msg.connID + t.data := msg.content]
      case UseInputSave => mem[t.data := msg.content]
      case _ => mem;
    match ctx.mtype
    case Conversation =>
      if t.rule == UseInputSaveSessionID then PrepareCrash
      else Prepared(saved, Input(BasicMessage, msg.content, Some(BasicEvent(msg.content))), Some(msg))
    case Broker =>
      var msg' := if t.rule == UseInputSaveSessionID then msg.(sessionID := msg.content) else msg;
      Prepared(saved, Input(Backend, msg.content, Some(EventValue(NoPayload, Some(msg')))), Some(msg'))
  }

  function Prepare(ctx: Ctx, t: Trigger, mem: Mem, ev: Ev): Prepared {
    match ev
    case StatusEv(st) => PrepareStatus(ctx, t, mem, st)
    case BackendEv(msg) => PrepareBackend(ctx, t, mem, msg)
    case QuestionEv(q) => Prepared(mem, Input(q.protocol, "", None), None)
    case HookEv(data) => Prepared(mem, Input(Hook, "", Some(EventValue(NoPayload.(hook := Some(data)), None))), None)
    case StepEv(data) => Prepared(mem, Input(Transient, "", Some(BasicEvent(data))), None)
  }

  // --------------------------------------------------------------- building

  /** NoHandler is the `return nil` of a protocol that cannot be sent. */
  datatype Built = BuildCrash | NoHandler | Built(mem: Mem, event: Option<EventValue>)

  function Sends(mem: Mem, payload: Payload): Built {
    Built(mem, Some(EventValue(payload, None)))
  }

  function BuildBM(ctx: Ctx, input: Input, mem: Mem, d: SendDef, cur: Option<EventValue>): Built {
    if input.NoInput? && d.rule != DataAsIs && d.rule != FormatFromMem then BuildCrash
    else
      match d.rule
      case UseInput =>
        // the message object of the input is never read through a basic message
        Built(mem, if input.eventData.None? then None
                   else Some(EventValue(input.eventData.value.payload, None)))
      case DataAsIs => Sends(mem, NoPayload.(basic := Some(d.data)))
      case Format => Sends(mem, NoPayload.(basic := Some(ctx.env.sprintf(d.data, input.data))))
      case FormatFromMem => Sends(mem, NoPayload.(basic := Some(ctx.env.render(d.data, mem))))
      case Lua =>
        var r := ExecLua(ctx.env, d.data, input.data, true, mem);
        Sends(r.mem, NoPayload.(basic := Some(if r.ok then r.out else input.data)))
      case _ => Built(mem, cur)
  }

  function HookPayload(typeID: string, data: string): Payload {
    NoPayload.(hook := Some(map["ID" := typeID, "data" := data]))
  }

  /** What a basic message input says. It must be there when it is asked for. */
  function BasicContent(input: Input): Option<string> {
    if input.Input? && input.eventData.Some? then input.eventData.value.payload.basic else None
  }

  function BuildHook(ctx: Ctx, input: Input, mem: Mem, d: SendDef, cur: Option<EventValue>): Built {
    match d.rule
    case DataAsIs => Sends(mem, HookPayload(d.typeID, d.data))
    case UseInput =>
      if input.NoInput? || (input.protocol == BasicMessage && BasicContent(input).None?) then BuildCrash
      else Sends(mem, HookPayload(d.typeID, if input.protocol == BasicMessage then BasicContent(input).value else ""))
    case Format =>
      if input.NoInput? then BuildCrash
      else Sends(mem, HookPayload(d.typeID, ctx.env.sprintf(d.data, input.data)))
    case FormatFromMem => Sends(mem, HookPayload(d.typeID, ctx.env.render(d.data, mem)))
    case _ => Built(mem, cur)
  }

  datatype Content = ContentCrash | Content(mem: Mem, text: string)

  function BackendContent(ctx: Ctx, input: Input, mem: Mem, d: SendDef): Content
    requires input.Input? && input.eventData.Some?
  {
    match d.rule
    case Lua =>
      var r := ExecLua(ctx.env, d.data, input.data, true, mem);
      Content(r.mem, if r.ok then r.out else input.data)
    case DataAsIs => Content(mem, d.data)
    case UseInput =>
      if input.protocol == BasicMessage then
        if BasicContent(input).None? then ContentCrash else Content(mem, BasicContent(input).value)
      else if input.protocol == Backend then
        if input.eventData.value.backend.None? then ContentCrash
        else Content(mem, input.eventData.value.backend.value.content)
      else Content(mem, "")
    case Format => Content(mem, ctx.env.sprintf(d.data, input.data))
    case FormatFromMem => Content(mem, ctx.env.render(d.data, mem))
    case _ => Content(mem, "")
  }

  const FreshMessage := EventValue(NoPayload, Some(BackendMsg("", false, "", "", "")))

  /** The event data a backend send builds on: what it holds, if that has a
      message object, and otherwise a new one. */
  function Base(cur: Option<EventValue>): (e: EventValue)
    ensures e.backend.Some?
  {
    if cur.Some? && cur.value.backend.Some? then cur.value else FreshMessage
  }

  /** The message object of the input, or an empty one that stands for none. */
  function Incoming(input: Input): BackendMsg
    requires input.Input? && input.eventData.Some?
  {
    if input.eventData.value.backend.Some? then input.eventData.value.backend.value
    else FreshMessage.backend.value
  }

  function ConnIDOf(ctx: Ctx, incoming: BackendMsg, held: BackendMsg): string {
    if incoming.connID != "" then incoming.connID
    else if held.connID != "" then held.connID
    else ctx.connID
  }

  /** Conversations overwrite the session id from memory. The broker takes it from
      memory when the input has one, and otherwise from the held message first. */
  function SessionIDOf(ctx: Ctx, mem: Mem, incoming: BackendMsg, held: BackendMsg): string {
    var sid := if incoming.sessionID == "" then held.sessionID else "";
    if ctx.mtype.Conversation? || sid == "" then Get(mem, SESSION_ID) else sid
  }

  function BuildBackend(ctx: Ctx, input: Input, mem: Mem, d: SendDef, cur: Option<EventValue>): Built {
    if input.NoInput? || input.eventData.None? then BuildCrash
    else
      var incoming := Incoming(input);
      var base := Base(cur);
      var held := base.backend.value;
      var connID := ConnIDOf(ctx, incoming, held);
      if connID == "" then BuildCrash
      else
        match BackendContent(ctx, input, mem, d)
        case ContentCrash => BuildCrash
        case Content(m, text) =>
          var msg := held.(connID := connID, content := text,
                           sessionID := SessionIDOf(ctx, mem, incoming, held),
                           noEcho := incoming.noEcho || d.noEcho);
          Built(m, Some(base.(backend := Some(msg))))
  }

  /** Builds one send: `cur` is the event data the send holds before, `event` after. */
  function BuildOne(ctx: Ctx, input: Input, pin: string, mem: Mem, d: SendDef, cur: Option<EventValue>): Built {
    match d.protocol
    case IssueCred =>
      if d.rule == FormatFromMem then
        if cur.None? || cur.value.payload.issuing.None? then BuildCrash
        else Sends(mem, NoPayload.(issuing := Some(
          Issuing(cur.value.payload.issuing.value.credDefID, ctx.env.render(d.data, mem)))))
      else Built(mem, cur)
    case PresentProof =>
      if d.rule == DataAsIs then Sends(mem, NoPayload.(proof := Some(d.data))) else Built(mem, cur)
    case Answer => Built(mem, cur)
    case Email =>
      if d.rule == GenPIN then
        var m := mem[PIN := pin];
        Sends(m, NoPayload.(email := Some(ctx.env.email(ctx.env.render(d.data, m)))))
      else Built(mem, cur)
    case BasicMessage => BuildBM(ctx, input, mem, d, cur)
    case Hook => BuildHook(ctx, input, mem, d, cur)
    case Backend => BuildBackend(ctx, input, mem, d, cur)
    case Transient =>
      if d.rule == TransientRule then Sends(mem, NoPayload.(basic := Some(d.data))) else BuildCrash
    case _ => NoHandler
  }

  /** What a send list holds: the event data of each of its sends. */
  type Held = seq<Option<EventValue>>

  datatype BuiltAll = AllCrash | BuiltAll(mem: Mem, held: Held, handled: bool)

  /** Builds the sends from `i` on; `pins(k)` is the PIN drawn when send k asks for one. */
  function BuildFrom(ctx: Ctx, input: Input, pins: nat -> string, sends: seq<SendDef>, i: nat,
                     mem: Mem, held: Held): (b: BuiltAll)
    requires i <= |sends| == |held|
    ensures b.BuiltAll? ==> |b.held| == |sends|
    decreases |sends| - i
  {
    if i == |sends| then BuiltAll(mem, held, true)
    else
      match BuildOne(ctx, input, pins(i), mem, sends[i], held[i])
      case BuildCrash => AllCrash
      case NoHandler => BuiltAll(mem, held, false)
      case Built(m, e) => BuildFrom(ctx, input, pins, sends, i + 1, m, held[i := e])
  }

  datatype Turn = TurnCrash | Turn(mem: Mem, held: Held, handled: bool, msg: Option<BackendMsg>)

  /** Everything a picked transition builds for an event. */
  function BuildFor(ctx: Ctx, t: TransitionDef, mem: Mem, ev: Ev, held: Held, pins: nat -> string): (b: Turn)
    requires |held| == |t.sends|
    ensures b.Turn? ==> |b.held| == |t.sends|
  {
    match Prepare(ctx, t.trigger, mem, ev)
    case PrepareCrash => TurnCrash
    case Prepared(m, input, msg) =>
      match BuildFrom(ctx, input, pins, t.sends, 0, m, held)
      case AllCrash => TurnCrash
      case BuiltAll(m', held', handled) => Turn(m', held', handled, msg)
  }

  // ------------------------------------------------------- a machine's state

  /** `signals` counts the terminate signals; `reported` is KeepMemoryReported. */
  datatype PState = PState(current: string, mem: Mem, reported: bool, signals: nat)

  /** Where a send list hangs in the table. */
  datatype Place = Place(state: string, index: nat)

  type Slots = map<Place, Held>

  ghost predicate Shaped(def: MachineDef, slots: Slots) {
    forall s, i :: s in def.states && 0 <= i < |def.states[s].transitions| ==>
      Place(s, i) in slots && |slots[Place(s, i)]| == |def.states[s].transitions[i].sends|
  }

  function DefHeld(sends: seq<SendDef>): (h: Held)
    ensures |h| == |sends|
    ensures forall i :: 0 <= i < |sends| ==> h[i] == sends[i].eventData
  {
    seq(|sends|, i requires 0 <= i < |sends| => sends[i].eventData)
  }

  /** Entering the initial state clears the memory, but only the first time and
      only without `keepMemory`. The new state must be a declared one. */
  function Step(def: MachineDef, p: PState, target: string): PState
    requires target in def.states
  {
    var home := target == def.initialTarget;
    PState(target,
           if home && !def.keepMemory && !p.reported then map[] else p.mem,
           p.reported || home,
           p.signals + if def.states[target].terminate then 1 else 0)
  }

  /** What a handler built: the send list it fired and what that list holds now. */
  datatype Fired = Idle | Fired(place: Place, held: Held, handled: bool, msg: Option<BackendMsg>)

  datatype Outcome = Crash | Next(p: PState, fired: Fired)

  /** One handler call: search, prepare, build, step. A status that is not ready
      is searched for, but goes no further. */
  function Handle(def: MachineDef, ctx: Ctx, p: PState, slots: Slots, ev: Ev, pins: nat -> string): (o: Outcome)
    requires Shaped(def, slots)
    ensures o.Next? && o.fired.Fired? ==>
              && o.fired.place.state == p.current && p.current in def.states
              && o.fired.place.index < |def.states[p.current].transitions|
              && |o.fired.held| == |def.states[p.current].transitions[o.fired.place.index].sends|
  {
    if p.current !in def.states then Crash
    else
      var trs := def.states[p.current].transitions;
      match Select(ctx.env, trs, 0, p.mem, ev)
      case SelectionCrash => Crash
      case Selection(m, NoPick) => Next(p.(mem := m), Idle)
      case Selection(m, Pick(i, target)) =>
        if ev.StatusEv? && !ev.status.ok then Next(p.(mem := m), Idle)
        else
          var place := Place(p.current, i);
          match BuildFor(ctx, trs[i], m, ev, slots[place], pins)
          case TurnCrash => Crash
          case Turn(m1, held, handled, msg) =>
            if target !in def.states then Crash
            else Next(Step(def, p.(mem := m1), target), Fired(place, held, handled, msg))
  }

  /** Initialize and Start: an undeclared initial target leaves the machine in no state. */
  function Start(def: MachineDef, ctx: Ctx, pins: nat -> string): Outcome {
    var current := if def.initialTarget in def.states then def.initialTarget else "";
    match BuildFrom(ctx, NoInput, pins, def.initialSends, 0, map[], DefHeld(def.initialSends))
    case AllCrash => Crash
    case BuiltAll(m, _, _) => Next(PState(current, m, false, 0), Idle)
  }
}
