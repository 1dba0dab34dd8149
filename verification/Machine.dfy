/**
 The machine as the engine keeps it: a table of event objects that the builders
 write in place, message objects that are shared with channels, and a memory map.
 Every method is proved against its function in FsmSpec.
 */
module FsmMachine {
  import opened Wrappers
  import opened FsmTypes
  import opened FsmSpec

  /** A message object. Sending it sends the reference. */
  class BackendData {
    var connID: string
    var noEcho: bool
    var sessionID: string
    var subject: string
    var content: string

    // the backend send that writes this object; null when no table holds it
    ghost const home: Event?

    constructor (msg: BackendMsg, ghost home: Event?)
      ensures Value() == msg && this.home == home
    {
      connID, noEcho, sessionID, subject, content :=
        msg.connID, msg.noEcho, msg.sessionID, msg.subject, msg.content;
      this.home := home;
    }

    function Value(): BackendMsg
      reads this
    {
      BackendMsg(connID, noEcho, sessionID, subject, content)
    }
  }

  datatype EventData = EventData(payload: Payload, backend: BackendData?)

  datatype InputEvent = NoInputEvent | InputEvent(protocol: Protocol, data: string, eventData: Option<EventData>)
  {
    function Message(): BackendData? {
      if InputEvent? && eventData.Some? then eventData.value.backend else null
    }

    function View(): Input
      reads Message()
    {
      match this
      case NoInputEvent => NoInput
      case InputEvent(p, s, None) => Input(p, s, None)
      case InputEvent(p, s, Some(ed)) =>
        Input(p, s, Some(EventValue(ed.payload, if ed.backend == null then None else Some(ed.backend.Value()))))
    }
  }

  /** A send of the table. */
  class Event {
    const def: SendDef
    var eventData: Option<EventData>

    // where the send hangs, so that two sends are two objects
    ghost const owner: Machine
    ghost const place: Place
    ghost const index: nat

    constructor (def: SendDef, eventData: Option<EventData>, ghost owner: Machine, ghost place: Place, ghost index: nat)
      ensures this.def == def && this.eventData == eventData
      ensures this.owner == owner && this.place == place && this.index == index
    {
      this.def, this.eventData := def, eventData;
      this.owner, this.place, this.index := owner, place, index;
    }

    /** The message object that builds of this send write. */
    function Message(): BackendData?
      reads this
    {
      if def.protocol == Backend && eventData.Some? then eventData.value.backend else null
    }

    ghost predicate Owned()
      reads this
    {
      Message() != null ==> Message().home == this
    }

    function View(): Option<EventValue>
      reads this, Message()
    {
      if eventData.None? then None
      else Some(EventValue(eventData.value.payload, if Message() == null then None else Some(Message().Value())))
    }
  }

  ghost function Views(sends: seq<Event>): (h: Held)
    reads sends, set e: Event | e in sends :: e.Message()
    ensures |h| == |sends|
    ensures forall i :: 0 <= i < |sends| ==> h[i] == sends[i].View()
  {
    seq(|sends|, i requires 0 <= i < |sends| reads sends, set e: Event | e in sends :: e.Message() => sends[i].View())
  }

  ghost function Defs(sends: seq<Event>): (ds: seq<SendDef>)
    ensures |ds| == |sends|
    ensures forall i :: 0 <= i < |sends| ==> ds[i] == sends[i].def
  {
    seq(|sends|, i requires 0 <= i < |sends| => sends[i].def)
  }

  class Transition {
    const trigger: Trigger
    const sends: seq<Event>
    const target: string
    const machine: Machine
    ghost const place: Place

    constructor (trigger: Trigger, sends: seq<Event>, target: string, machine: Machine, ghost place: Place)
      ensures this.trigger == trigger && this.sends == sends && this.target == target
      ensures this.machine == machine && this.place == place
    {
      this.trigger, this.sends, this.target, this.machine := trigger, sends, target, machine;
      this.place := place;
    }

    ghost function Def(): TransitionDef {
      TransitionDef(trigger, Defs(sends), target)
    }

    ghost predicate Valid()
      reads sends
    {
      forall i :: 0 <= i < |sends| ==>
        && sends[i].owner == machine && sends[i].place == place && sends[i].index == i
        && sends[i].Owned()
    }

    /** The sends are those of the machine that hang where the transition hangs. */
    ghost predicate Hangs()
      reads machine`events, machine.events
    {
      && machine.Owns()
      && (forall i :: 0 <= i < |sends| ==>
            sends[i] in machine.events && sends[i].place == place && sends[i].index == i)
      && forall e :: e in machine.events && e.place == place ==> e in sends
    }

    /** The objects a build of this transition may write, besides the memory. */
    ghost function Footprint(): set<object>
      reads sends
    {
      (set e: Event | e in sends :: e as object)
      + (set e: Event | e in sends && e.Message() != null :: e.Message() as object)
    }

    /** A build writes sends and message objects, nothing else. */
    lemma Outside(o: object)
      requires !(o is Event) && !(o is BackendData)
      ensures o !in Footprint()
    {
    }

    /** A script's target, in a copy that shares the sends. */
    method WithNewTarget(tgt: string) returns (nt: Transition)
      ensures nt.trigger == trigger && nt.sends == sends && nt.machine == machine && nt.place == place
      ensures nt.target == if tgt == "" then target else tgt
    {
      if tgt == "" {
        return this;
      }
      nt := new Transition(trigger, sends, tgt, machine, place);
    }

    method ExecLua(script: string, content: string, anyOutput: bool) returns (out: string, tgt: string, ok: bool)
      modifies machine`memory
      ensures LuaOut(machine.memory, out, tgt, ok) ==
              FsmSpec.ExecLua(machine.env, script, content, anyOutput, old(machine.memory))
    {
      out, tgt, ok := machine.ExecLua(script, content, anyOutput);
    }

    method BuildBMSend(input: InputEvent, send: Event) returns (ok: bool)
      requires send.def.protocol == BasicMessage
      modifies machine`memory, send`eventData
      ensures
        var b := old(BuildBM(machine.Ctx(), input.View(), machine.memory, send.def, send.View()));
        if ok then b == Built(machine.memory, send.View()) else b.BuildCrash?
    {
      if input.NoInputEvent? && send.def.rule != DataAsIs && send.def.rule != FormatFromMem {
        return false;
      }
      match send.def.rule {
        case UseInput => send.eventData := input.eventData;
        case DataAsIs => send.eventData := Some(EventData(NoPayload.(basic := Some(send.def.data)), null));
        case Format =>
          send.eventData := Some(EventData(NoPayload.(basic := Some(machine.env.sprintf(send.def.data, input.data))),
              null));
        case FormatFromMem =>
          send.eventData := Some(EventData(NoPayload.(basic := Some(machine.env.render(send.def.data,
              machine.memory))), null));
        case Lua =>
          var content := input.data;
          var out, _, fine := ExecLua(send.def.data, content, true);
          send.eventData := Some(EventData(NoPayload.(basic := Some(if fine then out else content)), null));
        case _ =>
      }
      ok := true;
    }

    method BuildHookSend(input: InputEvent, send: Event) returns (ok: bool)
      requires send.def.protocol == Hook
      modifies send`eventData
      ensures
        var b := old(BuildHook(machine.Ctx(), input.View(), machine.memory, send.def, send.View()));
        if ok then b == Built(machine.memory, send.View()) else b.BuildCrash?
    {
      match send.def.rule {
        case DataAsIs => send.eventData := Some(EventData(HookPayload(send.def.typeID, send.def.data), null));
        case UseInput =>
          var dataStr := "";
          if input.NoInputEvent? {
            return false;
          }
          if input.protocol == BasicMessage {
            if input.eventData.None? || input.eventData.value.payload.basic.None? {
              return false;
            }
            dataStr := input.eventData.value.payload.basic.value;
          }
          send.eventData := Some(EventData(HookPayload(send.def.typeID, dataStr), null));
        case Format =>
          if input.NoInputEvent? {
            return false;
          }
          send.eventData := Some(EventData(HookPayload(send.def.typeID,
              machine.env.sprintf(send.def.data, input.data)), null));
        case FormatFromMem =>
          send.eventData := Some(EventData(HookPayload(send.def.typeID,
              machine.env.render(send.def.data, machine.memory)), null));
        case _ =>
      }
      ok := true;
    }

    /** The text of a backend send. */
    method BuildBackendContent(input: InputEvent, send: Event) returns (ok: bool, content: string)
      requires input.InputEvent? && input.eventData.Some?
      modifies machine`memory
      ensures
        var c := old(BackendContent(machine.Ctx(), input.View(), machine.memory, send.def));
        if ok then c == Content(machine.memory, content) else c.ContentCrash?
    {
      ok, content := true, "";
      match send.def.rule {
        case Lua =>
          var out, _, fine := ExecLua(send.def.data, input.data, true);
          content := if fine then out else input.data;
        case DataAsIs => content := send.def.data;
        case UseInput =>
          if input.protocol == BasicMessage {
            if input.eventData.value.payload.basic.None? {
              return false, "";
            }
            content := input.eventData.value.payload.basic.value;
          } else if input.protocol == Backend {
            if input.eventData.value.backend == null {
              return false, "";
            }
            content := input.eventData.value.backend.content;
          }
        case Format => content := machine.env.sprintf(send.def.data, input.data);
        case FormatFromMem => content := machine.env.render(send.def.data, machine.memory);
        case _ =>
      }
    }

    /** The header of a backend send: from the input first, then from the message
        that the send holds, then from the machine. */
    method BuildBackendHeader(input: InputEvent, held: BackendData?, send: Event)
      returns (connID: string, sessionID: string, noEcho: bool)
      requires input.InputEvent? && input.eventData.Some?
      ensures
        var incoming := Incoming(input.View());
        var msg := if held == null then FreshMessage.backend.value else held.Value();
        && connID == ConnIDOf(machine.Ctx(), incoming, msg)
        && sessionID == SessionIDOf(machine.Ctx(), machine.memory, incoming, msg)
        && noEcho == (incoming.noEcho || send.def.noEcho)
    {
      var inputEventSID, sendEventSID := "", "";
      connID, sessionID, noEcho := "", "", false;
      var incoming := input.Message();
      if incoming != null {
        inputEventSID, connID, noEcho := incoming.sessionID, incoming.connID, incoming.noEcho;
      }
      if !noEcho {
        noEcho := send.def.noEcho;
      }
      if held != null {
        sendEventSID := held.sessionID;
        if connID == "" && held.connID != "" {
          connID := held.connID;
        }
      }
      if inputEventSID == "" {
        sessionID := sendEventSID;
      }
      if machine.mtype.Conversation? || sessionID == "" {
        sessionID := Get(machine.memory, SESSION_ID);
      }
      if connID == "" {
        connID := machine.connID;
      }
    }

    /** Builds on the message object that the send holds, if it holds one: that is
        the object an earlier build of this send has already sent. */
    method BuildBackendSend(input: InputEvent, send: Event) returns (ok: bool)
      requires send.def.protocol == Backend && send.Owned()
      requires input.Message() != null ==> input.Message().home != send
      modifies machine`memory, send`eventData, if send.Message() == null then {} else {send.Message()}
      ensures
        var b := old(BuildBackend(machine.Ctx(), input.View(), machine.memory, send.def, send.View()));
        if ok then b == Built(machine.memory, send.View()) else b.BuildCrash?
      ensures send.Owned()
      ensures send.Message() == old(send.Message()) || (old(send.Message()) == null && fresh(send.Message()))
    {
      if input.NoInputEvent? || input.eventData.None? {
        return false;
      }
      var held := send.Message();
      var connID, sessionID, noEcho := BuildBackendHeader(input, held, send);
      assert old(Base(send.View()).backend.value) == if held == null then FreshMessage.backend.value else held.Value();
      if connID == "" {
        return false;
      }
      var content;
      ok, content := BuildBackendContent(input, send);
      if !ok {
        return false;
      }
      if held == null {
        held := new BackendData(BackendMsg("", false, "", "", ""), send);
        send.eventData := Some(EventData(NoPayload, held));
      }
      held.connID, held.content, held.sessionID, held.noEcho := connID, content, sessionID, noEcho;
    }

    /** One round of the loop below. A protocol without a handler ends the loop. */
    method BuildSend(input: InputEvent, pin: string, send: Event) returns (ok: bool, handled: bool)
      requires send.Owned()
      requires input.Message() != null ==> input.Message().home != send
      modifies machine`memory, send`eventData, if send.Message() == null then {} else {send.Message()}
      ensures
        var b := old(BuildOne(machine.Ctx(), input.View(), pin, machine.memory, send.def, send.View()));
        if !ok then b.BuildCrash?
        else if handled then b == Built(machine.memory, send.View())
        else b.NoHandler? && machine.memory == old(machine.memory) && send.View() == old(send.View())
      ensures send.Owned()
      ensures send.Message() == old(send.Message()) || (old(send.Message()) == null && fresh(send.Message()))
    {
      ok, handled := true, true;
      match send.def.protocol {
        case IssueCred =>
          if send.def.rule == FormatFromMem {
            if send.eventData.None? || send.eventData.value.payload.issuing.None? {
              return false, true;
            }
            send.eventData := Some(EventData(NoPayload.(issuing := Some(
              Issuing(send.eventData.value.payload.issuing.value.credDefID,
                      machine.env.render(send.def.data, machine.memory)))), null));
          }
        case PresentProof =>
          if send.def.rule == DataAsIs {
            send.eventData := Some(EventData(NoPayload.(proof := Some(send.def.data)), null));
          }
        case Answer =>
        case Email =>
          if send.def.rule == GenPIN {
            machine.memory := machine.memory[PIN := pin];
            var emailJSON := machine.env.render(send.def.data, machine.memory);
            send.eventData := Some(EventData(NoPayload.(email := Some(machine.env.email(emailJSON))), null));
          }
        case BasicMessage => ok := BuildBMSend(input, send);
        case Hook => ok := BuildHookSend(input, send);
        case Backend => ok := BuildBackendSend(input, send);
        case Transient =>
          if send.def.rule == TransientRule {
            send.eventData := Some(EventData(NoPayload.(basic := Some(send.def.data)), null));
          } else {
            ok := false;
          }
        case _ => handled := false;
      }
    }

    /** The input's message object belongs to another machine's table, or to none. */
    ghost predicate ForeignInput(input: InputEvent) {
      input.Message() != null && input.Message().home != null ==> input.Message().home.owner != machine
    }

    ghost predicate Hold(held: Held)
      reads sends, set e: Event | e in sends :: e.Message()
    {
      |held| == |sends| && forall i :: 0 <= i < |sends| ==> sends[i].View() == held[i]
    }

    /** Building one send leaves what the other sends hold as it is. */
    method BuildAt(i: nat, input: InputEvent, pin: string, ghost held: Held)
      returns (ok: bool, handled: bool, ghost now: Held)
      requires Valid() && i < |sends| && ForeignInput(input) && Hold(held)
      modifies machine`memory, Footprint()
      ensures Valid() && forall e :: e in sends ==> e.Message() == old(e.Message()) || fresh(e.Message())
      ensures
        var b := BuildOne(machine.Ctx(), old(input.View()), pin, old(machine.memory), sends[i].def, held[i]);
        if !ok then b.BuildCrash?
        else if handled then now == held[i := sends[i].View()] && b == Built(machine.memory, now[i])
        else now == held && b.NoHandler? && machine.memory == old(machine.memory)
      ensures ok ==> Hold(now)
      ensures input.View() == old(input.View())
    {
      assert sends[i] in sends;
      ok, handled := BuildSend(input, pin, sends[i]);
      now := if handled then held[i := sends[i].View()] else held;
      forall k | 0 <= k < |sends| && k != i
        ensures sends[k].View() == old(sends[k].View()) && sends[k].Owned()
      {
        assert sends[k].index != sends[i].index;
      }
    }

    /** Builds every send in place: from what the sends held, the pure recursion gives what
        they hold now. */
    method BuildAll(input: InputEvent, pins: nat -> string, ghost held: Held) returns (ok: bool, handled: bool)
      requires Valid() && ForeignInput(input) && Hold(held)
      modifies machine`memory, Footprint()
      ensures
        var b := BuildFrom(machine.Ctx(), old(input.View()), pins, Defs(sends), 0, old(machine.memory), held);
        if ok then b == BuiltAll(machine.memory, Views(sends), handled) else b.AllCrash?
      ensures Valid() && forall e :: e in sends ==> e.Message() == old(e.Message()) || fresh(e.Message())
      ensures input.View() == old(input.View())
    {
      ok, handled := true, true;
      ghost var ctx, view, defs := machine.Ctx(), input.View(), Defs(sends);
      ghost var total := BuildFrom(ctx, view, pins, defs, 0, machine.memory, held);
      ghost var now := held;
      var i := 0;
      while i < |sends|
        invariant i <= |sends| && Valid() && Hold(now)
        invariant input.View() == view
        invariant forall e :: e in sends ==> e.Message() == old(e.Message()) || fresh(e.Message())
        invariant BuildFrom(ctx, view, pins, defs, i, machine.memory, now) == total
      {
        ok, handled, now := BuildAt(i, input, pins(i), now);
        if !ok {
          return;
        }
        if !handled {
          assert Views(sends) == now;
          return;
        }
        i := i + 1;
      }
      assert Views(sends) == now;
    }

    /** The sends, and all the others of the machine, hold what `slots` says. */
    ghost predicate HangsIn(slots: Slots)
      reads machine`events, machine.events, sends, set e: Event | e in machine.events :: e.Message(),
          set e: Event | e in sends :: e.Message()
    {
      Hangs() && machine.Holds(slots) && place in slots && slots[place] == Views(sends)
    }

    /** The same, with what it means for the whole table: only this transition's slot changes. */
    method BuildInTable(input: InputEvent, pins: nat -> string, ghost slots: Slots) returns (ok: bool, handled: bool)
      requires HangsIn(slots) && ForeignInput(input)
      modifies machine`memory, Footprint()
      ensures
        var b := BuildFrom(machine.Ctx(), old(input.View()), pins, Defs(sends), 0, old(machine.memory), slots[place]);
        if ok then b == BuiltAll(machine.memory, Views(sends), handled) else b.AllCrash?
      ensures Hangs() && machine.Holds(slots[place := Views(sends)])
      ensures forall e :: e in machine.events ==> e.Message() == old(e.Message()) || fresh(e.Message())
      ensures input.View() == old(input.View())
    {
      ok, handled := BuildAll(input, pins, slots[place]);
      forall e | e in machine.events && e !in sends
        ensures e.View() == old(e.View()) && e.Owned() && e.Message() == old(e.Message())
      {
      }
    }

    // ------------------------------------------------------ from input to sends

    method BuildInputEvent(status: Status, ghost slots: Slots) returns (e: InputEvent)
      requires HangsIn(slots)
      modifies machine`memory
      ensures HangsIn(slots)
      ensures e.Message() == null
      ensures PrepareStatus(machine.Ctx(), trigger, old(machine.memory), status) ==
              Prepared(machine.memory, e.View(), None)
    {
      e := InputEvent(status.protocol, "", None);
      if status.protocol != BasicMessage {
        return;
      }
      var content := status.content;
      var basic := Some(EventData(NoPayload.(basic := Some(content)), null));
      match trigger.rule {
        case ValidateInputNotEqual | ValidateInputEqual | Lua | UseInput | TransientRule =>
          e := InputEvent(status.protocol, content, basic);
        case UseInputSaveConnID =>
          machine.memory := machine.memory[machine.connID + trigger.data := content];
          e := InputEvent(status.protocol, content, basic);
        case UseInputSaveSessionID =>
          machine.memory := machine.memory[SESSION_ID := content];
          e := InputEvent(status.protocol, content, basic);
        case UseInputSave =>
          machine.memory := machine.memory[trigger.data := content];
          e := InputEvent(status.protocol, content, basic);
        case DataAsIs | InputEqual =>
          e := e.(eventData := Some(EventData(NoPayload.(basic := Some(trigger.data)), null)));
        case _ =>
      }
    }

    /** A write to a received message does not show in the table. */
    method SetSessionID(data: BackendData, sessionID: string, ghost slots: Slots)
      requires HangsIn(slots) && machine.Foreign(data)
      modifies data`sessionID
      ensures HangsIn(slots) && data.Value() == old(data.Value()).(sessionID := sessionID)
    {
      ForeignOutside(data);
      data.sessionID := sessionID;
    }

    /** A session id that the trigger saves is also written into the received message. */
    method BuildInputFromBackendData(data: BackendData, ghost slots: Slots) returns (ok: bool, e: InputEvent)
      requires HangsIn(slots) && machine.Foreign(data)
      modifies machine`memory, data`sessionID
      ensures HangsIn(slots)
      ensures
        var p := PrepareBackend(machine.Ctx(), trigger, old(machine.memory), old(data.Value()));
        if ok then p == Prepared(machine.memory, e.View(), Some(data.Value())) else p.PrepareCrash?
      ensures ok ==> e.Message() == null || e.Message() == data
    {
      match machine.mtype {
        case Conversation =>
          e := InputEvent(BasicMessage, data.content, Some(EventData(NoPayload.(basic := Some(data.content)), null)));
        case Broker =>
          e := InputEvent(Backend, data.content, Some(EventData(NoPayload, data)));
      }
      match trigger.rule {
        case UseInputSaveSessionID =>
          machine.memory := machine.memory[data.connID + SESSION_ID := data.content];
          if e.Message() == null {
            return false, e;
          }
          SetSessionID(data, data.content, slots);
        case UseInputSaveConnID =>
          machine.memory := machine.memory[data.connID + trigger.data := data.content];
        case UseInputSave =>
          machine.memory := machine.memory[trigger.data := data.content];
        case _ =>
      }
      ok := true;
    }

    /** What a build for an event in memory `mem` gives, for all kinds of event: only the
        slot of this transition changes in the table. */
    ghost predicate BuiltFor(ev: Ev, mem: Mem, pins: nat -> string, slots: Slots, ok: bool, handled: bool,
            msg: Option<BackendMsg>)
      reads machine, machine.events, sends, set e: Event | e in machine.events :: e.Message(),
          set e: Event | e in sends :: e.Message()
      requires place in slots && |slots[place]| == |sends|
    {
      var b := BuildFor(machine.Ctx(), Def(), mem, ev, slots[place], pins);
      if ok then Hangs() && machine.Holds(slots[place := Views(sends)]) &&
          b == Turn(machine.memory, Views(sends), handled, msg)
      else b.TurnCrash?
    }

    method DoBuildSendEvents(input: InputEvent, pins: nat -> string,
                             ghost slots: Slots, ghost ev: Ev, ghost mem: Mem, ghost msg: Option<BackendMsg>)
      returns (ok: bool, handled: bool)
      requires HangsIn(slots) && ForeignInput(input)
      requires Prepare(machine.Ctx(), trigger, mem, ev) == Prepared(machine.memory, input.View(), msg)
      modifies machine`memory, Footprint()
      ensures BuiltFor(ev, mem, pins, slots, ok, handled, msg)
      ensures forall e :: e in machine.events ==> e.Message() == old(e.Message()) || fresh(e.Message())
      ensures input.View() == old(input.View())
    {
      ok, handled := BuildInTable(input, pins, slots);
    }

    method BuildSendEvents(status: Status, pins: nat -> string, ghost slots: Slots) returns (ok: bool, handled: bool)
      requires HangsIn(slots)
      modifies machine`memory, Footprint()
      ensures BuiltFor(StatusEv(status), old(machine.memory), pins, slots, ok, handled, None)
      ensures forall e :: e in machine.events ==> e.Message() == old(e.Message()) || fresh(e.Message())
    {
      ghost var mem := machine.memory;
      var input := BuildInputEvent(status, slots);
      ok, handled := DoBuildSendEvents(input, pins, slots, StatusEv(status), mem, None);
    }

    lemma ForeignOutside(data: BackendData)
      requires Hangs() && machine.Foreign(data)
      ensures data !in Footprint()
    {
    }

    /** Builds for a received message, which stays as preparing left it. */
    method DoBuildFor(data: BackendData, input: InputEvent, pins: nat -> string, ghost slots: Slots, ghost ev: Ev,
            ghost mem: Mem)
      returns (ok: bool, handled: bool)
      requires HangsIn(slots) && ForeignInput(input) && machine.Foreign(data)
      requires FsmSpec.Prepare(machine.Ctx(), trigger, mem, ev) ==
          Prepared(machine.memory, input.View(), Some(data.Value()))
      modifies machine`memory, Footprint()
      ensures BuiltFor(ev, mem, pins, slots, ok, handled, Some(data.Value()))
      ensures forall e :: e in machine.events ==> e.Message() == old(e.Message()) || fresh(e.Message())
    {
      ForeignOutside(data);
      ghost var seen := data.Value();
      ok, handled := DoBuildSendEvents(input, pins, slots, ev, mem, Some(seen));
      assert data.Value() == seen;
    }

    method BuildSendEventsFromBackendData(data: BackendData, pins: nat -> string, ghost slots: Slots)
      returns (ok: bool, handled: bool)
      requires HangsIn(slots) && machine.Foreign(data)
      modifies machine`memory, Footprint(), data`sessionID
      ensures BuiltFor(BackendEv(old(data.Value())), old(machine.memory), pins, slots, ok, handled, Some(data.Value()))
      ensures forall e :: e in machine.events ==> e.Message() == old(e.Message()) || fresh(e.Message())
    {
      ghost var mem, ev := machine.memory, BackendEv(data.Value());
      var input;
      ok, input := BuildInputFromBackendData(data, slots);
      handled := true;
      if ok {
        ok, handled := DoBuildFor(data, input, pins, slots, ev, mem);
      }
    }

    method BuildSendEventsFromStep(data: string, pins: nat -> string, ghost slots: Slots)
      returns (ok: bool, handled: bool)
      requires HangsIn(slots)
      modifies machine`memory, Footprint()
      ensures BuiltFor(StepEv(data), old(machine.memory), pins, slots, ok, handled, None)
      ensures forall e :: e in machine.events ==> e.Message() == old(e.Message()) || fresh(e.Message())
    {
      var input := InputEvent(Transient, "", Some(EventData(NoPayload.(basic := Some(data)), null)));
      ok, handled := DoBuildSendEvents(input, pins, slots, StepEv(data), machine.memory, None);
    }

    method BuildSendEventsFromHook(hookData: map<string, string>, pins: nat -> string, ghost slots: Slots)
      returns (ok: bool, handled: bool)
      requires HangsIn(slots)
      modifies machine`memory, Footprint()
      ensures BuiltFor(HookEv(hookData), old(machine.memory), pins, slots, ok, handled, None)
      ensures forall e :: e in machine.events ==> e.Message() == old(e.Message()) || fresh(e.Message())
    {
      var input := InputEvent(Hook, "", Some(EventData(NoPayload.(hook := Some(hookData)), null)));
      ok, handled := DoBuildSendEvents(input, pins, slots, HookEv(hookData), machine.memory, None);
    }

    method BuildSendAnswers(q: Question, pins: nat -> string, ghost slots: Slots) returns (ok: bool, handled: bool)
      requires HangsIn(slots)
      modifies machine`memory, Footprint()
      ensures BuiltFor(QuestionEv(q), old(machine.memory), pins, slots, ok, handled, None)
      ensures forall e :: e in machine.events ==> e.Message() == old(e.Message()) || fresh(e.Message())
    {
      var input := InputEvent(q.protocol, "", None);
      ok, handled := DoBuildSendEvents(input, pins, slots, QuestionEv(q), machine.memory, None);
    }
  }

  /** A message object is preset in backend sends only. */
  predicate PresetFits(d: SendDef) {
    d.protocol != Backend && d.eventData.Some? ==> d.eventData.value.backend.None?
  }

  predicate HasIssuing(d: SendDef) {
    d.eventData.Some? && d.eventData.value.payload.issuing.Some?
  }

  predicate IssuingGiven(ds: seq<SendDef>) {
    forall d :: d in ds && d.protocol == IssueCred ==> HasIssuing(d)
  }

  predicate StateIssuingGiven(st: StateDef) {
    forall i :: 0 <= i < |st.transitions| ==> IssuingGiven(st.transitions[i].sends)
  }

  datatype State = State(transitions: seq<Transition>, terminate: bool)

  class Machine {
    const mtype: MachineType
    const env: Env
    const connID: string
    const keepMemory: bool
    const initialTarget: string
    var states: map<string, State>
    var initial: Transition?
    var memory: Mem
    var current: string
    var keepMemoryReported: bool
    var termSignals: nat  // what has been sent on the terminate channel

    // the table file, and the sends that hang in the table
    const def: MachineDef
    ghost var events: set<Event>

    /** The machine as it is read from the table file: no object of the table is wired yet. */
    constructor (def: MachineDef, env: Env, connID: string)
      ensures this.def == def && this.env == env && this.connID == connID
      ensures mtype == def.mtype && keepMemory == def.keepMemory && initialTarget == def.initialTarget
      ensures states == map[] && events == {} && initial == null && !keepMemoryReported && termSignals == 0
    {
      this.def, this.env, this.connID := def, env, connID;
      mtype, keepMemory, initialTarget := def.mtype, def.keepMemory, def.initialTarget;
      states, initial, memory, current, keepMemoryReported, termSignals := map[], null, map[], "", false, 0;
      events := {};
    }

    ghost function Ctx(): Ctx {
      FsmSpec.Ctx(env, mtype, connID)
    }

    function PState(): PState
      reads this
    {
      FsmSpec.PState(current, memory, keepMemoryReported, termSignals)
    }

    ghost predicate WiredAt(s: string, i: nat)
      reads this`states, this`events
      requires s in states && i < |states[s].transitions|
    {
      var t := states[s].transitions[i];
      && t.machine == this && t.place == Place(s, i)
      && forall j :: 0 <= j < |t.sends| ==>
           && t.sends[j] in events && t.sends[j].place == t.place && t.sends[j].index == j
    }

    ghost predicate Located(e: Event)
      reads this`states
    {
      && e.place.state in states && e.place.index < |states[e.place.state].transitions|
      && e.index < |states[e.place.state].transitions[e.place.index].sends|
      && states[e.place.state].transitions[e.place.index].sends[e.index] == e
    }

    /** The table is the table file's, and no event object hangs in two places. */
    ghost predicate Wired()
      reads this`states, this`events
    {
      && def.mtype == mtype && def.keepMemory == keepMemory && def.initialTarget == initialTarget
      && def.states.Keys == states.Keys
      && (forall e :: e in events ==> Located(e))
      && (forall s :: s in states ==> StateWired(s))
    }

    ghost predicate Owns()
      reads this`events, events
    {
      forall e :: e in events ==> e.owner == this && e.Owned()
    }

    ghost predicate Valid()
      reads this`states, this`events, events
    {
      Wired() && Owns()
    }

    /** The sends of the table hold what `slots` says. */
    ghost predicate Holds(slots: Slots)
      reads this`events, events, set e: Event | e in events :: e.Message()
    {
      forall e :: e in events ==>
        e.place in slots && e.index < |slots[e.place]| && e.View() == slots[e.place][e.index]
    }

    /** The machine is in order, and its table holds `slots`. */
    ghost predicate In(slots: Slots)
      reads this`states, this`events, events, set e: Event | e in events :: e.Message()
    {
      Valid() && Holds(slots) && Shaped(def, slots)
    }

    /** The objects that handlers write, besides the machine itself. */
    ghost function Footprint(): set<object>
      reads this`events, events
    {
      (set e: Event | e in events :: e as object)
      + (set e: Event | e in events && e.Message() != null :: e.Message() as object)
    }

    // ------------------------------------------------------------- initializing

    /** What every new send of the table is. */
    ghost predicate New(e: Event)
      reads e, e.Message()
    {
      e.owner == this && e.Owned() && (PresetFits(e.def) ==> e.View() == e.def.eventData)
    }

    method NewSend(d: SendDef, ghost place: Place, ghost index: nat) returns (e: Event)
      ensures fresh(e) && (e.Message() != null ==> fresh(e.Message()))
      ensures New(e) && e.def == d && e.place == place && e.index == index
    {
      e := new Event(d, None, this, place, index);
      if d.eventData.Some? {
        var message: BackendData? := null;
        if d.eventData.value.backend.Some? {
          message := new BackendData(d.eventData.value.backend.value, e);
        }
        e.eventData := Some(EventData(d.eventData.value.payload, message));
      }
    }

    /** The sends of one transition. A credential send must come with its Issuing data,
        unless the transition is the initial one. */
    method NewSends(ds: seq<SendDef>, isInitial: bool, ghost place: Place) returns (ok: bool, sends: seq<Event>)
      ensures ok == (isInitial || IssuingGiven(ds))
      ensures forall j :: 0 <= j < |sends| ==>
                fresh(sends[j]) && (sends[j].Message() != null ==> fresh(sends[j].Message()))
                && New(sends[j]) && sends[j].place == place && sends[j].index == j
      ensures ok ==> Defs(sends) == ds
    {
      sends := [];
      for j := 0 to |ds|
        invariant |sends| == j && Defs(sends) == ds[..j]
        invariant isInitial || IssuingGiven(ds[..j])
        invariant forall k :: 0 <= k < j ==>
          fresh(sends[k]) && (sends[k].Message() != null ==> fresh(sends[k].Message()))
          && New(sends[k]) && sends[k].place == place && sends[k].index == k
      {
        assert ds[..j + 1] == ds[..j] + [ds[j]];
        if !isInitial && ds[j].protocol == IssueCred && !HasIssuing(ds[j]) {
          return false, sends;
        }
        var send := NewSend(ds[j], place, j);
        sends := sends + [send];
      }
      assert ds[..|ds|] == ds;
      ok := true;
    }

    ghost predicate Built(t: Transition, s: string, i: nat, es: set<Event>)
      requires s in def.states && i < |def.states[s].transitions|
    {
      && t.machine == this && t.place == Place(s, i) && t.Def() == def.states[s].transitions[i]
      && forall j :: 0 <= j < |t.sends| ==> t.sends[j] in es && t.sends[j].place == t.place && t.sends[j].index == j
    }

    /** Where a send of state `s` hangs among the transitions that are built so far. */
    ghost predicate HangsAmong(e: Event, s: string, trs: seq<Transition>) {
      && e.place.state == s && e.place.index < |trs|
      && e.index < |trs[e.place.index].sends| && trs[e.place.index].sends[e.index] == e
    }

    method NewState(s: string) returns (ok: bool, st: State, ghost es: set<Event>)
      requires s in def.states
      ensures ok == StateIssuingGiven(def.states[s])
      ensures fresh(es) && forall e :: e in es ==> New(e) && HangsAmong(e, s, st.transitions)
      ensures ok ==> StateBuilt(s, st, es)
    {
      var ds := def.states[s].transitions;
      var trs: seq<Transition> := [];
      es := {};
      for i := 0 to |ds|
        invariant |trs| == i
        invariant forall k :: 0 <= k < i ==> IssuingGiven(ds[k].sends) && Built(trs[k], s, k, es)
        invariant fresh(es) && forall e :: e in es ==> New(e) && HangsAmong(e, s, trs)
      {
        var fine, sends := NewSends(ds[i].sends, false, Place(s, i));
        if !fine {
          return false, State([], false), {};
        }
        var t := new Transition(ds[i].trigger, sends, ds[i].target, this, Place(s, i));
        es := es + set e | e in sends;
        assert Built(t, s, i, es);
        trs := trs + [t];
      }
      return true, State(trs, def.states[s].terminate), es;
    }

    ghost predicate StateWired(s: string)
      requires s in states && s in def.states
      reads this`states, this`events
    {
      && def.states[s].terminate == states[s].terminate
      && |def.states[s].transitions| == |states[s].transitions|
      && forall i :: 0 <= i < |states[s].transitions| ==>
           WiredAt(s, i) && states[s].transitions[i].Def() == def.states[s].transitions[i]
    }

    ghost predicate StateBuilt(s: string, st: State, es: set<Event>)
      requires s in def.states
    {
      && st.terminate == def.states[s].terminate && |st.transitions| == |def.states[s].transitions|
      && forall i :: 0 <= i < |st.transitions| ==> Built(st.transitions[i], s, i, es)
    }

    ghost predicate HangsInTable(e: Event, table: map<string, State>) {
      e.place.state in table && HangsAmong(e, e.place.state, table[e.place.state].transitions)
    }

    /** What is built for the states of `table`. */
    ghost predicate Builds(table: map<string, State>, es: set<Event>) {
      && (forall s :: s in table ==> s in def.states && StateIssuingGiven(def.states[s]) && StateBuilt(s, table[s], es))
      && forall e :: e in es ==> HangsInTable(e, table)
    }

    lemma BuildsMore(table: map<string, State>, es: set<Event>, s: string, st: State, es': set<Event>)
      requires Builds(table, es) && s !in table && s in def.states && StateIssuingGiven(def.states[s])
      requires StateBuilt(s, st, es') && forall e :: e in es' ==> HangsAmong(e, s, st.transitions)
      ensures Builds(table[s := st], es + es')
    {
    }

    method NewStates() returns (ok: bool, table: map<string, State>, ghost es: set<Event>)
      ensures ok == forall s :: s in def.states ==> StateIssuingGiven(def.states[s])
      ensures ok ==> table.Keys == def.states.Keys && Builds(table, es)
      ensures fresh(es) && forall e :: e in es ==> New(e)
    {
      var todo := def.states.Keys;
      ok, table, es := true, map[], {};
      while todo != {}
        invariant todo <= def.states.Keys && table.Keys == def.states.Keys - todo
        invariant Builds(table, es)
        invariant fresh(es) && forall e :: e in es ==> New(e)
        decreases |todo|
      {
        var s :| s in todo;
        var st;
        ghost var es';
        ok, st, es' := NewState(s);
        if !ok {
          return;
        }
        BuildsMore(table, es, s, st, es');
        table, es, todo := table[s := st], es + es', todo - {s};
      }
      ok := true;
    }

    method WireStates() returns (ok: bool)
      modifies `states, `events, `current
      ensures ok == forall s :: s in def.states ==> StateIssuingGiven(def.states[s])
      ensures ok ==>
        && states.Keys == def.states.Keys && (forall s :: s in states ==> StateWired(s))
        && (forall e :: e in events ==> Located(e) && New(e)) && fresh(events)
        && current == if initialTarget in def.states then initialTarget else old(current)
    {
      var table;
      ghost var es;
      ok, table, es := NewStates();
      if ok {
        states, events := table, es;
        if initialTarget in states {
          current := initialTarget;
        }
      }
    }

    method NewInitial() returns (t: Transition)
      ensures t.machine == this && t.Valid() && Defs(t.sends) == def.initialSends
      ensures forall e :: e in t.sends ==> New(e) && fresh(e) && (e.Message() != null ==> fresh(e.Message()))
    {
      var _, sends := NewSends(def.initialSends, true, Place("", 0));
      t := new Transition(Trigger(NoProtocol, DataAsIs, ""), sends, def.initialTarget, this, Place("", 0));
    }

    /** Wires the table and moves to the initial state. An initial target that is not a
        declared state is no error: it leaves the machine in no state. */
    method Initialize() returns (ok: bool)
      requires states == map[] && events == {} && current == ""
      requires mtype == def.mtype && keepMemory == def.keepMemory && initialTarget == def.initialTarget
      modifies `states, `events, `current, `memory, `initial
      ensures ok == forall s :: s in def.states ==> StateIssuingGiven(def.states[s])
      ensures ok ==>
        && Valid() && PState() == FsmSpec.PState(if initialTarget in def.states then initialTarget else "", map[],
                                                 old(keepMemoryReported), old(termSignals))
        && (forall e :: e in events ==> New(e)) && fresh(events)
      ensures ok ==>
        && initial != null && initial.machine == this && initial.Valid() && Defs(initial.sends) == def.initialSends
        && (forall e :: e in initial.sends ==>
              New(e) && e !in events && fresh(e) && (e.Message() != null ==> fresh(e.Message())))
    {
      memory := map[];
      ok := WireStates();
      if ok {
        initial := NewInitial();
      }
    }

    /** Builds the sends of the initial transition, without an input. They hang outside
        the table of states, so that does not change. */
    method Start(pins: nat -> string, ghost slots: Slots) returns (ok: bool, handled: bool)
      requires Valid() && Holds(slots)
      requires initial != null && initial.machine == this && initial.Valid() && Defs(initial.sends) == def.initialSends
      requires initial.Hold(DefHeld(def.initialSends)) && forall e :: e in initial.sends ==> e !in events
      modifies `memory, initial.Footprint()
      ensures Valid() && Holds(slots)
      ensures
        var b := BuildFrom(Ctx(), NoInput, pins, def.initialSends, 0, old(memory), DefHeld(def.initialSends));
        if ok then b == BuiltAll(memory, Views(initial.sends), handled) else b.AllCrash?
    {
      ok, handled := initial.BuildAll(NoInputEvent, pins, DefHeld(def.initialSends));
      forall e | e in events ensures e.View() == old(e.View()) && e.Owned() {
        assert e !in initial.sends;
      }
    }

    method ExecLua(script: string, content: string, anyOutput: bool) returns (out: string, tgt: string, ok: bool)
      modifies `memory
      ensures LuaOut(memory, out, tgt, ok) == FsmSpec.ExecLua(env, script, content, anyOutput, old(memory))
    {
      memory := memory[LUA_INPUT := content];
      var run := env.lua(script, memory);
      memory := run.mem;
      out, tgt, ok := "", "", false;
      if run.failed || (LUA_OUTPUT !in memory && LUA_ERROR !in memory) {
        return;
      }
      out, ok := Get(memory, LUA_OUTPUT), LUA_OUTPUT in memory;
      tgt := Get(memory, LUA_TARGET);
      ok := anyOutput || (ok && out == LUA_OK);
    }

    // ------------------------------------------------------ one trigger event

    method CopyBackendDataValuesToMemory(data: BackendData)
      modifies `memory
      ensures memory == CopyBackend(old(memory), data.Value())
    {
      if data.connID != "" {
        memory := memory[CONN_ID := data.connID];
      }
      if data.subject != "" {
        memory := memory[SUBJECT := data.subject];
      }
      if data.sessionID != "" {
        memory := memory[SESSION_ID := data.sessionID];
      }
    }

    method EventTriggersByBackendData(e: Trigger, data: BackendData) returns (ok: bool, tgt: string)
      modifies `memory
      ensures Verdict(memory, ok, tgt) == TriggersByBackend(env, e, old(memory), data.Value())
    {
      CopyBackendDataValuesToMemory(data);
      var content := data.content;
      ok, tgt := false, "";
      match e.rule {
        case ValidateInputNotEqual => ok := Get(memory, e.data) != content;
        case ValidateInputEqual => ok := Get(memory, e.data) == content;
        case InputEqual => ok := content == e.data;
        case DataAsIs | UseInput | UseInputSave | UseInputSaveConnID | UseInputSaveSessionID => ok := true;
        case Lua =>
          var _, target, fine := ExecLua(e.data, content, false);
          ok, tgt := fine, target;
        case _ =>
      }
    }

    method EventTriggers(e: Trigger, status: Status) returns (ok: bool, tgt: string)
      modifies `memory
      ensures Verdict(memory, ok, tgt) == TriggersByStatus(env, e, old(memory), status)
    {
      ok, tgt := false, "";
      match status.protocol {
        case IssueCred | Connection | PresentProof => ok := true;
        case BasicMessage =>
          var content := status.content;
          match e.rule {
            case ValidateInputNotEqual => ok := Get(memory, e.data) != content;
            case ValidateInputEqual => ok := Get(memory, e.data) == content;
            case InputEqual => ok := content == e.data;
            case DataAsIs | UseInput | UseInputSave | TransientRule | UseInputSaveConnID | UseInputSaveSessionID =>
              ok := true;
            case Lua =>
              var _, target, fine := ExecLua(e.data, content, false);
              ok, tgt := fine, target;
            case _ =>
          }
        case _ =>
      }
    }

    /** The decline rule marks in place which wanted attributes were presented. */
    method NotAcceptValues(wanted: seq<WantedAttr>, presented: seq<ProofAttr>) returns (ok: bool)
      ensures ok == Declines(wanted, presented)
    {
      if |wanted| != |presented| {
        return true;
      }
      var found := new bool[|wanted|](_ => false);
      for k := 0 to |presented|
        invariant forall i :: 0 <= i < |wanted| ==> found[i] == Presents(presented[..k], wanted[i])
      {
        ghost var before := found[..];
        for i := 0 to |wanted|
          invariant forall j :: i <= j < |wanted| ==> found[j] == before[j]
          invariant forall j :: 0 <= j < i ==>
            found[j] == (before[j] || (wanted[j].name == presented[k].name &&
                wanted[j].credDefID == presented[k].credDefID))
        {
          if wanted[i].name == presented[k].name && wanted[i].credDefID == presented[k].credDefID {
            found[i] := true;
          }
        }
        forall i | 0 <= i < |wanted| ensures found[i] == Presents(presented[..k + 1], wanted[i]) {
          PresentsNext(presented, k, wanted[i]);
        }
      }
      assert presented[..|presented|] == presented;
      for i := 0 to |wanted|
        invariant forall j :: 0 <= j < i ==> found[j]
      {
        if !found[i] {
          return true;
        }
      }
      return false;
    }

    /** The accept rule saves values as it counts, also when it will not accept. */
    method AcceptAndInputValues(wanted: seq<WantedAttr>, presented: seq<ProofAttr>) returns (ok: bool)
      modifies `memory
      ensures memory == SaveValues(wanted, presented, old(memory))
      ensures ok == (PairCount(wanted, presented) == |presented|)
    {
      var count := 0;
      for k := 0 to |presented|
        invariant memory == SaveValues(wanted, presented[..k], old(memory))
        invariant count == PairCount(wanted, presented[..k])
      {
        var attr := presented[k];
        ghost var mem, sofar := memory, count;
        for i := 0 to |wanted|
          invariant count == sofar + NameCount(wanted[..i], attr.name)
          invariant memory == if NameCount(wanted[..i], attr.name) > 0 then mem[attr.name := attr.value] else mem
        {
          assert wanted[..i + 1][..i] == wanted[..i];
          if wanted[i].name == attr.name {
            memory := memory[wanted[i].name := attr.value];
            count := count + 1;
          }
        }
        assert wanted[..|wanted|] == wanted && presented[..k + 1][..k] == presented[..k];
      }
      assert presented[..|presented|] == presented;
      ok := count == |presented|;
    }

    method EventAnswers(e: Trigger, q: Question) returns (crash: bool, ok: bool)
      modifies `memory
      ensures FsmSpec.Answers(env, e, old(memory), q) == if crash then VerdictCrash else Says(memory, ok)
    {
      if e.protocol != PresentProof || env.attrs(e.data).None? {
        return true, false;
      }
      crash, ok := false, false;
      var wanted := env.attrs(e.data).value;
      match e.rule {
        case NotAcceptValues => ok := NotAcceptValues(wanted, q.presented);
        case AcceptAndInputValues => ok := AcceptAndInputValues(wanted, q.presented);
        case _ =>
      }
    }

    // ------------------------------------------------------- the search loops

    /** `t` is the transition that the search picked, or null for none. */
    ghost predicate IsPick(s: string, pick: Pick, t: Transition?)
      reads this`states
      requires s in states
    {
      match pick
      case NoPick => t == null
      case Pick(i, target) =>
        && i < |states[s].transitions| && t != null && t.machine == this
        && t.trigger == states[s].transitions[i].trigger && t.sends == states[s].transitions[i].sends
        && t.place == Place(s, i) && t.target == target
    }

    ghost predicate Searched(before: PState, ev: Ev, t: Transition?)
      reads this
      requires before.current in def.states && Wired()
    {
      var s := Select(env, def.states[before.current].transitions, 0, before.mem, ev);
      s.Selection? && PState() == before.(mem := s.mem) && IsPick(before.current, s.pick, t)
    }

    /** The search for `ev` left the memory `mem` and picked `t`, which hangs in the table. */
    ghost predicate PickedBy(before: PState, ev: Ev, t: Transition, mem: Mem)
      reads this`states
    {
      && t.machine == this && t.place.state == before.current
      && before.current in def.states && before.current in states
      && var trs, i := def.states[before.current].transitions, t.place.index;
         && i < |trs| && t.trigger == trs[i].trigger && Defs(t.sends) == trs[i].sends
         && i < |states[before.current].transitions| && t.sends == states[before.current].transitions[i].sends
         && Select(env, trs, 0, before.mem, ev) == Selection(mem, Pick(i, t.target))
    }

    lemma Picked(before: PState, slots: Slots, ev: Ev, t: Transition)
      requires In(slots) && before.current in def.states && Searched(before, ev, t)
      ensures t.HangsIn(slots) && PickedBy(before, ev, t, memory)
    {
    }

    lemma NothingPicked(before: PState, slots: Slots, ev: Ev, pins: nat -> string)
      requires In(slots) && before.current in def.states && Searched(before, ev, null)
      ensures Handle(def, Ctx(), before, slots, ev, pins) == Next(PState(), FsmSpec.Idle)
    {
    }

    lemma NoState(before: PState, slots: Slots, ev: Ev, pins: nat -> string)
      requires Shaped(def, slots) && before.current !in def.states
      ensures Handle(def, Ctx(), before, slots, ev, pins).Crash?
    {
    }

    /** The sends of a list that fired. */
    ghost function SendsOf(fired: Fired): seq<Event>
      reads this`states
    {
      if fired.Fired? && fired.place.state in states && fired.place.index < |states[fired.place.state].transitions|
      then states[fired.place.state].transitions[fired.place.index].sends else []
    }

    /** The message may be anyone's, but not from this machine's own table. */
    ghost predicate Foreign(data: BackendData) {
      data.home != null ==> data.home.owner != this
    }

    method Triggers(status: Status) returns (t: Transition?)
      requires Wired() && current in states
      modifies `memory
      ensures Searched(old(PState()), StatusEv(status), t)
    {
      var trs := states[current].transitions;
      ghost var ds := def.states[current].transitions;
      for i := 0 to |trs|
        invariant Select(env, ds, i, memory, StatusEv(status)) == Select(env, ds, 0, old(memory), StatusEv(status))
      {
        assert trs[i].Def() == ds[i] && WiredAt(current, i);
        if trs[i].trigger.protocol == status.protocol {
          var ok, tgt := EventTriggers(trs[i].trigger, status);
          if ok {
            t := trs[i].WithNewTarget(tgt);
            return;
          }
        }
      }
      return null;
    }

    method TriggersByBackendData(data: BackendData) returns (t: Transition?)
      requires Wired() && current in states
      modifies `memory
      ensures Searched(old(PState()), BackendEv(data.Value()), t)
    {
      var trs := states[current].transitions;
      ghost var ds, ev := def.states[current].transitions, BackendEv(data.Value());
      for i := 0 to |trs|
        invariant Select(env, ds, i, memory, ev) == Select(env, ds, 0, old(memory), ev)
      {
        assert trs[i].Def() == ds[i] && WiredAt(current, i);
        if trs[i].trigger.protocol == Backend {
          var ok, tgt := EventTriggersByBackendData(trs[i].trigger, data);
          if ok {
            t := trs[i].WithNewTarget(tgt);
            return;
          }
        }
      }
      return null;
    }

    method TriggersByHook(ghost hookData: map<string, string>) returns (t: Transition?)
      requires Wired() && current in states
      ensures Searched(PState(), HookEv(hookData), t)
    {
      var trs := states[current].transitions;
      ghost var ds := def.states[current].transitions;
      for i := 0 to |trs|
        invariant Select(env, ds, i, memory, HookEv(hookData)) == Select(env, ds, 0, memory, HookEv(hookData))
      {
        assert trs[i].Def() == ds[i] && WiredAt(current, i);
        if trs[i].trigger.protocol == Hook {
          return trs[i];
        }
      }
      return null;
    }

    method TriggersByStep(ghost data: string) returns (t: Transition?)
      requires Wired() && current in states
      ensures Searched(PState(), StepEv(data), t)
    {
      var trs := states[current].transitions;
      ghost var ds := def.states[current].transitions;
      for i := 0 to |trs|
        invariant Select(env, ds, i, memory, StepEv(data)) == Select(env, ds, 0, memory, StepEv(data))
      {
        assert trs[i].Def() == ds[i] && WiredAt(current, i);
        if trs[i].trigger.protocol == Transient {
          return trs[i];
        }
      }
      return null;
    }

    /** A trigger of the question's protocol whose wanted list cannot be read is a crash. */
    method Answers(q: Question) returns (crash: bool, t: Transition?)
      requires Wired() && current in states
      modifies `memory
      ensures crash == Select(env, def.states[old(current)].transitions, 0, old(memory), QuestionEv(q)).SelectionCrash?
      ensures !crash ==> Searched(old(PState()), QuestionEv(q), t)
    {
      var trs := states[current].transitions;
      ghost var ds := def.states[current].transitions;
      for i := 0 to |trs|
        invariant Select(env, ds, i, memory, QuestionEv(q)) == Select(env, ds, 0, old(memory), QuestionEv(q))
      {
        assert trs[i].Def() == ds[i] && WiredAt(current, i);
        if trs[i].trigger.protocol == q.protocol {
          var bad, ok := EventAnswers(trs[i].trigger, q);
          if bad {
            return true, null;
          }
          if ok {
            return false, trs[i];
          }
        }
      }
      return false, null;
    }

    // -------------------------------------------------------------- the step

    method Step(t: Transition)
      requires Wired() && t.target in states
      modifies `current, `memory, `keepMemoryReported, `termSignals
      ensures PState() == FsmSpec.Step(def, old(PState()), t.target)
    {
      current := t.target;
      if current == initialTarget {
        if !keepMemory && !keepMemoryReported {
          memory := map[];
        }
        keepMemoryReported := true;
      }
      CheckTerm();
    }

    /** A step changes nothing that the table holds. */
    method Land(t: Transition, ghost slots: Slots)
      requires In(slots) && t.target in states
      modifies `current, `memory, `keepMemoryReported, `termSignals
      ensures In(slots) && PState() == FsmSpec.Step(def, old(PState()), t.target)
    {
      Step(t);
    }

    method CheckTerm()
      requires current in states
      modifies `termSignals
      ensures termSignals == old(termSignals) + if states[current].terminate then 1 else 0
    {
      if states[current].terminate {
        termSignals := termSignals + 1;
      }
    }
  }

  lemma PresentsNext(presented: seq<ProofAttr>, k: nat, w: WantedAttr)
    requires k < |presented|
    ensures Presents(presented[..k + 1], w) ==
            (Presents(presented[..k], w) || (w.name == presented[k].name && w.credDefID == presented[k].credDefID))
  {
  }
}
