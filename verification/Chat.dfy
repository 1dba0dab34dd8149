/**
 The handlers of a conversation and of the broker, as they run: they search, build in
 place, send message references and step. Each is proved against its function.
 */
module Chat {
  import opened Wrappers
  import opened FsmTypes
  import opened FsmSpec
  import opened InPlace
  import opened ChatSpec
  import opened FsmMachine

  /** The sending side of a channel of message references. */
  class BackendChan {
    var items: seq<BackendData>

    method Put(data: BackendData)
      modifies this
      ensures items == old(items) + [data]
    {
      items := items + [data];
    }
  }

  /** What had been sent before a handler call. */
  datatype Channels = Channels(calls: seq<ServerCall>, last: set<string>, steps: seq<string>, items: seq<BackendData>)

  ghost function Refs(sends: seq<Event>, ks: seq<nat>): (rs: seq<BackendData?>)
    reads sends
    ensures |rs| == |ks|
  {
    seq(|ks|, j requires 0 <= j < |ks| reads sends => if ks[j] < |sends| then sends[ks[j]].Message() else null)
  }

  lemma {:induction false} HandledConnIDs(ctx: Ctx, input: Input, pins: nat -> string, sends: seq<SendDef>, mem: Mem,
          held: Held, k: nat)
    requires |held| == |sends| && k < |sends| && sends[k].protocol == Backend
    requires var b := BuildFrom(ctx, input, pins, sends, 0, mem, held); b.BuiltAll? && b.handled
    ensures
      var e := BuildFrom(ctx, input, pins, sends, 0, mem, held).held[k];
      e.Some? && e.value.backend.Some? && e.value.backend.value.connID != ""
  {
    HandledReaches(ctx, input, pins, sends, 0, mem, held);
    BuildFromEach(ctx, input, pins, sends, 0, mem, held, k);
    var e := BuildFrom(ctx, input, pins, sends, 0, mem, held).held[k];
    assert Reached(sends, 0, k);
    var m :| BuiltAt(ctx, input, pins(k), m, sends[k], held[k], e);
  }

  /** What a handler does once a transition is picked and its sends are built. */
  function Completed(def: MachineDef, chat: Chat, ev: Ev, place: Place, turn: Turn, target: string,
          ids: nat -> string): ChatOutcome
    requires place.state in def.states && place.index < |def.states[place.state].transitions|
    requires turn.Turn? ==> |turn.held| == |def.states[place.state].transitions[place.index].sends|
  {
    if turn.TurnCrash? || target !in def.states then ChatCrash
    else
      var sends := def.states[place.state].transitions[place.index].sends;
      var out := if turn.handled then SendFrom(sends, turn.held, 0, ev.StatusEv? || ev.QuestionEv?, ids, Nothing)
          else Some(Nothing);
      match out
      case None => ChatCrash
      case Some(eff) =>
        ChatNext(Chat(FsmSpec.Step(def, chat.p.(mem := turn.mem), target), chat.slots[place := turn.held],
                      chat.last + Ids(eff.registered)),
                 eff, Fired(place, turn.held, turn.handled, turn.msg))
  }

  lemma CompletedIs(def: MachineDef, chat: Chat, ev: Ev, place: Place, turn: Turn, target: string,
          ids: nat -> string, eff: Effects)
    requires place.state in def.states && place.index < |def.states[place.state].transitions|
    requires turn.Turn? && |turn.held| == |def.states[place.state].transitions[place.index].sends| &&
        target in def.states
    requires
      if turn.handled then
        SendFrom(def.states[place.state].transitions[place.index].sends, turn.held, 0,
                 ev.StatusEv? || ev.QuestionEv?, ids, Nothing) == Some(eff)
      else eff == Nothing
    ensures
      Completed(def, chat, ev, place, turn, target, ids) ==
      ChatNext(Chat(FsmSpec.Step(def, chat.p.(mem := turn.mem), target), chat.slots[place := turn.held],
          chat.last + Ids(eff.registered)),
               eff, Fired(place, turn.held, turn.handled, turn.msg))
  {
  }

  /** The picked transition with another target builds what the picked one builds. */
  lemma DeliverPicked(def: MachineDef, ctx: Ctx, chat: Chat, ev: Ev, pins: nat -> string, ids: nat -> string,
                      t: TransitionDef, i: nat, mem: Mem)
    requires Shaped(def, chat.slots) && chat.p.current in def.states && i < |def.states[chat.p.current].transitions|
    requires
      var trs := def.states[chat.p.current].transitions;
      && Select(ctx.env, trs, 0, chat.p.mem, ev) == Selection(mem, Pick(i, t.target))
      && t.trigger == trs[i].trigger && t.sends == trs[i].sends
    requires ev.StatusEv? ==> ev.status.ok
    ensures
      var place := Place(chat.p.current, i);
      Deliver(def, ctx, chat, ev, pins, ids) ==
      Completed(def, chat, ev, place, BuildFor(ctx, t, mem, ev, chat.slots[place], pins), t.target, ids)
  {
    var o := Deliver(def, ctx, chat, ev, pins, ids);
    var turn := BuildFor(ctx, t, mem, ev, chat.slots[Place(chat.p.current, i)], pins);
    assert turn == BuildFor(ctx, def.states[chat.p.current].transitions[i], mem, ev,
        chat.slots[Place(chat.p.current, i)], pins);
    assert chat.last + Ids([]) == chat.last;
  }

  ghost predicate PresetsFit(def: MachineDef) {
    && (forall s, i, k ::
          s in def.states && 0 <= i < |def.states[s].transitions|
          && 0 <= k < |def.states[s].transitions[i].sends|
          ==> PresetFits(def.states[s].transitions[i].sends[k]))
    && forall k :: 0 <= k < |def.initialSends| ==> PresetFits(def.initialSends[k])
  }

  class Conversation {
    const id: string
    const machine: Machine
    const backend: BackendChan?  // null: there is no broker, and its messages are dropped
    var lastProtocolID: set<string>
    var calls: seq<ServerCall>  // what has been sent to the agency
    var steps: seq<string>      // what is on the conversation's own transient channel

    constructor (id: string, machine: Machine, backend: BackendChan?)
      ensures this.id == id && this.machine == machine && this.backend == backend
      ensures lastProtocolID == {} && calls == [] && steps == []
    {
      this.id, this.machine, this.backend := id, machine, backend;
      lastProtocolID, calls, steps := {}, [], [];
    }

    /** `slots` is what the machine's table holds. */
    ghost function State(slots: Slots): Chat
      reads this, machine
    {
      ChatSpec.Chat(machine.PState(), slots, lastProtocolID)
    }

    /** The conversation is in order, and its table holds `slots`. */
    ghost predicate In(slots: Slots)
      reads machine`states, machine`events, machine.events, set e: Event | e in machine.events :: e.Message()
    {
      machine.In(slots) && machine.mtype.Conversation? && machine.connID == id
    }

    method SetLastProtocolID(pid: string)
      modifies `lastProtocolID
      ensures lastProtocolID == old(lastProtocolID) + {pid}
    {
      lastProtocolID := lastProtocolID + {pid};
    }

    method IsOursAndRm(pid: string) returns (ours: bool)
      modifies `lastProtocolID
      ensures ours == (pid in old(lastProtocolID)) && lastProtocolID == old(lastProtocolID) - {pid}
    {
      ours := pid in lastProtocolID;
      if ours {
        lastProtocolID := lastProtocolID - {pid};
      }
    }

    method Call(call: ServerCall, pid: string, protocol: Protocol)
      modifies `calls, `lastProtocolID
      ensures calls == old(calls) + [call]
      ensures lastProtocolID == old(lastProtocolID) + if WantStatus(protocol) then {} else {pid}
    {
      calls := calls + [call];
      if !WantStatus(protocol) {
        SetLastProtocolID(pid);
      }
    }

    /** What has been sent so far. */
    ghost function Sofar(): Channels
      reads this, backend
    {
      Channels(calls, lastProtocolID, steps, if backend == null then [] else backend.items)
    }

    /** `eff` is sent on top of `base`. */
    ghost predicate Since(base: Channels, sends: seq<Event>, eff: Effects)
      reads this, backend, sends
    {
      && calls == base.calls + eff.calls
      && lastProtocolID == base.last + Ids(eff.registered)
      && steps == base.steps + eff.steps
      && (backend != null ==> backend.items == base.items + Refs(sends, eff.toBroker))
    }

    /** One round of the loop below. The message object of a built send has an id, so
        there is none to fill in here. */
    method SendEvent(sends: seq<Event>, i: nat, hasStatus: bool, pid: string, ghost base: Channels, ghost eff: Effects)
      returns (ok: bool, ghost eff': Effects)
      requires i < |sends| && Since(base, sends, eff)
      modifies `calls, `lastProtocolID, `steps, backend
      ensures
        var out := SendOne(sends[i].def, sends[i].View(), i, hasStatus, pid, eff);
        if ok then out == Some(eff') else out.None?
      ensures ok ==> Since(base, sends, eff')
    {
      var output := sends[i];
      var payload := if output.eventData.Some? then output.eventData.value.payload else NoPayload;
      ok, eff' := true, eff;
      match output.def.protocol {
        case BasicMessage =>
          if payload.basic.None? {
            return false, eff;
          }
          Call(BMCall(payload.basic.value, pid), pid, output.def.protocol);
          eff' := eff.(calls := eff.calls + [BMCall(payload.basic.value, pid)], registered := eff.registered + [pid]);
        case IssueCred =>
          if payload.issuing.None? {
            return false, eff;
          }
          Call(IssueCall(payload.issuing.value, pid), pid, output.def.protocol);
          eff' := eff.(calls := eff.calls + [IssueCall(payload.issuing.value, pid)]);
        case PresentProof =>
          if payload.proof.None? {
            return false, eff;
          }
          Call(ProofCall(payload.proof.value, pid), pid, output.def.protocol);
          eff' := eff.(calls := eff.calls + [ProofCall(payload.proof.value, pid)]);
        case Backend =>
          if output.Message() == null {
            return false, eff;
          }
          if backend != null {
            backend.Put(output.Message());
          }
          eff' := eff.(toBroker := eff.toBroker + [i]);
        case Email =>
          if payload.email.None? {
            return false, eff;
          }
          calls := calls + [EmailCall(payload.email.value)];
          eff' := eff.(calls := eff.calls + [EmailCall(payload.email.value)]);
        case Answer =>
          if !hasStatus {
            return false, eff;
          }
          calls := calls + [ReplyCall(output.def.data == "ACK")];
          eff' := eff.(calls := eff.calls + [ReplyCall(output.def.data == "ACK")]);
        case Hook =>
          if payload.hook.None? {
            return false, eff;
          }
          calls := calls + [HookCall(payload.hook.value)];
          eff' := eff.(calls := eff.calls + [HookCall(payload.hook.value)]);
        case Transient =>
          if payload.basic.None? {
            return false, eff;
          }
          steps := steps + [payload.basic.value];
          eff' := eff.(steps := eff.steps + [payload.basic.value]);
        case _ =>
      }
    }

    /** Sending a built event changes nothing that the table holds. */
    method SendNext(sends: seq<Event>, i: nat, hasStatus: bool, pid: string,
                    ghost base: Channels, ghost slots: Slots, ghost held: Held, ghost eff: Effects)
      returns (ok: bool, ghost eff': Effects)
      requires i < |sends| && Since(base, sends, eff) && In(slots) && Views(sends) == held
      modifies `calls, `lastProtocolID, `steps, backend
      ensures In(slots) && Views(sends) == held
      ensures
        var out := SendOne(sends[i].def, held[i], i, hasStatus, pid, eff);
        if ok then out == Some(eff') && Since(base, sends, eff') else out.None?
    {
      ok, eff' := SendEvent(sends, i, hasStatus, pid, base, eff);
    }

    method Send(sends: seq<Event>, hasStatus: bool, ids: nat -> string,
                ghost base: Channels, ghost slots: Slots, ghost defs: seq<SendDef>, ghost held: Held)
      returns (ok: bool, ghost eff: Effects)
      requires base == Sofar() && In(slots) && Defs(sends) == defs && Views(sends) == held
      modifies `calls, `lastProtocolID, `steps, backend
      ensures In(slots) && Views(sends) == held
      ensures
        var out := SendFrom(defs, held, 0, hasStatus, ids, Nothing);
        if ok then out == Some(eff) && Since(base, sends, eff) else out.None?
    {
      eff := Nothing;
      for i := 0 to |sends|
        invariant SendFrom(defs, held, i, hasStatus, ids, eff) == SendFrom(defs, held, 0, hasStatus, ids, Nothing)
        invariant Since(base, sends, eff)
        invariant Views(sends) == held && In(slots)
      {
        assert defs[i] == sends[i].def;
        ok, eff := SendNext(sends, i, hasStatus, ids(i), base, slots, held, eff);
        if !ok {
          return;
        }
      }
      ok := true;
    }

    // ----------------------------------------------------------------- the start

    lemma FileHeld(file: Slots)
      requires machine.Valid() && PresetsFit(machine.def) && Pristine(machine.def, file)
      requires forall e :: e in machine.events ==> machine.New(e)
      ensures machine.Holds(file)
    {
    }

    lemma InitialHeld()
      requires machine.initial != null && PresetsFit(machine.def) &&
          Defs(machine.initial.sends) == machine.def.initialSends
      requires forall e :: e in machine.initial.sends ==> machine.New(e)
      ensures machine.initial.Hold(DefHeld(machine.def.initialSends))
    {
      var sends := machine.initial.sends;
      forall i | 0 <= i < |sends| ensures sends[i].View() == DefHeld(machine.def.initialSends)[i] {
        assert sends[i].def == machine.def.initialSends[i];
        assert sends[i] in sends;
      }
    }

    /** The machine as its parser leaves it. */
    ghost predicate Parsed()
      reads machine
    {
      && machine.states == map[] && machine.events == {} && machine.current == ""
      && machine.mtype == machine.def.mtype == MachineType.Conversation && machine.connID == id
      && machine.keepMemory == machine.def.keepMemory && machine.initialTarget == machine.def.initialTarget
      && !machine.keepMemoryReported && machine.termSignals == 0
    }

    /** The machine as Initialize leaves it. */
    ghost predicate Ready(file: Slots)
      reads machine, machine.events, set e: Event | e in machine.events :: e.Message(),
            if machine.initial == null then {} else set e: Event | e in machine.initial.sends,
            if machine.initial == null then {} else set e: Event | e in machine.initial.sends :: e.Message()
    {
      && In(file) && machine.initial != null && machine.initial.machine == machine && machine.initial.Valid()
      && Defs(machine.initial.sends) == machine.def.initialSends &&
          machine.initial.Hold(DefHeld(machine.def.initialSends))
      && (forall e :: e in machine.initial.sends ==> e !in machine.events)
      && machine.PState() == PState(if machine.def.initialTarget in machine.def.states
          then machine.def.initialTarget else "", map[], false, 0)
    }

    method Prepare(ghost file: Slots) returns (ok: bool)
      requires Parsed() && PresetsFit(machine.def) && Pristine(machine.def, file)
      modifies machine
      ensures
        if ok then Ready(file) && fresh(machine.initial.Footprint())
        else exists s :: s in machine.def.states && !StateIssuingGiven(machine.def.states[s])
    {
      ok := machine.Initialize();
      if ok {
        FileHeld(file);
        InitialHeld();
      }
    }

    /** The first lines of the conversation's goroutine: wire the machine, start it and
        send what the start builds. A bad table, like a crash, ends the process. */
    method Open(pins: nat -> string, ids: nat -> string, ghost file: Slots) returns (ok: bool, ghost eff: Effects)
      requires Parsed() && lastProtocolID == {} && PresetsFit(machine.def) && Pristine(machine.def, file)
      modifies `calls, `lastProtocolID, `steps, backend, machine
      ensures
        var o := OpenChat(machine.def, machine.Ctx(), file, pins, ids);
        if ok then o == ChatNext(State(file), eff, FsmSpec.Idle) && In(file) && machine.initial != null
                   && Since(old(Sofar()), machine.initial.sends, eff)
        else o.ChatCrash? || exists s :: s in machine.def.states && !StateIssuingGiven(machine.def.states[s])
    {
      ghost var base := Sofar();
      eff := Nothing;
      ok := Prepare(file);
      if ok {
        ok, eff := StartSending(pins, ids, file, base);
      }
    }

    method StartSending(pins: nat -> string, ids: nat -> string, ghost file: Slots, ghost base: Channels)
      returns (ok: bool, ghost eff: Effects)
      requires Ready(file) && base == Sofar() && base.last == {}
      modifies `calls, `lastProtocolID, `steps, backend, machine`memory, machine.initial.Footprint()
      ensures
        var o := OpenChat(machine.def, machine.Ctx(), file, pins, ids);
        if ok then o == ChatNext(State(file), eff, FsmSpec.Idle) && In(file) && Since(base, machine.initial.sends, eff)
        else o.ChatCrash?
    {
      eff := Nothing;
      Apart(machine.initial);
      var handled;
      ok, handled := machine.Start(pins, file);
      if ok && handled {
        ghost var held := Views(machine.initial.sends);
        ok, eff := Send(machine.initial.sends, false, ids, base, file, machine.def.initialSends, held);
      }
    }

    // ------------------------------------------------------------- the handlers

    /** What a handler call did is what the function says, on top of `base`. */
    ghost predicate HandledAs(o: ChatOutcome, base: Channels, slots: Slots, ok: bool, eff: Effects, fired: Fired)
      reads this, machine, backend, machine.events, machine.SendsOf(fired),
          set e: Event | e in machine.events :: e.Message()
    {
      if ok then
        var slots' := if fired.Fired? then slots[fired.place := fired.held] else slots;
        o == ChatNext(State(slots'), eff, fired) && In(slots') && Since(base, machine.SendsOf(fired), eff)
      else o.ChatCrash?
    }

    /** A step sends nothing. */
    method Land(t: Transition, ghost slots: Slots, ghost base: Channels, ghost sends: seq<Event>, ghost eff: Effects)
      requires In(slots) && Since(base, sends, eff) && t.target in machine.states
      modifies machine`current, machine`memory, machine`keepMemoryReported, machine`termSignals
      ensures In(slots) && Since(base, sends, eff)
      ensures machine.PState() == FsmSpec.Step(machine.def, old(machine.PState()), t.target)
    {
      machine.Land(t, slots);
    }

    /** The sends of `t` are those of the table at its place, and hold what `turn` built. */
    ghost predicate Turned(t: Transition, turn: Turn, before: PState, slots: Slots)
      reads machine, machine.events, t.sends, set e: Event | e in machine.events :: e.Message(),
            set e: Event | e in t.sends :: e.Message()
    {
      && turn.Turn? && turn.mem == machine.memory && turn.held == Views(t.sends)
      && In(slots[t.place := turn.held]) && machine.PState() == before.(mem := turn.mem)
      && t.place.state in machine.def.states && t.place.index < |machine.def.states[t.place.state].transitions|
      && Defs(t.sends) == machine.def.states[t.place.state].transitions[t.place.index].sends
      && t.sends == machine.states[t.place.state].transitions[t.place.index].sends
    }

    /** Steps to the picked target, once everything is sent. */
    method Arrive(t: Transition, ghost ids: nat -> string, ghost base: Channels, ghost before: PState,
            ghost slots: Slots,
                  ghost ev: Ev, ghost turn: Turn, ghost eff: Effects)
      requires Turned(t, turn, before, slots) && Since(base, t.sends, eff) && t.target in machine.states
      requires if turn.handled then
                 SendFrom(Defs(t.sends), turn.held, 0, ev.StatusEv? || ev.QuestionEv?, ids, Nothing) == Some(eff)
               else eff == Nothing
      modifies machine`current, machine`memory, machine`keepMemoryReported, machine`termSignals
      ensures
        HandledAs(Completed(machine.def, ChatSpec.Chat(before, slots, base.last), ev, t.place, turn, t.target, ids),
                  base, slots, true, eff, Fired(t.place, turn.held, turn.handled, turn.msg))
    {
      CompletedIs(machine.def, ChatSpec.Chat(before, slots, base.last), ev, t.place, turn, t.target, ids, eff);
      Land(t, slots[t.place := turn.held], base, t.sends, eff);
    }

    /** Sends what was built and steps to the picked target, which must be declared. */
    method Finish(t: Transition, handled: bool, hasStatus: bool, ids: nat -> string,
                  ghost base: Channels, ghost before: PState, ghost slots: Slots, ghost ev: Ev, ghost turn: Turn)
      returns (ok: bool, ghost eff: Effects, ghost fired: Fired)
      requires base == Sofar() && hasStatus == (ev.StatusEv? || ev.QuestionEv?)
      requires Turned(t, turn, before, slots) && turn.handled == handled
      modifies `calls, `lastProtocolID, `steps, backend, machine`current, machine`memory, machine`keepMemoryReported,
               machine`termSignals
      ensures
        HandledAs(Completed(machine.def, ChatSpec.Chat(before, slots, base.last), ev, t.place, turn, t.target, ids),
                  base, slots, ok, eff, fired)
    {
      eff, fired := Nothing, Fired(t.place, turn.held, handled, turn.msg);
      if handled {
        ok, eff := Send(t.sends, hasStatus, ids, base, slots[t.place := turn.held], Defs(t.sends), turn.held);
        if !ok {
          return;
        }
      }
      if t.target !in machine.states {
        return false, eff, fired;
      }
      Arrive(t, ids, base, before, slots, ev, turn, eff);
      ok := true;
    }

    /** What a build leaves alone. */
    lemma Apart(t: Transition)
      ensures machine as object !in t.Footprint() && this as object !in t.Footprint()
      ensures backend as object? !in t.Footprint()
    {
      t.Outside(machine);
      t.Outside(this);
      if backend != null {
        t.Outside(backend);
      }
    }

    /** A search that picks nothing changes the memory at most. */
    lemma NothingPicked(chat: Chat, ev: Ev, pins: nat -> string, ids: nat -> string, base: Channels)
      requires In(chat.slots) && chat.p.current in machine.def.states && machine.Searched(chat.p, ev, null)
      requires base == Sofar() && base.last == chat.last
      ensures HandledAs(Deliver(machine.def, machine.Ctx(), chat, ev, pins, ids), base, chat.slots, true, Nothing,
          FsmSpec.Idle)
    {
      machine.NothingPicked(chat.p, chat.slots, ev, pins);
    }

    /** What a picked transition may write is the machine's to write. */
    lemma Within(t: Transition, slots: Slots)
      requires t.machine == machine && t.HangsIn(slots)
      ensures t.Footprint() <= machine.Footprint()
    {
    }

    /** `t` is picked for `ev` and has not built yet. */
    ghost predicate Picks(chat: Chat, ev: Ev, t: Transition, base: Channels)
      reads this, machine, backend, machine.events, t.machine`events, t.machine.events, t.sends,
            set e: Event | e in machine.events :: e.Message(), set e: Event | e in t.machine.events :: e.Message(),
            set e: Event | e in t.sends :: e.Message()
    {
      && In(chat.slots) && t.HangsIn(chat.slots) && machine.PickedBy(chat.p, ev, t, machine.memory)
      && machine.PState() == chat.p.(mem := machine.memory) && base == Sofar() && base.last == chat.last
      && (ev.StatusEv? ==> ev.status.ok)
    }

    /** The rest of a handler, once the picked transition has built its sends. */
    method Conclude(t: Transition, built: bool, handled: bool, hasStatus: bool, ids: nat -> string,
            ghost pins: nat -> string, ghost base: Channels, ghost chat: Chat, ghost ev: Ev, ghost mem: Mem,
            ghost msg: Option<BackendMsg>)
      returns (ok: bool, ghost eff: Effects, ghost fired: Fired)
      requires base == Sofar() && base.last == chat.last && hasStatus == (ev.StatusEv? || ev.QuestionEv?)
      requires machine.Wired() && machine.mtype.Conversation? && machine.connID == id && Shaped(machine.def, chat.slots)
      requires machine.PState() == chat.p.(mem := machine.memory)
      requires machine.PickedBy(chat.p, ev, t, mem) && (ev.StatusEv? ==> ev.status.ok)
      requires t.BuiltFor(ev, mem, pins, chat.slots, built, handled, msg)
      modifies `calls, `lastProtocolID, `steps, backend, machine`current, machine`memory, machine`keepMemoryReported,
          machine`termSignals
      ensures HandledAs(Deliver(machine.def, machine.Ctx(), chat, ev, pins, ids), base, chat.slots, ok, eff, fired)
    {
      ghost var turn := BuildFor(machine.Ctx(), t.Def(), mem, ev, chat.slots[t.place], pins);
      DeliverPicked(machine.def, machine.Ctx(), chat, ev, pins, ids, t.Def(), t.place.index, mem);
      if !built {
        return false, Nothing, FsmSpec.Idle;
      }
      ok, eff, fired := Finish(t, handled, hasStatus, ids, base, chat.p, chat.slots, ev, turn);
    }

    method FireStep(t: Transition, data: string, pins: nat -> string, ids: nat -> string, ghost chat: Chat,
            ghost base: Channels)
      returns (ok: bool, ghost eff: Effects, ghost fired: Fired)
      requires Picks(chat, StepEv(data), t, base)
      modifies `calls, `lastProtocolID, `steps, backend, machine`current, machine`memory, machine`keepMemoryReported,
               machine`termSignals, t.Footprint()
      ensures
        HandledAs(Deliver(machine.def, machine.Ctx(), chat, StepEv(data), pins, ids), base, chat.slots, ok, eff, fired)
    {
      Apart(t);
      ghost var mem, ev := machine.memory, StepEv(data);
      var built, handled := t.BuildSendEventsFromStep(data, pins, chat.slots);
      ok, eff, fired := Conclude(t, built, handled, false, ids, pins, base, chat, ev, mem, None);
    }

    method StepReceived(data: string, pins: nat -> string, ids: nat -> string, ghost slots: Slots)
      returns (ok: bool, ghost eff: Effects, ghost fired: Fired)
      requires In(slots)
      modifies `calls, `lastProtocolID, `steps, backend, machine`current, machine`memory, machine`keepMemoryReported,
               machine`termSignals, machine.Footprint()
      ensures
        HandledAs(Deliver(machine.def, machine.Ctx(), old(State(slots)), StepEv(data), pins, ids),
                  old(Sofar()), slots, ok, eff, fired)
    {
      ghost var base, chat, ev := Sofar(), State(slots), StepEv(data);
      if machine.current !in machine.states {
        machine.NoState(chat.p, slots, ev, pins);
        return false, Nothing, FsmSpec.Idle;
      }
      var t := machine.TriggersByStep(data);
      if t == null {
        NothingPicked(chat, ev, pins, ids, base);
        return true, Nothing, FsmSpec.Idle;
      }
      machine.Picked(chat.p, slots, ev, t);
      Within(t, slots);
      ok, eff, fired := FireStep(t, data, pins, ids, chat, base);
    }

    method FireHook(t: Transition, hookData: map<string, string>, pins: nat -> string, ids: nat -> string,
            ghost chat: Chat, ghost base: Channels)
      returns (ok: bool, ghost eff: Effects, ghost fired: Fired)
      requires Picks(chat, HookEv(hookData), t, base)
      modifies `calls, `lastProtocolID, `steps, backend, machine`current, machine`memory, machine`keepMemoryReported,
               machine`termSignals, t.Footprint()
      ensures
        HandledAs(Deliver(machine.def, machine.Ctx(), chat, HookEv(hookData), pins, ids), base, chat.slots, ok, eff,
            fired)
    {
      Apart(t);
      ghost var mem, ev := machine.memory, HookEv(hookData);
      var built, handled := t.BuildSendEventsFromHook(hookData, pins, chat.slots);
      ok, eff, fired := Conclude(t, built, handled, false, ids, pins, base, chat, ev, mem, None);
    }

    method HookReceived(hookData: map<string, string>, pins: nat -> string, ids: nat -> string, ghost slots: Slots)
      returns (ok: bool, ghost eff: Effects, ghost fired: Fired)
      requires In(slots)
      modifies `calls, `lastProtocolID, `steps, backend, machine`current, machine`memory, machine`keepMemoryReported,
               machine`termSignals, machine.Footprint()
      ensures
        HandledAs(Deliver(machine.def, machine.Ctx(), old(State(slots)), HookEv(hookData), pins, ids),
                  old(Sofar()), slots, ok, eff, fired)
    {
      ghost var base, chat, ev := Sofar(), State(slots), HookEv(hookData);
      if machine.current !in machine.states {
        machine.NoState(chat.p, slots, ev, pins);
        return false, Nothing, FsmSpec.Idle;
      }
      var t := machine.TriggersByHook(hookData);
      if t == null {
        NothingPicked(chat, ev, pins, ids, base);
        return true, Nothing, FsmSpec.Idle;
      }
      machine.Picked(chat.p, slots, ev, t);
      Within(t, slots);
      ok, eff, fired := FireHook(t, hookData, pins, ids, chat, base);
    }

    lemma CannotAnswer(chat: Chat, q: Question, pins: nat -> string, ids: nat -> string)
      requires Shaped(machine.def, chat.slots) && chat.p.current in machine.def.states
      requires Select(machine.env, machine.def.states[chat.p.current].transitions, 0, chat.p.mem,
          QuestionEv(q)).SelectionCrash?
      ensures Deliver(machine.def, machine.Ctx(), chat, QuestionEv(q), pins, ids).ChatCrash?
    {
    }

    method FireAnswers(t: Transition, q: Question, pins: nat -> string, ids: nat -> string, ghost chat: Chat,
            ghost base: Channels)
      returns (ok: bool, ghost eff: Effects, ghost fired: Fired)
      requires Picks(chat, QuestionEv(q), t, base)
      modifies `calls, `lastProtocolID, `steps, backend, machine`current, machine`memory, machine`keepMemoryReported,
               machine`termSignals, t.Footprint()
      ensures
        HandledAs(Deliver(machine.def, machine.Ctx(), chat, QuestionEv(q), pins, ids), base, chat.slots, ok, eff, fired)
    {
      Apart(t);
      ghost var mem, ev := machine.memory, QuestionEv(q);
      var built, handled := t.BuildSendAnswers(q, pins, chat.slots);
      ok, eff, fired := Conclude(t, built, handled, true, ids, pins, base, chat, ev, mem, None);
    }

    method Answer(q: Question, pins: nat -> string, ids: nat -> string, ghost slots: Slots)
      returns (ok: bool, ghost eff: Effects, ghost fired: Fired)
      requires In(slots)
      modifies `calls, `lastProtocolID, `steps, backend, machine`current, machine`memory, machine`keepMemoryReported,
               machine`termSignals, machine.Footprint()
      ensures
        HandledAs(Deliver(machine.def, machine.Ctx(), old(State(slots)), QuestionEv(q), pins, ids),
                  old(Sofar()), slots, ok, eff, fired)
    {
      ghost var base, chat, ev := Sofar(), State(slots), QuestionEv(q);
      if machine.current !in machine.states {
        machine.NoState(chat.p, slots, ev, pins);
        return false, Nothing, FsmSpec.Idle;
      }
      var crash, t := machine.Answers(q);
      if crash {
        CannotAnswer(chat, q, pins, ids);
        return false, Nothing, FsmSpec.Idle;
      }
      if t == null {
        NothingPicked(chat, ev, pins, ids, base);
        return true, Nothing, FsmSpec.Idle;
      }
      machine.Picked(chat.p, slots, ev, t);
      Within(t, slots);
      ok, eff, fired := FireAnswers(t, q, pins, ids, chat, base);
    }

    /** Only questions that ask to verify a proof go to the machine. */
    method QuestionReceived(isProofVerify: bool, q: Question, pins: nat -> string, ids: nat -> string,
            ghost slots: Slots)
      returns (ok: bool, ghost eff: Effects, ghost fired: Fired)
      requires In(slots)
      modifies `calls, `lastProtocolID, `steps, backend, machine`current, machine`memory, machine`keepMemoryReported,
               machine`termSignals, machine.Footprint()
      ensures
        HandledAs(if isProofVerify then Deliver(machine.def, machine.Ctx(), old(State(slots)), QuestionEv(q), pins, ids)
                  else ChatNext(old(State(slots)), Nothing, FsmSpec.Idle),
                  old(Sofar()), slots, ok, eff, fired)
    {
      ok, eff, fired := true, Nothing, FsmSpec.Idle;
      if isProofVerify {
        ok, eff, fired := Answer(q, pins, ids, slots);
      }
    }

    lemma NotReady(chat: Chat, status: Status, t: Transition, pins: nat -> string, ids: nat -> string, base: Channels)
      requires In(chat.slots) && chat.p.current in machine.def.states
      requires machine.Searched(chat.p, StatusEv(status), t) && !status.ok
      requires base == Sofar() && base.last == chat.last
      ensures
        HandledAs(Deliver(machine.def, machine.Ctx(), chat, StatusEv(status), pins, ids), base, chat.slots,
                  true, Nothing, FsmSpec.Idle)
    {
    }

    method FireStatus(t: Transition, status: Status, pins: nat -> string, ids: nat -> string, ghost chat: Chat,
            ghost base: Channels)
      returns (ok: bool, ghost eff: Effects, ghost fired: Fired)
      requires Picks(chat, StatusEv(status), t, base)
      modifies `calls, `lastProtocolID, `steps, backend, machine`current, machine`memory, machine`keepMemoryReported,
               machine`termSignals, t.Footprint()
      ensures
        HandledAs(Deliver(machine.def, machine.Ctx(), chat, StatusEv(status), pins, ids), base, chat.slots, ok, eff,
            fired)
    {
      Apart(t);
      ghost var mem, ev := machine.memory, StatusEv(status);
      var built, handled := t.BuildSendEvents(status, pins, chat.slots);
      ok, eff, fired := Conclude(t, built, handled, true, ids, pins, base, chat, ev, mem, None);
    }

    /** A status update that is not about a message of our own. `status` is what the agency says
        about it when it is asked. */
    method StatusUpdate(status: Status, pins: nat -> string, ids: nat -> string, ghost slots: Slots)
      returns (ok: bool, ghost eff: Effects, ghost fired: Fired)
      requires In(slots)
      modifies `calls, `lastProtocolID, `steps, backend, machine`current, machine`memory, machine`keepMemoryReported,
               machine`termSignals, machine.Footprint()
      ensures
        HandledAs(Deliver(machine.def, machine.Ctx(), old(State(slots)), StatusEv(status), pins, ids),
                  old(Sofar()), slots, ok, eff, fired)
    {
      ghost var base, chat, ev := Sofar(), State(slots), StatusEv(status);
      if machine.current !in machine.states {
        machine.NoState(chat.p, slots, ev, pins);
        return false, Nothing, FsmSpec.Idle;
      }
      var t := machine.Triggers(status);
      if t == null {
        NothingPicked(chat, ev, pins, ids, base);
        return true, Nothing, FsmSpec.Idle;
      }
      if !status.ok {
        NotReady(chat, status, t, pins, ids, base);
        return true, Nothing, FsmSpec.Idle;
      }
      machine.Picked(chat.p, slots, ev, t);
      Within(t, slots);
      ok, eff, fired := FireStatus(t, status, pins, ids, chat, base);
    }

    method StatusReceived(protocolID: string, status: Status, pins: nat -> string, ids: nat -> string,
            ghost slots: Slots)
      returns (ok: bool, ghost eff: Effects, ghost fired: Fired)
      requires In(slots)
      modifies `calls, `lastProtocolID, `steps, backend, machine`current, machine`memory, machine`keepMemoryReported,
               machine`termSignals, machine.Footprint()
      ensures
        HandledAs(ChatSpec.StatusReceived(machine.def, machine.Ctx(), old(State(slots)), protocolID, status, pins, ids),
                  old(Sofar()).(last := old(lastProtocolID) - {protocolID}), slots, ok, eff, fired)
    {
      ghost var base := Sofar();
      var ours := IsOursAndRm(protocolID);
      if ours {
        return true, Nothing, FsmSpec.Idle;
      }
      assert Sofar() == base && base.last - {protocolID} == base.last;
      ok, eff, fired := StatusUpdate(status, pins, ids, slots);
    }

    /** Fills in a missing connection id, in the object that everyone else sees too. */
    method FillConnID(data: BackendData, ghost slots: Slots)
      requires In(slots) && machine.Foreign(data)
      modifies data`connID
      ensures In(slots) && data.Value() == Addressed(id, old(data.Value()))
    {
      if data.connID == "" {
        data.connID := id;
      }
    }

    method FireBackend(t: Transition, data: BackendData, pins: nat -> string, ids: nat -> string, ghost chat: Chat,
            ghost base: Channels)
      returns (ok: bool, ghost eff: Effects, ghost fired: Fired)
      requires Picks(chat, BackendEv(data.Value()), t, base) && machine.Foreign(data)
      modifies `calls, `lastProtocolID, `steps, backend, machine`current, machine`memory, machine`keepMemoryReported,
               machine`termSignals, t.Footprint(), data`sessionID
      ensures
        HandledAs(Deliver(machine.def, machine.Ctx(), chat, BackendEv(old(data.Value())), pins, ids), base,
            chat.slots, ok, eff, fired)
    {
      Apart(t);
      ghost var mem, ev := machine.memory, BackendEv(data.Value());
      var built, handled := t.BuildSendEventsFromBackendData(data, pins, chat.slots);
      ok, eff, fired := Conclude(t, built, handled, false, ids, pins, base, chat, ev, mem, Some(data.Value()));
    }

    method BackendEvent(data: BackendData, pins: nat -> string, ids: nat -> string, ghost slots: Slots)
      returns (ok: bool, ghost eff: Effects, ghost fired: Fired)
      requires In(slots) && machine.Foreign(data)
      modifies `calls, `lastProtocolID, `steps, backend, machine`current, machine`memory, machine`keepMemoryReported,
               machine`termSignals, machine.Footprint(), data`sessionID
      ensures
        HandledAs(Deliver(machine.def, machine.Ctx(), old(State(slots)), BackendEv(old(data.Value())), pins, ids),
                  old(Sofar()), slots, ok, eff, fired)
    {
      ghost var base, chat, ev := Sofar(), State(slots), BackendEv(data.Value());
      if machine.current !in machine.states {
        machine.NoState(chat.p, slots, ev, pins);
        return false, Nothing, FsmSpec.Idle;
      }
      var t := machine.TriggersByBackendData(data);
      if t == null {
        NothingPicked(chat, ev, pins, ids, base);
        return true, Nothing, FsmSpec.Idle;
      }
      machine.Picked(chat.p, slots, ev, t);
      Within(t, slots);
      ok, eff, fired := FireBackend(t, data, pins, ids, chat, base);
    }

    method BackendReceived(data: BackendData, pins: nat -> string, ids: nat -> string, ghost slots: Slots)
      returns (ok: bool, ghost eff: Effects, ghost fired: Fired)
      requires In(slots) && machine.Foreign(data)
      modifies `calls, `lastProtocolID, `steps, backend, machine`current, machine`memory, machine`keepMemoryReported,
               machine`termSignals, machine.Footprint(), data
      ensures
        HandledAs(ChatSpec.BackendReceived(machine.def, machine.Ctx(), old(State(slots)), old(data.Value()), pins, ids),
                  old(Sofar()), slots, ok, eff, fired)
    {
      FillConnID(data, slots);
      var weHaveSessionID := SESSION_ID in machine.memory;
      if weHaveSessionID && machine.memory[SESSION_ID] != data.sessionID {
        return true, Nothing, FsmSpec.Idle;
      } else if data.noEcho && id == data.connID {
        return true, Nothing, FsmSpec.Idle;
      }
      ok, eff, fired := BackendEvent(data, pins, ids, slots);
    }
  }
}
