/**
 The handler of the broker machine as it runs: it hands what it builds to the
 channel of every conversation.
 */
module BackendService {
  import opened Wrappers
  import opened FsmTypes
  import opened FsmSpec
  import opened InPlace
  import opened ChatSpec
  import opened FsmMachine
  import opened Chat

  /** What a broker's handler says, as a value: the new state, and which of the fired sends go out. */
  datatype BrokerOutcome = BrokerCrash | BrokerNext(p: PState, slots: Slots, toAll: seq<nat>, fired: Fired)

  function BrokerReceived(def: MachineDef, ctx: Ctx, p: PState, slots: Slots, msg: BackendMsg,
          pins: nat -> string): BrokerOutcome
    requires Shaped(def, slots)
  {
    match Handle(def, ctx, p, slots, BackendEv(msg), pins)
    case Crash => BrokerCrash
    case Next(p', Idle) => BrokerNext(p', slots, [], Idle)
    case Next(p', Fired(place, held, handled, seen)) =>
      BrokerNext(p', slots[place := held],
                 if handled then BackendSends(def.states[place.state].transitions[place.index].sends, 0) else [],
                 Fired(place, held, handled, seen))
  }

  /** What the handler does once a transition is picked and its sends are built. */
  function BrokerCompleted(def: MachineDef, p: PState, slots: Slots, place: Place, turn: Turn,
          target: string): BrokerOutcome
    requires place.state in def.states && place.index < |def.states[place.state].transitions|
  {
    if turn.TurnCrash? || target !in def.states then BrokerCrash
    else
      BrokerNext(FsmSpec.Step(def, p.(mem := turn.mem), target), slots[place := turn.held],
                 if turn.handled then BackendSends(def.states[place.state].transitions[place.index].sends, 0) else [],
                 Fired(place, turn.held, turn.handled, turn.msg))
  }

  lemma ReceivedPicked(def: MachineDef, ctx: Ctx, p: PState, slots: Slots, msg: BackendMsg, pins: nat -> string,
                       t: TransitionDef, i: nat, mem: Mem)
    requires Shaped(def, slots) && p.current in def.states && i < |def.states[p.current].transitions|
    requires
      var trs := def.states[p.current].transitions;
      && Select(ctx.env, trs, 0, p.mem, BackendEv(msg)) == Selection(mem, Pick(i, t.target))
      && t.trigger == trs[i].trigger && t.sends == trs[i].sends
    ensures
      var place := Place(p.current, i);
      BrokerReceived(def, ctx, p, slots, msg, pins) ==
      BrokerCompleted(def, p, slots, place, BuildFor(ctx, t, mem, BackendEv(msg), slots[place], pins), t.target)
  {
  }

  lemma {:induction false} BackendSendsNext(sends: seq<SendDef>, i: nat)
    requires i < |sends|
    ensures BackendSends(sends[..i + 1], 0) ==
            BackendSends(sends[..i], 0) + if sends[i].protocol == Backend then [i] else []
  {
    BackendSendsOfPrefix(sends, 0, i);
  }

  lemma {:induction false} BackendSendsOfPrefix(sends: seq<SendDef>, j: nat, i: nat)
    requires j <= i < |sends|
    ensures BackendSends(sends[..i + 1], j) ==
            BackendSends(sends[..i], j) + if sends[i].protocol == Backend then [i] else []
    decreases i - j
  {
    if j < i {
      BackendSendsOfPrefix(sends, j + 1, i);
    } else {
      assert BackendSends(sends[..i + 1], i + 1) == [];
    }
  }

  /** The sends of a list that go out are all built, with a message that has an id. */
  lemma HandledMessages(ctx: Ctx, t: TransitionDef, mem: Mem, ev: Ev, held: Held, pins: nat -> string)
    requires |held| == |t.sends|
    requires BuildFor(ctx, t, mem, ev, held, pins).Turn? && BuildFor(ctx, t, mem, ev, held, pins).handled
    ensures forall k :: 0 <= k < |t.sends| && t.sends[k].protocol == Backend ==>
              var e := BuildFor(ctx, t, mem, ev, held, pins).held[k];
              e.Some? && e.value.backend.Some? && e.value.backend.value.connID != ""
  {
    var p := FsmSpec.Prepare(ctx, t.trigger, mem, ev);
    forall k | 0 <= k < |t.sends| && t.sends[k].protocol == Backend
      ensures
        var e := BuildFor(ctx, t, mem, ev, held, pins).held[k];
        e.Some? && e.value.backend.Some? && e.value.backend.value.connID != ""
    {
      HandledConnIDs(ctx, p.input, pins, t.sends, p.mem, held, k);
    }
  }

  class BackendBot {
    const machine: Machine
    var channels: seq<BackendChan>  // of the conversations there are

    constructor (machine: Machine, channels: seq<BackendChan>)
      ensures this.machine == machine && this.channels == channels
    {
      this.machine, this.channels := machine, channels;
    }

    /** Every conversation has a channel of its own. */
    ghost predicate Channels()
      reads this
    {
      forall i, j :: 0 <= i < j < |channels| ==> channels[i] != channels[j]
    }

    ghost predicate In(slots: Slots)
      reads this, machine`states, machine`events, machine.events, set e: Event | e in machine.events :: e.Message()
    {
      machine.In(slots) && machine.mtype.Broker? && machine.connID == "" && Channels()
    }

    /** What is in the channels. */
    ghost function Queues(): (qs: seq<seq<BackendData>>)
      reads this, channels
      ensures |qs| == |channels| && forall i :: 0 <= i < |qs| ==> qs[i] == channels[i].items
    {
      seq(|channels|, i requires 0 <= i < |channels| reads this, channels => channels[i].items)
    }

    /** Every channel has got `data` on top of what it had. */
    ghost predicate AllGot(base: seq<seq<BackendData>>, data: seq<BackendData?>)
      reads this, channels
    {
      |base| == |channels| && forall i :: 0 <= i < |channels| ==> channels[i].items == base[i] + data
    }

    method SendBackendData(data: BackendData, ghost base: seq<seq<BackendData>>, ghost sofar: seq<BackendData?>)
      requires Channels() && AllGot(base, sofar)
      modifies channels
      ensures AllGot(base, sofar + [data])
    {
      for n := 0 to |channels|
        invariant forall i :: 0 <= i < n ==> channels[i].items == base[i] + (sofar + [data])
        invariant forall i :: n <= i < |channels| ==> channels[i].items == base[i] + sofar
      {
        channels[n].Put(data);
      }
    }

    /** Every backend send has been built. */
    ghost predicate AllBuilt(sends: seq<Event>)
      reads sends
    {
      forall k :: 0 <= k < |sends| && sends[k].def.protocol == Backend ==> sends[k].Message() != null
    }

    method SendNext(sends: seq<Event>, n: nat, ghost slots: Slots, ghost base: seq<seq<BackendData>>)
      requires n < |sends| && In(slots) && AllBuilt(sends)
      requires AllGot(base, Refs(sends, BackendSends(Defs(sends)[..n], 0)))
      modifies channels
      ensures In(slots) && AllBuilt(sends)
      ensures AllGot(base, Refs(sends, BackendSends(Defs(sends)[..n + 1], 0)))
    {
      ghost var defs := Defs(sends);
      BackendSendsNext(defs, n);
      if sends[n].def.protocol == Backend {
        ghost var sofar := Refs(sends, BackendSends(defs[..n], 0));
        SendBackendData(sends[n].Message(), base, sofar);
        assert Refs(sends, BackendSends(defs[..n + 1], 0)) == sofar + [sends[n].Message()];
      } else {
        assert BackendSends(defs[..n + 1], 0) == BackendSends(defs[..n], 0);
      }
    }

    /** Sends the backend events of a built list, in order, to everyone. */
    method Send(sends: seq<Event>, ghost slots: Slots, ghost base: seq<seq<BackendData>>)
      requires In(slots) && base == Queues() && AllBuilt(sends)
      modifies channels
      ensures In(slots) && AllGot(base, Refs(sends, BackendSends(Defs(sends), 0)))
    {
      for n := 0 to |sends|
        invariant In(slots) && AllBuilt(sends) && AllGot(base, Refs(sends, BackendSends(Defs(sends)[..n], 0)))
      {
        SendNext(sends, n, slots, base);
      }
      assert Defs(sends)[..|sends|] == Defs(sends);
    }

    /** What a handler call did is what the function says, on top of `base`. */
    ghost predicate HandledAs(o: BrokerOutcome, base: seq<seq<BackendData>>, ok: bool, fired: Fired)
      reads this, channels, machine, machine.events, machine.SendsOf(fired),
          set e: Event | e in machine.events :: e.Message()
    {
      if ok then
        o.BrokerNext? && o.p == machine.PState() && o.fired == fired && In(o.slots) &&
            AllGot(base, Refs(machine.SendsOf(fired), o.toAll))
      else o.BrokerCrash?
    }

    /** What a build leaves alone. */
    lemma Apart(t: Transition)
      ensures machine as object !in t.Footprint() && this as object !in t.Footprint()
      ensures forall c: BackendChan :: c in channels ==> c as object !in t.Footprint()
    {
      t.Outside(machine);
      t.Outside(this);
      forall c: BackendChan | c in channels ensures c as object !in t.Footprint() {
        t.Outside(c);
      }
    }

    /** A search that picks nothing changes the memory at most. */
    lemma NothingPicked(before: PState, slots: Slots, msg: BackendMsg, pins: nat -> string, base: seq<seq<BackendData>>)
      requires In(slots) && before.current in machine.def.states && machine.Searched(before, BackendEv(msg), null)
      requires base == Queues()
      ensures HandledAs(BrokerReceived(machine.def, machine.Ctx(), before, slots, msg, pins), base, true, FsmSpec.Idle)
    {
      machine.NothingPicked(before, slots, BackendEv(msg), pins);
    }

    /** What a picked transition may write is the machine's to write. */
    lemma Within(t: Transition, slots: Slots)
      requires t.machine == machine && t.HangsIn(slots)
      ensures t.Footprint() <= machine.Footprint()
    {
    }

    method Finish(t: Transition, handled: bool, ghost before: PState, ghost slots: Slots, ghost turn: Turn,
                  ghost base: seq<seq<BackendData>>)
      returns (ok: bool, ghost fired: Fired)
      requires base == Queues()
      requires turn.Turn? && turn.mem == machine.memory && turn.held == Views(t.sends) && turn.handled == handled
      requires In(slots[t.place := turn.held]) && machine.PState() == before.(mem := turn.mem)
      requires t.place.state in machine.def.states && t.place.index < |machine.def.states[t.place.state].transitions|
      requires Defs(t.sends) == machine.def.states[t.place.state].transitions[t.place.index].sends
      requires machine.states[t.place.state].transitions[t.place.index].sends == t.sends
      requires handled ==> AllBuilt(t.sends)
      modifies channels, machine`current, machine`memory, machine`keepMemoryReported, machine`termSignals
      ensures HandledAs(BrokerCompleted(machine.def, before, slots, t.place, turn, t.target), base, ok, fired)
    {
      ghost var after, ks := slots[t.place := turn.held], [];
      fired := Fired(t.place, turn.held, handled, turn.msg);
      if handled {
        Send(t.sends, after, base);
        ks := BackendSends(Defs(t.sends), 0);
      }
      if t.target !in machine.states {
        return false, fired;
      }
      machine.Land(t, after);
      ok := true;
    }

    method BackendReceived(data: BackendData, pins: nat -> string, ghost slots: Slots)
      returns (ok: bool, ghost fired: Fired)
      requires In(slots) && machine.Foreign(data)
      modifies channels, machine`current, machine`memory, machine`keepMemoryReported, machine`termSignals,
               machine.Footprint(), data`sessionID
      ensures
        HandledAs(BrokerReceived(machine.def, machine.Ctx(), old(machine.PState()), slots, old(data.Value()), pins),
                  old(Queues()), ok, fired)
    {
      ghost var base, before, msg := Queues(), machine.PState(), data.Value();
      if machine.current !in machine.states {
        machine.NoState(before, slots, BackendEv(msg), pins);
        return false, FsmSpec.Idle;
      }
      var t := machine.TriggersByBackendData(data);
      if t == null {
        NothingPicked(before, slots, msg, pins, base);
        return true, FsmSpec.Idle;
      }
      machine.Picked(before, slots, BackendEv(msg), t);
      Within(t, slots);
      ok, fired := Fire(t, data, pins, slots, before, base);
    }

    method Fire(t: Transition, data: BackendData, pins: nat -> string, ghost slots: Slots, ghost before: PState,
                ghost base: seq<seq<BackendData>>)
      returns (ok: bool, ghost fired: Fired)
      requires In(slots) && t.HangsIn(slots) && machine.Foreign(data) && base == Queues()
      requires machine.PState() == before.(mem := machine.memory)
      requires machine.PickedBy(before, BackendEv(data.Value()), t, machine.memory)
      modifies channels, machine`current, machine`memory, machine`keepMemoryReported, machine`termSignals,
               t.Footprint(), data`sessionID
      ensures
        HandledAs(BrokerReceived(machine.def, machine.Ctx(), before, slots, old(data.Value()), pins), base, ok, fired)
    {
      ghost var mem, msg := machine.memory, data.Value();
      var built, handled := Build(t, data, pins, slots, base, before);
      ok, fired := Conclude(t, built, handled, before, slots, msg, pins, mem, Some(data.Value()), base);
    }

    /** Building sends nothing and takes no step. */
    method Build(t: Transition, data: BackendData, pins: nat -> string, ghost slots: Slots,
                 ghost base: seq<seq<BackendData>>, ghost before: PState)
      returns (built: bool, handled: bool)
      requires t.HangsIn(slots) && t.machine == machine && machine.Foreign(data)
      requires machine.Wired() && Channels() && base == Queues() && machine.PState() == before.(mem := machine.memory)
      modifies machine`memory, t.Footprint(), data`sessionID
      ensures t.BuiltFor(BackendEv(old(data.Value())), old(machine.memory), pins, slots, built, handled,
          Some(data.Value()))
      ensures machine.Wired() && Channels() && base == Queues() && machine.PState() == before.(mem := machine.memory)
    {
      Apart(t);
      built, handled := t.BuildSendEventsFromBackendData(data, pins, slots);
    }

    method Conclude(t: Transition, built: bool, handled: bool, ghost before: PState, ghost slots: Slots,
            ghost msg: BackendMsg, ghost pins: nat -> string, ghost mem: Mem, ghost seen: Option<BackendMsg>,
            ghost base: seq<seq<BackendData>>)
      returns (ok: bool, ghost fired: Fired)
      requires base == Queues() && Channels()
      requires machine.Wired() && machine.mtype.Broker? && machine.connID == "" && Shaped(machine.def, slots)
      requires machine.PState() == before.(mem := machine.memory)
      requires machine.PickedBy(before, BackendEv(msg), t, mem)
      requires t.BuiltFor(BackendEv(msg), mem, pins, slots, built, handled, seen)
      modifies channels, machine`current, machine`memory, machine`keepMemoryReported, machine`termSignals
      ensures HandledAs(BrokerReceived(machine.def, machine.Ctx(), before, slots, msg, pins), base, ok, fired)
    {
      ghost var turn := BuildFor(machine.Ctx(), t.Def(), mem, BackendEv(msg), slots[t.place], pins);
      ReceivedPicked(machine.def, machine.Ctx(), before, slots, msg, pins, t.Def(), t.place.index, mem);
      if !built {
        return false, FsmSpec.Idle;
      }
      if handled {
        HandledMessages(machine.Ctx(), t.Def(), mem, BackendEv(msg), slots[t.place], pins);
        assert forall k :: 0 <= k < |t.sends| && t.sends[k].def.protocol == Backend ==>
            t.sends[k].View() == turn.held[k];
      }
      ok, fired := Finish(t, handled, before, slots, turn, base);
    }
  }
}
