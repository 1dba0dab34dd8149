/** What a conversation says to the agency over its whole life, for any table. */
module Dialogue {
  import opened Wrappers
  import opened FsmTypes
  import opened FsmSpec
  import opened InPlace
  import opened ChatSpec
  import opened Contents
  import opened Telling
  import opened OwnMessages

  // ------------------------------------------------------ what gets to the machine

  /** The message is of another room than the conversation, which is in one. */
  predicate OtherRoom(mem: Mem, msg: BackendMsg) {
    SESSION_ID in mem && mem[SESSION_ID] != msg.sessionID
  }

  /** It wants no echo, and comes from this conversation. A message that says from nowhere
      counts as its own. */
  predicate OwnEcho(id: string, msg: BackendMsg) {
    msg.noEcho && (msg.connID == id || msg.connID == "")
  }

  /** What a move hands to the machine: all but reports on own messages, messages of other
      rooms and own echoes. */
  function EvOf(ctx: Ctx, chat: Chat, move: Move): Option<Ev> {
    match move
    case StatusOf(id, status) => if id in chat.last then None else Some(StatusEv(status))
    case BackendOf(msg) =>
      if OtherRoom(chat.p.mem, msg) || OwnEcho(ctx.connID, msg) then None
      else Some(BackendEv(if msg.connID == "" then msg.(connID := ctx.connID) else msg))
    case EventOf(ev) => Some(ev)
  }

  lemma StepDelivers(def: MachineDef, ctx: Ctx, chat: Chat, move: Move, pins: nat -> string, ids: nat -> string)
    requires Shaped(def, chat.slots)
    ensures
      var ev, o := EvOf(ctx, chat, move), StepOf(def, ctx, chat, move, pins, ids);
      if ev.Some? then o == Deliver(def, ctx, chat, ev.value, pins, ids)
      else o == ChatNext(chat.(last := if move.StatusOf? then chat.last - {move.protocolID} else chat.last), Nothing,
          Idle)
  {
  }

  // ------------------------------------------------------------- what is then said

  /** The call tells what the send says for the event, in memory m. */
  ghost predicate Utters(ctx: Ctx, d: SendDef, t: Trigger, ev: Ev, pin: string, m: Mem, id: string, call: ServerCall) {
    exists e :: SaysFor(ctx, d, t, ev, pin, m, e) && Tells(d, e, id, call)
  }

  /** The calls are what the sends that talk say, one each and in order. */
  ghost predicate UttersAll(ctx: Ctx, t: TransitionDef, ev: Ev, pins: nat -> string, ids: nat -> string, mem: Mem,
                            calls: seq<ServerCall>)
  {
    var ks := Those(t.sends, 0, Talks);
    |calls| == |ks| && forall j :: 0 <= j < |ks| ==> UttersAt(ctx, t, ev, pins, ids, mem, ks[j], calls[j])
  }

  ghost predicate UttersAt(ctx: Ctx, t: TransitionDef, ev: Ev, pins: nat -> string, ids: nat -> string, mem: Mem,
                           k: nat, call: ServerCall)
    requires k < |t.sends|
  {
    Utters(ctx, t.sends[k], t.trigger, ev, pins(k), MemBefore(ctx.env, t.sends, Brings(t.trigger, ev), pins, mem, k),
           ids(k), call)
  }

  /** The steps that the conversation sends to itself are the table's. */
  ghost predicate GoesTo(sends: seq<SendDef>, steps: seq<string>) {
    var ks := Those(sends, 0, IsStep);
    |steps| == |ks| && forall j :: 0 <= j < |ks| ==> steps[j] == sends[ks[j]].data
  }

  /** The transition that a call fired. */
  function FiredBy(def: MachineDef, fired: Fired): Option<TransitionDef> {
    if fired.Fired? && fired.place.state in def.states
       && fired.place.index < |def.states[fired.place.state].transitions|
    then Some(def.states[fired.place.state].transitions[fired.place.index]) else None
  }

  /** Every send of the list is of a protocol that can be sent. Otherwise nothing is. */
  predicate AllHandled(sends: seq<SendDef>) {
    forall k :: 0 <= k < |sends| ==> HasHandler(sends[k].protocol)
  }

  lemma {:induction false} HandledIff(ctx: Ctx, input: Input, pins: nat -> string, sends: seq<SendDef>, i: nat,
          mem: Mem,
                                      held: Held)
    requires i <= |sends| == |held|
    ensures var b := BuildFrom(ctx, input, pins, sends, i, mem, held);
            b.BuiltAll? ==> (b.handled <==> forall k :: i <= k < |sends| ==> HasHandler(sends[k].protocol))
    decreases |sends| - i
  {
    if i < |sends| {
      match BuildOne(ctx, input, pins(i), mem, sends[i], held[i])
      case Built(m, e) => HandledIff(ctx, input, pins, sends, i + 1, m, held[i := e]);
      case _ =>
    }
  }

  lemma TurnHandled(ctx: Ctx, t: TransitionDef, mem: Mem, ev: Ev, held: Held, pins: nat -> string)
    requires |held| == |t.sends|
    ensures var b := BuildFor(ctx, t, mem, ev, held, pins); b.Turn? ==> (b.handled <==> AllHandled(t.sends))
  {
    match Prepare(ctx, t.trigger, mem, ev)
    case Prepared(m, input, _) => HandledIff(ctx, input, pins, t.sends, 0, m, held);
    case PrepareCrash =>
  }

  /** What a call that ends well sent. `mem` is the memory that its search left. */
  ghost predicate Sends(def: MachineDef, ctx: Ctx, ev: Ev, pins: nat -> string, ids: nat -> string, mem: Mem,
                        eff: Effects, fired: Fired)
  {
    if fired.Idle? then eff == Nothing
    else
      && FiredBy(def, fired).Some?
      && var t := FiredBy(def, fired).value;
         if !AllHandled(t.sends) then eff == Nothing
         else
         && UttersAll(ctx, t, ev, pins, ids, Saved(ctx, t.trigger, mem, ev), eff.calls)
         && eff.toBroker == Those(t.sends, 0, IsBackend)
         && GoesTo(t.sends, eff.steps)
  }

  /** One event, for a conversation whose table has been through any history. */
  lemma DeliverSends(def: MachineDef, ctx: Ctx, chat: Chat, ev: Ev, pins: nat -> string, ids: nat -> string)
    requires TableSettled(def, ctx, chat.slots) && chat.p.current in def.states
    ensures
      var o := Deliver(def, ctx, chat, ev, pins, ids);
      var s := Select(ctx.env, def.states[chat.p.current].transitions, 0, chat.p.mem, ev);
      o.ChatNext? ==>
        && s.Selection? && Sends(def, ctx, ev, pins, ids, s.mem, o.eff, o.fired)
        && (o.fired.Fired? ==> s.pick.Pick? && o.fired.place == Place(chat.p.current, s.pick.index))
  {
    var o := Deliver(def, ctx, chat, ev, pins, ids);
    var trs := def.states[chat.p.current].transitions;
    var s := Select(ctx.env, trs, 0, chat.p.mem, ev);
    if o.ChatNext? && o.fired.Fired? {
      var t := trs[s.pick.index];
      var held := chat.slots[Place(chat.p.current, s.pick.index)];
      TurnHandled(ctx, t, s.mem, ev, held, pins);
      if o.fired.handled {
        TurnSays(ctx, t, s.mem, ev, held, pins);
        SendFromAdds(t.sends, o.fired.held, 0, ev.StatusEv? || ev.QuestionEv?, ids, Nothing);
        SaysAndTells(ctx, t, ev, pins, ids, Saved(ctx, t.trigger, s.mem, ev), o.fired.held, o.eff);
      }
    }
  }

  lemma SaysAndTells(ctx: Ctx, t: TransitionDef, ev: Ev, pins: nat -> string, ids: nat -> string, mem: Mem, held: Held,
                     eff: Effects)
    requires |held| == |t.sends| && Adds(t.sends, held, 0, ids, Nothing, eff)
    requires forall k :: 0 <= k < |t.sends| ==> SaysAt(ctx, t.sends, t.trigger, ev, pins, mem, k, held)
    ensures UttersAll(ctx, t, ev, pins, ids, mem, eff.calls)
    ensures eff.toBroker == Those(t.sends, 0, IsBackend) && GoesTo(t.sends, eff.steps)
  {
    var ks, steps := Those(t.sends, 0, Talks), Those(t.sends, 0, IsStep);
    CallsFromNothing(t.sends, held, ks, ids, eff.calls);
    forall j | 0 <= j < |ks| ensures UttersAt(ctx, t, ev, pins, ids, mem, ks[j], eff.calls[j]) {
      UttersOne(ctx, t, ev, pins, ids, mem, held, ks[j], eff.calls[j]);
    }
    forall j | 0 <= j < |steps| ensures eff.steps[j] == t.sends[steps[j]].data {
      StepSays(ctx, t, ev, pins, mem, held, steps[j]);
      assert PayloadOf(held[steps[j]]).basic == Some(eff.steps[0 + j]);
    }
  }

  lemma CallsFromNothing(sends: seq<SendDef>, held: Held, ks: seq<nat>, ids: nat -> string, calls: seq<ServerCall>)
    requires |sends| == |held| && forall j :: 0 <= j < |ks| ==> ks[j] < |sends|
    requires AddsCalls(sends, held, ks, ids, [], calls)
    ensures |calls| == |ks| && forall j :: 0 <= j < |ks| ==> Tells(sends[ks[j]], held[ks[j]], ids(ks[j]), calls[j])
  {
    forall j | 0 <= j < |ks| ensures Tells(sends[ks[j]], held[ks[j]], ids(ks[j]), calls[j]) {
      assert calls[0 + j] == calls[j];
    }
  }

  lemma UttersOne(ctx: Ctx, t: TransitionDef, ev: Ev, pins: nat -> string, ids: nat -> string, mem: Mem, held: Held,
                  k: nat, call: ServerCall)
    requires k < |held| == |t.sends| && SaysAt(ctx, t.sends, t.trigger, ev, pins, mem, k, held)
    requires Tells(t.sends[k], held[k], ids(k), call)
    ensures UttersAt(ctx, t, ev, pins, ids, mem, k, call)
  {
  }

  lemma StepSays(ctx: Ctx, t: TransitionDef, ev: Ev, pins: nat -> string, mem: Mem, held: Held, k: nat)
    requires k < |held| == |t.sends| && SaysAt(ctx, t.sends, t.trigger, ev, pins, mem, k, held)
    requires t.sends[k].protocol == Transient
    ensures PayloadOf(held[k]).basic == Some(t.sends[k].data)
  {
  }

  // ---------------------------------------------------------------- whole lives

  ghost predicate FromFile(def: MachineDef, h: History) {
    h.chats != [] && Pristine(def, h.chats[0].slots)
  }

  lemma StepSettled(def: MachineDef, ctx: Ctx, chat: Chat, move: Move, pins: nat -> string, ids: nat -> string)
    requires TableSettled(def, ctx, chat.slots)
    ensures var o := StepOf(def, ctx, chat, move, pins, ids); o.ChatNext? ==> TableSettled(def, ctx, o.chat.slots)
  {
    StepDelivers(def, ctx, chat, move, pins, ids);
    var ev := EvOf(ctx, chat, move);
    if ev.Some? {
      HandleSettled(def, ctx, chat.p, chat.slots, ev.value, pins);
      assert Deliver(def, ctx, chat, ev.value, pins, ids).ChatNext? ==>
               Deliver(def, ctx, chat, ev.value, pins, ids).chat.slots ==
               After(chat.slots, Handle(def, ctx, chat.p, chat.slots, ev.value, pins));
    }
  }

  lemma MoveSettled(def: MachineDef, ctx: Ctx, before: Chat, move: Move, after: Chat, eff: Effects)
    requires TableSettled(def, ctx, before.slots) && StepsSomehow(def, ctx, before, move, after, eff)
    ensures TableSettled(def, ctx, after.slots)
  {
    var pins, ids :| Steps(def, ctx, before, move, after, eff, pins, ids);
    StepSettled(def, ctx, before, move, pins, ids);
  }

  lemma {:induction false} HistorySettled(def: MachineDef, ctx: Ctx, h: History, n: nat)
    requires IsHistory(def, ctx, h) && FromFile(def, h) && n < |h.chats|
    ensures TableSettled(def, ctx, h.chats[n].slots)
  {
    if n > 0 {
      HistorySettled(def, ctx, h, n - 1);
      MoveSettled(def, ctx, h.chats[n - 1], h.moves[n - 1], h.chats[n], h.effs[n]);
    }
  }

  /** The start of a conversation, as a transition for an event that brings nothing. */
  function StartOf(def: MachineDef): TransitionDef {
    TransitionDef(Trigger(NoProtocol, DataAsIs, ""), def.initialSends, def.initialTarget)
  }

  const Silence := QuestionEv(Question(NoProtocol, []))

  /** What a new conversation sends is what the initial sends say; it asks nothing of anyone. */
  lemma OpensAsItsTableSays(def: MachineDef, ctx: Ctx, file: Slots, pins: nat -> string, ids: nat -> string)
    ensures
      var o := OpenChat(def, ctx, file, pins, ids);
      o.ChatNext? ==>
        if AllHandled(def.initialSends) then UttersAll(ctx, StartOf(def), Silence, pins, ids, map[], o.eff.calls)
        else o.eff == Nothing
  {
    var o, sends := OpenChat(def, ctx, file, pins, ids), def.initialSends;
    var b := BuildFrom(ctx, NoInput, pins, sends, 0, map[], DefHeld(sends));
    StartSays(def, ctx, StartOf(def).trigger, Silence, pins);
    HandledIff(ctx, NoInput, pins, sends, 0, map[], DefHeld(sends));
    if o.ChatNext? && b.handled {
      SendFromAdds(sends, b.held, 0, false, ids, Nothing);
      SaysAndTells(ctx, StartOf(def), Silence, pins, ids, map[], b.held, o.eff);
    }
  }

  /** One move: what its machine is handed is delivered, and the rest changes no more than the
      record. */
  lemma MoveDelivers(def: MachineDef, ctx: Ctx, h: History, n: nat) returns (pins: nat -> string, ids: nat -> string)
    requires IsHistory(def, ctx, h) && n < |h.moves|
    ensures Shaped(def, h.chats[n].slots)
    ensures
      var chat, ev := h.chats[n], EvOf(ctx, h.chats[n], h.moves[n]);
      if ev.None? then h.effs[n + 1] == Nothing && h.chats[n + 1] == chat.(last := h.chats[n + 1].last)
      else
        var o := Deliver(def, ctx, chat, ev.value, pins, ids);
        o.ChatNext? && h.chats[n + 1] == o.chat && h.effs[n + 1] == o.eff
  {
    var chat, move := h.chats[n], h.moves[n];
    assert StepsSomehow(def, ctx, chat, move, h.chats[n + 1], h.effs[n + 1]);
    pins, ids :| Steps(def, ctx, chat, move, h.chats[n + 1], h.effs[n + 1], pins, ids);
    StepDelivers(def, ctx, chat, move, pins, ids);
  }

  /** At every move of every life of a conversation, on any table: what it hands to its
      machine is as said, nothing is sent for the rest, and what a fired transition sends is
      what its sends say. */
  lemma SaysWhatItsTableSays(def: MachineDef, ctx: Ctx, h: History, n: nat) returns (pins: nat -> string,
                                                                                     ids: nat -> string)
    requires IsHistory(def, ctx, h) && FromFile(def, h) && n < |h.moves| && h.chats[n].p.current in def.states
    ensures Shaped(def, h.chats[n].slots)
    ensures
      var chat, ev := h.chats[n], EvOf(ctx, h.chats[n], h.moves[n]);
      if ev.None? then h.effs[n + 1] == Nothing
      else
        var s := Select(ctx.env, def.states[chat.p.current].transitions, 0, chat.p.mem, ev.value);
        && s.Selection?
        && var o := Deliver(def, ctx, chat, ev.value, pins, ids);
           && o.ChatNext? && h.chats[n + 1] == o.chat && h.effs[n + 1] == o.eff
           && Sends(def, ctx, ev.value, pins, ids, s.mem, o.eff, o.fired)
           && (o.fired.Fired? ==> s.pick.Pick? && o.fired.place == Place(chat.p.current, s.pick.index))
  {
    HistorySettled(def, ctx, h, n);
    pins, ids := MoveDelivers(def, ctx, h, n);
    var ev := EvOf(ctx, h.chats[n], h.moves[n]);
    if ev.Some? {
      DeliverSends(def, ctx, h.chats[n], ev.value, pins, ids);
    }
  }

  /** A message of the table goes out as it stands there, and an INPUT one as what the user
      said, unless the trigger puts its own data in its place. */
  lemma FixedAndRepeated(ctx: Ctx, t: TransitionDef, ev: Ev, pins: nat -> string, ids: nat -> string, mem: Mem,
                         calls: seq<ServerCall>, j: nat)
    requires ctx.mtype.Conversation? && UttersAll(ctx, t, ev, pins, ids, mem, calls) && j < |calls|
    ensures |Those(t.sends, 0, Talks)| == |calls|
    ensures
      var k := Those(t.sends, 0, Talks)[j];
      var d := t.sends[k];
      d.protocol == BasicMessage ==>
        && (d.rule == DataAsIs ==> calls[j] == BMCall(d.data, ids(k)))
        && (d.rule == UseInput && IsMessage(ev) && TakesText(t.trigger.rule) ==>
              calls[j] == BMCall(ev.status.content, ids(k)))
        && (d.rule == UseInput && ev.BackendEv? ==> calls[j] == BMCall(ev.msg.content, ids(k)))
  {
    assert UttersAt(ctx, t, ev, pins, ids, mem, Those(t.sends, 0, Talks)[j], calls[j]);
  }
}
