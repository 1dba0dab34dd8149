/**
 What one build, and one handler call, does to the header of a backend message and
 to the session id in memory.
 */
module ChatRules {
  import opened Wrappers
  import opened Strings
  import opened FsmTypes
  import opened FsmSpec
  import opened InPlace
  import opened ChatSpec

  /** The table file presets no connection id in a backend send. */
  ghost predicate NoPresetConnID(def: MachineDef) {
    forall s, i, k ::
      s in def.states && 0 <= i < |def.states[s].transitions| && 0 <= k < |def.states[s].transitions[i].sends|
      ==> Base(def.states[s].transitions[i].sends[k].eventData).backend.value.connID == ""
  }

  /** A conversation sends under its own id, with the table's no-echo flag. */
  lemma ConversationBuilds(ctx: Ctx, input: Input, pin: string, mem: Mem, d: SendDef, cur: Option<EventValue>)
    requires ctx.mtype.Conversation? && InputFits(ctx, input) && d.protocol == Backend && Settled(ctx, d, cur)
    requires Base(d.eventData).backend.value.connID == ""
    requires BuildOne(ctx, input, pin, mem, d, cur).Built?
    ensures
      var m := MessageOf(BuildOne(ctx, input, pin, mem, d, cur).event);
      m.Some? && m.value.connID == ctx.connID && m.value.noEcho == d.noEcho
      && m.value.sessionID == Get(mem, SESSION_ID)
  {
  }

  /** The broker forwards under the sender's id and never clears no-echo. */
  lemma BrokerBuilds(ctx: Ctx, input: Input, pin: string, mem: Mem, d: SendDef, cur: Option<EventValue>)
    requires ctx.mtype.Broker? && d.protocol == Backend
    requires IncomingOf(input).Some? && IncomingOf(input).value.connID != ""
    requires BuildOne(ctx, input, pin, mem, d, cur).Built?
    ensures
      var m, incoming := MessageOf(BuildOne(ctx, input, pin, mem, d, cur).event), IncomingOf(input).value;
      && m.Some? && m.value.connID == incoming.connID
      && m.value.noEcho == (incoming.noEcho || d.noEcho)
      && (incoming.sessionID != "" ==> m.value.sessionID == Get(mem, SESSION_ID))
  {
  }

  /** The session id the broker sends, for any message: it is the message's own exactly
      when that has one, or when neither the send's last message nor the memory does. */
  lemma BrokerSessionID(ctx: Ctx, input: Input, pin: string, mem: Mem, d: SendDef, cur: Option<EventValue>)
    requires ctx.mtype.Broker? && d.protocol == Backend
    requires IncomingOf(input).Some?
    requires BuildOne(ctx, input, pin, mem, d, cur).Built?
    requires IncomingOf(input).value.sessionID != "" ==> Get(mem, SESSION_ID) == IncomingOf(input).value.sessionID
    ensures
      var m, incoming := MessageOf(BuildOne(ctx, input, pin, mem, d, cur).event).value, IncomingOf(input).value;
      m.sessionID == incoming.sessionID <==>
      incoming.sessionID != "" || (Base(cur).backend.value.sessionID == "" && Get(mem, SESSION_ID) == "")
  {
  }

  // ------------------------------------------------- tables without surprises

  /** No script, and no slot that a trigger saves to can be the session register. */
  predicate PlainTrigger(t: Trigger) {
    && t.rule != Lua
    && (t.rule == UseInputSave ==> t.data != SESSION_ID)
    && (t.rule == UseInputSaveConnID ==> !Suffix(t.data, SESSION_ID))
  }

  ghost predicate PlainSends(sends: seq<SendDef>) {
    forall k :: 0 <= k < |sends| ==> sends[k].rule != Lua
  }

  ghost predicate Plain(def: MachineDef) {
    forall s, i :: s in def.states && 0 <= i < |def.states[s].transitions| ==>
      PlainTrigger(def.states[s].transitions[i].trigger) && PlainSends(def.states[s].transitions[i].sends)
  }

  /** A plain table whose triggers do not write session ids into messages either. */
  ghost predicate PlainBroker(def: MachineDef) {
    Plain(def) && forall s, i :: s in def.states && 0 <= i < |def.states[s].transitions| ==>
      def.states[s].transitions[i].trigger.rule != UseInputSaveSessionID
  }

  ghost predicate SameSession(m: Mem, n: Mem) {
    (SESSION_ID in m <==> SESSION_ID in n) && (SESSION_ID in m ==> m[SESSION_ID] == n[SESSION_ID])
  }

  lemma Registers()
    ensures |SESSION_ID| == 10 && |PIN| == 3 && |CONN_ID| == 7 && |SUBJECT| == 7
  {
  }

  lemma BuildKeepsSession(ctx: Ctx, input: Input, pin: string, mem: Mem, d: SendDef, cur: Option<EventValue>)
    requires d.rule != Lua && BuildOne(ctx, input, pin, mem, d, cur).Built?
    ensures SameSession(BuildOne(ctx, input, pin, mem, d, cur).mem, mem)
  {
    Registers();
  }

  /** Every reached send was built in a memory with the session that the list started in. */
  lemma {:induction false} ListKeepsSession(ctx: Ctx, input: Input, pins: nat -> string, sends: seq<SendDef>, i: nat,
                                            mem: Mem, held: Held)
    requires i <= |sends| == |held| && PlainSends(sends)
    requires BuildFrom(ctx, input, pins, sends, i, mem, held).BuiltAll?
    ensures SameSession(BuildFrom(ctx, input, pins, sends, i, mem, held).mem, mem)
    ensures
      var after := BuildFrom(ctx, input, pins, sends, i, mem, held).held;
      forall k :: i <= k < |sends| && Reached(sends, i, k) ==>
        exists m :: SameSession(m, mem) && BuiltAt(ctx, input, pins(k), m, sends[k], held[k], after[k])
    decreases |sends| - i
  {
    if i < |sends| {
      match BuildOne(ctx, input, pins(i), mem, sends[i], held[i])
      case Built(m, e) =>
        BuildKeepsSession(ctx, input, pins(i), mem, sends[i], held[i]);
        var held' := held[i := e];
        ListKeepsSession(ctx, input, pins, sends, i + 1, m, held');
        var after := BuildFrom(ctx, input, pins, sends, i, mem, held).held;
        BuildFromEach(ctx, input, pins, sends, i + 1, m, held', i);
        assert BuiltAt(ctx, input, pins(i), mem, sends[i], held[i], after[i]);
        forall k | i < k < |sends| && Reached(sends, i, k)
          ensures exists m' :: SameSession(m', mem) && BuiltAt(ctx, input, pins(k), m', sends[k], held[k], after[k])
        {
          assert Reached(sends, i + 1, k);
          var m' :| SameSession(m', m) && BuiltAt(ctx, input, pins(k), m', sends[k], held'[k], after[k]);
        }
      case _ =>
    }
  }

  lemma PrepareKeepsSession(ctx: Ctx, t: Trigger, mem: Mem, msg: BackendMsg)
    requires PlainTrigger(t)
    requires ctx.mtype.Broker? ==> t.rule != UseInputSaveSessionID
    ensures var p := PrepareBackend(ctx, t, mem, msg); p.Prepared? ==> SameSession(p.mem, mem) && p.msg == Some(msg)
  {
  }

  /** One trigger, tried on a backend message. */
  lemma TrySession(env: Env, t: Trigger, mem: Mem, msg: BackendMsg)
    requires PlainTrigger(t)
    ensures
      var v := Try(env, t, mem, BackendEv(msg));
      && v.Verdict?
      && (SameSession(v.mem, mem) || (msg.sessionID != "" && SESSION_ID in v.mem && v.mem[SESSION_ID] == msg.sessionID))
      && (v.ok && msg.sessionID != "" ==> Get(v.mem, SESSION_ID) == msg.sessionID)
  {
    Registers();
  }

  /** The memory that a search for a backend message leaves: the message's session id,
      if it has one and a trigger for backend messages was tried, or the old one. */
  lemma {:induction false} SelectSession(env: Env, trs: seq<TransitionDef>, i: nat, mem: Mem, msg: BackendMsg)
    requires i <= |trs| && forall k :: 0 <= k < |trs| ==> PlainTrigger(trs[k].trigger)
    ensures
      var s := Select(env, trs, i, mem, BackendEv(msg));
      && s.Selection?
      && (SameSession(s.mem, mem) || (msg.sessionID != "" && SESSION_ID in s.mem && s.mem[SESSION_ID] == msg.sessionID))
      && (s.pick.Pick? && msg.sessionID != "" ==> Get(s.mem, SESSION_ID) == msg.sessionID)
    decreases |trs| - i
  {
    if i < |trs| {
      TrySession(env, trs[i].trigger, mem, msg);
      var v := Try(env, trs[i].trigger, mem, BackendEv(msg));
      if !v.ok {
        SelectSession(env, trs, i + 1, v.mem, msg);
      }
    }
  }

  // ------------------------------------------------------ one handler call

  predicate Rebuilt(sends: seq<SendDef>, k: nat) {
    k < |sends| && sends[k].protocol == Backend && Reached(sends, 0, k)
  }

  /** What a send list says after a handler, send by send. */
  ghost predicate ChatBuilt(ctx: Ctx, d: SendDef, e: Option<EventValue>) {
    MessageOf(e).Some? && MessageOf(e).value.connID == ctx.connID && MessageOf(e).value.noEcho == d.noEcho
  }

  ghost predicate BrokerBuilt(msg: BackendMsg, plain: bool, d: SendDef, e: Option<EventValue>) {
    && MessageOf(e).Some? && MessageOf(e).value.connID == msg.connID
    && MessageOf(e).value.noEcho == (msg.noEcho || d.noEcho)
    && (plain && msg.sessionID != "" ==> MessageOf(e).value.sessionID == msg.sessionID)
  }

  lemma ChatHandles(def: MachineDef, ctx: Ctx, p: PState, slots: Slots, ev: Ev, pins: nat -> string)
    requires ctx.mtype.Conversation? && TableSettled(def, ctx, slots) && NoPresetConnID(def)
    ensures
      match Handle(def, ctx, p, slots, ev, pins)
      case Next(_, Fired(place, held, handled, _)) =>
        var sends := def.states[place.state].transitions[place.index].sends;
        && (forall k :: 0 <= k < |sends| ==>
              if Rebuilt(sends, k) then ChatBuilt(ctx, sends[k], held[k])
              else sends[k].protocol == Backend ==> held[k] == slots[place][k])
        && (handled ==> forall k :: 0 <= k < |sends| ==> Reached(sends, 0, k))
      case _ => true
  {
    if p.current in def.states {
      var trs := def.states[p.current].transitions;
      match Select(ctx.env, trs, 0, p.mem, ev)
      case Selection(m, Pick(i, target)) =>
        match Prepare(ctx, trs[i].trigger, m, ev) {
          case Prepared(m1, input, _) =>
            PrepareForm(ctx, trs[i].trigger, m, ev);
            ChatListBuilt(def, ctx, p.current, i, input, pins, m1, slots[Place(p.current, i)]);
          case _ =>
        }
      case _ =>
    }
  }

  lemma ChatListBuilt(def: MachineDef, ctx: Ctx, s: string, i: nat, input: Input, pins: nat -> string, mem: Mem,
          held: Held)
    requires ctx.mtype.Conversation? && InputFits(ctx, input) && NoPresetConnID(def)
    requires s in def.states && i < |def.states[s].transitions|
    requires AllSettled(ctx, def.states[s].transitions[i].sends, held)
    ensures
      var sends := def.states[s].transitions[i].sends;
      match BuildFrom(ctx, input, pins, sends, 0, mem, held)
      case BuiltAll(_, after, handled) =>
        && (forall k :: 0 <= k < |sends| ==>
              if Rebuilt(sends, k) then ChatBuilt(ctx, sends[k], after[k])
              else sends[k].protocol == Backend ==> after[k] == held[k])
        && (handled ==> forall k :: 0 <= k < |sends| ==> Reached(sends, 0, k))
      case _ => true
  {
    var sends := def.states[s].transitions[i].sends;
    var b := BuildFrom(ctx, input, pins, sends, 0, mem, held);
    HandledReaches(ctx, input, pins, sends, 0, mem, held);
    if b.BuiltAll? {
      forall k | 0 <= k < |sends| && sends[k].protocol == Backend
        ensures if Rebuilt(sends, k) then ChatBuilt(ctx, sends[k], b.held[k]) else b.held[k] == held[k]
      {
        BuildFromEach(ctx, input, pins, sends, 0, mem, held, k);
        if Rebuilt(sends, k) {
          var m :| BuiltAt(ctx, input, pins(k), m, sends[k], held[k], b.held[k]);
          ConversationBuilds(ctx, input, pins(k), m, sends[k], held[k]);
        }
      }
    }
  }

  /** The broker, for a message with a connection id: every backend event it builds goes
      out under the same id, with no-echo kept, and, from a plain table, in the same
      session, if the message has one. */
  lemma BrokerHandles(def: MachineDef, ctx: Ctx, p: PState, slots: Slots, msg: BackendMsg, pins: nat -> string)
    requires ctx.mtype.Broker? && Shaped(def, slots) && msg.connID != ""
    ensures
      match Handle(def, ctx, p, slots, BackendEv(msg), pins)
      case Next(_, Fired(place, held, handled, seen)) =>
        var sends := def.states[place.state].transitions[place.index].sends;
        && (forall k :: 0 <= k < |sends| ==>
              if Rebuilt(sends, k) then BrokerBuilt(msg, PlainBroker(def), sends[k], held[k])
              else sends[k].protocol == Backend ==> held[k] == slots[place][k])
        && (handled ==> forall k :: 0 <= k < |sends| ==> Reached(sends, 0, k))
        && seen.Some? && seen.value == msg.(sessionID := seen.value.sessionID)
        && (PlainBroker(def) ==> seen.value == msg)
      case _ => true
  {
    if p.current in def.states {
      var trs := def.states[p.current].transitions;
      match Select(ctx.env, trs, 0, p.mem, BackendEv(msg))
      case Selection(m, Pick(i, target)) =>
        match PrepareBackend(ctx, trs[i].trigger, m, msg) {
          case Prepared(m1, input, seen) =>
            if PlainBroker(def) {
              SelectSession(ctx.env, trs, 0, p.mem, msg);
              PrepareKeepsSession(ctx, trs[i].trigger, m, msg);
            }
            BrokerListBuilt(ctx, trs[i].sends, msg, PlainBroker(def), input, pins, m1, slots[Place(p.current, i)]);
          case _ =>
        }
      case _ =>
    }
  }

  lemma BrokerListBuilt(ctx: Ctx, sends: seq<SendDef>, msg: BackendMsg, plain: bool, input: Input, pins: nat -> string,
                        mem: Mem, held: Held)
    requires ctx.mtype.Broker? && |held| == |sends| && msg.connID != ""
    requires IncomingOf(input).Some? && IncomingOf(input).value == msg.(sessionID := IncomingOf(input).value.sessionID)
    requires plain ==>
      PlainSends(sends) && IncomingOf(input).value == msg &&
          (msg.sessionID != "" ==> Get(mem, SESSION_ID) == msg.sessionID)
    ensures
      match BuildFrom(ctx, input, pins, sends, 0, mem, held)
      case BuiltAll(_, after, handled) =>
        && (forall k :: 0 <= k < |sends| ==>
              if Rebuilt(sends, k) then BrokerBuilt(msg, plain, sends[k], after[k])
              else sends[k].protocol == Backend ==> after[k] == held[k])
        && (handled ==> forall k :: 0 <= k < |sends| ==> Reached(sends, 0, k))
      case _ => true
  {
    var b := BuildFrom(ctx, input, pins, sends, 0, mem, held);
    HandledReaches(ctx, input, pins, sends, 0, mem, held);
    if b.BuiltAll? {
      if plain {
        ListKeepsSession(ctx, input, pins, sends, 0, mem, held);
      }
      forall k | 0 <= k < |sends| && sends[k].protocol == Backend
        ensures if Rebuilt(sends, k) then BrokerBuilt(msg, plain, sends[k], b.held[k]) else b.held[k] == held[k]
      {
        BuildFromEach(ctx, input, pins, sends, 0, mem, held, k);
        if Rebuilt(sends, k) {
          var m :| BuiltAt(ctx, input, pins(k), m, sends[k], held[k], b.held[k])
                   && (plain ==> SameSession(m, mem));
          BrokerBuilds(ctx, input, pins(k), m, sends[k], held[k]);
        }
      }
    }
  }

  // -------------------------------------------------------- sticky sessions

  /** A handled backend message leaves a conversation's session as it is, except that a
      step home may clear the whole memory. */
  lemma SessionSticks(def: MachineDef, ctx: Ctx, chat: Chat, msg: BackendMsg, pins: nat -> string, ids: nat -> string)
    requires ctx.mtype.Conversation? && Plain(def) && Shaped(def, chat.slots)
    requires SESSION_ID in chat.p.mem
    ensures
      var o := BackendReceived(def, ctx, chat, msg, pins, ids);
      o.ChatNext? ==>
        || SameSession(o.chat.p.mem, chat.p.mem)
        || (!def.keepMemory && o.chat.p.mem == map[] && o.chat.p.current == def.initialTarget
            && !chat.p.reported && o.chat.p.reported)
  {
    var m := Addressed(ctx.connID, msg);
    if !Filtered(chat.p.mem, ctx.connID, m) && chat.p.current in def.states {
      var trs := def.states[chat.p.current].transitions;
      SelectSession(ctx.env, trs, 0, chat.p.mem, m);
      var s := Select(ctx.env, trs, 0, chat.p.mem, BackendEv(m));
      if s.pick.Pick? {
        var tr, held := trs[s.pick.index], chat.slots[Place(chat.p.current, s.pick.index)];
        PrepareKeepsSession(ctx, tr.trigger, s.mem, m);
        var prep := PrepareBackend(ctx, tr.trigger, s.mem, m);
        if prep.Prepared? && BuildFrom(ctx, prep.input, pins, tr.sends, 0, prep.mem, held).BuiltAll? {
          ListKeepsSession(ctx, prep.input, pins, tr.sends, 0, prep.mem, held);
        }
      }
    }
  }

  /** A run of backend messages through one conversation. */
  ghost predicate BackendRun(def: MachineDef, ctx: Ctx, chats: seq<Chat>, msgs: seq<BackendMsg>) {
    && |chats| == |msgs| + 1
    && (forall n :: 0 <= n < |chats| ==> Shaped(def, chats[n].slots))
    && forall n :: 0 <= n < |msgs| ==> BackendStep(def, ctx, chats[n], msgs[n], chats[n + 1])
  }

  ghost predicate BackendStep(def: MachineDef, ctx: Ctx, before: Chat, msg: BackendMsg, after: Chat)
    requires Shaped(def, before.slots)
  {
    exists pins, ids :: Receives(def, ctx, before, msg, pins, ids, after)
  }

  ghost predicate Receives(def: MachineDef, ctx: Ctx, before: Chat, msg: BackendMsg, pins: nat -> string,
          ids: nat -> string, after: Chat)
    requires Shaped(def, before.slots)
  {
    var o := BackendReceived(def, ctx, before, msg, pins, ids);
    o.ChatNext? && o.chat == after
  }

  /** The later conversation is in the session of the earlier one, or its table clears the
      memory and the first return home, which does that, was in between. */
  ghost predicate StillIn(def: MachineDef, earlier: Chat, later: Chat) {
    && (SameSession(later.p.mem, earlier.p.mem) || (!def.keepMemory && !earlier.p.reported && later.p.reported))
    && (earlier.p.reported ==> later.p.reported)
  }

  /** No sequence of backend messages moves a conversation to another session: until the
      one clearing of the memory the session is the one it started with, and always if the
      table keeps its memory or the machine has been home before. */
  lemma {:induction false} SessionSticksOverRuns(def: MachineDef, ctx: Ctx, chats: seq<Chat>, msgs: seq<BackendMsg>)
    requires ctx.mtype.Conversation? && Plain(def) && BackendRun(def, ctx, chats, msgs)
    requires SESSION_ID in chats[0].p.mem
    ensures forall n :: 0 <= n < |chats| ==> StillIn(def, chats[0], chats[n])
    decreases |msgs|
  {
    if msgs != [] {
      var k := |msgs| - 1;
      SessionSticksOverRuns(def, ctx, chats[..k + 1], msgs[..k]);
      assert chats[..k + 1][k] == chats[k];
      assert BackendStep(def, ctx, chats[k], msgs[k], chats[k + 1]);
      var pins, ids :| Receives(def, ctx, chats[k], msgs[k], pins, ids, chats[k + 1]);
      if chats[k].p.reported {
        ReportedStays(def, ctx, chats[k], msgs[k], pins, ids);
      }
      if SameSession(chats[k].p.mem, chats[0].p.mem) {
        SessionSticks(def, ctx, chats[k], msgs[k], pins, ids);
      }
      forall n | 0 <= n < |chats|
        ensures StillIn(def, chats[0], chats[n])
      {
        assert n <= k ==> chats[..k + 1][n] == chats[n];
      }
    }
  }

  lemma ReportedStays(def: MachineDef, ctx: Ctx, chat: Chat, msg: BackendMsg, pins: nat -> string, ids: nat -> string)
    requires Shaped(def, chat.slots) && chat.p.reported
    ensures var o := BackendReceived(def, ctx, chat, msg, pins, ids); o.ChatNext? ==> o.chat.p.reported
  {
  }

  // ----------------------------------------------------- where the rooms leak

  /** A broker with one state that passes every message on. */
  function Echo(): MachineDef {
    var pass := TransitionDef(Trigger(Backend, UseInput, ""), [SendDef(Backend, UseInput, "", "", false, None)], "S");
    MachineDef(MachineType.Broker, true, [], "S", map["S" := StateDef([pass], false)])
  }

  lemma EchoHandles(env: Env, p: PState, slots: Slots, msg: BackendMsg, pins: nat -> string)
    requires p.current == "S" && slots.Keys == {Place("S", 0)} && |slots[Place("S", 0)]| == 1 && msg.connID != ""
    ensures Shaped(Echo(), slots)
    ensures
      var ctx, cur := Ctx(env, MachineType.Broker, ""), slots[Place("S", 0)][0];
      var o := Handle(Echo(), ctx, p, slots, BackendEv(msg), pins);
      && o.Next? && o.p.current == "S" && o.p.mem == CopyBackend(p.mem, msg) && o.fired.Fired? &&
          o.fired.place == Place("S", 0)
      && |o.fired.held| == 1 && MessageOf(o.fired.held[0]).Some?
      && MessageOf(o.fired.held[0]).value.connID == msg.connID &&
          MessageOf(o.fired.held[0]).value.content == msg.content
      && MessageOf(o.fired.held[0]).value.sessionID == SessionIDOf(ctx, o.p.mem, msg, Base(cur).backend.value)
  {
    var def, ctx := Echo(), Ctx(env, MachineType.Broker, "");
    var trs, held := def.states["S"].transitions, slots[Place("S", 0)];
    var m := CopyBackend(p.mem, msg);
    assert Select(env, trs, 0, p.mem, BackendEv(msg)) == Selection(m, Pick(0, "S"));
    var input := Prepare(ctx, trs[0].trigger, m, BackendEv(msg)).input;
    var b := BuildOne(ctx, input, pins(0), m, trs[0].sends[0], held[0]);
    assert b.Built? && b.mem == m;
    assert BuildFrom(ctx, input, pins, trs[0].sends, 0, m, held) ==
        BuildFrom(ctx, input, pins, trs[0].sends, 1, m, held[0 := b.event]);
  }

  /** Messages without a session id are not kept out of the rooms: after one message in
      "room", a message of another conversation that is in no room goes out in "room". */
  lemma SessionlessLeak(env: Env, p: PState, slots: Slots, pins: nat -> string)
    requires p.current == "S" && p.mem == map[] && slots == map[Place("S", 0) := [None]]
    ensures Shaped(Echo(), slots)
    ensures
      var ctx := Ctx(env, MachineType.Broker, "");
      var o1 := Handle(Echo(), ctx, p, slots, BackendEv(BackendMsg("a", false, "room", "", "hi")), pins);
      && o1.Next? && Shaped(Echo(), After(slots, o1))
      && var o2 := Handle(Echo(), ctx, o1.p, After(slots, o1), BackendEv(BackendMsg("b", false, "", "", "hello")),
          pins);
         && o2.Next? && o2.fired.Fired? && |o2.fired.held| == 1 && MessageOf(o2.fired.held[0]).Some?
         && var out := MessageOf(o2.fired.held[0]).value;
            out.connID == "b" && out.content == "hello" && out.sessionID == "room"
  {
    var ctx := Ctx(env, MachineType.Broker, "");
    EchoHandles(env, p, slots, BackendMsg("a", false, "room", "", "hi"), pins);
    var o1 := Handle(Echo(), ctx, p, slots, BackendEv(BackendMsg("a", false, "room", "", "hi")), pins);
    EchoHandles(env, o1.p, After(slots, o1), BackendMsg("b", false, "", "", "hello"), pins);
  }
}
