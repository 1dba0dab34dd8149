/** Whole runs of one machine, and what every run of every machine keeps. */
module Traces {
  import opened Wrappers
  import opened Strings
  import opened FsmTypes
  import opened FsmSpec
  import opened InPlace

  datatype Conf = Conf(p: PState, slots: Slots)

  /** `fires[k]` is what call k built; `confs[k]` and `confs[k + 1]` are around it. */
  datatype Trace = Trace(confs: seq<Conf>, calls: seq<Call>, fires: seq<Fired>)

  ghost predicate StepOf(def: MachineDef, ctx: Ctx, before: Conf, c: Call, after: Conf, fired: Fired) {
    && Shaped(def, before.slots)
    && var o := Handle(def, ctx, before.p, before.slots, c.ev, c.pins);
       o == Next(after.p, fired) && after.slots == After(before.slots, o)
  }

  /** A run from Start, up to any point before a crash. */
  ghost predicate IsTrace(def: MachineDef, ctx: Ctx, tr: Trace) {
    && |tr.confs| == |tr.calls| + 1 && |tr.fires| == |tr.calls|
    && def.mtype == ctx.mtype
    && Pristine(def, tr.confs[0].slots)
    && (exists pins :: Start(def, ctx, pins) == Next(tr.confs[0].p, Idle))
    && forall k :: 0 <= k < |tr.calls| ==>
         StepOf(def, ctx, tr.confs[k], tr.calls[k], tr.confs[k + 1], tr.fires[k])
  }

  lemma {:induction false} TraceSettled(def: MachineDef, ctx: Ctx, tr: Trace, n: nat)
    requires IsTrace(def, ctx, tr) && n < |tr.confs|
    ensures TableSettled(def, ctx, tr.confs[n].slots)
  {
    if n > 0 {
      TraceSettled(def, ctx, tr, n - 1);
      assert StepOf(def, ctx, tr.confs[n - 1], tr.calls[n - 1], tr.confs[n], tr.fires[n - 1]);
      HandleSettled(def, ctx, tr.confs[n - 1].p, tr.confs[n - 1].slots, tr.calls[n - 1].ev, tr.calls[n - 1].pins);
    }
  }

  /** Every step of a conversation machine's run is a step from the table file; so is
      every step of a broker's run that a message with both ids causes. */
  lemma TraceStepIsPure(def: MachineDef, ctx: Ctx, tr: Trace, n: nat)
    requires IsTrace(def, ctx, tr) && n < |tr.calls| && PureCall(def, ctx, tr.calls[n])
    ensures SameOutcome(Next(tr.confs[n + 1].p, tr.fires[n]),
                        Handle(def, ctx, tr.confs[n].p, tr.confs[0].slots, tr.calls[n].ev, tr.calls[n].pins))
  {
    TraceSettled(def, ctx, tr, n);
    assert StepOf(def, ctx, tr.confs[n], tr.calls[n], tr.confs[n + 1], tr.fires[n]);
    HandlePure(def, ctx, tr.confs[n].p, tr.confs[n].slots, tr.confs[0].slots, tr.calls[n].ev, tr.calls[n].pins);
  }

  // ----------------------------------- searching and building in short tables

  lemma SelectOnly(env: Env, tr: TransitionDef, mem: Mem, ev: Ev)
    ensures Select(env, [tr], 0, mem, ev) ==
            match Try(env, tr.trigger, mem, ev)
            case VerdictCrash => SelectionCrash
            case Verdict(m, ok, tgt) =>
              Selection(m, if ok then Pick(0, if tgt == "" then tr.target else tgt) else NoPick)
  {
  }

  lemma BuildSingle(ctx: Ctx, input: Input, pins: nat -> string, d: SendDef, mem: Mem, m0: Mem, e0: Option<EventValue>)
    requires BuildOne(ctx, input, pins(0), mem, d, d.eventData) == Built(m0, e0)
    ensures BuildFrom(ctx, input, pins, [d], 0, mem, DefHeld([d])) == BuiltAll(m0, [e0], true)
  {
  }

  lemma BuildPair(ctx: Ctx, input: Input, pins: nat -> string, d0: SendDef, d1: SendDef, mem: Mem,
                  m0: Mem, e0: Option<EventValue>, m1: Mem, e1: Option<EventValue>)
    requires BuildOne(ctx, input, pins(0), mem, d0, d0.eventData) == Built(m0, e0)
    requires BuildOne(ctx, input, pins(1), m0, d1, d1.eventData) == Built(m1, e1)
    ensures BuildFrom(ctx, input, pins, [d0, d1], 0, mem, DefHeld([d0, d1])) == BuiltAll(m1, [e0, e1], true)
  {
    var sends, held := [d0, d1], DefHeld([d0, d1]);
    var held0 := held[0 := e0];
    assert held0[1 := e1] == [e0, e1];
    assert BuildFrom(ctx, input, pins, sends, 2, m1, [e0, e1]) == BuiltAll(m1, [e0, e1], true);
    assert BuildFrom(ctx, input, pins, sends, 1, m0, held0) == BuiltAll(m1, [e0, e1], true);
  }

  /** A transition that says one text for a status, fixed or rendered from memory. */
  lemma SayBuild(ctx: Ctx, t: TransitionDef, d: SendDef, mem: Mem, st: Status, pins: nat -> string)
    requires t.sends == [d] && d.protocol == BasicMessage && (d.rule == DataAsIs || d.rule == FormatFromMem)
    ensures
      var m := PrepareStatus(ctx, t.trigger, mem, st).mem;
      BuildFor(ctx, t, mem, StatusEv(st), DefHeld(t.sends), pins) ==
      Turn(m, [Some(BasicEvent(if d.rule == DataAsIs then d.data else ctx.env.render(d.data, m)))], true, None)
  {
    var prep := PrepareStatus(ctx, t.trigger, mem, st);
    BuildSingle(ctx, prep.input, pins, d, prep.mem, prep.mem,
                Some(BasicEvent(if d.rule == DataAsIs then d.data else ctx.env.render(d.data, prep.mem))));
  }

  /** A picked transition that builds is stepped over. */
  lemma HandlePicked(def: MachineDef, ctx: Ctx, p: PState, slots: Slots, c: Call, i: nat, target: string, m: Mem)
    requires Shaped(def, slots) && p.current in def.states && target in def.states
    requires Select(ctx.env, def.states[p.current].transitions, 0, p.mem, c.ev) == Selection(m, Pick(i, target))
    requires i < |def.states[p.current].transitions| && (c.ev.StatusEv? ==> c.ev.status.ok)
    ensures
      var b := BuildFor(ctx, def.states[p.current].transitions[i], m, c.ev, slots[Place(p.current, i)], c.pins);
      b.Turn? ==>
        Handle(def, ctx, p, slots, c.ev, c.pins) ==
        Next(Step(def, p.(mem := b.mem), target), Fired(Place(p.current, i), b.held, b.handled, b.msg))
  {
  }

  /** A search that picks nothing, or for a status that is not ready, leaves its memory and
      does no more. */
  lemma HandleUnpicked(def: MachineDef, ctx: Ctx, p: PState, slots: Slots, c: Call)
    requires Shaped(def, slots) && p.current in def.states
    requires Select(ctx.env, def.states[p.current].transitions, 0, p.mem, c.ev).Selection?
    ensures
      var s := Select(ctx.env, def.states[p.current].transitions, 0, p.mem, c.ev);
      s.pick.NoPick? || (c.ev.StatusEv? && !c.ev.status.ok) ==>
        Handle(def, ctx, p, slots, c.ev, c.pins) == Next(p.(mem := s.mem), Idle)
  {
  }

  // ---------------------------------------------------- closure of the states

  /** Every target a table declares is one of its states. */
  ghost predicate ClosedTargets(def: MachineDef) {
    forall s, i :: s in def.states && 0 <= i < |def.states[s].transitions| ==>
      def.states[s].transitions[i].target in def.states
  }

  /** What a script finds in the TARGET register when it says nothing itself. */
  ghost predicate TargetFits(def: MachineDef, mem: Mem) {
    Get(mem, LUA_TARGET) == "" || Get(mem, LUA_TARGET) in def.states
  }

  /** The script leaves no undeclared target in memory, unless it found one there. */
  ghost predicate KeepsTarget(def: MachineDef, env: Env, script: string) {
    forall mem :: TargetFits(def, mem) ==> TargetFits(def, env.lua(script, mem).mem)
  }

  /** The trigger's script keeps the target, and no slot it saves to is the register. */
  ghost predicate SafeTrigger(def: MachineDef, env: Env, t: Trigger) {
    && (t.rule == Lua ==> KeepsTarget(def, env, t.data))
    && (t.rule == UseInputSave ==> t.data != LUA_TARGET)
    && (t.rule == UseInputSaveConnID ==> !Suffix(t.data, LUA_TARGET))
    && (t.rule == AcceptAndInputValues && env.attrs(t.data).Some? ==>
          NameCount(env.attrs(t.data).value, LUA_TARGET) == 0)
  }

  ghost predicate SafeSends(def: MachineDef, env: Env, sends: seq<SendDef>) {
    forall k :: 0 <= k < |sends| && sends[k].rule == Lua ==> KeepsTarget(def, env, sends[k].data)
  }

  ghost predicate SafeTable(def: MachineDef, env: Env) {
    forall s, i :: s in def.states && 0 <= i < |def.states[s].transitions| ==>
      && SafeTrigger(def, env, def.states[s].transitions[i].trigger)
      && SafeSends(def, env, def.states[s].transitions[i].sends)
  }

  lemma OtherRegisters()
    ensures |LUA_TARGET| == 6 && |LUA_INPUT| == 5 && |PIN| == 3 && |CONN_ID| == 7 && |SUBJECT| == 7 &&
        |SESSION_ID| == 10
  {
  }

  lemma ExecFits(def: MachineDef, env: Env, script: string, content: string, anyOutput: bool, mem: Mem)
    requires KeepsTarget(def, env, script) && TargetFits(def, mem)
    ensures var r := ExecLua(env, script, content, anyOutput, mem);
            TargetFits(def, r.mem) && (r.target == "" || r.target in def.states)
  {
    OtherRegisters();
    assert TargetFits(def, mem[LUA_INPUT := content]);
  }

  lemma {:induction false} SaveKeepsTarget(wanted: seq<WantedAttr>, presented: seq<ProofAttr>, mem: Mem)
    requires NameCount(wanted, LUA_TARGET) == 0
    ensures Get(SaveValues(wanted, presented, mem), LUA_TARGET) == Get(mem, LUA_TARGET)
  {
    if presented != [] { SaveKeepsTarget(wanted, presented[..|presented| - 1], mem); }
  }

  lemma BackendFits(def: MachineDef, env: Env, t: Trigger, mem: Mem, msg: BackendMsg)
    requires SafeTrigger(def, env, t) && TargetFits(def, mem)
    ensures var v := TriggersByBackend(env, t, mem, msg);
            v.Verdict? ==> TargetFits(def, v.mem) && (v.target == "" || v.target in def.states)
  {
    OtherRegisters();
    assert TargetFits(def, CopyBackend(mem, msg));
    if t.rule == Lua { ExecFits(def, env, t.data, msg.content, false, CopyBackend(mem, msg)); }
  }

  lemma StatusFits(def: MachineDef, env: Env, t: Trigger, mem: Mem, st: Status)
    requires SafeTrigger(def, env, t) && TargetFits(def, mem)
    ensures var v := TriggersByStatus(env, t, mem, st);
            v.Verdict? ==> TargetFits(def, v.mem) && (v.target == "" || v.target in def.states)
  {
    if t.rule == Lua { ExecFits(def, env, t.data, st.content, false, mem); }
  }

  lemma TryFits(def: MachineDef, env: Env, t: Trigger, mem: Mem, ev: Ev)
    requires SafeTrigger(def, env, t) && TargetFits(def, mem)
    ensures var v := Try(env, t, mem, ev);
            v.Verdict? ==> TargetFits(def, v.mem) && (v.target == "" || v.target in def.states)
  {
    match ev
    case StatusEv(st) => StatusFits(def, env, t, mem, st);
    case BackendEv(msg) => BackendFits(def, env, t, mem, msg);
    case QuestionEv(q) =>
      if t.rule == AcceptAndInputValues && env.attrs(t.data).Some? {
        SaveKeepsTarget(env.attrs(t.data).value, q.presented, mem);
      }
    case _ =>
  }

  /** The memory that a search leaves fits again, and the target is the table's or declared. */
  lemma {:induction false} SelectFits(def: MachineDef, env: Env, s: string, i: nat, mem: Mem, ev: Ev)
    requires s in def.states && i <= |def.states[s].transitions| && SafeTable(def, env) && TargetFits(def, mem)
    ensures var trs := def.states[s].transitions;
            var sel := Select(env, trs, i, mem, ev);
            sel.Selection? ==>
              && TargetFits(def, sel.mem)
              && (sel.pick.Pick? ==> sel.pick.target in def.states || sel.pick.target == trs[sel.pick.index].target)
    decreases |def.states[s].transitions| - i
  {
    var trs := def.states[s].transitions;
    if i < |trs| {
      TryFits(def, env, trs[i].trigger, mem, ev);
      match Try(env, trs[i].trigger, mem, ev)
      case Verdict(m, ok, tgt) => SelectFits(def, env, s, i + 1, m, ev);
      case VerdictCrash =>
    }
  }

  /** With declared targets in the table, what a search picks is declared. */
  lemma SelectClosed(def: MachineDef, env: Env, s: string, mem: Mem, ev: Ev)
    requires s in def.states && ClosedTargets(def) && SafeTable(def, env) && TargetFits(def, mem)
    ensures var sel := Select(env, def.states[s].transitions, 0, mem, ev);
            sel.Selection? && sel.pick.Pick? ==> sel.pick.target in def.states
  {
    SelectFits(def, env, s, 0, mem, ev);
  }

  lemma PrepareFits(def: MachineDef, ctx: Ctx, t: Trigger, mem: Mem, ev: Ev)
    requires SafeTrigger(def, ctx.env, t) && TargetFits(def, mem)
    ensures var p := Prepare(ctx, t, mem, ev); p.Prepared? ==> TargetFits(def, p.mem)
  {
    OtherRegisters();
    if ev.BackendEv? {
      assert (ev.msg.connID + t.data)[|ev.msg.connID|..] == t.data;
    } else {
      assert (ctx.connID + t.data)[|ctx.connID|..] == t.data;
    }
  }

  lemma BuildOneFits(def: MachineDef, ctx: Ctx, input: Input, pin: string, mem: Mem, d: SendDef,
          cur: Option<EventValue>)
    requires TargetFits(def, mem) && (d.rule == Lua && input.Input? ==> KeepsTarget(def, ctx.env, d.data))
    ensures var b := BuildOne(ctx, input, pin, mem, d, cur); b.Built? ==> TargetFits(def, b.mem)
  {
    OtherRegisters();
    if d.rule == Lua && input.Input? { ExecFits(def, ctx.env, d.data, input.data, true, mem); }
  }

  lemma {:induction false} BuildFromFits(def: MachineDef, ctx: Ctx, input: Input, pins: nat -> string,
                                         sends: seq<SendDef>, i: nat, mem: Mem, held: Held)
    requires i <= |sends| == |held| && TargetFits(def, mem) && (input.Input? ==> SafeSends(def, ctx.env, sends))
    ensures var b := BuildFrom(ctx, input, pins, sends, i, mem, held); b.BuiltAll? ==> TargetFits(def, b.mem)
    decreases |sends| - i
  {
    if i < |sends| {
      BuildOneFits(def, ctx, input, pins(i), mem, sends[i], held[i]);
      match BuildOne(ctx, input, pins(i), mem, sends[i], held[i])
      case Built(m, e) => BuildFromFits(def, ctx, input, pins, sends, i + 1, m, held[i := e]);
      case _ =>
    }
  }

  lemma BuildForFits(def: MachineDef, ctx: Ctx, t: TransitionDef, mem: Mem, ev: Ev, held: Held, pins: nat -> string)
    requires |held| == |t.sends| && TargetFits(def, mem)
    requires SafeTrigger(def, ctx.env, t.trigger) && SafeSends(def, ctx.env, t.sends)
    ensures var b := BuildFor(ctx, t, mem, ev, held, pins); b.Turn? ==> TargetFits(def, b.mem)
  {
    PrepareFits(def, ctx, t.trigger, mem, ev);
    match Prepare(ctx, t.trigger, mem, ev)
    case Prepared(m, input, _) => BuildFromFits(def, ctx, input, pins, t.sends, 0, m, held);
    case PrepareCrash =>
  }

  /** One handler call, whatever the event: a fitting memory stays one. */
  lemma HandleFits(def: MachineDef, ctx: Ctx, p: PState, slots: Slots, ev: Ev, pins: nat -> string)
    requires Shaped(def, slots) && SafeTable(def, ctx.env) && TargetFits(def, p.mem)
    ensures var o := Handle(def, ctx, p, slots, ev, pins); o.Next? ==> TargetFits(def, o.p.mem)
  {
    if p.current in def.states {
      var trs := def.states[p.current].transitions;
      SelectFits(def, ctx.env, p.current, 0, p.mem, ev);
      match Select(ctx.env, trs, 0, p.mem, ev)
      case Selection(m, Pick(i, _)) => BuildForFits(def, ctx, trs[i], m, ev, slots[Place(p.current, i)], pins);
      case _ =>
    }
  }

  /** TARGET lives in memory and no one clears it between scripts: over every run of a
      safe table it is empty or declared. */
  lemma {:induction false} TargetsFit(def: MachineDef, ctx: Ctx, tr: Trace, n: nat)
    requires IsTrace(def, ctx, tr) && n < |tr.confs| && SafeTable(def, ctx.env)
    ensures TargetFits(def, tr.confs[n].p.mem)
  {
    if n > 0 {
      TargetsFit(def, ctx, tr, n - 1);
      assert StepOf(def, ctx, tr.confs[n - 1], tr.calls[n - 1], tr.confs[n], tr.fires[n - 1]);
      HandleFits(def, ctx, tr.confs[n - 1].p, tr.confs[n - 1].slots, tr.calls[n - 1].ev, tr.calls[n - 1].pins);
    } else {
      var pins :| Start(def, ctx, pins) == Next(tr.confs[0].p, Idle);
      BuildFromFits(def, ctx, NoInput, pins, def.initialSends, 0, map[], DefHeld(def.initialSends));
    }
  }

  /** How many of the first n steps entered a terminate state. */
  ghost function Terminations(def: MachineDef, tr: Trace, n: nat): nat
    requires n <= |tr.fires| && |tr.confs| == |tr.fires| + 1
  {
    if n == 0 then 0
    else Terminations(def, tr, n - 1) +
         if tr.fires[n - 1].Fired? && tr.confs[n].p.current in def.states
            && def.states[tr.confs[n].p.current].terminate then 1 else 0
  }

  /** A run is in a declared state at every point exactly when it starts in one, whatever
      its targets are: a step to an undeclared target is a crash, and ends it. The terminate
      channel gets one signal for each step into a terminate state and no other. */
  lemma {:induction false} RunStaysInTable(def: MachineDef, ctx: Ctx, tr: Trace, n: nat)
    requires IsTrace(def, ctx, tr) && n < |tr.confs|
    ensures tr.confs[n].p.current in def.states <==> def.initialTarget in def.states || "" in def.states
    ensures tr.confs[n].p.signals == Terminations(def, tr, n)
  {
    if n > 0 {
      RunStaysInTable(def, ctx, tr, n - 1);
      assert StepOf(def, ctx, tr.confs[n - 1], tr.calls[n - 1], tr.confs[n], tr.fires[n - 1]);
    }
  }

  lemma FirstCallHasState(def: MachineDef, ctx: Ctx, tr: Trace)
    requires IsTrace(def, ctx, tr) && |tr.calls| > 0
    ensures tr.confs[0].p.current in def.states
  {
    assert StepOf(def, ctx, tr.confs[0], tr.calls[0], tr.confs[1], tr.fires[0]);
  }

  /** A machine that starts in no declared state has started, but it takes no call. */
  lemma NoInitialState(def: MachineDef, ctx: Ctx, tr: Trace, call: Call)
    requires IsTrace(def, ctx, tr) && def.initialTarget !in def.states && "" !in def.states
    ensures |tr.calls| == 0 && Shaped(def, tr.confs[0].slots)
    ensures Handle(def, ctx, tr.confs[0].p, tr.confs[0].slots, call.ev, call.pins).Crash?
  {
    TraceSettled(def, ctx, tr, 0);
    if |tr.calls| > 0 { FirstCallHasState(def, ctx, tr); }
    RunStaysInTable(def, ctx, tr, 0);
  }

  /** The search or the build fails on its own: an unreadable wanted list, or an input
      that a send cannot do without. */
  ghost predicate FailsOnEvent(def: MachineDef, ctx: Ctx, c: Conf, call: Call)
    requires Shaped(def, c.slots) && c.p.current in def.states
  {
    var trs := def.states[c.p.current].transitions;
    match Select(ctx.env, trs, 0, c.p.mem, call.ev)
    case SelectionCrash => true
    case Selection(m, NoPick) => false
    case Selection(m, Pick(i, _)) =>
      && (call.ev.StatusEv? ==> call.ev.status.ok)
      && BuildFor(ctx, trs[i], m, call.ev, c.slots[Place(c.p.current, i)], call.pins).TurnCrash?
  }

  /** With all targets declared, and in a table that keeps the TARGET register safe, no call
      at any point of any run fails for want of a state: it fails exactly when the search or
      the build does. */
  lemma NoStateIsMissing(def: MachineDef, ctx: Ctx, tr: Trace, n: nat, call: Call)
    requires IsTrace(def, ctx, tr) && n < |tr.confs|
    requires def.initialTarget in def.states && ClosedTargets(def) && SafeTable(def, ctx.env)
    ensures Shaped(def, tr.confs[n].slots) && tr.confs[n].p.current in def.states
    ensures Handle(def, ctx, tr.confs[n].p, tr.confs[n].slots, call.ev, call.pins).Crash?
            <==> FailsOnEvent(def, ctx, tr.confs[n], call)
  {
    RunStaysInTable(def, ctx, tr, n);
    TraceSettled(def, ctx, tr, n);
    TargetsFit(def, ctx, tr, n);
    SelectClosed(def, ctx.env, tr.confs[n].p.current, tr.confs[n].p.mem, call.ev);
  }

  /** Without that it may: the table of one state with a way out to none. */
  lemma MissingState(env: Env, p: PState, slots: Slots, pins: nat -> string)
    requires p.current == "S" && slots == map[Place("S", 0) := []]
    ensures
      var def := MachineDef(Conversation, false, [], "S",
        map["S" := StateDef([TransitionDef(Trigger(Connection, DataAsIs, ""), [], "T")], false)]);
      Shaped(def, slots)
      && Handle(def, Ctx(env, Conversation, "c"), p, slots, StatusEv(Status(Connection, "", true)), pins).Crash?
  {
  }

  // A table with declared targets only. S saves the message where scripts leave their
  // target; T runs a script.
  function Escaping(script: string): MachineDef {
    MachineDef(Conversation, true, [], "S", map[
      "S" := StateDef([TransitionDef(Trigger(BasicMessage, UseInputSave, LUA_TARGET), [], "T")], false),
      "T" := StateDef([TransitionDef(Trigger(BasicMessage, Lua, script), [], "S")], false)])
  }

  lemma EscapingSaves(ctx: Ctx, script: string, p: PState, slots: Slots, text: string, pins: nat -> string)
    requires p.current == "S" && slots == map[Place("S", 0) := [], Place("T", 0) := []]
    ensures
      var def, said := Escaping(script), StatusEv(Status(BasicMessage, text, true));
      && ClosedTargets(def) && Shaped(def, slots)
      && var o := Handle(def, ctx, p, slots, said, pins);
         o.Next? && o.p.current == "T" && o.p.mem == p.mem[LUA_TARGET := text] && After(slots, o) == slots
  {
    SelectOnly(ctx.env, Escaping(script).states["S"].transitions[0], p.mem, StatusEv(Status(BasicMessage, text, true)));
  }

  lemma EscapingRuns(ctx: Ctx, script: string, p: PState, slots: Slots, text: string, pins: nat -> string)
    requires p.current == "T" && slots == map[Place("S", 0) := [], Place("T", 0) := []]
    requires forall mem :: ctx.env.lua(script, mem) == LuaRun(mem[LUA_OUTPUT := LUA_OK], false)
    ensures
      var def, said := Escaping(script), StatusEv(Status(BasicMessage, text, true));
      && Shaped(def, slots)
      && (Handle(def, ctx, p, slots, said, pins).Crash? <==> Get(p.mem, LUA_TARGET) !in {"", "S", "T"})
  {
    OtherRegisters();
    SelectOnly(ctx.env, Escaping(script).states["T"].transitions[0], p.mem, StatusEv(Status(BasicMessage, text, true)));
  }

  /** A script that accepts and leaves TARGET alone then goes where the message said. */
  lemma SavedTargetEscapes(ctx: Ctx, script: string, p: PState, slots: Slots, text: string, pins: nat -> string)
    requires p.current == "S" && slots == map[Place("S", 0) := [], Place("T", 0) := []]
    requires forall mem :: ctx.env.lua(script, mem) == LuaRun(mem[LUA_OUTPUT := LUA_OK], false)
    ensures
      var def, said := Escaping(script), StatusEv(Status(BasicMessage, text, true));
      && ClosedTargets(def) && Shaped(def, slots)
      && var o := Handle(def, ctx, p, slots, said, pins);
         && o.Next? && After(slots, o) == slots
         && (Handle(def, ctx, o.p, slots, said, pins).Crash? <==> text !in {"", "S", "T"})
  {
    EscapingSaves(ctx, script, p, slots, text, pins);
    var said := StatusEv(Status(BasicMessage, text, true));
    EscapingRuns(ctx, script, Handle(Escaping(script), ctx, p, slots, said, pins).p, slots, text, pins);
  }

  // ------------------------------------------------------ coming home clears once

  /** Step k of the run entered the initial state. */
  predicate Homecoming(def: MachineDef, tr: Trace, k: nat)
    requires k < |tr.fires| && |tr.confs| == |tr.fires| + 1
  {
    tr.fires[k].Fired? && tr.confs[k + 1].p.current == def.initialTarget
  }

  predicate HomeBefore(def: MachineDef, tr: Trace, n: nat)
    requires n <= |tr.fires| && |tr.confs| == |tr.fires| + 1
  {
    exists k :: 0 <= k < n && Homecoming(def, tr, k)
  }

  /** What a step does to the flag that blocks clearing. */
  ghost predicate ReportsAt(def: MachineDef, tr: Trace, k: nat)
    requires k < |tr.fires| && |tr.confs| == |tr.fires| + 1
  {
    tr.confs[k + 1].p.reported == (tr.confs[k].p.reported || Homecoming(def, tr, k))
  }

  ghost predicate Reports(def: MachineDef, tr: Trace) {
    && |tr.confs| == |tr.fires| + 1 && !tr.confs[0].p.reported
    && forall k :: 0 <= k < |tr.fires| ==> ReportsAt(def, tr, k)
  }

  lemma TraceReports(def: MachineDef, ctx: Ctx, tr: Trace)
    requires IsTrace(def, ctx, tr)
    ensures Reports(def, tr)
  {
    forall k | 0 <= k < |tr.fires| ensures ReportsAt(def, tr, k) {
      assert StepOf(def, ctx, tr.confs[k], tr.calls[k], tr.confs[k + 1], tr.fires[k]);
    }
  }

  lemma {:induction false} ReportedFrom(def: MachineDef, tr: Trace, n: nat)
    requires Reports(def, tr) && n < |tr.confs|
    ensures tr.confs[n].p.reported <==> HomeBefore(def, tr, n)
  {
    if n > 0 {
      ReportedFrom(def, tr, n - 1);
      assert ReportsAt(def, tr, n - 1);
      assert HomeBefore(def, tr, n) <==> HomeBefore(def, tr, n - 1) || Homecoming(def, tr, n - 1);
    }
  }

  /** The flag that blocks clearing says exactly that the initial state was entered before. */
  lemma ReportedMeansHomeBefore(def: MachineDef, ctx: Ctx, tr: Trace, n: nat)
    requires IsTrace(def, ctx, tr) && n < |tr.confs|
    ensures tr.confs[n].p.reported <==> HomeBefore(def, tr, n)
  {
    TraceReports(def, ctx, tr);
    ReportedFrom(def, tr, n);
  }

  /** The memory that the search, the saving of input and the builds of a call leave. */
  ghost function BuiltMem(def: MachineDef, ctx: Ctx, c: Conf, call: Call): Mem
    requires Shaped(def, c.slots) && c.p.current in def.states
  {
    var trs := def.states[c.p.current].transitions;
    match Select(ctx.env, trs, 0, c.p.mem, call.ev)
    case Selection(m, Pick(i, _)) =>
      (match BuildFor(ctx, trs[i], m, call.ev, c.slots[Place(c.p.current, i)], call.pins)
       case Turn(m1, _, _, _) => m1
       case TurnCrash => m)
    case Selection(m, NoPick) => m
    case SelectionCrash => c.p.mem
  }

  /** Over every run: a step throws away the memory it has built exactly when it enters the
      initial state, the table does not keep its memory and no step before entered the
      initial state. Every other step keeps it. */
  lemma ClearedOnFirstHomecoming(def: MachineDef, ctx: Ctx, tr: Trace, k: nat)
    requires IsTrace(def, ctx, tr) && k < |tr.calls| && tr.fires[k].Fired?
    ensures Shaped(def, tr.confs[k].slots) && tr.confs[k].p.current in def.states
    ensures tr.confs[k + 1].p.mem ==
            if Homecoming(def, tr, k) && !def.keepMemory && !HomeBefore(def, tr, k) then map[]
            else BuiltMem(def, ctx, tr.confs[k], tr.calls[k])
  {
    ReportedMeansHomeBefore(def, ctx, tr, k);
    assert StepOf(def, ctx, tr.confs[k], tr.calls[k], tr.confs[k + 1], tr.fires[k]);
  }

  /** Of two steps that enter the initial state the later one keeps the memory. */
  lemma ClearedAtMostOnce(def: MachineDef, ctx: Ctx, tr: Trace, j: nat, k: nat)
    requires IsTrace(def, ctx, tr) && j < k < |tr.calls| && Homecoming(def, tr, j) && Homecoming(def, tr, k)
    ensures Shaped(def, tr.confs[k].slots) && tr.confs[k].p.current in def.states
    ensures tr.confs[k + 1].p.mem == BuiltMem(def, ctx, tr.confs[k], tr.calls[k])
  {
    ClearedOnFirstHomecoming(def, ctx, tr, k);
  }

  /** One state that comes home on every message, and saves it. */
  function Saver(): MachineDef {
    MachineDef(Conversation, false, [], "S",
               map["S" := StateDef([TransitionDef(Trigger(BasicMessage, UseInputSave, "X"), [], "S")], false)])
  }

  lemma SaverSaves(ctx: Ctx, p: PState, slots: Slots, text: string, pins: nat -> string)
    requires p.current == "S" && slots == map[Place("S", 0) := []]
    ensures Shaped(Saver(), slots)
    ensures
      var o := Handle(Saver(), ctx, p, slots, StatusEv(Status(BasicMessage, text, true)), pins);
      && o == Next(PState("S", if p.reported then p.mem["X" := text] else map[], true, p.signals),
                   Fired(Place("S", 0), [], true, None))
      && After(slots, o) == slots
  {
    var trs := Saver().states["S"].transitions;
    var ev := StatusEv(Status(BasicMessage, text, true));
    SelectOnly(ctx.env, trs[0], p.mem, ev);
    assert trs == [trs[0]];
    assert BuildFor(ctx, trs[0], p.mem, ev, [], pins) == Turn(p.mem["X" := text], [], true, None);
  }

  /** A run of it: the first message is forgotten, the second one is not. */
  lemma SecondHomecomingKeeps(ctx: Ctx, pins: nat -> string) returns (tr: Trace)
    requires ctx.mtype.Conversation?
    ensures IsTrace(Saver(), ctx, tr) && |tr.calls| == 2 && Homecoming(Saver(), tr, 0) && Homecoming(Saver(), tr, 1)
    ensures tr.confs[1].p.mem == map[] && tr.confs[2].p.mem == map["X" := "second"]
  {
    var slots: Slots := map[Place("S", 0) := []];
    var p0, p1 := PState("S", map[], false, 0), PState("S", map[], true, 0);
    var p2 := PState("S", map["X" := "second"], true, 0);
    var fired := Fired(Place("S", 0), [], true, None);
    SaverSaves(ctx, p0, slots, "first", pins);
    SaverSaves(ctx, p1, slots, "second", pins);
    tr := Trace([Conf(p0, slots), Conf(p1, slots), Conf(p2, slots)],
                [Call(StatusEv(Status(BasicMessage, "first", true)), pins),
                 Call(StatusEv(Status(BasicMessage, "second", true)), pins)], [fired, fired]);
    assert Start(Saver(), ctx, pins) == Next(p0, Idle);
    assert DefHeld([]) == [];
    assert StepOf(Saver(), ctx, tr.confs[0], tr.calls[0], tr.confs[1], tr.fires[0]);
    assert StepOf(Saver(), ctx, tr.confs[1], tr.calls[1], tr.confs[2], tr.fires[1]);
  }
}
