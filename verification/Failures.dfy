/** Which calls of a machine fail at all, when no state is missing. */
module Failures {
  import opened Wrappers
  import opened FsmTypes
  import opened FsmSpec
  import opened InPlace
  import opened Traces

  /** A question that is not about a proof. The bot hands none to a machine. */
  predicate OddQuestion(ev: Ev) {
    ev.QuestionEv? && ev.question.protocol != PresentProof
  }

  /** The machine fails, or stays as it was. */
  predicate Unmoved(p: PState, o: Outcome) {
    o == Crash || o == Next(p, Idle)
  }

  lemma {:induction false} OddSelect(env: Env, trs: seq<TransitionDef>, i: nat, mem: Mem, ev: Ev)
    requires i <= |trs| && OddQuestion(ev)
    ensures Select(env, trs, i, mem, ev) in {SelectionCrash, Selection(mem, NoPick)}
    decreases |trs| - i
  {
    if i < |trs| {
      OddSelect(env, trs, i + 1, mem, ev);
    }
  }

  lemma OddUnmoved(def: MachineDef, ctx: Ctx, p: PState, slots: Slots, ev: Ev, pins: nat -> string)
    requires Shaped(def, slots) && OddQuestion(ev)
    ensures Unmoved(p, Handle(def, ctx, p, slots, ev, pins))
  {
    if p.current in def.states {
      OddSelect(ctx.env, def.states[p.current].transitions, 0, p.mem, ev);
    }
  }

  // ---------------------------------------------------------------- searching

  /** The trigger is for the question's protocol, but holds no wanted list. */
  ghost predicate Unreadable(env: Env, t: Trigger, ev: Ev) {
    ev.QuestionEv? && t.protocol == ev.question.protocol && (t.protocol != PresentProof || env.attrs(t.data).None?)
  }

  /** A search fails exactly when it comes to such a trigger before one that fires. */
  ghost predicate MeetsUnreadable(env: Env, trs: seq<TransitionDef>, i: nat, mem: Mem, ev: Ev)
    requires i <= |trs|
  {
    exists k :: i <= k < |trs| && Unreadable(env, trs[k].trigger, ev)
                && Select(env, trs[..k], i, mem, ev).Selection? && Select(env, trs[..k], i, mem, ev).pick.NoPick?
  }

  lemma {:induction false} SearchFails(env: Env, trs: seq<TransitionDef>, i: nat, mem: Mem, ev: Ev)
    requires i <= |trs|
    ensures Select(env, trs, i, mem, ev).SelectionCrash? <==> MeetsUnreadable(env, trs, i, mem, ev)
    decreases |trs| - i
  {
    if i < |trs| {
      var t := trs[i].trigger;
      match Try(env, t, mem, ev)
      case VerdictCrash =>
        assert Select(env, trs[..i], i, mem, ev) == Selection(mem, NoPick);
      case Verdict(m, ok, _) =>
        forall k | i < k < |trs|
          ensures Select(env, trs[..k], i, mem, ev) ==
                  if ok then Selection(m, Select(env, trs[..k], i, mem, ev).pick)
                      else Select(env, trs[..k], i + 1, m, ev)
          ensures ok ==> Select(env, trs[..k], i, mem, ev).pick.Pick?
        {
          assert trs[..k][i] == trs[i];
        }
        SearchFails(env, trs, i + 1, m, ev);
    }
  }

  // ----------------------------------------------------------------- building

  /** The send can be built from any input. */
  predicate Undemanding(d: SendDef) {
    match d.protocol
    case IssueCred => d.rule == FormatFromMem ==> PresetCredDef(d.eventData).Some?
    case Hook => d.rule != UseInput
    case Backend => false
    case Transient => d.rule == TransientRule
    case _ => true
  }

  ghost predicate UndemandingTable(def: MachineDef) {
    forall s, i :: s in def.states && 0 <= i < |def.states[s].transitions| ==>
      && (def.mtype.Conversation? ==> def.states[s].transitions[i].trigger.rule != UseInputSaveSessionID)
      && forall k :: 0 <= k < |def.states[s].transitions[i].sends| ==>
           Undemanding(def.states[s].transitions[i].sends[k])
  }

  lemma BuildOneWorks(ctx: Ctx, input: Input, pin: string, mem: Mem, d: SendDef, cur: Option<EventValue>)
    requires input.Input? && Undemanding(d) && Settled(ctx, d, cur)
    ensures !BuildOne(ctx, input, pin, mem, d, cur).BuildCrash?
  {
  }

  lemma {:induction false} BuildFromWorks(ctx: Ctx, input: Input, pins: nat -> string, sends: seq<SendDef>, i: nat,
                                          mem: Mem, held: Held)
    requires i <= |sends| == |held| && input.Input?
    requires forall k :: i <= k < |sends| ==> Undemanding(sends[k]) && Settled(ctx, sends[k], held[k])
    ensures BuildFrom(ctx, input, pins, sends, i, mem, held).BuiltAll?
    decreases |sends| - i
  {
    if i < |sends| {
      BuildOneWorks(ctx, input, pins(i), mem, sends[i], held[i]);
      match BuildOne(ctx, input, pins(i), mem, sends[i], held[i])
      case Built(m, e) => BuildFromWorks(ctx, input, pins, sends, i + 1, m, held[i := e]);
      case _ =>
    }
  }

  /** A picked transition of an undemanding table builds, whatever the event. */
  lemma BuildForWorks(def: MachineDef, ctx: Ctx, c: Conf, s: string, i: nat, mem: Mem, call: Call)
    requires UndemandingTable(def) && def.mtype == ctx.mtype && TableSettled(def, ctx, c.slots)
    requires s in def.states && i < |def.states[s].transitions|
    ensures Place(s, i) in c.slots && |c.slots[Place(s, i)]| == |def.states[s].transitions[i].sends|
    ensures BuildFor(ctx, def.states[s].transitions[i], mem, call.ev, c.slots[Place(s, i)], call.pins).Turn?
  {
    var t, held := def.states[s].transitions[i], c.slots[Place(s, i)];
    assert AllSettled(ctx, t.sends, held);
    match Prepare(ctx, t.trigger, mem, call.ev)
    case Prepared(m, input, _) => BuildFromWorks(ctx, input, call.pins, t.sends, 0, m, held);
    case PrepareCrash =>
  }

  // ---------------------------------------------------------------- all runs

  /** Over every run of an undemanding table that misses no state, a call fails exactly
      when its search comes to a trigger that cannot read the question. */
  lemma FailsOnlyInSearch(def: MachineDef, ctx: Ctx, tr: Trace, n: nat, call: Call)
    requires IsTrace(def, ctx, tr) && n < |tr.confs| && UndemandingTable(def)
    requires def.initialTarget in def.states && ClosedTargets(def) && SafeTable(def, ctx.env)
    ensures Shaped(def, tr.confs[n].slots) && tr.confs[n].p.current in def.states
    ensures Handle(def, ctx, tr.confs[n].p, tr.confs[n].slots, call.ev, call.pins).Crash? <==>
            MeetsUnreadable(ctx.env, def.states[tr.confs[n].p.current].transitions, 0, tr.confs[n].p.mem, call.ev)
  {
    var c := tr.confs[n];
    NoStateIsMissing(def, ctx, tr, n, call);
    TraceSettled(def, ctx, tr, n);
    SearchFails(ctx.env, def.states[c.p.current].transitions, 0, c.p.mem, call.ev);
    match Select(ctx.env, def.states[c.p.current].transitions, 0, c.p.mem, call.ev)
    case Selection(m, Pick(i, _)) => BuildForWorks(def, ctx, c, c.p.current, i, m, call);
    case _ =>
  }

  // ------------------------------------------------ saving a backend session id

  /** A conversation that picks, for a backend message, a transition that saves a session id
      fails: it writes the id into a message that its input does not have. */
  lemma SavingSessionFails(def: MachineDef, ctx: Ctx, p: PState, slots: Slots, msg: BackendMsg, pins: nat -> string)
    requires ctx.mtype.Conversation? && Shaped(def, slots) && p.current in def.states
    requires
      var sel := Select(ctx.env, def.states[p.current].transitions, 0, p.mem, BackendEv(msg));
      && sel.Selection? && sel.pick.Pick?
      && def.states[p.current].transitions[sel.pick.index].trigger.rule == UseInputSaveSessionID
    ensures Handle(def, ctx, p, slots, BackendEv(msg), pins).Crash?
  {
  }

  /** So a table of one such transition fails on every backend message. */
  lemma SessionSaverFails(env: Env, p: PState, slots: Slots, msg: BackendMsg, pins: nat -> string)
    requires p.current == "S" && slots == map[Place("S", 0) := []]
    ensures
      var def := MachineDef(Conversation, false, [], "S",
        map["S" := StateDef([TransitionDef(Trigger(Backend, UseInputSaveSessionID, ""), [], "S")], false)]);
      Shaped(def, slots) && Handle(def, Ctx(env, Conversation, "c"), p, slots, BackendEv(msg), pins).Crash?
  {
  }
}
