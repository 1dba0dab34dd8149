/**
 The shipped proof-requesting machine, and what every run of it keeps. The wording
 of its texts is a parameter; `wanted` is the JSON list that asks for the e-mail.
 */
module ReqProof {
  import opened Wrappers
  import opened FsmTypes
  import opened FsmSpec
  import opened InPlace
  import opened Traces
  import opened Failures
  import opened ProofRules

  datatype Texts = Texts(
    hello: string, greeting: string, wanted: string, again: string, trust: string,
    beginning: string, says: string, credDefID: string)

  const INITIAL := "INITIAL"
  const WAITING_EMAIL_PROOF_QA := "WAITING_EMAIL_PROOF_QA"
  const WAITING2_EMAIL_PROOF := "WAITING2_EMAIL_PROOF"
  const WAITING_NEXT_CMD := "WAITING_NEXT_CMD"
  const EMAIL := "email"
  const LINE := "LINE"

  function Send(protocol: Protocol, rule: Rule, data: string): SendDef {
    SendDef(protocol, rule, data, "", false, None)
  }

  function Initial(t: Texts): StateDef {
    StateDef([
      TransitionDef(Trigger(Connection, DataAsIs, ""), [Send(BasicMessage, DataAsIs, t.greeting)], INITIAL),
      TransitionDef(Trigger(BasicMessage, DataAsIs, ""), [Send(PresentProof, DataAsIs, t.wanted)],
                    WAITING_EMAIL_PROOF_QA)], false)
  }

  function WaitingQA(t: Texts): StateDef {
    StateDef([
      TransitionDef(Trigger(BasicMessage, InputEqual, "reset"), [Send(BasicMessage, DataAsIs, t.again)], INITIAL),
      TransitionDef(Trigger(PresentProof, NotAcceptValues, t.wanted), [Send(Answer, DataAsIs, "NACK")], INITIAL),
      TransitionDef(Trigger(PresentProof, AcceptAndInputValues, t.wanted), [Send(Answer, DataAsIs, "ACK")],
                    WAITING2_EMAIL_PROOF)], false)
  }

  function Waiting2(t: Texts): StateDef {
    StateDef([TransitionDef(Trigger(PresentProof, DataAsIs, ""), [Send(BasicMessage, FormatFromMem, t.trust)],
                            WAITING_NEXT_CMD)], false)
  }

  function NextCmd(t: Texts): StateDef {
    StateDef([
      TransitionDef(Trigger(BasicMessage, InputEqual, "reset"), [Send(BasicMessage, DataAsIs, t.beginning)], INITIAL),
      TransitionDef(Trigger(BasicMessage, UseInputSave, LINE), [Send(BasicMessage, FormatFromMem, t.says)],
                    WAITING_NEXT_CMD)], false)
  }

  function Table(t: Texts): MachineDef {
    MachineDef(Conversation, false, [Send(BasicMessage, DataAsIs, t.hello)], INITIAL,
               map[INITIAL := Initial(t), WAITING_EMAIL_PROOF_QA := WaitingQA(t),
                   WAITING2_EMAIL_PROOF := Waiting2(t), WAITING_NEXT_CMD := NextCmd(t)])
  }

  lemma States(t: Texts)
    ensures
      var ss := Table(t).states;
      && ss.Keys == {INITIAL, WAITING_EMAIL_PROOF_QA, WAITING2_EMAIL_PROOF, WAITING_NEXT_CMD}
      && ss[INITIAL] == Initial(t) && ss[WAITING_EMAIL_PROOF_QA] == WaitingQA(t)
      && ss[WAITING2_EMAIL_PROOF] == Waiting2(t) && ss[WAITING_NEXT_CMD] == NextCmd(t)
    ensures |INITIAL| == 7 && |WAITING_EMAIL_PROOF_QA| == 22 && |WAITING2_EMAIL_PROOF| == 20 && |WAITING_NEXT_CMD| == 16
    ensures |EMAIL| == 5 && |LINE| == 4
  {
  }

  /** The wanted list, as the JSON reader reads it: the e-mail attribute and no other. */
  ghost predicate ReadsWanted(t: Texts, env: Env) {
    env.attrs(t.wanted) == Some([WantedAttr(EMAIL, t.credDefID)])
  }

  /** The question presents the demanded e-mail attribute, and this is its value. */
  predicate PresentsEmail(t: Texts, ev: Ev, address: string) {
    && ev.QuestionEv? && ev.question.protocol == PresentProof
    && ev.question.presented == [ProofAttr(EMAIL, t.credDefID, address)]
  }

  lemma WantedIsEmail(t: Texts, presented: seq<ProofAttr>, mem: Mem)
    ensures
      var wanted := [WantedAttr(EMAIL, t.credDefID)];
      !Declines(wanted, presented) ==>
        && PairCount(wanted, presented) == |presented| == 1
        && presented == [ProofAttr(EMAIL, t.credDefID, presented[0].value)]
        && Get(SaveValues(wanted, presented, mem), EMAIL) == presented[0].value
  {
    var wanted := [WantedAttr(EMAIL, t.credDefID)];
    if !Declines(wanted, presented) {
      NotDeclinedIsAccepted(wanted, presented, mem);
      assert Presents(presented, wanted[0]);
    }
  }

  // ------------------------------------------------- one step from each state

  /** The question presents exactly the demanded attribute. */
  predicate Accepts(t: Texts, ev: Ev) {
    && ev.QuestionEv? && ev.question.protocol == PresentProof && |ev.question.presented| == 1
    && ev.question.presented[0].name == EMAIL && ev.question.presented[0].credDefID == t.credDefID
  }

  /** The event is a ready status of the protocol. */
  predicate Ready(ev: Ev, protocol: Protocol) {
    ev.StatusEv? && ev.status.protocol == protocol && ev.status.ok
  }

  predicate AsksProof(ev: Ev) {
    ev.QuestionEv? && ev.question.protocol == PresentProof
  }

  /** The state after the ACK has a proof trigger with no list, which a question cannot read. */
  predicate QuestionWhileProving(env: Env, p: PState, ev: Ev) {
    p.current == WAITING2_EMAIL_PROOF && AsksProof(ev) && env.attrs("").None?
  }

  function TrustEvent(ctx: Ctx, text: string, mem: Mem): EventValue {
    BasicEvent(ctx.env.render(text, mem))
  }

  function Fixed(text: string): Held {
    [Some(BasicEvent(text))]
  }

  /** An answer holds nothing; its text says which it is. */
  const Answered: Held := [None]

  /** The machine goes on: transition i of its state says these events. */
  function Speaks(p: PState, i: nat, q: PState, held: Held): Outcome {
    Next(q, Fired(Place(p.current, i), held, true, None))
  }

  function Home(p: PState): PState {
    p.(current := INITIAL, mem := if p.reported then p.mem else map[], reported := true)
  }

  /** All that a call does to a machine that runs the table, state by state. */
  function Reaction(t: Texts, ctx: Ctx, p: PState, c: Call): Outcome {
    if QuestionWhileProving(ctx.env, p, c.ev) then Crash
    else if p.current == INITIAL && Ready(c.ev, Connection) then Speaks(p, 0, Home(p), Fixed(t.greeting))
    else if p.current == INITIAL && Ready(c.ev, BasicMessage) then
      Speaks(p, 1, p.(current := WAITING_EMAIL_PROOF_QA), [Some(EventValue(NoPayload.(proof := Some(t.wanted)), None))])
    else if p.current == WAITING_EMAIL_PROOF_QA && Ready(c.ev, BasicMessage) && c.ev.status.content == "reset" then
      Speaks(p, 0, Home(p), Fixed(t.again))
    else if p.current == WAITING_EMAIL_PROOF_QA && Accepts(t, c.ev) then
      Speaks(p, 2, p.(current := WAITING2_EMAIL_PROOF, mem := p.mem[EMAIL := c.ev.question.presented[0].value]),
          Answered)
    else if p.current == WAITING_EMAIL_PROOF_QA && (AsksProof(c.ev) || Ready(c.ev, PresentProof)) then
      Speaks(p, 1, Home(p), Answered)
    else if p.current == WAITING2_EMAIL_PROOF && Ready(c.ev, PresentProof) then
      Speaks(p, 0, p.(current := WAITING_NEXT_CMD), [Some(TrustEvent(ctx, t.trust, p.mem))])
    else if p.current == WAITING_NEXT_CMD && Ready(c.ev, BasicMessage) then
      if c.ev.status.content == "reset" then Speaks(p, 0, Home(p), Fixed(t.beginning))
      else
        var m := p.mem[LINE := c.ev.status.content];
        Speaks(p, 1, p.(mem := m), [Some(TrustEvent(ctx, t.says, m))])
    else Next(p, Idle)
  }

  /** A step of the machine is this reaction; a question about anything but a proof moves nothing. */
  ghost predicate StepsTo(t: Texts, ctx: Ctx, p: PState, c: Call, o: Outcome) {
    if OddQuestion(c.ev) then Unmoved(p, o) else o == Reaction(t, ctx, p, c)
  }

  lemma WantedNames(t: Texts)
    ensures NameCount([WantedAttr(EMAIL, t.credDefID)], LUA_TARGET) == 0
    ensures NameCount([WantedAttr(EMAIL, t.credDefID)], EMAIL) == 1
  {
    OtherRegisters();
  }

  /** The rules accept exactly such a question, and save its value. */
  lemma AcceptsExactly(t: Texts, q: Question, mem: Mem)
    requires q.protocol == PresentProof
    ensures
      var wanted := [WantedAttr(EMAIL, t.credDefID)];
      && (Accepts(t, QuestionEv(q)) <==> !Declines(wanted, q.presented))
      && (Accepts(t, QuestionEv(q)) ==> SaveValues(wanted, q.presented, mem) == mem[EMAIL := q.presented[0].value])
  {
    var wanted := [WantedAttr(EMAIL, t.credDefID)];
    WantedIsEmail(t, q.presented, mem);
    WantedNames(t);
    if Accepts(t, QuestionEv(q)) {
      assert Presents(q.presented, wanted[0]);
      assert q.presented[..0] == [];
      assert SaveValues(wanted, q.presented[..0], mem) == mem;
    }
  }

  lemma QASelectQuestion(t: Texts, env: Env, mem: Mem, q: Question)
    requires ReadsWanted(t, env) && q.protocol == PresentProof
    ensures
      Select(env, WaitingQA(t).transitions, 0, mem, QuestionEv(q)) ==
      if Accepts(t, QuestionEv(q)) then Selection(mem[EMAIL := q.presented[0].value], Pick(2, WAITING2_EMAIL_PROOF))
      else Selection(mem, Pick(1, INITIAL))
  {
    var trs := WaitingQA(t).transitions;
    AcceptsExactly(t, q, mem);
    ExactlyOneFires(env, trs, 1, 2, mem, q);
    assert Select(env, trs, 0, mem, QuestionEv(q)) == Select(env, trs, 1, mem, QuestionEv(q));
  }

  lemma QASelectStatus(t: Texts, env: Env, mem: Mem, ev: Ev)
    requires !ev.QuestionEv?
    ensures
      Select(env, WaitingQA(t).transitions, 0, mem, ev) ==
      Selection(mem, if ev.StatusEv? && ev.status.protocol == BasicMessage && ev.status.content == "reset"
                     then Pick(0, INITIAL)
                     else if ev.StatusEv? && ev.status.protocol == PresentProof then Pick(1, INITIAL) else NoPick)
  {
    var trs := WaitingQA(t).transitions;
    assert Select(env, trs, 3, mem, ev) == Selection(mem, NoPick);
    assert Select(env, trs, 2, mem, ev) ==
           Selection(mem, if ev.StatusEv? && ev.status.protocol == PresentProof then Pick(2, WAITING2_EMAIL_PROOF)
                          else NoPick);
    assert Select(env, trs, 1, mem, ev) ==
           Selection(mem, if ev.StatusEv? && ev.status.protocol == PresentProof then Pick(1, INITIAL) else NoPick);
  }

  /** An answer is built from nothing. */
  lemma AnswerBuild(ctx: Ctx, t: TransitionDef, d: SendDef, mem: Mem, ev: Ev, pins: nat -> string)
    requires t.sends == [d] && d.protocol == Answer && d.eventData == None
    requires ev.QuestionEv? || Ready(ev, PresentProof)
    ensures BuildFor(ctx, t, mem, ev, DefHeld(t.sends), pins) == Turn(mem, Answered, true, None)
  {
    BuildSingle(ctx, Prepare(ctx, t.trigger, mem, ev).input, pins, d, mem, mem, None);
  }

  lemma QABuild(t: Texts, ctx: Ctx, mem: Mem, ev: Ev, i: nat, pins: nat -> string)
    requires i < 3 && if i == 0 then ev.StatusEv? && ev.status.protocol == BasicMessage
                      else ev.QuestionEv? || Ready(ev, PresentProof)
    ensures
      var tr := WaitingQA(t).transitions[i];
      BuildFor(ctx, tr, mem, ev, DefHeld(tr.sends), pins) ==
          Turn(mem, if i == 0 then Fixed(t.again) else Answered, true, None)
  {
    var tr := WaitingQA(t).transitions[i];
    if i == 0 {
      SayBuild(ctx, tr, tr.sends[0], mem, ev.status, pins);
    } else {
      AnswerBuild(ctx, tr, tr.sends[0], mem, ev, pins);
    }
  }

  lemma QAStep(t: Texts, ctx: Ctx, p: PState, file: Slots, c: Call)
    requires Pristine(Table(t), file) && p.current == WAITING_EMAIL_PROOF_QA && ReadsWanted(t, ctx.env)
    ensures StepsTo(t, ctx, p, c, Handle(Table(t), ctx, p, file, c.ev, c.pins))
  {
    States(t);
    if OddQuestion(c.ev) {
      OddUnmoved(Table(t), ctx, p, file, c.ev, c.pins);
    } else {
      if c.ev.QuestionEv? {
        QASelectQuestion(t, ctx.env, p.mem, c.ev.question);
      } else {
        QASelectStatus(t, ctx.env, p.mem, c.ev);
      }
      var s := Select(ctx.env, WaitingQA(t).transitions, 0, p.mem, c.ev);
      if s.pick.Pick? && (c.ev.StatusEv? ==> c.ev.status.ok) {
        QABuild(t, ctx, s.mem, c.ev, s.pick.index, c.pins);
        HandlePicked(Table(t), ctx, p, file, c, s.pick.index, s.pick.target, s.mem);
      } else {
        HandleUnpicked(Table(t), ctx, p, file, c);
      }
    }
  }

  lemma TrustSelect(t: Texts, env: Env, mem: Mem, ev: Ev)
    ensures
      Select(env, Waiting2(t).transitions, 0, mem, ev) ==
      if ev.StatusEv? && ev.status.protocol == PresentProof then Selection(mem, Pick(0, WAITING_NEXT_CMD))
      else if ev.QuestionEv? && ev.question.protocol == PresentProof && env.attrs("").None? then SelectionCrash
      else Selection(mem, NoPick)
  {
    SelectOnly(env, Waiting2(t).transitions[0], mem, ev);
  }

  lemma TrustStep(t: Texts, ctx: Ctx, p: PState, file: Slots, c: Call)
    requires Pristine(Table(t), file) && p.current == WAITING2_EMAIL_PROOF
    ensures StepsTo(t, ctx, p, c, Handle(Table(t), ctx, p, file, c.ev, c.pins))
  {
    States(t);
    var tr := Waiting2(t).transitions[0];
    TrustSelect(t, ctx.env, p.mem, c.ev);
    if OddQuestion(c.ev) {
      OddUnmoved(Table(t), ctx, p, file, c.ev, c.pins);
    } else if Ready(c.ev, PresentProof) {
      SayBuild(ctx, tr, tr.sends[0], p.mem, c.ev.status, c.pins);
      HandlePicked(Table(t), ctx, p, file, c, 0, WAITING_NEXT_CMD, p.mem);
    } else if !QuestionWhileProving(ctx.env, p, c.ev) {
      HandleUnpicked(Table(t), ctx, p, file, c);
    }
  }

  lemma NextCmdSelect(t: Texts, env: Env, mem: Mem, ev: Ev)
    ensures
      Select(env, NextCmd(t).transitions, 0, mem, ev) ==
      if ev.StatusEv? && ev.status.protocol == BasicMessage then
        Selection(mem, if ev.status.content == "reset" then Pick(0, INITIAL) else Pick(1, WAITING_NEXT_CMD))
      else if ev.QuestionEv? && ev.question.protocol == BasicMessage then SelectionCrash
      else Selection(mem, NoPick)
  {
    var trs := NextCmd(t).transitions;
    assert Select(env, trs, 2, mem, ev) == Selection(mem, NoPick);
    assert Select(env, trs, 1, mem, ev) ==
           if ev.StatusEv? && ev.status.protocol == BasicMessage then Selection(mem, Pick(1, WAITING_NEXT_CMD))
           else if ev.QuestionEv? && ev.question.protocol == BasicMessage then SelectionCrash
           else Selection(mem, NoPick);
  }

  lemma NextCmdBuild(t: Texts, ctx: Ctx, mem: Mem, st: Status, i: nat, pins: nat -> string)
    requires i < 2 && st.protocol == BasicMessage
    ensures
      var tr, m := NextCmd(t).transitions[i], mem[LINE := st.content];
      BuildFor(ctx, tr, mem, StatusEv(st), DefHeld(tr.sends), pins) ==
      if i == 0 then Turn(mem, Fixed(t.beginning), true, None)
      else Turn(m, [Some(TrustEvent(ctx, t.says, m))], true, None)
  {
    var tr := NextCmd(t).transitions[i];
    SayBuild(ctx, tr, tr.sends[0], mem, st, pins);
  }

  lemma NextCmdStep(t: Texts, ctx: Ctx, p: PState, file: Slots, c: Call)
    requires Pristine(Table(t), file) && p.current == WAITING_NEXT_CMD
    ensures StepsTo(t, ctx, p, c, Handle(Table(t), ctx, p, file, c.ev, c.pins))
  {
    States(t);
    NextCmdSelect(t, ctx.env, p.mem, c.ev);
    if OddQuestion(c.ev) {
      OddUnmoved(Table(t), ctx, p, file, c.ev, c.pins);
    } else if Ready(c.ev, BasicMessage) {
      var s := Select(ctx.env, NextCmd(t).transitions, 0, p.mem, c.ev);
      NextCmdBuild(t, ctx, p.mem, c.ev.status, s.pick.index, c.pins);
      HandlePicked(Table(t), ctx, p, file, c, s.pick.index, s.pick.target, p.mem);
    } else {
      HandleUnpicked(Table(t), ctx, p, file, c);
    }
  }

  lemma InitialSelect(t: Texts, env: Env, mem: Mem, ev: Ev)
    requires !OddQuestion(ev)
    ensures
      Select(env, Initial(t).transitions, 0, mem, ev) ==
      Selection(mem, if ev.StatusEv? && ev.status.protocol == Connection then Pick(0, INITIAL)
                     else if ev.StatusEv? && ev.status.protocol == BasicMessage then Pick(1, WAITING_EMAIL_PROOF_QA)
                     else NoPick)
  {
    var trs := Initial(t).transitions;
    assert Select(env, trs, 2, mem, ev) == Selection(mem, NoPick);
    assert Select(env, trs, 1, mem, ev) ==
           Selection(mem, if ev.StatusEv? && ev.status.protocol == BasicMessage then Pick(1, WAITING_EMAIL_PROOF_QA)
                          else NoPick);
  }

  lemma AskBuild(t: Texts, ctx: Ctx, mem: Mem, st: Status, pins: nat -> string)
    requires st.protocol == BasicMessage
    ensures
      var tr := Initial(t).transitions[1];
      BuildFor(ctx, tr, mem, StatusEv(st), DefHeld(tr.sends), pins) ==
      Turn(mem, [Some(EventValue(NoPayload.(proof := Some(t.wanted)), None))], true, None)
  {
    var tr := Initial(t).transitions[1];
    BuildSingle(ctx, PrepareStatus(ctx, tr.trigger, mem, st).input, pins, tr.sends[0], mem, mem,
                Some(EventValue(NoPayload.(proof := Some(t.wanted)), None)));
  }

  lemma InitialStep(t: Texts, ctx: Ctx, p: PState, file: Slots, c: Call)
    requires Pristine(Table(t), file) && p.current == INITIAL
    ensures StepsTo(t, ctx, p, c, Handle(Table(t), ctx, p, file, c.ev, c.pins))
  {
    States(t);
    if OddQuestion(c.ev) {
      OddUnmoved(Table(t), ctx, p, file, c.ev, c.pins);
    } else {
      InitialSelect(t, ctx.env, p.mem, c.ev);
      if Ready(c.ev, Connection) {
        var tr := Initial(t).transitions[0];
        SayBuild(ctx, tr, tr.sends[0], p.mem, c.ev.status, c.pins);
        HandlePicked(Table(t), ctx, p, file, c, 0, INITIAL, p.mem);
      } else if Ready(c.ev, BasicMessage) {
        AskBuild(t, ctx, p.mem, c.ev.status, c.pins);
        HandlePicked(Table(t), ctx, p, file, c, 1, WAITING_EMAIL_PROOF_QA, p.mem);
      } else {
        HandleUnpicked(Table(t), ctx, p, file, c);
      }
    }
  }

  // ---------------------------------------------------------------- all runs

  /** The transitions that a presented address comes through. */
  const Trusting := {Place(WAITING_EMAIL_PROOF_QA, 2), Place(WAITING2_EMAIL_PROOF, 0), Place(WAITING_NEXT_CMD, 1)}

  /** All that one call can do, in terms of what is around it. */
  ghost predicate MayStep(t: Texts, ctx: Ctx, p: PState, c: Call, q: PState, fired: Fired) {
    || (fired.Idle? && q.current == p.current && (p.current == WAITING_EMAIL_PROOF_QA || q == p))
    || (fired.Fired? && fired.place.state == p.current
        && q.current in {INITIAL, WAITING_EMAIL_PROOF_QA} && fired.place !in Trusting)
    || (fired.Fired? && p.current == WAITING_EMAIL_PROOF_QA && fired.place == Place(WAITING_EMAIL_PROOF_QA, 2)
        && fired.handled && q.current == WAITING2_EMAIL_PROOF && PresentsEmail(t, c.ev, Get(q.mem, EMAIL)))
    || (fired.Fired? && p.current == WAITING2_EMAIL_PROOF && fired.place == Place(WAITING2_EMAIL_PROOF, 0)
        && q == p.(current := WAITING_NEXT_CMD)
        && fired.handled && fired.held == [Some(TrustEvent(ctx, t.trust, q.mem))])
    || (fired.Fired? && p.current == WAITING_NEXT_CMD && fired.place == Place(WAITING_NEXT_CMD, 1)
        && q.current == WAITING_NEXT_CMD && Get(q.mem, EMAIL) == Get(p.mem, EMAIL)
        && fired.handled && fired.held == [Some(TrustEvent(ctx, t.says, q.mem))])
  }

  lemma HandleSteps(t: Texts, ctx: Ctx, p: PState, file: Slots, c: Call)
    requires Pristine(Table(t), file) && p.current in Table(t).states && ReadsWanted(t, ctx.env)
    ensures StepsTo(t, ctx, p, c, Handle(Table(t), ctx, p, file, c.ev, c.pins))
  {
    States(t);
    if p.current == INITIAL {
      InitialStep(t, ctx, p, file, c);
    } else if p.current == WAITING_EMAIL_PROOF_QA {
      QAStep(t, ctx, p, file, c);
    } else if p.current == WAITING2_EMAIL_PROOF {
      TrustStep(t, ctx, p, file, c);
    } else {
      NextCmdStep(t, ctx, p, file, c);
    }
  }

  lemma ReactionMayStep(t: Texts, ctx: Ctx, p: PState, c: Call, o: Outcome)
    requires p.current in Table(t).states && StepsTo(t, ctx, p, c, o) && o.Next?
    ensures MayStep(t, ctx, p, c, o.p, o.fired)
  {
    States(t);
  }

  lemma HandleMayStep(t: Texts, ctx: Ctx, p: PState, file: Slots, c: Call)
    requires Pristine(Table(t), file) && p.current in Table(t).states && ReadsWanted(t, ctx.env)
    ensures var o := Handle(Table(t), ctx, p, file, c.ev, c.pins); o.Next? ==> MayStep(t, ctx, p, c, o.p, o.fired)
  {
    var o := Handle(Table(t), ctx, p, file, c.ev, c.pins);
    HandleSteps(t, ctx, p, file, c);
    if o.Next? {
      ReactionMayStep(t, ctx, p, c, o);
    }
  }

  lemma SameMayStep(t: Texts, ctx: Ctx, p: PState, c: Call, seen: Outcome, pure: Outcome)
    requires SameOutcome(seen, pure) && pure.Next? && MayStep(t, ctx, p, c, pure.p, pure.fired)
    ensures seen.Next? && MayStep(t, ctx, p, c, seen.p, seen.fired)
  {
  }

  lemma CallMaySteps(t: Texts, ctx: Ctx, tr: Trace, n: nat)
    requires IsTrace(Table(t), ctx, tr) && n < |tr.calls| && ReadsWanted(t, ctx.env)
    requires tr.confs[n].p.current in Table(t).states
    ensures MayStep(t, ctx, tr.confs[n].p, tr.calls[n], tr.confs[n + 1].p, tr.fires[n])
  {
    var p, c, file := tr.confs[n].p, tr.calls[n], tr.confs[0].slots;
    TraceStepIsPure(Table(t), ctx, tr, n);
    HandleMayStep(t, ctx, p, file, c);
    SameMayStep(t, ctx, p, c, Next(tr.confs[n + 1].p, tr.fires[n]), Handle(Table(t), ctx, p, file, c.ev, c.pins));
  }

  /** Call j built the ACK. */
  predicate BuildsAck(tr: Trace, j: nat)
    requires j < |tr.fires|
  {
    tr.fires[j].Fired? && tr.fires[j].handled && tr.fires[j].place == Place(WAITING_EMAIL_PROOF_QA, 2)
  }

  /** Call j built the latest ACK before point n, for a proof of this address. */
  ghost predicate LatestAck(t: Texts, tr: Trace, j: nat, n: nat, address: string)
    requires |tr.fires| == |tr.calls| && j < n <= |tr.fires|
  {
    && BuildsAck(tr, j) && PresentsEmail(t, tr.calls[j].ev, address)
    && forall l :: j < l < n ==> !BuildsAck(tr, l)
  }

  ghost predicate Inv(t: Texts, tr: Trace, n: nat)
    requires |tr.fires| == |tr.calls| && |tr.confs| == |tr.calls| + 1 && n < |tr.confs|
  {
    var p := tr.confs[n].p;
    && p.current in Table(t).states
    && (p.current == WAITING2_EMAIL_PROOF || p.current == WAITING_NEXT_CMD ==>
          exists j :: 0 <= j < n && LatestAck(t, tr, j, n, Get(p.mem, EMAIL)))
  }

  lemma InvStep(t: Texts, ctx: Ctx, tr: Trace, n: nat)
    requires |tr.fires| == |tr.calls| && |tr.confs| == |tr.calls| + 1 && n < |tr.calls|
    requires Inv(t, tr, n)
    requires MayStep(t, ctx, tr.confs[n].p, tr.calls[n], tr.confs[n + 1].p, tr.fires[n])
    ensures Inv(t, tr, n + 1)
  {
    States(t);
    var p, q := tr.confs[n].p, tr.confs[n + 1].p;
    if q.current == WAITING2_EMAIL_PROOF || q.current == WAITING_NEXT_CMD {
      if p.current == WAITING_EMAIL_PROOF_QA {
        assert LatestAck(t, tr, n, n + 1, Get(q.mem, EMAIL));
      } else {
        var j :| 0 <= j < n && LatestAck(t, tr, j, n, Get(p.mem, EMAIL));
        assert LatestAck(t, tr, j, n + 1, Get(q.mem, EMAIL));
      }
    }
  }

  /** Over every run: after the ACK the machine holds, as its e-mail, the value of the
      attribute that the latest accepted proof presented with the demanded name and
      credential definition. */
  lemma {:induction false} EmailIsPresented(t: Texts, ctx: Ctx, tr: Trace, n: nat)
    requires IsTrace(Table(t), ctx, tr) && n < |tr.confs| && ReadsWanted(t, ctx.env)
    ensures Inv(t, tr, n)
  {
    States(t);
    if n > 0 {
      EmailIsPresented(t, ctx, tr, n - 1);
      CallMaySteps(t, ctx, tr, n - 1);
      InvStep(t, ctx, tr, n - 1);
    }
  }

  /** Over every run: the words of trust, and every line echoed after them, are rendered
      with an address that an accepted proof presented. */
  lemma TrustOnlyPresented(t: Texts, ctx: Ctx, tr: Trace, k: nat) returns (j: nat, address: string)
    requires IsTrace(Table(t), ctx, tr) && k < |tr.calls| && ReadsWanted(t, ctx.env)
    requires tr.fires[k].Fired?
    requires tr.fires[k].place in {Place(WAITING2_EMAIL_PROOF, 0), Place(WAITING_NEXT_CMD, 1)}
    ensures j < k && LatestAck(t, tr, j, k, address)
    ensures
      var mem, text := tr.confs[k + 1].p.mem,
                       if tr.fires[k].place.state == WAITING2_EMAIL_PROOF then t.trust else t.says;
      Get(mem, EMAIL) == address && tr.fires[k].held == [Some(TrustEvent(ctx, text, mem))]
  {
    EmailIsPresented(t, ctx, tr, k);
    CallMaySteps(t, ctx, tr, k);
    j, address := TrustHasAck(t, ctx, tr, k);
  }

  lemma TrustHasAck(t: Texts, ctx: Ctx, tr: Trace, k: nat) returns (j: nat, address: string)
    requires |tr.fires| == |tr.calls| && |tr.confs| == |tr.calls| + 1 && k < |tr.calls|
    requires Inv(t, tr, k) && MayStep(t, ctx, tr.confs[k].p, tr.calls[k], tr.confs[k + 1].p, tr.fires[k])
    requires tr.fires[k].Fired?
    requires tr.fires[k].place in {Place(WAITING2_EMAIL_PROOF, 0), Place(WAITING_NEXT_CMD, 1)}
    ensures j < k && LatestAck(t, tr, j, k, address)
    ensures
      var mem, text := tr.confs[k + 1].p.mem,
                       if tr.fires[k].place.state == WAITING2_EMAIL_PROOF then t.trust else t.says;
      Get(mem, EMAIL) == address && tr.fires[k].held == [Some(TrustEvent(ctx, text, mem))]
  {
    States(t);
    address := Get(tr.confs[k].p.mem, EMAIL);
    j :| 0 <= j < k && LatestAck(t, tr, j, k, address);
  }

  /** The table declares its targets and leaves TARGET alone, whatever scripts would do. */
  lemma SafeReqProof(t: Texts, env: Env)
    requires ReadsWanted(t, env)
    ensures Table(t).initialTarget in Table(t).states && ClosedTargets(Table(t)) && SafeTable(Table(t), env)
  {
    States(t);
    OtherRegisters();
    WantedNames(t);
  }

  lemma UndemandingReqProof(t: Texts)
    ensures UndemandingTable(Table(t))
  {
    States(t);
  }

  lemma MeetsWhen(t: Texts, env: Env, p: PState, ev: Ev)
    requires p.current in Table(t).states && ReadsWanted(t, env) && !OddQuestion(ev)
    ensures MeetsUnreadable(env, Table(t).states[p.current].transitions, 0, p.mem, ev) <==>
        QuestionWhileProving(env, p, ev)
  {
    States(t);
    var trs := Table(t).states[p.current].transitions;
    assert Select(env, trs[..0], 0, p.mem, ev) == Selection(p.mem, NoPick);
  }

  /** At every point of every run: a call fails exactly when it is a further proof question
      between the ACK and the proof, because no list is read from an empty text. */
  lemma FailsWhen(t: Texts, ctx: Ctx, tr: Trace, n: nat, call: Call)
    requires IsTrace(Table(t), ctx, tr) && n < |tr.confs| && ReadsWanted(t, ctx.env) && !OddQuestion(call.ev)
    ensures Shaped(Table(t), tr.confs[n].slots)
    ensures Handle(Table(t), ctx, tr.confs[n].p, tr.confs[n].slots, call.ev, call.pins).Crash?
            <==> QuestionWhileProving(ctx.env, tr.confs[n].p, call.ev)
  {
    SafeReqProof(t, ctx.env);
    UndemandingReqProof(t);
    FailsOnlyInSearch(Table(t), ctx, tr, n, call);
    MeetsWhen(t, ctx.env, tr.confs[n].p, call.ev);
  }

  /** What the machine does with any event, on a table that has been through any history. */
  lemma Reacts(t: Texts, ctx: Ctx, p: PState, slots: Slots, file: Slots, c: Call)
    requires ctx.mtype.Conversation? && TableSettled(Table(t), ctx, slots) && Pristine(Table(t), file)
    requires p.current in Table(t).states && !OddQuestion(c.ev) && ReadsWanted(t, ctx.env)
    ensures Handle(Table(t), ctx, p, slots, c.ev, c.pins) == Reaction(t, ctx, p, c)
  {
    HandlePure(Table(t), ctx, p, slots, file, c.ev, c.pins);
    HandleSteps(t, ctx, p, file, c);
    SameReaction(t, ctx, p, c, Handle(Table(t), ctx, p, slots, c.ev, c.pins));
  }

  lemma SameReaction(t: Texts, ctx: Ctx, p: PState, c: Call, o: Outcome)
    requires SameOutcome(o, Reaction(t, ctx, p, c))
    ensures o == Reaction(t, ctx, p, c)
  {
  }

  /** At every point of every run: which events fire, which transition, what is then held and
      kept in memory, and where the machine goes. */
  lemma RunReacts(t: Texts, ctx: Ctx, tr: Trace, n: nat, call: Call)
    requires IsTrace(Table(t), ctx, tr) && n < |tr.confs| && !OddQuestion(call.ev) && ReadsWanted(t, ctx.env)
    ensures Shaped(Table(t), tr.confs[n].slots)
    ensures Handle(Table(t), ctx, tr.confs[n].p, tr.confs[n].slots, call.ev, call.pins) ==
            Reaction(t, ctx, tr.confs[n].p, call)
  {
    States(t);
    RunStaysInTable(Table(t), ctx, tr, n);
    TraceSettled(Table(t), ctx, tr, n);
    Reacts(t, ctx, tr.confs[n].p, tr.confs[n].slots, tr.confs[0].slots, call);
  }
}
