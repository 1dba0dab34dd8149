/**
 The shipped e-mail issuer machine, and what every run of it keeps. The wording of
 its texts and templates is a parameter; everything else is the table's.
 */
module EmailIssuer {
  import opened Wrappers
  import opened FsmTypes
  import opened FsmSpec
  import opened InPlace
  import opened Traces
  import opened Failures

  datatype Texts = Texts(
    hello: string, askEmail: string, thanks: string, mail: string, askAgain: string,
    incorrect: string, issuing: string, attrs: string, bye: string,
    credDefID: string, presetAttrs: string)

  const IDLE := "IDLE"
  const WAITING_EMAIL_ADDRESS := "WAITING_EMAIL_ADDRESS"
  const WAITING_EMAIL_PIN := "WAITING_EMAIL_PIN"
  const WAITING_ISSUING_STATUS := "WAITING_ISSUING_STATUS"
  const EMAIL := "EMAIL"

  function Say(rule: Rule, data: string): SendDef {
    SendDef(BasicMessage, rule, data, "", false, None)
  }

  function Mail(t: Texts): SendDef {
    SendDef(Email, GenPIN, t.mail, "", false, None)
  }

  function Issue(t: Texts): SendDef {
    SendDef(IssueCred, FormatFromMem, t.attrs, "", false,
            Some(EventValue(NoPayload.(issuing := Some(Issuing(t.credDefID, t.presetAttrs))), None)))
  }

  function Idle(t: Texts): StateDef {
    StateDef([TransitionDef(Trigger(BasicMessage, DataAsIs, ""), [Say(DataAsIs, t.askEmail)],
                            WAITING_EMAIL_ADDRESS)], false)
  }

  function WaitingAddress(t: Texts): StateDef {
    StateDef([TransitionDef(Trigger(BasicMessage, UseInputSave, EMAIL), [Say(FormatFromMem, t.thanks), Mail(t)],
                            WAITING_EMAIL_PIN)], false)
  }

  function WaitingPIN(t: Texts): StateDef {
    StateDef([
      TransitionDef(Trigger(BasicMessage, InputEqual, "reset"), [Say(DataAsIs, t.askAgain)], WAITING_EMAIL_ADDRESS),
      TransitionDef(Trigger(BasicMessage, ValidateInputNotEqual, PIN), [Say(FormatFromMem, t.incorrect)],
                    WAITING_EMAIL_PIN),
      TransitionDef(Trigger(BasicMessage, ValidateInputEqual, PIN), [Say(FormatFromMem, t.issuing), Issue(t)],
                    WAITING_ISSUING_STATUS)], false)
  }

  function WaitingStatus(t: Texts): StateDef {
    StateDef([TransitionDef(Trigger(IssueCred, OurMessage, ""), [Say(FormatFromMem, t.bye)], IDLE)], false)
  }

  function Table(t: Texts): MachineDef {
    MachineDef(Conversation, false, [Say(DataAsIs, t.hello)], IDLE,
               map[IDLE := Idle(t), WAITING_EMAIL_ADDRESS := WaitingAddress(t),
                   WAITING_EMAIL_PIN := WaitingPIN(t), WAITING_ISSUING_STATUS := WaitingStatus(t)])
  }

  lemma States(t: Texts)
    ensures
      var ss := Table(t).states;
      && ss.Keys == {IDLE, WAITING_EMAIL_ADDRESS, WAITING_EMAIL_PIN, WAITING_ISSUING_STATUS}
      && ss[IDLE] == Idle(t) && ss[WAITING_EMAIL_ADDRESS] == WaitingAddress(t)
      && ss[WAITING_EMAIL_PIN] == WaitingPIN(t) && ss[WAITING_ISSUING_STATUS] == WaitingStatus(t)
    ensures |IDLE| == 4 && |WAITING_EMAIL_ADDRESS| == 21 && |WAITING_EMAIL_PIN| == 17 && |WAITING_ISSUING_STATUS| == 22
    ensures |EMAIL| == 5 && |PIN| == 3
  {
  }

  /** The event is a basic message that is ready. */
  predicate Message(ev: Ev) {
    ev.StatusEv? && ev.status.protocol == BasicMessage && ev.status.ok
  }

  /** The event says that a credential has been issued. */
  predicate Issued(ev: Ev) {
    ev.StatusEv? && ev.status.protocol == IssueCred && ev.status.ok
  }

  // ------------------------------------------------- one step from each state

  /** The memory that both the mail and its PIN are rendered from. */
  function Mailed(mem: Mem, address: string, pin: string): Mem {
    mem[EMAIL := address][PIN := pin]
  }

  function MailEvent(t: Texts, ctx: Ctx, mem: Mem): EventValue {
    EventValue(NoPayload.(email := Some(ctx.env.email(ctx.env.render(t.mail, mem)))), None)
  }

  function IssueEvent(t: Texts, ctx: Ctx, mem: Mem): EventValue {
    EventValue(NoPayload.(issuing := Some(Issuing(t.credDefID, ctx.env.render(t.attrs, mem)))), None)
  }

  /** A text of the table, rendered. */
  function Rendered(ctx: Ctx, text: string, mem: Mem): Option<EventValue> {
    Some(BasicEvent(ctx.env.render(text, mem)))
  }

  lemma MailBuild(t: Texts, ctx: Ctx, mem: Mem, st: Status, pins: nat -> string)
    requires st.protocol == BasicMessage
    ensures
      var tr := WaitingAddress(t).transitions[0];
      var m := Mailed(mem, st.content, pins(1));
      BuildFor(ctx, tr, mem, StatusEv(st), DefHeld(tr.sends), pins) ==
      Turn(m, [Rendered(ctx, t.thanks, mem[EMAIL := st.content]), Some(MailEvent(t, ctx, m))], true, None)
  {
    var tr := WaitingAddress(t).transitions[0];
    var prep := PrepareStatus(ctx, tr.trigger, mem, st);
    var saved, m := mem[EMAIL := st.content], Mailed(mem, st.content, pins(1));
    BuildPair(ctx, prep.input, pins, tr.sends[0], tr.sends[1], saved,
              saved, Rendered(ctx, t.thanks, saved), m, Some(MailEvent(t, ctx, m)));
  }

  lemma IssueBuild(t: Texts, ctx: Ctx, mem: Mem, st: Status, pins: nat -> string)
    requires st.protocol == BasicMessage
    ensures
      var tr := WaitingPIN(t).transitions[2];
      BuildFor(ctx, tr, mem, StatusEv(st), DefHeld(tr.sends), pins) ==
      Turn(mem, [Rendered(ctx, t.issuing, mem), Some(IssueEvent(t, ctx, mem))], true, None)
  {
    var tr := WaitingPIN(t).transitions[2];
    var prep := PrepareStatus(ctx, tr.trigger, mem, st);
    BuildPair(ctx, prep.input, pins, tr.sends[0], tr.sends[1], mem,
              mem, Rendered(ctx, t.issuing, mem), mem, Some(IssueEvent(t, ctx, mem)));
  }

  /** The machine goes on: transition i of its state says these events. */
  function Speaks(p: PState, i: nat, q: PState, held: Held): Outcome {
    Next(q, Fired(Place(p.current, i), held, true, None))
  }

  /** All that a call does to a machine that runs the table: it moves on exactly for a
      ready message, or, while it waits for its credential, for a ready issuing status; and
      this is what it then says. */
  function Reaction(t: Texts, ctx: Ctx, p: PState, c: Call): Outcome {
    if p.current == IDLE && Message(c.ev) then
      Speaks(p, 0, p.(current := WAITING_EMAIL_ADDRESS), [Some(BasicEvent(t.askEmail))])
    else if p.current == WAITING_EMAIL_ADDRESS && Message(c.ev) then
      var m := Mailed(p.mem, c.ev.status.content, c.pins(1));
      Speaks(p, 0, p.(current := WAITING_EMAIL_PIN, mem := m),
             [Rendered(ctx, t.thanks, p.mem[EMAIL := c.ev.status.content]), Some(MailEvent(t, ctx, m))])
    else if p.current == WAITING_EMAIL_PIN && Message(c.ev) then
      if c.ev.status.content == "reset" then
        Speaks(p, 0, p.(current := WAITING_EMAIL_ADDRESS), [Some(BasicEvent(t.askAgain))])
      else if c.ev.status.content != Get(p.mem, PIN) then Speaks(p, 1, p, [Rendered(ctx, t.incorrect, p.mem)])
      else
        Speaks(p, 2, p.(current := WAITING_ISSUING_STATUS),
               [Rendered(ctx, t.issuing, p.mem), Some(IssueEvent(t, ctx, p.mem))])
    else if p.current == WAITING_ISSUING_STATUS && Issued(c.ev) then
      Speaks(p, 0, p.(current := IDLE, mem := if p.reported then p.mem else map[], reported := true),
             [Rendered(ctx, t.bye, p.mem)])
    else Next(p, FsmSpec.Idle)
  }

  /** A step of the machine is this reaction; a question about anything but a proof moves nothing. */
  ghost predicate StepsTo(t: Texts, ctx: Ctx, p: PState, c: Call, o: Outcome) {
    if OddQuestion(c.ev) then Unmoved(p, o) else o == Reaction(t, ctx, p, c)
  }

  lemma IdleStep(t: Texts, ctx: Ctx, p: PState, file: Slots, c: Call)
    requires Pristine(Table(t), file) && p.current == IDLE
    ensures StepsTo(t, ctx, p, c, Handle(Table(t), ctx, p, file, c.ev, c.pins))
  {
    States(t);
    var tr := Idle(t).transitions[0];
    SelectOnly(ctx.env, tr, p.mem, c.ev);
    if OddQuestion(c.ev) {
      OddUnmoved(Table(t), ctx, p, file, c.ev, c.pins);
    } else if Message(c.ev) {
      SayBuild(ctx, tr, tr.sends[0], p.mem, c.ev.status, c.pins);
      HandlePicked(Table(t), ctx, p, file, c, 0, WAITING_EMAIL_ADDRESS, p.mem);
    } else {
      HandleUnpicked(Table(t), ctx, p, file, c);
    }
  }

  lemma AddressStep(t: Texts, ctx: Ctx, p: PState, file: Slots, c: Call)
    requires Pristine(Table(t), file) && p.current == WAITING_EMAIL_ADDRESS
    ensures StepsTo(t, ctx, p, c, Handle(Table(t), ctx, p, file, c.ev, c.pins))
  {
    States(t);
    SelectOnly(ctx.env, WaitingAddress(t).transitions[0], p.mem, c.ev);
    if OddQuestion(c.ev) {
      OddUnmoved(Table(t), ctx, p, file, c.ev, c.pins);
    } else if Message(c.ev) {
      MailBuild(t, ctx, p.mem, c.ev.status, c.pins);
      HandlePicked(Table(t), ctx, p, file, c, 0, WAITING_EMAIL_PIN, p.mem);
    } else {
      HandleUnpicked(Table(t), ctx, p, file, c);
    }
  }

  lemma PINSelect(t: Texts, env: Env, mem: Mem, ev: Ev)
    ensures
      Select(env, WaitingPIN(t).transitions, 0, mem, ev) ==
      if ev.StatusEv? && ev.status.protocol == BasicMessage then
        Selection(mem, if ev.status.content == "reset" then Pick(0, WAITING_EMAIL_ADDRESS)
                       else if ev.status.content != Get(mem, PIN) then Pick(1, WAITING_EMAIL_PIN)
                       else Pick(2, WAITING_ISSUING_STATUS))
      else if ev.QuestionEv? && ev.question.protocol == BasicMessage then SelectionCrash
      else Selection(mem, NoPick)
  {
    var trs := WaitingPIN(t).transitions;
    assert Select(env, trs, 3, mem, ev) == Selection(mem, NoPick);
    assert Select(env, trs, 2, mem, ev) ==
           if ev.StatusEv? && ev.status.protocol == BasicMessage then
             Selection(mem, if ev.status.content != Get(mem, PIN) then NoPick else Pick(2, WAITING_ISSUING_STATUS))
           else if ev.QuestionEv? && ev.question.protocol == BasicMessage then SelectionCrash
           else Selection(mem, NoPick);
    assert Select(env, trs, 1, mem, ev) ==
           if ev.StatusEv? && ev.status.protocol == BasicMessage then
             Selection(mem, if ev.status.content != Get(mem, PIN) then Pick(1, WAITING_EMAIL_PIN)
                            else Pick(2, WAITING_ISSUING_STATUS))
           else if ev.QuestionEv? && ev.question.protocol == BasicMessage then SelectionCrash
           else Selection(mem, NoPick);
  }

  /** The texts for "reset" and for a wrong PIN, and the credential for the right one. */
  lemma PINBuild(t: Texts, ctx: Ctx, mem: Mem, st: Status, pins: nat -> string, i: nat)
    requires st.protocol == BasicMessage && i < 3
    ensures
      var tr := WaitingPIN(t).transitions[i];
      BuildFor(ctx, tr, mem, StatusEv(st), DefHeld(tr.sends), pins) ==
      Turn(mem, if i == 0 then [Some(BasicEvent(t.askAgain))]
                else if i == 1 then [Rendered(ctx, t.incorrect, mem)]
                else [Rendered(ctx, t.issuing, mem), Some(IssueEvent(t, ctx, mem))], true, None)
  {
    var tr := WaitingPIN(t).transitions[i];
    if i < 2 {
      SayBuild(ctx, tr, tr.sends[0], mem, st, pins);
    } else {
      IssueBuild(t, ctx, mem, st, pins);
    }
  }

  lemma PINStep(t: Texts, ctx: Ctx, p: PState, file: Slots, c: Call)
    requires Pristine(Table(t), file) && p.current == WAITING_EMAIL_PIN
    ensures StepsTo(t, ctx, p, c, Handle(Table(t), ctx, p, file, c.ev, c.pins))
  {
    States(t);
    PINSelect(t, ctx.env, p.mem, c.ev);
    if OddQuestion(c.ev) {
      OddUnmoved(Table(t), ctx, p, file, c.ev, c.pins);
    } else if Message(c.ev) {
      var s := Select(ctx.env, WaitingPIN(t).transitions, 0, p.mem, c.ev);
      PINBuild(t, ctx, p.mem, c.ev.status, c.pins, s.pick.index);
      HandlePicked(Table(t), ctx, p, file, c, s.pick.index, s.pick.target, p.mem);
    } else {
      HandleUnpicked(Table(t), ctx, p, file, c);
    }
  }

  lemma IssuingStep(t: Texts, ctx: Ctx, p: PState, file: Slots, c: Call)
    requires Pristine(Table(t), file) && p.current == WAITING_ISSUING_STATUS
    ensures StepsTo(t, ctx, p, c, Handle(Table(t), ctx, p, file, c.ev, c.pins))
  {
    States(t);
    var tr := WaitingStatus(t).transitions[0];
    SelectOnly(ctx.env, tr, p.mem, c.ev);
    if OddQuestion(c.ev) {
      OddUnmoved(Table(t), ctx, p, file, c.ev, c.pins);
    } else if Issued(c.ev) {
      SayBuild(ctx, tr, tr.sends[0], p.mem, c.ev.status, c.pins);
      HandlePicked(Table(t), ctx, p, file, c, 0, IDLE, p.mem);
    } else {
      HandleUnpicked(Table(t), ctx, p, file, c);
    }
  }

  // ---------------------------------------------------------------- all runs

  /** Call j built the PIN mail. */
  ghost predicate BuildsMail(t: Texts, tr: Trace, j: nat)
    requires j < |tr.fires|
  {
    tr.fires[j].Fired? && tr.fires[j].place == Place(WAITING_EMAIL_ADDRESS, 0)
  }

  /** Call j built the latest PIN mail before point n, rendered from memory `mem`. */
  ghost predicate LatestMail(t: Texts, ctx: Ctx, tr: Trace, j: nat, n: nat, mem: Mem)
    requires |tr.fires| == |tr.calls| && j < n <= |tr.fires|
  {
    && BuildsMail(t, tr, j) && Message(tr.calls[j].ev)
    && |tr.fires[j].held| == 2 && tr.fires[j].held[1] == Some(MailEvent(t, ctx, mem))
    && Get(mem, EMAIL) == tr.calls[j].ev.status.content && Get(mem, PIN) == tr.calls[j].pins(1)
    && forall l :: j < l < n ==> !BuildsMail(t, tr, l)
  }

  ghost predicate Inv(t: Texts, ctx: Ctx, tr: Trace, n: nat)
    requires |tr.fires| == |tr.calls| && |tr.confs| == |tr.calls| + 1 && n < |tr.confs|
  {
    var p := tr.confs[n].p;
    && p.current in Table(t).states
    && (p.current == WAITING_EMAIL_PIN || p.current == WAITING_ISSUING_STATUS ==>
          exists j :: 0 <= j < n && LatestMail(t, ctx, tr, j, n, p.mem))
  }

  /** The sends that build mail and credentials hang where the names say. */
  lemma WhereSendsHang(t: Texts, s: string, i: nat, k: nat)
    requires s in Table(t).states && i < |Table(t).states[s].transitions|
    requires k < |Table(t).states[s].transitions[i].sends|
    ensures
      var d := Table(t).states[s].transitions[i].sends[k];
      && (d.protocol == Email <==> Place(s, i) == Place(WAITING_EMAIL_ADDRESS, 0) && k == 1)
      && (d.protocol == IssueCred <==> Place(s, i) == Place(WAITING_EMAIL_PIN, 2) && k == 1)
  {
  }

  /** All that one call can do, in terms of what is around it. */
  ghost predicate MayStep(t: Texts, ctx: Ctx, p: PState, c: Call, q: PState, fired: Fired) {
    || (fired.Idle? && q == p)
    || (fired.Fired? && p.current == IDLE && q.current == WAITING_EMAIL_ADDRESS && fired.place.state == IDLE)
    || (fired.Fired? && p.current == WAITING_EMAIL_ADDRESS && q.current == WAITING_EMAIL_PIN
        && fired.handled && Message(c.ev) && fired.place == Place(WAITING_EMAIL_ADDRESS, 0)
        && q.mem == Mailed(p.mem, c.ev.status.content, c.pins(1))
        && |fired.held| == 2 && fired.held[1] == Some(MailEvent(t, ctx, q.mem)))
    || (fired.Fired? && p.current == WAITING_EMAIL_PIN && fired.place.state == WAITING_EMAIL_PIN
        && (q.current == WAITING_EMAIL_ADDRESS || q.mem == p.mem)
        && q.current in {WAITING_EMAIL_ADDRESS, WAITING_EMAIL_PIN, WAITING_ISSUING_STATUS}
        && (fired.place.index == 2 ==>
              && fired.handled && Message(c.ev) && c.ev.status.content == Get(p.mem, PIN)
              && |fired.held| == 2 && fired.held[1] == Some(IssueEvent(t, ctx, p.mem))))
    || (fired.Fired? && p.current == WAITING_ISSUING_STATUS && q.current == IDLE
        && fired.place.state == WAITING_ISSUING_STATUS)
  }

  lemma HandleSteps(t: Texts, ctx: Ctx, p: PState, file: Slots, c: Call)
    requires Pristine(Table(t), file) && p.current in Table(t).states
    ensures StepsTo(t, ctx, p, c, Handle(Table(t), ctx, p, file, c.ev, c.pins))
  {
    States(t);
    if p.current == WAITING_EMAIL_ADDRESS {
      AddressStep(t, ctx, p, file, c);
    } else if p.current == WAITING_EMAIL_PIN {
      PINStep(t, ctx, p, file, c);
    } else if p.current == WAITING_ISSUING_STATUS {
      IssuingStep(t, ctx, p, file, c);
    } else {
      IdleStep(t, ctx, p, file, c);
    }
  }

  lemma ReactionMayStep(t: Texts, ctx: Ctx, p: PState, c: Call, o: Outcome)
    requires p.current in Table(t).states && StepsTo(t, ctx, p, c, o) && o.Next?
    ensures MayStep(t, ctx, p, c, o.p, o.fired)
  {
    States(t);
  }

  lemma HandleMayStep(t: Texts, ctx: Ctx, p: PState, file: Slots, c: Call)
    requires Pristine(Table(t), file) && p.current in Table(t).states
    ensures var o := Handle(Table(t), ctx, p, file, c.ev, c.pins); o.Next? ==> MayStep(t, ctx, p, c, o.p, o.fired)
  {
    var o := Handle(Table(t), ctx, p, file, c.ev, c.pins);
    HandleSteps(t, ctx, p, file, c);
    if o.Next? {
      ReactionMayStep(t, ctx, p, c, o);
    }
  }

  lemma SameMayStep(t: Texts, ctx: Ctx, p: PState, c: Call, seen: Outcome, pure: Outcome)
    requires SameOutcome(seen, pure) && pure.Next? && MayStep(t, ctx, p, c, pure.p, pure.fired)
    ensures seen.Next? && MayStep(t, ctx, p, c, seen.p, seen.fired)
  {
  }

  lemma CallMaySteps(t: Texts, ctx: Ctx, tr: Trace, n: nat)
    requires IsTrace(Table(t), ctx, tr) && n < |tr.calls|
    requires tr.confs[n].p.current in Table(t).states
    ensures MayStep(t, ctx, tr.confs[n].p, tr.calls[n], tr.confs[n + 1].p, tr.fires[n])
  {
    var p, c, file := tr.confs[n].p, tr.calls[n], tr.confs[0].slots;
    TraceStepIsPure(Table(t), ctx, tr, n);
    HandleMayStep(t, ctx, p, file, c);
    SameMayStep(t, ctx, p, c, Next(tr.confs[n + 1].p, tr.fires[n]), Handle(Table(t), ctx, p, file, c.ev, c.pins));
  }

  lemma InvStep(t: Texts, ctx: Ctx, tr: Trace, n: nat)
    requires |tr.fires| == |tr.calls| && |tr.confs| == |tr.calls| + 1 && n < |tr.calls|
    requires Inv(t, ctx, tr, n)
    requires MayStep(t, ctx, tr.confs[n].p, tr.calls[n], tr.confs[n + 1].p, tr.fires[n])
    ensures Inv(t, ctx, tr, n + 1)
  {
    States(t);
    var p, q := tr.confs[n].p, tr.confs[n + 1].p;
    if q.current == WAITING_EMAIL_PIN || q.current == WAITING_ISSUING_STATUS {
      if p.current == WAITING_EMAIL_ADDRESS {
        assert LatestMail(t, ctx, tr, n, n + 1, q.mem);
      } else {
        var j :| 0 <= j < n && LatestMail(t, ctx, tr, j, n, p.mem);
        assert LatestMail(t, ctx, tr, j, n + 1, q.mem);
      }
    }
  }

  lemma {:induction false} InvHolds(t: Texts, ctx: Ctx, tr: Trace, n: nat)
    requires IsTrace(Table(t), ctx, tr) && n < |tr.confs|
    ensures Inv(t, ctx, tr, n)
  {
    States(t);
    if n > 0 {
      InvHolds(t, ctx, tr, n - 1);
      CallMaySteps(t, ctx, tr, n - 1);
      InvStep(t, ctx, tr, n - 1);
    }
  }

  /** Call k built an event for a send of the protocol, as send i of its list. */
  ghost predicate Builds(t: Texts, tr: Trace, k: nat, i: nat, protocol: Protocol)
    requires k < |tr.fires|
  {
    && tr.fires[k].Fired? && tr.fires[k].handled
    && tr.fires[k].place.state in Table(t).states
    && tr.fires[k].place.index < |Table(t).states[tr.fires[k].place.state].transitions|
    && i < |Table(t).states[tr.fires[k].place.state].transitions[tr.fires[k].place.index].sends|
    && i < |tr.fires[k].held|
    && Table(t).states[tr.fires[k].place.state].transitions[tr.fires[k].place.index].sends[i].protocol == protocol
  }

  /** Over every run: a credential is built only on a message that repeats the PIN of
      the latest PIN mail, and it is rendered from the very memory that mail was
      rendered from: the address in it is the one the mail went to. */
  lemma CredentialOnlyForMailedPIN(t: Texts, ctx: Ctx, tr: Trace, k: nat, i: nat) returns (j: nat, mem: Mem)
    requires IsTrace(Table(t), ctx, tr) && k < |tr.calls| && Builds(t, tr, k, i, IssueCred)
    ensures j < k && Message(tr.calls[j].ev) && Message(tr.calls[k].ev)
    // call j mailed a fresh PIN to the address that its message gave
    ensures Builds(t, tr, j, 1, Email) && tr.fires[j].held[1] == Some(MailEvent(t, ctx, mem))
    ensures Get(mem, EMAIL) == tr.calls[j].ev.status.content && Get(mem, PIN) == tr.calls[j].pins(1)
    // no mail was built since
    ensures forall l, m :: j < l < k ==> !Builds(t, tr, l, m, Email)
    // call k gave the PIN back, and the credential is about the same memory
    ensures tr.calls[k].ev.status.content == tr.calls[j].pins(1)
    ensures tr.fires[k].held[i] == Some(IssueEvent(t, ctx, mem))
  {
    States(t);
    InvHolds(t, ctx, tr, k);
    CallMaySteps(t, ctx, tr, k);
    WhereSendsHang(t, tr.fires[k].place.state, tr.fires[k].place.index, i);
    var p := tr.confs[k].p;
    j :| 0 <= j < k && LatestMail(t, ctx, tr, j, k, p.mem);
    mem := p.mem;
    InvHolds(t, ctx, tr, j);
    CallMaySteps(t, ctx, tr, j);
    forall l, m | j < l < k && Builds(t, tr, l, m, Email) ensures false {
      WhereSendsHang(t, tr.fires[l].place.state, tr.fires[l].place.index, m);
      assert BuildsMail(t, tr, l);
    }
  }

  lemma TargetsDeclared(t: Texts)
    ensures ClosedTargets(Table(t))
  {
    States(t);
  }

  /** The table declares its targets and leaves TARGET alone, whatever scripts would do. */
  lemma SafeIssuer(t: Texts, env: Env)
    ensures Table(t).initialTarget in Table(t).states && ClosedTargets(Table(t)) && SafeTable(Table(t), env)
  {
    States(t);
    TargetsDeclared(t);
    OtherRegisters();
  }

  lemma UndemandingIssuer(t: Texts)
    ensures UndemandingTable(Table(t))
  {
    States(t);
  }

  lemma NeverMeets(t: Texts, env: Env, p: PState, ev: Ev)
    requires p.current in Table(t).states && !OddQuestion(ev)
    ensures !MeetsUnreadable(env, Table(t).states[p.current].transitions, 0, p.mem, ev)
  {
    States(t);
  }

  /** At no point of any run does a call fail: not for want of a state, and not in a search
      or a build. */
  lemma NeverFails(t: Texts, ctx: Ctx, tr: Trace, n: nat, call: Call)
    requires IsTrace(Table(t), ctx, tr) && n < |tr.confs| && !OddQuestion(call.ev)
    ensures Shaped(Table(t), tr.confs[n].slots)
    ensures Handle(Table(t), ctx, tr.confs[n].p, tr.confs[n].slots, call.ev, call.pins).Next?
  {
    SafeIssuer(t, ctx.env);
    UndemandingIssuer(t);
    FailsOnlyInSearch(Table(t), ctx, tr, n, call);
    NeverMeets(t, ctx.env, tr.confs[n].p, call.ev);
  }

  /** What the machine does with any event, on a table that has been through any history. */
  lemma Reacts(t: Texts, ctx: Ctx, p: PState, slots: Slots, file: Slots, c: Call)
    requires ctx.mtype.Conversation? && TableSettled(Table(t), ctx, slots) && Pristine(Table(t), file)
    requires p.current in Table(t).states && !OddQuestion(c.ev)
    ensures Handle(Table(t), ctx, p, slots, c.ev, c.pins) == Reaction(t, ctx, p, c)
  {
    HandlePure(Table(t), ctx, p, slots, file, c.ev, c.pins);
    HandleSteps(t, ctx, p, file, c);
    SameReaction(t, ctx, p, c, Handle(Table(t), ctx, p, slots, c.ev, c.pins));
  }

  lemma SameReaction(t: Texts, ctx: Ctx, p: PState, c: Call, o: Outcome)
    requires SameOutcome(o, Reaction(t, ctx, p, c))
    ensures o == Reaction(t, ctx, p, c)
  {
  }

  /** At every point of every run: which events fire, which transition, what is then held and
      kept in memory, and where the machine goes. */
  lemma RunReacts(t: Texts, ctx: Ctx, tr: Trace, n: nat, call: Call)
    requires IsTrace(Table(t), ctx, tr) && n < |tr.confs| && !OddQuestion(call.ev)
    ensures Shaped(Table(t), tr.confs[n].slots)
    ensures Handle(Table(t), ctx, tr.confs[n].p, tr.confs[n].slots, call.ev, call.pins) ==
            Reaction(t, ctx, tr.confs[n].p, call)
  {
    States(t);
    RunStaysInTable(Table(t), ctx, tr, n);
    TraceSettled(Table(t), ctx, tr, n);
    Reacts(t, ctx, tr.confs[n].p, tr.confs[n].slots, tr.confs[0].slots, call);
  }
}
