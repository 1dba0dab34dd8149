/** What the agency is told by conversations that run the two shipped tables. */
module ShippedChats {
  import opened Wrappers
  import opened FsmTypes
  import opened FsmSpec
  import opened InPlace
  import opened ChatSpec
  import opened Traces
  import opened Failures
  import opened OwnMessages
  import opened Dialogue
  import Issuer = EmailIssuer
  import Req = ReqProof

  /** The calls of one list, with nothing to the broker and no step. */
  function Only(calls: seq<ServerCall>, registered: seq<string>): Effects {
    Effects(calls, registered, [], [])
  }

  function Say(text: string, id: string): Effects {
    Only([BMCall(text, id)], [id])
  }

  lemma SendsSingle(d: SendDef, e: Option<EventValue>, hasStatus: bool, ids: nat -> string)
    ensures SendFrom([d], [e], 0, hasStatus, ids, Nothing) == SendOne(d, e, 0, hasStatus, ids(0), Nothing)
  {
    var next := SendOne(d, e, 0, hasStatus, ids(0), Nothing);
    if next.Some? {
      assert SendFrom([d], [e], 1, hasStatus, ids, next.value) == next;
    }
  }

  lemma SendsPair(d0: SendDef, d1: SendDef, e0: Option<EventValue>, e1: Option<EventValue>, hasStatus: bool,
                  ids: nat -> string)
    ensures
      SendFrom([d0, d1], [e0, e1], 0, hasStatus, ids, Nothing) ==
      match SendOne(d0, e0, 0, hasStatus, ids(0), Nothing)
      case None => None
      case Some(next) => SendOne(d1, e1, 1, hasStatus, ids(1), next)
  {
    match SendOne(d0, e0, 0, hasStatus, ids(0), Nothing)
    case None =>
    case Some(next) =>
      var last := SendOne(d1, e1, 1, hasStatus, ids(1), next);
      assert SendFrom([d0, d1], [e0, e1], 1, hasStatus, ids, next) ==
             if last.None? then None else SendFrom([d0, d1], [e0, e1], 2, hasStatus, ids, last.value);
  }

  lemma SaysOne(d: SendDef, text: string, ids: nat -> string)
    requires d.protocol == BasicMessage
    ensures SendFrom([d], [Some(BasicEvent(text))], 0, true, ids, Nothing) == Some(Say(text, ids(0)))
  {
    SendsSingle(d, Some(BasicEvent(text)), true, ids);
    assert [] + [BMCall(text, ids(0))] == [BMCall(text, ids(0))] && [] + [ids(0)] == [ids(0)];
  }

  /** A text, and behind it a mail or a credential. */
  lemma SaysTwo(d0: SendDef, d1: SendDef, text: string, e1: EventValue, call: ServerCall, ids: nat -> string)
    requires d0.protocol == BasicMessage
    requires
      || (d1.protocol == Email && e1.payload.email.Some? && call == EmailCall(e1.payload.email.value))
      || (d1.protocol == IssueCred && e1.payload.issuing.Some? && call == IssueCall(e1.payload.issuing.value, ids(1)))
    ensures SendFrom([d0, d1], [Some(BasicEvent(text)), Some(e1)], 0, true, ids, Nothing) ==
            Some(Only([BMCall(text, ids(0)), call], [ids(0)]))
  {
    SendsPair(d0, d1, Some(BasicEvent(text)), Some(e1), true, ids);
    assert [] + [BMCall(text, ids(0))] + [call] == [BMCall(text, ids(0)), call] && [] + [ids(0)] == [ids(0)];
  }

  // ---------------------------------------------------------------- the issuer

  /** What the issuer says when it is handed a call. */
  function IssuerSays(t: Issuer.Texts, ctx: Ctx, p: PState, c: Call, ids: nat -> string): Effects {
    if p.current == Issuer.WAITING_ISSUING_STATUS then
      if Issuer.Issued(c.ev) then Say(ctx.env.render(t.bye, p.mem), ids(0)) else Nothing
    else if !Issuer.Message(c.ev) then Nothing
    else if p.current == Issuer.IDLE then Say(t.askEmail, ids(0))
    else
      var text := c.ev.status.content;
      if p.current == Issuer.WAITING_EMAIL_ADDRESS then
        var m := p.mem[Issuer.EMAIL := text];
        Only([BMCall(ctx.env.render(t.thanks, m), ids(0)),
              EmailCall(ctx.env.email(ctx.env.render(t.mail, m[PIN := c.pins(1)])))], [ids(0)])
      else if text == "reset" then Say(t.askAgain, ids(0))
      else if text != Get(p.mem, PIN) then Say(ctx.env.render(t.incorrect, p.mem), ids(0))
      else
        Only([BMCall(ctx.env.render(t.issuing, p.mem), ids(0)),
              IssueCall(Issuing(t.credDefID, ctx.env.render(t.attrs, p.mem)), ids(1))], [ids(0)])
  }

  /** The machine moves on as its table says, and the agency is told this. */
  ghost predicate Goes(chat: Chat, reaction: Outcome, says: Effects, o: ChatOutcome) {
    && reaction.Next? && o.ChatNext? && o.chat.p == reaction.p && o.eff == says
    && o.chat.last == chat.last + Ids(says.registered)
  }

  lemma IssuerSends(t: Issuer.Texts, ctx: Ctx, p: PState, c: Call, ids: nat -> string)
    requires p.current in Issuer.Table(t).states && !OddQuestion(c.ev)
    ensures
      var o := Issuer.Reaction(t, ctx, p, c);
      && o.Next?
      && if o.fired.Idle? then IssuerSays(t, ctx, p, c, ids) == Nothing
         else
           && o.fired.handled && o.fired.place.index < |Issuer.Table(t).states[p.current].transitions|
           && var sends := Issuer.Table(t).states[p.current].transitions[o.fired.place.index].sends;
              |sends| == |o.fired.held|
              && SendFrom(sends, o.fired.held, 0, true, ids, Nothing) == Some(IssuerSays(t, ctx, p, c, ids))
  {
    Issuer.States(t);
    var o := Issuer.Reaction(t, ctx, p, c);
    if o.fired.Fired? {
      var sends, held := Issuer.Table(t).states[p.current].transitions[o.fired.place.index].sends, o.fired.held;
      var text := held[0].value.payload.basic.value;
      if |held| == 1 {
        SaysOne(sends[0], text, ids);
      } else if p.current == Issuer.WAITING_EMAIL_ADDRESS {
        SaysTwo(sends[0], sends[1], text, held[1].value, EmailCall(held[1].value.payload.email.value), ids);
      } else {
        SaysTwo(sends[0], sends[1], text, held[1].value, IssueCall(held[1].value.payload.issuing.value, ids(1)), ids);
      }
    }
  }

  /** One event handed to an issuer, on a table that has been through any history. */
  lemma IssuerDelivers(t: Issuer.Texts, ctx: Ctx, chat: Chat, file: Slots, ev: Ev, pins: nat -> string,
                       ids: nat -> string)
    requires ctx.mtype.Conversation? && TableSettled(Issuer.Table(t), ctx, chat.slots)
    requires Pristine(Issuer.Table(t), file) && chat.p.current in Issuer.Table(t).states && !OddQuestion(ev)
    ensures Goes(chat, Issuer.Reaction(t, ctx, chat.p, Call(ev, pins)),
                 IssuerSays(t, ctx, chat.p, Call(ev, pins), ids),
                 Deliver(Issuer.Table(t), ctx, chat, ev, pins, ids))
  {
    Issuer.Reacts(t, ctx, chat.p, chat.slots, file, Call(ev, pins));
    IssuerSends(t, ctx, chat.p, Call(ev, pins), ids);
  }

  // ----------------------------------------------------------- the proof machine

  /** What the proof machine says when it is handed a call. */
  function ReqSays(t: Req.Texts, ctx: Ctx, p: PState, c: Call, ids: nat -> string): Effects {
    if p.current == Req.INITIAL && Req.Ready(c.ev, Connection) then Say(t.greeting, ids(0))
    else if p.current == Req.INITIAL && Req.Ready(c.ev, BasicMessage) then Only([ProofCall(t.wanted, ids(0))], [])
    else if p.current == Req.WAITING_EMAIL_PROOF_QA && Req.Ready(c.ev, BasicMessage) &&
        c.ev.status.content == "reset" then
      Say(t.again, ids(0))
    else if p.current == Req.WAITING_EMAIL_PROOF_QA && (Req.AsksProof(c.ev) || Req.Ready(c.ev, PresentProof)) then
      Only([ReplyCall(Req.Accepts(t, c.ev))], [])
    else if p.current == Req.WAITING2_EMAIL_PROOF && Req.Ready(c.ev, PresentProof) then
      Say(ctx.env.render(t.trust, p.mem), ids(0))
    else if p.current == Req.WAITING_NEXT_CMD && Req.Ready(c.ev, BasicMessage) then
      var text := c.ev.status.content;
      Say(if text == "reset" then t.beginning else ctx.env.render(t.says, p.mem[Req.LINE := text]), ids(0))
    else Nothing
  }

  lemma AsksOne(d: SendDef, e: EventValue, ids: nat -> string)
    requires d.protocol == PresentProof && e.payload.proof.Some?
    ensures SendFrom([d], [Some(e)], 0, true, ids, Nothing) ==
            Some(Only([ProofCall(e.payload.proof.value, ids(0))], []))
  {
    SendsSingle(d, Some(e), true, ids);
    var call := ProofCall(e.payload.proof.value, ids(0));
    assert [] + [call] == [call];
  }

  lemma RepliesOne(d: SendDef, ids: nat -> string)
    requires d.protocol == Answer
    ensures SendFrom([d], [None], 0, true, ids, Nothing) == Some(Only([ReplyCall(d.data == "ACK")], []))
  {
    SendsSingle(d, None, true, ids);
    var call := ReplyCall(d.data == "ACK");
    assert [] + [call] == [call];
  }

  lemma ReqSends(t: Req.Texts, ctx: Ctx, p: PState, c: Call, ids: nat -> string)
    requires p.current in Req.Table(t).states && !OddQuestion(c.ev) && !Req.QuestionWhileProving(ctx.env, p, c.ev)
    ensures
      var o := Req.Reaction(t, ctx, p, c);
      && o.Next?
      && if o.fired.Idle? then ReqSays(t, ctx, p, c, ids) == Nothing
         else
           && o.fired.handled && o.fired.place.index < |Req.Table(t).states[p.current].transitions|
           && var sends := Req.Table(t).states[p.current].transitions[o.fired.place.index].sends;
              |sends| == |o.fired.held|
              && SendFrom(sends, o.fired.held, 0, true, ids, Nothing) == Some(ReqSays(t, ctx, p, c, ids))
  {
    Req.States(t);
    var o := Req.Reaction(t, ctx, p, c);
    if o.fired.Fired? {
      var d, e := Req.Table(t).states[p.current].transitions[o.fired.place.index].sends[0], o.fired.held[0];
      if d.protocol == Answer {
        RepliesOne(d, ids);
      } else if d.protocol == PresentProof {
        AsksOne(d, e.value, ids);
      } else {
        SaysOne(d, e.value.payload.basic.value, ids);
      }
    }
  }

  /** One event handed to a proof machine, on a table that has been through any history. */
  lemma ReqDelivers(t: Req.Texts, ctx: Ctx, chat: Chat, file: Slots, ev: Ev, pins: nat -> string, ids: nat -> string)
    requires ctx.mtype.Conversation? && TableSettled(Req.Table(t), ctx, chat.slots) && Pristine(Req.Table(t), file)
    requires chat.p.current in Req.Table(t).states && !OddQuestion(ev) && Req.ReadsWanted(t, ctx.env)
    ensures
      var o := Deliver(Req.Table(t), ctx, chat, ev, pins, ids);
      if Req.QuestionWhileProving(ctx.env, chat.p, ev) then o == ChatCrash
      else Goes(chat, Req.Reaction(t, ctx, chat.p, Call(ev, pins)), ReqSays(t, ctx, chat.p, Call(ev, pins), ids), o)
  {
    Req.Reacts(t, ctx, chat.p, chat.slots, file, Call(ev, pins));
    if !Req.QuestionWhileProving(ctx.env, chat.p, ev) {
      ReqSends(t, ctx, chat.p, Call(ev, pins), ids);
    }
  }

  // ---------------------------------------------------------------- whole lives

  lemma StartSends(def: MachineDef, ctx: Ctx, file: Slots, d: SendDef, pins: nat -> string, ids: nat -> string)
    requires def.initialSends == [d] && d.protocol == BasicMessage && d.rule == DataAsIs
    requires def.initialTarget in def.states
    ensures OpenChat(def, ctx, file, pins, ids) ==
            ChatNext(Chat(PState(def.initialTarget, map[], false, 0), file, {ids(0)}), Say(d.data, ids(0)), Idle)
  {
    BuildSingle(ctx, NoInput, pins, d, map[], map[], Some(BasicEvent(d.data)));
    SendsSingle(d, Some(BasicEvent(d.data)), false, ids);
    assert [] + [BMCall(d.data, ids(0))] == [BMCall(d.data, ids(0))] && [] + [ids(0)] == [ids(0)];
  }

  /** No handed event is a question about anything but a proof. */
  ghost predicate OnlyProofQuestions(h: History) {
    forall n :: 0 <= n < |h.moves| ==> h.moves[n].EventOf? ==> !OddQuestion(h.moves[n].ev)
  }

  ghost predicate StaysAt(def: MachineDef, h: History, n: nat)
    requires n + 1 < |h.chats|
  {
    h.chats[n].p.current in def.states ==> h.chats[n + 1].p.current in def.states
  }

  lemma {:induction false} StaysIn(def: MachineDef, h: History, n: nat)
    requires n < |h.chats| == |h.moves| + 1 && h.chats[0].p.current in def.states
    requires forall k :: 0 <= k < |h.moves| ==> StaysAt(def, h, k)
    ensures h.chats[n].p.current in def.states
  {
    if n > 0 {
      StaysIn(def, h, n - 1);
      assert StaysAt(def, h, n - 1);
    }
  }

  /** The life of an issuer, in words: it says hello, and then, at each move, exactly what
      its table answers to what gets to its machine. */
  ghost predicate IssuerTold(t: Issuer.Texts, ctx: Ctx, h: History, n: nat, pins: nat -> string, ids: nat -> string)
    requires n < |h.moves| && |h.chats| == |h.effs| == |h.moves| + 1
  {
    var p, ev := h.chats[n].p, EvOf(ctx, h.chats[n], h.moves[n]);
    if ev.None? then h.effs[n + 1] == Nothing && h.chats[n + 1].p == p
    else
      var o := Issuer.Reaction(t, ctx, p, Call(ev.value, pins));
      o.Next? && h.chats[n + 1].p == o.p && h.effs[n + 1] == IssuerSays(t, ctx, p, Call(ev.value, pins), ids)
  }

  lemma IssuerMove(t: Issuer.Texts, ctx: Ctx, h: History, n: nat) returns (pins: nat -> string, ids: nat -> string)
    requires ctx.mtype.Conversation? && IsHistory(Issuer.Table(t), ctx, h) && FromFile(Issuer.Table(t), h)
    requires n < |h.moves| && OnlyProofQuestions(h) && h.chats[n].p.current in Issuer.Table(t).states
    ensures IssuerTold(t, ctx, h, n, pins, ids)
  {
    var chat, ev := h.chats[n], EvOf(ctx, h.chats[n], h.moves[n]);
    HistorySettled(Issuer.Table(t), ctx, h, n);
    pins, ids := MoveDelivers(Issuer.Table(t), ctx, h, n);
    if ev.Some? {
      IssuerDelivers(t, ctx, chat, h.chats[0].slots, ev.value, pins, ids);
    }
  }

  lemma IssuerStays(t: Issuer.Texts, ctx: Ctx, p: PState, c: Call)
    requires p.current in Issuer.Table(t).states
    ensures var o := Issuer.Reaction(t, ctx, p, c); o.Next? ==> o.p.current in Issuer.Table(t).states
  {
    Issuer.States(t);
  }

  lemma IssuerToldStays(t: Issuer.Texts, ctx: Ctx, h: History, n: nat, pins: nat -> string, ids: nat -> string)
    requires n < |h.moves| && |h.chats| == |h.effs| == |h.moves| + 1
    requires IssuerTold(t, ctx, h, n, pins, ids) && h.chats[n].p.current in Issuer.Table(t).states
    ensures h.chats[n + 1].p.current in Issuer.Table(t).states
  {
    var ev := EvOf(ctx, h.chats[n], h.moves[n]);
    if ev.Some? {
      IssuerStays(t, ctx, h.chats[n].p, Call(ev.value, pins));
    }
  }

  lemma IssuerInTable(t: Issuer.Texts, ctx: Ctx, h: History, n: nat)
    requires ctx.mtype.Conversation? && IsHistory(Issuer.Table(t), ctx, h) && FromFile(Issuer.Table(t), h)
    requires n < |h.chats| && OnlyProofQuestions(h)
    ensures h.chats[n].p.current in Issuer.Table(t).states
  {
    IssuerHello(t, ctx, h);
    Issuer.States(t);
    forall k | 0 <= k < |h.moves| ensures StaysAt(Issuer.Table(t), h, k) {
      if h.chats[k].p.current in Issuer.Table(t).states {
        var pins, ids := IssuerMove(t, ctx, h, k);
        IssuerToldStays(t, ctx, h, k, pins, ids);
      }
    }
    StaysIn(Issuer.Table(t), h, n);
  }

  lemma IssuerHello(t: Issuer.Texts, ctx: Ctx, h: History)
    requires IsHistory(Issuer.Table(t), ctx, h)
    ensures h.chats[0].p.current == Issuer.IDLE && exists id :: h.effs[0] == Say(t.hello, id)
  {
    Issuer.States(t);
    var def := Issuer.Table(t);
    var pins, ids :| Opens(def, ctx, h.chats[0], h.effs[0], pins, ids);
    StartSends(def, ctx, h.chats[0].slots, def.initialSends[0], pins, ids);
  }

  lemma IssuerTells(t: Issuer.Texts, ctx: Ctx, h: History, n: nat) returns (pins: nat -> string, ids: nat -> string)
    requires ctx.mtype.Conversation? && IsHistory(Issuer.Table(t), ctx, h) && FromFile(Issuer.Table(t), h)
    requires n < |h.moves| && OnlyProofQuestions(h)
    ensures (exists id :: h.effs[0] == Say(t.hello, id)) && IssuerTold(t, ctx, h, n, pins, ids)
  {
    IssuerHello(t, ctx, h);
    IssuerInTable(t, ctx, h, n);
    pins, ids := IssuerMove(t, ctx, h, n);
  }

  /** The life of a proof machine, in words. */
  ghost predicate ReqTold(t: Req.Texts, ctx: Ctx, h: History, n: nat, pins: nat -> string, ids: nat -> string)
    requires n < |h.moves| && |h.chats| == |h.effs| == |h.moves| + 1
  {
    var p, ev := h.chats[n].p, EvOf(ctx, h.chats[n], h.moves[n]);
    if ev.None? then h.effs[n + 1] == Nothing && h.chats[n + 1].p == p
    else
      var o := Req.Reaction(t, ctx, p, Call(ev.value, pins));
      o.Next? && h.chats[n + 1].p == o.p && h.effs[n + 1] == ReqSays(t, ctx, p, Call(ev.value, pins), ids)
  }

  lemma ReqMove(t: Req.Texts, ctx: Ctx, h: History, n: nat) returns (pins: nat -> string, ids: nat -> string)
    requires ctx.mtype.Conversation? && IsHistory(Req.Table(t), ctx, h) && FromFile(Req.Table(t), h)
    requires n < |h.moves| && OnlyProofQuestions(h) && Req.ReadsWanted(t, ctx.env)
    requires h.chats[n].p.current in Req.Table(t).states
    ensures ReqTold(t, ctx, h, n, pins, ids)
  {
    var chat, ev := h.chats[n], EvOf(ctx, h.chats[n], h.moves[n]);
    HistorySettled(Req.Table(t), ctx, h, n);
    pins, ids := MoveDelivers(Req.Table(t), ctx, h, n);
    if ev.Some? {
      ReqDelivers(t, ctx, chat, h.chats[0].slots, ev.value, pins, ids);
    }
  }

  lemma ReqHello(t: Req.Texts, ctx: Ctx, h: History)
    requires IsHistory(Req.Table(t), ctx, h)
    ensures h.chats[0].p.current == Req.INITIAL && exists id :: h.effs[0] == Say(t.hello, id)
  {
    Req.States(t);
    var def := Req.Table(t);
    var pins, ids :| Opens(def, ctx, h.chats[0], h.effs[0], pins, ids);
    StartSends(def, ctx, h.chats[0].slots, def.initialSends[0], pins, ids);
  }

  lemma ReqStays(t: Req.Texts, ctx: Ctx, p: PState, c: Call)
    requires p.current in Req.Table(t).states
    ensures var o := Req.Reaction(t, ctx, p, c); o.Next? ==> o.p.current in Req.Table(t).states
  {
    Req.States(t);
  }

  lemma ReqToldStays(t: Req.Texts, ctx: Ctx, h: History, n: nat, pins: nat -> string, ids: nat -> string)
    requires n < |h.moves| && |h.chats| == |h.effs| == |h.moves| + 1
    requires ReqTold(t, ctx, h, n, pins, ids) && h.chats[n].p.current in Req.Table(t).states
    ensures h.chats[n + 1].p.current in Req.Table(t).states
  {
    var ev := EvOf(ctx, h.chats[n], h.moves[n]);
    if ev.Some? {
      ReqStays(t, ctx, h.chats[n].p, Call(ev.value, pins));
    }
  }

  lemma ReqInTable(t: Req.Texts, ctx: Ctx, h: History, n: nat)
    requires ctx.mtype.Conversation? && IsHistory(Req.Table(t), ctx, h) && FromFile(Req.Table(t), h)
    requires n < |h.chats| && OnlyProofQuestions(h) && Req.ReadsWanted(t, ctx.env)
    ensures h.chats[n].p.current in Req.Table(t).states
  {
    ReqHello(t, ctx, h);
    Req.States(t);
    forall k | 0 <= k < |h.moves| ensures StaysAt(Req.Table(t), h, k) {
      if h.chats[k].p.current in Req.Table(t).states {
        var pins, ids := ReqMove(t, ctx, h, k);
        ReqToldStays(t, ctx, h, k, pins, ids);
      }
    }
    StaysIn(Req.Table(t), h, n);
  }

  lemma ReqTells(t: Req.Texts, ctx: Ctx, h: History, n: nat) returns (pins: nat -> string, ids: nat -> string)
    requires ctx.mtype.Conversation? && IsHistory(Req.Table(t), ctx, h) && FromFile(Req.Table(t), h)
    requires n < |h.moves| && OnlyProofQuestions(h) && Req.ReadsWanted(t, ctx.env)
    ensures (exists id :: h.effs[0] == Say(t.hello, id)) && ReqTold(t, ctx, h, n, pins, ids)
  {
    ReqHello(t, ctx, h);
    ReqInTable(t, ctx, h, n);
    pins, ids := ReqMove(t, ctx, h, n);
  }

  /** Over every life of a proof machine: while it waits for the proof, a question is answered
      with yes if it presents exactly the wanted attribute of the demanded definition, and with
      no otherwise. */
  lemma RepliesRight(t: Req.Texts, ctx: Ctx, h: History, n: nat, q: Question)
    requires ctx.mtype.Conversation? && IsHistory(Req.Table(t), ctx, h) && FromFile(Req.Table(t), h)
    requires n < |h.moves| && OnlyProofQuestions(h) && Req.ReadsWanted(t, ctx.env)
    requires h.chats[n].p.current == Req.WAITING_EMAIL_PROOF_QA
    requires h.moves[n] == EventOf(QuestionEv(q)) && q.protocol == PresentProof
    ensures h.effs[n + 1].calls == [ReplyCall(true)] || h.effs[n + 1].calls == [ReplyCall(false)]
    ensures h.effs[n + 1].calls == [ReplyCall(true)] <==>
            exists value :: q.presented == [ProofAttr(Req.EMAIL, t.credDefID, value)]
  {
    var pins, ids := ReqTells(t, ctx, h, n);
    if Req.Accepts(t, QuestionEv(q)) {
      assert q.presented == [ProofAttr(Req.EMAIL, t.credDefID, q.presented[0].value)];
    }
    assert h.effs[n + 1].calls == [ReplyCall(Req.Accepts(t, QuestionEv(q)))];
    assert [ReplyCall(true)][0] != [ReplyCall(false)][0];
  }
}
