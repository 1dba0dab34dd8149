/**
 Every build writes event data back into the machine's own table, and the next
 build reads it there. This module proves that, for conversation machines on
 every input, and for the broker on messages with a connection id and a session
 id, the result is the one a builder would give that reads only the table file.
 */
module InPlace {
  import opened Wrappers
  import opened FsmTypes
  import opened FsmSpec

  // ------------------------------------------------------------- one send

  /** A build of this send replaces its event data without reading it. */
  predicate Overwrites(d: SendDef) {
    match d.protocol
    case PresentProof => d.rule == DataAsIs
    case Email => d.rule == GenPIN
    case BasicMessage => d.rule in {UseInput, DataAsIs, Format, FormatFromMem, Lua}
    case Hook => d.rule in {DataAsIs, UseInput, Format, FormatFromMem}
    case Transient => d.rule == TransientRule
    case _ => false
  }

  function PresetCredDef(cur: Option<EventValue>): Option<string> {
    if cur.Some? && cur.value.payload.issuing.Some? then Some(cur.value.payload.issuing.value.credDefID) else None
  }

  /** The id a conversation's backend send goes out under. */
  function OwnConnID(ctx: Ctx, d: SendDef): string {
    var preset := Base(d.eventData).backend.value.connID;
    if preset != "" then preset else ctx.connID
  }

  /** What a send may hold between two builds. */
  ghost predicate Settled(ctx: Ctx, d: SendDef, cur: Option<EventValue>) {
    || cur == d.eventData
    || Overwrites(d)
    || (d.protocol == IssueCred && d.rule == FormatFromMem && PresetCredDef(cur) == PresetCredDef(d.eventData))
    || (d.protocol == Backend && cur.Some? && cur.value.backend.Some? && SettledMessage(ctx, d, cur.value))
  }

  ghost predicate SettledMessage(ctx: Ctx, d: SendDef, e: EventValue)
    requires e.backend.Some?
  {
    var base := Base(d.eventData);
    && e.payload == base.payload
    && e.backend.value.subject == base.backend.value.subject
    && (ctx.mtype.Conversation? ==> e.backend.value.connID == OwnConnID(ctx, d))
  }

  function IncomingOf(input: Input): Option<BackendMsg> {
    if input.Input? && input.eventData.Some? then input.eventData.value.backend else None
  }

  /** Conversations never see a message object in an input; see PrepareForm. */
  predicate InputFits(ctx: Ctx, input: Input) {
    ctx.mtype.Conversation? ==> IncomingOf(input).None?
  }

  /** The inputs on which the table's history cannot show. */
  predicate PureInput(ctx: Ctx, input: Input) {
    match ctx.mtype
    case Conversation => IncomingOf(input).None?
    case Broker =>
      IncomingOf(input).Some? && IncomingOf(input).value.connID != "" && IncomingOf(input).value.sessionID != ""
  }

  /** Whatever is built, a settled send stays settled. */
  lemma SettledKept(ctx: Ctx, input: Input, pin: string, mem: Mem, d: SendDef, cur: Option<EventValue>)
    requires Settled(ctx, d, cur) && InputFits(ctx, input)
    ensures var b := BuildOne(ctx, input, pin, mem, d, cur); b.Built? ==> Settled(ctx, d, b.event)
  {
  }

  /** Building from what the send holds is building from the table file. */
  lemma BuildOnePure(ctx: Ctx, input: Input, pin: string, mem: Mem, d: SendDef, cur: Option<EventValue>)
    requires Settled(ctx, d, cur) && PureInput(ctx, input)
    ensures BuildOne(ctx, input, pin, mem, d, cur) == BuildOne(ctx, input, pin, mem, d, d.eventData)
  {
    match d.protocol
    case Backend =>
      if input.Input? && input.eventData.Some? {
        var incoming := Incoming(input);
        var held, preset := Base(cur).backend.value, Base(d.eventData).backend.value;
        assert ConnIDOf(ctx, incoming, held) == ConnIDOf(ctx, incoming, preset);
        assert SessionIDOf(ctx, mem, incoming, held) == SessionIDOf(ctx, mem, incoming, preset);
      }
    case _ =>
  }

  /** The session id that the broker sends on for a message without one. */
  function Effective(mem: Mem, held: string): string {
    if held == "" then Get(mem, SESSION_ID) else held
  }

  /** The broker on any message, with any table file. Where both builds give a message, they
      give the same one exactly when each id that the message leaves open is filled in alike
      from what the send holds and from what the file presets. Where the message leaves the
      connection id open, one build may fail for want of one and the other not. */
  lemma BrokerHistoryShows(ctx: Ctx, input: Input, pin: string, mem: Mem, d: SendDef, cur: Option<EventValue>)
    requires ctx.mtype.Broker? && d.protocol == Backend && Settled(ctx, d, cur) && IncomingOf(input).Some?
    ensures
      var incoming := IncomingOf(input).value;
      var held, preset := Base(cur).backend.value, Base(d.eventData).backend.value;
      var inPlace, pure := BuildOne(ctx, input, pin, mem, d, cur), BuildOne(ctx, input, pin, mem, d, d.eventData);
      && (inPlace.Built? && pure.Built? ==>
            (inPlace == pure <==>
             && (incoming.connID != "" || ConnIDOf(ctx, incoming, held) == ConnIDOf(ctx, incoming, preset))
             && (incoming.sessionID != "" || Effective(mem, held.sessionID) == Effective(mem, preset.sessionID))))
      && (inPlace.Built? != pure.Built? <==>
            && !BackendContent(ctx, input, mem, d).ContentCrash?
            && (ConnIDOf(ctx, incoming, held) == "") != (ConnIDOf(ctx, incoming, preset) == ""))
      && !inPlace.NoHandler? && !pure.NoHandler?
  {
  }

  // ----------------------------------------------------------- a send list

  ghost predicate AllSettled(ctx: Ctx, sends: seq<SendDef>, held: Held) {
    |held| == |sends| && forall i :: 0 <= i < |sends| ==> Settled(ctx, sends[i], held[i])
  }

  lemma {:induction false} BuildFromSettled(ctx: Ctx, input: Input, pins: nat -> string, sends: seq<SendDef>, i: nat,
                                            mem: Mem, held: Held)
    requires i <= |sends| && AllSettled(ctx, sends, held) && InputFits(ctx, input)
    ensures var b := BuildFrom(ctx, input, pins, sends, i, mem, held); b.BuiltAll? ==> AllSettled(ctx, sends, b.held)
    decreases |sends| - i
  {
    if i < |sends| {
      SettledKept(ctx, input, pins(i), mem, sends[i], held[i]);
      match BuildOne(ctx, input, pins(i), mem, sends[i], held[i])
      case Built(m, e) => BuildFromSettled(ctx, input, pins, sends, i + 1, m, held[i := e]);
      case _ =>
    }
  }

  /** The same sends, memory and outcome, from what the list holds and from the table
      file. Only a send behind one without a handler may hold something else. */
  lemma {:induction false} BuildFromPure(ctx: Ctx, input: Input, pins: nat -> string, sends: seq<SendDef>, i: nat,
                                         mem: Mem, held: Held, pure: Held)
    requires i <= |sends| && AllSettled(ctx, sends, held) && |pure| == |sends| && PureInput(ctx, input)
    requires held[..i] == pure[..i]
    requires forall k :: i <= k < |sends| ==> pure[k] == sends[k].eventData
    ensures
      var b := BuildFrom(ctx, input, pins, sends, i, mem, held);
      var p := BuildFrom(ctx, input, pins, sends, i, mem, pure);
      && b.AllCrash? == p.AllCrash?
      && (b.BuiltAll? ==> b.mem == p.mem && b.handled == p.handled && (b.handled ==> b.held == p.held))
    decreases |sends| - i
  {
    if i == |sends| {
      assert held == held[..i] && pure == pure[..i];
    } else {
      BuildOnePure(ctx, input, pins(i), mem, sends[i], held[i]);
      SettledKept(ctx, input, pins(i), mem, sends[i], held[i]);
      match BuildOne(ctx, input, pins(i), mem, sends[i], held[i])
      case Built(m, e) =>
        var held', pure' := held[i := e], pure[i := e];
        assert held'[..i + 1] == held[..i] + [e] && pure'[..i + 1] == pure[..i] + [e];
        BuildFromPure(ctx, input, pins, sends, i + 1, m, held', pure');
      case _ =>
    }
  }

  // -------------------------------------------------------- a whole machine

  ghost predicate TableSettled(def: MachineDef, ctx: Ctx, slots: Slots) {
    && Shaped(def, slots)
    && forall s, i :: s in def.states && 0 <= i < |def.states[s].transitions| ==>
         AllSettled(ctx, def.states[s].transitions[i].sends, slots[Place(s, i)])
  }

  ghost predicate Pristine(def: MachineDef, slots: Slots) {
    && Shaped(def, slots)
    && forall s, i :: s in def.states && 0 <= i < |def.states[s].transitions| ==>
         slots[Place(s, i)] == DefHeld(def.states[s].transitions[i].sends)
  }

  /** The events on which a machine's history cannot show. */
  predicate PureEvent(ctx: Ctx, ev: Ev) {
    ctx.mtype.Broker? ==> ev.BackendEv? && ev.msg.connID != "" && ev.msg.sessionID != ""
  }

  /** A rule that writes the received message's session id: the new one may be empty. */
  predicate Resessions(def: MachineDef, s: string, i: nat) {
    s in def.states && i < |def.states[s].transitions|
    && def.states[s].transitions[i].trigger.rule == UseInputSaveSessionID
  }

  lemma PrepareForm(ctx: Ctx, t: Trigger, mem: Mem, ev: Ev)
    ensures var p := Prepare(ctx, t, mem, ev); p.Prepared? ==> InputFits(ctx, p.input)
    ensures var p := Prepare(ctx, t, mem, ev);
            p.Prepared? && PureEvent(ctx, ev)
            && (ctx.mtype.Broker? && t.rule == UseInputSaveSessionID ==> ev.msg.content != "")
            ==> PureInput(ctx, p.input)
  {
  }

  lemma BuildForSettled(ctx: Ctx, t: TransitionDef, mem: Mem, ev: Ev, held: Held, pins: nat -> string)
    requires AllSettled(ctx, t.sends, held)
    ensures var b := BuildFor(ctx, t, mem, ev, held, pins); b.Turn? ==> AllSettled(ctx, t.sends, b.held)
  {
    PrepareForm(ctx, t.trigger, mem, ev);
    match Prepare(ctx, t.trigger, mem, ev)
    case Prepared(m, input, _) => BuildFromSettled(ctx, input, pins, t.sends, 0, m, held);
    case _ =>
  }

  lemma HandleSettled(def: MachineDef, ctx: Ctx, p: PState, slots: Slots, ev: Ev, pins: nat -> string)
    requires TableSettled(def, ctx, slots)
    ensures TableSettled(def, ctx, After(slots, Handle(def, ctx, p, slots, ev, pins)))
  {
    if p.current in def.states {
      var trs := def.states[p.current].transitions;
      match Select(ctx.env, trs, 0, p.mem, ev)
      case Selection(m, Pick(i, target)) =>
        BuildForSettled(ctx, trs[i], m, ev, slots[Place(p.current, i)], pins);
      case _ =>
    }
  }

  /** The table after a handler call. */
  function After(slots: Slots, o: Outcome): Slots {
    if o.Next? && o.fired.Fired? then slots[o.fired.place := o.fired.held] else slots
  }

  /** Two outcomes that nobody outside the machine can tell apart. */
  predicate SameOutcome(a: Outcome, b: Outcome) {
    match (a, b)
    case (Crash, Crash) => true
    case (Next(p, Idle), Next(q, Idle)) => p == q
    case (Next(p, Fired(l, h, ok, m)), Next(q, Fired(l', h', ok', m'))) =>
      p == q && l == l' && ok == ok' && (ok ==> h == h') && m == m'
    case _ => false
  }

  /** Two turns that differ at most in sends that are not handed on. */
  predicate SameTurn(a: Turn, b: Turn) {
    match (a, b)
    case (TurnCrash, TurnCrash) => true
    case (Turn(m, h, ok, msg), Turn(m', h', ok', msg')) => m == m' && ok == ok' && (ok ==> h == h') && msg == msg'
    case _ => false
  }

  lemma BuildForPure(ctx: Ctx, t: TransitionDef, mem: Mem, ev: Ev, held: Held, file: Held, pins: nat -> string)
    requires AllSettled(ctx, t.sends, held) && file == DefHeld(t.sends) && PureEvent(ctx, ev)
    requires ctx.mtype.Broker? && t.trigger.rule == UseInputSaveSessionID ==> ev.msg.content != ""
    ensures SameTurn(BuildFor(ctx, t, mem, ev, held, pins), BuildFor(ctx, t, mem, ev, file, pins))
  {
    PrepareForm(ctx, t.trigger, mem, ev);
    match Prepare(ctx, t.trigger, mem, ev)
    case Prepared(m, input, _) => BuildFromPure(ctx, input, pins, t.sends, 0, m, held, file);
    case _ =>
  }

  lemma HandlePure(def: MachineDef, ctx: Ctx, p: PState, slots: Slots, file: Slots, ev: Ev, pins: nat -> string)
    requires TableSettled(def, ctx, slots) && Pristine(def, file) && PureEvent(ctx, ev)
    requires ctx.mtype.Broker? ==> ev.msg.content != "" || forall s, i :: !Resessions(def, s, i)
    ensures SameOutcome(Handle(def, ctx, p, slots, ev, pins), Handle(def, ctx, p, file, ev, pins))
  {
    if p.current in def.states {
      var trs := def.states[p.current].transitions;
      match Select(ctx.env, trs, 0, p.mem, ev)
      case Selection(m, Pick(i, target)) =>
        assert !Resessions(def, p.current, i) ==> trs[i].trigger.rule != UseInputSaveSessionID;
        BuildForPure(ctx, trs[i], m, ev, slots[Place(p.current, i)], file[Place(p.current, i)], pins);
      case _ =>
    }
  }

  // --------------------------------------------------------------- all runs

  /** A handler call: the event, and the source of PINs it draws from. */
  datatype Call = Call(ev: Ev, pins: nat -> string)

  /** A run of the machine as it is: every call sees what the earlier ones wrote. */
  ghost function Run(def: MachineDef, ctx: Ctx, p: PState, slots: Slots, calls: seq<Call>): (os: seq<Outcome>)
    requires TableSettled(def, ctx, slots)
    decreases |calls|
  {
    if calls == [] then []
    else
      HandleSettled(def, ctx, p, slots, calls[0].ev, calls[0].pins);
      var o := Handle(def, ctx, p, slots, calls[0].ev, calls[0].pins);
      if o.Crash? then [o] else [o] + Run(def, ctx, o.p, After(slots, o), calls[1..])
  }

  /** A run of the pure machine: every call sees the table as the file has it. */
  ghost function PureRun(def: MachineDef, ctx: Ctx, p: PState, file: Slots, calls: seq<Call>): (os: seq<Outcome>)
    requires Shaped(def, file)
    decreases |calls|
  {
    if calls == [] then []
    else
      var o := Handle(def, ctx, p, file, calls[0].ev, calls[0].pins);
      if o.Crash? then [o] else [o] + PureRun(def, ctx, o.p, file, calls[1..])
  }

  ghost predicate PureCall(def: MachineDef, ctx: Ctx, c: Call) {
    PureEvent(ctx, c.ev) && (ctx.mtype.Broker? ==> c.ev.msg.content != "" || forall s, i :: !Resessions(def, s, i))
  }

  /** The first call, and that all the others follow on it. */
  lemma RunStepIsPure(def: MachineDef, ctx: Ctx, p: PState, slots: Slots, file: Slots, c: Call)
    requires TableSettled(def, ctx, slots) && Pristine(def, file) && PureCall(def, ctx, c)
    ensures
      var o, q := Handle(def, ctx, p, slots, c.ev, c.pins), Handle(def, ctx, p, file, c.ev, c.pins);
      SameOutcome(o, q) && TableSettled(def, ctx, After(slots, o)) && (o.Next? ==> q.Next? && o.p == q.p)
  {
    HandleSettled(def, ctx, p, slots, c.ev, c.pins);
    HandlePure(def, ctx, p, slots, file, c.ev, c.pins);
  }

  /** Two runs that nobody outside the machine can tell apart. */
  ghost predicate SameRun(a: seq<Outcome>, b: seq<Outcome>) {
    |a| == |b| && forall k :: 0 <= k < |b| ==> SameOutcome(a[k], b[k])
  }

  lemma SameRunFirst(o: Outcome, q: Outcome, os: seq<Outcome>, qs: seq<Outcome>)
    requires SameOutcome(o, q) && SameRun(os, qs)
    ensures SameRun([o] + os, [q] + qs)
  {
  }

  /** Over any run, building in place gives what the pure builder gives. */
  lemma {:induction false} RunIsPure(def: MachineDef, ctx: Ctx, p: PState, slots: Slots, file: Slots, calls: seq<Call>)
    requires TableSettled(def, ctx, slots) && Pristine(def, file)
    requires forall k :: 0 <= k < |calls| ==> PureCall(def, ctx, calls[k])
    ensures SameRun(Run(def, ctx, p, slots, calls), PureRun(def, ctx, p, file, calls))
    decreases |calls|
  {
    if calls != [] {
      var c := calls[0];
      assert PureCall(def, ctx, c);
      RunStepIsPure(def, ctx, p, slots, file, c);
      var o, q := Handle(def, ctx, p, slots, c.ev, c.pins), Handle(def, ctx, p, file, c.ev, c.pins);
      if o.Next? {
        var rest := calls[1..];
        RunIsPure(def, ctx, o.p, After(slots, o), file, rest);
        SameRunFirst(o, q, Run(def, ctx, o.p, After(slots, o), rest), PureRun(def, ctx, o.p, file, rest));
      }
    }
  }
}
