/**
 What a transition says for an event: which text an event brings, which slot of the
 memory it is saved to, and what each send then says, in the words of the table.
 */
module Contents {
  import opened Wrappers
  import opened FsmTypes
  import opened FsmSpec
  import opened InPlace
  import opened ChatSpec

  // -------------------------------------------------------- what an event brings

  /** The triggers that take a user's message as it is. The other two that take one at
      all put their own data in its place. */
  predicate TakesText(rule: Rule) {
    rule in {ValidateInputEqual, ValidateInputNotEqual, Lua, UseInput, TransientRule,
             UseInputSave, UseInputSaveConnID, UseInputSaveSessionID}
  }

  predicate IsMessage(ev: Ev) {
    ev.StatusEv? && ev.status.protocol == BasicMessage
  }

  /** What an INPUT send repeats. */
  function Repeats(t: Trigger, ev: Ev): Option<string> {
    if IsMessage(ev) then
      if TakesText(t.rule) then Some(ev.status.content)
      else if t.rule in {DataAsIs, InputEqual} then Some(t.data)
      else None
    else if ev.BackendEv? then Some(ev.msg.content)
    else if ev.StepEv? then Some(ev.stepData)
    else None
  }

  /** What formats and scripts get. */
  function Brings(t: Trigger, ev: Ev): string {
    if IsMessage(ev) && TakesText(t.rule) then ev.status.content
    else if ev.BackendEv? then ev.msg.content
    else ""
  }

  /** The one slot that the text is saved to, if any. */
  function SlotOf(ctx: Ctx, t: Trigger, ev: Ev): Option<string> {
    if !IsMessage(ev) && !ev.BackendEv? then None
    else if t.rule == UseInputSave then Some(t.data)
    else if t.rule == UseInputSaveConnID then Some((if ev.BackendEv? then ev.msg.connID else ctx.connID) + t.data)
    else if t.rule == UseInputSaveSessionID then Some((if ev.BackendEv? then ev.msg.connID else "") + SESSION_ID)
    else None
  }

  function Saved(ctx: Ctx, t: Trigger, mem: Mem, ev: Ev): Mem {
    var slot := SlotOf(ctx, t, ev);
    if slot.Some? then mem[slot.value := Brings(t, ev)] else mem
  }

  /** The event comes to the sends as a message. */
  predicate Heard(ctx: Ctx, ev: Ev) {
    IsMessage(ev) || (ev.BackendEv? && ctx.mtype.Conversation?)
  }

  /** The input brings these texts. A start has none, and then no text is asked for. */
  ghost predicate Carries(ctx: Ctx, t: Trigger, ev: Ev, input: Input) {
    input.Input? ==>
    && input.data == Brings(t, ev)
    && (Heard(ctx, ev) ==> input.protocol == BasicMessage)
    && (!Heard(ctx, ev) ==> input.protocol != BasicMessage || input.eventData.None?)
    && if ctx.mtype.Broker? && ev.BackendEv?
       then input.protocol == Backend && BasicContent(input).None? && IncomingOf(input).Some?
            && IncomingOf(input).value.content == ev.msg.content
       else BasicContent(input) == Repeats(t, ev) && (input.protocol != Backend || input.eventData.None?)
  }

  lemma PrepareCarries(ctx: Ctx, t: Trigger, mem: Mem, ev: Ev)
    ensures
      match Prepare(ctx, t, mem, ev)
      case PrepareCrash => ctx.mtype.Conversation? && ev.BackendEv? && t.rule == UseInputSaveSessionID
      case Prepared(m, input, msg) =>
        && m == Saved(ctx, t, mem, ev) && input.Input? && Carries(ctx, t, ev, input)
        && (msg.Some? <==> ev.BackendEv?)
        && (ev.BackendEv? ==> msg.value == if t.rule == UseInputSaveSessionID then ev.msg.(sessionID := ev.msg.content)
                                           else ev.msg)
  {
    if IsMessage(ev) {
      assert "" + SESSION_ID == SESSION_ID;
    }
  }

  // ------------------------------------------------------------ what a send says

  /** A script says what it leaves as its output, and what it got if it fails. */
  ghost predicate ScriptSays(env: Env, script: string, got: string, m: Mem, text: string) {
    var run := env.lua(script, m[LUA_INPUT := got]);
    if run.failed || (LUA_OUTPUT !in run.mem && LUA_ERROR !in run.mem) then text == got
    else text == Get(run.mem, LUA_OUTPUT)
  }

  /** The text of a send, built in memory m. */
  ghost predicate SaysText(env: Env, d: SendDef, repeats: string, brings: string, m: Mem, text: string) {
    match d.rule
    case DataAsIs => text == d.data
    case UseInput => text == repeats
    case Format => text == env.sprintf(d.data, brings)
    case FormatFromMem => text == env.render(d.data, m)
    case Lua => ScriptSays(env, d.data, brings, m, text)
    case _ => false
  }

  function TextIn(text: Option<string>): string {
    if text.Some? then text.value else ""
  }

  function PayloadOf(e: Option<EventValue>): Payload {
    if e.Some? then e.value.payload else NoPayload
  }

  /** A message says its text; an INPUT one is empty if there is nothing to repeat. */
  ghost predicate MessageSays(ctx: Ctx, d: SendDef, t: Trigger, ev: Ev, m: Mem, e: Option<EventValue>) {
    var basic := PayloadOf(e).basic;
    if d.rule == UseInput then basic == if ctx.mtype.Broker? && ev.BackendEv? then None else Repeats(t, ev)
    else basic.Some? && SaysText(ctx.env, d, "", Brings(t, ev), m, basic.value)
  }

  /** A hook gets the send's type under "ID", and repeats nothing but messages. */
  ghost predicate HookSays(ctx: Ctx, d: SendDef, t: Trigger, ev: Ev, m: Mem, e: Option<EventValue>) {
    var hook, repeats := PayloadOf(e).hook, if Heard(ctx, ev) then Repeats(t, ev) else Some("");
    && hook.Some? && hook.value.Keys == {"ID", "data"} && hook.value["ID"] == d.typeID
    && (d.rule == UseInput ==> repeats.Some?)
    && SaysText(ctx.env, d, TextIn(repeats), Brings(t, ev), m, hook.value["data"])
  }

  /** So does a backend message, and it is empty under a rule that it does not know. */
  ghost predicate BackendSays(ctx: Ctx, d: SendDef, t: Trigger, ev: Ev, m: Mem, e: Option<EventValue>) {
    var msg, repeats := MessageOf(e), if IsMessage(ev) || ev.BackendEv? then Repeats(t, ev) else Some("");
    && msg.Some? && (d.rule == UseInput ==> repeats.Some?)
    && if d.rule in {DataAsIs, UseInput, Format, FormatFromMem, Lua}
       then SaysText(ctx.env, d, TextIn(repeats), Brings(t, ev), m, msg.value.content)
       else msg.value.content == ""
  }

  /** What send d holds after a build in memory m for the event. A send whose rule does not
      fit its protocol keeps what it held. */
  ghost predicate SaysFor(ctx: Ctx, d: SendDef, t: Trigger, ev: Ev, pin: string, m: Mem, e: Option<EventValue>) {
    match d.protocol
    case BasicMessage => if Overwrites(d) then MessageSays(ctx, d, t, ev, m, e) else Settled(ctx, d, e)
    case Hook => if Overwrites(d) then HookSays(ctx, d, t, ev, m, e) else Settled(ctx, d, e)
    case Backend => BackendSays(ctx, d, t, ev, m, e)
    case IssueCred =>
      if d.rule == FormatFromMem then
        PayloadOf(e).issuing.Some? && Some(PayloadOf(e).issuing.value.credDefID) == PresetCredDef(d.eventData)
        && PayloadOf(e).issuing.value.attrsJSON == ctx.env.render(d.data, m)
      else Settled(ctx, d, e)
    case PresentProof => if d.rule == DataAsIs then PayloadOf(e).proof == Some(d.data) else Settled(ctx, d, e)
    case Email =>
      if d.rule == GenPIN then PayloadOf(e).email == Some(ctx.env.email(ctx.env.render(d.data, m[PIN := pin])))
      else Settled(ctx, d, e)
    case Transient => PayloadOf(e).basic == Some(d.data)
    case _ => true
  }

  /** What the build of a send leaves in memory: a script's changes, or the PIN. */
  function MemAfter(env: Env, d: SendDef, brings: string, pin: string, m: Mem): Mem {
    if d.protocol == Email && d.rule == GenPIN then m[PIN := pin]
    else if d.protocol in {BasicMessage, Backend} && d.rule == Lua then env.lua(d.data, m[LUA_INPUT := brings]).mem
    else m
  }

  ghost predicate BuiltSays(ctx: Ctx, d: SendDef, t: Trigger, ev: Ev, pin: string, m: Mem, b: Built) {
    b.Built? ==> b.mem == MemAfter(ctx.env, d, Brings(t, ev), pin, m) && SaysFor(ctx, d, t, ev, pin, m, b.event)
  }

  lemma BMSays(ctx: Ctx, d: SendDef, t: Trigger, ev: Ev, input: Input, pin: string, m: Mem, cur: Option<EventValue>)
    requires d.protocol == BasicMessage && Carries(ctx, t, ev, input) && Settled(ctx, d, cur)
    ensures BuiltSays(ctx, d, t, ev, pin, m, BuildBM(ctx, input, m, d, cur))
  {
  }

  lemma HookRepeats(ctx: Ctx, d: SendDef, t: Trigger, ev: Ev, input: Input, m: Mem, cur: Option<EventValue>)
    requires d.protocol == Hook && d.rule == UseInput && Carries(ctx, t, ev, input)
    ensures var b := BuildHook(ctx, input, m, d, cur);
            b.Built? ==> b.mem == m && HookSays(ctx, d, t, ev, m, b.event)
  {
  }

  lemma HookSaysOwn(ctx: Ctx, d: SendDef, t: Trigger, ev: Ev, input: Input, m: Mem, cur: Option<EventValue>)
    requires d.protocol == Hook && d.rule in {DataAsIs, Format, FormatFromMem} && Carries(ctx, t, ev, input)
    ensures var b := BuildHook(ctx, input, m, d, cur);
            b.Built? ==> b.mem == m && HookSays(ctx, d, t, ev, m, b.event)
  {
  }

  lemma HookBuiltSays(ctx: Ctx, d: SendDef, t: Trigger, ev: Ev, input: Input, pin: string, m: Mem,
                      cur: Option<EventValue>)
    requires d.protocol == Hook && Carries(ctx, t, ev, input) && Settled(ctx, d, cur)
    ensures BuiltSays(ctx, d, t, ev, pin, m, BuildHook(ctx, input, m, d, cur))
  {
    if d.rule == UseInput {
      HookRepeats(ctx, d, t, ev, input, m, cur);
    } else if d.rule in {DataAsIs, Format, FormatFromMem} {
      HookSaysOwn(ctx, d, t, ev, input, m, cur);
    }
  }

  lemma BackendBuiltSays(ctx: Ctx, d: SendDef, t: Trigger, ev: Ev, input: Input, pin: string, m: Mem,
                         cur: Option<EventValue>)
    requires d.protocol == Backend && Carries(ctx, t, ev, input)
    ensures BuiltSays(ctx, d, t, ev, pin, m, BuildBackend(ctx, input, m, d, cur))
  {
  }

  lemma OtherSays(ctx: Ctx, d: SendDef, t: Trigger, ev: Ev, input: Input, pin: string, m: Mem, cur: Option<EventValue>)
    requires d.protocol !in {BasicMessage, Hook, Backend} && Settled(ctx, d, cur)
    ensures BuiltSays(ctx, d, t, ev, pin, m, BuildOne(ctx, input, pin, m, d, cur))
  {
  }

  /** One send of any protocol: it says what the table, the event and the memory say. */
  lemma BuildOneSays(ctx: Ctx, d: SendDef, t: Trigger, ev: Ev, input: Input, pin: string, m: Mem,
                     cur: Option<EventValue>)
    requires Carries(ctx, t, ev, input) && Settled(ctx, d, cur)
    ensures BuiltSays(ctx, d, t, ev, pin, m, BuildOne(ctx, input, pin, m, d, cur))
  {
    match d.protocol
    case BasicMessage => BMSays(ctx, d, t, ev, input, pin, m, cur);
    case Hook => HookBuiltSays(ctx, d, t, ev, input, pin, m, cur);
    case Backend => BackendBuiltSays(ctx, d, t, ev, input, pin, m, cur);
    case _ => OtherSays(ctx, d, t, ev, input, pin, m, cur);
  }

  // ------------------------------------------------------------- a list of sends

  /** The memory that send k is built in: scripts and PINs before it have changed it. */
  function MemBefore(env: Env, sends: seq<SendDef>, brings: string, pins: nat -> string, mem: Mem, k: nat): Mem
    requires k <= |sends|
  {
    if k == 0 then mem
    else MemAfter(env, sends[k - 1], brings, pins(k - 1), MemBefore(env, sends, brings, pins, mem, k - 1))
  }

  /** Send k of a built list says its own. */
  ghost predicate SaysAt(ctx: Ctx, sends: seq<SendDef>, t: Trigger, ev: Ev, pins: nat -> string, mem: Mem, k: nat,
                         held: Held)
    requires k < |held| == |sends|
  {
    SaysFor(ctx, sends[k], t, ev, pins(k), MemBefore(ctx.env, sends, Brings(t, ev), pins, mem, k), held[k])
  }

  /** What a build loop that has got to send i, with these events built, leaves in the end. */
  ghost predicate ListSays(ctx: Ctx, sends: seq<SendDef>, t: Trigger, ev: Ev, pins: nat -> string, mem: Mem, i: nat,
                           held: Held, b: BuiltAll)
    requires i <= |held| == |sends| && (b.BuiltAll? ==> |b.held| == |sends|)
  {
    b.BuiltAll? ==>
      && (forall k :: 0 <= k < i ==> b.held[k] == held[k])
      && (b.handled ==>
            && b.mem == MemBefore(ctx.env, sends, Brings(t, ev), pins, mem, |sends|)
            && forall k :: i <= k < |sends| ==> SaysAt(ctx, sends, t, ev, pins, mem, k, b.held))
  }

  lemma ListSaysNext(ctx: Ctx, sends: seq<SendDef>, t: Trigger, ev: Ev, pins: nat -> string, mem: Mem, i: nat,
                     held: Held, e: Option<EventValue>, b: BuiltAll)
    requires i < |held| == |sends| && (b.BuiltAll? ==> |b.held| == |sends|)
    requires ListSays(ctx, sends, t, ev, pins, mem, i + 1, held[i := e], b)
    requires SaysFor(ctx, sends[i], t, ev, pins(i), MemBefore(ctx.env, sends, Brings(t, ev), pins, mem, i), e)
    ensures ListSays(ctx, sends, t, ev, pins, mem, i, held, b)
  {
  }

  lemma {:induction false} BuildFromSays(ctx: Ctx, sends: seq<SendDef>, t: Trigger, ev: Ev, input: Input,
                                         pins: nat -> string, mem: Mem, i: nat, held: Held)
    requires i <= |sends| == |held| && Carries(ctx, t, ev, input)
    requires forall k :: i <= k < |sends| ==> Settled(ctx, sends[k], held[k])
    ensures
      var m := MemBefore(ctx.env, sends, Brings(t, ev), pins, mem, i);
      ListSays(ctx, sends, t, ev, pins, mem, i, held, BuildFrom(ctx, input, pins, sends, i, m, held))
    decreases |sends| - i
  {
    if i < |sends| {
      var m := MemBefore(ctx.env, sends, Brings(t, ev), pins, mem, i);
      BuildOneSays(ctx, sends[i], t, ev, input, pins(i), m, held[i]);
      match BuildOne(ctx, input, pins(i), m, sends[i], held[i])
      case Built(m', e) =>
        BuildFromSays(ctx, sends, t, ev, input, pins, mem, i + 1, held[i := e]);
        ListSaysNext(ctx, sends, t, ev, pins, mem, i, held, e, BuildFrom(ctx, input, pins, sends, i, m, held));
      case _ =>
    }
  }

  /** The start of a machine: its sends say their own, and none asks for an input. */
  lemma StartSays(def: MachineDef, ctx: Ctx, t: Trigger, ev: Ev, pins: nat -> string)
    ensures
      var sends := def.initialSends;
      var b := BuildFrom(ctx, NoInput, pins, sends, 0, map[], DefHeld(sends));
      b.BuiltAll? && b.handled ==>
        && b.mem == MemBefore(ctx.env, sends, Brings(t, ev), pins, map[], |sends|)
        && forall k :: 0 <= k < |sends| ==> SaysAt(ctx, sends, t, ev, pins, map[], k, b.held)
  {
    BuildFromSays(ctx, def.initialSends, t, ev, NoInput, pins, map[], 0, DefHeld(def.initialSends));
  }

  /** A transition that is picked in memory `mem`, on whatever its sends hold: every send of
      a list that is handed on says its own, in the memory that the saved input and the sends
      before it leave. */
  lemma TurnSays(ctx: Ctx, t: TransitionDef, mem: Mem, ev: Ev, held: Held, pins: nat -> string)
    requires AllSettled(ctx, t.sends, held)
    ensures
      var b := BuildFor(ctx, t, mem, ev, held, pins);
      var saved := Saved(ctx, t.trigger, mem, ev);
      b.Turn? && b.handled ==>
        && b.mem == MemBefore(ctx.env, t.sends, Brings(t.trigger, ev), pins, saved, |t.sends|)
        && forall k :: 0 <= k < |t.sends| ==> SaysAt(ctx, t.sends, t.trigger, ev, pins, saved, k, b.held)
  {
    PrepareCarries(ctx, t.trigger, mem, ev);
    match Prepare(ctx, t.trigger, mem, ev)
    case Prepared(m, input, _) => BuildFromSays(ctx, t.sends, t.trigger, ev, input, pins, m, 0, held);
    case PrepareCrash =>
  }
}
