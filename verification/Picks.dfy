/** Which transition an event picks: the first that fires, and what it takes to fire. */
module Picks {
  import opened Wrappers
  import opened FsmTypes
  import opened FsmSpec
  import opened ProofRules

  // ------------------------------------------------------------ the registers

  predicate HeaderRegister(key: string) {
    key == CONN_ID || key == SUBJECT || key == SESSION_ID
  }

  /** A backend message leaves its header, as far as it has one, in three registers. */
  lemma CopyBackendSets(mem: Mem, msg: BackendMsg)
    ensures
      var m := CopyBackend(mem, msg);
      && Get(m, CONN_ID) == (if msg.connID != "" then msg.connID else Get(mem, CONN_ID))
      && Get(m, SUBJECT) == (if msg.subject != "" then msg.subject else Get(mem, SUBJECT))
      && Get(m, SESSION_ID) == (if msg.sessionID != "" then msg.sessionID else Get(mem, SESSION_ID))
      && forall key :: !HeaderRegister(key) ==> AgreeOn(m, mem, key)
  {
    assert |CONN_ID| == 7 && |SESSION_ID| == 10 && CONN_ID[0] == 'C' && SUBJECT[0] == 'S';
  }

  // ------------------------------------------------------------------- firing

  /** The three protocols whose statuses fire whatever the rule says. */
  predicate FiresAlways(protocol: Protocol) {
    protocol in {Connection, IssueCred, PresentProof}
  }

  predicate OfProtocol(t: Trigger, ev: Ev) {
    match ev
    case StatusEv(st) => t.protocol == st.protocol
    case BackendEv(_) => t.protocol == Backend
    case QuestionEv(q) => t.protocol == q.protocol
    case HookEv(_) => t.protocol == Hook
    case StepEv(_) => t.protocol == Transient
  }

  /** The script ran, and said OK. */
  ghost predicate ScriptAccepts(env: Env, script: string, content: string, mem: Mem) {
    var run := env.lua(script, mem[LUA_INPUT := content]);
    !run.failed && LUA_OUTPUT in run.mem && run.mem[LUA_OUTPUT] == LUA_OK
  }

  /** The rule of a trigger, on a text. */
  ghost predicate RuleHolds(env: Env, t: Trigger, mem: Mem, content: string) {
    match t.rule
    case InputEqual => content == t.data
    case ValidateInputEqual => content == Get(mem, t.data)
    case ValidateInputNotEqual => content != Get(mem, t.data)
    case Lua => ScriptAccepts(env, t.data, content, mem)
    case DataAsIs | UseInput | UseInputSave | UseInputSaveConnID | UseInputSaveSessionID => true
    case _ => false
  }

  /** The memory that rules look at. */
  function Seen(t: Trigger, mem: Mem, ev: Ev): Mem {
    if ev.BackendEv? && t.protocol == Backend then CopyBackend(mem, ev.msg) else mem
  }

  /** The trigger fires on the event, which is no question. */
  ghost predicate Fires(env: Env, t: Trigger, mem: Mem, ev: Ev) {
    && OfProtocol(t, ev)
    && match ev
       case StatusEv(st) =>
         || FiresAlways(st.protocol)
         || (st.protocol == BasicMessage && (t.rule == TransientRule || RuleHolds(env, t, mem, st.content)))
       case BackendEv(msg) => RuleHolds(env, t, Seen(t, mem, ev), msg.content)
       case HookEv(_) => true
       case StepEv(_) => true
       case QuestionEv(_) => false
  }

  /** A text that a script may have run on. */
  function ScriptInput(t: Trigger, ev: Ev): Option<string> {
    if t.rule != Lua || !OfProtocol(t, ev) then None
    else if ev.StatusEv? && ev.status.protocol == BasicMessage then Some(ev.status.content)
    else if ev.BackendEv? then Some(ev.msg.content)
    else None
  }

  /** The memory that trying the trigger leaves. */
  function Tried(env: Env, t: Trigger, mem: Mem, ev: Ev): Mem {
    var m, input := Seen(t, mem, ev), ScriptInput(t, ev);
    if input.Some? then env.lua(t.data, m[LUA_INPUT := input.value]).mem else m
  }

  /** A script that ran and left its OUTPUT or an ERR chooses the target. */
  function Chosen(env: Env, tr: TransitionDef, mem: Mem, ev: Ev): string {
    var tgt := if ScriptInput(tr.trigger, ev).Some? then Get(Tried(env, tr.trigger, mem, ev), LUA_TARGET) else "";
    if tgt == "" then tr.target else tgt
  }

  /** The verdict of a trigger on an event: whether it fires, the memory after it, and the
      target that its script has left. */
  ghost predicate Judges(env: Env, t: Trigger, mem: Mem, ev: Ev, v: Verdict) {
    && v.Verdict? && (v.ok <==> Fires(env, t, mem, ev)) && v.mem == Tried(env, t, mem, ev)
    && (v.ok ==> v.target == if ScriptInput(t, ev).Some? then Get(v.mem, LUA_TARGET) else "")
  }

  lemma StatusFires(env: Env, t: Trigger, mem: Mem, st: Status)
    requires t.protocol == st.protocol
    ensures Judges(env, t, mem, StatusEv(st), TriggersByStatus(env, t, mem, st))
  {
  }

  lemma BackendFires(env: Env, t: Trigger, mem: Mem, msg: BackendMsg)
    requires t.protocol == Backend
    ensures Judges(env, t, mem, BackendEv(msg), TriggersByBackend(env, t, mem, msg))
  {
  }

  lemma TryFires(env: Env, t: Trigger, mem: Mem, ev: Ev)
    requires !ev.QuestionEv?
    ensures Judges(env, t, mem, ev, Try(env, t, mem, ev))
  {
    if OfProtocol(t, ev) {
      match ev
      case StatusEv(st) => StatusFires(env, t, mem, st);
      case BackendEv(msg) => BackendFires(env, t, mem, msg);
      case _ =>
    }
  }

  /** The memory in which the search comes to transition k. */
  function MemAt(env: Env, trs: seq<TransitionDef>, k: nat, mem: Mem, ev: Ev): Mem
    requires k <= |trs|
  {
    if k == 0 then mem else Tried(env, trs[k - 1].trigger, MemAt(env, trs, k - 1, mem, ev), ev)
  }

  ghost predicate FiresAt(env: Env, trs: seq<TransitionDef>, k: nat, mem: Mem, ev: Ev)
    requires k < |trs|
  {
    Fires(env, trs[k].trigger, MemAt(env, trs, k, mem, ev), ev)
  }

  /** Transition k is the first from i on that fires. */
  ghost predicate FirstFires(env: Env, trs: seq<TransitionDef>, i: nat, k: nat, mem: Mem, ev: Ev)
    requires k < |trs|
  {
    i <= k && FiresAt(env, trs, k, mem, ev) && forall j :: i <= j < k ==> !FiresAt(env, trs, j, mem, ev)
  }

  ghost predicate NoneFires(env: Env, trs: seq<TransitionDef>, i: nat, mem: Mem, ev: Ev) {
    forall j :: i <= j < |trs| ==> !FiresAt(env, trs, j, mem, ev)
  }

  /** The search from i on found the first transition that fires, or none. */
  ghost predicate FindsFirst(env: Env, trs: seq<TransitionDef>, i: nat, mem: Mem, ev: Ev, s: Selection) {
    && s.Selection?
    && if s.pick.NoPick? then s.mem == MemAt(env, trs, |trs|, mem, ev) && NoneFires(env, trs, i, mem, ev)
       else
         && s.pick.index < |trs| && FirstFires(env, trs, i, s.pick.index, mem, ev)
         && s.mem == MemAt(env, trs, s.pick.index + 1, mem, ev)
         && s.pick.target == Chosen(env, trs[s.pick.index], MemAt(env, trs, s.pick.index, mem, ev), ev)
  }

  lemma FoundLater(env: Env, trs: seq<TransitionDef>, i: nat, mem: Mem, ev: Ev, s: Selection)
    requires i < |trs| && !FiresAt(env, trs, i, mem, ev) && FindsFirst(env, trs, i + 1, mem, ev, s)
    ensures FindsFirst(env, trs, i, mem, ev, s)
  {
  }

  lemma FoundHere(env: Env, trs: seq<TransitionDef>, i: nat, mem: Mem, ev: Ev)
    requires i < |trs| && FiresAt(env, trs, i, mem, ev)
    ensures FindsFirst(env, trs, i, mem, ev,
                       Selection(MemAt(env, trs, i + 1, mem, ev),
                                 Pick(i, Chosen(env, trs[i], MemAt(env, trs, i, mem, ev), ev))))
  {
  }

  lemma FoundNone(env: Env, trs: seq<TransitionDef>, mem: Mem, ev: Ev)
    ensures FindsFirst(env, trs, |trs|, mem, ev, Selection(MemAt(env, trs, |trs|, mem, ev), NoPick))
  {
  }

  /** The first step of the search. */
  lemma SelectStep(env: Env, trs: seq<TransitionDef>, i: nat, mem: Mem, ev: Ev)
    requires i < |trs| && !ev.QuestionEv?
    ensures
      Select(env, trs, i, MemAt(env, trs, i, mem, ev), ev) ==
      if FiresAt(env, trs, i, mem, ev)
      then Selection(MemAt(env, trs, i + 1, mem, ev), Pick(i, Chosen(env, trs[i], MemAt(env, trs, i, mem, ev), ev)))
      else Select(env, trs, i + 1, MemAt(env, trs, i + 1, mem, ev), ev)
  {
    TryFires(env, trs[i].trigger, MemAt(env, trs, i, mem, ev), ev);
  }

  lemma {:induction false} PicksFirstFrom(env: Env, trs: seq<TransitionDef>, i: nat, mem: Mem, ev: Ev)
    requires i <= |trs| && !ev.QuestionEv?
    ensures FindsFirst(env, trs, i, mem, ev, Select(env, trs, i, MemAt(env, trs, i, mem, ev), ev))
    decreases |trs| - i
  {
    if i < |trs| {
      SelectStep(env, trs, i, mem, ev);
      if FiresAt(env, trs, i, mem, ev) {
        FoundHere(env, trs, i, mem, ev);
      } else {
        PicksFirstFrom(env, trs, i + 1, mem, ev);
        FoundLater(env, trs, i, mem, ev, Select(env, trs, i, MemAt(env, trs, i, mem, ev), ev));
      }
    } else {
      FoundNone(env, trs, mem, ev);
    }
  }

  /** Any event but a question: a search picks the first transition that fires, each tried in
      the memory that those before it leave, and goes where its script or its table says. */
  lemma PicksFirst(env: Env, trs: seq<TransitionDef>, mem: Mem, ev: Ev)
    requires !ev.QuestionEv?
    ensures FindsFirst(env, trs, 0, mem, ev, Select(env, trs, 0, mem, ev))
  {
    PicksFirstFrom(env, trs, 0, mem, ev);
  }

  // --------------------------------------------- where only the protocol counts

  /** The event fires any trigger of its protocol. */
  predicate ByProtocol(ev: Ev) {
    (ev.StatusEv? && FiresAlways(ev.status.protocol)) || ev.HookEv? || ev.StepEv?
  }

  predicate NoneOf(trs: seq<TransitionDef>, n: nat, ev: Ev)
    requires n <= |trs|
  {
    forall j :: 0 <= j < n ==> !OfProtocol(trs[j].trigger, ev)
  }

  /** A status of a credential, a proof or a connection, a hook and a step pick the first
      transition of their protocol, if there is one, and leave the memory as it is. */
  lemma PicksFirstOfProtocol(env: Env, trs: seq<TransitionDef>, mem: Mem, ev: Ev)
    requires ByProtocol(ev)
    ensures
      var s := Select(env, trs, 0, mem, ev);
      && s.Selection? && s.mem == mem
      && if s.pick.NoPick? then NoneOf(trs, |trs|, ev)
         else && OfProtocol(trs[s.pick.index].trigger, ev) && NoneOf(trs, s.pick.index, ev)
              && s.pick.target == trs[s.pick.index].target
  {
    PicksFirst(env, trs, mem, ev);
    SameMemAt(env, trs, |trs|, mem, ev);
    var pick := Select(env, trs, 0, mem, ev).pick;
    var n := if pick.Pick? then pick.index else |trs|;
    if pick.Pick? {
      SameMemAt(env, trs, n + 1, mem, ev);
    }
    forall j | 0 <= j < n ensures !OfProtocol(trs[j].trigger, ev) {
      assert !FiresAt(env, trs, j, mem, ev);
    }
  }

  lemma {:induction false} SameMemAt(env: Env, trs: seq<TransitionDef>, k: nat, mem: Mem, ev: Ev)
    requires k <= |trs| && ByProtocol(ev)
    ensures MemAt(env, trs, k, mem, ev) == mem
  {
    if k > 0 {
      SameMemAt(env, trs, k - 1, mem, ev);
    }
  }
}
