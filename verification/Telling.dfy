/** What a list of built events tells the agency, the broker and the conversation itself. */
module Telling {
  import opened Wrappers
  import opened FsmTypes
  import opened FsmSpec
  import opened InPlace
  import opened ChatSpec
  import opened Contents

  /** The protocols whose sends are calls: all but the two that stay in the bot. */
  predicate Talks(protocol: Protocol) {
    protocol in {BasicMessage, IssueCred, PresentProof, Email, Answer, Hook}
  }

  predicate IsStep(protocol: Protocol) {
    protocol == Transient
  }

  predicate IsBackend(protocol: Protocol) {
    protocol == Backend
  }

  /** The sends from i on that are of such a protocol, in order. */
  function Those(sends: seq<SendDef>, i: nat, f: Protocol -> bool): (ks: seq<nat>)
    requires i <= |sends|
    ensures forall j :: 0 <= j < |ks| ==> i <= ks[j] < |sends| && f(sends[ks[j]].protocol)
    decreases |sends| - i
  {
    if i == |sends| then [] else (if f(sends[i].protocol) then [i] else []) + Those(sends, i + 1, f)
  }

  /** The call is the one that tells what send d holds. */
  ghost predicate Tells(d: SendDef, e: Option<EventValue>, id: string, call: ServerCall) {
    var payload := PayloadOf(e);
    match call
    case BMCall(text, got) => d.protocol == BasicMessage && payload.basic == Some(text) && got == id
    case IssueCall(issuing, got) => d.protocol == IssueCred && payload.issuing == Some(issuing) && got == id
    case ProofCall(proof, got) => d.protocol == PresentProof && payload.proof == Some(proof) && got == id
    case EmailCall(mail) => d.protocol == Email && payload.email == Some(mail)
    case HookCall(data) => d.protocol == Hook && payload.hook == Some(data)
    case ReplyCall(ack) => d.protocol == Answer && (ack <==> d.data == "ACK")
  }

  /** The send holds what its call needs. */
  ghost predicate CanTell(d: SendDef, e: Option<EventValue>, hasStatus: bool) {
    var payload := PayloadOf(e);
    && (d.protocol in {BasicMessage, Transient} ==> payload.basic.Some?)
    && (d.protocol == IssueCred ==> payload.issuing.Some?)
    && (d.protocol == PresentProof ==> payload.proof.Some?)
    && (d.protocol == Email ==> payload.email.Some?)
    && (d.protocol == Hook ==> payload.hook.Some?)
    && (d.protocol == Answer ==> hasStatus)
    && (d.protocol == Backend ==> MessageOf(e).Some?)
  }

  /** What the sends from i on add: one call per send that talks, in order, one step per
      transient send, and each backend send. */
  ghost predicate Adds(sends: seq<SendDef>, held: Held, i: nat, ids: nat -> string, before: Effects, after: Effects)
    requires i <= |sends| == |held|
  {
    AddsCalls(sends, held, Those(sends, i, Talks), ids, before.calls, after.calls)
    && AddsSteps(held, Those(sends, i, IsStep), before.steps, after.steps)
    && after.toBroker == before.toBroker + Those(sends, i, IsBackend)
  }

  ghost predicate AddsCalls(sends: seq<SendDef>, held: Held, ks: seq<nat>, ids: nat -> string,
                            before: seq<ServerCall>, after: seq<ServerCall>)
    requires |sends| == |held| && forall j :: 0 <= j < |ks| ==> ks[j] < |sends|
  {
    && |after| == |before| + |ks| && after[..|before|] == before
    && forall j :: 0 <= j < |ks| ==> Tells(sends[ks[j]], held[ks[j]], ids(ks[j]), after[|before| + j])
  }

  ghost predicate AddsSteps(held: Held, ks: seq<nat>, before: seq<string>, after: seq<string>)
    requires forall j :: 0 <= j < |ks| ==> ks[j] < |held|
  {
    && |after| == |before| + |ks| && after[..|before|] == before
    && forall j :: 0 <= j < |ks| ==> PayloadOf(held[ks[j]]).basic == Some(after[|before| + j])
  }

  lemma CallsNext(sends: seq<SendDef>, held: Held, i: nat, ids: nat -> string, before: seq<ServerCall>,
                  next: seq<ServerCall>, after: seq<ServerCall>)
    requires i < |sends| == |held|
    requires AddsCalls(sends, held, Those(sends, i + 1, Talks), ids, next, after)
    requires if Talks(sends[i].protocol) then |next| == |before| + 1 && next[..|before|] == before
                                              && Tells(sends[i], held[i], ids(i), next[|before|])
             else next == before
    ensures AddsCalls(sends, held, Those(sends, i, Talks), ids, before, after)
  {
    var ks, rest := Those(sends, i, Talks), Those(sends, i + 1, Talks);
    if Talks(sends[i].protocol) {
      assert ks == [i] + rest;
      assert after[..|next|][..|before|] == after[..|before|];
      assert after[..|next|][|before|] == after[|before|];
    } else {
      assert ks == rest;
    }
  }

  lemma StepsNext(sends: seq<SendDef>, held: Held, i: nat, before: seq<string>, next: seq<string>, after: seq<string>)
    requires i < |sends| == |held| && AddsSteps(held, Those(sends, i + 1, IsStep), next, after)
    requires if IsStep(sends[i].protocol)
             then PayloadOf(held[i]).basic.Some? && next == before + [PayloadOf(held[i]).basic.value]
                 else next == before
    ensures AddsSteps(held, Those(sends, i, IsStep), before, after)
  {
    var ks, rest := Those(sends, i, IsStep), Those(sends, i + 1, IsStep);
    if IsStep(sends[i].protocol) {
      assert ks == [i] + rest;
      assert after[..|next|][..|before|] == after[..|before|];
      assert after[..|next|][|before|] == after[|before|];
    } else {
      assert ks == rest;
    }
  }

  lemma BackendsNext(sends: seq<SendDef>, i: nat, before: seq<nat>, next: seq<nat>, after: seq<nat>)
    requires i < |sends| && after == next + Those(sends, i + 1, IsBackend)
    requires next == if IsBackend(sends[i].protocol) then before + [i] else before
    ensures after == before + Those(sends, i, IsBackend)
  {
    if IsBackend(sends[i].protocol) {
      assert before + ([i] + Those(sends, i + 1, IsBackend)) == (before + [i]) + Those(sends, i + 1, IsBackend);
    } else {
      assert Those(sends, i, IsBackend) == Those(sends, i + 1, IsBackend);
    }
  }

  /** What one send adds. */
  ghost predicate AddsOne(d: SendDef, e: Option<EventValue>, i: nat, id: string, eff: Effects, next: Effects) {
    && (if Talks(d.protocol) then |next.calls| == |eff.calls| + 1 && next.calls[..|eff.calls|] == eff.calls
                                  && Tells(d, e, id, next.calls[|eff.calls|])
        else next.calls == eff.calls)
    && (if IsStep(d.protocol) then PayloadOf(e).basic.Some? && next.steps == eff.steps + [PayloadOf(e).basic.value]
        else next.steps == eff.steps)
    && next.toBroker == if IsBackend(d.protocol) then eff.toBroker + [i] else eff.toBroker
  }

  lemma SendOneAdds(d: SendDef, e: Option<EventValue>, i: nat, hasStatus: bool, id: string, eff: Effects)
    ensures SendOne(d, e, i, hasStatus, id, eff).Some? <==> CanTell(d, e, hasStatus)
    ensures CanTell(d, e, hasStatus) ==> AddsOne(d, e, i, id, eff, SendOne(d, e, i, hasStatus, id, eff).value)
  {
  }

  lemma AddsNext(sends: seq<SendDef>, held: Held, i: nat, ids: nat -> string, eff: Effects, next: Effects, out: Effects)
    requires i < |sends| == |held| && Adds(sends, held, i + 1, ids, next, out)
    requires AddsOne(sends[i], held[i], i, ids(i), eff, next)
    ensures Adds(sends, held, i, ids, eff, out)
  {
    CallsNext(sends, held, i, ids, eff.calls, next.calls, out.calls);
    StepsNext(sends, held, i, eff.steps, next.steps, out.steps);
    BackendsNext(sends, i, eff.toBroker, next.toBroker, out.toBroker);
  }

  lemma NothingAdded(sends: seq<SendDef>, held: Held, ids: nat -> string, eff: Effects)
    requires |sends| == |held|
    ensures Adds(sends, held, |sends|, ids, eff, eff)
  {
    assert eff.toBroker + [] == eff.toBroker;
  }

  /** A list goes out exactly if every send holds what its call needs. */
  lemma {:induction false} SendsAll(sends: seq<SendDef>, held: Held, i: nat, hasStatus: bool, ids: nat -> string,
                                    eff: Effects)
    requires i <= |sends| == |held|
    ensures SendFrom(sends, held, i, hasStatus, ids, eff).Some? <==>
            forall k :: i <= k < |sends| ==> CanTell(sends[k], held[k], hasStatus)
    decreases |sends| - i
  {
    if i < |sends| {
      SendOneAdds(sends[i], held[i], i, hasStatus, ids(i), eff);
      match SendOne(sends[i], held[i], i, hasStatus, ids(i), eff)
      case None =>
      case Some(next) => SendsAll(sends, held, i + 1, hasStatus, ids, next);
    }
  }

  /** Then each one goes out, in order, as what it holds. */
  lemma {:induction false} SendFromAdds(sends: seq<SendDef>, held: Held, i: nat, hasStatus: bool, ids: nat -> string,
                                        eff: Effects)
    requires i <= |sends| == |held| && SendFrom(sends, held, i, hasStatus, ids, eff).Some?
    ensures Adds(sends, held, i, ids, eff, SendFrom(sends, held, i, hasStatus, ids, eff).value)
    decreases |sends| - i
  {
    if i < |sends| {
      SendOneAdds(sends[i], held[i], i, hasStatus, ids(i), eff);
      var next := SendOne(sends[i], held[i], i, hasStatus, ids(i), eff).value;
      SendFromAdds(sends, held, i + 1, hasStatus, ids, next);
      AddsNext(sends, held, i, ids, eff, next, SendFrom(sends, held, i + 1, hasStatus, ids, next).value);
    } else {
      NothingAdded(sends, held, ids, eff);
    }
  }
}
