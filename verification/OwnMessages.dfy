/**
 Which status updates a conversation drops as reports on its own messages. The
 record of ids is compared with what really went out, over whole runs.
 */
module OwnMessages {
  import opened Wrappers
  import opened FsmTypes
  import opened FsmSpec
  import opened InPlace
  import opened ChatSpec

  datatype Move =
    | StatusOf(protocolID: string, status: Status)
    | BackendOf(msg: BackendMsg)
    | EventOf(ev: Ev)

  ghost function StepOf(def: MachineDef, ctx: Ctx, chat: Chat, move: Move, pins: nat -> string,
          ids: nat -> string): ChatOutcome
    requires Shaped(def, chat.slots)
  {
    match move
    case StatusOf(id, status) => StatusReceived(def, ctx, chat, id, status, pins, ids)
    case BackendOf(msg) => BackendReceived(def, ctx, chat, msg, pins, ids)
    case EventOf(ev) => Deliver(def, ctx, chat, ev, pins, ids)
  }

  /** A run of one conversation: `effs[0]` is from the start, `effs[n + 1]` from move n. */
  datatype History = History(chats: seq<Chat>, moves: seq<Move>, effs: seq<Effects>)

  ghost predicate Opens(def: MachineDef, ctx: Ctx, chat: Chat, eff: Effects, pins: nat -> string, ids: nat -> string) {
    var o := OpenChat(def, ctx, chat.slots, pins, ids);
    o.ChatNext? && o.chat == chat && o.eff == eff
  }

  ghost predicate Steps(def: MachineDef, ctx: Ctx, before: Chat, move: Move, after: Chat, eff: Effects,
                        pins: nat -> string, ids: nat -> string)
  {
    && Shaped(def, before.slots)
    && var o := StepOf(def, ctx, before, move, pins, ids);
       o.ChatNext? && o.chat == after && o.eff == eff
  }

  ghost predicate IsHistory(def: MachineDef, ctx: Ctx, h: History) {
    && |h.chats| == |h.effs| == |h.moves| + 1
    && (exists pins, ids :: Opens(def, ctx, h.chats[0], h.effs[0], pins, ids))
    && forall n :: 0 <= n < |h.moves| ==> StepsSomehow(def, ctx, h.chats[n], h.moves[n], h.chats[n + 1], h.effs[n + 1])
  }

  ghost predicate StepsSomehow(def: MachineDef, ctx: Ctx, before: Chat, move: Move, after: Chat, eff: Effects) {
    exists pins, ids :: Steps(def, ctx, before, move, after, eff, pins, ids)
  }

  /** The ids of the basic messages sent up to point n, in order. */
  function Sent(h: History, n: nat): seq<string>
    requires n < |h.effs|
  {
    (if n == 0 then [] else Sent(h, n - 1)) + BMIds(h.effs[n].calls)
  }

  predicate Drops(h: History, n: nat)
    requires n < |h.moves| && n < |h.chats|
  {
    DropsAt(h.chats[n], h.moves[n])
  }

  /** The ids whose status updates were dropped before point n, in order. */
  function Dropped(h: History, n: nat): seq<string>
    requires n <= |h.moves| && |h.chats| == |h.moves| + 1
  {
    if n == 0 then []
    else Dropped(h, n - 1) + if Drops(h, n - 1) then [h.moves[n - 1].protocolID] else []
  }

  predicate Distinct(s: seq<string>) {
    forall i, j :: 0 <= i < j < |s| ==> s[i] != s[j]
  }

  lemma DeliverLast(def: MachineDef, ctx: Ctx, chat: Chat, ev: Ev, pins: nat -> string, ids: nat -> string)
    requires Shaped(def, chat.slots)
    ensures
      var o := Deliver(def, ctx, chat, ev, pins, ids);
      o.ChatNext? ==> o.chat.last == chat.last + Ids(BMIds(o.eff.calls))
  {
    var h := Handle(def, ctx, chat.p, chat.slots, ev, pins);
    if h.Next? && h.fired.Fired? {
      var sends := def.states[h.fired.place.state].transitions[h.fired.place.index].sends;
      if SendFrom(sends, h.fired.held, 0, ev.StatusEv? || ev.QuestionEv?, ids, Nothing).Some? {
        RegistersBMs(sends, h.fired.held, 0, ev.StatusEv? || ev.QuestionEv?, ids, Nothing);
      }
    }
  }

  predicate DropsAt(chat: Chat, move: Move) {
    move.StatusOf? && move.protocolID in chat.last
  }

  /** One move changes the record by what it drops, or by what it sends. */
  lemma StepLast(def: MachineDef, ctx: Ctx, before: Chat, move: Move, after: Chat, eff: Effects)
    requires StepsSomehow(def, ctx, before, move, after, eff)
    ensures
      if DropsAt(before, move) then after.last == before.last - {move.protocolID} && BMIds(eff.calls) == []
      else after.last == before.last + Ids(BMIds(eff.calls))
  {
    var pins, ids :| Steps(def, ctx, before, move, after, eff, pins, ids);
    match move
    case StatusOf(_, status) => DeliverLast(def, ctx, before, StatusEv(status), pins, ids);
    case BackendOf(msg) => DeliverLast(def, ctx, before, BackendEv(Addressed(ctx.connID, msg)), pins, ids);
    case EventOf(ev) => DeliverLast(def, ctx, before, ev, pins, ids);
  }

  lemma FirstLast(def: MachineDef, ctx: Ctx, h: History)
    requires IsHistory(def, ctx, h)
    ensures h.chats[0].last == Ids(BMIds(h.effs[0].calls))
  {
    var pins, ids :| Opens(def, ctx, h.chats[0], h.effs[0], pins, ids);
    var b := BuildFrom(ctx, NoInput, pins, def.initialSends, 0, map[], DefHeld(def.initialSends));
    if b.handled {
      RegistersBMs(def.initialSends, b.held, 0, false, ids, Nothing);
    }
  }

  /** What a history does to the record, and nothing else about it. */
  ghost predicate Recorded(h: History) {
    && |h.chats| == |h.effs| == |h.moves| + 1
    && h.chats[0].last == Ids(BMIds(h.effs[0].calls))
    && forall n :: 0 <= n < |h.moves| ==> RecordedAt(h, n)
  }

  ghost predicate RecordedAt(h: History, n: nat)
    requires |h.chats| == |h.effs| == |h.moves| + 1 && n < |h.moves|
  {
    var sent := BMIds(h.effs[n + 1].calls);
    if Drops(h, n) then h.chats[n + 1].last == h.chats[n].last - {h.moves[n].protocolID} && sent == []
    else h.chats[n + 1].last == h.chats[n].last + Ids(sent)
  }

  lemma HistoryRecorded(def: MachineDef, ctx: Ctx, h: History)
    requires IsHistory(def, ctx, h)
    ensures Recorded(h)
  {
    FirstLast(def, ctx, h);
    forall n | 0 <= n < |h.moves| ensures RecordedAt(h, n) {
      assert StepsSomehow(def, ctx, h.chats[n], h.moves[n], h.chats[n + 1], h.effs[n + 1]);
      StepLast(def, ctx, h.chats[n], h.moves[n], h.chats[n + 1], h.effs[n + 1]);
    }
  }

  lemma {:induction false} IdsAtMost(s: seq<string>)
    ensures |Ids(s)| <= |s|
  {
    if s != [] {
      IdsAtMost(s[1..]);
      assert Ids(s) == {s[0]} + Ids(s[1..]);
    }
  }

  lemma IdsOfSum(s: seq<string>, t: seq<string>)
    ensures Ids(s + t) == Ids(s) + Ids(t)
  {
  }

  /** The record, the ids dropped and the ids sent, of which the first two share out the third. */
  ghost predicate Accounted(last: set<string>, dropped: seq<string>, sent: seq<string>) {
    |dropped| + |last| <= |sent| && last + Ids(dropped) == Ids(sent)
  }

  lemma SendingAccounts(last: set<string>, dropped: seq<string>, sent: seq<string>, more: seq<string>)
    requires Accounted(last, dropped, sent)
    ensures Accounted(last + Ids(more), dropped, sent + more)
  {
    IdsAtMost(more);
    IdsOfSum(sent, more);
    assert |last + Ids(more)| <= |last| + |Ids(more)|;
  }

  lemma DroppingAccounts(last: set<string>, dropped: seq<string>, sent: seq<string>, id: string)
    requires Accounted(last, dropped, sent) && id in last
    ensures Accounted(last - {id}, dropped + [id], sent)
  {
  }

  lemma {:induction false} RecordAccounts(h: History, n: nat)
    requires Recorded(h) && n < |h.chats|
    ensures Accounted(h.chats[n].last, Dropped(h, n), Sent(h, n))
  {
    if n == 0 {
      IdsAtMost(BMIds(h.effs[0].calls));
      assert Sent(h, 0) == BMIds(h.effs[0].calls);
    } else {
      RecordAccounts(h, n - 1);
      assert RecordedAt(h, n - 1);
      if Drops(h, n - 1) {
        DroppingAccounts(h.chats[n - 1].last, Dropped(h, n - 1), Sent(h, n - 1), h.moves[n - 1].protocolID);
        assert Sent(h, n) == Sent(h, n - 1);
      } else {
        SendingAccounts(h.chats[n - 1].last, Dropped(h, n - 1), Sent(h, n - 1), BMIds(h.effs[n].calls));
        assert Dropped(h, n) == Dropped(h, n - 1);
      }
    }
  }

  lemma DistinctSum(s: seq<string>, t: seq<string>)
    requires Distinct(s + t)
    ensures Distinct(s)
    ensures Ids(s) !! Ids(t)
  {
    forall i, j | 0 <= i < j < |s| ensures s[i] != s[j] {
      assert (s + t)[i] == s[i] && (s + t)[j] == s[j];
    }
    forall i, j | 0 <= i < |s| && 0 <= j < |t| ensures s[i] != t[j] {
      assert (s + t)[i] == s[i] && (s + t)[|s| + j] == t[j];
    }
  }

  /** What is on record has not been dropped. */
  ghost predicate Exact(last: set<string>, dropped: seq<string>, sent: seq<string>) {
    last == Ids(sent) - Ids(dropped) && Distinct(dropped)
  }

  lemma SendingExact(last: set<string>, dropped: seq<string>, sent: seq<string>, more: seq<string>)
    requires Exact(last, dropped, sent) && Ids(dropped) <= Ids(sent) && Distinct(sent + more)
    ensures Exact(last + Ids(more), dropped, sent + more)
  {
    DistinctSum(sent, more);
    IdsOfSum(sent, more);
  }

  lemma DroppingExact(last: set<string>, dropped: seq<string>, sent: seq<string>, id: string)
    requires Exact(last, dropped, sent) && id in last
    ensures Exact(last - {id}, dropped + [id], sent)
  {
  }

  lemma DroppedWereSent(h: History, n: nat)
    requires Recorded(h) && n < |h.chats|
    ensures Ids(Dropped(h, n)) <= Ids(Sent(h, n))
  {
    RecordAccounts(h, n);
  }

  lemma {:induction false} RecordExact(h: History, n: nat)
    requires Recorded(h) && n < |h.chats| && Distinct(Sent(h, n))
    ensures Exact(h.chats[n].last, Dropped(h, n), Sent(h, n))
  {
    if n == 0 {
      assert Sent(h, 0) == BMIds(h.effs[0].calls);
    } else {
      DistinctBefore(h, n);
      RecordExact(h, n - 1);
      DroppedWereSent(h, n - 1);
      ExactNext(h, n - 1);
    }
  }

  lemma DistinctBefore(h: History, n: nat)
    requires 0 < n < |h.effs| && Distinct(Sent(h, n))
    ensures Distinct(Sent(h, n - 1))
  {
    DistinctSum(Sent(h, n - 1), BMIds(h.effs[n].calls));
  }

  lemma ExactNext(h: History, n: nat)
    requires Recorded(h) && n < |h.moves| && Distinct(Sent(h, n + 1))
    requires Exact(h.chats[n].last, Dropped(h, n), Sent(h, n)) && Ids(Dropped(h, n)) <= Ids(Sent(h, n))
    ensures Exact(h.chats[n + 1].last, Dropped(h, n + 1), Sent(h, n + 1))
  {
    assert RecordedAt(h, n);
    if Drops(h, n) {
      assert Sent(h, n + 1) == Sent(h, n);
      DroppingExact(h.chats[n].last, Dropped(h, n), Sent(h, n), h.moves[n].protocolID);
    } else {
      assert Dropped(h, n + 1) == Dropped(h, n);
      SendingExact(h.chats[n].last, Dropped(h, n), Sent(h, n), BMIds(h.effs[n + 1].calls));
    }
  }

  /** Over every run of a conversation, whatever ids the server gives: each basic message
      sent accounts for at most one dropped update, and what was sent is what is on record
      or was dropped. With ids that the server never gives twice, the record is exactly
      what was sent and not yet dropped, and no id is dropped twice. */
  lemma DropsAreSent(def: MachineDef, ctx: Ctx, h: History, n: nat)
    requires IsHistory(def, ctx, h) && n < |h.chats|
    ensures |Dropped(h, n)| + |h.chats[n].last| <= |Sent(h, n)|
    ensures h.chats[n].last + Ids(Dropped(h, n)) == Ids(Sent(h, n))
    ensures Distinct(Sent(h, n)) ==>
              h.chats[n].last == Ids(Sent(h, n)) - Ids(Dropped(h, n)) && Distinct(Dropped(h, n))
  {
    HistoryRecorded(def, ctx, h);
    RecordAccounts(h, n);
    if Distinct(Sent(h, n)) {
      RecordExact(h, n);
    }
  }

  predicate HasId(c: ServerCall) {
    c.BMCall? || c.IssueCall? || c.ProofCall?
  }

  function IdAt(h: History, m: nat, i: nat): Option<string> {
    if m < |h.effs| && i < |h.effs[m].calls| && HasId(h.effs[m].calls[i]) then Some(h.effs[m].calls[i].id) else None
  }

  /** The server never gives an id twice. */
  ghost predicate UniqueIds(h: History) {
    forall m, i, n, j :: (m, i) != (n, j) && IdAt(h, m, i).Some? ==> IdAt(h, m, i) != IdAt(h, n, j)
  }

  lemma {:induction false} BMIdFrom(calls: seq<ServerCall>, id: string) returns (j: nat)
    requires id in BMIds(calls)
    ensures j < |calls| && calls[j].BMCall? && calls[j].id == id
  {
    var k := |calls| - 1;
    if id in BMIds(calls[..k]) {
      j := BMIdFrom(calls[..k], id);
    } else {
      j := k;
    }
  }

  lemma {:induction false} SentFrom(h: History, n: nat, id: string) returns (m: nat, j: nat)
    requires n < |h.effs| && id in Sent(h, n)
    ensures m <= n && j < |h.effs[m].calls| && h.effs[m].calls[j].BMCall? && h.effs[m].calls[j].id == id
  {
    if id in BMIds(h.effs[n].calls) {
      m := n;
      j := BMIdFrom(h.effs[n].calls, id);
    } else {
      m, j := SentFrom(h, n - 1, id);
    }
  }

  lemma UniqueFor(h: History, m: nat, i: nat, n: nat, j: nat)
    requires UniqueIds(h) && (m, i) != (n, j) && IdAt(h, m, i).Some?
    ensures IdAt(h, m, i) != IdAt(h, n, j)
  {
  }

  /** The status updates of the credentials and proof requests a conversation has sent
      are never dropped, when the server never gives an id twice. */
  lemma OurStatusesAreSeen(def: MachineDef, ctx: Ctx, h: History, n: nat, m: nat, i: nat)
    requires IsHistory(def, ctx, h) && UniqueIds(h) && n < |h.moves| && m <= n && i < |h.effs[m].calls|
    requires h.effs[m].calls[i].IssueCall? || h.effs[m].calls[i].ProofCall?
    requires h.moves[n].StatusOf? && h.moves[n].protocolID == h.effs[m].calls[i].id
    ensures !Drops(h, n)
  {
    HistoryRecorded(def, ctx, h);
    RecordAccounts(h, n);
    var id := h.moves[n].protocolID;
    if id in Sent(h, n) {
      var k, j := SentFrom(h, n, id);
      UniqueFor(h, m, i, k, j);
      assert false;
    }
  }
}
