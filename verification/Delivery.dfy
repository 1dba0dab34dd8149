/**
 What gets through between the conversations: the converse of what `ChatSystem` keeps out.
 A message that no filter names is handled, and the broker's messages reach everyone.
 */
module Delivery {
  import opened Wrappers
  import opened FsmTypes
  import opened FsmSpec
  import opened InPlace
  import opened ChatSpec
  import opened Contents
  import opened Telling
  import opened Dialogue
  import opened ChatRules
  import opened ChatSystem

  // ------------------------------------------------------- taking a message

  /** Somebody who sent the message on, or first, asked for no echo. */
  ghost predicate WantsNoEcho(cfg: Config, s: Sys, loc: Loc)
    requires loc in s.tags && loc.InBroker? && loc.index < |SendsAt(cfg.broker, loc.place)|
  {
    s.tags[loc].noEcho || SendsAt(cfg.broker, loc.place)[loc.index].noEcho
  }

  function SessionOf(mem: Mem): Option<string> {
    if SESSION_ID in mem then Some(mem[SESSION_ID]) else None
  }

  /** The reference is to a message that the broker built, and this is what it says. */
  ghost predicate Waits(cfg: Config, s: Sys, id: string, loc: Loc, msg: BackendMsg) {
    && id in s.chats && id in s.inbox && s.inbox[id] != [] && loc == s.inbox[id][0]
    && loc in s.tags && loc.InBroker? && loc.index < |SendsAt(cfg.broker, loc.place)|
    && Read(s, loc) == Some(msg) && msg.connID == s.tags[loc].origin != ""
    && msg.noEcho == WantsNoEcho(cfg, s, loc)
    && (PlainBroker(cfg.broker) && s.tags[loc].sessionID != "" ==> msg.sessionID == s.tags[loc].sessionID)
  }

  /** One of the two reasons to drop it, in terms of where it comes from. */
  ghost predicate Excluded(cfg: Config, s: Sys, id: string, loc: Loc, msg: BackendMsg)
    requires Waits(cfg, s, id, loc, msg)
  {
    || (SessionOf(s.chats[id].p.mem).Some? && SessionOf(s.chats[id].p.mem).value != msg.sessionID)
    || (WantsNoEcho(cfg, s, loc) && s.tags[loc].origin == id)
  }

  lemma AppliesBackend(cfg: Config, s: Sys, id: string, pins: nat -> string, ids: nat -> string)
      returns (loc: Loc, msg: BackendMsg)
    requires GoodConfig(cfg) && Inv(cfg, s) && id in s.chats && s.inbox[id] != []
    ensures Waits(cfg, s, id, loc, msg)
    ensures Shaped(cfg.chat, s.chats[id].slots)
    ensures ApplyBackend(cfg, s, id, pins, ids) ==
            AfterChat(cfg, Taken(s, id, msg), id,
                      BackendReceived(cfg.chat, ChatCtx(cfg, id), s.chats[id], msg, pins, ids))
  {
    loc := s.inbox[id][0];
    assert GoodLoc(cfg, s, loc);
    msg := Read(s, loc).value;
    WriteSame(s, loc, msg);
  }

  lemma NothingAfter(cfg: Config, s: Sys, id: string)
    requires id in s.chats
    ensures AfterChat(cfg, s, id, ChatNext(s.chats[id], Nothing, Idle)) == Some(s)
  {
    assert s.chats[id := s.chats[id]] == s.chats;
    assert s.queue + [] == s.queue;
    assert s.tags + map[] == s.tags;
  }

  /** Over every interleaving, when a conversation takes a message: it is dropped, and nothing
      else happens, exactly if it is of another room than the conversation's or wants no echo
      and comes from it. Otherwise the conversation looks for a trigger for it, and does all
      that a delivered message does. */
  lemma TakesOrDrops(cfg: Config, states: seq<Sys>, moves: seq<Move>, n: nat) returns (loc: Loc, msg: BackendMsg)
    requires GoodConfig(cfg) && IsRun(cfg, states, moves) && n < |moves| && moves[n].BackendMove?
    ensures Waits(cfg, states[n], moves[n].id, loc, msg)
    ensures
      var s, t, id := states[n], states[n + 1], moves[n].id;
      var rest := s.inbox[id := s.inbox[id][1..]];
      if Excluded(cfg, s, id, loc, msg) then t == s.(inbox := rest)
      else
        var seen := Eval(id, SessionOf(s.chats[id].p.mem), msg, s.tags[loc]);
        && Shaped(cfg.chat, s.chats[id].slots)
        && t.log == s.log + [seen]
        && Some(t) == AfterChat(cfg, s.(inbox := rest, log := s.log + [seen]), id,
             Deliver(cfg.chat, ChatCtx(cfg, id), s.chats[id], BackendEv(msg), moves[n].pins, moves[n].ids))
  {
    var s, id := states[n], moves[n].id;
    RoomsAndEchoes(cfg, states, moves, n);
    assert Moves(cfg, s, moves[n], states[n + 1]);
    loc, msg := AppliesBackend(cfg, s, id, moves[n].pins, moves[n].ids);
    if Excluded(cfg, s, id, loc, msg) {
      NothingAfter(cfg, Taken(s, id, msg), id);
    }
  }

  /** A conversation can always take the message that waits for it, unless handling it fails. */
  lemma CanTake(cfg: Config, states: seq<Sys>, moves: seq<Move>, n: nat, id: string, pins: nat -> string,
                ids: nat -> string)
    returns (loc: Loc, msg: BackendMsg)
    requires GoodConfig(cfg) && IsRun(cfg, states, moves) && n < |states|
    requires id in states[n].chats && id in states[n].inbox && states[n].inbox[id] != []
    ensures Waits(cfg, states[n], id, loc, msg) && Shaped(cfg.chat, states[n].chats[id].slots)
    ensures ApplyBackend(cfg, states[n], id, pins, ids).None? <==>
            && !Excluded(cfg, states[n], id, loc, msg)
            && Deliver(cfg.chat, ChatCtx(cfg, id), states[n].chats[id], BackendEv(msg), pins, ids).ChatCrash?
  {
    RoomsAndEchoes(cfg, states, moves, n);
    loc, msg := AppliesBackend(cfg, states[n], id, pins, ids);
    ReceivedCrashes(cfg, states[n], id, loc, msg, pins, ids);
  }

  lemma ReceivedCrashes(cfg: Config, s: Sys, id: string, loc: Loc, msg: BackendMsg, pins: nat -> string,
                        ids: nat -> string)
    requires Waits(cfg, s, id, loc, msg) && Shaped(cfg.chat, s.chats[id].slots)
    ensures BackendReceived(cfg.chat, ChatCtx(cfg, id), s.chats[id], msg, pins, ids).ChatCrash? <==>
            && !Excluded(cfg, s, id, loc, msg)
            && Deliver(cfg.chat, ChatCtx(cfg, id), s.chats[id], BackendEv(msg), pins, ids).ChatCrash?
  {
  }

  /** Nothing else is ever taken for a message of another conversation. */
  lemma OnlyTaken(cfg: Config, states: seq<Sys>, moves: seq<Move>, n: nat)
    requires GoodConfig(cfg) && IsRun(cfg, states, moves) && n < |moves| && !moves[n].BackendMove?
    ensures states[n + 1].log == states[n].log
  {
    assert Moves(cfg, states[n], moves[n], states[n + 1]);
  }

  // --------------------------------------------------------- sending and passing on

  lemma {:induction false} BackendSendsThose(sends: seq<SendDef>, i: nat)
    requires i <= |sends|
    ensures BackendSends(sends, i) == Those(sends, i, IsBackend)
    decreases |sends| - i
  {
    if i < |sends| {
      BackendSendsThose(sends, i + 1);
    }
  }

  /** Behind `before` there is a reference to each backend send of the fired list. */
  ghost predicate QueuesAll(t: Sys, id: string, fired: Fired, sends: seq<SendDef>, before: seq<Loc>)
    requires fired.Fired?
  {
    var ks := Those(sends, 0, IsBackend);
    && |t.queue| == |before| + |ks| && t.queue[..|before|] == before
    && forall j :: 0 <= j < |ks| ==> SentOn(t, id, fired, sends, ks[j], t.queue[|before| + j])
  }

  lemma CallQueues(cfg: Config, s: Sys, id: string, o: ChatOutcome)
    requires id in s.chats && o.ChatNext? && ChatStep(cfg, id, s.chats[id], o) && o.fired.Fired?
    requires AllHandled(SendsAt(cfg.chat, o.fired.place))
    requires o.eff.toBroker == Those(SendsAt(cfg.chat, o.fired.place), 0, IsBackend)
    ensures QueuesAll(AfterChat(cfg, s, id, o).value, id, o.fired, SendsAt(cfg.chat, o.fired.place), s.queue)
  {
    var t, sends := AfterChat(cfg, s, id, o).value, SendsAt(cfg.chat, o.fired.place);
    var ks, locs := Those(sends, 0, IsBackend), ChatLocs(id, o.fired, o.eff.toBroker);
    QueueIs(cfg, s, id, o);
    forall j | 0 <= j < |ks| ensures SentOn(t, id, o.fired, sends, ks[j], locs[j]) {
      TagOfSent(cfg, s, id, o, ks[j]);
    }
    QueuesBehind(t, id, o.fired, sends, s.queue, locs);
  }

  lemma QueuesBehind(t: Sys, id: string, fired: Fired, sends: seq<SendDef>, before: seq<Loc>, locs: seq<Loc>)
    requires fired.Fired? && t.queue == before + locs && |locs| == |Those(sends, 0, IsBackend)|
    requires forall j :: 0 <= j < |locs| ==> SentOn(t, id, fired, sends, Those(sends, 0, IsBackend)[j], locs[j])
    ensures QueuesAll(t, id, fired, sends, before)
  {
    forall j | 0 <= j < |locs| ensures t.queue[|before| + j] == locs[j] {
    }
  }

  lemma QueueIs(cfg: Config, s: Sys, id: string, o: ChatOutcome)
    requires o.ChatNext? && o.fired.Fired?
    ensures
      var locs := ChatLocs(id, o.fired, o.eff.toBroker);
      && AfterChat(cfg, s, id, o).value.queue == s.queue + locs && |locs| == |o.eff.toBroker|
      && forall j :: 0 <= j < |locs| ==> locs[j] == InChat(id, o.fired.place, o.eff.toBroker[j])
  {
  }

  /** A conversation's call puts a reference to each backend message it built, in order,
      behind what waits for the broker. Each is tagged with where it comes from. */
  lemma SendsOn(cfg: Config, s: Sys, id: string, ev: Ev, pins: nat -> string, ids: nat -> string)
    requires GoodConfig(cfg) && Tables(cfg, s) && id in s.chats
    ensures
      var o := Deliver(cfg.chat, ChatCtx(cfg, id), s.chats[id], ev, pins, ids);
      var t := AfterChat(cfg, s, id, o);
      o.ChatNext? ==>
        && t.Some? && t.value.inbox == s.inbox
        && if o.fired.Idle? || !AllHandled(SendsAt(cfg.chat, o.fired.place)) then t.value.queue == s.queue
           else QueuesAll(t.value, id, o.fired, SendsAt(cfg.chat, o.fired.place), s.queue)
  {
    var chat := s.chats[id];
    var o := Deliver(cfg.chat, ChatCtx(cfg, id), chat, ev, pins, ids);
    if o.ChatNext? {
      DeliverSends(cfg.chat, ChatCtx(cfg, id), chat, ev, pins, ids);
      DeliverSteps(cfg, id, chat, ev, pins, ids);
      if o.fired.Fired? && AllHandled(SendsAt(cfg.chat, o.fired.place)) {
        CallQueues(cfg, s, id, o);
      }
    }
  }

  /** The reference is to send k of the fired list, and its tag says so. */
  ghost predicate SentOn(t: Sys, id: string, fired: Fired, sends: seq<SendDef>, k: nat, loc: Loc)
    requires fired.Fired?
  {
    && k < |sends| && loc == InChat(id, fired.place, k) && loc in t.tags
    && t.tags[loc].origin == id && t.tags[loc].noEcho == sends[k].noEcho
  }

  lemma TagOfSent(cfg: Config, s: Sys, id: string, o: ChatOutcome, k: nat)
    requires id in s.chats && o.ChatNext? && ChatStep(cfg, id, s.chats[id], o) && o.fired.Fired?
    requires AllHandled(SendsAt(cfg.chat, o.fired.place))
    requires k < |SendsAt(cfg.chat, o.fired.place)| && SendsAt(cfg.chat, o.fired.place)[k].protocol == Backend
    ensures SentOn(AfterChat(cfg, s, id, o).value, id, o.fired, SendsAt(cfg.chat, o.fired.place), k,
                   InChat(id, o.fired.place, k))
  {
    var sends := SendsAt(cfg.chat, o.fired.place);
    assert Rebuilt(sends, k);
    assert k in Indexes(sends);
    assert InChat(id, o.fired.place, k) in ChatTags(id, o.fired.place, sends, o.fired.held);
  }

  // ------------------------------------------------------------- the broadcast

  /** The reference is to send k of the broker's fired list: a message from where the received
      one is from, with the text that the table gives it. */
  ghost predicate PassedOn(cfg: Config, t: Sys, tag: Tag, msg: BackendMsg, place: Place, k: nat, loc: Loc) {
    && k < |SendsAt(cfg.broker, place)| && loc == InBroker(place, k) && loc in t.tags && t.tags[loc] == tag
    && Read(t, loc).Some? && Read(t, loc).value.connID == tag.origin
    && var d := SendsAt(cfg.broker, place)[k];
       && Read(t, loc).value.noEcho == (tag.noEcho || d.noEcho)
       && (d.rule == UseInput ==> Read(t, loc).value.content == msg.content)
       && (d.rule == DataAsIs ==> Read(t, loc).value.content == d.data)
  }

  /** Everyone's inbox gets a reference to each backend send of the fired list. */
  ghost predicate ReachesAll(cfg: Config, before: map<string, seq<Loc>>, t: Sys, tag: Tag, msg: BackendMsg,
                             place: Place)
  {
    t.inbox.Keys == before.Keys && forall id :: id in before ==> Reaches(cfg, before[id], t, tag, msg, place, id)
  }

  ghost predicate Reaches(cfg: Config, before: seq<Loc>, t: Sys, tag: Tag, msg: BackendMsg, place: Place, id: string)
    requires id in t.inbox
  {
    var ks := Those(SendsAt(cfg.broker, place), 0, IsBackend);
    && |t.inbox[id]| == |before| + |ks| && t.inbox[id][..|before|] == before
    && forall j :: 0 <= j < |ks| ==> PassedOn(cfg, t, tag, msg, place, ks[j], t.inbox[id][|before| + j])
  }

  /** Every backend message that the broker built has the text that its send says. */
  ghost predicate BuiltTexts(cfg: Config, msg: BackendMsg, o: Outcome) {
    match o
    case Next(_, Fired(place, held, handled, _)) =>
      && |held| == |SendsAt(cfg.broker, place)| && (handled <==> AllHandled(SendsAt(cfg.broker, place)))
      && forall k :: 0 <= k < |held| && handled ==> TextOf(SendsAt(cfg.broker, place)[k], held[k], msg)
    case _ => true
  }

  ghost predicate TextOf(d: SendDef, e: Option<EventValue>, msg: BackendMsg) {
    d.protocol == Backend ==>
      && MessageOf(e).Some?
      && (d.rule == UseInput ==> MessageOf(e).value.content == msg.content)
      && (d.rule == DataAsIs ==> MessageOf(e).value.content == d.data)
  }

  lemma TextSaid(ctx: Ctx, t: TransitionDef, mem: Mem, msg: BackendMsg, held: Held, pins: nat -> string, k: nat)
    requires AllSettled(ctx, t.sends, held) && k < |t.sends|
    ensures var b := BuildFor(ctx, t, mem, BackendEv(msg), held, pins);
            b.Turn? && b.handled ==> TextOf(t.sends[k], b.held[k], msg)
  {
    TurnSays(ctx, t, mem, BackendEv(msg), held, pins);
    var b := BuildFor(ctx, t, mem, BackendEv(msg), held, pins);
    assert b.Turn? && b.handled ==>
             SaysAt(ctx, t.sends, t.trigger, BackendEv(msg), pins, Saved(ctx, t.trigger, mem, BackendEv(msg)), k,
                 b.held);
  }

  /** What the broker builds for a message, whatever its table has been through. */
  lemma BrokerTexts(cfg: Config, s: Sys, msg: BackendMsg, pins: nat -> string)
    requires GoodConfig(cfg) && Tables(cfg, s)
    ensures BuiltTexts(cfg, msg, Handle(cfg.broker, BrokerCtx(cfg), s.broker, s.brokerSlots, BackendEv(msg), pins))
  {
    var ctx, p, ev := BrokerCtx(cfg), s.broker, BackendEv(msg);
    if p.current in cfg.broker.states {
      var trs := cfg.broker.states[p.current].transitions;
      match Select(ctx.env, trs, 0, p.mem, ev)
      case Selection(m, Pick(i, _)) =>
        var held := s.brokerSlots[Place(p.current, i)];
        TurnHandled(ctx, trs[i], m, ev, held, pins);
        forall k | 0 <= k < |trs[i].sends|
          ensures var b := BuildFor(ctx, trs[i], m, ev, held, pins);
                  b.Turn? && b.handled ==> TextOf(trs[i].sends[k], b.held[k], msg)
        {
          TextSaid(ctx, trs[i], m, msg, held, pins, k);
        }
      case _ =>
    }
  }

  /** A broadcast: what the broker made of the message at `from`. */
  ghost predicate Broadcasts(cfg: Config, s: Sys, from: Loc, msg: BackendMsg, o: Outcome) {
    && from in s.tags && from.InChat? && GoodIncoming(cfg, msg, s.tags[from])
    && o.Next? && BrokerStep(cfg, s.brokerSlots, msg, o) && BuiltTexts(cfg, msg, o)
  }

  /** The broker's table passes the message on. */
  ghost predicate Passes(cfg: Config, o: Outcome) {
    o.Next? && o.fired.Fired? && AllHandled(SendsAt(cfg.broker, o.fired.place))
  }

  /** One location of the broadcast. */
  lemma PassedOne(cfg: Config, s: Sys, from: Loc, msg: BackendMsg, o: Outcome, k: nat)
    requires Broadcasts(cfg, s, from, msg, o) && Passes(cfg, o)
    requires k < |SendsAt(cfg.broker, o.fired.place)| && SendsAt(cfg.broker, o.fired.place)[k].protocol == Backend
    ensures PassedOn(cfg, AfterBroker(cfg, s, from, s.tags[from], o).value, s.tags[from], msg, o.fired.place, k,
                     InBroker(o.fired.place, k))
  {
    var sends := SendsAt(cfg.broker, o.fired.place);
    assert Rebuilt(sends, k);
    assert TextOf(sends[k], o.fired.held[k], msg);
    assert k in Indexes(sends);
    assert InBroker(o.fired.place, k) in BrokerTags(o.fired.place, sends, s.tags[from]);
    ReadsBuilt(cfg, s, from, o, k);
  }

  lemma ReadsBuilt(cfg: Config, s: Sys, from: Loc, o: Outcome, k: nat)
    requires from in s.tags && from.InChat? && o.Next? && o.fired.Fired? && k < |o.fired.held|
    ensures Read(AfterBroker(cfg, s, from, s.tags[from], o).value, InBroker(o.fired.place, k)) ==
        MessageOf(o.fired.held[k])
  {
  }

  lemma InboxAfter(cfg: Config, s: Sys, from: Loc, o: Outcome, id: string)
    requires from in s.tags && from.InChat? && o.Next? && id in s.inbox
    ensures
      var t := AfterBroker(cfg, s, from, s.tags[from], o).value;
      && t.inbox.Keys == s.inbox.Keys && t.queue == s.queue
      && t.inbox[id] == s.inbox[id] + if o.fired.Fired? && o.fired.handled
                                      then BrokerLocs(o.fired.place, BackendSends(SendsAt(cfg.broker, o.fired.place),
                                          0))
                                      else []
  {
  }

  lemma ReachesOne(cfg: Config, s: Sys, from: Loc, msg: BackendMsg, o: Outcome, id: string)
    requires Broadcasts(cfg, s, from, msg, o) && Passes(cfg, o) && id in s.inbox
    ensures
      var t := AfterBroker(cfg, s, from, s.tags[from], o).value;
      id in t.inbox && Reaches(cfg, s.inbox[id], t, s.tags[from], msg, o.fired.place, id)
  {
    var t, place := AfterBroker(cfg, s, from, s.tags[from], o).value, o.fired.place;
    var ks := Those(SendsAt(cfg.broker, place), 0, IsBackend);
    InboxAfter(cfg, s, from, o, id);
    BackendSendsThose(SendsAt(cfg.broker, place), 0);
    forall j | 0 <= j < |ks|
      ensures PassedOn(cfg, t, s.tags[from], msg, place, ks[j], t.inbox[id][|s.inbox[id]| + j])
    {
      PassedOne(cfg, s, from, msg, o, ks[j]);
    }
  }

  lemma NobodyReached(cfg: Config, s: Sys, from: Loc, msg: BackendMsg, o: Outcome)
    requires Broadcasts(cfg, s, from, msg, o) && !Passes(cfg, o)
    ensures AfterBroker(cfg, s, from, s.tags[from], o).value.inbox == s.inbox
  {
    forall id | id in s.inbox
      ensures var t := AfterBroker(cfg, s, from, s.tags[from], o).value;
              t.inbox.Keys == s.inbox.Keys && t.inbox[id] == s.inbox[id]
    {
      InboxAfter(cfg, s, from, o, id);
      assert s.inbox[id] + [] == s.inbox[id];
    }
  }

  lemma BroadcastReaches(cfg: Config, s: Sys, from: Loc, msg: BackendMsg, o: Outcome)
    requires Broadcasts(cfg, s, from, msg, o)
    ensures
      var t := AfterBroker(cfg, s, from, s.tags[from], o).value;
      && t.queue == s.queue && t.broker == o.p
      && if Passes(cfg, o) then ReachesAll(cfg, s.inbox, t, s.tags[from], msg, o.fired.place) else t.inbox == s.inbox
  {
    if Passes(cfg, o) {
      forall id | id in s.inbox
        ensures
          var t := AfterBroker(cfg, s, from, s.tags[from], o).value;
          id in t.inbox && Reaches(cfg, s.inbox[id], t, s.tags[from], msg, o.fired.place, id)
      {
        ReachesOne(cfg, s, from, msg, o, id);
      }
    } else {
      NobodyReached(cfg, s, from, msg, o);
    }
  }

  /** Over every interleaving, when the broker takes a message: it takes the first that waits,
      and if its table passes it on, everyone's inbox, the sender's too, gets a reference to
      each backend message that was built, in order, from the same originator. An INPUT send
      carries the text that came in. */
  lemma PassesOn(cfg: Config, states: seq<Sys>, moves: seq<Move>, n: nat) returns (from: Loc, msg: BackendMsg)
    requires GoodConfig(cfg) && IsRun(cfg, states, moves) && n < |moves| && moves[n].BrokerMove?
    ensures
      var s, t := states[n], states[n + 1];
      && s.queue != [] && from == s.queue[0] && from in s.tags && Read(s, from) == Some(msg)
      && t.queue == s.queue[1..] && Shaped(cfg.broker, s.brokerSlots)
      && var o := Handle(cfg.broker, BrokerCtx(cfg), s.broker, s.brokerSlots, BackendEv(msg), moves[n].pins);
         && o.Next? && t.broker == o.p
         && if Passes(cfg, o) then ReachesAll(cfg, s.inbox, t, s.tags[from], msg, o.fired.place) else t.inbox == s.inbox
  {
    RoomsAndEchoes(cfg, states, moves, n);
    assert Moves(cfg, states[n], moves[n], states[n + 1]);
    from := states[n].queue[0];
    assert GoodLoc(cfg, states[n], from);
    msg := Read(states[n], from).value;
    BrokerTakes(cfg, states[n], from, msg, moves[n].pins, states[n + 1]);
  }

  lemma BrokerTakes(cfg: Config, s: Sys, from: Loc, msg: BackendMsg, pins: nat -> string, t: Sys)
    requires GoodConfig(cfg) && Inv(cfg, s) && s.queue != [] && from == s.queue[0] && Read(s, from) == Some(msg)
    requires from.InChat? && GoodIncoming(cfg, msg, s.tags[from]) && ApplyBroker(cfg, s, pins) == Some(t)
    ensures
      var o := Handle(cfg.broker, BrokerCtx(cfg), s.broker, s.brokerSlots, BackendEv(msg), pins);
      && o.Next? && t.broker == o.p && t.queue == s.queue[1..]
      && if Passes(cfg, o) then ReachesAll(cfg, s.inbox, t, s.tags[from], msg, o.fired.place) else t.inbox == s.inbox
  {
    BrokerSteps(cfg, s, msg, pins);
    BrokerTexts(cfg, s, msg, pins);
    var o := Handle(cfg.broker, BrokerCtx(cfg), s.broker, s.brokerSlots, BackendEv(msg), pins);
    var rest := s.(queue := s.queue[1..]);
    assert AfterBroker(cfg, rest, from, rest.tags[from], o) == Some(t);
    BroadcastReaches(cfg, rest, from, msg, o);
  }
}
