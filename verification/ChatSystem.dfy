/**
 The whole bot: one machine per connection and one broker machine, joined by
 channels of message references. A reference says in whose table the message object
 hangs; the receiver reads the object when it takes the reference, so it sees what
 later builds of the sender wrote there. Every interleaving of the handlers is a run.
 */
module ChatSystem {
  import opened Wrappers
  import opened FsmTypes
  import opened FsmSpec
  import opened InPlace
  import opened ChatSpec
  import opened ChatRules

  /** A message object: the one that a backend send of a table builds on. */
  datatype Loc =
    | InChat(id: string, place: Place, index: nat)
    | InBroker(place: Place, index: nat)

  /** Where a message comes from, which the code does not keep: the conversation that
      built it first, whether that send asked for no echo, and its session then. */
  datatype Tag = Tag(origin: string, noEcho: bool, sessionID: string)

  /** A conversation looked for a trigger for a message. */
  datatype Eval = Eval(id: string, session: Option<string>, msg: BackendMsg, tag: Tag)

  datatype Config = Config(env: Env, chat: MachineDef, chatFile: Slots, broker: MachineDef, brokerFile: Slots)

  datatype Sys = Sys(
    chats: map<string, Chat>, inbox: map<string, seq<Loc>>,
    broker: PState, brokerSlots: Slots, queue: seq<Loc>,
    tags: map<Loc, Tag>, log: seq<Eval>)

  /** One atomic handler call somewhere in the bot. */
  datatype Move =
    | Open(id: string, pins: nat -> string, ids: nat -> string)
    | StatusMove(id: string, protocolID: string, status: Status, pins: nat -> string, ids: nat -> string)
    | EventMove(id: string, ev: Ev, pins: nat -> string, ids: nat -> string)
    | BrokerMove(pins: nat -> string)
    | BackendMove(id: string, pins: nat -> string, ids: nat -> string)

  function ChatCtx(cfg: Config, id: string): Ctx {
    Ctx(cfg.env, Conversation, id)
  }

  function BrokerCtx(cfg: Config): Ctx {
    Ctx(cfg.env, Broker, "")
  }

  ghost predicate GoodConfig(cfg: Config) {
    && cfg.chat.mtype == Conversation && cfg.broker.mtype == Broker
    && Pristine(cfg.chat, cfg.chatFile) && Pristine(cfg.broker, cfg.brokerFile)
    && NoPresetConnID(cfg.chat)
  }

  function SendsAt(def: MachineDef, place: Place): seq<SendDef> {
    if place.state in def.states && place.index < |def.states[place.state].transitions|
    then def.states[place.state].transitions[place.index].sends else []
  }

  function HeldAt(slots: Slots, place: Place, index: nat): Option<EventValue> {
    if place in slots && index < |slots[place]| then slots[place][index] else None
  }

  /** Reads a message object. */
  function Read(s: Sys, loc: Loc): Option<BackendMsg> {
    match loc
    case InChat(id, place, k) => if id in s.chats then MessageOf(HeldAt(s.chats[id].slots, place, k)) else None
    case InBroker(place, k) => MessageOf(HeldAt(s.brokerSlots, place, k))
  }

  function WriteSlot(slots: Slots, place: Place, k: nat, msg: BackendMsg): Slots {
    if place in slots && k < |slots[place]| && slots[place][k].Some?
    then slots[place := slots[place][k := Some(slots[place][k].value.(backend := Some(msg)))]] else slots
  }

  /** Writes a message object, as a receiver may. */
  function Write(s: Sys, loc: Loc, msg: BackendMsg): Sys {
    match loc
    case InChat(id, place, k) =>
      if id in s.chats then
        s.(chats := s.chats[id := s.chats[id].(slots := WriteSlot(s.chats[id].slots, place, k, msg))])
      else s
    case InBroker(place, k) => s.(brokerSlots := WriteSlot(s.brokerSlots, place, k, msg))
  }

  function Indexes(sends: seq<SendDef>): set<nat> {
    set k: nat | 0 <= k < |sends| && Rebuilt(sends, k)
  }

  // ------------------------------------------------------- a conversation's call

  function ChatTags(id: string, place: Place, sends: seq<SendDef>, held: Held): map<Loc, Tag>
    requires |held| == |sends|
  {
    map k | k in Indexes(sends) ::
      InChat(id, place, k) := Tag(id, sends[k].noEcho, if MessageOf(held[k]).Some?
          then MessageOf(held[k]).value.sessionID else "")
  }

  function ChatLocs(id: string, fired: Fired, ks: seq<nat>): seq<Loc> {
    if fired.Idle? then [] else seq(|ks|, i requires 0 <= i < |ks| => InChat(id, fired.place, ks[i]))
  }

  /** The bot after a conversation's handler. */
  function AfterChat(cfg: Config, s: Sys, id: string, o: ChatOutcome): Option<Sys> {
    match o
    case ChatCrash => None
    case ChatNext(chat, eff, fired) =>
      var tags := if fired.Idle? || |fired.held| != |SendsAt(cfg.chat, fired.place)| then map[]
                  else ChatTags(id, fired.place, SendsAt(cfg.chat, fired.place), fired.held);
      Some(s.(chats := s.chats[id := chat],
              queue := s.queue + ChatLocs(id, fired, eff.toBroker),
              tags := s.tags + tags))
  }

  // ----------------------------------------------------------- the broker's call

  function BrokerTags(place: Place, sends: seq<SendDef>, tag: Tag): map<Loc, Tag> {
    map k | k in Indexes(sends) :: InBroker(place, k) := tag
  }

  function BrokerLocs(place: Place, ks: seq<nat>): seq<Loc> {
    seq(|ks|, i requires 0 <= i < |ks| => InBroker(place, ks[i]))
  }

  /** The bot after the broker handled a message with this tag: every conversation
      that exists gets a reference to every backend message that was built. */
  function AfterBroker(cfg: Config, s: Sys, loc: Loc, tag: Tag, o: Outcome): Option<Sys> {
    match o
    case Crash => None
    case Next(p, Idle) => Some(s.(broker := p))
    case Next(p, Fired(place, held, handled, msg)) =>
      var sends := SendsAt(cfg.broker, place);
      var locs := if handled then BrokerLocs(place, BackendSends(sends, 0)) else [];
      var s1 := if msg.Some? then Write(s, loc, msg.value) else s;
      Some(s1.(broker := p, brokerSlots := After(s.brokerSlots, o),
               inbox := map id | id in s.inbox :: s.inbox[id] + locs,
               tags := s.tags + BrokerTags(place, sends, tag)))
  }

  // ----------------------------------------------------------------- the moves

  ghost predicate Tables(cfg: Config, s: Sys) {
    && (forall id :: id in s.chats ==> id != "" && TableSettled(cfg.chat, ChatCtx(cfg, id), s.chats[id].slots))
    && TableSettled(cfg.broker, BrokerCtx(cfg), s.brokerSlots)
    && s.inbox.Keys == s.chats.Keys
  }

  /** The bot after a conversation took the head of its inbox, before it handles it. */
  ghost function Taken(s: Sys, id: string, msg: BackendMsg): Sys
    requires id in s.chats && id in s.inbox && s.inbox[id] != [] && s.inbox[id][0] in s.tags
  {
    var mem := s.chats[id].p.mem;
    var seen := Eval(id, if SESSION_ID in mem then Some(mem[SESSION_ID]) else None, msg, s.tags[s.inbox[id][0]]);
    s.(inbox := s.inbox[id := s.inbox[id][1..]],
       log := if Filtered(mem, id, msg) then s.log else s.log + [seen])
  }

  /** A conversation takes a message reference, fills in a missing id in the object it
      refers to, and handles what the object says now. */
  ghost function ApplyBackend(cfg: Config, s: Sys, id: string, pins: nat -> string, ids: nat -> string): Option<Sys> {
    if id !in s.chats || id !in s.inbox || s.inbox[id] == [] || s.inbox[id][0] !in s.tags ||
        Read(s, s.inbox[id][0]).None?
    then None
    else
      var loc := s.inbox[id][0];
      var msg := Addressed(id, Read(s, loc).value);
      var s1 := Taken(Write(s, loc, msg), id, msg);
      if !Shaped(cfg.chat, s1.chats[id].slots) then None
      else AfterChat(cfg, s1, id, BackendReceived(cfg.chat, ChatCtx(cfg, id), s1.chats[id], msg, pins, ids))
  }

  /** The broker takes a message reference and handles what the object says now. */
  ghost function ApplyBroker(cfg: Config, s: Sys, pins: nat -> string): Option<Sys>
    requires Shaped(cfg.broker, s.brokerSlots)
  {
    if s.queue == [] || s.queue[0] !in s.tags || Read(s, s.queue[0]).None? then None
    else
      var loc := s.queue[0];
      AfterBroker(cfg, s.(queue := s.queue[1..]), loc, s.tags[loc],
                  Handle(cfg.broker, BrokerCtx(cfg), s.broker, s.brokerSlots, BackendEv(Read(s, loc).value), pins))
  }

  /** None: the move cannot be made here, or it ends the process. */
  ghost function Apply(cfg: Config, s: Sys, move: Move): Option<Sys>
    requires GoodConfig(cfg) && Tables(cfg, s)
  {
    match move
    case Open(id, pins, ids) =>
      if id == "" || id in s.chats then None
      else
        (match OpenChat(cfg.chat, ChatCtx(cfg, id), cfg.chatFile, pins, ids)
         case ChatCrash => None
         case ChatNext(chat, _, _) => Some(s.(chats := s.chats[id := chat], inbox := s.inbox[id := []])))
    case StatusMove(id, protocolID, status, pins, ids) =>
      if id !in s.chats then None
      else AfterChat(cfg, s, id, StatusReceived(cfg.chat, ChatCtx(cfg, id), s.chats[id], protocolID, status, pins, ids))
    case EventMove(id, ev, pins, ids) =>
      if id !in s.chats || ev.StatusEv? || ev.BackendEv? then None
      else AfterChat(cfg, s, id, Deliver(cfg.chat, ChatCtx(cfg, id), s.chats[id], ev, pins, ids))
    case BrokerMove(pins) => ApplyBroker(cfg, s, pins)
    case BackendMove(id, pins, ids) => ApplyBackend(cfg, s, id, pins, ids)
  }

  // ------------------------------------------------------------- the invariant

  /** The object is a backend send's, and says what its tag says. */
  ghost predicate GoodChatMessage(cfg: Config, id: string, place: Place, k: nat, msg: BackendMsg, tag: Tag) {
    && k < |SendsAt(cfg.chat, place)| && SendsAt(cfg.chat, place)[k].protocol == Backend
    && msg.connID == id == tag.origin
    && msg.noEcho == tag.noEcho
    && (PlainBroker(cfg.broker) ==> msg.sessionID == tag.sessionID)
  }

  ghost predicate GoodBrokerMessage(cfg: Config, place: Place, k: nat, msg: BackendMsg, tag: Tag) {
    && k < |SendsAt(cfg.broker, place)| && SendsAt(cfg.broker, place)[k].protocol == Backend
    && msg.connID == tag.origin != ""
    && msg.noEcho == (tag.noEcho || SendsAt(cfg.broker, place)[k].noEcho)
    && (PlainBroker(cfg.broker) && tag.sessionID != "" ==> msg.sessionID == tag.sessionID)
  }

  ghost predicate GoodLoc(cfg: Config, s: Sys, loc: Loc)
    requires loc in s.tags
  {
    && Read(s, loc).Some?
    && match loc
       case InChat(id, place, k) => id in s.chats && GoodChatMessage(cfg, id, place, k, Read(s, loc).value, s.tags[loc])
       case InBroker(place, k) => GoodBrokerMessage(cfg, place, k, Read(s, loc).value, s.tags[loc])
  }

  /** What the theorem says about one evaluation. */
  ghost predicate Allowed(cfg: Config, e: Eval) {
    // the filter, on the message as it is read
    && (e.session.Some? ==> e.session.value == e.msg.sessionID)
    && !(e.msg.noEcho && e.msg.connID == e.id)
    // and what that means for where the message comes from
    && e.msg.connID == e.tag.origin
    && !(e.tag.noEcho && e.tag.origin == e.id)
    && !(e.msg.noEcho && e.tag.origin == e.id)
    && (PlainBroker(cfg.broker) && e.tag.sessionID != "" && e.session.Some? ==> e.session.value == e.tag.sessionID)
  }

  ghost predicate Inv(cfg: Config, s: Sys) {
    && Tables(cfg, s)
    && (forall loc :: loc in s.tags ==> GoodLoc(cfg, s, loc))
    && (forall i :: 0 <= i < |s.queue| ==> s.queue[i] in s.tags && s.queue[i].InChat?)
    && (forall id, i :: id in s.inbox && 0 <= i < |s.inbox[id]| ==>
        s.inbox[id][i] in s.tags && s.inbox[id][i].InBroker?)
    && (forall i :: 0 <= i < |s.log| ==> Allowed(cfg, s.log[i]))
  }

  // ------------------------------------------------------ a conversation's move

  /** The conversation's table after a call, as far as messages go: a rebuilt send says
      what ChatBuilt says, every other backend send holds what it held. */
  ghost predicate ChatTableNext(cfg: Config, id: string, before: Slots, place: Place, held: Held, after: Slots) {
    var sends := SendsAt(cfg.chat, place);
    && |held| == |sends| && place in before && |before[place]| == |sends| && after == before[place := held]
    && forall k :: 0 <= k < |sends| ==>
         if Rebuilt(sends, k) then ChatBuilt(ChatCtx(cfg, id), sends[k], held[k])
         else sends[k].protocol == Backend ==> held[k] == before[place][k]
  }

  /** The locations of the backend sends that went out are all rebuilt. */
  ghost predicate SentRebuilt(cfg: Config, place: Place, ks: seq<nat>) {
    forall x :: x in ks ==> Rebuilt(SendsAt(cfg.chat, place), x)
  }

  ghost predicate ChatStep(cfg: Config, id: string, before: Chat, o: ChatOutcome) {
    match o
    case ChatCrash => true
    case ChatNext(chat, eff, Idle) => chat.slots == before.slots && eff == Nothing
    case ChatNext(chat, eff, Fired(place, held, _, _)) =>
      && ChatTableNext(cfg, id, before.slots, place, held, chat.slots)
      && SentRebuilt(cfg, place, eff.toBroker)
  }

  lemma DeliverSteps(cfg: Config, id: string, chat: Chat, ev: Ev, pins: nat -> string, ids: nat -> string)
    requires GoodConfig(cfg) && TableSettled(cfg.chat, ChatCtx(cfg, id), chat.slots)
    ensures
      var o := Deliver(cfg.chat, ChatCtx(cfg, id), chat, ev, pins, ids);
      && ChatStep(cfg, id, chat, o)
      && (o.ChatNext? ==> TableSettled(cfg.chat, ChatCtx(cfg, id), o.chat.slots))
  {
    var ctx := ChatCtx(cfg, id);
    HandleSettled(cfg.chat, ctx, chat.p, chat.slots, ev, pins);
    ChatHandles(cfg.chat, ctx, chat.p, chat.slots, ev, pins);
    var h := Handle(cfg.chat, ctx, chat.p, chat.slots, ev, pins);
    var o := Deliver(cfg.chat, ctx, chat, ev, pins, ids);
    if h.Next? && h.fired.Fired? && h.fired.handled && o.ChatNext? {
      SendsToBroker(SendsAt(cfg.chat, h.fired.place), h.fired.held, 0, ev.StatusEv? || ev.QuestionEv?, ids, Nothing);
    }
  }

  /** One location, before and after a conversation's call. */
  lemma ChatLocKept(cfg: Config, s: Sys, id: string, o: ChatOutcome, loc: Loc)
    requires id in s.chats && o.ChatNext? && ChatStep(cfg, id, s.chats[id], o)
    requires loc in s.tags ==> GoodLoc(cfg, s, loc)
    ensures
      var t := AfterChat(cfg, s, id, o).value;
      loc in t.tags ==> GoodLoc(cfg, t, loc)
  {
    if o.fired.Fired? && loc.InChat? && loc.id == id && loc.place == o.fired.place &&
        loc.index in Indexes(SendsAt(cfg.chat, loc.place)) {
      RebuiltLoc(cfg, s, id, o, loc.index);
    } else {
      OtherLoc(cfg, s, id, o, loc);
    }
  }

  lemma RebuiltLoc(cfg: Config, s: Sys, id: string, o: ChatOutcome, k: nat)
    requires id in s.chats && o.ChatNext? && ChatStep(cfg, id, s.chats[id], o)
    requires o.fired.Fired? && k in Indexes(SendsAt(cfg.chat, o.fired.place))
    ensures
      var t, loc := AfterChat(cfg, s, id, o).value, InChat(id, o.fired.place, k);
      loc in t.tags && GoodLoc(cfg, t, loc)
  {
    var sends := SendsAt(cfg.chat, o.fired.place);
    var loc := InChat(id, o.fired.place, k);
    var tags := ChatTags(id, o.fired.place, sends, o.fired.held);
    assert ChatBuilt(ChatCtx(cfg, id), sends[k], o.fired.held[k]);
    assert loc in tags;
    assert tags[loc] == Tag(id, sends[k].noEcho, MessageOf(o.fired.held[k]).value.sessionID);
  }

  lemma OtherLoc(cfg: Config, s: Sys, id: string, o: ChatOutcome, loc: Loc)
    requires id in s.chats && o.ChatNext? && ChatStep(cfg, id, s.chats[id], o)
    requires loc in s.tags ==> GoodLoc(cfg, s, loc)
    requires !(o.fired.Fired? && loc.InChat? && loc.id == id && loc.place == o.fired.place
               && loc.index in Indexes(SendsAt(cfg.chat, loc.place)))
    ensures
      var t := AfterChat(cfg, s, id, o).value;
      loc in t.tags ==> GoodLoc(cfg, t, loc)
  {
    var t := AfterChat(cfg, s, id, o).value;
    if loc in t.tags {
      assert loc in s.tags && t.tags[loc] == s.tags[loc];
      assert Read(t, loc) == Read(s, loc);
    }
  }

  /** The references that a conversation sends are to messages that it has just tagged. */
  lemma SentAreTagged(cfg: Config, s: Sys, id: string, o: ChatOutcome)
    requires id in s.chats && o.ChatNext? && ChatStep(cfg, id, s.chats[id], o)
    requires forall i :: 0 <= i < |s.queue| ==> s.queue[i] in s.tags && s.queue[i].InChat?
    ensures
      var t := AfterChat(cfg, s, id, o).value;
      forall i :: 0 <= i < |t.queue| ==> t.queue[i] in t.tags && t.queue[i].InChat?
  {
    var t := AfterChat(cfg, s, id, o).value;
    if o.fired.Fired? {
      var sends := SendsAt(cfg.chat, o.fired.place);
      forall i | 0 <= i < |o.eff.toBroker|
        ensures ChatLocs(id, o.fired, o.eff.toBroker)[i] in t.tags
      {
        assert o.eff.toBroker[i] in o.eff.toBroker;
        assert o.eff.toBroker[i] in Indexes(sends);
      }
    }
  }

  lemma AfterChatTables(cfg: Config, s: Sys, id: string, o: ChatOutcome)
    requires Tables(cfg, s) && id in s.chats && o.ChatNext? && TableSettled(cfg.chat, ChatCtx(cfg, id), o.chat.slots)
    ensures Tables(cfg, AfterChat(cfg, s, id, o).value)
  {
  }

  lemma AfterChatKeeps(cfg: Config, s: Sys, id: string, o: ChatOutcome)
    requires GoodConfig(cfg) && Inv(cfg, s) && id in s.chats && o.ChatNext?
    requires ChatStep(cfg, id, s.chats[id], o) && TableSettled(cfg.chat, ChatCtx(cfg, id), o.chat.slots)
    ensures Inv(cfg, AfterChat(cfg, s, id, o).value)
  {
    var t := AfterChat(cfg, s, id, o).value;
    AfterChatTables(cfg, s, id, o);
    forall loc | loc in t.tags ensures GoodLoc(cfg, t, loc) {
      ChatLocKept(cfg, s, id, o, loc);
    }
    SentAreTagged(cfg, s, id, o);
  }

  // ---------------------------------------------------------- the broker's move

  lemma WriteSettled(cfg: Config, id: string, slots: Slots, place: Place, k: nat, msg: BackendMsg)
    requires GoodConfig(cfg) && TableSettled(cfg.chat, ChatCtx(cfg, id), slots)
    requires k < |SendsAt(cfg.chat, place)| && SendsAt(cfg.chat, place)[k].protocol == Backend
    requires MessageOf(HeldAt(slots, place, k)).Some?
    requires msg == MessageOf(HeldAt(slots, place, k)).value.(sessionID := msg.sessionID) && msg.connID == id
    ensures TableSettled(cfg.chat, ChatCtx(cfg, id), WriteSlot(slots, place, k, msg))
  {
    var ctx := ChatCtx(cfg, id);
    var d, e := SendsAt(cfg.chat, place)[k], slots[place][k];
    assert AllSettled(ctx, SendsAt(cfg.chat, place), slots[place]);
    assert Settled(ctx, d, e);
    assert SettledMessage(ctx, d, e.value.(backend := Some(msg)));
  }

  lemma {:induction false} BackendSendsAre(sends: seq<SendDef>, i: nat)
    requires i <= |sends|
    ensures forall x :: x in BackendSends(sends, i) ==> i <= x < |sends| && sends[x].protocol == Backend
    decreases |sends| - i
  {
    if i < |sends| {
      BackendSendsAre(sends, i + 1);
    }
  }

  /** The broker's table after it handled a message, as far as messages go. */
  ghost predicate BrokerStep(cfg: Config, before: Slots, msg: BackendMsg, o: Outcome) {
    match o
    case Crash => true
    case Next(_, Idle) => true
    case Next(_, Fired(place, held, handled, seen)) =>
      var sends := SendsAt(cfg.broker, place);
      && |held| == |sends| && place in before && |before[place]| == |sends|
      && (forall k :: 0 <= k < |sends| ==>
            if Rebuilt(sends, k) then BrokerBuilt(msg, PlainBroker(cfg.broker), sends[k], held[k])
            else sends[k].protocol == Backend ==> held[k] == before[place][k])
      && (handled ==> forall k :: 0 <= k < |sends| ==> Reached(sends, 0, k))
      && seen.Some? && seen.value == msg.(sessionID := seen.value.sessionID)
      && (PlainBroker(cfg.broker) ==> seen.value == msg)
  }

  /** A message as a conversation's message object is known to be. */
  ghost predicate GoodIncoming(cfg: Config, msg: BackendMsg, tag: Tag) {
    && msg.connID == tag.origin != "" && msg.noEcho == tag.noEcho
    && (PlainBroker(cfg.broker) ==> msg.sessionID == tag.sessionID)
  }

  /** A message that the broker has just built. */
  lemma BrokerLocBuilt(cfg: Config, s: Sys, from: Loc, msg: BackendMsg, o: Outcome, k: nat)
    requires from in s.tags && from.InChat? && GoodIncoming(cfg, msg, s.tags[from])
    requires o.Next? && o.fired.Fired? && BrokerStep(cfg, s.brokerSlots, msg, o)
    requires k in Indexes(SendsAt(cfg.broker, o.fired.place))
    ensures
      var t, loc := AfterBroker(cfg, s, from, s.tags[from], o).value, InBroker(o.fired.place, k);
      loc in t.tags && GoodLoc(cfg, t, loc)
  {
    var t, loc := AfterBroker(cfg, s, from, s.tags[from], o).value, InBroker(o.fired.place, k);
    var sends := SendsAt(cfg.broker, o.fired.place);
    assert BrokerBuilt(msg, PlainBroker(cfg.broker), sends[k], o.fired.held[k]);
    assert loc in BrokerTags(o.fired.place, sends, s.tags[from]);
    assert t.tags[loc] == s.tags[from];
  }

  lemma BrokerLocKept(cfg: Config, s: Sys, from: Loc, msg: BackendMsg, o: Outcome, loc: Loc)
    requires from in s.tags && from.InChat? && GoodLoc(cfg, s, from) && Read(s, from) == Some(msg)
    requires GoodIncoming(cfg, msg, s.tags[from]) && o.Next? && BrokerStep(cfg, s.brokerSlots, msg, o)
    requires loc in s.tags ==> GoodLoc(cfg, s, loc)
    ensures
      var t := AfterBroker(cfg, s, from, s.tags[from], o).value;
      loc in t.tags ==> GoodLoc(cfg, t, loc)
  {
    if o.fired.Fired? {
      if loc.InBroker? && loc.place == o.fired.place && loc.index in Indexes(SendsAt(cfg.broker, loc.place)) {
        BrokerLocBuilt(cfg, s, from, msg, o, loc.index);
      } else {
        OtherBrokerLoc(cfg, s, from, msg, o, loc);
      }
    }
  }

  /** Any other message: the received one, which the broker may have written, or one that it
      has not touched. */
  lemma OtherBrokerLoc(cfg: Config, s: Sys, from: Loc, msg: BackendMsg, o: Outcome, loc: Loc)
    requires from in s.tags && from.InChat? && GoodLoc(cfg, s, from) && Read(s, from) == Some(msg)
    requires GoodIncoming(cfg, msg, s.tags[from]) && o.Next? && o.fired.Fired?
    requires BrokerStep(cfg, s.brokerSlots, msg, o) && (loc in s.tags ==> GoodLoc(cfg, s, loc))
    requires !(loc.InBroker? && loc.place == o.fired.place && loc.index in Indexes(SendsAt(cfg.broker, loc.place)))
    ensures
      var t := AfterBroker(cfg, s, from, s.tags[from], o).value;
      loc in t.tags ==> GoodLoc(cfg, t, loc)
  {
    var t := AfterBroker(cfg, s, from, s.tags[from], o).value;
    if loc in t.tags {
      assert loc in s.tags && t.tags[loc] == s.tags[loc];
      assert Read(t, loc) == if loc == from then o.fired.msg else Read(s, loc);
    }
  }

  /** Writing a session id into the received message keeps the sender's table in order. */
  lemma WrittenTables(cfg: Config, s: Sys, from: Loc, msg: BackendMsg)
    requires GoodConfig(cfg) && Tables(cfg, s) && from in s.tags && from.InChat? && GoodLoc(cfg, s, from)
    requires msg == Read(s, from).value.(sessionID := msg.sessionID)
    ensures Tables(cfg, Write(s, from, msg))
  {
    WriteSettled(cfg, from.id, s.chats[from.id].slots, from.place, from.index, msg);
  }

  lemma BrokerTablesKept(cfg: Config, s: Sys, from: Loc, msg: BackendMsg, o: Outcome)
    requires GoodConfig(cfg) && Tables(cfg, s)
    requires from in s.tags && from.InChat? && GoodLoc(cfg, s, from) && Read(s, from) == Some(msg)
    requires o.Next? && BrokerStep(cfg, s.brokerSlots, msg, o)
    requires TableSettled(cfg.broker, BrokerCtx(cfg), After(s.brokerSlots, o))
    ensures Tables(cfg, AfterBroker(cfg, s, from, s.tags[from], o).value)
  {
    if o.fired.Fired? {
      WrittenTables(cfg, s, from, o.fired.msg.value);
    }
  }

  /** Reference j of a broadcast is to a message that the broker has just tagged. */
  lemma BroadcastTagged(place: Place, sends: seq<SendDef>, tag: Tag, j: nat)
    requires j < |BackendSends(sends, 0)|
    requires forall k :: 0 <= k < |sends| ==> Reached(sends, 0, k)
    ensures
      var loc := BrokerLocs(place, BackendSends(sends, 0))[j];
      loc in BrokerTags(place, sends, tag) && loc.InBroker?
  {
    var ks := BackendSends(sends, 0);
    BackendSendsAre(sends, 0);
    assert ks[j] in ks;
    assert ks[j] in Indexes(sends);
  }

  lemma AfterBrokerKeeps(cfg: Config, s: Sys, from: Loc, msg: BackendMsg, o: Outcome)
    requires GoodConfig(cfg) && Inv(cfg, s) && from in s.tags && from.InChat? && Read(s, from) == Some(msg)
    requires GoodIncoming(cfg, msg, s.tags[from]) && o.Next? && BrokerStep(cfg, s.brokerSlots, msg, o)
    requires TableSettled(cfg.broker, BrokerCtx(cfg), After(s.brokerSlots, o))
    ensures Inv(cfg, AfterBroker(cfg, s, from, s.tags[from], o).value)
  {
    var t := AfterBroker(cfg, s, from, s.tags[from], o).value;
    BrokerTablesKept(cfg, s, from, msg, o);
    forall loc | loc in t.tags ensures GoodLoc(cfg, t, loc) {
      BrokerLocKept(cfg, s, from, msg, o, loc);
    }
    QueuesKept(cfg, s, from, msg, o);
  }

  lemma QueuesKept(cfg: Config, s: Sys, from: Loc, msg: BackendMsg, o: Outcome)
    requires from in s.tags && o.Next? && BrokerStep(cfg, s.brokerSlots, msg, o)
    requires forall i :: 0 <= i < |s.queue| ==> s.queue[i] in s.tags && s.queue[i].InChat?
    requires forall id, i :: id in s.inbox && 0 <= i < |s.inbox[id]| ==>
        s.inbox[id][i] in s.tags && s.inbox[id][i].InBroker?
    ensures
      var t := AfterBroker(cfg, s, from, s.tags[from], o).value;
      && t.log == s.log
      && (forall i :: 0 <= i < |t.queue| ==> t.queue[i] in t.tags && t.queue[i].InChat?)
      && (forall id, i :: id in t.inbox && 0 <= i < |t.inbox[id]| ==>
          t.inbox[id][i] in t.tags && t.inbox[id][i].InBroker?)
  {
    if o.fired.Fired? && o.fired.handled {
      var t := AfterBroker(cfg, s, from, s.tags[from], o).value;
      var sends := SendsAt(cfg.broker, o.fired.place);
      var locs := BrokerLocs(o.fired.place, BackendSends(sends, 0));
      assert t.tags == s.tags + BrokerTags(o.fired.place, sends, s.tags[from]);
      forall id, i | id in t.inbox && 0 <= i < |t.inbox[id]|
        ensures t.inbox[id][i] in t.tags && t.inbox[id][i].InBroker?
      {
        assert t.inbox[id] == s.inbox[id] + locs;
        if i < |s.inbox[id]| {
          assert t.inbox[id][i] == s.inbox[id][i] && s.inbox[id][i] in s.tags;
        } else {
          BroadcastTagged(o.fired.place, sends, s.tags[from], i - |s.inbox[id]|);
        }
      }
    }
  }

  lemma BrokerSteps(cfg: Config, s: Sys, msg: BackendMsg, pins: nat -> string)
    requires GoodConfig(cfg) && Tables(cfg, s) && msg.connID != ""
    ensures
      var o := Handle(cfg.broker, BrokerCtx(cfg), s.broker, s.brokerSlots, BackendEv(msg), pins);
      BrokerStep(cfg, s.brokerSlots, msg, o) && TableSettled(cfg.broker, BrokerCtx(cfg), After(s.brokerSlots, o))
  {
    BrokerHandles(cfg.broker, BrokerCtx(cfg), s.broker, s.brokerSlots, msg, pins);
    HandleSettled(cfg.broker, BrokerCtx(cfg), s.broker, s.brokerSlots, BackendEv(msg), pins);
  }

  // ---------------------------------------------------------------- every move

  lemma WriteSlotSame(slots: Slots, place: Place, k: nat, msg: BackendMsg)
    requires MessageOf(HeldAt(slots, place, k)) == Some(msg)
    ensures WriteSlot(slots, place, k, msg) == slots
  {
    var held := slots[place];
    assert Some(held[k].value.(backend := Some(msg))) == held[k];
    assert held[k := held[k]] == held;
    assert slots[place := held] == slots;
  }

  lemma WriteSame(s: Sys, loc: Loc, msg: BackendMsg)
    requires Read(s, loc) == Some(msg)
    ensures Write(s, loc, msg) == s
  {
    match loc
    case InChat(id, place, k) =>
      WriteSlotSame(s.chats[id].slots, place, k, msg);
      assert s.chats[id := s.chats[id]] == s.chats;
    case InBroker(place, k) => WriteSlotSame(s.brokerSlots, place, k, msg);
  }

  /** A new conversation's table is the file's. */
  lemma OpenedTables(cfg: Config, s: Sys, id: string, chat: Chat)
    requires GoodConfig(cfg) && Tables(cfg, s) && id != "" && chat.slots == cfg.chatFile
    ensures Tables(cfg, s.(chats := s.chats[id := chat], inbox := s.inbox[id := []]))
  {
    assert TableSettled(cfg.chat, ChatCtx(cfg, id), chat.slots);
  }

  lemma OpenedLoc(cfg: Config, s: Sys, id: string, chat: Chat, loc: Loc)
    requires id !in s.chats && loc in s.tags && GoodLoc(cfg, s, loc)
    ensures GoodLoc(cfg, s.(chats := s.chats[id := chat], inbox := s.inbox[id := []]), loc)
  {
    var t := s.(chats := s.chats[id := chat], inbox := s.inbox[id := []]);
    assert Read(t, loc) == Read(s, loc);
  }

  lemma OpenedKeeps(cfg: Config, s: Sys, id: string, chat: Chat)
    requires GoodConfig(cfg) && Inv(cfg, s) && id != "" && id !in s.chats && chat.slots == cfg.chatFile
    ensures Inv(cfg, s.(chats := s.chats[id := chat], inbox := s.inbox[id := []]))
  {
    OpenedTables(cfg, s, id, chat);
    forall loc | loc in s.tags
      ensures GoodLoc(cfg, s.(chats := s.chats[id := chat], inbox := s.inbox[id := []]), loc)
    {
      OpenedLoc(cfg, s, id, chat, loc);
    }
  }

  lemma OpenKeeps(cfg: Config, s: Sys, move: Move)
    requires GoodConfig(cfg) && Inv(cfg, s) && move.Open?
    ensures Apply(cfg, s, move).Some? ==> Inv(cfg, Apply(cfg, s, move).value)
  {
    if Apply(cfg, s, move).Some? {
      OpenedKeeps(cfg, s, move.id, Apply(cfg, s, move).value.chats[move.id]);
    }
  }

  lemma TailKeeps(cfg: Config, s: Sys)
    requires Inv(cfg, s) && s.queue != []
    ensures Inv(cfg, s.(queue := s.queue[1..]))
  {
  }

  lemma BrokerMoveKeeps(cfg: Config, s: Sys, pins: nat -> string)
    requires GoodConfig(cfg) && Inv(cfg, s)
    ensures var t := ApplyBroker(cfg, s, pins); t.Some? ==> Inv(cfg, t.value)
  {
    if ApplyBroker(cfg, s, pins).Some? {
      var loc := s.queue[0];
      assert GoodLoc(cfg, s, loc);
      var msg, s' := Read(s, loc).value, s.(queue := s.queue[1..]);
      TailKeeps(cfg, s);
      BrokerSteps(cfg, s', msg, pins);
      var o := Handle(cfg.broker, BrokerCtx(cfg), s.broker, s.brokerSlots, BackendEv(msg), pins);
      assert ApplyBroker(cfg, s, pins) == AfterBroker(cfg, s', loc, s'.tags[loc], o);
      AfterBrokerKeeps(cfg, s', loc, msg, o);
    }
  }

  lemma ChatMoveKeeps(cfg: Config, s: Sys, move: Move)
    requires GoodConfig(cfg) && Inv(cfg, s) && (move.StatusMove? || move.EventMove?)
    ensures Apply(cfg, s, move).Some? ==> Inv(cfg, Apply(cfg, s, move).value)
  {
    if Apply(cfg, s, move).Some? {
      var id, chat := move.id, s.chats[move.id];
      var ev := if move.StatusMove? then StatusEv(move.status) else move.ev;
      DeliverSteps(cfg, id, chat, ev, move.pins, move.ids);
      var o := if move.StatusMove?
               then StatusReceived(cfg.chat, ChatCtx(cfg, id), chat, move.protocolID, move.status, move.pins, move.ids)
               else Deliver(cfg.chat, ChatCtx(cfg, id), chat, ev, move.pins, move.ids);
      AfterChatKeeps(cfg, s, id, o);
    }
  }

  lemma TakenKeeps(cfg: Config, s: Sys, id: string, msg: BackendMsg)
    requires Inv(cfg, s) && id in s.chats && s.inbox[id] != [] && s.inbox[id][0] in s.tags
    requires Read(s, s.inbox[id][0]) == Some(msg)
    ensures Inv(cfg, Taken(s, id, msg))
  {
    var loc := s.inbox[id][0];
    assert GoodLoc(cfg, s, loc);
    SameMessages(cfg, s, Taken(s, id, msg));
  }

  lemma BackendMoveKeeps(cfg: Config, s: Sys, id: string, pins: nat -> string, ids: nat -> string)
    requires GoodConfig(cfg) && Inv(cfg, s)
    ensures var t := ApplyBackend(cfg, s, id, pins, ids); t.Some? ==> Inv(cfg, t.value)
  {
    if ApplyBackend(cfg, s, id, pins, ids).Some? {
      var loc := s.inbox[id][0];
      var msg := Read(s, loc).value;
      assert GoodLoc(cfg, s, loc);
      WriteSame(s, loc, msg);
      TakenKeeps(cfg, s, id, msg);
      BackendReceivedSteps(cfg, id, s.chats[id], msg, pins, ids);
      var o := BackendReceived(cfg.chat, ChatCtx(cfg, id), s.chats[id], msg, pins, ids);
      assert ApplyBackend(cfg, s, id, pins, ids) == AfterChat(cfg, Taken(s, id, msg), id, o);
      AfterChatKeeps(cfg, Taken(s, id, msg), id, o);
    }
  }

  lemma BackendReceivedSteps(cfg: Config, id: string, chat: Chat, msg: BackendMsg, pins: nat -> string,
          ids: nat -> string)
    requires GoodConfig(cfg) && TableSettled(cfg.chat, ChatCtx(cfg, id), chat.slots)
    ensures
      var o := BackendReceived(cfg.chat, ChatCtx(cfg, id), chat, msg, pins, ids);
      && ChatStep(cfg, id, chat, o)
      && (o.ChatNext? ==> TableSettled(cfg.chat, ChatCtx(cfg, id), o.chat.slots))
  {
    DeliverSteps(cfg, id, chat, BackendEv(Addressed(id, msg)), pins, ids);
  }

  /** Taking a reference from an inbox, and noting what it was evaluated for. */
  lemma SameMessages(cfg: Config, s: Sys, t: Sys)
    requires Inv(cfg, s) && t == s.(inbox := t.inbox, log := t.log) && t.inbox.Keys == s.inbox.Keys
    requires forall id, i :: id in t.inbox && 0 <= i < |t.inbox[id]| ==>
        t.inbox[id][i] in s.tags && t.inbox[id][i].InBroker?
    requires forall i :: 0 <= i < |t.log| ==> Allowed(cfg, t.log[i])
    ensures Inv(cfg, t)
  {
  }

  lemma MoveKeeps(cfg: Config, s: Sys, move: Move)
    requires GoodConfig(cfg) && Inv(cfg, s)
    ensures Apply(cfg, s, move).Some? ==> Inv(cfg, Apply(cfg, s, move).value)
  {
    match move
    case Open(_, _, _) => OpenKeeps(cfg, s, move);
    case BrokerMove(pins) => BrokerMoveKeeps(cfg, s, pins);
    case BackendMove(id, pins, ids) => BackendMoveKeeps(cfg, s, id, pins, ids);
    case StatusMove(_, _, _, _, _) => ChatMoveKeeps(cfg, s, move);
    case EventMove(_, _, _, _) => ChatMoveKeeps(cfg, s, move);
  }

  // ----------------------------------------------------------------- every run

  /** The bot as it starts: the broker in its first state, nobody connected. */
  ghost predicate Initial(cfg: Config, s: Sys) {
    && s.chats == map[] && s.inbox == map[] && s.queue == [] && s.tags == map[] && s.log == []
    && s.brokerSlots == cfg.brokerFile
    && exists pins :: Start(cfg.broker, BrokerCtx(cfg), pins) == Next(s.broker, FsmSpec.Idle)
  }

  lemma InitialInv(cfg: Config, s: Sys)
    requires GoodConfig(cfg) && Initial(cfg, s)
    ensures Inv(cfg, s)
  {
  }

  /** A run: any moves, in any order. */
  ghost predicate IsRun(cfg: Config, states: seq<Sys>, moves: seq<Move>)
    requires GoodConfig(cfg)
  {
    && |states| == |moves| + 1 && Initial(cfg, states[0])
    && forall n :: 0 <= n < |moves| ==> Moves(cfg, states[n], moves[n], states[n + 1])
  }

  ghost predicate Moves(cfg: Config, s: Sys, move: Move, t: Sys)
    requires GoodConfig(cfg)
  {
    Tables(cfg, s) && Apply(cfg, s, move) == Some(t)
  }

  /** Over every interleaving: a conversation looks for a trigger for a backend message
      only if its session is unset or the message's, and never for a no-echo message of
      its own. That the field says no-echo, or that the sending table did, comes to the
      same for the originator; and a plain broker keeps the sender's session. */
  lemma {:induction false} RoomsAndEchoes(cfg: Config, states: seq<Sys>, moves: seq<Move>, n: nat)
    requires GoodConfig(cfg) && IsRun(cfg, states, moves) && n < |states|
    ensures Inv(cfg, states[n])
    ensures forall i :: 0 <= i < |states[n].log| ==> Allowed(cfg, states[n].log[i])
  {
    if n == 0 {
      InitialInv(cfg, states[0]);
    } else {
      RoomsAndEchoes(cfg, states, moves, n - 1);
      assert Moves(cfg, states[n - 1], moves[n - 1], states[n]);
      MoveKeeps(cfg, states[n - 1], moves[n - 1]);
    }
  }

  /** Over every interleaving, though the broker writes into the conversations' tables: what a
      conversation does with any event is what it would do with its table file. */
  lemma TablesArePure(cfg: Config, states: seq<Sys>, moves: seq<Move>, n: nat, id: string, ev: Ev, pins: nat -> string)
    requires GoodConfig(cfg) && IsRun(cfg, states, moves) && n < |states| && id in states[n].chats
    ensures
      var chat, ctx := states[n].chats[id], ChatCtx(cfg, id);
      && Shaped(cfg.chat, chat.slots)
      && SameOutcome(Handle(cfg.chat, ctx, chat.p, chat.slots, ev, pins),
                     Handle(cfg.chat, ctx, chat.p, cfg.chatFile, ev, pins))
  {
    RoomsAndEchoes(cfg, states, moves, n);
    var chat := states[n].chats[id];
    HandlePure(cfg.chat, ChatCtx(cfg, id), chat.p, chat.slots, cfg.chatFile, ev, pins);
  }

  /** So is what the broker does with a message that waits for it, if that has a session id
      and no trigger can take it away. */
  lemma BrokerTableIsPure(cfg: Config, states: seq<Sys>, moves: seq<Move>, n: nat, i: nat, pins: nat -> string)
    requires GoodConfig(cfg) && IsRun(cfg, states, moves) && n < |states| && i < |states[n].queue|
    ensures
      var s, ctx := states[n], BrokerCtx(cfg);
      && Read(s, s.queue[i]).Some? && Shaped(cfg.broker, s.brokerSlots)
      && var msg := Read(s, s.queue[i]).value;
         msg.sessionID != "" && (msg.content != "" || forall q, k :: !Resessions(cfg.broker, q, k)) ==>
           SameOutcome(Handle(cfg.broker, ctx, s.broker, s.brokerSlots, BackendEv(msg), pins),
                       Handle(cfg.broker, ctx, s.broker, cfg.brokerFile, BackendEv(msg), pins))
  {
    RoomsAndEchoes(cfg, states, moves, n);
    var s, ctx := states[n], BrokerCtx(cfg);
    assert GoodLoc(cfg, s, s.queue[i]);
    var msg := Read(s, s.queue[i]).value;
    if msg.sessionID != "" && (msg.content != "" || forall q, k :: !Resessions(cfg.broker, q, k)) {
      HandlePure(cfg.broker, ctx, s.broker, s.brokerSlots, cfg.brokerFile, BackendEv(msg), pins);
    }
  }
}
