/**
 A listener that reconnects. For every connection a transporter goroutine reads the
 stream, drops the keep-alive messages and hands the rest over on an unbuffered
 channel; the retry loop forwards them, and sleeps and connects again after an error.
 Every interleaving of the two, of the stream, of the reader and of a cancel is a run.
 */
module Retry {
  import opened Wrappers

  /** The goroutine of one connection. It has failed while it offers its error, and
      has closed its channel after the end of the stream. */
  datatype Transporter<T> = Receiving | Holding(item: T) | Failing | Closed | Gone

  /** One connection: what its stream has delivered so far. */
  datatype Session<T> = Session(received: seq<T>, transporter: Transporter<T>)

  datatype Loop<T> = Connecting | Sleeping | Selecting | Forwarding(item: T) | Returned

  /** What the reader of the output channel sees. */
  datatype Output<T> = Sent(item: T) | CloseMark

  datatype State<T> = State(
    sessions: seq<Session<T>>, loop: Loop<T>, out: seq<Output<T>>,
    sleeps: nat, failures: nat, cancelled: bool)

  datatype Move<T> =
    | ConnectFails | Connects | Wakes                         // the retry loop, outside its select
    | TakesItem | TakesError | TakesClose | SeesCancel        // the four ways through its select
    | Delivers                                                // the reader takes the forwarded item
    | Receives(session: nat, item: T) | StreamEnds(session: nat) | StreamFails(session: nat)
    | Cancels

  function Initial<T>(): State<T> {
    State([], Connecting, [], 0, 0, false)
  }

  /** The connection whose channels the loop listens to. */
  function Current<T>(s: State<T>): Option<Transporter<T>> {
    if s.sessions == [] then None else Some(s.sessions[|s.sessions| - 1].transporter)
  }

  function WithTransporter<T>(s: State<T>, k: nat, t: Transporter<T>): State<T>
    requires k < |s.sessions|
  {
    s.(sessions := s.sessions[k := s.sessions[k].(transporter := t)])
  }

  /** The state after a move, or None if the move cannot be made. A rendezvous on an
      unbuffered channel is one move of both sides. */
  function Apply<T>(keepAlive: T -> bool, s: State<T>, move: Move<T>): Option<State<T>> {
    match move
    case ConnectFails =>
      if s.loop.Connecting? then Some(s.(loop := Sleeping, sleeps := s.sleeps + 1, failures := s.failures + 1))
          else None
    case Connects =>
      if s.loop.Connecting? then Some(s.(loop := Selecting, sessions := s.sessions + [Session([], Receiving)]))
          else None
    case Wakes =>
      if s.loop.Sleeping? then Some(s.(loop := Connecting)) else None
    case TakesItem =>
      (match (s.loop, Current(s))
       case (Selecting, Some(Holding(item))) =>
         Some(WithTransporter(s, |s.sessions| - 1, Receiving).(loop := Forwarding(item)))
       case _ => None)
    case TakesError =>
      if s.loop.Selecting? && Current(s) == Some(Failing) then
        Some(WithTransporter(s, |s.sessions| - 1, Gone).(loop := Sleeping, sleeps := s.sleeps + 1,
            failures := s.failures + 1))
      else None
    case TakesClose =>
      if s.loop.Selecting? && Current(s) == Some(Closed) then Some(s.(loop := Returned, out := s.out + [CloseMark]))
          else None
    case SeesCancel =>
      if s.loop.Selecting? && s.cancelled then Some(s.(loop := Returned, out := s.out + [CloseMark])) else None
    case Delivers =>
      if s.loop.Forwarding? then Some(s.(loop := Selecting, out := s.out + [Sent(s.loop.item)])) else None
    case Receives(k, item) =>
      if k < |s.sessions| && s.sessions[k].transporter.Receiving? then
        var received := s.sessions[k].received + [item];
        Some(s.(sessions := s.sessions[k := Session(received, if keepAlive(item) then Receiving else Holding(item))]))
      else None
    case StreamEnds(k) =>
      if k < |s.sessions| && s.sessions[k].transporter.Receiving? then Some(WithTransporter(s, k, Closed)) else None
    case StreamFails(k) =>
      if k < |s.sessions| && s.sessions[k].transporter.Receiving? then Some(WithTransporter(s, k, Failing)) else None
    case Cancels => Some(s.(cancelled := true))
  }

  // ------------------------------------------------------------ what is conserved

  function WithoutKeepAlive<T>(keepAlive: T -> bool, items: seq<T>): seq<T> {
    if items == [] then []
    else WithoutKeepAlive(keepAlive, items[..|items| - 1]) +
         if keepAlive(items[|items| - 1]) then [] else [items[|items| - 1]]
  }

  /** Everything that all connections have delivered, without the keep-alives. */
  function Arrived<T>(keepAlive: T -> bool, sessions: seq<Session<T>>): seq<T> {
    if sessions == [] then []
    else Arrived(keepAlive, sessions[..|sessions| - 1]) +
         WithoutKeepAlive(keepAlive, sessions[|sessions| - 1].received)
  }

  /** What the reader has got. */
  function Delivered<T>(out: seq<Output<T>>): seq<T> {
    if out == [] then []
    else Delivered(out[..|out| - 1]) + if out[|out| - 1].Sent? then [out[|out| - 1].item] else []
  }

  /** The item that the current transporter holds. */
  function Held<T>(s: State<T>): seq<T> {
    if Current(s).Some? && Current(s).value.Holding? then [Current(s).value.item] else []
  }

  /** The item that the loop holds, and behind it the one that the transporter holds. */
  function InFlight<T>(s: State<T>): seq<T> {
    (if s.loop.Forwarding? then [s.loop.item] else []) + Held(s)
  }

  predicate Quiet<T>(s: State<T>) {
    s.loop.Connecting? || s.loop.Sleeping?
  }

  /** The channel is closed at most once, by the returning loop, and nothing follows. */
  ghost predicate ClosedLast<T>(s: State<T>) {
    && (forall i :: 0 <= i < |s.out| && s.out[i].CloseMark? ==> i == |s.out| - 1)
    && (s.loop.Returned? <==> s.out != [] && s.out[|s.out| - 1].CloseMark?)
  }

  /** No connection outlives the next one, and every failure is slept over. */
  ghost predicate Orderly<T>(s: State<T>) {
    && (forall k :: 0 <= k < |s.sessions| && (k < |s.sessions| - 1 || Quiet(s)) ==> s.sessions[k].transporter.Gone?)
    && (!Quiet(s) ==> s.sessions != [])
    && (s.loop.Selecting? || s.loop.Forwarding? ==> !s.sessions[|s.sessions| - 1].transporter.Gone?)
    && ClosedLast(s)
    && s.sleeps == s.failures
  }

  ghost predicate Conserved<T>(keepAlive: T -> bool, s: State<T>) {
    Delivered(s.out) + InFlight(s) == Arrived(keepAlive, s.sessions)
  }

  ghost predicate Inv<T>(keepAlive: T -> bool, s: State<T>) {
    Orderly(s) && Conserved(keepAlive, s)
  }

  lemma ArrivedNext<T>(keepAlive: T -> bool, sessions: seq<Session<T>>, last: Session<T>)
    ensures Arrived(keepAlive, sessions + [last]) ==
        Arrived(keepAlive, sessions) + WithoutKeepAlive(keepAlive, last.received)
  {
  }

  lemma ArrivedLast<T>(keepAlive: T -> bool, sessions: seq<Session<T>>, last: Session<T>)
    requires sessions != []
    ensures
      var k := |sessions| - 1;
      Arrived(keepAlive, sessions[k := last]) == Arrived(keepAlive, sessions[..k]) + WithoutKeepAlive(keepAlive,
          last.received)
  {
    var k := |sessions| - 1;
    assert sessions[k := last] == sessions[..k] + [last];
    ArrivedNext(keepAlive, sessions[..k], last);
  }

  lemma ReceivedNext<T>(keepAlive: T -> bool, items: seq<T>, item: T)
    ensures WithoutKeepAlive(keepAlive, items + [item]) ==
            WithoutKeepAlive(keepAlive, items) + if keepAlive(item) then [] else [item]
  {
  }

  lemma DeliveredNext<T>(out: seq<Output<T>>, o: Output<T>)
    ensures Delivered(out + [o]) == Delivered(out) + if o.Sent? then [o.item] else []
  {
  }

  /** A live transporter is the last connection's. */
  lemma OnlyLastLives<T>(keepAlive: T -> bool, s: State<T>, k: nat)
    requires Inv(keepAlive, s) && k < |s.sessions| && !s.sessions[k].transporter.Gone?
    ensures k == |s.sessions| - 1 && !Quiet(s)
  {
  }

  lemma StaysOrderly<T>(keepAlive: T -> bool, s: State<T>, move: Move<T>)
    requires Orderly(s) && Apply(keepAlive, s, move).Some?
    ensures Orderly(Apply(keepAlive, s, move).value)
  {
  }

  /** Only the last connection's state changes, and what it received stays. */
  lemma SameArrived<T>(keepAlive: T -> bool, s: State<T>, t: Transporter<T>)
    requires s.sessions != []
    ensures Arrived(keepAlive, WithTransporter(s, |s.sessions| - 1, t).sessions) == Arrived(keepAlive, s.sessions)
  {
    var k := |s.sessions| - 1;
    ArrivedLast(keepAlive, s.sessions, s.sessions[k].(transporter := t));
  }

  lemma Regroup<T>(a: seq<T>, b: seq<T>, c: seq<T>)
    ensures a + (b + c) == (a + b) + c
  {
  }

  /** A received item is on the way, unless it is a keep-alive. */
  lemma ReceivesArrives<T>(keepAlive: T -> bool, s: State<T>, k: nat, item: T)
    requires Inv(keepAlive, s) && Apply(keepAlive, s, Receives(k, item)).Some?
    ensures
      var t := Apply(keepAlive, s, Receives(k, item)).value;
      var more := if keepAlive(item) then [] else [item];
      Arrived(keepAlive, t.sessions) == Arrived(keepAlive, s.sessions) + more
  {
    var t := Apply(keepAlive, s, Receives(k, item)).value;
    var more := if keepAlive(item) then [] else [item];
    OnlyLastLives(keepAlive, s, k);
    var before, received := Arrived(keepAlive, s.sessions[..k]), s.sessions[k].received;
    ArrivedLast(keepAlive, s.sessions, t.sessions[k]);
    ReceivedNext(keepAlive, received, item);
    Regroup(before, WithoutKeepAlive(keepAlive, received), more);
  }

  lemma ReceivesInFlight<T>(keepAlive: T -> bool, s: State<T>, k: nat, item: T)
    requires Inv(keepAlive, s) && Apply(keepAlive, s, Receives(k, item)).Some?
    ensures
      var t := Apply(keepAlive, s, Receives(k, item)).value;
      t.out == s.out && InFlight(t) == InFlight(s) + if keepAlive(item) then [] else [item]
  {
    OnlyLastLives(keepAlive, s, k);
  }

  lemma ReceivesConserves<T>(keepAlive: T -> bool, s: State<T>, k: nat, item: T)
    requires Inv(keepAlive, s) && Apply(keepAlive, s, Receives(k, item)).Some?
    ensures Conserved(keepAlive, Apply(keepAlive, s, Receives(k, item)).value)
  {
    ReceivesArrives(keepAlive, s, k, item);
    ReceivesInFlight(keepAlive, s, k, item);
    Regroup(Delivered(s.out), InFlight(s), if keepAlive(item) then [] else [item]);
  }

  lemma StreamConserves<T>(keepAlive: T -> bool, s: State<T>, move: Move<T>)
    requires Inv(keepAlive, s) && Apply(keepAlive, s, move).Some? && (move.StreamEnds? || move.StreamFails?)
    ensures Conserved(keepAlive, Apply(keepAlive, s, move).value)
  {
    OnlyLastLives(keepAlive, s, move.session);
    SameArrived(keepAlive, s, if move.StreamEnds? then Closed else Failing);
  }

  lemma NothingForwarded<T>(s: State<T>)
    requires !s.loop.Forwarding?
    ensures InFlight(s) == Held(s)
  {
    assert [] + Held(s) == Held(s);
  }

  /** The item moves from the transporter to the loop. */
  lemma TakesItemConserves<T>(keepAlive: T -> bool, s: State<T>)
    requires Conserved(keepAlive, s) && Apply(keepAlive, s, TakesItem).Some?
    ensures Conserved(keepAlive, Apply(keepAlive, s, TakesItem).value)
  {
    var t := Apply(keepAlive, s, TakesItem).value;
    SameArrived(keepAlive, s, Receiving);
    NothingForwarded(s);
    assert Held(t) == [] && InFlight(t) == [t.loop.item] + [];
  }

  lemma TakesErrorConserves<T>(keepAlive: T -> bool, s: State<T>)
    requires Conserved(keepAlive, s) && Apply(keepAlive, s, TakesError).Some?
    ensures Conserved(keepAlive, Apply(keepAlive, s, TakesError).value)
  {
    SameArrived(keepAlive, s, Gone);
    NothingForwarded(s);
    NothingForwarded(Apply(keepAlive, s, TakesError).value);
  }

  lemma HandOver<T>(got: seq<T>, item: T, held: seq<T>, flight: seq<T>, all: seq<T>)
    requires got + flight == all && flight == [item] + held
    ensures (got + [item]) + held == all
  {
  }

  lemma DeliversConserves<T>(keepAlive: T -> bool, s: State<T>)
    requires Conserved(keepAlive, s) && s.loop.Forwarding?
    ensures Conserved(keepAlive, Apply(keepAlive, s, Delivers).value)
  {
    var t := Apply(keepAlive, s, Delivers).value;
    DeliveredNext(s.out, Sent(s.loop.item));
    NothingForwarded(t);
    HandOver(Delivered(s.out), s.loop.item, Held(s), InFlight(s), Arrived(keepAlive, s.sessions));
  }

  lemma ClosingDeliversNothing<T>(out: seq<Output<T>>)
    ensures Delivered(out + [CloseMark]) == Delivered(out)
  {
  }

  lemma ReturnConserves<T>(keepAlive: T -> bool, s: State<T>, move: Move<T>)
    requires Inv(keepAlive, s) && Apply(keepAlive, s, move).Some? && (move.TakesClose? || move.SeesCancel?)
    ensures Conserved(keepAlive, Apply(keepAlive, s, move).value)
  {
    var t := Apply(keepAlive, s, move).value;
    ClosingDeliversNothing(s.out);
    NothingForwarded(s);
    NothingForwarded(t);
    assert t.sessions == s.sessions;
    assert Held(t) == Held(s);
  }

  lemma ConnectConserves<T>(keepAlive: T -> bool, s: State<T>)
    requires Inv(keepAlive, s) && s.loop.Connecting?
    ensures Conserved(keepAlive, Apply(keepAlive, s, Connects).value)
  {
    ArrivedNext(keepAlive, s.sessions, Session([], Receiving));
    assert InFlight(s) == [] && InFlight(Apply(keepAlive, s, Connects).value) == [];
  }

  lemma MoveKeeps<T>(keepAlive: T -> bool, s: State<T>, move: Move<T>)
    requires Inv(keepAlive, s) && Apply(keepAlive, s, move).Some?
    ensures Inv(keepAlive, Apply(keepAlive, s, move).value)
  {
    StaysOrderly(keepAlive, s, move);
    match move
    case Receives(k, item) => ReceivesConserves(keepAlive, s, k, item);
    case StreamEnds(_) | StreamFails(_) => StreamConserves(keepAlive, s, move);
    case TakesItem => TakesItemConserves(keepAlive, s);
    case TakesError => TakesErrorConserves(keepAlive, s);
    case Delivers => DeliversConserves(keepAlive, s);
    case TakesClose | SeesCancel => ReturnConserves(keepAlive, s, move);
    case Connects => ConnectConserves(keepAlive, s);
    case ConnectFails | Wakes | Cancels =>
  }

  // -------------------------------------------------------------------- all runs

  ghost predicate IsRun<T>(keepAlive: T -> bool, states: seq<State<T>>, moves: seq<Move<T>>) {
    && |states| == |moves| + 1 && states[0] == Initial()
    && forall n :: 0 <= n < |moves| ==> Apply(keepAlive, states[n], moves[n]) == Some(states[n + 1])
  }

  lemma {:induction false} RunKeeps<T>(keepAlive: T -> bool, states: seq<State<T>>, moves: seq<Move<T>>, n: nat)
    requires IsRun(keepAlive, states, moves) && n < |states|
    ensures Inv(keepAlive, states[n])
  {
    if n > 0 {
      RunKeeps(keepAlive, states, moves, n - 1);
      MoveKeeps(keepAlive, states[n - 1], moves[n - 1]);
    }
  }

  /** At every point of every run, what the reader has got and the at most two items on
      the way are, in order, everything that arrived on all connections except the
      keep-alives. Between two connections nothing is on the way. The channel is closed
      at most once and nothing is sent after. The loop sleeps once for every failure. */
  lemma NothingIsLost<T>(keepAlive: T -> bool, states: seq<State<T>>, moves: seq<Move<T>>, n: nat)
    requires IsRun(keepAlive, states, moves) && n < |states|
    ensures
      var s := states[n];
      && Delivered(s.out) + InFlight(s) == Arrived(keepAlive, s.sessions)
      && |InFlight(s)| <= 2
      && (Quiet(s) ==> Delivered(s.out) == Arrived(keepAlive, s.sessions))
      && (forall i :: 0 <= i < |s.out| && s.out[i].CloseMark? ==> i == |s.out| - 1)
      && s.sleeps == s.failures
  {
    RunKeeps(keepAlive, states, moves, n);
  }

  /** A channel that is closed because the stream ended has delivered everything. */
  lemma CleanEnd<T>(keepAlive: T -> bool, states: seq<State<T>>, moves: seq<Move<T>>, n: nat)
    requires IsRun(keepAlive, states, moves) && n < |moves| && moves[n].TakesClose?
    ensures Delivered(states[n + 1].out) == Arrived(keepAlive, states[n + 1].sessions)
  {
    RunKeeps(keepAlive, states, moves, n);
    RunKeeps(keepAlive, states, moves, n + 1);
    assert Apply(keepAlive, states[n], moves[n]) == Some(states[n + 1]);
  }

  /** At most one item is lost by a cancel: the one that its transporter still offers. */
  lemma CancelledEnd<T>(keepAlive: T -> bool, states: seq<State<T>>, moves: seq<Move<T>>, n: nat)
    requires IsRun(keepAlive, states, moves) && n < |moves| && moves[n].SeesCancel?
    ensures |Delivered(states[n + 1].out)| + 1 >= |Arrived(keepAlive, states[n + 1].sessions)|
    ensures Delivered(states[n + 1].out) <= Arrived(keepAlive, states[n + 1].sessions)
  {
    RunKeeps(keepAlive, states, moves, n + 1);
    assert Apply(keepAlive, states[n], moves[n]) == Some(states[n + 1]);
  }

  // ------------------------------------------------------------ when a cancel is seen

  /** Without a connection the loop stays outside its select: over any run that makes none
      it has not returned and not closed its channel, cancelled or not. */
  lemma {:induction false} NoSelectWithoutConnection<T>(keepAlive: T -> bool, states: seq<State<T>>,
          moves: seq<Move<T>>,
                                                        m: nat, n: nat)
    requires IsRun(keepAlive, states, moves) && m <= n < |states| && Quiet(states[m])
    requires forall k :: m <= k < n ==> !moves[k].Connects?
    ensures Quiet(states[n]) && states[n].out == states[m].out
  {
    if m < n {
      NoSelectWithoutConnection(keepAlive, states, moves, m, n - 1);
      assert Apply(keepAlive, states[n - 1], moves[n - 1]) == Some(states[n]);
    }
  }

  /** A state that a run reaches from `s` by these moves. */
  function After<T>(keepAlive: T -> bool, s: State<T>, moves: seq<Move<T>>): Option<State<T>>
    decreases |moves|
  {
    if moves == [] then Some(s)
    else
      match Apply(keepAlive, s, moves[0])
      case None => None
      case Some(t) => After(keepAlive, t, moves[1..])
  }

  /** The loop can make its way to a return from here by moves of its own and its reader's. */
  ghost predicate CanReturn<T>(keepAlive: T -> bool, s: State<T>, moves: seq<Move<T>>) {
    var t := After(keepAlive, s, moves);
    t.Some? && t.value.loop.Returned?
  }

  /** A cancel is seen in the select and nowhere else. From any cancelled state that has not
      returned, the loop gets there once it is connected: the moves that end in a return
      need a new connection exactly when the loop is outside its select. */
  lemma CancelSeen<T>(keepAlive: T -> bool, s: State<T>)
    requires s.cancelled
    ensures Apply(keepAlive, s, SeesCancel).Some? <==> s.loop.Selecting?
    ensures s.loop.Selecting? ==> CanReturn(keepAlive, s, [SeesCancel])
    ensures s.loop.Forwarding? ==> CanReturn(keepAlive, s, [Delivers, SeesCancel])
    ensures s.loop.Connecting? ==> CanReturn(keepAlive, s, [Connects, SeesCancel])
    ensures s.loop.Sleeping? ==> CanReturn(keepAlive, s, [Wakes, Connects, SeesCancel])
  {
    if s.loop.Selecting? {
      AfterOne(keepAlive, s, SeesCancel, []);
    } else if s.loop.Forwarding? {
      DeliverAndReturn(keepAlive, s);
    } else if s.loop.Connecting? {
      ConnectAndReturn(keepAlive, s);
    } else if s.loop.Sleeping? {
      AfterOne(keepAlive, s, Wakes, [Connects, SeesCancel]);
      ConnectAndReturn(keepAlive, Apply(keepAlive, s, Wakes).value);
    }
  }

  lemma AfterOne<T>(keepAlive: T -> bool, s: State<T>, move: Move<T>, moves: seq<Move<T>>)
    requires Apply(keepAlive, s, move).Some?
    ensures After(keepAlive, s, [move] + moves) == After(keepAlive, Apply(keepAlive, s, move).value, moves)
  {
    assert ([move] + moves)[1..] == moves;
  }

  lemma ConnectAndReturn<T>(keepAlive: T -> bool, s: State<T>)
    requires s.cancelled && s.loop.Connecting?
    ensures CanReturn(keepAlive, s, [Connects, SeesCancel])
  {
    AfterOne(keepAlive, s, Connects, [SeesCancel]);
    AfterOne(keepAlive, Apply(keepAlive, s, Connects).value, SeesCancel, []);
  }

  lemma DeliverAndReturn<T>(keepAlive: T -> bool, s: State<T>)
    requires s.cancelled && s.loop.Forwarding?
    ensures CanReturn(keepAlive, s, [Delivers, SeesCancel])
  {
    AfterOne(keepAlive, s, Delivers, [SeesCancel]);
    AfterOne(keepAlive, Apply(keepAlive, s, Delivers).value, SeesCancel, []);
  }

  /** A listener that is outside its select returns, cancelled or not, only after it has
      made a connection. */
  lemma ReturnNeedsConnection<T>(keepAlive: T -> bool, states: seq<State<T>>, moves: seq<Move<T>>, m: nat, n: nat)
    requires IsRun(keepAlive, states, moves) && m <= n < |states| && Quiet(states[m])
    requires states[n].loop.Returned?
    ensures exists k :: m <= k < n && moves[k].Connects?
  {
    if forall k :: m <= k < n ==> !moves[k].Connects? {
      NoSelectWithoutConnection(keepAlive, states, moves, m, n);
    }
  }

  /** And nothing bounds how long that takes: for any length there is a run that is
      cancelled from its first move on and still sleeps and retries at its end. */
  lemma {:induction false} CancelNotSeen<T>(keepAlive: T -> bool, rounds: nat)
    returns (states: seq<State<T>>, moves: seq<Move<T>>)
    ensures IsRun(keepAlive, states, moves) && |moves| == 1 + 2 * rounds
    ensures moves[0].Cancels? && states[|moves|].cancelled && states[|moves|].loop.Connecting?
    ensures states[|moves|].out == [] && states[|moves|].sleeps == rounds
  {
    if rounds == 0 {
      moves := [Cancels];
      states := [Initial(), Initial().(cancelled := true)];
    } else {
      states, moves := CancelNotSeen(keepAlive, rounds - 1);
      var s := states[|moves|];
      var asleep := Apply(keepAlive, s, ConnectFails).value;
      var awake := Apply(keepAlive, asleep, Wakes).value;
      states, moves := states + [asleep, awake], moves + [ConnectFails, Wakes];
    }
  }

  // ------------------------------------------------------- what ends a listener

  /** The moves before point n, of the run that gets there. */
  ghost predicate Happened<T>(moves: seq<Move<T>>, n: nat, move: Move<T>) {
    n <= |moves| && exists m :: 0 <= m < n && moves[m] == move
  }

  lemma HappenedNext<T>(moves: seq<Move<T>>, n: nat, move: Move<T>)
    requires n < |moves|
    ensures Happened(moves, n + 1, move) <==> Happened(moves, n, move) || moves[n] == move
  {
  }

  /** Each connection's goroutine is where what happened to its stream has put it. */
  ghost predicate Caused<T>(moves: seq<Move<T>>, n: nat, s: State<T>) {
    && (forall k :: 0 <= k < |s.sessions| ==> CausedAt(moves, n, s, k))
    && (forall k: nat :: Happened(moves, n, StreamEnds(k)) || Happened(moves, n, StreamFails(k)) ==> k < |s.sessions|)
    && (s.cancelled <==> Happened(moves, n, Cancels))
  }

  ghost predicate CausedAt<T>(moves: seq<Move<T>>, n: nat, s: State<T>, k: nat)
    requires k < |s.sessions|
  {
    var t := s.sessions[k].transporter;
    && (t.Closed? <==> Happened(moves, n, StreamEnds(k)))
    && (t.Failing? || t.Gone? <==> Happened(moves, n, StreamFails(k)))
  }

  lemma CausedNext<T>(keepAlive: T -> bool, moves: seq<Move<T>>, n: nat, s: State<T>, t: State<T>)
    requires n < |moves| && Caused(moves, n, s) && Apply(keepAlive, s, moves[n]) == Some(t)
    ensures Caused(moves, n + 1, t)
  {
    forall move ensures Happened(moves, n + 1, move) <==> Happened(moves, n, move) || moves[n] == move {
      HappenedNext(moves, n, move);
    }
    var next := n + 1;
    forall k | 0 <= k < |t.sessions| ensures CausedAt(moves, next, t, k) {
      if k < |s.sessions| {
        StaysCaused(keepAlive, moves, n, s, t, k);
      }
    }
  }

  lemma StaysCaused<T>(keepAlive: T -> bool, moves: seq<Move<T>>, n: nat, s: State<T>, t: State<T>, k: nat)
    requires n < |moves| && Apply(keepAlive, s, moves[n]) == Some(t) && k < |s.sessions| && k < |t.sessions|
    requires CausedAt(moves, n, s, k)
    ensures CausedAt(moves, n + 1, t, k)
  {
    HappenedNext(moves, n, StreamEnds(k));
    HappenedNext(moves, n, StreamFails(k));
  }

  lemma {:induction false} RunCaused<T>(keepAlive: T -> bool, states: seq<State<T>>, moves: seq<Move<T>>, n: nat)
    requires IsRun(keepAlive, states, moves) && n < |states|
    ensures Caused(moves, n, states[n])
  {
    if n > 0 {
      RunCaused(keepAlive, states, moves, n - 1);
      CausedNext(keepAlive, moves, n - 1, states[n - 1], states[n]);
    }
  }

  /** The loop closes its output when the stream of its last connection has ended, goes back
      to sleep when that stream has failed, and sees a cancel when there was one. */
  lemma WhatEndsASelect<T>(keepAlive: T -> bool, states: seq<State<T>>, moves: seq<Move<T>>, n: nat)
    requires IsRun(keepAlive, states, moves) && n < |moves|
    ensures
      var s, t, last := states[n], states[n + 1], |states[n].sessions| - 1;
      && (moves[n].TakesClose? ==> last >= 0 && Happened(moves, n, StreamEnds(last)) && t.loop.Returned?)
      && (moves[n].TakesError? ==> last >= 0 && Happened(moves, n, StreamFails(last)) && t.loop.Sleeping?)
      && (moves[n].SeesCancel? ==> Happened(moves, n, Cancels) && t.loop.Returned?)
  {
    RunCaused(keepAlive, states, moves, n);
    assert Apply(keepAlive, states[n], moves[n]) == Some(states[n + 1]);
    if moves[n].TakesClose? || moves[n].TakesError? {
      assert CausedAt(moves, n, states[n], |states[n].sessions| - 1);
    }
  }

  /** A loop in its select can do exactly what has happened asks for: close after the end of
      the stream, retry after its failure. */
  lemma SelectFollows<T>(keepAlive: T -> bool, states: seq<State<T>>, moves: seq<Move<T>>, n: nat)
    requires IsRun(keepAlive, states, moves) && n < |states| && states[n].loop.Selecting?
    ensures
      var s, last := states[n], |states[n].sessions| - 1;
      && last >= 0
      && (Apply(keepAlive, s, TakesClose).Some? <==> Happened(moves, n, StreamEnds(last)))
      && (Apply(keepAlive, s, TakesError).Some? <==> Happened(moves, n, StreamFails(last)))
      && (Apply(keepAlive, s, SeesCancel).Some? <==> Happened(moves, n, Cancels))
  {
    RunKeeps(keepAlive, states, moves, n);
    RunCaused(keepAlive, states, moves, n);
    assert CausedAt(moves, n, states[n], |states[n].sessions| - 1);
  }

  /** The output is closed only after a stream has come to its end, or a cancel. */
  lemma {:induction false} ClosedOnlyAfterEnd<T>(keepAlive: T -> bool, states: seq<State<T>>, moves: seq<Move<T>>,
          n: nat)
    requires IsRun(keepAlive, states, moves) && n < |states| && states[n].loop.Returned?
    ensures
      || Happened(moves, n, Cancels)
      || (states[n].sessions != [] && Happened(moves, n, StreamEnds(|states[n].sessions| - 1)))
  {
    assert Apply(keepAlive, states[n - 1], moves[n - 1]) == Some(states[n]);
    WhatEndsASelect(keepAlive, states, moves, n - 1);
    if states[n - 1].loop.Returned? {
      ClosedOnlyAfterEnd(keepAlive, states, moves, n - 1);
      EarlierHappened(moves, n - 1, n);
    } else {
      EarlierHappened(moves, n - 1, n);
    }
  }

  lemma EarlierHappened<T>(moves: seq<Move<T>>, m: nat, n: nat)
    requires m <= n <= |moves|
    ensures forall move :: Happened(moves, m, move) ==> Happened(moves, n, move)
  {
  }

  lemma {:induction false} SameConnection<T>(keepAlive: T -> bool, states: seq<State<T>>, moves: seq<Move<T>>, m: nat,
                                             n: nat)
    requires IsRun(keepAlive, states, moves) && m <= n < |states|
    requires forall k :: m <= k < n ==> !moves[k].Connects?
    ensures |states[n].sessions| == |states[m].sessions|
  {
    if m < n {
      SameConnection(keepAlive, states, moves, m, n - 1);
      assert Apply(keepAlive, states[n - 1], moves[n - 1]) == Some(states[n]);
    }
  }

  /** Once a stream has failed, a loop that is not cancelled returns only after it has made a
      new connection. */
  lemma FailedNeedsConnection<T>(keepAlive: T -> bool, states: seq<State<T>>, moves: seq<Move<T>>, m: nat, n: nat)
    requires IsRun(keepAlive, states, moves) && m < n < |states| && moves[m].StreamFails?
    requires states[n].loop.Returned? && !Happened(moves, n, Cancels)
    ensures exists k :: m <= k < n && moves[k].Connects?
  {
    if forall k :: m <= k < n ==> !moves[k].Connects? {
      assert Apply(keepAlive, states[m], moves[m]) == Some(states[m + 1]);
      RunKeeps(keepAlive, states, moves, m);
      OnlyLastLives(keepAlive, states[m], moves[m].session);
      SameConnection(keepAlive, states, moves, m, n);
      ClosedOnlyAfterEnd(keepAlive, states, moves, n);
      RunCaused(keepAlive, states, moves, n);
      assert CausedAt(moves, n, states[n], moves[m].session);
    }
  }

  // ------------------------------------------------------------ what came from where

  /** Everything that the streams have delivered, in order. */
  function Came<T>(moves: seq<Move<T>>, n: nat): seq<T>
    requires n <= |moves|
  {
    if n == 0 then [] else Came(moves, n - 1) + Brought(moves[n - 1])
  }

  function Failures<T>(moves: seq<Move<T>>, n: nat): nat
    requires n <= |moves|
  {
    if n == 0 then 0
    else Failures(moves, n - 1) + if moves[n - 1].ConnectFails? || moves[n - 1].TakesError? then 1 else 0
  }

  lemma StillArrived<T>(keepAlive: T -> bool, s: State<T>, move: Move<T>)
    requires Inv(keepAlive, s) && Apply(keepAlive, s, move).Some? && !move.Receives?
    ensures Arrived(keepAlive, Apply(keepAlive, s, move).value.sessions) == Arrived(keepAlive, s.sessions)
  {
    match move
    case Connects => ArrivedNext(keepAlive, s.sessions, Session([], Receiving));
    case TakesItem => SameArrived(keepAlive, s, Receiving);
    case TakesError => SameArrived(keepAlive, s, Gone);
    case StreamEnds(k) =>
      OnlyLastLives(keepAlive, s, k);
      SameArrived(keepAlive, s, Closed);
    case StreamFails(k) =>
      OnlyLastLives(keepAlive, s, k);
      SameArrived(keepAlive, s, Failing);
    case _ =>
  }

  ghost predicate AllArrived<T>(keepAlive: T -> bool, s: State<T>, came: seq<T>) {
    Arrived(keepAlive, s.sessions) == WithoutKeepAlive(keepAlive, came)
  }

  function Brought<T>(move: Move<T>): seq<T> {
    if move.Receives? then [move.item] else []
  }

  lemma ArrivedNow<T>(keepAlive: T -> bool, s: State<T>, move: Move<T>, t: State<T>, came: seq<T>)
    requires Inv(keepAlive, s) && Apply(keepAlive, s, move) == Some(t) && AllArrived(keepAlive, s, came)
    ensures AllArrived(keepAlive, t, came + Brought(move))
  {
    if move.Receives? {
      ReceivesArrives(keepAlive, s, move.session, move.item);
      ReceivedNext(keepAlive, came, move.item);
    } else {
      StillArrived(keepAlive, s, move);
      assert came + [] == came;
    }
  }

  lemma SleepsNow<T>(keepAlive: T -> bool, s: State<T>, move: Move<T>)
    requires Apply(keepAlive, s, move).Some?
    ensures Apply(keepAlive, s, move).value.sleeps ==
            s.sleeps + if move.ConnectFails? || move.TakesError? then 1 else 0
  {
  }

  lemma {:induction false} RunArrived<T>(keepAlive: T -> bool, states: seq<State<T>>, moves: seq<Move<T>>, n: nat)
    requires IsRun(keepAlive, states, moves) && n < |states|
    ensures AllArrived(keepAlive, states[n], Came(moves, n))
  {
    if n > 0 {
      RunArrived(keepAlive, states, moves, n - 1);
      RunKeeps(keepAlive, states, moves, n - 1);
      assert Apply(keepAlive, states[n - 1], moves[n - 1]) == Some(states[n]);
      ArrivedNow(keepAlive, states[n - 1], moves[n - 1], states[n], Came(moves, n - 1));
    }
  }

  lemma {:induction false} RunSleeps<T>(keepAlive: T -> bool, states: seq<State<T>>, moves: seq<Move<T>>, n: nat)
    requires IsRun(keepAlive, states, moves) && n < |states|
    ensures states[n].sleeps == Failures(moves, n)
  {
    if n > 0 {
      RunSleeps(keepAlive, states, moves, n - 1);
      assert Apply(keepAlive, states[n - 1], moves[n - 1]) == Some(states[n]);
      SleepsNow(keepAlive, states[n - 1], moves[n - 1]);
    }
  }

  /** At every point of every run: what the reader has got, and the at most two items on the way,
      are in order all that any stream has delivered, without the keep-alives. The loop has
      slept once for each connection and each stream that failed. */
  lemma ReaderGetsAll<T>(keepAlive: T -> bool, states: seq<State<T>>, moves: seq<Move<T>>, n: nat)
    requires IsRun(keepAlive, states, moves) && n < |states|
    ensures Delivered(states[n].out) + InFlight(states[n]) == WithoutKeepAlive(keepAlive, Came(moves, n))
    ensures |InFlight(states[n])| <= 2 && states[n].sleeps == Failures(moves, n)
  {
    NothingIsLost(keepAlive, states, moves, n);
    RunArrived(keepAlive, states, moves, n);
    RunSleeps(keepAlive, states, moves, n);
  }
}
