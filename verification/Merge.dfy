/** Merging the status channel and the question channel into one. */
module Merge {
  /** One receive of the select: an item, or the report that the channel is closed, which
      a closed channel gives as often as it is asked. */
  datatype Receive<S, Q> = Status(status: S) | StatusClosed | Question(question: Q) | QuestionClosed
  {
    predicate Closed() {
      StatusClosed? || QuestionClosed?
    }
  }

  function StatusItems<S, Q>(rs: seq<Receive<S, Q>>): seq<S> {
    if rs == [] then []
    else StatusItems(rs[..|rs| - 1]) + if rs[|rs| - 1].Status? then [rs[|rs| - 1].status] else []
  }

  function QuestionItems<S, Q>(rs: seq<Receive<S, Q>>): seq<Q> {
    if rs == [] then []
    else QuestionItems(rs[..|rs| - 1]) + if rs[|rs| - 1].Question? then [rs[|rs| - 1].question] else []
  }

  function ClosedCount<S, Q>(rs: seq<Receive<S, Q>>): nat {
    if rs == [] then 0 else ClosedCount(rs[..|rs| - 1]) + if rs[|rs| - 1].Closed() then 1 else 0
  }

  function Wrapped<S, Q>(wrap: S -> Q, items: seq<S>): (qs: seq<Q>)
    ensures |qs| == |items| && forall i :: 0 <= i < |items| ==> qs[i] == wrap(items[i])
  {
    seq(|items|, i requires 0 <= i < |items| => wrap(items[i]))
  }

  /** `c` is made of `a` and `b`, each in its own order. */
  ghost predicate Interleaves<T>(c: seq<T>, a: seq<T>, b: seq<T>) {
    if c == [] then a == [] && b == []
    else
      var k := |c| - 1;
      || (a != [] && a[|a| - 1] == c[k] && Interleaves(c[..k], a[..|a| - 1], b))
      || (b != [] && b[|b| - 1] == c[k] && Interleaves(c[..k], a, b[..|b| - 1]))
  }

  lemma InterleavesNext<T>(c: seq<T>, a: seq<T>, b: seq<T>, x: T)
    requires Interleaves(c, a, b)
    ensures Interleaves(c + [x], a + [x], b) && Interleaves(c + [x], a, b + [x])
  {
  }

  /** The receives are what a select on two channels can see: each channel's items come
      in order, and its closing is reported only after them. */
  ghost predicate Possible<S, Q>(rs: seq<Receive<S, Q>>, statuses: seq<S>, questions: seq<Q>) {
    && StatusItems(rs) <= statuses && QuestionItems(rs) <= questions
    && (forall i :: 0 <= i < |rs| && rs[i].StatusClosed? ==> StatusItems(rs[..i]) == statuses)
    && (forall i :: 0 <= i < |rs| && rs[i].QuestionClosed? ==> QuestionItems(rs[..i]) == questions)
  }

  lemma ReceiveNext<S, Q>(rs: seq<Receive<S, Q>>, n: nat)
    requires n < |rs|
    ensures StatusItems(rs[..n + 1]) == StatusItems(rs[..n]) + if rs[n].Status? then [rs[n].status] else []
    ensures QuestionItems(rs[..n + 1]) == QuestionItems(rs[..n]) + if rs[n].Question? then [rs[n].question] else []
    ensures ClosedCount(rs[..n + 1]) == ClosedCount(rs[..n]) + if rs[n].Closed() then 1 else 0
  {
    assert rs[..n + 1][..n] == rs[..n];
  }

  /** What goes to the output for one receive. */
  function Forwarded<S, Q>(r: Receive<S, Q>, wrap: S -> Q): seq<Q> {
    match r
    case Status(status) => [wrap(status)]
    case Question(question) => [question]
    case _ => []
  }

  /** `out` is made of what was received in the first n receives, each channel in order. */
  ghost predicate Merged<S, Q>(out: seq<Q>, rs: seq<Receive<S, Q>>, n: nat, wrap: S -> Q)
    requires n <= |rs|
  {
    Interleaves(out, Wrapped(wrap, StatusItems(rs[..n])), QuestionItems(rs[..n]))
  }

  lemma MergedNext<S, Q>(out: seq<Q>, rs: seq<Receive<S, Q>>, n: nat, wrap: S -> Q)
    requires n < |rs| && Merged(out, rs, n, wrap)
    ensures Merged(out + Forwarded(rs[n], wrap), rs, n + 1, wrap)
  {
    ReceiveNext(rs, n);
    var statuses, questions := StatusItems(rs[..n]), QuestionItems(rs[..n]);
    assert statuses + [] == statuses && questions + [] == questions;
    match rs[n]
    case Status(status) =>
      InterleavesNext(out, Wrapped(wrap, statuses), questions, wrap(status));
      assert Wrapped(wrap, statuses + [status]) == Wrapped(wrap, statuses) + [wrap(status)];
    case Question(question) =>
      InterleavesNext(out, Wrapped(wrap, statuses), questions, question);
    case _ =>
      assert out + [] == out;
  }

  /** The loop of merge, for whatever the select receives. It has received `used` times
      when it returns or has to wait; `closed` says that it closed the output. */
  method MergeChannels<S, Q>(rs: seq<Receive<S, Q>>, wrap: S -> Q) returns (out: seq<Q>, closed: bool, used: nat)
    ensures used <= |rs| && Merged(out, rs, used, wrap)
    ensures closed <==> ClosedCount(rs) >= 2
    ensures closed ==> ClosedCount(rs[..used]) == 2 && used > 0 && rs[used - 1].Closed()
    ensures !closed ==> used == |rs|
  {
    out, closed, used := [], false, 0;
    var exitCount := 0;
    while used < |rs|
      invariant used <= |rs| && exitCount == ClosedCount(rs[..used]) <= 1 && Merged(out, rs, used, wrap)
    {
      MergedNext(out, rs, used, wrap);
      ReceiveNext(rs, used);
      var r := rs[used];
      used := used + 1;
      match r {
        case Status(status) => out := out + [wrap(status)];
        case Question(question) => out := out + [question];
        case StatusClosed | QuestionClosed =>
          assert out + [] == out;
          if exitCount == 1 {
            CountGrows(rs, used);
            closed := true;
            return;
          }
          exitCount := exitCount + 1;
      }
    }
    assert rs[..used] == rs;
  }

  lemma {:induction false} CountGrows<S, Q>(rs: seq<Receive<S, Q>>, n: nat)
    requires n <= |rs|
    ensures ClosedCount(rs[..n]) <= ClosedCount(rs)
    decreases |rs| - n
  {
    if n == |rs| {
      assert rs[..n] == rs;
    } else {
      CountGrows(rs, n + 1);
      assert rs[..n + 1][..n] == rs[..n];
    }
  }

  lemma {:induction false} ItemsGrow<S, Q>(rs: seq<Receive<S, Q>>, n: nat)
    requires n <= |rs|
    ensures StatusItems(rs[..n]) <= StatusItems(rs) && QuestionItems(rs[..n]) <= QuestionItems(rs)
    decreases |rs| - n
  {
    if n == |rs| {
      assert rs[..n] == rs;
    } else {
      ItemsGrow(rs, n + 1);
      assert rs[..n + 1][..n] == rs[..n];
    }
  }

  /** Some receive says that the channel of statuses, or of questions, is closed. */
  predicate SaysClosed<S, Q>(rs: seq<Receive<S, Q>>, statuses: bool) {
    exists i :: 0 <= i < |rs| && (if statuses then rs[i].StatusClosed? else rs[i].QuestionClosed?)
  }

  lemma {:induction false} CountedClosings<S, Q>(rs: seq<Receive<S, Q>>)
    ensures ClosedCount(rs) > 0 <==> SaysClosed(rs, true) || SaysClosed(rs, false)
  {
    if rs != [] {
      var k := |rs| - 1;
      CountedClosings(rs[..k]);
      forall which | SaysClosed(rs[..k], which)
        ensures SaysClosed(rs, which)
      {
        var i :| 0 <= i < k && (if which then rs[..k][i].StatusClosed? else rs[..k][i].QuestionClosed?);
        assert rs[i] == rs[..k][i];
      }
      forall which | SaysClosed(rs, which) && !rs[k].Closed()
        ensures SaysClosed(rs[..k], which)
      {
        var i :| 0 <= i < |rs| && (if which then rs[i].StatusClosed? else rs[i].QuestionClosed?);
        assert rs[..k][i] == rs[i];
      }
      if rs[k].Closed() {
        assert SaysClosed(rs, rs[k].StatusClosed?);
      }
    }
  }

  /** A channel that was reported closed has been merged completely. */
  lemma ClosedIsComplete<S, Q>(rs: seq<Receive<S, Q>>, statuses: seq<S>, questions: seq<Q>)
    requires Possible(rs, statuses, questions)
    ensures SaysClosed(rs, true) ==> StatusItems(rs) == statuses
    ensures SaysClosed(rs, false) ==> QuestionItems(rs) == questions
  {
    if SaysClosed(rs, true) {
      var i :| 0 <= i < |rs| && rs[i].StatusClosed?;
      ItemsGrow(rs, i);
    }
    if SaysClosed(rs, false) {
      var i :| 0 <= i < |rs| && rs[i].QuestionClosed?;
      ItemsGrow(rs, i);
    }
  }

  /** When merge closes the output, all items of one channel have been delivered, and those
      of the other too if it also reported closed. */
  lemma CompleteWhen<S, Q>(rs: seq<Receive<S, Q>>, statuses: seq<S>, questions: seq<Q>)
    requires Possible(rs, statuses, questions) && ClosedCount(rs) == 2
    ensures SaysClosed(rs, true) || SaysClosed(rs, false)
    ensures SaysClosed(rs, true) ==> StatusItems(rs) == statuses
    ensures SaysClosed(rs, false) ==> QuestionItems(rs) == questions
  {
    ClosedIsComplete(rs, statuses, questions);
    CountedClosings(rs);
  }

  // ------------------------------------------- receives are counted, not channels

  ghost predicate Complete<S, Q>(rs: seq<Receive<S, Q>>, statuses: seq<S>, questions: seq<Q>) {
    StatusItems(rs) == statuses && QuestionItems(rs) == questions
  }

  /** A run that closes the output. */
  ghost predicate Closing<S, Q>(rs: seq<Receive<S, Q>>, statuses: seq<S>, questions: seq<Q>) {
    Possible(rs, statuses, questions) && ClosedCount(rs) == 2
  }

  function AllStatuses<S, Q>(statuses: seq<S>): (rs: seq<Receive<S, Q>>)
    ensures |rs| == |statuses| && forall i :: 0 <= i < |rs| ==> rs[i] == Status(statuses[i])
  {
    seq(|statuses|, i requires 0 <= i < |statuses| => Status(statuses[i]))
  }

  function AllQuestions<S, Q>(questions: seq<Q>): (rs: seq<Receive<S, Q>>)
    ensures |rs| == |questions| && forall i :: 0 <= i < |rs| ==> rs[i] == Question(questions[i])
  {
    seq(|questions|, i requires 0 <= i < |questions| => Question(questions[i]))
  }

  lemma {:induction false} ItemsOfStatuses<S, Q>(statuses: seq<S>)
    ensures
      var rs: seq<Receive<S, Q>> := AllStatuses(statuses);
      StatusItems(rs) == statuses && QuestionItems(rs) == [] && ClosedCount(rs) == 0
  {
    if statuses != [] {
      var k := |statuses| - 1;
      ItemsOfStatuses<S, Q>(statuses[..k]);
      var rs: seq<Receive<S, Q>> := AllStatuses(statuses);
      assert rs[..k] == AllStatuses(statuses[..k]);
    }
  }

  lemma {:induction false} ItemsOfQuestions<S, Q>(questions: seq<Q>)
    ensures
      var rs: seq<Receive<S, Q>> := AllQuestions(questions);
      StatusItems(rs) == [] && QuestionItems(rs) == questions && ClosedCount(rs) == 0
  {
    if questions != [] {
      var k := |questions| - 1;
      ItemsOfQuestions<S, Q>(questions[..k]);
      var rs: seq<Receive<S, Q>> := AllQuestions(questions);
      assert rs[..k] == AllQuestions(questions[..k]);
    }
  }

  lemma ClosingAddsNothing<S, Q>(rs: seq<Receive<S, Q>>, closed: Receive<S, Q>)
    requires closed.Closed()
    ensures StatusItems(rs + [closed]) == StatusItems(rs) && QuestionItems(rs + [closed]) == QuestionItems(rs)
    ensures ClosedCount(rs + [closed]) == ClosedCount(rs) + 1
  {
    assert (rs + [closed])[..|rs|] == rs;
    assert StatusItems(rs) + [] == StatusItems(rs) && QuestionItems(rs) + [] == QuestionItems(rs);
  }

  /** The receives up to a closing give what all of them give. */
  ghost predicate NothingAfter<S, Q>(rs: seq<Receive<S, Q>>, i: nat)
    requires i < |rs|
  {
    rs[i].Closed() ==> StatusItems(rs[..i]) == StatusItems(rs) && QuestionItems(rs[..i]) == QuestionItems(rs)
  }

  /** A run of items and then one channel's closing, twice. */
  lemma ClosedTwice<S, Q>(items: seq<Receive<S, Q>>, closed: Receive<S, Q>)
    requires closed.Closed() && ClosedCount(items) == 0 && forall i :: 0 <= i < |items| ==> !items[i].Closed()
    ensures
      var rs := items + [closed] + [closed];
      && StatusItems(rs) == StatusItems(items) && QuestionItems(rs) == QuestionItems(items) && ClosedCount(rs) == 2
      && forall i :: 0 <= i < |rs| ==> NothingAfter(rs, i)
  {
    var once := items + [closed];
    var rs := once + [closed];
    ClosingAddsNothing(items, closed);
    ClosingAddsNothing(once, closed);
    assert rs[..|items|] == items && rs[..|items| + 1] == once;
    forall i | 0 <= i < |rs| ensures NothingAfter(rs, i) {
      assert i < |items| ==> rs[i] == items[i];
    }
  }

  lemma PossibleFrom<S, Q>(rs: seq<Receive<S, Q>>, statuses: seq<S>, questions: seq<Q>)
    requires forall i :: 0 <= i < |rs| ==> NothingAfter(rs, i)
    requires StatusItems(rs) <= statuses && QuestionItems(rs) <= questions
    requires forall i :: 0 <= i < |rs| && rs[i].StatusClosed? ==> StatusItems(rs) == statuses
    requires forall i :: 0 <= i < |rs| && rs[i].QuestionClosed? ==> QuestionItems(rs) == questions
    ensures Possible(rs, statuses, questions)
  {
    forall i | 0 <= i < |rs| && rs[i].StatusClosed? ensures StatusItems(rs[..i]) == statuses {
      assert NothingAfter(rs, i);
    }
    forall i | 0 <= i < |rs| && rs[i].QuestionClosed? ensures QuestionItems(rs[..i]) == questions {
      assert NothingAfter(rs, i);
    }
  }

  /** All statuses, and then their channel's closing twice: a run that delivers no question. */
  lemma StatusesOnly<S, Q>(statuses: seq<S>, questions: seq<Q>) returns (rs: seq<Receive<S, Q>>)
    ensures Closing(rs, statuses, questions) && QuestionItems(rs) == []
  {
    var items: seq<Receive<S, Q>> := AllStatuses(statuses);
    ItemsOfStatuses<S, Q>(statuses);
    ClosedTwice(items, StatusClosed);
    rs := items + [StatusClosed] + [StatusClosed];
    assert forall i :: 0 <= i < |rs| ==> rs[i].Status? || rs[i].StatusClosed?;
    PossibleFrom(rs, statuses, questions);
  }

  lemma QuestionsOnly<S, Q>(statuses: seq<S>, questions: seq<Q>) returns (rs: seq<Receive<S, Q>>)
    ensures Closing(rs, statuses, questions) && StatusItems(rs) == []
  {
    var items: seq<Receive<S, Q>> := AllQuestions(questions);
    ItemsOfQuestions<S, Q>(questions);
    ClosedTwice(items, QuestionClosed);
    rs := items + [QuestionClosed] + [QuestionClosed];
    assert forall i :: 0 <= i < |rs| ==> rs[i].Question? || rs[i].QuestionClosed?;
    PossibleFrom(rs, statuses, questions);
  }

  /** With two channels that can both close, merge is sure to deliver everything before it
      closes the output only when there is nothing to deliver. */
  lemma SureOnlyWhenEmpty<S(!new), Q(!new)>(statuses: seq<S>, questions: seq<Q>)
    ensures (forall rs: seq<Receive<S, Q>> :: Closing(rs, statuses, questions) ==> Complete(rs, statuses, questions))
            <==> statuses == [] && questions == []
  {
    if statuses == [] && questions == [] {
      forall rs: seq<Receive<S, Q>> | Closing(rs, statuses, questions) ensures Complete(rs, statuses, questions) {
      }
    } else {
      var noQuestion := StatusesOnly(statuses, questions);
      var noStatus := QuestionsOnly(statuses, questions);
      assert !Complete(noQuestion, statuses, questions) || !Complete(noStatus, statuses, questions);
    }
  }
}
