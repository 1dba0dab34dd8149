/**
 The two rules that judge a presented proof. The decline rule is tried first, the
 accept rule on the same wanted list after it; neither looks at the other's result.
 */
module ProofRules {
  import opened Wrappers
  import opened FsmTypes
  import opened FsmSpec

  predicate DistinctNames(wanted: seq<WantedAttr>) {
    forall i, j :: 0 <= i < j < |wanted| ==> wanted[i].name != wanted[j].name
  }

  /** How many presented attributes carry the name. */
  function PresentedCount(presented: seq<ProofAttr>, name: string): nat {
    if presented == [] then 0
    else PresentedCount(presented[..|presented| - 1], name) + if presented[|presented| - 1].name == name then 1 else 0
  }

  /** The same pairs, counted from the wanted side. */
  function WantedPairCount(wanted: seq<WantedAttr>, presented: seq<ProofAttr>): nat {
    if wanted == [] then 0
    else WantedPairCount(wanted[..|wanted| - 1], presented) + PresentedCount(presented, wanted[|wanted| - 1].name)
  }

  lemma {:induction false} WantedPairCountNext(wanted: seq<WantedAttr>, presented: seq<ProofAttr>)
    requires presented != []
    ensures WantedPairCount(wanted, presented) ==
            WantedPairCount(wanted, presented[..|presented| - 1]) + NameCount(wanted, presented[|presented| - 1].name)
  {
    if wanted != [] {
      WantedPairCountNext(wanted[..|wanted| - 1], presented);
    }
  }

  lemma {:induction false} NothingPresented(wanted: seq<WantedAttr>)
    ensures WantedPairCount(wanted, []) == 0
  {
    if wanted != [] {
      NothingPresented(wanted[..|wanted| - 1]);
    }
  }

  lemma {:induction false} CountBothWays(wanted: seq<WantedAttr>, presented: seq<ProofAttr>)
    ensures PairCount(wanted, presented) == WantedPairCount(wanted, presented)
  {
    if presented == [] {
      NothingPresented(wanted);
    } else {
      CountBothWays(wanted, presented[..|presented| - 1]);
      WantedPairCountNext(wanted, presented);
    }
  }

  lemma {:induction false} PresentedCountAtLeast(presented: seq<ProofAttr>, k: nat)
    requires k < |presented|
    ensures PresentedCount(presented, presented[k].name) >= 1
    decreases |presented|
  {
    if k < |presented| - 1 {
      PresentedCountAtLeast(presented[..|presented| - 1], k);
    }
  }

  /** With every wanted name presented at least once, the pairs are at least as many
      as the wanted attributes, and as many exactly when every name comes once. */
  lemma {:induction false} PairsAtLeastWanted(wanted: seq<WantedAttr>, presented: seq<ProofAttr>)
    requires forall i :: 0 <= i < |wanted| ==> PresentedCount(presented, wanted[i].name) >= 1
    ensures WantedPairCount(wanted, presented) >= |wanted|
    ensures WantedPairCount(wanted, presented) == |wanted| <==>
            forall i :: 0 <= i < |wanted| ==> PresentedCount(presented, wanted[i].name) == 1
  {
    if wanted != [] {
      var front := wanted[..|wanted| - 1];
      PairsAtLeastWanted(front, presented);
      assert forall i :: 0 <= i < |front| ==> front[i] == wanted[i];
      assert wanted[|wanted| - 1] in wanted;
    }
  }

  lemma AllWantedPresented(wanted: seq<WantedAttr>, presented: seq<ProofAttr>)
    requires !Declines(wanted, presented)
    ensures forall i :: 0 <= i < |wanted| ==> PresentedCount(presented, wanted[i].name) >= 1
  {
    forall i | 0 <= i < |wanted| ensures PresentedCount(presented, wanted[i].name) >= 1 {
      assert Presents(presented, wanted[i]);
      var k :| 0 <= k < |presented| && presented[k].name == wanted[i].name &&
          presented[k].credDefID == wanted[i].credDefID;
      PresentedCountAtLeast(presented, k);
    }
  }

  /** For any wanted list: a proof that is not declined is accepted exactly when no
      wanted name is presented twice. Otherwise neither rule fires. */
  lemma AcceptsWhenNotDeclined(wanted: seq<WantedAttr>, presented: seq<ProofAttr>)
    requires !Declines(wanted, presented)
    ensures PairCount(wanted, presented) == |presented| <==>
            forall i :: 0 <= i < |wanted| ==> PresentedCount(presented, wanted[i].name) == 1
  {
    AllWantedPresented(wanted, presented);
    CountBothWays(wanted, presented);
    PairsAtLeastWanted(wanted, presented);
  }

  /** A wanted list with one name twice: a proof that presents both is stuck. */
  lemma NeitherFires()
    ensures
      var wanted := [WantedAttr("a", "c"), WantedAttr("a", "d")];
      var presented := [ProofAttr("a", "c", "1"), ProofAttr("a", "d", "2")];
      !Declines(wanted, presented) && PairCount(wanted, presented) != |presented|
  {
    var wanted := [WantedAttr("a", "c"), WantedAttr("a", "d")];
    var presented := [ProofAttr("a", "c", "1"), ProofAttr("a", "d", "2")];
    assert presented[0].credDefID == wanted[0].credDefID && presented[1].credDefID == wanted[1].credDefID;
    assert Presents(presented, wanted[0]) && Presents(presented, wanted[1]);
    assert presented[..1] == [presented[0]] && presented[..1][..0] == [];
    assert wanted[..1] == [wanted[0]] && wanted[..1][..0] == [];
    assert NameCount(wanted, "a") == 2;
    assert PairCount(wanted, presented) == PairCount(wanted, presented[..1]) + 2;
  }

  // ------------------------------------------------ wanted names all distinct

  lemma {:induction false} NameCountOf(wanted: seq<WantedAttr>, name: string)
    requires DistinctNames(wanted)
    ensures NameCount(wanted, name) == if exists i :: 0 <= i < |wanted| && wanted[i].name == name then 1 else 0
  {
    if wanted != [] {
      var front := wanted[..|wanted| - 1];
      NameCountOf(front, name);
      if exists i :: 0 <= i < |front| && front[i].name == name {
        var i :| 0 <= i < |front| && front[i].name == name;
        assert wanted[i].name == name;
      }
      if exists i :: 0 <= i < |wanted| && wanted[i].name == name {
        var i :| 0 <= i < |wanted| && wanted[i].name == name;
        assert i < |front| ==> front[i].name == name;
      }
    }
  }

  /** The pigeonhole: no presented name can be wanted twice, so the pairs are at most
      as many as the presented attributes, and as many only if each one is wanted. */
  lemma {:induction false} PairsAtMostPresented(wanted: seq<WantedAttr>, presented: seq<ProofAttr>)
    requires DistinctNames(wanted)
    ensures PairCount(wanted, presented) <= |presented|
    ensures PairCount(wanted, presented) == |presented| ==>
              forall k :: 0 <= k < |presented| ==> NameCount(wanted, presented[k].name) == 1
  {
    if presented != [] {
      PairsAtMostPresented(wanted, presented[..|presented| - 1]);
      NameCountOf(wanted, presented[|presented| - 1].name);
      assert forall k :: 0 <= k < |presented| - 1 ==> presented[..|presented| - 1][k] == presented[k];
    }
  }

  /** Some wanted attribute is the one that `p` shows. */
  predicate IsWanted(wanted: seq<WantedAttr>, p: ProofAttr) {
    exists i :: 0 <= i < |wanted| && wanted[i].name == p.name && wanted[i].credDefID == p.credDefID
  }

  predicate NameIn(presented: seq<ProofAttr>, name: string) {
    exists k :: 0 <= k < |presented| && presented[k].name == name
  }

  predicate DistinctPresented(presented: seq<ProofAttr>) {
    forall j, k :: 0 <= j < k < |presented| ==> presented[j].name != presented[k].name
  }

  ghost predicate OneToOne(wanted: seq<WantedAttr>, presented: seq<ProofAttr>) {
    && |wanted| == |presented|
    && (forall k :: 0 <= k < |presented| ==> IsWanted(wanted, presented[k]))
    && (forall i :: 0 <= i < |wanted| ==> Presents(presented, wanted[i]))
    && DistinctPresented(presented)
  }

  /** The two maps agree on the key, also on whether it is there. */
  predicate AgreeOn(m: Mem, n: Mem, key: string) {
    (key in m <==> key in n) && (key in m ==> m[key] == n[key])
  }

  /** The memory is the old one, with every presented value under its name. */
  ghost predicate HoldsExactly(m: Mem, presented: seq<ProofAttr>, mem: Mem) {
    && (forall k :: 0 <= k < |presented| ==> presented[k].name in m && m[presented[k].name] == presented[k].value)
    && (forall key :: !NameIn(presented, key) ==> AgreeOn(m, mem, key))
  }

  lemma {:induction false} SavedValues(wanted: seq<WantedAttr>, presented: seq<ProofAttr>, mem: Mem)
    requires forall k :: 0 <= k < |presented| ==> NameCount(wanted, presented[k].name) > 0
    requires DistinctPresented(presented)
    ensures HoldsExactly(SaveValues(wanted, presented, mem), presented, mem)
  {
    if presented != [] {
      var n := |presented| - 1;
      var front, last := presented[..n], presented[n];
      assert forall k :: 0 <= k < n ==> front[k] == presented[k];
      SavedValues(wanted, front, mem);
      var m := SaveValues(wanted, front, mem);
      assert SaveValues(wanted, presented, mem) == m[last.name := last.value];
      forall key | !NameIn(presented, key)
        ensures AgreeOn(m[last.name := last.value], mem, key)
      {
        assert !NameIn(front, key);
        assert key != last.name;
      }
    }
  }

  lemma PresentedAreDistinct(wanted: seq<WantedAttr>, presented: seq<ProofAttr>)
    requires DistinctNames(wanted)
    requires forall k :: 0 <= k < |presented| ==> NameCount(wanted, presented[k].name) == 1
    requires forall i :: 0 <= i < |wanted| ==> PresentedCount(presented, wanted[i].name) == 1
    ensures DistinctPresented(presented)
  {
  }

  /** Distinct wanted names: what is not declined is accepted, the presented attributes
      are the wanted ones one to one, and the memory gets exactly their values. */
  lemma NotDeclinedIsAccepted(wanted: seq<WantedAttr>, presented: seq<ProofAttr>, mem: Mem)
    requires DistinctNames(wanted) && !Declines(wanted, presented)
    ensures PairCount(wanted, presented) == |presented|
    ensures OneToOne(wanted, presented)
    ensures HoldsExactly(SaveValues(wanted, presented, mem), presented, mem)
  {
    AllWantedPresented(wanted, presented);
    CountBothWays(wanted, presented);
    PairsAtLeastWanted(wanted, presented);
    PairsAtMostPresented(wanted, presented);
    PresentedAreDistinct(wanted, presented);
    forall k | 0 <= k < |presented|
      ensures IsWanted(wanted, presented[k])
    {
      NameCountOf(wanted, presented[k].name);
      var i :| 0 <= i < |wanted| && wanted[i].name == presented[k].name;
      assert Presents(presented, wanted[i]);
      var k' :| 0 <= k' < |presented| && presented[k'].name == wanted[i].name &&
          presented[k'].credDefID == wanted[i].credDefID;
      assert k' == k;
    }
    SavedValues(wanted, presented, mem);
  }

  /** What a proof shows, without the values. */
  function Shown(presented: seq<ProofAttr>): seq<WantedAttr> {
    seq(|presented|, k requires 0 <= k < |presented| => WantedAttr(presented[k].name, presented[k].credDefID))
  }

  lemma PresentsShown(presented: seq<ProofAttr>, w: WantedAttr)
    ensures Presents(presented, w) <==> w in multiset(Shown(presented))
  {
    var shown := Shown(presented);
    assert w in multiset(shown) <==> exists k :: 0 <= k < |shown| && shown[k] == w;
    if Presents(presented, w) {
      var k :| 0 <= k < |presented| && presented[k].name == w.name && presented[k].credDefID == w.credDefID;
      assert shown[k] == w;
    }
    if w in multiset(shown) {
      var k :| 0 <= k < |shown| && shown[k] == w;
      assert presented[k].name == w.name;
    }
  }

  lemma {:induction false} WantedOnce(wanted: seq<WantedAttr>, w: WantedAttr)
    requires DistinctNames(wanted)
    ensures multiset(wanted)[w] <= 1
  {
    if wanted != [] {
      var n := |wanted| - 1;
      WantedOnce(wanted[..n], w);
      assert wanted == wanted[..n] + [wanted[n]];
    }
  }

  lemma SameSize(a: multiset<WantedAttr>, b: multiset<WantedAttr>)
    requires a <= b && |a| == |b|
    ensures a == b
  {
    assert b == a + (b - a);
    assert |b - a| == 0;
  }

  /** Distinct wanted names: a proof passes the decline rule exactly if it shows the wanted
      attributes, each once, in any order, and nothing else. */
  lemma DeclinesAllOthers(wanted: seq<WantedAttr>, presented: seq<ProofAttr>)
    requires DistinctNames(wanted)
    ensures !Declines(wanted, presented) <==> multiset(wanted) == multiset(Shown(presented))
  {
    var want, show := multiset(wanted), multiset(Shown(presented));
    forall i | 0 <= i < |wanted| ensures Presents(presented, wanted[i]) <==> wanted[i] in show {
      PresentsShown(presented, wanted[i]);
    }
    if !Declines(wanted, presented) {
      forall w ensures want[w] <= show[w] {
        WantedOnce(wanted, w);
        if w in want {
          var i :| 0 <= i < |wanted| && wanted[i] == w;
          assert Presents(presented, wanted[i]);
        }
      }
      SameSize(want, show);
    }
    if want == show {
      assert |wanted| == |want| == |show| == |presented|;
      forall i | 0 <= i < |wanted| ensures Presents(presented, wanted[i]) {
        assert wanted[i] in want;
      }
    }
  }

  /** The transition leaves the question to the next one: it is of another protocol, or of
      a rule that never answers, with a readable list. */
  predicate LeavesQuestion(env: Env, t: Trigger) {
    || t.protocol != PresentProof
    || (env.attrs(t.data).Some? && t.rule != NotAcceptValues && t.rule != AcceptAndInputValues)
  }

  lemma {:induction false} SelectSkips(env: Env, trs: seq<TransitionDef>, i: nat, j: nat, mem: Mem, q: Question)
    requires i <= j <= |trs| && q.protocol == PresentProof
    requires forall l :: i <= l < j ==> LeavesQuestion(env, trs[l].trigger)
    ensures Select(env, trs, i, mem, QuestionEv(q)) == Select(env, trs, j, mem, QuestionEv(q))
    decreases j - i
  {
    if i < j {
      assert LeavesQuestion(env, trs[i].trigger);
      SelectSkips(env, trs, i + 1, j, mem, q);
    }
  }

  /** In a table: with decline at i, accept on the same data at j, and between them nothing
      that answers, every proof question that gets to i fires exactly one of the two. */
  lemma ExactlyOneFires(env: Env, trs: seq<TransitionDef>, i: nat, j: nat, mem: Mem, q: Question)
    requires i < j < |trs| && q.protocol == PresentProof
    requires trs[i].trigger.protocol == PresentProof && trs[i].trigger.rule == NotAcceptValues
    requires trs[j].trigger == trs[i].trigger.(rule := AcceptAndInputValues)
    requires forall l :: i < l < j ==> LeavesQuestion(env, trs[l].trigger)
    requires env.attrs(trs[i].trigger.data).Some? && DistinctNames(env.attrs(trs[i].trigger.data).value)
    ensures
      var wanted := env.attrs(trs[i].trigger.data).value;
      Select(env, trs, i, mem, QuestionEv(q)) ==
      if Declines(wanted, q.presented) then Selection(mem, Pick(i, trs[i].target))
      else Selection(SaveValues(wanted, q.presented, mem), Pick(j, trs[j].target))
  {
    var wanted := env.attrs(trs[i].trigger.data).value;
    if !Declines(wanted, q.presented) {
      NotDeclinedIsAccepted(wanted, q.presented, mem);
      assert Select(env, trs, i, mem, QuestionEv(q)) == Select(env, trs, i + 1, mem, QuestionEv(q));
      SelectSkips(env, trs, i + 1, j, mem, q);
    }
  }
}
