/** Filling in the placeholders of a table file, like "${NAME}". */
module FilterLink {
  import opened Strings

  // --------------------------------------------------------- strings.Split, Join

  /** The first place from i on where `sep` occurs. */
  function IndexFrom(s: string, sep: string, i: nat): (r: int)
    requires i <= |s|
    ensures r < 0 ==> forall j :: i <= j <= |s| ==> !OccursAt(s, sep, j)
    ensures r >= 0 ==> i <= r && OccursAt(s, sep, r) && forall j :: i <= j < r ==> !OccursAt(s, sep, j)
    decreases |s| - i
  {
    if OccursAt(s, sep, i) then i
    else if i == |s| then -1
    else IndexFrom(s, sep, i + 1)
  }

  function Split(s: string, sep: string): (parts: seq<string>)
    requires sep != ""
    ensures parts != []
    decreases |s|
  {
    var i := IndexFrom(s, sep, 0);
    if i < 0 then [s] else [s[..i]] + Split(s[i + |sep|..], sep)
  }

  function Join(parts: seq<string>, sep: string): string {
    if parts == [] then ""
    else if |parts| == 1 then parts[0]
    else Join(parts[..|parts| - 1], sep) + sep + parts[|parts| - 1]
  }

  lemma {:induction false} JoinFront(first: string, parts: seq<string>, sep: string)
    requires parts != []
    ensures Join([first] + parts, sep) == first + sep + Join(parts, sep)
  {
    var all, k := [first] + parts, |parts| - 1;
    assert all[..|all| - 1] == [first] + parts[..k] && all[|all| - 1] == parts[k];
    if k > 0 {
      JoinFront(first, parts[..k], sep);
    }
  }

  lemma Cut(s: string, sep: string, i: nat)
    requires OccursAt(s, sep, i)
    ensures s == s[..i] + sep + s[i + |sep|..]
  {
  }

  /** Splitting loses nothing but the separators. */
  lemma {:induction false} SplitJoin(s: string, sep: string)
    requires sep != ""
    ensures Join(Split(s, sep), sep) == s
    decreases |s|
  {
    var i := IndexFrom(s, sep, 0);
    if i >= 0 {
      var rest := s[i + |sep|..];
      SplitJoin(rest, sep);
      JoinFront(s[..i], Split(rest, sep), sep);
      Cut(s, sep, i);
    }
  }

  // --------------------------------------------------------------- filterLink

  /** Panics is an index out of the range of a slice. */
  datatype Filtered = Panics | Text(text: string)

  function ValueOf(part: string, getter: string -> string): string {
    var pieces := Split(part, "}");
    if |pieces| > 1 then getter(pieces[0]) else ""
  }

  /** The loop, from part i on. */
  function FilterFrom(input: string, parts: seq<string>, i: nat, o: string, getter: string -> string): Filtered
    requires i <= |parts|
    decreases |parts| - i
  {
    if i == |parts| then Text(o)
    else if parts[i] <= input then FilterFrom(input, parts, i + 1, o + parts[i], getter)
    else
      var value, pieces := ValueOf(parts[i], getter), Split(parts[i], "}");
      if value == "" then Text(input)
      else if i < |parts| - 1 then FilterFrom(input, parts, i + 1, o + value, getter)
      else if i > |pieces| then Panics
      else Text(o + value + Join(pieces[i..], "}"))
  }

  function Filter(input: string, getter: string -> string): Filtered {
    FilterFrom(input, Split(input, "${"), 0, "", getter)
  }

  method FilterLinks(input: string, keyword: string, getter: string -> string) returns (out: Filtered)
    requires keyword == "$"
    ensures out == Filter(input, getter)
  {
    assert keyword + "{" == "${";
    var s := Split(input, keyword + "{");
    var o := "";
    for i := 0 to |s|
      invariant FilterFrom(input, s, i, o, getter) == Filter(input, getter)
    {
      var sub := s[i];
      if sub <= input {
        o := o + sub;
      } else {
        var s2 := Split(sub, "}");
        var e := "";
        if |s2| > 1 {
          e := getter(s2[0]);
        }
        if e == "" {
          return Text(input);
        }
        ghost var before := o;
        o := o + e;
        if i == |s| - 1 {
          if i > |s2| {
            return Panics;
          }
          var tail := s2[i..];
          for j := 0 to |tail|
            invariant o == before + e + Join(tail[..j], "}")
          {
            assert tail[..j + 1][..j] == tail[..j];
            if j > 0 {
              o := o + "}";
            }
            o := o + tail[j];
          }
          assert tail[..|tail|] == tail;
          return Text(o);
        }
      }
    }
    return Text(o);
  }

  // ------------------------------------------------------------ what it promises

  /** A text without a placeholder stays as it is. */
  lemma NoLink(input: string, getter: string -> string)
    requires forall i: nat :: !OccursAt(input, "${", i)
    ensures Filter(input, getter) == Text(input)
  {
  }

  /** The part starts with a name that has a value, and is not how the text starts. */
  predicate Fills(input: string, part: string, getter: string -> string) {
    !(part <= input) && ValueOf(part, getter) != ""
  }

  /** The values of the parts from i on. */
  function Values(parts: seq<string>, i: nat, getter: string -> string): string
    requires i <= |parts|
    decreases |parts| - i
  {
    if i == |parts| then "" else ValueOf(parts[i], getter) + Values(parts, i + 1, getter)
  }

  lemma Regroup(a: string, b: string, c: string)
    ensures (a + b) + c == a + (b + c)
  {
  }

  /** At this part the text is given back: it is no start of the text and has no value. */
  predicate Stops(input: string, part: string, getter: string -> string) {
    !(part <= input) && ValueOf(part, getter) == ""
  }

  /** The part as it is kept, or its value. */
  function ShownPart(input: string, part: string, getter: string -> string): string {
    if part <= input then part else ValueOf(part, getter)
  }

  /** What the parts from i on contribute: how the text starts is kept, with its name. */
  function Shown(input: string, parts: seq<string>, i: nat, getter: string -> string): string
    requires i <= |parts|
    decreases |parts| - i
  {
    if i == |parts| then ""
    else ShownPart(input, parts[i], getter) + Shown(input, parts, i + 1, getter)
  }

  /** What `parts` come out as, after `o`. */
  function Result(input: string, parts: seq<string>, i: nat, o: string, getter: string -> string): Filtered
    requires i < |parts|
  {
    var n := |parts| - 1;
    var pieces := Split(parts[n], "}");
    if exists k :: i <= k <= n && Stops(input, parts[k], getter) then Text(input)
    else if parts[n] <= input then Text(o + Shown(input, parts, i, getter))
    else if n > |pieces| then Panics
    else Text(o + Shown(input, parts, i, getter) + Join(pieces[n..], "}"))
  }

  lemma ResultNext(input: string, parts: seq<string>, i: nat, o: string, getter: string -> string)
    requires i < |parts| - 1 && !Stops(input, parts[i], getter)
    ensures Result(input, parts, i, o, getter) ==
            Result(input, parts, i + 1, o + ShownPart(input, parts[i], getter), getter)
  {
    Regroup(o, ShownPart(input, parts[i], getter), Shown(input, parts, i + 1, getter));
  }

  lemma ShownLast(input: string, parts: seq<string>, getter: string -> string)
    requires parts != []
    ensures Shown(input, parts, |parts| - 1, getter) == ShownPart(input, parts[|parts| - 1], getter)
  {
    assert Shown(input, parts, |parts|, getter) == "";
  }

  lemma {:induction false} AnyFrom(input: string, parts: seq<string>, i: nat, o: string, getter: string -> string)
    requires i < |parts|
    ensures FilterFrom(input, parts, i, o, getter) == Result(input, parts, i, o, getter)
    decreases |parts| - i
  {
    if i == |parts| - 1 {
      ShownLast(input, parts, getter);
    } else if !Stops(input, parts[i], getter) {
      ResultNext(input, parts, i, o, getter);
      AnyFrom(input, parts, i + 1, o + ShownPart(input, parts[i], getter), getter);
    }
  }

  /** The text before the first "${" is how the text starts, and nothing comes before it. */
  lemma ResultFromStart(input: string, parts: seq<string>, getter: string -> string)
    requires parts != [] && parts[0] <= input
    ensures
      var n := |parts| - 1;
      var pieces := Split(parts[n], "}");
      Result(input, parts, 0, "", getter) ==
      if exists k :: 1 <= k <= n && Stops(input, parts[k], getter) then Text(input)
      else if parts[n] <= input then Text(Shown(input, parts, 0, getter))
      else if n > |pieces| then Panics
      else Text(Shown(input, parts, 0, getter) + Join(pieces[n..], "}"))
  {
    assert "" + Shown(input, parts, 0, getter) == Shown(input, parts, 0, getter);
  }

  lemma FirstStarts(input: string)
    ensures Split(input, "${")[0] <= input
  {
  }

  /** Any text. If a part behind a "${" has no value and is not how the text starts, the text
      comes back unchanged. Otherwise each part becomes its value, or stays with its name if
      it is how the text starts; of the texts behind the names all are dropped but what
      follows the n-th "}" behind the last one, and with too few of those it panics. */
  lemma AnyLinks(input: string, getter: string -> string)
    ensures
      var parts := Split(input, "${");
      var n := |parts| - 1;
      var pieces := Split(parts[n], "}");
      Filter(input, getter) ==
      if exists k :: 1 <= k <= n && Stops(input, parts[k], getter) then Text(input)
      else if parts[n] <= input then Text(Shown(input, parts, 0, getter))
      else if n > |pieces| then Panics
      else Text(Shown(input, parts, 0, getter) + Join(pieces[n..], "}"))
  {
    var parts := Split(input, "${");
    FirstStarts(input);
    AnyFrom(input, parts, 0, "", getter);
    ResultFromStart(input, parts, getter);
  }

  lemma {:induction false} ValuesAreShown(input: string, parts: seq<string>, i: nat, getter: string -> string)
    requires i <= |parts| && forall k :: i <= k < |parts| ==> Fills(input, parts[k], getter)
    ensures Shown(input, parts, i, getter) == Values(parts, i, getter)
    decreases |parts| - i
  {
    if i < |parts| {
      assert Fills(input, parts[i], getter);
      ValuesAreShown(input, parts, i + 1, getter);
    }
  }

  /** With n placeholders that all have a value, the result is the text before the first
      one, then the n values without the texts between them, then what follows the n-th
      "}" behind the last one. With too few of those it panics. */
  lemma ManyLinks(input: string, getter: string -> string)
    requires
      var parts := Split(input, "${");
      |parts| > 1 && forall k :: 1 <= k < |parts| ==> Fills(input, parts[k], getter)
    ensures
      var parts := Split(input, "${");
      var n := |parts| - 1;
      var pieces := Split(parts[n], "}");
      Filter(input, getter) ==
      if n > |pieces| then Panics else Text(parts[0] + Values(parts, 1, getter) + Join(pieces[n..], "}"))
  {
    var parts := Split(input, "${");
    AnyLinks(input, getter);
    ValuesAreShown(input, parts, 1, getter);
    assert parts[0] <= input && Fills(input, parts[|parts| - 1], getter);
  }

  lemma SplitAt(s: string, sep: string, i: nat)
    requires sep != "" && OccursAt(s, sep, i) && forall j :: 0 <= j < i ==> !OccursAt(s, sep, j)
    ensures Split(s, sep) == [s[..i]] + Split(s[i + |sep|..], sep)
  {
  }

  lemma SplitNone(s: string, sep: string)
    requires sep != "" && forall j: nat :: !OccursAt(s, sep, j)
    ensures Split(s, sep) == [s]
  {
  }

  /** What follows a name and its "}" is what the other pieces join to. */
  lemma NameSplits(name: string, suffix: string)
    requires '}' !in name
    ensures
      var pieces := Split(name + "}" + suffix, "}");
      |pieces| > 1 && pieces[0] == name && pieces[1..] == Split(suffix, "}") && Join(pieces[1..], "}") == suffix
  {
    var part := name + "}" + suffix;
    forall j | 0 <= j < |name| ensures !OccursAt(part, "}", j) {
      assert part[j..j + 1] == [name[j]];
    }
    assert part[|name|..|name| + 1] == "}";
    SplitAt(part, "}", |name|);
    assert part[..|name|] == name && part[|name| + 1..] == suffix;
    SplitJoin(suffix, "}");
  }

  lemma OccursBehind(front: string, rest: string, sep: string, j: nat)
    requires OccursAt(rest, sep, j)
    ensures OccursAt(front + rest, sep, |front| + j)
  {
  }

  /** One separator: the text splits into what is before and what is after it. */
  lemma SplitsInTwo(prefix: string, sep: string, rest: string)
    requires sep != "" && forall i: nat :: OccursAt(prefix + sep + rest, sep, i) <==> i == |prefix|
    ensures Split(prefix + sep + rest, sep) == [prefix, rest]
  {
    var input, front := prefix + sep + rest, prefix + sep;
    assert OccursAt(input, sep, |prefix|);
    forall j: nat ensures !OccursAt(rest, sep, j) {
      if OccursAt(rest, sep, j) {
        OccursBehind(front, rest, sep, j);
      }
    }
    SplitNone(rest, sep);
    assert input[|front|..] == rest && input[..|prefix|] == prefix;
    SplitAt(input, sep, |prefix|);
  }

  /** One placeholder, with any text before and after it. The first result is how it comes
      out; the second says when that is right, for a name that has a value: always, unless
      the text starts with what follows its own "${". */
  lemma OneLink(prefix: string, name: string, suffix: string, getter: string -> string)
    requires '}' !in name
    requires forall i: nat :: OccursAt(prefix + "${" + (name + "}" + suffix), "${", i) <==> i == |prefix|
    ensures
      var rest := name + "}" + suffix;
      var input, value := prefix + "${" + rest, getter(name);
      Filter(input, getter) ==
      Text(if rest <= input then prefix + rest else if value == "" then input else prefix + value + suffix)
    ensures
      var rest := name + "}" + suffix;
      var input, value := prefix + "${" + rest, getter(name);
      value != "" ==>
        (Filter(input, getter) == Text(prefix + value + suffix) <==> !(rest <= input) || value == name + "}")
  {
    var rest := name + "}" + suffix;
    var input := prefix + "${" + rest;
    SplitsInTwo(prefix, "${", rest);
    NameSplits(name, suffix);
    StartsWith(prefix, "${", rest);
    OneFilled(input, prefix, rest, getter);
    OneRight(prefix, name, suffix, getter(name));
  }

  lemma StartsWith(prefix: string, sep: string, rest: string)
    ensures prefix <= prefix + sep + rest
  {
  }

  lemma OneFilled(input: string, prefix: string, rest: string, getter: string -> string)
    requires Split(input, "${") == [prefix, rest] && prefix <= input
    requires |Split(rest, "}")| > 1
    ensures
      var pieces := Split(rest, "}");
      var value := getter(pieces[0]);
      Filter(input, getter) ==
      Text(if rest <= input then prefix + rest else if value == "" then input
           else prefix + value + Join(pieces[1..], "}"))
  {
    var parts := [prefix, rest];
    assert "" + prefix == prefix;
    assert Filter(input, getter) == FilterFrom(input, parts, 1, prefix, getter);
    assert FilterFrom(input, parts, 2, prefix + rest, getter) == Text(prefix + rest);
  }

  /** Dropping only the "${" is right exactly for a value that is the name with its "}". */
  lemma OneRight(prefix: string, name: string, suffix: string, value: string)
    ensures prefix + (name + "}" + suffix) == prefix + value + suffix <==> value == name + "}"
  {
    var dropped, right := prefix + (name + "}" + suffix), prefix + value + suffix;
    if value == name + "}" {
      assert dropped == prefix + (value + suffix);
    }
    if dropped == right {
      assert |value| == |name| + 1;
      assert dropped[|prefix|..|prefix| + |value|] == name + "}";
      assert right[|prefix|..|prefix| + |value|] == value;
    }
  }

  lemma OneDollar()
    ensures forall i: nat :: OccursAt("A}${A}", "${", i) <==> i == 2
  {
    var input := "A}${A}";
    assert input[2..4] == "${";
    forall i: nat ensures OccursAt(input, "${", i) <==> i == 2 {
      if OccursAt(input, "${", i) {
        assert input[i] == input[i..i + 2][0] == '$';
      }
    }
  }

  lemma ItsPieces()
    ensures "A" + "}" + "" == "A}" && "A}" + "${" + "A}" == "A}${A}" && "A}" + "A}" == "A}A}" && "A}" <= "A}${A}"
  {
    assert "A}${A}"[..2] == "A}";
  }

  lemma SameBehind(front: string, a: string, b: string)
    ensures front + a == front + b ==> a == b
  {
    assert (front + a)[|front|..] == a && (front + b)[|front|..] == b;
  }

  /** A text that starts with what follows its own "${" keeps the name instead. */
  lemma StartsLikeItsLink(getter: string -> string)
    requires getter("A") != "" && getter("A") != "A}"
    ensures Filter("A}${A}", getter) == Text("A}A}")
    ensures Text("A}A}") != Text("A}" + getter("A"))
  {
    ItsPieces();
    OneDollar();
    OneLink("A}", "A", "", getter);
    SameBehind("A}", "A}", getter("A"));
  }

  lemma {:induction false} JoinLonger(parts: seq<string>, sep: string)
    requires parts != [] && sep != ""
    ensures |Join(parts[1..], sep)| <= |Join(parts, sep)|
    ensures |Join(parts[1..], sep)| == |Join(parts, sep)| ==> Join(parts, sep) == ""
  {
    if |parts| > 1 {
      JoinFront(parts[0], parts[1..], sep);
      assert parts == [parts[0]] + parts[1..];
    } else {
      assert parts[1..] == [];
    }
  }

  lemma ValueOfNamed(name: string, suffix: string, getter: string -> string)
    requires '}' !in name
    ensures ValueOf(name + "}" + suffix, getter) == getter(name)
  {
    NameSplits(name, suffix);
  }

  /** What two placeholders come out as. */
  lemma TwoResult(input: string, prefix: string, part1: string, part2: string, getter: string -> string)
    requires Split(input, "${") == [prefix, part1, part2] && Fills(input, part1, getter) && Fills(input, part2, getter)
    ensures |Split(part2, "}")| > 1
    ensures Filter(input, getter) ==
            Text(prefix + (ValueOf(part1, getter) + ValueOf(part2, getter)) + Join(Split(part2, "}")[2..], "}"))
  {
    var parts := Split(input, "${");
    assert parts[1] == part1 && parts[2] == part2;
    ManyLinks(input, getter);
    ValuesOfTwo(parts, getter);
  }

  lemma ValuesOfTwo(parts: seq<string>, getter: string -> string)
    requires |parts| == 3
    ensures Values(parts, 1, getter) == ValueOf(parts[1], getter) + ValueOf(parts[2], getter)
  {
    assert Values(parts, 3, getter) == "" && Values(parts, 2, getter) == ValueOf(parts[2], getter) + "";
  }

  /** Two placeholders come out right exactly when nothing stands between them, and
      nothing behind them. */
  lemma TwoLinks(input: string, prefix: string, name1: string, between: string, name2: string, suffix: string,
                 getter: string -> string)
    requires '}' !in name1 && '}' !in name2 && getter(name1) != "" && getter(name2) != ""
    requires Split(input, "${") == [prefix, name1 + "}" + between, name2 + "}" + suffix]
    requires !((name1 + "}" + between) <= input) && !((name2 + "}" + suffix) <= input)
    ensures Filter(input, getter) == Text(prefix + getter(name1) + between + getter(name2) + suffix)
            <==> between == "" && suffix == ""
  {
    ValueOfNamed(name1, between, getter);
    ValueOfNamed(name2, suffix, getter);
    NameSplits(name2, suffix);
    TwoResult(input, prefix, name1 + "}" + between, name2 + "}" + suffix, getter);
    var pieces := Split(name2 + "}" + suffix, "}");
    JoinLonger(pieces[1..], "}");
    assert pieces[1..][1..] == pieces[2..];
    TwoRight(prefix, getter(name1), between, getter(name2), suffix, Join(pieces[2..], "}"));
  }

  lemma TwoRight(prefix: string, value1: string, between: string, value2: string, suffix: string, kept: string)
    requires |kept| <= |suffix| && (|kept| == |suffix| ==> suffix == "")
    ensures prefix + (value1 + value2) + kept == prefix + value1 + between + value2 + suffix
            <==> between == "" && suffix == ""
  {
  }

  // ------------------------------------------------- when many come out right

  /** The text behind a placeholder, up to the next one. */
  function TextBehind(part: string): string {
    Join(Split(part, "}")[1..], "}")
  }

  /** The parts from i on with every placeholder replaced by its value and nothing dropped. */
  function Replaced(parts: seq<string>, i: nat, getter: string -> string): string
    requires i <= |parts|
    decreases |parts| - i
  {
    if i == |parts| then ""
    else ValueOf(parts[i], getter) + (TextBehind(parts[i]) + Replaced(parts, i + 1, getter))
  }

  /** How much text stands between the placeholders and behind the last one. */
  function LengthBehind(parts: seq<string>, i: nat): nat
    requires i <= |parts|
    decreases |parts| - i
  {
    if i == |parts| then 0 else |TextBehind(parts[i])| + LengthBehind(parts, i + 1)
  }

  lemma Lengths(a: string, b: string, c: string)
    ensures |a + (b + c)| == |a| + |b| + |c| && |a + c| == |a| + |c|
  {
  }

  lemma {:induction false} ReplacedLength(parts: seq<string>, i: nat, getter: string -> string)
    requires i <= |parts|
    ensures |Replaced(parts, i, getter)| == |Values(parts, i, getter)| + LengthBehind(parts, i)
    decreases |parts| - i
  {
    if i < |parts| {
      ReplacedLength(parts, i + 1, getter);
      Lengths(ValueOf(parts[i], getter), TextBehind(parts[i]), Replaced(parts, i + 1, getter));
      Lengths(ValueOf(parts[i], getter), "", Values(parts, i + 1, getter));
    }
  }

  lemma {:induction false} LastBehind(parts: seq<string>, i: nat)
    requires i < |parts|
    ensures LengthBehind(parts, i) >= |TextBehind(parts[|parts| - 1])|
    decreases |parts| - i
  {
    if i < |parts| - 1 {
      LastBehind(parts, i + 1);
    } else {
      assert LengthBehind(parts, |parts|) == 0;
    }
  }

  /** Dropping more pieces keeps less text; keeping as much means that there was none. */
  lemma {:induction false} KeptLength(pieces: seq<string>, n: nat)
    requires 2 <= n <= |pieces|
    ensures |Join(pieces[n..], "}")| <= |Join(pieces[1..], "}")|
    ensures |Join(pieces[n..], "}")| == |Join(pieces[1..], "}")| ==> Join(pieces[1..], "}") == ""
  {
    if n == 2 {
      JoinLonger(pieces[1..], "}");
      assert pieces[1..][1..] == pieces[2..];
    } else {
      KeptLength(pieces, n - 1);
      JoinLonger(pieces[n - 1..], "}");
      assert pieces[n - 1..][1..] == pieces[n..];
    }
  }

  /** Two pieces or more join to some text, their separator. */
  lemma JoinOfTwo(pieces: seq<string>)
    requires |pieces| > 1
    ensures Join(pieces, "}") != ""
  {
    JoinFront(pieces[0], pieces[1..], "}");
    assert pieces == [pieces[0]] + pieces[1..];
  }

  lemma Shorter(prefix: string, values: string, kept: string, replaced: string, behind: nat)
    requires |replaced| == |values| + behind && |kept| < behind
    ensures prefix + values + kept != prefix + replaced
  {
    assert |prefix + values + kept| < |prefix + replaced|;
  }

  lemma OneReplaced(parts: seq<string>, getter: string -> string)
    requires |parts| == 2
    ensures parts[0] + Replaced(parts, 1, getter) == parts[0] + Values(parts, 1, getter) + TextBehind(parts[1])
  {
    var value, behind := ValueOf(parts[1], getter), TextBehind(parts[1]);
    assert Replaced(parts, 2, getter) == "" && Values(parts, 2, getter) == "";
    assert value + "" == value && behind + "" == behind;
    Regroup(parts[0], value, behind);
  }

  lemma TwoReplaced(parts: seq<string>, getter: string -> string)
    requires |parts| == 3
    ensures LengthBehind(parts, 1) == |TextBehind(parts[1])| + |TextBehind(parts[2])|
    ensures TextBehind(parts[1]) == "" && TextBehind(parts[2]) == "" ==>
              Replaced(parts, 1, getter) == Values(parts, 1, getter)
  {
    assert LengthBehind(parts, 3) == 0 && Replaced(parts, 3, getter) == "" && Values(parts, 3, getter) == "";
    assert LengthBehind(parts, 2) == |TextBehind(parts[2])|;
    assert Replaced(parts, 2, getter) == ValueOf(parts[2], getter) + (TextBehind(parts[2]) + "");
  }

  /** What is kept of the parts, against their placeholders replaced and nothing dropped. */
  lemma KeptIsRight(parts: seq<string>, pieces: seq<string>, getter: string -> string)
    requires 2 <= |parts| <= |pieces| + 1 && pieces == Split(parts[|parts| - 1], "}") && |pieces| > 1
    ensures
      parts[0] + Values(parts, 1, getter) + Join(pieces[|parts| - 1..], "}") ==
          parts[0] + Replaced(parts, 1, getter) <==>
      |parts| == 2 || (|parts| == 3 && TextBehind(parts[1]) == "" && TextBehind(parts[2]) == "")
  {
    var n := |parts| - 1;
    var values, kept := Values(parts, 1, getter), Join(pieces[n..], "}");
    ReplacedLength(parts, 1, getter);
    LastBehind(parts, 1);
    if n == 1 {
      OneReplaced(parts, getter);
    } else {
      KeptLength(pieces, n);
      if n > 2 {
        JoinOfTwo(pieces[1..]);
      } else {
        TwoReplaced(parts, getter);
      }
      if |kept| < LengthBehind(parts, 1) {
        Shorter(parts[0], values, kept, Replaced(parts, 1, getter), LengthBehind(parts, 1));
      } else {
        assert kept == "" && values + kept == values;
        Regroup(parts[0], values, kept);
      }
    }
  }

  /** Placeholders that all have a value, in a text that does not start with what follows one
      of them, come out right in exactly two cases: there is one, or there are two with no
      text between them and none behind. Three or more never do. */
  lemma ManyRight(input: string, getter: string -> string)
    requires
      var parts := Split(input, "${");
      |parts| > 1 && forall k :: 1 <= k < |parts| ==> Fills(input, parts[k], getter)
    ensures
      var parts := Split(input, "${");
      Filter(input, getter) == Text(parts[0] + Replaced(parts, 1, getter)) <==>
      |parts| == 2 || (|parts| == 3 && TextBehind(parts[1]) == "" && TextBehind(parts[2]) == "")
  {
    var parts := Split(input, "${");
    var pieces := Split(parts[|parts| - 1], "}");
    ManyLinks(input, getter);
    assert Fills(input, parts[|parts| - 1], getter);
    if |parts| - 1 <= |pieces| {
      KeptIsRight(parts, pieces, getter);
    }
  }

  // ------------------------------------------------------ texts that go wrong

  lemma OpensWithDollar(s: string, j: nat)
    ensures OccursAt(s, "${", j) ==> j < |s| && s[j] == '$'
  {
    assert OccursAt(s, "${", j) ==> s[j..j + 2][0] == '$';
  }

  lemma SplitsAtFirst(prefix: string, rest: string)
    requires '$' !in prefix
    ensures Split(prefix + "${" + rest, "${") == [prefix] + Split(rest, "${")
  {
    var s := prefix + "${" + rest;
    forall j: nat | j < |prefix| ensures !OccursAt(s, "${", j) {
      OpensWithDollar(s, j);
      assert s[j] == prefix[j];
    }
    assert s[|prefix|..|prefix| + 2] == "${" && s[|prefix| + 2..] == rest && s[..|prefix|] == prefix;
    SplitAt(s, "${", |prefix|);
  }

  lemma SplitsNowhere(s: string)
    requires '$' !in s
    ensures Split(s, "${") == [s]
  {
    forall j: nat ensures !OccursAt(s, "${", j) {
      OpensWithDollar(s, j);
    }
    SplitNone(s, "${");
  }

  /** A name that can stand in a placeholder, with a value. */
  predicate Named(name: string, getter: string -> string) {
    name != "" && '$' !in name && '}' !in name && getter(name) != ""
  }

  /** A part that does not begin with a dollar is not how a text with one begins. */
  lemma NamedFills(input: string, name: string, suffix: string, getter: string -> string)
    requires "$" <= input && Named(name, getter)
    ensures Fills(input, name + "}" + suffix, getter) && ValueOf(name + "}" + suffix, getter) == getter(name)
  {
    ValueOfNamed(name, suffix, getter);
    assert (name + "}" + suffix)[0] == name[0];
  }

  /** Behind a closed name with no text there is one more piece, and it is empty. */
  lemma NothingBehind(name: string)
    requires '}' !in name
    ensures Split(name + "}" + "", "}") == [name, ""]
  {
    NameSplits(name, "");
    assert Split("", "}") == [""];
  }

  /** A text that is two placeholders with text between them loses that text. */
  lemma BetweenIsLost(name1: string, between: string, name2: string, getter: string -> string)
    requires Named(name1, getter) && Named(name2, getter) && '$' !in between
    ensures
      var input := "" + "${" + ((name1 + "}" + between) + "${" + (name2 + "}" + ""));
      Filter(input, getter) == Text(getter(name1) + getter(name2))
  {
    var part1, part2 := name1 + "}" + between, name2 + "}" + "";
    var input := "" + "${" + (part1 + "${" + part2);
    SplitsAtFirst("", part1 + "${" + part2);
    SplitsAtFirst(part1, part2);
    SplitsNowhere(part2);
    NamedFills(input, name1, between, getter);
    NamedFills(input, name2, "", getter);
    NothingBehind(name2);
    TwoResult(input, "", part1, part2, getter);
    NothingAround(getter(name1) + getter(name2));
  }

  lemma NothingAround(s: string)
    ensures "" + s + "" == s
  {
  }

  /** Of "${A}-${B}" the dash is lost. */
  lemma DashIsLost(getter: string -> string)
    requires getter("A") != "" && getter("B") != ""
    ensures Filter("${A}-${B}", getter) == Text(getter("A") + getter("B"))
    ensures getter("A") + getter("B") != getter("A") + "-" + getter("B")
  {
    BetweenIsLost("A", "-", "B", getter);
    assert "" + "${" + (("A" + "}" + "-") + "${" + ("B" + "}" + "")) == "${A}-${B}";
    assert |getter("A") + getter("B")| < |getter("A") + "-" + getter("B")|;
  }

  lemma RowSplits(part1: string, part2: string, part3: string)
    requires '$' !in part1 && '$' !in part2 && '$' !in part3
    ensures Split("" + "${" + (part1 + "${" + (part2 + "${" + part3)), "${") == ["", part1, part2, part3]
  {
    SplitsAtFirst("", part1 + "${" + (part2 + "${" + part3));
    SplitsAtFirst(part1, part2 + "${" + part3);
    SplitsAtFirst(part2, part3);
    SplitsNowhere(part3);
  }

  /** Three placeholders in a row always panic. */
  lemma ThreeInARowPanic(name1: string, name2: string, name3: string, getter: string -> string)
    requires Named(name1, getter) && Named(name2, getter) && Named(name3, getter)
    ensures
      var input := "" + "${" + ((name1 + "}" + "") + "${" + ((name2 + "}" + "") + "${" + (name3 + "}" + "")));
      Filter(input, getter) == Panics
  {
    var part1, part2, part3 := name1 + "}" + "", name2 + "}" + "", name3 + "}" + "";
    var input := "" + "${" + (part1 + "${" + (part2 + "${" + part3));
    RowSplits(part1, part2, part3);
    NamedFills(input, name1, "", getter);
    NamedFills(input, name2, "", getter);
    NamedFills(input, name3, "", getter);
    NothingBehind(name3);
    ThreePartsPanic(input, ["", part1, part2, part3], getter);
  }

  lemma ThreePartsPanic(input: string, parts: seq<string>, getter: string -> string)
    requires Split(input, "${") == parts && |parts| == 4 && |Split(parts[3], "}")| == 2
    requires Fills(input, parts[1], getter) && Fills(input, parts[2], getter) && Fills(input, parts[3], getter)
    ensures Filter(input, getter) == Panics
  {
    ManyLinks(input, getter);
  }

  /** "${A}${B}${C}" panics. */
  lemma ThreePanic(getter: string -> string)
    requires getter("A") != "" && getter("B") != "" && getter("C") != ""
    ensures Filter("${A}${B}${C}", getter) == Panics
  {
    ThreeInARowPanic("A", "B", "C", getter);
    assert "" + "${" + (("A" + "}" + "") + "${" + (("B" + "}" + "") + "${" + ("C" + "}" + ""))) == "${A}${B}${C}";
  }
}
