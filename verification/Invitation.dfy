/** Connection invitations of two versions: writing them as URLs, and reading them back. */
module Invitations {
  import opened Wrappers
  import opened Base64
  import opened Strings

  datatype V0 = V0(
    typeName: string, id: string, agentLabel: string, imageURL: string,
    serviceEndpoint: string, recipientKeys: seq<string>, routingKeys: seq<string>)

  datatype V1Service = V1Service(
    id: string, serviceEndpoint: string, serviceType: string,
    recipientKeys: seq<string>, routingKeys: seq<string>)

  datatype V1 = V1(
    typeName: string, id: string, agentLabel: string, imageURL: string,
    accept: seq<string>, handshakeProtocols: seq<string>, services: seq<V1Service>)

  datatype Invitation = InvitationV0(v0: V0) | InvitationV1(v1: V1)
  {
    function TypeName(): string {
      match this
      case InvitationV0(v0) => v0.typeName
      case InvitationV1(v1) => v1.typeName
    }
  }

  /** The libraries: the query of a URL, the bytes of a text, and the JSON codec. */
  datatype Libs = Libs(
    rawQuery: string -> Option<string>,
    utf8: string -> seq<Byte>,
    header: seq<Byte> -> string,
    readV0: seq<Byte> -> Option<V0>, readV1: seq<Byte> -> Option<V1>,
    writeV0: V0 -> seq<Byte>, writeV1: V1 -> seq<Byte>)

  // ----------------------------------------------------------------- texts

  predicate IsSpace(c: char) {
    c in {'\t', '\n', '\U{000B}', '\U{000C}', '\r', ' ', '\U{0085}', '\U{00A0}', '\U{1680}',
          '\U{2028}', '\U{2029}', '\U{202F}', '\U{205F}', '\U{3000}'}
    || '\U{2000}' <= c <= '\U{200A}'
  }

  function TrimSpace(s: string): string {
    if s != "" && IsSpace(s[0]) then TrimSpace(s[1..])
    else if s != "" && IsSpace(s[|s| - 1]) then TrimSpace(s[..|s| - 1])
    else s
  }

  /** The text before the first c, and the text after it. */
  function Cut(s: string, c: char): (string, string) {
    if s == "" then ("", "")
    else if s[0] == c then ("", s[1..])
    else var (before, after) := Cut(s[1..], c); ([s[0]] + before, after)
  }

  lemma {:induction false} CutShorter(s: string, c: char)
    ensures s != "" ==> |Cut(s, c).1| < |s|
    ensures |Cut(s, c).0| <= |s|
  {
    if s != "" && s[0] != c {
      CutShorter(s[1..], c);
    }
  }

  function HexOf(c: char): Option<int> {
    if '0' <= c <= '9' then Some(c as int - '0' as int)
    else if 'a' <= c <= 'f' then Some(c as int - 'a' as int + 10)
    else if 'A' <= c <= 'F' then Some(c as int - 'A' as int + 10)
    else None
  }

  /** An escaped byte becomes the character with that number. */
  function Unescape(s: string): Option<string> {
    if s == "" then Some("")
    else if s[0] == '%' then
      if |s| < 3 || HexOf(s[1]).None? || HexOf(s[2]).None? then None
      else
        (match Unescape(s[3..])
         case None => None
         case Some(rest) => Some([(HexOf(s[1]).value * 16 + HexOf(s[2]).value) as char] + rest))
    else
      match Unescape(s[1..])
      case None => None
      case Some(rest) => Some([if s[0] == '+' then ' ' else s[0]] + rest)
  }

  type Query = map<string, seq<string>>

  function Append(m: Query, key: string, value: string): Query {
    m[key := (if key in m then m[key] else []) + [value]]
  }

  /** None: some pair is not well formed. */
  function ParseQuery(query: string, m: Query): Option<Query>
    decreases |query|
  {
    if query == "" then Some(m)
    else
      CutShorter(query, '&');
      var (pair, rest) := Cut(query, '&');
      if ';' in pair then None
      else if pair == "" then ParseQuery(rest, m)
      else
        var (key, value) := Cut(pair, '=');
        match (Unescape(key), Unescape(value))
        case (Some(k), Some(v)) => ParseQuery(rest, Append(m, k, v))
        case _ => None
  }

  // ------------------------------------------------------- Build and Translate

  const PREFIX := "didcomm://aries_connection_invitation?"

  function KeyOf(inv: Invitation): string {
    if inv.InvitationV0? then "c_i" else "oob"
  }

  function JSON(libs: Libs, inv: Invitation): seq<Byte> {
    match inv
    case InvitationV0(v0) => libs.writeV0(v0)
    case InvitationV1(v1) => libs.writeV1(v1)
  }

  function QueryText(libs: Libs, inv: Invitation): string {
    KeyOf(inv) + "=" + Encode(JSON(libs, inv), false)
  }

  function Build(libs: Libs, inv: Invitation): string {
    PREFIX + QueryText(libs, inv)
  }

  function ParseInvitationJSON(libs: Libs, bytes: seq<Byte>): Option<Invitation> {
    var typeName := libs.header(bytes);
    if Contains(typeName, "connections") then
      match libs.readV0(bytes) case None => None case Some(v0) => Some(InvitationV0(v0))
    else if Contains(typeName, "out-of-band") then
      match libs.readV1(bytes) case None => None case Some(v1) => Some(InvitationV1(v1))
    else None
  }

  /** A text that is not a URL is read as JSON. */
  function Translate(libs: Libs, s: string): Option<Invitation> {
    match libs.rawQuery(TrimSpace(s))
    case None => ParseInvitationJSON(libs, libs.utf8(s))
    case Some(query) =>
      match ParseQuery(query, map[])
      case None => None
      case Some(m) =>
        var texts := if "c_i" in m then m["c_i"] else if "oob" in m then m["oob"] else [];
        if texts == [] then None
        else
          match DecodeB64(texts[0])
          case None => None
          case Some(bytes) => ParseInvitationJSON(libs, bytes)
  }

  // ---------------------------------------------------------------- round trip

  /** The JSON codec reads this invitation as it was written, and its header too. */
  predicate ReadsBack(libs: Libs, inv: Invitation) {
    && libs.header(JSON(libs, inv)) == inv.TypeName()
    && match inv
       case InvitationV0(v0) => libs.readV0(libs.writeV0(v0)) == Some(v0)
       case InvitationV1(v1) => libs.readV1(libs.writeV1(v1)) == Some(v1)
  }

  /** The URL parser finds the query of this invitation's URL. */
  predicate FindsQuery(libs: Libs, inv: Invitation) {
    libs.rawQuery(Build(libs, inv)) == Some(QueryText(libs, inv))
  }

  /** The type name that the reader takes for this version. */
  predicate TypeFits(inv: Invitation) {
    match inv
    case InvitationV0(v0) => Contains(v0.typeName, "connections")
    case InvitationV1(v1) => Contains(v1.typeName, "out-of-band") && !Contains(v1.typeName, "connections")
  }

  lemma {:induction false} EncodedDigits(bytes: seq<Byte>)
    ensures AllDigits(Encode(bytes, false))
  {
    if |bytes| == 1 {
      GroupRoundTrip(bytes[0], 0, 0, 2);
    } else if |bytes| == 2 {
      GroupRoundTrip(bytes[0], bytes[1], 0, 3);
    } else if |bytes| > 2 {
      GroupRoundTrip(bytes[0], bytes[1], bytes[2], 4);
      EncodedDigits(bytes[3..]);
    }
  }

  lemma {:induction false} CutAt(before: string, c: char, after: string)
    requires c !in before
    ensures Cut(before + [c] + after, c) == (before, after)
  {
    var s := before + [c] + after;
    if before != "" {
      assert s[1..] == before[1..] + [c] + after && before == [s[0]] + before[1..];
      CutAt(before[1..], c, after);
    } else {
      assert s[1..] == after;
    }
  }

  lemma {:induction false} CutNowhere(s: string, c: char)
    requires c !in s
    ensures Cut(s, c) == (s, "")
  {
    if s != "" {
      CutNowhere(s[1..], c);
      assert s == [s[0]] + s[1..];
    }
  }

  lemma {:induction false} PlainStays(s: string)
    requires '%' !in s && '+' !in s
    ensures Unescape(s) == Some(s)
  {
    if s != "" {
      PlainStays(s[1..]);
      assert s == [s[0]] + s[1..];
    }
  }

  /** The query of a built URL has one pair. */
  lemma QueryReads(key: string, text: string)
    requires key == "c_i" || key == "oob"
    requires AllDigits(text)
    ensures ParseQuery(key + "=" + text, map[]) == Some(map[key := [text]])
  {
    var query := key + "=" + text;
    assert key + ['='] + text == query;
    forall i | 0 <= i < |query| ensures query[i] != '&' && query[i] != ';' {
      assert i < 3 || i == 3 || query[i] == text[i - 4];
    }
    CutNowhere(query, '&');
    CutAt(key, '=', text);
    PlainStays(key);
    PlainStays(text);
    assert [] + [text] == [text] && Append(map[], key, text) == map[key := [text]];
  }

  lemma BuiltIsTrimmed(libs: Libs, inv: Invitation)
    ensures TrimSpace(Build(libs, inv)) == Build(libs, inv)
  {
    var text := Encode(JSON(libs, inv), false);
    EncodedDigits(JSON(libs, inv));
    var s := PREFIX + (KeyOf(inv) + "=" + text);
    assert s[0] == 'd';
    assert s[|s| - 1] == (KeyOf(inv) + "=" + text)[|KeyOf(inv) + "=" + text| - 1];
    assert text != "" ==> s[|s| - 1] == text[|text| - 1];
  }

  /** Reading what was built is reading the JSON: the key in the URL does not decide the version. */
  lemma TranslateBuilt(libs: Libs, inv: Invitation)
    requires FindsQuery(libs, inv)
    ensures Translate(libs, Build(libs, inv)) == ParseInvitationJSON(libs, JSON(libs, inv))
  {
    var bytes := JSON(libs, inv);
    BuiltIsTrimmed(libs, inv);
    EncodedDigits(bytes);
    QueryReads(KeyOf(inv), Encode(bytes, false));
    DecodesBoth(bytes, false);
  }

  /** Build and Translate give the same invitation of the same version exactly when its type
      name is one that the reader takes for that version. */
  lemma RoundTrip(libs: Libs, inv: Invitation)
    requires ReadsBack(libs, inv) && FindsQuery(libs, inv)
    ensures Translate(libs, Build(libs, inv)) == Some(inv) <==> TypeFits(inv)
  {
    TranslateBuilt(libs, inv);
  }

  /** The URL that Build makes, by version. */
  lemma BuiltURL(libs: Libs, inv: Invitation)
    ensures inv.InvitationV0? ==>
      Build(libs, inv) == "didcomm://aries_connection_invitation?c_i=" + Encode(libs.writeV0(inv.v0), false)
    ensures inv.InvitationV1? ==>
      Build(libs, inv) == "didcomm://aries_connection_invitation?oob=" + Encode(libs.writeV1(inv.v1), false)
  {
    var text := Encode(JSON(libs, inv), false);
    assert PREFIX + (KeyOf(inv) + "=" + text) == (PREFIX + (KeyOf(inv) + "=")) + text;
  }

  /** A text that is no URL is read as the JSON that it is, spaces around it included. */
  lemma JSONReads(libs: Libs, inv: Invitation, s: string)
    requires libs.rawQuery(TrimSpace(s)).None? && libs.utf8(s) == JSON(libs, inv) && ReadsBack(libs, inv)
    ensures Translate(libs, s) == Some(inv) <==> TypeFits(inv)
  {
  }

  // ------------------------------------------------------- among other pairs

  datatype Pair = Pair(key: string, value: string)

  /** A pair that stands for itself in a query. */
  predicate PlainPair(p: Pair) {
    && '=' !in p.key
    && forall c :: c in p.key + p.value ==> c != '%' && c != '+' && c != '&' && c != ';'
  }

  function QueryOf(pairs: seq<Pair>): string {
    if pairs == [] then ""
    else
      var first := pairs[0].key + "=" + pairs[0].value;
      if |pairs| == 1 then first else first + "&" + QueryOf(pairs[1..])
  }

  /** The values under a key, in order. */
  function ValuesOf(pairs: seq<Pair>, key: string): seq<string> {
    if pairs == [] then []
    else (if pairs[0].key == key then [pairs[0].value] else []) + ValuesOf(pairs[1..], key)
  }

  function Under(m: Query, key: string): seq<string> {
    if key in m then m[key] else []
  }

  /** The parser has added the values of the pairs to those it had. */
  ghost predicate Added(m: Query, pairs: seq<Pair>, q: Query) {
    forall key :: AddedUnder(m, pairs, q, key)
  }

  ghost predicate AddedUnder(m: Query, pairs: seq<Pair>, q: Query, key: string) {
    && Under(q, key) == Under(m, key) + ValuesOf(pairs, key)
    && (key in q <==> key in m || ValuesOf(pairs, key) != [])
  }

  /** What is left after the first pair. */
  function RestOf(pairs: seq<Pair>): string
    requires pairs != []
  {
    if |pairs| == 1 then "" else QueryOf(pairs[1..])
  }

  lemma FirstPair(pairs: seq<Pair>)
    requires pairs != [] && PlainPair(pairs[0])
    ensures QueryOf(pairs) != ""
    ensures Cut(QueryOf(pairs), '&') == (pairs[0].key + "=" + pairs[0].value, RestOf(pairs))
    ensures RestOf(pairs) == QueryOf(pairs[1..])
  {
    var p := pairs[0];
    var first := p.key + "=" + p.value;
    forall i | 0 <= i < |first| ensures first[i] != '&' {
      assert i < |p.key| ==> first[i] == p.key[i] && first[i] in p.key + p.value;
      assert i > |p.key| ==> first[i] == p.value[i - |p.key| - 1] && first[i] in p.key + p.value;
    }
    if |pairs| == 1 {
      CutNowhere(first, '&');
      assert pairs[1..] == [];
    } else {
      assert first + "&" + QueryOf(pairs[1..]) == first + ['&'] + QueryOf(pairs[1..]);
      CutAt(first, '&', QueryOf(pairs[1..]));
    }
  }

  lemma PlainReads(p: Pair)
    requires PlainPair(p)
    ensures var text := p.key + "=" + p.value;
            text != "" && ';' !in text && Cut(text, '=') == (p.key, p.value)
    ensures Unescape(p.key) == Some(p.key) && Unescape(p.value) == Some(p.value)
  {
    var text := p.key + "=" + p.value;
    assert p.key + ['='] + p.value == text;
    CutAt(p.key, '=', p.value);
    forall i | 0 <= i < |text| ensures text[i] != ';' {
      assert i < |p.key| ==> text[i] == p.key[i] && text[i] in p.key + p.value;
      assert i > |p.key| ==> text[i] == p.value[i - |p.key| - 1] && text[i] in p.key + p.value;
    }
    forall c | c in p.key ensures c != '%' && c != '+' { assert c in p.key + p.value; }
    forall c | c in p.value ensures c != '%' && c != '+' { assert c in p.key + p.value; }
    PlainStays(p.key);
    PlainStays(p.value);
  }

  lemma AddsFirst(m: Query, pairs: seq<Pair>, q: Query, key: string)
    requires pairs != [] && AddedUnder(Append(m, pairs[0].key, pairs[0].value), pairs[1..], q, key)
    ensures AddedUnder(m, pairs, q, key)
  {
    var rest := ValuesOf(pairs[1..], key);
    if key == pairs[0].key {
      assert (Under(m, key) + [pairs[0].value]) + rest == Under(m, key) + ([pairs[0].value] + rest);
    } else {
      assert [] + rest == rest;
    }
  }

  /** A query of plain pairs parses to their values, by key and in order. */
  lemma {:induction false} PairsRead(pairs: seq<Pair>, m: Query)
    requires forall i :: 0 <= i < |pairs| ==> PlainPair(pairs[i])
    ensures var q := ParseQuery(QueryOf(pairs), m); q.Some? && Added(m, pairs, q.value)
  {
    if pairs != [] {
      ParsesFirst(pairs, m);
      var m' := Append(m, pairs[0].key, pairs[0].value);
      PairsRead(pairs[1..], m');
      var q := ParseQuery(QueryOf(pairs), m).value;
      forall key ensures AddedUnder(m, pairs, q, key) {
        assert AddedUnder(m', pairs[1..], q, key);
        AddsFirst(m, pairs, q, key);
      }
    } else {
      forall key ensures AddedUnder(m, pairs, m, key) {
        assert Under(m, key) + [] == Under(m, key);
      }
    }
  }

  lemma ParsesFirst(pairs: seq<Pair>, m: Query)
    requires pairs != [] && PlainPair(pairs[0])
    ensures ParseQuery(QueryOf(pairs), m) ==
            ParseQuery(QueryOf(pairs[1..]), Append(m, pairs[0].key, pairs[0].value))
  {
    FirstPair(pairs);
    PlainReads(pairs[0]);
  }

  lemma FoundUnder(pairs: seq<Pair>, key: string)
    requires forall i :: 0 <= i < |pairs| ==> PlainPair(pairs[i])
    ensures
      var q := ParseQuery(QueryOf(pairs), map[]);
      && q.Some? && (key in q.value <==> ValuesOf(pairs, key) != [])
      && (key in q.value ==> q.value[key] == ValuesOf(pairs, key))
  {
    PairsRead(pairs, map[]);
    var q := ParseQuery(QueryOf(pairs), map[]).value;
    assert AddedUnder(map[], pairs, q, key);
    assert [] + ValuesOf(pairs, key) == ValuesOf(pairs, key);
  }

  /** A URL with any plain pairs in its query: the first "c_i" is read, or the first "oob" if
      there is no "c_i", padded or not. Without either there is no invitation. */
  lemma FoundAmongOthers(libs: Libs, s: string, pairs: seq<Pair>, bytes: seq<Byte>, padded: bool)
    requires libs.rawQuery(TrimSpace(s)) == Some(QueryOf(pairs))
    requires forall i :: 0 <= i < |pairs| ==> PlainPair(pairs[i])
    ensures
      var texts := if ValuesOf(pairs, "c_i") != [] then ValuesOf(pairs, "c_i") else ValuesOf(pairs, "oob");
      && (texts == [] ==> Translate(libs, s) == None)
      && (texts != [] && texts[0] == Encode(bytes, padded) ==> Translate(libs, s) == ParseInvitationJSON(libs, bytes))
  {
    DecodesBoth(bytes, padded);
    FoundUnder(pairs, "c_i");
    FoundUnder(pairs, "oob");
  }
}
