/**
 What the canonical text of a JSON value is (crates/holos-conformance/src/json.rs, `write_canonical`), character by
 character: digits are read back by their place and their character code, not through the table that wrote them.
 */
module JsonTexts {
  import opened CanonicalJson

  // --- Hexadecimal, read ----------------------------------------------------------------------------------------

  // What a digit is worth; -1 for any other character.
  function Worth(c: char): int {
    if '0' <= c <= '9' then c as int - '0' as int
    else if 'a' <= c <= 'f' then c as int - 'a' as int + 10
    else -1
  }

  function Sixteens(n: nat): nat {
    if n == 0 then 1 else 16 * Sixteens(n - 1)
  }

  function ReadHex(t: string): int {
    if t == [] then 0 else Worth(t[0]) * Sixteens(|t| - 1) + ReadHex(t[1..])
  }

  ghost predicate HexDigits(t: string) {
    forall c :: c in t ==> 0 <= Worth(c) <= 15
  }

  lemma DigitsWorth(d: nat)
    requires d < 16
    ensures Worth(HEX[d]) == d
  {
    assert HEX == ['0', '1', '2', '3', '4', '5', '6', '7', '8', '9', 'a', 'b', 'c', 'd', 'e', 'f'];
  }

  lemma {:induction false} ReadSnoc(t: string, c: char)
    ensures ReadHex(t + [c]) == 16 * ReadHex(t) + Worth(c)
  {
    if t == [] {
      assert [c][1..] == [] && Sixteens(0) == 1;
    } else {
      assert (t + [c])[1..] == t[1..] + [c];
      ReadSnoc(t[1..], c);
      assert Sixteens(|t|) == 16 * Sixteens(|t| - 1);
      TimesSixteen(Worth(t[0]), Sixteens(|t| - 1));
    }
  }

  lemma TimesSixteen(d: int, p: int)
    ensures d * (16 * p) == 16 * (d * p)
  {
  }

  lemma HexDigitsSnoc(t: string, c: char)
    requires HexDigits(t) && 0 <= Worth(c) <= 15
    ensures HexDigits(t + [c])
  {
  }

  lemma {:induction false} HexReads(n: nat, width: nat)
    requires n < Sixteens(width)
    ensures HexDigits(Hex(n, width)) && ReadHex(Hex(n, width)) == n
  {
    if width > 0 {
      HexReads(n / 16, width - 1);
      DigitsWorth(n % 16);
      ReadSnoc(Hex(n / 16, width - 1), HEX[n % 16]);
      HexDigitsSnoc(Hex(n / 16, width - 1), HEX[n % 16]);
    }
  }

  lemma {:induction false} ShortHexReads(n: nat)
    ensures HexDigits(ShortHex(n)) && ReadHex(ShortHex(n)) == n
    ensures ShortHex(n) == "0" || ShortHex(n)[0] != '0'
  {
    if n < 16 {
      DigitsWorth(n);
      ReadSnoc([], HEX[n]);
      assert [] + [HEX[n]] == [HEX[n]];
    } else {
      ShortHexReads(n / 16);
      DigitsWorth(n % 16);
      ReadSnoc(ShortHex(n / 16), HEX[n % 16]);
      HexDigitsSnoc(ShortHex(n / 16), HEX[n % 16]);
    }
  }

  // --- Values of one token -----------------------------------------------------------------------------------------

  lemma ConstantTexts(printable: char -> bool)
    ensures Canonical(printable, Null) == "null"
    ensures Canonical(printable, Bool(true)) == "true" && Canonical(printable, Bool(false)) == "false"
  {
  }

  lemma AllSixteen()
    ensures Sixteens(16) == 0x1_0000_0000_0000_0000
  {
    assert Sixteens(4) == 0x1_0000;
    assert Sixteens(8) == 0x1_0000_0000;
    assert Sixteens(12) == 0x1_0000_0000_0000;
  }

  // A number is an n and its sixteen hexadecimal digits, all of them.
  lemma NumberText(printable: char -> bool, bits: nat)
    requires bits < 0x1_0000_0000_0000_0000
    ensures var t := Canonical(printable, Number(bits));
            |t| == 17 && t[0] == 'n' && HexDigits(t[1..]) && ReadHex(t[1..]) == bits
  {
    AllSixteen();
    HexReads(bits, 16);
    assert Canonical(printable, Number(bits))[1..] == Hex(bits, 16);
  }

  // One character of a string: a backslash and a letter for six of them; itself, if it prints; otherwise its code in
  // braces, without zeros to spare.
  ghost predicate Spells(printable: char -> bool, c: char, t: string) {
    if c == '"' then t == "\\\""
    else if c == '\\' then t == "\\\\"
    else if c == '\t' then t == "\\t"
    else if c == '\r' then t == "\\r"
    else if c == '\n' then t == "\\n"
    else if c == '\0' then t == "\\0"
    else if printable(c) then t == [c]
    else IsCode(c, t)
  }

  predicate HasLetter(c: char) {
    c == '"' || c == '\\' || c == '\t' || c == '\r' || c == '\n' || c == '\0'
  }

  ghost predicate IsCode(c: char, t: string) {
    exists ds :: t == "\\u{" + ds + "}" && ds != [] && HexDigits(ds) && ReadHex(ds) == c as int && (ds == "0" || ds[0] != '0')
  }

  lemma LetterSpells(printable: char -> bool, c: char)
    requires HasLetter(c)
    ensures Spells(printable, c, Escape(printable, c))
  {
  }

  lemma CodeSpells(c: char)
    requires !HasLetter(c)
    ensures IsCode(c, ['\\'] + EscapeTail(c))
  {
    var ds := ShortHex(c as int);
    ShortHexReads(c as int);
    assert ['\\'] + (['u', '{'] + (ds + ['}'])) == "\\u{" + ds + "}";
  }

  lemma EscapeSpells(printable: char -> bool, c: char)
    ensures Spells(printable, c, Escape(printable, c))
  {
    if HasLetter(c) {
      LetterSpells(printable, c);
    } else if Escapes(printable, c) {
      CodeSpells(c);
    }
  }

  function Concat(ts: seq<string>): string {
    if ts == [] then "" else ts[0] + Concat(ts[1..])
  }

  ghost predicate SpellsEach(printable: char -> bool, s: string, ts: seq<string>) {
    |ts| == |s| && forall i :: 0 <= i < |s| ==> Spells(printable, s[i], ts[i])
  }

  lemma {:induction false} EscapedSpells(printable: char -> bool, s: string) returns (ts: seq<string>)
    ensures SpellsEach(printable, s, ts) && Escaped(printable, s) == Concat(ts)
  {
    if s == [] {
      ts := [];
    } else {
      var rest := EscapedSpells(printable, s[1..]);
      EscapeSpells(printable, s[0]);
      ts := [Escape(printable, s[0])] + rest;
      assert ts[1..] == rest;
    }
  }

  ghost predicate IsQuoted(printable: char -> bool, s: string, t: string) {
    exists ts :: SpellsEach(printable, s, ts) && t == "\"" + Concat(ts) + "\""
  }

  lemma QuotedIs(printable: char -> bool, s: string)
    ensures IsQuoted(printable, s, Quoted(printable, s))
  {
    var ts := EscapedSpells(printable, s);
    assert Quoted(printable, s) == "\"" + Concat(ts) + "\"";
  }

  // A string is its characters, each spelled, between quotes.
  lemma StringText(printable: char -> bool, s: string)
    ensures IsQuoted(printable, s, Canonical(printable, Str(s)))
  {
    QuotedIs(printable, s);
  }

  // --- Values of many --------------------------------------------------------------------------------------------------

  // Each after a comma.
  function Trailing(ts: seq<string>): string {
    if ts == [] then "" else ("," + ts[0]) + Trailing(ts[1..])
  }

  // With commas between them.
  function Separated(ts: seq<string>): string {
    if ts == [] then "" else ts[0] + Trailing(ts[1..])
  }

  function Texts(printable: char -> bool, items: seq<Json>): (ts: seq<string>)
    ensures |ts| == |items| && forall i :: 0 <= i < |items| ==> ts[i] == Text(printable, items[i])
  {
    seq(|items|, i requires 0 <= i < |items| => Text(printable, items[i]))
  }

  lemma {:induction false} ItemsTrailing(printable: char -> bool, items: seq<Json>)
    ensures Items(printable, items, false) == Trailing(Texts(printable, items))
  {
    if items != [] {
      ItemsTrailing(printable, items[1..]);
      assert Texts(printable, items[1..]) == Texts(printable, items)[1..];
    }
  }

  lemma ItemsSeparated(printable: char -> bool, items: seq<Json>)
    ensures Items(printable, items, true) == Separated(Texts(printable, items))
  {
    if items != [] {
      ItemsTrailing(printable, items[1..]);
      assert Texts(printable, items[1..]) == Texts(printable, items)[1..];
      assert Comma(true) + Text(printable, items[0]) == Text(printable, items[0]);
    }
  }

  // An array is its items' texts in order, commas between, in brackets.
  lemma ArrayText(printable: char -> bool, items: seq<Json>)
    ensures exists ts: seq<string> ::
              && |ts| == |items| && (forall i :: 0 <= i < |items| ==> ts[i] == Canonical(printable, items[i]))
              && Canonical(printable, Array(items)) == "[" + Separated(ts) + "]"
  {
    var normal := NormalEach(items);
    NormalSize(items);
    var ts := Texts(printable, normal);
    ItemsSeparated(printable, normal);
    forall i | 0 <= i < |items|
      ensures ts[i] == Canonical(printable, items[i])
    {
      NormalAt(items, i);
    }
  }

  lemma {:induction false} NormalSize(items: seq<Json>)
    ensures |NormalEach(items)| == |items|
  {
    if items != [] {
      NormalSize(items[1..]);
    }
  }

  function Entries(printable: char -> bool, ms: seq<Member>): (ts: seq<string>)
    ensures |ts| == |ms| && forall i :: 0 <= i < |ms| ==> ts[i] == Entry(printable, ms[i])
  {
    seq(|ms|, i requires 0 <= i < |ms| => Entry(printable, ms[i]))
  }

  lemma {:induction false} MembersTrailing(printable: char -> bool, ms: seq<Member>)
    ensures Members(printable, ms, false) == Trailing(Entries(printable, ms))
  {
    if ms != [] {
      MembersTrailing(printable, ms[1..]);
      assert Entries(printable, ms[1..]) == Entries(printable, ms)[1..];
      MembersFirst(printable, ms, false);
    }
  }

  lemma MembersFirst(printable: char -> bool, ms: seq<Member>, first: bool)
    requires ms != []
    ensures Members(printable, ms, first) == (Comma(first) + Entry(printable, ms[0])) + Members(printable, ms[1..], false)
  {
  }

  lemma MembersSeparated(printable: char -> bool, ms: seq<Member>)
    ensures Members(printable, ms, true) == Separated(Entries(printable, ms))
  {
    if ms != [] {
      MembersTrailing(printable, ms[1..]);
      assert Entries(printable, ms[1..]) == Entries(printable, ms)[1..];
      MembersFirst(printable, ms, true);
      assert Comma(true) + Entry(printable, ms[0]) == Entry(printable, ms[0]);
    }
  }

  ghost predicate IsEntry(printable: char -> bool, m: Member, t: string) {
    exists k :: IsQuoted(printable, m.key, k) && t == k + ":" + Canonical(printable, m.value)
  }

  // An object is its members, sorted by key and those of one key in the order they came, each its quoted key, a colon and
  // its value's text, commas between, in braces.
  lemma ObjectText(printable: char -> bool, members: seq<Member>)
    ensures exists ms: seq<Member>, ts: seq<string> ::
              && Sorted(ms) && (forall key :: Under(ms, key) == Under(members, key))
              && |ts| == |ms| && (forall i :: 0 <= i < |ms| ==> IsEntry(printable, ms[i], ts[i]))
              && Canonical(printable, Object(members)) == "{" + Separated(ts) + "}"
  {
    var ms := ByKey(members);
    var normal := NormalMembers(ms);
    ByKeySorted(members);
    forall key
      ensures Under(ms, key) == Under(members, key)
    {
      ByKeyStable(members, key);
    }
    CanonicalObject(printable, members);
    NormalCount(ms);
    MembersSeparated(printable, normal);
    var ts := Entries(printable, normal);
    forall i | 0 <= i < |ms|
      ensures IsEntry(printable, ms[i], ts[i])
    {
      NormalMemberAt(ms, i);
      QuotedIs(printable, ms[i].key);
      assert ts[i] == Quoted(printable, ms[i].key) + ":" + Canonical(printable, ms[i].value);
    }
  }

  lemma {:induction false} NormalCount(ms: seq<Member>)
    ensures |NormalMembers(ms)| == |ms|
  {
    if ms != [] {
      NormalCount(ms[1..]);
    }
  }

  // --- The order of keys -------------------------------------------------------------------------------------------------

  // Keys sort by the first character in which they differ, and before every key they begin.
  lemma {:induction false} KeyLessExactly(a: string, b: string)
    ensures KeyLess(a, b) <==> exists i :: Splits(a, b, i)
  {
    if a == [] || b == [] {
      assert b != [] ==> Splits(a, b, 0);
    } else {
      assert a[0] < b[0] ==> Splits(a, b, 0);
      if a[0] == b[0] {
        KeyLessTail(a, b);
        KeyLessExactly(a[1..], b[1..]);
      }
      if i :| Splits(a, b, i) {
        if i > 0 {
          assert a[..i][0] == a[0] && b[..i][0] == b[0];
          assert a[0] == b[0] ==> Splits(a[1..], b[1..], i - 1);
        }
      }
    }
  }

  ghost predicate Splits(a: string, b: string, i: int) {
    0 <= i <= |a| && i < |b| && a[..i] == b[..i] && (i == |a| || a[i] < b[i])
  }

  lemma KeyLessTail(a: string, b: string)
    requires a != [] && b != [] && a[0] == b[0]
    ensures forall i :: Splits(a[1..], b[1..], i) <==> i >= 0 && Splits(a, b, i + 1)
  {
    forall i
      ensures Splits(a[1..], b[1..], i) <==> i >= 0 && Splits(a, b, i + 1)
    {
      if 0 <= i < |a| && i + 1 < |b| {
        assert a[..i + 1] == [a[0]] + a[1..][..i] && b[..i + 1] == [b[0]] + b[1..][..i];
        assert a[..i + 1][1..] == a[1..][..i] && b[..i + 1][1..] == b[1..][..i];
      }
    }
  }
}
