/**
 The ids inlined literals have on disk (crates/holos-core/src/term_id.rs, crates/holos-core/src/inline.rs): the words
 themselves, and the texts that get them. Nothing here goes through the codec's own constants.
 */
module Layout {
  import opened Options
  import opened Calendar
  import opened Inline

  // Characters, each its own byte.
  function Bytes(s: string): Text
    requires forall i :: 0 <= i < |s| ==> s[i] as int < 256
  {
    seq(|s|, i requires 0 <= i < |s| => s[i] as int)
  }

  // --- Numerals -------------------------------------------------------------------------------------------------

  function Ten(n: nat): nat {
    if n == 0 then 1 else 10 * Ten(n - 1)
  }

  ghost predicate AllDigits(t: Text) {
    forall b :: b in t ==> '0' as int <= b <= '9' as int
  }

  // What a string of digits stands for, place by place from the left.
  function Positional(t: Text): int {
    if t == [] then 0 else (t[0] - '0' as int) * Ten(|t| - 1) + Positional(t[1..])
  }

  // The canonical numeral: a minus sign if negative, no other sign, no digit to spare.
  ghost predicate IsNumeral(t: Text, v: int) {
    exists ds: Text ::
      && ds != [] && AllDigits(ds) && (|ds| > 1 ==> ds[0] != '0' as int)
      && t == (if v < 0 then Bytes("-") else []) + ds && Positional(ds) == (if v < 0 then -v else v)
  }

  lemma {:induction false} PositionalSnoc(t: Text, b: byte)
    ensures Positional(t + [b]) == 10 * Positional(t) + (b - '0' as int)
  {
    if t == [] {
      assert [b][1..] == [] && Ten(0) == 1;
    } else {
      assert (t + [b])[1..] == t[1..] + [b];
      PositionalSnoc(t[1..], b);
      assert Ten(|t|) == 10 * Ten(|t| - 1);
      TimesTen(t[0] - '0' as int, Ten(|t| - 1));
    }
  }

  lemma TimesTen(d: int, p: int)
    ensures d * (10 * p) == 10 * (d * p)
  {
  }

  // The digits a number is shown by stand for it, and the first is no zero to spare.
  lemma {:induction false} DigitsStand(n: nat)
    ensures AllDigits(Digits(n)) && Positional(Digits(n)) == n
    ensures n > 0 ==> Digits(n)[0] != '0' as int
    ensures n == 0 ==> Digits(n) == Bytes("0")
  {
    var t := Digits(n);
    forall b | b in t
      ensures '0' as int <= b <= '9' as int
    {
      var i :| 0 <= i < |t| && t[i] == b;
      assert IsDigit(t[i]);
    }
    if n < 10 {
      assert t[1..] == [] && Ten(0) == 1;
    } else {
      DigitsStand(n / 10);
      PositionalSnoc(Digits(n / 10), ZERO + n % 10);
    }
  }

  lemma {:induction false} PositionalBounds(t: Text)
    requires AllDigits(t)
    ensures 0 <= Positional(t) < Ten(|t|)
    ensures t != [] && t[0] != '0' as int ==> Positional(t) >= Ten(|t| - 1)
  {
    if t != [] {
      assert t[0] in t;
      assert forall b :: b in t[1..] ==> b in t;
      PositionalBounds(t[1..]);
      PlaceBounds(t[0] - '0' as int, Ten(|t| - 1), Positional(t[1..]));
    }
  }

  lemma PlaceBounds(d: int, p: int, r: int)
    requires 0 <= d <= 9 && 0 <= r < p
    ensures 0 <= d * p + r < 10 * p
    ensures d > 0 ==> d * p + r >= p
  {
    assert d * p <= 9 * p;
    if d > 0 {
      assert d * p >= p;
    }
  }

  lemma {:induction false} TenGrows(m: nat, n: nat)
    requires m <= n
    ensures 1 <= Ten(m) <= Ten(n)
    decreases n
  {
    if m < n {
      TenGrows(m, n - 1);
    } else if n > 0 {
      TenGrows(m - 1, n - 1);
    }
  }

  // Of one length, digits that stand for the same number are the same.
  lemma {:induction false} SamePlaces(s: Text, t: Text)
    requires AllDigits(s) && AllDigits(t) && |s| == |t| && Positional(s) == Positional(t)
    ensures s == t
  {
    if s != [] {
      assert s[0] in s && t[0] in t;
      assert (forall b :: b in s[1..] ==> b in s) && forall b :: b in t[1..] ==> b in t;
      PositionalBounds(s[1..]);
      PositionalBounds(t[1..]);
      LeadingPlace(s[0] - '0' as int, t[0] - '0' as int, Ten(|s| - 1), Positional(s[1..]), Positional(t[1..]));
      SamePlaces(s[1..], t[1..]);
      assert s == [s[0]] + s[1..] && t == [t[0]] + t[1..];
    }
  }

  lemma LeadingPlace(a: int, b: int, p: int, x: int, y: int)
    requires 0 <= x < p && 0 <= y < p && a * p + x == b * p + y
    ensures a == b && x == y
  {
    QuotientIs(p, a, x, b, y);
  }

  // So there is one canonical numeral for a number.
  lemma SameNumeral(s: Text, t: Text)
    requires s != [] && t != [] && AllDigits(s) && AllDigits(t) && Positional(s) == Positional(t)
    requires (|s| > 1 ==> s[0] != '0' as int) && (|t| > 1 ==> t[0] != '0' as int)
    ensures s == t
  {
    PositionalBounds(s);
    PositionalBounds(t);
    if |s| < |t| {
      TenGrows(|s|, |t| - 1);
    } else if |t| < |s| {
      TenGrows(|t|, |s| - 1);
    }
    SamePlaces(s, t);
  }

  lemma ShownIsNumeral(v: int)
    ensures IsNumeral(ShowInteger(v), v)
  {
    var n: nat := if v < 0 then -v else v;
    DigitsStand(n);
    assert Bytes("-") == [MINUS];
    assert ShowInteger(v) == (if v < 0 then Bytes("-") else []) + Digits(n);
  }

  lemma NumeralIsShown(t: Text, v: int)
    requires IsNumeral(t, v)
    ensures t == ShowInteger(v)
  {
    var ds: Text :|
      && ds != [] && AllDigits(ds) && (|ds| > 1 ==> ds[0] != '0' as int)
      && t == (if v < 0 then Bytes("-") else []) + ds && Positional(ds) == (if v < 0 then -v else v);
    var n: nat := if v < 0 then -v else v;
    DigitsStand(n);
    SameNumeral(ds, Digits(n));
    assert Bytes("-") == [MINUS];
  }

  // --- The words ------------------------------------------------------------------------------------------------

  // An integer has the id 0x4800_0000_0000_0000 and itself, exactly when it is in canonical form and the id keeps its tag.
  lemma {:induction false} IntegerWord(text: FloatText, t: Text, id: int)
    ensures Encode(text, Literal(t, IntegerKind, false)) == Some(id)
       <==> 0x4000_0000_0000_0000 <= id < 0x5000_0000_0000_0000 && IsNumeral(t, id - 0x4800_0000_0000_0000)
  {
    var v := id - 0x4800_0000_0000_0000;
    IntegerShown(t, v);
    if t == ShowInteger(v) {
      ShownIsNumeral(v);
    }
    if IsNumeral(t, v) {
      NumeralIsShown(t, v);
    }
    assert Encode(text, Literal(t, IntegerKind, false)) == EncodeInteger(t);
  }

  lemma {:induction false} IntegerShown(t: Text, v: int)
    ensures EncodeInteger(t) == Some(0x4800_0000_0000_0000 + v) <==> -0x800_0000_0000_0000 <= v < 0x800_0000_0000_0000 && t == ShowInteger(v)
  {
    if -0x800_0000_0000_0000 <= v < 0x800_0000_0000_0000 {
      EncodesInteger(t, v);
    }
  }

  // A boolean has one of two, for its canonical text alone.
  lemma BooleanWord(text: FloatText, t: Text, id: int)
    ensures Encode(text, Literal(t, BooleanKind, false)) == Some(id)
       <==> (t == Bytes("true") && id == 0x7000_0000_0000_0010) || (t == Bytes("false") && id == 0x7000_0000_0000_0000)
  {
    assert Bytes("true") == TRUE_TEXT;
    assert Bytes("false") == FALSE_TEXT;
  }

  // A float: the library's bits, those of a positive number above those of a negative one.
  lemma FloatWord(text: FloatText, t: Text, id: int)
    ensures Encode(text, Literal(t, FloatKind, false)) == Some(id)
       <==> text.parse(t).Some? && text.show(text.parse(t).value) == t
            && id == if text.parse(t).value < 0x8000_0000 then 0x5000_0000_8000_0000 + text.parse(t).value
                     else 0x5000_0000_FFFF_FFFF - text.parse(t).value
  {
  }

  // The i-th of six bytes, zero past the end.
  function ByteAt(t: Text, i: nat): int {
    if i < |t| then t[i] else 0
  }

  // A string of six bytes or fewer: the bytes from the top down, the length, and the mark of a string. No longer one.
  lemma StringWord(text: FloatText, t: Text, id: int)
    ensures Encode(text, Literal(t, StringKind, false)) == Some(id)
       <==> |t| <= 6
            && id == 0x7000_0000_0000_0001 + 0x10 * |t|
                   + 0x10_0000_0000_0000 * ByteAt(t, 0) + 0x1000_0000_0000 * ByteAt(t, 1) + 0x10_0000_0000 * ByteAt(t, 2)
                   + 0x1000_0000 * ByteAt(t, 3) + 0x10_0000 * ByteAt(t, 4) + 0x1000 * ByteAt(t, 5)
  {
    if |t| <= 6 {
      PackedIs(t);
    }
  }

  lemma {:induction false} PackedIs(t: Text)
    requires |t| <= 6
    ensures Packed(t, 6) == 0x100_0000_0000 * ByteAt(t, 0) + 0x1_0000_0000 * ByteAt(t, 1) + 0x100_0000 * ByteAt(t, 2)
                            + 0x1_0000 * ByteAt(t, 3) + 0x100 * ByteAt(t, 4) + ByteAt(t, 5)
  {
    Powers();
    PackedFrom(t, 0, 0x100_0000_0000);
    PackedFrom(t, 1, 0x1_0000_0000);
    PackedFrom(t, 2, 0x100_0000);
    PackedFrom(t, 3, 0x1_0000);
    PackedFrom(t, 4, 0x100);
    PackedFrom(t, 5, 1);
  }

  function From(t: Text, i: nat): Text {
    if i <= |t| then t[i..] else []
  }

  lemma Powers()
    ensures Power256(0) == 1 && Power256(1) == 0x100 && Power256(2) == 0x1_0000 && Power256(3) == 0x100_0000
    ensures Power256(4) == 0x1_0000_0000 && Power256(5) == 0x100_0000_0000
  {
  }

  lemma {:induction false} PackedFrom(t: Text, i: nat, p: int)
    requires |t| <= 6 && i < 6 && p == Power256(5 - i)
    ensures |From(t, i)| <= 6 - i && |From(t, i + 1)| <= 5 - i
    ensures Packed(From(t, i), 6 - i) == p * ByteAt(t, i) + Packed(From(t, i + 1), 5 - i)
  {
    if i < |t| {
      assert From(t, i)[0] == t[i] && From(t, i)[1..] == From(t, i + 1);
    }
  }

  // `YYYY-MM-DDThh:mm:ssZ`.
  ghost predicate IsTimestamp(t: Text, i: Instant) {
    && |t| == 20 && [t[4], t[7], t[10], t[13], t[16], t[19]] == Bytes("--T::Z")
    && DigitPieces(t)
    && Positional(t[0..4]) == i.date.y && Positional(t[5..7]) == i.date.m && Positional(t[8..10]) == i.date.d
    && Positional(t[11..13]) == i.hour && Positional(t[14..16]) == i.minute && Positional(t[17..19]) == i.second
  }

  // The seconds to an instant of a four-digit year, counted from the start of 1970.
  ghost predicate IsWhen(i: Instant, seconds: int) {
    && IsDate(i.date) && 1 <= i.date.y <= 9999 && 0 <= i.hour <= 23 && 0 <= i.minute <= 59 && 0 <= i.second <= 59
    && seconds == DaysFromCivil(i.date) * 86_400 + i.hour * 3_600 + i.minute * 60 + i.second
  }

  lemma TwoPlaces(a: byte, b: byte)
    ensures Positional([a, b]) == 10 * (a - '0' as int) + (b - '0' as int)
  {
    PositionalSnoc([], a);
    PositionalSnoc([a], b);
    assert [] + [a] == [a] && [a] + [b] == [a, b];
  }

  lemma FourPlaces(a: byte, b: byte, c: byte, d: byte)
    ensures Positional([a, b, c, d]) == 100 * Positional([a, b]) + Positional([c, d])
  {
    TwoPlaces(a, b);
    TwoPlaces(c, d);
    PositionalSnoc([a, b], c);
    PositionalSnoc([a, b, c], d);
    assert [a, b] + [c] == [a, b, c] && [a, b, c] + [d] == [a, b, c, d];
  }

  lemma TwoStand(n: int, a: byte, b: byte)
    requires 0 <= n < 100 && '0' as int <= a <= '9' as int && '0' as int <= b <= '9' as int
    ensures [a, b] == Two(n) <==> Positional([a, b]) == n
  {
    TwoPlaces(a, b);
  }

  lemma Pair(t: Text, i: nat)
    requires i + 2 <= |t|
    ensures t[i..i + 2] == [t[i], t[i + 1]]
  {
  }

  // The pieces of a text of that length, and the marks between them.
  lemma Pieces(t: Text)
    requires |t| == 20
    ensures t == t[0..2] + t[2..4] + [t[4]] + t[5..7] + [t[7]] + t[8..10] + [t[10]]
                 + t[11..13] + [t[13]] + t[14..16] + [t[16]] + t[17..19] + [t[19]]
  {
  }

  lemma ShownPieces(i: Instant)
    requires IsInstant(i)
    ensures var r := ShowInstant(i);
            && r[0..2] == Two(i.date.y / 100) && r[2..4] == Two(i.date.y % 100) && r[5..7] == Two(i.date.m) && r[8..10] == Two(i.date.d)
            && r[11..13] == Two(i.hour) && r[14..16] == Two(i.minute) && r[17..19] == Two(i.second)
            && r[4] == 45 && r[7] == 45 && r[10] == 84 && r[13] == 58 && r[16] == 58 && r[19] == 90
  {
  }

  lemma Marks(t: Text)
    requires |t| == 20
    ensures [t[4], t[7], t[10], t[13], t[16], t[19]] == Bytes("--T::Z")
       <==> t[4] == 45 && t[7] == 45 && t[10] == 84 && t[13] == 58 && t[16] == 58 && t[19] == 90
  {
    assert Bytes("--T::Z") == [45, 45, 84, 58, 58, 90];
    var marks := [t[4], t[7], t[10], t[13], t[16], t[19]];
    if marks == Bytes("--T::Z") {
      assert marks[0] == 45 && marks[1] == 45 && marks[2] == 84 && marks[3] == 58 && marks[4] == 58 && marks[5] == 90;
    }
  }

  lemma PieceStands(t: Text, i: nat, n: int)
    requires i + 2 <= |t| && 0 <= n < 100 && AllDigits(t[i..i + 2])
    ensures t[i..i + 2] == Two(n) <==> Positional(t[i..i + 2]) == n
  {
    Pair(t, i);
    assert t[i] in t[i..i + 2] && t[i + 1] in t[i..i + 2];
    TwoStand(n, t[i], t[i + 1]);
  }

  lemma YearStands(t: Text, y: int)
    requires |t| == 20 && 0 <= y < 10_000 && AllDigits(t[0..4])
    ensures t[0..2] == Two(y / 100) && t[2..4] == Two(y % 100) <==> Positional(t[0..4]) == y
  {
    assert t[0..4] == [t[0], t[1], t[2], t[3]];
    Pair(t, 0);
    Pair(t, 2);
    assert t[0] in t[0..4] && t[1] in t[0..4] && t[2] in t[0..4] && t[3] in t[0..4];
    FourPlaces(t[0], t[1], t[2], t[3]);
    TwoPlaces(t[0], t[1]);
    TwoPlaces(t[2], t[3]);
    TwoStand(y / 100, t[0], t[1]);
    TwoStand(y % 100, t[2], t[3]);
  }

  ghost predicate DigitPieces(t: Text)
    requires |t| == 20
  {
    && AllDigits(t[0..4]) && AllDigits(t[5..7]) && AllDigits(t[8..10])
    && AllDigits(t[11..13]) && AllDigits(t[14..16]) && AllDigits(t[17..19])
  }

  lemma TwoIsDigits(n: int)
    requires 0 <= n < 100
    ensures AllDigits(Two(n))
  {
  }

  lemma ShownDigits(i: Instant)
    requires IsInstant(i)
    ensures DigitPieces(ShowInstant(i))
  {
    var r := ShowInstant(i);
    ShownPieces(i);
    TwoIsDigits(i.date.y / 100);
    TwoIsDigits(i.date.y % 100);
    assert r[0..4] == r[0..2] + r[2..4];
    TwoIsDigits(i.date.m);
    TwoIsDigits(i.date.d);
    TwoIsDigits(i.hour);
    TwoIsDigits(i.minute);
    TwoIsDigits(i.second);
  }

  lemma TimestampShown(t: Text, i: Instant)
    requires IsInstant(i)
    ensures IsTimestamp(t, i) <==> t == ShowInstant(i)
  {
    var r := ShowInstant(i);
    ShownPieces(i);
    if t == r {
      ShownDigits(i);
    }
    if |t| == 20 && DigitPieces(t) {
      Marks(t);
      YearStands(t, i.date.y);
      PieceStands(t, 5, i.date.m);
      PieceStands(t, 8, i.date.d);
      PieceStands(t, 11, i.hour);
      PieceStands(t, 14, i.minute);
      PieceStands(t, 17, i.second);
      Pieces(t);
      Pieces(r);
    }
  }

  lemma InstantWord(i: Instant)
    requires IsInstant(i)
    ensures EncodeDateTime(ShowInstant(i)) == Some(0x6800_0000_0000_0000 + SecondsOf(i))
  {
    InstantParses(i);
  }

  lemma WordOfInstant(t: Text, id: int) returns (i: Instant)
    requires EncodeDateTime(t) == Some(id)
    ensures IsInstant(i) && t == ShowInstant(i) && id == 0x6800_0000_0000_0000 + SecondsOf(i)
  {
    i := ParseInstant(t).value;
  }

  lemma WhenIs(i: Instant, seconds: int)
    ensures IsWhen(i, seconds) <==> IsInstant(i) && seconds == SecondsOf(i)
  {
  }

  ghost predicate Stamps(t: Text, i: Instant, id: int) {
    IsTimestamp(t, i) && IsWhen(i, id - 0x6800_0000_0000_0000)
  }

  lemma StampIs(t: Text, i: Instant, id: int)
    ensures Stamps(t, i, id) <==> IsInstant(i) && t == ShowInstant(i) && id == 0x6800_0000_0000_0000 + SecondsOf(i)
  {
    WhenIs(i, id - 0x6800_0000_0000_0000);
    if IsInstant(i) {
      TimestampShown(t, i);
    }
  }

  // An instant: the seconds, for its canonical text alone.
  lemma DateTimeWord(text: FloatText, t: Text, id: int)
    ensures Encode(text, Literal(t, DateTimeKind, false)) == Some(id) <==> exists i :: Stamps(t, i, id)
  {
    assert Encode(text, Literal(t, DateTimeKind, false)) == EncodeDateTime(t);
    if EncodeDateTime(t) == Some(id) {
      var i := WordOfInstant(t, id);
      StampIs(t, i, id);
    }
    if i :| Stamps(t, i, id) {
      StampIs(t, i, id);
      InstantWord(i);
    }
  }

  // Nothing else has a word of its own: no literal with a language or a direction, and none of another type.
  lemma NoOtherWord(text: FloatText, l: Literal)
    requires l.marked || l.kind.OtherKind?
    ensures Encode(text, l).None?
  {
  }

  // And no other word is read as a literal.
  lemma WordsRead(text: FloatText, id: nat)
    requires Decode(text, id).Some?
    ensures 0x4000_0000_0000_0000 <= id < 0x8000_0000_0000_0000
    ensures id < 0x5000_0000_0000_0000 ==> Decode(text, id).value.kind == IntegerKind
    ensures 0x5000_0000_0000_0000 <= id < 0x6000_0000_0000_0000 ==> Decode(text, id).value.kind == FloatKind
    ensures 0x6000_0000_0000_0000 <= id < 0x7000_0000_0000_0000 ==> Decode(text, id).value.kind == DateTimeKind
    ensures 0x7000_0000_0000_0000 <= id ==> Decode(text, id).value.kind in {BooleanKind, StringKind}
  {
  }
}
