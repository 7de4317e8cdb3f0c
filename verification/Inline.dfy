/**
 Literals encoded in their ids (crates/holos-core/src/inline.rs, crates/holos-core/src/term_id.rs). A
 literal is inlined only when its lexical form is the canonical one, so an id gives back the very literal
 it was made from, and within a kind ids sort as the values do. Text is its UTF-8 bytes. Fields of a word
 that share no bit are added where the engine ors them together.
 */
module Inline {
  import opened Options
  import opened Calendar

  // --- Ids ---------------------------------------------------------------------------------------------------

  type byte = x: int | 0 <= x < 256
  type Text = seq<byte>

  const PAYLOADS := 0x1000_0000_0000_0000
  const BIAS := 0x800_0000_0000_0000

  const INTEGER_TAG := 4
  const FLOAT_TAG := 5
  const DATE_TIME_TAG := 6
  const SMALL_TAG := 7

  function NewId(tag: int, payload: int): int {
    tag * PAYLOADS + payload
  }

  function TagOf(id: int): int {
    id / PAYLOADS
  }

  function PayloadOf(id: int): int {
    id % PAYLOADS
  }

  lemma IdParts(tag: int, payload: int)
    requires 0 <= payload < PAYLOADS
    ensures TagOf(NewId(tag, payload)) == tag && PayloadOf(NewId(tag, payload)) == payload
  {
  }

  // Ids with one tag sort as their payloads.
  lemma IdOrder(tag: int, a: int, b: int)
    ensures NewId(tag, a) < NewId(tag, b) <==> a < b
  {
  }

  // --- Literals ----------------------------------------------------------------------------------------------

  datatype Kind = StringKind | IntegerKind | BooleanKind | FloatKind | DateTimeKind | OtherKind(iri: string)

  // `marked` when the literal has a language tag or a base direction.
  datatype Literal = Literal(value: Text, kind: Kind, marked: bool)

  predicate Continues(b: int, low: int, high: int) {
    low <= b <= high
  }

  predicate IsUtf8(t: Text) {
    if t == [] then true
    else if t[0] < 0x80 then IsUtf8(t[1..])
    else if 0xC2 <= t[0] <= 0xDF then |t| >= 2 && Continues(t[1], 0x80, 0xBF) && IsUtf8(t[2..])
    else if 0xE0 <= t[0] <= 0xEF then
      && |t| >= 3 && Continues(t[1], if t[0] == 0xE0 then 0xA0 else 0x80, if t[0] == 0xED then 0x9F else 0xBF)
      && Continues(t[2], 0x80, 0xBF) && IsUtf8(t[3..])
    else
      && 0xF0 <= t[0] <= 0xF4
      && |t| >= 4 && Continues(t[1], if t[0] == 0xF0 then 0x90 else 0x80, if t[0] == 0xF4 then 0x8F else 0xBF)
      && Continues(t[2], 0x80, 0xBF) && Continues(t[3], 0x80, 0xBF) && IsUtf8(t[4..])
  }

  // --- Decimal numerals --------------------------------------------------------------------------------------

  const ZERO: byte := 48
  const MINUS: byte := 45
  const PLUS: byte := 43

  predicate IsDigit(b: byte) {
    48 <= b <= 57
  }

  function Digits(n: nat): (t: Text)
    ensures t != [] && forall i :: 0 <= i < |t| ==> IsDigit(t[i])
  {
    if n < 10 then [ZERO + n] else Digits(n / 10) + [ZERO + n % 10]
  }

  function ParseDigits(t: Text): (n: nat)
    requires forall i :: 0 <= i < |t| ==> IsDigit(t[i])
  {
    if t == [] then 0
    else
      assert IsDigit(t[|t| - 1]);
      var last: int := t[|t| - 1];
      10 * ParseDigits(t[..|t| - 1]) + (last - 48)
  }

  lemma {:induction false} DigitsParse(n: nat)
    ensures ParseDigits(Digits(n)) == n
  {
    if n >= 10 {
      DigitsParse(n / 10);
      assert Digits(n)[..|Digits(n)| - 1] == Digits(n / 10);
    }
  }

  function ShowInteger(v: int): Text {
    if v < 0 then [MINUS] + Digits(-v) else Digits(v)
  }

  const I64_MIN := -0x8000_0000_0000_0000
  const I64_MAX := 0x7FFF_FFFF_FFFF_FFFF

  // `str::parse::<i64>`: an optional sign, then digits, within range.
  function ParseInteger(t: Text): Option<int> {
    var signed := t != [] && (t[0] == MINUS || t[0] == PLUS);
    var digits := if signed then t[1..] else t;
    if digits == [] || exists i :: 0 <= i < |digits| && !IsDigit(digits[i]) then None
    else
      var n: int := ParseDigits(digits);
      var v := if signed && t[0] == MINUS then -n else n;
      if I64_MIN <= v <= I64_MAX then Some(v) else None
  }

  lemma ShowParses(v: int)
    requires I64_MIN <= v <= I64_MAX
    ensures ParseInteger(ShowInteger(v)) == Some(v)
  {
    var t := ShowInteger(v);
    if v < 0 {
      DigitsParse(-v);
      assert t[1..] == Digits(-v);
    } else {
      DigitsParse(v);
      assert IsDigit(t[0]);
    }
  }

  // --- xsd:integer -------------------------------------------------------------------------------------------

  function EncodeInteger(value: Text): Option<int> {
    var parsed := ParseInteger(value);
    if parsed.None? then None
    else if ShowInteger(parsed.value) != value then None
    else if !(-BIAS <= parsed.value <= BIAS - 1) then None
    else Some(NewId(INTEGER_TAG, parsed.value + BIAS))
  }

  function DecodeInteger(payload: int): Literal {
    Literal(ShowInteger(payload - BIAS), IntegerKind, false)
  }

  // Inlined exactly when it is the canonical form of a number in range.
  lemma EncodesInteger(value: Text, v: int)
    requires -BIAS <= v < BIAS
    ensures value == ShowInteger(v) ==> EncodeInteger(value) == Some(NewId(INTEGER_TAG, v + BIAS))
    ensures EncodeInteger(value) == Some(NewId(INTEGER_TAG, v + BIAS)) ==> value == ShowInteger(v)
  {
    ShowParses(v);
    if EncodeInteger(value) == Some(NewId(INTEGER_TAG, v + BIAS)) {
      assert ParseInteger(value).value == v;
    }
  }

  // --- xsd:float ---------------------------------------------------------------------------------------------

  // What the library decides about floats: the bits a lexical form stands for, NaN aside, and the
  // canonical form of those bits.
  datatype FloatText = FloatText(parse: Text -> Option<int>, show: int -> Text)
  {
    ghost predicate Valid() {
      forall t {:trigger parse(t)} :: parse(t).Some? ==> IsNumber(parse(t).value)
    }
  }

  const SIGN_BIT := 0x8000_0000
  const INFINITY := 0x7F80_0000

  // The bits of a float other than NaN.
  predicate IsNumber(bits: int) {
    0 <= bits <= INFINITY || SIGN_BIT <= bits <= SIGN_BIT + INFINITY
  }

  function OrderPreserving(bits: int): int {
    if bits < SIGN_BIT then bits + SIGN_BIT else 2 * SIGN_BIT - 1 - bits
  }

  function FromOrderPreserving(ord: int): int {
    if ord < SIGN_BIT then 2 * SIGN_BIT - 1 - ord else ord - SIGN_BIT
  }

  function EncodeFloat(text: FloatText, value: Text): Option<int> {
    var parsed := text.parse(value);
    if parsed.None? then None
    else if text.show(parsed.value) != value then None
    else Some(NewId(FLOAT_TAG, OrderPreserving(parsed.value)))
  }

  function DecodeFloat(text: FloatText, payload: int): Literal {
    Literal(text.show(FromOrderPreserving(payload % (2 * SIGN_BIT))), FloatKind, false)
  }

  lemma FloatBitsBack(bits: int)
    requires 0 <= bits < 2 * SIGN_BIT
    ensures 0 <= OrderPreserving(bits) < 2 * SIGN_BIT && FromOrderPreserving(OrderPreserving(bits)) == bits
  {
  }

  function Power2(n: nat): (p: nat)
    ensures p > 0
  {
    if n == 0 then 1 else 2 * Power2(n - 1)
  }

  const FRACTIONS := 0x80_0000

  // The magnitude of a float in units of the smallest subnormal, 2 to the -149: exponent and fraction read
  // as IEEE 754 reads them, infinity above everything finite.
  function Magnitude(bits: int): nat
    requires 0 <= bits <= INFINITY
  {
    var exponent, fraction := bits / FRACTIONS, bits % FRACTIONS;
    if exponent == 0 then fraction else (FRACTIONS + fraction) * Power2(exponent - 1)
  }

  function FloatValue(bits: int): int
    requires IsNumber(bits)
  {
    if bits < SIGN_BIT then Magnitude(bits) else 0 - Magnitude(bits - SIGN_BIT)
  }

  lemma {:induction false} PowersGrow(m: nat, n: nat)
    requires m <= n
    ensures Power2(m) <= Power2(n) && (m < n ==> 2 * Power2(m) <= Power2(n))
  {
    if m < n {
      PowersGrow(m, n - 1);
    }
  }

  lemma Scaled(a: nat, b: nat, p: nat, q: nat)
    requires a < 2 * FRACTIONS && FRACTIONS <= b && 2 * p <= q && p > 0
    ensures a * p < b * q
  {
    assert a * p < 2 * FRACTIONS * p;
    assert FRACTIONS * (2 * p) <= FRACTIONS * q <= b * q;
  }

  lemma ScaledSame(a: nat, b: nat, p: nat)
    requires a < b && p > 0
    ensures a * p < b * p
  {
  }

  // Larger bits, larger magnitude.
  lemma MagnitudeOrder(a: int, b: int)
    requires 0 <= a < b <= INFINITY
    ensures Magnitude(a) < Magnitude(b)
  {
    var ea, fa, eb, fb := a / FRACTIONS, a % FRACTIONS, b / FRACTIONS, b % FRACTIONS;
    if ea == eb {
      if ea > 0 {
        ScaledSame(FRACTIONS + fa, FRACTIONS + fb, Power2(ea - 1));
      }
    } else if ea == 0 {
      assert Magnitude(a) < FRACTIONS;
      assert (FRACTIONS + fb) * Power2(eb - 1) >= FRACTIONS;
    } else {
      PowersGrow(ea - 1, eb - 1);
      Scaled(FRACTIONS + fa, FRACTIONS + fb, Power2(ea - 1), Power2(eb - 1));
    }
  }

  lemma MagnitudesOrder(x: int, y: int)
    requires 0 <= x <= INFINITY && 0 <= y <= INFINITY
    ensures x < y <==> Magnitude(x) < Magnitude(y)
    ensures Magnitude(0) == 0
  {
    if x < y {
      MagnitudeOrder(x, y);
    } else if y < x {
      MagnitudeOrder(y, x);
    }
  }

  // Payloads sort as the numbers do; only the two zeros, equal as numbers, are kept apart.
  lemma FloatOrder(a: int, b: int)
    requires IsNumber(a) && IsNumber(b)
    ensures OrderPreserving(a) < OrderPreserving(b) <==> FloatValue(a) < FloatValue(b) || (a == SIGN_BIT && b == 0)
  {
    var x, y := if a < SIGN_BIT then a else a - SIGN_BIT, if b < SIGN_BIT then b else b - SIGN_BIT;
    MagnitudesOrder(x, y);
    MagnitudesOrder(y, x);
    MagnitudesOrder(0, x);
    MagnitudesOrder(0, y);
    SignedOrder(a, b, Magnitude(x), Magnitude(y));
  }

  lemma SignedOrder(a: int, b: int, m: nat, n: nat)
    requires IsNumber(a) && IsNumber(b)
    requires var x, y := if a < SIGN_BIT then a else a - SIGN_BIT, if b < SIGN_BIT then b else b - SIGN_BIT;
             (x < y <==> m < n) && (y < x <==> n < m) && (0 < x <==> 0 < m) && (0 < y <==> 0 < n)
    ensures var v, w: int := if a < SIGN_BIT then m else 0 - m, if b < SIGN_BIT then n else 0 - n;
            OrderPreserving(a) < OrderPreserving(b) <==> v < w || (a == SIGN_BIT && b == 0)
  {
  }

  // --- xsd:boolean and short xsd:string ----------------------------------------------------------------------

  const TRUE_TEXT: Text := [116, 114, 117, 101]
  const FALSE_TEXT: Text := [102, 97, 108, 115, 101]

  const BOOLEAN_NIBBLE := 0
  const STRING_NIBBLE := 1
  const MAX_INLINE_STR := 6

  function EncodeBoolean(value: Text): Option<int> {
    if value == TRUE_TEXT then Some(NewId(SMALL_TAG, 16 + BOOLEAN_NIBBLE))
    else if value == FALSE_TEXT then Some(NewId(SMALL_TAG, BOOLEAN_NIBBLE))
    else None
  }

  function Power256(n: nat): (p: nat)
    ensures p > 0
  {
    if n == 0 then 1 else 256 * Power256(n - 1)
  }

  // The bytes from the high end of `slots` bytes down, zeros below them.
  function Packed(t: Text, slots: nat): (p: nat)
    requires |t| <= slots
    ensures p < Power256(slots)
  {
    if t == [] then 0
    else
      PackedByte(t[0], Power256(slots - 1));
      t[0] * Power256(slots - 1) + Packed(t[1..], slots - 1)
  }

  lemma PackedByte(b: byte, p: nat)
    ensures b * p + p <= 256 * p
  {
    assert b * p + p == (b + 1) * p;
  }

  function StringPayload(t: Text): int
    requires |t| <= MAX_INLINE_STR
  {
    Packed(t, MAX_INLINE_STR) * 4096 + |t| * 16 + STRING_NIBBLE
  }

  function EncodeString(value: Text): Option<int> {
    if |value| > MAX_INLINE_STR then None else Some(NewId(SMALL_TAG, StringPayload(value)))
  }

  lemma {:induction false} PackedSnoc(t: Text, b: byte, slots: nat)
    requires |t| < slots
    ensures Packed(t + [b], slots) == Packed(t, slots) + b * Power256(slots - 1 - |t|)
  {
    if t == [] {
      assert [b][1..] == [];
    } else {
      assert (t + [b])[1..] == t[1..] + [b];
      PackedSnoc(t[1..], b, slots - 1);
    }
  }

  // The loop that packs the bytes, one shifted into place at a time.
  method PackString(value: Text) returns (id: Option<int>)
    ensures id == EncodeString(value)
  {
    if |value| > MAX_INLINE_STR {
      return None;
    }
    var packed := 0;
    for i := 0 to |value|
      invariant packed == Packed(value[..i], MAX_INLINE_STR)
    {
      PackedSnoc(value[..i], value[i], MAX_INLINE_STR);
      assert value[..i + 1] == value[..i] + [value[i]];
      packed := packed + value[i] * Power256(MAX_INLINE_STR - 1 - i);
    }
    assert value[..|value|] == value;
    id := Some(NewId(SMALL_TAG, packed * 4096 + |value| * 16 + STRING_NIBBLE));
  }

  function Unpacked(packed: nat, slots: nat, n: nat): (t: Text)
    requires n <= slots
    ensures |t| == n
  {
    if n == 0 then []
    else [packed / Power256(slots - 1) % 256] + Unpacked(packed % Power256(slots - 1), slots - 1, n - 1)
  }

  lemma DivisionBy(p: nat, q: nat, r: nat)
    requires r < p
    ensures (q * p + r) / p == q && (q * p + r) % p == r
  {
    var x := q * p + r;
    QuotientIs(p, q, r, x / p, x % p);
  }

  lemma QuotientIs(p: nat, q: int, r: nat, q': int, r': nat)
    requires r < p && r' < p && q * p + r == q' * p + r'
    ensures q == q' && r == r'
  {
    assert (q - q') * p == r' - r;
    if q > q' {
      AtLeast(q - q', p);
    } else if q < q' {
      AtLeast(q' - q, p);
    }
  }

  lemma AtLeast(k: int, p: nat)
    requires k >= 1
    ensures k * p >= p
  {
  }

  lemma {:induction false} UnpackedBack(t: Text, slots: nat)
    requires |t| <= slots
    ensures Unpacked(Packed(t, slots), slots, |t|) == t
  {
    if t != [] {
      DivisionBy(Power256(slots - 1), t[0], Packed(t[1..], slots - 1));
      UnpackedBack(t[1..], slots - 1);
      assert t == [t[0]] + t[1..];
    }
  }

  lemma Regrouped(q: int, m: int, p: int, a: int, s: int)
    ensures q * (256 * m * p) + (a * p + s) == (256 * (q * m) + a) * p + s
    ensures 256 * (256 * m * p) == 256 * (256 * m) * p
  {
  }

  lemma {:induction false} PowersDivide(j: nat, k: nat)
    requires j < k
    ensures Power256(k) == 256 * Power256(k - 1 - j) * Power256(j)
  {
    if j + 1 < k {
      PowersDivide(j, k - 1);
      Regrouped(0, Power256(k - 2 - j), Power256(j), 0, 0);
    }
  }

  // Dropping the bytes above the one wanted does not change it.
  lemma LowPart(x: int, q: int, m: int, p: nat, a: int, s: nat, whole: int)
    requires x == q * whole + (a * p + s) && whole == 256 * m * p && s < p && 256 * (q * m) + a >= 0
    ensures x == (256 * (q * m) + a) * p + s
  {
    Regrouped(q, m, p, a, s);
  }

  lemma ByteOf(x: nat, m: nat, p: nat, whole: nat)
    requires p > 0 && whole > 0 && whole == 256 * m * p
    ensures x % whole / p % 256 == x / p % 256
  {
    var q, r := Divided(x, whole);
    var a, s := Divided(r, p);
    var n := q * m;
    LowPart(x, q, m, p, a, s, whole);
    DivisionBy(p, 256 * n + a, s);
    MultipleOf256(n, a);
  }

  lemma Divided(x: nat, n: nat) returns (q: nat, r: nat)
    requires n > 0
    ensures q == x / n && r == x % n && x == q * n + r && r < n
  {
    q, r := x / n, x % n;
  }

  lemma ByteBelow(x: nat, j: nat, k: nat)
    requires j < k
    ensures x % Power256(k) / Power256(j) % 256 == x / Power256(j) % 256
  {
    PowersDivide(j, k);
    ByteOf(x, Power256(k - 1 - j), Power256(j), Power256(k));
  }

  lemma MultipleOf256(a: nat, b: nat)
    ensures (256 * a + b) % 256 == b % 256
  {
  }

  lemma UnpackedTail(packed: nat, slots: nat, n: nat, i: nat)
    requires 0 < i < n <= slots
    ensures Unpacked(packed, slots, n)[i] == Unpacked(packed % Power256(slots - 1), slots - 1, n - 1)[i - 1]
  {
  }

  lemma UnpackedHead(packed: nat, slots: nat, n: nat)
    requires 0 < n <= slots
    ensures Unpacked(packed, slots, n)[0] == packed / Power256(slots - 1) % 256
  {
  }

  lemma {:induction false} UnpackedAt(packed: nat, slots: nat, n: nat, i: nat, j: nat)
    requires i < n <= slots && j == slots - 1 - i
    ensures Unpacked(packed, slots, n)[i] == packed / Power256(j) % 256
    decreases i
  {
    if i == 0 {
      UnpackedHead(packed, slots, n);
    } else {
      var low := packed % Power256(slots - 1);
      UnpackedTail(packed, slots, n, i);
      UnpackedAt(low, slots - 1, n - 1, i - 1, j);
      ByteBelow(packed, j, slots - 1);
    }
  }

  // The loop that takes the bytes back out, each by its own shift and mask.
  method UnpackString(packed: nat, n: nat) returns (bytes: Text)
    requires n <= MAX_INLINE_STR
    ensures bytes == Unpacked(packed, MAX_INLINE_STR, n)
  {
    bytes := [];
    for i := 0 to n
      invariant bytes == Unpacked(packed, MAX_INLINE_STR, n)[..i]
    {
      UnpackedAt(packed, MAX_INLINE_STR, n, i, MAX_INLINE_STR - 1 - i);
      bytes := bytes + [packed / Power256(MAX_INLINE_STR - 1 - i) % 256];
    }
  }

  function DecodeSmall(payload: int): Option<Literal>
    requires payload >= 0
  {
    if payload % 16 == BOOLEAN_NIBBLE then
      Some(Literal(if payload / 16 % 2 == 0 then FALSE_TEXT else TRUE_TEXT, BooleanKind, false))
    else if payload % 16 == STRING_NIBBLE then
      var n := payload / 16 % 256;
      if n > MAX_INLINE_STR then None
      else
        var t := Unpacked(payload / 4096, MAX_INLINE_STR, n);
        if IsUtf8(t) then Some(Literal(t, StringKind, false)) else None
    else None
  }

  lemma PayloadFields(packed: nat, n: nat)
    requires n <= MAX_INLINE_STR
    ensures var payload := packed * 4096 + n * 16 + STRING_NIBBLE;
            payload % 16 == STRING_NIBBLE && payload / 16 % 256 == n && payload / 4096 == packed
  {
    var payload := packed * 4096 + n * 16 + STRING_NIBBLE;
    assert payload == 16 * (packed * 256 + n) + 1;
    assert payload / 16 == packed * 256 + n;
  }

  lemma PackedFits(t: Text)
    requires |t| <= MAX_INLINE_STR
    ensures 0 <= StringPayload(t) < PAYLOADS
  {
    assert Power256(6) == 0x1_0000_0000_0000;
  }

  // Bytewise, a prefix before what it begins.
  predicate Before(a: Text, b: Text) {
    b != [] && (a == [] || a[0] < b[0] || (a[0] == b[0] && Before(a[1..], b[1..])))
  }

  lemma HigherByte(a: byte, b: byte, p: nat)
    requires a < b
    ensures a * p + p <= b * p
  {
    AtLeast(b - a, p);
    assert b * p - a * p == (b - a) * p;
  }

  lemma {:induction false} PackedOrder(a: Text, b: Text, slots: nat)
    requires |a| <= slots && |b| <= slots && Before(a, b)
    ensures Packed(a, slots) < Packed(b, slots) || (Packed(a, slots) == Packed(b, slots) && |a| < |b|)
  {
    if a != [] {
      if a[0] < b[0] {
        HigherByte(a[0], b[0], Power256(slots - 1));
      } else {
        PackedOrder(a[1..], b[1..], slots - 1);
      }
    }
  }

  lemma {:induction false} BeforeOrAfter(a: Text, b: Text)
    ensures a == b || Before(a, b) || Before(b, a)
  {
    if a != [] && b != [] && a[0] == b[0] {
      BeforeOrAfter(a[1..], b[1..]);
      if a[1..] == b[1..] {
        assert a == [a[0]] + a[1..] && b == [b[0]] + b[1..];
      }
    }
  }

  // Short strings sort bytewise, whatever bytes they hold: the zero byte sorts above the end of the string.
  lemma StringOrder(a: Text, b: Text)
    requires |a| <= MAX_INLINE_STR && |b| <= MAX_INLINE_STR
    ensures StringPayload(a) < StringPayload(b) <==> Before(a, b)
  {
    BeforeOrAfter(a, b);
    if Before(a, b) {
      PackedOrder(a, b, MAX_INLINE_STR);
    }
    if Before(b, a) {
      PackedOrder(b, a, MAX_INLINE_STR);
    }
  }

  // --- xsd:dateTime ------------------------------------------------------------------------------------------

  const HYPHEN: byte := 45
  const COLON: byte := 58
  const LETTER_T: byte := 84
  const LETTER_Z: byte := 90

  datatype Instant = Instant(date: Date, hour: int, minute: int, second: int)

  // The instants that inline: UTC, whole seconds, a year of four digits.
  predicate IsInstant(t: Instant) {
    IsDate(t.date) && 1 <= t.date.y <= 9999 && 0 <= t.hour < 24 && 0 <= t.minute < 60 && 0 <= t.second < 60
  }

  function Two(n: int): (t: Text)
    requires 0 <= n < 100
    ensures |t| == 2
  {
    [ZERO + n / 10, ZERO + n % 10]
  }

  function ShowInstant(t: Instant): (r: Text)
    requires IsInstant(t)
    ensures |r| == 20
  {
    Two(t.date.y / 100) + Two(t.date.y % 100) + [HYPHEN] + Two(t.date.m) + [HYPHEN] + Two(t.date.d) + [LETTER_T]
    + Two(t.hour) + [COLON] + Two(t.minute) + [COLON] + Two(t.second) + [LETTER_Z]
  }

  function TwoAt(t: Text, i: nat): int
    requires i + 2 <= |t|
  {
    var a: int, b: int := t[i], t[i + 1];
    (a - 48) * 10 + (b - 48)
  }

  // The instant a canonical form spells; `None` for every other text.
  function ParseInstant(value: Text): Option<Instant> {
    if |value| != 20 then None
    else
      var t := Instant(Date(TwoAt(value, 0) * 100 + TwoAt(value, 2), TwoAt(value, 5), TwoAt(value, 8)),
                       TwoAt(value, 11), TwoAt(value, 14), TwoAt(value, 17));
      if IsInstant(t) && ShowInstant(t) == value then Some(t) else None
  }

  lemma TwoBack(n: int, t: Text, i: nat)
    requires 0 <= n < 100 && i + 2 <= |t| && t[i] == Two(n)[0] && t[i + 1] == Two(n)[1]
    ensures TwoAt(t, i) == n
  {
  }

  lemma InstantParses(t: Instant)
    requires IsInstant(t)
    ensures ParseInstant(ShowInstant(t)) == Some(t)
  {
    var r := ShowInstant(t);
    TwoBack(t.date.y / 100, r, 0);
    TwoBack(t.date.y % 100, r, 2);
    TwoBack(t.date.m, r, 5);
    TwoBack(t.date.d, r, 8);
    TwoBack(t.hour, r, 11);
    TwoBack(t.minute, r, 14);
    TwoBack(t.second, r, 17);
  }

  function SecondsOf(t: Instant): int {
    DaysFromCivil(t.date) * 86_400 + t.hour * 3_600 + t.minute * 60 + t.second
  }

  function EncodeDateTime(value: Text): Option<int> {
    var t := ParseInstant(value);
    if t.None? then None else Some(NewId(DATE_TIME_TAG, SecondsOf(t.value) + BIAS))
  }

  // `format_utc_seconds`: `None` outside the years that print in four digits.
  function InstantAt(seconds: int): Option<Instant> {
    var days, rest := seconds / 86_400, seconds % 86_400;
    var date := CivilFromDays(days);
    if 1 <= date.y <= 9999 then Some(Instant(date, rest / 3_600, rest % 3_600 / 60, rest % 60)) else None
  }

  lemma InstantAtIs(seconds: int)
    ensures InstantAt(seconds).Some? ==> IsInstant(InstantAt(seconds).value) && SecondsOf(InstantAt(seconds).value) == seconds
  {
    DayRoundTrip(seconds / 86_400);
    TimeOfDay(seconds % 86_400);
  }

  lemma TimeOfDay(rest: int)
    requires 0 <= rest < 86_400
    ensures 0 <= rest / 3_600 < 24 && 0 <= rest % 3_600 / 60 < 60 && 0 <= rest % 60 < 60
    ensures rest / 3_600 * 3_600 + rest % 3_600 / 60 * 60 + rest % 60 == rest
  {
  }

  function FormatSeconds(seconds: int): Option<Text> {
    InstantAtIs(seconds);
    var t := InstantAt(seconds);
    if t.None? then None else Some(ShowInstant(t.value))
  }

  function DecodeDateTime(payload: int): Option<Literal> {
    var t := FormatSeconds(payload - BIAS);
    if t.None? then None else Some(Literal(t.value, DateTimeKind, false))
  }

  lemma SecondsWithin(t: Instant)
    requires IsInstant(t)
    ensures 0 <= t.hour * 3_600 + t.minute * 60 + t.second < 86_400
    ensures SecondsOf(t) / 86_400 == DaysFromCivil(t.date)
    ensures SecondsOf(t) % 86_400 == t.hour * 3_600 + t.minute * 60 + t.second
  {
  }

  // Seconds since the epoch print as the instant they were counted to.
  lemma SecondsBack(t: Instant)
    requires IsInstant(t)
    ensures InstantAt(SecondsOf(t)) == Some(t)
  {
    SecondsWithin(t);
    DateRoundTrip(t.date);
    TimeBack(t.hour, t.minute, t.second);
  }

  lemma TimeBack(hour: int, minute: int, second: int)
    requires 0 <= hour < 24 && 0 <= minute < 60 && 0 <= second < 60
    ensures var rest := hour * 3_600 + minute * 60 + second;
            rest / 3_600 == hour && rest % 3_600 / 60 == minute && rest % 60 == second
  {
    var rest := hour * 3_600 + minute * 60 + second;
    assert rest / 3_600 == hour;
    assert rest % 3_600 == minute * 60 + second;
    assert rest == 60 * (hour * 60 + minute) + second;
  }

  predicate Precedes(a: Instant, b: Instant) {
    || Earlier(a.date, b.date)
    || (a.date == b.date && (a.hour < b.hour || (a.hour == b.hour && (a.minute < b.minute || (a.minute == b.minute && a.second < b.second)))))
  }

  // Payloads sort chronologically.
  lemma SecondsInOrder(a: Instant, b: Instant)
    requires IsInstant(a) && IsInstant(b)
    ensures Precedes(a, b) <==> SecondsOf(a) < SecondsOf(b)
  {
    DaysInOrder(a.date, b.date);
    DaysInOrder(b.date, a.date);
    SecondsWithin(a);
    SecondsWithin(b);
    if DaysFromCivil(a.date) == DaysFromCivil(b.date) {
      SameDay(a.date, b.date);
    }
  }

  // The years kept are far inside the window a payload has.
  lemma SecondsFit(t: Instant)
    requires IsInstant(t)
    ensures 0 <= SecondsOf(t) + BIAS < PAYLOADS
  {
    SecondsWithin(t);
    DaysNear(t.date);
  }

  lemma DaysNear(t: Date)
    requires IsDate(t) && 1 <= t.y <= 9999
    ensures -1_000_000 < DaysFromCivil(t) < 3_000_000
  {
    DaysArePieces(t);
    StartsInOrder(PiecesOf(t).mp);
  }

  // --- The codec ---------------------------------------------------------------------------------------------

  function Encode(text: FloatText, l: Literal): Option<int> {
    if l.marked then None
    else match l.kind
      case StringKind => EncodeString(l.value)
      case IntegerKind => EncodeInteger(l.value)
      case BooleanKind => EncodeBoolean(l.value)
      case FloatKind => EncodeFloat(text, l.value)
      case DateTimeKind => EncodeDateTime(l.value)
      case OtherKind(_) => None
  }

  function Decode(text: FloatText, id: int): Option<Literal>
    requires id >= 0
  {
    var payload := PayloadOf(id);
    if TagOf(id) == INTEGER_TAG then Some(DecodeInteger(payload))
    else if TagOf(id) == FLOAT_TAG then Some(DecodeFloat(text, payload))
    else if TagOf(id) == DATE_TIME_TAG then DecodeDateTime(payload)
    else if TagOf(id) == SMALL_TAG then DecodeSmall(payload)
    else None
  }

  lemma IntegerRoundTrip(text: FloatText, value: Text)
    requires EncodeInteger(value).Some?
    ensures 0 <= EncodeInteger(value).value < 16 * PAYLOADS
    ensures Decode(text, EncodeInteger(value).value) == Some(Literal(value, IntegerKind, false))
  {
    IdParts(INTEGER_TAG, ParseInteger(value).value + BIAS);
  }

  lemma FloatRoundTrip(text: FloatText, value: Text)
    requires text.Valid() && EncodeFloat(text, value).Some?
    ensures 0 <= EncodeFloat(text, value).value < 16 * PAYLOADS
    ensures Decode(text, EncodeFloat(text, value).value) == Some(Literal(value, FloatKind, false))
  {
    var bits := text.parse(value).value;
    FloatBitsBack(bits);
    IdParts(FLOAT_TAG, OrderPreserving(bits));
  }

  lemma DateTimeRoundTrip(text: FloatText, value: Text)
    requires EncodeDateTime(value).Some?
    ensures 0 <= EncodeDateTime(value).value < 16 * PAYLOADS
    ensures Decode(text, EncodeDateTime(value).value) == Some(Literal(value, DateTimeKind, false))
  {
    var t := ParseInstant(value).value;
    SecondsFit(t);
    SecondsBack(t);
    IdParts(DATE_TIME_TAG, SecondsOf(t) + BIAS);
  }

  lemma BooleanRoundTrip(text: FloatText, value: Text)
    requires EncodeBoolean(value).Some?
    ensures 0 <= EncodeBoolean(value).value < 16 * PAYLOADS
    ensures Decode(text, EncodeBoolean(value).value) == Some(Literal(value, BooleanKind, false))
  {
    IdParts(SMALL_TAG, 16);
    IdParts(SMALL_TAG, 0);
  }

  lemma StringRoundTrip(text: FloatText, value: Text)
    requires EncodeString(value).Some? && IsUtf8(value)
    ensures 0 <= EncodeString(value).value < 16 * PAYLOADS
    ensures Decode(text, EncodeString(value).value) == Some(Literal(value, StringKind, false))
  {
    PackedFits(value);
    IdParts(SMALL_TAG, StringPayload(value));
    PayloadFields(Packed(value, MAX_INLINE_STR), |value|);
    UnpackedBack(value, MAX_INLINE_STR);
  }

  // Whatever is inlined comes back as the very literal it was, from an id that fits its word.
  lemma RoundTrip(text: FloatText, l: Literal)
    requires text.Valid() && IsUtf8(l.value) && Encode(text, l).Some?
    ensures 0 <= Encode(text, l).value < 16 * PAYLOADS && Decode(text, Encode(text, l).value) == Some(l)
  {
    match l.kind
    case StringKind => StringRoundTrip(text, l.value);
    case IntegerKind => IntegerRoundTrip(text, l.value);
    case BooleanKind => BooleanRoundTrip(text, l.value);
    case FloatKind => FloatRoundTrip(text, l.value);
    case DateTimeKind => DateTimeRoundTrip(text, l.value);
  }

  // Distinct literals have distinct ids, across kinds as within one: id equality is term equality.
  lemma DistinctIds(text: FloatText, a: Literal, b: Literal)
    requires text.Valid() && IsUtf8(a.value) && IsUtf8(b.value)
    requires Encode(text, a).Some? && Encode(text, a) == Encode(text, b)
    ensures a == b
  {
    RoundTrip(text, a);
    RoundTrip(text, b);
  }

  // Ids of one kind sort as the values: numbers by size, strings bytewise, instants by time.
  lemma IntegerIds(v: int, w: int)
    requires -BIAS <= v < BIAS && -BIAS <= w < BIAS
    ensures EncodeInteger(ShowInteger(v)).Some? && EncodeInteger(ShowInteger(w)).Some?
    ensures EncodeInteger(ShowInteger(v)).value < EncodeInteger(ShowInteger(w)).value <==> v < w
  {
    EncodesInteger(ShowInteger(v), v);
    EncodesInteger(ShowInteger(w), w);
    IdOrder(INTEGER_TAG, v + BIAS, w + BIAS);
  }

  lemma StringIds(a: Text, b: Text)
    requires EncodeString(a).Some? && EncodeString(b).Some?
    ensures EncodeString(a).value < EncodeString(b).value <==> Before(a, b)
  {
    StringOrder(a, b);
    IdOrder(SMALL_TAG, StringPayload(a), StringPayload(b));
  }

  lemma FloatIds(text: FloatText, a: Text, b: Text)
    requires text.Valid() && EncodeFloat(text, a).Some? && EncodeFloat(text, b).Some?
    ensures var x, y := text.parse(a).value, text.parse(b).value;
            EncodeFloat(text, a).value < EncodeFloat(text, b).value <==> FloatValue(x) < FloatValue(y) || (x == SIGN_BIT && y == 0)
  {
    FloatOrder(text.parse(a).value, text.parse(b).value);
    IdOrder(FLOAT_TAG, OrderPreserving(text.parse(a).value), OrderPreserving(text.parse(b).value));
  }

  lemma DateTimeIds(a: Instant, b: Instant)
    requires IsInstant(a) && IsInstant(b)
    ensures EncodeDateTime(ShowInstant(a)).Some? && EncodeDateTime(ShowInstant(b)).Some?
    ensures EncodeDateTime(ShowInstant(a)).value < EncodeDateTime(ShowInstant(b)).value <==> Precedes(a, b)
  {
    InstantParses(a);
    InstantParses(b);
    SecondsInOrder(a, b);
    IdOrder(DATE_TIME_TAG, SecondsOf(a) + BIAS, SecondsOf(b) + BIAS);
  }
}
