/**
 Canonical JSON (crates/holos-conformance/src/json.rs, `canonical` and `write_canonical`): a value written
 so that equal values are equal strings and, the harder half, unequal values are not. A number is the bits
 of the double it denotes; an object is its members sorted by key, duplicates kept in the order written.
 */
module CanonicalJson {
  import Bags

  datatype Json =
    | Null
    | Bool(b: bool)
    | Number(bits: nat)
    | Str(s: string)
    | Array(items: seq<Json>)
    | Object(members: seq<Member>)

  datatype Member = Member(key: string, value: Json)

  const BITS := 0x1_0000_0000_0000_0000

  // Every number in the value is the bits of a double.
  predicate Doubles(v: Json)
    decreases v
  {
    match v
    case Number(bits) => bits < BITS
    case Array(items) => DoublesEach(items)
    case Object(members) => DoublesMembers(members)
    case _ => true
  }

  predicate DoublesEach(items: seq<Json>)
    decreases items
  {
    items == [] || (Doubles(items[0]) && DoublesEach(items[1..]))
  }

  predicate DoublesMembers(members: seq<Member>)
    decreases members
  {
    members == [] || (Doubles(members[0].value) && DoublesMembers(members[1..]))
  }

  // --- The normal form ---------------------------------------------------------------------------------------

  // The order of keys: character by character, a prefix first.
  predicate KeyLess(a: string, b: string) {
    b != [] && (a == [] || a[0] < b[0] || (a[0] == b[0] && KeyLess(a[1..], b[1..])))
  }

  function PutAfter(ms: seq<Member>, m: Member): (r: seq<Member>)
    ensures multiset(r) == multiset(ms) + multiset{m}
  {
    if ms == [] || !KeyLess(m.key, ms[|ms| - 1].key) then ms + [m]
    else
      assert ms == ms[..|ms| - 1] + [ms[|ms| - 1]];
      PutAfter(ms[..|ms| - 1], m) + [ms[|ms| - 1]]
  }

  // The stable sort by key.
  function ByKey(ms: seq<Member>): (r: seq<Member>)
    ensures multiset(r) == multiset(ms)
  {
    if ms == [] then []
    else
      assert ms == ms[..|ms| - 1] + [ms[|ms| - 1]];
      PutAfter(ByKey(ms[..|ms| - 1]), ms[|ms| - 1])
  }

  function Normal(v: Json): Json
    decreases v
  {
    match v
    case Array(items) => Array(NormalEach(items))
    case Object(members) => Object(ByKey(NormalMembers(members)))
    case _ => v
  }

  function NormalEach(items: seq<Json>): (r: seq<Json>)
    ensures |r| == |items|
    decreases items
  {
    if items == [] then [] else [Normal(items[0])] + NormalEach(items[1..])
  }

  function NormalMembers(ms: seq<Member>): (r: seq<Member>)
    ensures |r| == |ms|
    decreases ms
  {
    if ms == [] then [] else [Member(ms[0].key, Normal(ms[0].value))] + NormalMembers(ms[1..])
  }

  // --- What the sort does --------------------------------------------------------------------------------------

  ghost predicate Sorted(ms: seq<Member>) {
    forall i, j :: 0 <= i < j < |ms| ==> !KeyLess(ms[j].key, ms[i].key)
  }

  lemma {:induction false} KeysCompare(a: string, b: string, c: string)
    ensures KeyLess(a, b) && KeyLess(b, c) ==> KeyLess(a, c)
    ensures !KeyLess(b, a) && !KeyLess(c, b) ==> !KeyLess(c, a)
    ensures !(KeyLess(a, b) && KeyLess(b, a))
  {
    if a != [] && b != [] && c != [] {
      KeysCompare(a[1..], b[1..], c[1..]);
    } else if a != [] && b != [] {
      KeysCompare(a[1..], b[1..], []);
    }
  }

  lemma {:induction false} PutAfterSorted(ms: seq<Member>, m: Member)
    requires Sorted(ms)
    ensures Sorted(PutAfter(ms, m))
  {
    if ms == [] || !KeyLess(m.key, ms[|ms| - 1].key) {
      forall i | 0 <= i < |ms|
        ensures !KeyLess(m.key, ms[i].key)
      {
        KeysCompare(ms[i].key, ms[|ms| - 1].key, m.key);
      }
    } else {
      var init, last := ms[..|ms| - 1], ms[|ms| - 1];
      assert ms == init + [last];
      PutAfterSorted(init, m);
      var r := PutAfter(init, m);
      forall i | 0 <= i < |r|
        ensures !KeyLess(last.key, r[i].key)
      {
        KeysCompare(m.key, last.key, m.key);
        assert r[i] in multiset(r);
        assert r[i] == m || r[i] in init;
      }
    }
  }

  lemma {:induction false} ByKeySorted(ms: seq<Member>)
    ensures Sorted(ByKey(ms))
  {
    if ms != [] {
      ByKeySorted(ms[..|ms| - 1]);
      PutAfterSorted(ByKey(ms[..|ms| - 1]), ms[|ms| - 1]);
    }
  }

  // The members with one key, in order.
  function Under(ms: seq<Member>, key: string): seq<Member> {
    if ms == [] then [] else Under(ms[..|ms| - 1], key) + if ms[|ms| - 1].key == key then [ms[|ms| - 1]] else []
  }

  lemma UnderSnoc(ms: seq<Member>, m: Member, key: string)
    ensures Under(ms + [m], key) == Under(ms, key) + If(key, m)
  {
    assert (ms + [m])[..|ms + [m]| - 1] == ms;
  }

  lemma {:induction false} NotLessSelf(a: string)
    ensures !KeyLess(a, a)
  {
    if a != [] {
      NotLessSelf(a[1..]);
    }
  }

  function If(key: string, m: Member): seq<Member> {
    if m.key == key then [m] else []
  }

  lemma Swap(u: seq<Member>, a: seq<Member>, b: seq<Member>)
    requires a == [] || b == []
    ensures (u + a) + b == (u + b) + a
  {
  }

  lemma {:induction false} PutAfterStable(ms: seq<Member>, m: Member, key: string)
    ensures Under(PutAfter(ms, m), key) == Under(ms, key) + If(key, m)
  {
    UnderSnoc(ms, m, key);
    if ms != [] && KeyLess(m.key, ms[|ms| - 1].key) {
      var init, last := ms[..|ms| - 1], ms[|ms| - 1];
      assert ms == init + [last];
      NotLessSelf(key);
      PutAfterStable(init, m, key);
      UnderSnoc(init, last, key);
      UnderSnoc(PutAfter(init, m), last, key);
      Swap(Under(init, key), If(key, m), If(key, last));
    }
  }

  // Members that share a key keep the order they were written in.
  lemma {:induction false} ByKeyStable(ms: seq<Member>, key: string)
    ensures Under(ByKey(ms), key) == Under(ms, key)
  {
    if ms != [] {
      ByKeyStable(ms[..|ms| - 1], key);
      PutAfterStable(ByKey(ms[..|ms| - 1]), ms[|ms| - 1], key);
    }
  }

  // --- The text ------------------------------------------------------------------------------------------------

  const HEX := "0123456789abcdef"

  // Lower-case hexadecimal, `width` digits.
  function Hex(n: nat, width: nat): (t: string)
    ensures |t| == width && forall i :: 0 <= i < width ==> IsHex(t[i])
  {
    if width == 0 then [] else Hex(n / 16, width - 1) + [HEX[n % 16]]
  }

  predicate IsHex(c: char) {
    c in HEX
  }

  // Lower-case hexadecimal without leading zeros, as a character escape writes it.
  function ShortHex(n: nat): (t: string)
    ensures t != [] && forall i :: 0 <= i < |t| ==> IsHex(t[i])
  {
    if n < 16 then [HEX[n]] else ShortHex(n / 16) + [HEX[n % 16]]
  }

  // A character in a quoted string: itself, or a backslash and what stands for it. Which characters print as
  // themselves is the library's Unicode table.
  function Escape(printable: char -> bool, c: char): string {
    if Escapes(printable, c) then ['\\'] + EscapeTail(c) else [c]
  }

  predicate Escapes(printable: char -> bool, c: char) {
    c == '"' || c == '\\' || c == '\t' || c == '\r' || c == '\n' || c == '\0' || !printable(c)
  }

  function EscapeTail(c: char): string {
    if c == '"' then ['"']
    else if c == '\\' then ['\\']
    else if c == '\t' then ['t']
    else if c == '\r' then ['r']
    else if c == '\n' then ['n']
    else if c == '\0' then ['0']
    else ['u', '{'] + (ShortHex(c as int) + ['}'])
  }

  function Escaped(printable: char -> bool, s: string): string {
    if s == [] then [] else Escape(printable, s[0]) + Escaped(printable, s[1..])
  }

  function Quoted(printable: char -> bool, s: string): string {
    ['"'] + Escaped(printable, s) + ['"']
  }

  function Text(printable: char -> bool, v: Json): string
    decreases v
  {
    match v
    case Null => "null"
    case Bool(b) => if b then "true" else "false"
    case Number(bits) => "n" + Hex(bits, 16)
    case Str(s) => Quoted(printable, s)
    case Array(items) => ['['] + Items(printable, items, true) + [']']
    case Object(members) => ['{'] + Members(printable, members, true) + ['}']
  }

  function Comma(first: bool): string {
    if first then [] else [',']
  }

  function Items(printable: char -> bool, items: seq<Json>, first: bool): string
    decreases items
  {
    if items == [] then [] else (Comma(first) + Text(printable, items[0])) + Items(printable, items[1..], false)
  }

  function Members(printable: char -> bool, ms: seq<Member>, first: bool): string
    decreases ms
  {
    if ms == [] then []
    else
      (Comma(first) + (Quoted(printable, ms[0].key) + [':'] + Text(printable, ms[0].value)))
      + Members(printable, ms[1..], false)
  }

  function Canonical(printable: char -> bool, v: Json): string {
    Text(printable, Normal(v))
  }

  // --- The writer ------------------------------------------------------------------------------------------------

  lemma ByKeySnoc(ms: seq<Member>, m: Member)
    ensures ByKey(ms + [m]) == PutAfter(ByKey(ms), m)
  {
    assert (ms + [m])[..|ms + [m]| - 1] == ms;
  }

  // Normalising the values and sorting by the keys do not get in each other's way.
  lemma {:induction false} NormalCommutes(ms: seq<Member>)
    ensures NormalMembers(ByKey(ms)) == ByKey(NormalMembers(ms))
  {
    if ms != [] {
      var init, last := ms[..|ms| - 1], ms[|ms| - 1];
      assert ms == init + [last];
      NormalCommutes(init);
      ByKeySnoc(init, last);
      PutNormal(ByKey(init), last);
      NormalSnoc(init, last);
      ByKeySnoc(NormalMembers(init), Member(last.key, Normal(last.value)));
    }
  }

  lemma {:induction false} NormalSnoc(ms: seq<Member>, m: Member)
    ensures NormalMembers(ms + [m]) == NormalMembers(ms) + [Member(m.key, Normal(m.value))]
  {
    if ms == [] {
      assert [m][1..] == [];
    } else {
      var more := ms + [m];
      assert more[0] == ms[0] && more[1..] == ms[1..] + [m];
      NormalSnoc(ms[1..], m);
    }
  }

  function Normalised(m: Member): Member {
    Member(m.key, Normal(m.value))
  }

  lemma PutSnoc(ms: seq<Member>, last: Member, m: Member)
    ensures PutAfter(ms + [last], m) == if KeyLess(m.key, last.key) then PutAfter(ms, m) + [last] else (ms + [last]) + [m]
  {
    var all := ms + [last];
    assert all[..|all| - 1] == ms && all[|all| - 1] == last;
  }

  lemma {:induction false} PutNormal(ms: seq<Member>, m: Member)
    ensures NormalMembers(PutAfter(ms, m)) == PutAfter(NormalMembers(ms), Normalised(m))
  {
    if ms == [] {
      NormalSnoc([], m);
    } else {
      var init, last := ms[..|ms| - 1], ms[|ms| - 1];
      assert ms == init + [last];
      NormalSnoc(init, last);
      PutSnoc(init, last, m);
      PutSnoc(NormalMembers(init), Normalised(last), Normalised(m));
      if KeyLess(m.key, last.key) {
        PutNormal(init, m);
        NormalSnoc(PutAfter(init, m), last);
      } else {
        NormalSnoc(ms, m);
      }
    }
  }

  lemma SortedWithin(ms: seq<Member>, i: nat)
    requires i < |ByKey(ms)|
    ensures ByKey(ms)[i] in ms
  {
    assert ByKey(ms)[i] in multiset(ByKey(ms));
  }

  lemma {:induction false} ItemsSnoc(printable: char -> bool, items: seq<Json>, v: Json, first: bool)
    ensures Items(printable, items + [v], first)
         == Items(printable, items, first) + (Comma(first && items == []) + Text(printable, v))
  {
    if items == [] {
      assert [v][1..] == [];
      assert items + [v] == [v];
    } else {
      var more := items + [v];
      assert more[0] == items[0] && more[1..] == items[1..] + [v];
      ItemsSnoc(printable, items[1..], v, false);
      Bags.Regroup(Comma(first) + Text(printable, items[0]), Items(printable, items[1..], false), Comma(false) + Text(printable, v));
    }
  }

  function Entry(printable: char -> bool, m: Member): string {
    Quoted(printable, m.key) + [':'] + Text(printable, m.value)
  }

  lemma {:induction false} MembersSnoc(printable: char -> bool, ms: seq<Member>, m: Member, first: bool)
    ensures Members(printable, ms + [m], first)
         == Members(printable, ms, first) + (Comma(first && ms == []) + Entry(printable, m))
  {
    if ms == [] {
      assert [m][1..] == [];
      assert ms + [m] == [m];
    } else {
      var more := ms + [m];
      assert more[0] == ms[0] && more[1..] == ms[1..] + [m];
      MembersSnoc(printable, ms[1..], m, false);
      Bags.Regroup(Comma(first) + Entry(printable, ms[0]), Members(printable, ms[1..], false), Comma(false) + Entry(printable, m));
    }
  }

  lemma {:induction false} NormalAt(items: seq<Json>, i: nat)
    requires i < |items|
    ensures NormalEach(items)[i] == Normal(items[i])
  {
    if i > 0 {
      NormalAt(items[1..], i - 1);
    }
  }

  lemma {:induction false} NormalMemberAt(ms: seq<Member>, i: nat)
    requires i < |ms|
    ensures NormalMembers(ms)[i] == Member(ms[i].key, Normal(ms[i].value))
  {
    if i > 0 {
      NormalMemberAt(ms[1..], i - 1);
    }
  }

  class Writer {
    const printable: char -> bool
    var out: string

    constructor (printable: char -> bool)
      ensures this.printable == printable && out == []
    {
      this.printable, out := printable, [];
    }

    // Appends the canonical text of a value.
    method Write(v: Json)
      modifies this
      ensures out == old(out) + Canonical(printable, v)
      decreases v, 2
    {
      match v {
        case Array(items) => WriteItems(v, items);
        case Object(members) => WriteMembers(v, members);
        case Null => out := out + "null";
        case Bool(b) => out := out + if b then "true" else "false";
        case Number(bits) => out := out + "n" + Hex(bits, 16);
        case Str(s) => out := out + Quoted(printable, s);
      }
    }

    method WriteItem(item: Json, first: bool)
      modifies this
      ensures out == old(out) + (Comma(first) + Text(printable, Normal(item)))
      decreases item, 3
    {
      if !first {
        out := out + [','];
      }
      Write(item);
    }

    method WriteItems(v: Json, items: seq<Json>)
      requires v == Array(items)
      modifies this
      ensures out == old(out) + Canonical(printable, v)
      decreases v, 1
    {
      ghost var before, text := out, Items(printable, NormalEach(items), true);
      out := out + ['['];
      WriteEach(v, items);
      out := out + [']'];
      Bags.Regroup(before, ['['], text);
      Bags.Regroup(before, ['['] + text, [']']);
    }

    method WriteEach(ghost v: Json, items: seq<Json>)
      requires v == Array(items)
      modifies this
      ensures out == old(out) + Items(printable, NormalEach(items), true)
      decreases v, 0
    {
      ghost var before, normal := out, NormalEach(items);
      for i := 0 to |items|
        invariant out == before + Items(printable, normal[..i], true)
      {
        WriteItem(items[i], i == 0);
        NormalAt(items, i);
        ItemsTaken(printable, normal, i);
        Bags.Regroup(before, Items(printable, normal[..i], true), Comma(i == 0) + Text(printable, normal[i]));
      }
      assert normal[..|items|] == normal;
    }

    method WriteMember(m: Member, first: bool)
      modifies this
      ensures out == old(out) + (Comma(first) + Entry(printable, Member(m.key, Normal(m.value))))
      decreases m.value, 3
    {
      ghost var before, key, text := out, Quoted(printable, m.key) + [':'], Text(printable, Normal(m.value));
      if !first {
        out := out + [','];
      }
      assert out == before + Comma(first);
      out := out + (Quoted(printable, m.key) + [':']);
      Write(m.value);
      assert out == ((before + Comma(first)) + key) + text;
      InOrder(before, Comma(first), key, text);
    }

    method WriteSorted(ghost v: Json, sorted: seq<Member>)
      requires forall i :: 0 <= i < |sorted| ==> sorted[i].value < v
      modifies this
      ensures out == old(out) + Members(printable, NormalMembers(sorted), true)
      decreases v, 0
    {
      ghost var before, normal := out, NormalMembers(sorted);
      for i := 0 to |sorted|
        invariant out == before + Members(printable, normal[..i], true)
      {
        ghost var mid := out;
        WriteMember(sorted[i], i == 0);
        MemberNext(printable, before, sorted, i, mid, out);
      }
      assert normal[..|sorted|] == normal;
    }

    // Sorted by key, and then member by member.
    method WriteMembers(v: Json, members: seq<Member>)
      requires v == Object(members)
      modifies this
      ensures out == old(out) + Canonical(printable, v)
      decreases v, 1
    {
      var sorted := ByKey(members);
      SortedSmaller(members);
      ghost var before := out;
      out := out + ['{'];
      WriteSorted(v, sorted);
      out := out + ['}'];
      CanonicalObject(printable, members);
      ghost var text := Members(printable, NormalMembers(sorted), true);
      Bags.Regroup(before, ['{'], text);
      Bags.Regroup(before, ['{'] + text, ['}']);
    }
  }

  // The text so far, and one member more.
  lemma MemberNext(printable: char -> bool, before: string, sorted: seq<Member>, i: nat, mid: string, now: string)
    requires i < |sorted| && mid == before + Members(printable, NormalMembers(sorted)[..i], true)
    requires now == mid + (Comma(i == 0) + Entry(printable, Member(sorted[i].key, Normal(sorted[i].value))))
    ensures now == before + Members(printable, NormalMembers(sorted)[..i + 1], true)
  {
    var normal := NormalMembers(sorted);
    NormalMemberAt(sorted, i);
    MembersTaken(printable, normal, i);
    Bags.Regroup(before, Members(printable, normal[..i], true), Comma(i == 0) + Entry(printable, normal[i]));
  }

  lemma CanonicalObject(printable: char -> bool, members: seq<Member>)
    ensures Canonical(printable, Object(members)) == ['{'] + Members(printable, NormalMembers(ByKey(members)), true) + ['}']
  {
    NormalCommutes(members);
  }

  lemma SortedSmaller(members: seq<Member>)
    ensures forall i :: 0 <= i < |ByKey(members)| ==> ByKey(members)[i].value < Object(members)
  {
    forall i | 0 <= i < |ByKey(members)|
      ensures ByKey(members)[i].value < Object(members)
    {
      SortedWithin(members, i);
      var k :| 0 <= k < |members| && members[k] == ByKey(members)[i];
    }
  }

  lemma ItemsTaken(printable: char -> bool, items: seq<Json>, i: nat)
    requires i < |items|
    ensures Items(printable, items[..i + 1], true) == Items(printable, items[..i], true) + (Comma(i == 0) + Text(printable, items[i]))
  {
    assert items[..i + 1] == items[..i] + [items[i]];
    ItemsSnoc(printable, items[..i], items[i], true);
  }

  lemma MembersTaken(printable: char -> bool, ms: seq<Member>, i: nat)
    requires i < |ms|
    ensures Members(printable, ms[..i + 1], true) == Members(printable, ms[..i], true) + (Comma(i == 0) + Entry(printable, ms[i]))
  {
    assert ms[..i + 1] == ms[..i] + [ms[i]];
    MembersSnoc(printable, ms[..i], ms[i], true);
  }

  lemma InOrder(a: string, b: string, c: string, d: string)
    ensures ((a + b) + c) + d == a + (b + (c + d))
  {
  }

  // --- The text says which value it is ---------------------------------------------------------------------------

  lemma HexDigitsDiffer(m: nat, n: nat)
    requires m < 16 && n < 16 && HEX[m] == HEX[n]
    ensures m == n
  {
  }

  lemma {:induction false} HexInjective(m: nat, n: nat, width: nat)
    requires Hex(m, width) == Hex(n, width)
    requires m < Power16(width) && n < Power16(width)
    ensures m == n
  {
    if width > 0 {
      var a, b := Hex(m, width), Hex(n, width);
      assert a[..width - 1] == Hex(m / 16, width - 1) && b[..width - 1] == Hex(n / 16, width - 1);
      assert a[width - 1] == HEX[m % 16] && b[width - 1] == HEX[n % 16];
      HexDigitsDiffer(m % 16, n % 16);
      HexInjective(m / 16, n / 16, width - 1);
    }
  }

  function Power16(n: nat): nat {
    if n == 0 then 1 else 16 * Power16(n - 1)
  }

  lemma LastDigit(n: nat)
    requires n >= 16
    ensures var t := ShortHex(n); t[|t| - 1] == HEX[n % 16] && t[..|t| - 1] == ShortHex(n / 16)
  {
  }

  lemma {:induction false} ShortHexInjective(m: nat, n: nat)
    requires ShortHex(m) == ShortHex(n)
    ensures m == n
  {
    ShortHexLength(m);
    ShortHexLength(n);
    if m < 16 {
      assert ShortHex(m)[0] == HEX[m] && ShortHex(n)[0] == HEX[n];
      HexDigitsDiffer(m, n);
    } else {
      LastDigit(m);
      LastDigit(n);
      HexDigitsDiffer(m % 16, n % 16);
      ShortHexInjective(m / 16, n / 16);
    }
  }

  lemma ShortHexLength(n: nat)
    ensures if n < 16 then |ShortHex(n)| == 1 else |ShortHex(n)| >= 2
  {
  }

  lemma FirstChar(a: string, x: string)
    requires a != []
    ensures (a + x)[0] == a[0] && (a + x)[1..] == a[1..] + x
  {
  }

  // Two texts of hexadecimal digits, each followed by something that is not one, part where the digits end.
  lemma {:induction false} HexEnds(a: string, b: string, x: string, y: string, stop: char)
    requires a + ([stop] + x) == b + ([stop] + y) && !IsHex(stop)
    requires (forall i :: 0 <= i < |a| ==> IsHex(a[i])) && (forall i :: 0 <= i < |b| ==> IsHex(b[i]))
    ensures a == b && x == y
  {
    FirstChar([stop], x);
    FirstChar([stop], y);
    if a == [] && b == [] {
      assert a + ([stop] + x) == [stop] + x && b + ([stop] + y) == [stop] + y;
      SameTail(stop, x, stop, y);
    } else if a == [] {
      FirstChar(b, [stop] + y);
    } else if b == [] {
      FirstChar(a, [stop] + x);
    } else {
      FirstChar(a, [stop] + x);
      FirstChar(b, [stop] + y);
      HexEnds(a[1..], b[1..], x, y, stop);
      assert a == [a[0]] + a[1..] && b == [b[0]] + b[1..];
    }
  }

  lemma SameStart(a: string, b: string, x: string, y: string)
    requires a + x == b + y && |a| == |b|
    ensures a == b && x == y
  {
    var w := a + x;
    assert w[..|a|] == a && w[|a|..] == x;
    assert w[..|b|] == b && w[|b|..] == y;
  }

  lemma SameTail(c: char, x: string, d: char, y: string)
    requires [c] + x == [d] + y
    ensures c == d && x == y
  {
    SameStart([c], [d], x, y);
  }

  function Mark(c: char): char {
    if c == '"' then '"'
    else if c == '\\' then '\\'
    else if c == '\t' then 't'
    else if c == '\r' then 'r'
    else if c == '\n' then 'n'
    else if c == '\0' then '0'
    else 'u'
  }

  lemma MarkStarts(c: char, x: string)
    ensures (EscapeTail(c) + x) != [] && (EscapeTail(c) + x)[0] == Mark(c)
    ensures EscapeTail(c) == if Mark(c) == 'u' then ['u', '{'] + (ShortHex(c as int) + ['}']) else [Mark(c)]
  {
  }

  lemma EscapeTailEnds(c: char, d: char, x: string, y: string)
    requires EscapeTail(c) + x == EscapeTail(d) + y
    ensures c == d && x == y
  {
    MarkStarts(c, x);
    MarkStarts(d, y);
    if Mark(c) == 'u' {
      LongEscapeEnds(c as int, d as int, x, y);
    } else {
      SameStart([Mark(c)], [Mark(d)], x, y);
    }
  }

  lemma LongEscapeEnds(c: nat, d: nat, x: string, y: string)
    requires (['u', '{'] + (ShortHex(c) + ['}'])) + x == (['u', '{'] + (ShortHex(d) + ['}'])) + y
    ensures c == d && x == y
  {
    var m, n := ShortHex(c), ShortHex(d);
    LongEscape(m, x);
    LongEscape(n, y);
    SameStart(['u', '{'], ['u', '{'], m + (['}'] + x), n + (['}'] + y));
    HexEnds(m, n, x, y, '}');
    ShortHexInjective(c, d);
  }

  lemma LongEscape(digits: string, x: string)
    ensures (['u', '{'] + (digits + ['}'])) + x == ['u', '{'] + (digits + (['}'] + x))
  {
    Bags.Regroup(['u', '{'], digits + ['}'], x);
    Bags.Regroup(digits, ['}'], x);
  }

  // One character's escape is no other's, whatever follows, and none looks like the closing quote.
  lemma EscapeEnds(printable: char -> bool, c: char, d: char, x: string, y: string)
    requires Escape(printable, c) + x == Escape(printable, d) + y
    ensures c == d && x == y
  {
    var a, b := Escape(printable, c), Escape(printable, d);
    FirstChar(a, x);
    FirstChar(b, y);
    if Escapes(printable, c) && Escapes(printable, d) {
      Bags.Regroup(['\\'], EscapeTail(c), x);
      Bags.Regroup(['\\'], EscapeTail(d), y);
      SameTail('\\', EscapeTail(c) + x, '\\', EscapeTail(d) + y);
      EscapeTailEnds(c, d, x, y);
    } else {
      SameStart(a, b, x, y);
    }
  }

  lemma EscapeStart(printable: char -> bool, c: char)
    ensures Escape(printable, c) != [] && Escape(printable, c)[0] != '"'
  {
  }

  lemma {:induction false} EscapedEnds(printable: char -> bool, s: string, t: string, x: string, y: string)
    requires Escaped(printable, s) + (['"'] + x) == Escaped(printable, t) + (['"'] + y)
    ensures s == t && x == y
  {
    FirstChar(['"'], x);
    FirstChar(['"'], y);
    if s == [] && t == [] {
      assert Escaped(printable, s) + (['"'] + x) == ['"'] + x;
      assert Escaped(printable, t) + (['"'] + y) == ['"'] + y;
      SameTail('"', x, '"', y);
    } else if s == [] {
      EscapedStart(printable, t, ['"'] + y);
    } else if t == [] {
      EscapedStart(printable, s, ['"'] + x);
    } else {
      var more, others := Escaped(printable, s[1..]), Escaped(printable, t[1..]);
      Bags.Regroup(Escape(printable, s[0]), more, ['"'] + x);
      Bags.Regroup(Escape(printable, t[0]), others, ['"'] + y);
      EscapeEnds(printable, s[0], t[0], more + (['"'] + x), others + (['"'] + y));
      EscapedEnds(printable, s[1..], t[1..], x, y);
      assert s == [s[0]] + s[1..] && t == [t[0]] + t[1..];
    }
  }

  lemma EscapedStart(printable: char -> bool, s: string, x: string)
    requires s != []
    ensures (Escaped(printable, s) + x) != [] && (Escaped(printable, s) + x)[0] != '"'
  {
    EscapeStart(printable, s[0]);
  }

  lemma QuotedEnds(printable: char -> bool, s: string, t: string, x: string, y: string)
    requires Quoted(printable, s) + x == Quoted(printable, t) + y
    ensures s == t && x == y
  {
    QuotedIs(printable, s, x);
    QuotedIs(printable, t, y);
    SameTail('"', Escaped(printable, s) + (['"'] + x), '"', Escaped(printable, t) + (['"'] + y));
    EscapedEnds(printable, s, t, x, y);
  }

  lemma QuotedIs(printable: char -> bool, s: string, x: string)
    ensures Quoted(printable, s) + x == ['"'] + (Escaped(printable, s) + (['"'] + x))
  {
    Bags.Regroup(['"'] + Escaped(printable, s), ['"'], x);
    Bags.Regroup(['"'], Escaped(printable, s), ['"'] + x);
  }

  // The first character of a value's text, and for `n` the second, say what kind of value it is.
  function Kind(v: Json): int {
    match v
    case Null => 0
    case Bool(b) => if b then 1 else 2
    case Number(_) => 3
    case Str(_) => 4
    case Array(_) => 5
    case Object(_) => 6
  }

  function Opening(v: Json): char {
    match v
    case Null => 'n'
    case Bool(b) => if b then 't' else 'f'
    case Number(_) => 'n'
    case Str(_) => '"'
    case Array(_) => '['
    case Object(_) => '{'
  }

  lemma TextStart(printable: char -> bool, v: Json, x: string)
    ensures |Text(printable, v) + x| >= 2 && (Text(printable, v) + x)[0] == Opening(v)
    ensures v.Null? ==> (Text(printable, v) + x)[1] == 'u'
    ensures v.Number? ==> IsHex((Text(printable, v) + x)[1])
  {
    if v.Number? {
      assert Text(printable, v)[1] == Hex(v.bits, 16)[0];
    }
  }

  lemma KindsPart(printable: char -> bool, a: Json, b: Json, x: string, y: string)
    requires Text(printable, a) + x == Text(printable, b) + y
    ensures Kind(a) == Kind(b)
  {
    TextStart(printable, a, x);
    TextStart(printable, b, y);
    assert !IsHex('u');
  }

  lemma PowerOfSixteen()
    ensures Power16(16) == BITS
  {
    assert Power16(4) == 0x1_0000;
    assert Power16(8) == 0x1_0000_0000;
    assert Power16(12) == 0x1_0000_0000_0000;
  }

  lemma TextIs(printable: char -> bool, v: Json, x: string)
    ensures v.Number? ==> Text(printable, v) + x == ['n'] + (Hex(v.bits, 16) + x)
    ensures v.Array? ==> Text(printable, v) + x == ['['] + (Items(printable, v.items, true) + ([']'] + x))
    ensures v.Object? ==> Text(printable, v) + x == ['{'] + (Members(printable, v.members, true) + (['}'] + x))
  {
  }

  // No value's text begins another's, whatever follows: the text can be read back in one way only.
  lemma {:induction false} TextEnds(printable: char -> bool, a: Json, b: Json, x: string, y: string)
    requires Doubles(a) && Doubles(b)
    requires Text(printable, a) + x == Text(printable, b) + y
    ensures a == b && x == y
    decreases a, 1
  {
    KindsPart(printable, a, b, x, y);
    TextIs(printable, a, x);
    TextIs(printable, b, y);
    match a
    case Null => SameStart("null", "null", x, y);
    case Bool(p) => SameStart(Text(printable, a), Text(printable, b), x, y);
    case Number(m) =>
      SameTail('n', Hex(m, 16) + x, 'n', Hex(b.bits, 16) + y);
      SameStart(Hex(m, 16), Hex(b.bits, 16), x, y);
      PowerOfSixteen();
      HexInjective(m, b.bits, 16);
    case Str(s) => QuotedEnds(printable, s, b.s, x, y);
    case Array(items) =>
      SameTail('[', Items(printable, items, true) + ([']'] + x), '[', Items(printable, b.items, true) + ([']'] + y));
      ItemsEnd(printable, items, b.items, true, x, y);
    case Object(members) =>
      SameTail('{', Members(printable, members, true) + (['}'] + x), '{', Members(printable, b.members, true) + (['}'] + y));
      MembersEnd(printable, members, b.members, true, x, y);
  }

  // A list's text starts with its first item's, or with a comma, and never with what closes the list.
  lemma ListStart(printable: char -> bool, comma: string, v: Json, rest: string, first: bool)
    requires comma == Comma(first)
    ensures ((comma + Text(printable, v)) + rest) != []
    ensures ((comma + Text(printable, v)) + rest)[0] == if first then Opening(v) else ','
  {
    TextStart(printable, v, rest);
    Bags.Regroup(comma, Text(printable, v), rest);
  }

  lemma {:induction false} ItemsEnd(printable: char -> bool, a: seq<Json>, b: seq<Json>, first: bool, x: string, y: string)
    requires DoublesEach(a) && DoublesEach(b)
    requires Items(printable, a, first) + ([']'] + x) == Items(printable, b, first) + ([']'] + y)
    ensures a == b && x == y
    decreases a, 0
  {
    var comma := Comma(first);
    FirstChar([']'], x);
    FirstChar([']'], y);
    if a == [] && b == [] {
      Nothing(a, b, ']', x, y);
    } else if a == [] {
      ItemsHead(printable, b, first, [']'] + y);
      ListStart(printable, comma, b[0], Items(printable, b[1..], false) + ([']'] + y), first);
    } else if b == [] {
      ItemsHead(printable, a, first, [']'] + x);
      ListStart(printable, comma, a[0], Items(printable, a[1..], false) + ([']'] + x), first);
    } else {
      var more, others := Items(printable, a[1..], false) + ([']'] + x), Items(printable, b[1..], false) + ([']'] + y);
      ItemsHead(printable, a, first, [']'] + x);
      ItemsHead(printable, b, first, [']'] + y);
      Bags.Regroup(comma, Text(printable, a[0]), more);
      Bags.Regroup(comma, Text(printable, b[0]), others);
      SameStart(comma, comma, Text(printable, a[0]) + more, Text(printable, b[0]) + others);
      TextEnds(printable, a[0], b[0], more, others);
      ItemsEnd(printable, a[1..], b[1..], false, x, y);
      assert a == [a[0]] + a[1..] && b == [b[0]] + b[1..];
    }
  }

  lemma Nothing<T>(a: seq<T>, b: seq<T>, close: char, x: string, y: string)
    requires a == [] && b == [] && [] + ([close] + x) == [] + ([close] + y)
    ensures a == b && x == y
  {
    assert [] + ([close] + x) == [close] + x;
    assert [] + ([close] + y) == [close] + y;
    SameTail(close, x, close, y);
  }

  lemma ItemsHead(printable: char -> bool, items: seq<Json>, first: bool, x: string)
    requires items != []
    ensures Items(printable, items, first) + x
         == (Comma(first) + Text(printable, items[0])) + (Items(printable, items[1..], false) + x)
  {
    Bags.Regroup(Comma(first) + Text(printable, items[0]), Items(printable, items[1..], false), x);
  }

  lemma MembersHead(printable: char -> bool, ms: seq<Member>, first: bool, x: string)
    requires ms != []
    ensures Members(printable, ms, first) + x
         == Comma(first) + (Quoted(printable, ms[0].key)
              + ([':'] + (Text(printable, ms[0].value) + (Members(printable, ms[1..], false) + x))))
  {
    var key, value, rest := Quoted(printable, ms[0].key), Text(printable, ms[0].value), Members(printable, ms[1..], false) + x;
    Bags.Regroup(Comma(first) + Entry(printable, ms[0]), Members(printable, ms[1..], false), x);
    Bags.Regroup(Comma(first), Entry(printable, ms[0]), rest);
    Bags.Regroup(key + [':'], value, rest);
    Bags.Regroup(key, [':'], value + rest);
  }

  lemma MembersStart(printable: char -> bool, ms: seq<Member>, first: bool, x: string)
    requires ms != []
    ensures Members(printable, ms, first) + x != []
    ensures (Members(printable, ms, first) + x)[0] == if first then '"' else ','
  {
    MembersHead(printable, ms, first, x);
  }

  lemma {:induction false} MembersEnd(printable: char -> bool, a: seq<Member>, b: seq<Member>, first: bool, x: string, y: string)
    requires DoublesMembers(a) && DoublesMembers(b)
    requires Members(printable, a, first) + (['}'] + x) == Members(printable, b, first) + (['}'] + y)
    ensures a == b && x == y
    decreases a, 0
  {
    FirstChar(['}'], x);
    FirstChar(['}'], y);
    if a == [] && b == [] {
      Nothing(a, b, '}', x, y);
    } else if a == [] {
      MembersStart(printable, b, first, ['}'] + y);
    } else if b == [] {
      MembersStart(printable, a, first, ['}'] + x);
    } else {
      var more, others := Members(printable, a[1..], false) + (['}'] + x), Members(printable, b[1..], false) + (['}'] + y);
      MembersHead(printable, a, first, ['}'] + x);
      MembersHead(printable, b, first, ['}'] + y);
      EntryEnds(printable, a[0], b[0], first, more, others);
      MembersEnd(printable, a[1..], b[1..], false, x, y);
      assert a == [a[0]] + a[1..] && b == [b[0]] + b[1..];
    }
  }

  lemma {:induction false} EntryEnds(printable: char -> bool, m: Member, n: Member, first: bool, x: string, y: string)
    requires Doubles(m.value) && Doubles(n.value)
    requires Comma(first) + (Quoted(printable, m.key) + ([':'] + (Text(printable, m.value) + x)))
          == Comma(first) + (Quoted(printable, n.key) + ([':'] + (Text(printable, n.value) + y)))
    ensures m == n && x == y
    decreases m, 2
  {
    var v, w := Text(printable, m.value) + x, Text(printable, n.value) + y;
    SameStart(Comma(first), Comma(first), Quoted(printable, m.key) + ([':'] + v), Quoted(printable, n.key) + ([':'] + w));
    QuotedEnds(printable, m.key, n.key, [':'] + v, [':'] + w);
    SameTail(':', v, ':', w);
    TextEnds(printable, m.value, n.value, x, y);
  }

  // --- Canonical -------------------------------------------------------------------------------------------------

  lemma {:induction false} NormalDoubles(v: Json)
    requires Doubles(v)
    ensures Doubles(Normal(v))
    decreases v, 1
  {
    match v
    case Array(items) => NormalEachDoubles(items);
    case Object(members) => NormalMembersDoubles(members); SortedDoubles(NormalMembers(members));
    case _ =>
  }

  lemma {:induction false} NormalEachDoubles(items: seq<Json>)
    requires DoublesEach(items)
    ensures DoublesEach(NormalEach(items))
    decreases items, 0
  {
    if items != [] {
      NormalDoubles(items[0]);
      NormalEachDoubles(items[1..]);
    }
  }

  lemma {:induction false} NormalMembersDoubles(ms: seq<Member>)
    requires DoublesMembers(ms)
    ensures DoublesMembers(NormalMembers(ms))
    decreases ms, 0
  {
    if ms != [] {
      NormalDoubles(ms[0].value);
      NormalMembersDoubles(ms[1..]);
    }
  }

  lemma {:induction false} DoublesAll(ms: seq<Member>)
    ensures DoublesMembers(ms) <==> forall m :: m in ms ==> Doubles(m.value)
  {
    if ms != [] {
      DoublesAll(ms[1..]);
      assert ms == [ms[0]] + ms[1..];
    }
  }

  lemma SortedDoubles(ms: seq<Member>)
    requires DoublesMembers(ms)
    ensures DoublesMembers(ByKey(ms))
  {
    DoublesAll(ms);
    DoublesAll(ByKey(ms));
    forall m | m in ByKey(ms)
      ensures Doubles(m.value)
    {
      assert m in multiset(ByKey(ms));
      assert m in ms;
    }
  }

  // Two values have the same canonical text exactly when they are the same value: objects compared as their
  // members sorted by key, numbers by the bits of the double.
  lemma CanonicalExactly(printable: char -> bool, a: Json, b: Json)
    requires Doubles(a) && Doubles(b)
    ensures Canonical(printable, a) == Canonical(printable, b) <==> Normal(a) == Normal(b)
  {
    if Canonical(printable, a) == Canonical(printable, b) {
      NormalDoubles(a);
      NormalDoubles(b);
      TextEnds(printable, Normal(a), Normal(b), [], []);
    }
  }
}
