/**
 stableSerialize: the text that decides when two request bodies count as the same.

 A JSON value keeps its members in the order the client sent them. `undefined` is included because normalize
 turns it into null at every depth. A number is its JSON text, which is what JSON.stringify emits for it; a number too
 large for a double, such as 1e400, is parsed to an infinity, for which JSON.stringify emits null.
 */
module StableSerialize {
  import opened FiniteSets

  datatype Json =
    | Undefined
    | Null
    | Bool(b: bool)
    | Num(text: string)
    | NonFinite(negative: bool)
    | Str(s: string)
    | Arr(items: seq<Json>)
    | Obj(members: seq<Member>)

  datatype Member = Member(key: string, value: Json)

  // ---- What an input may be ----

  predicate NumChar(c: char) { '0' <= c <= '9' || c == '-' || c == '+' || c == '.' || c == 'e' || c == 'E' }

  predicate NumText(t: string) {
    t != "" && ('0' <= t[0] <= '9' || t[0] == '-') && forall i | 0 <= i < |t| :: NumChar(t[i])
  }

  predicate DistinctKeys(ms: seq<Member>) {
    forall i, j | 0 <= i < j < |ms| :: ms[i].key != ms[j].key
  }

  /** Numbers print as JSON numbers, and no object repeats a key. */
  predicate WellFormed(v: Json) {
    match v
    case Num(t) => NumText(t)
    case Arr(items) => forall i | 0 <= i < |items| :: WellFormed(items[i])
    case Obj(ms) => DistinctKeys(ms) && forall i | 0 <= i < |ms| :: WellFormed(ms[i].value)
    case _ => true
  }

  /** Equal up to the order of object keys, at every depth; undefined and null are one value. */
  predicate Equivalent(a: Json, b: Json)
    decreases a
  {
    match a
    case Undefined => b.Undefined? || b.Null?
    case Null => b.Undefined? || b.Null?
    case Arr(xs) => b.Arr? && |xs| == |b.items| && forall i | 0 <= i < |xs| :: Equivalent(xs[i], b.items[i])
    case Obj(ms) =>
      && b.Obj? && |ms| == |b.members|
      && forall i | 0 <= i < |ms| :: HasPartner(ms[i], b.members)
    case _ => a == b
  }

  predicate HasPartner(x: Member, ys: seq<Member>)
    decreases x
  {
    exists j | 0 <= j < |ys| :: x.key == ys[j].key && Equivalent(x.value, ys[j].value)
  }

  // ---- The order in which JavaScript lists sorted keys ----

  /** Position of a character in UTF-16 code unit order: astral characters sort as their surrogates do. */
  function UnitRank(c: char): int {
    if '\U{E000}' <= c <= '\U{FFFF}' then c as int + 0x200000 else c as int
  }

  /** The order of Array.prototype.sort on strings. */
  predicate LexLess(a: string, b: string) {
    b != "" && (a == "" || UnitRank(a[0]) < UnitRank(b[0]) || (a[0] == b[0] && LexLess(a[1..], b[1..])))
  }

  /** Keys such as "0" or "42" are array indices; every object lists those first, by number. */
  predicate IsIndex(k: string) {
    && k != ""
    && (forall i | 0 <= i < |k| :: '0' <= k[i] <= '9')
    && (k[0] == '0' ==> |k| == 1)
    && (|k| < 10 || (|k| == 10 && !LexLess(GREATEST_INDEX, k)))
  }

  /** sort() followed by Object.fromEntries: index keys by value, then the others by code units. */
  predicate KeyLess(a: string, b: string) {
    if IsIndex(a) != IsIndex(b) then IsIndex(a)
    else if IsIndex(a) && |a| != |b| then |a| < |b|
    else LexLess(a, b)
  }

  // ---- normalize and JSON.stringify ----

  function Insert(m: Member, ms: seq<Member>): seq<Member> {
    if ms == [] || KeyLess(m.key, ms[0].key) then [m] + ms else [ms[0]] + Insert(m, ms[1..])
  }

  function Sort(ms: seq<Member>): seq<Member> {
    if ms == [] then [] else Insert(ms[0], Sort(ms[1..]))
  }

  function Normalize(v: Json): Json {
    match v
    case Undefined => Null
    case Arr(items) => Arr(seq(|items|, i requires 0 <= i < |items| => Normalize(items[i])))
    case Obj(ms) => Obj(Sort(NormalizeMembers(ms)))
    case _ => v
  }

  function NormalizeMembers(ms: seq<Member>): seq<Member> {
    seq(|ms|, i requires 0 <= i < |ms| => Member(ms[i].key, Normalize(ms[i].value)))
  }

  function HexDigit(n: int): char
    requires 0 <= n < 16
  {
    "0123456789abcdef"[n]
  }

  function Escape(c: char): string {
    if c == '\"' then "\\\""
    else if c == '\\' then "\\\\"
    else if c as int == 8 then "\\b"
    else if c == '\t' then "\\t"
    else if c == '\n' then "\\n"
    else if c as int == 12 then "\\f"
    else if c == '\r' then "\\r"
    else if c as int < 0x20 then "\\u00" + [HexDigit(c as int / 16), HexDigit(c as int % 16)]
    else [c]
  }

  /** The text JSON.stringify emits for the rest of a string literal, followed by `rest`. */
  function EmitChars(s: string, rest: string): string
    decreases s
  {
    if s == "" then ['\"'] + rest else Escape(s[0]) + EmitChars(s[1..], rest)
  }

  function EmitString(s: string, rest: string): string { ['\"'] + EmitChars(s, rest) }

  /** The text JSON.stringify emits for v, followed by `rest`. */
  function Emit(v: Json, rest: string): string
    decreases v, 1
  {
    match v
    case Undefined => rest
    case Null => "null" + rest
    case Bool(b) => (if b then "true" else "false") + rest
    case Num(t) => t + rest
    case NonFinite(_) => "null" + rest
    case Str(s) => EmitString(s, rest)
    case Arr(items) => ['['] + EmitItems(items, [']'] + rest)
    case Obj(ms) => ['{'] + EmitMembers(ms, ['}'] + rest)
  }

  function EmitItems(items: seq<Json>, rest: string): string
    decreases items, 0
  {
    if items == [] then rest
    else Emit(items[0], if |items| == 1 then rest else [','] + EmitItems(items[1..], rest))
  }

  function EmitMembers(ms: seq<Member>, rest: string): string
    decreases ms, 0
  {
    if ms == [] then rest
    else
      var after := if |ms| == 1 then rest else [','] + EmitMembers(ms[1..], rest);
      EmitString(ms[0].key, [':'] + Emit(ms[0].value, after))
  }

  function Print(v: Json): string { Emit(v, "") }

  function Serialize(v: Json): string { Print(Normalize(v)) }

  // ---- KeyLess is a strict total order ----

  lemma UnitRankInjective(c: char, d: char)
    ensures UnitRank(c) == UnitRank(d) <==> c == d
  {}

  lemma {:induction false} LexTotal(a: string, b: string)
    ensures LexLess(a, b) || a == b || LexLess(b, a)
    ensures !(LexLess(a, b) && LexLess(b, a)) && !LexLess(a, a)
  {
    if a != "" {
      LexTotal(a[1..], a[1..]);
    }
    if a != "" && b != "" {
      UnitRankInjective(a[0], b[0]);
      LexTotal(a[1..], b[1..]);
      if a[0] == b[0] && a[1..] == b[1..] {
        assert a == [a[0]] + a[1..] && b == [b[0]] + b[1..];
      }
    }
  }

  lemma {:induction false} LexTransitive(a: string, b: string, c: string)
    requires LexLess(a, b) && LexLess(b, c)
    ensures LexLess(a, c)
  {
    if a != "" && a[0] == b[0] == c[0] {
      LexTransitive(a[1..], b[1..], c[1..]);
    }
  }

  lemma KeyTotal(a: string, b: string)
    ensures KeyLess(a, b) || a == b || KeyLess(b, a)
    ensures !(KeyLess(a, b) && KeyLess(b, a)) && !KeyLess(a, a)
  {
    LexTotal(a, b);
    LexTotal(a, a);
  }

  // ---- What that order is ----

  predicate Digits(k: string) { k != "" && forall i | 0 <= i < |k| :: '0' <= k[i] <= '9' }

  function Pow10(n: nat): nat { if n == 0 then 1 else 10 * Pow10(n - 1) }

  /** The number that a string of digits writes. */
  function ValueOf(k: string): int {
    if k == "" then 0 else 10 * ValueOf(k[..|k| - 1]) + (k[|k| - 1] as int - 48)
  }

  lemma {:induction false} ValueBelow(k: string)
    requires k == "" || Digits(k)
    ensures 0 <= ValueOf(k) < Pow10(|k|)
  {
    if k != "" { ValueBelow(k[..|k| - 1]); }
  }

  lemma {:induction false} ValueAtLeast(k: string)
    requires Digits(k) && k[0] != '0'
    ensures Pow10(|k| - 1) <= ValueOf(k)
  {
    if |k| != 1 { ValueAtLeast(k[..|k| - 1]); }
  }

  lemma {:induction false} PowGrows(m: nat, n: nat)
    requires m <= n
    ensures 1 <= Pow10(m) <= Pow10(n)
    decreases n
  {
    if m < n { PowGrows(m, n - 1); } else if n != 0 { PowGrows(0, n - 1); }
  }

  /** Of strings of one length, the order decides on what precedes the last character, and then on that one. */
  lemma {:induction false} LexByLast(a: string, b: string)
    requires |a| == |b| && a != ""
    ensures var n := |a| - 1;
            LexLess(a, b) <==> LexLess(a[..n], b[..n]) || (a[..n] == b[..n] && UnitRank(a[n]) < UnitRank(b[n]))
  {
    var n := |a| - 1;
    if n != 0 {
      LexByLast(a[1..], b[1..]);
      assert a[1..][..n - 1] == a[..n][1..] && b[1..][..n - 1] == b[..n][1..];
      assert a[..n] == [a[0]] + a[..n][1..] && b[..n] == [b[0]] + b[..n][1..];
      UnitRankInjective(a[0], b[0]);
    } else {
      assert a[1..] == "" && b[1..] == "" && a[..0] == b[..0] == "";
    }
  }

  lemma {:induction false} SameLengthByValue(a: string, b: string)
    requires |a| == |b| && (a == "" || (Digits(a) && Digits(b)))
    ensures LexLess(a, b) <==> ValueOf(a) < ValueOf(b)
    ensures ValueOf(a) == ValueOf(b) ==> a == b
  {
    if a != "" {
      var n := |a| - 1;
      SameLengthByValue(a[..n], b[..n]);
      LexByLast(a, b);
      assert a == a[..n] + [a[n]] && b == b[..n] + [b[n]];
    }
  }

  lemma LongerIsGreater(a: string, b: string)
    requires Digits(a) && Digits(b) && |a| < |b| && b[0] != '0'
    ensures ValueOf(a) < ValueOf(b)
  {
    ValueBelow(a);
    PowGrows(|a|, |b| - 1);
    ValueAtLeast(b);
  }

  const GREATEST_INDEX := "4294967294"

  lemma ValueOfMore(k: string, c: char)
    ensures ValueOf(k + [c]) == 10 * ValueOf(k) + (c as int - 48)
  {
    assert (k + [c])[..|k|] == k;
  }

  lemma FirstFour()
    ensures ValueOf("4294") == 4_294
  {
    ValueOfMore("", '4');
    ValueOfMore("4", '2');
    ValueOfMore("42", '9');
    ValueOfMore("429", '4');
    assert "" + "4" == "4" && "4" + "2" == "42" && "42" + "9" == "429" && "429" + "4" == "4294";
  }

  lemma FirstSeven()
    ensures ValueOf("4294967") == 4_294_967
  {
    FirstFour();
    ValueOfMore("4294", '9');
    ValueOfMore("42949", '6');
    ValueOfMore("429496", '7');
    assert "4294" + "9" == "42949" && "42949" + "6" == "429496" && "429496" + "7" == "4294967";
  }

  lemma GreatestIndex()
    ensures ValueOf(GREATEST_INDEX) == 4_294_967_294
  {
    FirstSeven();
    ValueOfMore("4294967", '2');
    ValueOfMore("42949672", '9');
    ValueOfMore("429496729", '4');
    assert "4294967" + "2" == "42949672" && "42949672" + "9" == "429496729" && "429496729" + "4" == GREATEST_INDEX;
  }

  lemma UpTo(g: string, k: string)
    requires Digits(g) && g[0] != '0' && Digits(k) && (k[0] == '0' ==> |k| == 1)
    ensures ValueOf(k) <= ValueOf(g) <==> |k| < |g| || (|k| == |g| && !LexLess(g, k))
  {
    if |k| == |g| { SameLengthByValue(g, k); }
    else if |k| < |g| { LongerIsGreater(k, g); }
    else { LongerIsGreater(g, k); }
  }

  lemma GreatestIsDigits()
    ensures Digits(GREATEST_INDEX) && |GREATEST_INDEX| == 10 && GREATEST_INDEX[0] != '0'
  {}

  /** The keys that are array indices: decimal numbers below 2^32 - 1, written without leading zeros. */
  lemma IndexIff(k: string)
    ensures IsIndex(k) <==> Digits(k) && (k[0] == '0' ==> |k| == 1) && ValueOf(k) < 0x1_0000_0000 - 1
  {
    GreatestIndex();
    GreatestIsDigits();
    if Digits(k) && (k[0] == '0' ==> |k| == 1) { UpTo(GREATEST_INDEX, k); }
  }

  /** Every object lists its array indices first, by their value. */
  lemma IndicesComeFirst(a: string, b: string)
    requires IsIndex(a)
    ensures IsIndex(b) ==> (KeyLess(a, b) <==> ValueOf(a) < ValueOf(b))
    ensures !IsIndex(b) ==> KeyLess(a, b) && !KeyLess(b, a)
  {
    if IsIndex(b) {
      if |a| == |b| { SameLengthByValue(a, b); }
      else if |a| < |b| { LongerIsGreater(a, b); }
      else { LongerIsGreater(b, a); }
    }
  }

  /** a and b agree up to i, where a ends or has the smaller code unit. */
  predicate SmallerAt(a: string, b: string, i: nat) {
    && i <= |a| && i < |b| && a[..i] == b[..i]
    && (i < |a| ==> UnitRank(a[i]) < UnitRank(b[i]))
  }

  lemma SmallerBehindHead(a: string, b: string, i: nat)
    requires a != "" && b != "" && a[0] == b[0]
    ensures SmallerAt(a[1..], b[1..], i) <==> SmallerAt(a, b, i + 1)
    ensures !SmallerAt(a, b, 0)
  {
    if i < |a| && i < |b| {
      assert a[..i + 1] == [a[0]] + a[1..][..i] && b[..i + 1] == [b[0]] + b[1..][..i];
      assert a[1..][..i] == a[..i + 1][1..] && b[1..][..i] == b[..i + 1][1..];
    }
  }

  lemma SmallerAtHead(a: string, b: string, i: nat)
    requires b != "" && (a == "" || a[0] != b[0])
    ensures SmallerAt(a, b, i) <==> i == 0 && (a == "" || UnitRank(a[0]) < UnitRank(b[0]))
  {
    if 0 < i <= |a| && i < |b| { assert a[..i][0] == a[0] && b[..i][0] == b[0]; }
  }

  lemma {:induction false} FirstDifferenceDecides(a: string, b: string)
    ensures LexLess(a, b) <==> exists i: nat :: SmallerAt(a, b, i)
  {
    if b == "" {
    } else if a == "" || a[0] != b[0] {
      forall i: nat ensures SmallerAt(a, b, i) <==> i == 0 && (a == "" || UnitRank(a[0]) < UnitRank(b[0])) {
        SmallerAtHead(a, b, i);
      }
      assert SmallerAt(a, b, 0) <==> LexLess(a, b);
    } else {
      FirstDifferenceDecides(a[1..], b[1..]);
      forall i: nat ensures SmallerAt(a[1..], b[1..], i) <==> SmallerAt(a, b, i + 1) { SmallerBehindHead(a, b, i); }
      SmallerBehindHead(a, b, 0);
      if i: nat :| SmallerAt(a, b, i) { assert SmallerAt(a[1..], b[1..], i - 1); }
    }
  }

  /** And then its other keys, by the first code unit in which they differ. */
  lemma OtherKeysByCodeUnit(a: string, b: string)
    requires !IsIndex(a) && !IsIndex(b)
    ensures KeyLess(a, b) <==> exists i: nat :: SmallerAt(a, b, i)
  {
    FirstDifferenceDecides(a, b);
  }

  lemma KeyTransitive(a: string, b: string, c: string)
    requires KeyLess(a, b) && KeyLess(b, c)
    ensures KeyLess(a, c)
  {
    if LexLess(a, b) && LexLess(b, c) { LexTransitive(a, b, c); }
  }

  // ---- Sorting forgets the order of members and nothing else ----

  predicate Sorted(ms: seq<Member>) {
    forall i, j | 0 <= i < j < |ms| :: KeyLess(ms[i].key, ms[j].key)
  }

  lemma {:induction false} InsertPermutes(m: Member, ms: seq<Member>)
    ensures multiset(Insert(m, ms)) == multiset(ms) + multiset{m}
  {
    if ms != [] {
      assert ms == [ms[0]] + ms[1..];
      if !KeyLess(m.key, ms[0].key) { InsertPermutes(m, ms[1..]); }
    }
  }

  lemma SmallerFirst(m: Member, ms: seq<Member>)
    requires Sorted(ms) && forall x | x in ms :: KeyLess(m.key, x.key)
    ensures Sorted([m] + ms)
  {
    var all := [m] + ms;
    forall i, j | 0 <= i < j < |all| ensures KeyLess(all[i].key, all[j].key) {
      if i == 0 { assert ms[j - 1] in ms; }
    }
  }

  lemma {:induction false} InsertSorts(m: Member, ms: seq<Member>)
    requires Sorted(ms) && forall x | x in ms :: x.key != m.key
    ensures Sorted(Insert(m, ms)) && multiset(Insert(m, ms)) == multiset(ms) + multiset{m}
  {
    InsertPermutes(m, ms);
    if ms != [] {
      var first, rest := ms[0], ms[1..];
      assert first in ms;
      KeyTotal(m.key, first.key);
      if KeyLess(m.key, first.key) {
        forall x | x in ms ensures KeyLess(m.key, x.key) {
          if x != first { KeyTransitive(m.key, first.key, x.key); }
        }
        SmallerFirst(m, ms);
      } else {
        InsertSorts(m, rest);
        forall x | x in Insert(m, rest) ensures KeyLess(first.key, x.key) {
          assert x in multiset(Insert(m, rest));
        }
        SmallerFirst(first, Insert(m, rest));
      }
    }
  }

  lemma {:induction false} SortSorts(ms: seq<Member>)
    requires DistinctKeys(ms)
    ensures Sorted(Sort(ms)) && multiset(Sort(ms)) == multiset(ms)
  {
    if ms != [] {
      SortSorts(ms[1..]);
      assert ms == [ms[0]] + ms[1..];
      forall x | x in Sort(ms[1..]) ensures x.key != ms[0].key {
        assert x in multiset(ms[1..]);
      }
      InsertSorts(ms[0], Sort(ms[1..]));
    }
  }

  predicate SameMembers(xs: seq<Member>, ys: seq<Member>) {
    (forall x | x in xs :: x in ys) && forall y | y in ys :: y in xs
  }

  lemma SortedHead(xs: seq<Member>, m: Member)
    requires Sorted(xs) && m in xs
    ensures m == xs[0] || KeyLess(xs[0].key, m.key)
  {
    var i :| 0 <= i < |xs| && xs[i] == m;
  }

  lemma SortedTail(xs: seq<Member>, m: Member)
    requires Sorted(xs) && xs != []
    ensures m in xs[1..] <==> m in xs && m != xs[0]
  {
    KeyTotal(xs[0].key, xs[0].key);
    if m in xs[1..] {
      var i :| 0 <= i < |xs| - 1 && xs[1..][i] == m;
      assert xs[i + 1] == m;
    }
  }

  lemma NonEmptyHasMember(ys: seq<Member>)
    ensures ys == [] || exists y :: y in ys
  {
    if ys != [] { assert ys[0] in ys; }
  }

  /** Two sorted lists with the same members are the same list. */
  lemma {:induction false} SortedUnique(xs: seq<Member>, ys: seq<Member>)
    requires Sorted(xs) && Sorted(ys) && SameMembers(xs, ys)
    ensures xs == ys
  {
    if xs == [] {
      NonEmptyHasMember(ys);
    } else {
      assert xs[0] in xs && ys != [];
      assert ys[0] in ys;
      SortedHead(xs, ys[0]);
      SortedHead(ys, xs[0]);
      KeyTotal(xs[0].key, ys[0].key);
      forall m ensures m in xs[1..] <==> m in ys[1..] {
        SortedTail(xs, m);
        SortedTail(ys, m);
      }
      SortedUnique(xs[1..], ys[1..]);
    }
  }

  lemma SortIsCanonical(xs: seq<Member>, ys: seq<Member>)
    requires DistinctKeys(xs) && DistinctKeys(ys)
    ensures Sort(xs) == Sort(ys) <==> SameMembers(xs, ys)
  {
    SortSorts(xs);
    SortSorts(ys);
    forall m ensures (m in Sort(xs) <==> m in xs) && (m in Sort(ys) <==> m in ys) {
      assert m in Sort(xs) <==> m in multiset(Sort(xs));
      assert m in Sort(ys) <==> m in multiset(Sort(ys));
    }
    if SameMembers(xs, ys) {
      SortedUnique(Sort(xs), Sort(ys));
    }
  }

  // ---- Normal forms are equal exactly when the inputs are equivalent ----

  lemma {:induction false} NormalizeEquivalent(a: Json, b: Json)
    requires WellFormed(a) && WellFormed(b)
    ensures Normalize(a) == Normalize(b) <==> Equivalent(a, b)
    decreases a
  {
    if a.Arr? && b.Arr? {
      NormalizeItems(a.items, b.items);
    } else if a.Obj? && b.Obj? {
      SortIsCanonical(NormalizeMembers(a.members), NormalizeMembers(b.members));
      if Equivalent(a, b) { EquivalentMembersSame(a.members, b.members); }
      if Normalize(a) == Normalize(b) { SameMembersEquivalent(a.members, b.members); }
    }
  }

  lemma {:induction false} NormalizeItems(xs: seq<Json>, ys: seq<Json>)
    requires WellFormed(Arr(xs)) && WellFormed(Arr(ys))
    ensures Normalize(Arr(xs)) == Normalize(Arr(ys)) <==> Equivalent(Arr(xs), Arr(ys))
    decreases xs
  {
    var ns, ms := Normalize(Arr(xs)).items, Normalize(Arr(ys)).items;
    forall i | 0 <= i < |xs| && i < |ys| ensures ns[i] == ms[i] <==> Equivalent(xs[i], ys[i]) {
      NormalizeEquivalent(xs[i], ys[i]);
    }
    if Equivalent(Arr(xs), Arr(ys)) {
      assert ns == ms;
    }
  }

  lemma {:induction false} MemberEquivalent(x: Member, y: Member)
    requires WellFormed(x.value) && WellFormed(y.value)
    ensures Member(x.key, Normalize(x.value)) == Member(y.key, Normalize(y.value)) <==>
            x.key == y.key && Equivalent(x.value, y.value)
    decreases x
  {
    NormalizeEquivalent(x.value, y.value);
  }

  lemma {:induction false} EquivalentMembersSame(xs: seq<Member>, ys: seq<Member>)
    requires WellFormed(Obj(xs)) && WellFormed(Obj(ys)) && Equivalent(Obj(xs), Obj(ys))
    ensures SameMembers(NormalizeMembers(xs), NormalizeMembers(ys))
    decreases xs
  {
    var ns, ms := NormalizeMembers(xs), NormalizeMembers(ys);
    forall m | m in ns ensures m in ms {
      var i :| 0 <= i < |ns| && ns[i] == m;
      assert HasPartner(xs[i], ys);
      var j :| 0 <= j < |ys| && xs[i].key == ys[j].key && Equivalent(xs[i].value, ys[j].value);
      MemberEquivalent(xs[i], ys[j]);
      assert ms[j] == m;
    }
    KeysCover(ns, ms);
  }

  lemma {:induction false} SameMembersEquivalent(xs: seq<Member>, ys: seq<Member>)
    requires WellFormed(Obj(xs)) && WellFormed(Obj(ys)) && SameMembers(NormalizeMembers(xs), NormalizeMembers(ys))
    ensures Equivalent(Obj(xs), Obj(ys))
    decreases xs
  {
    var ns, ms := NormalizeMembers(xs), NormalizeMembers(ys);
    KeysBounded(ns, ms);
    KeysBounded(ms, ns);
    forall i | 0 <= i < |xs| ensures HasPartner(xs[i], ys) {
      assert ns[i] in ms;
      var j :| 0 <= j < |ms| && ms[j] == ns[i];
      MemberEquivalent(xs[i], ys[j]);
    }
  }

  function KeySet(ms: seq<Member>): set<string> { set i | 0 <= i < |ms| :: ms[i].key }

  lemma {:induction false} KeySetSize(ms: seq<Member>)
    requires DistinctKeys(ms)
    ensures |KeySet(ms)| == |ms|
  {
    if ms != [] {
      var front := ms[..|ms| - 1];
      KeySetSize(front);
      assert forall i | 0 <= i < |front| :: front[i] == ms[i];
      assert KeySet(ms) == KeySet(front) + {ms[|ms| - 1].key};
    }
  }

  lemma KeysBounded(xs: seq<Member>, ys: seq<Member>)
    requires DistinctKeys(xs) && DistinctKeys(ys) && forall m | m in xs :: m in ys
    ensures |xs| <= |ys|
  {
    KeySetSize(xs);
    KeySetSize(ys);
    forall k | k in KeySet(xs) ensures k in KeySet(ys) {
      var i :| 0 <= i < |xs| && xs[i].key == k;
      assert xs[i] in ys;
    }
    SubsetSize(KeySet(xs), KeySet(ys));
  }

  /** An inclusion between equally long member lists with distinct keys is an equality. */
  lemma KeysCover(xs: seq<Member>, ys: seq<Member>)
    requires DistinctKeys(xs) && DistinctKeys(ys) && |xs| == |ys| && forall m | m in xs :: m in ys
    ensures SameMembers(xs, ys)
  {
    KeySetSize(xs);
    KeySetSize(ys);
    forall k | k in KeySet(xs) ensures k in KeySet(ys) {
      var i :| 0 <= i < |xs| && xs[i].key == k;
      assert xs[i] in ys;
    }
    SubsetOfSameSize(KeySet(xs), KeySet(ys));
    forall m | m in ys ensures m in xs {
      var j :| 0 <= j < |ys| && ys[j] == m;
      assert m.key in KeySet(ys);
      var i :| 0 <= i < |xs| && xs[i].key == m.key;
      assert xs[i] in ys;
    }
  }

  /** Normalizing twice is normalizing once. */
  lemma {:induction false} NormalizeIdempotent(v: Json)
    requires WellFormed(v)
    ensures WellFormed(Normalize(v)) && Defined(Normalize(v)) && Normalize(Normalize(v)) == Normalize(v)
    decreases v
  {
    match v
    case Arr(items) =>
      var ns := Normalize(v).items;
      forall i | 0 <= i < |items| ensures WellFormed(ns[i]) && Defined(ns[i]) && Normalize(ns[i]) == ns[i] {
        NormalizeIdempotent(items[i]);
      }
      assert Normalize(Arr(ns)).items == ns;
    case Obj(ms) => NormalizeIdempotentMembers(ms);
    case _ =>
  }

  lemma {:induction false} NormalizeIdempotentMembers(ms: seq<Member>)
    requires WellFormed(Obj(ms))
    ensures var n := Normalize(Obj(ms)); WellFormed(n) && Defined(n) && Normalize(n) == n
    decreases ms
  {
    var ns := NormalizeMembers(ms);
    var sorted := Sort(ns);
    forall i | 0 <= i < |ms|
      ensures WellFormed(ns[i].value) && Defined(ns[i].value) && Normalize(ns[i].value) == ns[i].value
    {
      NormalizeIdempotent(ms[i].value);
    }
    SortSorts(ns);
    forall i | 0 <= i < |sorted|
      ensures WellFormed(sorted[i].value) && Defined(sorted[i].value) && Normalize(sorted[i].value) == sorted[i].value
    {
      assert sorted[i] in multiset(ns);
    }
    forall i, j | 0 <= i < j < |sorted| ensures sorted[i].key != sorted[j].key {
      KeyTotal(sorted[i].key, sorted[i].key);
    }
    assert NormalizeMembers(sorted) == sorted;
    SortSorts(sorted);
    forall m ensures m in Sort(sorted) <==> m in sorted {
      assert m in Sort(sorted) <==> m in multiset(Sort(sorted));
    }
    SortedUnique(Sort(sorted), sorted);
  }

  predicate Defined(v: Json) {
    match v
    case Undefined => false
    case Arr(items) => forall i | 0 <= i < |items| :: Defined(items[i])
    case Obj(ms) => forall i | 0 <= i < |ms| :: Defined(ms[i].value)
    case _ => true
  }

  // ---- Infinities print as null ----

  /** The value with every infinity replaced by null. */
  function Nulled(v: Json): Json
    decreases v, 1
  {
    match v
    case NonFinite(_) => Null
    case Arr(items) => Arr(NulledItems(items))
    case Obj(ms) => Obj(NulledMembers(ms))
    case _ => v
  }

  function NulledItems(items: seq<Json>): (r: seq<Json>)
    ensures |r| == |items| && forall i | 0 <= i < |items| :: r[i] == Nulled(items[i])
    decreases items, 0
  {
    if items == [] then [] else [Nulled(items[0])] + NulledItems(items[1..])
  }

  function NulledMembers(ms: seq<Member>): (r: seq<Member>)
    ensures |r| == |ms| && forall i | 0 <= i < |ms| :: r[i] == Member(ms[i].key, Nulled(ms[i].value))
    decreases ms, 0
  {
    if ms == [] then [] else [Member(ms[0].key, Nulled(ms[0].value))] + NulledMembers(ms[1..])
  }

  lemma {:induction false} NulledIsWellFormed(v: Json)
    requires WellFormed(v)
    ensures WellFormed(Nulled(v)) && (Defined(v) ==> Printable(Nulled(v)))
    decreases v
  {
    match v
    case Arr(items) =>
      forall i | 0 <= i < |items|
        ensures WellFormed(Nulled(items[i])) && (Defined(items[i]) ==> Printable(Nulled(items[i])))
      {
        NulledIsWellFormed(items[i]);
      }
    case Obj(ms) =>
      forall i | 0 <= i < |ms|
        ensures WellFormed(Nulled(ms[i].value)) && (Defined(ms[i].value) ==> Printable(Nulled(ms[i].value)))
      {
        NulledIsWellFormed(ms[i].value);
      }
    case _ =>
  }

  lemma {:induction false} EmitNulled(v: Json, rest: string)
    ensures Emit(Nulled(v), rest) == Emit(v, rest)
    decreases v, 1
  {
    match v
    case Arr(items) => EmitItemsNulled(items, [']'] + rest);
    case Obj(ms) => EmitMembersNulled(ms, ['}'] + rest);
    case _ =>
  }

  lemma {:induction false} EmitItemsNulled(items: seq<Json>, rest: string)
    ensures EmitItems(NulledItems(items), rest) == EmitItems(items, rest)
    decreases items, 0
  {
    if items != [] {
      assert NulledItems(items)[1..] == NulledItems(items[1..]);
      EmitItemsNulled(items[1..], rest);
      EmitNulled(items[0], if |items| == 1 then rest else [','] + EmitItems(items[1..], rest));
    }
  }

  lemma {:induction false} EmitMembersNulled(ms: seq<Member>, rest: string)
    ensures EmitMembers(NulledMembers(ms), rest) == EmitMembers(ms, rest)
    decreases ms, 0
  {
    if ms != [] {
      assert NulledMembers(ms)[1..] == NulledMembers(ms[1..]);
      EmitMembersNulled(ms[1..], rest);
      EmitNulled(ms[0].value, if |ms| == 1 then rest else [','] + EmitMembers(ms[1..], rest));
    }
  }

  lemma {:induction false} InsertNulled(m: Member, ms: seq<Member>)
    ensures NulledMembers(Insert(m, ms)) == Insert(Member(m.key, Nulled(m.value)), NulledMembers(ms))
  {
    if ms != [] {
      assert NulledMembers(ms)[1..] == NulledMembers(ms[1..]);
      if !KeyLess(m.key, ms[0].key) { InsertNulled(m, ms[1..]); }
    }
  }

  lemma {:induction false} SortNulled(ms: seq<Member>)
    ensures NulledMembers(Sort(ms)) == Sort(NulledMembers(ms))
  {
    if ms != [] {
      assert NulledMembers(ms)[1..] == NulledMembers(ms[1..]);
      SortNulled(ms[1..]);
      InsertNulled(ms[0], Sort(ms[1..]));
    }
  }

  lemma {:induction false} NormalizeNulled(v: Json)
    ensures Nulled(Normalize(v)) == Normalize(Nulled(v))
    decreases v
  {
    match v
    case Arr(items) =>
      forall i | 0 <= i < |items| ensures Nulled(Normalize(items[i])) == Normalize(Nulled(items[i])) {
        NormalizeNulled(items[i]);
      }
      assert Nulled(Normalize(v)).items == Normalize(Nulled(v)).items;
    case Obj(ms) =>
      forall i | 0 <= i < |ms| ensures Nulled(Normalize(ms[i].value)) == Normalize(Nulled(ms[i].value)) {
        NormalizeNulled(ms[i].value);
      }
      assert NulledMembers(NormalizeMembers(ms)) == NormalizeMembers(NulledMembers(ms));
      SortNulled(NormalizeMembers(ms));
    case _ =>
  }

  /** A value as it can be printed: nothing undefined, no infinities. */
  predicate Printable(v: Json) {
    match v
    case Undefined => false
    case NonFinite(_) => false
    case Arr(items) => forall i | 0 <= i < |items| :: Printable(items[i])
    case Obj(ms) => forall i | 0 <= i < |ms| :: Printable(ms[i].value)
    case _ => true
  }

  // ---- The printed text determines the value ----

  /** What may follow a value inside its container, or after the whole text. */
  predicate Stops(r: string) { r == "" || r[0] == ',' || r[0] == ']' || r[0] == '}' }

  lemma AppendCancels(x: string, y: string, r: string, t: string)
    requires |x| == |y| && x + r == y + t
    ensures x == y && r == t
  {
    assert x == (x + r)[..|x|] && r == (x + r)[|x|..];
    assert y == (y + t)[..|y|] && t == (y + t)[|y|..];
  }

  lemma EscapePrefix(c: char, d: char, r: string, t: string)
    requires Escape(c) + r == Escape(d) + t
    ensures c == d && r == t
  {
    var x, y := Escape(c), Escape(d);
    assert (x + r)[0] == x[0] && (y + t)[0] == y[0];
    assert |x| > 1 ==> (x + r)[1] == x[1];
    assert |y| > 1 ==> (y + t)[1] == y[1];
    AppendCancels(x, y, r, t);
    if |x| == 6 {
      HexInjective(c as int / 16, d as int / 16);
      HexInjective(c as int % 16, d as int % 16);
      assert x[4] == y[4] && x[5] == y[5];
    }
  }

  lemma HexInjective(m: int, n: int)
    requires 0 <= m < 16 && 0 <= n < 16
    ensures HexDigit(m) == HexDigit(n) ==> m == n
  {}

  lemma EscapeNotQuote(c: char, r: string, t: string)
    ensures Escape(c) + r != ['\"'] + t
  {
    assert (Escape(c) + r)[0] == Escape(c)[0] && (['\"'] + t)[0] == '\"';
  }

  lemma {:induction false} EmitCharsPrefix(a: string, b: string, r: string, t: string)
    requires EmitChars(a, r) == EmitChars(b, t)
    ensures a == b && r == t
    decreases a
  {
    if a == "" && b == "" {
      AppendCancels(['\"'], ['\"'], r, t);
    } else if a == "" {
      EscapeNotQuote(b[0], EmitChars(b[1..], t), r);
    } else if b == "" {
      EscapeNotQuote(a[0], EmitChars(a[1..], r), t);
    } else {
      EscapePrefix(a[0], b[0], EmitChars(a[1..], r), EmitChars(b[1..], t));
      EmitCharsPrefix(a[1..], b[1..], r, t);
      assert a == [a[0]] + a[1..] && b == [b[0]] + b[1..];
    }
  }

  lemma EmitStringPrefix(a: string, b: string, r: string, t: string)
    requires EmitString(a, r) == EmitString(b, t)
    ensures a == b && r == t
  {
    AppendCancels(['\"'], ['\"'], EmitChars(a, r), EmitChars(b, t));
    EmitCharsPrefix(a, b, r, t);
  }

  predicate AllNumChars(a: string) { forall i | 0 <= i < |a| :: NumChar(a[i]) }

  lemma NumNotLonger(a: string, b: string, r: string, t: string)
    requires AllNumChars(b) && Stops(r) && a + r == b + t
    ensures |b| <= |a|
  {
    assert |a| < |b| ==> (b + t)[|a|] == b[|a|] && NumChar((b + t)[|a|]);
    assert |a| < |a + r| ==> (a + r)[|a|] == r[0] && !NumChar(r[0]);
    assert |a + r| == |b + t|;
  }

  lemma NumPrefix(a: string, b: string, r: string, t: string)
    requires AllNumChars(a) && AllNumChars(b) && Stops(r) && Stops(t) && a + r == b + t
    ensures a == b && r == t
  {
    NumNotLonger(a, b, r, t);
    NumNotLonger(b, a, t, r);
    AppendCancels(a, b, r, t);
  }

  /** The first character of a printed value tells its kind. */
  function Lead(v: Json): char
    requires Printable(v) && WellFormed(v)
  {
    match v
    case Null => 'n'
    case Bool(b) => if b then 't' else 'f'
    case Num(t) => t[0]
    case Str(_) => '\"'
    case Arr(_) => '['
    case Obj(_) => '{'
  }

  lemma EmitLead(v: Json, r: string)
    requires Printable(v) && WellFormed(v)
    ensures Emit(v, r) != "" && Emit(v, r)[0] == Lead(v)
  {}

  lemma LeadIsKind(a: Json, b: Json)
    requires Printable(a) && Printable(b) && WellFormed(a) && WellFormed(b) && Lead(a) == Lead(b)
    ensures a.Null? == b.Null? && a.Bool? == b.Bool? && a.Num? == b.Num?
    ensures a.Str? == b.Str? && a.Arr? == b.Arr? && a.Obj? == b.Obj?
    ensures a.Bool? ==> a == b
  {}

  /** A printed value can be read off the front of any text that continues with a delimiter. */
  lemma {:induction false} EmitPrefix(a: Json, b: Json, r: string, t: string)
    requires Printable(a) && Printable(b) && WellFormed(a) && WellFormed(b)
    requires Stops(r) && Stops(t) && Emit(a, r) == Emit(b, t)
    ensures a == b && r == t
    decreases a, 1
  {
    EmitLead(a, r);
    EmitLead(b, t);
    LeadIsKind(a, b);
    match a
    case Null => AppendCancels("null", "null", r, t);
    case Bool(x) => AppendCancels(if x then "true" else "false", if x then "true" else "false", r, t);
    case Num(x) => NumPrefix(x, b.text, r, t);
    case Str(s) => EmitStringPrefix(s, b.s, r, t);
    case Arr(xs) =>
      AppendCancels(['['], ['['], EmitItems(xs, [']'] + r), EmitItems(b.items, [']'] + t));
      EmitItemsPrefix(xs, b.items, r, t);
    case Obj(ms) =>
      AppendCancels(['{'], ['{'], EmitMembers(ms, ['}'] + r), EmitMembers(b.members, ['}'] + t));
      EmitMembersPrefix(ms, b.members, r, t);
  }

  lemma {:induction false} EmitItemsPrefix(xs: seq<Json>, ys: seq<Json>, r: string, t: string)
    requires Printable(Arr(xs)) && Printable(Arr(ys)) && WellFormed(Arr(xs)) && WellFormed(Arr(ys))
    requires EmitItems(xs, [']'] + r) == EmitItems(ys, [']'] + t)
    ensures xs == ys && r == t
    decreases xs, 0
  {
    if xs != [] { EmitLead(xs[0], if |xs| == 1 then [']'] + r else [','] + EmitItems(xs[1..], [']'] + r)); }
    if ys != [] { EmitLead(ys[0], if |ys| == 1 then [']'] + t else [','] + EmitItems(ys[1..], [']'] + t)); }
    if xs == [] && ys == [] {
      AppendCancels([']'], [']'], r, t);
    } else {
      var u := if |xs| == 1 then [']'] + r else [','] + EmitItems(xs[1..], [']'] + r);
      var w := if |ys| == 1 then [']'] + t else [','] + EmitItems(ys[1..], [']'] + t);
      EmitPrefix(xs[0], ys[0], u, w);
      if |xs| == 1 {
        AppendCancels([']'], [']'], r, t);
      } else {
        AppendCancels([','], [','], EmitItems(xs[1..], [']'] + r), EmitItems(ys[1..], [']'] + t));
        EmitItemsPrefix(xs[1..], ys[1..], r, t);
      }
      assert xs == [xs[0]] + xs[1..] && ys == [ys[0]] + ys[1..];
    }
  }

  lemma {:induction false} EmitMembersPrefix(xs: seq<Member>, ys: seq<Member>, r: string, t: string)
    requires Printable(Obj(xs)) && Printable(Obj(ys)) && WellFormed(Obj(xs)) && WellFormed(Obj(ys))
    requires EmitMembers(xs, ['}'] + r) == EmitMembers(ys, ['}'] + t)
    ensures xs == ys && r == t
    decreases xs, 0
  {
    assert xs != [] ==> EmitMembers(xs, ['}'] + r)[0] == '\"';
    assert ys != [] ==> EmitMembers(ys, ['}'] + t)[0] == '\"';
    if xs == [] && ys == [] {
      AppendCancels(['}'], ['}'], r, t);
    } else {
      var u := if |xs| == 1 then ['}'] + r else [','] + EmitMembers(xs[1..], ['}'] + r);
      var w := if |ys| == 1 then ['}'] + t else [','] + EmitMembers(ys[1..], ['}'] + t);
      var x, y := Emit(xs[0].value, u), Emit(ys[0].value, w);
      EmitStringPrefix(xs[0].key, ys[0].key, [':'] + x, [':'] + y);
      AppendCancels([':'], [':'], x, y);
      EmitPrefix(xs[0].value, ys[0].value, u, w);
      if |xs| == 1 {
        AppendCancels(['}'], ['}'], r, t);
      } else {
        AppendCancels([','], [','], EmitMembers(xs[1..], ['}'] + r), EmitMembers(ys[1..], ['}'] + t));
        EmitMembersPrefix(xs[1..], ys[1..], r, t);
      }
      assert xs == [xs[0]] + xs[1..] && ys == [ys[0]] + ys[1..];
    }
  }

  lemma SerializeIsNormalText(v: Json) returns (n: Json)
    requires WellFormed(v)
    ensures n == Normalize(Nulled(v)) && WellFormed(n) && Printable(n) && Serialize(v) == Emit(n, "")
  {
    NormalizeIdempotent(v);
    NulledIsWellFormed(Normalize(v));
    NormalizeNulled(v);
    EmitNulled(Normalize(v), "");
    n := Normalize(Nulled(v));
  }

  /**
   Two values have the same stable text exactly when they are equal up to key order at every depth, where every
   infinity counts as null.
   */
  lemma SerializeDecidesEquivalence(a: Json, b: Json)
    requires WellFormed(a) && WellFormed(b)
    ensures Serialize(a) == Serialize(b) <==> Equivalent(Nulled(a), Nulled(b))
  {
    var n := SerializeIsNormalText(a);
    var m := SerializeIsNormalText(b);
    NulledIsWellFormed(a);
    NulledIsWellFormed(b);
    NormalizeEquivalent(Nulled(a), Nulled(b));
    if Serialize(a) == Serialize(b) { EmitPrefix(n, m, "", ""); }
  }

  /** No infinity at any depth. */
  predicate Finite(v: Json) {
    match v
    case NonFinite(_) => false
    case Arr(items) => forall i | 0 <= i < |items| :: Finite(items[i])
    case Obj(ms) => forall i | 0 <= i < |ms| :: Finite(ms[i].value)
    case _ => true
  }

  lemma {:induction false} FiniteIsNulled(v: Json)
    ensures Finite(v) <==> Nulled(v) == v
    decreases v
  {
    match v
    case Arr(items) =>
      forall i | 0 <= i < |items| ensures Finite(items[i]) <==> Nulled(items[i]) == items[i] {
        FiniteIsNulled(items[i]);
      }
      assert NulledItems(items) == items <==> forall i | 0 <= i < |items| :: Nulled(items[i]) == items[i];
    case Obj(ms) =>
      forall i | 0 <= i < |ms| ensures Finite(ms[i].value) <==> Nulled(ms[i].value) == ms[i].value {
        FiniteIsNulled(ms[i].value);
      }
      assert NulledMembers(ms) == ms <==> forall i | 0 <= i < |ms| :: Nulled(ms[i].value) == ms[i].value;
    case _ =>
  }

  /** So values without infinities have the same text exactly when they are equal up to key order. */
  lemma FiniteTextDecides(a: Json, b: Json)
    requires WellFormed(a) && WellFormed(b) && Finite(a) && Finite(b)
    ensures Serialize(a) == Serialize(b) <==> Equivalent(a, b)
  {
    FiniteIsNulled(a);
    FiniteIsNulled(b);
    SerializeDecidesEquivalence(a, b);
  }

  /** An overflowing number and null have one text inside any object, though they are different values. */
  lemma OverflowReadsAsNull(key: string, negative: bool)
    ensures var a, b := Obj([Member(key, NonFinite(negative))]), Obj([Member(key, Null)]);
            WellFormed(a) && WellFormed(b) && Serialize(a) == Serialize(b) && !Equivalent(a, b)
  {
    var a, b := Obj([Member(key, NonFinite(negative))]), Obj([Member(key, Null)]);
    assert NulledMembers(a.members) == b.members == NulledMembers(b.members);
    SerializeDecidesEquivalence(a, b);
    assert Equivalent(Nulled(a), Nulled(b)) by {
      assert HasPartner(b.members[0], b.members) by { assert Equivalent(Null, b.members[0].value); }
    }
    assert !HasPartner(a.members[0], b.members);
  }
}
