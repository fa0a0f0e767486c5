/** The order in which a JavaScript object lists its own keys, and lists of members sorted by it. */
module KeyOrder {
  import opened JsonText

  /** Code-unit order, the order of Array.prototype.sort on strings. */
  predicate Lex(a: Str, b: Str) {
    |b| > 0 && (|a| == 0 || a[0] < b[0] || (a[0] == b[0] && Lex(a[1..], b[1..])))
  }

  /** 4294967295, one more than the largest array index. */
  const INDEX_LIMIT: Str := [0x34, 0x32, 0x39, 0x34, 0x39, 0x36, 0x37, 0x32, 0x39, 0x35]

  predicate IsIndex(key: Str) {
    && |key| > 0
    && (forall i :: 0 <= i < |key| ==> IsDigit(key[i]))
    && (key[0] == 0x30 ==> |key| == 1)
    && (|key| < |INDEX_LIMIT| || (|key| == |INDEX_LIMIT| && Lex(key, INDEX_LIMIT)))
  }

  /** Array indices come first, by value; the other keys follow in code-unit order. */
  predicate KeyLess(a: Str, b: Str) {
    if IsIndex(a) != IsIndex(b) then IsIndex(a)
    else if IsIndex(a) && |a| != |b| then |a| < |b|
    else Lex(a, b)
  }

  lemma {:induction false} LexTrichotomy(a: Str, b: Str)
    ensures Lex(a, b) || a == b || Lex(b, a)
    ensures !(Lex(a, b) && Lex(b, a)) && !Lex(a, a)
  {
    if |a| > 0 && |b| > 0 && a[0] == b[0] {
      LexTrichotomy(a[1..], b[1..]);
      assert a == [a[0]] + a[1..] && b == [b[0]] + b[1..];
    }
    if |a| > 0 {
      LexTrichotomy(a[1..], a[1..]);
    }
  }

  lemma {:induction false} LexTransitive(a: Str, b: Str, c: Str)
    requires Lex(a, b) && Lex(b, c)
    ensures Lex(a, c)
  {
    if |a| > 0 && a[0] == b[0] == c[0] {
      LexTransitive(a[1..], b[1..], c[1..]);
    }
  }

  lemma KeyTrichotomy(a: Str, b: Str)
    ensures KeyLess(a, b) || a == b || KeyLess(b, a)
    ensures !(KeyLess(a, b) && KeyLess(b, a)) && !KeyLess(a, a)
  {
    LexTrichotomy(a, b);
  }

  lemma KeyTransitive(a: Str, b: Str, c: Str)
    requires KeyLess(a, b) && KeyLess(b, c)
    ensures KeyLess(a, c)
  {
    if Lex(a, b) && Lex(b, c) {
      LexTransitive(a, b, c);
    }
  }

  // ---------------------------------------------------------------------
  // What the order means
  // ---------------------------------------------------------------------

  /** `a` ends, or has the smaller unit, where the two first differ. */
  predicate DiffersAt(a: Str, b: Str, i: nat) {
    && i <= |a| && i < |b| && a[..i] == b[..i]
    && (i == |a| || a[i] < b[i])
  }

  lemma DifferLater(a: Str, b: Str)
    ensures forall i: nat :: i > 0 && DiffersAt(a, b, i) ==> |a| > 0 && a[0] == b[0]
  {
    forall i: nat | i > 0 && DiffersAt(a, b, i) ensures |a| > 0 && a[0] == b[0] {
      assert a[0] == a[..i][0] && b[0] == b[..i][0];
    }
  }

  lemma {:induction false} LexIsFirstDifference(a: Str, b: Str)
    ensures Lex(a, b) <==> exists i: nat :: DiffersAt(a, b, i)
  {
    if |a| > 0 && |b| > 0 && a[0] == b[0] {
      LexIsFirstDifference(a[1..], b[1..]);
      if i: nat :| DiffersAt(a[1..], b[1..], i) {
        assert a[..i + 1] == [a[0]] + a[1..][..i] && b[..i + 1] == [b[0]] + b[1..][..i];
        assert DiffersAt(a, b, i + 1);
      }
      if i: nat :| DiffersAt(a, b, i) {
        assert i > 0 && a[1..][..i - 1] == a[..i][1..] && b[1..][..i - 1] == b[..i][1..];
        assert DiffersAt(a[1..], b[1..], i - 1);
      }
    } else if Lex(a, b) {
      assert DiffersAt(a, b, 0);
    } else {
      DifferLater(a, b);
    }
  }

  function Pow10(n: nat): (p: nat)
    ensures p >= 1
  {
    if n == 0 then 1 else 10 * Pow10(n - 1)
  }

  predicate Decimal(s: Str) { forall i :: 0 <= i < |s| ==> IsDigit(s[i]) }

  /** The number a string of digits writes. */
  function NumberOf(s: Str): nat
    requires Decimal(s)
  {
    if |s| == 0 then 0 else Digit(s[0]) * Pow10(|s| - 1) + NumberOf(s[1..])
  }

  function Digit(u: Unit): nat
    requires IsDigit(u)
  {
    u as int - 0x30
  }

  lemma Times(d: int, e: int, p: nat)
    requires d <= e
    ensures d * p <= e * p
  {
  }

  lemma Weigh(d: nat, p: nat, r: nat)
    requires r < p && d <= 9
    ensures d * p + r < 10 * p && (d >= 1 ==> d * p + r >= p)
  {
    Times(d, 9, p);
    if d >= 1 {
      Times(1, d, p);
    }
  }

  lemma SmallerDigit(d: nat, e: nat, p: nat, r: nat, q: nat)
    requires d < e && r < p
    ensures d * p + r < e * p + q
  {
    Times(d + 1, e, p);
    assert (d + 1) * p == d * p + p;
  }

  lemma {:induction false} NumberInRange(s: Str)
    requires Decimal(s)
    ensures NumberOf(s) < Pow10(|s|)
    ensures |s| > 0 && s[0] != 0x30 ==> NumberOf(s) >= Pow10(|s| - 1)
  {
    if |s| > 0 {
      NumberInRange(s[1..]);
      Weigh(Digit(s[0]), Pow10(|s| - 1), NumberOf(s[1..]));
    }
  }

  /** Among numbers of equal length, code-unit order is the order of the numbers. */
  lemma {:induction false} LexComparesNumbers(a: Str, b: Str)
    requires Decimal(a) && Decimal(b) && |a| == |b|
    ensures Lex(a, b) <==> NumberOf(a) < NumberOf(b)
    ensures NumberOf(a) == NumberOf(b) ==> a == b
  {
    if |a| > 0 {
      var p, r, q := Pow10(|a| - 1), NumberOf(a[1..]), NumberOf(b[1..]);
      LexComparesNumbers(a[1..], b[1..]);
      NumberInRange(a[1..]);
      NumberInRange(b[1..]);
      if Digit(a[0]) < Digit(b[0]) { SmallerDigit(Digit(a[0]), Digit(b[0]), p, r, q); }
      if Digit(b[0]) < Digit(a[0]) { SmallerDigit(Digit(b[0]), Digit(a[0]), p, q, r); }
      assert a == [a[0]] + a[1..] && b == [b[0]] + b[1..];
    }
  }

  lemma {:induction false} Pow10Grows(m: nat, n: nat)
    requires m <= n
    ensures Pow10(m) <= Pow10(n)
  {
    if m < n {
      Pow10Grows(m, n - 1);
    }
  }

  /** A number written without needless zeros. */
  predicate Numeral(s: Str) {
    |s| > 0 && Decimal(s) && (s[0] == 0x30 ==> |s| == 1)
  }

  lemma LongerIsLarger(a: Str, b: Str)
    requires Numeral(a) && Numeral(b) && |a| < |b|
    ensures NumberOf(a) < NumberOf(b)
  {
    NumberInRange(a);
    NumberInRange(b);
    Pow10Grows(|a|, |b| - 1);
  }

  lemma NumberOfSuffix(s: Str, k: nat)
    requires Decimal(s) && k < |s|
    ensures NumberOf(s[k..]) == Digit(s[k]) * Pow10(|s| - k - 1) + NumberOf(s[k + 1..])
  {
    assert s[k..][1..] == s[k + 1..];
  }

  lemma PowersOfTen()
    ensures Pow10(0) == 1 && Pow10(1) == 10 && Pow10(2) == 100 && Pow10(3) == 1000 && Pow10(4) == 10000
    ensures Pow10(5) == 100000 && Pow10(6) == 1000000 && Pow10(7) == 10000000 && Pow10(8) == 100000000
    ensures Pow10(9) == 1000000000
  {
    assert Pow10(3) == 1000;
    assert Pow10(6) == 1000000;
  }

  lemma LastFive(s: Str)
    requires |s| == 10 && Decimal(s)
    requires s[5] == 0x36 && s[6] == 0x37 && s[7] == 0x32 && s[8] == 0x39 && s[9] == 0x35
    ensures NumberOf(s[5..]) == 67295
  {
    PowersOfTen();
    NumberOfSuffix(s, 9);
    NumberOfSuffix(s, 8);
    NumberOfSuffix(s, 7);
    NumberOfSuffix(s, 6);
    NumberOfSuffix(s, 5);
  }

  lemma FirstFive(s: Str)
    requires |s| == 10 && Decimal(s) && NumberOf(s[5..]) == 67295
    requires s[0] == 0x34 && s[1] == 0x32 && s[2] == 0x39 && s[3] == 0x34 && s[4] == 0x39
    ensures NumberOf(s) == 4294967295
  {
    PowersOfTen();
    assert s[0..] == s;
    NumberOfSuffix(s, 4);
    NumberOfSuffix(s, 3);
    NumberOfSuffix(s, 2);
    NumberOfSuffix(s, 1);
    NumberOfSuffix(s, 0);
  }

  lemma IndexLimitIs()
    ensures Numeral(INDEX_LIMIT) && NumberOf(INDEX_LIMIT) == 4294967295
  {
    LastFive(INDEX_LIMIT);
    FirstFive(INDEX_LIMIT);
  }

  /** An array index is a numeral of less than 2^32 - 1. */
  lemma IndexExactly(key: Str)
    ensures IsIndex(key) <==> Numeral(key) && NumberOf(key) < 0xFFFF_FFFF
  {
    IndexLimitIs();
    if Numeral(key) {
      if |key| == |INDEX_LIMIT| {
        LexComparesNumbers(key, INDEX_LIMIT);
      } else if |key| < |INDEX_LIMIT| {
        LongerIsLarger(key, INDEX_LIMIT);
      } else {
        LongerIsLarger(INDEX_LIMIT, key);
      }
    }
  }

  /** `a` comes before `b`: indices by number, ahead of all other keys, and those by the first unit that differs. */
  ghost predicate ComesBefore(a: Str, b: Str) {
    if IsArrayIndex(a) && IsArrayIndex(b) then NumberOf(a) < NumberOf(b)
    else if IsArrayIndex(a) || IsArrayIndex(b) then IsArrayIndex(a)
    else exists i: nat :: DiffersAt(a, b, i)
  }

  predicate IsArrayIndex(key: Str) {
    Numeral(key) && NumberOf(key) < 0xFFFF_FFFF
  }

  lemma KeyOrderExactly(a: Str, b: Str)
    ensures KeyLess(a, b) <==> ComesBefore(a, b)
  {
    IndexExactly(a);
    IndexExactly(b);
    LexIsFirstDifference(a, b);
    if IsIndex(a) && IsIndex(b) {
      if |a| == |b| {
        LexComparesNumbers(a, b);
      } else if |a| < |b| {
        LongerIsLarger(a, b);
      } else {
        LongerIsLarger(b, a);
      }
    }
  }

  // ---------------------------------------------------------------------
  // Sorted members
  // ---------------------------------------------------------------------

  predicate Sorted(members: seq<Member>) {
    |members| > 0 ==>
      && Sorted(members[1..])
      && forall i :: 1 <= i < |members| ==> KeyLess(members[0].key, members[i].key)
  }

  function Insert(m: Member, members: seq<Member>): seq<Member> {
    if |members| == 0 || KeyLess(m.key, members[0].key) then [m] + members
    else [members[0]] + Insert(m, members[1..])
  }

  function SortMembers(members: seq<Member>): seq<Member> {
    if |members| == 0 then [] else Insert(members[0], SortMembers(members[1..]))
  }

  lemma {:induction false} InsertHolds(m: Member, members: seq<Member>)
    ensures forall x :: x in Insert(m, members) <==> x == m || x in members
  {
    if |members| > 0 && !KeyLess(m.key, members[0].key) {
      InsertHolds(m, members[1..]);
      assert members == [members[0]] + members[1..];
    }
  }

  predicate LacksKey(members: seq<Member>, key: Str) {
    forall m :: m in members ==> m.key != key
  }

  lemma {:induction false} InsertKeepsSorted(m: Member, members: seq<Member>)
    requires Sorted(members) && LacksKey(members, m.key)
    ensures Sorted(Insert(m, members))
  {
    var result := Insert(m, members);
    if |members| > 0 {
      var head := members[0];
      assert head in members && head.key != m.key;
      if KeyLess(m.key, head.key) {
        forall i | 1 <= i < |result| ensures KeyLess(m.key, result[i].key) {
          if i > 1 {
            KeyTransitive(m.key, head.key, members[i - 1].key);
          }
        }
      } else {
        KeyTrichotomy(m.key, head.key);
        InsertKeepsSorted(m, members[1..]);
        InsertHolds(m, members[1..]);
        forall i | 1 <= i < |result| ensures KeyLess(head.key, result[i].key) {
          assert result[i] in Insert(m, members[1..]);
        }
      }
    }
  }

  /** Sorting keeps exactly the members, in order. */
  lemma {:induction false} SortMembersSorts(members: seq<Member>)
    requires DistinctKeys(members)
    ensures Sorted(SortMembers(members))
    ensures forall x :: x in SortMembers(members) <==> x in members
  {
    if |members| > 0 {
      var rest := members[1..];
      SortMembersSorts(rest);
      assert members == [members[0]] + rest;
      assert LacksKey(SortMembers(rest), members[0].key);
      InsertKeepsSorted(members[0], SortMembers(rest));
      InsertHolds(members[0], SortMembers(rest));
    }
  }

  lemma HeadIsLeast(a: seq<Member>, b: seq<Member>)
    requires Sorted(a) && Sorted(b) && |a| > 0 && |b| > 0
    requires forall x :: x in a <==> x in b
    ensures a[0] == b[0]
  {
    assert a[0] in b && b[0] in a;
    KeyTrichotomy(a[0].key, b[0].key);
  }

  lemma TailLacksHead(a: seq<Member>)
    requires Sorted(a) && |a| > 0
    ensures a[0] !in a[1..]
  {
    KeyTrichotomy(a[0].key, a[0].key);
  }

  lemma Inhabited(members: seq<Member>)
    ensures |members| > 0 ==> exists x :: x in members
  {
    if |members| > 0 {
      assert members[0] in members;
    }
  }

  /** There is only one sorted list of the same members. */
  lemma {:induction false} SortedIsUnique(a: seq<Member>, b: seq<Member>)
    requires Sorted(a) && Sorted(b) && forall x :: x in a <==> x in b
    ensures a == b
  {
    Inhabited(b);
    if |a| > 0 {
      assert a[0] in b;
      HeadIsLeast(a, b);
      TailLacksHead(a);
      TailLacksHead(b);
      assert a == [a[0]] + a[1..] && b == [b[0]] + b[1..];
      assert forall x :: x in a <==> x == a[0] || x in a[1..];
      assert forall x :: x in b <==> x == a[0] || x in b[1..];
      SortedIsUnique(a[1..], b[1..]);
    }
  }

  lemma {:induction false} SortedKeysDiffer(members: seq<Member>)
    requires Sorted(members)
    ensures DistinctKeys(members)
  {
    if |members| > 0 {
      SortedKeysDiffer(members[1..]);
      forall j | 1 <= j < |members| ensures members[0].key != members[j].key {
        KeyTrichotomy(members[0].key, members[j].key);
      }
      forall i, j | 0 <= i < j < |members| ensures members[i].key != members[j].key {
        assert i > 0 ==> members[1..][i - 1].key != members[1..][j - 1].key;
      }
    }
  }
}
