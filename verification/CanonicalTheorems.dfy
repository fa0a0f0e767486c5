/** What canonical text identifies: two values have the same canonical text, and so the same digest input,
    exactly when they mean the same. */
module CanonicalTheorems {
  import opened Prelude
  import opened JsonText
  import opened JsonReader
  import opened KeyOrder
  import opened CanonicalJson

  const LOST: set<Str> := {PROTO}

  function MeaningOf(v: Json): Value { Meaning(v, LOST) }

  // ---------------------------------------------------------------------
  // The canonical form is well formed, and no member of it is undefined
  // ---------------------------------------------------------------------

  lemma {:induction false} CanonIsClean(v: Json)
    requires WellFormed(v)
    ensures Clean(Canon(v))
    decreases v
  {
    match v
    case Array(items) => CanonItemsClean(items);
    case Object(members) =>
      CanonMembersDistinct(members);
      SortMembersSorts(CanonMembers(members));
      SortedKeysDiffer(SortMembers(CanonMembers(members)));
      CanonMembersClean(members);
      var sorted := SortMembers(CanonMembers(members));
      assert forall i :: 0 <= i < |sorted| ==> sorted[i] in CanonMembers(members);
    case _ =>
  }

  lemma {:induction false} CanonItemsClean(items: seq<Json>)
    requires forall i :: 0 <= i < |items| ==> WellFormed(items[i])
    ensures forall i :: 0 <= i < |CanonItems(items)| ==> Clean(CanonItems(items)[i])
    decreases items
  {
    if |items| > 0 {
      CanonIsClean(items[0]);
      CanonItemsClean(items[1..]);
    }
  }

  lemma {:induction false} CanonMembersClean(members: seq<Member>)
    requires forall i :: 0 <= i < |members| && members[i].value.Some? ==> WellFormed(members[i].value.value)
    ensures forall m :: m in CanonMembers(members) ==> m.value.Some? && Clean(m.value.value)
    decreases members
  {
    if |members| > 0 {
      CanonMembersClean(members[1..]);
      if members[0].value.Some? {
        CanonIsClean(members[0].value.value);
      }
    }
  }

  // ---------------------------------------------------------------------
  // It means what the value means
  // ---------------------------------------------------------------------

  lemma {:induction false} CanonKeepsMeaning(v: Json)
    requires WellFormed(v)
    ensures MeaningOf(Canon(v)) == MeaningOf(v)
    decreases v
  {
    match v
    case Array(items) => CanonItemsKeepMeaning(items);
    case Object(members) =>
      forall i | 0 <= i < |members| && members[i].value.Some?
        ensures MeaningOf(Canon(members[i].value.value)) == MeaningOf(members[i].value.value)
      {
        CanonKeepsMeaning(members[i].value.value);
      }
      CanonMembersKeepMeaning(members);
    case _ =>
  }

  lemma {:induction false} CanonItemsKeepMeaning(items: seq<Json>)
    requires forall i :: 0 <= i < |items| ==> WellFormed(items[i])
    ensures ItemsMeaning(CanonItems(items), LOST) == ItemsMeaning(items, LOST)
    decreases items
  {
    if |items| > 0 {
      CanonKeepsMeaning(items[0]);
      CanonItemsKeepMeaning(items[1..]);
    }
  }

  lemma {:induction false} CanonMembersKeepMeaning(members: seq<Member>)
    requires DistinctKeys(members)
    requires forall i :: 0 <= i < |members| && members[i].value.Some? ==>
                           MeaningOf(Canon(members[i].value.value)) == MeaningOf(members[i].value.value)
    ensures MembersMeaning(SortMembers(CanonMembers(members)), LOST) == MembersMeaning(members, LOST)
  {
    var sorted := SortMembers(CanonMembers(members));
    CanonMembersDistinct(members);
    SortMembersSorts(CanonMembers(members));
    SortedKeysDiffer(sorted);
    var left, right := MembersMeaning(sorted, LOST), MembersMeaning(members, LOST);
    forall k | k in right ensures k in left && left[k] == right[k] {
      var item := MeaningOrigin(members, k, LOST);
      var i :| 0 <= i < |members| && members[i] == Member(k, Some(item));
      CanonHolds(members, k, item);
      MeaningHolds(sorted, k, Canon(item), LOST);
    }
    forall k | k in left ensures k in right {
      var kept := MeaningOrigin(sorted, k, LOST);
      var item := CanonOrigin(members, Member(k, Some(kept)));
      MeaningHolds(members, k, item, LOST);
    }
  }

  // ---------------------------------------------------------------------
  // Equal meanings have one canonical form
  // ---------------------------------------------------------------------

  lemma {:induction false} SameMeaningSameCanon(v: Json, w: Json)
    requires WellFormed(v) && WellFormed(w) && MeaningOf(v) == MeaningOf(w)
    ensures Canon(v) == Canon(w)
    decreases v
  {
    match v
    case Array(items) => SameItemsSameCanon(items, w.items);
    case Object(members) =>
      forall i, j | 0 <= i < |members| && members[i].value.Some? && 0 <= j < |w.members| && w.members[j].value.Some?
        && MeaningOf(members[i].value.value) == MeaningOf(w.members[j].value.value)
        ensures Canon(members[i].value.value) == Canon(w.members[j].value.value)
      {
        SameMeaningSameCanon(members[i].value.value, w.members[j].value.value);
      }
      SameMembersSameCanon(members, w.members);
    case _ =>
  }

  lemma {:induction false} SameItemsSameCanon(items: seq<Json>, others: seq<Json>)
    requires forall i :: 0 <= i < |items| ==> WellFormed(items[i])
    requires forall i :: 0 <= i < |others| ==> WellFormed(others[i])
    requires ItemsMeaning(items, LOST) == ItemsMeaning(others, LOST)
    ensures CanonItems(items) == CanonItems(others)
    decreases items
  {
    if |items| > 0 {
      var left, right := ItemsMeaning(items, LOST), ItemsMeaning(others, LOST);
      assert |others| > 0 && left[0] == right[0] && left[1..] == right[1..];
      SameMeaningSameCanon(items[0], others[0]);
      SameItemsSameCanon(items[1..], others[1..]);
    }
  }

  /** Canonical members of the one are canonical members of the other. */
  lemma {:induction false} CanonMembersCarryOver(members: seq<Member>, others: seq<Member>, m: Member)
    requires DistinctKeys(members) && DistinctKeys(others)
    requires MembersMeaning(members, LOST) == MembersMeaning(others, LOST)
    requires forall i, j :: 0 <= i < |members| && members[i].value.Some? && 0 <= j < |others| && others[j].value.Some?
               && MeaningOf(members[i].value.value) == MeaningOf(others[j].value.value)
               ==> Canon(members[i].value.value) == Canon(others[j].value.value)
    requires m in CanonMembers(members)
    ensures m in CanonMembers(others)
  {
    var item := CanonOrigin(members, m);
    MeaningHolds(members, m.key, item, LOST);
    var other := MeaningOrigin(others, m.key, LOST);
    var i :| 0 <= i < |members| && members[i] == Member(m.key, Some(item));
    var j :| 0 <= j < |others| && others[j] == Member(m.key, Some(other));
    CanonHolds(others, m.key, other);
  }

  lemma {:induction false} SameMembersSameCanon(members: seq<Member>, others: seq<Member>)
    requires DistinctKeys(members) && DistinctKeys(others)
    requires MembersMeaning(members, LOST) == MembersMeaning(others, LOST)
    requires forall i, j :: 0 <= i < |members| && members[i].value.Some? && 0 <= j < |others| && others[j].value.Some?
               && MeaningOf(members[i].value.value) == MeaningOf(others[j].value.value)
               ==> Canon(members[i].value.value) == Canon(others[j].value.value)
    ensures SortMembers(CanonMembers(members)) == SortMembers(CanonMembers(others))
  {
    forall m ensures m in CanonMembers(members) <==> m in CanonMembers(others) {
      if m in CanonMembers(members) { CanonMembersCarryOver(members, others, m); }
      if m in CanonMembers(others) { CanonMembersCarryOver(others, members, m); }
    }
    CanonMembersDistinct(members);
    CanonMembersDistinct(others);
    SortMembersSorts(CanonMembers(members));
    SortMembersSorts(CanonMembers(others));
    SortedIsUnique(SortMembers(CanonMembers(members)), SortMembers(CanonMembers(others)));
  }

  // ---------------------------------------------------------------------
  // The theorems
  // ---------------------------------------------------------------------

  /** Equal canonical texts are exactly equal meanings. */
  lemma CanonicalTextIsMeaning(v: Json, w: Json)
    requires WellFormed(v) && WellFormed(w)
    ensures CanonicalStringify(v) == CanonicalStringify(w) <==> MeaningOf(v) == MeaningOf(w)
  {
    if CanonicalStringify(v) == CanonicalStringify(w) {
      CanonIsClean(v);
      CanonIsClean(w);
      assert Text(Canon(v)) + [] == Text(Canon(w)) + [];
      Unambiguous(Canon(v), Canon(w), [], []);
      CanonKeepsMeaning(v);
      CanonKeepsMeaning(w);
    }
    if MeaningOf(v) == MeaningOf(w) {
      SameMeaningSameCanon(v, w);
    }
  }

  /** Every object, at every depth, lists its members in order. */
  ghost predicate InOrder(v: Json)
    decreases v
  {
    match v
    case Array(items) => forall i :: 0 <= i < |items| ==> InOrder(items[i])
    case Object(members) =>
      && (forall i, j :: 0 <= i < j < |members| ==> ComesBefore(members[i].key, members[j].key))
      && forall i :: 0 <= i < |members| && members[i].value.Some? ==> InOrder(members[i].value.value)
    case _ => true
  }

  lemma {:induction false} SortedMeansBefore(members: seq<Member>)
    requires Sorted(members)
    ensures forall i, j :: 0 <= i < j < |members| ==> ComesBefore(members[i].key, members[j].key)
  {
    if |members| > 0 {
      SortedMeansBefore(members[1..]);
      forall i, j | 0 <= i < j < |members| ensures ComesBefore(members[i].key, members[j].key) {
        if i == 0 {
          KeyOrderExactly(members[0].key, members[j].key);
        } else {
          assert members[1..][i - 1] == members[i] && members[1..][j - 1] == members[j];
        }
      }
    }
  }

  /** The text lists the members of every object in that order: array indices by number, then the others by the first
      code unit in which they differ. */
  lemma {:induction false} CanonicalTextIsInOrder(v: Json)
    requires WellFormed(v)
    ensures InOrder(Canon(v))
    decreases v
  {
    match v
    case Array(items) => ItemsInOrder(items);
    case Object(members) =>
      var kept := CanonMembers(members);
      CanonMembersDistinct(members);
      SortMembersSorts(kept);
      SortedMeansBefore(SortMembers(kept));
      MembersInOrder(members);
      assert forall i :: 0 <= i < |SortMembers(kept)| ==> SortMembers(kept)[i] in kept;
    case _ =>
  }

  lemma {:induction false} ItemsInOrder(items: seq<Json>)
    requires forall i :: 0 <= i < |items| ==> WellFormed(items[i])
    ensures forall i :: 0 <= i < |CanonItems(items)| ==> InOrder(CanonItems(items)[i])
    decreases items
  {
    if |items| > 0 {
      CanonicalTextIsInOrder(items[0]);
      ItemsInOrder(items[1..]);
    }
  }

  lemma {:induction false} MembersInOrder(members: seq<Member>)
    requires forall i :: 0 <= i < |members| && members[i].value.Some? ==> WellFormed(members[i].value.value)
    ensures forall m :: m in CanonMembers(members) && m.value.Some? ==> InOrder(m.value.value)
    decreases members
  {
    if |members| > 0 {
      if members[0].value.Some? {
        CanonicalTextIsInOrder(members[0].value.value);
      }
      MembersInOrder(members[1..]);
    }
  }

  /** The digest input, read back, is the canonical form. */
  lemma CanonicalTextReadsBack(v: Json)
    requires WellFormed(v)
    ensures ReadValue(CanonicalStringify(v)) == Some((Canon(v), []))
  {
    CanonIsClean(v);
    ReadsBack(Canon(v), []);
    assert Text(Canon(v)) + [] == Text(Canon(v));
  }

  /** Canonicalizing twice changes nothing more. */
  lemma CanonIsIdempotent(v: Json)
    requires WellFormed(v)
    ensures WellFormed(Canon(v)) && Canon(Canon(v)) == Canon(v)
  {
    CanonIsClean(v);
    CanonKeepsMeaning(v);
    SameMeaningSameCanon(Canon(v), v);
  }

  /** Members in any other order give the same text. */
  lemma MemberOrderIsIgnored(members: seq<Member>, shuffled: seq<Member>)
    requires WellFormed(Object(members)) && WellFormed(Object(shuffled))
    requires forall m :: m in members <==> m in shuffled
    ensures CanonicalStringify(Object(members)) == CanonicalStringify(Object(shuffled))
  {
    var left, right := MembersMeaning(members, LOST), MembersMeaning(shuffled, LOST);
    forall k | k in left ensures k in right && left[k] == right[k] {
      var item := MeaningOrigin(members, k, LOST);
      MeaningHolds(shuffled, k, item, LOST);
    }
    forall k | k in right ensures k in left {
      var item := MeaningOrigin(shuffled, k, LOST);
      MeaningHolds(members, k, item, LOST);
    }
    assert left == right;
    CanonicalTextIsMeaning(Object(members), Object(shuffled));
  }

  // ---------------------------------------------------------------------
  // Members named __proto__
  // ---------------------------------------------------------------------

  predicate NoProto(v: Json)
    decreases v
  {
    match v
    case Array(items) => forall i :: 0 <= i < |items| ==> NoProto(items[i])
    case Object(members) =>
      forall i :: 0 <= i < |members| && members[i].value.Some? ==>
                    members[i].key != PROTO && NoProto(members[i].value.value)
    case _ => true
  }

  lemma {:induction false} NothingIsLost(v: Json)
    requires NoProto(v)
    ensures Meaning(v, LOST) == Meaning(v, {})
    decreases v
  {
    match v
    case Array(items) => NoItemIsLost(items);
    case Object(members) => NoMemberIsLost(members);
    case _ =>
  }

  lemma {:induction false} NoItemIsLost(items: seq<Json>)
    requires forall i :: 0 <= i < |items| ==> NoProto(items[i])
    ensures ItemsMeaning(items, LOST) == ItemsMeaning(items, {})
    decreases items
  {
    if |items| > 0 {
      NothingIsLost(items[0]);
      NoItemIsLost(items[1..]);
    }
  }

  lemma {:induction false} NoMemberIsLost(members: seq<Member>)
    requires forall i :: 0 <= i < |members| && members[i].value.Some? ==>
                           members[i].key != PROTO && NoProto(members[i].value.value)
    ensures MembersMeaning(members, LOST) == MembersMeaning(members, {})
    decreases members
  {
    if |members| > 0 {
      if members[0].value.Some? {
        NothingIsLost(members[0].value.value);
      }
      NoMemberIsLost(members[1..]);
    }
  }

  /** Without members named `__proto__`, equal digest inputs are exactly equal values. */
  lemma CanonicalTextIsValue(v: Json, w: Json)
    requires WellFormed(v) && WellFormed(w) && NoProto(v) && NoProto(w)
    ensures CanonicalStringify(v) == CanonicalStringify(w) <==> Meaning(v, {}) == Meaning(w, {})
  {
    CanonicalTextIsMeaning(v, w);
    NothingIsLost(v);
    NothingIsLost(w);
  }

  /** A member named `__proto__` leaves no trace in the digest input. */
  lemma ProtoMemberIsUndigested(item: Json)
    requires WellFormed(item)
    ensures PROTO == Units("__proto__")
    ensures var v := Object([Member(PROTO, Some(item))]);
            && WellFormed(v)
            && CanonicalStringify(v) == CanonicalStringify(Object([]))
            && Meaning(v, {}) != Meaning(Object([]), {})
  {
    var members := [Member(PROTO, Some(item))];
    assert MembersMeaning(members[1..], {}) == map[];
    assert PROTO in MembersMeaning(members, {});
    assert CanonMembers(members) == CanonMembers(members[1..]) == [];
  }
}
