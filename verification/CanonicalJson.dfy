/** Canonical JSON, the input of every digest and signature (src/canonical-json.js). */
module CanonicalJson {
  import opened Prelude
  import opened JsonText
  import opened KeyOrder

  /** Assigning to `__proto__` sets a prototype and creates no member. */
  const PROTO: Str := [0x5F, 0x5F, 0x70, 0x72, 0x6F, 0x74, 0x6F, 0x5F, 0x5F]

  // ---------------------------------------------------------------------
  // Canonical form
  // ---------------------------------------------------------------------

  function Canon(v: Json): Json
    decreases v
  {
    match v
    case Array(items) => Array(CanonItems(items))
    case Object(members) => Object(SortMembers(CanonMembers(members)))
    case _ => v
  }

  function CanonItems(items: seq<Json>): (r: seq<Json>)
    decreases items
  {
    if |items| == 0 then [] else [Canon(items[0])] + CanonItems(items[1..])
  }

  function CanonMembers(members: seq<Member>): seq<Member>
    decreases members
  {
    if |members| == 0 then []
    else
      var rest := CanonMembers(members[1..]);
      if members[0].value.None? || members[0].key == PROTO then rest
      else [Member(members[0].key, Some(Canon(members[0].value.value)))] + rest
  }

  function CanonicalStringify(v: Json): Str { Text(Canon(v)) }

  // ---------------------------------------------------------------------
  // The method, as the source loops
  // ---------------------------------------------------------------------

  function InsertKey(key: Str, keys: seq<Str>): seq<Str> {
    if |keys| == 0 || Lex(key, keys[0]) then [key] + keys else [keys[0]] + InsertKey(key, keys[1..])
  }

  /** The keys of an object in code-unit order. */
  function SortedKeys(members: seq<Member>): seq<Str> {
    if |members| == 0 then [] else InsertKey(members[0].key, SortedKeys(members[1..]))
  }

  function ValueOf(members: seq<Member>, key: Str): Option<Json> {
    if |members| == 0 then None
    else if members[0].key == key then members[0].value
    else ValueOf(members[1..], key)
  }

  /** A new member takes its place in the object's own key order: an index by value, another key at the end. */
  function SetProperty(members: seq<Member>, key: Str, item: Json): seq<Member> {
    if key == PROTO then members
    else if IsIndex(key) then Insert(Member(key, Some(item)), members)
    else members + [Member(key, Some(item))]
  }

  method Canonicalize(v: Json) returns (r: Json)
    requires WellFormed(v)
    ensures r == Canon(v)
    decreases v
  {
    match v {
      case Array(items) =>
        var out: seq<Json> := [];
        for i := 0 to |items|
          invariant out + CanonItems(items[i..]) == CanonItems(items)
        {
          var item := Canonicalize(items[i]);
          out := out + [item];
        }
        r := Array(out);
      case Object(members) =>
        var keys := SortedKeys(members);
        var out: seq<Member> := [];
        for i := 0 to |keys|
          invariant TakenUpTo(members, keys, i, out)
        {
          SortedKeysAscend(members);
          assert keys[i] in keys;
          ValueOfFinds(members, keys[i]);
          TakesNext(members, keys, i, out);
          var item := ValueOf(members, keys[i]);
          if item.Some? {
            var kept := Canonicalize(item.value);
            out := SetProperty(out, keys[i], kept);
          }
        }
        TakenAll(members, out);
        r := Object(out);
      case _ =>
        r := v;
    }
  }

  predicate LexAscending(keys: seq<Str>) {
    |keys| > 0 ==> LexAscending(keys[1..]) && forall i :: 1 <= i < |keys| ==> Lex(keys[0], keys[i])
  }

  lemma {:induction false} InsertKeyHolds(key: Str, keys: seq<Str>)
    ensures forall x :: x in InsertKey(key, keys) <==> x == key || x in keys
  {
    if |keys| > 0 && !Lex(key, keys[0]) {
      InsertKeyHolds(key, keys[1..]);
      assert keys == [keys[0]] + keys[1..];
    }
  }

  lemma {:induction false} InsertKeyAscends(key: Str, keys: seq<Str>)
    requires LexAscending(keys) && key !in keys
    ensures LexAscending(InsertKey(key, keys))
  {
    if |keys| > 0 {
      var result := InsertKey(key, keys);
      LexTrichotomy(key, keys[0]);
      if Lex(key, keys[0]) {
        forall i | 1 <= i < |result| ensures Lex(key, result[i]) {
          if i > 1 {
            LexTransitive(key, keys[0], keys[i - 1]);
          }
        }
      } else {
        InsertKeyAscends(key, keys[1..]);
        InsertKeyHolds(key, keys[1..]);
        forall i | 1 <= i < |result| ensures Lex(keys[0], result[i]) {
          assert result[i] in InsertKey(key, keys[1..]);
        }
      }
    }
  }

  lemma {:induction false} SortedKeysAscend(members: seq<Member>)
    requires DistinctKeys(members)
    ensures LexAscending(SortedKeys(members))
    ensures forall k :: k in SortedKeys(members) <==> exists i :: 0 <= i < |members| && members[i].key == k
  {
    if |members| > 0 {
      var rest := members[1..];
      SortedKeysAscend(rest);
      InsertKeyAscends(members[0].key, SortedKeys(rest));
      InsertKeyHolds(members[0].key, SortedKeys(rest));
      forall k ensures k in SortedKeys(members) <==> exists i :: 0 <= i < |members| && members[i].key == k {
        if i :| 0 <= i < |rest| && rest[i].key == k {
          assert members[i + 1].key == k;
        }
        if i :| 1 <= i < |members| && members[i].key == k {
          assert rest[i - 1].key == k;
        }
      }
    }
  }

  lemma {:induction false} LexAscendingAt(keys: seq<Str>, i: nat)
    requires LexAscending(keys) && i < |keys|
    ensures forall k :: k in keys[..i] ==> Lex(k, keys[i])
  {
    if i > 0 {
      LexAscendingAt(keys[1..], i - 1);
      assert keys[1..][..i - 1] == keys[1..i] && keys[..i] == [keys[0]] + keys[1..i];
    }
  }

  lemma {:induction false} ValueOfFinds(members: seq<Member>, key: Str)
    requires DistinctKeys(members) && exists i :: 0 <= i < |members| && members[i].key == key
    ensures Member(key, ValueOf(members, key)) in members
    ensures ValueOf(members, key).Some? ==>
              exists i :: 0 <= i < |members| && members[i].value == ValueOf(members, key)
    ensures forall m :: m in members && m.key == key ==> m.value == ValueOf(members, key)
  {
    assert members == [members[0]] + members[1..];
    if members[0].key != key {
      ValueOfFinds(members[1..], key);
    }
  }

  /** Where a canonical member comes from. */
  lemma {:induction false} CanonOrigin(members: seq<Member>, m: Member) returns (item: Json)
    requires m in CanonMembers(members)
    ensures Member(m.key, Some(item)) in members && m.key != PROTO && m.value == Some(Canon(item))
  {
    assert members == [members[0]] + members[1..];
    if m in CanonMembers(members[1..]) {
      item := CanonOrigin(members[1..], m);
    } else {
      item := members[0].value.value;
    }
  }

  lemma {:induction false} CanonHolds(members: seq<Member>, key: Str, item: Json)
    requires Member(key, Some(item)) in members && key != PROTO
    ensures Member(key, Some(Canon(item))) in CanonMembers(members)
  {
    assert members == [members[0]] + members[1..];
    if members[0] != Member(key, Some(item)) {
      CanonHolds(members[1..], key, item);
    }
  }

  lemma {:induction false} CanonMembersDistinct(members: seq<Member>)
    requires DistinctKeys(members)
    ensures DistinctKeys(CanonMembers(members))
  {
    if |members| > 0 {
      var rest := CanonMembers(members[1..]);
      CanonMembersDistinct(members[1..]);
      forall m | m in rest ensures m.key != members[0].key {
        var item := CanonOrigin(members[1..], m);
        var i :| 0 <= i < |members[1..]| && members[1..][i] == Member(m.key, Some(item));
        assert members[i + 1].key == m.key;
      }
      forall j | 0 <= j < |rest| ensures rest[j].key != members[0].key {
        assert rest[j] in rest;
      }
    }
  }

  lemma {:induction false} AppendKeepsSorted(members: seq<Member>, m: Member)
    requires Sorted(members) && forall x :: x in members ==> KeyLess(x.key, m.key)
    ensures Sorted(members + [m])
  {
    if |members| > 0 {
      assert members == [members[0]] + members[1..];
      AppendKeepsSorted(members[1..], m);
      assert (members + [m])[1..] == members[1..] + [m];
    }
  }

  /** Taking the keys in code-unit order, each new member lands where the own-key order wants it. */
  lemma SetPropertyKeepsSorted(out: seq<Member>, key: Str, item: Json)
    requires Sorted(out) && forall m :: m in out ==> Lex(m.key, key)
    ensures Sorted(SetProperty(out, key, item))
    ensures forall m :: m in SetProperty(out, key, item) <==> m in out || (key != PROTO && m == Member(key, Some(item)))
  {
    LexTrichotomy(key, key);
    if IsIndex(key) {
      InsertKeepsSorted(Member(key, Some(item)), out);
      InsertHolds(Member(key, Some(item)), out);
    } else {
      AppendKeepsSorted(out, Member(key, Some(item)));
    }
  }

  ghost predicate TakenUpTo(members: seq<Member>, keys: seq<Str>, i: nat, out: seq<Member>)
    requires i <= |keys|
  {
    && Sorted(out)
    && forall m :: m in out <==> m in CanonMembers(members) && m.key in keys[..i]
  }

  /** The canonical members under one key. */
  lemma CanonUnderKey(members: seq<Member>, key: Str, m: Member)
    requires DistinctKeys(members) && exists i :: 0 <= i < |members| && members[i].key == key
    requires m.key == key
    ensures m in CanonMembers(members) <==>
              key != PROTO && ValueOf(members, key).Some? && m.value == Some(Canon(ValueOf(members, key).value))
  {
    ValueOfFinds(members, key);
    if m in CanonMembers(members) {
      var item := CanonOrigin(members, m);
      assert Member(key, Some(item)) in members;
    }
    if key != PROTO && ValueOf(members, key).Some? {
      CanonHolds(members, key, ValueOf(members, key).value);
    }
  }

  lemma TakesNext(members: seq<Member>, keys: seq<Str>, i: nat, out: seq<Member>)
    requires DistinctKeys(members) && keys == SortedKeys(members) && i < |keys|
    requires TakenUpTo(members, keys, i, out)
    ensures ValueOf(members, keys[i]).Some? ==>
              TakenUpTo(members, keys, i + 1, SetProperty(out, keys[i], Canon(ValueOf(members, keys[i]).value)))
    ensures ValueOf(members, keys[i]).None? ==> TakenUpTo(members, keys, i + 1, out)
  {
    var key := keys[i];
    SortedKeysAscend(members);
    LexAscendingAt(keys, i);
    assert key in keys && keys[..i + 1] == keys[..i] + [key];
    forall m: Member | m.key == key
      ensures m in CanonMembers(members) <==>
                key != PROTO && ValueOf(members, key).Some? && m.value == Some(Canon(ValueOf(members, key).value))
    {
      CanonUnderKey(members, key, m);
    }
    if ValueOf(members, key).Some? {
      SetPropertyKeepsSorted(out, key, Canon(ValueOf(members, key).value));
    }
  }

  lemma AllKeysTaken(members: seq<Member>, m: Member)
    requires DistinctKeys(members) && m in CanonMembers(members)
    ensures m.key in SortedKeys(members)
  {
    SortedKeysAscend(members);
    var item := CanonOrigin(members, m);
    var i :| 0 <= i < |members| && members[i] == Member(m.key, Some(item));
  }

  lemma TakenAll(members: seq<Member>, out: seq<Member>)
    requires DistinctKeys(members) && TakenUpTo(members, SortedKeys(members), |SortedKeys(members)|, out)
    ensures out == SortMembers(CanonMembers(members))
  {
    var keys := SortedKeys(members);
    assert keys[..|keys|] == keys;
    forall m | m in CanonMembers(members) ensures m.key in keys {
      AllKeysTaken(members, m);
    }
    CanonMembersDistinct(members);
    SortMembersSorts(CanonMembers(members));
    SortedIsUnique(out, SortMembers(CanonMembers(members)));
  }

  // ---------------------------------------------------------------------
  // What a value means
  // ---------------------------------------------------------------------

  datatype Value =
    | VNull
    | VBool(value: bool)
    | VNumber(digits: Str)
    | VString(text: Str)
    | VArray(items: seq<Value>)
    | VObject(members: map<Str, Value>)

  /** A value apart from the order of members, `undefined` members and members named in `lost`. */
  function Meaning(v: Json, lost: set<Str>): Value
    decreases v
  {
    match v
    case Null => VNull
    case Bool(b) => VBool(b)
    case Number(digits) => VNumber(digits)
    case String(text) => VString(text)
    case Array(items) => VArray(ItemsMeaning(items, lost))
    case Object(members) => VObject(MembersMeaning(members, lost))
  }

  function ItemsMeaning(items: seq<Json>, lost: set<Str>): seq<Value>
    decreases items
  {
    if |items| == 0 then [] else [Meaning(items[0], lost)] + ItemsMeaning(items[1..], lost)
  }

  function MembersMeaning(members: seq<Member>, lost: set<Str>): map<Str, Value>
    decreases members
  {
    if |members| == 0 then map[]
    else
      var rest := MembersMeaning(members[1..], lost);
      if members[0].value.None? || members[0].key in lost then rest
      else rest[members[0].key := Meaning(members[0].value.value, lost)]
  }

  lemma {:induction false} MeaningHolds(members: seq<Member>, key: Str, item: Json, lost: set<Str>)
    requires DistinctKeys(members) && Member(key, Some(item)) in members && key !in lost
    ensures key in MembersMeaning(members, lost) && MembersMeaning(members, lost)[key] == Meaning(item, lost)
  {
    assert members == [members[0]] + members[1..];
    if members[0] != Member(key, Some(item)) {
      var i :| 1 <= i < |members| && members[i] == Member(key, Some(item));
      assert members[1..][i - 1] == Member(key, Some(item));
      MeaningHolds(members[1..], key, item, lost);
    }
  }

  lemma {:induction false} MeaningOrigin(members: seq<Member>, key: Str, lost: set<Str>) returns (item: Json)
    requires DistinctKeys(members) && key in MembersMeaning(members, lost)
    ensures Member(key, Some(item)) in members && key !in lost
    ensures MembersMeaning(members, lost)[key] == Meaning(item, lost)
  {
    assert members == [members[0]] + members[1..];
    if members[0].key == key && members[0].value.Some? && key !in lost {
      item := members[0].value.value;
    } else {
      item := MeaningOrigin(members[1..], key, lost);
    }
  }
}
