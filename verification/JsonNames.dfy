/** The member names that table keys get, and what an encoded table looks like. */
module JsonNames {
  import opened ByteStrings
  import opened JsonTrees

  // --- integers, read back ---

  // A decimal: a '-' for a negative number, then digits with no zero in front.
  predicate IsDecimal(name: Bytes, i: int) {
    if i < 0 then name != [] && name[0] == '-' && IsNumeral(name[1..], -i) else IsNumeral(name, i)
  }

  predicate IsNumeral(digits: Bytes, n: nat) {
    && digits != [] && (digits[0] == '0' ==> |digits| == 1)
    && (forall k | 0 <= k < |digits| :: '0' <= digits[k] <= '9')
    && Decimal(digits) == n
  }

  lemma {:induction false} NumeralIsRead(n: nat)
    ensures IsNumeral(Numeral(n), n)
    ensures n > 0 ==> Numeral(n)[0] != '0'
    decreases n
  {
    var s := Numeral(n);
    if n >= 10 {
      NumeralIsRead(n / 10);
      assert s[0] == Numeral(n / 10)[0];
    }
  }

  /** The name of an integer key is its decimal. */
  lemma IntegerName(i: int)
    ensures IsDecimal(Name(IntKey(i)), i)
  {
    NumeralIsRead(if i < 0 then -i else i);
    if i < 0 { assert (['-'] + Numeral(-i))[1..] == Numeral(-i); }
    hide Numeral, IsNumeral;
  }

  // --- what an encoded table looks like ---

  /** What each value that is not a table becomes: a function, a userdata or a thread becomes null. */
  lemma ScalarsEncode(j: Json, i: int, n: nat, s: Bytes)
    ensures Encodes(Nil, j) <==> j == Null
    ensures Encodes(Boolean(true), j) <==> j == Bool(true)
    ensures Encodes(Boolean(false), j) <==> j == Bool(false)
    ensures Encodes(Integer(i), j) <==> j == Int(i)
    ensures Encodes(Number(n), j) <==> j == Float(n)
    ensures Encodes(String(s), j) <==> j == Str(s)
    ensures Encodes(Other(n), j) <==> j == Null
  {}

  /** What each value that is not a container is pushed as. */
  lemma ScalarsPush(i: int, n: nat, s: Bytes, whole: bool)
    ensures Pushed(Null, whole) == Nil
    ensures Pushed(Bool(true), whole) == Boolean(true) && Pushed(Bool(false), whole) == Boolean(false)
    ensures Pushed(Float(n), whole) == Number(n)
    ensures Pushed(Str(s), true) == String(s)
    ensures '\0' !in s ==> Pushed(Str(s), false) == String(s)
    ensures -0x8000_0000_0000_0000 <= i < 0x8000_0000_0000_0000 ==> Pushed(Int(i), whole) == Integer(i)
    ensures Pushed(Int(i), whole).Integer? && exists k :: Wraps(Pushed(Int(i), whole).i, i, k)
  {
    NoNul(s);
    var k := WrapsAround(i);
    assert Wraps(Pushed(Int(i), whole).i, i, k);
  }

  // `a` is `b` up to a multiple of 2^64.
  predicate Wraps(a: int, b: int, k: int) {
    a == b + 0x1_0000_0000_0000_0000 * k
  }

  lemma WrapsAround(i: int) returns (k: int)
    ensures Wraps(ToInt64(i), i, k)
  {
    k := -((i + 0x8000_0000_0000_0000) / 0x1_0000_0000_0000_0000);
  }

  /**
   A table becomes an array if and only if it has a key and all its keys are positive
   integers; the array ends with the greatest key, and where a key is missing it has a null.
   */
  lemma TableShape(entries: map<Key, LuaValue>, j: Json)
    requires Encodes(Table(entries), j)
    ensures j.Array? <==> entries != map[] && forall k <- entries :: k.IntKey? && k.i >= 1
    ensures j.Array? || j.Object?
    ensures j.Array? ==>
              && IntKey(|j.items|) in entries && (forall k <- entries :: k.i <= |j.items|)
              && forall n | 1 <= n <= |j.items| ::
                   if IntKey(n) in entries then Encodes(entries[IntKey(n)], j.items[n - 1]) else j.items[n - 1] == Null
  {
    if j.Array? {
      forall n | 1 <= n <= |j.items|
        ensures if IntKey(n) in entries then Encodes(entries[IntKey(n)], j.items[n - 1]) else j.items[n - 1] == Null
      {
        assert EncodesItem(Table(entries), n - 1, j.items[n - 1]);
      }
    }
  }

  // Integer and NUL-free string keys, and no string is the decimal of an integer key.
  ghost predicate NamesApart(entries: map<Key, LuaValue>) {
    && (forall k <- entries :: k.IntKey? || (k.StrKey? && '\0' !in k.s))
    && forall i, s :: IntKey(i) in entries && StrKey(s) in entries ==> !IsDecimal(s, i)
  }

  lemma SameName(entries: map<Key, LuaValue>, a: Key, b: Key)
    requires NamesApart(entries) && a in entries && b in entries && Name(a) == Name(b)
    ensures a == b
  {
    match (a, b) {
      case (StrKey(s), StrKey(t)) => NoNul(s); NoNul(t);
      case (IntKey(i), IntKey(k)) => IntegerName(i); IntegerName(k); OneDecimal(Name(a), i, k);
      case (IntKey(i), StrKey(t)) => IntegerName(i); NoNul(t);
      case (StrKey(s), IntKey(i)) => IntegerName(i); NoNul(s);
    }
    hide IsDecimal;
  }

  lemma OneDecimal(name: Bytes, i: int, k: int)
    requires IsDecimal(name, i) && IsDecimal(name, k)
    ensures i == k
  {}

  lemma EntryEncoded(entries: map<Key, LuaValue>, j: Json, k: Key)
    requires NamesApart(entries) && Encodes(Table(entries), j) && j.Object? && k in entries
    ensures Name(k) in j.members && Encodes(entries[k], j.members[Name(k)])
  {
    var v := Table(entries);
    assert EncodesObject(v, j);
    assert EncodesMember(v, entries.Keys, Name(k), j.members[Name(k)]);
    hide NamesApart, Name, EncodesObject;
    var other :| other in entries && Name(other) == Name(k) && Encodes(entries[other], j.members[Name(k)]);
    SameName(entries, other, k);
  }

  /**
   When no two keys get the same name, each entry of the table is a member: that of an
   integer key under its decimal, that of a string key under the string, and nothing else.
   */
  lemma EntriesUnderTheirNames(entries: map<Key, LuaValue>, j: Json)
    requires NamesApart(entries) && Encodes(Table(entries), j) && j.Object?
    ensures forall i | IntKey(i) in entries ::
              exists name <- j.members :: IsDecimal(name, i) && Encodes(entries[IntKey(i)], j.members[name])
    ensures forall s | StrKey(s) in entries :: s in j.members && Encodes(entries[StrKey(s)], j.members[s])
    ensures forall name <- j.members ::
              StrKey(name) in entries || exists i :: IntKey(i) in entries && IsDecimal(name, i)
  {
    hide IsDecimal, Encodes, NamesApart;
    forall i | IntKey(i) in entries
      ensures exists name <- j.members :: IsDecimal(name, i) && Encodes(entries[IntKey(i)], j.members[name])
    {
      EntryEncoded(entries, j, IntKey(i));
      IntegerName(i);
      assert Name(IntKey(i)) in j.members;
    }
    forall s | StrKey(s) in entries ensures s in j.members && Encodes(entries[StrKey(s)], j.members[s]) {
      EntryEncoded(entries, j, StrKey(s));
      StringName(entries, s);
    }
    forall name <- j.members ensures StrKey(name) in entries || exists i :: IntKey(i) in entries && IsDecimal(name, i) {
      var k := NamedBy(entries, j, name);
      if k.IntKey? { IntegerName(k.i); } else { StringName(entries, k.s); }
    }
  }

  lemma StringName(entries: map<Key, LuaValue>, s: Bytes)
    requires NamesApart(entries) && StrKey(s) in entries
    ensures Name(StrKey(s)) == s
  {
    NoNul(s);
  }

  lemma NamedBy(entries: map<Key, LuaValue>, j: Json, name: Bytes) returns (k: Key)
    requires NamesApart(entries) && Encodes(Table(entries), j) && j.Object? && name in j.members
    ensures k in entries && Name(k) == name && (k.IntKey? || k.StrKey?)
  {
    var v := Table(entries);
    assert EncodesObject(v, j);
    assert EncodesMember(v, entries.Keys, name, j.members[name]);
    hide EncodesObject, Name;
    k :| k in entries && Name(k) == name && Encodes(entries[k], j.members[name]);
  }

  /** Keys that are neither strings nor integers all get the empty name. */
  lemma OtherKeysShareAName(entries: map<Key, LuaValue>, j: Json, id: nat)
    requires Encodes(Table(entries), j) && j.Object? && OtherKey(id) in entries
    ensures "" in j.members
  {
    assert EncodesObject(Table(entries), j);
    assert Name(OtherKey(id)) == "";
    hide Encodes;
  }

  // --- every value can be encoded ---

  /** Every tree of Lua values has an encoding. */
  lemma {:induction false} EncodingExists(v: LuaValue) returns (j: Json)
    ensures Encodes(v, j)
    decreases v, 1
  {
    match v
    case Nil => j := Null;
    case Boolean(b) => j := Bool(b);
    case Integer(i) => j := Int(i);
    case Number(bits) => j := Float(bits);
    case String(s) => j := Str(s);
    case Other(_) => j := Null;
    case Table(entries) =>
      if entries != map[] && forall k <- entries :: k.IntKey? && k.i >= 1 {
        var n := Greatest(entries.Keys);
        var items := ItemsExist(v, n);
        j := Array(items);
        assert EncodesList(v, j);
      } else {
        var members := MembersExist(v, entries.Keys);
        j := Object(members);
        assert EncodesObject(v, j);
      }
  }

  lemma {:induction false} Greatest(keys: set<Key>) returns (n: nat)
    requires keys != {} && forall k <- keys :: k.IntKey? && k.i >= 1
    ensures n >= 1 && IntKey(n) in keys && forall k <- keys :: k.i <= n
    decreases |keys|
  {
    var k :| k in keys;
    if keys - {k} == {} {
      n := k.i;
      assert keys == {k};
    } else {
      var m := Greatest(keys - {k});
      n := if k.i > m then k.i else m;
      assert forall other <- keys :: other == k || other in keys - {k};
      assert IntKey(k.i) == k;
    }
  }

  lemma {:induction false} ItemsExist(v: LuaValue, n: nat) returns (items: seq<Json>)
    requires v.Table?
    ensures |items| == n && forall i | 0 <= i < n :: EncodesItem(v, i, items[i])
    decreases v, 0, n
  {
    items := [];
    if n > 0 {
      var before := ItemsExist(v, n - 1);
      var item := Null;
      if IntKey(n) in v.entries { item := EncodingExists(v.entries[IntKey(n)]); }
      assert EncodesItem(v, n - 1, item);
      items := before + [item];
    }
  }

  lemma {:induction false} MembersExist(v: LuaValue, keys: set<Key>) returns (members: map<Bytes, Json>)
    requires v.Table? && keys <= v.entries.Keys
    ensures forall k <- keys :: Name(k) in members
    ensures forall name <- members :: EncodesMember(v, v.entries.Keys, name, members[name])
    decreases v, 0, |keys|
  {
    members := map[];
    if keys != {} {
      var k :| k in keys;
      var others := MembersExist(v, keys - {k});
      var member := EncodingExists(v.entries[k]);
      members := others[Name(k) := member];
      assert EncodesMember(v, v.entries.Keys, Name(k), member);
      assert forall other <- keys :: other == k || other in keys - {k};
    }
  }
}
