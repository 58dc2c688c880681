/**
 JSON trees and Lua values: what each becomes when it crosses over, and exactly what is lost
 on a round trip in either direction.
 */
module JsonTrees {
  import opened ByteStrings

  // The key of a table entry. `OtherKey` is a key that is neither a string nor an integer.
  datatype Key = IntKey(i: int) | StrKey(s: Bytes) | OtherKey(id: nat)

  // Tables are trees here: a table that contains itself is not a value. A `Number` is its bits;
  // `Other` is a function, a userdata, a thread.
  datatype LuaValue =
    | Nil
    | Boolean(b: bool)
    | Integer(i: int)
    | Number(bits: nat)
    | String(s: Bytes)
    | Table(entries: map<Key, LuaValue>)
    | Other(id: nat)

  datatype Json =
    | Null
    | Bool(b: bool)
    | Int(i: int)
    | Float(bits: nat)
    | Str(s: Bytes)
    | Array(items: seq<Json>)
    | Object(members: map<Bytes, Json>)

  // `static_cast<int64_t>`.
  function ToInt64(i: int): (r: int)
    ensures IsInt64(r) && (IsInt64(i) ==> r == i)
  {
    (i + 0x8000_0000_0000_0000) % 0x1_0000_0000_0000_0000 - 0x8000_0000_0000_0000
  }

  predicate IsInt64(i: int) {
    -0x8000_0000_0000_0000 <= i < 0x8000_0000_0000_0000
  }

  // --- JSON to Lua ---

  // Storing nil stores nothing, so null items leave holes and null members are dropped.
  // `whole`: strings are pushed with their length (`PushJson`) and not as C strings.
  function Pushed(j: Json, whole: bool): LuaValue
    decreases j, 1
  {
    match j
    case Null => Nil
    case Bool(b) => Boolean(b)
    case Int(i) => Integer(ToInt64(i))
    case Float(bits) => Number(bits)
    case Str(s) => String(if whole then s else CString(s))
    case Array(items) => Table(PushedItems(j, |items|, whole))
    case Object(members) => Table(PushedMembers(j, members.Keys, whole))
  }

  // The first n items of an array.
  function PushedItems(j: Json, n: nat, whole: bool): map<Key, LuaValue>
    requires j.Array? && n <= |j.items|
    decreases j, 0
  {
    map i: int | 1 <= i <= n && !j.items[i - 1].Null? :: IntKey(i) := Pushed(j.items[i - 1], whole)
  }

  lemma NilIsNull(j: Json, whole: bool)
    ensures Pushed(j, whole).Nil? <==> j.Null?
  {}

  // A member name is cut at its first NUL when it becomes a key, so names can meet under one
  // key. Members are walked by name, so of those that meet the last one stays; if it is a null,
  // there is no entry.
  predicate Last(names: set<Bytes>, name: Bytes) {
    name in names && forall other <- names :: CString(other) == CString(name) ==> other == name || Less(other, name)
  }

  lemma LastIsOne(names: set<Bytes>)
    ensures forall a, b :: Last(names, a) && Last(names, b) && CString(a) == CString(b) ==> a == b
  {
    forall a, b | Last(names, a) && Last(names, b) && CString(a) == CString(b) ensures a == b {
      LessIsTotal(a, b);
    }
  }

  // The members of an object that are named in `some`.
  function PushedMembers(j: Json, some: set<Bytes>, whole: bool): map<Key, LuaValue>
    requires j.Object?
    decreases j, 0
  {
    LastIsOne(some);
    map name | name in j.members && Last(some, name) && !j.members[name].Null? ::
      StrKey(CString(name)) := Pushed(j.members[name], whole)
  }

  // The member that an entry comes from.
  predicate Gives(j: Json, some: set<Bytes>, name: Bytes, k: Key)
    requires j.Object?
  {
    name in j.members && Last(some, name) && !j.members[name].Null? && k == StrKey(CString(name))
  }

  // The entries, key by key.
  lemma MembersPushed(j: Json, some: set<Bytes>, whole: bool)
    requires j.Object?
    ensures var e := PushedMembers(j, some, whole);
            forall k <- e :: exists name <- j.members :: Gives(j, some, name, k)
    ensures var e := PushedMembers(j, some, whole);
            forall k, name :: Gives(j, some, name, k) ==> k in e && e[k] == Pushed(j.members[name], whole)
  {
    var e := PushedMembers(j, some, whole);
    LastIsOne(some);
    hide Pushed, Last;
    forall k <- e ensures exists name <- j.members :: Gives(j, some, name, k) {
      var name :| name in j.members && Last(some, name) && !j.members[name].Null? && k == StrKey(CString(name));
      assert Gives(j, some, name, k);
    }
  }

  lemma EntryComesFrom(j: Json, some: set<Bytes>, k: Key, whole: bool) returns (name: Bytes)
    requires j.Object? && k in PushedMembers(j, some, whole)
    ensures Gives(j, some, name, k) && PushedMembers(j, some, whole)[k] == Pushed(j.members[name], whole)
  {
    MembersPushed(j, some, whole);
    hide Pushed, PushedMembers, Gives;
    name :| name in j.members && Gives(j, some, name, k);
  }

  lemma EntryOf(j: Json, some: set<Bytes>, name: Bytes, k: Key, whole: bool)
    requires j.Object? && Gives(j, some, name, k)
    ensures var e := PushedMembers(j, some, whole); k in e && e[k] == Pushed(j.members[name], whole)
  {
    MembersPushed(j, some, whole);
    hide Pushed, PushedMembers, Gives;
  }

  lemma CleanAreLast(names: set<Bytes>)
    requires forall name <- names :: '\0' !in name
    ensures forall name <- names :: CString(name) == name && Last(names, name)
  {
    forall name <- names ensures CString(name) == name { NoNul(name); }
  }

  /** NUL-free names do not meet, and each member that is not null is there under its own name. */
  lemma CleanMembersStay(j: Json, whole: bool)
    requires j.Object? && forall name <- j.members :: '\0' !in name
    ensures var v := Pushed(j, whole);
            && v.Table? && (forall k <- v.entries :: k.StrKey? && k.s in j.members && !j.members[k.s].Null?)
            && forall name <- j.members :: !j.members[name].Null? ==>
                 StrKey(name) in v.entries && v.entries[StrKey(name)] == Pushed(j.members[name], whole)
  {
    var e := PushedMembers(j, j.members.Keys, whole);
    assert Pushed(j, whole) == Table(e);
    CleanAreLast(j.members.Keys);
    MembersPushed(j, j.members.Keys, whole);
    hide CString, Last, Pushed, PushedMembers;
    forall name <- j.members | !j.members[name].Null?
      ensures StrKey(name) in e && e[StrKey(name)] == Pushed(j.members[name], whole)
    {
      assert Gives(j, j.members.Keys, name, StrKey(name));
    }
  }

  /** The last of the members that meet decides: if it is a null, it erases the others. */
  lemma LastMemberDecides(j: Json, name: Bytes, whole: bool)
    requires j.Object? && Last(j.members.Keys, name)
    ensures var v := Pushed(j, whole); var k := StrKey(CString(name));
            && v.Table?
            && if j.members[name].Null? then k !in v.entries
               else k in v.entries && v.entries[k] == Pushed(j.members[name], whole)
  {
    var e := PushedMembers(j, j.members.Keys, whole);
    assert Pushed(j, whole) == Table(e);
    LastIsOne(j.members.Keys);
    MembersPushed(j, j.members.Keys, whole);
    hide CString, Last, Pushed, PushedMembers;
    if !j.members[name].Null? { assert Gives(j, j.members.Keys, name, StrKey(CString(name))); }
  }

  // --- Lua to JSON ---

  // The object key made of a table key.
  function Name(k: Key): (s: Bytes)
  {
    match k
    case StrKey(s) => CString(s)
    case IntKey(i) => SignedNumeral(i)
    case OtherKey(_) => ""
  }

  predicate IsList(entries: map<Key, LuaValue>) {
    entries != map[] && forall k <- entries :: k.IntKey? && k.i >= 1
  }

  /**
   `j` is an encoding of `v`. Keys that get the same name compete and any of their values may
   win, as tables are walked in no particular order.
   */
  ghost predicate Encodes(v: LuaValue, j: Json)
    decreases v, 2
  {
    match v
    case Nil => j == Null
    case Boolean(b) => j == Bool(b)
    case Integer(i) => j == Int(i)
    case Number(bits) => j == Float(bits)
    case String(s) => j == Str(s)
    case Other(_) => j == Null
    case Table(entries) => if IsList(entries) then EncodesList(v, j) else EncodesObject(v, j)
  }

  // One item for each index up to the greatest key; a hole becomes a null.
  ghost predicate EncodesList(v: LuaValue, j: Json)
    requires v.Table?
    decreases v, 1
  {
    && j.Array?
    && IntKey(|j.items|) in v.entries
    && (forall k <- v.entries :: k.IntKey? && 1 <= k.i <= |j.items|)
    && forall i :: 0 <= i < |j.items| ==> EncodesItem(v, i, j.items[i])
  }

  ghost predicate EncodesItem(v: LuaValue, i: nat, item: Json)
    requires v.Table?
    decreases v, 0
  {
    if IntKey(i + 1) in v.entries then Encodes(v.entries[IntKey(i + 1)], item) else item == Null
  }

  ghost predicate EncodesObject(v: LuaValue, j: Json)
    requires v.Table?
    decreases v, 1
  {
    && j.Object?
    && (forall k <- v.entries :: Name(k) in j.members)
    && forall name <- j.members :: EncodesMember(v, v.entries.Keys, name, j.members[name])
  }

  // Some entry with a key in `some` has this name and this encoding.
  ghost predicate EncodesMember(v: LuaValue, some: set<Key>, name: Bytes, member: Json)
    requires v.Table?
    decreases v, 0
  {
    exists k <- v.entries :: k in some && Name(k) == name && Encodes(v.entries[k], member)
  }

  // --- the normal form of a tree ---

  // The number of items up to the last one that is not null.
  function Significant(items: seq<Json>): (n: nat)
    ensures n <= |items|
    ensures n > 0 ==> !items[n - 1].Null?
    ensures forall i :: n <= i < |items| ==> items[i].Null?
  {
    if items == [] then 0
    else if items[|items| - 1].Null? then Significant(items[..|items| - 1])
    else |items|
  }

  // Null members and trailing null items go, names are cut at a NUL, and an array left empty
  // becomes an object.
  function Norm(j: Json, whole: bool): Json
    decreases j, 1
  {
    match j
    case Null => Null
    case Bool(b) => j
    case Int(i) => Int(ToInt64(i))
    case Float(bits) => j
    case Str(s) => Str(if whole then s else CString(s))
    case Array(items) =>
      var n := Significant(items);
      if n == 0 then Object(map[]) else Array(seq(n, i requires 0 <= i < n => Norm(items[i], whole)))
    case Object(members) => Object(NormMembers(j, whole))
  }

  function NormMembers(j: Json, whole: bool): map<Bytes, Json>
    requires j.Object?
    decreases j, 0
  {
    LastIsOne(j.members.Keys);
    map name | name in j.members && Last(j.members.Keys, name) && !j.members[name].Null? ::
      CString(name) := Norm(j.members[name], whole)
  }

  lemma MemberOfNorm(j: Json, name: Bytes, whole: bool)
    requires j.Object? && name in j.members && Last(j.members.Keys, name) && !j.members[name].Null?
    ensures var m := NormMembers(j, whole); CString(name) in m && m[CString(name)] == Norm(j.members[name], whole)
  {
    LastIsOne(j.members.Keys);
    hide Norm, Last, CString;
  }

  // The members of the normal form all come from members.
  lemma MembersOfNorm(j: Json, whole: bool)
    requires j.Object?
    ensures forall cut <- NormMembers(j, whole) ::
              exists name <- j.members :: Gives(j, j.members.Keys, name, StrKey(cut))
  {
    hide Norm, Last, CString;
    forall cut <- NormMembers(j, whole)
      ensures exists name <- j.members :: Gives(j, j.members.Keys, name, StrKey(cut))
    {
      var name :| name in j.members && Last(j.members.Keys, name) && !j.members[name].Null? && CString(name) == cut;
      assert Gives(j, j.members.Keys, name, StrKey(cut));
    }
  }

  lemma PushedListIsList(j: Json, whole: bool)
    requires j.Array?
    ensures var n := Significant(j.items); var e := PushedItems(j, |j.items|, whole);
            && (n == 0 <==> e == map[]) && (n > 0 ==> IsList(e) && IntKey(n) in e)
            && forall k <- e :: k.IntKey? && 1 <= k.i <= n
  {
    var n := Significant(j.items);
    var e := PushedItems(j, |j.items|, whole);
    if n > 0 { assert IntKey(n) in e; }
  }

  /** Decoding a tree into Lua and encoding it again gives its normal form and nothing else. */
  lemma {:induction false} RoundTripIsNorm(j: Json, whole: bool, r: Json)
    ensures Encodes(Pushed(j, whole), r) <==> r == Norm(j, whole)
    decreases j, 2
  {
    match j
    case Array(items) => ArrayRoundTrip(j, whole, r);
    case Object(members) => ObjectRoundTrip(j, whole, r);
    case _ =>
  }

  lemma {:induction false} ArrayRoundTrip(j: Json, whole: bool, r: Json)
    requires j.Array?
    ensures Encodes(Pushed(j, whole), r) <==> r == Norm(j, whole)
    decreases j, 1
  {
    var n := Significant(j.items);
    var v := Pushed(j, whole);
    PushedListIsList(j, whole);
    if n > 0 {
      if r.Array? && |r.items| == n {
        forall i | 0 <= i < n
          ensures EncodesItem(v, i, r.items[i]) <==> r.items[i] == Norm(j, whole).items[i]
        {
          ItemRoundTrip(j, i, whole, r.items[i]);
        }
      }
      ListLength(v, r, n);
    } else {
      EmptyRoundTrip(v, r);
    }
  }

  lemma ItemRoundTrip(j: Json, i: nat, whole: bool, r: Json)
    requires j.Array? && i < |j.items|
    ensures EncodesItem(Pushed(j, whole), i, r) <==> r == Norm(j.items[i], whole)
    decreases j, 0
  {
    var v := Pushed(j, whole);
    RoundTripIsNorm(j.items[i], whole, r);
    ItemAt(j, i, whole);
    hide Pushed, PushedItems;
  }

  lemma ItemAt(j: Json, i: nat, whole: bool)
    requires j.Array? && i < |j.items|
    ensures var v := Pushed(j, whole); var item := j.items[i];
            if item.Null? then IntKey(i + 1) !in v.entries
            else IntKey(i + 1) in v.entries && v.entries[IntKey(i + 1)] == Pushed(item, whole)
  {
    assert j.items[i] == j.items[i + 1 - 1];
  }

  lemma ListLength(v: LuaValue, r: Json, n: nat)
    requires v.Table? && IntKey(n) in v.entries && forall k <- v.entries :: k.IntKey? && 1 <= k.i <= n
    ensures Encodes(v, r) <==> r.Array? && |r.items| == n && forall i :: 0 <= i < n ==> EncodesItem(v, i, r.items[i])
  {}

  lemma EmptyRoundTrip(v: LuaValue, r: Json)
    requires v == Table(map[])
    ensures Encodes(v, r) <==> r == Object(map[])
  {
    forall name: Bytes, member ensures !EncodesMember(v, v.entries.Keys, name, member) {}
    assert Encodes(v, r) ==> EncodesObject(v, r);
    if r.Object? && r.members.Keys == {} { assert r.members == map[]; }
  }

  lemma {:induction false} ObjectRoundTrip(j: Json, whole: bool, r: Json)
    requires j.Object?
    ensures Encodes(Pushed(j, whole), r) <==> r == Norm(j, whole)
    decreases j, 1
  {
    var v := Pushed(j, whole);
    var norm := Norm(j, whole).members;
    NamesMatch(j, whole);
    EncodesAsObject(v, r);
    assert Norm(j, whole) == Object(norm);
    hide Pushed, PushedMembers, Norm, Name, Encodes, EncodesMember, EncodesObject, IsList, Gives;
    if r.Object? {
      forall cut | cut in norm && cut in r.members
        ensures EncodesMember(v, v.entries.Keys, cut, r.members[cut]) <==> r.members[cut] == norm[cut]
      {
        var name := NormComesFrom(j, whole, cut);
        MemberRoundTrip(j, name, whole, r.members[cut]);
      }
      SameObject(v, r, norm);
    }
  }

  // The member that a member of the normal form comes from.
  lemma NormComesFrom(j: Json, whole: bool, cut: Bytes) returns (name: Bytes)
    requires j.Object? && cut in Norm(j, whole).members
    ensures Gives(j, j.members.Keys, name, StrKey(cut)) && Norm(j, whole).members[cut] == Norm(j.members[name], whole)
  {
    MembersOfNorm(j, whole);
    assert Norm(j, whole) == Object(NormMembers(j, whole));
    hide Norm, NormMembers, Last, CString;
    name :| name in j.members && Gives(j, j.members.Keys, name, StrKey(cut));
    MemberOfNorm(j, name, whole);
  }

  lemma GivesNorm(j: Json, whole: bool, name: Bytes, k: Key)
    requires j.Object? && Gives(j, j.members.Keys, name, k)
    ensures k.StrKey? && Name(k) == k.s && k.s in Norm(j, whole).members
  {
    MemberOfNorm(j, name, whole);
    NoNul(k.s);
    hide Last, NormMembers;
  }

  lemma EncodesAsObject(v: LuaValue, r: Json)
    requires v.Table? && !IsList(v.entries)
    ensures Encodes(v, r) <==> EncodesObject(v, r)
    ensures EncodesObject(v, r) ==> r.Object?
  {}

  lemma NamesMatch(j: Json, whole: bool)
    requires j.Object?
    ensures var e := Pushed(j, whole).entries; var names := Norm(j, whole).members.Keys;
            && !IsList(e)
            && (forall k <- e :: k.StrKey? && Name(k) == k.s && k.s in names)
            && forall cut <- names :: StrKey(cut) in e
  {
    var e, names := PushedMembers(j, j.members.Keys, whole), Norm(j, whole).members.Keys;
    assert Pushed(j, whole) == Table(e);
    MembersPushed(j, j.members.Keys, whole);
    hide Pushed, PushedMembers, Norm, Gives, Name;
    forall k <- e ensures k.StrKey? && Name(k) == k.s && k.s in names {
      var name :| name in j.members && Gives(j, j.members.Keys, name, k);
      GivesNorm(j, whole, name, k);
    }
    forall cut <- names ensures StrKey(cut) in e {
      var name := NormComesFrom(j, whole, cut);
    }
  }

  lemma SameObject(v: LuaValue, r: Json, norm: map<Bytes, Json>)
    requires v.Table? && r.Object?
    requires forall k <- v.entries :: k.StrKey? && Name(k) == k.s && k.s in norm
    requires forall name <- norm :: StrKey(name) in v.entries
    requires forall name <- norm :: name in r.members ==>
               (EncodesMember(v, v.entries.Keys, name, r.members[name]) <==> r.members[name] == norm[name])
    ensures EncodesObject(v, r) <==> r.members == norm
  {
    if EncodesObject(v, r) {
      SameNames(v, r, norm.Keys);
      assert forall name <- norm :: r.members[name] == norm[name];
    }
  }

  lemma SameNames(v: LuaValue, r: Json, names: set<Bytes>)
    requires v.Table? && EncodesObject(v, r)
    requires forall k <- v.entries :: k.StrKey? && Name(k) == k.s && k.s in names
    requires forall name <- names :: StrKey(name) in v.entries
    ensures r.members.Keys == names
  {
    forall name <- r.members ensures name in names {
      assert EncodesMember(v, v.entries.Keys, name, r.members[name]);
    }
    forall name <- names ensures name in r.members { assert Name(StrKey(name)) in r.members; }
  }

  lemma MemberRoundTrip(j: Json, name: Bytes, whole: bool, r: Json)
    requires j.Object? && Gives(j, j.members.Keys, name, StrKey(CString(name)))
    ensures var v := Pushed(j, whole);
            EncodesMember(v, v.entries.Keys, CString(name), r) <==> r == Norm(j.members[name], whole)
    decreases j, 0
  {
    var v, k := Pushed(j, whole), StrKey(CString(name));
    MembersPushed(j, j.members.Keys, whole);
    NamesMatch(j, whole);
    assert k in v.entries && v.entries[k] == Pushed(j.members[name], whole);
    RoundTripIsNorm(j.members[name], whole, r);
    hide Pushed, PushedMembers, Norm, Gives;
    assert forall k' <- v.entries :: Name(k') == CString(name) ==> k' == k;
  }

  /** Normal forms are their own normal forms. */
  lemma {:induction false} NormIsIdempotent(j: Json, whole: bool)
    ensures Norm(Norm(j, whole), whole) == Norm(j, whole)
    ensures Norm(j, whole).Null? <==> j.Null?
  {
    match j
    case Array(items) =>
      var n := Significant(items);
      if n > 0 {
        var t := Norm(j, whole).items;
        forall i | 0 <= i < n ensures Norm(t[i], whole) == t[i] && (t[i].Null? <==> items[i].Null?) {
          NormIsIdempotent(items[i], whole);
        }
        assert Significant(t) == n;
      }
    case Object(members) =>
      var m := Norm(j, whole).members;
      forall cut | cut in m ensures '\0' !in cut && Norm(m[cut], whole) == m[cut] && !m[cut].Null? {
        var name := NormComesFrom(j, whole, cut);
        NormIsIdempotent(members[name], whole);
      }
      NormOfNormal(m, whole);
    case Str(s) => NoNul(CString(s));
    case _ =>
  }

  lemma NormOfNormal(m: map<Bytes, Json>, whole: bool)
    requires forall name <- m :: '\0' !in name && !m[name].Null? && Norm(m[name], whole) == m[name]
    ensures Norm(Object(m), whole) == Object(m)
  {
    var j := Object(m);
    var n := NormMembers(j, whole);
    CleanAreLast(m.Keys);
    MembersOfNorm(j, whole);
    hide Last, CString, NormMembers, Norm;
    forall name <- m ensures name in n && n[name] == m[name] { MemberOfNorm(j, name, whole); }
    assert n == m;
  }

  // --- tables that come back as they were ---

  // Lua stores no nil in a table.
  predicate NoNils(v: LuaValue) {
    v.Table? ==> forall k <- v.entries :: !v.entries[k].Nil? && NoNils(v.entries[k])
  }

  // Each table has only positive integer keys, holes allowed, or only string keys.
  predicate Plain(v: LuaValue, whole: bool) {
    match v
    case Integer(i) => IsInt64(i)
    case String(s) => whole || '\0' !in s
    case Table(entries) =>
      && ((forall k <- entries :: k.IntKey? && k.i >= 1) || (forall k <- entries :: k.StrKey? && '\0' !in k.s))
      && forall k <- entries :: Plain(entries[k], whole)
    case Other(_) => false
    case _ => true
  }

  /**
   Encoding a Lua tree and decoding it again gives the same tree exactly when the tree is
   plain. Whether a table counts as a list depends on its keys being positive integers and
   not on their being contiguous.
   */
  lemma TableRoundTrip(v: LuaValue, j: Json, whole: bool)
    requires NoNils(v) && Encodes(v, j)
    ensures Pushed(j, whole) == v <==> Plain(v, whole)
  {
    if Plain(v, whole) { PlainComesBack(v, j, whole); }
    PushedIsPlain(j, whole);
  }

  lemma {:induction false} PlainComesBack(v: LuaValue, j: Json, whole: bool)
    requires NoNils(v) && Plain(v, whole) && Encodes(v, j)
    ensures Pushed(j, whole) == v
    decreases v, 1
  {
    match v
    case String(s) => NoNul(s);
    case Table(entries) => if IsList(entries) { ListComesBack(v, j, whole); } else { ObjectComesBack(v, j, whole); }
    case _ =>
  }

  lemma {:induction false} ListComesBack(v: LuaValue, j: Json, whole: bool)
    requires v.Table? && NoNils(v) && Plain(v, whole) && EncodesList(v, j)
    ensures Pushed(j, whole) == v
    decreases v, 0
  {
    var entries := v.entries;
    forall n | 1 <= n <= |j.items|
      ensures if IntKey(n) in entries then !j.items[n - 1].Null? && Pushed(j.items[n - 1], whole) == entries[IntKey(n)]
              else j.items[n - 1].Null?
    {
      assert EncodesItem(v, n - 1, j.items[n - 1]);
      if IntKey(n) in entries { PlainComesBack(entries[IntKey(n)], j.items[n - 1], whole); }
    }
    SameItems(entries, j, whole);
  }

  lemma SameItems(entries: map<Key, LuaValue>, j: Json, whole: bool)
    requires j.Array? && forall k <- entries :: k.IntKey? && 1 <= k.i <= |j.items|
    requires forall n :: 1 <= n <= |j.items| ==>
               if IntKey(n) in entries then !j.items[n - 1].Null? && Pushed(j.items[n - 1], whole) == entries[IntKey(n)]
               else j.items[n - 1].Null?
    ensures Pushed(j, whole) == Table(entries)
  {
    var e, n := PushedItems(j, |j.items|, whole), |j.items|;
    ItemEntries(j, whole);
    assert Pushed(j, whole) == Table(e);
    hide PushedItems, Pushed;
    forall i | 1 <= i <= n ensures SameAt(entries, e, IntKey(i)) {}
    SameByIndex(entries, e, n);
  }

  predicate SameAt(a: map<Key, LuaValue>, b: map<Key, LuaValue>, k: Key) {
    (k in a <==> k in b) && (k in a ==> a[k] == b[k])
  }

  lemma SameByIndex(a: map<Key, LuaValue>, b: map<Key, LuaValue>, n: nat)
    requires (forall k <- a :: k.IntKey? && 1 <= k.i <= n) && forall k <- b :: k.IntKey? && 1 <= k.i <= n
    requires forall i | 1 <= i <= n :: SameAt(a, b, IntKey(i))
    ensures a == b
  {
    forall k <- a ensures k in b && a[k] == b[k] { assert SameAt(a, b, IntKey(k.i)); }
    forall k <- b ensures k in a { assert SameAt(a, b, IntKey(k.i)); }
  }

  // The entries of a pushed array, key by key.
  lemma ItemEntries(j: Json, whole: bool)
    requires j.Array?
    ensures var e := PushedItems(j, |j.items|, whole);
            && (forall k <- e :: k.IntKey? && 1 <= k.i <= |j.items| && !j.items[k.i - 1].Null?)
            && forall n :: 1 <= n <= |j.items| && !j.items[n - 1].Null? ==>
                 IntKey(n) in e && e[IntKey(n)] == Pushed(j.items[n - 1], whole)
  {
    hide Pushed;
  }

  lemma {:induction false} ObjectComesBack(v: LuaValue, j: Json, whole: bool)
    requires v.Table? && NoNils(v) && Plain(v, whole) && !IsList(v.entries) && EncodesObject(v, j)
    ensures Pushed(j, whole) == v
    decreases v, 0
  {
    var entries, members := v.entries, j.members;
    assert forall k <- entries :: k.StrKey? && '\0' !in k.s;
    forall k <- entries ensures Name(k) == k.s && k.s in members { NoNul(k.s); }
    forall name <- members
      ensures StrKey(name) in entries && Pushed(members[name], whole) == entries[StrKey(name)] && !members[name].Null?
    {
      assert EncodesMember(v, entries.Keys, name, members[name]);
      var k :| k in entries && Name(k) == name && Encodes(entries[k], members[name]);
      PlainComesBack(entries[k], members[name], whole);
    }
    TheirNamesAreClean(entries, members.Keys);
    SameEntries(entries, j, whole);
  }

  lemma SameEntries(entries: map<Key, LuaValue>, j: Json, whole: bool)
    requires j.Object? && forall name <- j.members :: '\0' !in name
    requires forall k <- entries :: k.StrKey? && k.s in j.members
    requires forall name <- j.members ::
               && StrKey(name) in entries && Pushed(j.members[name], whole) == entries[StrKey(name)]
               && !j.members[name].Null?
    ensures Pushed(j, whole) == Table(entries)
  {
    CleanMembersStay(j, whole);
    var e := Pushed(j, whole).entries;
    hide Pushed;
    forall name <- j.members ensures StrKey(name) in e && e[StrKey(name)] == entries[StrKey(name)] {}
    SameByName(entries, e, j.members.Keys);
  }

  lemma SameByName(a: map<Key, LuaValue>, b: map<Key, LuaValue>, names: set<Bytes>)
    requires (forall k <- a :: k.StrKey? && k.s in names) && forall k <- b :: k.StrKey? && k.s in names
    requires forall name <- names :: StrKey(name) in a && StrKey(name) in b && a[StrKey(name)] == b[StrKey(name)]
    ensures a == b
  {
    forall k <- a ensures k in b && a[k] == b[k] { assert k == StrKey(k.s); }
    forall k <- b ensures k in a { assert k == StrKey(k.s); }
  }

  lemma TheirNamesAreClean(entries: map<Key, LuaValue>, names: set<Bytes>)
    requires (forall k <- entries :: k.StrKey? && '\0' !in k.s) && forall name <- names :: StrKey(name) in entries
    ensures forall name <- names :: '\0' !in name
  {
    forall name <- names ensures '\0' !in name { assert '\0' !in StrKey(name).s; }
  }

  lemma {:induction false} PushedIsPlain(j: Json, whole: bool)
    ensures Plain(Pushed(j, whole), whole)
  {
    match j
    case Array(items) =>
      forall i | 0 <= i < |items| ensures Plain(Pushed(items[i], whole), whole) { PushedIsPlain(items[i], whole); }
    case Object(members) =>
      var e := PushedMembers(j, members.Keys, whole);
      MembersPushed(j, members.Keys, whole);
      forall k <- e ensures k.StrKey? && '\0' !in k.s && Plain(e[k], whole) {
        var name :| name in members && Gives(j, members.Keys, name, k);
        PushedIsPlain(members[name], whole);
      }
    case _ =>
  }

  lemma {:induction false} PushedHasNoNils(j: Json, whole: bool)
    ensures NoNils(Pushed(j, whole)) && (Pushed(j, whole).Nil? <==> j.Null?)
  {
    match j
    case Array(items) =>
      forall i | 0 <= i < |items|
        ensures NoNils(Pushed(items[i], whole)) && (Pushed(items[i], whole).Nil? <==> items[i].Null?)
      {
        PushedHasNoNils(items[i], whole);
      }
    case Object(members) =>
      var e := PushedMembers(j, members.Keys, whole);
      MembersPushed(j, members.Keys, whole);
      forall k <- e ensures NoNils(e[k]) && !e[k].Nil? {
        var name :| name in members && Gives(j, members.Keys, name, k);
        PushedHasNoNils(members[name], whole);
      }
    case _ =>
  }

  /** Lua can tell two trees apart exactly when their normal forms differ. */
  lemma NormIsWhatLuaSees(j: Json, k: Json, whole: bool)
    ensures Pushed(j, whole) == Pushed(k, whole) <==> Norm(j, whole) == Norm(k, whole)
  {
    RoundTripIsNorm(j, whole, Norm(j, whole));
    RoundTripIsNorm(k, whole, Norm(k, whole));
    RoundTripIsNorm(j, whole, Norm(k, whole));
    PushedHasNoNils(j, whole);
    PushedHasNoNils(k, whole);
    PushedIsPlain(j, whole);
    PushedIsPlain(k, whole);
    TableRoundTrip(Pushed(j, whole), Norm(j, whole), whole);
    TableRoundTrip(Pushed(k, whole), Norm(k, whole), whole);
  }
}
