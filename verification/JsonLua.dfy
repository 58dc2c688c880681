/**
 The two conversions as the source runs them, on a Lua stack. Whatever the nesting and
 whatever order tables are walked in, `LuaToJson` leaves the stack as it was. The push
 functions add one value, the one that `Pushed` says.
 */
module JsonLua {
  import opened ByteStrings
  import opened JsonTrees

  // The value that stands for a key on the stack.
  function KeyValue(k: Key): LuaValue {
    match k
    case IntKey(i) => Integer(i)
    case StrKey(s) => String(s)
    case OtherKey(id) => Other(id)
  }

  function Stored(entries: map<Key, LuaValue>, k: Key, v: LuaValue): map<Key, LuaValue> {
    if v.Nil? then entries - {k} else entries[k := v]
  }

  class LuaStack {
    var stack: seq<LuaValue>

    constructor ()
      ensures stack == []
    {
      stack := [];
    }

    function GetTop(): nat
      reads this
    {
      |stack|
    }

    predicate IsIndex(idx: int)
      reads this
    {
      1 <= idx <= |stack| || -|stack| <= idx <= -1
    }

    // `lua_absindex`.
    function AbsIndex(idx: int): (abs: nat)
      requires IsIndex(idx)
      reads this
      ensures 1 <= abs <= |stack|
    {
      if idx > 0 then idx else |stack| + idx + 1
    }

    function At(idx: int): LuaValue
      requires IsIndex(idx)
      reads this
    {
      stack[AbsIndex(idx) - 1]
    }

    method Push(v: LuaValue)
      modifies this
      ensures stack == old(stack) + [v]
    {
      stack := stack + [v];
    }

    method Pop(n: nat)
      requires n <= |stack|
      modifies this
      ensures stack == old(stack)[..old(|stack|) - n]
    {
      stack := stack[..|stack| - n];
    }

    method PushValue(idx: int)
      requires IsIndex(idx)
      modifies this
      ensures stack == old(stack) + [old(At(idx))]
    {
      Push(At(idx));
    }

    // `lua_next`: takes the key off the stack and puts the following key and its value there.
    // `seen` is the part of the table already walked; which key follows is left open.
    method Next(idx: nat, seen: set<Key>, ghost last: Key) returns (more: bool, now: set<Key>, ghost key: Key)
      requires 1 <= idx < |stack| && At(idx).Table? && seen <= At(idx).entries.Keys
      requires if seen == {} then At(-1).Nil? else last in seen && At(-1) == KeyValue(last)
      modifies this
      ensures var rest := old(stack)[..old(|stack|) - 1]; var entries := old(At(idx)).entries;
              if more
              then
                && key in entries && key !in seen && now == seen + {key}
                && stack == rest + [KeyValue(key), entries[key]]
              else now == seen == entries.Keys && stack == rest
    {
      var entries := At(idx).entries;
      Pop(1);
      more, now, key := false, seen, last;
      if seen != entries.Keys {
        assert exists k <- entries :: k !in seen;
        var k :| k in entries && k !in seen;
        more, now, key := true, seen + {k}, k;
        ghost var rest := stack;
        Push(KeyValue(k));
        Push(entries[k]);
        assert stack == rest + [KeyValue(k), entries[k]];
      }
    }

    method RawGetI(idx: int, i: int)
      requires IsIndex(idx) && At(idx).Table?
      modifies this
      ensures stack == old(stack) + [if IntKey(i) in old(At(idx)).entries then old(At(idx)).entries[IntKey(i)] else Nil]
    {
      var entries := At(idx).entries;
      Push(if IntKey(i) in entries then entries[IntKey(i)] else Nil);
    }

    // `lua_rawseti(L, -2, i)`: the value on top goes into the table below it.
    method RawSetI(i: int)
      requires |stack| >= 2 && At(-2).Table?
      modifies this
      ensures stack == old(stack)[..old(|stack|) - 2] + [Table(Stored(old(At(-2)).entries, IntKey(i), old(At(-1))))]
    {
      var v, entries := At(-1), At(-2).entries;
      Pop(2);
      Push(Table(Stored(entries, IntKey(i), v)));
    }

    // `lua_rawset(L, -3)` with a string key.
    method RawSet()
      requires |stack| >= 3 && At(-3).Table? && At(-2).String?
      modifies this
      ensures stack == old(stack)[..old(|stack|) - 3] +
                       [Table(Stored(old(At(-3)).entries, StrKey(old(At(-2)).s), old(At(-1))))]
    {
      var v, k, entries := At(-1), At(-2).s, At(-3).entries;
      Pop(3);
      Push(Table(Stored(entries, StrKey(k), v)));
    }

    // `lua_setfield(L, -2, name)`.
    method SetField(name: Bytes)
      requires |stack| >= 2 && At(-2).Table?
      modifies this
      ensures stack == old(stack)[..old(|stack|) - 2] +
                       [Table(Stored(old(At(-2)).entries, StrKey(CString(name)), old(At(-1))))]
    {
      var v, entries := At(-1), At(-2).entries;
      Pop(2);
      Push(Table(Stored(entries, StrKey(CString(name)), v)));
    }
  }

  // --- json_library.cc ---

  method PushJsonValue(L: LuaStack, j: Json)
    modifies L
    ensures L.stack == old(L.stack) + [Pushed(j, false)]
    decreases j, 2
  {
    match j
    case Null => L.Push(Nil);
    case Bool(b) => L.Push(Boolean(b));
    case Int(i) => L.Push(Integer(ToInt64(i)));
    case Float(bits) => L.Push(Number(bits));
    case Str(s) => L.Push(String(CString(s)));
    case Array(items) => PushArray(L, j);
    case Object(members) => PushObject(L, j);
  }

  method PushArray(L: LuaStack, j: Json)
    requires j.Array?
    modifies L
    ensures L.stack == old(L.stack) + [Pushed(j, false)]
    decreases j, 1
  {
    ghost var base := L.stack;
    L.Push(Table(map[]));
    NoItems(j, false);
    var i := 0;
    while i < |j.items|
      invariant 0 <= i <= |j.items|
      invariant L.stack == base + [Table(PushedItems(j, i, false))]
    {
      hide Pushed, PushedItems, Stored;
      PushItem(L, j, i, base, PushedItems(j, i, false));
      NextItem(j, i, false);
      i := i + 1;
    }
  }

  // The body of that loop: value, and `lua_rawseti`.
  method PushItem(L: LuaStack, j: Json, i: nat, ghost base: seq<LuaValue>, ghost e: map<Key, LuaValue>)
    requires j.Array? && i < |j.items| && L.stack == base + [Table(e)]
    modifies L
    ensures L.stack == base + [Table(Stored(e, IntKey(i + 1), Pushed(j.items[i], false)))]
    decreases j, 0
  {
    hide Pushed, Stored;
    PushJsonValue(L, j.items[i]);
    assert L.stack == base + [Table(e), Pushed(j.items[i], false)];
    L.RawSetI(i + 1);
  }

  method PushObject(L: LuaStack, j: Json)
    requires j.Object?
    modifies L
    ensures L.stack == old(L.stack) + [Pushed(j, false)]
    decreases j, 1
  {
    ghost var base := L.stack;
    L.Push(Table(map[]));
    NoMembers(j, false);
    var done: set<Bytes> := {};
    while done != j.members.Keys
      invariant FirstNames(j.members.Keys, done)
      invariant L.stack == base + [Table(PushedMembers(j, done, false))]
      decreases |j.members.Keys - done|
    {
      hide Pushed, PushedMembers, Stored, CString, FirstNames, AllBefore;
      var name := NextName(j.members.Keys, done);
      PushMember(L, j, name, base, PushedMembers(j, done, false));
      NextMember(j, done, name, false);
      done := done + {name};
    }
  }

  // The body of that loop: key, value, and `lua_rawset`.
  method PushMember(L: LuaStack, j: Json, name: Bytes, ghost base: seq<LuaValue>, ghost e: map<Key, LuaValue>)
    requires j.Object? && name in j.members && L.stack == base + [Table(e)]
    modifies L
    ensures L.stack == base + [Table(Stored(e, StrKey(CString(name)), Pushed(j.members[name], false)))]
    decreases j, 0
  {
    hide Pushed, CString, Stored;
    L.Push(String(CString(name)));
    PushJsonValue(L, j.members[name]);
    ghost var v := Pushed(j.members[name], false);
    assert L.stack == base + [Table(e), String(CString(name)), v];
    L.RawSet();
  }

  // The names walked so far: all the others follow them.
  predicate FirstNames(all: set<Bytes>, done: set<Bytes>) {
    done <= all && forall a <- done, b <- all :: b !in done ==> Less(a, b)
  }

  predicate AllBefore(done: set<Bytes>, name: Bytes) {
    forall a <- done :: Less(a, name)
  }

  // An object keeps its members in the order of their names.
  method NextName(all: set<Bytes>, done: set<Bytes>) returns (name: Bytes)
    requires FirstNames(all, done) && done != all
    ensures name in all && name !in done && FirstNames(all, done + {name}) && AllBefore(done, name)
  {
    ghost var b :| b in all && b !in done;
    assert b in all - done;
    ghost var least := LeastOf(all - done);
    assert least in all && least !in done;
    hide Less;
    name :| name in all && name !in done && forall other <- all :: other in done || other == name || Less(name, other);
  }

  lemma NoItems(j: Json, whole: bool)
    requires j.Array?
    ensures PushedItems(j, 0, whole) == map[]
  {}

  lemma NextItem(j: Json, i: nat, whole: bool)
    requires j.Array? && i < |j.items|
    ensures PushedItems(j, i + 1, whole) ==
              Stored(PushedItems(j, i, whole), IntKey(i + 1), Pushed(j.items[i], whole))
  {
    var e, e1 := PushedItems(j, i, whole), PushedItems(j, i + 1, whole);
    NilIsNull(j.items[i], whole);
    hide Pushed;
    if j.items[i].Null? {
      assert e1 == e && e - {IntKey(i + 1)} == e;
    } else {
      assert e1 == e[IntKey(i + 1) := Pushed(j.items[i], whole)];
    }
  }

  lemma NoMembers(j: Json, whole: bool)
    requires j.Object?
    ensures PushedMembers(j, {}, whole) == map[]
  {
    MembersPushed(j, {}, whole);
  }

  lemma NextLast(done: set<Bytes>, name: Bytes, other: Bytes)
    requires AllBefore(done, name)
    ensures Last(done + {name}, other) <==>
              other == name || (Last(done, other) && CString(other) != CString(name))
  {
    LessIsTotal(other, name);
    hide CString, Less;
  }

  lemma NextGives(j: Json, done: set<Bytes>, name: Bytes, other: Bytes, k: Key)
    requires j.Object? && name in j.members && AllBefore(done, name)
    ensures var key := StrKey(CString(name));
            Gives(j, done + {name}, other, k) <==>
              if k == key then other == name && !j.members[name].Null? else Gives(j, done, other, k)
  {
    NextLast(done, name, other);
    hide Last, CString, Less;
  }

  // What a store does to one key.
  predicate StoredAt(e: map<Key, LuaValue>, e1: map<Key, LuaValue>, key: Key, v: LuaValue, k: Key) {
    if k != key then (k in e1 <==> k in e) && (k in e ==> e1[k] == e[k])
    else if v.Nil? then k !in e1
    else k in e1 && e1[k] == v
  }

  lemma StoredExactly(e: map<Key, LuaValue>, e1: map<Key, LuaValue>, key: Key, v: LuaValue)
    requires forall k :: StoredAt(e, e1, key, v, k)
    ensures e1 == Stored(e, key, v)
  {
    var next := Stored(e, key, v);
    assert forall k :: (k in e1 <==> k in next) && (k in e1 ==> e1[k] == next[k]) by {
      forall k ensures (k in e1 <==> k in next) && (k in e1 ==> e1[k] == next[k]) {
        assert StoredAt(e, e1, key, v, k);
      }
    }
  }

  // The next member replaces what was there under its key.
  lemma NextMember(j: Json, done: set<Bytes>, name: Bytes, whole: bool)
    requires j.Object? && name in j.members && AllBefore(done, name)
    ensures PushedMembers(j, done + {name}, whole) ==
              Stored(PushedMembers(j, done, whole), StrKey(CString(name)), Pushed(j.members[name], whole))
  {
    var e, e1 := PushedMembers(j, done, whole), PushedMembers(j, done + {name}, whole);
    var key, v := StrKey(CString(name)), Pushed(j.members[name], whole);
    hide *;
    forall k ensures StoredAt(e, e1, key, v, k) { NextKey(j, done, name, k, whole); }
    StoredExactly(e, e1, key, v);
  }

  lemma NextKey(j: Json, done: set<Bytes>, name: Bytes, k: Key, whole: bool)
    requires j.Object? && name in j.members && AllBefore(done, name)
    ensures StoredAt(PushedMembers(j, done, whole), PushedMembers(j, done + {name}, whole),
                     StrKey(CString(name)), Pushed(j.members[name], whole), k)
  {
    var e, e1 := PushedMembers(j, done, whole), PushedMembers(j, done + {name}, whole);
    NilIsNull(j.members[name], whole);
    hide Pushed, PushedMembers, Gives, CString, AllBefore;
    if k in e1 {
      var other := EntryComesFrom(j, done + {name}, k, whole);
      NextGives(j, done, name, other, k);
      if k != StrKey(CString(name)) { EntryOf(j, done, other, k, whole); }
    }
    if k in e && k != StrKey(CString(name)) {
      var other := EntryComesFrom(j, done, k, whole);
      NextGives(j, done, name, other, k);
      EntryOf(j, done + {name}, other, k, whole);
    }
    if k == StrKey(CString(name)) && !j.members[name].Null? {
      NextGives(j, done, name, name, k);
      EntryOf(j, done + {name}, name, k, whole);
    }
  }

  // --- json_lua.h ---

  method PushJson(L: LuaStack, j: Json)
    modifies L
    ensures L.stack == old(L.stack) + [Pushed(j, true)]
    decreases j, 2
  {
    match j
    case Null => L.Push(Nil);
    case Bool(b) => L.Push(Boolean(b));
    case Int(i) => L.Push(Integer(ToInt64(i)));
    case Float(bits) => L.Push(Number(bits));
    case Str(s) => L.Push(String(s));
    case Object(members) => PushJsonObject(L, j);
    case Array(items) => PushJsonArray(L, j);
  }

  method PushJsonObject(L: LuaStack, j: Json)
    requires j.Object?
    modifies L
    ensures L.stack == old(L.stack) + [Pushed(j, true)]
    decreases j, 1
  {
    ghost var base := L.stack;
    L.Push(Table(map[]));
    NoMembers(j, true);
    var done: set<Bytes> := {};
    while done != j.members.Keys
      invariant FirstNames(j.members.Keys, done)
      invariant L.stack == base + [Table(PushedMembers(j, done, true))]
      decreases |j.members.Keys - done|
    {
      hide Pushed, PushedMembers, Stored, CString, FirstNames, AllBefore;
      var name := NextName(j.members.Keys, done);
      PushField(L, j, name, base, PushedMembers(j, done, true));
      NextMember(j, done, name, true);
      done := done + {name};
    }
  }

  // The body of that loop: value, and `lua_setfield`.
  method PushField(L: LuaStack, j: Json, name: Bytes, ghost base: seq<LuaValue>, ghost e: map<Key, LuaValue>)
    requires j.Object? && name in j.members && L.stack == base + [Table(e)]
    modifies L
    ensures L.stack == base + [Table(Stored(e, StrKey(CString(name)), Pushed(j.members[name], true)))]
    decreases j, 0
  {
    hide Pushed, CString, Stored;
    PushJson(L, j.members[name]);
    assert L.stack == base + [Table(e), Pushed(j.members[name], true)];
    L.SetField(name);
  }

  method PushJsonArray(L: LuaStack, j: Json)
    requires j.Array?
    modifies L
    ensures L.stack == old(L.stack) + [Pushed(j, true)]
    decreases j, 1
  {
    ghost var base := L.stack;
    L.Push(Table(map[]));
    NoItems(j, true);
    var idx := 1;
    while idx <= |j.items|
      invariant 1 <= idx <= |j.items| + 1
      invariant L.stack == base + [Table(PushedItems(j, idx - 1, true))]
    {
      hide Pushed, PushedItems, Stored;
      PushIndexed(L, j, idx, base, PushedItems(j, idx - 1, true));
      NextItem(j, idx - 1, true);
      idx := idx + 1;
    }
  }

  // The body of that loop.
  method PushIndexed(L: LuaStack, j: Json, idx: nat, ghost base: seq<LuaValue>, ghost e: map<Key, LuaValue>)
    requires j.Array? && 1 <= idx <= |j.items| && L.stack == base + [Table(e)]
    modifies L
    ensures L.stack == base + [Table(Stored(e, IntKey(idx), Pushed(j.items[idx - 1], true)))]
    decreases j, 0
  {
    hide Pushed, Stored;
    PushJson(L, j.items[idx - 1]);
    assert L.stack == base + [Table(e), Pushed(j.items[idx - 1], true)];
    L.RawSetI(idx);
  }

  method LuaToJson(L: LuaStack, idx: int) returns (r: Json)
    requires L.IsIndex(idx)
    modifies L
    ensures L.stack == old(L.stack)
    ensures Encodes(old(L.At(idx)), r)
    decreases L.At(idx).Table?, L.At(idx), 2
  {
    var abs := L.AbsIndex(idx);
    match L.At(abs)
    case Nil => r := Null;
    case Boolean(b) => r := Bool(b);
    case Integer(i) => r := Int(i);
    case Number(bits) => r := Float(bits);
    case String(s) => r := Str(s);
    case Other(_) => r := Null;
    case Table(entries) =>
      L.PushValue(abs);
      var tableIdx := L.GetTop();
      var isArray, maxIndex := ScanKeys(L, tableIdx);
      if isArray && maxIndex > 0 {
        r := ListToJson(L, tableIdx, maxIndex);
      } else {
        r := ObjectToJson(L, tableIdx);
      }
      L.Pop(1);
  }

  predicate IsMax(keys: set<Key>, max: int) {
    && (keys == {} ==> max == 0) && (keys != {} ==> IntKey(max) in keys)
    && forall k <- keys :: k.IntKey? && 1 <= k.i <= max
  }

  // Where a walk over a table stands: the keys in `past` are dealt with, the entry of `key` is on the stack.
  ghost predicate Walking(base: seq<LuaValue>, entries: map<Key, LuaValue>, past: set<Key>,
                          stack: seq<LuaValue>, more: bool, seen: set<Key>, key: Key) {
    if more then key in entries && key !in past && seen == past + {key} && stack == base + [KeyValue(key), entries[key]]
    else seen == past == entries.Keys && stack == base
  }

  // The first walk: are all keys positive integers, and which is the greatest?
  method ScanKeys(L: LuaStack, tableIdx: nat) returns (isArray: bool, maxIndex: int)
    requires tableIdx == L.GetTop() >= 1 && L.At(tableIdx).Table?
    modifies L
    ensures L.stack == old(L.stack)
    ensures var entries := old(L.At(tableIdx)).entries;
            (isArray && maxIndex > 0 <==> IsList(entries)) && (isArray ==> IsMax(entries.Keys, maxIndex))
  {
    ghost var base, entries := L.stack, L.At(tableIdx).entries;
    isArray, maxIndex := true, 0;
    ghost var past: set<Key> := {};
    var more, seen, key := FirstEntry(L, tableIdx, base, entries);
    while more
      invariant isArray && past <= entries.Keys && IsMax(past, maxIndex)
      invariant Walking(base, entries, past, L.stack, more, seen, key)
      decreases |entries.Keys - past|
    {
      L.Pop(1);
      assert L.stack == base + [KeyValue(key)];
      if !L.At(-1).Integer? {
        isArray := false;
        L.Pop(1);
        assert L.stack == base;
        break;
      }
      var k := L.At(-1).i;
      if k < 1 {
        isArray := false;
        L.Pop(1);
        assert L.stack == base;
        break;
      }
      MaxGrows(past, maxIndex, key);
      if k > maxIndex { maxIndex := k; }
      past := seen;
      more, seen, key := NextEntry(L, tableIdx, base, entries, seen, key);
    }
  }

  lemma MaxGrows(keys: set<Key>, max: int, key: Key)
    requires IsMax(keys, max) && key.IntKey? && key.i >= 1
    ensures IsMax(keys + {key}, if key.i > max then key.i else max)
  {}

  // `lua_pushnil` and the first `lua_next`.
  method FirstEntry(L: LuaStack, tableIdx: nat, ghost base: seq<LuaValue>, ghost entries: map<Key, LuaValue>)
    returns (more: bool, seen: set<Key>, ghost key: Key)
    requires L.stack == base && 1 <= tableIdx == |base| && base[tableIdx - 1] == Table(entries)
    modifies L
    ensures Walking(base, entries, {}, L.stack, more, seen, key)
  {
    L.Push(Nil);
    assert L.stack[..|base|] == base;
    more, seen, key := L.Next(tableIdx, {}, IntKey(0));
  }

  // A further `lua_next`, with the last key on top.
  method NextEntry(L: LuaStack, tableIdx: nat, ghost base: seq<LuaValue>, ghost entries: map<Key, LuaValue>,
                   past: set<Key>, ghost last: Key)
    returns (more: bool, seen: set<Key>, ghost key: Key)
    requires 1 <= tableIdx == |base| && base[tableIdx - 1] == Table(entries)
    requires L.stack == base + [KeyValue(last)] && last in past && past <= entries.Keys
    modifies L
    ensures Walking(base, entries, past, L.stack, more, seen, key)
  {
    assert L.stack[..|base|] == base;
    more, seen, key := L.Next(tableIdx, past, last);
  }

  method ListToJson(L: LuaStack, tableIdx: nat, maxIndex: int) returns (r: Json)
    requires tableIdx == L.GetTop() >= 1 && L.At(tableIdx).Table?
    requires maxIndex > 0 && IsMax(L.At(tableIdx).entries.Keys, maxIndex)
    modifies L
    ensures L.stack == old(L.stack)
    ensures EncodesList(old(L.At(tableIdx)), r)
    decreases true, L.At(tableIdx), 0
  {
    ghost var base, v := L.stack, L.At(tableIdx);
    var arr: seq<Json> := [];
    var i := 1;
    while i <= maxIndex
      invariant 1 <= i <= maxIndex + 1 && |arr| == i - 1
      invariant L.stack == base
      invariant forall n :: 0 <= n < |arr| ==> EncodesItem(v, n, arr[n])
    {
      L.RawGetI(tableIdx, i);
      var item := LuaToJson(L, -1);
      assert EncodesItem(v, i - 1, item);
      arr := arr + [item];
      L.Pop(1);
      assert L.stack == base;
      i := i + 1;
    }
    r := Array(arr);
  }

  method ObjectToJson(L: LuaStack, tableIdx: nat) returns (r: Json)
    requires tableIdx == L.GetTop() >= 1 && L.At(tableIdx).Table?
    modifies L
    ensures L.stack == old(L.stack)
    ensures EncodesObject(old(L.At(tableIdx)), r)
    decreases true, L.At(tableIdx), 1
  {
    ghost var base, v := L.stack, L.At(tableIdx);
    ghost var entries := v.entries;
    var obj: map<Bytes, Json> := map[];
    ghost var past: set<Key> := {};
    var more, seen, key := FirstEntry(L, tableIdx, base, entries);
    while more
      invariant past <= entries.Keys
      invariant Walking(base, entries, past, L.stack, more, seen, key)
      invariant Collected(v, past, obj)
      decreases |entries.Keys - past|
    {
      var name, member := EntryToJson(L, base, v, key);
      CollectOne(v, past, obj, key, member);
      obj := obj[name := member];
      past := seen;
      more, seen, key := NextEntry(L, tableIdx, base, entries, seen, key);
    }
    r := Object(obj);
  }

  // The body of that walk: the entry on top becomes a member, and its key stays.
  method EntryToJson(L: LuaStack, ghost base: seq<LuaValue>, ghost v: LuaValue, ghost key: Key)
    returns (name: Bytes, member: Json)
    requires v.Table? && key in v.entries && L.stack == base + [KeyValue(key), v.entries[key]]
    modifies L
    ensures L.stack == base + [KeyValue(key)]
    ensures name == Name(key) && Encodes(v.entries[key], member)
    decreases true, v, 0
  {
    name := "";
    if L.At(-2).String? {
      name := CString(L.At(-2).s);
    } else if L.At(-2).Integer? {
      name := SignedNumeral(L.At(-2).i);
    }
    member := LuaToJson(L, -1);
    L.Pop(1);
  }

  ghost predicate Collected(v: LuaValue, past: set<Key>, obj: map<Bytes, Json>)
    requires v.Table?
  {
    (forall k <- past :: Name(k) in obj) && forall name <- obj :: EncodesMember(v, past, name, obj[name])
  }

  lemma CollectOne(v: LuaValue, past: set<Key>, obj: map<Bytes, Json>, key: Key, member: Json)
    requires v.Table? && Collected(v, past, obj) && key in v.entries && Encodes(v.entries[key], member)
    ensures Collected(v, past + {key}, obj[Name(key) := member])
  {
    var obj' := obj[Name(key) := member];
    forall name <- obj' ensures EncodesMember(v, past + {key}, name, obj'[name]) {
      if name != Name(key) { assert EncodesMember(v, past, name, obj[name]); }
    }
  }
}
