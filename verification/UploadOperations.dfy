/** slices.SortStableFunc on records ordered by a pair of strings. */
module StableSort {
  import opened ByteStrings

  type Key = (Bytes, Bytes)

  predicate KeyLess(a: Key, b: Key) {
    Less(a.0, b.0) || (a.0 == b.0 && Less(a.1, b.1))
  }

  /** Put x in front of the first element whose key is not smaller. */
  function Insert<T>(x: T, xs: seq<T>, key: T -> Key): seq<T> {
    if xs != [] && KeyLess(key(xs[0]), key(x)) then [xs[0]] + Insert(x, xs[1..], key) else [x] + xs
  }

  function Sort<T>(xs: seq<T>, key: T -> Key): seq<T> {
    if xs == [] then [] else Insert(xs[0], Sort(xs[1..], key), key)
  }

  ghost predicate Sorted<T>(xs: seq<T>, key: T -> Key) {
    forall i, j :: 0 <= i < j < |xs| ==> !KeyLess(key(xs[j]), key(xs[i]))
  }

  ghost predicate UniqueKeys<T>(xs: seq<T>, key: T -> Key) {
    forall i, j :: 0 <= i < j < |xs| ==> key(xs[i]) != key(xs[j])
  }

  /** The elements of one key, in order. */
  function WithKey<T>(xs: seq<T>, key: T -> Key, k: Key): seq<T> {
    if xs == [] then [] else (if key(xs[0]) == k then [xs[0]] else []) + WithKey(xs[1..], key, k)
  }

  lemma KeyLessIsOrder(a: Key, b: Key, c: Key)
    ensures KeyLess(a, b) || a == b || KeyLess(b, a)
    ensures !(KeyLess(a, b) && KeyLess(b, a)) && !KeyLess(a, a)
    ensures KeyLess(a, b) && !KeyLess(c, b) ==> KeyLess(a, c)
  {
    LessIsTotal(a.0, b.0);
    LessIsTotal(a.1, b.1);
    LessIsTotal(b.0, c.0);
    LessIsTotal(b.1, c.1);
    if Less(a.0, b.0) && Less(b.0, c.0) {
      LessIsTransitive(a.0, b.0, c.0);
    }
    if Less(a.1, b.1) && Less(b.1, c.1) {
      LessIsTransitive(a.1, b.1, c.1);
    }
  }

  lemma {:induction false} InsertSorts<T>(x: T, xs: seq<T>, key: T -> Key)
    requires Sorted(xs, key)
    ensures Sorted(Insert(x, xs, key), key)
    ensures multiset(Insert(x, xs, key)) == multiset{x} + multiset(xs)
  {
    if xs != [] && KeyLess(key(xs[0]), key(x)) {
      InsertSorts(x, xs[1..], key);
      var rest := Insert(x, xs[1..], key);
      assert xs == [xs[0]] + xs[1..];
      KeyLessIsOrder(key(xs[0]), key(x), key(x));
      forall j | 0 <= j < |rest| ensures !KeyLess(key(rest[j]), key(xs[0])) {
        assert rest[j] in multiset(rest);
        assert rest[j] == x || rest[j] in xs[1..];
      }
    } else {
      forall j | 0 <= j < |xs| ensures !KeyLess(key(xs[j]), key(x)) {
        KeyLessIsOrder(key(xs[j]), key(x), key(xs[0]));
        assert j > 0 ==> !KeyLess(key(xs[j]), key(xs[0]));
      }
    }
  }

  lemma {:induction false} InsertIsStable<T>(x: T, xs: seq<T>, key: T -> Key, k: Key)
    ensures WithKey(Insert(x, xs, key), key, k) == WithKey([x] + xs, key, k)
  {
    assert ([x] + xs)[1..] == xs;
    if xs != [] && KeyLess(key(xs[0]), key(x)) {
      InsertIsStable(x, xs[1..], key, k);
      var rest := Insert(x, xs[1..], key);
      assert ([xs[0]] + rest)[1..] == rest;
      assert ([x] + xs[1..])[1..] == xs[1..];
      KeyLessIsOrder(key(xs[0]), key(x), k);
    }
  }

  /** Sorting orders the records by key, keeps every one of them, and keeps the order within a key. */
  lemma {:induction false} SortIsStableSort<T>(xs: seq<T>, key: T -> Key)
    ensures Sorted(Sort(xs, key), key)
    ensures multiset(Sort(xs, key)) == multiset(xs)
    ensures forall k :: WithKey(Sort(xs, key), key, k) == WithKey(xs, key, k)
  {
    if xs != [] {
      var rest := Sort(xs[1..], key);
      SortIsStableSort(xs[1..], key);
      InsertSorts(xs[0], rest, key);
      assert xs == [xs[0]] + xs[1..];
      forall k ensures WithKey(Sort(xs, key), key, k) == WithKey(xs, key, k) {
        InsertIsStable(xs[0], rest, key, k);
        assert ([xs[0]] + rest)[1..] == rest;
      }
    }
  }

  lemma {:induction false} InsertKeepsUnique<T>(x: T, xs: seq<T>, key: T -> Key)
    requires UniqueKeys(xs, key) && forall y :: y in xs ==> key(y) != key(x)
    ensures UniqueKeys(Insert(x, xs, key), key)
    ensures forall y :: y in Insert(x, xs, key) ==> y == x || y in xs
  {
    if xs != [] {
      assert xs == [xs[0]] + xs[1..];
      assert UniqueKeys(xs[1..], key);
      if KeyLess(key(xs[0]), key(x)) {
        InsertKeepsUnique(x, xs[1..], key);
        var rest := Insert(x, xs[1..], key);
        forall y | y in rest ensures key(y) != key(xs[0]) {
          if y != x {
            HeadIsUnique(xs, key, y);
          }
        }
      }
    }
  }

  lemma HeadIsUnique<T>(xs: seq<T>, key: T -> Key, y: T)
    requires UniqueKeys(xs, key) && xs != [] && y in xs[1..]
    ensures key(y) != key(xs[0])
  {
    var j :| 0 <= j < |xs[1..]| && xs[1..][j] == y;
    assert xs[j + 1] == y;
  }

  lemma OneOfAKey<T>(xs: seq<T>, key: T -> Key, a: T, b: T)
    requires UniqueKeys(xs, key) && a in xs && b in xs && key(a) == key(b)
    ensures a == b
  {
    var i :| 0 <= i < |xs| && xs[i] == a;
    var j :| 0 <= j < |xs| && xs[j] == b;
  }

  lemma {:induction false} SortKeepsUnique<T>(xs: seq<T>, key: T -> Key)
    requires UniqueKeys(xs, key)
    ensures UniqueKeys(Sort(xs, key), key)
    ensures forall y :: y in Sort(xs, key) ==> y in xs
  {
    if xs != [] {
      assert xs == [xs[0]] + xs[1..];
      assert UniqueKeys(xs[1..], key);
      SortKeepsUnique(xs[1..], key);
      forall y | y in xs[1..] ensures key(y) != key(xs[0]) {
        HeadIsUnique(xs, key, y);
      }
      InsertKeepsUnique(xs[0], Sort(xs[1..], key), key);
    }
  }

  lemma {:induction false} WithKeyOfAppend<T>(xs: seq<T>, x: T, key: T -> Key, k: Key)
    ensures WithKey(xs + [x], key, k) == WithKey(xs, key, k) + if key(x) == k then [x] else []
  {
    if xs == [] {
      assert xs + [x] == [x];
    } else {
      assert (xs + [x])[1..] == xs[1..] + [x];
      WithKeyOfAppend(xs[1..], x, key, k);
    }
  }

  lemma {:induction false} WithKeyOfAbsent<T>(xs: seq<T>, key: T -> Key, k: Key)
    requires forall i :: 0 <= i < |xs| ==> key(xs[i]) != k
    ensures WithKey(xs, key, k) == []
  {
    if xs != [] {
      WithKeyOfAbsent(xs[1..], key, k);
    }
  }

  lemma {:induction false} WithKeyOfUnique<T>(xs: seq<T>, i: nat, key: T -> Key)
    requires UniqueKeys(xs, key) && i < |xs|
    ensures WithKey(xs, key, key(xs[i])) == [xs[i]]
    decreases i
  {
    assert UniqueKeys(xs[1..], key);
    if i == 0 {
      WithKeyOfAbsent(xs[1..], key, key(xs[0]));
    } else {
      WithKeyOfUnique(xs[1..], i - 1, key);
    }
  }

  /** Replacing a record by one of the same key leaves the other keys alone. */
  lemma {:induction false} WithKeyOfUpdate<T>(xs: seq<T>, i: nat, x: T, key: T -> Key, k: Key)
    requires i < |xs| && key(x) == key(xs[i]) != k
    ensures WithKey(xs[i := x], key, k) == WithKey(xs, key, k)
    decreases i
  {
    if i > 0 {
      WithKeyOfUpdate(xs[1..], i - 1, x, key, k);
      assert xs[i := x][1..] == xs[1..][i - 1 := x];
    } else {
      assert xs[i := x][1..] == xs[1..];
    }
  }
}

/** The operations file: one record per uploaded object, written before the object is registered. */
module UploadOperations {
  import opened ByteStrings
  import opened StableSort

  datatype Operation = Operation(provider: Bytes, config: Bytes, format: Bytes, ref: Bytes)

  function OperationKey(op: Operation): Key {
    (op.config, op.ref)
  }

  const BY_KEY: Operation -> Key := op => OperationKey(op)

  /** Replace the first record with the same key, or append. */
  function Upsert(ops: seq<Operation>, op: Operation): seq<Operation> {
    if ops == [] then [op]
    else if OperationKey(ops[0]) == OperationKey(op) then [op] + ops[1..]
    else [ops[0]] + Upsert(ops[1..], op)
  }

  /** Where Upsert puts the record. */
  lemma {:induction false} UpsertAt(ops: seq<Operation>, op: Operation, i: nat)
    requires i <= |ops| && forall k :: 0 <= k < i ==> OperationKey(ops[k]) != OperationKey(op)
    requires i < |ops| ==> OperationKey(ops[i]) == OperationKey(op)
    ensures Upsert(ops, op) == if i < |ops| then ops[i := op] else ops + [op]
  {
    if i > 0 {
      UpsertAt(ops[1..], op, i - 1);
      assert ops == [ops[0]] + ops[1..];
    }
  }

  /** The list recordUploadOperation writes. */
  method UpsertSorted(ops: seq<Operation>, op: Operation) returns (result: seq<Operation>)
    ensures result == Sort(Upsert(ops, op), BY_KEY)
  {
    var list := ops;
    var replaced := false;
    var i := 0;
    while i < |list|
      invariant 0 <= i <= |list| && list == ops && !replaced
      invariant forall k :: 0 <= k < i ==> OperationKey(ops[k]) != OperationKey(op)
    {
      if OperationKey(list[i]) == OperationKey(op) {
        list := list[i := op];
        replaced := true;
        break;
      }
      i := i + 1;
    }
    if !replaced {
      list := list + [op];
    }
    UpsertAt(ops, op, i);
    return Sort(list, BY_KEY);
  }

  lemma {:induction false} UpsertMembers(ops: seq<Operation>, op: Operation)
    ensures op in Upsert(ops, op)
    ensures forall o :: o in ops && OperationKey(o) != OperationKey(op) ==> o in Upsert(ops, op)
    ensures forall o :: o in Upsert(ops, op) ==> o == op || o in ops
  {
    if ops != [] {
      assert ops == [ops[0]] + ops[1..];
      UpsertMembers(ops[1..], op);
    }
  }

  lemma {:induction false} UpsertKeepsUnique(ops: seq<Operation>, op: Operation)
    requires UniqueKeys(ops, BY_KEY)
    ensures UniqueKeys(Upsert(ops, op), BY_KEY)
  {
    if ops != [] {
      assert UniqueKeys(ops[1..], BY_KEY);
      if OperationKey(ops[0]) != OperationKey(op) {
        UpsertKeepsUnique(ops[1..], op);
        UpsertMembers(ops[1..], op);
        var rest := Upsert(ops[1..], op);
        forall o | o in rest ensures BY_KEY(o) != BY_KEY(ops[0]) {
          if o != op {
            HeadIsUnique(ops, BY_KEY, o);
          }
        }
      }
    }
  }

  /**
   Recording an operation puts it into the list, loses no record of another key, adds nothing else, keeps
   the list sorted, and keeps keys unique if they were.
   */
  lemma RecordedOperations(ops: seq<Operation>, op: Operation)
    ensures var result := Sort(Upsert(ops, op), BY_KEY);
      && Sorted(result, BY_KEY)
      && op in result
      && (forall o :: o in ops && OperationKey(o) != OperationKey(op) ==> o in result)
      && (forall o :: o in result ==> o == op || o in ops)
      && (UniqueKeys(ops, BY_KEY) ==>
            UniqueKeys(result, BY_KEY) && forall o :: o in result && OperationKey(o) == OperationKey(op) ==> o == op)
  {
    var list := Upsert(ops, op);
    var result := Sort(list, BY_KEY);
    UpsertMembers(ops, op);
    SortIsStableSort(list, BY_KEY);
    forall o ensures o in result <==> o in list {
      assert o in result <==> o in multiset(result);
      assert o in list <==> o in multiset(list);
    }
    if UniqueKeys(ops, BY_KEY) {
      UpsertKeepsUnique(ops, op);
      SortKeepsUnique(list, BY_KEY);
      forall o | o in result && OperationKey(o) == OperationKey(op) ensures o == op {
        OneOfAKey(result, BY_KEY, o, op);
      }
    }
  }
}
