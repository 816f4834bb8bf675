/** Sorted, duplicate-free lists: the normal form behind canonical group declarations. */
module Canonical {
  import opened Basics

  // ---------------------------------------------------------------------------
  // The byte order
  // ---------------------------------------------------------------------------

  /** bytes.Compare(a, b) < 0. */
  predicate Less(a: Bytes, b: Bytes) {
    b != [] && (a == [] || a[0] < b[0] || (a[0] == b[0] && Less(a[1..], b[1..])))
  }

  lemma {:induction false} LessIsStrict(a: Bytes)
    ensures !Less(a, a)
  {
    if a != [] {
      LessIsStrict(a[1..]);
    }
  }

  lemma {:induction false} LessIsTransitive(a: Bytes, b: Bytes, c: Bytes)
    requires Less(a, b) && Less(b, c)
    ensures Less(a, c)
  {
    if a != [] && a[0] == b[0] && b[0] == c[0] {
      LessIsTransitive(a[1..], b[1..], c[1..]);
    }
  }

  lemma {:induction false} LessIsTotal(a: Bytes, b: Bytes)
    ensures a == b || Less(a, b) || Less(b, a)
  {
    if a != [] && b != [] && a[0] == b[0] {
      LessIsTotal(a[1..], b[1..]);
      assert a == [a[0]] + a[1..] && b == [b[0]] + b[1..];
    }
  }

  // ---------------------------------------------------------------------------
  // Sorted and unique by key, the first of equal keys winning
  // ---------------------------------------------------------------------------

  predicate Increasing<T>(values: seq<T>, key: T -> Bytes) {
    forall i, j :: 0 <= i < j < |values| ==> Less(key(values[i]), key(values[j]))
  }

  function Place<T>(sorted: seq<T>, x: T, key: T -> Bytes): seq<T> {
    if sorted == [] || Less(key(x), key(sorted[0])) then [x] + sorted
    else if key(sorted[0]) == key(x) then sorted
    else [sorted[0]] + Place(sorted[1..], x, key)
  }

  function SortUnique<T>(values: seq<T>, key: T -> Bytes): seq<T> {
    if values == [] then [] else Place(SortUnique(values[..|values| - 1], key), values[|values| - 1], key)
  }

  predicate HasKey<T>(values: seq<T>, key: T -> Bytes, k: Bytes) {
    exists i :: 0 <= i < |values| && key(values[i]) == k
  }

  lemma HasKeyTail<T(!new)>(values: seq<T>, key: T -> Bytes, k: Bytes)
    requires values != []
    ensures HasKey(values, key, k) <==> key(values[0]) == k || HasKey(values[1..], key, k)
  {
    if HasKey(values[1..], key, k) {
      var i :| 0 <= i < |values[1..]| && key(values[1..][i]) == k;
      assert key(values[i + 1]) == k;
    }
    if HasKey(values, key, k) && key(values[0]) != k {
      var i :| 0 <= i < |values| && key(values[i]) == k;
      assert key(values[1..][i - 1]) == k;
    }
  }

  /** The members of `placed` are those of `sorted` and, if it is new, x. */
  ghost predicate Adds<T(!new)>(placed: seq<T>, sorted: seq<T>, x: T, isNew: bool) {
    forall y :: y in placed <==> y in sorted || (y == x && isNew)
  }

  lemma MemberOf<T(!new)>(placed: seq<T>, sorted: seq<T>, x: T, isNew: bool, i: nat)
    requires Adds(placed, sorted, x, isNew) && i < |placed|
    ensures placed[i] in sorted || placed[i] == x
  {
    assert placed[i] in placed;
  }

  /** Placing keeps the order and adds the value exactly if its key is new. */
  lemma {:induction false} PlaceSorted<T(!new)>(sorted: seq<T>, x: T, key: T -> Bytes)
    requires Increasing(sorted, key)
    ensures Increasing(Place(sorted, x, key), key)
    ensures Adds(Place(sorted, x, key), sorted, x, !HasKey(sorted, key, key(x)))
    ensures sorted != [] && !Less(key(x), key(sorted[0])) ==>
            Place(sorted, x, key) != [] && Place(sorted, x, key)[0] == sorted[0]
  {
    if sorted == [] {
    } else if Less(key(x), key(sorted[0])) {
      PlaceFirst(sorted, x, key);
    } else if key(sorted[0]) == key(x) {
      HasKeyTail(sorted, key, key(x));
    } else {
      LessIsTotal(key(x), key(sorted[0]));
      var rest := sorted[1..];
      assert Increasing(rest, key);
      PlaceSorted(rest, x, key);
      HasKeyTail(sorted, key, key(x));
      var placed := Place(rest, x, key);
      forall i | 0 <= i < |placed|
        ensures placed[i] in rest || placed[i] == x
      {
        MemberOf(placed, rest, x, !HasKey(rest, key, key(x)), i);
      }
      PlaceLater(sorted, x, key);
      assert sorted == [sorted[0]] + rest;
    }
  }

  lemma PlaceFirst<T(!new)>(sorted: seq<T>, x: T, key: T -> Bytes)
    requires Increasing(sorted, key) && sorted != [] && Less(key(x), key(sorted[0]))
    ensures Increasing([x] + sorted, key) && !HasKey(sorted, key, key(x))
  {
    forall j | 0 <= j < |sorted|
      ensures Less(key(x), key(sorted[j])) && key(sorted[j]) != key(x)
    {
      if j > 0 {
        LessIsTransitive(key(x), key(sorted[0]), key(sorted[j]));
      }
      LessIsStrict(key(x));
    }
  }

  lemma PlaceLater<T(!new)>(sorted: seq<T>, x: T, key: T -> Bytes)
    requires Increasing(sorted, key) && sorted != [] && Less(key(sorted[0]), key(x))
    requires Increasing(Place(sorted[1..], x, key), key)
    requires forall i :: 0 <= i < |Place(sorted[1..], x, key)| ==>
               Place(sorted[1..], x, key)[i] in sorted[1..] || Place(sorted[1..], x, key)[i] == x
    ensures Increasing([sorted[0]] + Place(sorted[1..], x, key), key)
  {
    var placed := Place(sorted[1..], x, key);
    forall j | 0 <= j < |placed|
      ensures Less(key(sorted[0]), key(placed[j]))
    {
      if placed[j] in sorted[1..] {
        var i :| 0 <= i < |sorted[1..]| && sorted[1..][i] == placed[j];
        assert sorted[i + 1] == placed[j];
      }
    }
  }

  /** The result is in strict order, holds only given values, and one for every key. */
  lemma {:induction false} SortUniqueOk<T(!new)>(values: seq<T>, key: T -> Bytes)
    ensures Increasing(SortUnique(values, key), key)
    ensures forall i :: 0 <= i < |SortUnique(values, key)| ==> SortUnique(values, key)[i] in values
    ensures forall k :: HasKey(SortUnique(values, key), key, k) <==> HasKey(values, key, k)
  {
    if values != [] {
      var front, x := values[..|values| - 1], values[|values| - 1];
      var sorted := SortUnique(front, key);
      SortUniqueOk(front, key);
      PlaceSorted(sorted, x, key);
      assert values == front + [x];
      var placed := SortUnique(values, key);
      forall i | 0 <= i < |placed|
        ensures placed[i] in values
      {
        MemberOf(placed, sorted, x, !HasKey(sorted, key, key(x)), i);
        if placed[i] in sorted {
          var j :| 0 <= j < |sorted| && sorted[j] == placed[i];
          assert sorted[j] in front;
        }
      }
      forall k: Bytes
        ensures HasKey(SortUnique(values, key), key, k) <==> HasKey(values, key, k)
      {
        HasKeySnoc(front, x, key, k);
        PlacedKeys(sorted, x, key, k);
      }
    }
  }

  lemma {:induction false} PlaceSize<T(!new)>(sorted: seq<T>, x: T, key: T -> Bytes)
    ensures 1 <= |Place(sorted, x, key)| <= |sorted| + 1
  {
    if sorted != [] {
      PlaceSize(sorted[1..], x, key);
    }
  }

  /** The result is no longer than the input, and empty only if the input is. */
  lemma {:induction false} SortUniqueSize<T(!new)>(values: seq<T>, key: T -> Bytes)
    ensures |SortUnique(values, key)| <= |values| && (values != [] ==> SortUnique(values, key) != [])
  {
    if values != [] {
      var front := values[..|values| - 1];
      SortUniqueSize(front, key);
      PlaceSize(SortUnique(front, key), values[|values| - 1], key);
    }
  }

  lemma HasKeySnoc<T(!new)>(front: seq<T>, x: T, key: T -> Bytes, k: Bytes)
    ensures HasKey(front + [x], key, k) <==> HasKey(front, key, k) || key(x) == k
  {
    var all := front + [x];
    if HasKey(front, key, k) {
      var i :| 0 <= i < |front| && key(front[i]) == k;
      assert key(all[i]) == k;
    }
    if key(x) == k {
      assert key(all[|front|]) == k;
    }
  }

  lemma PlacedKeys<T(!new)>(sorted: seq<T>, x: T, key: T -> Bytes, k: Bytes)
    requires Adds(Place(sorted, x, key), sorted, x, !HasKey(sorted, key, key(x)))
    ensures HasKey(Place(sorted, x, key), key, k) <==> HasKey(sorted, key, k) || key(x) == k
  {
    var placed := Place(sorted, x, key);
    if HasKey(placed, key, k) {
      var i :| 0 <= i < |placed| && key(placed[i]) == k;
      assert placed[i] in placed;
      if placed[i] in sorted {
        var j :| 0 <= j < |sorted| && sorted[j] == placed[i];
      }
    }
    if HasKey(sorted, key, k) {
      var i :| 0 <= i < |sorted| && key(sorted[i]) == k;
      assert sorted[i] in placed;
      var j :| 0 <= j < |placed| && placed[j] == sorted[i];
    }
    if key(x) == k && !HasKey(sorted, key, k) {
      assert x in placed;
      var j :| 0 <= j < |placed| && placed[j] == x;
    }
  }

  /** What is in strict order already is left as it is. */
  lemma {:induction false} SortedIsFixed<T(!new)>(values: seq<T>, key: T -> Bytes)
    requires Increasing(values, key)
    ensures SortUnique(values, key) == values
  {
    if values != [] {
      var front, x := values[..|values| - 1], values[|values| - 1];
      SortedIsFixed(front, key);
      PlaceLast(front, x, key);
      assert values == front + [x];
    }
  }

  lemma {:induction false} PlaceLast<T(!new)>(front: seq<T>, x: T, key: T -> Bytes)
    requires forall i :: 0 <= i < |front| ==> Less(key(front[i]), key(x))
    ensures Place(front, x, key) == front + [x]
  {
    if front != [] {
      assert Less(key(front[0]), key(x));
      LessIsStrict(key(x));
      if Less(key(x), key(front[0])) {
        LessIsTransitive(key(x), key(front[0]), key(x));
      }
      PlaceLast(front[1..], x, key);
      assert front == [front[0]] + front[1..];
    }
  }

  /** Two lists in strict order with the same members are the same list. */
  lemma {:induction false} SameMembersSameList<T(!new)>(a: seq<T>, b: seq<T>, key: T -> Bytes)
    requires Increasing(a, key) && Increasing(b, key) && forall y :: y in a <==> y in b
    ensures a == b
  {
    if b != [] {
      Inhabited(b, a);
    }
    if a != [] {
      Inhabited(a, b);
      assert a[0] in b;
      assert b[0] in a;
      FirstIsSame(a, b, key);
      TailMembers(a, b, key);
      SameMembersSameList(a[1..], b[1..], key);
      assert a == [a[0]] + a[1..] && b == [b[0]] + b[1..];
    }
  }

  lemma Inhabited<T(!new)>(a: seq<T>, b: seq<T>)
    requires a != [] && forall y :: y in a ==> y in b
    ensures b != []
  {
    assert a[0] in b;
  }

  lemma FirstIsSame<T(!new)>(a: seq<T>, b: seq<T>, key: T -> Bytes)
    requires Increasing(a, key) && Increasing(b, key) && a != [] && b != [] && a[0] in b && b[0] in a
    ensures a[0] == b[0]
  {
    if a[0] != b[0] {
      var i :| 0 <= i < |a| && a[i] == b[0];
      var j :| 0 <= j < |b| && b[j] == a[0];
      assert Less(key(a[0]), key(b[0])) && Less(key(b[0]), key(a[0]));
      LessIsTransitive(key(a[0]), key(b[0]), key(a[0]));
      LessIsStrict(key(a[0]));
    }
  }

  lemma TailMembers<T(!new)>(a: seq<T>, b: seq<T>, key: T -> Bytes)
    requires Increasing(a, key) && Increasing(b, key) && a != [] && b != [] && a[0] == b[0]
    requires forall y :: y in a <==> y in b
    ensures forall y :: y in a[1..] <==> y in b[1..]
  {
    HeadNotInTail(a, key);
    HeadNotInTail(b, key);
    forall y: T
      ensures y in a[1..] <==> y in b[1..]
    {
      InTail(a, y);
      InTail(b, y);
    }
  }

  lemma InTail<T(!new)>(a: seq<T>, y: T)
    requires a != []
    ensures y in a <==> y == a[0] || y in a[1..]
  {
    assert a == [a[0]] + a[1..];
  }

  lemma HeadNotInTail<T(!new)>(a: seq<T>, key: T -> Bytes)
    requires Increasing(a, key) && a != []
    ensures a[0] !in a[1..]
  {
    LessIsStrict(key(a[0]));
    forall i | 0 <= i < |a[1..]|
      ensures a[1..][i] != a[0]
    {
      assert a[1..][i] == a[i + 1];
    }
  }

  // ---------------------------------------------------------------------------
  // The two-pass form of the program: sort, then compact
  // ---------------------------------------------------------------------------

  predicate Sorted<T>(values: seq<T>, key: T -> Bytes) {
    forall i, j :: 0 <= i < j < |values| ==> !Less(key(values[j]), key(values[i]))
  }

  /** compactSortedStrings: one pass over a sorted list drops every repetition. */
  method Compact<T(!new)>(values: seq<T>, key: T -> Bytes) returns (result: seq<T>)
    requires Sorted(values, key)
    ensures Increasing(result, key)
    ensures forall y :: y in result ==> y in values
    ensures forall k :: HasKey(result, key, k) <==> HasKey(values, key, k)
  {
    result := [];
    var i := 0;
    while i < |values|
      invariant i <= |values| && Increasing(result, key)
      invariant forall y :: y in result ==> y in values[..i]
      invariant forall k :: HasKey(result, key, k) <==> HasKey(values[..i], key, k)
      invariant if i == 0 then result == [] else result != [] && key(result[|result| - 1]) == key(values[i - 1])
    {
      var x := values[i];
      assert values[..i + 1] == values[..i] + [x];
      ghost var before := result;
      if result == [] || key(result[|result| - 1]) != key(x) {
        if result != [] {
          assert !Less(key(x), key(values[i - 1]));
          LessIsTotal(key(x), key(result[|result| - 1]));
          AppendLarger(result, x, key);
        }
        result := result + [x];
      }
      forall k: Bytes
        ensures HasKey(result, key, k) <==> HasKey(values[..i + 1], key, k)
      {
        HasKeySnoc(values[..i], x, key, k);
        HasKeySnoc(before, x, key, k);
        if key(x) == k && result == before {
          assert key(before[|before| - 1]) == k;
        }
      }
      i := i + 1;
    }
    assert values[..i] == values;
  }

  lemma AppendLarger<T(!new)>(result: seq<T>, x: T, key: T -> Bytes)
    requires Increasing(result, key) && result != [] && Less(key(result[|result| - 1]), key(x))
    ensures Increasing(result + [x], key)
  {
    forall i | 0 <= i < |result|
      ensures Less(key(result[i]), key(x))
    {
      if i < |result| - 1 {
        LessIsTransitive(key(result[i]), key(result[|result| - 1]), key(x));
      }
    }
  }

  /** sort.Slice, as insertion: any order that does not decrease, nothing lost or added. */
  method Sort<T(!new)>(values: seq<T>, key: T -> Bytes) returns (result: seq<T>)
    ensures Sorted(result, key) && multiset(result) == multiset(values)
  {
    result := [];
    for i := 0 to |values|
      invariant Sorted(result, key) && multiset(result) == multiset(values[..i])
    {
      assert values[..i + 1] == values[..i] + [values[i]];
      result := InsertSorted(result, values[i], key);
    }
    assert values[..|values|] == values;
  }

  method InsertSorted<T(!new)>(sorted: seq<T>, x: T, key: T -> Bytes) returns (result: seq<T>)
    requires Sorted(sorted, key)
    ensures Sorted(result, key) && multiset(result) == multiset(sorted) + multiset{x}
  {
    var i := 0;
    while i < |sorted| && !Less(key(x), key(sorted[i]))
      invariant i <= |sorted|
      invariant forall j :: 0 <= j < i ==> !Less(key(x), key(sorted[j]))
    {
      i := i + 1;
    }
    result := sorted[..i] + [x] + sorted[i..];
    InsertedSorted(sorted, x, key, i);
    assert sorted == sorted[..i] + sorted[i..];
  }

  lemma InsertedSorted<T(!new)>(sorted: seq<T>, x: T, key: T -> Bytes, i: nat)
    requires Sorted(sorted, key) && i <= |sorted| && (forall j :: 0 <= j < i ==> !Less(key(x), key(sorted[j])))
    requires i < |sorted| ==> Less(key(x), key(sorted[i]))
    ensures Sorted(sorted[..i] + [x] + sorted[i..], key)
  {
    forall j | i <= j < |sorted|
      ensures !Less(key(sorted[j]), key(x))
    {
      if Less(key(sorted[j]), key(x)) {
        LessIsTransitive(key(sorted[j]), key(x), key(sorted[i]));
        LessIsStrict(key(sorted[i]));
      }
    }
  }

  // ---------------------------------------------------------------------------
  // Which values survive
  // ---------------------------------------------------------------------------

  /** y is the first of the values with its key. */
  ghost predicate Wins<T>(values: seq<T>, key: T -> Bytes, y: T) {
    exists i :: 0 <= i < |values| && values[i] == y && forall j :: 0 <= j < i ==> key(values[j]) != key(y)
  }

  ghost predicate SameWinners<T(!new)>(a: seq<T>, b: seq<T>, key: T -> Bytes) {
    forall y :: Wins(a, key, y) <==> Wins(b, key, y)
  }

  lemma WinsSnoc<T(!new)>(front: seq<T>, x: T, key: T -> Bytes, y: T)
    ensures Wins(front + [x], key, y) <==> Wins(front, key, y) || (y == x && !HasKey(front, key, key(x)))
  {
    var all := front + [x];
    if Wins(front, key, y) {
      var i :| 0 <= i < |front| && front[i] == y && forall j :: 0 <= j < i ==> key(front[j]) != key(y);
      assert all[i] == y && forall j :: 0 <= j < i ==> key(all[j]) != key(y);
    }
    if y == x && !HasKey(front, key, key(x)) {
      assert all[|front|] == y && forall j :: 0 <= j < |front| ==> key(all[j]) != key(y);
    }
    if Wins(all, key, y) {
      var i :| 0 <= i < |all| && all[i] == y && forall j :: 0 <= j < i ==> key(all[j]) != key(y);
      forall j | 0 <= j < i
        ensures key(front[j]) != key(y)
      {
        assert all[j] == front[j];
      }
      if i < |front| {
        assert front[i] == y;
      }
    }
  }

  /** Exactly the first of each key survives. */
  lemma {:induction false} Survivors<T(!new)>(values: seq<T>, key: T -> Bytes, y: T)
    ensures y in SortUnique(values, key) <==> Wins(values, key, y)
  {
    if values != [] {
      var front, x := values[..|values| - 1], values[|values| - 1];
      var sorted := SortUnique(front, key);
      assert values == front + [x];
      Survivors(front, key, y);
      SortUniqueOk(front, key);
      PlaceSorted(sorted, x, key);
      WinsSnoc(front, x, key, y);
      assert HasKey(sorted, key, key(x)) <==> HasKey(front, key, key(x));
      PlacedMember(Place(sorted, x, key), sorted, x, !HasKey(sorted, key, key(x)), y);
    }
  }

  lemma PlacedMember<T(!new)>(placed: seq<T>, sorted: seq<T>, x: T, isNew: bool, y: T)
    requires Adds(placed, sorted, x, isNew)
    ensures y in placed <==> y in sorted || (y == x && isNew)
  {
  }

  /** Two lists have the same normal form exactly if the same values win in both. */
  lemma SameFormIff<T(!new)>(a: seq<T>, b: seq<T>, key: T -> Bytes)
    ensures SortUnique(a, key) == SortUnique(b, key) <==> SameWinners(a, b, key)
  {
    var x, y := SortUnique(a, key), SortUnique(b, key);
    if x == y {
      forall v: T
        ensures Wins(a, key, v) <==> Wins(b, key, v)
      {
        Survivors(a, key, v);
        Survivors(b, key, v);
      }
    }
    if SameWinners(a, b, key) {
      SortUniqueOk(a, key);
      SortUniqueOk(b, key);
      forall v: T
        ensures v in x <==> v in y
      {
        Survivors(a, key, v);
        Survivors(b, key, v);
        assert Wins(a, key, v) <==> Wins(b, key, v);
      }
      SameMembersSameList(x, y, key);
    }
  }

  ghost predicate Faithful<T(!new)>(key: T -> Bytes) {
    forall a, b :: key(a) == key(b) ==> a == b
  }

  /** With a key that tells values apart, the members win and nothing else. */
  lemma {:induction false} FaithfulWins<T(!new)>(values: seq<T>, key: T -> Bytes, y: T)
    requires Faithful(key)
    ensures Wins(values, key, y) <==> y in values
  {
    if values != [] {
      var front, x := values[..|values| - 1], values[|values| - 1];
      assert values == front + [x];
      WinsSnoc(front, x, key, y);
      FaithfulWins(front, key, y);
      if y == x && HasKey(front, key, key(x)) {
        var i :| 0 <= i < |front| && key(front[i]) == key(x);
        assert front[i] == x;
      }
    }
  }

  /** sortedUniqueCanonical and sortedUniqueStrings: sorting and compacting is the normal form. */
  method SortedUnique<T(!new)>(values: seq<T>, key: T -> Bytes) returns (result: seq<T>)
    requires Faithful(key)
    ensures result == SortUnique(values, key)
  {
    var sorted := Sort(values, key);
    result := Compact(sorted, key);
    forall y: T
      ensures y in result <==> y in SortUnique(values, key)
    {
      Survivors(values, key, y);
      FaithfulWins(values, key, y);
      KeptMember(sorted, result, key, y);
      assert y in multiset(sorted) <==> y in multiset(values);
    }
    SortUniqueOk(values, key);
    SameMembersSameList(result, SortUnique(values, key), key);
  }

  lemma KeptMember<T(!new)>(sorted: seq<T>, result: seq<T>, key: T -> Bytes, y: T)
    requires Faithful(key) && (forall v :: v in result ==> v in sorted)
    requires forall k :: HasKey(result, key, k) <==> HasKey(sorted, key, k)
    ensures y in result <==> y in sorted
  {
    if y in sorted {
      var i :| 0 <= i < |sorted| && sorted[i] == y;
      assert HasKey(sorted, key, key(y));
      assert HasKey(result, key, key(y));
      var j :| 0 <= j < |result| && key(result[j]) == key(y);
      assert result[j] == y;
    }
  }

  /** normalizeMeshHeaders and normalizeMeshQueries: the first of each name, then sorted. */
  method FirstWins<T(!new)>(values: seq<T>, key: T -> Bytes) returns (result: seq<T>)
    ensures result == SortUnique(values, key)
  {
    var unique: seq<T> := [];
    for i := 0 to |values|
      invariant forall j, k :: 0 <= j < k < |unique| ==> key(unique[j]) != key(unique[k])
      invariant forall y :: y in unique <==> Wins(values[..i], key, y)
      invariant forall k :: HasKey(unique, key, k) <==> HasKey(values[..i], key, k)
    {
      var x := values[i];
      assert values[..i + 1] == values[..i] + [x];
      var duplicate := false;
      for j := 0 to |unique|
        invariant duplicate <==> exists k :: 0 <= k < j && key(unique[k]) == key(x)
      {
        if key(unique[j]) == key(x) {
          duplicate := true;
        }
      }
      assert duplicate <==> HasKey(unique, key, key(x));
      ghost var before := unique;
      if !duplicate {
        unique := unique + [x];
      }
      forall y: T
        ensures y in unique <==> Wins(values[..i + 1], key, y)
      {
        WinsSnoc(values[..i], x, key, y);
        assert y in before <==> Wins(values[..i], key, y);
      }
      forall k: Bytes
        ensures HasKey(unique, key, k) <==> HasKey(values[..i + 1], key, k)
      {
        HasKeySnoc(values[..i], x, key, k);
        HasKeySnoc(before, x, key, k);
      }
    }
    assert values[..|values|] == values;
    result := Sort(unique, key);
    StrictlySorted(unique, result, key);
    SortUniqueOk(values, key);
    forall y: T
      ensures y in result <==> y in SortUnique(values, key)
    {
      Survivors(values, key, y);
      assert y in multiset(result) <==> y in multiset(unique);
    }
    SameMembersSameList(result, SortUnique(values, key), key);
  }

  /** Sorting values whose keys differ gives a strict order. */
  lemma StrictlySorted<T(!new)>(unique: seq<T>, sorted: seq<T>, key: T -> Bytes)
    requires Sorted(sorted, key) && multiset(sorted) == multiset(unique)
    requires forall j, k :: 0 <= j < k < |unique| ==> key(unique[j]) != key(unique[k])
    ensures Increasing(sorted, key)
  {
    forall i, j | 0 <= i < j < |sorted|
      ensures Less(key(sorted[i]), key(sorted[j]))
    {
      LessIsTotal(key(sorted[i]), key(sorted[j]));
      if key(sorted[i]) == key(sorted[j]) {
        OnePerKey(unique, sorted, key, i, j);
      }
    }
  }

  lemma OnePerKey<T(!new)>(unique: seq<T>, sorted: seq<T>, key: T -> Bytes, i: nat, j: nat)
    requires multiset(sorted) == multiset(unique) && i < j < |sorted|
    requires forall a, b :: 0 <= a < b < |unique| ==> key(unique[a]) != key(unique[b])
    ensures key(sorted[i]) != key(sorted[j])
  {
    assert sorted[i] in multiset(unique) && sorted[j] in multiset(unique);
    var a :| 0 <= a < |unique| && unique[a] == sorted[i];
    var b :| 0 <= b < |unique| && unique[b] == sorted[j];
    if a == b {
      Twice(sorted, i, j);
      Once(unique, key, a);
    }
  }

  lemma Twice<T>(s: seq<T>, i: nat, j: nat)
    requires i < j < |s| && s[i] == s[j]
    ensures multiset(s)[s[i]] >= 2
  {
    assert s == s[..j] + [s[j]] + s[j + 1..];
    assert s[i] in multiset(s[..j]) by { assert s[..j][i] == s[i]; }
  }

  lemma Once<T(!new)>(s: seq<T>, key: T -> Bytes, a: nat)
    requires a < |s| && forall x, y :: 0 <= x < y < |s| ==> key(s[x]) != key(s[y])
    ensures multiset(s)[s[a]] == 1
  {
    assert s == s[..a] + [s[a]] + s[a + 1..];
    assert s[a] !in s[..a] && s[a] !in s[a + 1..];
  }
}
