/** The array operations the slices perform on a cached collection whose records are keyed by `_id`:
    `findIndex`, indexed assignment, `map` with a by-key replacement, `filter` on the key, `unshift` and `push`.
    Each takes the key function explicitly so that every slice can use it with its own record type. */
module Collections {

  /** The identifiers of a collection are distinct. */
  ghost predicate UniqueKeys<T, K>(s: seq<T>, key: T -> K) {
    forall i, j :: 0 <= i < j < |s| ==> key(s[i]) != key(s[j])
  }

  ghost predicate HasKey<T, K>(s: seq<T>, key: T -> K, k: K) {
    exists j :: 0 <= j < |s| && key(s[j]) == k
  }

  /** `s.findIndex(e => key(e) === k)`: the index of the first element with key `k`, or -1 when there is none. */
  function FindIndex<T, K(==)>(s: seq<T>, key: T -> K, k: K): (i: int)
    ensures -1 <= i < |s|
    ensures i == -1 <==> !HasKey(s, key, k)
    ensures 0 <= i ==> key(s[i]) == k && forall j :: 0 <= j < i ==> key(s[j]) != k
    decreases |s|
  {
    if |s| == 0 then -1
    else if key(s[0]) == k then 0
    else
      var i := FindIndex(s[1..], key, k);
      if i == -1 then -1 else i + 1
  }

  /** Replaces the first element whose key equals `x`'s key by `x`; every other position is kept. */
  function ReplaceFirst<T, K(==)>(s: seq<T>, key: T -> K, x: T): (r: seq<T>)
    ensures |r| == |s|
    ensures FindIndex(s, key, key(x)) != -1 ==> r[FindIndex(s, key, key(x))] == x
    ensures forall j :: 0 <= j < |s| && j != FindIndex(s, key, key(x)) ==> r[j] == s[j]
    decreases |s|
  {
    if |s| == 0 then []
    else if key(s[0]) == key(x) then [x] + s[1..]
    else [s[0]] + ReplaceFirst(s[1..], key, x)
  }

  /** Replaces every element whose key equals `x`'s key by `x`; every other position is kept. */
  function ReplaceEvery<T, K(==)>(s: seq<T>, key: T -> K, x: T): (r: seq<T>)
    ensures |r| == |s|
    ensures forall j :: 0 <= j < |s| && key(s[j]) == key(x) ==> r[j] == x
    ensures forall j :: 0 <= j < |s| && key(s[j]) != key(x) ==> r[j] == s[j]
    decreases |s|
  {
    if |s| == 0 then []
    else [if key(s[0]) == key(x) then x else s[0]] + ReplaceEvery(s[1..], key, x)
  }

  /** The number of elements whose key is `k`. */
  function CountKey<T, K(==)>(s: seq<T>, key: T -> K, k: K): (n: nat)
    ensures n <= |s|
    ensures n == 0 <==> !HasKey(s, key, k)
    decreases |s|
  {
    if |s| == 0 then 0
    else (if key(s[0]) == k then 1 else 0) + CountKey(s[1..], key, k)
  }

  /** `s.filter(e => key(e) !== k)`: drops every element with key `k` and keeps the others in order. */
  function RemoveKey<T, K(==)>(s: seq<T>, key: T -> K, k: K): (r: seq<T>)
    ensures |r| == |s| - CountKey(s, key, k)
    ensures forall j :: 0 <= j < |r| ==> key(r[j]) != k
    ensures forall j :: 0 <= j < |r| ==> r[j] in s
    ensures forall j :: 0 <= j < |s| && key(s[j]) != k ==> s[j] in r
    decreases |s|
  {
    if |s| == 0 then []
    else if key(s[0]) == k then RemoveKey(s[1..], key, k)
    else [s[0]] + RemoveKey(s[1..], key, k)
  }

  /** The replacement of the first match is exactly the `findIndex` + indexed assignment the supplier slice performs. */
  lemma ReplaceFirstByIndex<T, K>(s: seq<T>, key: T -> K, x: T)
    ensures var i := FindIndex(s, key, key(x));
            ReplaceFirst(s, key, x) == if i == -1 then s else s[i := x]
  {
  }

  /** When nothing matches, both replacements leave the collection as it was. */
  lemma ReplaceNoMatch<T, K>(s: seq<T>, key: T -> K, x: T)
    requires !HasKey(s, key, key(x))
    ensures ReplaceFirst(s, key, x) == s
    ensures ReplaceEvery(s, key, x) == s
  {
    assert ReplaceFirst(s, key, x) == s;
    assert ReplaceEvery(s, key, x) == s;
  }

  /** Replacing the first match twice with the same record is replacing it once. */
  lemma {:induction false} ReplaceFirstIdempotent<T, K>(s: seq<T>, key: T -> K, x: T)
    ensures ReplaceFirst(ReplaceFirst(s, key, x), key, x) == ReplaceFirst(s, key, x)
    decreases |s|
  {
    if |s| > 0 && key(s[0]) != key(x) {
      ReplaceFirstIdempotent(s[1..], key, x);
      assert ReplaceFirst(s, key, x) == [s[0]] + ReplaceFirst(s[1..], key, x);
      assert ReplaceFirst(s, key, x)[1..] == ReplaceFirst(s[1..], key, x);
    } else if |s| > 0 {
      assert ReplaceFirst(s, key, x)[0] == x;
      assert ReplaceFirst(s, key, x)[1..] == s[1..];
    }
  }

  /** With distinct identifiers, replacing every match is replacing the first one: the users slice (`map`)
      and the supplier slice (`findIndex`) then agree. */
  lemma UniqueReplaceEveryIsReplaceFirst<T, K>(s: seq<T>, key: T -> K, x: T)
    requires UniqueKeys(s, key)
    ensures ReplaceEvery(s, key, x) == ReplaceFirst(s, key, x)
  {
    var i := FindIndex(s, key, key(x));
    forall j | 0 <= j < |s| && key(s[j]) == key(x) ensures j == i {
      assert key(s[i]) == key(s[j]);
    }
  }

  /** With repeated identifiers the two replacements differ: the first-match one leaves the second duplicate stale. */
  lemma DuplicateKeysSeparateReplacements()
    ensures var key := (n: int) => n % 10;
            ReplaceFirst([1, 11], key, 21) == [21, 11] && ReplaceEvery([1, 11], key, 21) == [21, 21]
  {
    var key := (n: int) => n % 10;
    assert ReplaceFirst([1, 11], key, 21) == [21] + [11];
    assert ReplaceEvery([1, 11], key, 21) == [21] + ReplaceEvery([11], key, 21);
  }

  /** Filtering out a key that is absent leaves the collection as it was. */
  lemma {:induction false} RemoveAbsentKey<T, K>(s: seq<T>, key: T -> K, k: K)
    requires !HasKey(s, key, k)
    ensures RemoveKey(s, key, k) == s
    decreases |s|
  {
    if |s| > 0 {
      assert key(s[0]) != k;
      assert !HasKey(s[1..], key, k) by {
        forall j | 0 <= j < |s| - 1 ensures key(s[1..][j]) != k { assert s[1..][j] == s[j + 1]; }
      }
      RemoveAbsentKey(s[1..], key, k);
      assert s == [s[0]] + s[1..];
    }
  }

  /** Filtering distributes over concatenation, so the kept elements stay in their original order. */
  lemma {:induction false} RemoveKeyAppend<T, K>(a: seq<T>, b: seq<T>, key: T -> K, k: K)
    ensures RemoveKey(a + b, key, k) == RemoveKey(a, key, k) + RemoveKey(b, key, k)
    decreases |a|
  {
    if |a| > 0 {
      assert (a + b)[1..] == a[1..] + b;
      RemoveKeyAppend(a[1..], b, key, k);
    } else {
      assert a + b == b;
    }
  }

  /** Filtering twice on the same key is filtering once. */
  lemma RemoveKeyIdempotent<T, K>(s: seq<T>, key: T -> K, k: K)
    ensures RemoveKey(RemoveKey(s, key, k), key, k) == RemoveKey(s, key, k)
  {
    RemoveAbsentKey(RemoveKey(s, key, k), key, k);
  }

  /** With distinct identifiers, a present key occurs exactly once. */
  lemma {:induction false} CountUniquePresent<T, K>(s: seq<T>, key: T -> K, k: K)
    requires UniqueKeys(s, key) && HasKey(s, key, k)
    ensures CountKey(s, key, k) == 1
    decreases |s|
  {
    var t := s[1..];
    assert UniqueKeys(t, key) by {
      forall i, j | 0 <= i < j < |t| ensures key(t[i]) != key(t[j]) { assert t[i] == s[i + 1] && t[j] == s[j + 1]; }
    }
    if key(s[0]) == k {
      assert !HasKey(t, key, k) by {
        forall j | 0 <= j < |t| ensures key(t[j]) != k { assert t[j] == s[j + 1]; }
      }
    } else {
      var w :| 0 <= w < |s| && key(s[w]) == k;
      assert key(t[w - 1]) == k;
      CountUniquePresent(t, key, k);
    }
  }

  /** Deleting a present identifier from a collection with distinct identifiers removes exactly one record. */
  lemma RemoveUniquePresent<T, K>(s: seq<T>, key: T -> K, k: K)
    requires UniqueKeys(s, key) && HasKey(s, key, k)
    ensures |RemoveKey(s, key, k)| == |s| - 1
  {
    CountUniquePresent(s, key, k);
  }

  /** Both replacements keep identifiers distinct: the new record takes the key it replaces. */
  lemma ReplaceKeepsUnique<T, K>(s: seq<T>, key: T -> K, x: T)
    requires UniqueKeys(s, key)
    ensures UniqueKeys(ReplaceFirst(s, key, x), key)
    ensures UniqueKeys(ReplaceEvery(s, key, x), key)
  {
    var r := ReplaceFirst(s, key, x);
    forall i, j | 0 <= i < j < |r| ensures key(r[i]) == key(s[i]) && key(r[j]) == key(s[j]) {}
    UniqueReplaceEveryIsReplaceFirst(s, key, x);
  }

  /** Filtering keeps identifiers distinct. */
  lemma {:induction false} RemoveKeepsUnique<T, K>(s: seq<T>, key: T -> K, k: K)
    requires UniqueKeys(s, key)
    ensures UniqueKeys(RemoveKey(s, key, k), key)
    decreases |s|
  {
    if |s| > 0 {
      var t := s[1..];
      assert UniqueKeys(t, key) by {
        forall i, j | 0 <= i < j < |t| ensures key(t[i]) != key(t[j]) { assert t[i] == s[i + 1] && t[j] == s[j + 1]; }
      }
      RemoveKeepsUnique(t, key, k);
      if key(s[0]) != k {
        var r := RemoveKey(t, key, k);
        forall j | 0 <= j < |r| ensures key(r[j]) != key(s[0]) {
          var w :| 0 <= w < |t| && t[w] == r[j];
          assert key(s[w + 1]) != key(s[0]);
        }
        assert RemoveKey(s, key, k) == [s[0]] + r;
      }
    }
  }

  /** Adding a record at the head (`unshift`) or the tail (`push`) keeps identifiers distinct
      exactly when its identifier is new. */
  lemma InsertKeepsUnique<T, K>(s: seq<T>, key: T -> K, x: T)
    requires UniqueKeys(s, key)
    ensures UniqueKeys([x] + s, key) <==> !HasKey(s, key, key(x))
    ensures UniqueKeys(s + [x], key) <==> !HasKey(s, key, key(x))
  {
    if HasKey(s, key, key(x)) {
      var w :| 0 <= w < |s| && key(s[w]) == key(x);
      assert key(([x] + s)[0]) == key(([x] + s)[w + 1]);
      assert key((s + [x])[w]) == key((s + [x])[|s|]);
    }
  }
}
