/** Operations on sequences of records looked up by an integer key: the array methods
    `findIndex`, `find`, `some` and `filter` as the slices use them, and the invariant
    that no key occurs twice. */
module Seqs {
  import opened Wrappers

  /** Some element of `s` has key `id` (`Array.prototype.some`). */
  predicate Contains<T>(s: seq<T>, key: T -> int, id: int) {
    exists i :: 0 <= i < |s| && key(s[i]) == id
  }

  /** No two elements of `s` share a key. */
  predicate Distinct<T>(s: seq<T>, key: T -> int) {
    forall i, j :: 0 <= i < j < |s| ==> key(s[i]) != key(s[j])
  }

  /** The position of the first element with key `id`, or None when there is none. */
  function IndexOf<T>(s: seq<T>, key: T -> int, id: int): (r: Option<nat>)
    ensures r.Some? ==> r.value < |s| && key(s[r.value]) == id
    ensures r.Some? ==> forall j :: 0 <= j < r.value ==> key(s[j]) != id
    ensures r.None? <==> !Contains(s, key, id)
  {
    if |s| == 0 then None
    else if key(s[0]) == id then Some(0)
    else
      match IndexOf(s[1..], key, id)
      case None => None
      case Some(i) => Some(i + 1)
  }

  /** Where keys are distinct, the key held at position `i` is found at `i`. */
  lemma {:induction false} IndexOfAt<T>(s: seq<T>, key: T -> int, i: nat)
    requires Distinct(s, key) && i < |s|
    ensures IndexOf(s, key, key(s[i])) == Some(i)
  {
    assert Contains(s, key, key(s[i]));
  }

  /** `findIndex`: a left-to-right scan returning the first position holding key `id`,
      or -1 when no element has that key. */
  method FindIndex<T>(s: seq<T>, key: T -> int, id: int) returns (idx: int)
    ensures -1 <= idx < |s|
    ensures idx == -1 <==> !Contains(s, key, id)
    ensures 0 <= idx ==> key(s[idx]) == id && forall j :: 0 <= j < idx ==> key(s[j]) != id
    ensures 0 <= idx ==> IndexOf(s, key, id) == Some(idx)
  {
    idx := 0;
    while idx < |s|
      invariant 0 <= idx <= |s|
      invariant forall j :: 0 <= j < idx ==> key(s[j]) != id
    {
      if key(s[idx]) == id {
        return;
      }
      idx := idx + 1;
    }
    idx := -1;
  }

  /** `filter(x => key(x) !== id)`: the elements whose key is not `id`, in their order. */
  function Without<T>(s: seq<T>, key: T -> int, id: int): (r: seq<T>)
    ensures |r| <= |s|
    ensures !Contains(r, key, id)
  {
    if |s| == 0 then []
    else (if key(s[0]) == id then [] else [s[0]]) + Without(s[1..], key, id)
  }

  /** Filtering keeps exactly the elements whose key is not `id`. */
  lemma {:induction false} WithoutMembers<T>(s: seq<T>, key: T -> int, id: int)
    ensures forall k :: 0 <= k < |Without(s, key, id)| ==> Without(s, key, id)[k] in s
    ensures forall k :: 0 <= k < |s| && key(s[k]) != id ==> s[k] in Without(s, key, id)
  {
    if |s| > 0 {
      var tail := s[1..];
      WithoutMembers(tail, key, id);
      var head := if key(s[0]) == id then [] else [s[0]];
      assert Without(s, key, id) == head + Without(tail, key, id);
      forall k | 0 <= k < |s| && key(s[k]) != id ensures s[k] in Without(s, key, id) {
        if k > 0 {
          assert s[k] == tail[k - 1];
        }
      }
    }
  }

  /** Filtering out a key that does not occur changes nothing. */
  lemma {:induction false} WithoutAbsent<T>(s: seq<T>, key: T -> int, id: int)
    requires !Contains(s, key, id)
    ensures Without(s, key, id) == s
  {
    if |s| > 0 {
      assert key(s[0]) != id;
      assert !Contains(s[1..], key, id) by {
        forall i | 0 <= i < |s[1..]| ensures key(s[1..][i]) != id {
          assert s[1..][i] == s[i + 1];
        }
      }
      WithoutAbsent(s[1..], key, id);
      assert s == [s[0]] + s[1..];
    }
  }

  /** In a sequence without repeated keys, filtering out the key held at position `i`
      is the same as cutting out that one position: all other elements keep their order. */
  lemma {:induction false} WithoutAt<T>(s: seq<T>, key: T -> int, i: nat)
    requires Distinct(s, key) && i < |s|
    ensures Without(s, key, key(s[i])) == s[..i] + s[i + 1..]
  {
    var id, tail := key(s[i]), s[1..];
    assert Without(s, key, id) == (if key(s[0]) == id then [] else [s[0]]) + Without(tail, key, id);
    if i == 0 {
      assert !Contains(tail, key, id) by {
        forall j | 0 <= j < |tail| ensures key(tail[j]) != id {
          assert tail[j] == s[j + 1];
        }
      }
      WithoutAbsent(tail, key, id);
    } else {
      assert key(s[0]) != id;
      assert Distinct(tail, key) by {
        forall a, b | 0 <= a < b < |tail| ensures key(tail[a]) != key(tail[b]) {
          assert tail[a] == s[a + 1] && tail[b] == s[b + 1];
        }
      }
      assert tail[i - 1] == s[i];
      WithoutAt(tail, key, i - 1);
      assert [s[0]] + tail[..i - 1] == s[..i];
      assert tail[i..] == s[i + 1..];
    }
  }

  /** Filtering is idempotent. */
  lemma {:induction false} WithoutTwice<T>(s: seq<T>, key: T -> int, id: int)
    ensures Without(Without(s, key, id), key, id) == Without(s, key, id)
  {
    WithoutAbsent(Without(s, key, id), key, id);
  }

  /** Filtering keeps keys distinct. */
  lemma {:induction false} WithoutDistinct<T>(s: seq<T>, key: T -> int, id: int)
    requires Distinct(s, key)
    ensures Distinct(Without(s, key, id), key)
  {
    if |s| > 0 {
      var tail := s[1..];
      assert Distinct(tail, key) by {
        forall a, b | 0 <= a < b < |tail| ensures key(tail[a]) != key(tail[b]) {
          assert tail[a] == s[a + 1] && tail[b] == s[b + 1];
        }
      }
      WithoutDistinct(tail, key, id);
      WithoutMembers(tail, key, id);
      var rest := Without(tail, key, id);
      forall m | 0 <= m < |rest| ensures key(rest[m]) != key(s[0]) {
        assert rest[m] in tail;
        var k :| 0 <= k < |tail| && tail[k] == rest[m];
        assert s[k + 1] == rest[m];
      }
    }
  }

  /** Appending an element whose key is new keeps keys distinct. */
  lemma {:induction false} AppendDistinct<T>(s: seq<T>, key: T -> int, x: T)
    requires Distinct(s, key) && !Contains(s, key, key(x))
    ensures Distinct(s + [x], key)
  {
  }

  /** Cutting out one position keeps keys distinct. */
  lemma {:induction false} SpliceDistinct<T>(s: seq<T>, key: T -> int, i: nat)
    requires Distinct(s, key) && i < |s|
    ensures Distinct(s[..i] + s[i + 1..], key)
  {
    var t := s[..i] + s[i + 1..];
    forall a, b | 0 <= a < b < |t| ensures key(t[a]) != key(t[b]) {
      var a', b' := if a < i then a else a + 1, if b < i then b else b + 1;
      assert t[a] == s[a'] && t[b] == s[b'];
    }
  }

  /** Replacing an element by one with the same key keeps keys distinct. */
  lemma {:induction false} UpdateDistinct<T>(s: seq<T>, key: T -> int, i: nat, y: T)
    requires Distinct(s, key) && i < |s| && key(y) == key(s[i])
    ensures Distinct(s[i := y], key)
  {
  }
}
