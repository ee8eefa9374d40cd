/**
 * Keeping the first element per key, in order of first occurrence: the
 * behaviour of filling a dictionary only with keys not yet present and
 * reading its values back in insertion order.
 */
module Dedup {

  /** The keys of the elements of `s`, in order. */
  function KeysOf<T, K>(s: seq<T>, key: T -> K): (ks: seq<K>)
    ensures |ks| == |s|
    ensures forall i :: 0 <= i < |s| ==> ks[i] == key(s[i])
  {
    seq(|s|, i requires 0 <= i < |s| => key(s[i]))
  }

  /** The loop: the last element is kept only if its key is not among the keys kept so far. */
  function Unique<T, K(==)>(s: seq<T>, key: T -> K): seq<T>
    decreases |s|
  {
    if s == [] then []
    else
      var kept := Unique(s[..|s| - 1], key);
      if key(s[|s| - 1]) in KeysOf(kept, key) then kept else kept + [s[|s| - 1]]
  }

  /** No earlier element has the same key as `s[i]`. */
  predicate IsFirst<T, K(==)>(s: seq<T>, key: T -> K, i: nat)
    requires i < |s|
  {
    forall j :: 0 <= j < i ==> key(s[j]) != key(s[i])
  }

  /** An independent reference: the elements of `s[..n]` that are the first of their key in `s`. */
  function FirstOccurrences<T, K(==)>(s: seq<T>, key: T -> K, n: nat): seq<T>
    requires n <= |s|
  {
    if n == 0 then []
    else FirstOccurrences(s, key, n - 1) + (if IsFirst(s, key, n - 1) then [s[n - 1]] else [])
  }

  predicate DistinctKeys<T, K(==)>(s: seq<T>, key: T -> K) {
    forall i, j :: 0 <= i < j < |s| ==> key(s[i]) != key(s[j])
  }

  /** `s[i]` repeats an earlier key exactly when it is not a first occurrence. */
  lemma SeenIffNotFirst<T, K>(s: seq<T>, key: T -> K, i: nat)
    requires i < |s|
    ensures key(s[i]) in KeysOf(s[..i], key) <==> !IsFirst(s, key, i)
  {
    var ks := KeysOf(s[..i], key);
    if !IsFirst(s, key, i) {
      var j :| 0 <= j < i && key(s[j]) == key(s[i]);
      assert ks[j] == key(s[i]);
    }
    if key(s[i]) in ks {
      var j :| 0 <= j < i && ks[j] == key(s[i]);
      assert key(s[j]) == key(s[i]);
    }
  }

  lemma KeysOfSnoc<T, K>(s: seq<T>, x: T, key: T -> K)
    ensures KeysOf(s + [x], key) == KeysOf(s, key) + [key(x)]
  {
  }

  /** Every key of the input is kept, and only keys of the input are kept. */
  lemma {:induction false} UniqueKeepsEveryKey<T, K>(s: seq<T>, key: T -> K)
    ensures forall k :: k in KeysOf(Unique(s, key), key) <==> k in KeysOf(s, key)
    ensures forall x :: x in Unique(s, key) ==> x in s
    decreases |s|
  {
    if s != [] {
      var init := s[..|s| - 1];
      var x := s[|s| - 1];
      assert s == init + [x];
      UniqueKeepsEveryKey(init, key);
      KeysOfSnoc(init, x, key);
      KeysOfSnoc(Unique(init, key), x, key);
    }
  }

  lemma KeptKey<T, K>(s: seq<T>, key: T -> K, k: K)
    ensures k in KeysOf(Unique(s, key), key) <==> k in KeysOf(s, key)
  {
    UniqueKeepsEveryKey(s, key);
  }

  /** The kept elements have pairwise distinct keys. */
  lemma {:induction false} UniqueKeysDistinct<T, K>(s: seq<T>, key: T -> K)
    ensures DistinctKeys(Unique(s, key), key)
    decreases |s|
  {
    if s != [] {
      var init := s[..|s| - 1];
      var x := s[|s| - 1];
      UniqueKeysDistinct(init, key);
      var kept := Unique(init, key);
      if key(x) !in KeysOf(kept, key) {
        forall i | 0 <= i < |kept|
          ensures key(kept[i]) != key(x)
        {
          assert KeysOf(kept, key)[i] == key(kept[i]);
        }
      }
    }
  }

  /** The kept elements are exactly the first occurrences of their keys, in input order. */
  lemma {:induction false} UniqueIsFirstOccurrences<T, K>(s: seq<T>, key: T -> K, n: nat)
    requires n <= |s|
    ensures Unique(s[..n], key) == FirstOccurrences(s, key, n)
    decreases n
  {
    if n > 0 {
      var init := s[..n - 1];
      var x := s[n - 1];
      assert s[..n][..n - 1] == init;
      assert s[..n] != [];
      UniqueIsFirstOccurrences(s, key, n - 1);
      KeptKey(init, key, key(x));
      SeenIffNotFirst(s, key, n - 1);
      var kept := Unique(init, key);
      assert (key(x) in KeysOf(kept, key)) == !IsFirst(s, key, n - 1);
      assert Unique(s[..n], key) == if key(x) in KeysOf(kept, key) then kept else kept + [x];
    }
  }

  /** Input whose keys are already distinct passes through unchanged. */
  lemma {:induction false} UniqueOfDistinct<T, K>(s: seq<T>, key: T -> K)
    requires DistinctKeys(s, key)
    ensures Unique(s, key) == s
    decreases |s|
  {
    if s != [] {
      var n := |s| - 1;
      var init := s[..n];
      assert DistinctKeys(init, key) by {
        forall i, j | 0 <= i < j < |init|
          ensures key(init[i]) != key(init[j])
        {
          assert init[i] == s[i] && init[j] == s[j];
        }
      }
      UniqueOfDistinct(init, key);
      assert IsFirst(s, key, n) by {
        forall j | 0 <= j < n
          ensures key(s[j]) != key(s[n])
        {
        }
      }
      SeenIffNotFirst(s, key, n);
      assert Unique(s, key) == init + [s[n]];
      assert init + [s[n]] == s;
    }
  }

  /** Removing duplicates twice is removing them once. */
  lemma UniqueIdempotent<T, K>(s: seq<T>, key: T -> K)
    ensures Unique(Unique(s, key), key) == Unique(s, key)
  {
    UniqueKeysDistinct(s, key);
    UniqueOfDistinct(Unique(s, key), key);
  }

  /** Names X, Y, X, Z list as X, Y, Z. */
  lemma UniqueExample()
    ensures Unique(["X", "Y", "X", "Z"], (n: string) => n) == ["X", "Y", "Z"]
  {
    var id := (n: string) => n;
    var s := ["X", "Y", "X", "Z"];
    assert s[..0] == [];
    assert Unique(s[..1], id) == ["X"] by {
      assert s[..1][..0] == [];
    }
    assert Unique(s[..2], id) == ["X", "Y"] by {
      assert s[..2][..1] == s[..1];
      assert KeysOf(["X"], id) == ["X"];
    }
    assert Unique(s[..3], id) == ["X", "Y"] by {
      assert s[..3][..2] == s[..2];
      assert KeysOf(["X", "Y"], id) == ["X", "Y"];
    }
    assert Unique(s, id) == ["X", "Y", "Z"] by {
      assert s[..3] == s[..|s| - 1];
      assert KeysOf(["X", "Y"], id) == ["X", "Y"];
    }
  }
}
