/**
 * Grouping by key in first-seen order, as both `NanoBananaService.batch_process`
 * (app/services/nano_banana_service.py) and the UI (gui.py) do it: a Python
 * dict filled item by item, whose keys iterate in insertion order and whose
 * values are lists appended in item order.
 */
module Grouping {

  /** The distinct keys in order of first appearance: `list(grouped.keys())`. */
  function Keys<T>(items: seq<T>, key: T -> string): seq<string>
  {
    if items == [] then []
    else
      var ks := Keys(items[..|items| - 1], key);
      var k := key(items[|items| - 1]);
      if k in ks then ks else ks + [k]
  }

  /** The items with key `k`, in item order: `grouped[k]`. */
  function Members<T>(items: seq<T>, key: T -> string, k: string): seq<T>
  {
    if items == [] then []
    else
      var last := items[|items| - 1];
      Members(items[..|items| - 1], key, k) + (if key(last) == k then [last] else [])
  }

  /** The sizes of the groups of `ks`, added up. */
  function TotalSize<T>(items: seq<T>, key: T -> string, ks: seq<string>): nat
  {
    if ks == [] then 0 else |Members(items, key, ks[0])| + TotalSize(items, key, ks[1..])
  }

  predicate Distinct(ks: seq<string>)
  {
    forall a, b :: 0 <= a < b < |ks| ==> ks[a] != ks[b]
  }

  /**
   * Every key occurs once, exactly the keys of the items occur, and the keys
   * of a prefix of the items are a prefix of the keys (first-seen order).
   */
  lemma {:induction false} KeysSpec<T>(items: seq<T>, key: T -> string)
    ensures Distinct(Keys(items, key))
    ensures forall i :: 0 <= i < |items| ==> key(items[i]) in Keys(items, key)
    ensures forall k :: k in Keys(items, key) ==> exists i :: 0 <= i < |items| && key(items[i]) == k
    ensures |Keys(items, key)| <= |items|
  {
    if items != [] {
      var init := items[..|items| - 1];
      KeysSpec(init, key);
      assert forall i :: 0 <= i < |init| ==> init[i] == items[i];
    }
  }

  /** Keys are only ever appended: the keys seen after `n` items are a prefix of all the keys. */
  lemma {:induction false} KeysPrefix<T>(items: seq<T>, key: T -> string, n: nat)
    requires n <= |items|
    ensures Keys(items[..n], key) <= Keys(items, key)
    decreases |items| - n
  {
    if n < |items| {
      var init := items[..|items| - 1];
      assert init[..n] == items[..n];
      KeysPrefix(init, key, n);
    } else {
      assert items[..n] == items;
    }
  }

  /**
   * A group holds exactly the items with its key, in item order: it is
   * non-empty exactly for the keys that occur, and every item is in the
   * group of its own key.
   */
  lemma {:induction false} MembersSpec<T>(items: seq<T>, key: T -> string, k: string)
    ensures forall j :: 0 <= j < |Members(items, key, k)| ==> key(Members(items, key, k)[j]) == k
    ensures |Members(items, key, k)| <= |items|
    ensures Members(items, key, k) != [] <==> k in Keys(items, key)
    ensures forall i :: 0 <= i < |items| && key(items[i]) == k ==> items[i] in Members(items, key, k)
  {
    if items != [] {
      var n := |items| - 1;
      var init := items[..n];
      var last := items[n];
      var own: seq<T> := if key(last) == k then [last] else [];
      var ms := Members(items, key, k);
      var before := Members(init, key, k);
      assert ms == before + own;
      MembersSpec(init, key, k);
      assert k in Keys(items, key) <==> k in Keys(init, key) || key(last) == k;
      forall j | 0 <= j < |ms| ensures key(ms[j]) == k {
        if j < |before| {
          assert ms[j] == before[j];
        } else {
          assert ms[j] == last;
        }
      }
      forall i | 0 <= i < |items| && key(items[i]) == k ensures items[i] in ms {
        if i < n {
          assert items[i] == init[i];
          assert items[i] in before;
        } else {
          assert ms[|ms| - 1] == last;
        }
      }
    }
  }

  /** A key has a non-empty group exactly when it occurs. */
  lemma MembersNonEmpty<T>(items: seq<T>, key: T -> string, k: string)
    ensures Members(items, key, k) != [] <==> k in Keys(items, key)
  {
    MembersSpec(items, key, k);
  }

  /** An item's key is appended to the keys unless it was seen before. */
  lemma KeysSnoc<T>(items: seq<T>, key: T -> string, x: T)
    ensures Keys(items + [x], key) == if key(x) in Keys(items, key) then Keys(items, key) else Keys(items, key) + [key(x)]
  {
    assert (items + [x])[..|items|] == items;
  }

  /** Adding an item adds it to its own group only. */
  lemma MembersSnoc<T>(items: seq<T>, key: T -> string, x: T, k: string)
    ensures Members(items + [x], key, k) == Members(items, key, k) + (if key(x) == k then [x] else [])
  {
    assert (items + [x])[..|items|] == items;
  }

  /** The first member of a group is the first item carrying that key (`group[0]`). */
  lemma {:induction false} FirstMember<T>(items: seq<T>, key: T -> string, i: nat)
    requires i < |items|
    requires forall j :: 0 <= j < i ==> key(items[j]) != key(items[i])
    ensures Members(items, key, key(items[i])) != []
    ensures Members(items, key, key(items[i]))[0] == items[i]
    decreases |items|
  {
    var k := key(items[i]);
    var init := items[..|items| - 1];
    if i < |items| - 1 {
      assert init[i] == items[i];
      assert forall j :: 0 <= j < i ==> init[j] == items[j];
      FirstMember(init, key, i);
    } else {
      KeysSpec(init, key);
      MembersSpec(init, key, k);
      assert k !in Keys(init, key) by {
        forall k' | k' in Keys(init, key) ensures k' != k {
          var j :| 0 <= j < |init| && key(init[j]) == k';
          assert init[j] == items[j];
        }
      }
    }
  }

  /** A member of a group is one of the items, an index at which the key is `k`. */
  lemma {:induction false} MembersOf<T>(items: seq<T>, key: T -> string, k: string, m: T)
    requires m in Members(items, key, k)
    ensures exists i :: 0 <= i < |items| && items[i] == m && key(items[i]) == k
  {
    var init := items[..|items| - 1];
    var last := items[|items| - 1];
    if m in Members(init, key, k) {
      MembersOf(init, key, k, m);
      var i :| 0 <= i < |init| && init[i] == m && key(init[i]) == k;
      assert items[i] == init[i];
    } else {
      assert m == last && key(last) == k;
    }
  }

  /** How many of the keys `ks` equal `k`. */
  function Occurrences(ks: seq<string>, k: string): nat
  {
    if ks == [] then 0 else (if ks[0] == k then 1 else 0) + Occurrences(ks[1..], k)
  }

  lemma {:induction false} TotalSizeAppend<T>(items: seq<T>, key: T -> string, x: T, ks: seq<string>)
    ensures TotalSize(items + [x], key, ks) == TotalSize(items, key, ks) + Occurrences(ks, key(x))
  {
    if ks != [] {
      TotalSizeAppend(items, key, x, ks[1..]);
      assert (items + [x])[..|items + [x]| - 1] == items;
    }
  }

  lemma {:induction false} TotalSizeSnoc<T>(items: seq<T>, key: T -> string, ks: seq<string>, k: string)
    ensures TotalSize(items, key, ks + [k]) == TotalSize(items, key, ks) + |Members(items, key, k)|
  {
    if ks != [] {
      assert (ks + [k])[1..] == ks[1..] + [k];
      TotalSizeSnoc(items, key, ks[1..], k);
    } else {
      assert [k][1..] == [];
    }
  }

  lemma {:induction false} OccurrencesDistinct(ks: seq<string>, k: string)
    requires Distinct(ks)
    ensures Occurrences(ks, k) == (if k in ks then 1 else 0)
  {
    if ks != [] {
      assert Distinct(ks[1..]) by {
        forall a, b | 0 <= a < b < |ks[1..]| ensures ks[1..][a] != ks[1..][b] {
          assert ks[1..][a] == ks[a + 1] && ks[1..][b] == ks[b + 1];
        }
      }
      OccurrencesDistinct(ks[1..], k);
      if ks[0] == k {
        assert k !in ks[1..] by {
          forall a | 0 <= a < |ks[1..]| ensures ks[1..][a] != k {
            assert ks[1..][a] == ks[a + 1];
          }
        }
      } else {
        assert k in ks <==> k in ks[1..];
      }
    }
  }

  /** Distinct keys are as many as their set: `len(grouped)` counts the keys in `order`. */
  lemma {:induction false} DistinctCount(ks: seq<string>)
    requires Distinct(ks)
    ensures |set k | k in ks| == |ks|
  {
    if ks != [] {
      var init := ks[..|ks| - 1];
      var last := ks[|ks| - 1];
      assert Distinct(init) by {
        forall a, b | 0 <= a < b < |init| ensures init[a] != init[b] {
          assert init[a] == ks[a] && init[b] == ks[b];
        }
      }
      DistinctCount(init);
      assert (set k | k in ks) == (set k | k in init) + {last} by {
        assert ks == init + [last];
      }
      assert last !in (set k | k in init) by {
        forall a | 0 <= a < |init| ensures init[a] != last {
          assert init[a] == ks[a];
        }
      }
    }
  }

  /**
   * The groups partition the items: their sizes, over all keys, add up to the
   * number of items, so with `MembersSpec` every item lands in exactly one group.
   */
  lemma {:induction false} GroupsPartition<T>(items: seq<T>, key: T -> string)
    ensures TotalSize(items, key, Keys(items, key)) == |items|
  {
    if items != [] {
      var init := items[..|items| - 1];
      var x := items[|items| - 1];
      assert items == init + [x];
      var ks := Keys(init, key);
      GroupsPartition(init, key);
      KeysSpec(init, key);
      TotalSizeAppend(init, key, x, ks);
      OccurrencesDistinct(ks, key(x));
      if key(x) !in ks {
        TotalSizeSnoc(items, key, ks, key(x));
        TotalSizeAppend(init, key, x, ks);
        MembersSpec(init, key, key(x));
        assert Members(items, key, key(x)) == Members(init, key, key(x)) + [x];
      }
    }
  }

  /**
   * The grouping loop: a dict from key to list, created on a key's first
   * appearance and appended in item order, and the order keys were created in.
   */
  method GroupBy<T>(items: seq<T>, key: T -> string) returns (order: seq<string>, groups: map<string, seq<T>>)
    ensures order == Keys(items, key)
    ensures forall k :: k in groups <==> k in order
    ensures forall k :: k in groups ==> groups[k] == Members(items, key, k)
  {
    order := [];
    groups := map[];
    var i := 0;
    while i < |items|
      invariant 0 <= i <= |items|
      invariant order == Keys(items[..i], key)
      invariant forall k :: k in groups <==> k in order
      invariant forall k :: k in groups ==> groups[k] == Members(items[..i], key, k)
    {
      var p := items[i];
      var k := key(p);
      assert items[..i + 1][..i] == items[..i] && items[..i + 1][i] == p;
      if k !in groups {
        MembersSpec(items[..i], key, k);
        groups := groups[k := []];
        order := order + [k];
      }
      groups := groups[k := groups[k] + [p]];
      i := i + 1;
    }
    assert items[..|items|] == items;
  }
}
