/**
 * Grouping of flat table rows into a lookup table from an identifier to the
 * ordered list of entries taken from the rows that carry that identifier.
 *
 * The lookup table is a `map<string, seq<V>>` read through `Lookup`, which
 * answers the empty list for an absent key, as a `defaultdict(list)` does.
 * A grouping pass is described by three functions on rows: `keep` says
 * whether a row is appended at all, `key` says under which identifier, and
 * `entry` says what tuple is appended.
 */
module Grouping {

  /** The list stored under `k`, or the empty list when `k` is absent. */
  function Lookup<V>(m: map<string, seq<V>>, k: string): seq<V>
  {
    if k in m then m[k] else []
  }

  /** Appends `v` to the list under `k`, creating the key when it is absent. */
  function Append<V>(m: map<string, seq<V>>, k: string, v: V): (r: map<string, seq<V>>)
    ensures r.Keys == m.Keys + {k}
    ensures Lookup(r, k) == Lookup(m, k) + [v]
    ensures forall k' :: k' != k ==> Lookup(r, k') == Lookup(m, k')
  {
    m[k := Lookup(m, k) + [v]]
  }

  /** The filter that keeps every row. */
  predicate Always<R>(r: R)
  {
    true
  }

  /**
   * Reference definition: the entries of the rows that are kept and whose key
   * is `k`, in row order, one per such row.
   */
  function Select<R, V>(rows: seq<R>, keep: R -> bool, key: R -> string, entry: R -> V, k: string): seq<V>
  {
    if rows == [] then []
    else (if keep(rows[0]) && key(rows[0]) == k then [entry(rows[0])] else [])
         + Select(rows[1..], keep, key, entry, k)
  }

  /** The identifiers under which at least one row is appended. */
  function KeysOf<R>(rows: seq<R>, keep: R -> bool, key: R -> string): set<string>
  {
    set i | 0 <= i < |rows| && keep(rows[i]) :: key(rows[i])
  }

  /** The lookup table a grouping pass over `rows` should leave behind. */
  function Grouped<R, V>(rows: seq<R>, keep: R -> bool, key: R -> string, entry: R -> V): map<string, seq<V>>
  {
    map k | k in KeysOf(rows, keep, key) :: Select(rows, keep, key, entry, k)
  }

  /** Number of kept rows whose key lies in `keys`. */
  function Count<R>(rows: seq<R>, keep: R -> bool, key: R -> string, keys: set<string>): nat
  {
    if rows == [] then 0
    else (if keep(rows[0]) && key(rows[0]) in keys then 1 else 0) + Count(rows[1..], keep, key, keys)
  }

  /** Number of kept rows. */
  function CountKept<R>(rows: seq<R>, keep: R -> bool): nat
  {
    if rows == [] then 0
    else (if keep(rows[0]) then 1 else 0) + CountKept(rows[1..], keep)
  }

  /** Sum of the lengths of the lists stored under `keys`. */
  ghost function TotalLength<V>(m: map<string, seq<V>>, keys: set<string>): nat
    decreases keys
  {
    if keys == {} then 0
    else
      var k :| k in keys;
      |Lookup(m, k)| + TotalLength(m, keys - {k})
  }

  // ---------------------------------------------------------------------------
  // The grouping pass

  /**
   * One pass over `rows` in table order, appending `entry(r)` to the list under
   * `key(r)` for every row `r` with `keep(r)`.
   */
  method GroupRows<R, V>(rows: seq<R>, keep: R -> bool, key: R -> string, entry: R -> V)
    returns (index: map<string, seq<V>>)
    ensures index == Grouped(rows, keep, key, entry)
    ensures index.Keys == KeysOf(rows, keep, key)
    ensures forall k :: Lookup(index, k) == Select(rows, keep, key, entry, k)
    ensures TotalLength(index, index.Keys) == CountKept(rows, keep)
  {
    index := map[];
    assert Grouped([], keep, key, entry) == map[];
    for i := 0 to |rows|
      invariant index == Grouped(rows[..i], keep, key, entry)
    {
      assert rows[..i + 1] == rows[..i] + [rows[i]];
      GroupedSnoc(rows[..i], rows[i], keep, key, entry);
      if keep(rows[i]) {
        index := Append(index, key(rows[i]), entry(rows[i]));
      }
    }
    assert rows[..|rows|] == rows;
    forall k
      ensures Lookup(index, k) == Select(rows, keep, key, entry, k)
    {
      GroupedLookup(rows, keep, key, entry, k);
    }
    GroupedTotal(rows, keep, key, entry);
  }

  // ---------------------------------------------------------------------------
  // Lemmas about the reference definition

  /** Grouping distributes over concatenation of tables: row order is kept. */
  lemma {:induction false} SelectConcat<R, V>(a: seq<R>, b: seq<R>, keep: R -> bool, key: R -> string, entry: R -> V, k: string)
    ensures Select(a + b, keep, key, entry, k) == Select(a, keep, key, entry, k) + Select(b, keep, key, entry, k)
  {
    if a == [] {
      assert a + b == b;
    } else {
      assert (a + b)[0] == a[0];
      assert (a + b)[1..] == a[1..] + b;
      SelectConcat(a[1..], b, keep, key, entry, k);
    }
  }

  /** Appending one row to the table appends at most its own entry, under its own key only. */
  lemma SelectSnoc<R, V>(rows: seq<R>, r: R, keep: R -> bool, key: R -> string, entry: R -> V)
    ensures forall k :: Select(rows + [r], keep, key, entry, k)
                        == Select(rows, keep, key, entry, k) + (if keep(r) && key(r) == k then [entry(r)] else [])
  {
    forall k
      ensures Select(rows + [r], keep, key, entry, k)
              == Select(rows, keep, key, entry, k) + (if keep(r) && key(r) == k then [entry(r)] else [])
    {
      SelectConcat(rows, [r], keep, key, entry, k);
      assert [r][1..] == [];
    }
  }

  /** A row lands at the end of the list under its own key exactly when it is kept. */
  lemma LandsIff<R, V>(rows: seq<R>, r: R, keep: R -> bool, key: R -> string, entry: R -> V)
    ensures Select(rows + [r], keep, key, entry, key(r)) == Select(rows, keep, key, entry, key(r)) + [entry(r)]
            <==> keep(r)
    ensures !keep(r) ==> forall k :: Select(rows + [r], keep, key, entry, k) == Select(rows, keep, key, entry, k)
  {
    SelectSnoc(rows, r, keep, key, entry);
    if !keep(r) {
      var s := Select(rows, keep, key, entry, key(r));
      assert |s + [entry(r)]| != |s|;
    }
  }

  /** The keys after one more row. */
  lemma KeysOfSnoc<R>(rows: seq<R>, r: R, keep: R -> bool, key: R -> string)
    ensures KeysOf(rows + [r], keep, key) == KeysOf(rows, keep, key) + (if keep(r) then {key(r)} else {})
  {
    var rs := rows + [r];
    forall x | x in KeysOf(rs, keep, key)
      ensures x in KeysOf(rows, keep, key) + (if keep(r) then {key(r)} else {})
    {
      var i :| 0 <= i < |rs| && keep(rs[i]) && key(rs[i]) == x;
      if i < |rows| {
        assert rs[i] == rows[i];
      }
    }
    forall x | x in KeysOf(rows, keep, key)
      ensures x in KeysOf(rs, keep, key)
    {
      var i :| 0 <= i < |rows| && keep(rows[i]) && key(rows[i]) == x;
      assert rs[i] == rows[i];
    }
    if keep(r) {
      assert rs[|rows|] == r;
    }
  }

  /** An entry is in the list under `k` exactly when some kept row with key `k` produced it. */
  lemma {:induction false} SelectMember<R, V>(rows: seq<R>, keep: R -> bool, key: R -> string, entry: R -> V, k: string, v: V)
    ensures v in Select(rows, keep, key, entry, k)
            <==> exists i :: 0 <= i < |rows| && keep(rows[i]) && key(rows[i]) == k && entry(rows[i]) == v
  {
    if rows != [] {
      SelectMember(rows[1..], keep, key, entry, k, v);
      if exists i :: 0 <= i < |rows| && keep(rows[i]) && key(rows[i]) == k && entry(rows[i]) == v {
        var i :| 0 <= i < |rows| && keep(rows[i]) && key(rows[i]) == k && entry(rows[i]) == v;
        if i > 0 {
          assert rows[1..][i - 1] == rows[i];
        }
      }
      if v in Select(rows[1..], keep, key, entry, k) {
        var i :| 0 <= i < |rows[1..]| && keep(rows[1..][i]) && key(rows[1..][i]) == k && entry(rows[1..][i]) == v;
        assert rows[i + 1] == rows[1..][i];
      }
    }
  }

  /** The list under `k` has one entry per kept row with key `k`: nothing is deduplicated. */
  lemma {:induction false} SelectLength<R, V>(rows: seq<R>, keep: R -> bool, key: R -> string, entry: R -> V, k: string)
    ensures |Select(rows, keep, key, entry, k)| == Count(rows, keep, key, {k})
  {
    if rows != [] {
      SelectLength(rows[1..], keep, key, entry, k);
    }
  }

  /** The list under `k` is empty exactly when no kept row has key `k`. */
  lemma {:induction false} SelectEmptyIff<R, V>(rows: seq<R>, keep: R -> bool, key: R -> string, entry: R -> V, k: string)
    ensures Select(rows, keep, key, entry, k) == []
            <==> forall i :: 0 <= i < |rows| && keep(rows[i]) ==> key(rows[i]) != k
  {
    if Select(rows, keep, key, entry, k) != [] {
      var v := Select(rows, keep, key, entry, k)[0];
      SelectMember(rows, keep, key, entry, k, v);
    } else {
      forall i | 0 <= i < |rows| && keep(rows[i])
        ensures key(rows[i]) != k
      {
        SelectMember(rows, keep, key, entry, k, entry(rows[i]));
      }
    }
  }

  /** Removing a row whose key is not `k` leaves the list under `k` unchanged. */
  lemma SelectRemoveOther<R, V>(rows: seq<R>, j: nat, keep: R -> bool, key: R -> string, entry: R -> V, k: string)
    requires j < |rows|
    requires key(rows[j]) != k
    ensures Select(rows[..j] + rows[j + 1..], keep, key, entry, k) == Select(rows, keep, key, entry, k)
  {
    assert rows == rows[..j] + ([rows[j]] + rows[j + 1..]);
    SelectConcat(rows[..j], [rows[j]] + rows[j + 1..], keep, key, entry, k);
    SelectConcat([rows[j]], rows[j + 1..], keep, key, entry, k);
    SelectConcat(rows[..j], rows[j + 1..], keep, key, entry, k);
    assert [rows[j]][1..] == [];
  }

  /** The grouped table answers every lookup with the reference list. */
  lemma GroupedLookup<R, V>(rows: seq<R>, keep: R -> bool, key: R -> string, entry: R -> V, k: string)
    ensures Lookup(Grouped(rows, keep, key, entry), k) == Select(rows, keep, key, entry, k)
  {
    if k !in KeysOf(rows, keep, key) {
      SelectEmptyIff(rows, keep, key, entry, k);
    }
  }

  /** A table with the keys of `Grouped` that agrees with it on every lookup is `Grouped`. */
  lemma GroupedExtensionality<R, V>(m: map<string, seq<V>>, rows: seq<R>, keep: R -> bool, key: R -> string, entry: R -> V)
    requires m.Keys == KeysOf(rows, keep, key)
    requires forall k :: Lookup(m, k) == Select(rows, keep, key, entry, k)
    ensures m == Grouped(rows, keep, key, entry)
  {
    var g := Grouped(rows, keep, key, entry);
    forall k | k in m
      ensures m[k] == g[k]
    {
      assert Lookup(m, k) == m[k];
    }
  }

  /** One more row appends its entry under its key when it is kept, and changes nothing otherwise. */
  lemma GroupedSnoc<R, V>(rows: seq<R>, r: R, keep: R -> bool, key: R -> string, entry: R -> V)
    ensures Grouped(rows + [r], keep, key, entry)
            == if keep(r) then Append(Grouped(rows, keep, key, entry), key(r), entry(r))
               else Grouped(rows, keep, key, entry)
  {
    var g := Grouped(rows, keep, key, entry);
    var m := if keep(r) then Append(g, key(r), entry(r)) else g;
    SelectSnoc(rows, r, keep, key, entry);
    KeysOfSnoc(rows, r, keep, key);
    forall k
      ensures Lookup(m, k) == Select(rows + [r], keep, key, entry, k)
    {
      GroupedLookup(rows, keep, key, entry, k);
    }
    GroupedExtensionality(m, rows + [r], keep, key, entry);
  }

  // ---------------------------------------------------------------------------
  // Counting: the list lengths over all keys add up to the number of kept rows

  lemma {:induction false} CountEmpty<R>(rows: seq<R>, keep: R -> bool, key: R -> string)
    ensures Count(rows, keep, key, {}) == 0
  {
    if rows != [] {
      CountEmpty(rows[1..], keep, key);
    }
  }

  lemma {:induction false} CountSplit<R>(rows: seq<R>, keep: R -> bool, key: R -> string, keys: set<string>, x: string)
    requires x in keys
    ensures Count(rows, keep, key, keys) == Count(rows, keep, key, {x}) + Count(rows, keep, key, keys - {x})
  {
    if rows != [] {
      CountSplit(rows[1..], keep, key, keys, x);
    }
  }

  /** When every kept row's key is among `keys`, counting by keys counts every kept row. */
  lemma {:induction false} CountCovering<R>(rows: seq<R>, keep: R -> bool, key: R -> string, keys: set<string>)
    requires forall i :: 0 <= i < |rows| && keep(rows[i]) ==> key(rows[i]) in keys
    ensures Count(rows, keep, key, keys) == CountKept(rows, keep)
  {
    if rows != [] {
      assert forall i :: 0 <= i < |rows[1..]| ==> rows[1..][i] == rows[i + 1];
      CountCovering(rows[1..], keep, key, keys);
    }
  }

  /** With the filter that keeps every row, every row is counted. */
  lemma {:induction false} CountKeptAlways<R>(rows: seq<R>)
    ensures CountKept(rows, Always) == |rows|
  {
    if rows != [] {
      CountKeptAlways(rows[1..]);
    }
  }

  lemma {:induction false} TotalLengthRemove<V>(m: map<string, seq<V>>, keys: set<string>, x: string)
    requires x in keys
    ensures TotalLength(m, keys) == |Lookup(m, x)| + TotalLength(m, keys - {x})
    decreases keys
  {
    var y :| y in keys && TotalLength(m, keys) == |Lookup(m, y)| + TotalLength(m, keys - {y});
    if y != x {
      TotalLengthRemove(m, keys - {y}, x);
      assert keys - {y} - {x} == keys - {x} - {y};
      TotalLengthRemove(m, keys - {x}, y);
    }
  }

  lemma {:induction false} TotalLengthCount<R, V>(rows: seq<R>, keep: R -> bool, key: R -> string, entry: R -> V, keys: set<string>)
    ensures TotalLength(Grouped(rows, keep, key, entry), keys) == Count(rows, keep, key, keys)
    decreases keys
  {
    if keys == {} {
      CountEmpty(rows, keep, key);
    } else {
      var x :| x in keys;
      TotalLengthRemove(Grouped(rows, keep, key, entry), keys, x);
      TotalLengthCount(rows, keep, key, entry, keys - {x});
      GroupedLookup(rows, keep, key, entry, x);
      SelectLength(rows, keep, key, entry, x);
      CountSplit(rows, keep, key, keys, x);
    }
  }

  /** Summed over all its keys, the grouped table holds exactly one entry per kept row. */
  lemma GroupedTotal<R, V>(rows: seq<R>, keep: R -> bool, key: R -> string, entry: R -> V)
    ensures TotalLength(Grouped(rows, keep, key, entry), Grouped(rows, keep, key, entry).Keys) == CountKept(rows, keep)
  {
    var g := Grouped(rows, keep, key, entry);
    TotalLengthCount(rows, keep, key, entry, g.Keys);
    CountCovering(rows, keep, key, g.Keys);
  }
}
