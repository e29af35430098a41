// The ordered batch store behind every sub-schedule: a dictionary from offset (seconds) to a
// non-empty batch of actions, iterated in increasing key order. It is the `base` of
// SubSchedule.swift and of the generic building operations in ScheduleBuilding.swift.

module BatchStore {
  import opened Wrappers
  import opened Actions

  /** One key of the store with the batch of actions registered at that offset. */
  datatype Entry = Entry(offset: real, actions: seq<Action>)

  /** Keys strictly increase, so each offset occurs at most once (stated on neighbours;
      `SortedPair` gives it for any two positions). */
  predicate Sorted(s: seq<Entry>) {
    |s| <= 1 || (s[0].offset < s[1].offset && Sorted(s[1..]))
  }

  /** A key never maps to an empty batch. */
  predicate NoEmptyBatch(s: seq<Entry>) {
    s == [] || (s[0].actions != [] && NoEmptyBatch(s[1..]))
  }

  predicate Valid(s: seq<Entry>) {
    Sorted(s) && NoEmptyBatch(s)
  }

  /** Every key of `s` lies strictly after `x`. */
  predicate Above(s: seq<Entry>, x: real) {
    forall i :: 0 <= i < |s| ==> x < s[i].offset
  }

  /** The keys in iteration order. */
  function Keys(s: seq<Entry>): seq<real> {
    seq(|s|, i requires 0 <= i < |s| => s[i].offset)
  }

  /** The batch stored at `k`, or the empty sequence when `k` is not a key. */
  function Lookup(s: seq<Entry>, k: real): (r: seq<Action>)
  {
    if s == [] then []
    else if s[0].offset == k then s[0].actions
    else Lookup(s[1..], k)
  }

  /** All actions of the store, batch after batch in key order. */
  function Flat(s: seq<Entry>): seq<Action> {
    if s == [] then [] else s[0].actions + Flat(s[1..])
  }

  /** The actions the store holds, as objects. */
  function Footprint(s: seq<Entry>): set<Action> {
    if s == [] then {} else (set a | a in s[0].actions) + Footprint(s[1..])
  }

  /** The smallest key of a non-empty store; `o` for an empty one. */
  function HeadOr(s: seq<Entry>, o: real): real {
    if s == [] then o else s[0].offset
  }

  /** `safelyAppend(_:toArrayWith:)`: appends `a` to the batch at `o`, creating that batch when
      `o` is not yet a key. */
  function Appended(s: seq<Entry>, a: Action, o: real): seq<Entry> {
    if s == [] then [Entry(o, [a])]
    else if o < s[0].offset then [Entry(o, [a])] + s
    else if o == s[0].offset then [Entry(o, s[0].actions + [a])] + s[1..]
    else [s[0]] + Appended(s[1..], a, o)
  }

  /** `insert(contentsOf:)`: merges two stores key-wise; on a key held by both, the incoming
      batch `t` is appended after the existing one. */
  function Merge(s: seq<Entry>, t: seq<Entry>): seq<Entry>
    decreases |s| + |t|
  {
    if s == [] then t
    else if t == [] then s
    else if s[0].offset < t[0].offset then [s[0]] + Merge(s[1..], t)
    else if t[0].offset < s[0].offset then [t[0]] + Merge(s, t[1..])
    else [Entry(s[0].offset, s[0].actions + t[0].actions)] + Merge(s[1..], t[1..])
  }

  /** `base[k] = nil`: deletes the key `k` and its batch. */
  function RemoveKey(s: seq<Entry>, k: real): seq<Entry> {
    if s == [] then []
    else if s[0].offset == k then s[1..]
    else [s[0]] + RemoveKey(s[1..], k)
  }

  /** The store after `base[key] = actions.removing(identifiers: ids)` for every key: each batch
      keeps its actions that carry a tag in `ids`, and a key whose batch becomes empty is deleted. */
  function Filtered(s: seq<Entry>, ids: set<string>): seq<Entry>
    reads Footprint(s)
  {
    if s == [] then []
    else
      var rest := Filtered(s[1..], ids);
      match Removing(s[0].actions, ids)
      case None => rest
      case Some(b) => [Entry(s[0].offset, b)] + rest
  }

  // ---------------------------------------------------------------------------------------------
  // Lemmas

  /** Putting an entry in front of a store whose keys all lie after it keeps the store valid. */
  lemma SortedCons(e: Entry, s: seq<Entry>)
    requires Sorted(s) && (s != [] ==> e.offset < s[0].offset)
    ensures Sorted([e] + s)
    ensures NoEmptyBatch(s) && e.actions != [] ==> NoEmptyBatch([e] + s)
  {
    assert ([e] + s)[1..] == s;
  }

  /** A key before the first key of a sorted store lies before all of them and has no batch. */
  lemma {:induction false} HeadIsLeast(s: seq<Entry>, x: real)
    requires Sorted(s) && (s != [] ==> x < s[0].offset)
    ensures Above(s, x)
    ensures Lookup(s, x) == []
  {
    if s != [] {
      HeadIsLeast(s[1..], x);
      forall i | 0 <= i < |s| ensures x < s[i].offset {
        if i > 0 { assert s[i] == s[1..][i - 1]; }
      }
    }
  }

  /** In a sorted store the first key lies before every other key. */
  lemma SortedHead(s: seq<Entry>)
    requires Sorted(s) && s != []
    ensures Above(s[1..], s[0].offset)
  {
    HeadIsLeast(s[1..], s[0].offset);
  }

  /** In a sorted store the keys strictly increase between any two positions. */
  lemma {:induction false} SortedPair(s: seq<Entry>, i: nat, j: nat)
    requires Sorted(s) && i < j < |s|
    ensures s[i].offset < s[j].offset
  {
    if i == 0 {
      SortedHead(s);
      assert s[j] == s[1..][j - 1];
    } else {
      SortedPair(s[1..], i - 1, j - 1);
    }
  }

  /** Appending keeps the store valid; the first key becomes the smaller of the old first key
      and `o`. */
  lemma {:induction false} AppendedValid(s: seq<Entry>, a: Action, o: real)
    requires Valid(s)
    ensures Valid(Appended(s, a, o)) && Appended(s, a, o) != []
    ensures Appended(s, a, o)[0].offset == if HeadOr(s, o) < o then HeadOr(s, o) else o
  {
    if s == [] {
    } else if o < s[0].offset {
      SortedCons(Entry(o, [a]), s);
    } else if o == s[0].offset {
      SortedCons(Entry(o, s[0].actions + [a]), s[1..]);
    } else {
      AppendedValid(s[1..], a, o);
      SortedCons(s[0], Appended(s[1..], a, o));
    }
  }

  /** Merging two valid stores gives a valid store, empty only when both were; its first key is
      the smaller of their first keys. */
  lemma {:induction false} MergeValid(s: seq<Entry>, t: seq<Entry>)
    requires Valid(s) && Valid(t)
    ensures Valid(Merge(s, t))
    ensures Merge(s, t) == [] <==> s == [] && t == []
    ensures Merge(s, t) != [] ==>
              Merge(s, t)[0].offset == (if s == [] then t[0].offset
                                        else if t == [] || s[0].offset <= t[0].offset then s[0].offset
                                        else t[0].offset)
    decreases |s| + |t|
  {
    if s == [] || t == [] {
    } else if s[0].offset < t[0].offset {
      MergeValid(s[1..], t);
      SortedCons(s[0], Merge(s[1..], t));
    } else if t[0].offset < s[0].offset {
      MergeValid(s, t[1..]);
      SortedCons(t[0], Merge(s, t[1..]));
    } else {
      MergeValid(s[1..], t[1..]);
      SortedCons(Entry(s[0].offset, s[0].actions + t[0].actions), Merge(s[1..], t[1..]));
    }
  }

  /** Deleting a key keeps the store valid and never brings in a smaller first key. */
  lemma {:induction false} RemoveKeyValid(s: seq<Entry>, k: real)
    requires Valid(s)
    ensures Valid(RemoveKey(s, k))
    ensures RemoveKey(s, k) != [] ==> s != [] && s[0].offset <= RemoveKey(s, k)[0].offset
  {
    if s != [] && s[0].offset != k {
      RemoveKeyValid(s[1..], k);
      SortedCons(s[0], RemoveKey(s[1..], k));
    }
  }

  /** Filtering never leaves an empty batch, keeps keys in order, never brings in a smaller first
      key and never adds keys. */
  lemma {:induction false} FilteredValid(s: seq<Entry>, ids: set<string>)
    ensures NoEmptyBatch(Filtered(s, ids))
    ensures |Filtered(s, ids)| <= |s|
    ensures Sorted(s) ==> Sorted(Filtered(s, ids))
    ensures Sorted(s) && Filtered(s, ids) != [] ==> s != [] && s[0].offset <= Filtered(s, ids)[0].offset
  {
    if s != [] {
      FilteredValid(s[1..], ids);
      var rest := Filtered(s[1..], ids);
      match Removing(s[0].actions, ids)
      case None =>
      case Some(b) =>
        if Sorted(s) {
          SortedCons(Entry(s[0].offset, b), rest);
        } else {
          assert ([Entry(s[0].offset, b)] + rest)[1..] == rest;
        }
    }
  }

  /** Every action a store holds is an allocated object, so a method that changes other objects
      leaves the tags of these actions, and so the filter, as they were. */
  lemma {:induction false} FootprintAllocated(s: seq<Entry>)
    ensures forall a :: a in Footprint(s) ==> allocated(a)
  {
    if s != [] {
      FootprintAllocated(s[1..]);
      assert forall i :: 0 <= i < |s[0].actions| ==> allocated(s[0].actions[i]);
    }
  }

  /** No batch of a valid store is empty. */
  lemma {:induction false} NoEmptyBatchAt(s: seq<Entry>, i: nat)
    requires NoEmptyBatch(s) && i < |s|
    ensures s[i].actions != []
  {
    if i > 0 {
      NoEmptyBatchAt(s[1..], i - 1);
    }
  }

  /** In a sorted store, the batch found at a key is the one of the entry with that key. */
  lemma {:induction false} LookupAt(s: seq<Entry>, i: nat)
    requires Sorted(s) && i < |s|
    ensures Lookup(s, s[i].offset) == s[i].actions
  {
    if i > 0 {
      LookupAt(s[1..], i - 1);
      SortedPair(s, 0, i);
    }
  }

  /** The batch at `k` after appending: one more action at `o`, nothing changed elsewhere. */
  lemma {:induction false} AppendedLookup(s: seq<Entry>, a: Action, o: real, k: real)
    requires Valid(s)
    ensures Lookup(Appended(s, a, o), k) == if k == o then Lookup(s, k) + [a] else Lookup(s, k)
  {
    if s != [] {
      if o < s[0].offset {
        HeadIsLeast(s, o);
      } else if o == s[0].offset {
        if k == o { HeadIsLeast(s[1..], o); }
      } else {
        AppendedLookup(s[1..], a, o, k);
        assert Appended(s, a, o)[1..] == Appended(s[1..], a, o);
      }
    }
  }

  /** Appending grows the store by one key exactly when `o` was not a key. */
  lemma {:induction false} AppendedLength(s: seq<Entry>, a: Action, o: real)
    requires Valid(s)
    ensures |Appended(s, a, o)| == if Lookup(s, o) == [] then |s| + 1 else |s|
  {
    if s != [] {
      if o < s[0].offset {
        HeadIsLeast(s, o);
      } else if o > s[0].offset {
        AppendedLength(s[1..], a, o);
      }
    }
  }

  /** Appending at a key after every existing key adds a new last batch. */
  lemma {:induction false} AppendedAtEnd(s: seq<Entry>, a: Action, o: real)
    requires Valid(s)
    requires forall i :: 0 <= i < |s| ==> s[i].offset < o
    ensures Appended(s, a, o) == s + [Entry(o, [a])]
  {
    if s != [] {
      AppendedAtEnd(s[1..], a, o);
      assert s == [s[0]] + s[1..];
    }
  }

  /** The batch at every key after a merge is the existing batch followed by the incoming one. */
  lemma {:induction false} MergeLookup(s: seq<Entry>, t: seq<Entry>, k: real)
    requires Valid(s) && Valid(t)
    ensures Lookup(Merge(s, t), k) == Lookup(s, k) + Lookup(t, k)
    decreases |s| + |t|
  {
    if s == [] {
    } else if t == [] {
    } else if s[0].offset < t[0].offset {
      MergeLookup(s[1..], t, k);
      if k == s[0].offset { HeadIsLeast(t, k); }
    } else if t[0].offset < s[0].offset {
      MergeLookup(s, t[1..], k);
      if k == t[0].offset { HeadIsLeast(s, k); }
    } else {
      MergeLookup(s[1..], t[1..], k);
    }
  }

  /** After deleting `k`, `k` has no batch and every other key keeps its batch. */
  lemma {:induction false} RemoveKeyLookup(s: seq<Entry>, k: real, j: real)
    requires Valid(s)
    ensures Lookup(RemoveKey(s, k), j) == if j == k then [] else Lookup(s, j)
  {
    if s != [] {
      if s[0].offset == k {
        if j == k { HeadIsLeast(s[1..], k); }
      } else {
        RemoveKeyLookup(s[1..], k, j);
      }
    }
  }

  /** Appending adds exactly the one action to the store's contents. */
  lemma {:induction false} AppendedContents(s: seq<Entry>, a: Action, o: real)
    requires Valid(s)
    ensures multiset(Flat(Appended(s, a, o))) == multiset(Flat(s)) + multiset{a}
    decreases |s|, 1
  {
    if s == [] {
      assert Flat(Appended(s, a, o)) == [a] + Flat([]);
    } else if o < s[0].offset {
      assert Appended(s, a, o)[1..] == s;
    } else if o == s[0].offset {
      assert Appended(s, a, o)[1..] == s[1..];
      assert Flat(s) == s[0].actions + Flat(s[1..]);
    } else {
      AppendedContentsLater(s, a, o);
    }
  }

  /** The recursive case of `AppendedContents`: the key lies after the first one. */
  lemma {:induction false} AppendedContentsLater(s: seq<Entry>, a: Action, o: real)
    requires Valid(s) && s != [] && s[0].offset < o
    ensures multiset(Flat(Appended(s, a, o))) == multiset(Flat(s)) + multiset{a}
    decreases |s|, 0
  {
    var rest := Appended(s[1..], a, o);
    AppendedContents(s[1..], a, o);
    assert Appended(s, a, o) == [s[0]] + rest;
    assert Flat([s[0]] + rest) == s[0].actions + Flat(rest);
    assert Flat(s) == s[0].actions + Flat(s[1..]);
  }

  /** Merging loses and duplicates nothing: the contents are the sum of both stores'. */
  lemma {:induction false} MergeContents(s: seq<Entry>, t: seq<Entry>)
    requires Valid(s) && Valid(t)
    ensures multiset(Flat(Merge(s, t))) == multiset(Flat(s)) + multiset(Flat(t))
    decreases |s| + |t|
  {
    var r := Merge(s, t);
    if s == [] || t == [] {
    } else if s[0].offset < t[0].offset {
      MergeContents(s[1..], t);
      assert r[1..] == Merge(s[1..], t);
    } else if t[0].offset < s[0].offset {
      MergeContents(s, t[1..]);
      assert r[1..] == Merge(s, t[1..]);
    } else {
      MergeContents(s[1..], t[1..]);
      assert r[1..] == Merge(s[1..], t[1..]);
    }
  }

  /** Deleting a key removes exactly the batch stored there. */
  lemma {:induction false} RemoveKeyContents(s: seq<Entry>, k: real)
    requires Valid(s)
    ensures multiset(Flat(s)) == multiset(Flat(RemoveKey(s, k))) + multiset(Lookup(s, k))
  {
    if s == [] {
    } else if s[0].offset == k {
    } else {
      RemoveKeyContents(s[1..], k);
      assert RemoveKey(s, k)[1..] == RemoveKey(s[1..], k);
    }
  }

  /** Filtering acts key by key: the batch at every key is the matching part of the old batch. */
  lemma {:induction false} FilteredLookup(s: seq<Entry>, ids: set<string>, k: real)
    requires Sorted(s)
    ensures Lookup(Filtered(s, ids), k) == Matching(Lookup(s, k), ids)
  {
    if s != [] {
      FilteredLookup(s[1..], ids, k);
      var rest := Filtered(s[1..], ids);
      if s[0].offset == k {
        HeadIsLeast(s[1..], k);
        FilteredValid(s[1..], ids);
        HeadIsLeast(rest, k);
      }
    }
  }

  /** Across the whole store, filtering keeps, in order, exactly the actions with a tag in `ids`. */
  lemma {:induction false} FilteredFlat(s: seq<Entry>, ids: set<string>)
    ensures Flat(Filtered(s, ids)) == Matching(Flat(s), ids)
  {
    if s != [] {
      FilteredFlat(s[1..], ids);
      MatchingConcat(s[0].actions, Flat(s[1..]), ids);
    }
  }

  /** With no identifiers nothing matches, so the whole store is emptied. */
  lemma {:induction false} FilteredNothing(s: seq<Entry>)
    ensures Filtered(s, {}) == []
  {
    if s != [] {
      FilteredNothing(s[1..]);
    }
  }

  /** Filtering a store split in two filters each part (it is a key-by-key pass). */
  lemma {:induction false} FilteredConcat(s: seq<Entry>, t: seq<Entry>, ids: set<string>)
    ensures Filtered(s + t, ids) == Filtered(s, ids) + Filtered(t, ids)
  {
    if s == [] {
      assert s + t == t;
    } else {
      assert (s + t)[0] == s[0] && (s + t)[1..] == s[1..] + t;
      FilteredConcat(s[1..], t, ids);
    }
  }

  /** Filtering one more entry adds its matching part, or nothing when no action of it matches. */
  lemma FilteredSnoc(s: seq<Entry>, e: Entry, ids: set<string>)
    ensures Filtered(s + [e], ids) == Filtered(s, ids) +
              match Removing(e.actions, ids) case None => [] case Some(b) => [Entry(e.offset, b)]
  {
    FilteredConcat(s, [e], ids);
    assert [e][1..] == [];
  }

  /** Appending adds the one action to the objects the store holds. */
  lemma {:induction false} AppendedFootprint(s: seq<Entry>, a: Action, o: real)
    requires Valid(s)
    ensures Footprint(Appended(s, a, o)) == Footprint(s) + {a}
  {
    if s != [] && o > s[0].offset {
      AppendedFootprint(s[1..], a, o);
      assert Appended(s, a, o)[1..] == Appended(s[1..], a, o);
    }
  }

  /** A merged store holds the objects of both stores. */
  lemma {:induction false} MergeFootprint(s: seq<Entry>, t: seq<Entry>)
    requires Valid(s) && Valid(t)
    ensures Footprint(Merge(s, t)) == Footprint(s) + Footprint(t)
    decreases |s| + |t|
  {
    var r := Merge(s, t);
    if s == [] || t == [] {
    } else if s[0].offset < t[0].offset {
      MergeFootprint(s[1..], t);
      assert r[1..] == Merge(s[1..], t);
    } else if t[0].offset < s[0].offset {
      MergeFootprint(s, t[1..]);
      assert r[1..] == Merge(s, t[1..]);
    } else {
      MergeFootprint(s[1..], t[1..]);
      assert r[1..] == Merge(s[1..], t[1..]);
    }
  }

  /** Deleting a key holds no new object. */
  lemma {:induction false} RemoveKeyFootprint(s: seq<Entry>, k: real)
    requires Valid(s)
    ensures Footprint(RemoveKey(s, k)) <= Footprint(s)
  {
    if s != [] && s[0].offset != k {
      RemoveKeyFootprint(s[1..], k);
      assert RemoveKey(s, k)[1..] == RemoveKey(s[1..], k);
    }
  }

  /** Filtering holds no new object. */
  lemma {:induction false} FilteredFootprint(s: seq<Entry>, ids: set<string>)
    ensures Footprint(Filtered(s, ids)) <= Footprint(s)
  {
    if s != [] {
      FilteredFootprint(s[1..], ids);
      var r := Filtered(s, ids);
      match Removing(s[0].actions, ids)
      case None =>
      case Some(b) =>
        assert r[0].actions == b && r[1..] == Filtered(s[1..], ids);
        assert forall a :: a in b ==> a in s[0].actions;
    }
  }
}
