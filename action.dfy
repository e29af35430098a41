// Actions: tagged units of work, one-shot or looping (Sources/Timeline/Action.swift),
// and the tag filter that `removeAll` applies to a batch of them (Schedule.swift).

module Wrappers {
  datatype Option<+T> = None | Some(value: T)
}

module Actions {
  import opened Wrappers

  /** The closure an action performs is caller-supplied code; the model keeps only its identity. */
  type OpId = nat

  /** A plain action fires once; a looping action is re-scheduled `interval` seconds after it fires. */
  datatype Kind = Once | Every(interval: real)

  class Action {
    var identifiers: seq<string>
    const operation: OpId
    const kind: Kind

    /** A plain action wrapping `operation`, tagged with `identifiers`. */
    constructor (identifiers: seq<string>, operation: OpId)
      ensures this.identifiers == identifiers && this.operation == operation
      ensures kind == Once
    {
      this.identifiers := identifiers;
      this.operation := operation;
      kind := Once;
    }

    /** A looping action; the interval is stored as given, without any check. */
    constructor Looping(interval: real, identifiers: seq<string>, operation: OpId)
      ensures this.identifiers == identifiers && this.operation == operation
      ensures kind == Every(interval)
    {
      this.identifiers := identifiers;
      this.operation := operation;
      kind := Every(interval);
    }

    /** Appends a tag; duplicates are kept. */
    method AddIdentifier(identifier: string)
      modifies this
      ensures identifiers == old(identifiers) + [identifier]
      ensures HasIdentifier(identifier)
    {
      identifiers := identifiers + [identifier];
    }

    function HasIdentifier(identifier: string): (r: bool)
      reads this
      ensures r <==> identifier in identifiers
    {
      Contains(identifiers, identifier)
    }

    /** True iff one of this action's tags belongs to `ids` (never, for an empty `ids`). */
    function HasAnyIdentifiers(ids: set<string>): (r: bool)
      reads this
      ensures r <==> exists i :: 0 <= i < |identifiers| && identifiers[i] in ids
      ensures ids == {} ==> !r
    {
      ContainsWhere(identifiers, ids)
    }
  }

  /** Linear search for one tag. */
  function Contains(tags: seq<string>, tag: string): (r: bool)
    ensures r <==> exists i :: 0 <= i < |tags| && tags[i] == tag
  {
    if tags == [] then false
    else tags[0] == tag || Contains(tags[1..], tag)
  }

  /** Linear search for a tag that belongs to `ids`. */
  function ContainsWhere(tags: seq<string>, ids: set<string>): (r: bool)
    ensures r <==> exists i :: 0 <= i < |tags| && tags[i] in ids
  {
    if tags == [] then false
    else tags[0] in ids || ContainsWhere(tags[1..], ids)
  }

  /** The actions of `batch` that carry a tag in `ids`, in batch order. */
  function Matching(batch: seq<Action>, ids: set<string>): (r: seq<Action>)
    reads batch
    ensures |r| <= |batch|
    ensures forall a :: a in r ==> a in batch && a.HasAnyIdentifiers(ids)
    ensures ids == {} ==> r == []
  {
    if batch == [] then []
    else
      var rest := Matching(batch[1..], ids);
      if batch[0].HasAnyIdentifiers(ids) then [batch[0]] + rest else rest
  }

  /** `removing(identifiers:)`: the matching actions, or None when no action matches. */
  function Removing(batch: seq<Action>, ids: set<string>): (r: Option<seq<Action>>)
    reads batch
    ensures r.None? <==> forall a :: a in batch ==> !a.HasAnyIdentifiers(ids)
    ensures r.Some? ==> r.value == Matching(batch, ids)
  {
    var filtered := Matching(batch, ids);
    forall a | a in batch && a.HasAnyIdentifiers(ids) ensures filtered != [] {
      MatchingCounts(batch, ids, a);
      assert multiset(filtered)[a] == multiset(batch)[a] > 0;
    }
    assert filtered != [] ==> filtered[0] in filtered;
    if filtered == [] then None else Some(filtered)
  }

  /** Filtering an action in front of a batch: the action is kept exactly when it matches. */
  lemma MatchingCons(x: Action, rest: seq<Action>, ids: set<string>)
    ensures Matching([x] + rest, ids) == (if x.HasAnyIdentifiers(ids) then [x] else []) + Matching(rest, ids)
  {
    var b := [x] + rest;
    assert b[0] == x && b[1..] == rest;
  }

  /** The inductive step of `MatchingConcat`: one more action in front of the first batch. */
  lemma MatchingConcatCons(x: Action, t: seq<Action>, b2: seq<Action>, ids: set<string>)
    requires Matching(t + b2, ids) == Matching(t, ids) + Matching(b2, ids)
    ensures Matching([x] + t + b2, ids) == Matching([x] + t, ids) + Matching(b2, ids)
  {
    MatchingCons(x, t, ids);
    MatchingCons(x, t + b2, ids);
    ConcatAssoc([x], t, b2);
    ConcatAssoc(if x.HasAnyIdentifiers(ids) then [x] else [], Matching(t, ids), Matching(b2, ids));
  }

  /** Concatenation is associative. */
  lemma ConcatAssoc<T>(p: seq<T>, q: seq<T>, u: seq<T>)
    ensures p + (q + u) == (p + q) + u
  {
  }

  /** Filtering distributes over concatenation: it keeps the relative order of the survivors. */
  lemma {:induction false} MatchingConcat(b1: seq<Action>, b2: seq<Action>, ids: set<string>)
    ensures Matching(b1 + b2, ids) == Matching(b1, ids) + Matching(b2, ids)
  {
    if b1 == [] {
      assert b1 + b2 == b2;
    } else {
      MatchingConcat(b1[1..], b2, ids);
      MatchingConcatCons(b1[0], b1[1..], b2, ids);
      assert [b1[0]] + b1[1..] == b1;
    }
  }

  /** Every matching action keeps all of its occurrences; every other action loses all of them. */
  lemma {:induction false} MatchingCounts(batch: seq<Action>, ids: set<string>, a: Action)
    ensures multiset(Matching(batch, ids))[a] == if a.HasAnyIdentifiers(ids) then multiset(batch)[a] else 0
  {
    if batch != [] {
      MatchingCounts(batch[1..], ids, a);
      assert batch == [batch[0]] + batch[1..];
    }
  }

  /** A batch whose actions all match survives the filter unchanged. */
  lemma {:induction false} MatchingAll(batch: seq<Action>, ids: set<string>)
    requires forall a :: a in batch ==> a.HasAnyIdentifiers(ids)
    ensures Matching(batch, ids) == batch
  {
    if batch != [] {
      MatchingAll(batch[1..], ids);
    }
  }
}
