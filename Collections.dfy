/** The list transforms the editors apply to a whole collection: filter out by id
    (`Array.prototype.filter`), replace by id (`Array.prototype.map`), find by id,
    and the one-element `Array.prototype.splice` used on a plan's string lists.
    Each is generic in the entity type; `idOf` projects the entity's identifier. */
module Collections {
  import opened Wrappers

  /** Every entity whose id is not `id`, in their original order. */
  function RemoveById<T>(xs: seq<T>, idOf: T -> string, id: string): (r: seq<T>)
    ensures |r| <= |xs|
    ensures forall k :: 0 <= k < |r| ==> idOf(r[k]) != id
    ensures forall y :: y in r ==> y in xs
  {
    if xs == [] then []
    else if idOf(xs[0]) == id then RemoveById(xs[1..], idOf, id)
    else [xs[0]] + RemoveById(xs[1..], idOf, id)
  }

  /** Each entity whose id equals `e`'s is replaced by `e`; the others are kept. */
  function ReplaceById<T>(xs: seq<T>, idOf: T -> string, e: T): (r: seq<T>)
    ensures |r| == |xs|
  {
    if xs == [] then []
    else [if idOf(xs[0]) == idOf(e) then e else xs[0]] + ReplaceById(xs[1..], idOf, e)
  }

  /** The first entity with identifier `id`, if any (what a reader looking the id up sees). */
  function FindById<T>(xs: seq<T>, idOf: T -> string, id: string): (r: Option<T>)
    ensures r.Some? ==> r.value in xs && idOf(r.value) == id
    ensures r.None? ==> forall k :: 0 <= k < |xs| ==> idOf(xs[k]) != id
  {
    if xs == [] then None
    else if idOf(xs[0]) == id then Some(xs[0])
    else FindById(xs[1..], idOf, id)
  }

  /** Some entity of `xs` carries identifier `id`. */
  predicate HasId<T>(xs: seq<T>, idOf: T -> string, id: string)
  {
    exists k :: 0 <= k < |xs| && idOf(xs[k]) == id
  }

  /** No two entities share an identifier. */
  predicate UniqueIds<T>(xs: seq<T>, idOf: T -> string)
  {
    forall i, j :: 0 <= i < j < |xs| ==> idOf(xs[i]) != idOf(xs[j])
  }

  // ---------------------------------------------------------------------------
  // Delete (filter by id)

  /** Nothing else is lost: every entity with another id survives the filter. */
  lemma {:induction false} RemoveByIdKeepsOthers<T>(xs: seq<T>, idOf: T -> string, id: string, x: T)
    requires x in xs && idOf(x) != id
    ensures x in RemoveById(xs, idOf, id)
  {
    if xs[0] != x {
      RemoveByIdKeepsOthers(xs[1..], idOf, id, x);
    }
  }

  /** Deleting an id no entity carries changes nothing. */
  lemma {:induction false} RemoveByIdAbsent<T>(xs: seq<T>, idOf: T -> string, id: string)
    requires !HasId(xs, idOf, id)
    ensures RemoveById(xs, idOf, id) == xs
  {
    if xs != [] {
      assert idOf(xs[0]) != id;
      assert !HasId(xs[1..], idOf, id) by {
        forall k | 0 <= k < |xs[1..]| ensures idOf(xs[1..][k]) != id {
          assert xs[1..][k] == xs[k + 1];
        }
      }
      RemoveByIdAbsent(xs[1..], idOf, id);
      assert xs == [xs[0]] + xs[1..];
    }
  }

  /** The filter works element by element, so it keeps the relative order:
      filtering a concatenation is concatenating the filtered parts. */
  lemma {:induction false} RemoveByIdConcat<T>(xs: seq<T>, ys: seq<T>, idOf: T -> string, id: string)
    ensures RemoveById(xs + ys, idOf, id) == RemoveById(xs, idOf, id) + RemoveById(ys, idOf, id)
  {
    if xs == [] {
      assert xs + ys == ys;
    } else {
      assert (xs + ys)[0] == xs[0];
      assert (xs + ys)[1..] == xs[1..] + ys;
      RemoveByIdConcat(xs[1..], ys, idOf, id);
    }
  }

  /** Deleting twice is deleting once. */
  lemma RemoveByIdIdempotent<T>(xs: seq<T>, idOf: T -> string, id: string)
    ensures RemoveById(RemoveById(xs, idOf, id), idOf, id) == RemoveById(xs, idOf, id)
  {
    RemoveByIdAbsent(RemoveById(xs, idOf, id), idOf, id);
  }

  /** After a delete, looking the id up finds nothing. */
  lemma RemoveByIdNotFound<T>(xs: seq<T>, idOf: T -> string, id: string)
    ensures FindById(RemoveById(xs, idOf, id), idOf, id) == None
  {
  }

  /** With unique identifiers, deleting an id that is present shrinks the
      collection by exactly one. */
  lemma {:induction false} RemoveByIdShrinksByOne<T>(xs: seq<T>, idOf: T -> string, id: string)
    requires UniqueIds(xs, idOf)
    requires HasId(xs, idOf, id)
    ensures |RemoveById(xs, idOf, id)| == |xs| - 1
  {
    var rest := xs[1..];
    assert UniqueIds(rest, idOf) by {
      forall i, j | 0 <= i < j < |rest| ensures idOf(rest[i]) != idOf(rest[j]) {
        assert rest[i] == xs[i + 1] && rest[j] == xs[j + 1];
      }
    }
    if idOf(xs[0]) == id {
      assert !HasId(rest, idOf, id) by {
        forall k | 0 <= k < |rest| ensures idOf(rest[k]) != id {
          assert rest[k] == xs[k + 1];
        }
      }
      RemoveByIdAbsent(rest, idOf, id);
    } else {
      var k :| 0 <= k < |xs| && idOf(xs[k]) == id;
      assert rest[k - 1] == xs[k];
      RemoveByIdShrinksByOne(rest, idOf, id);
    }
  }

  /** Deleting keeps identifiers unique: the survivors are a subsequence of a
      list whose identifiers were distinct. */
  lemma {:induction false} RemoveByIdKeepsUnique<T>(xs: seq<T>, idOf: T -> string, id: string)
    requires UniqueIds(xs, idOf)
    ensures UniqueIds(RemoveById(xs, idOf, id), idOf)
  {
    if xs != [] {
      var rest := xs[1..];
      assert UniqueIds(rest, idOf) by {
        forall i, j | 0 <= i < j < |rest| ensures idOf(rest[i]) != idOf(rest[j]) {
          assert rest[i] == xs[i + 1] && rest[j] == xs[j + 1];
        }
      }
      RemoveByIdKeepsUnique(rest, idOf, id);
      var tail := RemoveById(rest, idOf, id);
      if idOf(xs[0]) != id {
        var r := [xs[0]] + tail;
        forall i, j | 0 <= i < j < |r| ensures idOf(r[i]) != idOf(r[j]) {
          if i == 0 {
            assert r[j] == tail[j - 1] && r[j] in rest;
            var m :| 0 <= m < |rest| && rest[m] == r[j];
            assert rest[m] == xs[m + 1];
          } else {
            assert r[i] == tail[i - 1] && r[j] == tail[j - 1];
          }
        }
      }
    }
  }

  // ---------------------------------------------------------------------------
  // Update (replace by id)

  /** The replacement is element-wise: position k holds `e` exactly when the
      entity there had `e`'s identifier (the length is kept by `ReplaceById`). */
  lemma {:induction false} ReplaceByIdAt<T>(xs: seq<T>, idOf: T -> string, e: T)
    ensures forall k :: 0 <= k < |xs| ==>
      ReplaceById(xs, idOf, e)[k] == (if idOf(xs[k]) == idOf(e) then e else xs[k])
  {
    if xs != [] {
      ReplaceByIdAt(xs[1..], idOf, e);
      var r := ReplaceById(xs, idOf, e);
      forall k | 0 <= k < |xs|
        ensures r[k] == (if idOf(xs[k]) == idOf(e) then e else xs[k])
      {
        if k > 0 {
          assert r[k] == ReplaceById(xs[1..], idOf, e)[k - 1];
          assert xs[1..][k - 1] == xs[k];
        }
      }
    }
  }

  /** Replacing keeps every position's identifier, so it keeps identifiers unique. */
  lemma ReplaceByIdKeepsIds<T>(xs: seq<T>, idOf: T -> string, e: T)
    ensures forall k :: 0 <= k < |xs| ==> idOf(ReplaceById(xs, idOf, e)[k]) == idOf(xs[k])
    ensures UniqueIds(xs, idOf) ==> UniqueIds(ReplaceById(xs, idOf, e), idOf)
  {
    ReplaceByIdAt(xs, idOf, e);
  }

  /** Updating an entity whose identifier is not in the collection changes nothing. */
  lemma ReplaceByIdAbsent<T>(xs: seq<T>, idOf: T -> string, e: T)
    requires !HasId(xs, idOf, idOf(e))
    ensures ReplaceById(xs, idOf, e) == xs
  {
    ReplaceByIdAt(xs, idOf, e);
  }

  /** After an update of a present identifier, looking that identifier up yields
      the new entity. */
  lemma {:induction false} ReplaceByIdFound<T>(xs: seq<T>, idOf: T -> string, e: T)
    requires HasId(xs, idOf, idOf(e))
    ensures FindById(ReplaceById(xs, idOf, e), idOf, idOf(e)) == Some(e)
  {
    if idOf(xs[0]) != idOf(e) {
      var k :| 0 <= k < |xs| && idOf(xs[k]) == idOf(e);
      assert xs[1..][k - 1] == xs[k];
      ReplaceByIdFound(xs[1..], idOf, e);
    }
  }

  /** Updating twice with the same entity is updating once. */
  lemma ReplaceByIdIdempotent<T>(xs: seq<T>, idOf: T -> string, e: T)
    ensures ReplaceById(ReplaceById(xs, idOf, e), idOf, e) == ReplaceById(xs, idOf, e)
  {
    var r := ReplaceById(xs, idOf, e);
    ReplaceByIdAt(xs, idOf, e);
    ReplaceByIdAt(r, idOf, e);
  }

  /** Deleting an identifier after updating it is the same as deleting it directly. */
  lemma {:induction false} RemoveAfterReplace<T>(xs: seq<T>, idOf: T -> string, e: T)
    ensures RemoveById(ReplaceById(xs, idOf, e), idOf, idOf(e)) == RemoveById(xs, idOf, idOf(e))
  {
    if xs != [] {
      RemoveAfterReplace(xs[1..], idOf, e);
    }
  }

  // ---------------------------------------------------------------------------
  // Add (append)

  /** Appending an entity with a fresh identifier keeps identifiers unique, and
      that entity is then what a lookup of its identifier finds. */
  lemma {:induction false} AppendFresh<T>(xs: seq<T>, idOf: T -> string, x: T)
    requires UniqueIds(xs, idOf)
    requires !HasId(xs, idOf, idOf(x))
    ensures UniqueIds(xs + [x], idOf)
    ensures FindById(xs + [x], idOf, idOf(x)) == Some(x)
  {
    if xs != [] {
      assert (xs + [x])[1..] == xs[1..] + [x];
      var rest := xs[1..];
      assert UniqueIds(rest, idOf) by {
        forall i, j | 0 <= i < j < |rest| ensures idOf(rest[i]) != idOf(rest[j]) {
          assert rest[i] == xs[i + 1] && rest[j] == xs[j + 1];
        }
      }
      assert !HasId(rest, idOf, idOf(x)) by {
        forall k | 0 <= k < |rest| ensures idOf(rest[k]) != idOf(x) {
          assert rest[k] == xs[k + 1];
        }
      }
      AppendFresh(rest, idOf, x);
      assert idOf(xs[0]) != idOf(x);
    }
    var ys := xs + [x];
    forall i, j | 0 <= i < j < |ys| ensures idOf(ys[i]) != idOf(ys[j]) {
      if j == |xs| {
        assert ys[i] == xs[i];
      } else {
        assert ys[i] == xs[i] && ys[j] == xs[j];
      }
    }
  }

  // ---------------------------------------------------------------------------
  // splice(start, 1) on a copy of a list

  /** Where `Array.prototype.splice` starts on a list of length `len`: a negative
      start counts from the end (clamped at 0), a start past the end is clamped
      to the end. */
  function SpliceStart(len: nat, start: int): (k: nat)
    ensures k <= len
    ensures start < 0 ==> k == len - (if -start < len then -start else len)
    ensures 0 <= start <= len ==> k == start
  {
    if start < 0 then (if len + start < 0 then 0 else len + start)
    else if start > len then len
    else start
  }

  /** The list after `splice(start, 1)` on a copy of `xs`: the element at the
      clamped start is removed, or nothing when the start is at the end. */
  function SpliceOne<T>(xs: seq<T>, start: int): (r: seq<T>)
    ensures |r| == (if SpliceStart(|xs|, start) < |xs| then |xs| - 1 else |xs|)
    ensures multiset(r) <= multiset(xs)
  {
    var k := SpliceStart(|xs|, start);
    if k < |xs| then
      assert xs == xs[..k] + [xs[k]] + xs[k + 1..];
      xs[..k] + xs[k + 1..]
    else xs
  }

  /** Removing at an index inside the list deletes exactly that element: the
      elements before it stay where they were, those after it move down by one,
      and the removed element is the only one missing. */
  lemma SpliceOneInRange<T>(xs: seq<T>, i: int)
    requires 0 <= i < |xs|
    ensures |SpliceOne(xs, i)| == |xs| - 1
    ensures forall k :: 0 <= k < i ==> SpliceOne(xs, i)[k] == xs[k]
    ensures forall k :: i <= k < |xs| - 1 ==> SpliceOne(xs, i)[k] == xs[k + 1]
    ensures multiset(SpliceOne(xs, i)) + multiset{xs[i]} == multiset(xs)
  {
    assert xs == xs[..i] + [xs[i]] + xs[i + 1..];
  }

  /** A negative index counts from the end; one before the start removes the first element. */
  lemma SpliceOneNegative<T>(xs: seq<T>, i: int)
    requires i < 0 && |xs| > 0
    ensures SpliceOne(xs, i) == SpliceOne(xs, if |xs| + i < 0 then 0 else |xs| + i)
  {
  }

  /** An index at or past the end removes nothing. */
  lemma SpliceOnePastEnd<T>(xs: seq<T>, i: int)
    requires i >= |xs|
    ensures SpliceOne(xs, i) == xs
  {
  }
}
