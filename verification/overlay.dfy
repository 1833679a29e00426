/** The "seed + override" merge shared by the gas-sales, fuel-shift and
    expense stores: the stored list comes first, unchanged, and every seed
    record whose id is not stored is pushed after it, in seed order. */
module Overlay {
  import opened Common

  /** Holds of a record whose id is not among `taken`. */
  function NotTaken<T>(taken: set<string>, id: T -> string): T -> bool
  {
    x => id(x) !in taken
  }

  /** The seed records whose id is not among `taken`. */
  function Unshadowed<T(!new)>(seed: seq<T>, taken: set<string>, id: T -> string): seq<T>
  {
    Filter(seed, NotTaken(taken, id))
  }

  lemma UnshadowedSnoc<T(!new)>(seed: seq<T>, i: nat, taken: set<string>, id: T -> string)
    requires i < |seed|
    ensures Unshadowed(seed[..i + 1], taken, id)
         == Unshadowed(seed[..i], taken, id) + (if id(seed[i]) !in taken then [seed[i]] else [])
  {
    FilterSnoc(seed, i, NotTaken(taken, id));
  }

  /** Stored records followed by the seed records they do not shadow. */
  function Merge<T(==,!new)>(stored: seq<T>, seed: seq<T>, id: T -> string): (r: seq<T>)
    ensures forall x :: x in r <==> x in stored || (x in seed && id(x) !in Ids(stored, id))
    ensures |stored| <= |r| && r[..|stored|] == stored
  {
    stored + Unshadowed(seed, Ids(stored, id), id)
  }

  /** The `forEach`/`push` loop of the stores: `merged = [...stored]`, then
      push each seed record whose id is not stored. */
  method MergeUnshadowed<T(==,!new)>(stored: seq<T>, seed: seq<T>, id: T -> string) returns (merged: seq<T>)
    ensures merged == Merge(stored, seed, id)
  {
    var existing := Ids(stored, id);
    merged := stored;
    var i := 0;
    while i < |seed|
      invariant 0 <= i <= |seed|
      invariant merged == stored + Unshadowed(seed[..i], existing, id)
    {
      ghost var done := Unshadowed(seed[..i], existing, id);
      UnshadowedSnoc(seed, i, existing, id);
      if id(seed[i]) !in existing {
        merged := merged + [seed[i]];
        assert merged == stored + (done + [seed[i]]);
      }
      i := i + 1;
    }
    assert seed[..i] == seed;
  }

  /** A stored record shadows every seed record with the same id: each
      merged record whose id is stored comes from storage. */
  lemma MergeShadows<T(!new)>(stored: seq<T>, seed: seq<T>, id: T -> string, x: T)
    requires x in Merge(stored, seed, id) && id(x) in Ids(stored, id)
    ensures x in stored
  {
  }

  /** Without duplicate ids in either source there are none in the merge. */
  lemma MergeUniqueIds<T(!new)>(stored: seq<T>, seed: seq<T>, id: T -> string)
    requires UniqueIds(stored, id) && UniqueIds(seed, id)
    ensures UniqueIds(Merge(stored, seed, id), id)
  {
    var taken := Ids(stored, id);
    var extra := Unshadowed(seed, taken, id);
    FilterUniqueIds(seed, NotTaken(taken, id), id);
    ConcatUniqueIds(stored, extra, id);
  }

  /** Prepending a record whose id no seed record carries prepends it to the
      merge: it shadows nothing, so the seed part is unchanged. */
  lemma MergePrependFresh<T(!new)>(stored: seq<T>, seed: seq<T>, id: T -> string, x: T)
    requires id(x) !in Ids(seed, id)
    ensures Merge([x] + stored, seed, id) == [x] + Merge(stored, seed, id)
  {
    var before, after := Ids(stored, id), Ids([x] + stored, id);
    assert after == before + {id(x)} by {
      forall k ensures k in after <==> k in before + {id(x)} {
        if k in after {
          var y :| y in [x] + stored && id(y) == k;
        }
      }
    }
    forall y | y in seed ensures NotTaken(after, id)(y) == NotTaken(before, id)(y) {
      assert id(y) in Ids(seed, id);
    }
    FilterExt(seed, NotTaken(after, id), NotTaken(before, id));
    assert [x] + stored + Unshadowed(seed, before, id) == [x] + (stored + Unshadowed(seed, before, id));
  }
}
