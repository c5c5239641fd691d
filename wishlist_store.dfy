/**
 * The wishlist: an ordered list of movie ids, kept free of duplicates by
 * its operations, and written to a named slot of the browser's storage
 * after every change.
 */
module Wishlist {

  /** The storage key the wishlist is saved under. */
  const StorageKey: string := "wishlist-storage"

  /** No id occurs twice. */
  ghost predicate NoDuplicates(s: seq<int>) {
    forall i, j :: 0 <= i < j < |s| ==> s[i] != s[j]
  }

  lemma NoDuplicatesCons(x: int, s: seq<int>)
    requires x !in s && NoDuplicates(s)
    ensures NoDuplicates([x] + s)
  {
  }

  /** The two halves of a duplicate-free list share no id. */
  lemma NoDuplicatesDisjoint(a: seq<int>, b: seq<int>)
    requires NoDuplicates(a + b)
    ensures forall x :: x in a ==> x !in b
  {
    forall i, j | 0 <= i < |a| && 0 <= j < |b|
      ensures a[i] != b[j]
    {
      assert (a + b)[i] == a[i] && (a + b)[|a| + j] == b[j];
    }
  }

  /** `ids` after adding `id`: appended at the end when absent, else unchanged. */
  function Added(ids: seq<int>, id: int): (r: seq<int>)
    ensures id in r
    ensures forall x :: x in r <==> x in ids || x == id
    ensures ids <= r && |r| <= |ids| + 1
    ensures NoDuplicates(ids) ==> NoDuplicates(r)
  {
    if id in ids then ids else ids + [id]
  }

  /** `ids` with every occurrence of `id` dropped, the rest in their order. */
  function Removed(ids: seq<int>, id: int): (r: seq<int>)
    ensures id !in r
    ensures forall x :: x in r <==> x in ids && x != id
    ensures multiset(r) == multiset(ids)[id := 0]
    ensures NoDuplicates(ids) ==> NoDuplicates(r)
  {
    if ids == [] then []
    else
      var rest := Removed(ids[1..], id);
      assert ids == [ids[0]] + ids[1..];
      if ids[0] == id then rest
      else
        assert NoDuplicates(ids) ==> NoDuplicates([ids[0]] + rest) by {
          if NoDuplicates(ids) {
            assert ids[0] !in ids[1..];
            NoDuplicatesCons(ids[0], rest);
          }
        }
        [ids[0]] + rest
  }

  /** Removing keeps the relative order: it distributes over concatenation. */
  lemma {:induction false} RemovedConcat(a: seq<int>, b: seq<int>, id: int)
    ensures Removed(a + b, id) == Removed(a, id) + Removed(b, id)
  {
    if a == [] {
      assert a + b == b;
    } else {
      assert (a + b)[0] == a[0] && (a + b)[1..] == a[1..] + b;
      RemovedConcat(a[1..], b, id);
    }
  }

  /** Removing an absent id changes nothing. */
  lemma {:induction false} RemovedAbsent(ids: seq<int>, id: int)
    requires id !in ids
    ensures Removed(ids, id) == ids
  {
    if ids != [] {
      RemovedAbsent(ids[1..], id);
      assert ids == [ids[0]] + ids[1..];
    }
  }

  /** Removing is idempotent. */
  lemma RemovedTwice(ids: seq<int>, id: int)
    ensures Removed(Removed(ids, id), id) == Removed(ids, id)
  {
    RemovedAbsent(Removed(ids, id), id);
  }

  /**
   * Removing an id just added is the same as removing it from the list before
   * the add; when the id was absent, that is the list before the add.
   */
  lemma AddThenRemove(ids: seq<int>, id: int)
    ensures Removed(Added(ids, id), id) == Removed(ids, id)
    ensures id !in ids ==> Removed(Added(ids, id), id) == ids
  {
    if id !in ids {
      RemovedConcat(ids, [id], id);
      RemovedAbsent(ids, id);
    }
  }

  /** Adding is idempotent. */
  lemma AddedTwice(ids: seq<int>, id: int)
    ensures Added(Added(ids, id), id) == Added(ids, id)
  {
  }

  /** The list after adding each of `xs` in turn. */
  function AddAll(ids: seq<int>, xs: seq<int>): (r: seq<int>)
    ensures forall x :: x in r <==> x in ids || x in xs
    ensures ids <= r
    ensures NoDuplicates(ids) ==> NoDuplicates(r)
    decreases |xs|
  {
    if xs == [] then ids else AddAll(Added(ids, xs[0]), xs[1..])
  }

  /** Adding fresh, distinct ids appends them in the order they were added. */
  lemma {:induction false} AddAllFresh(ids: seq<int>, xs: seq<int>)
    requires NoDuplicates(ids + xs)
    ensures AddAll(ids, xs) == ids + xs
    decreases |xs|
  {
    if xs != [] {
      var x := xs[0];
      assert ids + xs == (ids + [x]) + xs[1..];
      NoDuplicatesDisjoint(ids, xs);
      assert Added(ids, x) == ids + [x];
      AddAllFresh(ids + [x], xs[1..]);
    }
  }

  /** The store that holds the wishlist. */
  class WishlistStore {

    /** The wishlisted movie ids, in the order they were added. */
    var movieIds: seq<int>

    /** The browser's key-value storage the store writes its snapshot to. */
    var storage: map<string, seq<int>>

    ghost predicate Valid()
      reads this
    {
      NoDuplicates(movieIds)
    }

    /** A fresh store is empty and has written nothing yet. */
    constructor ()
      ensures Valid()
      ensures movieIds == [] && storage == map[]
    {
      movieIds := [];
      storage := map[];
    }

    method AddMovie(movieId: int)
      modifies this
      ensures movieId in old(movieIds) ==> movieIds == old(movieIds)
      ensures movieId !in old(movieIds) ==> movieIds == old(movieIds) + [movieId]
      ensures movieIds == Added(old(movieIds), movieId)
      ensures old(Valid()) ==> Valid()
      ensures storage == old(storage)[StorageKey := movieIds]
    {
      movieIds := Added(movieIds, movieId);
      storage := storage[StorageKey := movieIds];
    }

    /** Drops every occurrence, so it also cleans up a list that holds duplicates. */
    method RemoveMovie(movieId: int)
      modifies this
      ensures movieIds == Removed(old(movieIds), movieId)
      ensures movieId !in old(movieIds) ==> movieIds == old(movieIds)
      ensures old(Valid()) ==> Valid()
      ensures storage == old(storage)[StorageKey := movieIds]
    {
      if movieId !in movieIds {
        RemovedAbsent(movieIds, movieId);
      }
      movieIds := Removed(movieIds, movieId);
      storage := storage[StorageKey := movieIds];
    }

    method IsInWishlist(movieId: int) returns (found: bool)
      ensures found <==> movieId in movieIds
    {
      found := movieId in movieIds;
    }

    method ClearWishlist()
      modifies this
      ensures movieIds == [] && Valid()
      ensures storage == old(storage)[StorageKey := []]
    {
      movieIds := [];
      storage := storage[StorageKey := movieIds];
    }
  }

  /**
   * Add three ids, remove one, add two more, then clear, as a user of the
   * store does.
   */
  method ScenarioAddRemoveClear() {
    var store := new WishlistStore();
    ScenarioAddThreeRemoveOne(store);
    assert 4 !in [1, 3];
    store.AddMovie(4);
    assert store.movieIds == [1, 3, 4];
    store.AddMovie(5);
    assert store.movieIds == [1, 3, 4, 5];
    store.ClearWishlist();
    assert store.movieIds == [] && store.storage[StorageKey] == [];
    var found := store.IsInWishlist(1);
    assert !found;
  }

  /** The first half of the scenario: add 1, 2 and 3, then remove 2. */
  method ScenarioAddThreeRemoveOne(store: WishlistStore)
    requires store.movieIds == []
    modifies store
    ensures store.movieIds == [1, 3]
  {
    store.AddMovie(1);
    store.AddMovie(2);
    store.AddMovie(3);
    assert store.movieIds == [1, 2, 3];
    var found := store.IsInWishlist(1);
    assert found;
    found := store.IsInWishlist(4);
    assert !found;
    store.RemoveMovie(2);
    assert store.movieIds == [1, 3] by {
      RemovedMiddleExample();
    }
    found := store.IsInWishlist(2);
    assert !found;
  }

  /** Zero and negative ids are ids like any other. */
  method ScenarioEdgeIds() {
    var store := new WishlistStore();
    store.AddMovie(0);
    store.AddMovie(-1);
    assert store.movieIds == [0, -1];
    var found := store.IsInWishlist(-1);
    assert found;
    found := store.IsInWishlist(1);
    assert !found;
  }

  /** A list with duplicates injected from outside loses every copy. */
  method ScenarioInjectedDuplicates() {
    var store := new WishlistStore();
    store.movieIds := [1, 2, 1, 3, 1];
    store.RemoveMovie(1);
    assert store.movieIds == [2, 3] by {
      InjectedDuplicatesExample();
    }
  }

  /** Removing the middle id of [1, 2, 3] keeps the other two in order. */
  lemma RemovedMiddleExample()
    ensures Removed([1, 2, 3], 2) == [1, 3]
  {
    assert [1, 2, 3][1..] == [2, 3];
    assert [2, 3][1..] == [3];
    assert [3][1..] == [];
    assert Removed([3], 2) == [3];
    assert Removed([2, 3], 2) == [3];
  }

  /** The list with duplicates from the store's tests loses every copy of 1. */
  lemma InjectedDuplicatesExample()
    ensures Removed([1, 2, 1, 3, 1], 1) == [2, 3]
  {
    assert [1, 2, 1, 3, 1][1..] == [2, 1, 3, 1];
    assert [2, 1, 3, 1][1..] == [1, 3, 1];
    assert [1, 3, 1][1..] == [3, 1];
    assert [3, 1][1..] == [1];
    assert [1][1..] == [];
    assert Removed([3, 1], 1) == [3];
    assert Removed([2, 1, 3, 1], 1) == [2, 3];
  }

  lemma InsertionOrderExample()
    ensures AddAll([], [5, 1, 3, 2, 4]) == [5, 1, 3, 2, 4]
  {
    AddAllFresh([], [5, 1, 3, 2, 4]);
  }
}
