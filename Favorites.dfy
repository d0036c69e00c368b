/**
 * The favorites store: a list of tour ids kept free of duplicates.
 */
module Favorites {
  import opened Common

  function IsNot(tourId: string): string -> bool
  {
    (id: string) => id != tourId
  }

  /** `favorites.filter((id) => id !== tourId)`. */
  function Removed(favorites: seq<string>, tourId: string): (r: seq<string>)
    ensures tourId !in r
    ensures forall id :: id != tourId ==> (id in r <==> id in favorites)
    ensures IsSubsequence(r, favorites)
    ensures NoDuplicates(favorites) ==> NoDuplicates(r)
    ensures forall id :: multiset(r)[id] == if id == tourId then 0 else multiset(favorites)[id]
  {
    FilterKeepsNoDuplicates(favorites, IsNot(tourId));
    FilterCounts(favorites, IsNot(tourId));
    Filter(favorites, IsNot(tourId))
  }

  /** `addFavorite`: a no-op for an id already present, an append otherwise. */
  function Added(favorites: seq<string>, tourId: string): (r: seq<string>)
    ensures tourId in r
    ensures forall id :: id != tourId ==> (id in r <==> id in favorites)
    ensures NoDuplicates(favorites) ==> NoDuplicates(r)
  {
    if tourId in favorites then favorites else favorites + [tourId]
  }

  /** `toggleFavorite`: remove when present, add otherwise. */
  function Toggled(favorites: seq<string>, tourId: string): (r: seq<string>)
    ensures tourId in r <==> tourId !in favorites
    ensures forall id :: id != tourId ==> (id in r <==> id in favorites)
    ensures NoDuplicates(favorites) ==> NoDuplicates(r)
  {
    if tourId in favorites then Removed(favorites, tourId) else Added(favorites, tourId)
  }

  /** Removing an id nobody has marked leaves the list exactly as it was. */
  lemma RemoveAbsentIsNoOp(favorites: seq<string>, tourId: string)
    requires tourId !in favorites
    ensures Removed(favorites, tourId) == favorites
  {
    FilterKeepsAll(favorites, IsNot(tourId));
  }

  /** Toggling an absent id twice restores the exact original list. */
  lemma ToggleAbsentTwiceRestores(favorites: seq<string>, tourId: string)
    requires tourId !in favorites
    ensures Toggled(Toggled(favorites, tourId), tourId) == favorites
  {
    FilterAppend(favorites, [tourId], IsNot(tourId));
    RemoveAbsentIsNoOp(favorites, tourId);
    assert Filter([tourId], IsNot(tourId)) == [];
  }

  /**
   * Toggling a present id twice keeps the same ids but moves that one to the
   * end of the list.
   */
  lemma TogglePresentTwiceMovesToEnd(favorites: seq<string>, tourId: string)
    requires tourId in favorites
    ensures Toggled(Toggled(favorites, tourId), tourId) == Removed(favorites, tourId) + [tourId]
  {
  }

  class FavoritesStore {
    var favorites: seq<string>

    ghost predicate Valid()
      reads this
    {
      NoDuplicates(favorites)
    }

    constructor ()
      ensures Valid() && favorites == []
    {
      favorites := [];
    }

    method AddFavorite(tourId: string)
      requires Valid()
      modifies this
      ensures Valid()
      ensures favorites == Added(old(favorites), tourId)
      ensures tourId in old(favorites) ==> favorites == old(favorites)
      ensures tourId !in old(favorites) ==> favorites == old(favorites) + [tourId]
    {
      if tourId in favorites {
        return;
      }
      favorites := favorites + [tourId];
    }

    method RemoveFavorite(tourId: string)
      requires Valid()
      modifies this
      ensures Valid()
      ensures favorites == Removed(old(favorites), tourId)
    {
      favorites := Removed(favorites, tourId);
    }

    method ToggleFavorite(tourId: string)
      requires Valid()
      modifies this
      ensures Valid()
      ensures favorites == Toggled(old(favorites), tourId)
      ensures tourId in favorites <==> tourId !in old(favorites)
      ensures forall id :: id != tourId ==> (id in favorites <==> id in old(favorites))
    {
      if tourId in favorites {
        RemoveFavorite(tourId);
      } else {
        AddFavorite(tourId);
      }
    }

    /** `isFavorite`: the id is one of the listed ones. */
    predicate IsFavorite(tourId: string)
      reads this
      ensures IsFavorite(tourId) <==> exists i :: 0 <= i < |favorites| && favorites[i] == tourId
    {
      tourId in favorites
    }

    method ClearFavorites()
      modifies this
      ensures Valid() && favorites == []
    {
      favorites := [];
    }
  }
}
