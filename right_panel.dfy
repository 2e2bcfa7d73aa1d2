/**
 * The favorites list of the right-hand panel: most recently added first, no name twice,
 * at most twelve names, and every change written both to the panel's state and to the
 * browser's storage under "weather-favorites".
 */
module RightPanel {
  import opened Wrappers
  import opened Seqs
  import opened Text

  const StorageKey := "weather-favorites"
  const MaxFavorites := 12

  predicate NoDuplicates(s: seq<string>) {
    forall i, j :: 0 <= i < j < |s| ==> s[i] != s[j]
  }

  /** The shape every list the panel itself builds has. */
  predicate WellFormed(favs: seq<string>) {
    NoDuplicates(favs) && |favs| <= MaxFavorites
  }

  /**
   * The star button shows filled: the trimmed current city is a favorite, so whitespace
   * around the city does not change the star.
   */
  predicate Starred(favs: seq<string>, currentCity: string)
    ensures Starred(favs, currentCity) == Starred(favs, Trim(currentCity))
    ensures Starred(favs, currentCity) ==> favs != []
  {
    TrimIdempotent(currentCity);
    Trim(currentCity) in favs
  }

  /**
   * The list `addFavorite` saves, or None when it returns without saving: the trimmed
   * city in front of the old list, cut to twelve, unless the city is blank or already there.
   */
  function AddedList(favs: seq<string>, currentCity: string): (r: Option<seq<string>>)
    ensures r.None? <==> Trim(currentCity) == "" || Trim(currentCity) in favs
    ensures r.Some? ==> 0 < |r.value| <= MaxFavorites && r.value[0] == Trim(currentCity)
                        && r.value[1..] == favs[..Min(|favs|, MaxFavorites - 1)]
  {
    var city := Trim(currentCity);
    if city == "" then None
    else if city in favs then None
    else
      TakeCons(city, favs, MaxFavorites);
      Some(Take([city] + favs, MaxFavorites))
  }

  /** The list after an add, whether or not anything was saved. */
  function AfterAdd(favs: seq<string>, currentCity: string): (r: seq<string>)
    ensures Trim(currentCity) != "" ==> Starred(r, currentCity)
    ensures forall x :: x in r ==> x in favs || x == Trim(currentCity)
    ensures |favs| <= MaxFavorites ==> |r| <= MaxFavorites
    ensures Starred(favs, currentCity) ==> r == favs
  {
    match AddedList(favs, currentCity)
    case None => favs
    case Some(next) => next
  }

  /** An add keeps a list free of duplicates, and keeps a well-formed list well-formed. */
  lemma AddKeepsNoDuplicates(favs: seq<string>, currentCity: string)
    requires NoDuplicates(favs)
    ensures NoDuplicates(AfterAdd(favs, currentCity))
    ensures |favs| <= MaxFavorites ==> WellFormed(AfterAdd(favs, currentCity))
  {
    var r := AddedList(favs, currentCity);
    if r.Some? {
      var next := r.value;
      var city := Trim(currentCity);
      forall i, j | 0 <= i < j < |next| ensures next[i] != next[j] {
        assert next[j] == favs[j - 1];
        if i == 0 {
          assert favs[j - 1] in favs;
        } else {
          assert next[i] == favs[i - 1];
        }
      }
    }
  }

  /** After an add of a non-blank city the star is filled, and any added city sits in front. */
  lemma AddThenStarred(favs: seq<string>, currentCity: string)
    requires Trim(currentCity) != ""
    ensures Starred(AfterAdd(favs, currentCity), currentCity)
    ensures AddedList(favs, currentCity).Some? ==> AfterAdd(favs, currentCity)[0] == Trim(currentCity)
  {
  }

  /** `favorites.filter((c) => c !== city)`. */
  function Without(favs: seq<string>, city: string): (r: seq<string>)
    ensures forall x :: x in r <==> x in favs && x != city
    ensures |r| <= |favs|
    decreases |favs|
  {
    if favs == [] then []
    else (if favs[0] == city then [] else [favs[0]]) + Without(favs[1..], city)
  }

  /** `sub` is `s` with some elements deleted, the rest in their original order. */
  predicate IsSubsequence(sub: seq<string>, s: seq<string>)
    decreases |s|
  {
    if sub == [] then true
    else if s == [] then false
    else if sub[0] == s[0] then IsSubsequence(sub[1..], s[1..])
    else IsSubsequence(sub, s[1..])
  }

  /** Removing keeps the other favorites in their relative order. */
  lemma {:induction false} WithoutKeepsOrder(favs: seq<string>, city: string)
    ensures IsSubsequence(Without(favs, city), favs)
    decreases |favs|
  {
    if favs != [] {
      WithoutKeepsOrder(favs[1..], city);
      if favs[0] == city {
        assert Without(favs, city) == Without(favs[1..], city);
        SubsequenceOfTail(Without(favs[1..], city), favs);
      } else {
        assert Without(favs, city) == [favs[0]] + Without(favs[1..], city);
        assert Without(favs, city)[1..] == Without(favs[1..], city);
      }
    }
  }

  lemma {:induction false} SubsequenceOfTail(sub: seq<string>, s: seq<string>)
    requires s != [] && IsSubsequence(sub, s[1..])
    ensures IsSubsequence(sub, s)
    decreases |sub| + |s|
  {
    if sub != [] && sub[0] == s[0] {
      DropHeadOfSubsequence(sub, s[1..]);
    }
  }

  lemma {:induction false} DropHeadOfSubsequence(sub: seq<string>, s: seq<string>)
    requires sub != [] && IsSubsequence(sub, s)
    ensures IsSubsequence(sub[1..], s)
    decreases |sub| + |s|
  {
    if sub[0] == s[0] {
      SubsequenceOfTail(sub[1..], s);
    } else {
      DropHeadOfSubsequence(sub, s[1..]);
      SubsequenceOfTail(sub[1..], s);
    }
  }

  /** Removing deletes every copy of `city` and nothing else. */
  lemma {:induction false} WithoutCounts(favs: seq<string>, city: string, x: string)
    ensures multiset(Without(favs, city))[x] == if x == city then 0 else multiset(favs)[x]
    decreases |favs|
  {
    if favs != [] {
      WithoutCounts(favs[1..], city, x);
      assert favs == [favs[0]] + favs[1..];
      assert multiset(favs) == multiset{favs[0]} + multiset(favs[1..]);
    }
  }

  /** Removing a name that is not a favorite changes nothing. */
  lemma {:induction false} WithoutAbsent(favs: seq<string>, city: string)
    requires city !in favs
    ensures Without(favs, city) == favs
    decreases |favs|
  {
    if favs != [] {
      WithoutAbsent(favs[1..], city);
      assert favs == [favs[0]] + favs[1..];
    }
  }

  /** Removing keeps a list free of duplicates and well-formed. */
  lemma {:induction false} WithoutKeepsNoDuplicates(favs: seq<string>, city: string)
    requires NoDuplicates(favs)
    ensures NoDuplicates(Without(favs, city))
    ensures |favs| <= MaxFavorites ==> WellFormed(Without(favs, city))
    decreases |favs|
  {
    if favs != [] {
      WithoutKeepsNoDuplicates(favs[1..], city);
      var rest := Without(favs[1..], city);
      if favs[0] != city {
        assert favs[0] !in favs[1..];
        assert favs[0] !in rest;
        var r := [favs[0]] + rest;
        forall i, j | 0 <= i < j < |r| ensures r[i] != r[j] {
          if i == 0 {
            assert r[j] == rest[j - 1];
          } else {
            assert r[i] == rest[i - 1] && r[j] == rest[j - 1];
          }
        }
      }
    }
  }

  /** After removing the trimmed current city the star is empty. */
  lemma RemoveThenNotStarred(favs: seq<string>, currentCity: string)
    ensures !Starred(Without(favs, Trim(currentCity)), currentCity)
  {
  }

  /** The list the panel starts from: the stored one, or none when nothing is stored. */
  function StoredFavorites(storage: map<string, seq<string>>): (r: seq<string>)
    ensures StorageKey in storage ==> r == storage[StorageKey]
    ensures StorageKey !in storage ==> r == []
  {
    if StorageKey in storage then storage[StorageKey] else []
  }

  /**
   * The panel's `favorites` state and the browser storage it writes to. The storage maps
   * each key to the list its JSON text encodes.
   */
  class FavoritesPanel {
    var favorites: seq<string>
    var storage: map<string, seq<string>>

    /** The state mirrors what is stored. */
    predicate Valid()
      reads this
    {
      favorites == StoredFavorites(storage)
    }

    /** Mounting: the favorites are read back from storage when anything is stored. */
    constructor (stored: map<string, seq<string>>)
      ensures storage == stored && favorites == StoredFavorites(stored)
      ensures Valid()
    {
      storage := stored;
      favorites := [];
      if StorageKey in stored {
        favorites := stored[StorageKey];
      }
    }

    /** `saveFavorites(list)`: the same list goes to the state and to storage. */
    method SaveFavorites(list: seq<string>)
      modifies this
      ensures favorites == list
      ensures storage == old(storage)[StorageKey := list]
      ensures Valid()
    {
      favorites := list;
      storage := storage[StorageKey := list];
    }

    /** `addFavorite()` with the panel's `currentCity` prop. */
    method AddFavorite(currentCity: string)
      requires Valid()
      modifies this
      ensures Valid()
      ensures favorites == AfterAdd(old(favorites), currentCity)
      ensures storage == if AddedList(old(favorites), currentCity).None? then old(storage)
                         else old(storage)[StorageKey := favorites]
    {
      if Trim(currentCity) == "" {
        assert AddedList(favorites, currentCity) == None;
        return;
      }
      var city := Trim(currentCity);
      if city in favorites {
        assert AddedList(favorites, currentCity) == None;
        return;
      }
      var next := Take([city] + favorites, MaxFavorites);
      assert AddedList(favorites, currentCity) == Some(next);
      SaveFavorites(next);
    }

    /** `removeFavorite(city)`: saves the filtered list even when nothing matched. */
    method RemoveFavorite(city: string)
      modifies this
      ensures favorites == Without(old(favorites), city)
      ensures storage == old(storage)[StorageKey := favorites]
      ensures Valid()
    {
      var next := Without(favorites, city);
      SaveFavorites(next);
    }

    /** The Clear button: `saveFavorites([])`. */
    method ClearFavorites()
      modifies this
      ensures favorites == []
      ensures storage == old(storage)[StorageKey := []]
      ensures Valid()
    {
      SaveFavorites([]);
    }
  }
}
