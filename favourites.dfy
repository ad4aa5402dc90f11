/** The favourites slice: an ordered list of exercises keyed by `id`, mirrored into the
    device's key-value storage under one fixed key. */
module Favourites {
  import opened Wrappers
  import opened Exercises

  const FavouritesKey: string := "@favourites"
  const LoadFailedMessage: string := "Failed to load favourites"
  const SaveFailedMessage: string := "Failed to save favourites"

  /** Some item of `items` has id `id` (`===` on ids). */
  predicate HasId(items: seq<Exercise>, id: Id) {
    exists i :: 0 <= i < |items| && items[i].id == id
  }

  /** The list invariant the reducers keep: no two items share an id. */
  predicate UniqueIds(items: seq<Exercise>) {
    forall i, j :: 0 <= i < j < |items| ==> items[i].id != items[j].id
  }

  /** `items.findIndex(item => item.id === id)`: the first position holding `id`, or -1. */
  function FindIndex(items: seq<Exercise>, id: Id): (k: int)
    ensures -1 <= k < |items|
    ensures k == -1 <==> !HasId(items, id)
    ensures k >= 0 ==> items[k].id == id && forall i :: 0 <= i < k ==> items[i].id != id
  {
    if items == [] then -1
    else if items[0].id == id then 0
    else
      var k := FindIndex(items[1..], id);
      assert forall i :: 1 <= i < |items| ==> items[i] == items[1..][i - 1];
      if k == -1 then -1 else k + 1
  }

  /** The list with its first item of id `id` taken out. */
  function RemoveFirst(items: seq<Exercise>, id: Id): (r: seq<Exercise>)
    ensures forall x :: x in r ==> x in items
  {
    if items == [] then []
    else if items[0].id == id then items[1..]
    else [items[0]] + RemoveFirst(items[1..], id)
  }

  /** `items.filter(item => item.id !== id)`. */
  function WithoutId(items: seq<Exercise>, id: Id): (r: seq<Exercise>)
    ensures |r| <= |items|
    ensures forall x :: x in r <==> x in items && x.id != id
    ensures !HasId(r, id)
  {
    if items == [] then []
    else (if items[0].id == id then [] else [items[0]]) + WithoutId(items[1..], id)
  }

  /** What `addToFavourites` leaves in `items`. */
  function Added(items: seq<Exercise>, exercise: Exercise): seq<Exercise> {
    if HasId(items, exercise.id) then items else items + [exercise]
  }

  /** What `toggleFavourite` leaves in `items`. */
  function Toggled(items: seq<Exercise>, exercise: Exercise): seq<Exercise> {
    if HasId(items, exercise.id) then RemoveFirst(items, exercise.id) else items + [exercise]
  }

  /** `exercise` toggled `n` times in a row. */
  function ToggledTimes(items: seq<Exercise>, exercise: Exercise, n: nat): seq<Exercise> {
    if n == 0 then items else Toggled(ToggledTimes(items, exercise, n - 1), exercise)
  }

  /** Removing the first match is splicing out the position `findIndex` returns; every
      other item keeps its place relative to the rest. */
  lemma {:induction false} RemoveFirstIsSplice(items: seq<Exercise>, id: Id)
    requires HasId(items, id)
    ensures var k := FindIndex(items, id);
            RemoveFirst(items, id) == items[..k] + items[k + 1..]
  {
    if items[0].id != id {
      var k := FindIndex(items, id);
      FindIndexOfTail(items, id);
      RemoveFirstIsSplice(items[1..], id);
      ConsSplice(items, k);
    }
  }

  /** Past a first item without the id, the search goes on in the tail, one step later. */
  lemma FindIndexOfTail(items: seq<Exercise>, id: Id)
    requires HasId(items, id) && items[0].id != id
    ensures HasId(items[1..], id) && FindIndex(items[1..], id) == FindIndex(items, id) - 1
  {
    var k := FindIndex(items, id);
    assert items[1..][k - 1] == items[k];
  }

  /** Splicing position `k` out of a list is splicing `k - 1` out of its tail. */
  lemma ConsSplice<T>(s: seq<T>, k: int)
    requires 1 <= k < |s|
    ensures [s[0]] + (s[1..][..k - 1] + s[1..][k..]) == s[..k] + s[k + 1..]
  {
    assert s[..k] == [s[0]] + s[1..][..k - 1];
    assert s[k + 1..] == s[1..][k..];
  }

  /** With no item of that id, removing the first match changes nothing. */
  lemma {:induction false} RemoveFirstAbsent(items: seq<Exercise>, id: Id)
    requires !HasId(items, id)
    ensures RemoveFirst(items, id) == items
  {
    if items != [] {
      assert items[0].id != id;
      assert !HasId(items[1..], id) by {
        assert forall i :: 1 <= i < |items| ==> items[1..][i - 1] == items[i];
      }
      RemoveFirstAbsent(items[1..], id);
    }
  }

  /** The item appended last is the first match when nothing before it matches. */
  lemma RemoveFirstOfAppended(items: seq<Exercise>, exercise: Exercise)
    requires !HasId(items, exercise.id)
    ensures RemoveFirst(items + [exercise], exercise.id) == items
  {
    var all := items + [exercise];
    assert HasId(all, exercise.id) by { assert all[|items|] == exercise; }
    RemoveFirstIsSplice(all, exercise.id);
    assert forall i :: 0 <= i < |items| ==> all[i] == items[i];
    assert all[..|items|] == items;
  }

  /** `toggleFavourite` appends when the id is absent and otherwise splices out exactly
      the first item with that id. */
  lemma ToggledIsAppendOrSplice(items: seq<Exercise>, exercise: Exercise)
    ensures !HasId(items, exercise.id) ==> Toggled(items, exercise) == items + [exercise]
    ensures HasId(items, exercise.id) ==>
              var k := FindIndex(items, exercise.id);
              Toggled(items, exercise) == items[..k] + items[k + 1..]
  {
    if HasId(items, exercise.id) {
      RemoveFirstIsSplice(items, exercise.id);
    }
  }

  /** Toggling twice from a list without the id gives back the original list. */
  lemma ToggleTwiceRestores(items: seq<Exercise>, exercise: Exercise)
    requires !HasId(items, exercise.id)
    ensures Toggled(Toggled(items, exercise), exercise) == items
  {
    var once := items + [exercise];
    assert HasId(once, exercise.id) by { assert once[|items|] == exercise; }
    RemoveFirstOfAppended(items, exercise);
  }

  /** After `n` toggles from a list without the id, the list is the original (n even)
      or the original with `exercise` appended (n odd): the id is present iff n is odd. */
  lemma {:induction false} ToggleParity(items: seq<Exercise>, exercise: Exercise, n: nat)
    requires !HasId(items, exercise.id)
    ensures ToggledTimes(items, exercise, n) == if n % 2 == 0 then items else items + [exercise]
    ensures HasId(ToggledTimes(items, exercise, n), exercise.id) <==> n % 2 == 1
  {
    if n > 0 {
      ToggleParity(items, exercise, n - 1);
      if n % 2 == 0 {
        ToggleTwiceRestores(items, exercise);
      }
    }
    var r := ToggledTimes(items, exercise, n);
    if n % 2 == 1 {
      assert r[|items|] == exercise;
    }
  }

  /** Appending an item whose id is new keeps the ids unique. */
  lemma UniqueAppend(items: seq<Exercise>, exercise: Exercise)
    ensures UniqueIds(items) && !HasId(items, exercise.id) ==> UniqueIds(items + [exercise])
  {
    if UniqueIds(items) && !HasId(items, exercise.id) {
      var all := items + [exercise];
      forall i, j | 0 <= i < j < |all| ensures all[i].id != all[j].id {
        if j == |items| {
          assert all[i] == items[i];
        }
      }
    }
  }

  /** Removing the first match from a list with unique ids keeps them unique and leaves
      no item of that id. */
  lemma {:induction false} UniqueRemoveFirst(items: seq<Exercise>, id: Id)
    requires UniqueIds(items)
    ensures UniqueIds(RemoveFirst(items, id))
    ensures !HasId(RemoveFirst(items, id), id)
  {
    if items != [] {
      UniqueSplitsAtHead(items);
      if items[0].id != id {
        var tail := items[1..];
        UniqueRemoveFirst(tail, id);
        NoIdInSublist(RemoveFirst(tail, id), tail, items[0].id);
        UniqueCons(items[0], RemoveFirst(tail, id));
      }
    }
  }

  /** In a list with unique ids the tail keeps them unique and lacks the head's id. */
  lemma UniqueSplitsAtHead(items: seq<Exercise>)
    requires UniqueIds(items) && items != []
    ensures UniqueIds(items[1..]) && !HasId(items[1..], items[0].id)
  {
    var tail := items[1..];
    assert forall i :: 0 <= i < |tail| ==> tail[i] == items[i + 1];
  }

  /** A list whose items all come from one without the id has no item with it either. */
  lemma NoIdInSublist(sub: seq<Exercise>, items: seq<Exercise>, id: Id)
    requires forall x :: x in sub ==> x in items
    requires !HasId(items, id)
    ensures !HasId(sub, id)
  {
    forall j | 0 <= j < |sub| ensures sub[j].id != id {
      assert sub[j] in items;
    }
  }

  /** Putting an item with a new id in front keeps the ids unique. */
  lemma UniqueCons(x: Exercise, rest: seq<Exercise>)
    requires UniqueIds(rest) && !HasId(rest, x.id)
    ensures UniqueIds([x] + rest)
  {
    var r := [x] + rest;
    forall i, j | 0 <= i < j < |r| ensures r[i].id != r[j].id {
      assert r[j] == rest[j - 1];
      if i > 0 { assert r[i] == rest[i - 1]; }
    }
  }

  /** Filtering out an id keeps the remaining ids unique. */
  lemma {:induction false} UniqueWithoutId(items: seq<Exercise>, id: Id)
    ensures UniqueIds(items) ==> UniqueIds(WithoutId(items, id))
  {
    if items != [] && UniqueIds(items) {
      var tail := items[1..];
      UniqueSplitsAtHead(items);
      UniqueWithoutId(tail, id);
      if items[0].id != id {
        NoIdInSublist(WithoutId(tail, id), tail, items[0].id);
        UniqueCons(items[0], WithoutId(tail, id));
      }
    }
  }

  /** Filtering keeps order: it distributes over concatenation. */
  lemma {:induction false} WithoutIdAppend(a: seq<Exercise>, b: seq<Exercise>, id: Id)
    ensures WithoutId(a + b, id) == WithoutId(a, id) + WithoutId(b, id)
  {
    if a == [] {
      assert a + b == b;
    } else {
      assert (a + b)[1..] == a[1..] + b;
      WithoutIdAppend(a[1..], b, id);
    }
  }

  /** `addToFavourites` changes nothing when the id is present, appends otherwise, and
      adding the same exercise again changes nothing. */
  lemma AddedAppendsOnce(items: seq<Exercise>, exercise: Exercise)
    ensures HasId(items, exercise.id) ==> Added(items, exercise) == items
    ensures !HasId(items, exercise.id) ==> Added(items, exercise) == items + [exercise]
    ensures HasId(Added(items, exercise), exercise.id)
    ensures Added(Added(items, exercise), exercise) == Added(items, exercise)
  {
    var once := items + [exercise];
    assert once[|items|] == exercise;
  }

  /** add, toggle and remove all keep the ids unique. */
  lemma UniqueIdsPreserved(items: seq<Exercise>, exercise: Exercise, id: Id)
    requires UniqueIds(items)
    ensures UniqueIds(Added(items, exercise))
    ensures UniqueIds(Toggled(items, exercise))
    ensures UniqueIds(WithoutId(items, id))
  {
    if !HasId(items, exercise.id) {
      UniqueAppend(items, exercise);
    } else {
      UniqueRemoveFirst(items, exercise.id);
    }
    UniqueWithoutId(items, id);
  }

  /** Whether the slice considers an exercise a favourite: an item with its id. */
  predicate IsFavourite(items: seq<Exercise>, exercise: Exercise) {
    HasId(items, exercise.id)
  }

  /** On a list with unique ids every toggle flips whether the exercise is a favourite. */
  lemma ToggleFlipsIsFavourite(items: seq<Exercise>, exercise: Exercise)
    ensures UniqueIds(items) ==>
              IsFavourite(Toggled(items, exercise), exercise) == !IsFavourite(items, exercise)
    ensures UniqueIds(items) ==> UniqueIds(Toggled(items, exercise))
  {
    if !UniqueIds(items) {
    } else if HasId(items, exercise.id) {
      UniqueRemoveFirst(items, exercise.id);
    } else {
      var once := items + [exercise];
      assert once[|items|] == exercise;
      UniqueAppend(items, exercise);
    }
  }

  /** The favourite test the home and details screens use: an item with the same name. */
  predicate IsFavouriteByName(items: seq<Exercise>, exercise: Exercise) {
    exists i :: 0 <= i < |items| && items[i].name == exercise.name
  }

  /** When a differently named item holds the exercise's id, the screens show the heart
      empty, and tapping it removes that other item and leaves the heart empty. */
  lemma NameHeartStaysEmpty(items: seq<Exercise>, exercise: Exercise)
    requires UniqueIds(items)
    requires IsFavourite(items, exercise) && !IsFavouriteByName(items, exercise)
    ensures !IsFavouriteByName(Toggled(items, exercise), exercise)
    ensures |Toggled(items, exercise)| == |items| - 1
  {
    RemoveFirstIsSplice(items, exercise.id);
    var k := FindIndex(items, exercise.id);
    var r := Toggled(items, exercise);
    assert forall i :: 0 <= i < |r| ==> r[i] == if i < k then items[i] else items[i + 1];
  }

  /** The index-based id fallback makes such collisions reachable: an exercise fetched
      without an id at position 0 gets id 1, the id of Push-ups in the muscle catalogue. */
  lemma FetchedIdCollidesWithCatalogue(fetched: Exercise)
    requires fetched.id == None && fetched.name != MuscleCatalogue[0].name
    ensures var favourites := TransformExercises([fetched]);
            && UniqueIds(favourites)
            && IsFavourite(favourites, MuscleCatalogue[0])
            && !IsFavouriteByName(favourites, MuscleCatalogue[0])
            && Toggled(favourites, MuscleCatalogue[0]) == []
  {
    var favourites := TransformExercises([fetched]);
    assert favourites[0].id == Some(1) == MuscleCatalogue[0].id;
    assert favourites[0].name == fetched.name;
  }

  /** Two fetches already collide: the first items of two fetched lists, both without an
      id, both get id 1. With the first one made a favourite, the second shows an empty
      heart, and tapping it removes the first one instead. */
  lemma FetchedListsCollide(rawA: seq<Exercise>, rawB: seq<Exercise>)
    requires rawA != [] && rawB != []
    requires !IsTruthyId(rawA[0].id) && !IsTruthyId(rawB[0].id) && rawA[0].name != rawB[0].name
    ensures var a, b := TransformExercises(rawA)[0], TransformExercises(rawB)[0];
            var favourites := Toggled([], a);
            && favourites == [a]
            && IsFavourite(favourites, b)
            && !IsFavouriteByName(favourites, b)
            && Toggled(favourites, b) == []
  {
    var a, b := TransformExercises(rawA)[0], TransformExercises(rawB)[0];
    assert a.id == Some(1) == b.id;
    assert a.name == rawA[0].name && b.name == rawB[0].name;
    var favourites := [a];
    assert favourites[0] == a;
  }

  /** The settled value of the `loadFavourites` thunk; `readFails` is a storage read or
      JSON parse that throws. Nothing stored yields the empty list. */
  function LoadOutcome(storage: map<string, seq<Exercise>>, readFails: bool): (r: Result<seq<Exercise>, string>)
    ensures r.Err? <==> readFails
    ensures r.Err? ==> r.error == LoadFailedMessage
    ensures !readFails && FavouritesKey !in storage ==> r == Ok([])
    ensures !readFails && FavouritesKey in storage ==> r == Ok(storage[FavouritesKey])
  {
    if readFails then Err(LoadFailedMessage)
    else if FavouritesKey in storage then Ok(storage[FavouritesKey])
    else Ok([])
  }

  /** The slice state the store exposes. */
  datatype FavouritesState = FavouritesState(items: seq<Exercise>, isLoading: bool, error: Option<string>)

  class FavouritesSlice {
    var items: seq<Exercise>
    var isLoading: bool
    var error: Option<string>
    /** The key-value storage as seen by this slice (values are the parsed JSON). */
    var storage: map<string, seq<Exercise>>

    function State(): FavouritesState
      reads this
    {
      FavouritesState(items, isLoading, error)
    }

    /** The initial state, over whatever the storage already holds. */
    constructor (stored: map<string, seq<Exercise>>)
      ensures State() == FavouritesState([], false, None) && storage == stored
    {
      items, isLoading, error := [], false, None;
      storage := stored;
    }

    method AddToFavourites(exercise: Exercise)
      modifies this
      ensures State() == old(State()).(items := Added(old(items), exercise))
      ensures storage == if HasId(old(items), exercise.id) then old(storage)
                         else old(storage)[FavouritesKey := items]
      ensures old(UniqueIds(items)) ==> UniqueIds(items)
    {
      var existingIndex := FindIndex(items, exercise.id);
      if existingIndex == -1 {
        UniqueAppend(items, exercise);
        items := items + [exercise];
        storage := storage[FavouritesKey := items];
      }
    }

    method RemoveFromFavourites(exerciseId: Id)
      modifies this
      ensures State() == old(State()).(items := WithoutId(old(items), exerciseId))
      ensures !HasId(items, exerciseId)
      ensures storage == old(storage)[FavouritesKey := items]
      ensures old(UniqueIds(items)) ==> UniqueIds(items)
    {
      UniqueWithoutId(items, exerciseId);
      items := WithoutId(items, exerciseId);
      storage := storage[FavouritesKey := items];
    }

    method ToggleFavourite(exercise: Exercise)
      modifies this
      ensures State() == old(State()).(items := Toggled(old(items), exercise))
      ensures storage == old(storage)[FavouritesKey := items]
      ensures LoadOutcome(storage, false) == Ok(items)
      ensures old(UniqueIds(items)) ==> UniqueIds(items)
      ensures old(UniqueIds(items)) ==>
                IsFavourite(items, exercise) == !old(IsFavourite(items, exercise))
    {
      ToggleFlipsIsFavourite(items, exercise);
      ToggledIsAppendOrSplice(items, exercise);
      var existingIndex := FindIndex(items, exercise.id);
      if existingIndex == -1 {
        items := items + [exercise];
      } else {
        items := items[..existingIndex] + items[existingIndex + 1..];
      }
      storage := storage[FavouritesKey := items];
    }

    method ClearFavourites()
      modifies this
      ensures State() == old(State()).(items := [])
      ensures storage == old(storage) - {FavouritesKey}
      ensures FavouritesKey !in storage
    {
      items := [];
      storage := storage - {FavouritesKey};
    }

    method ClearError()
      modifies this
      ensures State() == old(State()).(error := None)
      ensures storage == old(storage)
    {
      error := None;
    }

    method LoadPending()
      modifies this
      ensures State() == old(State()).(isLoading := true, error := None)
      ensures storage == old(storage)
    {
      isLoading := true;
      error := None;
    }

    method LoadFulfilled(payload: seq<Exercise>)
      modifies this
      ensures State() == FavouritesState(payload, false, None)
      ensures storage == old(storage)
    {
      isLoading := false;
      items := payload;
      error := None;
    }

    method LoadRejected(payload: string)
      modifies this
      ensures State() == old(State()).(isLoading := false, error := Some(payload))
      ensures storage == old(storage)
    {
      isLoading := false;
      error := Some(payload);
    }

    method SaveFulfilled(payload: seq<Exercise>)
      modifies this
      ensures State() == old(State()).(items := payload)
      ensures storage == old(storage)
    {
      items := payload;
    }

    method SaveRejected(payload: string)
      modifies this
      ensures State() == old(State()).(error := Some(payload))
      ensures storage == old(storage)
    {
      error := Some(payload);
    }

    /** Dispatching `loadFavourites()`: pending, the storage read, then fulfilled or
        rejected. A failed read keeps the items already in memory. */
    method LoadFavourites(readFails: bool)
      modifies this
      ensures storage == old(storage)
      ensures !readFails ==>
                State() == FavouritesState(
                  if FavouritesKey in storage then storage[FavouritesKey] else [], false, None)
      ensures readFails ==>
                State() == old(State()).(isLoading := false, error := Some(LoadFailedMessage))
    {
      LoadPending();
      var outcome := LoadOutcome(storage, readFails);
      match outcome
      case Ok(favourites) => LoadFulfilled(favourites);
      case Err(message) => LoadRejected(message);
    }

    /** Dispatching `saveFavourites(favourites)`: the storage write, then fulfilled or
        rejected (the thunk has no pending case). A successful save reads back as saved. */
    method SaveFavourites(favourites: seq<Exercise>, writeFails: bool)
      modifies this
      ensures !writeFails ==>
                && State() == old(State()).(items := favourites)
                && storage == old(storage)[FavouritesKey := favourites]
                && LoadOutcome(storage, false) == Ok(favourites)
      ensures writeFails ==>
                State() == old(State()).(error := Some(SaveFailedMessage)) && storage == old(storage)
    {
      if writeFails {
        SaveRejected(SaveFailedMessage);
      } else {
        storage := storage[FavouritesKey := favourites];
        SaveFulfilled(favourites);
      }
    }
  }
}
