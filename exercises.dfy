/** The exercises slice: the list shown on the home screen, the transform applied to a
    fetched list, the by-muscle filter over a built-in catalogue, and the reducers. */
module Exercises {
  import opened Wrappers
  import opened Strings

  /** An exercise id as JavaScript sees it; `None` is `undefined` or `null`, and two ids
      are `===` exactly when they are equal here. */
  type Id = Option<int>

  /** The ids that `exercise.id || index + 1` keeps: present and non-zero. */
  predicate IsTruthyId(id: Id) {
    id.Some? && id.value != 0
  }

  /** The exercise record; `kind` is the JavaScript field `type`. Fields that some
      records lack are `Option`s. */
  datatype Exercise = Exercise(
    id: Id,
    name: string,
    kind: string,
    muscle: string,
    equipment: Option<string>,
    difficulty: Option<string>,
    instructions: Option<string>,
    image: Option<string>)

  const ImagePrefix: string := "https://via.placeholder.com/300x200?text="

  /** The placeholder image URL built from an exercise name: the prefix, then the name
      with its first space (and only that one) turned into a plus sign. */
  function ImageUrl(name: string): (url: string)
    ensures |url| == |ImagePrefix| + |name| && url[..|ImagePrefix|] == ImagePrefix
    ensures ' ' !in name ==> url == ImagePrefix + name
    ensures ' ' in name ==>
              var k := IndexOf(name, ' '); url == ImagePrefix + name[..k] + ['+'] + name[k + 1..]
  {
    var replaced := ReplaceFirst(name, ' ', '+');
    PrefixedReplaceFirst(ImagePrefix, name, ' ', '+');
    ImagePrefix + replaced
  }

  /** The object spread `{...exercise, id: exercise.id || index + 1, image: ...}`. */
  function WithIdAndImage(e: Exercise, index: nat): Exercise {
    e.(id := if IsTruthyId(e.id) then e.id else Some(index + 1),
       image := Some(ImageUrl(e.name)))
  }

  /** `raw.map(...)` over the suffix of the list that starts at position `offset`. */
  function TransformFrom(raw: seq<Exercise>, offset: nat): (r: seq<Exercise>)
    ensures |r| == |raw|
    ensures forall i :: 0 <= i < |raw| ==> r[i] == WithIdAndImage(raw[i], offset + i)
  {
    if raw == [] then [] else [WithIdAndImage(raw[0], offset)] + TransformFrom(raw[1..], offset + 1)
  }

  /** The transform applied to a successfully fetched list: one output per input, in
      order; every output id is truthy; an input's truthy id is kept, a missing or zero
      id becomes its position plus one; the image is always set; nothing else changes. */
  function TransformExercises(raw: seq<Exercise>): (r: seq<Exercise>)
    ensures |r| == |raw|
    ensures forall i :: 0 <= i < |raw| ==>
              r[i].id == (if IsTruthyId(raw[i].id) then raw[i].id else Some(i + 1))
    ensures forall i :: 0 <= i < |raw| ==> IsTruthyId(r[i].id)
    ensures forall i :: 0 <= i < |raw| ==> r[i].image == Some(ImageUrl(raw[i].name))
    ensures forall i :: 0 <= i < |raw| ==> r[i].(id := raw[i].id, image := raw[i].image) == raw[i]
  {
    TransformFrom(raw, 0)
  }

  /** The list used when the response carries no data. */
  const FallbackExercises: seq<Exercise> := [
    Exercise(Some(1), "Push-ups", "strength", "chest", Some("body_only"), Some("beginner"),
      Some("Get in a plank position with your hands placed slightly wider than shoulder-width apart..."), None),
    Exercise(Some(2), "Squats", "strength", "quadriceps", Some("body_only"), Some("beginner"),
      Some("Stand with feet shoulder-width apart. Lower your body as if sitting back into a chair..."), None),
    Exercise(Some(3), "Plank", "strength", "abdominals", Some("body_only"), Some("beginner"),
      Some("Get into push-up position. Hold your body in a straight line from head to heels..."), None),
    Exercise(Some(4), "Jumping Jacks", "cardio", "full_body", Some("body_only"), Some("beginner"),
      Some("Stand upright with legs together and arms by your side. Jump and spread legs shoulder-width apart..."), None),
    Exercise(Some(5), "Burpees", "cardio", "full_body", Some("body_only"), Some("intermediate"),
      Some("Start in standing position. Drop into squat, jump back into plank, do push-up..."), None)
  ]

  /** What the content request produced: it threw (network error, non-2xx status), or it
      returned a response whose `data` may be absent. */
  datatype FetchResponse = RequestFailed | Received(data: Option<seq<Exercise>>)

  const FetchFailedMessage: string := "Failed to fetch exercises"

  /** The settled value of the `fetchExercises` thunk. */
  function FetchExercisesOutcome(response: FetchResponse): (r: Result<seq<Exercise>, string>)
    ensures r.Err? <==> response.RequestFailed?
    ensures r.Err? ==> r.error == FetchFailedMessage
    ensures response.Received? && response.data.Some? ==>
              r.Ok? && |r.value| == |response.data.value|
    ensures response.Received? && response.data.Some? ==>
              r == Ok(TransformExercises(response.data.value))
  {
    match response
    case RequestFailed => Err(FetchFailedMessage)
    case Received(data) =>
      if data.Some? then Ok(TransformExercises(data.value))
      else
        Ok(TransformExercises(FallbackExercises))
  }

  /** Without response data the result is the built-in list, ids 1 to 5 in order, each
      entry with its own fields and the image URL built from its name. */
  lemma FallbackOutcome()
    ensures var r := FetchExercisesOutcome(Received(None));
            && r.Ok? && r.value == TransformExercises(FallbackExercises) && |r.value| == 5
            && forall i :: 0 <= i < 5 ==>
                 r.value[i] == FallbackExercises[i].(id := Some(i + 1),
                                                    image := Some(ImageUrl(FallbackExercises[i].name)))
  {
    var f := FallbackExercises;
    assert forall i :: 0 <= i < 5 ==> f[i].id == Some(i + 1);
  }

  /** Only the first space of a name becomes a plus sign: for "Jumping Jacks" the URL
      ends in "Jumping+Jacks", and any space in the words after it stays a space. */
  lemma {:induction false} ImageOfSpacedName(first: string, rest: string)
    requires ' ' !in first
    ensures ImageUrl(first + " " + rest) == ImagePrefix + first + "+" + rest
  {
    var name := first + " " + rest;
    assert name[|first|] == ' ';
    assert forall i :: 0 <= i < |first| ==> name[i] == first[i];
    assert IndexOf(name, ' ') == |first|;
    assert name[..|first|] == first && name[|first| + 1..] == rest;
  }

  /** The catalogue `fetchExercisesByMuscle` filters. */
  const MuscleCatalogue: seq<Exercise> := [
    Exercise(Some(1), "Push-ups", "strength", "chest", None, None, None, None),
    Exercise(Some(2), "Squats", "strength", "quadriceps", None, None, None, None),
    Exercise(Some(3), "Bicep Curls", "strength", "biceps", None, None, None, None),
    Exercise(Some(4), "Tricep Dips", "strength", "triceps", None, None, None, None),
    Exercise(Some(5), "Deadlifts", "strength", "hamstrings", None, None, None, None)
  ]

  /** `exercise.muscle.includes(muscle.toLowerCase())`. */
  predicate MatchesMuscle(e: Exercise, query: string) {
    Includes(e.muscle, ToLower(query))
  }

  /** `list.filter(...)` with the muscle test: exactly the matching elements survive. */
  function FilterByMuscle(list: seq<Exercise>, query: string): (r: seq<Exercise>)
    ensures |r| <= |list|
    ensures forall e :: e in r <==> e in list && MatchesMuscle(e, query)
  {
    if list == [] then []
    else (if MatchesMuscle(list[0], query) then [list[0]] else []) + FilterByMuscle(list[1..], query)
  }

  /** The filter keeps the order of what it keeps: filtering a concatenation is the
      concatenation of the filtered parts. */
  lemma {:induction false} FilterByMuscleAppend(a: seq<Exercise>, b: seq<Exercise>, query: string)
    ensures FilterByMuscle(a + b, query) == FilterByMuscle(a, query) + FilterByMuscle(b, query)
  {
    if a != [] {
      assert (a + b)[1..] == a[1..] + b;
      FilterByMuscleAppend(a[1..], b, query);
    } else {
      assert a + b == b;
    }
  }

  /** An empty query keeps every element. */
  lemma {:induction false} FilterByMuscleEmptyQuery(list: seq<Exercise>)
    ensures FilterByMuscle(list, "") == list
  {
    if list != [] {
      IncludesEmpty(list[0].muscle);
      assert ToLower("") == "";
      FilterByMuscleEmptyQuery(list[1..]);
    }
  }

  /** The query is case-insensitive: it filters as its lower-case form does. */
  lemma {:induction false} FilterByMuscleIgnoresCase(list: seq<Exercise>, query: string)
    ensures FilterByMuscle(list, query) == FilterByMuscle(list, ToLower(query))
  {
    ToLowerIdempotent(query);
    if list != [] {
      FilterByMuscleIgnoresCase(list[1..], query);
    }
  }

  const MuscleFailedMessage: string := "Failed to fetch exercises for muscle group"

  /** The settled value of the `fetchExercisesByMuscle` thunk; `requestSucceeded` is
      whether the awaited request returned. The response itself is ignored. */
  function MuscleOutcome(query: string, requestSucceeded: bool): (r: Result<seq<Exercise>, string>)
    ensures r.Ok? <==> requestSucceeded
    ensures r.Err? ==> r.error == MuscleFailedMessage
    ensures r.Ok? ==> forall e :: e in r.value <==> e in MuscleCatalogue && MatchesMuscle(e, query)
    ensures r.Ok? ==> r.value == FilterByMuscle(MuscleCatalogue, query)
  {
    if requestSucceeded then Ok(FilterByMuscle(MuscleCatalogue, query)) else Err(MuscleFailedMessage)
  }

  /** The whole slice state, as the store exposes it. */
  datatype ExercisesState = ExercisesState(
    exercises: seq<Exercise>,
    selectedExercise: Option<Exercise>,
    isLoading: bool,
    error: Option<string>,
    searchQuery: string,
    selectedMuscle: string)

  class ExercisesSlice {
    var exercises: seq<Exercise>
    var selectedExercise: Option<Exercise>
    var isLoading: bool
    var error: Option<string>
    var searchQuery: string
    var selectedMuscle: string

    function State(): ExercisesState
      reads this
    {
      ExercisesState(exercises, selectedExercise, isLoading, error, searchQuery, selectedMuscle)
    }

    /** The initial state. */
    constructor ()
      ensures State() == ExercisesState([], None, false, None, "", "all")
    {
      exercises, selectedExercise, isLoading, error := [], None, false, None;
      searchQuery, selectedMuscle := "", "all";
    }

    method SetSelectedExercise(payload: Option<Exercise>)
      modifies this
      ensures State() == old(State()).(selectedExercise := payload)
    {
      selectedExercise := payload;
    }

    method SetSearchQuery(payload: string)
      modifies this
      ensures State() == old(State()).(searchQuery := payload)
    {
      searchQuery := payload;
    }

    method SetSelectedMuscle(payload: string)
      modifies this
      ensures State() == old(State()).(selectedMuscle := payload)
    {
      selectedMuscle := payload;
    }

    method ClearError()
      modifies this
      ensures State() == old(State()).(error := None)
    {
      error := None;
    }

    method FetchExercisesPending()
      modifies this
      ensures State() == old(State()).(isLoading := true, error := None)
    {
      isLoading := true;
      error := None;
    }

    method FetchExercisesFulfilled(payload: seq<Exercise>)
      modifies this
      ensures State() == old(State()).(isLoading := false, exercises := payload, error := None)
    {
      isLoading := false;
      exercises := payload;
      error := None;
    }

    method FetchExercisesRejected(payload: string)
      modifies this
      ensures State() == old(State()).(isLoading := false, error := Some(payload))
    {
      isLoading := false;
      error := Some(payload);
    }

    method ByMusclePending()
      modifies this
      ensures State() == old(State()).(isLoading := true)
    {
      isLoading := true;
    }

    method ByMuscleFulfilled(payload: seq<Exercise>)
      modifies this
      ensures State() == old(State()).(isLoading := false, exercises := payload)
    {
      isLoading := false;
      exercises := payload;
    }

    method ByMuscleRejected(payload: string)
      modifies this
      ensures State() == old(State()).(isLoading := false, error := Some(payload))
    {
      isLoading := false;
      error := Some(payload);
    }

    /** Dispatching `fetchExercises()`: pending, then fulfilled or rejected. A failed
        request keeps the previous list; a successful one replaces it and clears the error. */
    method FetchExercises(response: FetchResponse)
      modifies this
      ensures response.RequestFailed? ==>
                State() == old(State()).(isLoading := false, error := Some(FetchFailedMessage))
      ensures response.Received? ==>
                State() == old(State()).(isLoading := false, error := None,
                                         exercises := FetchExercisesOutcome(response).value)
    {
      FetchExercisesPending();
      var outcome := FetchExercisesOutcome(response);
      match outcome
      case Ok(list) => FetchExercisesFulfilled(list);
      case Err(message) => FetchExercisesRejected(message);
    }

    /** Dispatching `fetchExercisesByMuscle(query)`. On success the list is the filtered
        catalogue and an error left by an earlier fetch is still there. */
    method FetchExercisesByMuscle(query: string, requestSucceeded: bool)
      modifies this
      ensures requestSucceeded ==>
                State() == old(State()).(isLoading := false,
                                         exercises := FilterByMuscle(MuscleCatalogue, query))
      ensures requestSucceeded ==> error == old(error)
      ensures !requestSucceeded ==>
                State() == old(State()).(isLoading := false, error := Some(MuscleFailedMessage))
    {
      ByMusclePending();
      var outcome := MuscleOutcome(query, requestSucceeded);
      match outcome
      case Ok(list) => ByMuscleFulfilled(list);
      case Err(message) => ByMuscleRejected(message);
    }
  }
}
