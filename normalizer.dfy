/** The plan normalisers `validateWorkoutPlan` and `validateDietPlan`: they
    take the untrusted JSON a language model produced and return a plan of
    fixed shape, filling in defaults. They throw (a TypeError) when a list
    field is a truthy non-array, a list element is null, or a field they
    convert with `String` or `Number` is not printable. */
module PlanNormalizer {
  import opened Js

  datatype Routine = Routine(
    name: string,
    sets: int,
    reps: int,
    duration: Option<string>,
    description: Option<string>)

  datatype Exercise = Exercise(day: string, routines: seq<Routine>)

  /** `schedule` is passed through verbatim, so its entries stay JSON values. */
  datatype WorkoutPlan = WorkoutPlan(schedule: seq<Json>, exercises: seq<Exercise>)

  datatype Meal = Meal(name: string, foods: seq<string>)

  datatype DietPlan = DietPlan(dailyCalories: int, meals: seq<Meal>)

  const DefaultSchedule: seq<Json> := [Str("Monday"), Str("Wednesday"), Str("Friday")]
  const DefaultDay := "Workout Day"
  const DefaultRoutineName := "Strength Exercise"
  const DefaultSets := 3
  const DefaultReps := 10
  const DefaultCalories := 2200
  const DefaultMealName := "Meal"
  const DefaultFoods: seq<string> := ["Healthy Protein", "Vegetables", "Complex Carbs"]

  /** `xs.map(f)` where `f` may throw: the first throw aborts the whole map. */
  function MapAll<A, B>(xs: seq<A>, f: A -> Result<B>): (r: Result<seq<B>>)
    ensures r.Ok? <==> forall k :: 0 <= k < |xs| ==> f(xs[k]).Ok?
    ensures r.Ok? ==> |r.value| == |xs| && forall k :: 0 <= k < |xs| ==> r.value[k] == f(xs[k]).value
    ensures r.Err? ==>
      exists k :: 0 <= k < |xs| && f(xs[k]) == Err(r.fault) && forall j :: 0 <= j < k ==> f(xs[j]).Ok?
  {
    if xs == [] then Ok([])
    else
      match f(xs[0])
      case Err(e) => Err(e)
      case Ok(y) =>
        match MapAll(xs[1..], f)
        case Err(e) => Err(e)
        case Ok(ys) => Ok([y] + ys)
  }

  /** A list field read as `(v || [])`, on which `.map` is then called. */
  predicate ListShaped(v: Json) {
    !Truthy(v) || v.Arr?
  }

  /** The elements `(v || []).map` iterates over. */
  function ListItems(v: Json): seq<Json> {
    if v.Arr? then v.items else []
  }

  /** `(v || [])`, failing where `.map` would not exist. */
  function ListOrEmpty(v: Json): (r: Result<seq<Json>>)
    ensures r.Ok? <==> ListShaped(v)
    ensures r.Ok? ==> r.value == ListItems(v)
  {
    if !Truthy(v) then Ok([])
    else if v.Arr? then Ok(v.items)
    else Err(TypeError)
  }

  /** A non-empty array, as `Array.isArray(v) && v.length > 0` tests. */
  predicate NonEmptyArray(v: Json) {
    v.Arr? && |v.items| > 0
  }

  // ------------------------------------------------------------- workout

  /** The routines `validateWorkoutPlan` converts instead of throwing. */
  predicate AcceptsRoutine(r: Json) {
    && !Nullish(r)
    && Printable(Field(r, "name"))
    && Printable(Field(r, "sets"))
    && Printable(Field(r, "reps"))
    && Printable(Field(r, "duration"))
    && Printable(Field(r, "description"))
  }

  function ValidateRoutine(r: Json): (out: Result<Routine>)
    ensures out.Ok? <==> AcceptsRoutine(r)
    ensures out.Err? ==> out == Err(TypeError)
    ensures out.Ok? ==> out.value.sets != 0 && out.value.reps != 0
    ensures out.Ok? ==> Ok(out.value.sets) == NumberOr(Field(r, "sets"), DefaultSets)
    ensures out.Ok? ==> Ok(out.value.reps) == NumberOr(Field(r, "reps"), DefaultReps)
    ensures out.Ok? ==>
      out.value.name == (if Truthy(Field(r, "name")) then ToStr(Field(r, "name")) else DefaultRoutineName)
    ensures out.Ok? && out.value.name == "" ==> Field(r, "name").Arr?
    ensures out.Ok? ==>
      out.value.duration == (if Truthy(Field(r, "duration")) then Some(ToStr(Field(r, "duration"))) else None)
    ensures out.Ok? ==>
      out.value.description == (if Truthy(Field(r, "description")) then Some(ToStr(Field(r, "description"))) else None)
  {
    if Nullish(r) then Err(TypeError)
    else
      var name :- StringOr(Field(r, "name"), DefaultRoutineName);
      var sets :- NumberOr(Field(r, "sets"), DefaultSets);
      var reps :- NumberOr(Field(r, "reps"), DefaultReps);
      var duration :- OptString(Field(r, "duration"));
      var description :- OptString(Field(r, "description"));
      Ok(Routine(name, sets, reps, duration, description))
  }

  predicate AcceptsExercise(ex: Json) {
    && !Nullish(ex)
    && Printable(Field(ex, "day"))
    && ListShaped(Field(ex, "routines"))
    && forall k :: 0 <= k < |ListItems(Field(ex, "routines"))| ==> AcceptsRoutine(ListItems(Field(ex, "routines"))[k])
  }

  function ValidateExercise(ex: Json): (out: Result<Exercise>)
    ensures out.Ok? <==> AcceptsExercise(ex)
    ensures out.Err? ==> out == Err(TypeError)
    ensures out.Ok? ==>
      out.value.day == (if Truthy(Field(ex, "day")) then ToStr(Field(ex, "day")) else DefaultDay)
    ensures out.Ok? && out.value.day == "" ==> Field(ex, "day").Arr?
    ensures out.Ok? ==>
      var rs := ListItems(Field(ex, "routines"));
      && |out.value.routines| == |rs|
      && forall k :: 0 <= k < |rs| ==> Ok(out.value.routines[k]) == ValidateRoutine(rs[k])
  {
    if Nullish(ex) then Err(TypeError)
    else
      var day :- StringOr(Field(ex, "day"), DefaultDay);
      var rs :- ListOrEmpty(Field(ex, "routines"));
      var routines :- MapAll(rs, ValidateRoutine);
      Ok(Exercise(day, routines))
  }

  /** The inputs on which `validateWorkoutPlan` returns instead of throwing. */
  predicate AcceptsWorkout(plan: Json) {
    && !Nullish(plan)
    && ListShaped(Field(plan, "exercises"))
    && forall k :: 0 <= k < |ListItems(Field(plan, "exercises"))| ==> AcceptsExercise(ListItems(Field(plan, "exercises"))[k])
  }

  function ValidateWorkout(plan: Json): (out: Result<WorkoutPlan>)
    ensures out.Ok? <==> AcceptsWorkout(plan)
    ensures out.Err? ==> out == Err(TypeError)
    ensures out.Ok? ==> |out.value.schedule| > 0
    ensures out.Ok? && NonEmptyArray(Field(plan, "schedule")) ==> out.value.schedule == Field(plan, "schedule").items
    ensures out.Ok? && !NonEmptyArray(Field(plan, "schedule")) ==> out.value.schedule == DefaultSchedule
    ensures out.Ok? ==>
      var exs := ListItems(Field(plan, "exercises"));
      && |out.value.exercises| == |exs|
      && forall k :: 0 <= k < |exs| ==> Ok(out.value.exercises[k]) == ValidateExercise(exs[k])
  {
    if Nullish(plan) then Err(TypeError)
    else
      var sched := Field(plan, "schedule");
      var exs :- ListOrEmpty(Field(plan, "exercises"));
      var exercises :- MapAll(exs, ValidateExercise);
      Ok(WorkoutPlan(if NonEmptyArray(sched) then sched.items else DefaultSchedule, exercises))
  }

  // ---------------------------------------------------------------- diet

  /** The meals `validateDietPlan` converts instead of throwing. */
  predicate AcceptsMeal(m: Json) {
    && !Nullish(m)
    && Printable(Field(m, "name"))
    && (NonEmptyArray(Field(m, "foods")) ==>
          forall k :: 0 <= k < |Field(m, "foods").items| ==> Printable(Field(m, "foods").items[k]))
  }

  function ValidateMeal(m: Json): (out: Result<Meal>)
    ensures out.Ok? <==> AcceptsMeal(m)
    ensures out.Err? ==> out == Err(TypeError)
    ensures out.Ok? ==>
      out.value.name == (if Truthy(Field(m, "name")) then ToStr(Field(m, "name")) else DefaultMealName)
    ensures out.Ok? && out.value.name == "" ==> Field(m, "name").Arr?
    ensures out.Ok? ==> |out.value.foods| > 0
    ensures out.Ok? && NonEmptyArray(Field(m, "foods")) ==>
      var fs := Field(m, "foods").items;
      |out.value.foods| == |fs| && forall k :: 0 <= k < |fs| ==> out.value.foods[k] == ToStr(fs[k])
    ensures out.Ok? && !NonEmptyArray(Field(m, "foods")) ==> out.value.foods == DefaultFoods
  {
    if Nullish(m) then Err(TypeError)
    else
      var name :- StringOr(Field(m, "name"), DefaultMealName);
      var f := Field(m, "foods");
      var foods :- if NonEmptyArray(f) then MapAll(f.items, ToText) else Ok(DefaultFoods);
      Ok(Meal(name, foods))
  }

  /** The inputs on which `validateDietPlan` returns instead of throwing. */
  predicate AcceptsDiet(plan: Json) {
    && !Nullish(plan)
    && Printable(Field(plan, "dailyCalories"))
    && ListShaped(Field(plan, "meals"))
    && forall k :: 0 <= k < |ListItems(Field(plan, "meals"))| ==> AcceptsMeal(ListItems(Field(plan, "meals"))[k])
  }

  function ValidateDiet(plan: Json): (out: Result<DietPlan>)
    ensures out.Ok? <==> AcceptsDiet(plan)
    ensures out.Err? ==> out == Err(TypeError)
    ensures out.Ok? ==> out.value.dailyCalories != 0
    ensures out.Ok? ==> Ok(out.value.dailyCalories) == NumberOr(Field(plan, "dailyCalories"), DefaultCalories)
    ensures out.Ok? ==>
      var ms := ListItems(Field(plan, "meals"));
      && |out.value.meals| == |ms|
      && forall k :: 0 <= k < |ms| ==> Ok(out.value.meals[k]) == ValidateMeal(ms[k])
  {
    if Nullish(plan) then Err(TypeError)
    else
      var calories :- NumberOr(Field(plan, "dailyCalories"), DefaultCalories);
      var ms :- ListOrEmpty(Field(plan, "meals"));
      var meals :- MapAll(ms, ValidateMeal);
      Ok(DietPlan(calories, meals))
  }

  // --------------------------------------------------- normalising twice

  /** A routine as the object the normaliser returns; an undefined
      `duration` or `description` reads back as a missing field. */
  function RoutineValue(r: Routine): Json {
    var base := map["name" := Str(r.name), "sets" := Number(Int(r.sets)), "reps" := Number(Int(r.reps))];
    var withDuration := if r.duration.Some? then base["duration" := Str(r.duration.value)] else base;
    Obj(if r.description.Some? then withDuration["description" := Str(r.description.value)] else withDuration)
  }

  function ExerciseValue(e: Exercise): Json {
    var rs := e.routines;
    Obj(map["day" := Str(e.day), "routines" := Arr(seq(|rs|, k requires 0 <= k < |rs| => RoutineValue(rs[k])))])
  }

  function WorkoutValue(w: WorkoutPlan): Json {
    var es := w.exercises;
    Obj(map["schedule" := Arr(w.schedule), "exercises" := Arr(seq(|es|, k requires 0 <= k < |es| => ExerciseValue(es[k])))])
  }

  function MealValue(m: Meal): Json {
    var fs := m.foods;
    Obj(map["name" := Str(m.name), "foods" := Arr(seq(|fs|, k requires 0 <= k < |fs| => Str(fs[k])))])
  }

  function DietValue(d: DietPlan): Json {
    var ms := d.meals;
    Obj(map["dailyCalories" := Number(Int(d.dailyCalories)), "meals" := Arr(seq(|ms|, k requires 0 <= k < |ms| => MealValue(ms[k])))])
  }

  /** The shape every normalised workout has: a non-empty schedule and
      non-zero set and rep counts. */
  predicate RoutineShaped(r: Routine) {
    r.sets != 0 && r.reps != 0
  }

  predicate ExerciseShaped(e: Exercise) {
    forall k :: 0 <= k < |e.routines| ==> RoutineShaped(e.routines[k])
  }

  predicate WorkoutShaped(w: WorkoutPlan) {
    |w.schedule| > 0 && forall k :: 0 <= k < |w.exercises| ==> ExerciseShaped(w.exercises[k])
  }

  predicate MealShaped(m: Meal) {
    |m.foods| > 0
  }

  predicate DietShaped(d: DietPlan) {
    d.dailyCalories != 0 && forall k :: 0 <= k < |d.meals| ==> MealShaped(d.meals[k])
  }

  /** No text field is empty: a normalised string field that came out empty
      (the input was truthy but printed as "", e.g. `[]`) is falsy when read
      again. */
  predicate RoutineFilled(r: Routine) {
    r.name != "" && r.duration != Some("") && r.description != Some("")
  }

  predicate ExerciseFilled(e: Exercise) {
    e.day != "" && forall k :: 0 <= k < |e.routines| ==> RoutineFilled(e.routines[k])
  }

  predicate WorkoutFilled(w: WorkoutPlan) {
    forall k :: 0 <= k < |w.exercises| ==> ExerciseFilled(w.exercises[k])
  }

  predicate DietFilled(d: DietPlan) {
    forall k :: 0 <= k < |d.meals| ==> d.meals[k].name != ""
  }

  /** What a second pass makes of an empty text field. */
  function Refill(s: string, d: string): string {
    if s == "" then d else s
  }

  function RefillOptional(o: Option<string>): Option<string> {
    if o == Some("") then None else o
  }

  function RefillRoutine(r: Routine): Routine {
    r.(name := Refill(r.name, DefaultRoutineName),
       duration := RefillOptional(r.duration),
       description := RefillOptional(r.description))
  }

  function RefillExercise(e: Exercise): Exercise {
    var rs := e.routines;
    Exercise(Refill(e.day, DefaultDay), seq(|rs|, k requires 0 <= k < |rs| => RefillRoutine(rs[k])))
  }

  function RefillWorkout(w: WorkoutPlan): WorkoutPlan {
    var es := w.exercises;
    w.(exercises := seq(|es|, k requires 0 <= k < |es| => RefillExercise(es[k])))
  }

  function RefillDiet(d: DietPlan): DietPlan {
    var ms := d.meals;
    d.(meals := seq(|ms|, k requires 0 <= k < |ms| => ms[k].(name := Refill(ms[k].name, DefaultMealName))))
  }

  /** Every normalised workout has the shape. */
  lemma ValidatedWorkoutShaped(plan: Json)
    requires ValidateWorkout(plan).Ok?
    ensures WorkoutShaped(ValidateWorkout(plan).value)
  {
    var w := ValidateWorkout(plan).value;
    var exs := ListItems(Field(plan, "exercises"));
    forall k | 0 <= k < |w.exercises|
      ensures ExerciseShaped(w.exercises[k])
    {
      assert Ok(w.exercises[k]) == ValidateExercise(exs[k]);
    }
  }

  /** Every normalised diet has the shape. */
  lemma ValidatedDietShaped(plan: Json)
    requires ValidateDiet(plan).Ok?
    ensures DietShaped(ValidateDiet(plan).value)
  {
    var d := ValidateDiet(plan).value;
    var ms := ListItems(Field(plan, "meals"));
    forall k | 0 <= k < |d.meals|
      ensures MealShaped(d.meals[k])
    {
      assert Ok(d.meals[k]) == ValidateMeal(ms[k]);
    }
  }

  lemma RevalidateRoutine(r: Routine)
    requires RoutineShaped(r)
    ensures ValidateRoutine(RoutineValue(r)) == Ok(RefillRoutine(r))
  {
    var v := RoutineValue(r);
    assert Field(v, "name") == Str(r.name);
    assert Field(v, "sets") == Number(Int(r.sets));
    assert Field(v, "reps") == Number(Int(r.reps));
    assert Field(v, "duration") == if r.duration.Some? then Str(r.duration.value) else Undefined;
    assert Field(v, "description") == if r.description.Some? then Str(r.description.value) else Undefined;
  }

  lemma RevalidateExercise(e: Exercise)
    requires ExerciseShaped(e)
    ensures ValidateExercise(ExerciseValue(e)) == Ok(RefillExercise(e))
  {
    var v := ExerciseValue(e);
    var rs := ListItems(Field(v, "routines"));
    forall k | 0 <= k < |rs|
      ensures ValidateRoutine(rs[k]) == Ok(RefillRoutine(e.routines[k]))
    {
      RevalidateRoutine(e.routines[k]);
    }
    var out := ValidateExercise(v).value;
    assert out.routines == RefillExercise(e).routines;
  }

  /** Feeding a normalised workout back in fills its empty text fields with
      the defaults and changes nothing else. */
  lemma RevalidateWorkout(w: WorkoutPlan)
    requires WorkoutShaped(w)
    ensures ValidateWorkout(WorkoutValue(w)) == Ok(RefillWorkout(w))
  {
    var v := WorkoutValue(w);
    var exs := ListItems(Field(v, "exercises"));
    forall k | 0 <= k < |exs|
      ensures ValidateExercise(exs[k]) == Ok(RefillExercise(w.exercises[k]))
    {
      RevalidateExercise(w.exercises[k]);
    }
    var out := ValidateWorkout(v).value;
    assert out.exercises == RefillWorkout(w).exercises;
  }

  lemma RevalidateMeal(m: Meal)
    requires MealShaped(m)
    ensures ValidateMeal(MealValue(m)) == Ok(m.(name := Refill(m.name, DefaultMealName)))
  {
    var v := MealValue(m);
    assert Field(v, "name") == Str(m.name);
    var fs := Field(v, "foods").items;
    assert |fs| == |m.foods|;
    assert ValidateMeal(v).value.foods == m.foods;
  }

  /** Feeding a normalised diet back in fills its empty meal names and
      changes nothing else. */
  lemma RevalidateDiet(d: DietPlan)
    requires DietShaped(d)
    ensures ValidateDiet(DietValue(d)) == Ok(RefillDiet(d))
  {
    var v := DietValue(d);
    var ms := ListItems(Field(v, "meals"));
    forall k | 0 <= k < |ms|
      ensures ValidateMeal(ms[k]) == Ok(RefillDiet(d).meals[k])
    {
      RevalidateMeal(d.meals[k]);
    }
    var out := ValidateDiet(v).value;
    assert out.meals == RefillDiet(d).meals;
  }

  lemma RefillWorkoutFixed(w: WorkoutPlan)
    ensures RefillWorkout(w) == w <==> WorkoutFilled(w)
    ensures WorkoutFilled(RefillWorkout(w))
  {
    if WorkoutFilled(w) {
      forall k | 0 <= k < |w.exercises|
        ensures RefillExercise(w.exercises[k]) == w.exercises[k]
      {
        var e := w.exercises[k];
        assert RefillExercise(e).routines == e.routines;
      }
      assert RefillWorkout(w).exercises == w.exercises;
    }
    if RefillWorkout(w) == w {
      forall k | 0 <= k < |w.exercises|
        ensures ExerciseFilled(w.exercises[k])
      {
        assert RefillWorkout(w).exercises[k] == w.exercises[k];
        assert forall j :: 0 <= j < |w.exercises[k].routines| ==> RefillExercise(w.exercises[k]).routines[j] == w.exercises[k].routines[j];
      }
    }
  }

  lemma RefillDietFixed(d: DietPlan)
    ensures RefillDiet(d) == d <==> DietFilled(d)
    ensures DietFilled(RefillDiet(d))
  {
    if DietFilled(d) {
      assert RefillDiet(d).meals == d.meals;
    }
    if RefillDiet(d) == d {
      assert forall k :: 0 <= k < |d.meals| ==> RefillDiet(d).meals[k] == d.meals[k];
    }
  }

  /** Normalising a normalised workout again returns it unchanged exactly
      when none of its text fields is empty; a third pass never changes
      anything. */
  lemma WorkoutIdempotence(plan: Json)
    requires ValidateWorkout(plan).Ok?
    ensures var w := ValidateWorkout(plan).value;
      && (ValidateWorkout(WorkoutValue(w)) == Ok(w) <==> WorkoutFilled(w))
      && ValidateWorkout(WorkoutValue(w)).Ok?
      && var w2 := ValidateWorkout(WorkoutValue(w)).value;
         ValidateWorkout(WorkoutValue(w2)) == Ok(w2)
  {
    var w := ValidateWorkout(plan).value;
    ValidatedWorkoutShaped(plan);
    RevalidateWorkout(w);
    RefillWorkoutFixed(w);
    var w2 := RefillWorkout(w);
    assert WorkoutShaped(w2) by {
      forall k | 0 <= k < |w2.exercises|
        ensures ExerciseShaped(w2.exercises[k])
      {
        assert ExerciseShaped(w.exercises[k]);
      }
    }
    RevalidateWorkout(w2);
    RefillWorkoutFixed(w2);
  }

  /** Normalising a normalised diet again returns it unchanged exactly when
      no meal name is empty; a third pass never changes anything. */
  lemma DietIdempotence(plan: Json)
    requires ValidateDiet(plan).Ok?
    ensures var d := ValidateDiet(plan).value;
      && (ValidateDiet(DietValue(d)) == Ok(d) <==> DietFilled(d))
      && ValidateDiet(DietValue(d)).Ok?
      && var d2 := ValidateDiet(DietValue(d)).value;
         ValidateDiet(DietValue(d2)) == Ok(d2)
  {
    var d := ValidateDiet(plan).value;
    ValidatedDietShaped(plan);
    RevalidateDiet(d);
    RefillDietFixed(d);
    var d2 := RefillDiet(d);
    assert DietShaped(d2);
    RevalidateDiet(d2);
    RefillDietFixed(d2);
  }

  /** The normaliser is not idempotent as written: a truthy `day` that
      prints as "" (an empty array) comes out as "", which the next pass
      replaces by "Workout Day". */
  lemma WorkoutNotIdempotent()
    ensures var plan := Obj(map["exercises" := Arr([Obj(map["day" := Arr([])])])]);
      && ValidateWorkout(plan).Ok?
      && ValidateWorkout(plan).value.exercises[0].day == ""
      && ValidateWorkout(WorkoutValue(ValidateWorkout(plan).value)) != ValidateWorkout(plan)
  {
    var plan := Obj(map["exercises" := Arr([Obj(map["day" := Arr([])])])]);
    var ex := Obj(map["day" := Arr([])]);
    assert Field(plan, "exercises").items[0] == ex;
    assert ToStr(Arr([])) == "";
    assert ValidateExercise(ex).value.day == "";
    var w := ValidateWorkout(plan).value;
    assert !WorkoutFilled(w);
    WorkoutIdempotence(plan);
  }

  /** A routine name that is an object with its own `toString` field makes
      `String` throw, so the whole workout is rejected. */
  lemma ToStringFieldThrows()
    ensures var name := Obj(map["toString" := Number(Int(1))]);
      var plan := Obj(map["exercises" := Arr([Obj(map["routines" := Arr([Obj(map["name" := name])])])])]);
      ValidateWorkout(plan) == Err(TypeError)
  {
    var name := Obj(map["toString" := Number(Int(1))]);
    var routine := Obj(map["name" := name]);
    var ex := Obj(map["routines" := Arr([routine])]);
    var plan := Obj(map["exercises" := Arr([ex])]);
    assert Field(routine, "name") == name;
    assert !AcceptsRoutine(routine);
    assert ListItems(Field(ex, "routines"))[0] == routine;
    assert !AcceptsExercise(ex);
    assert ListItems(Field(plan, "exercises"))[0] == ex;
  }

  /** `validateWorkoutPlan({})` */
  lemma EmptyWorkout()
    ensures ValidateWorkout(Obj(map[])) == Ok(WorkoutPlan(DefaultSchedule, []))
  {
  }

  /** `validateDietPlan({meals: [{name: "Lunch", foods: []}]})` */
  lemma LunchWithoutFoods()
    ensures var lunch := Obj(map["name" := Str("Lunch"), "foods" := Arr([])]);
      ValidateDiet(Obj(map["meals" := Arr([lunch])])) == Ok(DietPlan(DefaultCalories, [Meal("Lunch", DefaultFoods)]))
  {
    var lunch := Obj(map["name" := Str("Lunch"), "foods" := Arr([])]);
    var plan := Obj(map["meals" := Arr([lunch])]);
    assert Field(plan, "meals").items == [lunch];
    assert Field(plan, "dailyCalories") == Undefined;
    assert Field(lunch, "name") == Str("Lunch");
    assert Field(lunch, "foods") == Arr([]);
    assert ValidateMeal(lunch) == Ok(Meal("Lunch", DefaultFoods));
    assert NumberOr(Undefined, DefaultCalories) == Ok(DefaultCalories);
    var d := ValidateDiet(plan).value;
    assert d.meals == [Meal("Lunch", DefaultFoods)];
  }
}
