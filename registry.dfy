/**
 * The exercise registry of the detector package: an insertion-ordered
 * table from exercise id to detector and metadata, a factory that looks an
 * id up, a flat listing and a listing grouped by category.
 */
module Registry {
  import opened Wrappers
  import opened Profiles
  import BaseExercise

  /** A registry entry; the description is read from `Description` when it is listed. */
  datatype Entry = Entry(id: string, exercise: Exercise, name: string, category: string)

  const LowerBody := "Lower Body"
  const UpperBody := "Upper Body"

  /** The dictionary key of each detector. */
  function Id(ex: Exercise): string {
    match ex
    case Squat => "squat"
    case ShoulderPress => "shoulder_press"
    case Deadlift => "deadlift"
    case RomanianDeadlift => "romanian_deadlift"
    case CalfRaise => "calf_raise"
    case BarbellRow => "barbell_row"
    case BicepCurl => "bicep_curl"
    case BenchPress => "bench_press"
    case FrontRaise => "front_raise"
    case DumbbellFly => "dumbbell_fly"
  }

  function Description(ex: Exercise): string {
    match ex
    case Squat => "Track full depth squats with hip-knee alignment"
    case ShoulderPress => "Track overhead press with full lockout"
    case Deadlift => "Track hip hinge and lockout position"
    case RomanianDeadlift => "Track straight-leg hip hinge for hamstrings"
    case CalfRaise => "Track ankle extension and heel lift"
    case BarbellRow => "Track bent-over row with elbow pull"
    case BicepCurl => "Track elbow flexion and full extension"
    case BenchPress => "Track chest press with full lockout"
    case FrontRaise => "Track forward arm raise to shoulder height"
    case DumbbellFly => "Track chest fly with wide arm spread"
  }

  function Category(ex: Exercise): string {
    match ex
    case Squat | Deadlift | RomanianDeadlift | CalfRaise => LowerBody
    case _ => UpperBody
  }

  /** A registry entry; its display name is the name the detector itself reports. */
  function EntryOf(ex: Exercise): Entry {
    Entry(Id(ex), ex, ExerciseName(ex), Category(ex))
  }

  /** The registry in the insertion order of its dictionary literal. */
  const ExerciseRegistry: seq<Entry> := [
    EntryOf(Squat), EntryOf(ShoulderPress), EntryOf(Deadlift), EntryOf(RomanianDeadlift), EntryOf(CalfRaise),
    EntryOf(BarbellRow), EntryOf(BicepCurl), EntryOf(BenchPress), EntryOf(FrontRaise), EntryOf(DumbbellFly)
  ]

  /** Reading a key back: the inverse of `Id`, None for an id no detector has. */
  function ParseId(id: string): (r: Option<Exercise>)
    ensures r.Some? ==> Id(r.value) == id
  {
    if id == "squat" then Some(Squat)
    else if id == "shoulder_press" then Some(ShoulderPress)
    else if id == "deadlift" then Some(Deadlift)
    else if id == "romanian_deadlift" then Some(RomanianDeadlift)
    else if id == "calf_raise" then Some(CalfRaise)
    else if id == "barbell_row" then Some(BarbellRow)
    else if id == "bicep_curl" then Some(BicepCurl)
    else if id == "bench_press" then Some(BenchPress)
    else if id == "front_raise" then Some(FrontRaise)
    else if id == "dumbbell_fly" then Some(DumbbellFly)
    else None
  }

  /** Every key reads back as its own detector, so no two detectors share a key. */
  lemma IdRoundTrip(ex: Exercise)
    ensures ParseId(Id(ex)) == Some(ex)
  {
  }

  lemma IdInjective(a: Exercise, b: Exercise)
    ensures Id(a) == Id(b) <==> a == b
  {
    IdRoundTrip(a);
    IdRoundTrip(b);
  }

  function Ids(es: seq<Entry>): (r: seq<string>)
    ensures |r| == |es| && forall i :: 0 <= i < |es| ==> r[i] == es[i].id
  {
    if es == [] then [] else [es[0].id] + Ids(es[1..])
  }

  /** Each registry entry is the entry of its own detector, and every detector has one. */
  lemma RegistryEntries()
    ensures |ExerciseRegistry| == 10
    ensures forall e :: e in ExerciseRegistry ==> e == EntryOf(e.exercise)
    ensures forall ex: Exercise :: EntryOf(ex) in ExerciseRegistry
  {
  }

  /** The registry is a dictionary: no id occurs twice. */
  lemma RegistryIdsDistinct()
    ensures forall i, j :: 0 <= i < j < |ExerciseRegistry| ==> ExerciseRegistry[i].id != ExerciseRegistry[j].id
  {
    var r := ExerciseRegistry;
    forall i, j | 0 <= i < j < |r|
      ensures r[i].id != r[j].id
    {
      assert r[i].exercise != r[j].exercise;
      IdInjective(r[i].exercise, r[j].exercise);
    }
  }

  /** The registry entry with the given id, if any. */
  function Lookup(id: string): (r: Option<Entry>)
    ensures r.Some? <==> id in Ids(ExerciseRegistry)
    ensures r.Some? ==> r.value in ExerciseRegistry && r.value.id == id
  {
    LookupIn(ExerciseRegistry, id)
  }

  function LookupIn(es: seq<Entry>, id: string): (r: Option<Entry>)
    ensures r.Some? <==> id in Ids(es)
    ensures r.Some? ==> r.value in es && r.value.id == id
  {
    if es == [] then None
    else if es[0].id == id then Some(es[0])
    else
      assert Ids(es) == [es[0].id] + Ids(es[1..]);
      LookupIn(es[1..], id)
  }

  /** Python's `repr` of a list of strings: `['a', 'b']`. */
  function QuotedList(xs: seq<string>): string {
    "[" + JoinQuoted(xs) + "]"
  }

  function JoinQuoted(xs: seq<string>): string {
    if xs == [] then ""
    else if |xs| == 1 then "'" + xs[0] + "'"
    else "'" + xs[0] + "', " + JoinQuoted(xs[1..])
  }

  function UnknownExerciseMessage(id: string): string {
    "Unknown exercise: " + id + ". Available: " + QuotedList(Ids(ExerciseRegistry))
  }

  /**
   * `get_exercise_detector`: a fresh detector for a registered id, or the
   * `ValueError` message naming the id and the available ids.
   */
  method GetExerciseDetector(exerciseId: string) returns (r: Result<BaseExercise.ExerciseDetector, string>)
    ensures r.Ok? <==> exerciseId in Ids(ExerciseRegistry)
    ensures r.Ok? ==> fresh(r.value) && r.value.Valid() && r.value.exercise == Lookup(exerciseId).value.exercise
                      && r.value.State() == BaseExercise.Init(r.value.exercise)
    ensures r.Err? ==> r.error == UnknownExerciseMessage(exerciseId)
  {
    var entry := Lookup(exerciseId);
    if entry.None? {
      return Err(UnknownExerciseMessage(exerciseId));
    }
    var detector := new BaseExercise.ExerciseDetector(entry.value.exercise);
    return Ok(detector);
  }

  /** An id is registered exactly when it is the key of a detector, and it finds that detector's entry. */
  lemma LookupIsParseId(id: string)
    ensures Lookup(id).Some? <==> ParseId(id).Some?
    ensures Lookup(id).Some? ==> Lookup(id).value == EntryOf(ParseId(id).value)
  {
    RegistryEntries();
    var r := ExerciseRegistry;
    if ParseId(id).Some? {
      var ex := ParseId(id).value;
      assert EntryOf(ex) in r;
      var i :| 0 <= i < |r| && r[i] == EntryOf(ex);
      assert Ids(r)[i] == id;
    }
    if Lookup(id).Some? {
      var e := Lookup(id).value;
      assert e == EntryOf(e.exercise);
      IdRoundTrip(e.exercise);
    }
  }

  /** Every detector has its entry in the registry. */
  lemma RegistryComplete()
    ensures forall ex: Exercise :: EntryOf(ex) in ExerciseRegistry
  {
    RegistryEntries();
  }

  /** Every detector's key is registered, with that detector's entry. */
  lemma RegisteredId(ex: Exercise)
    ensures Lookup(Id(ex)) == Some(EntryOf(ex))
  {
    IdRoundTrip(ex);
    LookupIsParseId(Id(ex));
  }

  datatype ExerciseInfo = ExerciseInfo(id: string, name: string, description: string, category: string)

  function Info(e: Entry): ExerciseInfo {
    ExerciseInfo(e.id, e.name, Description(e.exercise), e.category)
  }

  /** `get_available_exercises`: one info record per registry entry, in registry order. */
  method GetAvailableExercises() returns (exercises: seq<ExerciseInfo>)
    ensures |exercises| == |ExerciseRegistry|
    ensures forall i :: 0 <= i < |exercises| ==> exercises[i] == Info(ExerciseRegistry[i])
  {
    exercises := [];
    for i := 0 to |ExerciseRegistry|
      invariant |exercises| == i
      invariant forall k :: 0 <= k < i ==> exercises[k] == Info(ExerciseRegistry[k])
    {
      exercises := exercises + [Info(ExerciseRegistry[i])];
    }
  }

  datatype ExerciseSummary = ExerciseSummary(id: string, name: string, description: string)

  function Summary(e: Entry): ExerciseSummary {
    ExerciseSummary(e.id, e.name, Description(e.exercise))
  }

  /** The reference listing of one category: its entries' summaries in registry order. */
  function CategoryMembers(es: seq<Entry>, category: string): (r: seq<ExerciseSummary>)
    ensures |r| <= |es|
  {
    if es == [] then []
    else CategoryMembers(es[..|es| - 1], category)
         + (if es[|es| - 1].category == category then [Summary(es[|es| - 1])] else [])
  }

  /** The dictionary `get_exercises_by_category` has built after the entries `es`. */
  function Grouped(es: seq<Entry>): map<string, seq<ExerciseSummary>> {
    if es == [] then map[]
    else
      var g := Grouped(es[..|es| - 1]);
      var e := es[|es| - 1];
      if e.category in g then g[e.category := g[e.category] + [Summary(e)]]
      else g[e.category := [Summary(e)]]
  }

  /**
   * The grouping has one key per category that occurs, and under each key
   * exactly that category's members in order.
   */
  lemma {:induction false} GroupedIsPartition(es: seq<Entry>)
    ensures forall c :: c in Grouped(es) <==> exists i :: 0 <= i < |es| && es[i].category == c
    ensures forall c :: c in Grouped(es) ==> Grouped(es)[c] == CategoryMembers(es, c) && Grouped(es)[c] != []
    decreases |es|
  {
    if es != [] {
      var init := es[..|es| - 1];
      GroupedIsPartition(init);
      forall c
        ensures c in Grouped(es) <==> exists i :: 0 <= i < |es| && es[i].category == c
      {
        if c in Grouped(init) {
          var i :| 0 <= i < |init| && init[i].category == c;
          assert es[i].category == c;
        }
        if exists i :: 0 <= i < |es| && es[i].category == c {
          var i :| 0 <= i < |es| && es[i].category == c;
          if i < |init| {
            assert init[i].category == c;
          }
        }
      }
      forall c | c !in Grouped(init)
        ensures CategoryMembers(init, c) == []
      {
        CategoryMembersEmpty(init, c);
      }
    }
  }

  lemma {:induction false} CategoryMembersEmpty(es: seq<Entry>, c: string)
    requires forall i :: 0 <= i < |es| ==> es[i].category != c
    ensures CategoryMembers(es, c) == []
    decreases |es|
  {
    if es != [] {
      CategoryMembersEmpty(es[..|es| - 1], c);
    }
  }

  /** `get_exercises_by_category`: the registry grouped by category. */
  method GetExercisesByCategory() returns (byCategory: map<string, seq<ExerciseSummary>>)
    ensures byCategory == Grouped(ExerciseRegistry)
  {
    byCategory := GroupByCategory(ExerciseRegistry);
  }

  /** The grouping loop of `get_exercises_by_category`, over any list of entries. */
  method GroupByCategory(es: seq<Entry>) returns (byCategory: map<string, seq<ExerciseSummary>>)
    ensures byCategory == Grouped(es)
  {
    byCategory := map[];
    for i := 0 to |es|
      invariant byCategory == Grouped(es[..i])
    {
      var e := es[i];
      var category := e.category;
      GroupedSnoc(es[..i], e);
      assert es[..i + 1] == es[..i] + [e];
      if category !in byCategory {
        byCategory := byCategory[category := []];
      }
      byCategory := byCategory[category := byCategory[category] + [Summary(e)]];
    }
    assert es[..|es|] == es;
  }

  lemma GroupedSnoc(es: seq<Entry>, e: Entry)
    ensures var g := Grouped(es);
      Grouped(es + [e]) == g[e.category := (if e.category in g then g[e.category] else []) + [Summary(e)]]
  {
    var t := es + [e];
    assert t[..|t| - 1] == es && t[|t| - 1] == e;
    var empty: seq<ExerciseSummary> := [];
    assert empty + [Summary(e)] == [Summary(e)];
  }

  lemma CategoryMembersSnoc(es: seq<Entry>, e: Entry, c: string)
    ensures CategoryMembers(es + [e], c) == CategoryMembers(es, c) + (if e.category == c then [Summary(e)] else [])
  {
    assert (es + [e])[..|es|] == es;
  }

  /** With two categories in play, the two listings together hold every entry once. */
  lemma {:induction false} TwoCategoriesPartition(es: seq<Entry>)
    requires forall i :: 0 <= i < |es| ==> es[i].category == LowerBody || es[i].category == UpperBody
    ensures |CategoryMembers(es, LowerBody)| + |CategoryMembers(es, UpperBody)| == |es|
    decreases |es|
  {
    if es != [] {
      TwoCategoriesPartition(es[..|es| - 1]);
      assert LowerBody != UpperBody by { assert LowerBody[0] != UpperBody[0]; }
    }
  }

  /** The registry files its detectors under exactly the two body-region keys. */
  lemma RegistryCategoryKeys()
    ensures Grouped(ExerciseRegistry).Keys == {LowerBody, UpperBody}
  {
    var r := ExerciseRegistry;
    GroupedIsPartition(r);
    assert r[0].category == LowerBody && r[1].category == UpperBody;
    forall c | c in Grouped(r)
      ensures c == LowerBody || c == UpperBody
    {
      var i :| 0 <= i < |r| && r[i].category == c;
    }
  }

  /** Four entries are lower-body exercises. */
  lemma LowerBodyCount()
    ensures |CategoryMembers(ExerciseRegistry, LowerBody)| == 4
  {
    var r := ExerciseRegistry;
    assert r[..0] == [];
    assert r[..1] == r[..0] + [r[0]];
    CategoryMembersSnoc(r[..0], r[0], LowerBody);
    assert |CategoryMembers(r[..1], LowerBody)| == 1;
    assert r[..2] == r[..1] + [r[1]];
    CategoryMembersSnoc(r[..1], r[1], LowerBody);
    assert |CategoryMembers(r[..2], LowerBody)| == 1;
    assert r[..3] == r[..2] + [r[2]];
    CategoryMembersSnoc(r[..2], r[2], LowerBody);
    assert |CategoryMembers(r[..3], LowerBody)| == 2;
    assert r[..4] == r[..3] + [r[3]];
    CategoryMembersSnoc(r[..3], r[3], LowerBody);
    assert |CategoryMembers(r[..4], LowerBody)| == 3;
    assert r[..5] == r[..4] + [r[4]];
    CategoryMembersSnoc(r[..4], r[4], LowerBody);
    assert |CategoryMembers(r[..5], LowerBody)| == 4;
    assert r[..6] == r[..5] + [r[5]];
    CategoryMembersSnoc(r[..5], r[5], LowerBody);
    assert |CategoryMembers(r[..6], LowerBody)| == 4;
    assert r[..7] == r[..6] + [r[6]];
    CategoryMembersSnoc(r[..6], r[6], LowerBody);
    assert |CategoryMembers(r[..7], LowerBody)| == 4;
    assert r[..8] == r[..7] + [r[7]];
    CategoryMembersSnoc(r[..7], r[7], LowerBody);
    assert |CategoryMembers(r[..8], LowerBody)| == 4;
    assert r[..9] == r[..8] + [r[8]];
    CategoryMembersSnoc(r[..8], r[8], LowerBody);
    assert |CategoryMembers(r[..9], LowerBody)| == 4;
    assert r[..10] == r[..9] + [r[9]];
    CategoryMembersSnoc(r[..9], r[9], LowerBody);
    assert |CategoryMembers(r[..10], LowerBody)| == 4;
    assert r[..10] == r;
  }

  /** The grouped listing holds four lower-body and six upper-body exercises. */
  lemma RegistryCategorySizes()
    ensures LowerBody in Grouped(ExerciseRegistry) && |Grouped(ExerciseRegistry)[LowerBody]| == 4
    ensures UpperBody in Grouped(ExerciseRegistry) && |Grouped(ExerciseRegistry)[UpperBody]| == 6
  {
    var r := ExerciseRegistry;
    RegistryCategoryKeys();
    GroupedIsPartition(r);
    LowerBodyCount();
    forall i | 0 <= i < |r|
      ensures r[i].category == LowerBody || r[i].category == UpperBody
    {
    }
    TwoCategoriesPartition(r);
  }
}
