/**
 * The rule that maps a scanned exercise name onto a registry id, as the
 * upload handlers of api/app.py and web_server.py apply it: an exact match
 * against the registry, then a fixed table of common variants, then a
 * keyword fallback. The web server guards each keyword with a scan of the
 * registry; the two handlers choose the same id for every name.
 */
module NameMatcher {
  import opened Wrappers
  import opened Text
  import opened Profiles
  import opened Registry
  import opened WorkoutParser

  function Normalize(name: string): string {
    Lower(Strip(name))
  }

  predicate ExactMatches(e: Entry, normalized: string) {
    Lower(Strip(e.name)) == normalized || e.id == SpacesToUnderscores(normalized)
  }

  /** The exact-match loop: the first registry entry whose name or id matches. */
  function ExactMatchIn(es: seq<Entry>, normalized: string): Option<Exercise> {
    if es == [] then None
    else if ExactMatches(es[0], normalized) then Some(es[0].exercise)
    else ExactMatchIn(es[1..], normalized)
  }

  /** The exact match is the detector of the first matching entry, and none means no entry matches. */
  lemma {:induction false} ExactMatchInFirst(es: seq<Entry>, normalized: string)
    ensures ExactMatchIn(es, normalized).Some? ==>
      exists i :: 0 <= i < |es| && ExactMatches(es[i], normalized) && es[i].exercise == ExactMatchIn(es, normalized).value
        && forall j :: 0 <= j < i ==> !ExactMatches(es[j], normalized)
    ensures ExactMatchIn(es, normalized).None? ==> forall j :: 0 <= j < |es| ==> !ExactMatches(es[j], normalized)
  {
    if es != [] && !ExactMatches(es[0], normalized) {
      ExactMatchInFirst(es[1..], normalized);
      if ExactMatchIn(es[1..], normalized).Some? {
        var i :| 0 <= i < |es[1..]| && ExactMatches(es[1..][i], normalized) && es[1..][i].exercise == ExactMatchIn(es[1..], normalized).value
          && forall j :: 0 <= j < i ==> !ExactMatches(es[1..][j], normalized);
        assert forall j :: 0 <= j < i + 1 ==> !ExactMatches(es[j], normalized) by {
          forall j | 0 <= j < i + 1 ensures !ExactMatches(es[j], normalized) {
            if j > 0 { assert es[j] == es[1..][j - 1]; }
          }
        }
        assert es[i + 1] == es[1..][i];
      } else {
        forall j | 0 <= j < |es| ensures !ExactMatches(es[j], normalized) {
          if j > 0 { assert es[j] == es[1..][j - 1]; }
        }
      }
    }
  }

  /** `name_mappings`: common variants, each to its detector, in the order written. */
  const NameMappings: seq<(string, Exercise)> := [
    ("squats", Squat), ("barbell squats", Squat), ("back squat", Squat), ("back squats", Squat),
    ("front squat", Squat), ("front squats", Squat), ("goblet squat", Squat), ("goblet squats", Squat),
    ("dumbbell squat", Squat), ("dumbbell squats", Squat), ("air squat", Squat), ("air squats", Squat),
    ("bodyweight squat", Squat), ("box squat", Squat),
    ("shoulder presses", ShoulderPress), ("overhead press", ShoulderPress), ("military press", ShoulderPress),
    ("seated shoulder press", ShoulderPress), ("standing shoulder press", ShoulderPress),
    ("dumbbell shoulder press", ShoulderPress), ("barbell shoulder press", ShoulderPress),
    ("deadlifts", Deadlift), ("conventional deadlift", Deadlift), ("sumo deadlift", Deadlift),
    ("trap bar deadlift", Deadlift),
    ("romanian deadlifts", RomanianDeadlift), ("rdl", RomanianDeadlift), ("stiff leg deadlift", RomanianDeadlift),
    ("calf raises", CalfRaise), ("standing calf raise", CalfRaise), ("seated calf raise", CalfRaise),
    ("single leg calf raise", CalfRaise),
    ("barbell rows", BarbellRow), ("bent over row", BarbellRow), ("pendlay row", BarbellRow), ("dumbbell row", BarbellRow),
    ("bicep curls", BicepCurl), ("dumbbell curl", BicepCurl), ("barbell curl", BicepCurl), ("hammer curl", BicepCurl),
    ("preacher curl", BicepCurl), ("concentration curl", BicepCurl),
    ("bench presses", BenchPress), ("barbell bench press", BenchPress), ("dumbbell bench press", BenchPress),
    ("incline bench press", BenchPress), ("decline bench press", BenchPress), ("flat bench press", BenchPress),
    ("front raises", FrontRaise), ("dumbbell front raise", FrontRaise), ("barbell front raise", FrontRaise),
    ("plate front raise", FrontRaise),
    ("dumbbell flys", DumbbellFly), ("dumbbell flyes", DumbbellFly), ("chest fly", DumbbellFly),
    ("pec fly", DumbbellFly), ("cable fly", DumbbellFly), ("incline fly", DumbbellFly)
  ]

  /** `name_mappings.get(normalized)` */
  function TableLookup(table: seq<(string, Exercise)>, key: string): (r: Option<Exercise>)
    ensures r.Some? <==> exists i :: 0 <= i < |table| && table[i].0 == key
    ensures r.Some? ==> exists i :: 0 <= i < |table| && table[i] == (key, r.value)
  {
    if table == [] then None
    else if table[0].0 == key then Some(table[0].1)
    else
      var r := TableLookup(table[1..], key);
      assert forall i :: 1 <= i < |table| ==> table[i] == table[1..][i - 1];
      r
  }

  /** The fallback's key words, one constructor per word. */
  datatype KeyWord = SquatWord | PressWord | DeadliftWord | CurlWord | RowWord | RaiseWord | FlyWord | CalfWord

  function Word(k: KeyWord): string {
    match k
    case SquatWord => "squat"
    case PressWord => "press"
    case DeadliftWord => "deadlift"
    case CurlWord => "curl"
    case RowWord => "row"
    case RaiseWord => "raise"
    case FlyWord => "fly"
    case CalfWord => "calf"
  }

  /** `key_words`, in the order the loop tries them. */
  const KeyWords: seq<KeyWord> := [SquatWord, PressWord, DeadliftWord, CurlWord, RowWord, RaiseWord, FlyWord, CalfWord]

  /** The branch ladder applied to a key word found in the normalised name; None where no branch fires. */
  function KeywordRule(keyWord: KeyWord, normalized: string): Option<Exercise> {
    match keyWord
    case SquatWord => Some(Squat)
    case PressWord =>
      if Contains(normalized, "shoulder") then Some(ShoulderPress)
      else if Contains(normalized, "bench") || Contains(normalized, "chest") then Some(BenchPress)
      else None
    case DeadliftWord =>
      if Contains(normalized, "romanian") || Contains(normalized, "rdl") || Contains(normalized, "stiff") then Some(RomanianDeadlift)
      else Some(Deadlift)
    case CurlWord => Some(BicepCurl)
    case RowWord => Some(BarbellRow)
    case RaiseWord => if !Contains(normalized, "calf") then Some(FrontRaise) else None
    case CalfWord => Some(CalfRaise)
    case FlyWord => Some(DumbbellFly)
  }

  predicate KeywordFires(keyWord: KeyWord, normalized: string) {
    Contains(normalized, Word(keyWord)) && KeywordRule(keyWord, normalized).Some?
  }

  /** The keyword loop of api/app.py: the first keyword that occurs and whose branch yields an id. */
  function KeywordMatch(kws: seq<KeyWord>, normalized: string): (r: Option<Exercise>)
    ensures r.Some? <==> exists k :: 0 <= k < |kws| && KeywordFires(kws[k], normalized)
    ensures r.Some? ==> exists k :: 0 <= k < |kws| && KeywordFires(kws[k], normalized) && r == KeywordRule(kws[k], normalized)
  {
    if kws == [] then None
    else if KeywordFires(kws[0], normalized) then KeywordRule(kws[0], normalized)
    else
      var r := KeywordMatch(kws[1..], normalized);
      assert forall k :: 1 <= k < |kws| ==> kws[k] == kws[1..][k - 1];
      r
  }

  /** The exact match against the registry, else the table, else the given keyword fallback. */
  function Resolve(registry: seq<Entry>, table: seq<(string, Exercise)>, normalized: string, fallback: Option<Exercise>): Option<Exercise> {
    var exact := ExactMatchIn(registry, normalized);
    if exact.Some? then exact
    else if TableLookup(table, normalized).Some? then TableLookup(table, normalized)
    else fallback
  }

  /**
   * The whole rule of api/app.py, over the registry it scans and the table
   * it consults (`ExerciseRegistry` and `NameMappings` in the handler).
   */
  function AppMatch(registry: seq<Entry>, table: seq<(string, Exercise)>, name: string): Option<Exercise> {
    Resolve(registry, table, Normalize(name), KeywordMatch(KeyWords, Normalize(name)))
  }

  /** web_server.py's inner loop: the first registry entry whose name or id contains the keyword runs the ladder. */
  function RegistryGuardedRule(es: seq<Entry>, keyWord: KeyWord, normalized: string): (r: Option<Exercise>)
    ensures r.Some? ==> r == KeywordRule(keyWord, normalized)
  {
    if es == [] then None
    else if (Contains(Lower(Strip(es[0].name)), Word(keyWord)) || Contains(es[0].id, Word(keyWord))) && KeywordRule(keyWord, normalized).Some? then
      KeywordRule(keyWord, normalized)
    else RegistryGuardedRule(es[1..], keyWord, normalized)
  }

  function GuardedKeywordMatch(es: seq<Entry>, kws: seq<KeyWord>, normalized: string): Option<Exercise> {
    if kws == [] then None
    else if Contains(normalized, Word(kws[0])) && RegistryGuardedRule(es, kws[0], normalized).Some? then
      RegistryGuardedRule(es, kws[0], normalized)
    else GuardedKeywordMatch(es, kws[1..], normalized)
  }

  /** The whole rule of web_server.py. */
  function WebMatch(registry: seq<Entry>, table: seq<(string, Exercise)>, name: string): Option<Exercise> {
    Resolve(registry, table, Normalize(name), GuardedKeywordMatch(registry, KeyWords, Normalize(name)))
  }

  /** Every detector has its entry in `registry`, as in `ExerciseRegistry`. */
  predicate ListsEveryDetector(registry: seq<Entry>) {
    forall ex: Exercise :: EntryOf(ex) in registry
  }

  /** The registry guard is transparent for a keyword that some entry's id contains. */
  lemma {:induction false} GuardedRuleIsRule(es: seq<Entry>, keyWord: KeyWord, normalized: string)
    requires exists e :: e in es && Contains(e.id, Word(keyWord))
    ensures RegistryGuardedRule(es, keyWord, normalized) == KeywordRule(keyWord, normalized)
    decreases |es|
  {
    if !(Contains(es[0].id, Word(keyWord))) {
      var e :| e in es && Contains(e.id, Word(keyWord));
      assert e in es[1..];
      GuardedRuleIsRule(es[1..], keyWord, normalized);
    }
  }

  /** Each key word occurs in the key of some detector. */
  lemma KeywordInSomeId(k: KeyWord)
    ensures exists ex: Exercise :: Contains(Id(ex), Word(k))
  {
    match k
    case SquatWord => assert OccursAt(Id(Squat), "squat", 0);
    case PressWord => assert OccursAt(Id(ShoulderPress), "press", 9);
    case DeadliftWord => assert OccursAt(Id(Deadlift), "deadlift", 0);
    case CurlWord => assert OccursAt(Id(BicepCurl), "curl", 6);
    case RowWord => assert OccursAt(Id(BarbellRow), "row", 8);
    case RaiseWord => assert OccursAt(Id(CalfRaise), "raise", 5);
    case FlyWord => assert OccursAt(Id(DumbbellFly), "fly", 9);
    case CalfWord => assert OccursAt(Id(CalfRaise), "calf", 0);
  }

  lemma {:induction false} GuardedKeywordMatchIsKeywordMatch(es: seq<Entry>, kws: seq<KeyWord>, normalized: string)
    requires ListsEveryDetector(es)
    ensures GuardedKeywordMatch(es, kws, normalized) == KeywordMatch(kws, normalized)
    decreases |kws|
  {
    if kws != [] {
      KeywordInSomeId(kws[0]);
      var ex: Exercise :| Contains(Id(ex), Word(kws[0]));
      assert EntryOf(ex) in es && EntryOf(ex).id == Id(ex);
      GuardedRuleIsRule(es, kws[0], normalized);
      GuardedKeywordMatchIsKeywordMatch(es, kws[1..], normalized);
    }
  }

  /**
   * The registry-guarded variant of web_server.py chooses the same detector
   * as api/app.py for every name, over any registry listing every detector.
   */
  lemma WebMatchEqualsAppMatch(registry: seq<Entry>, table: seq<(string, Exercise)>, name: string)
    requires ListsEveryDetector(registry)
    ensures WebMatch(registry, table, name) == AppMatch(registry, table, name)
  {
    GuardedKeywordMatchIsKeywordMatch(registry, KeyWords, Normalize(name));
  }

  /** The id the rule reports: the detector's key, which reads back as that detector. */
  function MatchedId(m: Option<Exercise>): (r: Option<string>)
    ensures r.Some? <==> m.Some?
    ensures r.Some? ==> ParseId(r.value) == m
  {
    if m.None? then None
    else
      IdRoundTrip(m.value);
      Some(Id(m.value))
  }

  /** A reported id is a key of `ExerciseRegistry`, and its entry is the chosen detector's. */
  lemma MatchedIdRegistered(m: Option<Exercise>)
    requires m.Some?
    ensures Lookup(MatchedId(m).value) == Some(EntryOf(m.value))
  {
    RegisteredId(m.value);
  }

  /** A string lacking one of `sub`'s characters does not contain `sub`. */
  lemma MissingCharNotContained(s: string, sub: string, j: nat)
    requires j < |sub|
    requires forall i :: 0 <= i < |s| ==> s[i] != sub[j]
    ensures !Contains(s, sub)
  {
    forall i | 0 <= i <= |s| - |sub|
      ensures !OccursAt(s, sub, i)
    {
      assert s[i..i + |sub|][j] == s[i + j];
    }
  }

  /**
   * The keyword fallback characterised: a name gets no detector from it
   * exactly when it contains none of squat, deadlift, curl, row, fly and
   * calf, its "press" (if any) comes without shoulder, bench or chest, and
   * its "raise" (if any) comes with calf.
   */
  lemma KeywordFallbackNone(normalized: string)
    ensures KeywordMatch(KeyWords, normalized).None? <==>
      && !Contains(normalized, "squat") && !Contains(normalized, "deadlift") && !Contains(normalized, "curl")
      && !Contains(normalized, "row") && !Contains(normalized, "fly") && !Contains(normalized, "calf")
      && !(Contains(normalized, "press") && (Contains(normalized, "shoulder") || Contains(normalized, "bench") || Contains(normalized, "chest")))
      && !(Contains(normalized, "raise") && !Contains(normalized, "calf"))
  {
    var kws := KeyWords;
    assert kws[0] == SquatWord && kws[1] == PressWord && kws[2] == DeadliftWord && kws[3] == CurlWord;
    assert kws[4] == RowWord && kws[5] == RaiseWord && kws[6] == FlyWord && kws[7] == CalfWord;
    assert forall k :: 0 <= k < |kws| ==> kws[k] in {SquatWord, PressWord, DeadliftWord, CurlWord, RowWord, RaiseWord, FlyWord, CalfWord};
  }

  /** A name containing "squat" always falls back to the squat detector. */
  lemma SquatKeywordFirst(normalized: string)
    requires Contains(normalized, "squat")
    ensures KeywordMatch(KeyWords, normalized) == Some(Squat)
  {
    assert KeyWords[0] == SquatWord;
  }

  /**
   * A deadlift name that no earlier keyword catches goes to the Romanian
   * deadlift exactly when it mentions romanian, rdl or stiff.
   */
  lemma DeadliftKeywordRule(normalized: string)
    requires Contains(normalized, "deadlift") && !Contains(normalized, "squat")
    requires !(Contains(normalized, "press") && (Contains(normalized, "shoulder") || Contains(normalized, "bench") || Contains(normalized, "chest")))
    ensures KeywordMatch(KeyWords, normalized) ==
      if Contains(normalized, "romanian") || Contains(normalized, "rdl") || Contains(normalized, "stiff") then Some(RomanianDeadlift)
      else Some(Deadlift)
  {
    var kws := KeyWords;
    assert kws[0] == SquatWord && kws[1..][0] == PressWord && kws[1..][1..][0] == DeadliftWord;
    assert !KeywordFires(kws[0], normalized);
    assert KeywordMatch(kws, normalized) == KeywordMatch(kws[1..], normalized);
    assert !KeywordFires(kws[1..][0], normalized);
    assert KeywordMatch(kws[1..], normalized) == KeywordMatch(kws[1..][1..], normalized);
    assert KeywordFires(kws[1..][1..][0], normalized);
  }

  /**
   * A name with "calf" always gets a detector from the fallback, and never
   * the front raise: the "raise" branch is skipped and the later "calf"
   * keyword picks the calf raise, unless an earlier keyword fired first.
   */
  lemma CalfNeverFrontRaise(normalized: string)
    requires Contains(normalized, "calf")
    ensures KeywordMatch(KeyWords, normalized).Some?
    ensures KeywordMatch(KeyWords, normalized) != Some(FrontRaise)
  {
    var kws := KeyWords;
    assert kws[7] == CalfWord && KeywordFires(kws[7], normalized);
    var k :| 0 <= k < |kws| && KeywordFires(kws[k], normalized) && KeywordMatch(kws, normalized) == KeywordRule(kws[k], normalized);
    FrontRaiseRule(kws[k], normalized);
  }

  /** The ladder names the front raise only for "raise" without "calf". */
  lemma FrontRaiseRule(keyWord: KeyWord, normalized: string)
    ensures KeywordRule(keyWord, normalized) == Some(FrontRaise) <==> keyWord == RaiseWord && !Contains(normalized, "calf")
  {
  }

  /** None of the keywords and qualifiers the fallback tests occurs in `leg press`. */
  lemma LegPressWordsAbsent()
    ensures !Contains("leg press", "squat") && !Contains("leg press", "deadlift") && !Contains("leg press", "curl")
    ensures !Contains("leg press", "row") && !Contains("leg press", "fly") && !Contains("leg press", "calf")
    ensures !Contains("leg press", "shoulder") && !Contains("leg press", "bench") && !Contains("leg press", "chest")
    ensures !Contains("leg press", "raise")
  {
    var n := "leg press";
    assert forall i :: 0 <= i < |n| ==> n[i] != 'q' && n[i] != 'd' && n[i] != 'c' && n[i] != 'o' && n[i] != 'f' && n[i] != 'h' && n[i] != 'b' && n[i] != 'a';
    MissingCharNotContained(n, "squat", 1);
    MissingCharNotContained(n, "deadlift", 0);
    MissingCharNotContained(n, "curl", 0);
    MissingCharNotContained(n, "row", 1);
    MissingCharNotContained(n, "fly", 0);
    MissingCharNotContained(n, "calf", 0);
    MissingCharNotContained(n, "shoulder", 1);
    MissingCharNotContained(n, "bench", 0);
    MissingCharNotContained(n, "chest", 0);
    MissingCharNotContained(n, "raise", 1);
  }

  /** `Leg Press` gets no detector from the keyword fallback: its "press" has no shoulder, bench or chest. */
  lemma LegPressUntracked()
    ensures KeywordMatch(KeyWords, "leg press").None?
  {
    LegPressWordsAbsent();
    KeywordFallbackNone("leg press");
  }

  // The loops of the two upload handlers.

  /** The exact-match loop over the registry, in its order. */
  method FindExactMatch(registry: seq<Entry>, normalized: string) returns (matched: Option<Exercise>)
    ensures matched == ExactMatchIn(registry, normalized)
  {
    matched := None;
    var i := 0;
    while i < |registry|
      invariant 0 <= i <= |registry|
      invariant ExactMatchIn(registry, normalized) == ExactMatchIn(registry[i..], normalized)
    {
      var info := registry[i];
      if Lower(Strip(info.name)) == normalized || info.id == SpacesToUnderscores(normalized) {
        matched := Some(info.exercise);
        return;
      }
      assert registry[i..][1..] == registry[i + 1..];
      i := i + 1;
    }
  }

  /** api/app.py's keyword loop: the first keyword whose branch fires. */
  method FindKeywordMatch(normalized: string) returns (matched: Option<Exercise>)
    ensures matched == KeywordMatch(KeyWords, normalized)
  {
    matched := FindKeywordMatchIn(KeyWords, normalized);
  }

  /** The keyword loop over any list of key words. */
  method FindKeywordMatchIn(keyWords: seq<KeyWord>, normalized: string) returns (matched: Option<Exercise>)
    ensures matched == KeywordMatch(keyWords, normalized)
  {
    matched := None;
    var k := 0;
    while k < |keyWords|
      invariant 0 <= k <= |keyWords|
      invariant KeywordMatch(keyWords, normalized) == KeywordMatch(keyWords[k..], normalized)
    {
      var keyWord := keyWords[k];
      if Contains(normalized, Word(keyWord)) {
        var rule := KeywordRule(keyWord, normalized);
        if rule.Some? {
          matched := rule;
          return;
        }
      }
      assert keyWords[k..][1..] == keyWords[k + 1..];
      k := k + 1;
    }
  }

  /** api/app.py's matching of one scanned name. */
  method MatchExerciseName(registry: seq<Entry>, table: seq<(string, Exercise)>, name: string) returns (matchedId: Option<string>)
    ensures matchedId == MatchedId(AppMatch(registry, table, name))
  {
    var normalized := Normalize(name);
    var matched := FindExactMatch(registry, normalized);
    if matched.None? {
      matched := TableLookup(table, normalized);
      if matched.None? {
        matched := FindKeywordMatch(normalized);
      }
    }
    matchedId := MatchedId(matched);
  }

  /** One row of the api/app.py response. */
  datatype MappedExercise = MappedExercise(
    name: string, trackable: bool, mappedExercise: Option<string>, sets: nat, reps: Option<Reps>, weight: real)

  /** The response row for a scanned record: a missing weight is reported as 0. */
  function AppRow(registry: seq<Entry>, table: seq<(string, Exercise)>, ex: ExerciseRecord): (r: MappedExercise)
    ensures r.trackable <==> r.mappedExercise.Some?
    ensures r.mappedExercise.Some? ==> ParseId(r.mappedExercise.value) == AppMatch(registry, table, ex.exercise)
    ensures r.name == ex.exercise && r.sets == ex.sets && r.reps == ex.reps
    ensures r.weight == if ex.weightKg.Some? then ex.weightKg.value else 0.0
  {
    var id := MatchedId(AppMatch(registry, table, ex.exercise));
    MappedExercise(ex.exercise, id.Some?, id, ex.sets, ex.reps, ex.weightKg.GetOr(0.0))
  }

  /** The api/app.py response row built for one scanned exercise. */
  method MapScannedExercise(registry: seq<Entry>, table: seq<(string, Exercise)>, ex: ExerciseRecord) returns (row: MappedExercise)
    ensures row == AppRow(registry, table, ex)
  {
    var matchedId := MatchExerciseName(registry, table, ex.exercise);
    row := MappedExercise(ex.exercise, matchedId.Some?, matchedId, ex.sets, ex.reps, ex.weightKg.GetOr(0.0));
  }

  /** The api/app.py response: one row per scanned record, in order. */
  function AppRows(registry: seq<Entry>, table: seq<(string, Exercise)>, scanned: seq<ExerciseRecord>): seq<MappedExercise> {
    if scanned == [] then []
    else AppRows(registry, table, scanned[..|scanned| - 1]) + [AppRow(registry, table, scanned[|scanned| - 1])]
  }


  /** The api/app.py loop over the scanned exercises. */
  method MapScannedExercises(registry: seq<Entry>, table: seq<(string, Exercise)>, scanned: seq<ExerciseRecord>)
    returns (exercises: seq<MappedExercise>)
    ensures exercises == AppRows(registry, table, scanned)
  {
    exercises := [];
    for k := 0 to |scanned|
      invariant exercises == AppRows(registry, table, scanned[..k])
    {
      var row := MapScannedExercise(registry, table, scanned[k]);
      assert scanned[..k + 1][..k] == scanned[..k];
      exercises := exercises + [row];
    }
    assert scanned[..|scanned|] == scanned;
  }

  /** The api/app.py handler's mapping, with the registry and its own table. */
  method MapDetectedExercises(scanned: seq<ExerciseRecord>) returns (exercises: seq<MappedExercise>)
    ensures exercises == AppRows(ExerciseRegistry, NameMappings, scanned)
  {
    exercises := MapScannedExercises(ExerciseRegistry, NameMappings, scanned);
  }

  /** A trackable row of the api/app.py response names a key of the registry, with the chosen detector's entry. */
  lemma TrackableRowRegistered(ex: ExerciseRecord)
    requires AppRow(ExerciseRegistry, NameMappings, ex).trackable
    ensures Lookup(AppRow(ExerciseRegistry, NameMappings, ex).mappedExercise.value)
      == Some(EntryOf(AppMatch(ExerciseRegistry, NameMappings, ex.exercise).value))
  {
    MatchedIdRegistered(AppMatch(ExerciseRegistry, NameMappings, ex.exercise));
  }

  /** web_server.py's scan of the registry for one keyword. */
  method FindGuardedRule(registry: seq<Entry>, keyWord: KeyWord, normalized: string) returns (matched: Option<Exercise>)
    ensures matched == RegistryGuardedRule(registry, keyWord, normalized)
  {
    matched := None;
    var j := 0;
    while j < |registry|
      invariant 0 <= j <= |registry|
      invariant RegistryGuardedRule(registry, keyWord, normalized) == RegistryGuardedRule(registry[j..], keyWord, normalized)
    {
      var info := registry[j];
      if Contains(Lower(Strip(info.name)), Word(keyWord)) || Contains(info.id, Word(keyWord)) {
        var rule := KeywordRule(keyWord, normalized);
        if rule.Some? {
          matched := rule;
          return;
        }
      }
      assert registry[j..][1..] == registry[j + 1..];
      j := j + 1;
    }
  }

  /** web_server.py's keyword loop, leaving at the first keyword whose registry scan yields an id. */
  method FindGuardedKeywordMatch(registry: seq<Entry>, normalized: string) returns (matched: Option<Exercise>)
    ensures matched == GuardedKeywordMatch(registry, KeyWords, normalized)
  {
    var keyWords := KeyWords;
    matched := None;
    var k := 0;
    while k < |keyWords|
      invariant 0 <= k <= |keyWords|
      invariant matched.None?
      invariant GuardedKeywordMatch(registry, keyWords, normalized) == GuardedKeywordMatch(registry, keyWords[k..], normalized)
    {
      var keyWord := keyWords[k];
      if Contains(normalized, Word(keyWord)) {
        matched := FindGuardedRule(registry, keyWord, normalized);
        if matched.Some? {
          return;
        }
      }
      assert keyWords[k..][1..] == keyWords[k + 1..];
      k := k + 1;
    }
  }

  /** web_server.py's matching of one scanned name. */
  method MatchExerciseNameGuarded(registry: seq<Entry>, table: seq<(string, Exercise)>, name: string)
    returns (matchedId: Option<string>)
    ensures matchedId == MatchedId(WebMatch(registry, table, name))
  {
    var normalized := Normalize(name);
    var matched := FindExactMatch(registry, normalized);
    if matched.None? {
      matched := TableLookup(table, normalized);
      if matched.None? {
        matched := FindGuardedKeywordMatch(registry, normalized);
      }
    }
    matchedId := MatchedId(matched);
  }

  /** One row of the web_server.py response. */
  datatype Suggestion = Suggestion(
    name: string, matched: bool, exerciseId: Option<string>, sets: nat, reps: Option<Reps>,
    weightKg: Option<real>, duration: Option<string>)

  /** The suggestion for a scanned record: weight and duration passed through, missing or not. */
  function WebRow(registry: seq<Entry>, table: seq<(string, Exercise)>, ex: ExerciseRecord): (r: Suggestion)
    ensures r.matched <==> r.exerciseId.Some?
    ensures r.exerciseId.Some? ==> ParseId(r.exerciseId.value) == WebMatch(registry, table, ex.exercise)
    ensures r.name == ex.exercise && r.sets == ex.sets && r.reps == ex.reps
    ensures r.weightKg == ex.weightKg && r.duration == ex.duration
  {
    var id := MatchedId(WebMatch(registry, table, ex.exercise));
    Suggestion(ex.exercise, id.Some?, id, ex.sets, ex.reps, ex.weightKg, ex.duration)
  }

  /** The web server suggests the same exercise id that api/app.py maps the record to. */
  lemma WebRowAgreesWithAppRow(registry: seq<Entry>, table: seq<(string, Exercise)>, ex: ExerciseRecord)
    requires ListsEveryDetector(registry)
    ensures WebRow(registry, table, ex).exerciseId == AppRow(registry, table, ex).mappedExercise
    ensures WebRow(registry, table, ex).matched == AppRow(registry, table, ex).trackable
  {
    WebMatchEqualsAppMatch(registry, table, ex.exercise);
  }

  /** The web_server.py suggestion built for one scanned exercise. */
  method SuggestScannedExercise(registry: seq<Entry>, table: seq<(string, Exercise)>, ex: ExerciseRecord) returns (row: Suggestion)
    ensures row == WebRow(registry, table, ex)
  {
    var exerciseId := MatchExerciseNameGuarded(registry, table, ex.exercise);
    row := Suggestion(ex.exercise, exerciseId.Some?, exerciseId, ex.sets, ex.reps, ex.weightKg, ex.duration);
  }

  /** The web_server.py response: one suggestion per scanned record, in order. */
  function WebRows(registry: seq<Entry>, table: seq<(string, Exercise)>, scanned: seq<ExerciseRecord>): seq<Suggestion> {
    if scanned == [] then []
    else WebRows(registry, table, scanned[..|scanned| - 1]) + [WebRow(registry, table, scanned[|scanned| - 1])]
  }


  /** The web_server.py loop over the scanned exercises. */
  method SuggestScannedExercises(registry: seq<Entry>, table: seq<(string, Exercise)>, scanned: seq<ExerciseRecord>)
    returns (suggestions: seq<Suggestion>)
    ensures suggestions == WebRows(registry, table, scanned)
  {
    suggestions := [];
    for k := 0 to |scanned|
      invariant suggestions == WebRows(registry, table, scanned[..k])
    {
      var row := SuggestScannedExercise(registry, table, scanned[k]);
      assert scanned[..k + 1][..k] == scanned[..k];
      suggestions := suggestions + [row];
    }
    assert scanned[..|scanned|] == scanned;
  }

  /** The web_server.py handler's suggestions, with the registry and its own table. */
  method SuggestDetectedExercises(scanned: seq<ExerciseRecord>) returns (suggestions: seq<Suggestion>)
    ensures suggestions == WebRows(ExerciseRegistry, NameMappings, scanned)
  {
    suggestions := SuggestScannedExercises(ExerciseRegistry, NameMappings, scanned);
  }

  /** Both handlers report the same id for every scanned record. */
  lemma HandlersAgree(ex: ExerciseRecord)
    ensures WebRow(ExerciseRegistry, NameMappings, ex).exerciseId == AppRow(ExerciseRegistry, NameMappings, ex).mappedExercise
  {
    RegistryComplete();
    WebRowAgreesWithAppRow(ExerciseRegistry, NameMappings, ex);
  }

  /** The api/app.py response has one row per scanned record, each the row of that record. */
  lemma {:induction false} AppRowsPointwise(registry: seq<Entry>, table: seq<(string, Exercise)>, scanned: seq<ExerciseRecord>)
    ensures |AppRows(registry, table, scanned)| == |scanned|
    ensures forall k :: 0 <= k < |scanned| ==> AppRows(registry, table, scanned)[k] == AppRow(registry, table, scanned[k])
  {
    if scanned != [] {
      AppRowsPointwise(registry, table, scanned[..|scanned| - 1]);
    }
  }

  /** The web_server.py suggestions have one row per scanned record, each the row of that record. */
  lemma {:induction false} WebRowsPointwise(registry: seq<Entry>, table: seq<(string, Exercise)>, scanned: seq<ExerciseRecord>)
    ensures |WebRows(registry, table, scanned)| == |scanned|
    ensures forall k :: 0 <= k < |scanned| ==> WebRows(registry, table, scanned)[k] == WebRow(registry, table, scanned[k])
  {
    if scanned != [] {
      WebRowsPointwise(registry, table, scanned[..|scanned| - 1]);
    }
  }

  /** For a whole upload, the web server suggests, row by row, the ids the api response maps to. */
  lemma UploadsAgree(scanned: seq<ExerciseRecord>)
    ensures |WebRows(ExerciseRegistry, NameMappings, scanned)| == |scanned| == |AppRows(ExerciseRegistry, NameMappings, scanned)|
    ensures forall k :: 0 <= k < |scanned| ==>
      WebRows(ExerciseRegistry, NameMappings, scanned)[k].exerciseId == AppRows(ExerciseRegistry, NameMappings, scanned)[k].mappedExercise
  {
    AppRowsPointwise(ExerciseRegistry, NameMappings, scanned);
    WebRowsPointwise(ExerciseRegistry, NameMappings, scanned);
    forall k | 0 <= k < |scanned|
      ensures WebRows(ExerciseRegistry, NameMappings, scanned)[k].exerciseId == AppRows(ExerciseRegistry, NameMappings, scanned)[k].mappedExercise
    {
      HandlersAgree(scanned[k]);
    }
  }
}
