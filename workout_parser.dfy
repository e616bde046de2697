/**
 * The workout-text parser of the Fitbod scanner: OCR text is split into
 * lines, each line may name an exercise, and the name is kept only when one
 * of the next two lines carries sets/reps/weight data. Names are
 * de-duplicated. The regular expressions are written out as deterministic
 * scanners: in every pattern each greedy step is the only one that can lead
 * to a match, so the scanners find exactly the groups `re.search` reports.
 */
module WorkoutParser {
  import opened Wrappers
  import opened Text

  datatype Reps = Count(n: nat) | MaxEffort

  /** One parsed exercise; absent dictionary keys are None. */
  datatype ExerciseRecord = ExerciseRecord(
    exercise: string, sets: nat, reps: Option<Reps>, weightKg: Option<real>, duration: Option<string>)

  // Scanning primitives. Positions are indices into the line, at most its length.

  function SkipSpaces(s: string, i: nat): (j: nat)
    requires i <= |s|
    ensures i <= j <= |s| && (j == |s| || !IsSpace(s[j]))
    ensures forall k :: i <= k < j ==> IsSpace(s[k])
    decreases |s| - i
  {
    if i < |s| && IsSpace(s[i]) then SkipSpaces(s, i + 1) else i
  }

  function SkipNonDigits(s: string, i: nat): (j: nat)
    requires i <= |s|
    ensures i <= j <= |s| && (j == |s| || IsDigit(s[j]))
    ensures forall k :: i <= k < j ==> !IsDigit(s[k])
    decreases |s| - i
  {
    if i < |s| && !IsDigit(s[i]) then SkipNonDigits(s, i + 1) else i
  }

  function SkipDigits(s: string, i: nat): (j: nat)
    requires i <= |s|
    ensures i <= j <= |s| && (j == |s| || !IsDigit(s[j]))
    ensures forall k :: i <= k < j ==> IsDigit(s[k])
    decreases |s| - i
  {
    if i < |s| && IsDigit(s[i]) then SkipDigits(s, i + 1) else i
  }

  function SkipLowers(s: string, i: nat): (j: nat)
    requires i <= |s|
    ensures i <= j <= |s| && (j == |s| || !IsLower(s[j]))
    ensures forall k :: i <= k < j ==> IsLower(s[k])
    decreases |s| - i
  {
    if i < |s| && IsLower(s[i]) then SkipLowers(s, i + 1) else i
  }

  /** The separator class `[+»×xX*\-«>°]`, with `:` added in the first pattern. */
  predicate IsSeparator(c: char, withColon: bool) {
    c == '+' || c == '\U{BB}' || c == '\U{D7}' || c == 'x' || c == 'X' || c == '*' || c == '-'
    || c == '\U{AB}' || c == '>' || c == '\U{B0}' || (withColon && c == ':')
  }

  function SkipSeparators(s: string, i: nat, withColon: bool): (j: nat)
    requires i <= |s|
    ensures i <= j <= |s| && (j == |s| || !IsSeparator(s[j], withColon))
    ensures forall k :: i <= k < j ==> IsSeparator(s[k], withColon)
    decreases |s| - i
  {
    if i < |s| && IsSeparator(s[i], withColon) then SkipSeparators(s, i + 1, withColon) else i
  }

  /** `[.\s]*` */
  function SkipDotsAndSpaces(s: string, i: nat): (j: nat)
    requires i <= |s|
    ensures i <= j <= |s|
    ensures forall k :: i <= k < j ==> s[k] == '.' || IsSpace(s[k])
    decreases |s| - i
  {
    if i < |s| && (s[i] == '.' || IsSpace(s[i])) then SkipDotsAndSpaces(s, i + 1) else i
  }

  function Pow10(n: nat): (r: nat)
    ensures r >= 1
  {
    if n == 0 then 1 else 10 * Pow10(n - 1)
  }

  /** `(\d+)`: a non-empty maximal digit run, its value and the position after it. */
  function Digits(s: string, i: nat): (r: Option<(nat, nat)>)
    requires i <= |s|
    ensures r.Some? ==> i < r.value.1 <= |s|
  {
    var j := SkipDigits(s, i);
    if j == i then None else Some((DigitsValue(s[i..j]), j))
  }

  /** `(\d+(?:\.\d+)?)` read as a number (`float(...)`). */
  function Number(s: string, i: nat): (r: Option<(real, nat)>)
    requires i <= |s|
    ensures r.Some? ==> i < r.value.1 <= |s| && r.value.0 >= 0.0
  {
    match Digits(s, i)
    case None => None
    case Some((whole, j)) =>
      if j + 1 < |s| && s[j] == '.' && IsDigit(s[j + 1]) then
        var k := SkipDigits(s, j + 1);
        Some((whole as real + DigitsValue(s[j + 1..k]) as real / Pow10(k - j - 1) as real, k))
      else Some((whole as real, j))
  }

  /** `[Uu]xy` followed by an optional `s`: a three-letter unit word with either case of its initial. */
  function WordAt(s: string, i: nat, upper: char, lower: char, second: char, third: char): (r: Option<nat>)
    requires i <= |s|
    ensures r.Some? ==> i + 3 <= r.value <= i + 4 && r.value <= |s|
    ensures r.Some? ==> (s[i] == upper || s[i] == lower) && s[i + 1] == second && s[i + 2] == third
  {
    if i + 3 <= |s| && (s[i] == upper || s[i] == lower) && s[i + 1] == second && s[i + 2] == third then
      if i + 3 < |s| && s[i + 3] == 's' then Some(i + 4) else Some(i + 3)
    else None
  }

  /** `[Ss]ets?` */
  function SetsWord(s: string, i: nat): (r: Option<nat>)
    requires i <= |s|
    ensures r.Some? ==> i < r.value <= |s|
  {
    WordAt(s, i, 'S', 's', 'e', 't')
  }

  /** `[Rr]eps?` */
  function RepsWord(s: string, i: nat): (r: Option<nat>)
    requires i <= |s|
    ensures r.Some? ==> i < r.value <= |s|
  {
    WordAt(s, i, 'R', 'r', 'e', 'p')
  }

  /** A non-empty separator run. */
  function Separators(s: string, i: nat, withColon: bool): (r: Option<nat>)
    requires i <= |s|
    ensures r.Some? ==> i < r.value <= |s|
  {
    var j := SkipSeparators(s, i, withColon);
    if j == i then None else Some(j)
  }

  /** `\s*k` after position `i`. */
  predicate KiloAt(s: string, i: nat)
    requires i <= |s|
  {
    var j := SkipSpaces(s, i);
    j < |s| && s[j] == 'k'
  }

  /**
   * `^\s*[^\d]*(\d+)\s*[Ss]ets?`, the prefix shared by all five data
   * patterns: the first digit run of the line is the number of sets.
   */
  function SetsPrefix(s: string): (r: Option<(nat, nat)>)
    ensures r.Some? ==> r.value.1 <= |s|
  {
    match Digits(s, SkipNonDigits(s, 0))
    case None => None
    case Some((sets, j)) =>
      match SetsWord(s, SkipSpaces(s, j))
      case None => None
      case Some(k) => Some((sets, k))
  }

  /** `f"{minutes}:{seconds:02d}"`: the minutes in decimal, a colon, and the seconds in decimal with at least two digits. */
  function DurationText(minutes: nat, seconds: nat): (r: string)
    ensures |NatToString(minutes)| + 3 <= |r| && r[|NatToString(minutes)|] == ':'
    ensures forall k :: 0 <= k < |r| && k != |NatToString(minutes)| ==> IsDigit(r[k])
    ensures DigitsValue(r[..|NatToString(minutes)|]) == minutes
    ensures DigitsValue(r[|NatToString(minutes)| + 1..]) == seconds
    ensures seconds < 100 ==> |r| == |NatToString(minutes)| + 3
  {
    var m := NatToString(minutes);
    var sec := Pad2(seconds);
    var r := m + ":" + sec;
    assert forall k :: |m| < k < |r| ==> r[k] == sec[k - |m| - 1];
    assert r[..|m|] == m && r[|m| + 1..] == sec;
    r
  }

  /** `(\d+):(\d+)`: minutes and seconds and the position after them. */
  function Clock(s: string, i: nat): (r: Option<(nat, nat, nat)>)
    requires i <= |s|
    ensures r.Some? ==> i < r.value.2 <= |s|
  {
    match Digits(s, i)
    case None => None
    case Some((minutes, j)) =>
      if j < |s| && s[j] == ':' then
        match Digits(s, j + 1)
        case None => None
        case Some((seconds, k)) => Some((minutes, seconds, k))
      else None
  }

  /** Reading a rendered duration back with `(\d+):(\d+)` gives the minutes and seconds it was made from. */
  lemma DurationTextReadsBack(minutes: nat, seconds: nat)
    ensures Clock(DurationText(minutes, seconds), 0) == Some((minutes, seconds, |DurationText(minutes, seconds)|))
  {
    ClockReadsDigitsColonDigits(DurationText(minutes, seconds), |NatToString(minutes)|);
  }

  /** A digit run, a colon and a digit run that fill the text are read by `(\d+):(\d+)` as their two values. */
  lemma ClockReadsDigitsColonDigits(r: string, m: nat)
    requires 0 < m && m + 1 < |r| && r[m] == ':'
    requires forall k :: 0 <= k < |r| && k != m ==> IsDigit(r[k])
    ensures Clock(r, 0) == Some((DigitsValue(r[..m]), DigitsValue(r[m + 1..]), |r|))
  {
    assert Digits(r, 0) == Some((DigitsValue(r[..m]), m)) by {
      DigitRunEnds(r, 0, m);
      assert r[0..m] == r[..m];
    }
    assert Digits(r, m + 1) == Some((DigitsValue(r[m + 1..]), |r|)) by {
      DigitRunEnds(r, m + 1, |r|);
      assert r[m + 1..|r|] == r[m + 1..];
    }
  }

  /** A run of digits from `i` that ends at `j` is the one `SkipDigits` finds. */
  lemma DigitRunEnds(s: string, i: nat, j: nat)
    requires i <= j <= |s|
    requires forall k :: i <= k < j ==> IsDigit(s[k])
    requires j == |s| || !IsDigit(s[j])
    ensures SkipDigits(s, i) == j
  {
  }

  /** Pattern 1: sets, reps and a weight in kilograms. */
  function SetsRepsWeight(name: string, s: string): Option<ExerciseRecord> {
    match SetsPrefix(s)
    case None => None
    case Some((sets, p)) =>
      match Separators(s, SkipSpaces(s, p), true)
      case None => None
      case Some(q) =>
        match Digits(s, SkipSpaces(s, q))
        case None => None
        case Some((reps, r)) =>
          match RepsWord(s, SkipSpaces(s, r))
          case None => None
          case Some(t) =>
            match Separators(s, SkipSpaces(s, t), true)
            case None => None
            case Some(u) =>
              match Number(s, SkipSpaces(s, u))
              case None => None
              case Some((weight, v)) =>
                if KiloAt(s, v) then Some(ExerciseRecord(name, sets, Some(Count(reps)), Some(weight), None)) else None
  }

  /** Pattern 2: sets and a time. */
  function SetsTime(name: string, s: string): (r: Option<ExerciseRecord>)
    ensures r.Some? && r.value.duration.Some? ==> exists j: nat :: j <= |s| && Clock(s, j).Some? && r.value.duration.value == DurationText(Clock(s, j).value.0, Clock(s, j).value.1)
  {
    match SetsPrefix(s)
    case None => None
    case Some((sets, p)) =>
      match Separators(s, SkipSpaces(s, p), false)
      case None => None
      case Some(q) =>
        match Clock(s, SkipSpaces(s, q))
        case None => None
        case Some((minutes, seconds, _)) =>
          Some(ExerciseRecord(name, sets, None, None, Some(DurationText(minutes, seconds))))
  }

  /** Pattern 3: sets, a time and a weight. */
  function SetsTimeWeight(name: string, s: string): (r: Option<ExerciseRecord>)
    ensures r.Some? && r.value.duration.Some? ==> exists j: nat :: j <= |s| && Clock(s, j).Some? && r.value.duration.value == DurationText(Clock(s, j).value.0, Clock(s, j).value.1)
  {
    match SetsPrefix(s)
    case None => None
    case Some((sets, p)) =>
      var q := SkipSpaces(s, SkipSeparators(s, SkipDotsAndSpaces(s, p), false));
      match Clock(s, q)
      case None => None
      case Some((minutes, seconds, r)) =>
        match Separators(s, SkipSpaces(s, r), false)
        case None => None
        case Some(t) =>
          match Number(s, SkipSpaces(s, t))
          case None => None
          case Some((weight, v)) =>
            if KiloAt(s, v) then Some(ExerciseRecord(name, sets, None, Some(weight), Some(DurationText(minutes, seconds))))
            else None
  }

  /** Pattern 4: sets and reps only. */
  function SetsReps(name: string, s: string): Option<ExerciseRecord> {
    match SetsPrefix(s)
    case None => None
    case Some((sets, p)) =>
      match Separators(s, SkipSpaces(s, p), false)
      case None => None
      case Some(q) =>
        match Digits(s, SkipSpaces(s, q))
        case None => None
        case Some((reps, r)) =>
          if RepsWord(s, SkipSpaces(s, r)).Some? then Some(ExerciseRecord(name, sets, Some(Count(reps)), None, None))
          else None
  }

  /** `[Mm]ax\s*[Ee]ffort` at position `i`. */
  predicate MaxEffortAt(s: string, i: nat)
    requires i <= |s|
  {
    i + 3 <= |s| && (s[i] == 'M' || s[i] == 'm') && s[i + 1] == 'a' && s[i + 2] == 'x'
    && var j := SkipSpaces(s, i + 3);
       j + 6 <= |s| && (s[j] == 'E' || s[j] == 'e') && OccursAt(s, "ffort", j + 1)
  }

  /** Pattern 5: sets and "Max Effort". */
  function SetsMaxEffort(name: string, s: string): Option<ExerciseRecord> {
    match SetsPrefix(s)
    case None => None
    case Some((sets, p)) =>
      match Separators(s, SkipSpaces(s, p), false)
      case None => None
      case Some(q) =>
        if MaxEffortAt(s, SkipSpaces(s, q)) then Some(ExerciseRecord(name, sets, Some(MaxEffort), None, None)) else None
  }

  /** The five record shapes the parser can produce. */
  predicate WellShaped(d: ExerciseRecord) {
    || (d.reps.Some? && d.reps.value.Count? && d.weightKg.Some? && d.duration.None?)
    || (d.reps.None? && d.weightKg.None? && d.duration.Some?)
    || (d.reps.None? && d.weightKg.Some? && d.duration.Some?)
    || (d.reps.Some? && d.reps.value.Count? && d.weightKg.None? && d.duration.None?)
    || (d.reps == Some(MaxEffort) && d.weightKg.None? && d.duration.None?)
  }

  /**
   * The data patterns tried in order; the first that matches fixes the
   * record. Every record carries the exercise name, a set count, a
   * non-negative weight when there is one, and a `minutes:SS` duration
   * when there is one.
   */
  function ParseData(name: string, s: string): (r: Option<ExerciseRecord>)
    ensures r.Some? ==> r.value.exercise == name && WellShaped(r.value)
    ensures r.Some? && r.value.weightKg.Some? ==> r.value.weightKg.value >= 0.0
    ensures r.Some? && r.value.duration.Some? ==> exists m: nat, sec: nat :: r.value.duration.value == DurationText(m, sec)
    ensures r.Some? && r.value.duration.Some? ==> exists j: nat :: j <= |s| && Clock(s, j).Some? && r.value.duration.value == DurationText(Clock(s, j).value.0, Clock(s, j).value.1)
    ensures r.Some? ==> SetsPrefix(s).Some? && r.value.sets == SetsPrefix(s).value.0
  {
    var p1 := SetsRepsWeight(name, s);
    if p1.Some? then p1
    else
      var p2 := SetsTime(name, s);
      if p2.Some? then p2
      else
        var p3 := SetsTimeWeight(name, s);
        if p3.Some? then p3
        else
          var p4 := SetsReps(name, s);
          if p4.Some? then p4 else SetsMaxEffort(name, s)
  }

  // The exercise-name patterns.

  /** `[A-Z][a-z]+` at `q`: the position after the word. */
  function TitleWord(s: string, q: nat): (r: Option<nat>)
    requires q <= |s|
    ensures r.Some? ==> q + 2 <= r.value <= |s| && IsUpper(s[q])
  {
    if q < |s| && IsUpper(s[q]) then
      var e := SkipLowers(s, q + 1);
      if e == q + 1 then None else Some(e)
    else None
  }

  /** `(?:\s+[A-Z][a-z]+)*` after position `p`, greedily: the end of the last word taken. */
  function MoreTitleWords(s: string, p: nat): (e: nat)
    requires p <= |s|
    ensures p <= e <= |s|
    decreases |s| - p
  {
    var w := SkipSpaces(s, p);
    if w == p then p
    else
      match TitleWord(s, w)
      case None => p
      case Some(e) => MoreTitleWords(s, e)
  }

  /** `[A-Z][a-z]+(?:\s+[A-Z][a-z]+)+` at `q`: at least two title-case words. */
  function TitleWordsAt(s: string, q: nat): (r: Option<nat>)
    requires q <= |s|
    ensures r.Some? ==> q < r.value <= |s|
  {
    match TitleWord(s, q)
    case None => None
    case Some(e1) =>
      var e := MoreTitleWords(s, e1);
      if e == e1 then None else Some(e)
  }

  /**
   * `re.search(r'(?:^|[^A-Za-z]+)([A-Z][a-z]+(?:\s+[A-Z][a-z]+)+)', line).group(1)`:
   * the group can only start at the beginning of the line or right after a
   * non-letter, and the leftmost such start wins.
   */
  function FirstTitleWords(s: string, q: nat): (r: Option<string>)
    requires q <= |s|
    ensures r.Some? ==> |r.value| >= 2 && IsUpper(r.value[0])
    decreases |s| - q
  {
    if q >= |s| then None
    else if (q == 0 || !IsLetter(s[q - 1])) && TitleWordsAt(s, q).Some? then
      var _ := TitleWord(s, q);
      Some(s[q..TitleWordsAt(s, q).value])
    else FirstTitleWords(s, q + 1)
  }

  /** `\s+[Uu]p` at `i`, giving the end position. */
  function SpacesThenUp(s: string, i: nat): (r: Option<nat>)
    requires i <= |s|
    ensures r.Some? ==> i < r.value <= |s|
  {
    var w := SkipSpaces(s, i);
    if w > i && w + 2 <= |s| && (s[w] == 'U' || s[w] == 'u') && s[w + 1] == 'p' then Some(w + 2) else None
  }

  /** The three alternatives of the single-word pattern at position `p`, in order. */
  function SingleWordAt(s: string, p: nat): (r: Option<nat>)
    requires p <= |s|
    ensures r.Some? ==> p < r.value <= |s|
  {
    var alt1 :=
      if p < |s| && IsUpper(s[p]) && SkipLowers(s, p + 1) > p + 1 then SpacesThenUp(s, SkipLowers(s, p + 1)) else None;
    var alt2 :=
      if p + 3 <= |s| && (s[p] == 'S' || s[p] == 's') && s[p + 1] == 'i' && s[p + 2] == 't' then SpacesThenUp(s, p + 3) else None;
    var alt3 :=
      if p + 8 <= |s| && (s[p] == 'K' || s[p] == 'k') && OccursAt(s, "neeling", p + 1) then
        var w := SkipSpaces(s, p + 8);
        if w > p + 8 then TitleWord(s, w) else None
      else None;
    if alt1.Some? then alt1 else if alt2.Some? then alt2 else alt3
  }

  /** `re.search(r'([A-Z][a-z]+\s+[Uu]p|[Ss]it\s+[Uu]p|[Kk]neeling\s+[A-Z][a-z]+)', line).group(1)` */
  function FirstSingleWord(s: string, p: nat): (r: Option<string>)
    requires p <= |s|
    decreases |s| - p
  {
    if p >= |s| then None
    else match SingleWordAt(s, p)
      case Some(e) => Some(s[p..e])
      case None => FirstSingleWord(s, p + 1)
  }

  /** The exercise-name search: the title-case pattern, then the single-word pattern. */
  function NameMatch(line: string): Option<string> {
    var m := FirstTitleWords(line, 0);
    if m.Some? then m else FirstSingleWord(line, 0)
  }

  const HeaderLines: seq<string> := ["Start Workout", "Body Targets Log", "Target Muscles", "FOCUS"]
  const SkipKeywords: seq<string> :=
    ["workout", "swap", "exercises", "your gym", "intermediate", "target muscles", "abs glutes", "quadrice", "superset", "rounds", "focus"]

  /** A line that is clearly not an exercise: some skip keyword occurs in its lower-cased text. */
  predicate HasSkipKeyword(line: string) {
    exists k :: 0 <= k < |SkipKeywords| && Contains(Lower(line), SkipKeywords[k])
  }

  /**
   * The exercise name a line offers, before the duplicate check: blank,
   * header and skip-keyword lines offer none; "sit up" in any case becomes
   * "Sit Up"; names of four characters or fewer and the two false positives
   * are rejected.
   */
  function NameCandidate(rawLine: string): (r: Option<string>)
    ensures var line := Strip(rawLine);
      line == [] || line in HeaderLines || HasSkipKeyword(line) ==> r.None?
    ensures r.Some? ==> |r.value| > 4 && r.value != "Body Targets" && r.value != "Start Workout"
    ensures r.Some? && Lower(r.value) == "sit up" ==> r.value == "Sit Up"
  {
    var line := Strip(rawLine);
    if line == [] || line in HeaderLines || HasSkipKeyword(line) then None
    else match NameMatch(line)
      case None => None
      case Some(group) =>
        var stripped := Strip(group);
        var name := if Lower(stripped) == "sit up" then "Sit Up" else stripped;
        if |name| <= 4 || name in ["Body Targets", "Start Workout"] then None
        else Some(name)
  }

  /** Any name containing "jump rope" (ignoring case) is recorded as "Jump Rope". */
  function FinalName(name: string): (r: string)
    ensures Contains(Lower(name), "jump rope") ==> r == "Jump Rope"
    ensures !Contains(Lower(name), "jump rope") ==> r == name
  {
    if Contains(Lower(name), "jump rope") then "Jump Rope" else name
  }

  /** The lookahead from `lines[i + la]`: skip short or digit-free lines, stop at the first data line. */
  function LookaheadFrom(lines: seq<string>, i: nat, la: nat, name: string): (r: Option<ExerciseRecord>)
    requires la <= 2
    ensures r.Some? ==> r.value.exercise == name && WellShaped(r.value)
    decreases 2 - la
  {
    if la == 2 || i + la >= |lines| then None
    else
      var next := Strip(lines[i + la]);
      if |next| < 5 || !HasDigit(next) then LookaheadFrom(lines, i, la + 1, name)
      else
        var d := ParseData(name, next);
        if d.Some? then d else LookaheadFrom(lines, i, la + 1, name)
  }

  function Lookahead(lines: seq<string>, i: nat, name: string): (r: Option<ExerciseRecord>)
    ensures r.Some? ==> r.value.exercise == name && WellShaped(r.value)
  {
    LookaheadFrom(lines, i, 0, name)
  }

  /** A lookahead line worth trying: at least five characters once stripped, and some digit. */
  predicate DataLine(line: string) {
    |Strip(line)| >= 5 && HasDigit(Strip(line))
  }

  /**
   * The lookahead in closed form: the data of the first of the next two
   * lines that is a data line and matches a pattern, else nothing.
   */
  lemma LookaheadCases(lines: seq<string>, i: nat, name: string)
    ensures Lookahead(lines, i, name) ==
      if i < |lines| && DataLine(lines[i]) && ParseData(name, Strip(lines[i])).Some? then ParseData(name, Strip(lines[i]))
      else if i + 1 < |lines| && DataLine(lines[i + 1]) then ParseData(name, Strip(lines[i + 1]))
      else None
  {
  }

  /** The records the loop emits from line `i` on, given the names already seen. */
  function ParseFrom(lines: seq<string>, i: nat, seen: set<string>): seq<ExerciseRecord>
    decreases |lines| - i
  {
    if i >= |lines| then []
    else match NameCandidate(lines[i])
      case None => ParseFrom(lines, i + 1, seen)
      case Some(raw) =>
        var name := FinalName(raw);
        if raw in seen || name in seen then ParseFrom(lines, i + 1, seen)
        else match Lookahead(lines, i + 1, name)
          case None => ParseFrom(lines, i + 1, seen)
          case Some(d) => [d] + ParseFrom(lines, i + 1, seen + {name})
  }

  function Parse(text: string): seq<ExerciseRecord> {
    ParseFrom(Split(text, '\n'), 0, {})
  }

  /** One step of the parse: what line `i` contributes, and the seen set the rest starts from. */
  lemma ParseFromStep(lines: seq<string>, i: nat, seen: set<string>)
    requires i < |lines|
    ensures NameCandidate(lines[i]).None? ==> ParseFrom(lines, i, seen) == ParseFrom(lines, i + 1, seen)
    ensures NameCandidate(lines[i]).Some? ==>
      var raw := NameCandidate(lines[i]).value;
      var name := FinalName(raw);
      ParseFrom(lines, i, seen) ==
        if raw in seen || name in seen || Lookahead(lines, i + 1, name).None? then ParseFrom(lines, i + 1, seen)
        else [Lookahead(lines, i + 1, name).value] + ParseFrom(lines, i + 1, seen + {name})
  {
  }

  predicate FreshNames(out: seq<ExerciseRecord>, seen: set<string>) {
    && (forall k :: 0 <= k < |out| ==> out[k].exercise !in seen)
    && (forall a, b :: 0 <= a < b < |out| ==> out[a].exercise != out[b].exercise)
  }

  /** Records from line `i` on avoid the seen names and never repeat a name. */
  lemma {:induction false} ParseFromFresh(lines: seq<string>, i: nat, seen: set<string>)
    ensures FreshNames(ParseFrom(lines, i, seen), seen)
    decreases |lines| - i
  {
    if i < |lines| {
      ParseFromStep(lines, i, seen);
      var c := NameCandidate(lines[i]);
      if c.None? || c.value in seen || FinalName(c.value) in seen || Lookahead(lines, i + 1, FinalName(c.value)).None? {
        ParseFromFresh(lines, i + 1, seen);
      } else {
        var name := FinalName(c.value);
        var d := Lookahead(lines, i + 1, name).value;
        var rest := ParseFrom(lines, i + 1, seen + {name});
        ParseFromFresh(lines, i + 1, seen + {name});
        assert ParseFrom(lines, i, seen) == [d] + rest;
        assert d.exercise == name;
        FreshCons(d, rest, seen);
      }
    }
  }

  lemma FreshCons(d: ExerciseRecord, rest: seq<ExerciseRecord>, seen: set<string>)
    requires d.exercise !in seen
    requires FreshNames(rest, seen + {d.exercise})
    ensures FreshNames([d] + rest, seen)
  {
    var out := [d] + rest;
    forall a, b | 0 <= a < b < |out|
      ensures out[a].exercise != out[b].exercise
    {
      assert out[b] == rest[b - 1];
      if a > 0 {
        assert out[a] == rest[a - 1];
      }
    }
    forall k | 0 <= k < |out|
      ensures out[k].exercise !in seen
    {
      if k > 0 {
        assert out[k] == rest[k - 1];
      }
    }
  }

  /** No two records of a parse share an exercise name. */
  lemma ParseNoDuplicates(text: string)
    ensures forall a, b :: 0 <= a < b < |Parse(text)| ==> Parse(text)[a].exercise != Parse(text)[b].exercise
  {
    ParseFromFresh(Split(text, '\n'), 0, {});
  }

  /** Record `d` was produced from line `j`: a name line whose lookahead yields exactly `d`. */
  predicate FromLine(lines: seq<string>, j: int, d: ExerciseRecord) {
    0 <= j < |lines| && NameCandidate(lines[j]).Some?
    && d.exercise == FinalName(NameCandidate(lines[j]).value)
    && Lookahead(lines, j + 1, d.exercise) == Some(d)
  }

  ghost predicate FromSomeLine(lines: seq<string>, i: nat, d: ExerciseRecord) {
    exists j :: i <= j && FromLine(lines, j, d)
  }

  ghost predicate AllFromLines(lines: seq<string>, i: nat, out: seq<ExerciseRecord>) {
    forall k :: 0 <= k < |out| ==> FromSomeLine(lines, i, out[k])
  }

  lemma FromLinesCons(lines: seq<string>, i: nat, d: ExerciseRecord, rest: seq<ExerciseRecord>)
    requires FromLine(lines, i, d) && AllFromLines(lines, i + 1, rest)
    ensures AllFromLines(lines, i, [d] + rest)
  {
    var out := [d] + rest;
    forall k | 0 <= k < |out|
      ensures FromSomeLine(lines, i, out[k])
    {
      if k > 0 {
        assert out[k] == rest[k - 1];
        var j :| i + 1 <= j && FromLine(lines, j, rest[k - 1]);
      } else {
        assert i <= i && FromLine(lines, i, out[0]);
      }
    }
  }

  lemma FromLinesWeaken(lines: seq<string>, i: nat, out: seq<ExerciseRecord>)
    requires AllFromLines(lines, i + 1, out)
    ensures AllFromLines(lines, i, out)
  {
    forall k | 0 <= k < |out|
      ensures FromSomeLine(lines, i, out[k])
    {
      var j :| i + 1 <= j && FromLine(lines, j, out[k]);
    }
  }

  /**
   * Every record comes from a line that offers a name, and is the data found
   * by the lookahead right after that line for the (normalised) name.
   */
  lemma {:induction false} ParseFromProvenance(lines: seq<string>, i: nat, seen: set<string>)
    ensures AllFromLines(lines, i, ParseFrom(lines, i, seen))
    decreases |lines| - i
  {
    if i < |lines| {
      ParseFromStep(lines, i, seen);
      var c := NameCandidate(lines[i]);
      if c.None? || c.value in seen || FinalName(c.value) in seen || Lookahead(lines, i + 1, FinalName(c.value)).None? {
        ParseFromProvenance(lines, i + 1, seen);
        FromLinesWeaken(lines, i, ParseFrom(lines, i + 1, seen));
      } else {
        var name := FinalName(c.value);
        var d := Lookahead(lines, i + 1, name).value;
        ParseFromProvenance(lines, i + 1, seen + {name});
        assert FromLine(lines, i, d);
        FromLinesCons(lines, i, d, ParseFrom(lines, i + 1, seen + {name}));
      }
    } else {
      assert ParseFrom(lines, i, seen) == [];
    }
  }

  /**
   * Every record of a parse has one of the five shapes, a set count, and the
   * name offered by some line of the text.
   */
  lemma ParseRecordsFromLines(text: string, k: int)
    requires 0 <= k < |Parse(text)|
    ensures WellShaped(Parse(text)[k])
    ensures exists j :: 0 <= j && FromLine(Split(text, '\n'), j, Parse(text)[k])
  {
    var lines := Split(text, '\n');
    ParseFromProvenance(lines, 0, {});
    assert FromSomeLine(lines, 0, Parse(text)[k]);
    var j :| 0 <= j && FromLine(lines, j, Parse(text)[k]);
  }

  /**
   * A name whose lookahead finds no data is not marked as seen: the parse
   * continues from the next line with the same seen set, so a later
   * occurrence of the same name can still be emitted.
   */
  lemma NameWithoutDataNotSeen(lines: seq<string>, i: nat, seen: set<string>)
    requires i < |lines| && NameCandidate(lines[i]).Some?
    requires Lookahead(lines, i + 1, FinalName(NameCandidate(lines[i]).value)).None?
    ensures ParseFrom(lines, i, seen) == ParseFrom(lines, i + 1, seen)
  {
    ParseFromStep(lines, i, seen);
  }

  /** The per-line steps of the loop: strip, filter, search for a name, normalise and reject. */
  method ExtractExerciseName(rawLine: string) returns (name: Option<string>)
    ensures name == NameCandidate(rawLine)
  {
    var line := Strip(rawLine);
    if line == [] || line in HeaderLines {
      return None;
    }
    if HasSkipKeyword(line) {
      return None;
    }
    var exerciseMatch := FirstTitleWords(line, 0);
    if exerciseMatch.None? {
      exerciseMatch := FirstSingleWord(line, 0);
    }
    if exerciseMatch.None? {
      return None;
    }
    var exerciseName := Strip(exerciseMatch.value);
    if Lower(exerciseName) == "sit up" {
      exerciseName := "Sit Up";
    }
    if |exerciseName| <= 4 || exerciseName in ["Body Targets", "Start Workout"] {
      return None;
    }
    return Some(exerciseName);
  }

  /** The lookahead `for` loop over the next two lines. */
  method FindExerciseData(lines: seq<string>, i: nat, exerciseName: string) returns (exerciseData: Option<ExerciseRecord>)
    ensures exerciseData == Lookahead(lines, i, exerciseName)
  {
    exerciseData := None;
    var lookahead := 0;
    while lookahead < 2
      invariant 0 <= lookahead <= 2
      invariant exerciseData.None?
      invariant Lookahead(lines, i, exerciseName) == LookaheadFrom(lines, i, lookahead, exerciseName)
      decreases 2 - lookahead
    {
      if i + lookahead >= |lines| {
        break;
      }
      var nextLine := Strip(lines[i + lookahead]);
      if |nextLine| < 5 || !HasDigit(nextLine) {
        assert LookaheadFrom(lines, i, lookahead, exerciseName) == LookaheadFrom(lines, i, lookahead + 1, exerciseName);
        lookahead := lookahead + 1;
        continue;
      }
      var data := ParseData(exerciseName, nextLine);
      assert LookaheadFrom(lines, i, lookahead, exerciseName)
        == if data.Some? then data else LookaheadFrom(lines, i, lookahead + 1, exerciseName);
      if data.Some? {
        return data;
      }
      lookahead := lookahead + 1;
    }
  }

  /** A typical data line of a Fitbod workout screen. */
  const SampleDataLine := "3 sets x 10 reps x 20 kg"
  lemma PrefixExample()
    ensures SetsPrefix(SampleDataLine) == Some((3, 6))
  {
    var s := SampleDataLine;
    assert s[0] == '3' && s[1] == ' ' && s[2] == 's' && s[3] == 'e' && s[4] == 't' && s[5] == 's' && s[6] == ' ';
    assert SkipNonDigits(s, 0) == 0;
    assert SkipDigits(s, 1) == 1;
    assert SkipDigits(s, 0) == 1;
    assert s[0..1] == "3";
    assert DigitsValue("3") == 3 by { assert "3"[..0] == []; }
    assert SkipSpaces(s, 2) == 2;
    assert SkipSpaces(s, 1) == 2;
  }
  lemma RepsExample()
    ensures Separators(SampleDataLine, SkipSpaces(SampleDataLine, 6), true) == Some(8)
    ensures Digits(SampleDataLine, SkipSpaces(SampleDataLine, 8)) == Some((10, 11))
  {
    var s := SampleDataLine;
    assert s[6] == ' ' && s[7] == 'x' && s[8] == ' ' && s[9] == '1' && s[10] == '0' && s[11] == ' ';
    assert SkipSpaces(s, 7) == 7;
    assert SkipSpaces(s, 6) == 7;
    assert SkipSeparators(s, 8, true) == 8;
    assert SkipSeparators(s, 7, true) == 8;
    assert SkipSpaces(s, 9) == 9;
    assert SkipSpaces(s, 8) == 9;
    assert SkipDigits(s, 11) == 11;
    assert SkipDigits(s, 10) == 11;
    assert SkipDigits(s, 9) == 11;
    assert s[9..11] == "10";
    assert DigitsValue("10") == 10 by { assert "10"[..1] == "1"; assert "1"[..0] == []; }
  }
  lemma WeightExample()
    ensures RepsWord(SampleDataLine, SkipSpaces(SampleDataLine, 11)) == Some(16)
    ensures Separators(SampleDataLine, SkipSpaces(SampleDataLine, 16), true) == Some(18)
  {
    var s := SampleDataLine;
    assert s[11] == ' ' && s[12] == 'r' && s[13] == 'e' && s[14] == 'p' && s[15] == 's' && s[16] == ' ' && s[17] == 'x' && s[18] == ' ';
    assert SkipSpaces(s, 12) == 12;
    assert SkipSpaces(s, 11) == 12;
    assert SkipSpaces(s, 17) == 17;
    assert SkipSpaces(s, 16) == 17;
    assert SkipSeparators(s, 18, true) == 18;
    assert SkipSeparators(s, 17, true) == 18;
  }
  lemma KiloExample()
    ensures Number(SampleDataLine, SkipSpaces(SampleDataLine, 18)) == Some((20.0, 21))
    ensures KiloAt(SampleDataLine, 21)
  {
    var s := SampleDataLine;
    assert s[18] == ' ' && s[19] == '2' && s[20] == '0' && s[21] == ' ' && s[22] == 'k';
    assert SkipSpaces(s, 19) == 19;
    assert SkipSpaces(s, 18) == 19;
    assert SkipDigits(s, 21) == 21;
    assert SkipDigits(s, 20) == 21;
    assert SkipDigits(s, 19) == 21;
    assert s[19..21] == "20";
    assert DigitsValue("20") == 20 by { assert "20"[..1] == "2"; assert "2"[..0] == []; }
    assert SkipSpaces(s, 22) == 22;
    assert SkipSpaces(s, 21) == 22;
  }
  lemma DataSampleDataLineExample()
    ensures ParseData("Goblet Squat", SampleDataLine) == Some(ExerciseRecord("Goblet Squat", 3, Some(Count(10)), Some(20.0), None))
  {
    PrefixExample();
    RepsExample();
    WeightExample();
    KiloExample();
  }

  const SampleNameLine := "Goblet Squat"

  /** The title-case pattern takes both words of the sample name. */
  lemma NameLineExample()
    ensures NameMatch(SampleNameLine) == Some(SampleNameLine)
  {
    var s := SampleNameLine;
    assert s[0] == 'G' && s[6] == ' ' && s[7] == 'S' && |s| == 12;
    assert forall k :: 1 <= k < 6 ==> IsLower(s[k]);
    assert forall k :: 8 <= k < 12 ==> IsLower(s[k]);
    assert SkipLowers(s, 6) == 6;
    assert SkipLowers(s, 5) == 6 && SkipLowers(s, 4) == 6 && SkipLowers(s, 3) == 6 && SkipLowers(s, 2) == 6 && SkipLowers(s, 1) == 6;
    assert TitleWord(s, 0) == Some(6);
    assert SkipLowers(s, 12) == 12;
    assert SkipLowers(s, 11) == 12 && SkipLowers(s, 10) == 12 && SkipLowers(s, 9) == 12 && SkipLowers(s, 8) == 12;
    assert TitleWord(s, 7) == Some(12);
    assert SkipSpaces(s, 7) == 7 && SkipSpaces(s, 6) == 7 && SkipSpaces(s, 12) == 12;
    assert MoreTitleWords(s, 12) == 12;
    assert MoreTitleWords(s, 6) == 12;
    assert TitleWordsAt(s, 0) == Some(12);
    assert s[0..12] == s;
  }

  /** The body of the line loop of `parse_extracted_text_advanced`: what line `i` adds, and the names seen after it. */
  method ParseLine(lines: seq<string>, i: nat, seen: set<string>) returns (added: seq<ExerciseRecord>, seenAfter: set<string>)
    requires i < |lines|
    ensures added + ParseFrom(lines, i + 1, seenAfter) == ParseFrom(lines, i, seen)
  {
    ParseFromStep(lines, i, seen);
    added, seenAfter := [], seen;
    var candidate := ExtractExerciseName(lines[i]);
    if candidate.None? {
      return;
    }
    var exerciseName := candidate.value;
    if exerciseName in seen {
      return;
    }
    if Contains(Lower(exerciseName), "jump rope") {
      exerciseName := "Jump Rope";
      if exerciseName in seen {
        return;
      }
    }
    assert exerciseName == FinalName(candidate.value);
    var exerciseData := FindExerciseData(lines, i + 1, exerciseName);
    if exerciseData.Some? {
      added, seenAfter := [exerciseData.value], seen + {exerciseName};
    }
  }

  /** `parse_extracted_text_advanced` */
  method ParseExtractedTextAdvanced(text: string) returns (exercises: seq<ExerciseRecord>)
    ensures exercises == Parse(text)
    ensures forall a, b :: 0 <= a < b < |exercises| ==> exercises[a].exercise != exercises[b].exercise
  {
    exercises := [];
    var seen: set<string> := {};
    var lines := Split(text, '\n');
    var i := 0;
    while i < |lines|
      invariant 0 <= i <= |lines|
      invariant exercises + ParseFrom(lines, i, seen) == Parse(text)
      decreases |lines| - i
    {
      var added;
      added, seen := ParseLine(lines, i, seen);
      exercises := exercises + added;
      i := i + 1;
    }
    ParseNoDuplicates(text);
  }
}
