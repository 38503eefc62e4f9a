/** Field normalisation of race results (Results.p_p) and of the horses'
    running histories (the first half of Results.merge), one row at a time. */
module Fields {
  import opened Text

  /** Calendar month of a date; parsing the date text is not modelled. */
  type Month = m: int | 1 <= m <= 12 witness 1

  /** Number of runners in a race. */
  type FieldSize = n: int | n >= 1 witness 1

  // ---------------------------------------------------------------------
  // Race results (one runner of one race)
  // ---------------------------------------------------------------------

  /** A result row as scraped: the columns that later stages read. */
  datatype RawEntry = RawEntry(
    horseId: string,
    raceId: string,
    date: int,          // day number
    month: Month,
    sexAge: string,     // 性齢, e.g. "牡3"
    finish: string,     // 着順, e.g. "1" or "中止"
    courseLen: int,     // course_len in metres
    venue: string,      // 競馬場 code, e.g. "05"
    raceType: string,   // race_type, e.g. "芝" or "ダート"
    gate: int,          // 馬番
    jockeyId: string,
    trainerId: string)

  /** A result row after Results.p_p. */
  datatype Entry = Entry(
    horseId: string,
    raceId: string,
    date: int,
    month: Month,
    season: string,     // 季節
    sex: char,
    age: nat,           // 年齢
    finish: Option<nat>,
    courseLen: nat,
    venue: string,
    raceType: string,
    gate: int,
    jockeyId: string,
    trainerId: string)

  /** The four season names, indexed from winter. */
  const SeasonNames: seq<string> := ["冬", "春", "夏", "秋"]

  /** `month_dict`: 3-5 spring, 6-8 summer, 9-11 autumn, 12-2 winter. */
  function Season(m: Month): (r: string)
    ensures r == SeasonNames[(m % 12) / 3]
    ensures |r| == 1
  {
    match m
    case 3 => "春" case 4 => "春" case 5 => "春"
    case 6 => "夏" case 7 => "夏" case 8 => "夏"
    case 9 => "秋" case 10 => "秋" case 11 => "秋"
    case 12 => "冬" case 1 => "冬" case 2 => "冬"
  }

  /** The four seasons are pairwise different single characters. */
  lemma {:induction false} SeasonsDistinct(m1: Month, m2: Month)
    ensures Season(m1) == Season(m2) <==> (m1 % 12) / 3 == (m2 % 12) / 3
  {
    var i, j := (m1 % 12) / 3, (m2 % 12) / 3;
    if i != j {
      assert SeasonNames[i][0] != SeasonNames[j][0];
    }
  }

  /** The distance correction of Results.p_p: a course length under 1000 m
      is a two-lap stayers' race recorded per lap and becomes 3600. */
  function CourseLength(len: int): (r: nat)
    ensures r >= 1000
    ensures len >= 1000 ==> r == len
    ensures len < 1000 ==> r == 3600
  {
    if len < 1000 then 3600 else len
  }

  /** The correction leaves a corrected length alone, so converting a table
      twice changes no course length. */
  lemma CourseLengthIdempotent(len: int)
    ensures CourseLength(CourseLength(len)) == CourseLength(len)
  {
  }

  /** Sex and age from 性齢: the first character and the integer after it.
      None where Python raises (empty text, or a non-integer age). */
  function SexAge(s: string): (r: Option<(char, nat)>)
    ensures r.Some? <==> |s| >= 2 && AllDigits(s[1..])
    ensures r.Some? ==> s == [r.value.0] + s[1..] && ParseNat(s[1..]) == Some(r.value.1)
  {
    if |s| == 0 then None
    else
      match ParseNat(s[1..])
      case None => None
      case Some(age) => Some((s[0], age))
  }

  /** Results.p_p for one row. */
  function NormaliseEntry(raw: RawEntry): (r: Outcome<Entry>)
    ensures r.Ok? <==> SexAge(raw.sexAge).Some?
    ensures r.Ok? ==>
      && r.value.courseLen == CourseLength(raw.courseLen)
      && r.value.season == Season(raw.month)
      && r.value.finish == ParseNat(raw.finish)
      && r.value.horseId == raw.horseId && r.value.date == raw.date
    ensures r.Ok? ==> (r.value.sex, r.value.age) == SexAge(raw.sexAge).value
    ensures r.Ok? ==>
      && r.value.raceId == raw.raceId && r.value.month == raw.month
      && r.value.venue == raw.venue && r.value.raceType == raw.raceType && r.value.gate == raw.gate
      && r.value.jockeyId == raw.jockeyId && r.value.trainerId == raw.trainerId
  {
    match SexAge(raw.sexAge)
    case None => Raises
    case Some(sa) =>
      Ok(Entry(raw.horseId, raw.raceId, raw.date, raw.month, Season(raw.month), sa.0, sa.1,
               ParseNat(raw.finish), CourseLength(raw.courseLen), raw.venue, raw.raceType,
               raw.gate, raw.jockeyId, raw.trainerId))
  }

  /** 性齢 written as the sex followed by the printed age reads back as that
      sex and age. */
  lemma SexAgeRoundTrip(sex: char, age: nat)
    ensures SexAge([sex] + NatToString(age)) == Some((sex, age))
  {
    ParsePrinted(age);
    assert ([sex] + NatToString(age))[1..] == NatToString(age);
  }

  /** A race row whose 性齢 is a sex and a printed age converts, and the
      converted row carries that sex and age. */
  lemma NormaliseEntryReadsSexAge(raw: RawEntry, sex: char, age: nat)
    requires raw.sexAge == [sex] + NatToString(age)
    ensures NormaliseEntry(raw).Ok?
    ensures NormaliseEntry(raw).value.sex == sex && NormaliseEntry(raw).value.age == age
  {
    SexAgeRoundTrip(sex, age);
  }

  // ---------------------------------------------------------------------
  // Running histories (one past race of one horse)
  // ---------------------------------------------------------------------

  /** A running-history row as scraped. */
  datatype RawHistoryRow = RawHistoryRow(
    horseId: string,
    date: int,                 // 日付, as a day number
    month: Month,
    distanceText: string,      // 距離, e.g. "芝1600" / "ダ1200"
    finish: string,            // 着順
    fieldSize: FieldSize,      // 頭数
    bodyWeight: Option<string>,// 馬体重, e.g. "480(+2)"
    meeting: string,           // 開催, e.g. "1東京8"
    passing: Option<string>,   // 通過, e.g. "3-3-2-1"
    jockeyId: string,
    gate: Option<int>,         // 馬番
    popularity: Option<int>,   // 人気
    margin: Option<int>)       // 着差 in tenths of a second

  /** A running-history row after the conversions of Results.merge. */
  datatype HistoryRow = HistoryRow(
    horseId: string,
    date: int,
    season: string,
    distance: nat,
    finish: Option<nat>,
    relFinish: Option<real>,   // 実質着順
    raceType: Option<string>,
    weight: Option<nat>,       // 体重
    venue: Option<string>,     // 競馬場 code
    firstCorner: Option<nat>,
    jockeyId: string,
    gate: Option<int>,
    popularity: Option<int>,
    margin: Option<int>)

  /** `race_type_dict` applied to the first character of 距離: only dirt and
      jumps are listed, so a turf race gets a missing race type. */
  function HistoryRaceType(distanceText: string): (r: Option<string>)
    ensures r == Some("ダート") <==> |distanceText| > 0 && distanceText[0] == 'ダ'
    ensures r == Some("障害") <==> |distanceText| > 0 && distanceText[0] == '障'
    ensures r.Some? ==> r == Some("ダート") || r == Some("障害")
  {
    if |distanceText| == 0 then None
    else if distanceText[0] == 'ダ' then Some("ダート")
    else if distanceText[0] == '障' then Some("障害")
    else None
  }

  /** A turf race in a running history has no race type. */
  lemma TurfHistoryHasNoRaceType(distanceText: string)
    requires |distanceText| > 0 && distanceText[0] == '芝'
    ensures HistoryRaceType(distanceText).None?
  {
  }

  /** 距離 without its surface character, as an integer (None: int() raises). */
  function HistoryDistance(distanceText: string): (r: Option<nat>)
    ensures r.Some? <==> |distanceText| >= 2 && AllDigits(distanceText[1..])
    ensures r.Some? ==> ParseNat(Slice(distanceText, 1, |distanceText|)) == r
  {
    var rest := Slice(distanceText, 1, |distanceText|);
    assert |distanceText| >= 1 ==> rest == distanceText[1..];
    ParseNat(rest)
  }

  /** `keibajo_dict`: the ten JRA racecourses and their codes. */
  const VenueTable: seq<(string, string)> := [
    ("函館", "01"), ("札幌", "02"), ("福島", "03"), ("新潟", "04"), ("東京", "05"),
    ("中山", "06"), ("中京", "07"), ("京都", "08"), ("阪神", "09"), ("小倉", "10")]

  /** `keibajo_list`: the codes Results.merge keeps. */
  const JraCodes: seq<string> := ["01", "02", "03", "04", "05", "06", "07", "08", "09", "10"]

  function Lookup(table: seq<(string, string)>, key: string): (r: Option<string>)
    ensures r.Some? ==> (key, r.value) in table
    ensures r.None? ==> forall k :: 0 <= k < |table| ==> table[k].0 != key
  {
    if |table| == 0 then None
    else if table[0].0 == key then Some(table[0].1)
    else Lookup(table[1..], key)
  }

  /** The venue code from characters 1..3 of 開催 (None: not a JRA course). */
  function VenueCode(meeting: string): (r: Option<string>)
    ensures r.Some? ==> r.value in JraCodes
    ensures r.None? ==> forall k :: 0 <= k < |VenueTable| ==> VenueTable[k].0 != Slice(meeting, 1, 3)
  {
    Lookup(VenueTable, Slice(meeting, 1, 3))
  }

  /** Each racecourse name in 開催 gives its own code: e.g. "1東京8" is "05". */
  lemma {:induction false} VenueCodeOfName(round: char, k: nat, day: string)
    requires k < |VenueTable|
    ensures VenueCode([round] + VenueTable[k].0 + day) == Some(VenueTable[k].1)
  {
    var m := [round] + VenueTable[k].0 + day;
    assert Slice(m, 1, 3) == VenueTable[k].0;
    LookupFindsFirst(VenueTable, k);
  }

  lemma {:induction false} LookupFindsFirst(table: seq<(string, string)>, k: nat)
    requires k < |table|
    requires forall i, j :: 0 <= i < j < |table| ==> table[i].0 != table[j].0
    ensures Lookup(table, table[k].0) == Some(table[k].1)
  {
    if k > 0 {
      LookupFindsFirst(table[1..], k - 1);
    }
  }

  /** `corner(x, 1)`: a missing 通過 stays missing, otherwise the first run of
      digits as an integer; a text without digits makes Python raise. */
  function FirstCorner(passing: Option<string>): (r: Outcome<Option<nat>>)
    ensures passing.None? ==> r == Ok(None)
    ensures passing.Some? ==> (r.Raises? <==> AllNonDigits(passing.value))
    ensures passing.Some? && r.Ok? ==>
      r.value.Some? && r.value == ParseNat(FirstDigitRun(passing.value).value)
  {
    match passing
    case None => Ok(None)
    case Some(s) =>
      match FirstDigitRun(s)
      case None => Raises
      case Some(run) => Ok(ParseNat(run))
  }

  /** 体重: the text of 馬体重 before "(", converted with errors="coerce". */
  function BodyWeight(w: Option<string>): (r: Option<nat>)
    ensures r.Some? ==> w.Some? && ParseNat(TextBefore(w.value, '(')) == r
    ensures w.Some? && |TextBefore(w.value, '(')| > 0 && AllDigits(TextBefore(w.value, '(')) ==> r.Some?
  {
    match w
    case None => None
    case Some(s) => ParseNat(TextBefore(s, '('))
  }

  /** 実質着順 = 1 - 着順 / 頭数 (missing when 着順 is). */
  function RelativeFinish(finish: Option<nat>, n: FieldSize): (r: Option<real>)
    ensures r.Some? <==> finish.Some?
    ensures r.Some? ==> r.value * (n as real) == (n - finish.value) as real
    ensures r.Some? && 1 <= finish.value <= n ==> 0.0 <= r.value < 1.0
  {
    match finish
    case None => None
    case Some(f) => Some(1.0 - (f as real) / (n as real))
  }

  /** A better placing in a race of the same size gives a larger 実質着順. */
  lemma RelativeFinishMonotone(f1: nat, f2: nat, n: FieldSize)
    requires f1 < f2
    ensures RelativeFinish(Some(f1), n).value > RelativeFinish(Some(f2), n).value
  {
    var nr := n as real;
    var r1, r2 := RelativeFinish(Some(f1), n).value, RelativeFinish(Some(f2), n).value;
    assert r1 - r2 == (f2 as real) / nr - (f1 as real) / nr;
    assert r1 - r2 == ((f2 - f1) as real) / nr;
  }

  /** The conversions of Results.merge for one history row; Raises where
      `astype(int)` or `corner` would raise. */
  function NormaliseHistoryRow(raw: RawHistoryRow): (r: Outcome<HistoryRow>)
    ensures r.Ok? <==> HistoryDistance(raw.distanceText).Some? && FirstCorner(raw.passing).Ok?
    ensures r.Ok? ==>
      && r.value.horseId == raw.horseId && r.value.date == raw.date
      && r.value.season == Season(raw.month)
      && r.value.distance == HistoryDistance(raw.distanceText).value
      && r.value.finish == ParseNat(raw.finish)
      && r.value.relFinish == RelativeFinish(ParseNat(raw.finish), raw.fieldSize)
      && r.value.raceType == HistoryRaceType(raw.distanceText)
      && r.value.venue == VenueCode(raw.meeting)
      && r.value.firstCorner == FirstCorner(raw.passing).value
    ensures r.Ok? ==>
      && r.value.weight == BodyWeight(raw.bodyWeight)
      && r.value.jockeyId == raw.jockeyId && r.value.gate == raw.gate
      && r.value.popularity == raw.popularity && r.value.margin == raw.margin
  {
    match HistoryDistance(raw.distanceText)
    case None => Raises
    case Some(d) =>
      match FirstCorner(raw.passing)
      case Raises => Raises
      case Ok(corner) =>
        var finish := ParseNat(raw.finish);
        Ok(HistoryRow(raw.horseId, raw.date, Season(raw.month), d, finish,
                      RelativeFinish(finish, raw.fieldSize), HistoryRaceType(raw.distanceText),
                      BodyWeight(raw.bodyWeight), VenueCode(raw.meeting), corner, raw.jockeyId,
                      raw.gate, raw.popularity, raw.margin))
  }
}
