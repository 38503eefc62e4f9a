/** Results.merge: for every runner, the features taken from the horse's own
    running history, using only races run strictly before the race date. */
module LookBack {
  import opened Text
  import opened Fields

  /** One runner of the merged table: the race entry and its look-back columns. */
  datatype MergedRow = MergedRow(
    entry: Entry,
    runs: Option<nat>,                // 出走回数
    seasons: Option<string>,          // 実績季節
    jockeys: Option<string>,          // 実績騎手
    prev1: Option<HistoryRow>,        // the *_1走前 columns
    prev2: Option<HistoryRow>,        // the *_2走前 columns
    prev3: Option<HistoryRow>,        // the *_3走前 columns
    distChangePrevPrev: Option<int>,  // 前々走距離変化
    distChangePrev: Option<int>,      // 前走距離変化
    distChangeNow: Option<int>,       // 今回距離変化
    intervalPrevPrev: Option<int>,    // 前々走間隔 (days)
    intervalPrev: Option<int>,        // 前走間隔 (days)
    intervalNow: Option<int>)         // 今回間隔 (days)

  // ---------------------------------------------------------------------
  // Row selections, each keeping the input order
  // ---------------------------------------------------------------------

  /** `a` is `b` with some rows removed, the rest in their original order. */
  predicate IsSubsequence(a: seq<HistoryRow>, b: seq<HistoryRow>)
    decreases |b|
  {
    |a| == 0 || (|b| > 0 && if a[0] == b[0] then IsSubsequence(a[1..], b[1..]) else IsSubsequence(a, b[1..]))
  }

  /** One step of a row selection: the first row is kept or dropped, and the
      selection of the remaining rows follows. A dropped row is never equal
      to a kept one. */
  lemma SelectionStep(hr: seq<HistoryRow>, rest: seq<HistoryRow>, keep: bool)
    requires |hr| > 0 && IsSubsequence(rest, hr[1..])
    requires !keep ==> hr[0] !in rest
    ensures IsSubsequence((if keep then [hr[0]] else []) + rest, hr)
    ensures multiset((if keep then [hr[0]] else []) + rest)
      == (if keep then multiset{hr[0]} else multiset{}) + multiset(rest)
    ensures multiset(hr) == multiset{hr[0]} + multiset(hr[1..])
  {
    var r := (if keep then [hr[0]] else []) + rest;
    assert hr == [hr[0]] + hr[1..];
    if keep {
      assert r[0] == hr[0] && r[1..] == rest;
    } else {
      assert r == rest;
    }
  }

  /** `hr.query('date < @date')`. */
  function Earlier(hr: seq<HistoryRow>, date: int): (r: seq<HistoryRow>)
    ensures |r| <= |hr|
    ensures forall x :: x in r <==> x in hr && x.date < date
  {
    if |hr| == 0 then []
    else (if hr[0].date < date then [hr[0]] else []) + Earlier(hr[1..], date)
  }

  /** The group of one horse in `groupby("horse_id")`. */
  function OfHorse(hr: seq<HistoryRow>, horse: string): (r: seq<HistoryRow>)
    ensures |r| <= |hr|
    ensures forall x :: x in r <==> x in hr && x.horseId == horse
  {
    if |hr| == 0 then []
    else (if hr[0].horseId == horse then [hr[0]] else []) + OfHorse(hr[1..], horse)
  }

  /** The row is at one of the ten JRA racecourses. */
  predicate AtJraVenue(x: HistoryRow) {
    x.venue.Some? && x.venue.value in JraCodes
  }

  /** `filtered_hr.loc[filtered_hr.競馬場.isin(keibajo_list)]`. */
  function AtJra(hr: seq<HistoryRow>): (r: seq<HistoryRow>)
    ensures |r| <= |hr|
    ensures forall x :: x in r <==> x in hr && AtJraVenue(x)
  {
    if |hr| == 0 then []
    else (if AtJraVenue(hr[0]) then [hr[0]] else []) + AtJra(hr[1..])
  }

  /** The row finished first or second. */
  predicate FinishedTopTwo(x: HistoryRow) {
    x.finish == Some(1) || x.finish == Some(2)
  }

  /** `query('着順==1 or 着順==2')`. */
  function TopTwo(hr: seq<HistoryRow>): (r: seq<HistoryRow>)
    ensures |r| <= |hr|
    ensures forall x :: x in r <==> x in hr && FinishedTopTwo(x)
  {
    if |hr| == 0 then []
    else (if FinishedTopTwo(hr[0]) then [hr[0]] else []) + TopTwo(hr[1..])
  }

  /** `Earlier` keeps exactly the rows dated before `date`, each as often as it
      occurs, in their order. */
  lemma {:induction false} EarlierExact(hr: seq<HistoryRow>, date: int)
    ensures forall x :: multiset(Earlier(hr, date))[x] == if x.date < date then multiset(hr)[x] else 0
    ensures IsSubsequence(Earlier(hr, date), hr)
  {
    if |hr| > 0 {
      EarlierExact(hr[1..], date);
      SelectionStep(hr, Earlier(hr[1..], date), hr[0].date < date);
    }
  }

  /** `OfHorse` keeps exactly the rows of the horse, each as often as it
      occurs, in their order. */
  lemma {:induction false} OfHorseExact(hr: seq<HistoryRow>, horse: string)
    ensures forall x :: multiset(OfHorse(hr, horse))[x] == if x.horseId == horse then multiset(hr)[x] else 0
    ensures IsSubsequence(OfHorse(hr, horse), hr)
  {
    if |hr| > 0 {
      OfHorseExact(hr[1..], horse);
      SelectionStep(hr, OfHorse(hr[1..], horse), hr[0].horseId == horse);
    }
  }

  /** `AtJra` keeps exactly the rows at a JRA racecourse, each as often as it
      occurs, in their order. */
  lemma {:induction false} AtJraExact(hr: seq<HistoryRow>)
    ensures forall x :: multiset(AtJra(hr))[x] == if AtJraVenue(x) then multiset(hr)[x] else 0
    ensures IsSubsequence(AtJra(hr), hr)
  {
    if |hr| > 0 {
      AtJraExact(hr[1..]);
      SelectionStep(hr, AtJra(hr[1..]), AtJraVenue(hr[0]));
    }
  }

  /** `TopTwo` keeps exactly the rows that finished first or second, each as often as it
      occurs, in their order. */
  lemma {:induction false} TopTwoExact(hr: seq<HistoryRow>)
    ensures forall x :: multiset(TopTwo(hr))[x] == if FinishedTopTwo(x) then multiset(hr)[x] else 0
    ensures IsSubsequence(TopTwo(hr), hr)
  {
    if |hr| > 0 {
      TopTwoExact(hr[1..]);
      SelectionStep(hr, TopTwo(hr[1..]), FinishedTopTwo(hr[0]));
    }
  }

  /** `groupby(...)["季節"].sum()`: the seasons joined in order. */
  function SeasonsOf(hr: seq<HistoryRow>): string {
    if |hr| == 0 then "" else hr[0].season + SeasonsOf(hr[1..])
  }

  /** `groupby(...)["jockey_id"].sum()`: the jockey ids joined in order. */
  function JockeysOf(hr: seq<HistoryRow>): string {
    if |hr| == 0 then "" else hr[0].jockeyId + JockeysOf(hr[1..])
  }

  /** A left merge of a per-horse sum: missing when the horse has no row. */
  function SumOrMissing(rows: seq<HistoryRow>, joined: string): Option<string> {
    if |rows| == 0 then None else Some(joined)
  }

  /** `groupby("horse_id").nth(k)` after a left merge. */
  function Nth(rows: seq<HistoryRow>, k: nat): (r: Option<HistoryRow>)
    ensures r.Some? <==> k < |rows|
    ensures r.Some? ==> r.value == rows[k] && r.value in rows
  {
    if k < |rows| then Some(rows[k]) else None
  }

  /** Column difference; missing when either side is. */
  function Minus(a: Option<int>, b: Option<int>): (r: Option<int>)
    ensures r.Some? <==> a.Some? && b.Some?
    ensures r.Some? ==> r.value + b.value == a.value
  {
    if a.Some? && b.Some? then Some(a.value - b.value) else None
  }

  function DateOf(x: Option<HistoryRow>): Option<int> {
    if x.Some? then Some(x.value.date) else None
  }

  function DistanceOf(x: Option<HistoryRow>): Option<int> {
    if x.Some? then Some(x.value.distance as int) else None
  }

  // ---------------------------------------------------------------------
  // The look-back features of one runner
  // ---------------------------------------------------------------------

  /** The horse's earlier runs, at any venue. */
  function PriorRuns(e: Entry, hr: seq<HistoryRow>): seq<HistoryRow> {
    OfHorse(Earlier(hr, e.date), e.horseId)
  }

  /** An earlier run of the entry's horse at a JRA racecourse. */
  predicate PriorJraRun(e: Entry, x: HistoryRow) {
    x.horseId == e.horseId && x.date < e.date && AtJraVenue(x)
  }

  /** The horse's group of `filtered_hr` after the venue filter: its earlier
      JRA runs, in table order. */
  function PriorJraRuns(e: Entry, hr: seq<HistoryRow>): (r: seq<HistoryRow>)
    ensures |r| <= |PriorRuns(e, hr)| <= |hr|
    ensures forall x :: x in r <==> x in hr && PriorJraRun(e, x)
  {
    AtJra(PriorRuns(e, hr))
  }

  /** The look-back columns of Results.merge for one runner: 出走回数 counts
      the horse's earlier runs at every venue, while the previous-run columns
      and the 実績 strings use only its earlier runs at JRA racecourses; the
      k-th previous run is `nth(k - 1)` of those runs in table order. */
  function Features(e: Entry, hr: seq<HistoryRow>): (m: MergedRow)
    ensures m.entry == e
    ensures m.runs.None? <==> forall x :: x in hr ==> !(x.horseId == e.horseId && x.date < e.date)
    ensures m.runs.Some? ==> m.runs.value == |PriorRuns(e, hr)|
    ensures m.prev1 == Nth(PriorJraRuns(e, hr), 0)
    ensures m.prev2 == Nth(PriorJraRuns(e, hr), 1)
    ensures m.prev3 == Nth(PriorJraRuns(e, hr), 2)
    ensures forall x :: x in [m.prev1, m.prev2, m.prev3] && x.Some? ==> x.value in hr && PriorJraRun(e, x.value)
    ensures m.prev3.Some? ==> m.prev2.Some? && m.runs.Some? && m.runs.value >= 3
    ensures m.prev2.Some? ==> m.prev1.Some?
    ensures m.seasons.Some? || m.jockeys.Some? ==> m.prev1.Some?
    ensures m.distChangePrevPrev == Minus(DistanceOf(m.prev3), DistanceOf(m.prev2))
    ensures m.distChangePrev == Minus(DistanceOf(m.prev2), DistanceOf(m.prev1))
    ensures m.distChangeNow == Minus(DistanceOf(m.prev1), Some(e.courseLen as int))
    ensures m.intervalPrevPrev == Minus(DateOf(m.prev2), DateOf(m.prev3))
    ensures m.intervalPrev == Minus(DateOf(m.prev1), DateOf(m.prev2))
    ensures m.intervalNow == Minus(Some(e.date), DateOf(m.prev1))
    ensures m.intervalNow.Some? ==> m.intervalNow.value > 0
  {
    var before := PriorRuns(e, hr);
    var jra := PriorJraRuns(e, hr);
    var top := TopTwo(jra);
    var p1, p2, p3 := Nth(jra, 0), Nth(jra, 1), Nth(jra, 2);
    assert |before| == 0 ==> forall x :: x in hr ==> !(x.horseId == e.horseId && x.date < e.date) by {
      forall x | x in hr && x.horseId == e.horseId && x.date < e.date ensures x in before {
      }
    }
    assert |top| > 0 ==> top[0] in jra;
    MergedRow(
      e,
      if |before| == 0 then None else Some(|before|),
      SumOrMissing(top, SeasonsOf(top)),
      SumOrMissing(top, JockeysOf(top)),
      p1, p2, p3,
      Minus(DistanceOf(p3), DistanceOf(p2)),
      Minus(DistanceOf(p2), DistanceOf(p1)),
      Minus(DistanceOf(p1), Some(e.courseLen as int)),
      Minus(DateOf(p2), DateOf(p3)),
      Minus(DateOf(p1), DateOf(p2)),
      Minus(Some(e.date), DateOf(p1)))
  }

  /** The 実績 columns as `Features` builds them from the horse's earlier JRA
      top-two runs. */
  lemma JoinedColumns(e: Entry, hr: seq<HistoryRow>)
    ensures var won := TopTwo(PriorJraRuns(e, hr));
      && Features(e, hr).seasons == SumOrMissing(won, SeasonsOf(won))
      && Features(e, hr).jockeys == SumOrMissing(won, JockeysOf(won))
  {
  }

  /** 実績季節 and 実績騎手 are present exactly when the horse finished first or
      second in an earlier JRA race; 実績騎手 then contains the jockey id of
      every such run, and 実績季節 contains a season exactly when one such
      run was in that season. */
  lemma {:induction false} FeaturesJoinTopTwo(e: Entry, hr: seq<HistoryRow>)
    ensures Features(e, hr).seasons.Some? <==> exists x :: x in hr && PriorJraRun(e, x) && FinishedTopTwo(x)
    ensures Features(e, hr).jockeys.Some? <==> Features(e, hr).seasons.Some?
    ensures forall x :: x in hr && PriorJraRun(e, x) && FinishedTopTwo(x) ==>
      Features(e, hr).jockeys.Some? && IsSubstring(x.jockeyId, Features(e, hr).jockeys.value)
    ensures (forall x :: x in hr ==> |x.season| == 1) ==>
      forall c :: Features(e, hr).seasons.Some? ==>
        (c in Features(e, hr).seasons.value <==>
         exists x :: x in hr && PriorJraRun(e, x) && FinishedTopTwo(x) && x.season == [c])
  {
    var won := TopTwo(PriorJraRuns(e, hr));
    JoinedColumns(e, hr);
    assert forall x :: x in won <==> x in hr && PriorJraRun(e, x) && FinishedTopTwo(x);
    if |won| > 0 {
      assert won[0] in won;
    }
    forall x | x in hr && PriorJraRun(e, x) && FinishedTopTwo(x)
      ensures IsSubstring(x.jockeyId, JockeysOf(won))
    {
      var k :| 0 <= k < |won| && won[k] == x;
      JockeyInJoined(won, k);
    }
    if forall x :: x in hr ==> |x.season| == 1 {
      forall c {
        CharInSeasons(c, won);
      }
    }
  }

  /** The number of the horse's earlier JRA runs among `rows`. */
  function CountPriorJra(e: Entry, rows: seq<HistoryRow>): nat {
    if |rows| == 0 then 0 else (if PriorJraRun(e, rows[0]) then 1 else 0) + CountPriorJra(e, rows[1..])
  }

  /** The earlier JRA runs of a table are its first row, when that row is one,
      followed by those of the remaining rows. */
  lemma PriorJraRunsStep(e: Entry, hr: seq<HistoryRow>)
    requires |hr| > 0
    ensures PriorJraRuns(e, hr) == (if PriorJraRun(e, hr[0]) then [hr[0]] else []) + PriorJraRuns(e, hr[1..])
  {
    var h, early := hr[0], Earlier(hr[1..], e.date);
    var mine := OfHorse(early, e.horseId);
    assert PriorJraRuns(e, hr[1..]) == AtJra(mine);
    if h.date < e.date {
      calc {
        PriorJraRuns(e, hr);
        AtJra(OfHorse([h] + early, e.horseId));
        { OfHorseCons(h, early, e.horseId); }
        AtJra((if h.horseId == e.horseId then [h] else []) + mine);
      }
      if h.horseId == e.horseId {
        AtJraCons(h, mine);
      } else {
        assert [] + mine == mine;
      }
    } else {
      assert Earlier(hr, e.date) == early;
    }
  }

  lemma OfHorseCons(h: HistoryRow, rest: seq<HistoryRow>, horse: string)
    ensures OfHorse([h] + rest, horse) == (if h.horseId == horse then [h] else []) + OfHorse(rest, horse)
  {
    assert ([h] + rest)[0] == h && ([h] + rest)[1..] == rest;
  }

  lemma AtJraCons(h: HistoryRow, rest: seq<HistoryRow>)
    ensures AtJra([h] + rest) == (if AtJraVenue(h) then [h] else []) + AtJra(rest)
  {
    assert ([h] + rest)[0] == h && ([h] + rest)[1..] == rest;
  }

  /** The horse's earlier JRA runs taken in one pass over the table: a
      reference for the three-stage selection of Results.merge. */
  function JraRunsOf(e: Entry, hr: seq<HistoryRow>): seq<HistoryRow> {
    if |hr| == 0 then [] else (if PriorJraRun(e, hr[0]) then [hr[0]] else []) + JraRunsOf(e, hr[1..])
  }

  /** Date filter, horse group and venue filter together select the same rows,
      in the same order, as the single pass. */
  lemma {:induction false} PriorJraRunsSinglePass(e: Entry, hr: seq<HistoryRow>)
    ensures PriorJraRuns(e, hr) == JraRunsOf(e, hr)
  {
    if |hr| > 0 {
      PriorJraRunsStep(e, hr);
      PriorJraRunsSinglePass(e, hr[1..]);
    }
  }

  /** A run of `hr` preceded by exactly k earlier JRA runs of the horse in the
      table is the (k+1)-th of the horse's earlier JRA runs. */
  lemma {:induction false} KthPriorJraRun(e: Entry, hr: seq<HistoryRow>, p: nat)
    requires p < |hr| && PriorJraRun(e, hr[p])
    ensures CountPriorJra(e, hr[..p]) < |JraRunsOf(e, hr)|
    ensures JraRunsOf(e, hr)[CountPriorJra(e, hr[..p])] == hr[p]
  {
    var runs, rest := JraRunsOf(e, hr), JraRunsOf(e, hr[1..]);
    if p == 0 {
      assert hr[..0] == [];
    } else {
      KthPriorJraRun(e, hr[1..], p - 1);
      CountShift(e, hr, p - 1);
      var c := CountPriorJra(e, hr[1..][..p - 1]);
      assert c < |rest| && rest[c] == hr[p];
      if PriorJraRun(e, hr[0]) {
        assert runs[c + 1] == rest[c];
      }
    }
  }

  /** Conversely, each of the horse's earlier JRA runs sits in `hr` after
      exactly as many earlier JRA runs of the horse as precede it. */
  lemma {:induction false} PriorJraRunPosition(e: Entry, hr: seq<HistoryRow>, k: nat) returns (p: nat)
    requires k < |JraRunsOf(e, hr)|
    ensures p < |hr| && PriorJraRun(e, hr[p]) && CountPriorJra(e, hr[..p]) == k
    ensures JraRunsOf(e, hr)[k] == hr[p]
  {
    var runs, rest, b := JraRunsOf(e, hr), JraRunsOf(e, hr[1..]), PriorJraRun(e, hr[0]);
    if b && k == 0 {
      assert hr[..0] == [];
      p := 0;
    } else {
      var k' := if b then k - 1 else k;
      assert k' < |rest| && runs[k] == rest[k'];
      var q := PriorJraRunPosition(e, hr[1..], k');
      CountShift(e, hr, q);
      p := q + 1;
      assert hr[1..][q] == hr[p];
    }
  }

  /** Counting over a prefix of `hr` is counting its first row and then the
      matching prefix of the rest. */
  lemma CountShift(e: Entry, hr: seq<HistoryRow>, q: nat)
    requires q + 1 < |hr|
    ensures CountPriorJra(e, hr[..q + 1]) == (if PriorJraRun(e, hr[0]) then 1 else 0) + CountPriorJra(e, hr[1..][..q])
  {
    assert hr[..q + 1][1..] == hr[1..][..q];
  }

  /** `nth(k)` of the horse's earlier JRA runs, hence 1走前, 2走前 and 3走前 for
      k = 0, 1, 2, follows table order: it is the earlier JRA run of the horse
      preceded in `hr` by exactly k others, and is missing when there is none. */
  lemma NthPriorJraRun(e: Entry, hr: seq<HistoryRow>, k: nat)
    ensures forall p :: 0 <= p < |hr| && PriorJraRun(e, hr[p]) && CountPriorJra(e, hr[..p]) == k ==>
      Nth(PriorJraRuns(e, hr), k) == Some(hr[p])
    ensures Nth(PriorJraRuns(e, hr), k).Some? ==>
      exists p :: 0 <= p < |hr| && PriorJraRun(e, hr[p]) && CountPriorJra(e, hr[..p]) == k
                  && Nth(PriorJraRuns(e, hr), k) == Some(hr[p])
  {
    PriorJraRunsSinglePass(e, hr);
    forall p | 0 <= p < |hr| && PriorJraRun(e, hr[p]) && CountPriorJra(e, hr[..p]) == k
      ensures Nth(PriorJraRuns(e, hr), k) == Some(hr[p])
    {
      KthPriorJraRun(e, hr, p);
    }
    if k < |PriorJraRuns(e, hr)| {
      var p := PriorJraRunPosition(e, hr, k);
    }
  }

  /** Keeping only the earlier rows twice is the same as once. */
  lemma {:induction false} EarlierIdempotent(hr: seq<HistoryRow>, date: int)
    ensures Earlier(Earlier(hr, date), date) == Earlier(hr, date)
  {
    if |hr| > 0 {
      EarlierIdempotent(hr[1..], date);
      var rest := Earlier(hr[1..], date);
      if hr[0].date < date {
        assert Earlier(hr, date) == [hr[0]] + rest;
        assert (Earlier(hr, date))[1..] == rest;
      } else {
        assert Earlier(hr, date) == rest;
      }
    }
  }

  /** No leak: a runner's features depend only on the history rows dated
      strictly before its race, so rows on or after the race date (its own
      result included) cannot change them. */
  lemma NoLookAhead(e: Entry, hr: seq<HistoryRow>, hr2: seq<HistoryRow>)
    requires Earlier(hr, e.date) == Earlier(hr2, e.date)
    ensures Features(e, hr) == Features(e, hr2)
  {
    EarlierIdempotent(hr, e.date);
    EarlierIdempotent(hr2, e.date);
    assert PriorRuns(e, hr) == PriorRuns(e, Earlier(hr, e.date));
    assert PriorRuns(e, hr2) == PriorRuns(e, Earlier(hr2, e.date));
  }

  /** Runs away from the JRA racecourses count in 出走回数 but never become a
      previous run: a horse whose earlier runs were all elsewhere has a run
      count and no previous-run columns. */
  lemma {:induction false} RunsElsewhereCountOnly(e: Entry, hr: seq<HistoryRow>)
    requires exists x :: x in hr && x.horseId == e.horseId && x.date < e.date
    requires forall x :: x in hr && x.horseId == e.horseId && x.date < e.date ==> !AtJraVenue(x)
    ensures Features(e, hr).runs.Some? && Features(e, hr).prev1.None?
    ensures Features(e, hr).seasons.None? && Features(e, hr).jockeys.None?
  {
  }

  // ---------------------------------------------------------------------
  // The 実績 strings
  // ---------------------------------------------------------------------

  /** A one-character pattern occurs exactly where that character is. */
  lemma CharOccurs(c: char, s: string)
    ensures IsSubstring([c], s) <==> c in s
  {
    if c in s {
      var i :| 0 <= i < |s| && s[i] == c;
      assert OccursAt([c], s, i);
    }
    if IsSubstring([c], s) {
      var i :| OccursAt([c], s, i);
      assert s[i..i + 1][0] == s[i];
    }
  }

  /** The joined seasons contain a character exactly when one of the rows'
      (single-character) seasons is that character. */
  lemma {:induction false} CharInSeasons(c: char, rows: seq<HistoryRow>)
    requires forall x :: x in rows ==> |x.season| == 1
    ensures c in SeasonsOf(rows) <==> exists x :: x in rows && x.season == [c]
  {
    if |rows| > 0 {
      CharInSeasons(c, rows[1..]);
      assert SeasonsOf(rows) == rows[0].season + SeasonsOf(rows[1..]);
      assert rows[0].season == [rows[0].season[0]];
      if exists x :: x in rows && x.season == [c] {
        var x :| x in rows && x.season == [c];
        if x != rows[0] {
          assert x in rows[1..];
        }
      }
    }
  }

  /** Each joined jockey id occurs in the joined string. */
  lemma {:induction false} JockeyInJoined(rows: seq<HistoryRow>, k: nat)
    requires k < |rows|
    ensures IsSubstring(rows[k].jockeyId, JockeysOf(rows))
  {
    var s := JockeysOf(rows);
    if k == 0 {
      assert s == rows[0].jockeyId + JockeysOf(rows[1..]);
      PrefixOccurs(rows[0].jockeyId, s);
    } else {
      JockeyInJoined(rows[1..], k - 1);
      var t := JockeysOf(rows[1..]);
      var i :| OccursAt(rows[k].jockeyId, t, i);
      var h := |rows[0].jockeyId|;
      assert s == rows[0].jockeyId + t;
      assert s[h + i..h + i + |rows[k].jockeyId|] == t[i..i + |rows[k].jockeyId|];
      assert OccursAt(rows[k].jockeyId, s, h + i);
    }
  }

  // ---------------------------------------------------------------------
  // The merged table: runners grouped by race date
  // ---------------------------------------------------------------------

  /** `results["date"].unique()`: the race dates in order of first appearance. */
  function UniqueDates(results: seq<Entry>): (r: seq<int>)
    ensures forall i, j :: 0 <= i < j < |r| ==> r[i] != r[j]
    ensures forall d :: d in r <==> exists e :: e in results && e.date == d
  {
    if |results| == 0 then []
    else
      var u := UniqueDates(results[..|results| - 1]);
      assert forall e :: e in results[..|results| - 1] ==> e in results;
      assert forall e :: e in results ==> e in results[..|results| - 1] || e == results[|results| - 1];
      if results[|results| - 1].date in u then u else u + [results[|results| - 1].date]
  }

  /** `merged_dict[date]`: the runners of that date, in order, with their features. */
  function RowsOn(results: seq<Entry>, hr: seq<HistoryRow>, date: int): (r: seq<MergedRow>)
    ensures forall m :: m in r <==> exists e :: e in results && e.date == date && m == Features(e, hr)
  {
    if |results| == 0 then []
    else
      var init := results[..|results| - 1];
      var last := results[|results| - 1];
      assert forall e :: e in results <==> e in init || e == last;
      RowsOn(init, hr, date) + (if last.date == date then [Features(last, hr)] else [])
  }

  /** `pd.concat` of the per-date tables, in the order of `dates`. */
  function MergedFor(results: seq<Entry>, hr: seq<HistoryRow>, dates: seq<int>): (r: seq<MergedRow>)
    ensures forall m :: m in r <==> exists e :: e in results && e.date in dates && m == Features(e, hr)
  {
    if |dates| == 0 then []
    else
      var init := dates[..|dates| - 1];
      assert forall d :: d in dates <==> d in init || d == dates[|dates| - 1];
      MergedFor(results, hr, init) + RowsOn(results, hr, dates[|dates| - 1])
  }

  /** The race rows of a merged table, in its order. */
  function Entries(rows: seq<MergedRow>): (es: seq<Entry>)
    ensures |es| == |rows|
    ensures forall i :: 0 <= i < |rows| ==> es[i] == rows[i].entry
  {
    seq(|rows|, i requires 0 <= i < |rows| => rows[i].entry)
  }

  lemma EntriesAppend(a: seq<MergedRow>, b: seq<MergedRow>)
    ensures multiset(Entries(a + b)) == multiset(Entries(a)) + multiset(Entries(b))
  {
    assert Entries(a + b) == Entries(a) + Entries(b);
  }

  /** `merged_dict[date]` holds one row per race row of that date: each race
      row of the date appears as often as in `results`, no other appears. */
  lemma {:induction false} RowsOnCount(results: seq<Entry>, hr: seq<HistoryRow>, date: int)
    ensures forall x :: multiset(Entries(RowsOn(results, hr, date)))[x] == (if x.date == date then multiset(results)[x] else 0)
  {
    if |results| > 0 {
      var init, last := results[..|results| - 1], results[|results| - 1];
      RowsOnCount(init, hr, date);
      var front := RowsOn(init, hr, date);
      var tail := if last.date == date then [Features(last, hr)] else [];
      assert RowsOn(results, hr, date) == front + tail;
      EntriesAppend(front, tail);
      assert Entries(tail) == if last.date == date then [last] else [];
      assert multiset(results) == multiset(init) + multiset{last} by {
        assert results == init + [last];
      }
    }
  }

  /** Over distinct dates the concatenation holds each race row of those
      dates exactly as often as `results` does, and no other. */
  lemma {:induction false} MergedForCount(results: seq<Entry>, hr: seq<HistoryRow>, dates: seq<int>)
    requires forall i, j :: 0 <= i < j < |dates| ==> dates[i] != dates[j]
    ensures forall x :: multiset(Entries(MergedFor(results, hr, dates)))[x] == (if x.date in dates then multiset(results)[x] else 0)
  {
    if |dates| > 0 {
      var init, d := dates[..|dates| - 1], dates[|dates| - 1];
      MergedForCount(results, hr, init);
      RowsOnCount(results, hr, d);
      EntriesAppend(MergedFor(results, hr, init), RowsOn(results, hr, d));
      assert d !in init;
      assert forall x :: x in dates <==> x in init || x == d;
    }
  }

  /** Every runner appears in the merged table exactly once, with its own
      features, and nothing else does: the table has one row per race row. */
  lemma MergedCoversResults(results: seq<Entry>, hr: seq<HistoryRow>)
    ensures forall m :: m in MergedFor(results, hr, UniqueDates(results)) <==>
      exists e :: e in results && m == Features(e, hr)
    ensures multiset(Entries(MergedFor(results, hr, UniqueDates(results)))) == multiset(results)
    ensures |MergedFor(results, hr, UniqueDates(results))| == |results|
  {
    var merged := MergedFor(results, hr, UniqueDates(results));
    MergedForCount(results, hr, UniqueDates(results));
    forall x ensures multiset(Entries(merged))[x] == multiset(results)[x] {
      if x in results {
        assert x.date in UniqueDates(results);
      }
    }
    assert multiset(Entries(merged)) == multiset(results);
    assert |multiset(Entries(merged))| == |Entries(merged)|;
  }

  /** Results.p_p over the whole table: Raises as soon as one row does. */
  function NormaliseEntries(raw: seq<RawEntry>): (r: Outcome<seq<Entry>>)
    ensures r.Ok? <==> forall i :: 0 <= i < |raw| ==> NormaliseEntry(raw[i]).Ok?
    ensures r.Ok? ==> |r.value| == |raw|
    ensures r.Ok? ==> forall i :: 0 <= i < |raw| ==> r.value[i] == NormaliseEntry(raw[i]).value
  {
    if |raw| == 0 then Ok([])
    else
      match NormaliseEntry(raw[0])
      case Raises => Raises
      case Ok(e) =>
        match NormaliseEntries(raw[1..])
        case Raises =>
          assert !NormaliseEntry(raw[1..][0]).Ok? || exists i :: 0 <= i < |raw| - 1 && !NormaliseEntry(raw[1..][i]).Ok?;
          Raises
        case Ok(rest) => Ok([e] + rest)
  }

  /** The row conversions of Results.merge over the whole history table. */
  function NormaliseHistory(raw: seq<RawHistoryRow>): (r: Outcome<seq<HistoryRow>>)
    ensures r.Ok? <==> forall i :: 0 <= i < |raw| ==> NormaliseHistoryRow(raw[i]).Ok?
    ensures r.Ok? ==> |r.value| == |raw|
    ensures r.Ok? ==> forall i :: 0 <= i < |raw| ==> r.value[i] == NormaliseHistoryRow(raw[i]).value
  {
    if |raw| == 0 then Ok([])
    else
      match NormaliseHistoryRow(raw[0])
      case Raises => Raises
      case Ok(x) =>
        match NormaliseHistory(raw[1..])
        case Raises =>
          assert !NormaliseHistoryRow(raw[1..][0]).Ok? || exists i :: 0 <= i < |raw| - 1 && !NormaliseHistoryRow(raw[1..][i]).Ok?;
          Raises
        case Ok(rest) => Ok([x] + rest)
  }

  /** The table-level state of Results. */
  class Results {
    var results: seq<Entry>
    var hr: seq<HistoryRow>
    var merged: seq<MergedRow>

    constructor()
      ensures results == [] && hr == [] && merged == []
    {
      results := [];
      hr := [];
      merged := [];
    }

    /** Results.p_p: keep the normalised table; `ok` is false where Python
        raises. */
    method PreProcess(raw: seq<RawEntry>) returns (ok: bool)
      modifies this
      ensures ok <==> NormaliseEntries(raw).Ok?
      ensures ok ==> results == NormaliseEntries(raw).value
      ensures hr == old(hr) && merged == old(merged)
    {
      var r := NormaliseEntries(raw);
      if r.Raises? {
        return false;
      }
      results := r.value;
      return true;
    }

    /** Results.merge: normalise the history table, then for each race date
        in order of first appearance append that date's runners with their
        look-back features. `ok` is false where Python raises: when a history
        row does not convert, and when the race table is empty, where
        `pd.concat` has no frame to join (or, before p_p, the table has no
        date column). The history is stored as soon as it converts; on
        failure the merged table is untouched. */
    method Merge(raw: seq<RawHistoryRow>) returns (ok: bool)
      modifies this
      ensures ok <==> NormaliseHistory(raw).Ok? && |results| > 0
      ensures NormaliseHistory(raw).Ok? ==> hr == NormaliseHistory(raw).value
      ensures ok ==> merged == MergedFor(results, hr, UniqueDates(results))
      ensures !ok ==> merged == old(merged)
      ensures results == old(results)
    {
      var rows := NormaliseHistory(raw);
      if rows.Raises? {
        return false;
      }
      hr := rows.value;
      var dates := UniqueDates(results);
      if |dates| == 0 {
        assert |results| > 0 ==> results[0].date in dates;
        return false;
      }
      var acc: seq<MergedRow> := [];
      var k := 0;
      while k < |dates|
        invariant 0 <= k <= |dates|
        invariant acc == MergedFor(results, hr, dates[..k])
      {
        assert dates[..k + 1][..k] == dates[..k];
        acc := acc + RowsOn(results, hr, dates[k]);
        k := k + 1;
      }
      assert dates[..|dates|] == dates;
      merged := acc;
      assert results != [] by {
        assert dates[0] in dates;
      }
      return true;
    }
  }
}
