/** The masked column updates of Peds.merge and Peds.point.

    Every update has the shape `col[lhs] = col[rhs] + delta`, where lhs and
    rhs are row masks. pandas aligns the right-hand side on the row index, so
    a row selected by lhs but not by rhs receives NaN, and NaN stays NaN
    under every later addition. A column value is therefore `Option<int>`
    with `None` for NaN, and a list of updates is applied in order. */
module Rules {
  import opened Text
  import opened Fields
  import opened Lineage
  import opened LookBack
  import opened Tables

  /** One row of the table Peds.merge works on: the merged race row and the
      horse's pedigree row (None where the left merge found none). */
  datatype Runner = Runner(row: MergedRow, ped: Option<Pedigree>)

  /** The `course` column: venue code + race type + course length. */
  function CourseKey(r: Runner): string {
    r.row.entry.venue + r.row.entry.raceType + NatToString(r.row.entry.courseLen)
  }

  /** The pedigree columns the rules test for "1". */
  datatype PedFlag =
    | SireUS | SireEU | SireJP              // 父_米国型, 父_欧州型, 父_日本型
    | DamSireUS | DamSireEU | DamSireJP     // 母父_米国型, 母父_欧州型, 母父_日本型
    | DamDamSireUS | DamDamSireEU           // 母母父_米国型, 母母父_欧州型
    | SireNasrullah | SireSadler            // 父_大系統ナスルーラ, 父_サドラー系
    | DamSireNasrullah | DamSireNijinsky    // 母父_大系統ナスルーラ, 母父_ニジンスキー系
    | NonSunday | USA | USB | EUA | EUB     // 非サンデー馬, 米国A, 米国B, 欧州A, 欧州B
    | DeepFlag | KingmamboFlag              // 父_母父_ディープ, 父_母父_キングマンボ系

  function FlagValue(p: Pedigree, f: PedFlag): bool {
    match f
    case SireUS => US in p.sire.regions
    case SireEU => Europe in p.sire.regions
    case SireJP => Japan in p.sire.regions
    case DamSireUS => US in p.damSire.regions
    case DamSireEU => Europe in p.damSire.regions
    case DamSireJP => Japan in p.damSire.regions
    case DamDamSireUS => US in p.damDamSire.regions
    case DamDamSireEU => Europe in p.damDamSire.regions
    case SireNasrullah => Nasrullah in p.sire.major
    case SireSadler => Sadler in p.sire.sub
    case DamSireNasrullah => Nasrullah in p.damSire.major
    case DamSireNijinsky => Nijinsky in p.damSire.sub
    case NonSunday => p.nonSunday
    case USA => p.usA
    case USB => p.usB
    case EUA => p.euA
    case EUB => p.euB
    case DeepFlag => p.deep
    case KingmamboFlag => p.kingmambo
  }

  /** The integer columns the rules compare. */
  datatype IntField =
    | Gate                 // 馬番
    | PrevGate             // 馬番_1走前
    | PrevFinish           // 着順_1走前
    | PrevPrevFinish       // 着順_2走前
    | PrevFirstCorner      // first_corner_1走前
    | PrevMargin           // 着差_1走前, in tenths of a second
    | DistChangeNow        // 今回距離変化
    | DistChangePrev       // 前走距離変化
    | DistChangePrevPrev   // 前々走距離変化
    | IntervalNow          // 今回間隔, in days
    | IntervalPrev         // 前走間隔, in days

  function FinishOf(x: Option<HistoryRow>): Option<int> {
    if x.Some? && x.value.finish.Some? then Some(x.value.finish.value as int) else None
  }

  function IntValue(r: Runner, f: IntField): Option<int> {
    var m := r.row;
    match f
    case Gate => Some(m.entry.gate)
    case PrevGate => if m.prev1.Some? then m.prev1.value.gate else None
    case PrevFinish => FinishOf(m.prev1)
    case PrevPrevFinish => FinishOf(m.prev2)
    case PrevFirstCorner =>
      if m.prev1.Some? && m.prev1.value.firstCorner.Some? then Some(m.prev1.value.firstCorner.value as int) else None
    case PrevMargin => if m.prev1.Some? then m.prev1.value.margin else None
    case DistChangeNow => m.distChangeNow
    case DistChangePrev => m.distChangePrev
    case DistChangePrevPrev => m.distChangePrevPrev
    case IntervalNow => m.intervalNow
    case IntervalPrev => m.intervalPrev
  }

  /** The real columns the rules compare. */
  datatype RealField = RelFinish2 | RelFinish3   // 実質着順_2走前, 実質着順_3走前

  function RealValue(r: Runner, f: RealField): Option<real> {
    var x := if f == RelFinish2 then r.row.prev2 else r.row.prev3;
    if x.Some? then x.value.relFinish else None
  }

  datatype Cmp = Lt | Le | Gt | Ge | Eq

  function CompareInt(x: int, op: Cmp, b: int): bool {
    match op
    case Lt => x < b
    case Le => x <= b
    case Gt => x > b
    case Ge => x >= b
    case Eq => x == b
  }

  function CompareReal(x: real, op: Cmp, b: real): bool {
    match op
    case Lt => x < b
    case Le => x <= b
    case Gt => x > b
    case Ge => x >= b
    case Eq => x == b
  }

  /** A row mask. */
  datatype Cond =
    | SireIs(name: string)                  // 父 == name
    | SireIn(names: seq<string>)            // 父.isin(names)
    | SexIs(sex: char)                      // sex == ...
    | CourseIs(course: string)              // course == ...
    | InLists(lists: seq<CourseList>)       // course.isin(list + list + ...)
    | CourseIn(courses: seq<string>)        // course.isin(courses)
    | RaceTypeIs(raceType: string)          // race_type == ...
    | Flag(flag: PedFlag)                   // <flag column> == "1"
    | IntCmp(field: IntField, op: Cmp, bound: int)
    | RealCmp(rfield: RealField, rop: Cmp, rbound: real)
    | SeasonWonBefore                       // 季節 in 実績季節 (after fillna("無し"))
    | JockeyIdIn(jockeys: seq<string>)      // jockey_id.isin(...)
    | TrainerIdIn(trainers: seq<string>)    // trainer_id.isin(...)
    | JockeyWonBefore                       // jockey_id in 実績騎手 (after fillna("無し"))
    | And(left: Cond, right: Cond)
    | Or(left: Cond, right: Cond)

  /** The filler `fillna("無し")` puts into a missing 実績 string. */
  const Nothing: string := "無し"

  /** Whether the mask selects the row; every comparison with a missing
      value (a missing pedigree included) is false. */
  function Holds(c: Cond, r: Runner): bool {
    match c
    case SireIs(n) => r.ped.Some? && r.ped.value.sireName == n
    case SireIn(ns) => r.ped.Some? && r.ped.value.sireName in ns
    case SexIs(s) => r.row.entry.sex == s
    case CourseIs(k) => CourseKey(r) == k
    case InLists(ls) => InAnyList(CourseKey(r), ls)
    case CourseIn(ks) => CourseKey(r) in ks
    case RaceTypeIs(t) => r.row.entry.raceType == t
    case Flag(f) => r.ped.Some? && FlagValue(r.ped.value, f)
    case IntCmp(f, op, b) => var v := IntValue(r, f); v.Some? && CompareInt(v.value, op, b)
    case RealCmp(f, op, b) => var v := RealValue(r, f); v.Some? && CompareReal(v.value, op, b)
    case SeasonWonBefore => Occurs(r.row.entry.season, r.row.seasons.GetOr(Nothing))
    case JockeyIdIn(ids) => r.row.entry.jockeyId in ids
    case TrainerIdIn(ids) => r.row.entry.trainerId in ids
    case JockeyWonBefore => Occurs(r.row.entry.jockeyId, r.row.jockeys.GetOr(Nothing))
    case And(a, b) => Holds(a, r) && Holds(b, r)
    case Or(a, b) => Holds(a, r) || Holds(b, r)
  }

  /** `df.loc[lhs, col] = df.loc[rhs, col] + delta`. */
  datatype Rule = Rule(lhs: Cond, rhs: Cond, delta: int)

  /** The usual update, with the same mask on both sides. */
  function Aligned(c: Cond, delta: int): Rule {
    Rule(c, c, delta)
  }

  /** The rule selects the row on the left but not on the right. */
  predicate Misfires(rule: Rule, r: Runner) {
    Holds(rule.lhs, r) && !Holds(rule.rhs, r)
  }

  /** One update on one row's value. */
  function ApplyRule(rule: Rule, r: Runner, v: Option<int>): (w: Option<int>)
    ensures !Holds(rule.lhs, r) ==> w == v
    ensures Misfires(rule, r) ==> w.None?
    ensures Holds(rule.lhs, r) && Holds(rule.rhs, r) && v.Some? ==> w == Some(v.value + rule.delta)
    ensures v.None? ==> w.None?
  {
    if !Holds(rule.lhs, r) then v
    else if !Holds(rule.rhs, r) then None
    else if v.Some? then Some(v.value + rule.delta) else None
  }

  /** The updates applied in order to one row's value. */
  function FoldRules(rules: seq<Rule>, r: Runner, v: Option<int>): Option<int> {
    if |rules| == 0 then v
    else ApplyRule(rules[|rules| - 1], r, FoldRules(rules[..|rules| - 1], r, v))
  }

  /** The sum of the deltas of the rules whose left mask selects the row:
      the order-free reading of a list of updates. */
  function SumFiring(rules: seq<Rule>, r: Runner): int {
    if |rules| == 0 then 0
    else SumFiring(rules[..|rules| - 1], r) + (if Holds(rules[|rules| - 1].lhs, r) then rules[|rules| - 1].delta else 0)
  }

  /** NaN absorbs every later update. */
  lemma {:induction false} FoldKeepsNaN(rules: seq<Rule>, r: Runner)
    ensures FoldRules(rules, r, None) == None
  {
    if |rules| > 0 {
      FoldKeepsNaN(rules[..|rules| - 1], r);
    }
  }

  /** A list of updates started from a number ends in NaN exactly when one
      of its rules misfires on the row; otherwise it adds up the deltas of
      the rules that select the row, whatever their order. */
  lemma {:induction false} FoldAddsFiring(rules: seq<Rule>, r: Runner, x: int)
    ensures FoldRules(rules, r, Some(x)) ==
      if exists i :: 0 <= i < |rules| && Misfires(rules[i], r) then None else Some(x + SumFiring(rules, r))
  {
    if |rules| > 0 {
      var init := rules[..|rules| - 1];
      FoldAddsFiring(init, r, x);
      assert forall i :: 0 <= i < |init| ==> init[i] == rules[i];
      if exists i :: 0 <= i < |init| && Misfires(init[i], r) {
        var i :| 0 <= i < |init| && Misfires(init[i], r);
        assert Misfires(rules[i], r);
      } else if Misfires(rules[|rules| - 1], r) {
      } else {
        forall i | 0 <= i < |rules| ensures !Misfires(rules[i], r) {
          if i < |init| {
            assert rules[i] == init[i];
          }
        }
      }
    }
  }

  /** Updates whose left masks do not select the row leave it as it is. */
  lemma {:induction false} FoldUnselected(rules: seq<Rule>, r: Runner, v: Option<int>)
    requires forall i :: 0 <= i < |rules| ==> !Holds(rules[i].lhs, r)
    ensures FoldRules(rules, r, v) == v
  {
    if |rules| > 0 {
      FoldUnselected(rules[..|rules| - 1], r, v);
    }
  }

  /** Running two lists one after the other is running their concatenation. */
  lemma {:induction false} FoldAppend(a: seq<Rule>, b: seq<Rule>, r: Runner, v: Option<int>)
    ensures FoldRules(a + b, r, v) == FoldRules(b, r, FoldRules(a, r, v))
    decreases |b|
  {
    if |b| == 0 {
      assert a + b == a;
    } else {
      assert (a + b)[..|a + b| - 1] == a + b[..|b| - 1];
      FoldAppend(a, b[..|b| - 1], r, v);
    }
  }

  /** The sum over a concatenation is the sum of the parts. */
  lemma {:induction false} SumAppend(a: seq<Rule>, b: seq<Rule>, r: Runner)
    ensures SumFiring(a + b, r) == SumFiring(a, r) + SumFiring(b, r)
    decreases |b|
  {
    if |b| == 0 {
      assert a + b == a;
    } else {
      assert (a + b)[..|a + b| - 1] == a + b[..|b| - 1];
      SumAppend(a, b[..|b| - 1], r);
    }
  }

  /** Updates none of whose left masks selects the row add nothing. */
  lemma {:induction false} SumNoneSelected(rules: seq<Rule>, r: Runner)
    requires forall i :: 0 <= i < |rules| ==> !Holds(rules[i].lhs, r)
    ensures SumFiring(rules, r) == 0
  {
    if |rules| > 0 {
      SumNoneSelected(rules[..|rules| - 1], r);
    }
  }

  /** When exactly one left mask selects the row, the updates add that
      rule's delta. */
  lemma {:induction false} SumOneSelected(rules: seq<Rule>, r: Runner, i: nat)
    requires i < |rules| && Holds(rules[i].lhs, r)
    requires forall j :: 0 <= j < |rules| && j != i ==> !Holds(rules[j].lhs, r)
    ensures SumFiring(rules, r) == rules[i].delta
  {
    var init := rules[..|rules| - 1];
    if i == |rules| - 1 {
      SumNoneSelected(init, r);
    } else {
      SumOneSelected(init, r, i);
    }
  }

  /** No two left masks of the list select the same row. */
  predicate Exclusive(rules: seq<Rule>, r: Runner) {
    forall i, j :: 0 <= i < j < |rules| ==> !(Holds(rules[i].lhs, r) && Holds(rules[j].lhs, r))
  }

  /** Mutually exclusive updates whose deltas lie in [-b, b] add up to a
      value in [-b, b]. */
  lemma SumExclusiveBounded(rules: seq<Rule>, r: Runner, b: int)
    requires Exclusive(rules, r)
    requires forall i :: 0 <= i < |rules| ==> -b <= rules[i].delta <= b
    requires b >= 0
    ensures -b <= SumFiring(rules, r) <= b
  {
    if i :| 0 <= i < |rules| && Holds(rules[i].lhs, r) {
      assert forall j :: 0 <= j < |rules| && j != i ==> !Holds(rules[j].lhs, r);
      SumOneSelected(rules, r, i);
    } else {
      SumNoneSelected(rules, r);
    }
  }

  /** Apply the updates in order to a column, one masked assignment over all
      rows at a time, as the pandas code does. */
  method ApplyRules(col: array<Option<int>>, rows: seq<Runner>, rules: seq<Rule>)
    requires col.Length == |rows|
    modifies col
    ensures forall i :: 0 <= i < col.Length ==> col[i] == FoldRules(rules, rows[i], old(col[i]))
  {
    var k := 0;
    while k < |rules|
      invariant 0 <= k <= |rules|
      invariant forall i :: 0 <= i < col.Length ==> col[i] == FoldRules(rules[..k], rows[i], old(col[i]))
    {
      var i := 0;
      while i < col.Length
        invariant 0 <= i <= col.Length
        invariant forall j :: 0 <= j < i ==> col[j] == FoldRules(rules[..k + 1], rows[j], old(col[j]))
        invariant forall j :: i <= j < col.Length ==> col[j] == FoldRules(rules[..k], rows[j], old(col[j]))
      {
        assert rules[..k + 1][..k] == rules[..k];
        col[i] := ApplyRule(rules[k], rows[i], col[i]);
        i := i + 1;
      }
      k := k + 1;
    }
    assert rules[..|rules|] == rules;
  }

  /** `df[col] = 0` followed by the updates: a new column holding the fold
      of the list, started at 0, on every row. */
  method NewColumn(rows: seq<Runner>, rules: seq<Rule>) returns (col: array<Option<int>>)
    ensures fresh(col) && col.Length == |rows|
    ensures forall i :: 0 <= i < |rows| ==> col[i] == FoldRules(rules, rows[i], Some(0))
  {
    col := new Option<int>[|rows|](_ => Some(0));
    ApplyRules(col, rows, rules);
  }
}
