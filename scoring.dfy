/** Peds.merge and Peds.point: the integer points of every runner, built by
    ordered lists of masked updates, and the quinella label. */
module Scoring {
  import opened Text
  import opened Fields
  import opened Lineage
  import opened LookBack
  import opened Tables
  import opened Rules

  // ---------------------------------------------------------------------
  // blood_point
  // ---------------------------------------------------------------------

  /** The four kinds of blood_point update. */
  datatype BloodRule =
    | SireRule(sire: string, when: Cond, delta: int)               // 父 == sire & when
    | LineageRule(lhs: Cond, rhs: Cond, list: CourseList, delta: int)  // pedigree flags & course group
    | FillyRule(list: CourseList, delta: int)                       // sex == 牝 & course group
    | PaceRule(when: Cond, pace: Pace, delta: int)                  // when & 父.isin(pace group)

  function ToRule(b: BloodRule): Rule {
    match b
    case SireRule(s, w, d) => Aligned(And(SireIs(s), w), d)
    case LineageRule(l, r, list, d) => Rule(And(l, InLists([list])), And(r, InLists([list])), d)
    case FillyRule(list, d) => Aligned(And(SexIs('牝'), InLists([list])), d)
    case PaceRule(w, p, d) => Aligned(And(w, SireIn(PaceSires(p))), d)
  }

  function ToRules(table: seq<BloodRule>): (rs: seq<Rule>)
    ensures |rs| == |table|
    ensures forall i :: 0 <= i < |table| ==> rs[i] == ToRule(table[i])
  {
    if |table| == 0 then [] else [ToRule(table[0])] + ToRules(table[1..])
  }

  /** The sires that have rules of their own. */
  function NamedSires(table: seq<BloodRule>): (names: seq<string>)
    ensures forall i :: 0 <= i < |table| && table[i].SireRule? ==> table[i].sire in names
  {
    if |table| == 0 then []
    else (if table[0].SireRule? then [table[0].sire] else []) + NamedSires(table[1..])
  }

  /** The three lineage updates whose right-hand mask differs from the
      left-hand one. */
  const TurfBLineage: BloodRule :=
    LineageRule(Or(Or(Or(Flag(SireUS), Flag(SireEU)), Flag(NonSunday)), Flag(DamSireJP)),
                Or(Or(Or(Flag(DamSireUS), Flag(DamDamSireUS)), Flag(NonSunday)), Flag(DamSireJP)), TurfB, 1)
  const TurfDLineage: BloodRule :=
    LineageRule(And(Or(Flag(DamSireEU), Flag(DamDamSireEU)), Flag(SireJP)),
                And(Or(Flag(DamSireEU), Flag(DamSireEU)), Flag(SireJP)), TurfD, 1)
  const DartALineage: BloodRule :=
    LineageRule(Or(Or(Flag(USA), Flag(USB)), Flag(NonSunday)),
                Or(Or(Flag(USA), Flag(USB)), Flag(SireUS)), DartA, 1)

  /** The blood_point updates of Peds.merge, in source order. */
  const BloodTable: seq<BloodRule> := [
      SireRule("ディープインパクト ", Or(Or(CourseIs("05芝1600"), CourseIs("05芝1800")), And(SexIs('牝'), InLists([TurfA]))), 1),  // 290-291
      SireRule("ディープインパクト ", InLists([TurfA, TurfC, TurfD]), 1),  // 292-293
      SireRule("ディープインパクト ", Or(InLists([TurfB]), And(SexIs('牝'), InLists([TurfC]))), -1),  // 294-295
      SireRule("ハーツクライ ", Or(And(SexIs('牡'), InLists([TurfC])), And(SexIs('牝'), InLists([TurfD]))), 1),  // 296-297
      SireRule("ハーツクライ ", InLists([TurfA, TurfC, TurfD]), 1),  // 298-299
      SireRule("ハーツクライ ", And(SexIs('牝'), InLists([TurfB])), -1),  // 300-301
      SireRule("ハーツクライ ", And(SexIs('牡'), InLists([DartB, DartC, DartD])), 1),  // 302-303
      SireRule("ダイワメジャー ", InLists([TurfA]), 2),  // 304-305
      SireRule("ダイワメジャー ", And(SexIs('牡'), InLists([TurfD])), 1),  // 306-307
      SireRule("ダイワメジャー ", InLists([TurfB, TurfC]), -1),  // 308-309
      SireRule("ダイワメジャー ", And(SexIs('牡'), InLists([DartA])), 1),  // 310-311
      SireRule("ハービンジャー Harbinger(英) ", InLists([TurfC, TurfD]), 2),  // 312-313
      SireRule("ハービンジャー Harbinger(英) ", And(SexIs('牡'), InLists([TurfB])), 1),  // 314-315
      SireRule("ハービンジャー Harbinger(英) ", InLists([TurfA]), -1),  // 316-317
      SireRule("ルーラーシップ ", Or(And(SexIs('牡'), InLists([TurfC])), And(SexIs('牝'), InLists([TurfB]))), 2),  // 318-319
      SireRule("ルーラーシップ ", Or(And(SexIs('牡'), InLists([TurfB])), And(SexIs('牝'), InLists([TurfC]))), 1),  // 320-321
      SireRule("ルーラーシップ ", InLists([TurfA, TurfD]), -1),  // 322-323
      SireRule("ルーラーシップ ", And(SexIs('牡'), InLists([DartC])), 1),  // 324-325
      SireRule("ロードカナロア ", InLists([TurfA]), 2),  // 326-327
      SireRule("ロードカナロア ", And(SexIs('牡'), InLists([TurfB])), 1),  // 328-329
      SireRule("ロードカナロア ", InLists([TurfC, TurfD]), -1),  // 330-331
      SireRule("ロードカナロア ", InLists([DartA, DartB]), 1),  // 332-333
      SireRule("ステイゴールド ", And(SexIs('牡'), InLists([TurfA, TurfD])), 2),  // 334-335
      SireRule("ステイゴールド ", Or(And(SexIs('牝'), InLists([TurfD])), InLists([TurfC])), 1),  // 336-337
      SireRule("ステイゴールド ", InLists([TurfB]), -1),  // 338-339
      SireRule("キングカメハメハ ", Or(And(SexIs('牡'), InLists([TurfA])), And(SexIs('牝'), InLists([TurfD]))), 2),  // 340-341
      SireRule("キングカメハメハ ", Or(And(SexIs('牡'), InLists([TurfD])), And(SexIs('牝'), InLists([TurfA]))), 1),  // 342-343
      SireRule("キングカメハメハ ", InLists([TurfB]), -1),  // 344-345
      SireRule("キングカメハメハ ", And(SexIs('牡'), RaceTypeIs("ダート")), 1),  // 346-347
      SireRule("オルフェーヴル ", And(SexIs('牡'), InLists([TurfC])), 2),  // 348-349
      SireRule("オルフェーヴル ", And(SexIs('牝'), InLists([TurfC])), 1),  // 350-351
      SireRule("オルフェーヴル ", InLists([TurfA]), -1),  // 352-353
      SireRule("オルフェーヴル ", InLists([DartC]), 1),  // 354-355
      SireRule("ヴィクトワールピサ ", And(SexIs('牝'), InLists([TurfC, TurfD])), 1),  // 356-357
      SireRule("キンシャサノキセキ ", And(SexIs('牡'), InLists([TurfA])), 2),  // 358-359
      SireRule("キンシャサノキセキ ", Or(And(SexIs('牡'), InLists([TurfB])), And(SexIs('牝'), InLists([TurfA, TurfD]))), 1),  // 360-361
      SireRule("キンシャサノキセキ ", And(SexIs('牡'), InLists([DartA, DartD])), 1),  // 362-363
      SireRule("マンハッタンカフェ ", InLists([TurfA, TurfD]), 1),  // 364-365
      SireRule("ディープブリランテ ", Or(And(SexIs('牡'), InLists([TurfD])), And(SexIs('牝'), InLists([TurfB]))), 1),  // 366-367
      SireRule("スクリーンヒーロー ", Or(And(SexIs('牡'), InLists([TurfB, TurfC])), And(SexIs('牝'), InLists([TurfA]))), 1),  // 368-369
      SireRule("ブラックタイド ", Or(And(SexIs('牡'), InLists([TurfB])), And(SexIs('牝'), InLists([TurfD]))), 1),  // 370-371
      SireRule("ノヴェリスト Novellist(愛) ", Or(And(SexIs('牡'), InLists([TurfA, TurfC])), And(SexIs('牝'), InLists([TurfB]))), 1),  // 372-373
      SireRule("エイシンフラッシュ ", And(SexIs('牡'), InLists([TurfB, TurfC])), 1),  // 374-375
      SireRule("キズナ ", And(SexIs('牝'), InLists([TurfB])), 2),  // 376-377
      SireRule("キズナ ", And(SexIs('牡'), Or(InLists([TurfB]), RaceTypeIs("ダート"))), 1),  // 378-379
      SireRule("アドマイヤムーン ", And(SexIs('牡'), InLists([TurfA, TurfD])), 1),  // 380-381
      SireRule("ジャスタウェイ ", And(SexIs('牡'), InLists([TurfC])), 1),  // 382-383
      SireRule("エピファネイア ", And(SexIs('牝'), InLists([TurfB, TurfC])), 2),  // 384-385
      SireRule("エピファネイア ", And(SexIs('牡'), InLists([TurfB, TurfC])), 1),  // 386-387
      SireRule("ドリームジャーニー ", And(SexIs('牡'), InLists([TurfC, TurfD])), 1),  // 388-389
      SireRule("ジャングルポケット ", And(SexIs('牡'), InLists([TurfA, TurfD])), 1),  // 390-391
      SireRule("メイショウサムソン ", InLists([TurfD]), 1),  // 392-393
      SireRule("ワークフォース Workforce(英) ", InLists([TurfC]), 1),  // 394-395
      SireRule("マツリダゴッホ ", And(SexIs('牝'), InLists([TurfA])), 2),  // 396-397
      SireRule("マツリダゴッホ ", Or(And(SexIs('牡'), InLists([TurfB, TurfD])), And(SexIs('牝'), InLists([TurfB]))), 1),  // 398-399
      SireRule("ゴールドアリュール ", And(SexIs('牡'), RaceTypeIs("ダート")), 2),  // 400-401
      SireRule("ゴールドアリュール ", And(SexIs('牝'), RaceTypeIs("ダート")), 1),  // 402-403
      SireRule("クロフネ ", And(SexIs('牝'), RaceTypeIs("ダート")), 2),  // 404-405
      SireRule("クロフネ ", And(SexIs('牡'), RaceTypeIs("ダート")), 1),  // 406-407
      SireRule("サウスヴィグラス ", InLists([DartA]), 2),  // 408-409
      SireRule("ヘニーヒューズ Henny Hughes(米) ", InLists([DartA, DartD]), 2),  // 410-411
      SireRule("エンパイアメーカー Empire Maker(米) ", RaceTypeIs("ダート"), 1),  // 412-413
      SireRule("アイルハヴアナザー I'll Have Another(米) ", InLists([DartC]), 1),  // 414-415
      SireRule("シニスターミニスター Sinister Minister(米) ", And(SexIs('牡'), RaceTypeIs("ダート")), 1),  // 416-417
      SireRule("ネオユニヴァース ", And(SexIs('牡'), InLists([DartC, DartD])), 1),  // 418-419
      SireRule("シンボリクリスエス ", And(SexIs('牡'), InLists([DartC, DartD])), 1),  // 420-421
      SireRule("メイショウボーラー ", And(SexIs('牡'), InLists([DartA])), 1),  // 422-423
      SireRule("カネヒキリ ", InLists([DartA, DartD]), 1),  // 424-425
      SireRule("パイロ Pyro(米) ", InLists([DartA, DartD]), 1),  // 426-427
      SireRule("スマートファルコン ", InLists([DartC]), 1),  // 428-429
      SireRule("ドゥラメンテ ", InLists([TurfA, TurfD]), 2),  // 430-431
      SireRule("ドゥラメンテ ", InLists([TurfB]), -1),  // 432-433
      SireRule("ドゥラメンテ ", And(SexIs('牡'), RaceTypeIs("ダート")), 1),  // 434-435
      SireRule("モーリス ", Or(And(SexIs('牡'), InLists([TurfB, TurfC])), And(SexIs('牝'), InLists([TurfA]))), 2),  // 436-437
      SireRule("モーリス ", InLists([TurfD]), -1),  // 438-439
      SireRule("ダノンレジェンド ", InLists([DartA, DartB]), 2),  // 440-441
      LineageRule(Or(Or(Flag(DamSireUS), Flag(DamDamSireUS)), Flag(NonSunday)), Or(Or(Flag(DamSireUS), Flag(DamDamSireUS)), Flag(NonSunday)), TurfA, 1),  // 442-443
      TurfBLineage,  // 444-445
      LineageRule(Or(Flag(EUA), Flag(EUB)), Or(Flag(EUA), Flag(EUB)), TurfC, 1),  // 446-447
      TurfDLineage,  // 448-449
      DartALineage,  // 450-451
      LineageRule(Or(Flag(EUA), Flag(DeepFlag)), Or(Flag(EUA), Flag(DeepFlag)), DartA, -1),  // 452-453
      LineageRule(Or(Or(Flag(DeepFlag), Flag(KingmamboFlag)), Flag(DamSireNasrullah)), Or(Or(Flag(DeepFlag), Flag(KingmamboFlag)), Flag(DamSireNasrullah)), DartB, 1),  // 454-455
      LineageRule(Or(Or(Flag(SireJP), Flag(SireEU)), Flag(DamSireNijinsky)), Or(Or(Flag(SireJP), Flag(SireEU)), Flag(DamSireNijinsky)), DartC, 1),  // 456-457
      LineageRule(Or(Or(Flag(EUB), Flag(SireNasrullah)), Flag(SireSadler)), Or(Or(Flag(EUB), Flag(SireNasrullah)), Flag(SireSadler)), DartD, 1),  // 458-459
      FillyRule(TurfC, -1),  // 460-461
      FillyRule(DartD, -1),  // 462-463
      PaceRule(IntCmp(DistChangeNow, Lt, 0), PaceDown, 2),  // 470-471
      PaceRule(IntCmp(DistChangeNow, Lt, 0), PaceUp, -2),  // 472-473
      PaceRule(IntCmp(DistChangeNow, Gt, 0), PaceUp, 2),  // 474-475
      PaceRule(IntCmp(DistChangeNow, Gt, 0), PaceDown, -2),  // 476-477
      PaceRule(And(IntCmp(DistChangePrev, Gt, 0), IntCmp(DistChangeNow, Eq, 0)), PaceDown, 1),  // 478-479
      PaceRule(IntCmp(IntervalNow, Gt, 65), PaceDown, 1),  // 480-481
      PaceRule(And(And(IntCmp(IntervalPrev, Gt, 65), IntCmp(PrevFinish, Le, 5)), IntCmp(IntervalNow, Lt, 40)), PaceDown, -1),  // 482-483
      PaceRule(IntCmp(IntervalNow, Gt, 65), PaceUp, -1),  // 484-485
      PaceRule(And(And(IntCmp(IntervalPrev, Gt, 65), IntCmp(PrevFinish, Le, 9)), IntCmp(IntervalNow, Lt, 40)), PaceUp, 1)  // 486-487
    ]

  const BloodRules: seq<Rule> := ToRules(BloodTable)

  /** A rule column started at 0 and read as an integer. */
  function Points(rules: seq<Rule>, r: Runner): int {
    FoldRules(rules, r, Some(0)).GetOr(0)
  }

  /** blood_point after `fillna(0)`: 0 where one of the updates misfired
      (its NaN survives to the end), and otherwise the sum of the deltas of
      the updates that select the runner. */
  function BloodPoint(r: Runner): (p: int)
    ensures p == if exists i :: 0 <= i < |BloodRules| && Misfires(BloodRules[i], r) then 0
                 else SumFiring(BloodRules, r)
  {
    FoldAddsFiring(BloodRules, r, 0);
    Points(BloodRules, r)
  }

  /** Only lineage updates can misfire: the others use one mask on both sides. */
  lemma OnlyLineageRulesMisfire(b: BloodRule, r: Runner)
    requires Misfires(ToRule(b), r)
    ensures b.LineageRule?
  {
  }

  /** A lineage update misfires on a runner of its course group that its
      left-hand flags select and its right-hand flags do not. */
  lemma LineageMisfires(b: BloodRule, r: Runner)
    requires b.LineageRule?
    ensures Misfires(ToRule(b), r) <==>
      InAnyList(CourseKey(r), [b.list]) && Holds(b.lhs, r) && !Holds(b.rhs, r)
  {
    var rule := ToRule(b);
    var inList := InLists([b.list]);
    assert rule.lhs == And(b.lhs, inList) && rule.rhs == And(b.rhs, inList);
    assert Holds(inList, r) == InAnyList(CourseKey(r), [b.list]);
    assert Holds(rule.lhs, r) == (Holds(b.lhs, r) && Holds(inList, r));
    assert Holds(rule.rhs, r) == (Holds(b.rhs, r) && Holds(inList, r));
  }

  /** The masks of the 芝 B update: the left one selects a horse whose
      sire is of US or European type while none of the right-hand flags
      holds. */
  lemma TurfBMasks(r: Runner)
    ensures Holds(TurfBLineage.lhs, r) && !Holds(TurfBLineage.rhs, r) <==>
      && r.ped.Some?
      && (FlagValue(r.ped.value, SireUS) || FlagValue(r.ped.value, SireEU))
      && !FlagValue(r.ped.value, DamSireUS) && !FlagValue(r.ped.value, DamDamSireUS)
      && !FlagValue(r.ped.value, NonSunday) && !FlagValue(r.ped.value, DamSireJP)
  {
    var a := Or(Flag(SireUS), Flag(SireEU));
    var b := Or(Flag(DamSireUS), Flag(DamDamSireUS));
    assert TurfBLineage.lhs == Or(Or(a, Flag(NonSunday)), Flag(DamSireJP));
    assert TurfBLineage.rhs == Or(Or(b, Flag(NonSunday)), Flag(DamSireJP));
    assert Holds(Or(a, Flag(NonSunday)), r) <==> Holds(a, r) || Holds(Flag(NonSunday), r);
    assert Holds(Or(b, Flag(NonSunday)), r) <==> Holds(b, r) || Holds(Flag(NonSunday), r);
    assert Holds(TurfBLineage.lhs, r) <==> Holds(Or(a, Flag(NonSunday)), r) || Holds(Flag(DamSireJP), r);
    assert Holds(TurfBLineage.rhs, r) <==> Holds(Or(b, Flag(NonSunday)), r) || Holds(Flag(DamSireJP), r);
    assert Holds(a, r) <==> Holds(Flag(SireUS), r) || Holds(Flag(SireEU), r);
    assert Holds(b, r) <==> Holds(Flag(DamSireUS), r) || Holds(Flag(DamDamSireUS), r);
  }

  /** The 芝 B update misfires on a TurfB course exactly for the horses
      its masks tell apart. */
  lemma TurfBLineageMisfires(r: Runner)
    ensures Misfires(ToRule(TurfBLineage), r) <==>
      && InAnyList(CourseKey(r), [TurfB]) && r.ped.Some?
      && (FlagValue(r.ped.value, SireUS) || FlagValue(r.ped.value, SireEU))
      && !FlagValue(r.ped.value, DamSireUS) && !FlagValue(r.ped.value, DamDamSireUS)
      && !FlagValue(r.ped.value, NonSunday) && !FlagValue(r.ped.value, DamSireJP)
  {
    LineageMisfires(TurfBLineage, r);
    TurfBMasks(r);
  }

  /** The masks of the 芝 D update: they differ when only the dam's dam's
      sire is European. */
  lemma TurfDMasks(r: Runner)
    ensures Holds(TurfDLineage.lhs, r) && !Holds(TurfDLineage.rhs, r) <==>
      && r.ped.Some?
      && FlagValue(r.ped.value, DamDamSireEU) && !FlagValue(r.ped.value, DamSireEU)
      && FlagValue(r.ped.value, SireJP)
  {
    var eu := Or(Flag(DamSireEU), Flag(DamDamSireEU));
    assert TurfDLineage.lhs == And(eu, Flag(SireJP));
    assert TurfDLineage.rhs == And(Or(Flag(DamSireEU), Flag(DamSireEU)), Flag(SireJP));
    assert Holds(eu, r) <==> Holds(Flag(DamSireEU), r) || Holds(Flag(DamDamSireEU), r);
  }

  /** The 芝 D update misfires on a TurfD course for a Japanese-type sire
      whose dam's dam's sire, but not dam's sire, is European. */
  lemma TurfDLineageMisfires(r: Runner)
    ensures Misfires(ToRule(TurfDLineage), r) <==>
      && InAnyList(CourseKey(r), [TurfD]) && r.ped.Some?
      && FlagValue(r.ped.value, DamDamSireEU) && !FlagValue(r.ped.value, DamSireEU)
      && FlagValue(r.ped.value, SireJP)
  {
    LineageMisfires(TurfDLineage, r);
    TurfDMasks(r);
  }

  /** The masks of the ダート A update: they differ for a non-Sunday horse
      that is neither 米国A nor 米国B and whose sire is not of US type. */
  lemma DartAMasks(r: Runner)
    ensures Holds(DartALineage.lhs, r) && !Holds(DartALineage.rhs, r) <==>
      && r.ped.Some?
      && FlagValue(r.ped.value, NonSunday) && !FlagValue(r.ped.value, USA)
      && !FlagValue(r.ped.value, USB) && !FlagValue(r.ped.value, SireUS)
  {
    var a := Or(Flag(USA), Flag(USB));
    assert DartALineage.lhs == Or(a, Flag(NonSunday));
    assert DartALineage.rhs == Or(a, Flag(SireUS));
    assert Holds(a, r) <==> Holds(Flag(USA), r) || Holds(Flag(USB), r);
  }

  /** The ダート A update misfires on a DartA course exactly for those horses. */
  lemma DartALineageMisfires(r: Runner)
    ensures Misfires(ToRule(DartALineage), r) <==>
      && InAnyList(CourseKey(r), [DartA]) && r.ped.Some?
      && FlagValue(r.ped.value, NonSunday) && !FlagValue(r.ped.value, USA)
      && !FlagValue(r.ped.value, USB) && !FlagValue(r.ped.value, SireUS)
  {
    LineageMisfires(DartALineage, r);
    DartAMasks(r);
  }

  /** A runner on which one of the three misaligned updates misfires ends
      with blood_point 0, whatever the other updates add. */
  lemma MisalignedUpdateClearsBlood(r: Runner)
    requires Misfires(ToRule(TurfBLineage), r) || Misfires(ToRule(TurfDLineage), r)
             || Misfires(ToRule(DartALineage), r)
    ensures BloodPoint(r) == 0
  {
    assert BloodTable[77] == TurfBLineage && BloodTable[79] == TurfDLineage && BloodTable[80] == DartALineage;
    if Misfires(ToRule(TurfBLineage), r) {
      assert Misfires(BloodRules[77], r);
    } else if Misfires(ToRule(TurfDLineage), r) {
      assert Misfires(BloodRules[79], r);
    } else {
      assert Misfires(BloodRules[80], r);
    }
  }

  /** No update of the table selects a runner whose sire has no rule of its
      own and is in neither pace group, on a course in none of the groups. */
  lemma UnselectedOutsideTables(b: BloodRule, r: Runner)
    requires b.SireRule? ==> !(r.ped.Some? && r.ped.value.sireName == b.sire)
    requires r.ped.Some? ==> r.ped.value.sireName !in PaceSires(PaceDown) + PaceSires(PaceUp)
    requires forall l :: CourseKey(r) !in Courses(l)
    ensures !Holds(ToRule(b).lhs, r)
  {
  }

  /** A runner whose sire matches no named sire rule and is in neither pace
      group, racing on a course in none of the eight groups, ends with
      blood_point 0. */
  lemma {:induction false} BloodZeroOutsideTables(r: Runner)
    requires r.ped.Some? ==> r.ped.value.sireName !in NamedSires(BloodTable)
    requires r.ped.Some? ==> r.ped.value.sireName !in PaceSires(PaceDown) + PaceSires(PaceUp)
    requires forall l :: CourseKey(r) !in Courses(l)
    ensures BloodPoint(r) == 0
  {
    forall i | 0 <= i < |BloodRules| ensures !Holds(BloodRules[i].lhs, r) {
      UnselectedOutsideTables(BloodTable[i], r);
    }
    FoldUnselected(BloodRules, r, Some(0));
  }

  // ---------------------------------------------------------------------
  // advantage_point
  // ---------------------------------------------------------------------

  /** Distance-change updates (lines 490-493). */
  const DistanceRules: seq<Rule> := [
    Aligned(And(IntCmp(DistChangePrev, Gt, 0), IntCmp(PrevFinish, Le, 3)), -2),
    Aligned(And(And(IntCmp(DistChangePrevPrev, Gt, 0), IntCmp(PrevPrevFinish, Le, 3)), IntCmp(PrevFinish, Ge, 5)), 1)]

  /** Dirt gate-band updates (lines 502-515). */
  const GateRules: seq<Rule> := [
    Aligned(And(IntCmp(Gate, Le, 4), CourseIn(DartGateAPlus)), 1),
    Aligned(And(And(IntCmp(Gate, Le, 9), IntCmp(Gate, Ge, 5)), CourseIn(DartGateBPlus)), 1),
    Aligned(And(And(IntCmp(Gate, Le, 14), IntCmp(Gate, Ge, 10)), CourseIn(DartGateCPlus)), 1),
    Aligned(And(IntCmp(Gate, Ge, 15), CourseIn(DartGateDPlus)), 1),
    Aligned(And(IntCmp(Gate, Le, 4), CourseIn(DartGateAMinus)), -1),
    Aligned(And(And(IntCmp(Gate, Le, 14), IntCmp(Gate, Ge, 10)), CourseIn(DartGateCMinus)), -1),
    Aligned(And(IntCmp(Gate, Ge, 15), CourseIn(DartGateDMinus)), -1)]

  /** Gate-change and front-running updates (lines 516-521). */
  const PositionRules: seq<Rule> := [
    Aligned(And(And(And(RaceTypeIs("芝"), IntCmp(PrevGate, Le, 5)), IntCmp(PrevFinish, Le, 4)), IntCmp(Gate, Ge, 14)), -1),
    Aligned(And(And(And(RaceTypeIs("ダート"), IntCmp(Gate, Le, 5)), IntCmp(PrevFinish, Le, 3)), IntCmp(PrevGate, Ge, 14)), -1),
    Aligned(And(IntCmp(PrevFirstCorner, Eq, 1), IntCmp(PrevFinish, Eq, 1)), -1)]

  /** The season update (line 523). */
  const SeasonRule: Rule := Aligned(SeasonWonBefore, 1)

  const AdvantageRules: seq<Rule> := DistanceRules + GateRules + PositionRules + [SeasonRule]

  /** Every update of the list uses the same mask on both sides. */
  predicate AllAligned(rules: seq<Rule>) {
    forall i :: 0 <= i < |rules| ==> rules[i].lhs == rules[i].rhs
  }

  /** A list of aligned updates never produces NaN: the column is the sum
      of the deltas of the updates that select the row. */
  lemma AlignedPoints(rules: seq<Rule>, r: Runner)
    requires AllAligned(rules)
    ensures Points(rules, r) == SumFiring(rules, r)
  {
    FoldAddsFiring(rules, r, 0);
  }

  /** advantage_point: the distance, gate, position and season parts added up. */
  function AdvantagePoint(r: Runner): (p: int)
    ensures p == SumFiring(DistanceRules, r) + SumFiring(GateRules, r) + SumFiring(PositionRules, r)
                 + (if Holds(SeasonWonBefore, r) then 1 else 0)
  {
    assert AllAligned(AdvantageRules);
    AlignedPoints(AdvantageRules, r);
    SumAppend(DistanceRules + GateRules + PositionRules, [SeasonRule], r);
    SumAppend(DistanceRules + GateRules, PositionRules, r);
    SumAppend(DistanceRules, GateRules, r);
    assert [SeasonRule][..0] == [];
    Points(AdvantageRules, r)
  }

  /** What each gate update selects: a gate band and a course list. */
  lemma GateMasks(r: Runner)
    ensures Holds(GateRules[0].lhs, r) <==> r.row.entry.gate <= 4 && CourseKey(r) in DartGateAPlus
    ensures Holds(GateRules[1].lhs, r) <==> 5 <= r.row.entry.gate <= 9 && CourseKey(r) in DartGateBPlus
    ensures Holds(GateRules[2].lhs, r) <==> 10 <= r.row.entry.gate <= 14 && CourseKey(r) in DartGateCPlus
    ensures Holds(GateRules[3].lhs, r) <==> 15 <= r.row.entry.gate && CourseKey(r) in DartGateDPlus
    ensures Holds(GateRules[4].lhs, r) <==> r.row.entry.gate <= 4 && CourseKey(r) in DartGateAMinus
    ensures Holds(GateRules[5].lhs, r) <==> 10 <= r.row.entry.gate <= 14 && CourseKey(r) in DartGateCMinus
    ensures Holds(GateRules[6].lhs, r) <==> 15 <= r.row.entry.gate && CourseKey(r) in DartGateDMinus
  {
    var g := r.row.entry.gate;
    assert Holds(And(IntCmp(Gate, Le, 9), IntCmp(Gate, Ge, 5)), r) <==> 5 <= g <= 9;
    assert Holds(And(IntCmp(Gate, Le, 14), IntCmp(Gate, Ge, 10)), r) <==> 10 <= g <= 14;
  }

  /** The gate part is -1, 0 or +1: the four gate bands (1-4, 5-9, 10-14,
      15+) do not overlap, and within a band no course is in both the plus
      and the minus list, so at most one gate update selects a runner. */
  lemma GateContributionBounded(r: Runner)
    ensures Exclusive(GateRules, r)
    ensures -1 <= SumFiring(GateRules, r) <= 1
  {
    GateMasks(r);
    GatePlusMinusDisjoint(CourseKey(r));
    SumExclusiveBounded(GateRules, r, 1);
  }

  // ---------------------------------------------------------------------
  // The season and jockey bonuses
  // ---------------------------------------------------------------------

  /** The season test on one 実績季節 value: a one-character season name
      occurs in the joined seasons of the top-two rows exactly when one of
      those rows is of that season; with no such row the filler "無し"
      contains no season name. */
  lemma SeasonInJoined(season: string, top: seq<HistoryRow>)
    requires season in SeasonNames
    requires forall x :: x in top ==> |x.season| == 1
    ensures Occurs(season, SumOrMissing(top, SeasonsOf(top)).GetOr(Nothing)) <==>
      exists x :: x in top && x.season == season
  {
    var c := season[0];
    assert season == [c];
    CharOccurs(c, SumOrMissing(top, SeasonsOf(top)).GetOr(Nothing));
    if |top| == 0 {
      assert c !in Nothing;
    } else {
      CharInSeasons(c, top);
    }
  }

  /** The season test on a merged row whose 実績季節 joins the seasons of `top`. */
  lemma SeasonBonusOfRow(m: MergedRow, ped: Option<Pedigree>, top: seq<HistoryRow>)
    requires m.entry.season in SeasonNames
    requires forall x :: x in top ==> x.season in SeasonNames
    requires m.seasons == SumOrMissing(top, SeasonsOf(top))
    ensures Holds(SeasonWonBefore, Runner(m, ped)) <==> exists x :: x in top && x.season == m.entry.season
  {
    forall x | x in top ensures |x.season| == 1 {
    }
    SeasonInJoined(m.entry.season, top);
  }

  /** The season bonus: 季節 in 実績季節 holds exactly when the horse
      finished first or second at a JRA racecourse in an earlier race of the
      same season. */
  lemma SeasonBonusIffTopTwoInSeason(e: Entry, hr: seq<HistoryRow>, ped: Option<Pedigree>)
    requires e.season in SeasonNames
    requires forall x :: x in hr ==> x.season in SeasonNames
    ensures Holds(SeasonWonBefore, Runner(Features(e, hr), ped)) <==>
      exists x :: x in hr && PriorJraRun(e, x) && FinishedTopTwo(x) && x.season == e.season
  {
    var top := TopTwo(PriorJraRuns(e, hr));
    JoinedColumns(e, hr);
    assert forall x :: x in top <==> x in hr && PriorJraRun(e, x) && FinishedTopTwo(x);
    SeasonBonusOfRow(Features(e, hr), ped, top);
  }

  /** A jockey who finished first or second on the horse before at a JRA
      course always earns the jockey bonus. */
  lemma {:induction false} JockeyBonusAfterTopTwoRide(e: Entry, hr: seq<HistoryRow>, ped: Option<Pedigree>)
    requires exists x :: x in hr && PriorJraRun(e, x) && FinishedTopTwo(x) && x.jockeyId == e.jockeyId
    ensures Holds(JockeyWonBefore, Runner(Features(e, hr), ped))
  {
    FeaturesJoinTopTwo(e, hr);
  }

  /** The converse fails: the test is on the joined string, so ids 01126
      and 05339 joined contain 12605 though no ride was by that jockey. */
  lemma JockeyBonusIsSubstringTest(x1: HistoryRow, x2: HistoryRow)
    requires x1.jockeyId == "01126" && x2.jockeyId == "05339"
    ensures Occurs("12605", JockeysOf([x1, x2]))
    ensures x1.jockeyId != "12605" && x2.jockeyId != "12605"
  {
    var s := JockeysOf([x1, x2]);
    assert [x1, x2][1..] == [x2];
    assert [x2][1..] == [];
    assert JockeysOf([x2]) == "05339" + JockeysOf([]);
    assert s == "01126" + "05339";
    assert OccursAt("12605", s, 2);
  }

  // ---------------------------------------------------------------------
  // jockey_point, trainer_point
  // ---------------------------------------------------------------------

  const JockeyRules: seq<Rule> := [Aligned(JockeyIdIn(PlusJockeys), 2), Aligned(JockeyWonBefore, 2)]
  const TrainerRules: seq<Rule> := [Aligned(TrainerIdIn(PlusTrainers), 2)]

  // ---------------------------------------------------------------------
  // 着差_point (margins in tenths of a second)
  // ---------------------------------------------------------------------

  const MarginRules: seq<Rule> := [
    Aligned(IntCmp(PrevMargin, Le, -3), 3),
    Aligned(And(IntCmp(PrevMargin, Le, 0), IntCmp(PrevMargin, Ge, -2)), 2),
    Aligned(And(IntCmp(PrevMargin, Le, 2), IntCmp(PrevMargin, Ge, 1)), 1),
    Aligned(And(IntCmp(PrevMargin, Le, 6), IntCmp(PrevMargin, Ge, 3)), 0),
    Aligned(And(IntCmp(PrevMargin, Le, 9), IntCmp(PrevMargin, Ge, 7)), -1),
    Aligned(IntCmp(PrevMargin, Ge, 10), -2)]

  /** The margin buckets: a win by 0.3 s or more scores 3, down to a defeat
      by 1.0 s or more scoring -2; no previous run scores 0. */
  function MarginBucket(m: Option<int>): (p: int)
    ensures -2 <= p <= 3
    ensures m.None? ==> p == 0
  {
    if m.None? then 0
    else if m.value <= -3 then 3
    else if m.value <= 0 then 2
    else if m.value <= 2 then 1
    else if m.value <= 6 then 0
    else if m.value <= 9 then -1
    else -2
  }

  /** A larger margin never scores more. */
  lemma MarginBucketMonotone(a: int, b: int)
    requires a <= b
    ensures MarginBucket(Some(b)) <= MarginBucket(Some(a))
  {
  }

  /** 着差_point is the bucket of the previous run's margin: with a margin
      present exactly one of the six masks selects the runner. */
  lemma MarginPointsAreBucket(r: Runner)
    ensures Points(MarginRules, r) == MarginBucket(IntValue(r, PrevMargin))
  {
    assert AllAligned(MarginRules);
    AlignedPoints(MarginRules, r);
    var v := IntValue(r, PrevMargin);
    if v.None? {
      SumNoneSelected(MarginRules, r);
    } else {
      var m := v.value;
      var i := if m <= -3 then 0 else if m <= 0 then 1 else if m <= 2 then 2
               else if m <= 6 then 3 else if m <= 9 then 4 else 5;
      SumOneSelected(MarginRules, r, i);
    }
  }

  // ---------------------------------------------------------------------
  // 着順_point
  // ---------------------------------------------------------------------

  /** The 実質着順 updates for one earlier run (lines 563-582). */
  function RelRules(f: RealField): seq<Rule> {
    [Aligned(RealCmp(f, Ge, 0.8), 3),
     Aligned(And(RealCmp(f, Ge, 0.7), RealCmp(f, Lt, 0.8)), 2),
     Aligned(And(RealCmp(f, Ge, 0.6), RealCmp(f, Lt, 0.7)), 1),
     Aligned(And(RealCmp(f, Ge, 0.3), RealCmp(f, Lt, 0.4)), -1),
     Aligned(RealCmp(f, Lt, 0.3), -2)]
  }

  /** A 4th to 8th place last time. */
  const MidfieldRule: Rule := Aligned(And(IntCmp(PrevFinish, Ge, 4), IntCmp(PrevFinish, Le, 8)), 1)

  const RankRules: seq<Rule> := [MidfieldRule] + RelRules(RelFinish2) + RelRules(RelFinish3)

  /** The 実質着順 buckets; [0.4, 0.6) and a missing value score 0. */
  function RelBucket(x: Option<real>): (p: int)
    ensures -2 <= p <= 3
    ensures x.None? ==> p == 0
  {
    if x.None? then 0
    else if x.value >= 0.8 then 3
    else if x.value >= 0.7 then 2
    else if x.value >= 0.6 then 1
    else if x.value >= 0.4 then 0
    else if x.value >= 0.3 then -1
    else -2
  }

  /** A better relative finish never scores less. */
  lemma RelBucketMonotone(a: real, b: real)
    requires a <= b
    ensures RelBucket(Some(a)) <= RelBucket(Some(b))
  {
  }

  /** The updates for one earlier run add the bucket of its 実質着順. */
  lemma RelPointsAreBucket(f: RealField, r: Runner)
    ensures SumFiring(RelRules(f), r) == RelBucket(RealValue(r, f))
  {
    var v := RealValue(r, f);
    if v.None? || (0.4 <= v.value < 0.6) {
      SumNoneSelected(RelRules(f), r);
    } else {
      var x := v.value;
      var i := if x >= 0.8 then 0 else if x >= 0.7 then 1 else if x >= 0.6 then 2 else if x >= 0.3 then 3 else 4;
      SumOneSelected(RelRules(f), r, i);
    }
  }

  /** 着順_point: 1 for a 4th-8th place last time, plus the buckets of the
      2nd and 3rd previous runs' 実質着順; so it lies in [-4, 7]. */
  lemma RankPointsDecompose(r: Runner)
    ensures Points(RankRules, r) ==
      (if Holds(MidfieldRule.lhs, r) then 1 else 0)
      + RelBucket(RealValue(r, RelFinish2)) + RelBucket(RealValue(r, RelFinish3))
    ensures -4 <= Points(RankRules, r) <= 7
  {
    assert AllAligned(RankRules);
    AlignedPoints(RankRules, r);
    SumAppend([MidfieldRule] + RelRules(RelFinish2), RelRules(RelFinish3), r);
    SumAppend([MidfieldRule], RelRules(RelFinish2), r);
    assert [MidfieldRule][..0] == [];
    RelPointsAreBucket(RelFinish2, r);
    RelPointsAreBucket(RelFinish3, r);
  }

  // ---------------------------------------------------------------------
  // All points of one runner, and the quinella label
  // ---------------------------------------------------------------------

  datatype Scores = Scores(blood: int, advantage: int, jockey: int, trainer: int,
                           margin: int, rank: int, camp: int)

  /** The integer point columns of Peds.point for one runner; camp is
      jockey_point + trainer_point. */
  function ScoresOf(r: Runner): (s: Scores)
    ensures s.camp == s.jockey + s.trainer
    ensures s.jockey in {0, 2, 4} && s.trainer in {0, 2}
    ensures s.jockey == 4 <==> r.row.entry.jockeyId in PlusJockeys && Holds(JockeyWonBefore, r)
    ensures s.jockey == (if r.row.entry.jockeyId in PlusJockeys then 2 else 0) + (if Holds(JockeyWonBefore, r) then 2 else 0)
    ensures s.trainer == 2 <==> r.row.entry.trainerId in PlusTrainers
    ensures s.margin == MarginBucket(IntValue(r, PrevMargin))
    ensures s.rank == (if Holds(MidfieldRule.lhs, r) then 1 else 0)
                      + RelBucket(RealValue(r, RelFinish2)) + RelBucket(RealValue(r, RelFinish3))
    ensures -4 <= s.rank <= 7
    ensures s.blood == BloodPoint(r) && s.advantage == AdvantagePoint(r)
  {
    AlignedPoints(JockeyRules, r);
    AlignedPoints(TrainerRules, r);
    assert JockeyRules[..1][..0] == [] && TrainerRules[..0] == [];
    MarginPointsAreBucket(r);
    RankPointsDecompose(r);
    var j, t := Points(JockeyRules, r), Points(TrainerRules, r);
    Scores(BloodPoint(r), AdvantagePoint(r), j, t, Points(MarginRules, r), Points(RankRules, r), j + t)
  }

  /** `quinella`: 1 when the finishing position is at most 2, 0 otherwise
      (a missing position compares false). */
  function Quinella(finish: Option<nat>): (q: int)
    ensures q == 0 || q == 1
  {
    if finish.Some? && finish.value <= 2 then 1 else 0
  }

  /** For a real finishing position the label marks exactly the first two. */
  lemma QuinellaMarksTopTwo(finish: Option<nat>)
    requires finish != Some(0)
    ensures Quinella(finish) == 1 <==> finish == Some(1) || finish == Some(2)
  {
  }

  // ---------------------------------------------------------------------
  // The Peds table
  // ---------------------------------------------------------------------

  /** `peds_shinba` of Peds.p_p: the pedigree of every horse in the loaded
      table, keyed by its horse id. */
  function PedigreeTable(peds: map<string, AncestorRows>): (df: map<string, Pedigree>)
    ensures forall h :: h in df <==> h in peds
    ensures forall h :: h in peds ==> df[h] == PedigreeOf(peds[h])
  {
    map h | h in peds :: PedigreeOf(peds[h])
  }

  /** `pd.merge(results, self.df, on="horse_id", how="left")`. */
  function Join(results: seq<MergedRow>, df: map<string, Pedigree>): (rs: seq<Runner>)
    ensures |rs| == |results|
    ensures forall i :: 0 <= i < |results| ==> rs[i].row == results[i]
    ensures forall i :: 0 <= i < |results| ==>
      rs[i].ped == if results[i].entry.horseId in df then Some(df[results[i].entry.horseId]) else None
  {
    if |results| == 0 then []
    else
      var h := results[0].entry.horseId;
      [Runner(results[0], if h in df then Some(df[h]) else None)] + Join(results[1..], df)
  }

  /** The scores read off the point columns of one runner, each column
      holding the fold of its update list started at 0. */
  lemma ScoresFromColumns(r: Runner, b: Option<int>, a: Option<int>, j: Option<int>, t: Option<int>,
                          m: Option<int>, k: Option<int>)
    requires b == FoldRules(BloodRules, r, Some(0)) && a == FoldRules(AdvantageRules, r, Some(0))
    requires j == FoldRules(JockeyRules, r, Some(0)) && t == FoldRules(TrainerRules, r, Some(0))
    requires m == FoldRules(MarginRules, r, Some(0)) && k == FoldRules(RankRules, r, Some(0))
    ensures ScoresOf(r) == Scores(b.GetOr(0), a.GetOr(0), j.GetOr(0), t.GetOr(0), m.GetOr(0), k.GetOr(0),
                                  j.GetOr(0) + t.GetOr(0))
  {
  }

  /** Read the scores of every runner off its point columns. */
  method Assemble(rows: seq<Runner>, b: seq<Option<int>>, a: seq<Option<int>>, j: seq<Option<int>>,
                  t: seq<Option<int>>, m: seq<Option<int>>, k: seq<Option<int>>) returns (out: seq<Scores>)
    requires |b| == |a| == |j| == |t| == |m| == |k| == |rows|
    requires forall i :: 0 <= i < |rows| ==> b[i] == FoldRules(BloodRules, rows[i], Some(0))
    requires forall i :: 0 <= i < |rows| ==> a[i] == FoldRules(AdvantageRules, rows[i], Some(0))
    requires forall i :: 0 <= i < |rows| ==> j[i] == FoldRules(JockeyRules, rows[i], Some(0))
    requires forall i :: 0 <= i < |rows| ==> t[i] == FoldRules(TrainerRules, rows[i], Some(0))
    requires forall i :: 0 <= i < |rows| ==> m[i] == FoldRules(MarginRules, rows[i], Some(0))
    requires forall i :: 0 <= i < |rows| ==> k[i] == FoldRules(RankRules, rows[i], Some(0))
    ensures |out| == |rows|
    ensures forall i :: 0 <= i < |rows| ==> out[i] == ScoresOf(rows[i])
  {
    out := [];
    var n := 0;
    while n < |rows|
      invariant 0 <= n <= |rows| && |out| == n
      invariant forall i :: 0 <= i < n ==> out[i] == ScoresOf(rows[i])
    {
      ScoresFromColumns(rows[n], b[n], a[n], j[n], t[n], m[n], k[n]);
      var jp, tp := j[n].GetOr(0), t[n].GetOr(0);
      out := out + [Scores(b[n].GetOr(0), a[n].GetOr(0), jp, tp, m[n].GetOr(0), k[n].GetOr(0), jp + tp)];
      n := n + 1;
    }
  }

  class Peds {
    var peds: map<string, AncestorRows>   // the loaded pedigree table, by horse id
    var df: map<string, Pedigree>         // peds_shinba
    var runners: seq<Runner>              // merged_df, without its point columns
    var blood: array<Option<int>>         // merged_df["blood_point"]
    var advantage: array<Option<int>>     // merged_df["advantage_point"]
    var pointed: seq<Scores>
    var preprocessed: bool                // p_p has filled df
    var joined: bool                      // merge has filled merged_df

    /** The point columns hold what the update lists give for each runner. */
    predicate Valid()
      reads this`runners, this`blood, this`advantage, blood, advantage
    {
      && blood.Length == |runners| && advantage.Length == |runners|
      && (forall i :: 0 <= i < |runners| ==> blood[i] == FoldRules(BloodRules, runners[i], Some(0)))
      && (forall i :: 0 <= i < |runners| ==> advantage[i] == FoldRules(AdvantageRules, runners[i], Some(0)))
    }

    constructor(loaded: map<string, AncestorRows>)
      ensures peds == loaded && df == map[] && runners == [] && pointed == []
      ensures !preprocessed && !joined
      ensures Valid()
    {
      peds := loaded;
      df := map[];
      runners := [];
      blood := new Option<int>[0];
      advantage := new Option<int>[0];
      pointed := [];
      preprocessed, joined := false, false;
    }

    /** Peds.p_p: one pedigree row per horse. */
    method PreProcess()
      modifies this
      ensures df == PedigreeTable(peds)
      ensures preprocessed && joined == old(joined)
      ensures peds == old(peds) && runners == old(runners) && pointed == old(pointed)
      ensures blood == old(blood) && advantage == old(advantage)
      ensures Valid() <==> old(Valid())
    {
      df, preprocessed := PedigreeTable(peds), true;
    }

    /** Peds.merge: join the pedigree rows to the race rows, then run the
        blood_point and advantage_point updates over the whole column. `ok`
        is false where Python raises: before p_p, `df` has no horse_id
        column to join on, and nothing is changed. */
    method Merge(results: seq<MergedRow>) returns (ok: bool)
      requires Valid()
      modifies this
      ensures ok <==> preprocessed
      ensures ok ==> runners == Join(results, df) && joined && fresh(blood) && fresh(advantage)
      ensures !ok ==> runners == old(runners) && joined == old(joined)
      ensures !ok ==> blood == old(blood) && advantage == old(advantage)
      ensures Valid()
      ensures peds == old(peds) && df == old(df) && pointed == old(pointed) && preprocessed == old(preprocessed)
    {
      if !preprocessed {
        return false;
      }
      runners := Join(results, df);
      blood := NewColumn(runners, BloodRules);
      advantage := NewColumn(runners, AdvantageRules);
      joined := true;
      return true;
    }

    /** Peds.point: the jockey, trainer, margin and rank columns, then
        blood_point with NaN filled by 0, and camp. `ok` is false where
        Python raises: before merge, `merged_df` has no jockey_id column,
        and nothing is changed. */
    method Point() returns (ok: bool)
      requires Valid()
      modifies this
      ensures ok <==> joined
      ensures ok ==> |pointed| == |runners|
      ensures ok ==> forall i :: 0 <= i < |runners| ==> pointed[i] == ScoresOf(runners[i])
      ensures !ok ==> pointed == old(pointed)
      ensures peds == old(peds) && df == old(df) && runners == old(runners)
      ensures blood == old(blood) && advantage == old(advantage)
      ensures preprocessed == old(preprocessed) && joined == old(joined)
      ensures Valid()
    {
      if !joined {
        return false;
      }
      var b, a := blood, advantage;
      var jockey := NewColumn(runners, JockeyRules);
      var trainer := NewColumn(runners, TrainerRules);
      var margin := NewColumn(runners, MarginRules);
      var rank := NewColumn(runners, RankRules);
      pointed := Assemble(runners, b[..], a[..], jockey[..], trainer[..], margin[..], rank[..]);
      return true;
    }
  }
}
