/** The pedigree-lineage classifier: Peds.p_p_1 flags one ancestor row
    (five generation strings), Peds.p_p combines four classified rows of a
    horse into its pedigree features. */
module Lineage {
  import opened Text

  /** One row of the pedigree table: the names listed in generations 1..5. */
  datatype AncestorRow = AncestorRow(g1: string, g2: string, g3: string, g4: string, g5: string)

  function Generation(row: AncestorRow, g: nat): string
    requires 1 <= g <= 5
  {
    match g
    case 1 => row.g1
    case 2 => row.g2
    case 3 => row.g3
    case 4 => row.g4
    case 5 => row.g5
  }

  /** The 34 sub-lineages (小系統) of Peds.p_p_1. */
  datatype SubLineage =
    | MyBabu | Warning | Relaunch | Sterling | USMinor | Ribot | Hampton
    | Nijinsky | EuropeanND | Sadler | EuropeanDanzig | USDanzig | ViceRegent
    | StormBird | NorthernTaste | Halo | Roberto | SirGaylord | USNative
    | EuropeanNative | Kingmambo | FortyNiner | Darley | Fappiano
    | OtherMrProspector | GreySovereign | PrincelyGift | BoldRuler | RedGod
    | NeverBend | Deep | TSunday | PSunday | DSunday

  const AllSubLineages: seq<SubLineage> := [
    MyBabu, Warning, Relaunch, Sterling, USMinor, Ribot, Hampton,
    Nijinsky, EuropeanND, Sadler, EuropeanDanzig, USDanzig, ViceRegent,
    StormBird, NorthernTaste, Halo, Roberto, SirGaylord, USNative,
    EuropeanNative, Kingmambo, FortyNiner, Darley, Fappiano,
    OtherMrProspector, GreySovereign, PrincelyGift, BoldRuler, RedGod,
    NeverBend, Deep, TSunday, PSunday, DSunday]

  /** The names that mark a sub-lineage in every generation it is looked for. */
  function BaseNames(l: SubLineage): seq<string> {
    match l
    case MyBabu => ["メジロマックイーン", "トウカイテイオー"]  // マイバブー系
    case Warning => ["Warning"]  // ウォーニング系
    case Relaunch => ["Relaunch"]  // リローンチ系
    case Sterling => ["Monsun"]  // スターリング系
    case USMinor => ["Damascus", "Icecapade", "Wild Again", "Holy Bull", "Broad Brush"]  // 米国マイナー系
    case Ribot => ["Graustark", "His Majesty", "Tom Rolfe", "Ribot"]  // リボー系
    case Hampton => ["Dictus", "Surumu", "Forli", "Star Kingdom"]  // ハンプトン系
    case Nijinsky => ["Nijinsky"]  // ニジンスキー系
    case EuropeanND => ["Lyphard", "Dancing Brave", "ホワイトマズル", "キングヘイロー", "Nureyev", "Pivotal", "Last Tycoon", "Fairy King", "Assatis"]  // 欧州ND系
    case Sadler => ["Sadler's Wells"]  // サドラー系
    case EuropeanDanzig => ["Green Desert", "Danehill"]  // 欧州ダンチヒ系
    case USDanzig => ["Chief's Crown", "Chief Bearhart", "Hard Spun"]  // 米国ダンチヒ系
    case ViceRegent => ["Vice Regent", "Deputy Minister"]  // ヴァイスリージェント系
    case StormBird => ["Storm Bird", "Storm Cat"]  // ストームバード系
    case NorthernTaste => ["ノーザンテースト"]  // ノーザンテースト系
    case Halo => ["Devil", "Glorious Song", "サザンヘイロー"]  // ヘイロー系
    case Roberto => ["Roberto"]  // ロベルト系
    case SirGaylord => ["Habitat", "Sir Tristram"]  // サーゲイロード系
    case USNative => ["Kauai King", "Majestic Prince", "Affirmed", "Alydar"]  // 米国ネイティヴ系
    case EuropeanNative => ["Atan", "Sharpen Up", "Sea-Bird"]  // 欧州ネイティヴ系
    case Kingmambo => ["Kingmambo"]  // キングマンボ系
    case FortyNiner => ["サウスヴィグラス", "プリサイスエンド", "スウェプトオーヴァーボード", "スイープトウショウ", "ラインクラフト", "アイルハヴアナザー", "Coronado's Quest"]  // 49er系
    case Darley => ["アドマイヤムーン"]  // ダーレー系
    case Fappiano => ["Fappiano"]  // ファピアノ系
    case OtherMrProspector => ["Woodman", "Gone West", "Seeking the Gold", "Machiavellian", "Smart Strike", "King Glorious", "アグネスデジタル", "Afreet", "Gulch", "Jade Robbery", "Scan", "War Emblem", "Aldebaran"]  // その他ミスプロ系
    case GreySovereign => ["シービークロス", "Cozzene", "Tony Bin", "Caro"]  // グレイソヴリン系
    case PrincelyGift => ["サクラユタカオー"]  // プリンスリーギフト系
    case BoldRuler => ["ロイヤルスキー", "Seattle Slew"]  // ボールドルーラー系
    case RedGod => ["Blushing Groom"]  // レッドゴッド系
    case NeverBend => ["Shirley Heights", "Mill Reef", "ミルジョージ", "Magnitude", "Riverman", "Bravest Roman"]  // ネヴァーベンド系
    case Deep => ["ディープインパクト"]  // ディープ系
    case TSunday => ["ブラックタイド", "ステイゴールド", "ゼンノロブロイ", "ハーツクライ", "ヴィクトワールピサ", "マンハッタンカフェ", "オルフェーヴル", "ダンスインザダーク", "スペシャルウィーク", "アドマイヤグルーヴ"]  // Tサンデー系
    case PSunday => ["フジキセキ", "ダイワメジャー", "キンシャサノキセキ", "デュランダル", "マツリダゴッホ", "ジョーカプチーノ", "アグネスタキオン"]  // Pサンデー系
    case DSunday => ["ゴールドアリュール", "カネヒキリ", "ネオユニヴァース", "ディープスカイ", "スズカマンボ"]  // Dサンデー系
  }

  const Miswaki := "Miswaki"
  const AgnesTachyon := "アグネスタキオン"
  const SundaySilence := "サンデーサイレンス"

  /** The pattern searched for in generation `g`: the base names, except that
      Miswaki also marks Kingmambo in generation 1 and Agnes Tachyon is not
      searched for in generation 5 of the P-Sunday line. */
  function NamesAt(l: SubLineage, g: nat): (names: seq<string>)
    requires 1 <= g <= 5
    ensures Miswaki in names <==> l == Kingmambo && g == 1
    ensures l == PSunday ==> (AgnesTachyon in names <==> g < 5)
    ensures forall n :: n in BaseNames(l) && !(l == PSunday && g == 5 && n == AgnesTachyon) ==> n in names
    ensures forall n :: n in names ==> n in BaseNames(l) || n == Miswaki
  {
    MiswakiNotListed(l);
    assert BaseNames(PSunday) == BaseNames(PSunday)[..6] + [AgnesTachyon];
    assert AgnesTachyon !in BaseNames(PSunday)[..6];
    if l == Kingmambo && g == 1 then BaseNames(l) + [Miswaki]
    else if l == PSunday && g == 5 then BaseNames(l)[..6]
    else BaseNames(l)
  }

  /** Miswaki is in none of the name lists. */
  lemma MiswakiNotListed(l: SubLineage)
    ensures Miswaki !in BaseNames(l)
  {
    if l == MyBabu || l == Warning || l == Relaunch || l == Sterling || l == USMinor || l == Ribot {
      MiswakiNotListedIn1(l);
    } else if l == Hampton || l == Nijinsky || l == EuropeanND || l == Sadler || l == EuropeanDanzig || l == USDanzig {
      MiswakiNotListedIn2(l);
    } else if l == ViceRegent || l == StormBird || l == NorthernTaste || l == Halo || l == Roberto || l == SirGaylord {
      MiswakiNotListedIn3(l);
    } else if l == USNative || l == EuropeanNative || l == Kingmambo || l == FortyNiner || l == Darley || l == Fappiano {
      MiswakiNotListedIn4(l);
    } else if l == OtherMrProspector || l == GreySovereign || l == PrincelyGift || l == BoldRuler || l == RedGod || l == NeverBend {
      MiswakiNotListedIn5(l);
    } else if l == Deep || l == TSunday || l == PSunday || l == DSunday {
      MiswakiNotListedIn6(l);
    }
  }

  // The proof that Miswaki is not listed, six lineages at a time to keep
  // each proof small.

  lemma MiswakiNotListedIn1(l: SubLineage)
    requires l == MyBabu || l == Warning || l == Relaunch || l == Sterling || l == USMinor || l == Ribot
    ensures Miswaki !in BaseNames(l)
  {
  }

  lemma MiswakiNotListedIn2(l: SubLineage)
    requires l == Hampton || l == Nijinsky || l == EuropeanND || l == Sadler || l == EuropeanDanzig || l == USDanzig
    ensures Miswaki !in BaseNames(l)
  {
  }

  lemma MiswakiNotListedIn3(l: SubLineage)
    requires l == ViceRegent || l == StormBird || l == NorthernTaste || l == Halo || l == Roberto || l == SirGaylord
    ensures Miswaki !in BaseNames(l)
  {
  }

  lemma MiswakiNotListedIn4(l: SubLineage)
    requires l == USNative || l == EuropeanNative || l == Kingmambo || l == FortyNiner || l == Darley || l == Fappiano
    ensures Miswaki !in BaseNames(l)
  {
  }

  lemma MiswakiNotListedIn5(l: SubLineage)
    requires l == OtherMrProspector || l == GreySovereign || l == PrincelyGift || l == BoldRuler || l == RedGod || l == NeverBend
    ensures Miswaki !in BaseNames(l)
  {
  }

  lemma MiswakiNotListedIn6(l: SubLineage)
    requires l == Deep || l == TSunday || l == PSunday || l == DSunday
    ensures Miswaki !in BaseNames(l)
  {
  }

  /** Specification of a sub-lineage flag: some generation contains one of
      the names searched for in it. */
  ghost predicate HasSubLineage(row: AncestorRow, l: SubLineage) {
    exists g, n :: 1 <= g <= 5 && n in NamesAt(l, g) && IsSubstring(n, Generation(row, g))
  }

  /** The `|` of five `str.contains` tests for one sub-lineage. */
  function SubFlag(row: AncestorRow, l: SubLineage): (r: bool)
    ensures r <==> HasSubLineage(row, l)
  {
    var r := ContainsAny(NamesAt(l, 1), row.g1) || ContainsAny(NamesAt(l, 2), row.g2)
      || ContainsAny(NamesAt(l, 3), row.g3) || ContainsAny(NamesAt(l, 4), row.g4)
      || ContainsAny(NamesAt(l, 5), row.g5);
    assert r ==> HasSubLineage(row, l) by {
      if ContainsAny(NamesAt(l, 1), row.g1) { FoundInGeneration(row, l, 1); }
      if ContainsAny(NamesAt(l, 2), row.g2) { FoundInGeneration(row, l, 2); }
      if ContainsAny(NamesAt(l, 3), row.g3) { FoundInGeneration(row, l, 3); }
      if ContainsAny(NamesAt(l, 4), row.g4) { FoundInGeneration(row, l, 4); }
      if ContainsAny(NamesAt(l, 5), row.g5) { FoundInGeneration(row, l, 5); }
    }
    r
  }

  lemma FoundInGeneration(row: AncestorRow, l: SubLineage, g: nat)
    requires 1 <= g <= 5 && ContainsAny(NamesAt(l, g), Generation(row, g))
    ensures HasSubLineage(row, l)
  {
    var n :| n in NamesAt(l, g) && IsSubstring(n, Generation(row, g));
  }

  /** The major lineages (大系統). Sunday is found by name; the others are
      unions of sub-lineages. */
  datatype Major = Sunday | Nasrullah | MrProspector | TurnTo | USNorthernDancer | EuropeanNorthernDancer

  const AllMajors: seq<Major> := [Sunday, Nasrullah, MrProspector, TurnTo, USNorthernDancer, EuropeanNorthernDancer]

  /** The sub-lineages a major lineage is the union of (none for Sunday). */
  function Members(m: Major): seq<SubLineage> {
    match m
    case Sunday => []
    case Nasrullah => [GreySovereign, PrincelyGift, BoldRuler, RedGod, NeverBend]
    case MrProspector => [Kingmambo, FortyNiner, Darley, Fappiano, OtherMrProspector]
    case TurnTo => [Halo, Roberto, SirGaylord]
    case USNorthernDancer => [USDanzig, ViceRegent, StormBird]
    case EuropeanNorthernDancer => [Nijinsky, EuropeanND, Sadler, EuropeanDanzig]
  }

  /** The country types (国系統型): 日本型, 米国型, 欧州型. */
  datatype Region = Japan | US | Europe

  const AllRegions: seq<Region> := [Japan, US, Europe]

  /** The sub-lineages listed directly in a type's union. */
  function RegionSubs(t: Region): seq<SubLineage> {
    match t
    case Japan => [PrincelyGift, Darley, NorthernTaste]
    case US => [Relaunch, USMinor, Halo, USNative, FortyNiner, Fappiano, OtherMrProspector, BoldRuler]
    case Europe => [MyBabu, Warning, Sterling, Ribot, Hampton, Roberto, SirGaylord,
                    EuropeanNative, Kingmambo, GreySovereign, RedGod, NeverBend]
  }

  /** The major lineage listed in a type's union. */
  function RegionMajor(t: Region): Major {
    match t
    case Japan => Sunday
    case US => USNorthernDancer
    case Europe => EuropeanNorthernDancer
  }

  /** One ancestor row after Peds.p_p_1: a flag is "1" iff it is in its set. */
  datatype Classified = Classified(row: AncestorRow, sub: set<SubLineage>, major: set<Major>, regions: set<Region>)

  lemma AllListed(l: SubLineage, m: Major, t: Region)
    ensures l in AllSubLineages && m in AllMajors && t in AllRegions
  {
  }

  /** The sub-lineage columns of one row. */
  function SubFlags(row: AncestorRow): (sub: set<SubLineage>)
    ensures forall l :: l in sub <==> HasSubLineage(row, l)
  {
    forall l ensures l in AllSubLineages { AllListed(l, Sunday, Japan); }
    set l | l in AllSubLineages && SubFlag(row, l)
  }

  /** The 大系統 columns: Sunday by name, the others as unions. */
  function MajorFlags(row: AncestorRow, sub: set<SubLineage>): (major: set<Major>)
    ensures Sunday in major <==> exists g :: 1 <= g <= 5 && IsSubstring(SundaySilence, Generation(row, g))
    ensures forall m :: m != Sunday ==> (m in major <==> exists l :: l in Members(m) && l in sub)
  {
    forall m ensures m in AllMajors { AllListed(MyBabu, m, Japan); }
    var sunday := Occurs(SundaySilence, row.g1) || Occurs(SundaySilence, row.g2)
      || Occurs(SundaySilence, row.g3) || Occurs(SundaySilence, row.g4) || Occurs(SundaySilence, row.g5);
    assert sunday <==> exists g :: 1 <= g <= 5 && IsSubstring(SundaySilence, Generation(row, g)) by {
      if exists g :: 1 <= g <= 5 && IsSubstring(SundaySilence, Generation(row, g)) {
        var g :| 1 <= g <= 5 && IsSubstring(SundaySilence, Generation(row, g));
        assert Occurs(SundaySilence, Generation(row, g));
      }
      if Occurs(SundaySilence, row.g1) { assert Generation(row, 1) == row.g1; }
      if Occurs(SundaySilence, row.g2) { assert Generation(row, 2) == row.g2; }
      if Occurs(SundaySilence, row.g3) { assert Generation(row, 3) == row.g3; }
      if Occurs(SundaySilence, row.g4) { assert Generation(row, 4) == row.g4; }
      if Occurs(SundaySilence, row.g5) { assert Generation(row, 5) == row.g5; }
    }
    set m | m in AllMajors && (if m == Sunday then sunday else exists l | l in Members(m) :: l in sub)
  }

  /** The 日本型 / 米国型 / 欧州型 columns. */
  function RegionFlags(sub: set<SubLineage>, major: set<Major>): (regions: set<Region>)
    ensures forall t :: t in regions <==> RegionMajor(t) in major || exists l :: l in RegionSubs(t) && l in sub
  {
    forall t ensures t in AllRegions { AllListed(MyBabu, Sunday, t); }
    set t | t in AllRegions && (RegionMajor(t) in major || exists l | l in RegionSubs(t) :: l in sub)
  }

  /** Peds.p_p_1 for one row. */
  function Classify(row: AncestorRow): (c: Classified)
    ensures c.row == row
    ensures forall l :: l in c.sub <==> HasSubLineage(row, l)
    ensures Sunday in c.major <==> exists g :: 1 <= g <= 5 && IsSubstring(SundaySilence, Generation(row, g))
    ensures forall m :: m != Sunday ==> (m in c.major <==> exists l :: l in Members(m) && l in c.sub)
    ensures forall t :: t in c.regions <==>
      RegionMajor(t) in c.major || exists l :: l in RegionSubs(t) && l in c.sub
    ensures Sunday in c.major ==> Japan in c.regions
    ensures USNorthernDancer in c.major ==> US in c.regions
    ensures EuropeanNorthernDancer in c.major ==> Europe in c.regions
  {
    var sub := SubFlags(row);
    var major := MajorFlags(row, sub);
    Classified(row, sub, major, RegionFlags(sub, major))
  }

  // ---------------------------------------------------------------------
  // The two irregular patterns
  // ---------------------------------------------------------------------

  /** Where "Kingmambo" itself is absent, the Kingmambo flag is set exactly
      when generation 1 mentions Miswaki: Miswaki counts in no other generation. */
  lemma {:induction false} KingmamboByMiswaki(row: AncestorRow)
    requires forall g :: 1 <= g <= 5 ==> !IsSubstring("Kingmambo", Generation(row, g))
    ensures Kingmambo in Classify(row).sub <==> IsSubstring(Miswaki, row.g1)
  {
    if IsSubstring(Miswaki, row.g1) {
      assert Miswaki in NamesAt(Kingmambo, 1) && row.g1 == Generation(row, 1);
    }
    if HasSubLineage(row, Kingmambo) {
      var g, n :| 1 <= g <= 5 && n in NamesAt(Kingmambo, g) && IsSubstring(n, Generation(row, g));
      assert g == 1 && n == Miswaki;
    }
  }

  /** Miswaki in generation 2 does not set the Kingmambo flag; in generation 1 it does. */
  lemma MiswakiOnlyInFirstGeneration()
    ensures Kingmambo in Classify(AncestorRow(Miswaki, "", "", "", "")).sub
    ensures Kingmambo !in Classify(AncestorRow("", Miswaki, "", "", "")).sub
  {
    var first := AncestorRow(Miswaki, "", "", "", "");
    var second := AncestorRow("", Miswaki, "", "", "");
    forall g | 1 <= g <= 5
      ensures !IsSubstring("Kingmambo", Generation(first, g))
      ensures !IsSubstring("Kingmambo", Generation(second, g))
    {
      LongerNeverOccurs("Kingmambo", Generation(first, g));
      LongerNeverOccurs("Kingmambo", Generation(second, g));
    }
    KingmamboByMiswaki(first);
    KingmamboByMiswaki(second);
    SelfOccurs(Miswaki);
    LongerNeverOccurs(Miswaki, "");
  }

  /** Where no other P-Sunday name occurs, the P-Sunday flag is set exactly
      when Agnes Tachyon is in generations 1..4: generation 5 is not searched
      for it. */
  lemma {:induction false} PSundayByAgnesTachyon(row: AncestorRow)
    requires forall g, n :: 1 <= g <= 5 && n in BaseNames(PSunday)[..6] ==> !IsSubstring(n, Generation(row, g))
    ensures PSunday in Classify(row).sub <==> exists g :: 1 <= g <= 4 && IsSubstring(AgnesTachyon, Generation(row, g))
  {
    if exists g :: 1 <= g <= 4 && IsSubstring(AgnesTachyon, Generation(row, g)) {
      var g :| 1 <= g <= 4 && IsSubstring(AgnesTachyon, Generation(row, g));
      assert AgnesTachyon in NamesAt(PSunday, g);
    }
    if HasSubLineage(row, PSunday) {
      var g, n :| 1 <= g <= 5 && n in NamesAt(PSunday, g) && IsSubstring(n, Generation(row, g));
      assert n !in BaseNames(PSunday)[..6];
      assert g != 5;
    }
  }

  /** Agnes Tachyon alone in generation 5 leaves the P-Sunday flag unset;
      in generation 4 it sets it. */
  lemma AgnesTachyonMissedInFifthGeneration()
    ensures PSunday !in Classify(AncestorRow("", "", "", "", AgnesTachyon)).sub
    ensures PSunday in Classify(AncestorRow("", "", "", AgnesTachyon, "")).sub
  {
    var fifth := AncestorRow("", "", "", "", AgnesTachyon);
    var fourth := AncestorRow("", "", "", AgnesTachyon, "");
    OtherPSundayNamesAbsent(fifth);
    OtherPSundayNamesAbsent(fourth);
    PSundayByAgnesTachyon(fifth);
    PSundayByAgnesTachyon(fourth);
    SelfOccurs(AgnesTachyon);
    forall g | 1 <= g <= 4 ensures !IsSubstring(AgnesTachyon, Generation(fifth, g)) {
      LongerNeverOccurs(AgnesTachyon, "");
    }
    assert Generation(fourth, 4) == AgnesTachyon;
  }

  /** A row whose generations are empty or "アグネスタキオン" mentions none of
      the other six P-Sunday names. */
  lemma OtherPSundayNamesAbsent(row: AncestorRow)
    requires forall g :: 1 <= g <= 5 ==> Generation(row, g) in {"", AgnesTachyon}
    ensures forall g, n :: 1 <= g <= 5 && n in BaseNames(PSunday)[..6] ==> !IsSubstring(n, Generation(row, g))
  {
    forall g, n | 1 <= g <= 5 && n in BaseNames(PSunday)[..6]
      ensures !IsSubstring(n, Generation(row, g))
    {
      NotInAgnesTachyon(n);
      if Generation(row, g) == "" { LongerNeverOccurs(n, ""); }
    }
  }

  /** None of the other six P-Sunday names occurs in "アグネスタキオン". */
  lemma NotInAgnesTachyon(n: string)
    requires n in BaseNames(PSunday)[..6]
    ensures !IsSubstring(n, AgnesTachyon)
  {
    if |n| > |AgnesTachyon| {
      LongerNeverOccurs(n, AgnesTachyon);
    } else {
      FirstCharAbsent(n, AgnesTachyon);
    }
  }

  // ---------------------------------------------------------------------
  // Peds.p_p: four classified ancestor rows of one horse
  // ---------------------------------------------------------------------

  /** The four pedigree rows of a horse, in the order of the table:
      sire, sire's dam's sire, dam's sire, dam's dam's sire. */
  datatype AncestorRows = AncestorRows(sire: AncestorRow, sireDamSire: AncestorRow,
                                       damSire: AncestorRow, damDamSire: AncestorRow)

  /** One row of peds_shinba. */
  datatype Pedigree = Pedigree(
    sireName: string,          // 父
    damSireName: string,       // 母父
    damDamSireName: string,    // 母母父
    sire: Classified,          // 父_ columns
    sireDamSire: Classified,   // 父母父_ columns
    damSire: Classified,       // 母父_ columns
    damDamSire: Classified,    // 母母父_ columns
    nonSunday: bool,           // 非サンデー馬
    sundayUS: bool,            // サンデー_米国
    usB: bool,                 // 米国B
    usA: bool,                 // 米国A
    deep: bool,                // 父_母父_ディープ
    kingmambo: bool,           // 父_母父_キングマンボ系
    euA: bool,                 // 欧州A
    euB: bool)                 // 欧州B

  /** Number of true values. */
  function CountTrue(bs: seq<bool>): nat {
    if |bs| == 0 then 0 else (if bs[0] then 1 else 0) + CountTrue(bs[1..])
  }

  /** No generation of the row mentions Sunday Silence. */
  ghost predicate WithoutSunday(row: AncestorRow) {
    forall g :: 1 <= g <= 5 ==> !IsSubstring(SundaySilence, Generation(row, g))
  }

  /** The combination columns of Peds.p_p, from the four classified rows. */
  function Combine(sireName: string, damSireName: string, damDamSireName: string,
                   s: Classified, sds: Classified, ds: Classified, dds: Classified): (p: Pedigree)
    ensures p.sire == s && p.sireDamSire == sds && p.damSire == ds && p.damDamSire == dds
    ensures p.nonSunday <==> Sunday !in s.major && Sunday !in sds.major && Sunday !in ds.major && Sunday !in dds.major
    ensures p.usA ==> p.usB
    ensures p.usA <==> US in s.regions && US in ds.regions && US in dds.regions
    ensures p.sundayUS <==> (Sunday in s.major && US in ds.regions) || (Sunday in ds.major && US in s.regions)
    ensures p.deep <==> Deep in s.sub || Deep in ds.sub
    ensures p.kingmambo <==> Kingmambo in s.sub || Kingmambo in ds.sub
    ensures p.euA ==> p.euB
    ensures p.usB <==> US in s.regions && (US in ds.regions || US in dds.regions)
    ensures p.euB <==> CountTrue([Europe in s.regions, Europe in ds.regions, Europe in dds.regions]) >= 2
    ensures p.euA <==> CountTrue([Europe in s.regions, Europe in ds.regions, Europe in dds.regions]) == 3
  {
    var sUS, dsUS, ddsUS := US in s.regions, US in ds.regions, US in dds.regions;
    var sEU, dsEU, ddsEU := Europe in s.regions, Europe in ds.regions, Europe in dds.regions;
    assert CountTrue([sEU, dsEU, ddsEU]) == (if sEU then 1 else 0) + (if dsEU then 1 else 0) + (if ddsEU then 1 else 0) by {
      assert [sEU, dsEU, ddsEU][1..] == [dsEU, ddsEU];
      assert [dsEU, ddsEU][1..] == [ddsEU];
      assert [ddsEU][1..] == [];
      assert CountTrue([ddsEU]) == (if ddsEU then 1 else 0) + CountTrue([]);
      assert CountTrue([dsEU, ddsEU]) == (if dsEU then 1 else 0) + CountTrue([ddsEU]);
    }
    Pedigree(
      sireName, damSireName, damDamSireName,
      s, sds, ds, dds,
      Sunday !in s.major && Sunday !in ds.major && Sunday !in sds.major && Sunday !in dds.major,
      (Sunday in s.major && dsUS) || (Sunday in ds.major && sUS),
      (sUS && dsUS) || (sUS && ddsUS),
      sUS && dsUS && ddsUS,
      Deep in s.sub || Deep in ds.sub,
      Kingmambo in s.sub || Kingmambo in ds.sub,
      sEU && dsEU && ddsEU,
      (dsEU && ddsEU) || (sEU && ddsEU) || (sEU && dsEU))
  }

  /** Peds.p_p for one horse: the sire names are cut before the first digit
      run of their own generation's column, and 非サンデー馬 holds exactly when
      no generation of any of the four rows mentions Sunday Silence. */
  function PedigreeOf(rows: AncestorRows): (p: Pedigree)
    ensures p.sireName == TextBeforeDigits(rows.sire.g1)
    ensures p.damSireName == TextBeforeDigits(rows.damSire.g2)
    ensures p.damDamSireName == TextBeforeDigits(rows.damDamSire.g3)
    ensures p.sire == Classify(rows.sire) && p.sireDamSire == Classify(rows.sireDamSire)
    ensures p.damSire == Classify(rows.damSire) && p.damDamSire == Classify(rows.damDamSire)
    ensures p.nonSunday <==> WithoutSunday(rows.sire) && WithoutSunday(rows.sireDamSire)
                             && WithoutSunday(rows.damSire) && WithoutSunday(rows.damDamSire)
  {
    Combine(TextBeforeDigits(rows.sire.g1), TextBeforeDigits(rows.damSire.g2), TextBeforeDigits(rows.damDamSire.g3),
            Classify(rows.sire), Classify(rows.sireDamSire), Classify(rows.damSire), Classify(rows.damDamSire))
  }

  /** The sire constants of the scoring tables end in a space because the
      sire's name is cut off before its year of birth. */
  lemma SireNameKeepsTrailingSpace()
    ensures TextBeforeDigits("ディープインパクト 2002") == "ディープインパクト "
  {
    var s := "ディープインパクト 2002";
    assert PrefixWithoutDigits(s[10..]) == 0;
    assert s[..10] == "ディープインパクト ";
    assert forall k :: 0 <= k < 10 ==> !IsDigit(s[k]);
  }
}
