/** The fixed tables of Peds.merge and Peds.point: the course groups, the
    pace sire groups, the dirt gate lists and the favoured jockeys and
    trainers. A course key is venue code + race type + distance, e.g.
    "05芝1600" (Tokyo, turf, 1600 m). */
module Tables {

  /** The eight course groups used by the blood rules. */
  datatype CourseList = TurfA | TurfB | TurfC | TurfD | DartA | DartB | DartC | DartD

  /** turf_a_list .. dart_d_list. */
  function Courses(l: CourseList): seq<string> {
    match l
    case TurfA => ["06芝1600", "05芝1600", "08芝1600", "05芝1400", "09芝1600", "09芝1800", "05芝1800", "06芝1200",
                   "08芝1800", "03芝1200", "09芝2000", "06芝2000", "06芝1800", "09芝1400", "08芝1400", "05芝2000",
                   "04芝1000", "07芝1600", "09芝1200", "10芝1200", "08芝1200", "07芝1200"]
    case TurfB => ["10芝1200", "03芝1200", "02芝1200", "10芝1800", "10芝2000", "08芝2000", "07芝2000", "01芝1200",
                   "06芝2000", "08芝1600", "03芝2000", "03芝1800", "04芝1000", "09芝2000", "06芝1600", "09芝1400",
                   "06芝1800", "09芝1600", "09芝1800", "06芝1200"]
    case TurfC => ["10芝2000", "08芝2000", "03芝2000", "05芝2400", "01芝2000", "10芝1800", "03芝2600", "10芝2600",
                   "06芝2000", "09芝2000", "09芝2400", "02芝2000", "07芝2200", "04芝1800", "04芝2000", "02芝1800",
                   "08芝1800", "03芝1800", "06芝2200", "05芝2000", "07芝2000", "04芝2400", "08芝2400", "04芝2200",
                   "02芝2600", "01芝2600", "08芝2200", "09芝2200"]
    case TurfD => ["05芝1600", "05芝1800", "06芝1600", "05芝1400", "10芝1200", "05芝2000", "09芝1600", "06芝2000",
                   "05芝2400", "03芝1200", "07芝2000", "04芝1800", "09芝1800", "08芝1600", "04芝2000", "08芝1800",
                   "07芝1400", "04芝1600", "08芝1400", "02芝1200"]
    case DartA => ["06ダート1200", "08ダート1200", "09ダート1400", "09ダート1200", "04ダート1200", "05ダート1600",
                   "08ダート1800", "05ダート1400", "08ダート1400", "09ダート1800", "06ダート1800", "07ダート1400",
                   "07ダート1200", "03ダート1150", "10ダート1000", "10ダート1700", "05ダート1300", "01ダート1000"]
    case DartB => ["06ダート1800", "09ダート1800", "08ダート1800", "04ダート1800", "03ダート1700", "05ダート1600",
                   "06ダート1200", "07ダート1800", "10ダート1700", "02ダート1700", "01ダート1700", "09ダート1400",
                   "04ダート1200", "05ダート1400", "08ダート1400", "03ダート1150"]
    case DartC => ["06ダート1800", "09ダート1800", "04ダート1800", "05ダート1600", "08ダート1800", "05ダート2100",
                   "03ダート1700", "07ダート1800", "10ダート1700", "02ダート1700", "01ダート1700", "05ダート1400",
                   "06ダート1200", "09ダート1400", "06ダート2400", "07ダート1900", "09ダート2000"]
    case DartD => ["05ダート1400", "05ダート1600", "09ダート1800", "06ダート1200", "06ダート1800", "08ダート1800",
                   "09ダート1400", "08ダート1400", "05ダート2100", "07ダート1800", "07ダート1400", "04ダート1800",
                   "08ダート1200", "10ダート1700", "08ダート1900"]
  }

  /** `course.isin(l1 + l2 + ...)`: the course is in one of the groups. */
  function InAnyList(course: string, ls: seq<CourseList>): (r: bool)
    ensures r <==> exists l :: l in ls && course in Courses(l)
  {
    exists l | l in ls :: course in Courses(l)
  }

  /** The two pace sire groups. */
  datatype Pace = PaceDown | PaceUp

  /** pace_down_list and pace_up_list (sire names as cut before the year). */
  function PaceSires(p: Pace): seq<string> {
    match p
    case PaceDown => ["ディープインパクト ", "エピファネイア ", "ルーラーシップ ", "パイロ Pyro(米) ", "トゥザグローリー ",
                      "ノヴェリスト Novellist(愛) ", "ヨハネスブルグ Johannesburg(米) ", "ハービンジャー Harbinger(英) ",
                      "ネオユニヴァース ", "ワールドエース ", "ジャスタウェイ "]
    case PaceUp => ["キングカメハメハ ", "ロードカナロア ", "ドゥラメンテ ", "サウスヴィグラス ", "カジノドライヴ ",
                    "アイルハヴアナザー I'll Have Another(米) ", "エンパイアメーカー Empire Maker(米) ", "ベルシャザール ",
                    "エスケンデレヤ ", "タートルボウル Turtle Bowl(愛) ", "スクリーンヒーロー ", "モーリス "]
  }

  /** No sire is in both pace groups. */
  lemma PaceGroupsDisjoint(s: string)
    ensures !(s in PaceSires(PaceDown) && s in PaceSires(PaceUp))
  {
  }

  // The dirt gate lists, by gate band: a = 1-4, b = 5-9, c = 10-14, d = 15+.
  const DartGateAPlus: seq<string> := ["01ダート1700", "02ダート1700", "05ダート1300", "05ダート1600", "07ダート1200", "07ダート1800"]
  const DartGateBPlus: seq<string> := ["02ダート1700", "05ダート1300", "07ダート1800"]
  const DartGateCPlus: seq<string> := ["05ダート1400", "05ダート2100", "07ダート1200"]
  const DartGateDPlus: seq<string> := ["05ダート2100", "09ダート1200", "09ダート1400"]
  const DartGateAMinus: seq<string> := ["03ダート1150", "03ダート1700", "04ダート1200", "05ダート2100", "07ダート1400", "08ダート1200",
                                        "08ダート1400", "08ダート1800", "09ダート1200", "09ダート1400", "10ダート1000", "10ダート1700"]
  const DartGateCMinus: seq<string> := ["04ダート1800", "07ダート1800", "10ダート1000"]
  const DartGateDMinus: seq<string> := ["05ダート1600", "06ダート1800", "07ダート1200", "07ダート1800", "10ダート1700"]

  /** Within each gate band, no course is both favoured and disfavoured. */
  lemma GatePlusMinusDisjoint(course: string)
    ensures !(course in DartGateAPlus && course in DartGateAMinus)
    ensures !(course in DartGateCPlus && course in DartGateCMinus)
    ensures !(course in DartGateDPlus && course in DartGateDMinus)
  {
  }

  /** plus_jockey_list and plus_trainer_list (5-digit ids). */
  const PlusJockeys: seq<string> := ["01126", "05339", "01014", "01075", "01088", "01102", "01093", "05386", "00666"]
  const PlusTrainers: seq<string> := ["01148", "01092", "01075", "00438", "01105", "01086", "01002", "01126"]
}
