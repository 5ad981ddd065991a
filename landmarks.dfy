/**
 * The civilization -> age -> landmark-option table that fills each player card's
 * three dropdowns (`AOE4_LANDMARKS_BY_CIV` in constants.py). The table's outer
 * keys are civilization names as the statistics API spells them; its inner keys
 * are the three ages, always looked up by their literal names; its entries are
 * landmark names, one per dropdown option.
 */
module Landmarks {

  /** The inner keys of the table: `"feudal"`, `"castle"` and `"empire"`. */
  datatype Age = Feudal | Castle | Empire

  /** The table's inner key for an age; it names the age and is never computed on. */
  function AgeKey(age: Age): string
  {
    match age
    case Feudal => "feudal"
    case Castle => "castle"
    case Empire => "empire"
  }

  /** Distinct ages have distinct keys, so each age's lookup reaches its own entry. */
  lemma AgeKeyDistinct(a: Age, b: Age)
    ensures AgeKey(a) == AgeKey(b) <==> a == b
  {
  }

  /**
   * A civilization as a match record names it: one of the sixteen outer keys of
   * the table, or any other name (which the table does not know).
   */
  datatype Civ =
      English
    | French
    | Chinese
    | HolyRomanEmpire
    | Rus
    | AbbasidDynasty
    | Mongols
    | DelhiSultanate
    | Ottomans
    | Malians
    | Japanese
    | OrderOfTheDragon
    | ZhuXisLegacy
    | Ayyubids
    | Byzantines
    | JeanneDArc
    | Other(name: string)

  /** The civilization's name as the statistics API spells it. */
  function CivKey(civ: Civ): string
  {
    match civ
    case English => "english"
    case French => "french"
    case Chinese => "chinese"
    case HolyRomanEmpire => "holy_roman_empire"
    case Rus => "rus"
    case AbbasidDynasty => "abbasid_dynasty"
    case Mongols => "mongols"
    case DelhiSultanate => "delhi_sultanate"
    case Ottomans => "ottomans"
    case Malians => "malians"
    case Japanese => "japanese"
    case OrderOfTheDragon => "order_of_the_dragon"
    case ZhuXisLegacy => "zhu_xis_legacy"
    case Ayyubids => "ayyubids"
    case Byzantines => "byzantines"
    case JeanneDArc => "jeanne_d_arc"
    case Other(name) => name
  }

  /**
   * The table knows the civilization. On a parsed name `ParseCiv(s)` this is
   * `s in AOE4_LANDMARKS_BY_CIV` (ParseCivKnown).
   */
  predicate KnownCiv(civ: Civ)
  {
    !civ.Other?
  }

  /**
   * The civilization a match record's `civilization` text names: the table's
   * civilization spelled `s`, or `Other(s)` when no key of the table is `s`.
   */
  function ParseCiv(s: string): (c: Civ)
    ensures CivKey(c) == s
  {
    if s == "english" then English
    else if s == "french" then French
    else if s == "chinese" then Chinese
    else if s == "holy_roman_empire" then HolyRomanEmpire
    else if s == "rus" then Rus
    else if s == "abbasid_dynasty" then AbbasidDynasty
    else if s == "mongols" then Mongols
    else if s == "delhi_sultanate" then DelhiSultanate
    else if s == "ottomans" then Ottomans
    else if s == "malians" then Malians
    else if s == "japanese" then Japanese
    else if s == "order_of_the_dragon" then OrderOfTheDragon
    else if s == "zhu_xis_legacy" then ZhuXisLegacy
    else if s == "ayyubids" then Ayyubids
    else if s == "byzantines" then Byzantines
    else if s == "jeanne_d_arc" then JeanneDArc
    else Other(s)
  }

  /** A parsed name is known exactly when it is one of the table's sixteen keys. */
  lemma ParseCivKnown(s: string)
    ensures KnownCiv(ParseCiv(s)) <==> exists k :: KnownCiv(k) && CivKey(k) == s
  {
    if !KnownCiv(ParseCiv(s)) {
      forall k | KnownCiv(k)
        ensures CivKey(k) != s
      {
      }
    } else {
      assert KnownCiv(ParseCiv(s)) && CivKey(ParseCiv(s)) == s;
    }
  }

  /** Every civilization of the table is what its own key parses to. */
  lemma ParseCivKey(civ: Civ)
    requires KnownCiv(civ)
    ensures ParseCiv(CivKey(civ)) == civ
  {
  }

  /** A dropdown option: one landmark (or wing, or bonus) of the table. */
  datatype Landmark =
      AbbeyOfKings
    | CouncilHall
    | KingsPalace
    | TheWhiteTower
    | WynguardPalace
    | BerkshirePalace
    | SchoolOfCavalry
    | ChamberOfCommerce
    | RoyalInstitute
    | GuildHall
    | CollegeOfArtillery
    | RedPalace
    | ImperialAcademy
    | BarbicanOfTheSun
    | AstronomicalClocktower
    | ImperialPalace
    | GreatWallGatehouse
    | SpiritWay
    | AachenChapel
    | MeinwerkPalace
    | BurgravePalace
    | RegnitzCathedral
    | ElzbachPalace
    | PalaceOfSwabia
    | GoldenGate
    | Kremlin
    | HighTradeHouse
    | AbbeyOfTheTrinity
    | SpasskayaTower
    | HighArmory
    | Culture
    | Military
    | Economic
    | Trade
    | DeerStones
    | TheSilverTree
    | Kurultai
    | SteppeRedoubt
    | WhiteStupa
    | KhaganatePalace
    | TowerOfVictory
    | DomeOfTheFaith
    | HouseOfLearning
    | CompoundOfTheDefender
    | HisarAcademy
    | PalaceOfTheSultan
    | TwinMinaretMadrasa
    | IstanbulImperialPalace
    | MehmedImperialArmory
    | SeagateCastle
    | TopkapiPalace
    | KilitbahirFortress
    | MansaQuarry
    | SaharaTradeNetwork
    | GrandFulaniCorral
    | GriotsHut
    | FortOfMansaMusa
    | UniversityOfSankore
    | KokaTownship
    | KuraStorehouse
    | FloatingGate
    | TempleOfEquality
    | TanegashimaGunsmith
    | CastleOfTheCrow
    | MeditationGardens
    | JiangnanTower
    | MountLuAcademy
    | ShaolinMonastery
    | ZhuXisLibrary
    | TempleOfTheSun
    | AdvancementCulture
    | LogisticsCulture
    | GrowthEconomy
    | IndustryEconomy
    | MasterSmithsMilitary
    | ReinforcementMilitary
    | AdvisorsTrade
    | BazaarTrade
    | GrandWinery
    | ImperialHippodrome
    | CisternOfTheFirstHill
    | GoldenHornTower
    | ForeignEngineeringCompany
    | PalatineSchool

  /**
   * The option's text, as the dropdown shows it and stores it when chosen. The
   * model works on the `Landmark` values; this function only names them.
   */
  function LandmarkName(l: Landmark): string
  {
    match l
    case AbbeyOfKings => "Abbey of Kings"
    case CouncilHall => "Council Hall"
    case KingsPalace => "King's Palace"
    case TheWhiteTower => "The White Tower"
    case WynguardPalace => "Wynguard Palace"
    case BerkshirePalace => "Berkshire Palace"
    case SchoolOfCavalry => "School of Cavalry"
    case ChamberOfCommerce => "Chamber of Commerce"
    case RoyalInstitute => "Royal Institute"
    case GuildHall => "Guild Hall"
    case CollegeOfArtillery => "College of Artillery"
    case RedPalace => "Red Palace"
    case ImperialAcademy => "Imperial Academy"
    case BarbicanOfTheSun => "Barbican of the Sun"
    case AstronomicalClocktower => "Astronomical Clocktower"
    case ImperialPalace => "Imperial Palace"
    case GreatWallGatehouse => "Great Wall Gatehouse"
    case SpiritWay => "Spirit Way"
    case AachenChapel => "Aachen Chapel"
    case MeinwerkPalace => "Meinwerk Palace"
    case BurgravePalace => "Burgrave Palace"
    case RegnitzCathedral => "Regnitz Cathedral"
    case ElzbachPalace => "Elzbach Palace"
    case PalaceOfSwabia => "Palace of Swabia"
    case GoldenGate => "Golden Gate"
    case Kremlin => "Kremlin"
    case HighTradeHouse => "High Trade House"
    case AbbeyOfTheTrinity => "Abbey of the Trinity"
    case SpasskayaTower => "Spasskaya Tower"
    case HighArmory => "High Armory"
    case Culture => "Culture"
    case Military => "Military"
    case Economic => "Economic"
    case Trade => "Trade"
    case DeerStones => "Deer Stones"
    case TheSilverTree => "The Silver Tree"
    case Kurultai => "Kurultai"
    case SteppeRedoubt => "Steppe Redoubt"
    case WhiteStupa => "White Stupa"
    case KhaganatePalace => "Khaganate Palace"
    case TowerOfVictory => "Tower of Victory"
    case DomeOfTheFaith => "Dome of the Faith"
    case HouseOfLearning => "House of Learning"
    case CompoundOfTheDefender => "Compound of the Defender"
    case HisarAcademy => "Hisar Academy"
    case PalaceOfTheSultan => "Palace of the Sultan"
    case TwinMinaretMadrasa => "Twin Minaret Madrasa"
    case IstanbulImperialPalace => "Istanbul Imperial Palace"
    case MehmedImperialArmory => "Mehmed Imperial Armory"
    case SeagateCastle => "Seagate Castle"
    case TopkapiPalace => "Topkapi Palace"
    case KilitbahirFortress => "Kilitbahir Fortress"
    case MansaQuarry => "Mansa Quarry"
    case SaharaTradeNetwork => "Sahara Trade Network"
    case GrandFulaniCorral => "Grand Fulani Corral"
    case GriotsHut => "Griot's Hut"
    case FortOfMansaMusa => "Fort of Mansa Musa"
    case UniversityOfSankore => "University of Sankore"
    case KokaTownship => "Koka Township"
    case KuraStorehouse => "Kura Storehouse"
    case FloatingGate => "Floating Gate"
    case TempleOfEquality => "Temple of Equality"
    case TanegashimaGunsmith => "Tanegashima Gunsmith"
    case CastleOfTheCrow => "Castle of the Crow"
    case MeditationGardens => "Meditation Gardens"
    case JiangnanTower => "Jiangnan Tower"
    case MountLuAcademy => "Mount Lu Academy"
    case ShaolinMonastery => "Shaolin Monastery"
    case ZhuXisLibrary => "Zhu Xi's Library"
    case TempleOfTheSun => "Temple of the Sun"
    case AdvancementCulture => "Advancement (Culture)"
    case LogisticsCulture => "Logistics (Culture)"
    case GrowthEconomy => "Growth (Economy)"
    case IndustryEconomy => "Industry (Economy)"
    case MasterSmithsMilitary => "Master Smiths (Military)"
    case ReinforcementMilitary => "Reinforcement (Military)"
    case AdvisorsTrade => "Advisors (Trade)"
    case BazaarTrade => "Bazaar (Trade)"
    case GrandWinery => "Grand Winery"
    case ImperialHippodrome => "Imperial Hippodrome"
    case CisternOfTheFirstHill => "Cistern of the First Hill"
    case GoldenHornTower => "Golden Horn Tower"
    case ForeignEngineeringCompany => "Foreign Engineering Company"
    case PalatineSchool => "Palatine School"
  }

  function ByAge(age: Age, feudal: seq<Landmark>, castle: seq<Landmark>, empire: seq<Landmark>): seq<Landmark>
  {
    match age
    case Feudal => feudal
    case Castle => castle
    case Empire => empire
  }

  /** `AOE4_LANDMARKS_BY_CIV[CivKey(civ)][AgeKey(age)]`. */
  function Options(civ: Civ, age: Age): seq<Landmark>
    requires KnownCiv(civ)
  {
    match civ
    case English => ByAge(age,
      [AbbeyOfKings, CouncilHall],
      [KingsPalace, TheWhiteTower],
      [WynguardPalace, BerkshirePalace])
    case French => ByAge(age,
      [SchoolOfCavalry, ChamberOfCommerce],
      [RoyalInstitute, GuildHall],
      [CollegeOfArtillery, RedPalace])
    case Chinese => ByAge(age,
      [ImperialAcademy, BarbicanOfTheSun],
      [AstronomicalClocktower, ImperialPalace],
      [GreatWallGatehouse, SpiritWay])
    case HolyRomanEmpire => ByAge(age,
      [AachenChapel, MeinwerkPalace],
      [BurgravePalace, RegnitzCathedral],
      [ElzbachPalace, PalaceOfSwabia])
    case Rus => ByAge(age,
      [GoldenGate, Kremlin],
      [HighTradeHouse, AbbeyOfTheTrinity],
      [SpasskayaTower, HighArmory])
    case AbbasidDynasty => ByAge(age,
      [Culture, Military, Economic, Trade],
      [Culture, Military, Economic, Trade],
      [Culture, Military, Economic, Trade])
    case Mongols => ByAge(age,
      [DeerStones, TheSilverTree],
      [Kurultai, SteppeRedoubt],
      [WhiteStupa, KhaganatePalace])
    case DelhiSultanate => ByAge(age,
      [TowerOfVictory, DomeOfTheFaith],
      [HouseOfLearning, CompoundOfTheDefender],
      [HisarAcademy, PalaceOfTheSultan])
    case Ottomans => ByAge(age,
      [TwinMinaretMadrasa, IstanbulImperialPalace],
      [MehmedImperialArmory, SeagateCastle],
      [TopkapiPalace, KilitbahirFortress])
    case Malians => ByAge(age,
      [MansaQuarry, SaharaTradeNetwork],
      [GrandFulaniCorral, GriotsHut],
      [FortOfMansaMusa, UniversityOfSankore])
    case Japanese => ByAge(age,
      [KokaTownship, KuraStorehouse],
      [FloatingGate, TempleOfEquality],
      [TanegashimaGunsmith, CastleOfTheCrow])
    case OrderOfTheDragon => ByAge(age,
      [AachenChapel, MeinwerkPalace],
      [BurgravePalace, RegnitzCathedral],
      [ElzbachPalace, PalaceOfSwabia])
    case ZhuXisLegacy => ByAge(age,
      [MeditationGardens, JiangnanTower],
      [MountLuAcademy, ShaolinMonastery],
      [ZhuXisLibrary, TempleOfTheSun])
    case Ayyubids => ByAge(age,
      [AdvancementCulture, LogisticsCulture, GrowthEconomy, IndustryEconomy,
       MasterSmithsMilitary, ReinforcementMilitary, AdvisorsTrade, BazaarTrade],
      [AdvancementCulture, LogisticsCulture, GrowthEconomy, IndustryEconomy,
       MasterSmithsMilitary, ReinforcementMilitary, AdvisorsTrade, BazaarTrade],
      [AdvancementCulture, LogisticsCulture, GrowthEconomy, IndustryEconomy,
       MasterSmithsMilitary, ReinforcementMilitary, AdvisorsTrade, BazaarTrade])
    case Byzantines => ByAge(age,
      [GrandWinery, ImperialHippodrome],
      [CisternOfTheFirstHill, GoldenHornTower],
      [ForeignEngineeringCompany, PalatineSchool])
    case JeanneDArc => ByAge(age,
      [SchoolOfCavalry, ChamberOfCommerce],
      [GuildHall, RoyalInstitute],
      [RedPalace, CollegeOfArtillery])
  }

  /** Every known civilization offers at least one option in each of the three ages. */
  lemma OptionsNonEmpty(civ: Civ, age: Age)
    requires KnownCiv(civ)
    ensures |Options(civ, age)| > 0
  {
  }

  /** The Order of the Dragon offers the Holy Roman Empire's landmarks in every age. */
  lemma DragonMirrorsHolyRomanEmpire(age: Age)
    ensures Options(OrderOfTheDragon, age) == Options(HolyRomanEmpire, age)
  {
  }

  /** The Abbasids choose among one fixed list of four wings in all three ages. */
  lemma AbbasidWingsEveryAge(age: Age)
    ensures Options(AbbasidDynasty, age) == [Culture, Military, Economic, Trade]
  {
  }

  /** The Ayyubids choose among the same eight wing bonuses in all three ages. */
  lemma AyyubidWingsEveryAge(age: Age)
    ensures |Options(Ayyubids, age)| == 8 && Options(Ayyubids, age) == Options(Ayyubids, Feudal)
  {
  }

  /**
   * Jeanne d'Arc offers the French landmarks: the feudal list in the same order,
   * the two-element castle and empire lists reversed.
   */
  lemma JeanneDArcReordersFrench(age: Age)
    ensures age == Feudal ==> Options(JeanneDArc, age) == Options(French, age)
    ensures age != Feudal ==>
      |Options(French, age)| == 2 &&
      Options(JeanneDArc, age) == [Options(French, age)[1], Options(French, age)[0]]
  {
  }

  /** In every age Jeanne d'Arc chooses among exactly the French landmarks. */
  lemma JeanneDArcSameOptions(age: Age)
    ensures multiset(Options(JeanneDArc, age)) == multiset(Options(French, age))
  {
    JeanneDArcReordersFrench(age);
    if age != Feudal {
      var french := Options(French, age);
      assert french == [french[0], french[1]];
    }
  }
}
