/**
 * The charm catalog and the date-seeded selector of constants/charms.ts:
 * a date's ISO text is hashed with the classic multiply-by-31 string hash in
 * 32-bit arithmetic, and the hash picks one of the 150 catalog entries.
 */
module Charms {
  import opened JsInt32
  import opened Storage

  /** The icon tags a charm may carry. */
  const CharmIcons: seq<string> := ["sun", "moon", "star", "heart", "leaf", "flower", "coffee", "horseshoe", "clover", "bird"]

  /** Positive daily affirmations. */
  const PositiveAffirmations: seq<CharmData> := [
    CharmData(1, "", "sun"),
    CharmData(2, "", "heart"),
    CharmData(3, "", "flower"),
    CharmData(4, "", "star"),
    CharmData(5, "", "leaf"),
    CharmData(6, "", "bird"),
    CharmData(7, "", "heart"),
    CharmData(8, "", "horseshoe"),
    CharmData(9, "", "clover"),
    CharmData(10, "", "coffee")
  ]

  /** Traditional Bulgarian proverbs adapted. */
  const TraditionalProverbs: seq<CharmData> := [
    CharmData(11, "", "sun"),
    CharmData(12, "", "heart"),
    CharmData(13, "", "leaf"),
    CharmData(14, "", "star"),
    CharmData(15, "", "moon"),
    CharmData(16, "", "heart"),
    CharmData(17, "", "flower"),
    CharmData(18, "", "sun"),
    CharmData(19, "", "coffee"),
    CharmData(20, "", "moon")
  ]

  /** Luck and fortune. */
  const LuckAndFortune: seq<CharmData> := [
    CharmData(21, "", "clover"),
    CharmData(22, "", "star"),
    CharmData(23, "", "bird"),
    CharmData(24, "", "moon"),
    CharmData(25, "", "star"),
    CharmData(26, "", "horseshoe"),
    CharmData(27, "", "sun"),
    CharmData(28, "", "flower"),
    CharmData(29, "", "clover"),
    CharmData(30, "", "heart")
  ]

  /** Love and relationships. */
  const LoveAndRelationships: seq<CharmData> := [
    CharmData(31, "", "heart"),
    CharmData(32, "", "moon"),
    CharmData(33, "", "flower"),
    CharmData(34, "", "heart"),
    CharmData(35, "", "sun"),
    CharmData(36, "", "heart"),
    CharmData(37, "", "clover"),
    CharmData(38, "", "flower"),
    CharmData(39, "", "heart"),
    CharmData(40, "", "sun")
  ]

  /** Success and career. */
  const SuccessAndCareer: seq<CharmData> := [
    CharmData(41, "", "star"),
    CharmData(42, "", "horseshoe"),
    CharmData(43, "", "bird"),
    CharmData(44, "", "star"),
    CharmData(45, "", "sun"),
    CharmData(46, "", "leaf"),
    CharmData(47, "", "clover"),
    CharmData(48, "", "coffee"),
    CharmData(49, "", "moon"),
    CharmData(50, "", "leaf")
  ]

  /** Health and well-being. */
  const HealthAndWellBeing: seq<CharmData> := [
    CharmData(51, "", "flower"),
    CharmData(52, "", "leaf"),
    CharmData(53, "", "moon"),
    CharmData(54, "", "bird"),
    CharmData(55, "", "sun"),
    CharmData(56, "", "moon"),
    CharmData(57, "", "leaf"),
    CharmData(58, "", "flower"),
    CharmData(59, "", "sun"),
    CharmData(60, "", "heart")
  ]

  /** Wisdom and growth. */
  const WisdomAndGrowth: seq<CharmData> := [
    CharmData(61, "", "star"),
    CharmData(62, "", "moon"),
    CharmData(63, "", "leaf"),
    CharmData(64, "", "flower"),
    CharmData(65, "", "bird"),
    CharmData(66, "", "coffee"),
    CharmData(67, "", "clover"),
    CharmData(68, "", "moon"),
    CharmData(69, "", "leaf"),
    CharmData(70, "", "star")
  ]

  /** Nature and seasons. */
  const NatureAndSeasons: seq<CharmData> := [
    CharmData(71, "", "flower"),
    CharmData(72, "", "sun"),
    CharmData(73, "", "leaf"),
    CharmData(74, "", "moon"),
    CharmData(75, "", "bird"),
    CharmData(76, "", "leaf"),
    CharmData(77, "", "bird"),
    CharmData(78, "", "flower"),
    CharmData(79, "", "sun"),
    CharmData(80, "", "leaf")
  ]

  /** Creativity and inspiration. */
  const CreativityAndInspiration: seq<CharmData> := [
    CharmData(81, "", "star"),
    CharmData(82, "", "flower"),
    CharmData(83, "", "heart"),
    CharmData(84, "", "sun"),
    CharmData(85, "", "star"),
    CharmData(86, "", "moon"),
    CharmData(87, "", "clover"),
    CharmData(88, "", "bird"),
    CharmData(89, "", "heart"),
    CharmData(90, "", "sun")
  ]

  /** Courage and strength. */
  const CourageAndStrength: seq<CharmData> := [
    CharmData(91, "", "star"),
    CharmData(92, "", "horseshoe"),
    CharmData(93, "", "sun"),
    CharmData(94, "", "leaf"),
    CharmData(95, "", "star"),
    CharmData(96, "", "moon"),
    CharmData(97, "", "sun"),
    CharmData(98, "", "heart"),
    CharmData(99, "", "horseshoe"),
    CharmData(100, "", "star")
  ]

  /** More positive affirmations. */
  const MorePositiveAffirmations: seq<CharmData> := [
    CharmData(101, "", "heart"),
    CharmData(102, "", "sun"),
    CharmData(103, "", "star"),
    CharmData(104, "", "flower"),
    CharmData(105, "", "clover"),
    CharmData(106, "", "moon"),
    CharmData(107, "", "sun"),
    CharmData(108, "", "heart"),
    CharmData(109, "", "bird"),
    CharmData(110, "", "star")
  ]

  /** Additional charms. */
  const AdditionalCharms: seq<CharmData> := [
    CharmData(111, "", "sun"),
    CharmData(112, "", "coffee"),
    CharmData(113, "", "moon"),
    CharmData(114, "", "heart"),
    CharmData(115, "", "leaf"),
    CharmData(116, "", "star"),
    CharmData(117, "", "moon"),
    CharmData(118, "", "sun"),
    CharmData(119, "", "flower"),
    CharmData(120, "", "coffee"),
    CharmData(121, "", "star"),
    CharmData(122, "", "horseshoe"),
    CharmData(123, "", "sun"),
    CharmData(124, "", "clover"),
    CharmData(125, "", "leaf"),
    CharmData(126, "", "heart"),
    CharmData(127, "", "flower"),
    CharmData(128, "", "clover"),
    CharmData(129, "", "moon"),
    CharmData(130, "", "sun"),
    CharmData(131, "", "leaf"),
    CharmData(132, "", "star"),
    CharmData(133, "", "heart"),
    CharmData(134, "", "coffee"),
    CharmData(135, "", "flower"),
    CharmData(136, "", "sun"),
    CharmData(137, "", "star"),
    CharmData(138, "", "heart"),
    CharmData(139, "", "sun"),
    CharmData(140, "", "bird"),
    CharmData(141, "", "horseshoe"),
    CharmData(142, "", "leaf"),
    CharmData(143, "", "sun"),
    CharmData(144, "", "moon"),
    CharmData(145, "", "heart"),
    CharmData(146, "", "bird"),
    CharmData(147, "", "star"),
    CharmData(148, "", "clover"),
    CharmData(149, "", "sun"),
    CharmData(150, "", "flower")
  ]

  /** The whole catalog, in the program's order. */
  const BulgarianCharms: seq<CharmData> :=
    PositiveAffirmations
    + TraditionalProverbs
    + LuckAndFortune
    + LoveAndRelationships
    + SuccessAndCareer
    + HealthAndWellBeing
    + WisdomAndGrowth
    + NatureAndSeasons
    + CreativityAndInspiration
    + CourageAndStrength
    + MorePositiveAffirmations
    + AdditionalCharms

  /** A run of catalog entries numbered consecutively from `first`, each with a known icon. */
  ghost predicate NumberedFrom(run: seq<CharmData>, first: int) {
    forall i | 0 <= i < |run| :: run[i].id == first + i && run[i].icon in CharmIcons
  }

  lemma NumberedConcat(front: seq<CharmData>, back: seq<CharmData>, first: int)
    requires NumberedFrom(front, first) && NumberedFrom(back, first + |front|)
    ensures NumberedFrom(front + back, first)
  {
    forall i | 0 <= i < |front + back|
      ensures (front + back)[i].id == first + i && (front + back)[i].icon in CharmIcons
    {
      if i >= |front| {
        assert (front + back)[i] == back[i - |front|];
      }
    }
  }

  /** The sections holding ids 1 to 20 are numbered consecutively with known icons. */
  lemma SectionsNumbered1To20()
    ensures NumberedFrom(PositiveAffirmations, 1) && NumberedFrom(TraditionalProverbs, 11)
  {
  }

  /** The sections holding ids 21 to 40 are numbered consecutively with known icons. */
  lemma SectionsNumbered21To40()
    ensures NumberedFrom(LuckAndFortune, 21) && NumberedFrom(LoveAndRelationships, 31)
  {
  }

  /** The sections holding ids 41 to 60 are numbered consecutively with known icons. */
  lemma SectionsNumbered41To60()
    ensures NumberedFrom(SuccessAndCareer, 41) && NumberedFrom(HealthAndWellBeing, 51)
  {
  }

  /** The sections holding ids 61 to 80 are numbered consecutively with known icons. */
  lemma SectionsNumbered61To80()
    ensures NumberedFrom(WisdomAndGrowth, 61) && NumberedFrom(NatureAndSeasons, 71)
  {
  }

  /** The sections holding ids 81 to 110 are numbered consecutively with known icons. */
  lemma SectionsNumbered81To110()
    ensures NumberedFrom(CreativityAndInspiration, 81) && NumberedFrom(CourageAndStrength, 91) && NumberedFrom(MorePositiveAffirmations, 101)
  {
  }

  /** The ids of the last section run from 111 to 150. */
  lemma AdditionalCharmsNumbered()
    ensures |AdditionalCharms| == 40
    ensures forall i | 0 <= i < |AdditionalCharms| :: AdditionalCharms[i].id == 111 + i
  {
  }

  /** Every icon of the last section is a known one. */
  lemma AdditionalCharmsIconsKnown()
    ensures forall i | 0 <= i < |AdditionalCharms| :: AdditionalCharms[i].icon in CharmIcons
  {
  }

  /** The catalog holds 150 charms; the one at position i has id i + 1 and a known icon. */
  lemma CatalogWellFormed()
    ensures |BulgarianCharms| == 150
    ensures forall i | 0 <= i < |BulgarianCharms| :: BulgarianCharms[i].id == i + 1
    ensures forall i | 0 <= i < |BulgarianCharms| :: BulgarianCharms[i].icon in CharmIcons
  {
    SectionsNumbered1To20();
    SectionsNumbered21To40();
    SectionsNumbered41To60();
    SectionsNumbered61To80();
    SectionsNumbered81To110();
    AdditionalCharmsNumbered();
    AdditionalCharmsIconsKnown();
    var prefix := PositiveAffirmations;
    NumberedConcat(prefix, TraditionalProverbs, 1);
    prefix := prefix + TraditionalProverbs;
    NumberedConcat(prefix, LuckAndFortune, 1);
    prefix := prefix + LuckAndFortune;
    NumberedConcat(prefix, LoveAndRelationships, 1);
    prefix := prefix + LoveAndRelationships;
    NumberedConcat(prefix, SuccessAndCareer, 1);
    prefix := prefix + SuccessAndCareer;
    NumberedConcat(prefix, HealthAndWellBeing, 1);
    prefix := prefix + HealthAndWellBeing;
    NumberedConcat(prefix, WisdomAndGrowth, 1);
    prefix := prefix + WisdomAndGrowth;
    NumberedConcat(prefix, NatureAndSeasons, 1);
    prefix := prefix + NatureAndSeasons;
    NumberedConcat(prefix, CreativityAndInspiration, 1);
    prefix := prefix + CreativityAndInspiration;
    NumberedConcat(prefix, CourageAndStrength, 1);
    prefix := prefix + CourageAndStrength;
    NumberedConcat(prefix, MorePositiveAffirmations, 1);
    prefix := prefix + MorePositiveAffirmations;
    NumberedConcat(prefix, AdditionalCharms, 1);
    prefix := prefix + AdditionalCharms;
    assert prefix == BulgarianCharms;
  }

  /** The catalog holds 150 charms. */
  lemma CatalogSize()
    ensures |BulgarianCharms| == 150
  {
  }

  /** The entry at a given position has id position + 1 and a known icon. */
  lemma CatalogEntry(index: int)
    requires 0 <= index < |BulgarianCharms|
    ensures BulgarianCharms[index].id == index + 1
    ensures BulgarianCharms[index].icon in CharmIcons
  {
    CatalogWellFormed();
  }

  /** Catalog ids are strictly ascending, hence unique. */
  lemma CatalogIdsAscending()
    ensures forall i, j | 0 <= i < j < |BulgarianCharms| :: BulgarianCharms[i].id < BulgarianCharms[j].id
  {
    CatalogWellFormed();
  }

  // ---------------------------------------------------------------------
  // The selector.

  /**
   * `iso.split("T")[0]`: the text before the first 'T'; for an ISO 8601
   * timestamp this is its YYYY-MM-DD calendar date.
   */
  function DatePrefix(iso: string): (date: string)
    ensures |date| <= |iso| && date == iso[..|date|]
    ensures 'T' !in date
    ensures |date| < |iso| ==> iso[|date|] == 'T'
  {
    if iso == [] || iso[0] == 'T' then [] else [iso[0]] + DatePrefix(iso[1..])
  }

  /** The shape toISOString() produces: a ten-character date, then 'T' and the time. */
  predicate IsIsoTimestamp(iso: string) {
    |iso| > 10 && iso[10] == 'T' && 'T' !in iso[..10]
  }

  /** The date part of an ISO timestamp is its first ten characters. */
  lemma DatePrefixOfIsoTimestamp(iso: string)
    requires IsIsoTimestamp(iso)
    ensures DatePrefix(iso) == iso[..10]
  {
  }

  /**
   * One loop step as written: `(hash << 5) - hash + char`, then `hash & hash`.
   * `charCodeAt` gives the UTF-16 code unit; the characters of a date are ASCII,
   * where that is the character's own code.
   */
  function HashStep(hash: int, code: int): (next: int)
    ensures IsInt32(next)
  {
    var t := ShiftLeft(hash, 5) - hash + code;
    BitAnd(t, t)
  }

  /** HashStep written out as the two statements of the loop body. */
  lemma HashStepUnfolds(hash: int, shifted: int, code: int)
    requires shifted == ShiftLeft(hash, 5) - hash + code
    ensures HashStep(hash, code) == BitAnd(shifted, shifted)
  {
  }

  /** The hash of a string: HashStep over its characters from left to right, starting at 0. */
  function DateHash(s: string): (hash: int)
    ensures IsInt32(hash)
  {
    if s == [] then 0 else HashStep(DateHash(s[..|s| - 1]), s[|s| - 1] as int)
  }

  /** The classic polynomial string hash with multiplier 31, in unbounded integers. */
  function PolynomialHash(s: string): int {
    if s == [] then 0 else 31 * PolynomialHash(s[..|s| - 1]) + s[|s| - 1] as int
  }

  /** `(hash << 5) - hash + code` agrees with `31 * hash + code` modulo 2^32. */
  lemma ShiftSubtractIsTimes31(hash: int, code: int)
    ensures Congruent(ShiftLeft(hash, 5) - hash + code, 31 * hash + code)
  {
    ShiftLeftIsMultiplication(hash, 5);
    assert Pow2(5) == 32;
    CongruentAffine(1, code - hash, ShiftLeft(hash, 5), hash * 32);
  }

  /** Shift-then-subtract-then-truncate is multiplication by 31 with 32-bit wrap-around. */
  lemma HashStepIsTimes31(hash: int, code: int)
    ensures HashStep(hash, code) == ToInt32(31 * hash + code)
  {
    var t := ShiftLeft(hash, 5) - hash + code;
    BitAndSelf(t);
    ShiftSubtractIsTimes31(hash, code);
    ToInt32Congruent(t, 31 * hash + code);
  }

  /** The 32-bit hash is the polynomial hash wrapped once, at the end, to 32 bits. */
  lemma {:induction false} DateHashIsPolynomial(s: string)
    ensures DateHash(s) == ToInt32(PolynomialHash(s))
  {
    if s != [] {
      var front, code := s[..|s| - 1], s[|s| - 1] as int;
      var hash, poly := DateHash(front), PolynomialHash(front);
      DateHashIsPolynomial(front);
      assert DateHash(s) == HashStep(hash, code);
      assert PolynomialHash(s) == 31 * poly + code;
      HashStepIsTimes31(hash, code);
      CongruentAffine(31, code, poly, hash);
      ToInt32Congruent(31 * poly + code, 31 * hash + code);
    }
  }

  /** `Math.abs(hash) % BULGARIAN_CHARMS.length`: always a valid catalog position. */
  function CharmIndex(hash: int): (index: int)
    ensures 0 <= index < |BulgarianCharms|
  {
    CatalogWellFormed();
    Abs(hash) % |BulgarianCharms|
  }

  /** The charm the selector returns for a timestamp whose ISO text is `iso`. */
  function CharmForDate(iso: string): (charm: CharmData)
    ensures charm in BulgarianCharms
    ensures 1 <= charm.id <= |BulgarianCharms| && charm.icon in CharmIcons
  {
    CatalogWellFormed();
    BulgarianCharms[CharmIndex(DateHash(DatePrefix(iso)))]
  }

  /** The hash loop of getCharmForDate, run over the date text. */
  method HashDateString(dateString: string) returns (hash: int)
    ensures hash == DateHash(dateString)
  {
    hash := 0;
    for i := 0 to |dateString|
      invariant hash == DateHash(dateString[..i])
    {
      var code := dateString[i] as int;
      ghost var before := hash;
      hash := ShiftLeft(hash, 5) - hash + code;
      HashStepUnfolds(before, hash, code);
      hash := BitAnd(hash, hash);
      assert dateString[..i + 1][..i] == dateString[..i];
    }
    assert dateString[..|dateString|] == dateString;
  }

  /** getCharmForDate, given the toISOString() text of the date. */
  method GetCharmForDate(iso: string) returns (charm: CharmData)
    ensures charm == CharmForDate(iso)
    ensures charm in BulgarianCharms
    ensures 1 <= charm.id <= |BulgarianCharms| && charm == BulgarianCharms[charm.id - 1]
  {
    var dateString := DatePrefix(iso);
    var hash := HashDateString(dateString);
    CatalogSize();
    var index := Abs(hash) % |BulgarianCharms|;
    charm := BulgarianCharms[index];
    CatalogEntry(index);
  }

  /** Two timestamps on the same UTC calendar day get the same charm. */
  lemma SameDaySameCharm(a: string, b: string)
    requires IsIsoTimestamp(a) && IsIsoTimestamp(b)
    requires a[..10] == b[..10]
    ensures CharmForDate(a) == CharmForDate(b)
  {
    DatePrefixOfIsoTimestamp(a);
    DatePrefixOfIsoTimestamp(b);
  }

  /**
   * The most negative hash has no 32-bit absolute value, but `Math.abs` works
   * on doubles, so it still yields a valid position.
   */
  lemma IndexOfMostNegativeHash()
    ensures Abs(MinInt32) == 0x8000_0000
    ensures CharmIndex(MinInt32) == 98
  {
  }

  /** The unbounded polynomial hash of "2024-01-15", one character at a time. */
  lemma GoldenPolynomial(date: string)
    requires date == "2024-01-15"
    ensures PolynomialHash(date) == 1364342992873059
  {
    assert date[..1][..0] == date[..0];
    assert PolynomialHash(date[..1]) == 50;
    assert date[..2][..1] == date[..1];
    assert PolynomialHash(date[..2]) == 1598;
    assert date[..3][..2] == date[..2];
    assert PolynomialHash(date[..3]) == 49588;
    assert date[..4][..3] == date[..3];
    assert PolynomialHash(date[..4]) == 1537280;
    assert date[..5][..4] == date[..4];
    assert PolynomialHash(date[..5]) == 47655725;
    assert date[..6][..5] == date[..5];
    assert PolynomialHash(date[..6]) == 1477327523;
    assert date[..7][..6] == date[..6];
    assert PolynomialHash(date[..7]) == 45797153262;
    assert date[..8][..7] == date[..7];
    assert PolynomialHash(date[..8]) == 1419711751167;
    assert date[..9][..8] == date[..8];
    assert PolynomialHash(date[..9]) == 44011064286226;
    assert date[..10][..9] == date[..9];
    assert PolynomialHash(date[..10]) == 1364342992873059;
    assert date[..10] == date;
  }

  /** A fixed cross-implementation vector: the hash of "2024-01-15" is -613341597. */
  lemma GoldenHash(date: string)
    requires date == "2024-01-15"
    ensures DateHash(date) == -613341597
  {
    GoldenPolynomial(date);
    DateHashIsPolynomial(date);
  }

  /** The calendar-date part of a timestamp on the vector's day. */
  lemma GoldenDatePrefix(iso: string)
    requires iso == "2024-01-15T09:30:00.000Z"
    ensures DatePrefix(iso) == "2024-01-15"
  {
    assert iso[..10] == "2024-01-15";
    DatePrefixOfIsoTimestamp(iso);
  }

  /**
   * The vector's selection: position 147 of the catalog, the charm with
   * id 148; a two-entry catalog would get position 1.
   */
  lemma GoldenCharm(iso: string)
    requires iso == "2024-01-15T09:30:00.000Z"
    ensures CharmIndex(DateHash(DatePrefix(iso))) == 147
    ensures Abs(DateHash(DatePrefix(iso))) % 2 == 1
    ensures CharmForDate(iso).id == 148
  {
    GoldenDatePrefix(iso);
    var date := DatePrefix(iso);
    GoldenHash(date);
    GoldenIndex(DateHash(date));
  }

  /** Where the vector's hash lands: |-613341597| = 613341597 = 150 * 4088943 + 147. */
  lemma GoldenIndex(hash: int)
    requires hash == -613341597
    ensures CharmIndex(hash) == 147
    ensures Abs(hash) % 2 == 1
    ensures BulgarianCharms[CharmIndex(hash)].id == 148
  {
    CatalogWellFormed();
  }
}
