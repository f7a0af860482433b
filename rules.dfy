/**
 * The content decisions the card builders make before they build any element:
 * the two style tables and their fallbacks, the layout dispatch, the milestone
 * title tiers, the progress clamp, the badge initials, the price string, the
 * location line and the milestone stats filter.  Both source variants make
 * these decisions with the same expressions; where the edge-runtime variant
 * differs, its own definition is in module EdgeCards.
 */
module Rules {
  import opened Wrappers
  import opened JsText

  // ---------------------------------------------------------------------
  // Style tables
  // ---------------------------------------------------------------------

  datatype RatingStyle = RatingStyle(text: string, bg: string, color: string)
  datatype RarityStyle = RarityStyle(bg: string, text: string, glow: string)

  const RATING_STYLES: map<string, RatingStyle> := map[
    "hit" := RatingStyle("HIT", "#00FF87", "#000000"),
    "mid" := RatingStyle("MID", "#FFD93D", "#000000"),
    "miss" := RatingStyle("MISS", "#FF6B6B", "#FFFFFF")
  ]

  const RARITY_STYLES: map<string, RarityStyle> := map[
    "common" := RarityStyle("#6B7280", "#FFFFFF", "rgba(107,114,128,0.3)"),
    "uncommon" := RarityStyle("#22C55E", "#FFFFFF", "rgba(34,197,94,0.3)"),
    "rare" := RarityStyle("#3B82F6", "#FFFFFF", "rgba(59,130,246,0.3)"),
    "epic" := RarityStyle("#A855F7", "#FFFFFF", "rgba(168,85,247,0.4)"),
    "legendary" := RarityStyle("#F59E0B", "#000000", "rgba(245,158,11,0.5)")
  ]

  const BRAND_ORANGE := "#FF6B35"

  /** `RATING_STYLES[rating] || RATING_STYLES.hit`, the check-in card's lookup. */
  function RatingStyleOrHit(rating: Option<string>): RatingStyle {
    if rating.Some? && rating.value in RATING_STYLES then RATING_STYLES[rating.value] else RATING_STYLES["hit"]
  }

  /** `rating ? RATING_STYLES[rating] : null`, the place card's lookup: no default. */
  function KnownRatingStyle(rating: Option<string>): Option<RatingStyle> {
    if StrTruthy(rating) && rating.value in RATING_STYLES then Some(RATING_STYLES[rating.value]) else None
  }

  /** `RARITY_STYLES[rarity] || RARITY_STYLES.common`. */
  function RarityStyleOrCommon(rarity: Option<string>): RarityStyle {
    if rarity.Some? && rarity.value in RARITY_STYLES then RARITY_STYLES[rarity.value] else RARITY_STYLES["common"]
  }

  /** `rarity?.toUpperCase() || 'COMMON'`, the rarity pill of the Node-runtime badge card. */
  function RarityLabel(rarity: Option<string>): string {
    if rarity.Some? && ToUpper(rarity.value) != "" then ToUpper(rarity.value) else "COMMON"
  }

  /** The label a rating badge shows is its key in capitals; any other rating gets the HIT badge. */
  lemma RatingLabelIsKeyInCapitals(rating: Option<string>)
    ensures rating.Some? && rating.value in {"hit", "mid", "miss"} ==>
              RatingStyleOrHit(rating).text == ToUpper(rating.value)
    ensures !(rating.Some? && rating.value in {"hit", "mid", "miss"}) ==>
              RatingStyleOrHit(rating) == RatingStyle("HIT", "#00FF87", "#000000")
  {
    if rating.Some? && rating.value in {"hit", "mid", "miss"} {
      var k := rating.value;
      var u := ToUpper(k);
      if k == "hit" {
        assert u == [u[0], u[1], u[2]];
      } else if k == "mid" {
        assert u == [u[0], u[1], u[2]];
      } else {
        assert u == [u[0], u[1], u[2], u[3]];
      }
    }
  }

  /**
   * The place card shows a rating badge exactly for the three known keys, with
   * the style the check-in card would use; for every other value (absent
   * included) it shows none, where the check-in card falls back to HIT.
   */
  lemma PlaceRatingHasNoDefault(rating: Option<string>)
    ensures KnownRatingStyle(rating).Some? <==> rating.Some? && rating.value in {"hit", "mid", "miss"}
    ensures KnownRatingStyle(rating).Some? ==> KnownRatingStyle(rating).value == RatingStyleOrHit(rating)
    ensures KnownRatingStyle(rating).None? ==> RatingStyleOrHit(rating) == RATING_STYLES["hit"]
  {
  }

  /**
   * The rarity pill reads "COMMON" when the rarity is absent or empty;
   * otherwise it is the rarity in capitals, whether or not the rarity is one of
   * the five styled keys (an unknown rarity gets the common colours).
   */
  lemma RarityLabelAndStyle(rarity: Option<string>)
    ensures RarityLabel(rarity) != ""
    ensures rarity.None? || rarity.value == "" ==> RarityLabel(rarity) == "COMMON"
    ensures rarity.Some? && rarity.value != "" ==> RarityLabel(rarity) == ToUpper(rarity.value)
    ensures rarity == Some("common") ==> RarityLabel(rarity) == "COMMON"
    ensures !(rarity.Some? && rarity.value in RARITY_STYLES) ==> RarityStyleOrCommon(rarity) == RARITY_STYLES["common"]
  {
    if rarity.Some? && rarity.value != "" {
      var u := ToUpper(rarity.value);
      assert u[0] == UpperChar(rarity.value[0]);
      if rarity.value == "common" {
        assert u == [u[0], u[1], u[2], u[3], u[4], u[5]];
      }
    }
  }

  // ---------------------------------------------------------------------
  // Layout dispatch: `const { layout, type = 'checkin' } = body;
  // const effectiveLayout = layout || type;` and the `switch`
  // ---------------------------------------------------------------------

  datatype Layout = CheckIn | Challenge | Badge | Milestone | Place | List

  /** The `case` label that selects each builder. */
  function Key(l: Layout): string {
    match l
    case CheckIn => "checkin"
    case Challenge => "challenge"
    case Badge => "badge"
    case Milestone => "milestone"
    case Place => "place"
    case List => "list"
  }

  /** `layout || type`, with `type` defaulting to 'checkin' only when it is absent. */
  function EffectiveLayout(layout: Option<string>, kind: Option<string>): string {
    if StrTruthy(layout) then layout.value else if kind.Some? then kind.value else "checkin"
  }

  /** The `switch`: the six labels, and `default` renders the check-in card. */
  function LayoutOf(key: string): Layout {
    if key == "challenge" then Challenge
    else if key == "badge" then Badge
    else if key == "milestone" then Milestone
    else if key == "place" then Place
    else if key == "list" then List
    else CheckIn
  }

  function SelectLayout(layout: Option<string>, kind: Option<string>): Layout {
    LayoutOf(EffectiveLayout(layout, kind))
  }

  /**
   * Each of the six keys selects its own builder, and a key selects a builder
   * other than check-in only if it is that builder's key: every other string,
   * "" included, selects the check-in card.
   */
  lemma DispatchByKey(key: string)
    ensures forall l :: LayoutOf(Key(l)) == l
    ensures LayoutOf(key) == CheckIn || Key(LayoutOf(key)) == key
    ensures (forall l :: Key(l) != key) ==> LayoutOf(key) == CheckIn
  {
    assert forall l :: LayoutOf(Key(l)) == l by {
      forall l ensures LayoutOf(Key(l)) == l {
        match l
        case CheckIn =>
        case Challenge =>
        case Badge =>
        case Milestone =>
        case Place =>
        case List =>
      }
    }
  }

  /**
   * The layout field wins when it is a non-empty string; otherwise the type
   * field decides, and with neither the card is the check-in card.
   */
  lemma DispatchOrder(layout: Option<string>, kind: Option<string>)
    ensures StrTruthy(layout) ==> SelectLayout(layout, kind) == LayoutOf(layout.value)
    ensures !StrTruthy(layout) && kind.Some? ==> SelectLayout(layout, kind) == LayoutOf(kind.value)
    ensures !StrTruthy(layout) && kind.None? ==> SelectLayout(layout, kind) == CheckIn
  {
  }

  // ---------------------------------------------------------------------
  // Milestone titles
  // ---------------------------------------------------------------------

  /** `getMilestoneTitle(milestone)`: every comparison with `undefined` is false. */
  function MilestoneTitle(m: Option<int>): string {
    if m.None? then "FIRST STEPS"
    else if m.value >= 1000 then "LEGENDARY FOODIE"
    else if m.value >= 500 then "FOOD LEGEND"
    else if m.value >= 100 then "CENTURION"
    else if m.value >= 50 then "SEASONED EXPLORER"
    else if m.value >= 25 then "RISING FOODIE"
    else if m.value >= 10 then "GETTING STARTED"
    else "FIRST STEPS"
  }

  const MILESTONE_THRESHOLDS: seq<int> := [10, 25, 50, 100, 500, 1000]

  const MILESTONE_TITLES: seq<string> := [
    "FIRST STEPS", "GETTING STARTED", "RISING FOODIE", "SEASONED EXPLORER",
    "CENTURION", "FOOD LEGEND", "LEGENDARY FOODIE"
  ]

  /** How many of the thresholds `m` reaches. */
  function Reached(thresholds: seq<int>, m: int): (n: nat)
    ensures n <= |thresholds|
  {
    if thresholds == [] then 0 else (if m >= thresholds[0] then 1 else 0) + Reached(thresholds[1..], m)
  }

  /** Reaching more is monotone in `m`, whatever the thresholds. */
  lemma {:induction false} ReachedMonotone(thresholds: seq<int>, a: int, b: int)
    requires a <= b
    ensures Reached(thresholds, a) <= Reached(thresholds, b)
  {
    if thresholds != [] {
      ReachedMonotone(thresholds[1..], a, b);
    }
  }

  lemma ReachedMilestones(m: int)
    ensures Reached(MILESTONE_THRESHOLDS, m) ==
      (if m >= 10 then 1 else 0) + (if m >= 25 then 1 else 0) + (if m >= 50 then 1 else 0) +
      (if m >= 100 then 1 else 0) + (if m >= 500 then 1 else 0) + (if m >= 1000 then 1 else 0)
  {
    var t := MILESTONE_THRESHOLDS;
    assert t[1..] == [25, 50, 100, 500, 1000];
    assert [25, 50, 100, 500, 1000][1..] == [50, 100, 500, 1000];
    assert [50, 100, 500, 1000][1..] == [100, 500, 1000];
    assert [100, 500, 1000][1..] == [500, 1000];
    assert [500, 1000][1..] == [1000];
    assert [1000][1..] == [];
    assert Reached([1000], m) == (if m >= 1000 then 1 else 0);
    assert Reached([500, 1000], m) == (if m >= 500 then 1 else 0) + Reached([1000], m);
    assert Reached([100, 500, 1000], m) == (if m >= 100 then 1 else 0) + Reached([500, 1000], m);
    assert Reached([50, 100, 500, 1000], m) == (if m >= 50 then 1 else 0) + Reached([100, 500, 1000], m);
    assert Reached([25, 50, 100, 500, 1000], m) == (if m >= 25 then 1 else 0) + Reached([50, 100, 500, 1000], m);
  }

  /**
   * The title is the tier of the number of thresholds reached (so the checks,
   * highest first, never overlap), and the tier never falls as `m` grows.
   */
  lemma MilestoneTitleTiers(a: int, b: int)
    requires a <= b
    ensures MilestoneTitle(Some(a)) == MILESTONE_TITLES[Reached(MILESTONE_THRESHOLDS, a)]
    ensures MilestoneTitle(Some(b)) == MILESTONE_TITLES[Reached(MILESTONE_THRESHOLDS, b)]
    ensures Reached(MILESTONE_THRESHOLDS, a) <= Reached(MILESTONE_THRESHOLDS, b)
  {
    ReachedMilestones(a);
    ReachedMilestones(b);
    ReachedMonotone(MILESTONE_THRESHOLDS, a, b);
  }

  // ---------------------------------------------------------------------
  // Challenge progress
  // ---------------------------------------------------------------------

  /** `progress >= 100`; an absent progress compares false. */
  predicate IsComplete(progress: Option<int>) {
    progress.Some? && progress.value >= 100
  }

  /** `Math.min(100, progress)` as it is printed; with no progress it is NaN. */
  function ClampedPercent(progress: Option<int>): string {
    if progress.None? then "NaN"
    else IntToString(if progress.value < 100 then progress.value else 100)
  }

  /**
   * The percentage is clamped above at 100 and not below; it reads "100"
   * exactly when the challenge is complete.
   */
  lemma ProgressClamp(progress: Option<int>)
    ensures progress.Some? && progress.value <= 100 ==> ClampedPercent(progress) == IntToString(progress.value)
    ensures progress.Some? && progress.value >= 100 ==> ClampedPercent(progress) == "100"
    ensures ClampedPercent(progress) == "100" <==> IsComplete(progress)
  {
    var hundred := IntToString(100);
    assert hundred == "100" by {
      assert NatToString(100) == NatToString(10) + [DigitChar(0)];
      assert NatToString(10) == NatToString(1) + [DigitChar(0)];
    }
    if progress.Some? && progress.value < 100 {
      ParseIntToString(progress.value);
      ParseIntToString(100);
    }
  }

  // ---------------------------------------------------------------------
  // Badge initials
  // ---------------------------------------------------------------------

  /** `name.split(' ').map(w => w[0]).join('').substring(0, 2).toUpperCase()`. */
  function WordInitials(name: string): string {
    ToUpper(Prefix(FirstChars(Split(name, ' ')), 2))
  }

  /** `name?.split(' ').map(w => w[0]).join('').substring(0, 2).toUpperCase() || 'BD'`. */
  function Initials(name: Option<string>): string {
    if name.None? then "BD"
    else
      var r := WordInitials(name.value);
      if r == "" then "BD" else r
  }

  /**
   * The initials are the first letters of the first two words, in capitals;
   * they are "BD" when the name is absent or has no word (only spaces).
   */
  lemma InitialsOfWords(name: Option<string>)
    ensures 1 <= |Initials(name)| <= 2
    ensures name.None? || (forall i :: 0 <= i < |name.value| ==> name.value[i] == ' ') ==> Initials(name) == "BD"
    ensures name.Some? && (exists i :: 0 <= i < |name.value| && name.value[i] != ' ') ==>
              Initials(name) == ToUpper(Prefix(WordStarts(name.value, true), 2))
  {
    if name.Some? {
      FirstCharsOfSplit(name.value);
      WordStartsEmpty(name.value);
    }
  }

  /** Every initial is a capital or a character with no lower-case form; none is a space. */
  lemma InitialsNoSpace(name: Option<string>)
    ensures forall i :: 0 <= i < |Initials(name)| ==> Initials(name)[i] != ' ' && !('a' <= Initials(name)[i] <= 'z')
  {
    if name.Some? {
      var s := name.value;
      FirstCharsOfSplit(s);
      WordStartsNoSpace(s, true);
      var r := ToUpper(Prefix(WordStarts(s, true), 2));
      assert forall i :: 0 <= i < |r| ==> r[i] == UpperChar(WordStarts(s, true)[i]);
    }
  }

  lemma InitialsOfLeadingWord(name: string)
    requires name != [] && name[0] != ' '
    ensures Initials(Some(name)) == ToUpper(Prefix(WordStarts(name, true), 2))
  {
    FirstCharsOfSplit(name);
    var w := WordStarts(name, true);
    assert w == [name[0]] + WordStarts(name[1..], false);
    assert ToUpper(Prefix(w, 2))[0] == UpperChar(name[0]);
  }

  /**
   * A name whose first two words are `first` and `second` has their first
   * letters as initials, whatever follows the second word: "Dim Sum House
   * Special" gives "DS".
   */
  lemma InitialsOfFirstTwoWords(first: string, second: string, rest: string)
    requires first != [] && second != []
    requires forall i :: 0 <= i < |first| ==> first[i] != ' '
    requires forall i :: 0 <= i < |second| ==> second[i] != ' '
    ensures Initials(Some(first + " " + second + rest)) == ToUpper([first[0], second[0]])
  {
    var name := first + " " + second + rest;
    assert name[0] == first[0];
    InitialsOfLeadingWord(name);
    WordStartsOfTwoWords(first, second, rest);
    var w := WordStarts(name, true);
    assert Prefix(w, 2) == [first[0], second[0]];
  }

  /** The word starts of two words and a remainder: the two first letters, then the remainder's. */
  lemma WordStartsOfTwoWords(first: string, second: string, rest: string)
    requires first != [] && second != []
    requires forall i :: 0 <= i < |first| ==> first[i] != ' '
    requires forall i :: 0 <= i < |second| ==> second[i] != ' '
    ensures WordStarts(first + " " + second + rest, true) == [first[0], second[0]] + WordStarts(rest, false)
  {
    var a := first + " ";
    var b := a + second;
    assert WordStarts(a, true) == [first[0]] by {
      assert first[|first| - 1] != ' ';
      WordStartsAppend(first, " ", true);
      WordStartsOfWord(first, true);
      assert WordStarts(" ", false) == "";
    }
    assert WordStarts(b, true) == [first[0], second[0]] by {
      assert a[|a| - 1] == ' ';
      WordStartsAppend(a, second, true);
      WordStartsOfWord(second, true);
    }
    assert WordStarts(b + rest, true) == WordStarts(b, true) + WordStarts(rest, false) by {
      assert b[|b| - 1] == second[|second| - 1];
      WordStartsAppend(b, rest, true);
    }
  }

  // ---------------------------------------------------------------------
  // Price string and location lines
  // ---------------------------------------------------------------------

  /**
   * The longest string the engine builds: 2^29 - 24 UTF-16 code units, the
   * limit of V8 on 64-bit platforms, which both runtimes run on.
   */
  const MAX_STRING_LENGTH: nat := 0x1FFF_FFE8

  /** A price level `'$'.repeat` accepts: none, or a count from 0 up to the longest string. */
  predicate PriceLevelPrints(priceLevel: Option<int>) {
    !(priceLevel.Some? && (priceLevel.value < 0 || priceLevel.value > MAX_STRING_LENGTH))
  }

  /**
   * `priceLevel ? '$'.repeat(priceLevel) : ''`; repeating a negative count,
   * or one past the longest string, throws a RangeError.
   */
  function PriceString(priceLevel: Option<int>): Result<string> {
    if !IntTruthy(priceLevel) then Ok("")
    else if priceLevel.value < 0 || priceLevel.value > MAX_STRING_LENGTH then Thrown(RangeError)
    else Ok(Repeat('$', priceLevel.value))
  }

  /**
   * The price string is one '$' per price level and "" for level 0 or no
   * level; a negative level or one past the longest string is the one way
   * it fails.
   */
  lemma PriceStringDollars(priceLevel: Option<int>)
    ensures PriceString(priceLevel).Thrown? <==>
              priceLevel.Some? && (priceLevel.value < 0 || priceLevel.value > MAX_STRING_LENGTH)
    ensures PriceString(priceLevel).Thrown? ==> PriceString(priceLevel).error == RangeError
    ensures PriceString(priceLevel).Ok? ==>
              |PriceString(priceLevel).value| == (if priceLevel.Some? then priceLevel.value else 0)
    ensures PriceString(priceLevel).Ok? ==>
              forall i :: 0 <= i < |PriceString(priceLevel).value| ==> PriceString(priceLevel).value[i] == '$'
  {
  }

  /** `[a, b, ...].filter(Boolean).join(' / ')`. */
  function LocationLine(parts: seq<Option<string>>): string {
    Join(FilterTruthy(parts), " / ")
  }

  lemma {:induction false} JoinEmpty(parts: seq<string>, sep: string)
    requires forall i :: 0 <= i < |parts| ==> parts[i] != ""
    ensures Join(parts, sep) == "" <==> parts == []
  {
    if |parts| >= 2 {
      JoinEmpty(parts[1..], sep);
    }
  }

  lemma {:induction false} FilterTruthyEmpty(parts: seq<Option<string>>)
    ensures FilterTruthy(parts) == [] <==> forall i :: 0 <= i < |parts| ==> !StrTruthy(parts[i])
  {
    if parts != [] {
      FilterTruthyEmpty(parts[1..]);
      assert forall i :: 1 <= i < |parts| ==> parts[i] == parts[1..][i - 1];
    }
  }

  /** The location line is empty exactly when no part is a non-empty string. */
  lemma LocationLineEmpty(parts: seq<Option<string>>)
    ensures LocationLine(parts) == "" <==> forall i :: 0 <= i < |parts| ==> !StrTruthy(parts[i])
  {
    JoinEmpty(FilterTruthy(parts), " / ");
    FilterTruthyEmpty(parts);
  }

  /** The check-in location line: both parts joined by " / ", or the one that is there. */
  lemma LocationLineOfTwo(cuisine: Option<string>, neighborhood: Option<string>)
    ensures LocationLine([cuisine, neighborhood]) ==
      if StrTruthy(cuisine) && StrTruthy(neighborhood) then cuisine.value + " / " + neighborhood.value
      else if StrTruthy(cuisine) then cuisine.value
      else if StrTruthy(neighborhood) then neighborhood.value
      else ""
  {
    var xs := [cuisine, neighborhood];
    assert xs[1..] == [neighborhood];
    assert xs[1..][1..] == [];
    assert FilterTruthy([neighborhood]) == if StrTruthy(neighborhood) then [neighborhood.value] else [];
    assert FilterTruthy(xs) == (if StrTruthy(cuisine) then [cuisine.value] else []) + FilterTruthy([neighborhood]);
    if StrTruthy(cuisine) && StrTruthy(neighborhood) {
      var parts := [cuisine.value, neighborhood.value];
      assert FilterTruthy(xs) == parts;
      assert parts[1..] == [neighborhood.value];
      assert Join(parts, " / ") == cuisine.value + " / " + Join([neighborhood.value], " / ");
    }
  }

  /**
   * The place location line: the check-in line of cuisine and
   * neighbourhood, followed by the price string when that is not empty.
   */
  lemma LocationLineWithPrice(cuisine: Option<string>, neighborhood: Option<string>, price: string)
    ensures LocationLine([cuisine, neighborhood, Some(price)]) ==
      if price == "" then LocationLine([cuisine, neighborhood])
      else if LocationLine([cuisine, neighborhood]) == "" then price
      else LocationLine([cuisine, neighborhood]) + " / " + price
  {
    var two := [cuisine, neighborhood];
    assert [cuisine, neighborhood, Some(price)] == two + [Some(price)];
    FilterTruthyConcat(two, [Some(price)]);
    assert [Some(price)][1..] == [];
    var shown := FilterTruthy(two);
    JoinEmpty(shown, " / ");
    if price != "" {
      assert FilterTruthy([Some(price)]) == [price] + FilterTruthy([Some(price)][1..]);
      assert FilterTruthy([cuisine, neighborhood, Some(price)]) == shown + [price];
      JoinAppend(shown, price, " / ");
    } else {
      assert shown + [] == shown;
    }
  }

  // ---------------------------------------------------------------------
  // Milestone stats
  // ---------------------------------------------------------------------

  datatype Stat = Stat(value: int, caption: string)

  /** `[x !== undefined && { value: x, label }, ...].filter(Boolean)`. */
  function DefinedStats(entries: seq<(Option<int>, string)>): (r: seq<Stat>)
    ensures |r| <= |entries|
  {
    if entries == [] then []
    else (if entries[0].0.Some? then [Stat(entries[0].0.value, entries[0].1)] else []) + DefinedStats(entries[1..])
  }

  function MilestoneStats(cuisinesTried: Option<int>, longestStreak: Option<int>, uniquePlaces: Option<int>): seq<Stat> {
    DefinedStats([(cuisinesTried, "CUISINES"), (longestStreak, "DAY STREAK"), (uniquePlaces, "PLACES")])
  }

  /** A stat appears exactly when its field is defined (0 included), in the fixed order. */
  lemma MilestoneStatsDefined(cuisinesTried: Option<int>, longestStreak: Option<int>, uniquePlaces: Option<int>)
    ensures MilestoneStats(cuisinesTried, longestStreak, uniquePlaces) ==
      (if cuisinesTried.Some? then [Stat(cuisinesTried.value, "CUISINES")] else []) +
      (if longestStreak.Some? then [Stat(longestStreak.value, "DAY STREAK")] else []) +
      (if uniquePlaces.Some? then [Stat(uniquePlaces.value, "PLACES")] else [])
  {
    var e := [(cuisinesTried, "CUISINES"), (longestStreak, "DAY STREAK"), (uniquePlaces, "PLACES")];
    assert e[1..] == [(longestStreak, "DAY STREAK"), (uniquePlaces, "PLACES")];
    assert e[1..][1..] == [(uniquePlaces, "PLACES")];
    assert e[1..][1..][1..] == [];
    var u := if uniquePlaces.Some? then [Stat(uniquePlaces.value, "PLACES")] else [];
    assert DefinedStats(e[1..][1..]) == u + DefinedStats([]);
    assert DefinedStats(e[1..]) == (if longestStreak.Some? then [Stat(longestStreak.value, "DAY STREAK")] else []) + DefinedStats(e[1..][1..]);
  }
}
