/**
 * The Node-runtime card builders of api/generate-share-image.ts.  Each
 * builder collects the rows of its main column by pushing onto a local array
 * (and the challenge, place and list builders collect their chips the same
 * way), then wraps them in the card's fixed frame: an optional decorative
 * circle, the top label, the main column and the bottom strip.
 *
 * Every builder is a method that does those pushes, proved equal to a
 * function of the request that says declaratively which rows the card has;
 * the lemmas about what the cards show are stated on those functions.
 */
module SatoriCards {
  import opened Wrappers
  import opened JsText
  import opened Tree
  import opened Rules
  import opened Request

  /** `cond ? [x] : []`: a row that is pushed (or spread) only when `cond` holds. */
  function Opt(cond: bool, x: Node): seq<Node> {
    if cond then [x] else []
  }

  /** A string field passed as the only child: an absent one is `undefined`. */
  function StrChild(s: Option<string>): Node {
    if s.Some? then Text(s.value) else Hole
  }

  // ---------------------------------------------------------------------
  // The frame every card shares
  // ---------------------------------------------------------------------

  function Brand(): seq<Node> {
    [Div(Fixed("brand-name"), [Text("DOWN TO EAT")]), Div(Fixed("brand-url"), [Text("downtoeat.app")])]
  }

  /** `...(username ? [<@username>] : [])` followed by the brand block. */
  function Footer(role: string, username: Option<string>): Node {
    Div(Fixed(role),
      Opt(StrTruthy(username), Div(Fixed("username"), [Text("@" + ShowStr(username))]))
      + [Div(Fixed("brand"), Brand())])
  }

  /** A centred top label holding one text. */
  function TopLabelRow(style: Style, caption: string): Node {
    Div(Fixed("top"), [Div(style, [Text(caption)])])
  }

  /** The gold `+N AURA` pill. */
  function AuraPill(role: string, amount: Option<int>): Node {
    Div(Fixed(role), [Text("+" + ShowInt(amount) + " AURA")])
  }

  // ---------------------------------------------------------------------
  // Check-in card
  // ---------------------------------------------------------------------

  function DishTag(dish: string): Node {
    Div(Fixed("checkin.dish"), [Text(dish)])
  }

  /** `dishes.slice(0, 4).map(...)`. */
  function DishTags(dishes: seq<string>): seq<Node> {
    seq(Min(4, |dishes|), i requires 0 <= i < Min(4, |dishes|) => DishTag(dishes[i]))
  }

  /** The rating badge and the place name, always pushed. */
  function CheckInHead(b: Body): seq<Node> {
    var rs := RatingStyleOrHit(b.rating);
    [Div(Style("checkin.rating", [rs.color]), [Text(rs.text)]),
     Div(Fixed("checkin.place-name"), [StrChild(b.placeName)])]
  }

  function CheckInLocation(b: Body): seq<Node> {
    var locationLine := LocationLine([b.cuisine, b.neighborhood]);
    Opt(locationLine != "", Div(Fixed("checkin.location"), [Text(locationLine)]))
  }

  function CheckInNote(b: Body): seq<Node> {
    Opt(StrTruthy(b.note), Div(Fixed("checkin.note"), [Text("\"" + ShowStr(b.note) + "\"")]))
  }

  function CheckInDishes(b: Body): seq<Node> {
    Opt(|b.dishes| > 0, Div(Fixed("checkin.dishes"), DishTags(b.dishes)))
  }

  function CheckInAura(b: Body): seq<Node> {
    Opt(Positive(b.auraEarned), AuraPill("checkin.aura", b.auraEarned))
  }

  /** The rows of the main column, in push order. */
  function CheckInMain(b: Body): seq<Node> {
    CheckInHead(b) + CheckInLocation(b) + CheckInNote(b) + CheckInDishes(b) + CheckInAura(b)
  }

  function CheckInTop(isFirstVisit: bool, isVerified: bool): Node {
    Div(Fixed("checkin.top"),
      [Div(Fixed("checkin.top-label"), [Text(if isFirstVisit then "FIRST VISIT" else "CHECK-IN")])]
      + Opt(isVerified, Div(Fixed("checkin.verified"), [Div(Fixed("checkin.verified-text"), [Text("VERIFIED")])])))
  }

  function CheckInCard(b: Body): Node {
    Div(Style("checkin.root", [RatingStyleOrHit(b.rating).bg]),
      [CheckInTop(b.isFirstVisit, b.isVerified),
       Div(Fixed("main"), CheckInMain(b)),
       Footer("checkin.bottom", b.username)])
  }

  /** `buildCheckInCard`. */
  method BuildCheckInCard(b: Body) returns (card: Node)
    ensures card == CheckInCard(b)
  {
    var ratingStyle := RatingStyleOrHit(b.rating);
    var locationLine := LocationLine([b.cuisine, b.neighborhood]);
    var mainContent: seq<Node> := [];
    mainContent := mainContent + [Div(Style("checkin.rating", [ratingStyle.color]), [Text(ratingStyle.text)])];
    mainContent := mainContent + [Div(Fixed("checkin.place-name"), [StrChild(b.placeName)])];
    assert mainContent == CheckInHead(b);
    ghost var before := mainContent;
    if locationLine != "" {
      mainContent := mainContent + [Div(Fixed("checkin.location"), [Text(locationLine)])];
    }
    assert mainContent == before + CheckInLocation(b);
    before := mainContent;
    if StrTruthy(b.note) {
      mainContent := mainContent + [Div(Fixed("checkin.note"), [Text("\"" + b.note.value + "\"")])];
    }
    assert mainContent == before + CheckInNote(b);
    before := mainContent;
    if |b.dishes| > 0 {
      mainContent := mainContent + [Div(Fixed("checkin.dishes"), DishTags(b.dishes))];
    }
    assert mainContent == before + CheckInDishes(b);
    before := mainContent;
    if b.auraEarned.Some? && b.auraEarned.value != 0 && b.auraEarned.value > 0 {
      mainContent := mainContent + [AuraPill("checkin.aura", b.auraEarned)];
    }
    assert mainContent == before + CheckInAura(b);
    card := Div(Style("checkin.root", [ratingStyle.bg]),
      [CheckInTop(b.isFirstVisit, b.isVerified), Div(Fixed("main"), mainContent), Footer("checkin.bottom", b.username)]);
  }

  // ---------------------------------------------------------------------
  // Challenge card
  // ---------------------------------------------------------------------

  function ProgressColor(complete: bool): string {
    if complete then "#00FF87" else "#FFFFFF"
  }

  /** `${Math.min(100, progress)}%`, shown as the big number and used as the bar width. */
  function Percent(b: Body): string {
    ClampedPercent(b.progress) + "%"
  }

  /** The progress number, the title and the progress bar, always pushed. */
  function ChallengeHead(b: Body): seq<Node> {
    var color := ProgressColor(IsComplete(b.progress));
    [Div(Style("challenge.progress", [color]), [Text(Percent(b))]),
     Div(Fixed("challenge.title"), [StrChild(b.title)]),
     Div(Fixed("challenge.bar"), [Div(Style("challenge.bar-fill", [Percent(b), color]), [])])]
  }

  /** The pills of the `rewards` array, in push order. */
  function ChallengeRewardPills(b: Body): seq<Node> {
    Opt(IntTruthy(b.auraReward), AuraPill("challenge.aura", b.auraReward))
    + Opt(b.badgeReward, Div(Fixed("challenge.badge"), [Text("+ BADGE")]))
  }

  function ChallengeRewards(b: Body): seq<Node> {
    var rewards := ChallengeRewardPills(b);
    Opt(|rewards| > 0, Div(Fixed("challenge.rewards"), rewards))
  }

  function ChallengeParticipants(b: Body): seq<Node> {
    Opt(Positive(b.participantCount),
      Div(Fixed("challenge.participants"), [Text(ShowInt(b.participantCount) + " people completed this week")]))
  }

  function ChallengeDaysLeft(b: Body): seq<Node> {
    Opt(Positive(b.daysRemaining) && !IsComplete(b.progress),
      Div(Fixed("challenge.days"), [Text(ShowInt(b.daysRemaining) + " days left")]))
  }

  function ChallengeMain(b: Body): seq<Node> {
    ChallengeHead(b) + ChallengeRewards(b) + ChallengeParticipants(b) + ChallengeDaysLeft(b)
  }

  function ChallengeLabel(complete: bool): Node {
    TopLabelRow(Style("challenge.top-label", [if complete then "#00FF87" else "rgba(255,255,255,0.8)"]),
      if complete then "CHALLENGE COMPLETE" else "CHALLENGE")
  }

  function ChallengeCard(b: Body): Node {
    Div(Fixed("challenge.root"),
      [Div(Fixed("challenge.decor"), []),
       ChallengeLabel(IsComplete(b.progress)),
       Div(Fixed("challenge.main"), ChallengeMain(b)),
       Footer("bottom", b.username)])
  }

  /** The `rewards` array of `buildChallengeCard`, pushed pill by pill. */
  method CollectChallengeRewards(b: Body) returns (rewards: seq<Node>)
    ensures rewards == ChallengeRewardPills(b)
  {
    rewards := [];
    if IntTruthy(b.auraReward) {
      rewards := rewards + [AuraPill("challenge.aura", b.auraReward)];
    }
    ghost var before := rewards;
    if b.badgeReward {
      rewards := rewards + [Div(Fixed("challenge.badge"), [Text("+ BADGE")])];
    }
    assert rewards == before + Opt(b.badgeReward, Div(Fixed("challenge.badge"), [Text("+ BADGE")]));
  }

  /** `buildChallengeCard`. */
  method BuildChallengeCard(b: Body) returns (card: Node)
    ensures card == ChallengeCard(b)
  {
    var isComplete := b.progress.Some? && b.progress.value >= 100;
    var progressColor := ProgressColor(isComplete);
    var percent := ClampedPercent(b.progress) + "%";
    assert isComplete == IsComplete(b.progress) && percent == Percent(b);
    var mainContent: seq<Node> := [];
    mainContent := mainContent + [Div(Style("challenge.progress", [progressColor]), [Text(percent)])];
    mainContent := mainContent + [Div(Fixed("challenge.title"), [StrChild(b.title)])];
    mainContent := mainContent + [Div(Fixed("challenge.bar"), [Div(Style("challenge.bar-fill", [percent, progressColor]), [])])];
    assert mainContent == ChallengeHead(b);
    var rewards := CollectChallengeRewards(b);
    ghost var before := mainContent;
    if |rewards| > 0 {
      mainContent := mainContent + [Div(Fixed("challenge.rewards"), rewards)];
    }
    assert mainContent == before + ChallengeRewards(b);
    before := mainContent;
    if b.participantCount.Some? && b.participantCount.value != 0 && b.participantCount.value > 0 {
      mainContent := mainContent
        + [Div(Fixed("challenge.participants"), [Text(IntToString(b.participantCount.value) + " people completed this week")])];
    }
    assert mainContent == before + ChallengeParticipants(b);
    before := mainContent;
    if b.daysRemaining.Some? && b.daysRemaining.value > 0 && !isComplete {
      mainContent := mainContent + [Div(Fixed("challenge.days"), [Text(IntToString(b.daysRemaining.value) + " days left")])];
    }
    assert mainContent == before + ChallengeDaysLeft(b);
    card := Div(Fixed("challenge.root"),
      [Div(Fixed("challenge.decor"), []), ChallengeLabel(isComplete), Div(Fixed("challenge.main"), mainContent),
       Footer("bottom", b.username)]);
  }

  // ---------------------------------------------------------------------
  // Badge card
  // ---------------------------------------------------------------------

  /** The badge icon with the initials, and the name, always pushed. */
  function BadgeHead(b: Body): seq<Node> {
    [Div(Fixed("badge.icon"), [Div(Fixed("badge.initials"), [Text(Initials(b.name))])]),
     Div(Fixed("badge.name"), [StrChild(b.name)])]
  }

  function BadgeDescription(b: Body): seq<Node> {
    Opt(StrTruthy(b.description), Div(Fixed("badge.description"), [Text(ShowStr(b.description))]))
  }

  /** The rarity pill, always pushed. */
  function BadgeRarity(b: Body): seq<Node> {
    var rs := RarityStyleOrCommon(b.rarity);
    [Div(Style("badge.rarity", [rs.bg, rs.text]), [Text(RarityLabel(b.rarity))])]
  }

  function BadgePercentile(b: Body): seq<Node> {
    Opt(b.rarityPercentile.Some?,
      Div(Fixed("badge.percentile"), [Text("Only " + ShowInt(b.rarityPercentile) + "% of users have this")]))
  }

  function BadgeXp(b: Body): seq<Node> {
    Opt(IntTruthy(b.xpReward), AuraPill("badge.xp", b.xpReward))
  }

  function BadgeMain(b: Body): seq<Node> {
    BadgeHead(b) + BadgeDescription(b) + BadgeRarity(b) + BadgePercentile(b) + BadgeXp(b)
  }

  function BadgeCard(b: Body): Node {
    Div(Fixed("orange.root"),
      [TopLabelRow(Fixed("top-label"), "BADGE UNLOCKED"),
       Div(Fixed("main"), BadgeMain(b)),
       Footer("bottom", b.username)])
  }

  /** `buildBadgeCard`. */
  method BuildBadgeCard(b: Body) returns (card: Node)
    ensures card == BadgeCard(b)
  {
    var rarityStyle := RarityStyleOrCommon(b.rarity);
    var initials := Initials(b.name);
    var mainContent: seq<Node> := [];
    mainContent := mainContent + [Div(Fixed("badge.icon"), [Div(Fixed("badge.initials"), [Text(initials)])])];
    mainContent := mainContent + [Div(Fixed("badge.name"), [StrChild(b.name)])];
    assert mainContent == BadgeHead(b);
    ghost var before := mainContent;
    if StrTruthy(b.description) {
      mainContent := mainContent + [Div(Fixed("badge.description"), [Text(b.description.value)])];
    }
    assert mainContent == before + BadgeDescription(b);
    mainContent := mainContent + [Div(Style("badge.rarity", [rarityStyle.bg, rarityStyle.text]), [Text(RarityLabel(b.rarity))])];
    before := mainContent;
    if b.rarityPercentile.Some? {
      mainContent := mainContent
        + [Div(Fixed("badge.percentile"), [Text("Only " + IntToString(b.rarityPercentile.value) + "% of users have this")])];
    }
    assert mainContent == before + BadgePercentile(b);
    before := mainContent;
    if IntTruthy(b.xpReward) {
      mainContent := mainContent + [AuraPill("badge.xp", b.xpReward)];
    }
    assert mainContent == before + BadgeXp(b);
    card := Div(Fixed("orange.root"),
      [TopLabelRow(Fixed("top-label"), "BADGE UNLOCKED"), Div(Fixed("main"), mainContent), Footer("bottom", b.username)]);
  }

  // ---------------------------------------------------------------------
  // Milestone card
  // ---------------------------------------------------------------------

  function StatChip(stat: Stat): Node {
    Div(Fixed("milestone.stat"),
      [Div(Fixed("milestone.stat-value"), [Text(IntToString(stat.value))]),
       Div(Fixed("milestone.stat-caption"), [Text(stat.caption)])])
  }

  /** `stats.map(...)`. */
  function StatChips(stats: seq<Stat>): seq<Node> {
    seq(|stats|, i requires 0 <= i < |stats| => StatChip(stats[i]))
  }

  /** The big number, the CHECK-INS label and the title, always pushed. */
  function MilestoneHead(b: Body): seq<Node> {
    [Div(Fixed("milestone.number"), [Text(ShowInt(b.milestone))]),
     Div(Fixed("milestone.label"), [Text("CHECK-INS")]),
     Div(Fixed("milestone.title"), [Text(MilestoneTitle(b.milestone))])]
  }

  function MilestoneStatsRow(b: Body): seq<Node> {
    var stats := MilestoneStats(b.cuisinesTried, b.longestStreak, b.uniquePlaces);
    Opt(|stats| > 0, Div(Fixed("milestone.stats"), StatChips(stats)))
  }

  function MilestonePercentile(b: Body): seq<Node> {
    Opt(b.explorerPercentile.Some?,
      Div(Fixed("milestone.percentile"), [Text("Top " + ShowInt(b.explorerPercentile) + "% of explorers")]))
  }

  function MilestoneMain(b: Body): seq<Node> {
    MilestoneHead(b) + MilestoneStatsRow(b) + MilestonePercentile(b)
  }

  function MilestoneCard(b: Body): Node {
    Div(Fixed("milestone.root"),
      [Div(Fixed("milestone.decor"), []),
       TopLabelRow(Fixed("top-label"), "MILESTONE REACHED"),
       Div(Fixed("main"), MilestoneMain(b)),
       Footer("bottom", b.username)])
  }

  /** `buildMilestoneCard`. */
  method BuildMilestoneCard(b: Body) returns (card: Node)
    ensures card == MilestoneCard(b)
  {
    var mainContent: seq<Node> := [];
    mainContent := mainContent + [Div(Fixed("milestone.number"), [Text(ShowInt(b.milestone))])];
    mainContent := mainContent + [Div(Fixed("milestone.label"), [Text("CHECK-INS")])];
    mainContent := mainContent + [Div(Fixed("milestone.title"), [Text(MilestoneTitle(b.milestone))])];
    assert mainContent == MilestoneHead(b);
    var stats := MilestoneStats(b.cuisinesTried, b.longestStreak, b.uniquePlaces);
    ghost var before := mainContent;
    if |stats| > 0 {
      mainContent := mainContent + [Div(Fixed("milestone.stats"), StatChips(stats))];
    }
    assert mainContent == before + MilestoneStatsRow(b);
    before := mainContent;
    if b.explorerPercentile.Some? {
      mainContent := mainContent
        + [Div(Fixed("milestone.percentile"), [Text("Top " + IntToString(b.explorerPercentile.value) + "% of explorers")])];
    }
    assert mainContent == before + MilestonePercentile(b);
    card := Div(Fixed("milestone.root"),
      [Div(Fixed("milestone.decor"), []), TopLabelRow(Fixed("top-label"), "MILESTONE REACHED"),
       Div(Fixed("main"), mainContent), Footer("bottom", b.username)]);
  }

  // ---------------------------------------------------------------------
  // Place card
  // ---------------------------------------------------------------------

  function PlaceChip(color: string, value: string, caption: string): Node {
    Div(Fixed("place.stat"),
      [Div(Style("place.stat-value", [color]), [Text(value)]),
       Div(Fixed("place.stat-caption"), [Text(caption)])])
  }

  /** The chips of the `stats` array, in push order. */
  function PlaceStatChips(b: Body): seq<Node> {
    Opt(b.hitRate.Some?, PlaceChip("#00FF87", ShowInt(b.hitRate) + "%", "HIT RATE"))
    + Opt(b.checkInCount.Some?, PlaceChip("white", ShowInt(b.checkInCount), "CHECK-INS"))
    + Opt(Positive(b.friendCount), PlaceChip("#3B82F6", ShowInt(b.friendCount), "FRIENDS"))
  }

  /** `[cuisine, neighborhood, priceString].filter(Boolean)`. */
  function PlaceLocationParts(b: Body, priceString: string): seq<string> {
    FilterTruthy([b.cuisine, b.neighborhood, Some(priceString)])
  }

  function PlaceRating(b: Body): seq<Node> {
    var rs := KnownRatingStyle(b.rating);
    if rs.Some? then [Div(Style("place.rating", [rs.value.bg, rs.value.color]), [Text(rs.value.text)])] else []
  }

  /** The place name, always pushed. */
  function PlaceName(b: Body): seq<Node> {
    [Div(Fixed("place.name"), [StrChild(b.placeName)])]
  }

  function PlaceLocation(b: Body, priceString: string): seq<Node> {
    var parts := PlaceLocationParts(b, priceString);
    Opt(|parts| > 0, Div(Fixed("place.location"), [Text(Join(parts, " / "))]))
  }

  function PlaceStats(b: Body): seq<Node> {
    var stats := PlaceStatChips(b);
    Opt(|stats| > 0, Div(Fixed("place.stats"), stats))
  }

  function PlaceMain(b: Body, priceString: string): seq<Node> {
    PlaceRating(b) + PlaceName(b) + PlaceLocation(b, priceString) + PlaceStats(b)
  }

  function PlaceFrame(b: Body, main: seq<Node>): Node {
    Div(Fixed("orange.root"),
      [TopLabelRow(Fixed("top-label"), "PLACE"), Div(Fixed("place.main"), main), Footer("bottom", b.username)])
  }

  /** The place card, or the error `'$'.repeat` throws for a price level it refuses. */
  function PlaceCard(b: Body): Result<Node> {
    match PriceString(b.priceLevel)
    case Thrown(e) => Thrown(e)
    case Ok(priceString) => Ok(PlaceFrame(b, PlaceMain(b, priceString)))
  }

  /** The `stats` array of `buildPlaceCard`, pushed chip by chip. */
  method CollectPlaceStats(b: Body) returns (stats: seq<Node>)
    ensures stats == PlaceStatChips(b)
  {
    stats := [];
    if b.hitRate.Some? {
      stats := stats + [PlaceChip("#00FF87", IntToString(b.hitRate.value) + "%", "HIT RATE")];
    }
    assert stats == Opt(b.hitRate.Some?, PlaceChip("#00FF87", ShowInt(b.hitRate) + "%", "HIT RATE"));
    ghost var chips := stats;
    if b.checkInCount.Some? {
      stats := stats + [PlaceChip("white", IntToString(b.checkInCount.value), "CHECK-INS")];
    }
    assert stats == chips + Opt(b.checkInCount.Some?, PlaceChip("white", ShowInt(b.checkInCount), "CHECK-INS"));
    chips := stats;
    if b.friendCount.Some? && b.friendCount.value > 0 {
      stats := stats + [PlaceChip("#3B82F6", IntToString(b.friendCount.value), "FRIENDS")];
    }
    assert stats == chips + Opt(Positive(b.friendCount), PlaceChip("#3B82F6", ShowInt(b.friendCount), "FRIENDS"));
    assert stats == PlaceStatChips(b);
  }

  /** `buildPlaceCard`. */
  method BuildPlaceCard(b: Body) returns (card: Result<Node>)
    ensures card == PlaceCard(b)
  {
    var price := PriceString(b.priceLevel);
    if price.Thrown? {
      return Thrown(price.error);
    }
    var priceString := price.value;
    var locationParts := PlaceLocationParts(b, priceString);
    var ratingStyle := KnownRatingStyle(b.rating);
    assert price == Ok(priceString);
    var mainContent: seq<Node> := [];
    if ratingStyle.Some? {
      mainContent := mainContent
        + [Div(Style("place.rating", [ratingStyle.value.bg, ratingStyle.value.color]), [Text(ratingStyle.value.text)])];
    }
    assert mainContent == PlaceRating(b);
    mainContent := mainContent + [Div(Fixed("place.name"), [StrChild(b.placeName)])];
    assert mainContent == PlaceRating(b) + PlaceName(b);
    ghost var before := mainContent;
    if |locationParts| > 0 {
      mainContent := mainContent + [Div(Fixed("place.location"), [Text(Join(locationParts, " / "))])];
    }
    assert mainContent == before + PlaceLocation(b, priceString);
    var stats := CollectPlaceStats(b);
    before := mainContent;
    if |stats| > 0 {
      mainContent := mainContent + [Div(Fixed("place.stats"), stats)];
    }
    assert mainContent == before + PlaceStats(b);
    assert mainContent == PlaceMain(b, priceString);
    card := Ok(PlaceFrame(b, mainContent));
  }

  // ---------------------------------------------------------------------
  // List card
  // ---------------------------------------------------------------------

  function ListChip(value: string, caption: string): Node {
    Div(Fixed("list.stat"),
      [Div(Fixed("list.stat-value"), [Text(value)]), Div(Fixed("list.stat-caption"), [Text(caption)])])
  }

  /** The chips of the `stats` array, in push order. */
  function ListStatChips(b: Body): seq<Node> {
    Opt(b.itemCount.Some?, ListChip(ShowInt(b.itemCount), "PLACES"))
    + Opt(Positive(b.saveCount), ListChip(ShowInt(b.saveCount), "SAVES"))
  }

  function TopPlaceRow(index: nat, place: string): Node {
    Div(Fixed("list.row"),
      [Div(Fixed("list.rank"), [Text(IntToString(index + 1) + ".")]), Div(Fixed("list.place"), [Text(place)])])
  }

  /** `topPlaces.slice(0, 3).map((place, index) => ...)`. */
  function TopPlaceRows(places: seq<string>): seq<Node> {
    seq(Min(3, |places|), i requires 0 <= i < Min(3, |places|) => TopPlaceRow(i, places[i]))
  }

  /** The quoted list name, always pushed. */
  function ListName(b: Body): seq<Node> {
    [Div(Fixed("list.name"), [Text("\"" + ShowStr(b.listName) + "\"")])]
  }

  function ListCreator(b: Body): seq<Node> {
    Opt(StrTruthy(b.username), Div(Fixed("list.creator"), [Text("by @" + ShowStr(b.username))]))
  }

  function ListStats(b: Body): seq<Node> {
    var stats := ListStatChips(b);
    Opt(|stats| > 0, Div(Fixed("list.stats"), stats))
  }

  function ListTopPlaces(b: Body): seq<Node> {
    Opt(|b.topPlaces| > 0, Div(Fixed("list.top-places"), TopPlaceRows(b.topPlaces)))
  }

  function ListMain(b: Body): seq<Node> {
    ListName(b) + ListCreator(b) + ListStats(b) + ListTopPlaces(b)
  }

  function ListLabel(isTrending: bool): Node {
    TopLabelRow(Style("list.top-label", [if isTrending then "#FFD93D" else "rgba(255,255,255,0.9)"]),
      if isTrending then "TRENDING LIST" else "LIST")
  }

  function ListCard(b: Body): Node {
    Div(Fixed("list.root"),
      [Div(Fixed("list.decor"), []),
       ListLabel(b.isTrending),
       Div(Fixed("main"), ListMain(b)),
       Div(Fixed("list.bottom"), Brand())])
  }

  /** `buildListCard`. */
  method BuildListCard(b: Body) returns (card: Node)
    ensures card == ListCard(b)
  {
    var mainContent: seq<Node> := [];
    mainContent := mainContent + [Div(Fixed("list.name"), [Text("\"" + ShowStr(b.listName) + "\"")])];
    assert mainContent == ListName(b);
    ghost var before := mainContent;
    if StrTruthy(b.username) {
      mainContent := mainContent + [Div(Fixed("list.creator"), [Text("by @" + b.username.value)])];
    }
    assert mainContent == before + ListCreator(b);
    var stats: seq<Node> := [];
    if b.itemCount.Some? {
      stats := stats + [ListChip(IntToString(b.itemCount.value), "PLACES")];
    }
    assert stats == Opt(b.itemCount.Some?, ListChip(ShowInt(b.itemCount), "PLACES"));
    ghost var chips := stats;
    if b.saveCount.Some? && b.saveCount.value > 0 {
      stats := stats + [ListChip(IntToString(b.saveCount.value), "SAVES")];
    }
    assert stats == chips + Opt(Positive(b.saveCount), ListChip(ShowInt(b.saveCount), "SAVES"));
    assert stats == ListStatChips(b);
    before := mainContent;
    if |stats| > 0 {
      mainContent := mainContent + [Div(Fixed("list.stats"), stats)];
    }
    assert mainContent == before + ListStats(b);
    before := mainContent;
    if |b.topPlaces| > 0 {
      mainContent := mainContent + [Div(Fixed("list.top-places"), TopPlaceRows(b.topPlaces))];
    }
    assert mainContent == before + ListTopPlaces(b);
    card := Div(Fixed("list.root"),
      [Div(Fixed("list.decor"), []), ListLabel(b.isTrending), Div(Fixed("main"), mainContent),
       Div(Fixed("list.bottom"), Brand())]);
  }

  // ---------------------------------------------------------------------
  // The handler's switch
  // ---------------------------------------------------------------------

  /** The element the handler passes to the renderer, or the error a builder throws. */
  function Render(b: Body): Result<Node> {
    match SelectLayout(b.layout, b.kind)
    case CheckIn => Ok(CheckInCard(b))
    case Challenge => Ok(ChallengeCard(b))
    case Badge => Ok(BadgeCard(b))
    case Milestone => Ok(MilestoneCard(b))
    case Place => PlaceCard(b)
    case List => Ok(ListCard(b))
  }

  /** The handler's `switch (effectiveLayout)`. */
  method Handle(b: Body) returns (element: Result<Node>)
    ensures element == Render(b)
  {
    var effectiveLayout := EffectiveLayout(b.layout, b.kind);
    match LayoutOf(effectiveLayout)
    case Challenge =>
      var card := BuildChallengeCard(b);
      element := Ok(card);
    case Badge =>
      var card := BuildBadgeCard(b);
      element := Ok(card);
    case Milestone =>
      var card := BuildMilestoneCard(b);
      element := Ok(card);
    case Place =>
      element := BuildPlaceCard(b);
    case List =>
      var card := BuildListCard(b);
      element := Ok(card);
    case CheckIn =>
      var card := BuildCheckInCard(b);
      element := Ok(card);
  }
}
