/**
 * The edge-runtime cards of api/generate-share-image.tsx: one JSX component
 * per layout, each a pure function of the request body.
 *
 * The JSX is modelled as the runtime builds it: literal text around an
 * expression gives separate text children (`+{auraEarned} AURA` is three),
 * `{cond && <x/>}` is a child slot holding either the element or the falsy
 * value `cond` evaluated to, `{xs.map(...)}` is one array child, and a
 * self-closing element has no children.  An element built from a style
 * literal that plays the same part as in the Node-runtime builder carries
 * the same role name, so the two sets of cards can be compared row by row.
 */
module EdgeCards {
  import opened Wrappers
  import opened JsText
  import opened Tree
  import opened Rules
  import opened Request
  import S = SatoriCards

  // ---------------------------------------------------------------------
  // JSX children
  // ---------------------------------------------------------------------

  /** `{n}` for a number field: an absent one renders nothing. */
  function NumText(n: Option<int>): Node {
    if n.Some? then Text(IntToString(n.value)) else Hole
  }

  /** `{cond && <x/>}` for a boolean `cond`. */
  function When(cond: bool, x: Node): Node {
    if cond then x else Hole
  }

  /** `{s && <x/>}` for a string field: an empty string stays in the slot as "". */
  function StrAnd(s: Option<string>, x: Node): Node {
    if s.None? then Hole else if s.value == "" then Text("") else x
  }

  /**
   * `{n && rest && <x/>}` for a number field, as written: when `n` is 0 the
   * slot holds the number 0, which the renderer draws as the text "0".
   */
  function NumberAndAsWritten(n: Option<int>, rest: bool, x: Node): Node {
    if n.None? then Hole else if n.value == 0 then Text("0") else if rest then x else Hole
  }

  /** `{n && rest && <x/>}` as intended: the element when `n` is non-zero and `rest` holds, nothing otherwise. */
  function NumberAnd(n: Option<int>, rest: bool, x: Node): (r: Node)
    ensures !Visible(r) <==> !(IntTruthy(n) && rest && Visible(x))
    ensures Visible(r) ==> r == x
  {
    if IntTruthy(n) && rest then x else Hole
  }

  /**
   * Which reading of the number guard a card is built with.  The cards the
   * handler renders are built `AsWritten`; the `Intended` variant is the one
   * the corrected component would build.
   */
  datatype Guard = AsWritten | Intended

  function NumberSlot(g: Guard, n: Option<int>, rest: bool, x: Node): Node {
    match g
    case AsWritten => NumberAndAsWritten(n, rest, x)
    case Intended => NumberAnd(n, rest, x)
  }

  /** The three text children of `+{amount} AURA`. */
  function AuraPill(role: string, amount: Option<int>): Node {
    Div(Fixed(role), [Text("+"), NumText(amount), Text(" AURA")])
  }

  /** `{username && <div>@{username}</div>}` and the brand block. */
  function Footer(role: string, username: Option<string>): Node {
    Div(Fixed(role),
      [StrAnd(username, Div(Fixed("username"), [Text("@"), S.StrChild(username)])),
       Div(Fixed("brand"), S.Brand())])
  }

  // ---------------------------------------------------------------------
  // CheckInCard
  // ---------------------------------------------------------------------

  function CheckInRating(b: Body): Node {
    var rs := RatingStyleOrHit(b.rating);
    Div(Style("checkin.rating", [rs.color]), [Text(rs.text)])
  }

  function CheckInPlaceName(b: Body): Node {
    Div(Fixed("checkin.place-name"), [S.StrChild(b.placeName)])
  }

  function CheckInLocation(b: Body): Node {
    var locationLine := LocationLine([b.cuisine, b.neighborhood]);
    StrAnd(Some(locationLine), Div(Fixed("checkin.location"), [Text(locationLine)]))
  }

  function CheckInNote(b: Body): Node {
    StrAnd(b.note, Div(Fixed("checkin.note"), [Text("\""), S.StrChild(b.note), Text("\"")]))
  }

  function CheckInDishes(b: Body): Node {
    When(|b.dishes| > 0, Div(Fixed("checkin.dishes"), [Fragment(S.DishTags(b.dishes))]))
  }

  function CheckInAura(b: Body, g: Guard): Node {
    NumberSlot(g, b.auraEarned, Positive(b.auraEarned), AuraPill("checkin.aura", b.auraEarned))
  }

  /** The children of the main column, one per JSX child. */
  function CheckInMain(b: Body, g: Guard): seq<Node> {
    [CheckInRating(b), CheckInPlaceName(b), CheckInLocation(b), CheckInNote(b), CheckInDishes(b), CheckInAura(b, g)]
  }

  function CheckInTop(isFirstVisit: bool, isVerified: bool): Node {
    Div(Fixed("checkin.top"),
      [Div(Fixed("checkin.top-label"), [Text(if isFirstVisit then "FIRST VISIT" else "CHECK-IN")]),
       When(isVerified, Div(Fixed("checkin.verified"), [Div(Fixed("checkin.verified-text"), [Text("VERIFIED")])]))])
  }

  function CheckInCard(b: Body): Node {
    Div(Style("checkin.root", [RatingStyleOrHit(b.rating).bg]),
      [CheckInTop(b.isFirstVisit, b.isVerified),
       Div(Fixed("main"), CheckInMain(b, AsWritten)),
       Footer("checkin.bottom", b.username)])
  }

  // ---------------------------------------------------------------------
  // ChallengeCard
  // ---------------------------------------------------------------------

  /** The rewards row: always there, holding the two pill slots. */
  function ChallengeRewards(b: Body, g: Guard): Node {
    Div(Fixed("challenge.rewards"),
      [NumberSlot(g, b.auraReward, true, AuraPill("challenge.aura", b.auraReward)),
       When(b.badgeReward, Div(Fixed("challenge.badge"), [Text("+ BADGE")]))])
  }

  function ChallengeProgress(b: Body): Node {
    var color := S.ProgressColor(IsComplete(b.progress));
    Div(Style("challenge.progress", [color]), [Text(ClampedPercent(b.progress)), Text("%")])
  }

  function ChallengeTitle(b: Body): Node {
    Div(Fixed("challenge.title"), [S.StrChild(b.title)])
  }

  function ChallengeBar(b: Body): Node {
    var color := S.ProgressColor(IsComplete(b.progress));
    Div(Fixed("challenge.bar"), [Div(Style("challenge.bar-fill", [S.Percent(b), color]), [])])
  }

  function ChallengeParticipants(b: Body, g: Guard): Node {
    NumberSlot(g, b.participantCount, Positive(b.participantCount),
      Div(Fixed("challenge.participants"), [NumText(b.participantCount), Text(" people completed this week")]))
  }

  function ChallengeDaysLeft(b: Body): Node {
    When(Positive(b.daysRemaining) && !IsComplete(b.progress),
      Div(Fixed("challenge.days"), [NumText(b.daysRemaining), Text(" days left")]))
  }

  function ChallengeMain(b: Body, g: Guard): seq<Node> {
    [ChallengeProgress(b), ChallengeTitle(b), ChallengeBar(b), ChallengeRewards(b, g), ChallengeParticipants(b, g),
     ChallengeDaysLeft(b)]
  }

  function ChallengeCard(b: Body): Node {
    Div(Fixed("challenge.root"),
      [Div(Fixed("challenge.decor"), []),
       S.ChallengeLabel(IsComplete(b.progress)),
       Div(Fixed("challenge.main"), ChallengeMain(b, AsWritten)),
       Footer("bottom", b.username)])
  }

  // ---------------------------------------------------------------------
  // BadgeCard
  // ---------------------------------------------------------------------

  /** `{rarity?.toUpperCase()}`: nothing for an absent rarity, and no default. */
  function RarityChild(rarity: Option<string>): Node {
    if rarity.Some? then Text(ToUpper(rarity.value)) else Hole
  }

  function BadgeIcon(name: string): Node {
    Div(Fixed("badge.icon"), [Div(Fixed("badge.initials"), [Text(WordInitials(name))])])
  }

  function BadgeName(name: string): Node {
    Div(Fixed("badge.name"), [Text(name)])
  }

  /** The description: always there, empty for an absent description. */
  function BadgeDescription(b: Body): Node {
    Div(Fixed("badge.description"), [S.StrChild(b.description)])
  }

  function BadgeRarity(b: Body): Node {
    var rs := RarityStyleOrCommon(b.rarity);
    Div(Style("badge.rarity", [rs.bg, rs.text]), [RarityChild(b.rarity)])
  }

  function BadgePercentile(b: Body): Node {
    When(b.rarityPercentile.Some?,
      Div(Fixed("badge.percentile"), [Text("Only "), NumText(b.rarityPercentile), Text("% of users have this")]))
  }

  function BadgeXp(b: Body, g: Guard): Node {
    NumberSlot(g, b.xpReward, true, AuraPill("badge.xp", b.xpReward))
  }

  function BadgeMain(b: Body, name: string, g: Guard): seq<Node> {
    [BadgeIcon(name), BadgeName(name), BadgeDescription(b), BadgeRarity(b), BadgePercentile(b), BadgeXp(b, g)]
  }

  /** The badge card, or the TypeError `name.split` throws when there is no name. */
  function BadgeCard(b: Body): Result<Node> {
    if b.name.None? then Thrown(TypeError)
    else
      Ok(Div(Fixed("orange.root"),
        [S.TopLabelRow(Fixed("top-label"), "BADGE UNLOCKED"),
         Div(Fixed("main"), BadgeMain(b, b.name.value, AsWritten)),
         Footer("bottom", b.username)]))
  }

  // ---------------------------------------------------------------------
  // MilestoneCard
  // ---------------------------------------------------------------------

  function MilestoneNumber(b: Body): Node {
    Div(Fixed("milestone.number"), [NumText(b.milestone)])
  }

  function MilestoneLabel(): Node {
    Div(Fixed("milestone.label"), [Text("CHECK-INS")])
  }

  function MilestoneTitleRow(b: Body): Node {
    Div(Fixed("milestone.title"), [Text(MilestoneTitle(b.milestone))])
  }

  function MilestoneStatsRow(b: Body): Node {
    var stats := MilestoneStats(b.cuisinesTried, b.longestStreak, b.uniquePlaces);
    When(|stats| > 0, Div(Fixed("milestone.stats"), [Fragment(S.StatChips(stats))]))
  }

  function MilestonePercentile(b: Body): Node {
    When(b.explorerPercentile.Some?,
      Div(Fixed("milestone.percentile"), [Text("Top "), NumText(b.explorerPercentile), Text("% of explorers")]))
  }

  function MilestoneMain(b: Body): seq<Node> {
    [MilestoneNumber(b), MilestoneLabel(), MilestoneTitleRow(b), MilestoneStatsRow(b), MilestonePercentile(b)]
  }

  function MilestoneCard(b: Body): Node {
    Div(Fixed("milestone.root"),
      [Div(Fixed("milestone.decor"), []),
       S.TopLabelRow(Fixed("top-label"), "MILESTONE REACHED"),
       Div(Fixed("main"), MilestoneMain(b)),
       Footer("bottom", b.username)])
  }

  // ---------------------------------------------------------------------
  // PlaceCard
  // ---------------------------------------------------------------------

  function PlaceChip(color: string, value: seq<Node>, caption: string): Node {
    Div(Fixed("place.stat"),
      [Div(Style("place.stat-value", [color]), value), Div(Fixed("place.stat-caption"), [Text(caption)])])
  }

  /** The stats row: always there, holding the three chip slots. */
  function PlaceStats(b: Body): Node {
    Div(Fixed("place.stats"),
      [When(b.hitRate.Some?, PlaceChip("#00FF87", [NumText(b.hitRate), Text("%")], "HIT RATE")),
       When(b.checkInCount.Some?, PlaceChip("white", [NumText(b.checkInCount)], "CHECK-INS")),
       When(Positive(b.friendCount), PlaceChip("#3B82F6", [NumText(b.friendCount)], "FRIENDS"))])
  }

  function PlaceRating(b: Body): Node {
    var rs := KnownRatingStyle(b.rating);
    if rs.Some? then Div(Style("place.rating", [rs.value.bg, rs.value.color]), [Text(rs.value.text)]) else Hole
  }

  function PlaceName(b: Body): Node {
    Div(Fixed("place.name"), [S.StrChild(b.placeName)])
  }

  function PlaceLocation(b: Body, priceString: string): Node {
    var parts := S.PlaceLocationParts(b, priceString);
    When(|parts| > 0, Div(Fixed("place.location"), [Text(Join(parts, " / "))]))
  }

  function PlaceMain(b: Body, priceString: string): seq<Node> {
    [PlaceRating(b), PlaceName(b), PlaceLocation(b, priceString), PlaceStats(b)]
  }

  function PlaceFrame(b: Body, main: seq<Node>): Node {
    Div(Fixed("orange.root"),
      [S.TopLabelRow(Fixed("top-label"), "PLACE"), Div(Fixed("place.main"), main), Footer("bottom", b.username)])
  }

  /** The place card, or the RangeError `'$'.repeat` throws for a price level it refuses. */
  function PlaceCard(b: Body): Result<Node> {
    match PriceString(b.priceLevel)
    case Thrown(e) => Thrown(e)
    case Ok(priceString) => Ok(PlaceFrame(b, PlaceMain(b, priceString)))
  }

  // ---------------------------------------------------------------------
  // ListCard
  // ---------------------------------------------------------------------

  function TopPlaceRow(index: nat, place: string): Node {
    Div(Fixed("list.row"),
      [Div(Fixed("list.rank"), [Text(IntToString(index + 1)), Text(".")]), Div(Fixed("list.place"), [Text(place)])])
  }

  function TopPlaceRows(places: seq<string>): seq<Node> {
    seq(Min(3, |places|), i requires 0 <= i < Min(3, |places|) => TopPlaceRow(i, places[i]))
  }

  /** The stats row: always there, holding the two chip slots. */
  function ListStats(b: Body): Node {
    Div(Fixed("list.stats"),
      [When(b.itemCount.Some?, S.ListChip(ShowInt(b.itemCount), "PLACES")),
       When(Positive(b.saveCount), S.ListChip(ShowInt(b.saveCount), "SAVES"))])
  }

  /** The quoted list name: an absent name leaves the quotes empty. */
  function ListName(b: Body): Node {
    Div(Fixed("list.name"), [Text("\""), S.StrChild(b.listName), Text("\"")])
  }

  function ListCreator(b: Body): Node {
    StrAnd(b.username, Div(Fixed("list.creator"), [Text("by @"), S.StrChild(b.username)]))
  }

  function ListTopPlaces(b: Body): Node {
    When(|b.topPlaces| > 0, Div(Fixed("list.top-places"), [Fragment(TopPlaceRows(b.topPlaces))]))
  }

  function ListMain(b: Body): seq<Node> {
    [ListName(b), ListCreator(b), ListStats(b), ListTopPlaces(b)]
  }

  function ListCard(b: Body): Node {
    Div(Fixed("list.root"),
      [Div(Fixed("list.decor"), []),
       S.ListLabel(b.isTrending),
       Div(Fixed("main"), ListMain(b)),
       Div(Fixed("list.bottom"), S.Brand())])
  }

  // ---------------------------------------------------------------------
  // The handler's switch
  // ---------------------------------------------------------------------

  /** The element the edge handler renders, or the error a component throws while it is rendered. */
  function Render(b: Body): Result<Node> {
    match SelectLayout(b.layout, b.kind)
    case CheckIn => Ok(CheckInCard(b))
    case Challenge => Ok(ChallengeCard(b))
    case Badge => BadgeCard(b)
    case Milestone => Ok(MilestoneCard(b))
    case Place => PlaceCard(b)
    case List => Ok(ListCard(b))
  }
}
