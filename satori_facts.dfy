/**
 * What the Node-runtime cards show, stated on the card functions of module
 * SatoriCards (which the builder methods are proved to produce): which rows
 * the main column has and when, what each row reads, what the top label and
 * the bottom strip read, and how the handler's switch picks the card.
 */
module SatoriFacts {
  import opened Wrappers
  import opened JsText
  import opened Tree
  import opened Rules
  import opened Request
  import opened SatoriCards

  // ---------------------------------------------------------------------
  // Finding rows in a main column built from optional pushes
  // ---------------------------------------------------------------------

  function OrElse(a: Option<Node>, b: Option<Node>): Option<Node> {
    if a.Some? then a else b
  }

  lemma Find3(s1: seq<Node>, s2: seq<Node>, s3: seq<Node>, role: string)
    ensures Find(s1 + s2 + s3, role) == OrElse(OrElse(Find(s1, role), Find(s2, role)), Find(s3, role))
  {
    FindConcat(s1 + s2, s3, role);
    FindConcat(s1, s2, role);
  }

  lemma Find4(s1: seq<Node>, s2: seq<Node>, s3: seq<Node>, s4: seq<Node>, role: string)
    ensures Find(s1 + s2 + s3 + s4, role)
         == OrElse(OrElse(OrElse(Find(s1, role), Find(s2, role)), Find(s3, role)), Find(s4, role))
  {
    FindConcat(s1 + s2 + s3, s4, role);
    Find3(s1, s2, s3, role);
  }

  lemma Find5(s1: seq<Node>, s2: seq<Node>, s3: seq<Node>, s4: seq<Node>, s5: seq<Node>, role: string)
    ensures Find(s1 + s2 + s3 + s4 + s5, role)
         == OrElse(OrElse(OrElse(OrElse(Find(s1, role), Find(s2, role)), Find(s3, role)), Find(s4, role)), Find(s5, role))
  {
    FindConcat(s1 + s2 + s3 + s4, s5, role);
    Find4(s1, s2, s3, s4, role);
  }

  lemma FindOpt(cond: bool, x: Node, role: string)
    ensures Find(Opt(cond, x), role) == if cond && HasRole(x, role) then Some(x) else None
  {
    if cond {
      assert [x][1..] == [];
    }
  }

  lemma FindPair(x: Node, y: Node, role: string)
    ensures Find([x, y], role) == if HasRole(x, role) then Some(x) else if HasRole(y, role) then Some(y) else None
  {
    assert [y][1..] == [];
    assert Find([y], role) == if HasRole(y, role) then Some(y) else None;
    assert [x, y][1..] == [y];
  }

  lemma FindTriple(x: Node, y: Node, z: Node, role: string)
    ensures Find([x, y, z], role) ==
      if HasRole(x, role) then Some(x) else if HasRole(y, role) then Some(y) else if HasRole(z, role) then Some(z) else None
  {
    FindPair(y, z, role);
    assert [x, y, z][1..] == [y, z];
  }

  /** A text in an element of its own reads as that text. */
  lemma TextOfRow(style: Style, t: string)
    ensures TextOf(Div(style, [Text(t)])) == t
  {
  }

  /** A chip holding a value element and a caption element reads as those two lines. */
  lemma ChipLines(style: Style, valueStyle: Style, value: string, captionStyle: Style, caption: string)
    ensures Lines(Div(style, [Div(valueStyle, [Text(value)]), Div(captionStyle, [Text(caption)])])) == [value, caption]
  {
    var kids := [Div(valueStyle, [Text(value)]), Div(captionStyle, [Text(caption)])];
    assert Kids(Div(style, kids)) == kids;
    ShownOfVisible(kids);
    assert Texts(kids) == [TextOf(kids[0]), TextOf(kids[1])];
  }

  /** A row of elements each holding one text reads as those texts. */
  lemma LinesOfTexts(style: Style, kids: seq<Node>, texts: seq<string>)
    requires |kids| == |texts|
    requires forall i :: 0 <= i < |kids| ==> kids[i].Element? && kids[i] == Div(kids[i].style, [Text(texts[i])])
    ensures Lines(Div(style, kids)) == texts
  {
    assert Kids(Div(style, kids)) == kids;
    assert forall i :: 0 <= i < |kids| ==> Visible(kids[i]);
    ShownOfVisible(kids);
    forall i | 0 <= i < |kids|
      ensures TextOf(kids[i]) == texts[i]
    {
      TextOfRow(kids[i].style, texts[i]);
    }
  }

  lemma LinesOfEachOptPair(c1: bool, x1: Node, c2: bool, x2: Node)
    ensures LinesOfEach(Opt(c1, x1) + Opt(c2, x2)) == (if c1 then [Lines(x1)] else []) + (if c2 then [Lines(x2)] else [])
  {
  }

  lemma LinesOfEachOpts(c1: bool, x1: Node, c2: bool, x2: Node, c3: bool, x3: Node)
    ensures LinesOfEach(Opt(c1, x1) + Opt(c2, x2) + Opt(c3, x3)) ==
      (if c1 then [Lines(x1)] else []) + (if c2 then [Lines(x2)] else []) + (if c3 then [Lines(x3)] else [])
  {
  }

  // ---------------------------------------------------------------------
  // Check-in card
  // ---------------------------------------------------------------------

  /** The rows the builder collects for the main column (the column itself, by CheckInRegions). */
  function CheckInRows(b: Body): seq<Node> {
    CheckInMain(b)
  }

  lemma CheckInRegions(b: Body)
    ensures IsCard(CheckInCard(b))
    ensures TopLabel(CheckInCard(b)) == CheckInTop(b.isFirstVisit, b.isVerified)
    ensures BottomStrip(CheckInCard(b)) == Footer("checkin.bottom", b.username)
  {
  }

  /** The main column holds exactly these rows. */
  lemma CheckInColumn(b: Body)
    ensures IsCard(CheckInCard(b))
    ensures Kids(MainColumn(CheckInCard(b))) == CheckInRows(b)
  {
  }

  /** The single row a segment pushed, if it pushed one. */
  function Pushed(seg: seq<Node>): Option<Node> {
    if |seg| == 1 then Some(seg[0]) else None
  }

  lemma FindPushed(seg: seq<Node>, role: string, own: string)
    requires |seg| <= 1
    requires |seg| == 1 ==> HasRole(seg[0], own)
    ensures Find(seg, role) == if role == own then Pushed(seg) else None
  {
    if |seg| == 1 {
      assert seg[1..] == [];
    }
  }

  /** Which row of the check-in main column a role picks out. */
  lemma CheckInRow(b: Body, role: string)
    ensures Find(CheckInRows(b), role) ==
      if role == "checkin.rating" then Some(CheckInHead(b)[0])
      else if role == "checkin.place-name" then Some(CheckInHead(b)[1])
      else if role == "checkin.location" then Pushed(CheckInLocation(b))
      else if role == "checkin.note" then Pushed(CheckInNote(b))
      else if role == "checkin.dishes" then Pushed(CheckInDishes(b))
      else if role == "checkin.aura" then Pushed(CheckInAura(b))
      else None
  {
    Find5(CheckInHead(b), CheckInLocation(b), CheckInNote(b), CheckInDishes(b), CheckInAura(b), role);
    var h := CheckInHead(b);
    FindPair(h[0], h[1], role);
    FindPushed(CheckInLocation(b), role, "checkin.location");
    FindPushed(CheckInNote(b), role, "checkin.note");
    FindPushed(CheckInDishes(b), role, "checkin.dishes");
    FindPushed(CheckInAura(b), role, "checkin.aura");
  }

  /** The top label says FIRST VISIT or CHECK-IN, and VERIFIED follows when the visit is verified. */
  lemma CheckInTopLabel(b: Body)
    ensures IsCard(CheckInCard(b))
    ensures Lines(TopLabel(CheckInCard(b))) ==
      [if b.isFirstVisit then "FIRST VISIT" else "CHECK-IN"] + (if b.isVerified then ["VERIFIED"] else [])
  {
    CheckInRegions(b);
    CheckInTopLines(b.isFirstVisit, b.isVerified);
  }

  lemma CheckInTopLines(isFirstVisit: bool, isVerified: bool)
    ensures Lines(CheckInTop(isFirstVisit, isVerified)) ==
      [if isFirstVisit then "FIRST VISIT" else "CHECK-IN"] + (if isVerified then ["VERIFIED"] else [])
  {
    var first := if isFirstVisit then "FIRST VISIT" else "CHECK-IN";
    var caption := Div(Fixed("checkin.top-label"), [Text(first)]);
    var verified := Div(Fixed("checkin.verified"), [Div(Fixed("checkin.verified-text"), [Text("VERIFIED")])]);
    if isVerified {
      assert TextOf(verified) == "VERIFIED";
      TopLines(Fixed("checkin.top"), caption, first, [verified], ["VERIFIED"]);
    } else {
      TopLines(Fixed("checkin.top"), caption, first, [], []);
    }
  }

  lemma TopLines(style: Style, caption: Node, first: string, rest: seq<Node>, texts: seq<string>)
    requires caption.Element? && TextOf(caption) == first
    requires |rest| <= 1 && |rest| == |texts|
    requires |rest| == 1 ==> rest[0].Element? && TextOf(rest[0]) == texts[0]
    ensures Lines(Div(style, [caption] + rest)) == [first] + texts
  {
    var kids := [caption] + rest;
    assert Kids(Div(style, kids)) == kids;
    ShownOfVisible(kids);
  }

  /**
   * The rating badge reads the rating's key in capitals for the three known
   * ratings and HIT for any other value, absent included; the background is
   * that rating's colour.
   */
  lemma CheckInRatingBadge(b: Body)
    ensures TextAt(CheckInRows(b), "checkin.rating") ==
      Some(if b.rating.Some? && b.rating.value in {"hit", "mid", "miss"} then ToUpper(b.rating.value) else "HIT")
    ensures CheckInCard(b).style.values == [RatingStyleOrHit(b.rating).bg]
  {
    RatingLabelIsKeyInCapitals(b.rating);
    CheckInRow(b, "checkin.rating");
    var rs := RatingStyleOrHit(b.rating);
    assert TextOf(CheckInHead(b)[0]) == rs.text;
  }

  /**
   * The location row is there exactly when the cuisine or the neighbourhood
   * is a non-empty string, and reads the two joined by " / " or the one given.
   */
  lemma CheckInLocationRow(b: Body)
    ensures TextAt(CheckInRows(b), "checkin.location") ==
      if StrTruthy(b.cuisine) && StrTruthy(b.neighborhood) then Some(b.cuisine.value + " / " + b.neighborhood.value)
      else if StrTruthy(b.cuisine) then Some(b.cuisine.value)
      else if StrTruthy(b.neighborhood) then Some(b.neighborhood.value)
      else None
  {
    LocationLineOfTwo(b.cuisine, b.neighborhood);
    CheckInRow(b, "checkin.location");
    var loc := LocationLine([b.cuisine, b.neighborhood]);
    if loc != "" {
      assert TextOf(CheckInLocation(b)[0]) == loc;
    }
  }

  /** The note row is there exactly for a non-empty note, which it shows in quotes. */
  lemma CheckInNoteRow(b: Body)
    ensures TextAt(CheckInRows(b), "checkin.note") ==
      if StrTruthy(b.note) then Some("\"" + b.note.value + "\"") else None
  {
    CheckInRow(b, "checkin.note");
    if StrTruthy(b.note) {
      assert TextOf(CheckInNote(b)[0]) == "\"" + b.note.value + "\"";
    }
  }

  /** The dishes row is there exactly when there are dishes, and shows the first four, in order. */
  lemma CheckInDishesRow(b: Body)
    ensures LinesAt(CheckInRows(b), "checkin.dishes") ==
      if |b.dishes| > 0 then Some(b.dishes[..Min(4, |b.dishes|)]) else None
  {
    CheckInRow(b, "checkin.dishes");
    if |b.dishes| > 0 {
      var tags := DishTags(b.dishes);
      assert Kids(CheckInDishes(b)[0]) == tags;
      ShownOfVisible(tags);
      forall i | 0 <= i < |tags|
        ensures TextOf(tags[i]) == b.dishes[i]
      {
        assert tags[i] == DishTag(b.dishes[i]);
      }
      assert Texts(tags) == b.dishes[..Min(4, |b.dishes|)];
    }
  }

  /** The aura pill is there exactly for a positive aura, and reads `+N AURA`. */
  lemma CheckInAuraRow(b: Body)
    ensures TextAt(CheckInRows(b), "checkin.aura") ==
      if Positive(b.auraEarned) then Some("+" + IntToString(b.auraEarned.value) + " AURA") else None
  {
    CheckInRow(b, "checkin.aura");
    if Positive(b.auraEarned) {
      assert TextOf(CheckInAura(b)[0]) == "+" + IntToString(b.auraEarned.value) + " AURA";
    }
  }

  // ---------------------------------------------------------------------
  // Challenge card
  // ---------------------------------------------------------------------

  /** The rows the builder collects for the main column (the column itself, by ChallengeRegions). */
  function ChallengeRows(b: Body): seq<Node> {
    ChallengeMain(b)
  }

  lemma ChallengeRegions(b: Body)
    ensures IsCard(ChallengeCard(b))
    ensures TopLabel(ChallengeCard(b)) == ChallengeLabel(IsComplete(b.progress))
    ensures BottomStrip(ChallengeCard(b)) == Footer("bottom", b.username)
  {
  }

  /** The main column holds exactly these rows. */
  lemma ChallengeColumn(b: Body)
    ensures IsCard(ChallengeCard(b))
    ensures Kids(MainColumn(ChallengeCard(b))) == ChallengeRows(b)
  {
  }

  /** Which row of the challenge main column a role picks out. */
  lemma ChallengeRow(b: Body, role: string)
    ensures Find(ChallengeRows(b), role) ==
      if role == "challenge.progress" then Some(ChallengeHead(b)[0])
      else if role == "challenge.title" then Some(ChallengeHead(b)[1])
      else if role == "challenge.bar" then Some(ChallengeHead(b)[2])
      else if role == "challenge.rewards" then Pushed(ChallengeRewards(b))
      else if role == "challenge.participants" then Pushed(ChallengeParticipants(b))
      else if role == "challenge.days" then Pushed(ChallengeDaysLeft(b))
      else None
  {
    Find4(ChallengeHead(b), ChallengeRewards(b), ChallengeParticipants(b), ChallengeDaysLeft(b), role);
    var h := ChallengeHead(b);
    FindTriple(h[0], h[1], h[2], role);
    FindPushed(ChallengeRewards(b), role, "challenge.rewards");
    FindPushed(ChallengeParticipants(b), role, "challenge.participants");
    FindPushed(ChallengeDaysLeft(b), role, "challenge.days");
  }

  lemma SuffixCancel(a: string, c: string, x: string)
    ensures a + x == c + x <==> a == c
  {
    if a + x == c + x {
      assert |a| == |c|;
      assert a == (a + x)[..|a|];
      assert c == (c + x)[..|c|];
    }
  }

  /**
   * The big number reads the progress capped at 100 (with no lower bound)
   * followed by %, the bar is filled to that same width, both are green
   * exactly when the challenge is complete, and the number reads 100%
   * exactly when it is.
   */
  lemma ChallengeProgressRow(b: Body)
    ensures TextAt(ChallengeRows(b), "challenge.progress") == Some(Percent(b))
    ensures Percent(b) == "100%" <==> b.progress.Some? && b.progress.value >= 100
    ensures b.progress.Some? && b.progress.value <= 100 ==> Percent(b) == IntToString(b.progress.value) + "%"
    ensures b.progress.None? ==> Percent(b) == "NaN%"
    ensures StyleAt(ChallengeRows(b), "challenge.progress") ==
      Some([if b.progress.Some? && b.progress.value >= 100 then "#00FF87" else "#FFFFFF"])
    ensures Kids(ChallengeHead(b)[2])[0].style.values ==
      [Percent(b), if b.progress.Some? && b.progress.value >= 100 then "#00FF87" else "#FFFFFF"]
  {
    ChallengeRow(b, "challenge.progress");
    ProgressClamp(b.progress);
    SuffixCancel(ClampedPercent(b.progress), "100", "%");
    TextOfRow(Style("challenge.progress", [ProgressColor(IsComplete(b.progress))]), Percent(b));
  }

  /** The top label reads CHALLENGE COMPLETE, in green, exactly when progress reached 100, and CHALLENGE otherwise. */
  lemma ChallengeTopLabel(b: Body)
    ensures IsCard(ChallengeCard(b))
    ensures Lines(TopLabel(ChallengeCard(b))) ==
      [if b.progress.Some? && b.progress.value >= 100 then "CHALLENGE COMPLETE" else "CHALLENGE"]
  {
    ChallengeRegions(b);
    var complete := IsComplete(b.progress);
    LinesOfTexts(Fixed("top"),
      [Div(Style("challenge.top-label", [if complete then "#00FF87" else "rgba(255,255,255,0.8)"]),
        [Text(if complete then "CHALLENGE COMPLETE" else "CHALLENGE")])],
      [if complete then "CHALLENGE COMPLETE" else "CHALLENGE"]);
  }

  /**
   * The rewards row is there exactly when there is a non-zero aura reward or
   * a badge reward, and shows the aura pill before the badge pill.
   */
  lemma ChallengeRewardsRow(b: Body)
    ensures LinesAt(ChallengeRows(b), "challenge.rewards") ==
      if IntTruthy(b.auraReward) || b.badgeReward then
        Some((if IntTruthy(b.auraReward) then ["+" + IntToString(b.auraReward.value) + " AURA"] else [])
          + (if b.badgeReward then ["+ BADGE"] else []))
      else None
  {
    ChallengeRow(b, "challenge.rewards");
    var pills := ChallengeRewardPills(b);
    if |pills| > 0 {
      var texts := (if IntTruthy(b.auraReward) then ["+" + IntToString(b.auraReward.value) + " AURA"] else [])
        + (if b.badgeReward then ["+ BADGE"] else []);
      LinesOfTexts(Fixed("challenge.rewards"), pills, texts);
    }
  }

  /** The participants line is there exactly for a positive count. */
  lemma ChallengeParticipantsRow(b: Body)
    ensures TextAt(ChallengeRows(b), "challenge.participants") ==
      if Positive(b.participantCount) then Some(IntToString(b.participantCount.value) + " people completed this week")
      else None
  {
    ChallengeRow(b, "challenge.participants");
    if Positive(b.participantCount) {
      TextOfRow(Fixed("challenge.participants"), IntToString(b.participantCount.value) + " people completed this week");
    }
  }

  /** The days-left line is there exactly when days remain and the challenge is not complete. */
  lemma ChallengeDaysRow(b: Body)
    ensures TextAt(ChallengeRows(b), "challenge.days") ==
      if Positive(b.daysRemaining) && !(b.progress.Some? && b.progress.value >= 100) then
        Some(IntToString(b.daysRemaining.value) + " days left")
      else None
  {
    ChallengeRow(b, "challenge.days");
    if Positive(b.daysRemaining) && !IsComplete(b.progress) {
      TextOfRow(Fixed("challenge.days"), IntToString(b.daysRemaining.value) + " days left");
    }
  }

  // ---------------------------------------------------------------------
  // Badge card
  // ---------------------------------------------------------------------

  /** The rows the builder collects for the main column (the column itself, by BadgeRegions). */
  function BadgeRows(b: Body): seq<Node> {
    BadgeMain(b)
  }

  lemma BadgeRegions(b: Body)
    ensures IsCard(BadgeCard(b))
    ensures TopLabel(BadgeCard(b)) == TopLabelRow(Fixed("top-label"), "BADGE UNLOCKED")
    ensures BottomStrip(BadgeCard(b)) == Footer("bottom", b.username)
  {
  }

  /** The main column holds exactly these rows. */
  lemma BadgeColumn(b: Body)
    ensures IsCard(BadgeCard(b))
    ensures Kids(MainColumn(BadgeCard(b))) == BadgeRows(b)
  {
  }

  /** Which row of the badge main column a role picks out. */
  lemma BadgeRow(b: Body, role: string)
    ensures Find(BadgeRows(b), role) ==
      if role == "badge.icon" then Some(BadgeHead(b)[0])
      else if role == "badge.name" then Some(BadgeHead(b)[1])
      else if role == "badge.description" then Pushed(BadgeDescription(b))
      else if role == "badge.rarity" then Some(BadgeRarity(b)[0])
      else if role == "badge.percentile" then Pushed(BadgePercentile(b))
      else if role == "badge.xp" then Pushed(BadgeXp(b))
      else None
  {
    Find5(BadgeHead(b), BadgeDescription(b), BadgeRarity(b), BadgePercentile(b), BadgeXp(b), role);
    var h := BadgeHead(b);
    FindPair(h[0], h[1], role);
    FindPushed(BadgeDescription(b), role, "badge.description");
    FindPushed(BadgeRarity(b), role, "badge.rarity");
    FindPushed(BadgePercentile(b), role, "badge.percentile");
    FindPushed(BadgeXp(b), role, "badge.xp");
  }

  /**
   * The icon shows the badge's initials: one or two characters, BD when the
   * name is absent or has no word, otherwise the first letters of the first
   * two words, in capitals.
   */
  lemma BadgeIconRow(b: Body)
    ensures TextAt(BadgeRows(b), "badge.icon") == Some(Initials(b.name))
    ensures 1 <= |Initials(b.name)| <= 2
    ensures b.name.None? || (forall i :: 0 <= i < |b.name.value| ==> b.name.value[i] == ' ') ==>
      Initials(b.name) == "BD"
    ensures b.name.Some? && (exists i :: 0 <= i < |b.name.value| && b.name.value[i] != ' ') ==>
      Initials(b.name) == ToUpper(Prefix(WordStarts(b.name.value, true), 2))
  {
    BadgeRow(b, "badge.icon");
    InitialsOfWords(b.name);
    TextOfRow(Fixed("badge.initials"), Initials(b.name));
  }

  /** The description line is there exactly for a non-empty description. */
  lemma BadgeDescriptionRow(b: Body)
    ensures TextAt(BadgeRows(b), "badge.description") ==
      if StrTruthy(b.description) then Some(b.description.value) else None
  {
    BadgeRow(b, "badge.description");
    if StrTruthy(b.description) {
      TextOfRow(Fixed("badge.description"), b.description.value);
    }
  }

  /**
   * The rarity pill is always there: it reads the rarity in capitals, or
   * COMMON when there is none, and takes the common colours for a rarity
   * outside the table.
   */
  lemma BadgeRarityPill(b: Body)
    ensures TextAt(BadgeRows(b), "badge.rarity") == Some(RarityLabel(b.rarity))
    ensures RarityLabel(b.rarity) != ""
    ensures b.rarity.None? || b.rarity.value == "" ==> RarityLabel(b.rarity) == "COMMON"
    ensures b.rarity.Some? && b.rarity.value != "" ==> RarityLabel(b.rarity) == ToUpper(b.rarity.value)
    ensures StyleAt(BadgeRows(b), "badge.rarity") ==
      var rs := if b.rarity.Some? && b.rarity.value in RARITY_STYLES then RARITY_STYLES[b.rarity.value]
                else RARITY_STYLES["common"];
      Some([rs.bg, rs.text])
  {
    BadgeRow(b, "badge.rarity");
    RarityLabelAndStyle(b.rarity);
    var rs := RarityStyleOrCommon(b.rarity);
    TextOfRow(Style("badge.rarity", [rs.bg, rs.text]), RarityLabel(b.rarity));
  }

  /** The percentile line is there exactly when the percentile is given, 0 included. */
  lemma BadgePercentileRow(b: Body)
    ensures TextAt(BadgeRows(b), "badge.percentile") ==
      if b.rarityPercentile.Some? then Some("Only " + IntToString(b.rarityPercentile.value) + "% of users have this")
      else None
  {
    BadgeRow(b, "badge.percentile");
    if b.rarityPercentile.Some? {
      TextOfRow(Fixed("badge.percentile"), "Only " + IntToString(b.rarityPercentile.value) + "% of users have this");
    }
  }

  /** The reward pill is there exactly for a non-zero reward (a negative one included). */
  lemma BadgeXpRow(b: Body)
    ensures TextAt(BadgeRows(b), "badge.xp") ==
      if IntTruthy(b.xpReward) then Some("+" + IntToString(b.xpReward.value) + " AURA") else None
  {
    BadgeRow(b, "badge.xp");
    if IntTruthy(b.xpReward) {
      TextOfRow(Fixed("badge.xp"), "+" + IntToString(b.xpReward.value) + " AURA");
    }
  }

  // ---------------------------------------------------------------------
  // Milestone card
  // ---------------------------------------------------------------------

  /** The rows the builder collects for the main column (the column itself, by MilestoneRegions). */
  function MilestoneRows(b: Body): seq<Node> {
    MilestoneMain(b)
  }

  lemma MilestoneRegions(b: Body)
    ensures IsCard(MilestoneCard(b))
    ensures TopLabel(MilestoneCard(b)) == TopLabelRow(Fixed("top-label"), "MILESTONE REACHED")
    ensures BottomStrip(MilestoneCard(b)) == Footer("bottom", b.username)
  {
  }

  /** The main column holds exactly these rows. */
  lemma MilestoneColumn(b: Body)
    ensures IsCard(MilestoneCard(b))
    ensures Kids(MainColumn(MilestoneCard(b))) == MilestoneRows(b)
  {
  }

  /** Which row of the milestone main column a role picks out. */
  lemma MilestoneRow(b: Body, role: string)
    ensures Find(MilestoneRows(b), role) ==
      if role == "milestone.number" then Some(MilestoneHead(b)[0])
      else if role == "milestone.label" then Some(MilestoneHead(b)[1])
      else if role == "milestone.title" then Some(MilestoneHead(b)[2])
      else if role == "milestone.stats" then Pushed(MilestoneStatsRow(b))
      else if role == "milestone.percentile" then Pushed(MilestonePercentile(b))
      else None
  {
    Find3(MilestoneHead(b), MilestoneStatsRow(b), MilestonePercentile(b), role);
    var h := MilestoneHead(b);
    FindTriple(h[0], h[1], h[2], role);
    FindPushed(MilestoneStatsRow(b), role, "milestone.stats");
    FindPushed(MilestonePercentile(b), role, "milestone.percentile");
  }

  /**
   * The big number is the milestone, the title is the tier the milestone
   * reached, and a larger milestone never reaches a lower tier.
   */
  lemma MilestoneNumberAndTitle(b: Body)
    ensures TextAt(MilestoneRows(b), "milestone.number") == Some(ShowInt(b.milestone))
    ensures TextAt(MilestoneRows(b), "milestone.title") == Some(MilestoneTitle(b.milestone))
    ensures b.milestone.Some? ==>
      MilestoneTitle(b.milestone) == MILESTONE_TITLES[Reached(MILESTONE_THRESHOLDS, b.milestone.value)]
  {
    MilestoneRow(b, "milestone.number");
    MilestoneRow(b, "milestone.title");
    TextOfRow(Fixed("milestone.number"), ShowInt(b.milestone));
    TextOfRow(Fixed("milestone.title"), MilestoneTitle(b.milestone));
    if b.milestone.Some? {
      MilestoneTitleTiers(b.milestone.value, b.milestone.value);
    }
  }

  /** The chips of a stats row, each read as its value and its caption. */
  function StatLines(stats: seq<Stat>): seq<seq<string>> {
    seq(|stats|, i requires 0 <= i < |stats| => [IntToString(stats[i].value), stats[i].caption])
  }

  /**
   * The stats row is there exactly when one of cuisines tried, longest
   * streak and unique places is given (0 included), and shows a chip for
   * each given one in that order.
   */
  lemma MilestoneStatChips(b: Body)
    ensures ChipsAt(MilestoneRows(b), "milestone.stats") ==
      var stats := StatLines(
        (if b.cuisinesTried.Some? then [Stat(b.cuisinesTried.value, "CUISINES")] else []) +
        (if b.longestStreak.Some? then [Stat(b.longestStreak.value, "DAY STREAK")] else []) +
        (if b.uniquePlaces.Some? then [Stat(b.uniquePlaces.value, "PLACES")] else []));
      if stats == [] then None else Some(stats)
  {
    MilestoneRow(b, "milestone.stats");
    MilestoneStatsDefined(b.cuisinesTried, b.longestStreak, b.uniquePlaces);
    var stats := MilestoneStats(b.cuisinesTried, b.longestStreak, b.uniquePlaces);
    assert |StatLines(stats)| == |stats|;
    if |stats| > 0 {
      StatChipsLines(stats);
    }
  }

  /** A row of stat chips reads as each statistic's value and caption. */
  lemma StatChipsLines(stats: seq<Stat>)
    ensures LinesOfEach(Shown(Kids(Div(Fixed("milestone.stats"), StatChips(stats))))) == StatLines(stats)
  {
    var chips := StatChips(stats);
    assert Kids(Div(Fixed("milestone.stats"), chips)) == chips;
    ShownOfVisible(chips);
    forall i | 0 <= i < |chips|
      ensures Lines(chips[i]) == StatLines(stats)[i]
    {
      ChipLines(Fixed("milestone.stat"), Fixed("milestone.stat-value"), IntToString(stats[i].value),
        Fixed("milestone.stat-caption"), stats[i].caption);
    }
  }

  /** The explorer line is there exactly when the percentile is given, 0 included. */
  lemma MilestonePercentileRow(b: Body)
    ensures TextAt(MilestoneRows(b), "milestone.percentile") ==
      if b.explorerPercentile.Some? then Some("Top " + IntToString(b.explorerPercentile.value) + "% of explorers")
      else None
  {
    MilestoneRow(b, "milestone.percentile");
    if b.explorerPercentile.Some? {
      TextOfRow(Fixed("milestone.percentile"), "Top " + IntToString(b.explorerPercentile.value) + "% of explorers");
    }
  }

  // ---------------------------------------------------------------------
  // Place card
  // ---------------------------------------------------------------------

  /** The rows of the place card's main column; none when the builder throws. */
  function PlaceRows(b: Body): seq<Node> {
    match PriceString(b.priceLevel)
    case Ok(priceString) => PlaceMain(b, priceString)
    case Thrown(_) => []
  }

  /**
   * The place card fails, with a RangeError, exactly for a price level
   * `repeat` refuses: a negative one or one past the longest string.
   */
  lemma PlaceThrows(b: Body)
    ensures PlaceCard(b).Thrown? <==> !PriceLevelPrints(b.priceLevel)
    ensures PlaceCard(b).Thrown? ==> PlaceCard(b).error == RangeError
  {
  }

  lemma PlaceRegions(b: Body)
    requires PriceLevelPrints(b.priceLevel)
    ensures PlaceCard(b).Ok? && IsCard(PlaceCard(b).value)
    ensures TopLabel(PlaceCard(b).value) == TopLabelRow(Fixed("top-label"), "PLACE")
    ensures BottomStrip(PlaceCard(b).value) == Footer("bottom", b.username)
  {
  }

  /** The main column holds exactly these rows. */
  lemma PlaceColumn(b: Body)
    requires PriceLevelPrints(b.priceLevel)
    ensures PlaceCard(b).Ok? && IsCard(PlaceCard(b).value)
    ensures Kids(MainColumn(PlaceCard(b).value)) == PlaceRows(b)
  {
  }

  /** Which row of the place main column a role picks out. */
  lemma PlaceRow(b: Body, role: string)
    requires PriceLevelPrints(b.priceLevel)
    ensures Find(PlaceRows(b), role) ==
      if role == "place.rating" then Pushed(PlaceRating(b))
      else if role == "place.name" then Some(PlaceName(b)[0])
      else if role == "place.location" then Pushed(PlaceLocation(b, PriceString(b.priceLevel).value))
      else if role == "place.stats" then Pushed(PlaceStats(b))
      else None
  {
    var price := PriceString(b.priceLevel).value;
    Find4(PlaceRating(b), PlaceName(b), PlaceLocation(b, price), PlaceStats(b), role);
    FindPushed(PlaceRating(b), role, "place.rating");
    FindPushed(PlaceName(b), role, "place.name");
    FindPushed(PlaceLocation(b, price), role, "place.location");
    FindPushed(PlaceStats(b), role, "place.stats");
  }

  /**
   * The rating pill is there exactly for one of the three known ratings
   * (there is no default), reads that rating in capitals and takes its colours.
   */
  lemma PlaceRatingPill(b: Body)
    requires PriceLevelPrints(b.priceLevel)
    ensures TextAt(PlaceRows(b), "place.rating") ==
      if b.rating.Some? && b.rating.value in {"hit", "mid", "miss"} then Some(ToUpper(b.rating.value)) else None
    ensures StyleAt(PlaceRows(b), "place.rating") ==
      if b.rating.Some? && b.rating.value in {"hit", "mid", "miss"} then
        Some([RATING_STYLES[b.rating.value].bg, RATING_STYLES[b.rating.value].color])
      else None
  {
    PlaceRow(b, "place.rating");
    PlaceRatingHasNoDefault(b.rating);
    RatingLabelIsKeyInCapitals(b.rating);
    var rs := KnownRatingStyle(b.rating);
    if rs.Some? {
      TextOfRow(Style("place.rating", [rs.value.bg, rs.value.color]), rs.value.text);
    }
  }

  /**
   * The location row is there exactly when the cuisine or the neighbourhood
   * is a non-empty string or the price level is positive; it reads the
   * check-in location line followed by one '$' per price level.
   */
  lemma PlaceLocationRow(b: Body)
    requires PriceLevelPrints(b.priceLevel)
    ensures TextAt(PlaceRows(b), "place.location").Some? <==>
      StrTruthy(b.cuisine) || StrTruthy(b.neighborhood) || Positive(b.priceLevel)
    ensures TextAt(PlaceRows(b), "place.location").Some? ==>
      var dollars := if Positive(b.priceLevel) then Repeat('$', b.priceLevel.value) else "";
      var line := LocationLine([b.cuisine, b.neighborhood]);
      TextAt(PlaceRows(b), "place.location").value ==
        if dollars == "" then line else if line == "" then dollars else line + " / " + dollars
  {
    PlaceRow(b, "place.location");
    var price := PriceString(b.priceLevel).value;
    var parts := PlaceLocationParts(b, price);
    PriceStringDollars(b.priceLevel);
    assert price == if Positive(b.priceLevel) then Repeat('$', b.priceLevel.value) else "";
    LocationLineWithPrice(b.cuisine, b.neighborhood, price);
    LocationLineEmpty([b.cuisine, b.neighborhood, Some(price)]);
    FilterTruthyEmpty([b.cuisine, b.neighborhood, Some(price)]);
    var three := [b.cuisine, b.neighborhood, Some(price)];
    assert three[0] == b.cuisine && three[1] == b.neighborhood && three[2] == Some(price);
    if |parts| > 0 {
      TextOfRow(Fixed("place.location"), Join(parts, " / "));
    }
  }

  /**
   * The stats row is there exactly when one chip is: HIT RATE when the hit
   * rate is given, CHECK-INS when the count is given (0 included), FRIENDS
   * only for a positive friend count, in that order.
   */
  lemma PlaceStatChipsShown(b: Body)
    requires PriceLevelPrints(b.priceLevel)
    ensures ChipsAt(PlaceRows(b), "place.stats") ==
      var chips :=
        (if b.hitRate.Some? then [[IntToString(b.hitRate.value) + "%", "HIT RATE"]] else []) +
        (if b.checkInCount.Some? then [[IntToString(b.checkInCount.value), "CHECK-INS"]] else []) +
        (if Positive(b.friendCount) then [[IntToString(b.friendCount.value), "FRIENDS"]] else []);
      if chips == [] then None else Some(chips)
  {
    PlaceRow(b, "place.stats");
    PlaceStatChipsLines(b);
  }

  /** The stat chips of a place read as their values and captions, one chip per pushed statistic. */
  lemma PlaceStatChipsLines(b: Body)
    ensures |PlaceStatChips(b)| > 0 ==>
      LinesOfEach(Shown(Kids(Div(Fixed("place.stats"), PlaceStatChips(b))))) ==
        (if b.hitRate.Some? then [[IntToString(b.hitRate.value) + "%", "HIT RATE"]] else []) +
        (if b.checkInCount.Some? then [[IntToString(b.checkInCount.value), "CHECK-INS"]] else []) +
        (if Positive(b.friendCount) then [[IntToString(b.friendCount.value), "FRIENDS"]] else [])
    ensures |PlaceStatChips(b)| == 0 <==> !b.hitRate.Some? && !b.checkInCount.Some? && !Positive(b.friendCount)
  {
    var chips := PlaceStatChips(b);
    LinesOfEachOpts(b.hitRate.Some?, PlaceChip("#00FF87", ShowInt(b.hitRate) + "%", "HIT RATE"),
      b.checkInCount.Some?, PlaceChip("white", ShowInt(b.checkInCount), "CHECK-INS"),
      Positive(b.friendCount), PlaceChip("#3B82F6", ShowInt(b.friendCount), "FRIENDS"));
    if |chips| > 0 {
      assert Kids(Div(Fixed("place.stats"), chips)) == chips;
      ShownOfVisible(chips);
      ChipLines(Fixed("place.stat"), Style("place.stat-value", ["#00FF87"]), ShowInt(b.hitRate) + "%",
        Fixed("place.stat-caption"), "HIT RATE");
      ChipLines(Fixed("place.stat"), Style("place.stat-value", ["white"]), ShowInt(b.checkInCount),
        Fixed("place.stat-caption"), "CHECK-INS");
      ChipLines(Fixed("place.stat"), Style("place.stat-value", ["#3B82F6"]), ShowInt(b.friendCount),
        Fixed("place.stat-caption"), "FRIENDS");
    }
  }

  // ---------------------------------------------------------------------
  // List card
  // ---------------------------------------------------------------------

  /** The rows the builder collects for the main column (the column itself, by ListRegions). */
  function ListRows(b: Body): seq<Node> {
    ListMain(b)
  }

  lemma ListRegions(b: Body)
    ensures IsCard(ListCard(b))
    ensures TopLabel(ListCard(b)) == ListLabel(b.isTrending)
    ensures BottomStrip(ListCard(b)) == Div(Fixed("list.bottom"), Brand())
  {
  }

  /** The main column holds exactly these rows. */
  lemma ListColumn(b: Body)
    ensures IsCard(ListCard(b))
    ensures Kids(MainColumn(ListCard(b))) == ListRows(b)
  {
  }

  /** Which row of the list main column a role picks out. */
  lemma ListRow(b: Body, role: string)
    ensures Find(ListRows(b), role) ==
      if role == "list.name" then Some(ListName(b)[0])
      else if role == "list.creator" then Pushed(ListCreator(b))
      else if role == "list.stats" then Pushed(ListStats(b))
      else if role == "list.top-places" then Pushed(ListTopPlaces(b))
      else None
  {
    Find4(ListName(b), ListCreator(b), ListStats(b), ListTopPlaces(b), role);
    FindPushed(ListName(b), role, "list.name");
    FindPushed(ListCreator(b), role, "list.creator");
    FindPushed(ListStats(b), role, "list.stats");
    FindPushed(ListTopPlaces(b), role, "list.top-places");
  }

  /** The list name is always shown in quotes (an absent one as "undefined"), and the creator line only for a non-empty username. */
  lemma ListNameAndCreator(b: Body)
    ensures TextAt(ListRows(b), "list.name") ==
      Some("\"" + (if b.listName.Some? then b.listName.value else "undefined") + "\"")
    ensures TextAt(ListRows(b), "list.creator") ==
      if StrTruthy(b.username) then Some("by @" + b.username.value) else None
  {
    ListRow(b, "list.name");
    ListRow(b, "list.creator");
    TextOfRow(Fixed("list.name"), "\"" + ShowStr(b.listName) + "\"");
    if StrTruthy(b.username) {
      TextOfRow(Fixed("list.creator"), "by @" + b.username.value);
    }
  }

  /** PLACES when the item count is given (0 included), SAVES only for a positive count, in that order. */
  lemma ListStatChipsShown(b: Body)
    ensures ChipsAt(ListRows(b), "list.stats") ==
      var chips :=
        (if b.itemCount.Some? then [[IntToString(b.itemCount.value), "PLACES"]] else []) +
        (if Positive(b.saveCount) then [[IntToString(b.saveCount.value), "SAVES"]] else []);
      if chips == [] then None else Some(chips)
  {
    ListRow(b, "list.stats");
    var chips := ListStatChips(b);
    LinesOfEachOptPair(b.itemCount.Some?, ListChip(ShowInt(b.itemCount), "PLACES"),
      Positive(b.saveCount), ListChip(ShowInt(b.saveCount), "SAVES"));
    if |chips| > 0 {
      assert Kids(ListStats(b)[0]) == chips;
      ShownOfVisible(chips);
      ChipLines(Fixed("list.stat"), Fixed("list.stat-value"), ShowInt(b.itemCount), Fixed("list.stat-caption"), "PLACES");
      ChipLines(Fixed("list.stat"), Fixed("list.stat-value"), ShowInt(b.saveCount), Fixed("list.stat-caption"), "SAVES");
    }
  }

  /** The top-places block is there exactly when there are places, and ranks the first three, in order, from 1. */
  lemma ListTopPlacesRows(b: Body)
    ensures ChipsAt(ListRows(b), "list.top-places") ==
      if |b.topPlaces| > 0 then
        Some(seq(Min(3, |b.topPlaces|), i requires 0 <= i < Min(3, |b.topPlaces|) =>
          [IntToString(i + 1) + ".", b.topPlaces[i]]))
      else None
  {
    ListRow(b, "list.top-places");
    if |b.topPlaces| > 0 {
      TopPlaceRowsLines(b.topPlaces);
    }
  }

  /** The rows of the top places read as the first three places, ranked from 1. */
  lemma TopPlaceRowsLines(places: seq<string>)
    ensures LinesOfEach(Shown(Kids(Div(Fixed("list.top-places"), TopPlaceRows(places))))) ==
      seq(Min(3, |places|), i requires 0 <= i < Min(3, |places|) => [IntToString(i + 1) + ".", places[i]])
  {
    var rows := TopPlaceRows(places);
    assert Kids(Div(Fixed("list.top-places"), rows)) == rows;
    ShownOfVisible(rows);
    forall i | 0 <= i < |rows|
      ensures Lines(rows[i]) == [IntToString(i + 1) + ".", places[i]]
    {
      ChipLines(Fixed("list.row"), Fixed("list.rank"), IntToString(i + 1) + ".", Fixed("list.place"), places[i]);
    }
  }

  /** The top label reads TRENDING LIST for a trending list and LIST otherwise. */
  lemma ListTopLabel(b: Body)
    ensures IsCard(ListCard(b))
    ensures Lines(TopLabel(ListCard(b))) == [if b.isTrending then "TRENDING LIST" else "LIST"]
  {
    ListRegions(b);
    var caption := if b.isTrending then "TRENDING LIST" else "LIST";
    LinesOfTexts(Fixed("top"),
      [Div(Style("list.top-label", [if b.isTrending then "#FFD93D" else "rgba(255,255,255,0.9)"]), [Text(caption)])],
      [caption]);
  }

  // ---------------------------------------------------------------------
  // The frame: bottom strip, top label and the handler
  // ---------------------------------------------------------------------

  lemma TopLabelRowLines(style: Style, caption: string)
    ensures Lines(TopLabelRow(style, caption)) == [caption]
  {
    LinesOfTexts(Fixed("top"), [Div(style, [Text(caption)])], [caption]);
  }

  /** The shared bottom strip shows @username only for a non-empty username, then the brand block. */
  lemma FooterShows(role: string, username: Option<string>)
    ensures TextAt(Kids(Footer(role, username)), "username") ==
      if StrTruthy(username) then Some("@" + username.value) else None
    ensures LinesAt(Kids(Footer(role, username)), "brand") == Some(["DOWN TO EAT", "downtoeat.app"])
  {
    var user := Div(Fixed("username"), [Text("@" + ShowStr(username))]);
    var brand := Div(Fixed("brand"), Brand());
    var kids := Opt(StrTruthy(username), user) + [brand];
    assert Kids(Footer(role, username)) == kids;
    FindConcat(Opt(StrTruthy(username), user), [brand], "username");
    FindConcat(Opt(StrTruthy(username), user), [brand], "brand");
    FindPushed(Opt(StrTruthy(username), user), "username", "username");
    FindPushed(Opt(StrTruthy(username), user), "brand", "username");
    FindPushed([brand], "username", "brand");
    FindPushed([brand], "brand", "brand");
    TextOfRow(Fixed("username"), "@" + ShowStr(username));
    LinesOfTexts(Fixed("brand"), Brand(), ["DOWN TO EAT", "downtoeat.app"]);
  }

  /** The list card's bottom strip is the brand block alone: it never shows the username. */
  lemma ListBottomStrip(b: Body)
    ensures IsCard(ListCard(b))
    ensures Lines(BottomStrip(ListCard(b))) == ["DOWN TO EAT", "downtoeat.app"]
    ensures Find(Kids(BottomStrip(ListCard(b))), "username") == None
  {
    ListRegions(b);
    LinesOfTexts(Fixed("list.bottom"), Brand(), ["DOWN TO EAT", "downtoeat.app"]);
    var brand := Brand();
    FindPair(brand[0], brand[1], "username");
  }

  /** The captions a layout's top label can start with. */
  function Captions(l: Layout): set<string> {
    match l
    case CheckIn => {"FIRST VISIT", "CHECK-IN"}
    case Challenge => {"CHALLENGE COMPLETE", "CHALLENGE"}
    case Badge => {"BADGE UNLOCKED"}
    case Milestone => {"MILESTONE REACHED"}
    case Place => {"PLACE"}
    case List => {"TRENDING LIST", "LIST"}
  }

  /** The handler fails exactly when it selects the place card and `repeat` refuses the price level. */
  lemma RenderFails(b: Body)
    ensures Render(b).Thrown? <==>
      SelectLayout(b.layout, b.kind) == Place && !PriceLevelPrints(b.priceLevel)
  {
  }

  /**
   * A card's frame: the three regions, a top label starting with one of the
   * layout's captions, and the bottom strip's username line.
   */
  predicate FrameOf(card: Node, l: Layout, username: Option<string>) {
    IsCard(card) && |Lines(TopLabel(card))| >= 1 && Lines(TopLabel(card))[0] in Captions(l)
    && TextAt(Kids(BottomStrip(card)), "username") ==
         if StrTruthy(username) && l != List then Some("@" + username.value) else None
  }

  lemma CheckInFrame(b: Body)
    ensures FrameOf(CheckInCard(b), CheckIn, b.username)
  {
    CheckInTopLabel(b);
    CheckInRegions(b);
    FooterShows("checkin.bottom", b.username);
  }

  lemma ChallengeFrame(b: Body)
    ensures FrameOf(ChallengeCard(b), Challenge, b.username)
  {
    ChallengeTopLabel(b);
    ChallengeRegions(b);
    FooterShows("bottom", b.username);
  }

  lemma BadgeFrame(b: Body)
    ensures FrameOf(BadgeCard(b), Badge, b.username)
  {
    BadgeRegions(b);
    TopLabelRowLines(Fixed("top-label"), "BADGE UNLOCKED");
    FooterShows("bottom", b.username);
  }

  lemma MilestoneFrame(b: Body)
    ensures FrameOf(MilestoneCard(b), Milestone, b.username)
  {
    MilestoneRegions(b);
    TopLabelRowLines(Fixed("top-label"), "MILESTONE REACHED");
    FooterShows("bottom", b.username);
  }

  lemma PlaceFrameShows(b: Body)
    requires PriceLevelPrints(b.priceLevel)
    ensures PlaceCard(b).Ok? && FrameOf(PlaceCard(b).value, Place, b.username)
  {
    PlaceThrows(b);
    PlaceFrameOf(b, PlaceMain(b, PriceString(b.priceLevel).value));
  }

  /** The place frame, whatever its main column holds. */
  lemma PlaceFrameOf(b: Body, main: seq<Node>)
    ensures FrameOf(PlaceFrame(b, main), Place, b.username)
  {
    TopLabelRowLines(Fixed("top-label"), "PLACE");
    FooterShows("bottom", b.username);
  }

  lemma ListFrame(b: Body)
    ensures FrameOf(ListCard(b), List, b.username)
  {
    ListTopLabel(b);
    ListBottomStrip(b);
  }

  /**
   * Every card the handler renders has the three regions; its top label
   * starts with a caption of the selected layout, and its bottom strip shows
   * @username exactly when the username is non-empty and the layout is not
   * the list.
   */
  lemma RenderFrame(b: Body)
    requires Render(b).Ok?
    ensures FrameOf(Render(b).value, SelectLayout(b.layout, b.kind), b.username)
  {
    match SelectLayout(b.layout, b.kind)
    case CheckIn => CheckInFrame(b);
    case Challenge => ChallengeFrame(b);
    case Badge => BadgeFrame(b);
    case Milestone => MilestoneFrame(b);
    case Place => PlaceFrameShows(b);
    case List => ListFrame(b);
  }

  lemma CaptionsDisjoint(l1: Layout, l2: Layout, caption: string)
    requires caption in Captions(l1) && caption in Captions(l2)
    ensures l1 == l2
  {
  }

  /** The first caption of the top label tells which layout the handler selected. */
  lemma TopLabelNamesLayout(b1: Body, b2: Body)
    requires Render(b1).Ok? && Render(b2).Ok?
    ensures FrameOf(Render(b1).value, SelectLayout(b1.layout, b1.kind), b1.username)
    ensures FrameOf(Render(b2).value, SelectLayout(b2.layout, b2.kind), b2.username)
    ensures Lines(TopLabel(Render(b1).value))[0] == Lines(TopLabel(Render(b2).value))[0] ==>
      SelectLayout(b1.layout, b1.kind) == SelectLayout(b2.layout, b2.kind)
  {
    RenderFrame(b1);
    RenderFrame(b2);
    var c1 := Lines(TopLabel(Render(b1).value))[0];
    var c2 := Lines(TopLabel(Render(b2).value))[0];
    if c1 == c2 {
      CaptionsDisjoint(SelectLayout(b1.layout, b1.kind), SelectLayout(b2.layout, b2.kind), c1);
    }
  }
}
