/**
 * What the edge-runtime cards of api/generate-share-image.tsx show, and how
 * that compares row by row with the Node-runtime cards of
 * api/generate-share-image.ts: which rows read the same, which rows the edge
 * cards always draw where the Node cards leave them out, which texts differ,
 * and that the handler picks the same card for the same body.
 */
module EdgeFacts {
  import opened Wrappers
  import opened JsText
  import opened Tree
  import opened Rules
  import opened Request
  import E = EdgeCards
  import S = SatoriCards
  import SF = SatoriFacts

  // ---------------------------------------------------------------------
  // Child slots
  // ---------------------------------------------------------------------

  function ElementOf(x: Node): Option<Node> {
    if x.Element? then Some(x) else None
  }

  /** A `{cond && <x/>}` slot: the element of its role, or a value that is no element. */
  predicate Slot(x: Node, own: string) {
    HasRole(x, own) || !x.Element?
  }

  lemma FindSlot(x: Node, own: string, role: string)
    requires Slot(x, own)
    ensures Find([x], role) == if role == own then ElementOf(x) else None
  {
    assert [x][1..] == [];
  }

  /** The first slot of the role, in a column of four slots. */
  lemma FindIn4(a: Node, b: Node, c: Node, d: Node, ra: string, rb: string, rc: string, rd: string, role: string)
    requires Slot(a, ra) && Slot(b, rb) && Slot(c, rc) && Slot(d, rd)
    ensures Find([a, b, c, d], role) ==
      if role == ra && a.Element? then Some(a) else if role == rb && b.Element? then Some(b)
      else if role == rc && c.Element? then Some(c) else if role == rd && d.Element? then Some(d) else None
  {
    SF.FindTriple(b, c, d, role);
    assert [a, b, c, d][1..] == [b, c, d];
  }

  lemma FindIn5(a: Node, b: Node, c: Node, d: Node, e: Node, ra: string, rb: string, rc: string, rd: string,
                re: string, role: string)
    requires Slot(a, ra) && Slot(b, rb) && Slot(c, rc) && Slot(d, rd) && Slot(e, re)
    ensures Find([a, b, c, d, e], role) ==
      if role == ra && a.Element? then Some(a) else if role == rb && b.Element? then Some(b)
      else if role == rc && c.Element? then Some(c) else if role == rd && d.Element? then Some(d)
      else if role == re && e.Element? then Some(e) else None
  {
    assert [a, b, c, d, e][1..] == [b, c, d, e];
    FindIn4(b, c, d, e, rb, rc, rd, re, role);
  }

  lemma FindIn6(a: Node, b: Node, c: Node, d: Node, e: Node, f: Node, ra: string, rb: string, rc: string,
                rd: string, re: string, rf: string, role: string)
    requires Slot(a, ra) && Slot(b, rb) && Slot(c, rc) && Slot(d, rd) && Slot(e, re) && Slot(f, rf)
    ensures Find([a, b, c, d, e, f], role) ==
      if role == ra && a.Element? then Some(a) else if role == rb && b.Element? then Some(b)
      else if role == rc && c.Element? then Some(c) else if role == rd && d.Element? then Some(d)
      else if role == re && e.Element? then Some(e) else if role == rf && f.Element? then Some(f) else None
  {
    assert [a, b, c, d, e, f][1..] == [b, c, d, e, f];
    FindIn5(b, c, d, e, f, rb, rc, rd, re, rf, role);
  }

  /** A child that is an element or draws nothing. */
  predicate Quiet(x: Node) {
    x.Element? || x == Hole || x == Text("")
  }

  /** When every slot is quiet, a renderer draws elements only: no stray text. */
  lemma {:induction false} ShownOfQuiet(kids: seq<Node>)
    requires forall i :: 0 <= i < |kids| ==> Quiet(kids[i])
    ensures forall i :: 0 <= i < |Shown(kids)| ==> Shown(kids)[i].Element?
  {
    if kids != [] {
      ShownOfQuiet(kids[1..]);
      assert Shown(kids) == ShownOne(kids[0]) + Shown(kids[1..]);
    }
  }

  lemma TextOfPair(style: Style, x: Node, y: Node)
    ensures TextOf(Div(style, [x, y])) == TextOf(x) + TextOf(y)
  {
    assert [x, y][1..] == [y];
    assert [y][1..] == [];
    assert TextOfAll([y]) == TextOf(y) + TextOfAll([]);
    assert TextOfAll([x, y]) == TextOf(x) + TextOfAll([y]);
  }

  lemma TextOfTriple(style: Style, x: Node, y: Node, z: Node)
    ensures TextOf(Div(style, [x, y, z])) == TextOf(x) + TextOf(y) + TextOf(z)
  {
    assert [x, y, z][1..] == [y, z];
    assert [y, z][1..] == [z];
    assert [z][1..] == [];
    assert TextOfAll([z]) == TextOf(z) + TextOfAll([]);
    assert TextOfAll([y, z]) == TextOf(y) + TextOfAll([z]);
    assert TextOfAll([x, y, z]) == TextOf(x) + TextOfAll([y, z]);
  }

  /** An array child holding `items` reads and draws as the items themselves. */
  lemma FragmentChild(style: Style, items: seq<Node>)
    ensures TextOf(Div(style, [Fragment(items)])) == TextOfAll(items)
    ensures Shown(Kids(Div(style, [Fragment(items)]))) == Shown(items)
  {
    assert [Fragment(items)][1..] == [];
  }

  /** A chip of two elements reads as their two texts. */
  lemma PairLines(style: Style, x: Node, y: Node)
    requires x.Element? && y.Element?
    ensures Lines(Div(style, [x, y])) == [TextOf(x), TextOf(y)]
  {
    assert Kids(Div(style, [x, y])) == [x, y];
    ShownOfVisible([x, y]);
  }

  /** What a two-slot row draws: what each slot draws, in order. */
  lemma ShownTwo(x: Node, y: Node)
    ensures Shown([x, y]) == ShownOne(x) + ShownOne(y)
  {
    assert [x, y][1..] == [y];
    assert [y][1..] == [];
    assert Shown([y]) == ShownOne(y) + Shown([]);
    assert Shown([x, y]) == ShownOne(x) + Shown([y]);
  }

  /** With quiet slots, each slot that holds an element. */
  lemma ShownPair(x: Node, y: Node)
    requires Quiet(x) && Quiet(y)
    ensures Shown([x, y]) == (if x.Element? then [x] else []) + (if y.Element? then [y] else [])
  {
    ShownTwo(x, y);
  }

  /** A number left in a column is drawn as a text of its own. */
  lemma DrawsStrayZero(pre: seq<Node>, post: seq<Node>)
    ensures "0" in Texts(Shown(pre + [Text("0")] + post))
  {
    ShownConcat(pre + [Text("0")], post);
    ShownConcat(pre, [Text("0")]);
    assert [Text("0")][1..] == [];
    assert Shown([Text("0")]) == ShownOne(Text("0")) + Shown([]);
    var s := Shown(pre + [Text("0")] + post);
    assert s[|Shown(pre)|] == Text("0");
    assert Texts(s)[|Shown(pre)|] == "0";
  }

  lemma ShownTriple(x: Node, y: Node, z: Node)
    requires Quiet(x) && Quiet(y) && Quiet(z)
    ensures Shown([x, y, z]) ==
      (if x.Element? then [x] else []) + (if y.Element? then [y] else []) + (if z.Element? then [z] else [])
  {
    assert [x, y, z][1..] == [y, z];
    ShownPair(y, z);
  }

  // ---------------------------------------------------------------------
  // The `{n && ... && <x/>}` guard on a number
  // ---------------------------------------------------------------------

  /**
   * As written, the guard differs from the intended one only for 0, where
   * the slot keeps the number and the renderer draws a stray "0".
   */
  lemma ZeroGuardAsWritten(n: Option<int>, rest: bool, x: Node)
    ensures n != Some(0) ==> E.NumberAndAsWritten(n, rest, x) == E.NumberAnd(n, rest, x)
    ensures n == Some(0) ==>
      Texts(ShownOne(E.NumberAndAsWritten(n, rest, x))) == ["0"] && !Quiet(E.NumberAndAsWritten(n, rest, x))
      && ShownOne(E.NumberAnd(n, rest, x)) == []
  {
    if n == Some(0) {
      assert IntToString(0) == "0";
    }
  }

  // ---------------------------------------------------------------------
  // Check-in card
  // ---------------------------------------------------------------------

  /** The slots of the main column (the column itself, by CheckInRegions). */
  function CheckInRows(b: Body): seq<Node> {
    E.CheckInMain(b, E.AsWritten)
  }

  lemma CheckInRegions(b: Body)
    ensures IsCard(E.CheckInCard(b))
    ensures TopLabel(E.CheckInCard(b)) == E.CheckInTop(b.isFirstVisit, b.isVerified)
    ensures BottomStrip(E.CheckInCard(b)) == E.Footer("checkin.bottom", b.username)
  {
  }

  /** The main column holds exactly these rows. */
  lemma CheckInColumn(b: Body)
    ensures IsCard(E.CheckInCard(b))
    ensures Kids(MainColumn(E.CheckInCard(b))) == CheckInRows(b)
  {
  }

  /** Which row of the check-in main column a role picks out. */
  lemma CheckInRow(b: Body, role: string)
    ensures Find(CheckInRows(b), role) ==
      if role == "checkin.rating" then Some(E.CheckInRating(b))
      else if role == "checkin.place-name" then Some(E.CheckInPlaceName(b))
      else if role == "checkin.location" then ElementOf(E.CheckInLocation(b))
      else if role == "checkin.note" then ElementOf(E.CheckInNote(b))
      else if role == "checkin.dishes" then ElementOf(E.CheckInDishes(b))
      else if role == "checkin.aura" then ElementOf(E.CheckInAura(b, E.AsWritten))
      else None
  {
    FindIn6(E.CheckInRating(b), E.CheckInPlaceName(b), E.CheckInLocation(b), E.CheckInNote(b), E.CheckInDishes(b),
      E.CheckInAura(b, E.AsWritten), "checkin.rating", "checkin.place-name", "checkin.location", "checkin.note", "checkin.dishes",
      "checkin.aura", role);
  }

  /**
   * The rating badge reads the rating's key in capitals for the three known
   * ratings and HIT for any other value, absent included; the background is
   * that rating's colour.
   */
  lemma CheckInRatingBadge(b: Body)
    ensures TextAt(CheckInRows(b), "checkin.rating") ==
      Some(if b.rating.Some? && b.rating.value in {"hit", "mid", "miss"} then ToUpper(b.rating.value) else "HIT")
    ensures E.CheckInCard(b).style.values == [RatingStyleOrHit(b.rating).bg]
  {
    RatingLabelIsKeyInCapitals(b.rating);
    CheckInRow(b, "checkin.rating");
    var rs := RatingStyleOrHit(b.rating);
    SF.TextOfRow(Style("checkin.rating", [rs.color]), rs.text);
  }

  /** The location row is there exactly when the cuisine or the neighbourhood is a non-empty string. */
  lemma CheckInLocationRow(b: Body)
    ensures TextAt(CheckInRows(b), "checkin.location") ==
      if StrTruthy(b.cuisine) && StrTruthy(b.neighborhood) then Some(b.cuisine.value + " / " + b.neighborhood.value)
      else if StrTruthy(b.cuisine) then Some(b.cuisine.value)
      else if StrTruthy(b.neighborhood) then Some(b.neighborhood.value)
      else None
  {
    LocationLineOfTwo(b.cuisine, b.neighborhood);
    CheckInRow(b, "checkin.location");
    var loc := LocationLine([b.cuisine, b.neighborhood]);
    SF.TextOfRow(Fixed("checkin.location"), loc);
  }

  /** The note row is there exactly for a non-empty note, which it shows in quotes. */
  lemma CheckInNoteRow(b: Body)
    ensures TextAt(CheckInRows(b), "checkin.note") ==
      if StrTruthy(b.note) then Some("\"" + b.note.value + "\"") else None
  {
    CheckInRow(b, "checkin.note");
    if StrTruthy(b.note) {
      TextOfTriple(Fixed("checkin.note"), Text("\""), S.StrChild(b.note), Text("\""));
    }
  }

  /** The dishes row is there exactly when there are dishes, and shows the first four, in order. */
  lemma CheckInDishesRow(b: Body)
    ensures LinesAt(CheckInRows(b), "checkin.dishes") ==
      if |b.dishes| > 0 then Some(b.dishes[..Min(4, |b.dishes|)]) else None
  {
    CheckInRow(b, "checkin.dishes");
    if |b.dishes| > 0 {
      var tags := S.DishTags(b.dishes);
      FragmentChild(Fixed("checkin.dishes"), tags);
      SF.LinesOfTexts(Fixed("checkin.dishes"), tags, b.dishes[..Min(4, |b.dishes|)]);
    }
  }

  /** The aura pill is there exactly for a positive aura, and reads `+N AURA`. */
  lemma CheckInAuraRow(b: Body)
    ensures TextAt(CheckInRows(b), "checkin.aura") ==
      if Positive(b.auraEarned) then Some("+" + IntToString(b.auraEarned.value) + " AURA") else None
  {
    CheckInRow(b, "checkin.aura");
    if Positive(b.auraEarned) {
      TextOfTriple(Fixed("checkin.aura"), Text("+"), E.NumText(b.auraEarned), Text(" AURA"));
    }
  }

  /**
   * Every element of the edge check-in card's main column reads as the Node
   * card's element of the same role, and is there exactly when that one is;
   * the dishes row draws the same dishes.
   */
  lemma CheckInAgrees(b: Body, role: string)
    ensures TextAt(CheckInRows(b), role) == TextAt(SF.CheckInRows(b), role)
    ensures LinesAt(CheckInRows(b), "checkin.dishes") == LinesAt(SF.CheckInRows(b), "checkin.dishes")
  {
    CheckInDishesRow(b);
    SF.CheckInDishesRow(b);
    if role == "checkin.rating" {
      CheckInRatingBadge(b);
      SF.CheckInRatingBadge(b);
    } else if role == "checkin.place-name" {
      CheckInRow(b, role);
      SF.CheckInRow(b, role);
    } else if role == "checkin.location" {
      CheckInLocationRow(b);
      SF.CheckInLocationRow(b);
    } else if role == "checkin.note" {
      CheckInNoteRow(b);
      SF.CheckInNoteRow(b);
    } else if role == "checkin.dishes" {
      CheckInDishesText(b);
    } else if role == "checkin.aura" {
      CheckInAuraRow(b);
      SF.CheckInAuraRow(b);
    } else {
      CheckInRow(b, role);
      SF.CheckInRow(b, role);
    }
  }

  lemma CheckInDishesText(b: Body)
    ensures TextAt(CheckInRows(b), "checkin.dishes") == TextAt(SF.CheckInRows(b), "checkin.dishes")
  {
    CheckInRow(b, "checkin.dishes");
    SF.CheckInRow(b, "checkin.dishes");
    if |b.dishes| > 0 {
      var tags := S.DishTags(b.dishes);
      FragmentChild(Fixed("checkin.dishes"), tags);
      TextOfEl("div", Fixed("checkin.dishes"), tags);
    }
  }

  /** The top label says FIRST VISIT or CHECK-IN, and VERIFIED follows when the visit is verified. */
  lemma CheckInTopLabel(b: Body)
    ensures IsCard(E.CheckInCard(b))
    ensures Lines(TopLabel(E.CheckInCard(b))) ==
      [if b.isFirstVisit then "FIRST VISIT" else "CHECK-IN"] + (if b.isVerified then ["VERIFIED"] else [])
  {
    CheckInRegions(b);
    CheckInTopLines(b.isFirstVisit, b.isVerified);
  }

  lemma CheckInTopLines(isFirstVisit: bool, isVerified: bool)
    ensures Lines(E.CheckInTop(isFirstVisit, isVerified)) ==
      [if isFirstVisit then "FIRST VISIT" else "CHECK-IN"] + (if isVerified then ["VERIFIED"] else [])
  {
    var first := if isFirstVisit then "FIRST VISIT" else "CHECK-IN";
    var caption := Div(Fixed("checkin.top-label"), [Text(first)]);
    var verified := Div(Fixed("checkin.verified"), [Div(Fixed("checkin.verified-text"), [Text("VERIFIED")])]);
    assert TextOf(verified) == "VERIFIED";
    LinesOfHeadAndSlot(Fixed("checkin.top"), caption, E.When(isVerified, verified));
  }

  /** A row of an element followed by one slot reads as the element's text and the slot's, when it holds one. */
  lemma LinesOfHeadAndSlot(style: Style, x: Node, y: Node)
    requires x.Element? && Quiet(y)
    ensures Lines(Div(style, [x, y])) == [TextOf(x)] + (if y.Element? then [TextOf(y)] else [])
  {
    assert Kids(Div(style, [x, y])) == [x, y];
    ShownPair(x, y);
  }

  /** Six quiet slots draw elements only. */
  lemma QuietSix(a: Node, b: Node, c: Node, d: Node, e: Node, f: Node)
    requires Quiet(a) && Quiet(b) && Quiet(c) && Quiet(d) && Quiet(e) && Quiet(f)
    ensures forall i :: 0 <= i < |Shown([a, b, c, d, e, f])| ==> Shown([a, b, c, d, e, f])[i].Element?
  {
    ShownOfQuiet([a, b, c, d, e, f]);
  }

  /**
   * As written, a zero aura leaves the number 0 in the check-in column, which
   * draws it as a stray "0"; for any other aura the column is the intended one.
   */
  lemma CheckInStrayZero(b: Body)
    ensures b.auraEarned == Some(0) ==> "0" in Texts(Shown(CheckInRows(b)))
    ensures b.auraEarned != Some(0) ==> CheckInRows(b) == E.CheckInMain(b, E.Intended)
  {
    var rows := CheckInRows(b);
    if b.auraEarned == Some(0) {
      assert rows == rows[..5] + [Text("0")] + [];
      DrawsStrayZero(rows[..5], []);
    } else {
      ZeroGuardAsWritten(b.auraEarned, Positive(b.auraEarned), E.AuraPill("checkin.aura", b.auraEarned));
    }
  }

  /** With the intended guard the check-in main column draws its rows only, whatever the aura. */
  lemma CheckInDrawsOnlyRows(b: Body)
    ensures forall i :: 0 <= i < |Shown(E.CheckInMain(b, E.Intended))| ==> Shown(E.CheckInMain(b, E.Intended))[i].Element?
  {
    QuietSix(E.CheckInRating(b), E.CheckInPlaceName(b), E.CheckInLocation(b), E.CheckInNote(b), E.CheckInDishes(b),
      E.CheckInAura(b, E.Intended));
  }

  // ---------------------------------------------------------------------
  // Challenge card
  // ---------------------------------------------------------------------

  /** The slots of the main column (the column itself, by ChallengeRegions). */
  function ChallengeRows(b: Body): seq<Node> {
    E.ChallengeMain(b, E.AsWritten)
  }

  /** The top label is the Node card's: CHALLENGE COMPLETE or CHALLENGE, in the same colour. */
  lemma ChallengeRegions(b: Body)
    ensures IsCard(E.ChallengeCard(b)) && IsCard(S.ChallengeCard(b))
    ensures TopLabel(E.ChallengeCard(b)) == TopLabel(S.ChallengeCard(b))
    ensures BottomStrip(E.ChallengeCard(b)) == E.Footer("bottom", b.username)
  {
  }

  /** The main column holds exactly these rows. */
  lemma ChallengeColumn(b: Body)
    ensures IsCard(E.ChallengeCard(b))
    ensures Kids(MainColumn(E.ChallengeCard(b))) == ChallengeRows(b)
  {
  }

  /** Which row of the challenge main column a role picks out. */
  lemma ChallengeRow(b: Body, role: string)
    ensures Find(ChallengeRows(b), role) ==
      if role == "challenge.progress" then Some(E.ChallengeProgress(b))
      else if role == "challenge.title" then Some(E.ChallengeTitle(b))
      else if role == "challenge.bar" then Some(E.ChallengeBar(b))
      else if role == "challenge.rewards" then Some(E.ChallengeRewards(b, E.AsWritten))
      else if role == "challenge.participants" then ElementOf(E.ChallengeParticipants(b, E.AsWritten))
      else if role == "challenge.days" then ElementOf(E.ChallengeDaysLeft(b))
      else None
  {
    FindIn6(E.ChallengeProgress(b), E.ChallengeTitle(b), E.ChallengeBar(b), E.ChallengeRewards(b, E.AsWritten),
      E.ChallengeParticipants(b, E.AsWritten), E.ChallengeDaysLeft(b), "challenge.progress", "challenge.title", "challenge.bar",
      "challenge.rewards", "challenge.participants", "challenge.days", role);
  }

  /**
   * The big number reads the progress capped at 100 followed by %, green
   * exactly when the challenge is complete; the title and the progress bar
   * (its fill width included) are the Node card's.
   */
  lemma ChallengeProgressRow(b: Body)
    ensures TextAt(ChallengeRows(b), "challenge.progress") == Some(S.Percent(b))
    ensures StyleAt(ChallengeRows(b), "challenge.progress") ==
      Some([if b.progress.Some? && b.progress.value >= 100 then "#00FF87" else "#FFFFFF"])
    ensures Find(ChallengeRows(b), "challenge.bar") == Find(SF.ChallengeRows(b), "challenge.bar")
    ensures Find(ChallengeRows(b), "challenge.title") == Find(SF.ChallengeRows(b), "challenge.title")
  {
    ChallengeRow(b, "challenge.progress");
    ChallengeRow(b, "challenge.bar");
    ChallengeRow(b, "challenge.title");
    SF.ChallengeRow(b, "challenge.bar");
    SF.ChallengeRow(b, "challenge.title");
    TextOfPair(Style("challenge.progress", [S.ProgressColor(IsComplete(b.progress))]),
      Text(ClampedPercent(b.progress)), Text("%"));
  }

  /**
   * The rewards row is always there: a zero reward leaves a stray "0" ahead
   * of the pills, and with no pill and no stray it is an empty row, where
   * the Node card leaves the row out; the pills are the Node card's, the
   * aura pill (for a non-zero reward) before the badge pill.
   */
  lemma ChallengeRewardsRow(b: Body)
    ensures LinesAt(ChallengeRows(b), "challenge.rewards") ==
      Some((if b.auraReward == Some(0) then ["0"] else [])
        + (if IntTruthy(b.auraReward) then ["+" + IntToString(b.auraReward.value) + " AURA"] else [])
        + (if b.badgeReward then ["+ BADGE"] else []))
    ensures LinesAt(SF.ChallengeRows(b), "challenge.rewards") ==
      var pills := (if IntTruthy(b.auraReward) then ["+" + IntToString(b.auraReward.value) + " AURA"] else [])
        + (if b.badgeReward then ["+ BADGE"] else []);
      if pills == [] then None else Some(pills)
  {
    ChallengeRow(b, "challenge.rewards");
    SF.ChallengeRewardsRow(b);
    ChallengeRewardsLines(b, E.AsWritten);
  }

  /**
   * What the rewards row draws: as written, the stray "0" of a zero reward;
   * then the aura pill for a non-zero reward, then the badge pill.
   */
  lemma ChallengeRewardsLines(b: Body, g: E.Guard)
    ensures Lines(E.ChallengeRewards(b, g)) ==
      (if g == E.AsWritten && b.auraReward == Some(0) then ["0"] else [])
      + (if IntTruthy(b.auraReward) then ["+" + IntToString(b.auraReward.value) + " AURA"] else [])
      + (if b.badgeReward then ["+ BADGE"] else [])
  {
    var aura := E.NumberSlot(g, b.auraReward, true, E.AuraPill("challenge.aura", b.auraReward));
    var badge := E.When(b.badgeReward, Div(Fixed("challenge.badge"), [Text("+ BADGE")]));
    assert Kids(E.ChallengeRewards(b, g)) == [aura, badge];
    ShownTwo(aura, badge);
    var stray: seq<string> := if g == E.AsWritten && b.auraReward == Some(0) then ["0"] else [];
    var auraText := if IntTruthy(b.auraReward) then ["+" + IntToString(b.auraReward.value) + " AURA"] else [];
    var badgeText := if b.badgeReward then ["+ BADGE"] else [];
    if IntTruthy(b.auraReward) {
      TextOfTriple(Fixed("challenge.aura"), Text("+"), E.NumText(b.auraReward), Text(" AURA"));
    }
    assert Texts(ShownOne(aura)) == stray + auraText;
    assert Texts(ShownOne(badge)) == badgeText;
    TextsConcat(ShownOne(aura), ShownOne(badge));
  }

  /** The participants line is there exactly for a positive count. */
  lemma ChallengeParticipantsRow(b: Body)
    ensures TextAt(ChallengeRows(b), "challenge.participants") ==
      if Positive(b.participantCount) then Some(IntToString(b.participantCount.value) + " people completed this week")
      else None
  {
    ChallengeRow(b, "challenge.participants");
    if Positive(b.participantCount) {
      TextOfPair(Fixed("challenge.participants"), E.NumText(b.participantCount), Text(" people completed this week"));
    }
  }

  /** The days-left line is there exactly when days remain and the challenge is not complete. */
  lemma ChallengeDaysRow(b: Body)
    ensures TextAt(ChallengeRows(b), "challenge.days") ==
      if Positive(b.daysRemaining) && !(b.progress.Some? && b.progress.value >= 100) then
        Some(IntToString(b.daysRemaining.value) + " days left")
      else None
  {
    ChallengeRow(b, "challenge.days");
    if Positive(b.daysRemaining) && !IsComplete(b.progress) {
      TextOfPair(Fixed("challenge.days"), E.NumText(b.daysRemaining), Text(" days left"));
    }
  }

  /** Every element of the main column but the rewards row reads as the Node card's element of the same role. */
  lemma ChallengeAgrees(b: Body, role: string)
    requires role != "challenge.rewards"
    ensures TextAt(ChallengeRows(b), role) == TextAt(SF.ChallengeRows(b), role)
  {
    if role == "challenge.progress" {
      ChallengeProgressRow(b);
      SF.ChallengeProgressRow(b);
    } else if role == "challenge.title" || role == "challenge.bar" {
      ChallengeProgressRow(b);
    } else if role == "challenge.participants" {
      ChallengeParticipantsRow(b);
      SF.ChallengeParticipantsRow(b);
    } else if role == "challenge.days" {
      ChallengeDaysRow(b);
      SF.ChallengeDaysRow(b);
    } else {
      ChallengeRow(b, role);
      SF.ChallengeRow(b, role);
    }
  }

  /**
   * As written, a zero participant count leaves the number 0 in the
   * challenge column, drawn as a stray "0"; with neither number 0 the column
   * is the intended one.
   */
  lemma ChallengeStrayZero(b: Body)
    ensures b.participantCount == Some(0) ==> "0" in Texts(Shown(ChallengeRows(b)))
    ensures b.participantCount != Some(0) && b.auraReward != Some(0) ==>
      ChallengeRows(b) == E.ChallengeMain(b, E.Intended)
  {
    var rows := ChallengeRows(b);
    if b.participantCount == Some(0) {
      assert rows == rows[..4] + [Text("0")] + rows[5..];
      DrawsStrayZero(rows[..4], rows[5..]);
    } else if b.auraReward != Some(0) {
      ZeroGuardAsWritten(b.auraReward, true, E.AuraPill("challenge.aura", b.auraReward));
      ZeroGuardAsWritten(b.participantCount, Positive(b.participantCount),
        Div(Fixed("challenge.participants"), [E.NumText(b.participantCount), Text(" people completed this week")]));
    }
  }

  /** With the intended guard the challenge main column draws its rows only, whatever the count. */
  lemma ChallengeDrawsOnlyRows(b: Body)
    ensures forall i :: 0 <= i < |Shown(E.ChallengeMain(b, E.Intended))| ==> Shown(E.ChallengeMain(b, E.Intended))[i].Element?
  {
    QuietSix(E.ChallengeProgress(b), E.ChallengeTitle(b), E.ChallengeBar(b), E.ChallengeRewards(b, E.Intended),
      E.ChallengeParticipants(b, E.Intended), E.ChallengeDaysLeft(b));
  }

  /** With the intended guard the rewards row draws its pills only, whatever the reward. */
  lemma ChallengeRewardsDrawsOnlyPills(b: Body)
    ensures forall i :: 0 <= i < |Shown(Kids(E.ChallengeRewards(b, E.Intended)))| ==>
      Shown(Kids(E.ChallengeRewards(b, E.Intended)))[i].Element?
  {
    var aura := E.NumberAnd(b.auraReward, true, E.AuraPill("challenge.aura", b.auraReward));
    var badge := E.When(b.badgeReward, Div(Fixed("challenge.badge"), [Text("+ BADGE")]));
    assert Kids(E.ChallengeRewards(b, E.Intended)) == [aura, badge];
    ShownPair(aura, badge);
  }

  // ---------------------------------------------------------------------
  // Badge card
  // ---------------------------------------------------------------------

  /** `name.split` throws a TypeError when the body has no name; the Node card shows BD instead. */
  lemma BadgeThrows(b: Body)
    ensures E.BadgeCard(b).Thrown? <==> b.name.None?
    ensures E.BadgeCard(b).Thrown? ==> E.BadgeCard(b).error == TypeError
  {
  }

  /** The slots of the main column, for a body with a name (the column itself, by BadgeRegions). */
  function BadgeRows(b: Body): seq<Node> {
    if b.name.Some? then E.BadgeMain(b, b.name.value, E.AsWritten) else []
  }

  lemma BadgeRegions(b: Body)
    requires b.name.Some?
    ensures E.BadgeCard(b).Ok? && IsCard(E.BadgeCard(b).value)
    ensures TopLabel(E.BadgeCard(b).value) == TopLabel(S.BadgeCard(b))
    ensures BottomStrip(E.BadgeCard(b).value) == E.Footer("bottom", b.username)
  {
  }

  /** The main column holds exactly these rows. */
  lemma BadgeColumn(b: Body)
    requires b.name.Some?
    ensures E.BadgeCard(b).Ok? && IsCard(E.BadgeCard(b).value)
    ensures Kids(MainColumn(E.BadgeCard(b).value)) == BadgeRows(b)
  {
  }

  /** Which row of the badge main column a role picks out. */
  lemma BadgeRow(b: Body, role: string)
    requires b.name.Some?
    ensures Find(BadgeRows(b), role) ==
      if role == "badge.icon" then Some(E.BadgeIcon(b.name.value))
      else if role == "badge.name" then Some(E.BadgeName(b.name.value))
      else if role == "badge.description" then Some(E.BadgeDescription(b))
      else if role == "badge.rarity" then Some(E.BadgeRarity(b))
      else if role == "badge.percentile" then ElementOf(E.BadgePercentile(b))
      else if role == "badge.xp" then ElementOf(E.BadgeXp(b, E.AsWritten))
      else None
  {
    FindIn6(E.BadgeIcon(b.name.value), E.BadgeName(b.name.value), E.BadgeDescription(b), E.BadgeRarity(b),
      E.BadgePercentile(b), E.BadgeXp(b, E.AsWritten), "badge.icon", "badge.name", "badge.description", "badge.rarity",
      "badge.percentile", "badge.xp", role);
  }

  /** The word initials are empty exactly for a name made of spaces only. */
  lemma WordInitialsEmpty(name: string)
    ensures WordInitials(name) == "" <==> forall i :: 0 <= i < |name| ==> name[i] == ' '
  {
    FirstCharsOfSplit(name);
    WordStartsEmpty(name);
  }

  /**
   * The icon shows the word initials with no fallback: for a name of spaces
   * only it is empty, where the Node card shows BD; otherwise the two agree.
   */
  lemma BadgeIconRow(b: Body)
    requires b.name.Some?
    ensures TextAt(BadgeRows(b), "badge.icon") == Some(WordInitials(b.name.value))
    ensures TextAt(SF.BadgeRows(b), "badge.icon") ==
      Some(if WordInitials(b.name.value) == "" then "BD" else WordInitials(b.name.value))
    ensures WordInitials(b.name.value) == "" <==> forall i :: 0 <= i < |b.name.value| ==> b.name.value[i] == ' '
  {
    BadgeRow(b, "badge.icon");
    SF.BadgeIconRow(b);
    WordInitialsEmpty(b.name.value);
    SF.TextOfRow(Fixed("badge.initials"), WordInitials(b.name.value));
  }

  /**
   * The description line is always there and reads the description, empty
   * when there is none; the Node card leaves it out for an empty one.
   */
  lemma BadgeDescriptionRow(b: Body)
    requires b.name.Some?
    ensures TextAt(BadgeRows(b), "badge.description") ==
      Some(if b.description.Some? then b.description.value else "")
    ensures TextAt(SF.BadgeRows(b), "badge.description") ==
      if TextAt(BadgeRows(b), "badge.description").value == "" then None else TextAt(BadgeRows(b), "badge.description")
  {
    BadgeRow(b, "badge.description");
    SF.BadgeDescriptionRow(b);
  }

  /**
   * The rarity pill reads the rarity in capitals with no default: it is
   * empty for an absent or empty rarity, where the Node card reads COMMON;
   * both take the same colours.
   */
  lemma BadgeRarityPill(b: Body)
    requires b.name.Some?
    ensures TextAt(BadgeRows(b), "badge.rarity") == Some(if b.rarity.Some? then ToUpper(b.rarity.value) else "")
    ensures TextAt(SF.BadgeRows(b), "badge.rarity") ==
      var shown := TextAt(BadgeRows(b), "badge.rarity").value;
      Some(if shown == "" then "COMMON" else shown)
    ensures StyleAt(BadgeRows(b), "badge.rarity") == StyleAt(SF.BadgeRows(b), "badge.rarity")
  {
    BadgeRow(b, "badge.rarity");
    SF.BadgeRarityPill(b);
    var rs := RarityStyleOrCommon(b.rarity);
    assert TextOf(E.BadgeRarity(b)) == TextOf(E.RarityChild(b.rarity));
  }

  /** The percentile line is there exactly when the percentile is given, 0 included. */
  lemma BadgePercentileRow(b: Body)
    requires b.name.Some?
    ensures TextAt(BadgeRows(b), "badge.percentile") ==
      if b.rarityPercentile.Some? then Some("Only " + IntToString(b.rarityPercentile.value) + "% of users have this")
      else None
  {
    BadgeRow(b, "badge.percentile");
    if b.rarityPercentile.Some? {
      TextOfTriple(Fixed("badge.percentile"), Text("Only "), E.NumText(b.rarityPercentile), Text("% of users have this"));
    }
  }

  /** The reward pill is there exactly for a non-zero reward. */
  lemma BadgeXpRow(b: Body)
    requires b.name.Some?
    ensures TextAt(BadgeRows(b), "badge.xp") ==
      if IntTruthy(b.xpReward) then Some("+" + IntToString(b.xpReward.value) + " AURA") else None
  {
    BadgeRow(b, "badge.xp");
    if IntTruthy(b.xpReward) {
      TextOfTriple(Fixed("badge.xp"), Text("+"), E.NumText(b.xpReward), Text(" AURA"));
    }
  }

  /** The name, the percentile line and the reward pill read as the Node card's. */
  lemma BadgeAgrees(b: Body, role: string)
    requires b.name.Some?
    requires role == "badge.name" || role == "badge.percentile" || role == "badge.xp"
    ensures TextAt(BadgeRows(b), role) == TextAt(SF.BadgeRows(b), role)
  {
    if role == "badge.name" {
      BadgeRow(b, role);
      SF.BadgeRow(b, role);
    } else if role == "badge.percentile" {
      BadgePercentileRow(b);
      SF.BadgePercentileRow(b);
    } else {
      BadgeXpRow(b);
      SF.BadgeXpRow(b);
    }
  }

  /**
   * As written, a zero reward leaves the number 0 in the badge column, drawn
   * as a stray "0"; for any other reward the column is the intended one.
   */
  lemma BadgeStrayZero(b: Body)
    requires b.name.Some?
    ensures b.xpReward == Some(0) ==> "0" in Texts(Shown(BadgeRows(b)))
    ensures b.xpReward != Some(0) ==> BadgeRows(b) == E.BadgeMain(b, b.name.value, E.Intended)
  {
    var rows := BadgeRows(b);
    if b.xpReward == Some(0) {
      assert rows == rows[..5] + [Text("0")] + [];
      DrawsStrayZero(rows[..5], []);
    } else {
      ZeroGuardAsWritten(b.xpReward, true, E.AuraPill("badge.xp", b.xpReward));
    }
  }

  /** With the intended guard the badge main column draws its rows only, whatever the reward. */
  lemma BadgeDrawsOnlyRows(b: Body, name: string)
    ensures forall i :: 0 <= i < |Shown(E.BadgeMain(b, name, E.Intended))| ==> Shown(E.BadgeMain(b, name, E.Intended))[i].Element?
  {
    QuietSix(E.BadgeIcon(name), E.BadgeName(name), E.BadgeDescription(b), E.BadgeRarity(b),
      E.BadgePercentile(b), E.BadgeXp(b, E.Intended));
  }

  // ---------------------------------------------------------------------
  // Milestone card
  // ---------------------------------------------------------------------

  /** The slots of the main column (the column itself, by MilestoneRegions). */
  function MilestoneRows(b: Body): seq<Node> {
    E.MilestoneMain(b)
  }

  lemma MilestoneRegions(b: Body)
    ensures IsCard(E.MilestoneCard(b)) && IsCard(S.MilestoneCard(b))
    ensures TopLabel(E.MilestoneCard(b)) == TopLabel(S.MilestoneCard(b))
    ensures BottomStrip(E.MilestoneCard(b)) == E.Footer("bottom", b.username)
  {
  }

  /** The main column holds exactly these rows. */
  lemma MilestoneColumn(b: Body)
    ensures IsCard(E.MilestoneCard(b))
    ensures Kids(MainColumn(E.MilestoneCard(b))) == MilestoneRows(b)
  {
  }

  /** Which row of the milestone main column a role picks out. */
  lemma MilestoneRow(b: Body, role: string)
    ensures Find(MilestoneRows(b), role) ==
      if role == "milestone.number" then Some(E.MilestoneNumber(b))
      else if role == "milestone.label" then Some(E.MilestoneLabel())
      else if role == "milestone.title" then Some(E.MilestoneTitleRow(b))
      else if role == "milestone.stats" then ElementOf(E.MilestoneStatsRow(b))
      else if role == "milestone.percentile" then ElementOf(E.MilestonePercentile(b))
      else None
  {
    FindIn5(E.MilestoneNumber(b), E.MilestoneLabel(), E.MilestoneTitleRow(b), E.MilestoneStatsRow(b),
      E.MilestonePercentile(b), "milestone.number", "milestone.label", "milestone.title", "milestone.stats",
      "milestone.percentile", role);
  }

  /**
   * The big number prints the milestone, and nothing when there is none
   * (the Node card prints `undefined`); the title is the Node card's, the
   * tier of the highest threshold reached.
   */
  lemma MilestoneNumberRow(b: Body)
    ensures TextAt(MilestoneRows(b), "milestone.number") ==
      Some(if b.milestone.Some? then IntToString(b.milestone.value) else "")
    ensures TextAt(SF.MilestoneRows(b), "milestone.number") ==
      Some(if b.milestone.Some? then IntToString(b.milestone.value) else "undefined")
    ensures TextAt(MilestoneRows(b), "milestone.title") == TextAt(SF.MilestoneRows(b), "milestone.title")
  {
    MilestoneRow(b, "milestone.number");
    MilestoneRow(b, "milestone.title");
    SF.MilestoneNumberAndTitle(b);
  }

  /** The stats chips are the Node card's: one per given statistic, 0 included, and no row without one. */
  lemma MilestoneStatsChips(b: Body)
    ensures ChipsAt(MilestoneRows(b), "milestone.stats") == ChipsAt(SF.MilestoneRows(b), "milestone.stats")
  {
    MilestoneRow(b, "milestone.stats");
    SF.MilestoneRow(b, "milestone.stats");
    var stats := MilestoneStats(b.cuisinesTried, b.longestStreak, b.uniquePlaces);
    if |stats| > 0 {
      var chips := S.StatChips(stats);
      FragmentChild(Fixed("milestone.stats"), chips);
      assert Kids(S.MilestoneStatsRow(b)[0]) == chips;
    }
  }

  /** The explorer line is the Node card's: there exactly when the percentile is given, 0 included. */
  lemma MilestonePercentileRow(b: Body)
    ensures TextAt(MilestoneRows(b), "milestone.percentile") == TextAt(SF.MilestoneRows(b), "milestone.percentile")
  {
    MilestoneRow(b, "milestone.percentile");
    SF.MilestonePercentileRow(b);
    if b.explorerPercentile.Some? {
      TextOfTriple(Fixed("milestone.percentile"), Text("Top "), E.NumText(b.explorerPercentile), Text("% of explorers"));
    }
  }

  // ---------------------------------------------------------------------
  // Place card
  // ---------------------------------------------------------------------

  /** `'$'.repeat` throws the same RangeError, for the same bodies, as in the Node card. */
  lemma PlaceThrows(b: Body)
    ensures E.PlaceCard(b).Thrown? <==> !PriceLevelPrints(b.priceLevel)
    ensures E.PlaceCard(b).Thrown? ==> E.PlaceCard(b) == S.PlaceCard(b) && E.PlaceCard(b).error == RangeError
  {
    SF.PlaceThrows(b);
  }

  /** The slots of the main column, when the price level prints (the column itself, by PlaceRegions). */
  function PlaceRows(b: Body): seq<Node> {
    match PriceString(b.priceLevel)
    case Ok(priceString) => E.PlaceMain(b, priceString)
    case Thrown(_) => []
  }

  lemma PlaceRegions(b: Body)
    requires PriceLevelPrints(b.priceLevel)
    ensures E.PlaceCard(b).Ok? && IsCard(E.PlaceCard(b).value)
    ensures S.PlaceCard(b).Ok? && IsCard(S.PlaceCard(b).value)
    ensures TopLabel(E.PlaceCard(b).value) == TopLabel(S.PlaceCard(b).value)
    ensures BottomStrip(E.PlaceCard(b).value) == E.Footer("bottom", b.username)
  {
    SF.PlaceRegions(b);
  }

  /** The main column holds exactly these rows. */
  lemma PlaceColumn(b: Body)
    requires PriceLevelPrints(b.priceLevel)
    ensures E.PlaceCard(b).Ok? && IsCard(E.PlaceCard(b).value)
    ensures Kids(MainColumn(E.PlaceCard(b).value)) == PlaceRows(b)
  {
    SF.PlaceThrows(b);
  }

  /** Which row of the place main column a role picks out. */
  lemma PlaceRow(b: Body, role: string)
    requires PriceLevelPrints(b.priceLevel)
    ensures Find(PlaceRows(b), role) ==
      if role == "place.rating" then ElementOf(E.PlaceRating(b))
      else if role == "place.name" then Some(E.PlaceName(b))
      else if role == "place.location" then ElementOf(E.PlaceLocation(b, PriceString(b.priceLevel).value))
      else if role == "place.stats" then Some(E.PlaceStats(b))
      else None
  {
    var price := PriceString(b.priceLevel).value;
    FindIn4(E.PlaceRating(b), E.PlaceName(b), E.PlaceLocation(b, price), E.PlaceStats(b),
      "place.rating", "place.name", "place.location", "place.stats", role);
  }

  /**
   * The rating pill (only for a known rating, no default), the name and the
   * location line (the parts that are given, then the dollars, joined by
   * " / ") are the Node card's very elements.
   */
  lemma PlaceSameRows(b: Body, role: string)
    requires PriceLevelPrints(b.priceLevel)
    requires role != "place.stats"
    ensures Find(PlaceRows(b), role) == Find(SF.PlaceRows(b), role)
  {
    PlaceRow(b, role);
    SF.PlaceRow(b, role);
  }

  /** A place chip reads as its value and its caption. */
  lemma PlaceChipLines(color: string, value: seq<Node>, caption: string)
    ensures Lines(E.PlaceChip(color, value, caption)) == [TextOfAll(value), caption]
  {
    var v := Div(Style("place.stat-value", [color]), value);
    var c := Div(Fixed("place.stat-caption"), [Text(caption)]);
    PairLines(Fixed("place.stat"), v, c);
    TextOfEl("div", Style("place.stat-value", [color]), value);
  }

  /**
   * The stats row is always there: with no chip it is an empty row, where
   * the Node card leaves the row out; the chips are the Node card's, HIT
   * RATE and CHECK-INS when given (0 included), FRIENDS for a positive count.
   */
  lemma PlaceStatsChips(b: Body)
    requires PriceLevelPrints(b.priceLevel)
    ensures ChipsAt(PlaceRows(b), "place.stats") ==
      Some((if b.hitRate.Some? then [[IntToString(b.hitRate.value) + "%", "HIT RATE"]] else []) +
        (if b.checkInCount.Some? then [[IntToString(b.checkInCount.value), "CHECK-INS"]] else []) +
        (if Positive(b.friendCount) then [[IntToString(b.friendCount.value), "FRIENDS"]] else []))
    ensures ChipsAt(SF.PlaceRows(b), "place.stats") ==
      if ChipsAt(PlaceRows(b), "place.stats").value == [] then None else ChipsAt(PlaceRows(b), "place.stats")
  {
    PlaceRow(b, "place.stats");
    SF.PlaceStatChipsShown(b);
    PlaceStatsLines(b);
  }

  /** The chips the stats row draws, one per chip slot that holds one. */
  lemma PlaceStatsLines(b: Body)
    ensures LinesOfEach(Shown(Kids(E.PlaceStats(b)))) ==
      (if b.hitRate.Some? then [[IntToString(b.hitRate.value) + "%", "HIT RATE"]] else []) +
      (if b.checkInCount.Some? then [[IntToString(b.checkInCount.value), "CHECK-INS"]] else []) +
      (if Positive(b.friendCount) then [[IntToString(b.friendCount.value), "FRIENDS"]] else [])
  {
    var hit := E.PlaceChip("#00FF87", [E.NumText(b.hitRate), Text("%")], "HIT RATE");
    var count := E.PlaceChip("white", [E.NumText(b.checkInCount)], "CHECK-INS");
    var friends := E.PlaceChip("#3B82F6", [E.NumText(b.friendCount)], "FRIENDS");
    assert Kids(E.PlaceStats(b)) ==
      [E.When(b.hitRate.Some?, hit), E.When(b.checkInCount.Some?, count), E.When(Positive(b.friendCount), friends)];
    ChipsOfThreeSlots(b.hitRate.Some?, hit, b.checkInCount.Some?, count, Positive(b.friendCount), friends);
    if b.hitRate.Some? {
      NumChipLines("#00FF87", b.hitRate, [Text("%")], "HIT RATE");
      assert [E.NumText(b.hitRate)] + [Text("%")] == [E.NumText(b.hitRate), Text("%")];
      assert Lines(hit) == [IntToString(b.hitRate.value) + "%", "HIT RATE"];
    }
    if b.checkInCount.Some? {
      NumChipLines("white", b.checkInCount, [], "CHECK-INS");
      assert [E.NumText(b.checkInCount)] + [] == [E.NumText(b.checkInCount)];
      assert IntToString(b.checkInCount.value) + "" == IntToString(b.checkInCount.value);
      assert Lines(count) == [IntToString(b.checkInCount.value), "CHECK-INS"];
    }
    if Positive(b.friendCount) {
      NumChipLines("#3B82F6", b.friendCount, [], "FRIENDS");
      assert [E.NumText(b.friendCount)] + [] == [E.NumText(b.friendCount)];
      assert IntToString(b.friendCount.value) + "" == IntToString(b.friendCount.value);
      assert Lines(friends) == [IntToString(b.friendCount.value), "FRIENDS"];
    }
  }

  /** A row of three `{cond && <chip/>}` slots draws the chips whose condition holds, in order. */
  lemma ChipsOfThreeSlots(c1: bool, x1: Node, c2: bool, x2: Node, c3: bool, x3: Node)
    requires x1.Element? && x2.Element? && x3.Element?
    ensures LinesOfEach(Shown([E.When(c1, x1), E.When(c2, x2), E.When(c3, x3)])) ==
      (if c1 then [Lines(x1)] else []) + (if c2 then [Lines(x2)] else []) + (if c3 then [Lines(x3)] else [])
  {
    ShownTriple(E.When(c1, x1), E.When(c2, x2), E.When(c3, x3));
    assert Shown([E.When(c1, x1), E.When(c2, x2), E.When(c3, x3)]) == S.Opt(c1, x1) + S.Opt(c2, x2) + S.Opt(c3, x3);
    SF.LinesOfEachOpts(c1, x1, c2, x2, c3, x3);
  }

  /** A place chip whose value is a given number followed by fixed texts. */
  lemma NumChipLines(color: string, n: Option<int>, rest: seq<Node>, caption: string)
    requires n.Some? && (rest == [] || rest == [Text("%")])
    ensures Lines(E.PlaceChip(color, [E.NumText(n)] + rest, caption)) ==
      [IntToString(n.value) + (if rest == [] then "" else "%"), caption]
  {
    PlaceChipLines(color, [E.NumText(n)] + rest, caption);
    if rest == [] {
      assert [E.NumText(n)] + rest == [E.NumText(n)];
      assert [E.NumText(n)][1..] == [];
    } else {
      assert [E.NumText(n)] + rest == [E.NumText(n), Text("%")];
      TextOfPair(Fixed("v"), E.NumText(n), Text("%"));
      TextOfEl("div", Fixed("v"), [E.NumText(n), Text("%")]);
    }
  }

  // ---------------------------------------------------------------------
  // List card
  // ---------------------------------------------------------------------

  /** The slots of the main column (the column itself, by ListRegions). */
  function ListRows(b: Body): seq<Node> {
    E.ListMain(b)
  }

  /** The top label (TRENDING LIST or LIST) and the brand-only bottom strip are the Node card's. */
  lemma ListRegions(b: Body)
    ensures IsCard(E.ListCard(b)) && IsCard(S.ListCard(b))
    ensures TopLabel(E.ListCard(b)) == TopLabel(S.ListCard(b))
    ensures BottomStrip(E.ListCard(b)) == BottomStrip(S.ListCard(b))
  {
  }

  /** The main column holds exactly these rows. */
  lemma ListColumn(b: Body)
    ensures IsCard(E.ListCard(b))
    ensures Kids(MainColumn(E.ListCard(b))) == ListRows(b)
  {
  }

  /** Which row of the list main column a role picks out. */
  lemma ListRow(b: Body, role: string)
    ensures Find(ListRows(b), role) ==
      if role == "list.name" then Some(E.ListName(b))
      else if role == "list.creator" then ElementOf(E.ListCreator(b))
      else if role == "list.stats" then Some(E.ListStats(b))
      else if role == "list.top-places" then ElementOf(E.ListTopPlaces(b))
      else None
  {
    FindIn4(E.ListName(b), E.ListCreator(b), E.ListStats(b), E.ListTopPlaces(b),
      "list.name", "list.creator", "list.stats", "list.top-places", role);
  }

  /**
   * The quoted name leaves the quotes empty when there is no name (the Node
   * card quotes `undefined`); the creator line is the Node card's: there
   * exactly for a non-empty username.
   */
  lemma ListNameAndCreator(b: Body)
    ensures TextAt(ListRows(b), "list.name") ==
      Some("\"" + (if b.listName.Some? then b.listName.value else "") + "\"")
    ensures TextAt(SF.ListRows(b), "list.name") ==
      Some("\"" + (if b.listName.Some? then b.listName.value else "undefined") + "\"")
    ensures TextAt(ListRows(b), "list.creator") == TextAt(SF.ListRows(b), "list.creator")
  {
    ListRow(b, "list.name");
    ListRow(b, "list.creator");
    SF.ListNameAndCreator(b);
    TextOfTriple(Fixed("list.name"), Text("\""), S.StrChild(b.listName), Text("\""));
    if StrTruthy(b.username) {
      TextOfPair(Fixed("list.creator"), Text("by @"), S.StrChild(b.username));
    }
  }

  /**
   * The stats row is always there: with no chip it is an empty row, where
   * the Node card leaves it out; the chips are the Node card's, PLACES when
   * the count is given, SAVES for a positive count.
   */
  lemma ListStatsChips(b: Body)
    ensures ChipsAt(ListRows(b), "list.stats") ==
      Some((if b.itemCount.Some? then [[IntToString(b.itemCount.value), "PLACES"]] else []) +
        (if Positive(b.saveCount) then [[IntToString(b.saveCount.value), "SAVES"]] else []))
    ensures ChipsAt(SF.ListRows(b), "list.stats") ==
      if ChipsAt(ListRows(b), "list.stats").value == [] then None else ChipsAt(ListRows(b), "list.stats")
  {
    ListRow(b, "list.stats");
    SF.ListStatChipsShown(b);
    var places := S.ListChip(ShowInt(b.itemCount), "PLACES");
    var saves := S.ListChip(ShowInt(b.saveCount), "SAVES");
    var x := E.When(b.itemCount.Some?, places);
    var y := E.When(Positive(b.saveCount), saves);
    assert Kids(E.ListStats(b)) == [x, y];
    ShownPair(x, y);
    assert Shown([x, y]) == S.Opt(b.itemCount.Some?, places) + S.Opt(Positive(b.saveCount), saves);
    SF.LinesOfEachOptPair(b.itemCount.Some?, places, Positive(b.saveCount), saves);
    SF.ChipLines(Fixed("list.stat"), Fixed("list.stat-value"), ShowInt(b.itemCount), Fixed("list.stat-caption"), "PLACES");
    SF.ChipLines(Fixed("list.stat"), Fixed("list.stat-value"), ShowInt(b.saveCount), Fixed("list.stat-caption"), "SAVES");
  }

  /** A top-place row reads as its rank, `1.` onwards, and the place. */
  lemma TopPlaceRowLines(i: nat, place: string)
    ensures Lines(E.TopPlaceRow(i, place)) == [IntToString(i + 1) + ".", place]
  {
    var rank := Div(Fixed("list.rank"), [Text(IntToString(i + 1)), Text(".")]);
    PairLines(Fixed("list.row"), rank, Div(Fixed("list.place"), [Text(place)]));
    TextOfPair(Fixed("list.rank"), Text(IntToString(i + 1)), Text("."));
  }

  /** The top places are the Node card's: the first three, ranked from 1, and no block without a place. */
  lemma ListTopPlacesRows(b: Body)
    ensures ChipsAt(ListRows(b), "list.top-places") == ChipsAt(SF.ListRows(b), "list.top-places")
  {
    ListRow(b, "list.top-places");
    SF.ListTopPlacesRows(b);
    if |b.topPlaces| > 0 {
      FragmentChild(Fixed("list.top-places"), E.TopPlaceRows(b.topPlaces));
      TopPlacesLines(b.topPlaces);
    }
  }

  /** The rows of the top places read as the first three places, ranked from 1. */
  lemma TopPlacesLines(places: seq<string>)
    ensures LinesOfEach(Shown(E.TopPlaceRows(places))) ==
      seq(Min(3, |places|), i requires 0 <= i < Min(3, |places|) => [IntToString(i + 1) + ".", places[i]])
  {
    var rows := E.TopPlaceRows(places);
    ShownOfVisible(rows);
    forall i | 0 <= i < |rows|
      ensures Lines(rows[i]) == [IntToString(i + 1) + ".", places[i]]
    {
      TopPlaceRowLines(i, places[i]);
    }
  }

  // ---------------------------------------------------------------------
  // The frame and the handler
  // ---------------------------------------------------------------------

  /** The bottom strip shows @username only for a non-empty username, then the brand block, as the Node one does. */
  lemma FooterShows(role: string, username: Option<string>)
    ensures TextAt(Kids(E.Footer(role, username)), "username") ==
      if StrTruthy(username) then Some("@" + username.value) else None
    ensures LinesAt(Kids(E.Footer(role, username)), "brand") == Some(["DOWN TO EAT", "downtoeat.app"])
  {
    var user := Div(Fixed("username"), [Text("@"), S.StrChild(username)]);
    var brand := Div(Fixed("brand"), S.Brand());
    assert Kids(E.Footer(role, username)) == [E.StrAnd(username, user), brand];
    SF.FindPair(E.StrAnd(username, user), brand, "username");
    SF.FindPair(E.StrAnd(username, user), brand, "brand");
    TextOfPair(Fixed("username"), Text("@"), S.StrChild(username));
    SF.LinesOfTexts(Fixed("brand"), S.Brand(), ["DOWN TO EAT", "downtoeat.app"]);
  }

  lemma CheckInFrame(b: Body)
    ensures SF.FrameOf(E.CheckInCard(b), CheckIn, b.username)
  {
    CheckInTopLabel(b);
    CheckInRegions(b);
    FooterShows("checkin.bottom", b.username);
  }

  lemma ChallengeFrame(b: Body)
    ensures SF.FrameOf(E.ChallengeCard(b), Challenge, b.username)
  {
    ChallengeRegions(b);
    SF.ChallengeTopLabel(b);
    FooterShows("bottom", b.username);
  }

  lemma BadgeFrame(b: Body)
    requires b.name.Some?
    ensures E.BadgeCard(b).Ok? && SF.FrameOf(E.BadgeCard(b).value, Badge, b.username)
  {
    BadgeRegions(b);
    SF.BadgeRegions(b);
    SF.TopLabelRowLines(Fixed("top-label"), "BADGE UNLOCKED");
    FooterShows("bottom", b.username);
  }

  lemma MilestoneFrame(b: Body)
    ensures SF.FrameOf(E.MilestoneCard(b), Milestone, b.username)
  {
    MilestoneRegions(b);
    SF.MilestoneRegions(b);
    SF.TopLabelRowLines(Fixed("top-label"), "MILESTONE REACHED");
    FooterShows("bottom", b.username);
  }

  lemma PlaceFrame(b: Body)
    requires PriceLevelPrints(b.priceLevel)
    ensures E.PlaceCard(b).Ok? && SF.FrameOf(E.PlaceCard(b).value, Place, b.username)
  {
    PlaceThrows(b);
    PlaceFrameOf(b, E.PlaceMain(b, PriceString(b.priceLevel).value));
  }

  /** The place frame, whatever its main column holds. */
  lemma PlaceFrameOf(b: Body, main: seq<Node>)
    ensures SF.FrameOf(E.PlaceFrame(b, main), Place, b.username)
  {
    SF.TopLabelRowLines(Fixed("top-label"), "PLACE");
    FooterShows("bottom", b.username);
  }

  lemma ListFrame(b: Body)
    ensures SF.FrameOf(E.ListCard(b), List, b.username)
  {
    ListRegions(b);
    SF.ListTopLabel(b);
    SF.ListBottomStrip(b);
  }

  /**
   * The edge handler fails exactly for the badge card of a body with no name
   * (a TypeError) and the place card of a price level `repeat` refuses (a RangeError).
   */
  lemma RenderFails(b: Body)
    ensures E.Render(b).Thrown? <==>
      (SelectLayout(b.layout, b.kind) == Badge && b.name.None?)
      || (SelectLayout(b.layout, b.kind) == Place && !PriceLevelPrints(b.priceLevel))
    ensures E.Render(b).Thrown? ==>
      E.Render(b).error == if SelectLayout(b.layout, b.kind) == Badge then TypeError else RangeError
  {
    if SelectLayout(b.layout, b.kind) == Place {
      PlaceThrows(b);
    } else if SelectLayout(b.layout, b.kind) == Badge {
      BadgeThrows(b);
    }
  }

  /**
   * Every card the edge handler renders has the three regions; its top label
   * starts with a caption of the selected layout (the same `layout || type ||
   * 'checkin'` choice), and its bottom strip shows @username exactly when the
   * username is non-empty and the layout is not the list.
   */
  lemma RenderFrame(b: Body)
    requires E.Render(b).Ok?
    ensures SF.FrameOf(E.Render(b).value, SelectLayout(b.layout, b.kind), b.username)
  {
    match SelectLayout(b.layout, b.kind)
    case CheckIn => CheckInFrame(b);
    case Challenge => ChallengeFrame(b);
    case Badge => BadgeFrame(b);
    case Milestone => MilestoneFrame(b);
    case Place => PlaceFrame(b);
    case List => ListFrame(b);
  }

  /**
   * Whenever the edge handler renders a card, the Node handler renders one
   * too: it fails only for a price level `repeat` refuses. The top labels of the
   * two then read the same (CheckInSameTop, BadgeSameTop, PlaceSameTop and
   * the regions lemmas of the other cards).
   */
  lemma NodeRendersToo(b: Body)
    requires E.Render(b).Ok?
    ensures S.Render(b).Ok?
  {
    RenderFails(b);
    SF.RenderFails(b);
  }

  /** The check-in top labels read the same caption, then VERIFIED for a verified visit. */
  lemma CheckInSameTop(b: Body)
    ensures IsCard(E.CheckInCard(b)) && IsCard(S.CheckInCard(b))
    ensures Lines(TopLabel(E.CheckInCard(b))) == Lines(TopLabel(S.CheckInCard(b)))
  {
    CheckInTopLabel(b);
    SF.CheckInTopLabel(b);
  }

  /** The two badge cards share their top label, for a body with a name. */
  lemma BadgeSameTop(b: Body)
    requires b.name.Some?
    ensures E.BadgeCard(b).Ok? && IsCard(E.BadgeCard(b).value) && IsCard(S.BadgeCard(b))
    ensures TopLabel(E.BadgeCard(b).value) == TopLabel(S.BadgeCard(b))
  {
    BadgeRegions(b);
    SF.BadgeRegions(b);
  }

  /** The edge place card renders only when the Node one does, and the two share their top label. */
  lemma PlaceSameTop(b: Body)
    requires E.PlaceCard(b).Ok?
    ensures S.PlaceCard(b).Ok? && IsCard(E.PlaceCard(b).value) && IsCard(S.PlaceCard(b).value)
    ensures TopLabel(E.PlaceCard(b).value) == TopLabel(S.PlaceCard(b).value)
  {
    PlaceThrows(b);
    PlaceRegions(b);
  }
}
