# Share-image cards

The share-image endpoint of the Down To Eat web app turns a JSON request body
into a 1080×1920 story image. There are six kinds of image: a check-in, a
challenge, a badge, a milestone, a place and a list. The repository has two
versions of the endpoint:

- `api/generate-share-image.ts` runs on Node. Each card is built by a
  function that collects its rows in a `mainContent` array and wraps them
  in element objects made with the `el` helper, for the `satori` renderer.
- `api/generate-share-image.tsx` runs on the edge. Each card is a JSX
  component that `ImageResponse` renders.

In both versions the handler picks `layout || type || 'checkin'` and
switches on it. Every unknown value gets the check-in card.

This project models what each card contains: which rows are there, what text
they read, in which order, and which request-dependent style values they take.

- The element tree (`tree.dfy`) has four kinds of value: texts, holes
  (`undefined`, `null`, `false`), arrays used as children, and elements.
  `Tree.El` is the `el` helper.
- The views of a tree are what a renderer draws (`Shown`), the text of a node
  (`TextOf`) and the lines of an element (`Lines`). They let the two
  renderers' trees be compared without interpreting CSS.
- `body.dfy` holds `Request.Body`: the request body, with every field
  optional.
- `js_text.dfy` models the JavaScript built-ins the cards use: `String(n)`,
  `split`, `join`, `filter(Boolean)`, `substring`, `toUpperCase` and `repeat`.
- `rules.dfy` holds the style tables, the dispatch, the milestone tiers, the
  progress clamp, the initials, the price string, the location line and the
  stats filter.
- `satori_cards.dfy` holds the Node builders. Each one is a specification
  function plus an imperative method that pushes rows and is proved equal to
  that function. `satori_facts.dfy` proves what each row says.
- `edge_cards.dfy` holds the JSX components as functions. The four
  `{n && … && <x/>}` slots on a number take a `Guard`: the cards the handler
  renders are built `AsWritten`, where a 0 stays in the slot, and the
  `Intended` columns are the corrected variant of the findings below.
  `edge_facts.dfy` proves what the cards say and how each one differs from
  its Node counterpart.

The initials are the first letters of the first two words: "Dim Sum House
Special" gives "DS" (`Rules.InitialsOfFirstTwoWords`).

## Model

| member | source | states |
|---|---|---|
| Tree.El | api/generate-share-image.ts:26-32 | No children leaves `children` undefined, exactly one is stored unwrapped, and two or more are stored as the array, in argument order. |
| JsText.NatToString | api/generate-share-image.ts:351 | `String(n)` of a natural number is at least one digit, with no leading zero. |
| JsText.ParseIntToString | api/generate-share-image.ts:382 | Printing an integer loses nothing: reading the printed digits back gives the integer. |
| JsText.FilterTruthy | api/generate-share-image.ts:40 | `filter(Boolean)` keeps no empty string and never grows the list. |
| JsText.FilterTruthyConcat | api/generate-share-image.ts:438 | Filtering a concatenation filters each part. |
| JsText.JoinAppend | api/generate-share-image.ts:40 | Joining one more part adds the separator and the part, unless it is the only part. |
| JsText.Split | api/generate-share-image.ts:244 | `split` always yields at least one part. |
| JsText.JoinSplit | api/generate-share-image.ts:244 | Joining the parts of `split(c)` with `c` gives back the original string. |
| JsText.SplitPartsOmitSeparator | api/generate-share-image.ts:244 | No part of `split(c)` contains `c`. |
| JsText.FirstCharsOfSplit | api/generate-share-image.ts:244 | `split(' ').map(w => w[0]).join('')` is exactly the word starts of the name: each non-space character at the start or right after a space. Empty words add nothing. |
| JsText.WordStartsEmpty | api/generate-share-image.ts:244 | A name has a word start exactly when it has a character other than a space. |
| JsText.WordStartsAppend | api/generate-share-image.ts:244 | The word starts of a concatenation are those of each part, with the word boundary carried over the seam. |
| JsText.WordStartsOfWord | api/generate-share-image.ts:244 | A single word contributes its first letter when a boundary precedes it. |
| JsText.WordStartsNoSpace | api/generate-share-image.ts:244 | No word start is a space. |
| JsText.ToUpper | api/generate-share-image.ts:244 | `toUpperCase` keeps the length and maps each character. |
| JsText.Prefix | api/generate-share-image.ts:244 | `substring(0, n)` is a prefix of at most `n` characters. |
| JsText.Repeat | api/generate-share-image.ts:437 | `'$'.repeat(n)` is `n` dollar signs. |
| Rules.RatingLabelIsKeyInCapitals | api/generate-share-image.ts:39 | A known rating shows its key in capitals. Any other rating, absent included, gets the HIT style. |
| Rules.PlaceRatingHasNoDefault | api/generate-share-image.ts:439 | The place card's rating lookup succeeds exactly for hit, mid and miss, and then agrees with the check-in lookup. There is no default. |
| Rules.RarityLabelAndStyle | api/generate-share-image.ts:243-277 | The rarity pill is never empty. It reads COMMON for an absent or empty rarity and the rarity in capitals otherwise. A rarity outside the table takes the common colours. |
| Rules.DispatchByKey | api/generate-share-image.ts:674-695 | Each of the six case labels selects its own card. Any other value, the empty string included, selects the check-in card. |
| Rules.DispatchOrder | api/generate-share-image.ts:664-665 | A non-empty `layout` decides. Otherwise a present `type` decides, and an absent `type` means check-in. |
| Rules.Reached | api/generate-share-image.ts:335-343 | The number of tier thresholds a milestone reaches is at most the number of thresholds. |
| Rules.ReachedMonotone | api/generate-share-image.ts:335-343 | A larger milestone reaches at least as many thresholds. |
| Rules.ReachedMilestones | api/generate-share-image.ts:335-343 | The number of thresholds a milestone reaches is how many of 10, 25, 50, 100, 500 and 1000 it is at least. |
| Rules.MilestoneTitleTiers | api/generate-share-image.ts:335-343 | The title is the tier of the highest threshold reached, checked highest first, and it is monotone in the milestone. |
| Rules.ProgressClamp | api/generate-share-image.ts:137-146 | The shown progress is the progress capped at 100, with no lower bound. It reads 100 exactly when the challenge is complete. |
| Rules.InitialsOfWords | api/generate-share-image.ts:244 | The initials are one or two characters. They are BD when the name is absent or all spaces. Otherwise they are the first two word starts in capitals. |
| Rules.InitialsNoSpace | api/generate-share-image.ts:244 | No initial is a space or a lower-case letter. |
| Rules.InitialsOfLeadingWord | api/generate-share-image.ts:244 | For a name that does not start with a space, the initials are the first two word starts in capitals. |
| Rules.InitialsOfFirstTwoWords | api/generate-share-image.ts:244 | The initials of "first second rest" are the capitals of the two first letters, whatever follows. |
| Rules.PriceStringDollars | api/generate-share-image.ts:437 | The price string throws a RangeError exactly for a negative level or one past the longest string (2^29 - 24 code units). Otherwise it is that many dollars for a positive level, and empty for 0 or an absent level. |
| Rules.JoinEmpty | api/generate-share-image.ts:40 | A join of non-empty parts is empty exactly when there are no parts. |
| Rules.FilterTruthyEmpty | api/generate-share-image.ts:40 | Filtering leaves nothing exactly when no part is a non-empty string. |
| Rules.LocationLineEmpty | api/generate-share-image.ts:59 | The location line is empty exactly when no part is a non-empty string. |
| Rules.LocationLineOfTwo | api/generate-share-image.ts:40 | The check-in location line is cuisine " / " neighbourhood, or the one of the two that is a non-empty string. |
| Rules.LocationLineWithPrice | api/generate-share-image.ts:438 | The place location line is the check-in line followed by the dollars, joined by " / ". |
| Rules.MilestoneStatsDefined | api/generate-share-image.ts:369-373 | A stat is kept exactly when its field is defined, 0 included, in the order CUISINES, DAY STREAK, PLACES. |
| SatoriCards.BuildCheckInCard | api/generate-share-image.ts:37-130 | Pushing the rows one by one builds exactly the check-in card. |
| SatoriCards.CollectChallengeRewards | api/generate-share-image.ts:166-180 | The `rewards` array holds the aura pill for a non-zero reward, then the badge pill for a badge reward. |
| SatoriCards.BuildChallengeCard | api/generate-share-image.ts:135-236 | Pushing the rows one by one builds exactly the challenge card. |
| SatoriCards.BuildBadgeCard | api/generate-share-image.ts:241-327 | Pushing the rows one by one builds exactly the badge card. |
| SatoriCards.BuildMilestoneCard | api/generate-share-image.ts:332-430 | Pushing the rows one by one builds exactly the milestone card. |
| SatoriCards.CollectPlaceStats | api/generate-share-image.ts:469-499 | The `stats` array holds the HIT RATE, CHECK-INS and FRIENDS chips whose guards hold, in that order. |
| SatoriCards.BuildPlaceCard | api/generate-share-image.ts:435-531 | The builder returns exactly the place card, or the RangeError of a price level `repeat` refuses. |
| SatoriCards.BuildListCard | api/generate-share-image.ts:536-627 | Pushing the rows one by one builds exactly the list card. |
| SatoriCards.Handle | api/generate-share-image.ts:664-695 | The handler's switch returns the card of the selected layout, or the error its builder throws. |
| SatoriFacts.CheckInRegions | api/generate-share-image.ts:98-129 | The check-in card is the top label, the main column and the bottom strip. |
| SatoriFacts.CheckInColumn | api/generate-share-image.ts:115-118 | The main column holds exactly the pushed rows. |
| SatoriFacts.CheckInRow | api/generate-share-image.ts:42-96 | Names the pushed row, if any, that each role picks out. |
| SatoriFacts.CheckInTopLabel | api/generate-share-image.ts:104-114 | The top label reads FIRST VISIT or CHECK-IN, followed by VERIFIED exactly for a verified visit. |
| SatoriFacts.CheckInRatingBadge | api/generate-share-image.ts:39-49 | The badge reads HIT, MID or MISS for a known rating and HIT otherwise. The background takes that rating's colour. |
| SatoriFacts.CheckInLocationRow | api/generate-share-image.ts:58-65 | The location row is there exactly when cuisine or neighbourhood is a non-empty string, and it reads their " / " join. |
| SatoriFacts.CheckInNoteRow | api/generate-share-image.ts:67-74 | The note row is there exactly for a non-empty note, shown in quotes. |
| SatoriFacts.CheckInDishesRow | api/generate-share-image.ts:76-87 | The dishes row is there exactly when there are dishes, and shows the first min(4, n) dishes in order. |
| SatoriFacts.CheckInAuraRow | api/generate-share-image.ts:89-96 | The aura pill is there exactly for a positive aura, and reads `+N AURA`. |
| SatoriFacts.ChallengeRegions | api/generate-share-image.ts:205-235 | The challenge card is a decoration, the top label, the main column and the bottom strip. |
| SatoriFacts.ChallengeColumn | api/generate-share-image.ts:221-224 | The main column holds exactly the pushed rows. |
| SatoriFacts.ChallengeRow | api/generate-share-image.ts:140-203 | Names the pushed row, if any, that each role picks out. |
| SatoriFacts.ChallengeProgressRow | api/generate-share-image.ts:137-163 | The number reads `min(100, progress)%` (NaN% with no progress), and reads 100% exactly when the challenge is complete. The bar is filled to the same width, and both are green exactly when complete. |
| SatoriFacts.ChallengeTopLabel | api/generate-share-image.ts:213-220 | The top label reads CHALLENGE COMPLETE exactly when progress reached 100, and CHALLENGE otherwise. |
| SatoriFacts.ChallengeRewardsRow | api/generate-share-image.ts:165-185 | The rewards row is there exactly for a non-zero aura reward or a badge reward. It shows the aura pill before the badge pill. |
| SatoriFacts.ChallengeParticipantsRow | api/generate-share-image.ts:187-194 | The participants line is there exactly for a positive count. |
| SatoriFacts.ChallengeDaysRow | api/generate-share-image.ts:196-203 | The days-left line is there exactly when days remain and the challenge is not complete. |
| SatoriFacts.BadgeRegions | api/generate-share-image.ts:298-326 | The badge card is the BADGE UNLOCKED label, the main column and the bottom strip. |
| SatoriFacts.BadgeColumn | api/generate-share-image.ts:312-315 | The main column holds exactly the pushed rows. |
| SatoriFacts.BadgeRow | api/generate-share-image.ts:246-296 | Names the pushed row, if any, that each role picks out. |
| SatoriFacts.BadgeIconRow | api/generate-share-image.ts:244-255 | The icon shows one or two initials: BD for an absent or all-space name, otherwise the first letters of the first two words in capitals. |
| SatoriFacts.BadgeDescriptionRow | api/generate-share-image.ts:264-271 | The description line is there exactly for a non-empty description. |
| SatoriFacts.BadgeRarityPill | api/generate-share-image.ts:273-278 | The pill is always there and reads the rarity in capitals, or COMMON. It takes the colour of the rarity, or the common colour. |
| SatoriFacts.BadgePercentileRow | api/generate-share-image.ts:280-287 | The percentile line is there exactly when the percentile is given, 0 included. |
| SatoriFacts.BadgeXpRow | api/generate-share-image.ts:289-296 | The reward pill is there exactly for a non-zero reward. |
| SatoriFacts.MilestoneRegions | api/generate-share-image.ts:399-429 | The milestone card is a decoration, the MILESTONE REACHED label, the main column and the bottom strip. |
| SatoriFacts.MilestoneColumn | api/generate-share-image.ts:415-418 | The main column holds exactly the pushed rows. |
| SatoriFacts.MilestoneRow | api/generate-share-image.ts:345-397 | Names the pushed row, if any, that each role picks out. |
| SatoriFacts.MilestoneNumberAndTitle | api/generate-share-image.ts:347-366 | The big number prints the milestone. The title is the tier it reached, the entry of the title table at the count of thresholds reached (that a larger milestone never reaches a lower tier is `Rules.MilestoneTitleTiers`). |
| SatoriFacts.MilestoneStatChips | api/generate-share-image.ts:368-388 | The stats row is there exactly when a statistic is given. It has one chip per given statistic, 0 included, in order. |
| SatoriFacts.StatChipsLines | api/generate-share-image.ts:378-385 | Each stat chip reads as its value and its label. |
| SatoriFacts.MilestonePercentileRow | api/generate-share-image.ts:390-397 | The explorer line is there exactly when the percentile is given, 0 included. |
| SatoriFacts.PlaceThrows | api/generate-share-image.ts:437 | The place card fails, with a RangeError, exactly for a negative price level or one past the longest string. |
| SatoriFacts.PlaceRegions | api/generate-share-image.ts:504-530 | The place card is the PLACE label, the main column and the bottom strip. |
| SatoriFacts.PlaceColumn | api/generate-share-image.ts:516-519 | The main column holds exactly the pushed rows. |
| SatoriFacts.PlaceRow | api/generate-share-image.ts:441-502 | Names the pushed row, if any, that each role picks out. |
| SatoriFacts.PlaceRatingPill | api/generate-share-image.ts:439-450 | The rating pill is there exactly for a known rating, with no default. It reads that rating in capitals and takes its colours. |
| SatoriFacts.PlaceLocationRow | api/generate-share-image.ts:437-466 | The location row is there exactly when cuisine or neighbourhood is non-empty or the price level is positive. It reads the location line followed by the dollars. |
| SatoriFacts.PlaceStatChipsShown | api/generate-share-image.ts:468-502 | The stats row is there exactly when one chip is. The chips are HIT RATE if given, CHECK-INS if given (0 included), then FRIENDS only for a positive count. |
| SatoriFacts.PlaceStatChipsLines | api/generate-share-image.ts:469-499 | The pushed chips read as their values and captions, one per statistic whose guard holds. |
| SatoriFacts.ListRegions | api/generate-share-image.ts:599-626 | The list card is a decoration, the top label, the main column and a brand-only bottom strip. |
| SatoriFacts.ListColumn | api/generate-share-image.ts:615-618 | The main column holds exactly the pushed rows. |
| SatoriFacts.ListRow | api/generate-share-image.ts:539-597 | Names the pushed row, if any, that each role picks out. |
| SatoriFacts.ListNameAndCreator | api/generate-share-image.ts:541-555 | The name is always shown in quotes, an absent one as "undefined". The creator line is there only for a non-empty username. |
| SatoriFacts.ListStatChipsShown | api/generate-share-image.ts:557-581 | The chips are PLACES when the count is given (0 included), then SAVES only for a positive count. The row is there only with a chip. |
| SatoriFacts.ListTopPlacesRows | api/generate-share-image.ts:583-597 | The block is there exactly when there are places, and ranks the first min(3, n) places from `1.`, in order. |
| SatoriFacts.TopPlaceRowsLines | api/generate-share-image.ts:587-594 | Each top-place row reads as its rank and the place. |
| SatoriFacts.ListTopLabel | api/generate-share-image.ts:607-614 | The top label reads TRENDING LIST for a trending list and LIST otherwise. |
| SatoriFacts.FooterShows | api/generate-share-image.ts:119-128 | The bottom strip shows `@username` only for a non-empty username, then DOWN TO EAT and downtoeat.app. |
| SatoriFacts.ListBottomStrip | api/generate-share-image.ts:619-625 | The list card's bottom strip is the brand block alone and never shows the username. |
| SatoriFacts.RenderFails | api/generate-share-image.ts:687-689 | The Node handler fails exactly when it selects the place card and the price level is negative or past the longest string. |
| SatoriFacts.CheckInFrame | api/generate-share-image.ts:98-129 | The check-in card has the frame of its layout. |
| SatoriFacts.ChallengeFrame | api/generate-share-image.ts:205-235 | The challenge card has the frame of its layout. |
| SatoriFacts.BadgeFrame | api/generate-share-image.ts:298-326 | The badge card has the frame of its layout. |
| SatoriFacts.MilestoneFrame | api/generate-share-image.ts:399-429 | The milestone card has the frame of its layout. |
| SatoriFacts.PlaceFrameShows | api/generate-share-image.ts:504-530 | The place card, when there is one, has the frame of its layout. |
| SatoriFacts.ListFrame | api/generate-share-image.ts:599-626 | The list card has the frame of its layout. |
| SatoriFacts.RenderFrame | api/generate-share-image.ts:673-695 | Every card the handler renders has three regions. Its top label starts with a caption of the selected layout. Its bottom strip shows `@username` exactly for a non-empty username outside the list card. |
| SatoriFacts.CaptionsDisjoint | api/generate-share-image.ts:674-695 | No top-label caption belongs to two layouts. |
| SatoriFacts.TopLabelNamesLayout | api/generate-share-image.ts:674-695 | Two rendered cards whose top labels start alike were rendered for the same layout. |
| EdgeCards.NumberAnd | api/generate-share-image.tsx:86 | The intended `{n && cond && <x/>}` slot draws nothing unless `n` is non-zero and the condition holds, and then draws the element. |
| EdgeFacts.ZeroGuardAsWritten | api/generate-share-image.tsx:86 | As written, the slot differs from the intended one only for 0, where it draws the text "0". |
| EdgeFacts.CheckInRegions | api/generate-share-image.tsx:35-103 | The edge check-in card is the top label, the main column and the bottom strip. |
| EdgeFacts.CheckInColumn | api/generate-share-image.tsx:49-91 | The main column holds exactly the component's slots. |
| EdgeFacts.CheckInRow | api/generate-share-image.tsx:50-90 | Names the slot, if any, that each role picks out. |
| EdgeFacts.CheckInRatingBadge | api/generate-share-image.tsx:31-53 | The badge reads the known rating in capitals and HIT otherwise. The card's background takes that rating's colour. |
| EdgeFacts.CheckInLocationRow | api/generate-share-image.tsx:60-65 | The location row is there exactly when cuisine or neighbourhood is a non-empty string. |
| EdgeFacts.CheckInNoteRow | api/generate-share-image.tsx:67-72 | The note row is there exactly for a non-empty note, in quotes. |
| EdgeFacts.CheckInDishesRow | api/generate-share-image.tsx:74-83 | The dishes row is there exactly when there are dishes, and shows the first four in order. |
| EdgeFacts.CheckInAuraRow | api/generate-share-image.tsx:85-90 | The aura pill is there exactly for a positive aura, and reads `+N AURA`. |
| EdgeFacts.CheckInAgrees | api/generate-share-image.tsx:49-91 | Every element of the edge main column reads as the Node card's element of the same role and is there exactly when that one is. The dishes are the same. |
| EdgeFacts.CheckInDishesText | api/generate-share-image.tsx:74-83 | The dishes row reads as the Node card's. |
| EdgeFacts.CheckInTopLabel | api/generate-share-image.tsx:36-46 | The top label reads FIRST VISIT or CHECK-IN, then VERIFIED for a verified visit. |
| EdgeFacts.CheckInTopLines | api/generate-share-image.tsx:37-46 | The same, for the top label on its own. |
| EdgeFacts.CheckInStrayZero | api/generate-share-image.tsx:86 | As written, a zero aura leaves a stray "0" drawn in the check-in column. For any other aura the column is the intended one. |
| EdgeFacts.CheckInDrawsOnlyRows | api/generate-share-image.tsx:86 | With the intended guard, the check-in column draws only its rows, never a stray text. |
| EdgeFacts.ChallengeRegions | api/generate-share-image.tsx:115-182 | The top label is the Node card's: CHALLENGE COMPLETE or CHALLENGE, in the same colour. |
| EdgeFacts.ChallengeColumn | api/generate-share-image.tsx:127-170 | The main column holds exactly the component's slots. |
| EdgeFacts.ChallengeRow | api/generate-share-image.tsx:128-169 | Names the slot, if any, that each role picks out. |
| EdgeFacts.ChallengeProgressRow | api/generate-share-image.tsx:111-141 | The number reads `min(100, progress)%`, green exactly when the challenge is complete. The title and the bar, fill width included, are the Node card's. |
| EdgeFacts.ChallengeRewardsRow | api/generate-share-image.tsx:143-155 | The rewards row is always there. A zero reward puts a stray "0" ahead of the pills. The pills are the Node card's, and the Node card leaves the row out when there are none. |
| EdgeFacts.ChallengeRewardsLines | api/generate-share-image.tsx:143-155 | The rewards row draws, as written, a "0" for a zero reward, then the aura pill for a non-zero reward, then the badge pill. The intended row has no "0". |
| EdgeFacts.ChallengeParticipantsRow | api/generate-share-image.tsx:157-162 | The participants line is there exactly for a positive count. |
| EdgeFacts.ChallengeStrayZero | api/generate-share-image.tsx:158 | As written, a zero participant count leaves a stray "0" drawn in the challenge column. With neither number 0 the column is the intended one. |
| EdgeFacts.ChallengeDaysRow | api/generate-share-image.tsx:164-169 | The days-left line is there exactly when days remain and the challenge is not complete. |
| EdgeFacts.ChallengeAgrees | api/generate-share-image.tsx:127-170 | Every element but the rewards row reads as the Node card's element of the same role. |
| EdgeFacts.ChallengeDrawsOnlyRows | api/generate-share-image.tsx:158 | With the intended guard, the challenge column draws only its rows. |
| EdgeFacts.ChallengeRewardsDrawsOnlyPills | api/generate-share-image.tsx:145 | With the intended guard, the rewards row draws only its pills. |
| EdgeFacts.BadgeThrows | api/generate-share-image.tsx:191 | `name.split` throws a TypeError exactly when the body has no name. |
| EdgeFacts.BadgeRegions | api/generate-share-image.tsx:194-249 | For a named badge, the top label is the Node card's. |
| EdgeFacts.BadgeColumn | api/generate-share-image.tsx:203-237 | The main column holds exactly the component's slots. |
| EdgeFacts.BadgeRow | api/generate-share-image.tsx:204-236 | Names the slot, if any, that each role picks out. |
| EdgeFacts.WordInitialsEmpty | api/generate-share-image.tsx:191 | Without the BD fallback, the initials are empty exactly for an all-space name. |
| EdgeFacts.BadgeIconRow | api/generate-share-image.tsx:191-207 | The icon shows the word initials with no fallback. It agrees with the Node card except for an all-space name, where that one shows BD. |
| EdgeFacts.BadgeDescriptionRow | api/generate-share-image.tsx:214-217 | The description line is always there, empty for an absent description. The Node card leaves it out for an empty one. |
| EdgeFacts.BadgeRarityPill | api/generate-share-image.tsx:219-222 | The pill reads the rarity in capitals, and is empty for no rarity where the Node card reads COMMON. Both take the same colours. |
| EdgeFacts.BadgePercentileRow | api/generate-share-image.tsx:224-229 | The percentile line is there exactly when the percentile is given, 0 included. |
| EdgeFacts.BadgeXpRow | api/generate-share-image.tsx:231-236 | The reward pill is there exactly for a non-zero reward. |
| EdgeFacts.BadgeAgrees | api/generate-share-image.tsx:209-236 | The name, the percentile line and the reward pill read as the Node card's. |
| EdgeFacts.BadgeStrayZero | api/generate-share-image.tsx:232 | As written, a zero reward leaves a stray "0" drawn in the badge column. For any other reward the column is the intended one. |
| EdgeFacts.BadgeDrawsOnlyRows | api/generate-share-image.tsx:232 | With the intended guard, the badge column draws only its rows. |
| EdgeFacts.MilestoneRegions | api/generate-share-image.tsx:274-332 | The top label is the Node card's MILESTONE REACHED. |
| EdgeFacts.MilestoneColumn | api/generate-share-image.tsx:285-320 | The main column holds exactly the component's slots. |
| EdgeFacts.MilestoneRow | api/generate-share-image.tsx:287-319 | Names the slot, if any, that each role picks out. |
| EdgeFacts.MilestoneNumberRow | api/generate-share-image.tsx:257-300 | The number prints the milestone, or nothing where the Node card prints "undefined". The title is the Node card's. |
| EdgeFacts.MilestoneStatsChips | api/generate-share-image.tsx:267-312 | The stats chips are the Node card's: one per given statistic, and no row without one. |
| EdgeFacts.MilestonePercentileRow | api/generate-share-image.tsx:314-319 | The explorer line is the Node card's. |
| EdgeFacts.PlaceThrows | api/generate-share-image.tsx:340 | `'$'.repeat` throws the Node card's RangeError, for the same bodies. |
| EdgeFacts.PlaceRegions | api/generate-share-image.tsx:345-406 | The top label is the Node card's PLACE. |
| EdgeFacts.PlaceColumn | api/generate-share-image.tsx:351-393 | The main column holds exactly the component's slots. |
| EdgeFacts.PlaceRow | api/generate-share-image.tsx:353-392 | Names the slot, if any, that each role picks out. |
| EdgeFacts.PlaceSameRows | api/generate-share-image.tsx:341-370 | The rating pill, the name and the location line are the Node card's own elements. |
| EdgeFacts.PlaceChipLines | api/generate-share-image.tsx:375-378 | A stat chip reads as its value and its caption. |
| EdgeFacts.PlaceStatsChips | api/generate-share-image.tsx:372-392 | The stats row is always there, even with no chip, where the Node card leaves it out. The chips are the Node card's. |
| EdgeFacts.PlaceStatsLines | api/generate-share-image.tsx:373-392 | The row draws HIT RATE if given, CHECK-INS if given, then FRIENDS for a positive count. |
| EdgeFacts.ListRegions | api/generate-share-image.tsx:414-473 | The top label and the brand-only bottom strip are the Node card's. |
| EdgeFacts.ListColumn | api/generate-share-image.tsx:425-466 | The main column holds exactly the component's slots. |
| EdgeFacts.ListRow | api/generate-share-image.tsx:427-465 | Names the slot, if any, that each role picks out. |
| EdgeFacts.ListNameAndCreator | api/generate-share-image.tsx:427-437 | With no name, the quotes are empty where the Node card quotes "undefined". The creator line is the Node card's. |
| EdgeFacts.ListStatsChips | api/generate-share-image.tsx:439-453 | The stats row is always there, even with no chip. The chips are PLACES when given, then SAVES for a positive count. |
| EdgeFacts.TopPlaceRowLines | api/generate-share-image.tsx:459-462 | A top-place row reads as its rank, from `1.` onwards, and the place. |
| EdgeFacts.ListTopPlacesRows | api/generate-share-image.tsx:455-465 | The top places are the Node card's: the first three, ranked from 1. |
| EdgeFacts.TopPlacesLines | api/generate-share-image.tsx:458 | The rows read as the first min(3, n) places, ranked from 1. |
| EdgeFacts.FooterShows | api/generate-share-image.tsx:93-102 | The bottom strip shows `@username` only for a non-empty username, then the brand block. |
| EdgeFacts.CheckInFrame | api/generate-share-image.tsx:35-103 | The edge check-in card has the frame of its layout. |
| EdgeFacts.ChallengeFrame | api/generate-share-image.tsx:115-182 | The edge challenge card has the frame of its layout. |
| EdgeFacts.BadgeFrame | api/generate-share-image.tsx:194-249 | The edge badge card, for a named badge, has the frame of its layout. |
| EdgeFacts.MilestoneFrame | api/generate-share-image.tsx:274-332 | The edge milestone card has the frame of its layout. |
| EdgeFacts.PlaceFrame | api/generate-share-image.tsx:345-406 | The edge place card, when there is one, has the frame of its layout. |
| EdgeFacts.ListFrame | api/generate-share-image.tsx:414-473 | The edge list card has the frame of its layout. |
| EdgeFacts.RenderFails | api/generate-share-image.tsx:493-519 | The edge handler fails exactly for a badge with no name (a TypeError) and for a place whose price level is negative or past the longest string (a RangeError). |
| EdgeFacts.RenderFrame | api/generate-share-image.tsx:493-519 | Every edge card has three regions. A top label names the layout that `layout \|\| type \|\| 'checkin'` selects. The `@username` line shows as in the Node cards. |
| EdgeFacts.NodeRendersToo | api/generate-share-image.tsx:493-519 | Whenever the edge handler renders a card, the Node handler renders one too. |
| EdgeFacts.CheckInSameTop | api/generate-share-image.tsx:36-46 | The two check-in top labels read the same. |
| EdgeFacts.BadgeSameTop | api/generate-share-image.tsx:195-200 | The two badge cards share their top label. |
| EdgeFacts.PlaceSameTop | api/generate-share-image.tsx:346-349 | The edge place card renders only when the Node one does, and the two share their top label. |

## Left out

- HTTP handling is not modelled: method checks, CORS headers, status codes, reading the body, sending the response and logging are input and output.
- Font loading and its module-level cache are not modelled: they are network fetches.
- The `satori`, `Resvg` and `ImageResponse` calls are not modelled: they are foreign libraries. What a renderer draws is approximated by `Tree.Shown`. It drops `undefined`, `null`, `false` and the empty string, splices arrays in, and draws a number as its text.
- CSS is opaque. A style is the role of its literal plus the request-dependent values spliced into it: colours and the bar width.
- Numbers are integers. A fractional or non-finite progress, percentage or count, and its printed form, are not modelled.
- JsText.NatToString: prints every natural number in plain digits. JavaScript numbers are exact only below 2^53 in magnitude, and `String(n)` switches to exponent form from 1e21. The model's integers are unbounded, so its contracts describe the source for integers below 2^53 in magnitude.
- JsText.IntToString: the same bound as `NatToString`.
- JsText.Repeat: repeats any count. The RangeError of `'$'.repeat` past the longest string is modelled in `Rules.PriceString`, with V8's limit of 2^29 - 24 code units on 64-bit platforms.
- Strings longer than the longest string are not modelled elsewhere: a join or a template that would push a near-maximal price string past the limit returns a string in the model.
- Fields are optional typed values. A JSON `null`, a field of the wrong type and a `rating` or `rarity` that is an `Object.prototype` key are not modelled.
- Flags (`isVerified`, `isFirstVisit`, `badgeReward`, `isTrending`) are modelled by their truthiness.
- JsText.ToUpper: capitalises ASCII letters only, not the full Unicode case mapping of `toUpperCase`.
- EdgeFacts.RenderFails: the edge handler builds the card's element in the switch at api/generate-share-image.tsx:498-519, and `ImageResponse` calls the component later, while it renders (line 521). So the `name.split` TypeError of the badge card and the `'$'.repeat` RangeError of the place card surface during rendering. The model reports each as the handler's result. Whether the client then gets the handler's 500 reply or a failed stream is not modelled.
- EdgeFacts.PlaceThrows: the same applies to the place card's RangeError.
- EdgeFacts.BadgeThrows: the same applies to the badge card's TypeError.
- The `checkInNumber` prop of the edge check-in card is unused by the component and left out.
- SatoriCards.Handle: the switch on the effective-layout string is modelled through `Rules.LayoutOf`, which maps each case label to its card and every other string to the check-in card.
- JsText.FirstChars: a character is a Unicode code point. JavaScript's `w[0]` takes a UTF-16 code unit, so a word starting with a character outside the Basic Multilingual Plane differs. In the source, "😀 Bob" gives the lone surrogate "\uD83D" followed by "B"; the model gives "😀B".
- JsText.Prefix: `substring(0, 2)` counts UTF-16 code units; the model counts code points.
- Rules.WordInitials: built from `FirstChars`, so it inherits the same difference.

## Findings

| source | as written | input that shows it | evidently intended | confidence | as-written member | corrected member |
|---|---|---|---|---|---|---|
| api/generate-share-image.tsx:86 | `{auraEarned && auraEarned > 0 && …}` leaves the number 0 in the column | `auraEarned: 0` draws a stray "0" in the check-in column | no aura pill and nothing drawn, as in api/generate-share-image.ts:90 | high; not executed | EdgeFacts.CheckInStrayZero | EdgeFacts.CheckInDrawsOnlyRows |
| api/generate-share-image.tsx:145 | `{auraReward && …}` leaves the number 0 in the rewards row | `auraReward: 0` draws a stray "0" in the rewards row | no aura pill, as in api/generate-share-image.ts:167 | high; not executed | EdgeFacts.ChallengeRewardsRow | EdgeFacts.ChallengeRewardsDrawsOnlyPills |
| api/generate-share-image.tsx:158 | `{participantCount && participantCount > 0 && …}` leaves 0 in the column | `participantCount: 0` draws a stray "0" in the challenge column | no participants line, as in api/generate-share-image.ts:188 | high; not executed | EdgeFacts.ChallengeStrayZero | EdgeFacts.ChallengeDrawsOnlyRows |
| api/generate-share-image.tsx:232 | `{xpReward && …}` leaves the number 0 in the column | `xpReward: 0` draws a stray "0" in the badge column | no reward pill, as in api/generate-share-image.ts:290 | high; not executed | EdgeFacts.BadgeStrayZero | EdgeFacts.BadgeDrawsOnlyRows |
