/**
 * The JSON body of a share-image request, as the card builders read it.
 * Every field is optional in the request; a number field that is present is
 * an integer, an array field that is absent reads as the empty array (the
 * builders destructure it with a `= []` default), and a flag is its
 * truthiness.  `kind` is the body's `type` field.
 */
module Request {
  import opened Wrappers

  datatype Body = Body(
    // dispatch
    layout: Option<string>,
    kind: Option<string>,
    username: Option<string>,
    // check-in and place
    placeName: Option<string>,
    rating: Option<string>,
    note: Option<string>,
    dishes: seq<string>,
    cuisine: Option<string>,
    neighborhood: Option<string>,
    auraEarned: Option<int>,
    isVerified: bool,
    isFirstVisit: bool,
    // challenge
    title: Option<string>,
    progress: Option<int>,
    auraReward: Option<int>,
    badgeReward: bool,
    participantCount: Option<int>,
    daysRemaining: Option<int>,
    // badge
    name: Option<string>,
    description: Option<string>,
    rarity: Option<string>,
    rarityPercentile: Option<int>,
    xpReward: Option<int>,
    // milestone
    milestone: Option<int>,
    cuisinesTried: Option<int>,
    longestStreak: Option<int>,
    uniquePlaces: Option<int>,
    explorerPercentile: Option<int>,
    // place
    priceLevel: Option<int>,
    hitRate: Option<int>,
    checkInCount: Option<int>,
    friendCount: Option<int>,
    // list
    listName: Option<string>,
    itemCount: Option<int>,
    saveCount: Option<int>,
    topPlaces: seq<string>,
    isTrending: bool
  )
}
