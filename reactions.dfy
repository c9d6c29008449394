/**
 * The pure rules behind the page's reaction handlers: which ids end up in the
 * liked/disliked sets, how the `items.map(...)` callbacks rewrite a card's
 * counters and rating, and what the comment buttons display.
 */
module Reactions {
  import opened Wrappers
  import opened NewsTypes

  function Bit(b: bool): int {
    if b then 1 else 0
  }

  /** The two id sets a toggle produces: the set clicked on and the opposing one. */
  datatype Reaction = Reaction(target: set<int>, opposite: set<int>)

  /**
   * The set rule shared by all four reaction handlers: an id already in the
   * target set is removed from it; otherwise it is added to the target set and
   * removed from the opposing one.
   */
  function Toggle(target: set<int>, opposite: set<int>, id: int): (r: Reaction)
    ensures id in r.target <==> id !in target
    ensures id in target ==> r.opposite == opposite
    ensures id !in target ==> id !in r.opposite
    ensures forall x :: x != id ==> (x in r.target <==> x in target) && (x in r.opposite <==> x in opposite)
    ensures target !! opposite ==> r.target !! r.opposite
  {
    if id in target then Reaction(target - {id}, opposite)
    else Reaction(target + {id}, opposite - {id})
  }

  /**
   * The callback `handleNewsLike` maps over the cards: `liked`/`disliked` are the
   * sets before the click, `newLiked` the liked set after it.
   */
  function LikeCounts(item: NewsItem, newsId: int, liked: set<int>, newLiked: set<int>, disliked: set<int>): (r: NewsItem)
    ensures r == item.(likes := r.likes, dislikes := r.dislikes)
    ensures item.id != newsId ==> r == item
  {
    if item.id == newsId then
      if newsId in newLiked && newsId !in liked then
        item.(likes := item.likes + 1, dislikes := if newsId in disliked then item.dislikes - 1 else item.dislikes)
      else if newsId !in newLiked && newsId in liked then
        item.(likes := item.likes - 1)
      else item
    else item
  }

  /** The callback `handleNewsDislike` maps over the cards, the mirror image of `LikeCounts`. */
  function DislikeCounts(item: NewsItem, newsId: int, liked: set<int>, disliked: set<int>, newDisliked: set<int>): (r: NewsItem)
    ensures r == item.(likes := r.likes, dislikes := r.dislikes)
    ensures item.id != newsId ==> r == item
  {
    if item.id == newsId then
      if newsId in newDisliked && newsId !in disliked then
        item.(dislikes := item.dislikes + 1, likes := if newsId in liked then item.likes - 1 else item.likes)
      else if newsId !in newDisliked && newsId in disliked then
        item.(dislikes := item.dislikes - 1)
      else item
    else item
  }

  /** A card's counters are its seed counters plus the current user's one vote, if any. */
  ghost predicate CountersTrack(item: NewsItem, seed: NewsItem, liked: set<int>, disliked: set<int>) {
    && item.likes == seed.likes + Bit(seed.id in liked)
    && item.dislikes == seed.dislikes + Bit(seed.id in disliked)
  }

  /** Liking keeps every card's counters equal to seed plus membership. */
  lemma LikeKeepsCounters(item: NewsItem, seed: NewsItem, newsId: int, liked: set<int>, disliked: set<int>)
    requires item.id == seed.id && liked !! disliked
    requires CountersTrack(item, seed, liked, disliked)
    ensures var r := Toggle(liked, disliked, newsId);
      CountersTrack(LikeCounts(item, newsId, liked, r.target, disliked), seed, r.target, r.opposite)
  {
  }

  /** Disliking keeps every card's counters equal to seed plus membership. */
  lemma DislikeKeepsCounters(item: NewsItem, seed: NewsItem, newsId: int, liked: set<int>, disliked: set<int>)
    requires item.id == seed.id && liked !! disliked
    requires CountersTrack(item, seed, liked, disliked)
    ensures var r := Toggle(disliked, liked, newsId);
      CountersTrack(DislikeCounts(item, newsId, liked, disliked, r.target), seed, r.opposite, r.target)
  {
  }

  /** Liking a disliked card moves its id across and shifts one vote from dislikes to likes. */
  lemma LikeSwitchesSides(item: NewsItem, liked: set<int>, disliked: set<int>)
    requires item.id in disliked && item.id !in liked
    ensures var r := Toggle(liked, disliked, item.id);
      var after := LikeCounts(item, item.id, liked, r.target, disliked);
      && r.target == liked + {item.id} && r.opposite == disliked - {item.id}
      && after.likes == item.likes + 1 && after.dislikes == item.dislikes - 1
  {
  }

  /** Disliking a liked card moves its id across and shifts one vote from likes to dislikes. */
  lemma DislikeSwitchesSides(item: NewsItem, liked: set<int>, disliked: set<int>)
    requires item.id in liked && item.id !in disliked
    ensures var r := Toggle(disliked, liked, item.id);
      var after := DislikeCounts(item, item.id, liked, disliked, r.target);
      && r.target == disliked + {item.id} && r.opposite == liked - {item.id}
      && after.dislikes == item.dislikes + 1 && after.likes == item.likes - 1
  {
  }

  /** Two likes in a row on a card that is not disliked restore both sets and the card. */
  lemma LikeTwiceRestores(item: NewsItem, newsId: int, liked: set<int>, disliked: set<int>)
    requires newsId !in disliked
    ensures var r1 := Toggle(liked, disliked, newsId);
      var r2 := Toggle(r1.target, r1.opposite, newsId);
      && r2 == Reaction(liked, disliked)
      && LikeCounts(LikeCounts(item, newsId, liked, r1.target, disliked), newsId, r1.target, r2.target, r1.opposite) == item
  {
  }

  /** Two dislikes in a row on a card that is not liked restore both sets and the card. */
  lemma DislikeTwiceRestores(item: NewsItem, newsId: int, liked: set<int>, disliked: set<int>)
    requires newsId !in liked
    ensures var r1 := Toggle(disliked, liked, newsId);
      var r2 := Toggle(r1.target, r1.opposite, newsId);
      && r2 == Reaction(disliked, liked)
      && DislikeCounts(DislikeCounts(item, newsId, liked, disliked, r1.target), newsId, r1.opposite, r1.target, r2.target) == item
  {
  }

  /**
   * The star value the user gave before, `userRatings.get(newsId) || 0`: a missing
   * entry and a stored 0 are both falsy and give 0.
   */
  function PreviousStars(ratings: map<int, int>, newsId: int): (v: int)
    ensures newsId in ratings ==> v == ratings[newsId]
    ensures newsId !in ratings ==> v == 0
  {
    var got := if newsId in ratings then Some(ratings[newsId]) else None;
    match got
    case None => 0
    case Some(stars) => if stars == 0 then 0 else stars
  }

  /**
   * The callback `handleRating` maps over the cards. A first vote adds one to the
   * count; a repeated vote replaces the user's earlier one in the total.
   */
  function RateItem(item: NewsItem, newsId: int, ratings: map<int, int>, stars: int): (r: NewsItem)
    requires item.id == newsId && newsId in ratings ==> item.ratingCount > 0
    ensures r == item.(rating := r.rating, ratingCount := r.ratingCount)
    ensures item.id != newsId ==> r == item
    ensures item.id == newsId ==> r.ratingCount == item.ratingCount + Bit(newsId !in ratings) && r.ratingCount > 0
    ensures item.id == newsId ==>
      r.rating * r.ratingCount as real
        == item.rating * item.ratingCount as real - PreviousStars(ratings, newsId) as real + stars as real
  {
    if item.id == newsId then
      var hasUserRated := newsId in ratings;
      var newRatingCount: nat := if hasUserRated then item.ratingCount else item.ratingCount + 1;
      var oldUserRating := PreviousStars(ratings, newsId);
      var totalRating := item.rating * item.ratingCount as real - (if hasUserRated then oldUserRating as real else 0.0) + stars as real;
      item.(rating := totalRating / newRatingCount as real, ratingCount := newRatingCount)
    else item
  }

  /** A card's vote total is its seed total plus the current user's vote, if any. */
  ghost predicate RatingTracks(item: NewsItem, seed: NewsItem, ratings: map<int, int>) {
    && item.ratingCount == seed.ratingCount + Bit(seed.id in ratings)
    && item.rating * item.ratingCount as real
         == seed.rating * seed.ratingCount as real + PreviousStars(ratings, seed.id) as real
  }

  /** Rating keeps every card's count and total equal to seed plus the user's current vote. */
  lemma RateKeepsTotals(item: NewsItem, seed: NewsItem, newsId: int, ratings: map<int, int>, stars: int)
    requires item.id == seed.id && RatingTracks(item, seed, ratings)
    ensures item.id == newsId && newsId in ratings ==> item.ratingCount > 0
    ensures RatingTracks(RateItem(item, newsId, ratings, stars), seed, ratings[newsId := stars])
  {
  }

  /** Rating a card `a` and then `b` counts one vote, and `b` fully replaces `a` in the total. */
  lemma RerateReplacesVote(item: NewsItem, ratings: map<int, int>, a: int, b: int)
    requires item.id in ratings ==> item.ratingCount > 0
    ensures var r1 := RateItem(item, item.id, ratings, a);
      var r2 := RateItem(r1, item.id, ratings[item.id := a], b);
      && r2.ratingCount == r1.ratingCount
      && r2.rating * r2.ratingCount as real
           == item.rating * item.ratingCount as real - PreviousStars(ratings, item.id) as real + b as real
  {
  }

  /** The like count shown under a comment: the extra term can never be 1. */
  function DisplayedCommentLikes(c: Comment, likedComments: set<int>): (n: int)
    ensures n == c.likes
  {
    c.likes + (if c.id in likedComments && c.id !in likedComments then 1 else 0)
  }

  /** The dislike count shown under a comment: the extra term can never be 1. */
  function DisplayedCommentDislikes(c: Comment, dislikedComments: set<int>): (n: int)
    ensures n == c.dislikes
  {
    c.dislikes + (if c.id in dislikedComments && c.id !in dislikedComments then 1 else 0)
  }
}
