/**
 * The state the news page keeps between renders, and one method per event
 * handler. Each handler is one atomic transition: it copies the current sets or
 * map, edits the copies and stores them back, and rewrites `newsItems` with the
 * matching per-card callback from `Reactions`.
 */
module Page {
  import opened Wrappers
  import opened NewsTypes
  import opened Text
  import opened Reactions
  import opened Search

  /** A card agrees with its seed in everything but what the current user's votes explain. */
  ghost predicate Tracks(item: NewsItem, seed: NewsItem, liked: set<int>, disliked: set<int>, ratings: map<int, int>) {
    && item == seed.(likes := item.likes, dislikes := item.dislikes, rating := item.rating, ratingCount := item.ratingCount)
    && CountersTrack(item, seed, liked, disliked)
    && RatingTracks(item, seed, ratings)
  }

  class PageState {
    var searchTerm: string
    var newComment: string
    var selectedNewsId: Option<int>
    var likedNews: set<int>
    var dislikedNews: set<int>
    var likedComments: set<int>
    var dislikedComments: set<int>
    var userRatings: map<int, int>
    var newsItems: seq<NewsItem>

    /** The cards as the page was loaded, before any vote of the current user. */
    ghost const seed: seq<NewsItem>

    /**
     * The page invariant: a news id and a comment id are each in at most one of
     * their two reaction sets, every stored rating is a star value, and every
     * card is its seed card plus the current user's votes.
     */
    ghost predicate Valid()
      reads this
    {
      && likedNews !! dislikedNews
      && likedComments !! dislikedComments
      && (forall id :: id in userRatings ==> 1 <= userRatings[id] <= 5)
      && |newsItems| == |seed|
      && forall i :: 0 <= i < |seed| ==> Tracks(newsItems[i], seed[i], likedNews, dislikedNews, userRatings)
    }

    /** `filteredNews`: the cards the page shows for the current search term. */
    function Visible(): (r: seq<NewsItem>)
      reads this
      ensures IsSubsequence(r, newsItems)
      ensures forall x :: x in r <==> x in newsItems && Matches(x, searchTerm)
      ensures forall x :: multiset(r)[x] == if Matches(x, searchTerm) then multiset(newsItems)[x] else 0
      ensures searchTerm == "" ==> r == newsItems
    {
      FilterEmptyTerm(newsItems);
      FilterNews(newsItems, searchTerm)
    }

    /** The page's initial state: empty search, closed composer, no votes, the seed cards. */
    constructor ()
      ensures Valid()
      ensures seed == SeedNews() && newsItems == seed
      ensures searchTerm == "" && newComment == "" && selectedNewsId == None
      ensures likedNews == {} && dislikedNews == {} && likedComments == {} && dislikedComments == {}
      ensures userRatings == map[]
    {
      searchTerm, newComment, selectedNewsId := "", "", None;
      likedNews, dislikedNews := {}, {};
      likedComments, dislikedComments := {}, {};
      userRatings := map[];
      newsItems := SeedNews();
      seed := SeedNews();
    }

    /** The search box's `onChange`. */
    method SetSearchTerm(term: string)
      requires Valid()
      modifies this
      ensures Valid() && searchTerm == term
      ensures newComment == old(newComment) && selectedNewsId == old(selectedNewsId)
      ensures likedNews == old(likedNews) && dislikedNews == old(dislikedNews)
      ensures likedComments == old(likedComments) && dislikedComments == old(dislikedComments)
      ensures userRatings == old(userRatings) && newsItems == old(newsItems)
    {
      searchTerm := term;
    }

    /** `handleNewsLike`. */
    method NewsLike(newsId: int)
      requires Valid()
      modifies this
      ensures Valid()
      ensures Reaction(likedNews, dislikedNews) == Toggle(old(likedNews), old(dislikedNews), newsId)
      ensures |newsItems| == |old(newsItems)|
      ensures forall i :: 0 <= i < |newsItems| ==>
        newsItems[i] == LikeCounts(old(newsItems)[i], newsId, old(likedNews), likedNews, old(dislikedNews))
      ensures searchTerm == old(searchTerm) && newComment == old(newComment) && selectedNewsId == old(selectedNewsId)
      ensures likedComments == old(likedComments) && dislikedComments == old(dislikedComments)
      ensures userRatings == old(userRatings)
    {
      var newLikedNews := likedNews;
      var newDislikedNews := dislikedNews;
      if newsId in likedNews {
        newLikedNews := newLikedNews - {newsId};
      } else {
        newLikedNews := newLikedNews + {newsId};
        newDislikedNews := newDislikedNews - {newsId};
      }
      var liked, disliked, items := likedNews, dislikedNews, newsItems;
      likedNews, dislikedNews := newLikedNews, newDislikedNews;
      newsItems := seq(|items|, i requires 0 <= i < |items| => LikeCounts(items[i], newsId, liked, newLikedNews, disliked));
      forall i | 0 <= i < |seed|
        ensures Tracks(newsItems[i], seed[i], likedNews, dislikedNews, userRatings)
      {
        LikeKeepsCounters(items[i], seed[i], newsId, liked, disliked);
      }
    }

    /** `handleNewsDislike`. */
    method NewsDislike(newsId: int)
      requires Valid()
      modifies this
      ensures Valid()
      ensures Reaction(dislikedNews, likedNews) == Toggle(old(dislikedNews), old(likedNews), newsId)
      ensures |newsItems| == |old(newsItems)|
      ensures forall i :: 0 <= i < |newsItems| ==>
        newsItems[i] == DislikeCounts(old(newsItems)[i], newsId, old(likedNews), old(dislikedNews), dislikedNews)
      ensures searchTerm == old(searchTerm) && newComment == old(newComment) && selectedNewsId == old(selectedNewsId)
      ensures likedComments == old(likedComments) && dislikedComments == old(dislikedComments)
      ensures userRatings == old(userRatings)
    {
      var newLikedNews := likedNews;
      var newDislikedNews := dislikedNews;
      if newsId in dislikedNews {
        newDislikedNews := newDislikedNews - {newsId};
      } else {
        newDislikedNews := newDislikedNews + {newsId};
        newLikedNews := newLikedNews - {newsId};
      }
      var liked, disliked, items := likedNews, dislikedNews, newsItems;
      likedNews, dislikedNews := newLikedNews, newDislikedNews;
      newsItems := seq(|items|, i requires 0 <= i < |items| => DislikeCounts(items[i], newsId, liked, disliked, newDislikedNews));
      forall i | 0 <= i < |seed|
        ensures Tracks(newsItems[i], seed[i], likedNews, dislikedNews, userRatings)
      {
        DislikeKeepsCounters(items[i], seed[i], newsId, liked, disliked);
      }
    }

    /** `handleCommentLike`: only the two comment sets change; no counter is touched. */
    method CommentLike(commentId: int)
      requires Valid()
      modifies this
      ensures Valid()
      ensures Reaction(likedComments, dislikedComments) == Toggle(old(likedComments), old(dislikedComments), commentId)
      ensures searchTerm == old(searchTerm) && newComment == old(newComment) && selectedNewsId == old(selectedNewsId)
      ensures likedNews == old(likedNews) && dislikedNews == old(dislikedNews)
      ensures userRatings == old(userRatings) && newsItems == old(newsItems)
    {
      var newLikedComments := likedComments;
      var newDislikedComments := dislikedComments;
      if commentId in likedComments {
        newLikedComments := newLikedComments - {commentId};
      } else {
        newLikedComments := newLikedComments + {commentId};
        newDislikedComments := newDislikedComments - {commentId};
      }
      likedComments, dislikedComments := newLikedComments, newDislikedComments;
    }

    /** `handleCommentDislike`: only the two comment sets change; no counter is touched. */
    method CommentDislike(commentId: int)
      requires Valid()
      modifies this
      ensures Valid()
      ensures Reaction(dislikedComments, likedComments) == Toggle(old(dislikedComments), old(likedComments), commentId)
      ensures searchTerm == old(searchTerm) && newComment == old(newComment) && selectedNewsId == old(selectedNewsId)
      ensures likedNews == old(likedNews) && dislikedNews == old(dislikedNews)
      ensures userRatings == old(userRatings) && newsItems == old(newsItems)
    {
      var newLikedComments := likedComments;
      var newDislikedComments := dislikedComments;
      if commentId in dislikedComments {
        newDislikedComments := newDislikedComments - {commentId};
      } else {
        newDislikedComments := newDislikedComments + {commentId};
        newLikedComments := newLikedComments - {commentId};
      }
      likedComments, dislikedComments := newLikedComments, newDislikedComments;
    }

    /** `handleRating`, called by the star buttons with 1 to 5. */
    method Rate(newsId: int, stars: int)
      requires Valid() && 1 <= stars <= 5
      modifies this
      ensures Valid()
      ensures userRatings == old(userRatings)[newsId := stars]
      ensures |newsItems| == |old(newsItems)|
      ensures forall i :: 0 <= i < |newsItems| ==>
        && (old(newsItems)[i].id == newsId && newsId in old(userRatings) ==> old(newsItems)[i].ratingCount > 0)
        && newsItems[i] == RateItem(old(newsItems)[i], newsId, old(userRatings), stars)
      ensures searchTerm == old(searchTerm) && newComment == old(newComment) && selectedNewsId == old(selectedNewsId)
      ensures likedNews == old(likedNews) && dislikedNews == old(dislikedNews)
      ensures likedComments == old(likedComments) && dislikedComments == old(dislikedComments)
    {
      var ratings, items := userRatings, newsItems;
      var newRatings := userRatings[newsId := stars];
      userRatings := newRatings;
      forall i | 0 <= i < |items|
        ensures items[i].id == newsId && newsId in ratings ==> items[i].ratingCount > 0
        ensures RatingTracks(RateItem(items[i], newsId, ratings, stars), seed[i], newRatings)
      {
        RateKeepsTotals(items[i], seed[i], newsId, ratings, stars);
      }
      newsItems := seq(|items|, i requires 0 <= i < |items| => RateItem(items[i], newsId, ratings, stars));
    }

    /** The draft box's `onChange`. */
    method SetDraft(text: string)
      requires Valid()
      modifies this
      ensures Valid() && newComment == text
      ensures searchTerm == old(searchTerm) && selectedNewsId == old(selectedNewsId)
      ensures likedNews == old(likedNews) && dislikedNews == old(dislikedNews)
      ensures likedComments == old(likedComments) && dislikedComments == old(dislikedComments)
      ensures userRatings == old(userRatings) && newsItems == old(newsItems)
    {
      newComment := text;
    }

    /** "Add comment" on a card opens the composer on it; the shared draft is kept. */
    method OpenComposer(newsId: int)
      requires Valid()
      modifies this
      ensures Valid() && selectedNewsId == Some(newsId)
      ensures searchTerm == old(searchTerm) && newComment == old(newComment)
      ensures likedNews == old(likedNews) && dislikedNews == old(dislikedNews)
      ensures likedComments == old(likedComments) && dislikedComments == old(dislikedComments)
      ensures userRatings == old(userRatings) && newsItems == old(newsItems)
    {
      selectedNewsId := Some(newsId);
    }

    /** "Cancel" closes the composer and leaves the draft as it is. */
    method CancelComposer()
      requires Valid()
      modifies this
      ensures Valid() && selectedNewsId == None
      ensures searchTerm == old(searchTerm) && newComment == old(newComment)
      ensures likedNews == old(likedNews) && dislikedNews == old(dislikedNews)
      ensures likedComments == old(likedComments) && dislikedComments == old(dislikedComments)
      ensures userRatings == old(userRatings) && newsItems == old(newsItems)
    {
      selectedNewsId := None;
    }

    /**
     * `handleAddComment`: a draft with visible text closes the composer and
     * clears the draft; a blank one changes nothing. No comment is stored.
     */
    method AddComment(newsId: int)
      requires Valid()
      modifies this
      ensures Valid()
      ensures IsBlank(old(newComment)) ==> newComment == old(newComment) && selectedNewsId == old(selectedNewsId)
      ensures !IsBlank(old(newComment)) ==> newComment == "" && selectedNewsId == None
      ensures searchTerm == old(searchTerm)
      ensures likedNews == old(likedNews) && dislikedNews == old(dislikedNews)
      ensures likedComments == old(likedComments) && dislikedComments == old(dislikedComments)
      ensures userRatings == old(userRatings) && newsItems == old(newsItems)
    {
      if !IsBlank(newComment) {
        newComment := "";
        selectedNewsId := None;
      }
    }
  }

  /** A verified client scenario, the first card's votes: a dislike, a switch to like, and an un-like. */
  method VotingWalkthrough() {
    var page := new PageState();
    page.NewsDislike(1);
    assert page.newsItems[0].likes == 24 && page.newsItems[0].dislikes == 4 && 1 in page.dislikedNews;
    page.NewsLike(1);
    assert page.newsItems[0].likes == 25 && page.newsItems[0].dislikes == 3;
    assert 1 in page.likedNews && 1 !in page.dislikedNews;
    page.NewsLike(1);
    assert page.newsItems[0].likes == 24 && page.newsItems[0].dislikes == 3 && page.likedNews == {};
  }

  /** A verified client scenario, the first card's ratings: a first vote of 5, then 3 in its place. */
  method RatingWalkthrough() {
    var page := new PageState();
    page.Rate(1, 5);
    assert page.newsItems[0].ratingCount == 19 && page.newsItems[0].rating == 86.0 / 19.0;
    page.Rate(1, 3);
    assert page.newsItems[0].ratingCount == 19 && page.newsItems[0].rating == 84.0 / 19.0;
  }

  /** A verified client scenario, the composer: a blank draft is refused, a real one closes the composer. */
  method ComposerWalkthrough() {
    assert !IsWhitespace("Thanks!"[0]);
    var page := new PageState();
    page.OpenComposer(1);
    page.SetDraft("  ");
    page.AddComment(1);
    assert page.selectedNewsId == Some(1) && page.newComment == "  ";
    page.SetDraft("Thanks!");
    page.AddComment(1);
    assert page.selectedNewsId == None && page.newComment == "";
  }
}
