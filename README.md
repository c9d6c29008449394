# News page state, modelled in Dafny

This project models the in-memory state of the news portal's single page
(`src/pages/Index.tsx`): the current reader's likes and dislikes on news cards
and comments, their star ratings, the search filter, and the comment composer.
Rendering is not modelled.

Layout, one module per concern of the page:

- `wrappers.dfy` (`Wrappers`): `Option`, for the page's `number | null` state.
- `news.dfy` (`NewsTypes`): the `NewsItem` and `Comment` records and the three seed cards.
- `text.dfy` (`Text`): `toLowerCase`, `includes` and `trim` on strings.
- `search.dfy` (`Search`): `filteredNews`.
- `reactions.dfy` (`Reactions`): the pure rules. The set-toggle rule is shared by
  all four reaction handlers. The per-card callbacks are the ones each handler
  maps over `newsItems`. The displayed comment counts are here too.
- `page.dfy` (`Page`): class `PageState` holds the page's `useState` variables as
  fields. It has one method per event handler, each one atomic transition with
  `modifies this`. Its function `Visible` is the page's `filteredNews`. The module
  ends with three verified client scenarios: the first card's votes, the first
  card's ratings, and the comment composer.

`PageState.Valid()` is the page invariant, and every handler preserves it:

- no news id is both liked and disliked;
- no comment id is both liked and disliked;
- every stored rating is between 1 and 5;
- every card equals its seed card except for its counters and rating;
- `likes` is the seed value plus 1 if the card is liked, else plus 0;
- `dislikes` is the seed value plus 1 if the card is disliked, else plus 0;
- `ratingCount` is the seed count plus 1 if the reader has rated the card;
- `rating * ratingCount` is the seed total plus the reader's current vote.

The constructor sets up this invariant for the seed state. So after any sequence
of events, the reaction sets stay exclusive and no counter drops below its seed
value. The re-rating division never divides by zero. No rule about ids is needed:
a handler called with an id that no card has still changes the sets, and leaves
every card unchanged.

How the model reads the code:

- Submitting a comment never stores it. `AddComment` only clears the draft and
  closes the composer, as the code does.
- The comment buttons show `likes + (has(id) && !has(id) ? 1 : 0)`. That extra
  term is always 0, so the shown number is always the stored one.
- Opening the composer on another card keeps the shared draft text: the click
  handler at `src/pages/Index.tsx:512` calls `setSelectedNewsId` and never
  `setNewComment`.
- The mean rating is an exact `real`. Its contract is the total-sum identity,
  not the division.

## Model

| member | source | states |
|---|---|---|
| `NewsTypes.SeedNews` | src/pages/Index.tsx:43-85 | the seed list has three cards; the first has id 1, 24 likes, 3 dislikes, rating 4.5 from 18 votes |
| `Text.LowerChar` | src/pages/Index.tsx:88-90 | `toLowerCase` on one character: the result is never a capital of the modelled scripts; a non-capital is kept; a capital moves up the code table to its small letter, the one the reverse mapping `UpperChar` sends back to it |
| `Text.Lower` | src/pages/Index.tsx:88-90 | `toLowerCase` on a string: same length, no capital left, every non-capital kept in place, and each capital becomes its small letter, the one `UpperChar` maps back to it |
| `Text.LowerIdempotent` | src/pages/Index.tsx:88-90 | lower-casing an already lower-cased string changes nothing |
| `Text.IncludesIffOccurs` | src/pages/Index.tsx:88-90 | the recursive `includes` holds exactly when the term occurs as a slice at some index |
| `Text.IncludesEmpty` | src/pages/Index.tsx:88-90 | every string includes the empty term |
| `Text.TrimStart` | src/pages/Index.tsx:94 | the result is a suffix of the input; every dropped character is whitespace; the result does not start with whitespace |
| `Text.TrimEnd` | src/pages/Index.tsx:94 | the result is a prefix of the input; every dropped character is whitespace; the result does not end with whitespace |
| `Text.Trim` | src/pages/Index.tsx:94 | `trim()` returns a slice of the draft that neither starts nor ends with whitespace, and everything cut off on either side is whitespace |
| `Text.IsBlank` | src/pages/Index.tsx:94 | `newComment.trim()` is falsy exactly when every character of the draft is whitespace |
| `Search.Matches` | src/pages/Index.tsx:88-90 | the filter callback holds exactly when the lower-cased term occurs at some index of the lower-cased title, description or category; an empty term matches every card |
| `Search.FilterNews` | src/pages/Index.tsx:87-91 | the result is an in-order subsequence of the cards; a card is in it exactly when it matches; a matching card keeps its multiplicity, a non-matching one has none |
| `Search.FilterEmptyTerm` | src/pages/Index.tsx:87-91 | an empty search term keeps every card, in order |
| `Search.FilterIgnoresCase` | src/pages/Index.tsx:87-91 | lower-casing the term first does not change the filtered list |
| `Reactions.Toggle` | src/pages/Index.tsx:102-110 | the id's membership in the target set flips; adding it removes it from the opposing set; removing it leaves that set alone; other ids keep their membership; exclusive sets stay exclusive |
| `Reactions.LikeCounts` | src/pages/Index.tsx:115-130 | only `likes` and `dislikes` can change, and only on the card whose id matches |
| `Reactions.DislikeCounts` | src/pages/Index.tsx:147-162 | only `likes` and `dislikes` can change, and only on the card whose id matches |
| `Reactions.LikeKeepsCounters` | src/pages/Index.tsx:101-130 | after a like, every card's counters are still seed plus membership in the new sets |
| `Reactions.DislikeKeepsCounters` | src/pages/Index.tsx:133-162 | after a dislike, every card's counters are still seed plus membership in the new sets |
| `Reactions.LikeSwitchesSides` | src/pages/Index.tsx:105-122 | liking a disliked card moves its id from the disliked to the liked set, with likes + 1 and dislikes - 1 |
| `Reactions.DislikeSwitchesSides` | src/pages/Index.tsx:137-154 | disliking a liked card moves its id from the liked to the disliked set, with dislikes + 1 and likes - 1 |
| `Reactions.LikeTwiceRestores` | src/pages/Index.tsx:101-130 | two likes in a row on a card that is not disliked restore both sets and the card |
| `Reactions.DislikeTwiceRestores` | src/pages/Index.tsx:133-162 | two dislikes in a row on a card that is not liked restore both sets and the card |
| `Reactions.PreviousStars` | src/pages/Index.tsx:204 | the previous vote, read with a fallback to 0, is the stored vote when there is one and 0 when there is none |
| `Reactions.RateItem` | src/pages/Index.tsx:200-211 | only the rating fields of the matching card change; the count grows by one on a first vote only and is then positive; new mean times new count equals old mean times old count, minus the previous vote, plus the new one |
| `Reactions.RateKeepsTotals` | src/pages/Index.tsx:195-211 | under the invariant the re-rating denominator is positive, and after rating every card's count and total are still seed plus the reader's current vote |
| `Reactions.RerateReplacesVote` | src/pages/Index.tsx:195-211 | rating `a` and then `b` leaves the count unchanged at the second vote, and the total then holds `b` in place of `a` |
| `Reactions.DisplayedCommentLikes` | src/pages/Index.tsx:449 | the like count shown under a comment is its stored `likes` |
| `Reactions.DisplayedCommentDislikes` | src/pages/Index.tsx:465 | the dislike count shown under a comment is its stored `dislikes` |
| `Page.PageState.constructor` | src/pages/Index.tsx:33-85 | empty search and draft, composer closed, all sets and the rating map empty, cards equal to the seed; the invariant holds |
| `Page.PageState.Visible` | src/pages/Index.tsx:87-91 | the cards shown are an in-order subsequence of the page's cards; a card is shown exactly when it matches the current search term, with its multiplicity; with an empty term, all of them in order |
| `Page.PageState.SetSearchTerm` | src/pages/Index.tsx:307 | only the search term changes |
| `Page.PageState.NewsLike` | src/pages/Index.tsx:101-131 | the news sets become the toggle of the old ones; each card becomes its like callback image; nothing else changes; the invariant is kept |
| `Page.PageState.NewsDislike` | src/pages/Index.tsx:133-163 | the news sets become the toggle of the old ones; each card becomes its dislike callback image; nothing else changes; the invariant is kept |
| `Page.PageState.CommentLike` | src/pages/Index.tsx:165-178 | the comment sets become the toggle of the old ones; the cards and everything else are unchanged |
| `Page.PageState.CommentDislike` | src/pages/Index.tsx:180-193 | the comment sets become the toggle of the old ones; the cards and everything else are unchanged |
| `Page.PageState.Rate` | src/pages/Index.tsx:195-212 | the reader's rating for the card becomes `stars` and other entries are unchanged; each card becomes its rating callback image, with a positive denominator; the invariant is kept |
| `Page.PageState.SetDraft` | src/pages/Index.tsx:487 | only the draft changes |
| `Page.PageState.OpenComposer` | src/pages/Index.tsx:512 | only the selected card changes, to the given id; the draft is kept |
| `Page.PageState.CancelComposer` | src/pages/Index.tsx:495 | the composer closes, the draft is kept, nothing else changes |
| `Page.PageState.AddComment` | src/pages/Index.tsx:93-99 | a blank draft changes nothing; otherwise the draft is cleared and the composer closed; the cards are never changed |

## Left out

- `NewsTypes.SeedNews`: its contract names only the first card's figures, the ones the worked example needs. The other two cards are only in its body.
- `src/components/NewsCard.tsx` is not part of this model. The page never imports or renders it; it is a stateless view that forwards clicks to whatever callback props it is given.
- Markup, styling and the UI widgets are left out; they are presentation.
- The star-filling rules of `renderStars` and the one-decimal display of the mean are left out. They are floating-point display rules.
- The mean rating is exact arithmetic on `real`, not IEEE floating point.
- `RateItem` requires a non-zero denominator. JavaScript would give `Infinity` or `NaN` here; the page invariant rules that case out (`RateKeepsTotals`).
- `Rate` takes `stars` from 1 to 5, the only values the star buttons pass. The buttons also skip the call when the id is 0 (the `newsId &&` guard); that guard is not modelled.
- The random view count is left out: it is non-deterministic decoration.
- The `console.log` of a submitted comment is left out: it is I/O.
- The `activeSection` navigation state is left out: it only drives highlighting.
- Which comments are shown (the first two, then "show N more") is left out: it is presentation.
- `toLowerCase` is modelled for ASCII, Latin-1 and the Cyrillic range U+0400–U+045F only; other Cyrillic capitals such as Ѣ (U+0462) or Ґ (U+0490) are kept. Other characters are kept as they are, including ones that JavaScript maps or expands to more than one character.
- Strings are sequences of Unicode scalar values, not UTF-16 code units.
- React's batching and the timing of the functional `setNewsItems` updater are left out. Each handler is one atomic transition.
