/** The search box: `filteredNews` keeps the cards whose text contains the search term. */
module Search {
  import opened NewsTypes
  import opened Text

  /** Case-insensitive containment in the title, the description or the category. */
  predicate Matches(item: NewsItem, term: string): (b: bool)
    ensures b <==>
      || (exists k :: OccursAt(Lower(item.title), Lower(term), k))
      || (exists k :: OccursAt(Lower(item.description), Lower(term), k))
      || (exists k :: OccursAt(Lower(item.category), Lower(term), k))
    ensures term == "" ==> b
  {
    IncludesIffOccurs(Lower(item.title), Lower(term));
    IncludesIffOccurs(Lower(item.description), Lower(term));
    IncludesIffOccurs(Lower(item.category), Lower(term));
    IncludesEmpty(Lower(item.title));
    || Includes(Lower(item.title), Lower(term))
    || Includes(Lower(item.description), Lower(term))
    || Includes(Lower(item.category), Lower(term))
  }

  /** `r` is `s` with some elements left out, the rest in their original order. */
  ghost predicate IsSubsequence<T>(r: seq<T>, s: seq<T>)
    decreases |s|
  {
    if r == [] then true
    else if s == [] then false
    else (r[0] == s[0] && IsSubsequence(r[1..], s[1..])) || IsSubsequence(r, s[1..])
  }

  /** `newsItems.filter(...)` with the matching predicate above. */
  function FilterNews(items: seq<NewsItem>, term: string): (r: seq<NewsItem>)
    ensures IsSubsequence(r, items)
    ensures forall x :: x in r <==> x in items && Matches(x, term)
    ensures forall x :: multiset(r)[x] == if Matches(x, term) then multiset(items)[x] else 0
    decreases |items|
  {
    if items == [] then []
    else
      var rest := FilterNews(items[1..], term);
      assert items == [items[0]] + items[1..];
      if Matches(items[0], term) then [items[0]] + rest else rest
  }

  /** An empty search term keeps every card, in order. */
  lemma {:induction false} FilterEmptyTerm(items: seq<NewsItem>)
    ensures FilterNews(items, "") == items
    decreases |items|
  {
    if items != [] {
      assert Lower("") == "";
      IncludesEmpty(Lower(items[0].title));
      FilterEmptyTerm(items[1..]);
      assert items == [items[0]] + items[1..];
    }
  }

  /** The filter ignores the case of the term: lower-casing it first changes nothing. */
  lemma {:induction false} FilterIgnoresCase(items: seq<NewsItem>, term: string)
    ensures FilterNews(items, Lower(term)) == FilterNews(items, term)
    decreases |items|
  {
    if items != [] {
      LowerIdempotent(term);
      assert Matches(items[0], Lower(term)) == Matches(items[0], term);
      FilterIgnoresCase(items[1..], term);
    }
  }
}
