/**
 * Content gate: the news list, the per-category filter served to paying
 * clients, and the grouping by category behind the browser page.
 */
module Content {
  import opened Wrappers

  /** A news item. Only its category is interpreted; its other fields (timestamp, title,
      description) are carried along unread. */
  datatype NewsItem = NewsItem(category: Option<string>, fields: map<string, string>)

  /** The closed category list, in the order the browser page shows them. */
  const Categories: seq<string> := ["politics", "international", "economy", "technology", "sports", "entertainment"]

  /** The group of an item without a category key. */
  const Uncategorized: string := "Uncategorized"

  /** `a` is `b` with some elements left out, the others in their order. */
  predicate IsSubsequence<T(==)>(a: seq<T>, b: seq<T>)
    decreases |b|
  {
    if a == [] then true
    else if b == [] then false
    else if a[|a| - 1] == b[|b| - 1] then IsSubsequence(a[..|a| - 1], b[..|b| - 1])
    else IsSubsequence(a, b[..|b| - 1])
  }

  /** The items of `news` that `keep` accepts, in their original order. */
  function Select<T(==,!new)>(news: seq<T>, keep: T -> bool): (r: seq<T>)
    ensures IsSubsequence(r, news)
    ensures forall x :: x in r ==> keep(x)
    ensures forall x :: multiset(r)[x] == if keep(x) then multiset(news)[x] else 0
    decreases |news|
  {
    if news == [] then []
    else
      var init, last := news[..|news| - 1], news[|news| - 1];
      assert news == init + [last];
      var r := Select(init, keep);
      if keep(last) then
        assert (r + [last])[..|r|] == r;
        r + [last]
      else
        assert r != [] ==> r[|r| - 1] in r;
        r
  }

  /** Filters that agree on every item select the same items. */
  lemma {:induction false} SelectAgrees(news: seq<NewsItem>, p: NewsItem -> bool, q: NewsItem -> bool)
    requires forall x :: x in news ==> p(x) == q(x)
    ensures Select(news, p) == Select(news, q)
    decreases |news|
  {
    if news != [] {
      SelectAgrees(news[..|news| - 1], p, q);
    }
  }

  /** Selecting from a list extended at the end. */
  lemma SelectSnoc(news: seq<NewsItem>, x: NewsItem, keep: NewsItem -> bool)
    ensures Select(news + [x], keep) == Select(news, keep) + (if keep(x) then [x] else [])
  {
    assert (news + [x])[..|news|] == news;
  }

  /** The bot filter `[item for item in news if item.get("category") == c]`. */
  function InCategory(news: seq<NewsItem>, c: string): seq<NewsItem>
  {
    Select(news, (x: NewsItem) => x.category == Some(c))
  }

  /** The grouping key `item.get('category', 'Uncategorized')`. */
  function KeyOf(item: NewsItem): string
  {
    item.category.GetOr(Uncategorized)
  }

  function WithKey(news: seq<NewsItem>, k: string): seq<NewsItem>
  {
    Select(news, (x: NewsItem) => KeyOf(x) == k)
  }

  function Keys(news: seq<NewsItem>): set<string>
  {
    set x | x in news :: KeyOf(x)
  }

  /** The groups the browser branch builds: each key present maps to its items in list order. */
  function ByCategory(news: seq<NewsItem>): map<string, seq<NewsItem>>
  {
    map k | k in Keys(news) :: WithKey(news, k)
  }

  lemma WithKeyAbsent(news: seq<NewsItem>, k: string)
    requires k !in Keys(news)
    ensures WithKey(news, k) == []
  {
  }

  lemma KeysSnoc(news: seq<NewsItem>, x: NewsItem)
    ensures Keys(news + [x]) == Keys(news) + {KeyOf(x)}
  {
    forall y ensures y in news + [x] <==> y in news || y == x { }
  }

  /** One step of the grouping loop: `x` appended to the group of its key, created if missing. */
  function AddToGroup(groups: map<string, seq<NewsItem>>, x: NewsItem): map<string, seq<NewsItem>>
  {
    var k := KeyOf(x);
    groups[k := (if k in groups then groups[k] else []) + [x]]
  }

  /** The group of key `j` after appending `x`. */
  lemma WithKeySnoc(news: seq<NewsItem>, x: NewsItem, j: string)
    ensures WithKey(news + [x], j) == WithKey(news, j) + (if KeyOf(x) == j then [x] else [])
  {
    SelectSnoc(news, x, (y: NewsItem) => KeyOf(y) == j);
  }

  lemma ByCategorySnoc(news: seq<NewsItem>, x: NewsItem)
    ensures ByCategory(news + [x]) == AddToGroup(ByCategory(news), x)
  {
    var g, g' := ByCategory(news), ByCategory(news + [x]);
    var expected := AddToGroup(g, x);
    KeysSnoc(news, x);
    assert g'.Keys == expected.Keys;
    forall j | j in g'.Keys ensures g'[j] == expected[j] {
      WithKeySnoc(news, x, j);
      if j !in g {
        WithKeyAbsent(news, j);
      }
    }
  }

  /** One turn of the grouping loop, on the prefix read so far. */
  lemma GroupStep(news: seq<NewsItem>, i: nat)
    requires i < |news|
    ensures ByCategory(news[..i + 1]) == AddToGroup(ByCategory(news[..i]), news[i])
  {
    assert news[..i + 1] == news[..i] + [news[i]];
    ByCategorySnoc(news[..i], news[i]);
  }

  /** Creating the missing group, then appending to it, is `AddToGroup`. */
  lemma AppendInPlace(groups: map<string, seq<NewsItem>>, x: NewsItem)
    ensures var k := KeyOf(x);
      var created := if k !in groups then groups[k := []] else groups;
      created[k := created[k] + [x]] == AddToGroup(groups, x)
  {
  }

  /** The browser-branch loop: `news_by_category[category].append(item)` for every item in turn. */
  method GroupByCategory(news: seq<NewsItem>) returns (groups: map<string, seq<NewsItem>>)
    ensures groups == ByCategory(news)
  {
    groups := map[];
    assert Keys(news[..0]) == {};
    for i := 0 to |news|
      invariant groups == ByCategory(news[..i])
    {
      var item := news[i];
      var category := KeyOf(item);
      AppendInPlace(groups, item);
      GroupStep(news, i);
      if category !in groups {
        groups := groups[category := []];
      }
      groups := groups[category := groups[category] + [item]];
    }
    assert news[..|news|] == news;
  }

  /** The groups partition the list: every item is in the group of its key, every group is a
      non-empty subsequence of the list holding only items of its key. */
  lemma ByCategoryPartitions(news: seq<NewsItem>)
    ensures forall k :: k in ByCategory(news) ==>
      ByCategory(news)[k] != [] && IsSubsequence(ByCategory(news)[k], news)
      && forall x :: x in ByCategory(news)[k] ==> KeyOf(x) == k
    ensures forall x :: x in news ==> KeyOf(x) in ByCategory(news) && x in ByCategory(news)[KeyOf(x)]
  {
    forall x | x in news ensures x in ByCategory(news)[KeyOf(x)] {
      var r := WithKey(news, KeyOf(x));
      assert multiset(r)[x] == multiset(news)[x] > 0;
    }
  }

  /** For a real category the browser group holds exactly what the bot filter serves. */
  lemma GroupIsCategoryFilter(news: seq<NewsItem>, c: string)
    requires c != Uncategorized
    ensures c in ByCategory(news) ==> ByCategory(news)[c] == InCategory(news, c)
    ensures c !in ByCategory(news) ==> InCategory(news, c) == []
  {
    SelectAgrees(news, (x: NewsItem) => KeyOf(x) == c, (x: NewsItem) => x.category == Some(c));
    if c !in Keys(news) {
      WithKeyAbsent(news, c);
    }
  }

  /** One column of the browser page. */
  datatype Column = Column(category: string, items: seq<NewsItem>)

  /** The columns shown: the categories of `order` that have a group, in that order. */
  function Columns(groups: map<string, seq<NewsItem>>, order: seq<string>): (cols: seq<Column>)
    ensures forall col :: col in cols <==>
      col.category in order && col.category in groups && col.items == groups[col.category]
    ensures var shown := Select(order, (c: string) => c in groups);
      |cols| == |shown| && forall i :: 0 <= i < |cols| ==> shown[i] in groups && cols[i] == Column(shown[i], groups[shown[i]])
    decreases |order|
  {
    if order == [] then []
    else
      var init, last := order[..|order| - 1], order[|order| - 1];
      assert order == init + [last];
      var rest := Columns(groups, init);
      if last in groups then rest + [Column(last, groups[last])] else rest
  }

  /** No element occurs twice in a sequence whose multiset counts are at most one. */
  lemma Distinct<T>(s: seq<T>, i: nat, j: nat)
    requires forall x :: multiset(s)[x] <= 1
    requires i < j < |s|
    ensures s[i] != s[j]
  {
    assert s == s[..j] + [s[j]] + s[j + 1..];
    assert s[i] in s[..j];
    assert multiset(s)[s[j]] == multiset(s[..j])[s[j]] + 1 + multiset(s[j + 1..])[s[j]];
  }

  /** The column categories are the listed categories that have a group, in the listed order;
      when no category is listed twice, no column appears twice. */
  lemma ColumnsFollowOrder(groups: map<string, seq<NewsItem>>, order: seq<string>)
    requires forall x :: multiset(order)[x] <= 1
    ensures var cols := Columns(groups, order);
      IsSubsequence(seq(|cols|, i requires 0 <= i < |cols| => cols[i].category), order)
      && forall i, j :: 0 <= i < j < |cols| ==> cols[i].category != cols[j].category
  {
    var cols := Columns(groups, order);
    var shown := Select(order, (c: string) => c in groups);
    assert seq(|cols|, i requires 0 <= i < |cols| => cols[i].category) == shown;
    assert forall x :: multiset(shown)[x] <= 1;
    forall i: nat, j: nat | i < j < |cols| ensures cols[i].category != cols[j].category {
      Distinct(shown, i, j);
    }
  }

  lemma CategoriesDistinct()
    ensures forall x :: multiset(Categories)[x] <= 1
  {
  }

  /** The browser page shows one column per listed category that has items, holding exactly the
      items the bot filter serves for it; items without a listed category are shown nowhere. */
  lemma BrowserColumns(news: seq<NewsItem>)
    ensures var cols := Columns(ByCategory(news), Categories);
      IsSubsequence(seq(|cols|, i requires 0 <= i < |cols| => cols[i].category), Categories)
      && forall i, j :: 0 <= i < j < |cols| ==> cols[i].category != cols[j].category
    ensures forall col :: col in Columns(ByCategory(news), Categories) ==>
      col.category in Categories && col.items != [] && col.items == InCategory(news, col.category)
    ensures forall x :: x in news && x.category.Some? && x.category.value in Categories ==>
      Column(x.category.value, InCategory(news, x.category.value)) in Columns(ByCategory(news), Categories)
  {
    assert Uncategorized !in Categories;
    CategoriesDistinct();
    ColumnsFollowOrder(ByCategory(news), Categories);
    ByCategoryPartitions(news);
    forall c | c in Categories {
      GroupIsCategoryFilter(news, c);
    }
    forall x | x in news && x.category.Some? && x.category.value in Categories
      ensures x.category.value in ByCategory(news)
    {
      assert KeyOf(x) == x.category.value;
    }
  }
}
