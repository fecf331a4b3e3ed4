/**
 * app/agents/search_agent.py: the search agent analyses the query, logs
 * in, searches once per analysed keyword (at most three), removes products
 * whose titles repeat, and keeps the ten cheapest.
 *
 * The analysis gateway, the login flow and the scraped pages are inputs
 * (see the DeepSeek and Goofish modules). The credentials come in already
 * validated: `Failure` carries the text of the validation error that
 * `UserCredentials(**…)` raises.
 */
module Search {
  import opened Wrappers
  import opened Text
  import opened Schema
  import opened BaseAgents
  import opened Goofish
  import opened DeepSeek

  /** At most this many analysed keywords are searched. */
  const MaxKeywords: nat := 3

  /** At most this many products survive the final filter. */
  const MaxResults: nat := 10

  // ---------------------------------------------------------------------
  // De-duplication by title
  // ---------------------------------------------------------------------

  /** The de-duplication key: the title lower-cased, then stripped. */
  function TitleKey(p: ProductInfo): string {
    Strip(Lower(p.title))
  }

  /** The keys of a list of products. */
  function Keys(ps: seq<ProductInfo>, key: ProductInfo -> string): set<string> {
    if ps == [] then {} else Keys(ps[..|ps| - 1], key) + {key(ps[|ps| - 1])}
  }

  predicate DistinctKeys(ps: seq<ProductInfo>, key: ProductInfo -> string) {
    forall i, j :: 0 <= i < j < |ps| ==> key(ps[i]) != key(ps[j])
  }

  /** Index `i` holds the first product with its key. */
  predicate FirstOfKey(ps: seq<ProductInfo>, i: int, key: ProductInfo -> string) {
    0 <= i < |ps| && forall j :: 0 <= j < i ==> key(ps[j]) != key(ps[i])
  }

  lemma KeysAppend(ps: seq<ProductInfo>, p: ProductInfo, key: ProductInfo -> string)
    ensures Keys(ps + [p], key) == Keys(ps, key) + {key(p)}
  {
    assert (ps + [p])[..|ps|] == ps;
  }

  /** A key is in `Keys(ps, key)` exactly when some product of `ps` has it. */
  lemma {:induction false} KeysExactly(ps: seq<ProductInfo>, key: ProductInfo -> string)
    ensures forall i :: 0 <= i < |ps| ==> key(ps[i]) in Keys(ps, key)
    ensures forall x :: x in Keys(ps, key) ==> exists i :: 0 <= i < |ps| && key(ps[i]) == x
    decreases |ps|
  {
    if ps != [] {
      var front := ps[..|ps| - 1];
      KeysExactly(front, key);
      forall x | x in Keys(ps, key)
        ensures exists i :: 0 <= i < |ps| && key(ps[i]) == x
      {
        if x in Keys(front, key) {
          var i :| 0 <= i < |front| && key(front[i]) == x;
          assert key(ps[i]) == x;
        } else {
          assert key(ps[|ps| - 1]) == x;
        }
      }
      forall i | 0 <= i < |ps|
        ensures key(ps[i]) in Keys(ps, key)
      {
        if i < |ps| - 1 {
          assert ps[i] == front[i];
        }
      }
    }
  }

  /**
   * What `_deduplicate_products` returns, defined on growing prefixes: the
   * last product is kept exactly when no kept product has its key.
   */
  function Dedup(ps: seq<ProductInfo>, key: ProductInfo -> string): (u: seq<ProductInfo>)
    ensures |u| <= |ps|
    decreases |ps|
  {
    if ps == [] then []
    else
      var last := ps[|ps| - 1];
      var u := Dedup(ps[..|ps| - 1], key);
      if key(last) in Keys(u, key) then u else u + [last]
  }

  /** De-duplication loses no key: the kept products have the keys of all products. */
  lemma {:induction false} DedupKeys(ps: seq<ProductInfo>, key: ProductInfo -> string)
    ensures Keys(Dedup(ps, key), key) == Keys(ps, key)
    decreases |ps|
  {
    if ps != [] {
      var last := ps[|ps| - 1];
      var u := Dedup(ps[..|ps| - 1], key);
      DedupKeys(ps[..|ps| - 1], key);
      KeysAppend(u, last, key);
    }
  }

  /** No two kept products share a key. */
  lemma {:induction false} DedupDistinct(ps: seq<ProductInfo>, key: ProductInfo -> string)
    ensures DistinctKeys(Dedup(ps, key), key)
    decreases |ps|
  {
    if ps != [] {
      var last := ps[|ps| - 1];
      var u := Dedup(ps[..|ps| - 1], key);
      DedupDistinct(ps[..|ps| - 1], key);
      if key(last) !in Keys(u, key) {
        KeysExactly(u, key);
        var r := u + [last];
        forall i, j | 0 <= i < j < |r|
          ensures key(r[i]) != key(r[j])
        {
          if j == |u| {
            assert key(u[i]) in Keys(u, key);
          } else {
            assert r[i] == u[i] && r[j] == u[j];
          }
        }
      }
    }
  }

  /** A key no product has is not among the keys. */
  lemma {:induction false} NotInKeys(ps: seq<ProductInfo>, x: string, key: ProductInfo -> string)
    requires forall j :: 0 <= j < |ps| ==> key(ps[j]) != x
    ensures x !in Keys(ps, key)
    decreases |ps|
  {
    if ps != [] {
      var front := ps[..|ps| - 1];
      assert forall j :: 0 <= j < |front| ==> front[j] == ps[j];
      NotInKeys(front, x, key);
    }
  }

  /** Every product standing first among those with its key is kept. */
  lemma {:induction false} DedupKeepsFirst(ps: seq<ProductInfo>, i: int, key: ProductInfo -> string)
    requires FirstOfKey(ps, i, key)
    ensures ps[i] in Dedup(ps, key)
    decreases |ps|
  {
    var n := |ps|;
    var front := ps[..n - 1];
    var last := ps[n - 1];
    var u := Dedup(front, key);
    assert forall j :: 0 <= j < n - 1 ==> front[j] == ps[j];
    if i < n - 1 {
      assert FirstOfKey(front, i, key);
      DedupKeepsFirst(front, i, key);
      assert ps[i] in u;
    } else {
      NotInKeys(front, key(last), key);
      DedupKeys(front, key);
      assert Dedup(ps, key) == u + [last];
    }
  }

  /** Every kept product stands first among those with its key. */
  lemma {:induction false} DedupKeepsOnlyFirst(ps: seq<ProductInfo>, p: ProductInfo, key: ProductInfo -> string)
    requires p in Dedup(ps, key)
    ensures exists i :: FirstOfKey(ps, i, key) && ps[i] == p
    decreases |ps|
  {
    var n := |ps|;
    var front := ps[..n - 1];
    var last := ps[n - 1];
    var u := Dedup(front, key);
    assert forall j :: 0 <= j < n - 1 ==> front[j] == ps[j];
    if p in u {
      DedupKeepsOnlyFirst(front, p, key);
      var i :| FirstOfKey(front, i, key) && front[i] == p;
      assert FirstOfKey(ps, i, key);
    } else {
      assert Dedup(ps, key) == u + [last];
      DedupKeys(front, key);
      assert p == last && key(last) !in Keys(front, key);
      KeysExactly(front, key);
      assert FirstOfKey(ps, n - 1, key);
    }
  }

  /** The products of `Dedup(ps, key)` are exactly those standing first among the products with their key. */
  lemma DedupKeepsFirstOccurrences(ps: seq<ProductInfo>, key: ProductInfo -> string)
    ensures forall p :: p in Dedup(ps, key) <==> exists i :: FirstOfKey(ps, i, key) && ps[i] == p
  {
    forall p | p in Dedup(ps, key)
      ensures exists i :: FirstOfKey(ps, i, key) && ps[i] == p
    {
      DedupKeepsOnlyFirst(ps, p, key);
    }
    forall i | FirstOfKey(ps, i, key)
      ensures ps[i] in Dedup(ps, key)
    {
      DedupKeepsFirst(ps, i, key);
    }
  }

  /** The positions in `ps` of the products `Dedup(ps, key)` keeps, in the order it keeps them. */
  function DedupIndices(ps: seq<ProductInfo>, key: ProductInfo -> string): seq<nat>
    decreases |ps|
  {
    if ps == [] then []
    else
      var idx := DedupIndices(ps[..|ps| - 1], key);
      if key(ps[|ps| - 1]) in Keys(Dedup(ps[..|ps| - 1], key), key) then idx else idx + [|ps| - 1]
  }

  /** `idx` picks the products `u` out of `ps` at strictly increasing first-of-key positions. */
  predicate PicksFirstInOrder(ps: seq<ProductInfo>, u: seq<ProductInfo>, idx: seq<nat>, key: ProductInfo -> string) {
    && |idx| == |u|
    && (forall k :: 0 <= k < |idx| ==> FirstOfKey(ps, idx[k], key) && u[k] == ps[idx[k]])
    && (forall k, l :: 0 <= k < l < |idx| ==> idx[k] < idx[l])
  }

  /** Picks made from a prefix of `ps` are picks from `ps`, all before the end of that prefix. */
  lemma PicksFromPrefix(ps: seq<ProductInfo>, m: nat, u: seq<ProductInfo>, idx: seq<nat>, key: ProductInfo -> string)
    requires m <= |ps| && PicksFirstInOrder(ps[..m], u, idx, key)
    ensures PicksFirstInOrder(ps, u, idx, key)
    ensures forall k :: 0 <= k < |idx| ==> idx[k] < m
  {
    forall k | 0 <= k < |idx|
      ensures FirstOfKey(ps, idx[k], key) && u[k] == ps[idx[k]]
    {
      assert FirstOfKey(ps[..m], idx[k], key);
      assert forall j :: 0 <= j <= idx[k] ==> ps[..m][j] == ps[j];
    }
  }

  /** A first-of-key position past all the picks extends them. */
  lemma PicksAppend(ps: seq<ProductInfo>, u: seq<ProductInfo>, idx: seq<nat>, i: nat, key: ProductInfo -> string)
    requires PicksFirstInOrder(ps, u, idx, key) && FirstOfKey(ps, i, key)
    requires forall k :: 0 <= k < |idx| ==> idx[k] < i
    ensures PicksFirstInOrder(ps, u + [ps[i]], idx + [i], key)
  {
    var u' := u + [ps[i]];
    var idx' := idx + [i];
    assert forall k :: 0 <= k < |idx| ==> u'[k] == u[k] && idx'[k] == idx[k];
  }

  /** The last product is the first with its key when the products before it keep no such key. */
  lemma FirstOfFreshKey(ps: seq<ProductInfo>, key: ProductInfo -> string)
    requires ps != [] && key(ps[|ps| - 1]) !in Keys(Dedup(ps[..|ps| - 1], key), key)
    ensures FirstOfKey(ps, |ps| - 1, key)
  {
    var front := ps[..|ps| - 1];
    DedupKeys(front, key);
    KeysExactly(front, key);
    assert forall j :: 0 <= j < |front| ==> front[j] == ps[j];
  }

  /**
   * De-duplication keeps the relative order: the kept products form a
   * subsequence of the input, each taken at the first position of its key.
   */
  lemma {:induction false} DedupIsOrderedSubsequence(ps: seq<ProductInfo>, key: ProductInfo -> string)
    ensures PicksFirstInOrder(ps, Dedup(ps, key), DedupIndices(ps, key), key)
    decreases |ps|
  {
    if ps != [] {
      DedupIsOrderedSubsequence(ps[..|ps| - 1], key);
      DedupStepPicks(ps, key);
    }
  }

  /** The picks made on all but the last product extend to all products, whether the last one is kept or dropped. */
  lemma DedupStepPicks(ps: seq<ProductInfo>, key: ProductInfo -> string)
    requires ps != []
    requires PicksFirstInOrder(ps[..|ps| - 1], Dedup(ps[..|ps| - 1], key), DedupIndices(ps[..|ps| - 1], key), key)
    ensures PicksFirstInOrder(ps, Dedup(ps, key), DedupIndices(ps, key), key)
  {
    var n := |ps|;
    var front := ps[..n - 1];
    var u := Dedup(front, key);
    var idx := DedupIndices(front, key);
    PicksFromPrefix(ps, n - 1, u, idx, key);
    if key(ps[n - 1]) !in Keys(u, key) {
      assert Dedup(ps, key) == u + [ps[n - 1]] && DedupIndices(ps, key) == idx + [n - 1];
      FirstOfFreshKey(ps, key);
      PicksAppend(ps, u, idx, n - 1, key);
    } else {
      assert Dedup(ps, key) == u && DedupIndices(ps, key) == idx;
    }
  }

  /** A product whose key was not seen before is appended to the kept ones. */
  lemma DedupKeepsNew(ps: seq<ProductInfo>, key: ProductInfo -> string)
    requires ps != []
    requires key(ps[|ps| - 1]) !in Keys(Dedup(ps[..|ps| - 1], key), key)
    ensures Dedup(ps, key) == Dedup(ps[..|ps| - 1], key) + [ps[|ps| - 1]]
  {
  }

  /** Dropping the last of products with distinct keys leaves distinct keys, none of them the last one's. */
  lemma DistinctFront(ps: seq<ProductInfo>, key: ProductInfo -> string)
    requires ps != [] && DistinctKeys(ps, key)
    ensures DistinctKeys(ps[..|ps| - 1], key)
    ensures key(ps[|ps| - 1]) !in Keys(ps[..|ps| - 1], key)
  {
    var front := ps[..|ps| - 1];
    assert forall j :: 0 <= j < |front| ==> front[j] == ps[j];
    NotInKeys(front, key(ps[|ps| - 1]), key);
  }

  lemma SplitLast(ps: seq<ProductInfo>)
    requires ps != []
    ensures ps == ps[..|ps| - 1] + [ps[|ps| - 1]]
  {
  }

  /** Products whose keys are already distinct pass through unchanged. */
  lemma {:induction false} DedupOfDistinct(ps: seq<ProductInfo>, key: ProductInfo -> string)
    requires DistinctKeys(ps, key)
    ensures Dedup(ps, key) == ps
    decreases |ps|
  {
    if ps != [] {
      DistinctFront(ps, key);
      DedupOfDistinct(ps[..|ps| - 1], key);
      DedupKeepsNew(ps, key);
      SplitLast(ps);
    }
  }

  /** De-duplicating twice is de-duplicating once. */
  lemma DedupIdempotent(ps: seq<ProductInfo>, key: ProductInfo -> string)
    ensures Dedup(Dedup(ps, key), key) == Dedup(ps, key)
  {
    DedupDistinct(ps, key);
    DedupOfDistinct(Dedup(ps, key), key);
  }

  // ---------------------------------------------------------------------
  // Sorting by price and keeping the cheapest
  // ---------------------------------------------------------------------

  predicate SortedByPrice(s: seq<ProductInfo>) {
    forall i, j :: 0 <= i < j < |s| ==> s[i].price <= s[j].price
  }

  /** Inserts `p` before the first product that costs at least as much. */
  function Insert(p: ProductInfo, s: seq<ProductInfo>): (r: seq<ProductInfo>)
    ensures |r| == |s| + 1
    ensures multiset(r) == multiset(s) + multiset{p}
    ensures r[0] == p || (s != [] && r[0] == s[0])
  {
    if s == [] || p.price <= s[0].price then [p] + s
    else
      assert s == [s[0]] + s[1..];
      [s[0]] + Insert(p, s[1..])
  }

  /** Inserting into a sorted list keeps it sorted. */
  lemma {:induction false} InsertSorted(p: ProductInfo, s: seq<ProductInfo>)
    requires SortedByPrice(s)
    ensures SortedByPrice(Insert(p, s))
  {
    if s != [] && p.price > s[0].price {
      var rest := Insert(p, s[1..]);
      InsertSorted(p, s[1..]);
      assert s[0].price <= rest[0].price;
      var r := [s[0]] + rest;
      forall i, j | 0 <= i < j < |r|
        ensures r[i].price <= r[j].price
      {
        if i == 0 {
          assert r[j] == rest[j - 1];
        } else {
          assert r[i] == rest[i - 1] && r[j] == rest[j - 1];
        }
      }
    }
  }

  /**
   * Python's `sorted(products, key=price)`: an insertion sort that puts
   * each product before all later-listed ones of equal price.
   */
  function SortByPrice(ps: seq<ProductInfo>): (s: seq<ProductInfo>)
    ensures multiset(s) == multiset(ps)
    ensures SortedByPrice(s)
  {
    if ps == [] then []
    else
      assert ps == [ps[0]] + ps[1..];
      InsertSorted(ps[0], SortByPrice(ps[1..]));
      Insert(ps[0], SortByPrice(ps[1..]))
  }

  /** The products of price `v`, in their order. */
  function WithPrice(s: seq<ProductInfo>, v: real): seq<ProductInfo> {
    if s == [] then [] else (if s[0].price == v then [s[0]] else []) + WithPrice(s[1..], v)
  }

  lemma WithPriceCons(x: ProductInfo, t: seq<ProductInfo>, v: real)
    ensures WithPrice([x] + t, v) == (if x.price == v then [x] else []) + WithPrice(t, v)
  {
    assert ([x] + t)[1..] == t;
  }

  /** Putting the head of `s` in front of `r` keeps the relation `r` has with the tail of `s`. */
  lemma WithPriceShift(r: seq<ProductInfo>, s: seq<ProductInfo>, mine: seq<ProductInfo>, v: real)
    requires s != [] && WithPrice(r, v) == mine + WithPrice(s[1..], v)
    requires mine == [] || s[0].price != v
    ensures WithPrice([s[0]] + r, v) == mine + WithPrice(s, v)
  {
    var tail := WithPrice(s[1..], v);
    WithPriceCons(s[0], r, v);
    WithPriceHead(s, v);
    if s[0].price == v {
      assert WithPrice([s[0]] + r, v) == [s[0]] + tail;
      assert WithPrice(s, v) == [s[0]] + tail;
    } else {
      assert WithPrice([s[0]] + r, v) == mine + tail;
      assert WithPrice(s, v) == tail;
    }
  }

  /** `WithPrice` of a non-empty list, unfolded once. */
  lemma WithPriceHead(s: seq<ProductInfo>, v: real)
    requires s != []
    ensures WithPrice(s, v) == (if s[0].price == v then [s[0]] else []) + WithPrice(s[1..], v)
  {
  }

  /** One step of `Insert` past a cheaper head. */
  lemma InsertPast(p: ProductInfo, s: seq<ProductInfo>)
    requires s != [] && p.price > s[0].price
    ensures Insert(p, s) == [s[0]] + Insert(p, s[1..])
  {
  }

  lemma {:induction false} InsertWithPrice(p: ProductInfo, s: seq<ProductInfo>, v: real)
    ensures WithPrice(Insert(p, s), v) == (if p.price == v then [p] else []) + WithPrice(s, v)
  {
    if s == [] || p.price <= s[0].price {
      WithPriceCons(p, s, v);
    } else {
      InsertWithPrice(p, s[1..], v);
      InsertPast(p, s);
      WithPriceShift(Insert(p, s[1..]), s, if p.price == v then [p] else [], v);
    }
  }

  /** The sort is stable: among products of one price, the listed order is kept. */
  lemma {:induction false} SortByPriceStable(ps: seq<ProductInfo>, v: real)
    ensures WithPrice(SortByPrice(ps), v) == WithPrice(ps, v)
  {
    if ps != [] {
      SortByPriceStable(ps[1..], v);
      InsertWithPrice(ps[0], SortByPrice(ps[1..]), v);
    }
  }

  /**
   * `_filter_products(products, analysis)`: the first ten of the products
   * sorted by price. The analysis is accepted and not used.
   */
  function FilterProducts(products: seq<ProductInfo>, analysis: Analysis): (r: seq<ProductInfo>)
    ensures |r| == if |products| < MaxResults then |products| else MaxResults
    ensures SortedByPrice(r)
    ensures multiset(r) <= multiset(products)
  {
    var sorted := SortByPrice(products);
    var n := if |products| < MaxResults then |products| else MaxResults;
    assert sorted == sorted[..n] + sorted[n..];
    sorted[..n]
  }

  /** A product of `sorted` left over once its prefix `r` is taken out lies past that prefix. */
  lemma DroppedLiesPast(sorted: seq<ProductInfo>, r: seq<ProductInfo>, q: ProductInfo)
    requires |r| <= |sorted| && r == sorted[..|r|]
    requires q in multiset(sorted) - multiset(r)
    ensures exists j :: |r| <= j < |sorted| && sorted[j] == q
  {
    var dropped := sorted[|r|..];
    assert sorted == r + dropped;
    assert q in dropped;
    var j :| 0 <= j < |dropped| && dropped[j] == q;
    assert sorted[|r| + j] == q;
  }

  /** In a price-sorted list, whatever lies past a prefix `r` costs at least as much as each product of `r`. */
  lemma DroppedCostAtLeast(sorted: seq<ProductInfo>, r: seq<ProductInfo>, all: multiset<ProductInfo>)
    requires SortedByPrice(sorted) && |r| <= |sorted| && r == sorted[..|r|]
    requires all == multiset(sorted)
    ensures forall q, k :: q in all - multiset(r) && 0 <= k < |r| ==> r[k].price <= q.price
  {
    forall q, k | q in all - multiset(r) && 0 <= k < |r|
      ensures r[k].price <= q.price
    {
      DroppedLiesPast(sorted, r, q);
      var j :| |r| <= j < |sorted| && sorted[j] == q;
      assert r[k] == sorted[k];
    }
  }

  /** The filter keeps a prefix of the sorted products. */
  lemma FilterIsPrefix(products: seq<ProductInfo>, analysis: Analysis)
    ensures var r := FilterProducts(products, analysis);
      |r| <= |SortByPrice(products)| && r == SortByPrice(products)[..|r|]
  {
  }

  /** Every product the filter drops costs at least as much as every product it keeps. */
  lemma FilterKeepsCheapest(products: seq<ProductInfo>, analysis: Analysis)
    ensures var r := FilterProducts(products, analysis);
      forall q, k :: q in multiset(products) - multiset(r) && 0 <= k < |r| ==> r[k].price <= q.price
  {
    FilterIsPrefix(products, analysis);
    DroppedCostAtLeast(SortByPrice(products), FilterProducts(products, analysis), multiset(products));
  }

  // ---------------------------------------------------------------------
  // The agent
  // ---------------------------------------------------------------------

  /** The task data the search agent reads; a missing query is "", a missing price 0. */
  datatype SearchTask = SearchTask(query: Option<string>, maxPrice: Option<real>, credentials: Result<UserCredentials>)

  /** The reply of `execute`; a failure always carries an empty product list. */
  datatype SearchResult =
    | SearchSucceeded(products: seq<ProductInfo>, analysis: Analysis, totalFound: nat)
    | SearchFailed(error: string)

  /** `str` of the `AttributeError` raised when a value of type `typeName` has no attribute `attr`. */
  function AttributeErrorText(typeName: string, attr: string): string {
    "'" + typeName + "' object has no attribute '" + attr + "'"
  }

  /** `str` of the `TypeError` raised when a value of type `typeName` is sliced. */
  function NotSubscriptableText(typeName: string): string {
    "'" + typeName + "' object is not subscriptable"
  }

  /** `str` of the `TypeError` raised when a dictionary is sliced. */
  const UnhashableSliceText: string := "unhashable type: 'slice'"

  /** How many of `n` keywords `[:3]` keeps. */
  function Capped(n: nat): nat {
    if n < MaxKeywords then n else MaxKeywords
  }

  /**
   * `requirement_analysis.get("keywords", [query])[:3]`, as the loop
   * iterates it: the keywords searched, or the text of the exception that
   * ends the search. A parsed value that is not an object has no `get`;
   * only a missing key falls back to the query; a string is sliced to its
   * first three characters, each searched alone; null, a number or a
   * boolean cannot be sliced, nor can an object.
   */
  function SearchKeywords(analysis: Analysis, query: string): (r: Result<seq<KeywordItem>>)
    ensures r.Success? ==> |r.value| <= MaxKeywords
    ensures analysis.NotAnObject? ==> r == Failure(AttributeErrorText(analysis.typeName, "get"))
    ensures analysis.AnalysisObject? && analysis.keywords.NoKeywords? ==> r == Success([KeywordString(query)])
    ensures analysis.AnalysisObject? && analysis.keywords.KeywordArray? ==>
      var items := analysis.keywords.items;
      r.Success? && |r.value| == Capped(|items|) && r.value == items[..|r.value|]
    ensures analysis.AnalysisObject? && analysis.keywords.KeywordText? ==>
      var t := analysis.keywords.text;
      && r.Success? && |r.value| == Capped(|t|)
      && forall k :: 0 <= k < |r.value| ==> r.value[k] == KeywordString([t[k]])
    ensures analysis.AnalysisObject? && analysis.keywords.KeywordObject? ==> r == Failure(UnhashableSliceText)
    ensures analysis.AnalysisObject? && analysis.keywords.KeywordScalar? ==>
      r == Failure(NotSubscriptableText(analysis.keywords.typeName))
  {
    match analysis
    case NotAnObject(typeName) => Failure(AttributeErrorText(typeName, "get"))
    case AnalysisObject(keywords, _, _, _, _) =>
      match keywords
      case NoKeywords => Success([KeywordString(query)])
      case KeywordArray(items) => Success(items[..Capped(|items|)])
      case KeywordText(text) =>
        var first := text[..Capped(|text|)];
        Success(seq(|first|, k requires 0 <= k < |first| => KeywordString([first[k]])))
      case KeywordObject => Failure(UnhashableSliceText)
      case KeywordScalar(typeName) => Failure(NotSubscriptableText(typeName))
  }

  /** Every keyword is a string. */
  predicate AllStrings(keywords: seq<KeywordItem>) {
    forall k :: 0 <= k < |keywords| ==> keywords[k].KeywordString?
  }

  /** All keywords are strings when those before the last one are and the last one is. */
  lemma AllStringsFront(keywords: seq<KeywordItem>)
    requires keywords != []
    ensures AllStrings(keywords) <==> AllStrings(keywords[..|keywords| - 1]) && keywords[|keywords| - 1].KeywordString?
  {
    assert forall k :: 0 <= k < |keywords| - 1 ==> keywords[..|keywords| - 1][k] == keywords[k];
  }

  /**
   * The loop over the keywords: each keyword's results, appended in
   * keyword order. With a driver, a keyword that is not a string makes
   * `urllib.parse.quote` raise; `search_products` then falls back to the
   * mock products, whose `query.lower()` raises in turn, and the loop ends
   * with that error. Without a driver such a keyword finds nothing.
   */
  function SearchAll(svc: GoofishService, keywords: seq<KeywordItem>, maxPrice: real,
                     pages: seq<ScrapedPage>, draws: seq<seq<MockDraw>>): (r: Result<seq<ProductInfo>>)
    reads svc
    requires |keywords| <= |pages| && |keywords| <= |draws|
    requires forall i :: 0 <= i < |keywords| ==> ValidDraws(draws[i], maxPrice)
    ensures !svc.hasDriver ==> r == Success([])
    ensures svc.hasDriver ==> (r.Success? <==> AllStrings(keywords))
    ensures r.Success? && svc.hasDriver && keywords != [] ==> |r.value| > 0
    ensures r.Success? ==> forall k :: 0 <= k < |r.value| ==> r.value[k].price > 0.0
  {
    if keywords == [] then Success([])
    else
      var n := |keywords| - 1;
      AllStringsFront(keywords);
      var front := SearchAll(svc, keywords[..n], maxPrice, pages, draws);
      if front.Failure? then front
      else match keywords[n]
        case KeywordString(keyword) =>
          Success(front.value + svc.SearchProducts(keyword, maxPrice, pages[n], draws[n]))
        case KeywordOther(typeName) =>
          if svc.hasDriver then Failure(AttributeErrorText(typeName, "lower")) else front
  }

  /** With a driver, the search ends with the error of the first keyword that is not a string. */
  lemma {:induction false} SearchFailsAtFirstOther(svc: GoofishService, keywords: seq<KeywordItem>, maxPrice: real,
                                                   pages: seq<ScrapedPage>, draws: seq<seq<MockDraw>>, i: nat)
    requires |keywords| <= |pages| && |keywords| <= |draws|
    requires forall j :: 0 <= j < |keywords| ==> ValidDraws(draws[j], maxPrice)
    requires svc.hasDriver && i < |keywords| && keywords[i].KeywordOther?
    requires forall j :: 0 <= j < i ==> keywords[j].KeywordString?
    ensures SearchAll(svc, keywords, maxPrice, pages, draws) == Failure(AttributeErrorText(keywords[i].typeName, "lower"))
    decreases |keywords|
  {
    var n := |keywords| - 1;
    var prefix := keywords[..n];
    assert forall k :: 0 <= k < n ==> prefix[k] == keywords[k];
    if i < n {
      SearchFailsAtFirstOther(svc, prefix, maxPrice, pages, draws, i);
    } else {
      assert AllStrings(prefix);
    }
  }

  /** The products the search collects for `analysis`, or the error that ends it. */
  function SearchFor(svc: GoofishService, analysis: Analysis, query: string, maxPrice: real,
                     pages: seq<ScrapedPage>, draws: seq<seq<MockDraw>>): Result<seq<ProductInfo>>
    reads svc
    requires MaxKeywords <= |pages| && ValidSearchDraws(draws, maxPrice)
  {
    match SearchKeywords(analysis, query)
    case Failure(e) => Failure(e)
    case Success(keywords) => SearchAll(svc, keywords, maxPrice, pages, draws)
  }

  /** The analysis `execute` obtains for `query` from a client in the given mode. */
  function AnalysisFor(mockMode: bool, query: string, outcomes: seq<ApiOutcome>, loads: string -> Option<Analysis>): Analysis
    requires 3 <= |outcomes|
  {
    AnalysisResult(query, ChatCompletionSpec(mockMode, DeepSeekClient.AnalysisPrompt(query), 3, outcomes).reply, loads)
  }

  /** The draws for each of the three possible searches fit the ranges of the mock generator. */
  predicate ValidSearchDraws(draws: seq<seq<MockDraw>>, maxPrice: real) {
    |draws| >= MaxKeywords && forall i :: 0 <= i < MaxKeywords ==> ValidDraws(draws[i], maxPrice)
  }

  class SearchAgent {
    const base: BaseAgent
    const goofishService: GoofishService

    /** A new search agent of type "search_agent" with its own, not yet started, service. */
    constructor (agentId: string, now: int)
      ensures fresh(base) && fresh(goofishService)
      ensures base.agentId == agentId && base.agentType == "search_agent" && base.status == "idle"
      ensures !goofishService.hasDriver && !goofishService.isLoggedIn
    {
      base := new BaseAgent(agentId, "search_agent", now);
      goofishService := new GoofishService();
    }

    /** `_deduplicate_products`: keeps the first product of each title key, in order. */
    method DeduplicateProducts(products: seq<ProductInfo>) returns (unique: seq<ProductInfo>)
      ensures unique == Dedup(products, TitleKey)
    {
      var seenTitles: set<string> := {};
      unique := [];
      for i := 0 to |products|
        invariant unique == Dedup(products[..i], TitleKey)
        invariant seenTitles == Keys(unique, TitleKey)
      {
        assert products[..i + 1][..i] == products[..i];
        var titleKey := TitleKey(products[i]);
        if titleKey !in seenTitles {
          KeysAppend(unique, products[i], TitleKey);
          seenTitles := seenTitles + {titleKey};
          unique := unique + [products[i]];
        }
      }
      assert products[..|products|] == products;
    }

    /**
     * `execute(task_data)`. Invalid credentials fail with the validation
     * error and status "failed"; a failed login returns "登录失败" ("login
     * failed") and leaves the status at "logging_in"; otherwise each
     * keyword is searched and the de-duplicated, filtered products are
     * returned with status "completed".
     */
    method Execute(task: SearchTask, client: DeepSeekClient, outcomes: seq<ApiOutcome>,
                   loads: string -> Option<Analysis>, login: LoginOutcome,
                   pages: seq<ScrapedPage>, draws: seq<seq<MockDraw>>, now: int)
      returns (result: SearchResult)
      requires 3 <= |outcomes| && MaxKeywords <= |pages|
      requires ValidSearchDraws(draws, task.maxPrice.GetOr(0.0))
      modifies base, goofishService, client
      ensures task.credentials.Failure? ==>
        && result == SearchFailed(task.credentials.error)
        && base.status == "failed"
        && unchanged(client) && unchanged(goofishService)
      ensures task.credentials.Success? && !login.Accepted? ==>
        && result == SearchFailed("登录失败")
        && base.status == "logging_in"
      ensures task.credentials.Success? && login.Accepted? ==>
        var query := task.query.GetOr("");
        var analysis := AnalysisFor(old(client.mockMode), query, outcomes, loads);
        var found := SearchFor(goofishService, analysis, query, task.maxPrice.GetOr(0.0), pages, draws);
        && goofishService.hasDriver && goofishService.isLoggedIn
        && (found.Failure? ==> result == SearchFailed(found.error) && base.status == "failed")
        && (found.Success? ==>
              var filtered := FilterProducts(Dedup(found.value, TitleKey), analysis);
              result == SearchSucceeded(filtered, analysis, |filtered|) && base.status == "completed")
      ensures result.SearchFailed? || base.status == "completed"
    {
      base.UpdateStatus("analyzing_requirement", now);
      var query := task.query.GetOr("");
      var maxPrice := task.maxPrice.GetOr(0.0);
      if task.credentials.Failure? {
        base.UpdateStatus("failed", now);
        return SearchFailed(task.credentials.error);
      }

      var analysis := client.AnalyzeProductRequirement(query, outcomes, loads);

      base.UpdateStatus("logging_in", now);
      var loginSuccess := goofishService.Login(login);
      if !loginSuccess {
        return SearchFailed("登录失败");
      }

      base.UpdateStatus("searching_products", now);
      var keywords := SearchKeywords(analysis, query);
      if keywords.Failure? {
        base.UpdateStatus("failed", now);
        return SearchFailed(keywords.error);
      }
      var allProducts := SearchEach(keywords.value, maxPrice, pages, draws);
      if allProducts.Failure? {
        base.UpdateStatus("failed", now);
        return SearchFailed(allProducts.error);
      }
      var uniqueProducts := DeduplicateProducts(allProducts.value);
      var filteredProducts := FilterProducts(uniqueProducts, analysis);

      base.UpdateStatus("completed", now);
      return SearchSucceeded(filteredProducts, analysis, |filteredProducts|);
    }

    /** The loop of `execute` over the keywords, stopping at the first keyword whose search raises. */
    method SearchEach(keywords: seq<KeywordItem>, maxPrice: real, pages: seq<ScrapedPage>, draws: seq<seq<MockDraw>>)
      returns (found: Result<seq<ProductInfo>>)
      requires |keywords| <= |pages| && |keywords| <= |draws|
      requires forall i :: 0 <= i < |keywords| ==> ValidDraws(draws[i], maxPrice)
      ensures found == SearchAll(goofishService, keywords, maxPrice, pages, draws)
    {
      var allProducts := [];
      for i := 0 to |keywords|
        invariant SearchAll(goofishService, keywords[..i], maxPrice, pages, draws) == Success(allProducts)
      {
        assert keywords[..i + 1][..i] == keywords[..i];
        match keywords[i]
        case KeywordString(keyword) =>
          var products := goofishService.SearchProducts(keyword, maxPrice, pages[i], draws[i]);
          allProducts := allProducts + products;
        case KeywordOther(typeName) =>
          if goofishService.hasDriver {
            assert forall j :: 0 <= j < i ==> keywords[..i][j] == keywords[j];
            SearchFailsAtFirstOther(goofishService, keywords, maxPrice, pages, draws, i);
            return Failure(AttributeErrorText(typeName, "lower"));
          }
      }
      assert keywords[..|keywords|] == keywords;
      return Success(allProducts);
    }

    /** `close`: closes the agent's service. */
    method Close()
      modifies goofishService
      ensures !goofishService.hasDriver && !goofishService.isLoggedIn
    {
      goofishService.Close();
    }
  }

  /**
   * After a successful login a search with at least one keyword, all of
   * them strings, finds at least one product, and what is returned is
   * sorted by price and at most ten long.
   */
  lemma SucceededSearchFindsProducts(svc: GoofishService, keywords: seq<KeywordItem>, maxPrice: real,
                                     pages: seq<ScrapedPage>, draws: seq<seq<MockDraw>>, analysis: Analysis)
    requires |keywords| <= |pages| && |keywords| <= |draws|
    requires forall i :: 0 <= i < |keywords| ==> ValidDraws(draws[i], maxPrice)
    requires svc.hasDriver && keywords != [] && AllStrings(keywords)
    ensures var found := SearchAll(svc, keywords, maxPrice, pages, draws);
      found.Success? &&
      var r := FilterProducts(Dedup(found.value, TitleKey), analysis);
      0 < |r| <= MaxResults && SortedByPrice(r)
  {
    var found := SearchAll(svc, keywords, maxPrice, pages, draws).value;
    KeysExactly(found, TitleKey);
    DedupKeys(found, TitleKey);
  }
}
