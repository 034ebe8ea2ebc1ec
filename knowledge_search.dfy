/**
 * The mock knowledge search (`ChromaService.search`): every entry of the
 * troubleshooting map is scored by how many query tokens occur in its
 * lower-cased text, entries without overlap are dropped, the hits are
 * sorted by similarity (highest first, ties in map order) and the first
 * `limit` are returned. The map is the service's state; reading it from a
 * JSON file is left out.
 */
module KnowledgeSearch {
  import opened Wrappers
  import Text

  /** How many causes feed a hit's summary and how many action values its steps. */
  const PreviewSize := 3

  /** An action of the map; `value` is `None` when the dict has no "value" key. */
  datatype KnowledgeAction = KnowledgeAction(value: Option<string>)

  /** A label's entry; a missing "causes" or "actions" key reads as an empty list. */
  datatype Payload = Payload(causes: seq<string>, actions: seq<KnowledgeAction>)

  /** One `label: payload` item of the map, in the map's order. */
  datatype Entry = Entry(flowLabel: string, payload: Payload)

  /** `KnowledgeHit`. */
  datatype KnowledgeHit = KnowledgeHit(flowLabel: string, similarity: real, summary: string, steps: seq<string>)

  /** `action.get("value", "")`. */
  function ValueOf(a: KnowledgeAction): string {
    if a.value.Some? then a.value.value else ""
  }

  function Values(actions: seq<KnowledgeAction>): (r: seq<string>)
    ensures |r| == |actions|
    ensures forall i :: 0 <= i < |r| ==> r[i] == ValueOf(actions[i])
  {
    seq(|actions|, i requires 0 <= i < |actions| => ValueOf(actions[i]))
  }

  /** `query.lower().split()`. */
  function Tokens(query: string): (r: seq<string>)
    ensures [] !in r
  {
    Text.SplitWhitespace(Text.Lower(query))
  }

  /** The text an entry is matched against: label, causes and action values, lower-cased. */
  function Blob(e: Entry): string {
    Text.Lower(e.flowLabel + " " + Text.Join(e.payload.causes, " ") + " " + Text.Join(Values(e.payload.actions), " "))
  }

  /** How many elements satisfy `p`, duplicates included. */
  function Count<T>(xs: seq<T>, p: T -> bool): (n: nat)
    ensures n <= |xs|
    ensures n == 0 <==> forall i :: 0 <= i < |xs| ==> !p(xs[i])
  {
    if xs == [] then 0
    else
      var init := xs[..|xs| - 1];
      assert forall i :: 0 <= i < |init| ==> init[i] == xs[i];
      Count(init, p) + (if p(xs[|xs| - 1]) then 1 else 0)
  }

  /** The number of query tokens found in `blob`. */
  function Overlap(tokens: seq<string>, blob: string): nat {
    Count(tokens, t => Text.Contains(blob, t))
  }

  /** `min(1.0, overlap / max(1, tokenCount))`. */
  function Similarity(overlap: nat, tokenCount: nat): (r: real)
    ensures 0 < overlap ==> 0.0 < r
    ensures r <= 1.0
    ensures overlap <= tokenCount && 0 < tokenCount ==> r == overlap as real / tokenCount as real
  {
    var denominator := if 1 < tokenCount then tokenCount else 1;
    var ratio := overlap as real / denominator as real;
    if ratio < 1.0 then ratio else 1.0
  }

  /** `xs[:limit]`: a negative limit counts from the end. */
  function Take<T>(xs: seq<T>, limit: int): (r: seq<T>)
    ensures 0 <= limit ==> |r| == if limit < |xs| then limit else |xs|
    ensures limit < 0 ==> |r| == if 0 < |xs| + limit then |xs| + limit else 0
    ensures r == xs[..|r|]
  {
    if 0 <= limit then (if limit < |xs| then xs[..limit] else xs)
    else if 0 < |xs| + limit then xs[..|xs| + limit]
    else []
  }

  /** An entry matches when at least one query token occurs in its text. */
  predicate Matches(e: Entry, tokens: seq<string>) {
    Overlap(tokens, Blob(e)) > 0
  }

  /**
   * The hit built for an entry. For a matching entry the similarity is the
   * share of query tokens found (the `min` never caps it), and the steps
   * are the values of the first actions.
   */
  function HitOf(e: Entry, tokens: seq<string>): (r: KnowledgeHit)
    ensures r.flowLabel == e.flowLabel
    ensures Matches(e, tokens) ==>
      0.0 < r.similarity <= 1.0 && r.similarity == Overlap(tokens, Blob(e)) as real / |tokens| as real
    ensures |r.steps| == if |e.payload.actions| < PreviewSize then |e.payload.actions| else PreviewSize
    ensures forall i :: 0 <= i < |r.steps| ==> r.steps[i] == ValueOf(e.payload.actions[i])
    ensures var c := e.payload.causes;
            r.summary == if |c| == 0 then ""
                         else if |c| == 1 then c[0]
                         else if |c| == 2 then c[0] + "; " + c[1]
                         else c[0] + "; " + c[1] + "; " + c[2]
  {
    PreviewJoin(e.payload.causes);
    KnowledgeHit(e.flowLabel, Similarity(Overlap(tokens, Blob(e)), |tokens|),
                 Text.Join(Take(e.payload.causes, PreviewSize), "; "), Take(Values(e.payload.actions), PreviewSize))
  }

  /** The first three causes joined with "; ", written out case by case. */
  lemma PreviewJoin(c: seq<string>)
    ensures Text.Join(Take(c, PreviewSize), "; ")
            == if |c| == 0 then ""
               else if |c| == 1 then c[0]
               else if |c| == 2 then c[0] + "; " + c[1]
               else c[0] + "; " + c[1] + "; " + c[2]
  {
    if |c| >= 3 {
      assert Take(c, PreviewSize) == [c[0], c[1], c[2]];
      assert [c[0], c[1], c[2]][1..] == [c[1], c[2]];
      assert [c[1], c[2]][1..] == [c[2]];
      assert Text.Join([c[1], c[2]], "; ") == c[1] + "; " + c[2];
      assert Text.Join([c[0], c[1], c[2]], "; ") == c[0] + "; " + (c[1] + "; " + c[2]);
    } else if |c| == 2 {
      assert Take(c, PreviewSize) == [c[0], c[1]];
      assert [c[0], c[1]][1..] == [c[1]];
    } else {
      assert Take(c, PreviewSize) == c;
    }
  }

  function Sim(h: KnowledgeHit): real {
    h.similarity
  }

  // ---------------------------------------------------------------------
  // Filtering in order
  // ---------------------------------------------------------------------

  /** `[f(x) for x in xs if keep(x)]`. */
  function FilterMap<T, U>(xs: seq<T>, keep: T -> bool, f: T -> U): seq<U> {
    if xs == [] then []
    else FilterMap(xs[..|xs| - 1], keep, f) + (if keep(xs[|xs| - 1]) then [f(xs[|xs| - 1])] else [])
  }

  /** Exactly the images of the kept elements appear. */
  lemma {:induction false} FilterMapExact<T, U>(xs: seq<T>, keep: T -> bool, f: T -> U)
    ensures forall i :: 0 <= i < |xs| && keep(xs[i]) ==> f(xs[i]) in FilterMap(xs, keep, f)
    ensures forall y :: y in FilterMap(xs, keep, f) ==> exists i :: 0 <= i < |xs| && keep(xs[i]) && y == f(xs[i])
    ensures |FilterMap(xs, keep, f)| <= |xs|
  {
    if xs != [] {
      var init := xs[..|xs| - 1];
      FilterMapExact(init, keep, f);
      assert forall i :: 0 <= i < |init| ==> init[i] == xs[i];
    }
  }

  /** The hits in map order, before sorting. */
  function Scored(index: seq<Entry>, tokens: seq<string>): seq<KnowledgeHit> {
    FilterMap(index, e => Matches(e, tokens), e => HitOf(e, tokens))
  }

  /**
   * A hit is produced for every entry sharing a token with the query and
   * for no other, and its similarity lies in (0, 1].
   */
  lemma ScoredExact(index: seq<Entry>, tokens: seq<string>)
    ensures forall i :: 0 <= i < |index| && Matches(index[i], tokens) ==> HitOf(index[i], tokens) in Scored(index, tokens)
    ensures forall h :: h in Scored(index, tokens) ==>
      (exists i :: 0 <= i < |index| && Matches(index[i], tokens) && h == HitOf(index[i], tokens))
    ensures forall h :: h in Scored(index, tokens) ==> 0.0 < h.similarity <= 1.0
    ensures |Scored(index, tokens)| <= |index|
  {
    FilterMapExact(index, e => Matches(e, tokens), e => HitOf(e, tokens));
  }

  // ---------------------------------------------------------------------
  // `list.sort(key=..., reverse=True)`: a stable sort, highest key first
  // ---------------------------------------------------------------------

  ghost predicate SortedDesc<T>(xs: seq<T>, key: T -> real) {
    forall i, j :: 0 <= i < j < |xs| ==> key(xs[i]) >= key(xs[j])
  }

  /** Places `x` after every element whose key is at least its own. */
  function Insert<T>(ys: seq<T>, x: T, key: T -> real): seq<T> {
    if ys == [] then [x]
    else if key(ys[|ys| - 1]) >= key(x) then ys + [x]
    else Insert(ys[..|ys| - 1], x, key) + [ys[|ys| - 1]]
  }

  /** The sorted list, as a stable insertion of each element in turn. */
  function StableSort<T>(xs: seq<T>, key: T -> real): seq<T> {
    if xs == [] then []
    else Insert(StableSort(xs[..|xs| - 1], key), xs[|xs| - 1], key)
  }

  /** The elements whose key is `v`, in order. */
  function WithKey<T>(xs: seq<T>, key: T -> real, v: real): seq<T> {
    if xs == [] then []
    else WithKey(xs[..|xs| - 1], key, v) + (if key(xs[|xs| - 1]) == v then [xs[|xs| - 1]] else [])
  }

  lemma {:induction false} InsertPermutes<T>(ys: seq<T>, x: T, key: T -> real)
    ensures multiset(Insert(ys, x, key)) == multiset(ys) + multiset{x}
  {
    if ys != [] && key(ys[|ys| - 1]) < key(x) {
      var init, last := ys[..|ys| - 1], ys[|ys| - 1];
      InsertPermutes(init, x, key);
      assert ys == init + [last];
    }
  }

  lemma {:induction false} InsertFrom<T>(ys: seq<T>, x: T, key: T -> real)
    ensures forall z :: z in Insert(ys, x, key) ==> z in ys || z == x
  {
    if ys != [] && key(ys[|ys| - 1]) < key(x) {
      var init := ys[..|ys| - 1];
      InsertFrom(init, x, key);
      assert forall z :: z in init ==> z in ys;
    }
  }

  lemma {:induction false} InsertKeepsTies<T>(ys: seq<T>, x: T, key: T -> real, v: real)
    ensures WithKey(Insert(ys, x, key), key, v) == WithKey(ys, key, v) + (if key(x) == v then [x] else [])
  {
    if ys != [] && key(ys[|ys| - 1]) < key(x) {
      var init, last := ys[..|ys| - 1], ys[|ys| - 1];
      InsertKeepsTies(init, x, key, v);
      var inserted := Insert(init, x, key);
      assert (inserted + [last])[..|inserted|] == inserted;
    } else if ys != [] {
      assert (ys + [x])[..|ys|] == ys;
    }
  }

  lemma {:induction false} InsertSorted<T>(ys: seq<T>, x: T, key: T -> real)
    requires SortedDesc(ys, key)
    ensures SortedDesc(Insert(ys, x, key), key)
  {
    if ys != [] && key(ys[|ys| - 1]) < key(x) {
      var init, last := ys[..|ys| - 1], ys[|ys| - 1];
      InsertSorted(init, x, key);
      InsertFrom(init, x, key);
      var inserted := Insert(init, x, key);
      forall k | 0 <= k < |inserted|
        ensures key(inserted[k]) >= key(last)
      {
        if inserted[k] != x {
          assert inserted[k] in inserted;
          var m :| 0 <= m < |init| && init[m] == inserted[k];
          assert ys[m] == init[m];
        }
      }
    }
  }

  lemma {:induction false} StableSortPermutes<T>(xs: seq<T>, key: T -> real)
    ensures multiset(StableSort(xs, key)) == multiset(xs)
  {
    if xs != [] {
      var init, last := xs[..|xs| - 1], xs[|xs| - 1];
      StableSortPermutes(init, key);
      InsertPermutes(StableSort(init, key), last, key);
      assert StableSort(xs, key) == Insert(StableSort(init, key), last, key);
      assert xs == init + [last];
      assert multiset(xs) == multiset(init) + multiset{last};
    }
  }

  lemma {:induction false} StableSortOrders<T>(xs: seq<T>, key: T -> real)
    ensures SortedDesc(StableSort(xs, key), key)
  {
    if xs != [] {
      StableSortOrders(xs[..|xs| - 1], key);
      InsertSorted(StableSort(xs[..|xs| - 1], key), xs[|xs| - 1], key);
    }
  }

  lemma {:induction false} StableSortKeepsTies<T>(xs: seq<T>, key: T -> real, v: real)
    ensures WithKey(StableSort(xs, key), key, v) == WithKey(xs, key, v)
  {
    if xs != [] {
      var init := xs[..|xs| - 1];
      StableSortKeepsTies(init, key, v);
      InsertKeepsTies(StableSort(init, key), xs[|xs| - 1], key, v);
    }
  }

  /** The sort keeps the elements, orders them highest key first, and keeps ties in their original order. */
  lemma StableSortSpec<T>(xs: seq<T>, key: T -> real)
    ensures multiset(StableSort(xs, key)) == multiset(xs)
    ensures SortedDesc(StableSort(xs, key), key)
    ensures forall v :: WithKey(StableSort(xs, key), key, v) == WithKey(xs, key, v)
  {
    StableSortPermutes(xs, key);
    StableSortOrders(xs, key);
    forall v
      ensures WithKey(StableSort(xs, key), key, v) == WithKey(xs, key, v)
    {
      StableSortKeepsTies(xs, key, v);
    }
  }

  // ---------------------------------------------------------------------
  // The service
  // ---------------------------------------------------------------------

  /** What `search(query, limit)` returns for the map `index`. */
  function SearchResult(index: seq<Entry>, query: string, limit: int): seq<KnowledgeHit> {
    Take(StableSort(Scored(index, Tokens(query)), Sim), limit)
  }

  /** `ChromaService` with its loaded map. */
  class KnowledgeBase {
    var index: seq<Entry>

    constructor (index: seq<Entry>)
      ensures this.index == index
    {
      this.index := index;
    }

    /** `search`: hits are appended in map order, then sorted and truncated. */
    method Search(query: string, limit: int) returns (result: seq<KnowledgeHit>)
      ensures result == SearchResult(index, query, limit)
    {
      var tokens := Tokens(query);
      var hits: seq<KnowledgeHit> := [];
      for i := 0 to |index|
        invariant hits == Scored(index[..i], tokens)
      {
        var entry := index[i];
        assert index[..i + 1] == index[..i] + [entry];
        var overlap := Overlap(tokens, Blob(entry));
        if overlap == 0 {
          continue;
        }
        hits := hits + [HitOf(entry, tokens)];
      }
      assert index[..|index|] == index;
      hits := StableSort(hits, Sim);
      result := Take(hits, limit);
    }
  }

  /**
   * The first `limit` elements of the sorted list: at most `limit` of
   * them, in order, all from `xs`, and all of `xs` when the limit allows.
   */
  lemma TopOfSorted<T>(xs: seq<T>, key: T -> real, limit: int)
    ensures 0 <= limit ==> |Take(StableSort(xs, key), limit)| <= limit
    ensures SortedDesc(Take(StableSort(xs, key), limit), key)
    ensures forall y :: y in Take(StableSort(xs, key), limit) ==> y in xs
    ensures |xs| <= limit ==> multiset(Take(StableSort(xs, key), limit)) == multiset(xs)
  {
    var sorted := StableSort(xs, key);
    var r := Take(sorted, limit);
    StableSortPermutes(xs, key);
    StableSortOrders(xs, key);
    forall y | y in r
      ensures y in xs
    {
      assert y in multiset(sorted);
    }
  }

  /** None of the elements the limit cuts off ranks above one that is kept. */
  lemma TopOfSortedRanks<T>(xs: seq<T>, key: T -> real, limit: int)
    ensures forall x, y ::
      (x in multiset(xs) - multiset(Take(StableSort(xs, key), limit)) && y in Take(StableSort(xs, key), limit))
      ==> key(y) >= key(x)
  {
    var sorted := StableSort(xs, key);
    var r := Take(sorted, limit);
    var rest := sorted[|r|..];
    StableSortPermutes(xs, key);
    StableSortOrders(xs, key);
    assert sorted == r + rest;
    assert multiset(xs) == multiset(r) + multiset(rest);
    forall x, y | x in multiset(xs) - multiset(r) && y in r
      ensures key(y) >= key(x)
    {
      assert x in rest;
      var j :| 0 <= j < |rest| && rest[j] == x;
      var i :| 0 <= i < |r| && r[i] == y;
      assert sorted[i] == y && sorted[|r| + j] == x;
    }
  }

  /**
   * The result holds at most `limit` hits, highest similarity first, each
   * for an entry sharing a token with the query; with a limit of at least
   * the map's size every such entry is there, and any hit left out ranks no
   * higher than every hit returned.
   */
  lemma SearchResultSpec(index: seq<Entry>, query: string, limit: int)
    ensures 0 <= limit ==> |SearchResult(index, query, limit)| <= limit
    ensures SortedDesc(SearchResult(index, query, limit), Sim)
    ensures forall h :: h in SearchResult(index, query, limit) ==> 0.0 < h.similarity <= 1.0
    ensures forall h :: h in SearchResult(index, query, limit) ==>
      (exists i :: 0 <= i < |index| && Matches(index[i], Tokens(query)) && h == HitOf(index[i], Tokens(query)))
    ensures |index| <= limit ==> multiset(SearchResult(index, query, limit)) == multiset(Scored(index, Tokens(query)))
    ensures forall g, h ::
      (g in multiset(Scored(index, Tokens(query))) - multiset(SearchResult(index, query, limit))
       && h in SearchResult(index, query, limit)) ==> h.similarity >= g.similarity
  {
    var scored := Scored(index, Tokens(query));
    var r := SearchResult(index, query, limit);
    ScoredExact(index, Tokens(query));
    TopOfSorted(scored, Sim, limit);
    TopOfSortedRanks(scored, Sim, limit);
    forall g, h | g in multiset(scored) - multiset(r) && h in r
      ensures h.similarity >= g.similarity
    {
      assert Sim(h) >= Sim(g);
    }
  }
}
