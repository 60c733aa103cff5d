/**
 * The search bar (app/components/SearchBar.tsx): its initial criteria are read
 * from the page's query parameters, and whenever the criteria change they are
 * written back into a fresh parameter list from which the route is chosen.
 *
 * A query is an ordered list of key/value pairs; its percent-encoded text
 * form is not part of this model.
 */
module SearchBar {
  import opened Wrappers

  // ---------------------------------------------------------------------------
  // String splitting and joining

  /** The separator of the id lists in the `categories` and `tags` parameters. */
  const Comma := ','

  /** `list.join(sep)` */
  function Join(list: seq<string>, sep: char): string {
    if |list| == 0 then ""
    else if |list| == 1 then list[0]
    else list[0] + [sep] + Join(list[1..], sep)
  }

  /**
   * `s.split(sep)`: the pieces between separators, in order. There is always
   * at least one piece (the empty string splits into one empty piece), no
   * piece holds the separator, and joining the pieces gives `s` back.
   */
  function Split(s: string, sep: char): (r: seq<string>)
    ensures |r| >= 1
    ensures forall i :: 0 <= i < |r| ==> sep !in r[i]
    ensures Join(r, sep) == s
    decreases |s|
  {
    if |s| == 0 then [""]
    else
      var rest := Split(s[1..], sep);
      if s[0] == sep then [""] + rest
      else [[s[0]] + rest[0]] + rest[1..]
  }

  /** A string without the separator is a single piece. */
  lemma {:induction false} SplitWithoutSeparator(s: string, sep: char)
    requires sep !in s
    ensures Split(s, sep) == [s]
    decreases |s|
  {
    if |s| > 0 {
      assert sep !in s[1..] by {
        assert forall c :: c in s[1..] ==> c in s;
      }
      SplitWithoutSeparator(s[1..], sep);
      assert [s[0]] + s[1..] == s;
    }
  }

  /** A leading piece without the separator comes off as the first piece. */
  lemma {:induction false} SplitAfterPiece(piece: string, sep: char, t: string)
    requires sep !in piece
    ensures Split(piece + [sep] + t, sep) == [piece] + Split(t, sep)
    decreases |piece|
  {
    var s := piece + [sep] + t;
    if |piece| == 0 {
      assert s[1..] == t;
    } else {
      var tail := piece[1..];
      assert sep !in tail by {
        assert forall c :: c in tail ==> c in piece;
      }
      assert s[1..] == tail + [sep] + t;
      SplitAfterPiece(tail, sep, t);
      assert [piece[0]] + tail == piece;
    }
  }

  /** Joining pieces that hold no separator and splitting again gives back the same pieces. */
  lemma {:induction false} SplitJoin(list: seq<string>, sep: char)
    requires |list| >= 1
    requires forall i :: 0 <= i < |list| ==> sep !in list[i]
    ensures Split(Join(list, sep), sep) == list
    decreases |list|
  {
    if |list| == 1 {
      SplitWithoutSeparator(list[0], sep);
    } else {
      SplitJoin(list[1..], sep);
      SplitAfterPiece(list[0], sep, Join(list[1..], sep));
      assert [list[0]] + list[1..] == list;
    }
  }

  // ---------------------------------------------------------------------------
  // Query parameters

  /** One `key=value` pair of a query. */
  datatype Param = Param(key: string, value: string)

  /** `params.get(key)`: the value of the first pair with that key, if there is one. */
  function Lookup(params: seq<Param>, key: string): (r: Option<string>)
    ensures r.None? <==> forall i :: 0 <= i < |params| ==> params[i].key != key
  {
    if params == [] then None
    else if params[0].key == key then Some(params[0].value)
    else Lookup(params[1..], key)
  }

  /** A value found is that of the first pair with the key. */
  lemma {:induction false} LookupFindsFirst(params: seq<Param>, key: string)
    requires Lookup(params, key).Some?
    ensures exists i :: 0 <= i < |params| && params[i] == Param(key, Lookup(params, key).value) &&
                        forall j :: 0 <= j < i ==> params[j].key != key
  {
    if params[0].key != key {
      LookupFindsFirst(params[1..], key);
      var i :| 0 <= i < |params[1..]| && params[1..][i] == Param(key, Lookup(params, key).value) &&
               forall j :: 0 <= j < i ==> params[1..][j].key != key;
      assert params[i + 1] == Param(key, Lookup(params, key).value);
      assert forall j :: 1 <= j < i + 1 ==> params[j] == params[1..][j - 1];
    } else {
      assert params[0] == Param(key, Lookup(params, key).value);
    }
  }

  /** Looking up in two lists one after the other finds the first list's value, if it has one. */
  lemma {:induction false} LookupConcat(a: seq<Param>, b: seq<Param>, key: string)
    ensures Lookup(a + b, key) == if Lookup(a, key).Some? then Lookup(a, key) else Lookup(b, key)
  {
    if a != [] {
      assert (a + b)[1..] == a[1..] + b;
      LookupConcat(a[1..], b, key);
    } else {
      assert a + b == b;
    }
  }

  /** The pairs whose key is not `key`, in order. */
  function RemoveKey(params: seq<Param>, key: string): (r: seq<Param>)
    ensures forall i :: 0 <= i < |r| ==> r[i].key != key
  {
    if params == [] then []
    else if params[0].key == key then RemoveKey(params[1..], key)
    else [params[0]] + RemoveKey(params[1..], key)
  }

  /** Removing one key does not change what any other key finds. */
  lemma {:induction false} RemoveKeyKeepsOthers(params: seq<Param>, key: string, other: string)
    requires other != key
    ensures Lookup(RemoveKey(params, key), other) == Lookup(params, other)
  {
    if params != [] {
      RemoveKeyKeepsOthers(params[1..], key, other);
    }
  }

  /**
   * `params.set(key, value)`: the first pair with that key takes the new value
   * and any later pairs with it are dropped; a key not yet present is
   * appended. Afterwards the key has the new value.
   */
  function SetParam(params: seq<Param>, key: string, value: string): (r: seq<Param>)
    ensures Lookup(r, key) == Some(value)
  {
    if params == [] then [Param(key, value)]
    else if params[0].key == key then [Param(key, value)] + RemoveKey(params[1..], key)
    else [params[0]] + SetParam(params[1..], key, value)
  }

  /** Setting one key does not change what any other key finds. */
  lemma {:induction false} SetParamKeepsOthers(params: seq<Param>, key: string, value: string, other: string)
    requires other != key
    ensures Lookup(SetParam(params, key, value), other) == Lookup(params, other)
  {
    if params != [] {
      if params[0].key == key {
        RemoveKeyKeepsOthers(params[1..], key, other);
      } else {
        SetParamKeepsOthers(params[1..], key, value, other);
      }
    }
  }

  /** Setting a key that is not yet present appends one pair. */
  lemma {:induction false} SetParamAppends(params: seq<Param>, key: string, value: string)
    requires Lookup(params, key).None?
    ensures SetParam(params, key, value) == params + [Param(key, value)]
  {
    if params != [] {
      SetParamAppends(params[1..], key, value);
      assert [params[0]] + (params[1..] + [Param(key, value)]) == params + [Param(key, value)];
    }
  }

  /** A mutable parameter list (`new URLSearchParams()`). */
  class SearchParams {
    var entries: seq<Param>

    constructor ()
      ensures entries == []
    {
      entries := [];
    }

    method Set(key: string, value: string)
      modifies this
      ensures entries == SetParam(old(entries), key, value)
    {
      entries := SetParam(entries, key, value);
    }
  }

  // ---------------------------------------------------------------------------
  // The search criteria

  /** The search bar's state: free text, selected category and tag ids, and a difficulty (`''` for all). */
  datatype SearchState = SearchState(
    searchTerm: string,
    selectedCategories: seq<string>,
    selectedTags: seq<string>,
    difficulty: string)

  const QueryKey := "q"
  const CategoriesKey := "categories"
  const TagsKey := "tags"
  const DifficultyKey := "difficulty"

  /** `get(key)?.split(',') || []` */
  function IdList(params: seq<Param>, key: string): (ids: seq<string>)
    ensures Lookup(params, key).None? ==> ids == []
    ensures Lookup(params, key).Some? ==>
      && |ids| >= 1
      && Join(ids, Comma) == Lookup(params, key).value
      && forall i :: 0 <= i < |ids| ==> Comma !in ids[i]
  {
    match Lookup(params, key)
    case None => []
    case Some(v) => Split(v, Comma)
  }

  /**
   * The initial state read from the page's parameters: a missing text or
   * difficulty is `''`, a missing id list is empty, and a present id list is
   * the comma-separated pieces of its value.
   */
  function InitialState(params: seq<Param>): (s: SearchState)
    ensures Lookup(params, QueryKey).None? ==> s.searchTerm == ""
    ensures Lookup(params, QueryKey).Some? ==> s.searchTerm == Lookup(params, QueryKey).value
    ensures Lookup(params, DifficultyKey).None? ==> s.difficulty == ""
    ensures Lookup(params, DifficultyKey).Some? ==> s.difficulty == Lookup(params, DifficultyKey).value
    ensures Lookup(params, CategoriesKey).None? ==> s.selectedCategories == []
    ensures Lookup(params, CategoriesKey).Some? ==>
      && |s.selectedCategories| >= 1
      && (forall i :: 0 <= i < |s.selectedCategories| ==> Comma !in s.selectedCategories[i])
      && Join(s.selectedCategories, Comma) == Lookup(params, CategoriesKey).value
    ensures Lookup(params, TagsKey).None? ==> s.selectedTags == []
    ensures Lookup(params, TagsKey).Some? ==>
      && |s.selectedTags| >= 1
      && (forall i :: 0 <= i < |s.selectedTags| ==> Comma !in s.selectedTags[i])
      && Join(s.selectedTags, Comma) == Lookup(params, TagsKey).value
  {
    SearchState(
      searchTerm := Lookup(params, QueryKey).GetOr(""),
      selectedCategories := IdList(params, CategoriesKey),
      selectedTags := IdList(params, TagsKey),
      difficulty := Lookup(params, DifficultyKey).GetOr(""))
  }

  /** A pair for `key` when `present`, otherwise nothing. */
  function PairIf(present: bool, key: string, value: string): seq<Param> {
    if present then [Param(key, value)] else []
  }

  /** The pairs the effect sets, in the order it sets them. */
  function QueryParams(s: SearchState): seq<Param> {
    PairIf(s.searchTerm != "", QueryKey, s.searchTerm)
    + PairIf(|s.selectedCategories| > 0, CategoriesKey, Join(s.selectedCategories, Comma))
    + PairIf(|s.selectedTags| > 0, TagsKey, Join(s.selectedTags, Comma))
    + PairIf(s.difficulty != "", DifficultyKey, s.difficulty)
  }

  /** Where the router is sent: `/`, or `/?` followed by the query. */
  datatype Route = Home | HomeWithQuery(query: seq<Param>)

  /**
   * The route for a query. A non-empty query always has a non-empty text form,
   * since every key here is non-empty, so the source's test on the query
   * string is a test on the list.
   */
  function RouteFor(query: seq<Param>): Route {
    if query == [] then Home else HomeWithQuery(query)
  }

  /**
   * The effect that runs whenever the criteria change: fill a fresh parameter
   * list field by field, then pick the route.
   */
  method SyncUrl(s: SearchState) returns (route: Route)
    ensures route == RouteFor(QueryParams(s))
  {
    ghost var a := PairIf(s.searchTerm != "", QueryKey, s.searchTerm);
    ghost var b := PairIf(|s.selectedCategories| > 0, CategoriesKey, Join(s.selectedCategories, Comma));
    ghost var c := PairIf(|s.selectedTags| > 0, TagsKey, Join(s.selectedTags, Comma));
    ghost var d := PairIf(s.difficulty != "", DifficultyKey, s.difficulty);
    var params := new SearchParams();
    if s.searchTerm != "" {
      params.Set(QueryKey, s.searchTerm);
    }
    assert params.entries == a;
    if |s.selectedCategories| > 0 {
      PairIfLookup(s.searchTerm != "", QueryKey, s.searchTerm, CategoriesKey);
      SetParamAppends(params.entries, CategoriesKey, Join(s.selectedCategories, Comma));
      params.Set(CategoriesKey, Join(s.selectedCategories, Comma));
    }
    assert params.entries == a + b;
    if |s.selectedTags| > 0 {
      PairIfLookup(s.searchTerm != "", QueryKey, s.searchTerm, TagsKey);
      PairIfLookup(|s.selectedCategories| > 0, CategoriesKey, Join(s.selectedCategories, Comma), TagsKey);
      LookupConcat(a, b, TagsKey);
      SetParamAppends(params.entries, TagsKey, Join(s.selectedTags, Comma));
      params.Set(TagsKey, Join(s.selectedTags, Comma));
    }
    assert params.entries == a + b + c;
    if s.difficulty != "" {
      PairIfLookup(s.searchTerm != "", QueryKey, s.searchTerm, DifficultyKey);
      PairIfLookup(|s.selectedCategories| > 0, CategoriesKey, Join(s.selectedCategories, Comma), DifficultyKey);
      PairIfLookup(|s.selectedTags| > 0, TagsKey, Join(s.selectedTags, Comma), DifficultyKey);
      LookupConcat(a, b, DifficultyKey);
      LookupConcat(a + b, c, DifficultyKey);
      SetParamAppends(params.entries, DifficultyKey, s.difficulty);
      params.Set(DifficultyKey, s.difficulty);
    }
    assert params.entries == a + b + c + d;
    route := if params.entries == [] then Home else HomeWithQuery(params.entries);
  }

  /** An optional pair finds its own key's value and nothing for any other key. */
  lemma PairIfLookup(present: bool, key: string, value: string, k: string)
    ensures Lookup(PairIf(present, key, value), k) == if present && k == key then Some(value) else None
  {
  }

  /** The position of each key in the order the effect sets them. */
  function KeyRank(key: string): int {
    if key == QueryKey then 0
    else if key == CategoriesKey then 1
    else if key == TagsKey then 2
    else if key == DifficultyKey then 3
    else 4
  }

  /**
   * The query holds the text exactly when it is non-empty, each id list
   * exactly when it is non-empty (as its comma join), and the difficulty
   * exactly when it is non-empty.
   */
  lemma QueryParamsContent(s: SearchState)
    ensures var query := QueryParams(s);
      && Lookup(query, QueryKey) == (if s.searchTerm != "" then Some(s.searchTerm) else None)
      && Lookup(query, CategoriesKey) ==
           (if |s.selectedCategories| > 0 then Some(Join(s.selectedCategories, Comma)) else None)
      && Lookup(query, TagsKey) ==
           (if |s.selectedTags| > 0 then Some(Join(s.selectedTags, Comma)) else None)
      && Lookup(query, DifficultyKey) == (if s.difficulty != "" then Some(s.difficulty) else None)
  {
    QueryLookup(s, QueryKey);
    QueryLookup(s, CategoriesKey);
    QueryLookup(s, TagsKey);
    QueryLookup(s, DifficultyKey);
  }

  /** What any key finds in the query: the value of the first set field with that key. */
  lemma QueryLookup(s: SearchState, k: string)
    ensures Lookup(QueryParams(s), k) ==
      if s.searchTerm != "" && k == QueryKey then Some(s.searchTerm)
      else if |s.selectedCategories| > 0 && k == CategoriesKey then Some(Join(s.selectedCategories, Comma))
      else if |s.selectedTags| > 0 && k == TagsKey then Some(Join(s.selectedTags, Comma))
      else if s.difficulty != "" && k == DifficultyKey then Some(s.difficulty)
      else None
  {
    var a := PairIf(s.searchTerm != "", QueryKey, s.searchTerm);
    var b := PairIf(|s.selectedCategories| > 0, CategoriesKey, Join(s.selectedCategories, Comma));
    var c := PairIf(|s.selectedTags| > 0, TagsKey, Join(s.selectedTags, Comma));
    var d := PairIf(s.difficulty != "", DifficultyKey, s.difficulty);
    PairIfLookup(s.searchTerm != "", QueryKey, s.searchTerm, k);
    PairIfLookup(|s.selectedCategories| > 0, CategoriesKey, Join(s.selectedCategories, Comma), k);
    PairIfLookup(|s.selectedTags| > 0, TagsKey, Join(s.selectedTags, Comma), k);
    PairIfLookup(s.difficulty != "", DifficultyKey, s.difficulty, k);
    LookupPairs(a, b, c, d, k);
  }

  /** Every key of `query` is one of the four, and their ranks strictly ascend. */
  predicate InKeyOrder(query: seq<Param>) {
    && (forall i :: 0 <= i < |query| ==> KeyRank(query[i].key) < 4)
    && (forall i, j :: 0 <= i < j < |query| ==> KeyRank(query[i].key) < KeyRank(query[j].key))
  }

  /** Every key of `query` ranks in `lo..hi - 1`. */
  predicate RanksWithin(query: seq<Param>, lo: int, hi: int) {
    forall i :: 0 <= i < |query| ==> lo <= KeyRank(query[i].key) < hi
  }

  /** Two lists in key order, the first ranked wholly below the second, stay in order when joined. */
  lemma InKeyOrderConcat(a: seq<Param>, b: seq<Param>, lo: int, mid: int, hi: int)
    requires InKeyOrder(a) && InKeyOrder(b)
    requires lo <= mid <= hi
    requires RanksWithin(a, lo, mid) && RanksWithin(b, mid, hi)
    ensures InKeyOrder(a + b) && RanksWithin(a + b, lo, hi)
  {
  }

  /** A single optional pair is in key order, ranked at its key's rank. */
  lemma PairInKeyOrder(present: bool, key: string, value: string)
    requires KeyRank(key) < 4
    ensures InKeyOrder(PairIf(present, key, value))
    ensures RanksWithin(PairIf(present, key, value), KeyRank(key), KeyRank(key) + 1)
  {
  }

  /**
   * The keys of the query come in the fixed order `q`, `categories`, `tags`,
   * `difficulty`, each at most once.
   */
  lemma QueryParamsOrder(s: SearchState)
    ensures InKeyOrder(QueryParams(s))
  {
    var a := PairIf(s.searchTerm != "", QueryKey, s.searchTerm);
    var b := PairIf(|s.selectedCategories| > 0, CategoriesKey, Join(s.selectedCategories, Comma));
    var c := PairIf(|s.selectedTags| > 0, TagsKey, Join(s.selectedTags, Comma));
    var d := PairIf(s.difficulty != "", DifficultyKey, s.difficulty);
    assert KeyRank(QueryKey) == 0 && KeyRank(CategoriesKey) == 1;
    assert KeyRank(TagsKey) == 2 && KeyRank(DifficultyKey) == 3;
    PairInKeyOrder(s.searchTerm != "", QueryKey, s.searchTerm);
    PairInKeyOrder(|s.selectedCategories| > 0, CategoriesKey, Join(s.selectedCategories, Comma));
    PairInKeyOrder(|s.selectedTags| > 0, TagsKey, Join(s.selectedTags, Comma));
    PairInKeyOrder(s.difficulty != "", DifficultyKey, s.difficulty);
    InKeyOrderConcat(a, b, 0, 1, 2);
    InKeyOrderConcat(a + b, c, 0, 2, 3);
    InKeyOrderConcat(a + b + c, d, 0, 3, 4);
  }

  /** Keys in key order are distinct. */
  lemma KeysOnce(query: seq<Param>)
    requires InKeyOrder(query)
    ensures forall i, j :: 0 <= i < j < |query| ==> query[i].key != query[j].key
  {
  }

  lemma LookupPairs(a: seq<Param>, b: seq<Param>, c: seq<Param>, d: seq<Param>, key: string)
    ensures Lookup(a + b + c + d, key) ==
      if Lookup(a, key).Some? then Lookup(a, key)
      else if Lookup(b, key).Some? then Lookup(b, key)
      else if Lookup(c, key).Some? then Lookup(c, key)
      else Lookup(d, key)
  {
    LookupConcat(a, b, key);
    LookupConcat(a + b, c, key);
    LookupConcat(a + b + c, d, key);
  }

  /** The route is `/` exactly when every criterion is empty. */
  lemma RouteIsHomeIffNothingSet(s: SearchState)
    ensures RouteFor(QueryParams(s)) == Home <==>
      s.searchTerm == "" && s.selectedCategories == [] && s.selectedTags == [] && s.difficulty == ""
    ensures RouteFor(QueryParams(s)).HomeWithQuery? ==> RouteFor(QueryParams(s)).query == QueryParams(s)
  {
  }

  /** Every id of every selection is free of commas. */
  predicate CommaFreeIds(s: SearchState) {
    && (forall i :: 0 <= i < |s.selectedCategories| ==> Comma !in s.selectedCategories[i])
    && (forall i :: 0 <= i < |s.selectedTags| ==> Comma !in s.selectedTags[i])
  }

  /**
   * Writing the criteria into a query and reading the initial state back from
   * it gives the same criteria, provided no selected id holds a comma. An
   * empty selection writes no pair and reads back as empty.
   */
  lemma RoundTrip(s: SearchState)
    requires CommaFreeIds(s)
    ensures InitialState(QueryParams(s)) == s
  {
    QueryParamsContent(s);
    if |s.selectedCategories| > 0 {
      SplitJoin(s.selectedCategories, Comma);
    }
    if |s.selectedTags| > 0 {
      SplitJoin(s.selectedTags, Comma);
    }
  }

  /** An id holding a comma comes back as two ids, so the round trip needs comma-free ids. */
  lemma CommaInIdBreaksRoundTrip()
    ensures InitialState(QueryParams(SearchState("", ["a,b"], [], ""))).selectedCategories == ["a", "b"]
  {
    var s := SearchState("", ["a,b"], [], "");
    QueryParamsContent(s);
    SplitAfterPiece("a", Comma, "b");
    SplitWithoutSeparator("b", Comma);
    assert "a" + [Comma] + "b" == "a,b";
  }
}
