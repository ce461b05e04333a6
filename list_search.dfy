/**
 * The search-and-delete behaviour the users and properties pages share: a
 * full list, a filtered list shown on screen, and the current query. Each
 * page names the two string fields its search looks at.
 */
module ListSearch {
  import opened Wrappers
  import opened Js
  import opened Text
  import opened Lists

  /** The page's list state: everything loaded, what is shown, the query typed, and the loading flag. */
  datatype ListState = ListState(all: seq<Record>, filtered: seq<Record>, searchQuery: string, loading: bool)

  /** Both lists empty, loading. */
  const Initial: ListState := ListState([], [], "", true)

  /** Outcome of evaluating a search test on one record. */
  datatype Verdict = Throws | Decided(matches: bool)

  /**
   * `field?.toLowerCase().includes(q)`: a missing field does not match; a
   * field that is neither missing nor a string has no `toLowerCase` and throws.
   */
  function FieldVerdict(v: Value, q: string): (r: Verdict)
    ensures Nullish(v) ==> r == Decided(false)
    ensures v.Str? ==> r == Decided(Includes(Lower(v.s), q))
    ensures r.Throws? <==> !Nullish(v) && !v.Str?
  {
    match v
    case Undefined => Decided(false)
    case Null => Decided(false)
    case Str(s) => Decided(Includes(Lower(s), q))
    case _ => Throws
  }

  /** `a || b` over the two fields: the second is looked at only when the first does not match. */
  function RecordVerdict(r: Record, first: string, second: string, q: string): (v: Verdict)
    ensures v == Decided(true) <==>
      FieldVerdict(Field(r, first), q) == Decided(true)
      || (FieldVerdict(Field(r, first), q) == Decided(false) && FieldVerdict(Field(r, second), q) == Decided(true))
    // A record with neither field set never matches, and never throws.
    ensures Nullish(Field(r, first)) && Nullish(Field(r, second)) ==> v == Decided(false)
  {
    match FieldVerdict(Field(r, first), q)
    case Throws => Throws
    case Decided(true) => Decided(true)
    case Decided(false) => FieldVerdict(Field(r, second), q)
  }

  /** `list.filter(test)`, where a throwing test aborts the whole filter. */
  function SearchList(list: seq<Record>, first: string, second: string, q: string): Option<seq<Record>>
  {
    if list == [] then Some([])
    else
      match RecordVerdict(list[0], first, second, q)
      case Throws => None
      case Decided(m) =>
        match SearchList(list[1..], first, second, q)
        case None => None
        case Some(rest) => Some((if m then [list[0]] else []) + rest)
  }

  /** Whether a record matches the search and its test does not throw. */
  predicate Matches(r: Record, first: string, second: string, q: string)
  {
    RecordVerdict(r, first, second, q) == Decided(true)
  }

  /** The search test, as a value `filter` can take. */
  function Test(first: string, second: string, q: string): Record -> bool
  {
    r => Matches(r, first, second, q)
  }

  /**
   * The search throws exactly when some record's test throws; otherwise it is
   * the filter of the list by the test.
   */
  lemma {:induction false} SearchIsFilter(list: seq<Record>, first: string, second: string, q: string)
    ensures SearchList(list, first, second, q).None? <==>
      exists i :: 0 <= i < |list| && RecordVerdict(list[i], first, second, q).Throws?
    ensures SearchList(list, first, second, q).Some? ==>
      SearchList(list, first, second, q).value == Filter(list, Test(first, second, q))
  {
    if list != [] {
      SearchIsFilter(list[1..], first, second, q);
      if RecordVerdict(list[0], first, second, q).Throws? {
        assert SearchList(list, first, second, q).None?;
      } else {
        forall i | 1 <= i < |list| ensures list[i] == list[1..][i - 1] { }
        if exists i :: 1 <= i < |list| && RecordVerdict(list[i], first, second, q).Throws? {
          var i :| 1 <= i < |list| && RecordVerdict(list[i], first, second, q).Throws?;
          assert RecordVerdict(list[1..][i - 1], first, second, q).Throws?;
        }
      }
    }
  }

  /**
   * `handleSearch(query)`: the query is stored; a blank query shows the full
   * list; otherwise the full list (never the previous result) is filtered by
   * the lower-cased query. When a test throws, the shown list stays as it was.
   */
  function HandleSearch(s: ListState, query: string, first: string, second: string): (r: ListState)
    ensures r.searchQuery == query && r.all == s.all && r.loading == s.loading
    ensures IsBlank(query) ==> r.filtered == s.all
    ensures !IsBlank(query) && SearchList(s.all, first, second, Lower(query)).Some? ==>
      r.filtered == Filter(s.all, Test(first, second, Lower(query)))
    ensures !IsBlank(query) && SearchList(s.all, first, second, Lower(query)).None? ==> r.filtered == s.filtered
  {
    TrimEmptyIffBlank(query);
    SearchIsFilter(s.all, first, second, Lower(query));
    if Trim(query) == "" then s.(searchQuery := query, filtered := s.all)
    else
      match SearchList(s.all, first, second, Lower(query))
      case None => s.(searchQuery := query)
      case Some(found) => s.(searchQuery := query, filtered := found)
  }

  /**
   * A search that goes through shows exactly the matching records, each as
   * often as it occurs in the full list, in their original order.
   */
  lemma SearchResultIsSubsequence(s: ListState, query: string, first: string, second: string)
    requires !IsBlank(query)
    requires forall i :: 0 <= i < |s.all| ==> !RecordVerdict(s.all[i], first, second, Lower(query)).Throws?
    ensures IsSubsequence(HandleSearch(s, query, first, second).filtered, s.all)
    ensures forall x :: x in HandleSearch(s, query, first, second).filtered <==>
      x in s.all && Matches(x, first, second, Lower(query))
    ensures forall x :: (multiset(HandleSearch(s, query, first, second).filtered)[x] ==
      if Matches(x, first, second, Lower(query)) then multiset(s.all)[x] else 0)
  {
    var q := Lower(query);
    SearchIsFilter(s.all, first, second, q);
    var r := HandleSearch(s, query, first, second).filtered;
    assert r == Filter(s.all, Test(first, second, q));
    FilterSpec(s.all, Test(first, second, q));
    forall x | x in s.all && Matches(x, first, second, q) ensures x in r {
      assert multiset(s.all)[x] > 0;
    }
  }

  /** `list.filter(x => x.id !== id)` */
  function WithoutId(list: seq<Record>, id: string): seq<Record>
  {
    Filter(list, (x: Record) => Field(x, "id") != Str(id))
  }

  /**
   * `r` is `s` with every entry whose id is `id` dropped: each other entry
   * occurs as often as in `s`, in the order of `s`.
   */
  ghost predicate IsWithoutId(r: seq<Record>, s: seq<Record>, id: string)
  {
    && IsSubsequence(r, s)
    && forall x :: multiset(r)[x] == if Field(x, "id") == Str(id) then 0 else multiset(s)[x]
  }

  /** What a delete leaves: no entry with that id, every other entry as often as before, in order. */
  lemma WithoutIdSpec(list: seq<Record>, id: string)
    ensures IsWithoutId(WithoutId(list, id), list, id)
    ensures IsSubsequence(WithoutId(list, id), list)
    ensures forall x :: x in WithoutId(list, id) <==> x in list && Field(x, "id") != Str(id)
    ensures forall x :: Field(x, "id") != Str(id) ==> multiset(WithoutId(list, id))[x] == multiset(list)[x]
  {
    FilterSpec(list, (x: Record) => Field(x, "id") != Str(id));
    forall x | x in list && Field(x, "id") != Str(id) ensures x in WithoutId(list, id) {
      assert multiset(list)[x] > 0;
    }
  }

  /**
   * `handleDelete(id)`: nothing happens unless the user confirms; a delete
   * that goes through removes the id from both lists, one that fails changes
   * nothing.
   */
  function HandleDelete(s: ListState, id: string, confirmed: bool, deleted: bool): (r: ListState)
    ensures r.searchQuery == s.searchQuery && r.loading == s.loading
    ensures !(confirmed && deleted) ==> r == s
    ensures confirmed && deleted ==>
      && (forall x :: x in r.all <==> x in s.all && Field(x, "id") != Str(id))
      && (forall x :: x in r.filtered <==> x in s.filtered && Field(x, "id") != Str(id))
      && IsSubsequence(r.all, s.all) && IsSubsequence(r.filtered, s.filtered)
    ensures confirmed && deleted ==> IsWithoutId(r.all, s.all, id) && IsWithoutId(r.filtered, s.filtered, id)
  {
    WithoutIdSpec(s.all, id);
    WithoutIdSpec(s.filtered, id);
    if confirmed && deleted then s.(all := WithoutId(s.all, id), filtered := WithoutId(s.filtered, id)) else s
  }

  /** The initial load: both lists set to what was read; a rejected read leaves the page loading. */
  function Load(s: ListState, read: Option<seq<Record>>): (r: ListState)
    ensures read.None? ==> r == s
    ensures read.Some? ==> r.all == read.value && r.filtered == read.value && !r.loading
    ensures r.searchQuery == s.searchQuery
  {
    match read
    case None => s
    case Some(data) => s.(all := data, filtered := data, loading := false)
  }
}
