/** The properties page: search by title or description, and delete. */
module PropertiesPage {
  import opened Js
  import opened Text
  import opened Lists
  import opened ListSearch

  const TitleField: string := "locationTitle"
  const DescriptionField: string := "locationDescription"

  /** `handleSearch(query)` over `locationTitle` and `locationDescription`. */
  function Search(s: ListState, query: string): (r: ListState)
    ensures r.all == s.all && r.searchQuery == query && r.loading == s.loading
    ensures IsBlank(query) ==> r.filtered == s.all
    ensures !IsBlank(query) && SearchList(s.all, TitleField, DescriptionField, Lower(query)).Some? ==>
      IsSubsequence(r.filtered, s.all)
      && (forall x :: x in r.filtered <==> x in s.all && Matches(x, TitleField, DescriptionField, Lower(query)))
      && (forall x :: multiset(r.filtered)[x] ==
            if Matches(x, TitleField, DescriptionField, Lower(query)) then multiset(s.all)[x] else 0)
    // A test that throws (a title or description that is not a string) leaves the shown list as it was.
    ensures !IsBlank(query) && SearchList(s.all, TitleField, DescriptionField, Lower(query)).None? ==>
      r.filtered == s.filtered
  {
    var r := HandleSearch(s, query, TitleField, DescriptionField);
    SearchIsFilter(s.all, TitleField, DescriptionField, Lower(query));
    if !IsBlank(query) && SearchList(s.all, TitleField, DescriptionField, Lower(query)).Some? then
      SearchResultIsSubsequence(s, query, TitleField, DescriptionField);
      r
    else
      r
  }

  /** `handleDelete(propertyId)` */
  function Delete(s: ListState, id: string, confirmed: bool, deleted: bool): (r: ListState)
    ensures !(confirmed && deleted) ==> r == s
    ensures confirmed && deleted ==>
      && (forall x :: x in r.all <==> x in s.all && Field(x, "id") != Str(id))
      && (forall x :: x in r.filtered <==> x in s.filtered && Field(x, "id") != Str(id))
      && IsWithoutId(r.all, s.all, id) && IsWithoutId(r.filtered, s.filtered, id)
    // Only the two lists change.
    ensures r.searchQuery == s.searchQuery && r.loading == s.loading
  {
    HandleDelete(s, id, confirmed, deleted)
  }
}
