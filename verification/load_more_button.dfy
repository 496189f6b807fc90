/**
 * The newsfeed's load-more control of frontend/src/newsfeed/list/LoadMoreButton.tsx:
 * which of its three variants it renders and what a click on it does.
 * `startKey` and `since` are tested for JavaScript truthiness, so an empty
 * string counts as absent.
 */
module LoadMoreButton {
  import opened Wrappers
  import opened Strings

  datatype Variant =
    | LoadMore(loading: bool)   // "Load More", spinning while the request loads
    | CaughtUp(since: string)   // "You're all caught up", with a "View older posts" button
    | NoMorePosts               // "No More Posts", with nothing to click

  /** The variant rendered for the given props and request state. */
  function SelectVariant(startKey: Option<string>, since: Option<string>, isLoading: bool): (v: Variant)
    ensures Truthy(startKey) <==> v.LoadMore?
    ensures v.LoadMore? ==> v.loading == isLoading
    ensures v.CaughtUp? <==> !Truthy(startKey) && Truthy(since)
    ensures v.CaughtUp? ==> Some(v.since) == since
    ensures v.NoMorePosts? <==> !Truthy(startKey) && !Truthy(since)
  {
    if Truthy(startKey) then LoadMore(isLoading)
    else if Truthy(since) then CaughtUp(since.value)
    else NoMorePosts
  }

  /** Whether the variant has a control that calls `onLoadMore`. */
  predicate CallsLoadMore(v: Variant) {
    !v.NoMorePosts?
  }

  /** A click loads more exactly when a start key or a since date is set. */
  lemma ClickLoadsMoreIff(startKey: Option<string>, since: Option<string>, isLoading: bool)
    ensures CallsLoadMore(SelectVariant(startKey, since, isLoading)) <==> Truthy(startKey) || Truthy(since)
  {
  }

  /** The request state shows only in the "Load More" variant: the other two do not depend on it. */
  lemma LoadingOnlyInLoadMore(startKey: Option<string>, since: Option<string>)
    requires !Truthy(startKey)
    ensures SelectVariant(startKey, since, true) == SelectVariant(startKey, since, false)
  {
  }

  /** An empty string behaves as an absent value for both props. */
  lemma EmptyIsAbsent(startKey: Option<string>, since: Option<string>, isLoading: bool)
    ensures SelectVariant(Some(""), since, isLoading) == SelectVariant(None, since, isLoading)
    ensures SelectVariant(startKey, Some(""), isLoading) == SelectVariant(startKey, None, isLoading)
  {
  }
}
