/** Every list view of the pages picks one of three renderings with the same
    two tests: a skeleton while its data is loading and nothing is cached yet,
    an empty-state notice when nothing is cached, the content otherwise. */
module Panels {

  datatype Panel<+T> = Skeleton | EmptyState | Filled(content: T)

  function Choose<T>(loading: bool, isEmpty: bool, content: T): (p: Panel<T>)
    ensures p.Skeleton? <==> loading && isEmpty
    ensures p.EmptyState? <==> !loading && isEmpty
    ensures p.Filled? <==> !isEmpty
    ensures p.Filled? ==> p.content == content
  {
    if loading && isEmpty then Skeleton
    else if isEmpty then EmptyState
    else Filled(content)
  }
}
