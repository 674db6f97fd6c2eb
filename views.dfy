/** What a list page or table shows, chosen in the order every page checks:
    the loading indicator first, then the error, then the empty state, then
    the list. A page's `error` is a string, so an empty message counts as no
    error, as it does in JavaScript. */
module Views {
  import opened Wrappers

  datatype View<T> = Loading | Failed(message: string) | Empty | Showing(items: seq<T>)

  predicate ShowsError(error: Option<string>)
  {
    error.Some? && error.value != ""
  }

  function ListView<T>(loading: bool, error: Option<string>, items: seq<T>): (v: View<T>)
    ensures v.Loading? <==> loading
    ensures v.Failed? <==> !loading && ShowsError(error)
    ensures v.Failed? ==> v.message == error.value
    ensures v.Empty? <==> !loading && !ShowsError(error) && |items| == 0
    ensures v.Showing? ==> v.items == items && |items| > 0
  {
    if loading then Loading
    else if ShowsError(error) then Failed(error.value)
    else if |items| == 0 then Empty
    else Showing(items)
  }
}
