/** What a page body shows for a fetch lifecycle of three flags
 *  (`loading`, `error`, data): the spinner while loading, otherwise the error
 *  message if there is one, otherwise the content.
 */
module Display {
  import opened Catalog

  datatype Screen<+T> = Spinner | ErrorText(message: string) | Content(items: T)

  function Show<T>(loading: bool, error: Option<string>, items: T): (s: Screen<T>)
    ensures s.Spinner? <==> loading
    ensures s.ErrorText? <==> !loading && error.Some?
    ensures s.ErrorText? ==> s.message == error.value
    ensures s.Content? <==> !loading && error.None?
    ensures s.Content? ==> s.items == items
  {
    if loading then Spinner
    else if error.Some? then ErrorText(error.value)
    else Content(items)
  }
}
