/**
  The title fetch (MainActivity.fetchWebsiteTitle): how the end of one
  background fetch becomes the text of the name field. The HTTP request and
  the HTML parsing belong to Jsoup; the model receives how they ended.
*/
module FetchTitle {
  import opened Wrappers

  const NoTitleFoundText: string := "No title found"
  const ErrorFetchingTitleText: string := "Error fetching title"

  /** How one fetch ends: Jsoup returned a document whose `title()` is `title`
      (None for null), or the connection threw an IOException. */
  datatype Outcome = Document(title: Option<string>) | IoError

  /** A non-null, non-empty title. */
  predicate HasTitle(o: Outcome) {
    o.Document? && o.title.Some? && o.title.value != []
  }

  /** The text the posted completion writes into the name field. */
  function NameText(o: Outcome): (text: string)
    ensures text != []
    ensures HasTitle(o) ==> text == o.title.value
    ensures o.Document? && !HasTitle(o) ==> text == NoTitleFoundText
    ensures o.IoError? ==> text == ErrorFetchingTitleText
  {
    match o
    case IoError => ErrorFetchingTitleText
    case Document(title) =>
      if title.Some? && title.value != [] then title.value else NoTitleFoundText
  }

  /** A page whose title is literally "No title found" shows the same as a page
      without a title: the name field cannot tell the two apart. */
  lemma TitleTextCanBeAmbiguous()
    ensures NameText(Document(Some(NoTitleFoundText))) == NameText(Document(None))
    ensures NameText(Document(Some(NoTitleFoundText))) == NameText(Document(Some([])))
  {
  }
}
