/**
  The address field's click handler (MainActivity.onAddressClick): the text in
  the field becomes the URL handed to the browser, or the "No URL to open"
  notice when the field is empty.
*/
module Url {
  import opened Wrappers

  const Http: string := "http://"
  const Https: string := "https://"
  const NoUrlToOpenText: string := "No URL to open"

  /** `url` starts with one of the two web schemes. Java's `String.startsWith`
      is an exact, case-sensitive prefix test, which is Dafny's `<=` on sequences. */
  predicate HasWebScheme(url: string) {
    Http <= url || Https <= url
  }

  /** What one click on the address field does. */
  datatype Click =
    | OpenInBrowser(url: string)  // an ACTION_VIEW intent for `url`
    | NoUrlToOpen                 // the "No URL to open" toast, nothing opened
  {
    /** The toast this click shows, if any. */
    function Toast(): Option<string> {
      if NoUrlToOpen? then Some(NoUrlToOpenText) else None
    }
  }

  /** The prefixing step of the handler: text that starts with neither scheme
      gets "https://" in front, anything else is kept as it is. */
  function WithScheme(text: string): (url: string)
    ensures HasWebScheme(url)
    ensures |text| <= |url| && url[|url| - |text|..] == text
    ensures HasWebScheme(text) ==> url == text
    ensures !HasWebScheme(text) ==> url == Https + text
  {
    if !(Http <= text) && !(Https <= text) then
      assert (Https + text)[..|Https|] == Https;
      Https + text
    else
      text
  }

  /** The whole handler, applied to the current text of the address field.
      There is no trimming: only the empty string opens nothing. */
  function AddressClick(text: string): (r: Click)
    ensures r.NoUrlToOpen? <==> text == []
    ensures r.OpenInBrowser? ==> HasWebScheme(r.url)
    ensures text != [] && HasWebScheme(text) ==> r == OpenInBrowser(text)
    ensures text != [] && !HasWebScheme(text) ==> r == OpenInBrowser(Https + text)
  {
    if text != [] then OpenInBrowser(WithScheme(text)) else NoUrlToOpen
  }

  /** Adding the scheme twice adds nothing more. */
  lemma WithSchemeIdempotent(text: string)
    ensures WithScheme(WithScheme(text)) == WithScheme(text)
  {
  }

  /** Putting the opened URL back into the field and clicking again opens the
      same URL. */
  lemma AddressClickIdempotent(text: string)
    requires AddressClick(text).OpenInBrowser?
    ensures AddressClick(AddressClick(text).url) == AddressClick(text)
  {
    WithSchemeIdempotent(text);
  }

  /** There is no trimming: text made only of blanks is not empty, so it is
      opened, with the scheme in front. */
  lemma BlankTextIsOpened(text: string)
    requires text != [] && forall k :: 0 <= k < |text| ==> text[k] == ' '
    ensures AddressClick(text) == OpenInBrowser(Https + text)
  {
    assert text[0] != Http[0];
  }

  /** The scheme test is case-sensitive: a scheme written in capitals is not
      recognised and gets "https://" in front of it. */
  lemma UpperCaseSchemeIsPrefixed(rest: string)
    ensures AddressClick("HTTP://" + rest) == OpenInBrowser(Https + ("HTTP://" + rest))
    ensures AddressClick("HTTPS://" + rest) == OpenInBrowser(Https + ("HTTPS://" + rest))
  {
    assert ("HTTP://" + rest)[0] == 'H' != Http[0];
    assert ("HTTPS://" + rest)[0] == 'H' != Http[0];
  }
}
