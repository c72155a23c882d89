# QR code scanner activity: the scan-to-display pipeline

This project models the decision logic of the app's single activity,
`MainActivity`. The user presses the scan button. If the camera permission is
granted, the QR scanner is launched with fixed options. A scanned payload is
written into the address field as it is, and a background fetch of that same
text starts. When the fetch ends, it writes the page title, "No title found"
or "Error fetching title" into the name field. Clicking the address field
opens its text in the browser. Text that starts with neither `http://` nor
`https://` gets `https://` in front first.

Modules:

- `Wrappers` (`wrappers.dfy`): `Option`, standing for Java's nullable references.
- `Url` (`url.dfy`): the address-field click handler. These are pure functions.
- `Permission` (`permission.dfy`): the startup permission request, the scan
  button's permission gate with its scan options, and the handling of a
  permission answer. These are pure functions. The permission state belongs to
  the operating system, so each function receives the value that
  `checkSelfPermission` or the request callback delivers.
- `FetchTitle` (`fetch_title.dfy`): how the end of one fetch becomes the text
  of the name field.
- `Activity` (`activity.dfy`): the class `MainActivity`. Its fields are the
  two text fields and, as ghost state, the fetches still running. Its methods
  are the scanner's result callback, the completion each fetch posts back, and
  the address click. They are specified by the value-level functions
  `AfterScan` and `AfterTitle` on a `Screen` record. `Run` replays a sequence
  of callbacks in the order the main thread runs them. The lemmas about `Run`
  state what the fields show after any such sequence.

What the code does not do (the model does not add it either):

- The address text is not trimmed. Only the empty string opens nothing.
- The scanned payload is not normalised. It is displayed and fetched exactly
  as scanned; the scheme is added only when the address field is clicked.
- There is no stale-result suppression. Every posted completion overwrites the
  name field in arrival order, even one for a scan that has since been
  replaced (`LastTitleWins`, `StaleTitleIsShown`).
- There is no permission state machine inside the app. `onRequestPermissionsResult`
  only shows a toast; the scan button asks the operating system again.
- A fetch that posts back ends in one of three ways: a title, no title, or an IOException.
  There is no separate parse-error case.

## Model

| member | source | states |
|---|---|---|
| `Url.WithScheme` | app/src/main/java/com/example/qrcode/MainActivity.java:122-126 | the result always starts with `http://` or `https://` and ends with the input text verbatim; input that already has either scheme is returned unchanged, any other input gets exactly `https://` in front |
| `Url.AddressClick` | app/src/main/java/com/example/qrcode/MainActivity.java:117-134 | nothing is opened ("No URL to open") exactly when the field is empty; otherwise text that already starts with `http://` or `https://` is opened unchanged and any other text is opened with `https://` in front, so the opened URL always has a web scheme |
| `Url.WithSchemeIdempotent` | app/src/main/java/com/example/qrcode/MainActivity.java:122-126 | adding the scheme a second time changes nothing |
| `Url.AddressClickIdempotent` | app/src/main/java/com/example/qrcode/MainActivity.java:117-134 | putting an opened URL back into the field and clicking again opens the same URL |
| `Url.BlankTextIsOpened` | app/src/main/java/com/example/qrcode/MainActivity.java:119-126 | there is no trimming: non-empty text made of blanks is opened, as `https://` followed by the blanks |
| `Url.UpperCaseSchemeIsPrefixed` | app/src/main/java/com/example/qrcode/MainActivity.java:124-126 | the scheme test is case-sensitive: text starting `HTTP://` or `HTTPS://` still gets `https://` in front |
| `Permission.StartupRequest` | app/src/main/java/com/example/qrcode/MainActivity.java:84-88 | at startup, a permission request is made exactly when the camera permission is not granted, and it carries request code 100 |
| `Permission.ButtonClick` | app/src/main/java/com/example/qrcode/MainActivity.java:103-115 | the scanner is launched exactly when the permission is granted, and then with QR-only format, prompt "Scan a QR code", camera 0, beep on and barcode image off; otherwise only the "permission is required" message |
| `Permission.RequestResult` | app/src/main/java/com/example/qrcode/MainActivity.java:90-100 | an answer with a request code other than 100 is ignored; for code 100 the "granted" message is shown exactly when the result array is non-empty and its first entry is PERMISSION_GRANTED, the "denied" message otherwise |
| `Permission.OnlyFirstResultCounts` | app/src/main/java/com/example/qrcode/MainActivity.java:94 | entries of the result array after the first never change the outcome |
| `Permission.StartupRequestIsAnswered` | app/src/main/java/com/example/qrcode/MainActivity.java:84-94 | the answer to the startup request is never ignored: the code it is sent with is the code the answer handler accepts |
| `Permission.StartupAndButtonAgree` | app/src/main/java/com/example/qrcode/MainActivity.java:84-115 | for the same permission value, startup makes no request exactly when the scan button launches the scanner |
| `FetchTitle.NameText` | app/src/main/java/com/example/qrcode/MainActivity.java:141-158 | a non-null, non-empty title is shown verbatim; a null or empty title shows "No title found"; an IOException shows "Error fetching title"; the text shown is never empty |
| `FetchTitle.TitleTextCanBeAmbiguous` | app/src/main/java/com/example/qrcode/MainActivity.java:149-153 | a page titled "No title found" shows the same text as a page with a null or empty title |
| `Activity.ScannedText` | app/src/main/java/com/example/qrcode/MainActivity.java:48 | the toast for a scan ends with the scanned payload verbatim |
| `Activity.AfterScan` | app/src/main/java/com/example/qrcode/MainActivity.java:42-56 | a null payload changes nothing and starts no fetch; a payload becomes the address text exactly as scanned, and one fetch starts for that same text; the name field is untouched |
| `Activity.AfterTitle` | app/src/main/java/com/example/qrcode/MainActivity.java:148-157 | a completion sets the name field to its rendered outcome whatever the address field shows; the address is untouched and exactly that one fetch stops running |
| `Activity.LastTitleWins` | app/src/main/java/com/example/qrcode/MainActivity.java:137-160 | after any sequence of callbacks, the name field shows the last posted completion's text, whichever scan started that fetch |
| `Activity.NameKeptWithoutTitles` | app/src/main/java/com/example/qrcode/MainActivity.java:42-56 | scan callbacks alone never change the name field |
| `Activity.LastPayloadShown` | app/src/main/java/com/example/qrcode/MainActivity.java:42-56 | after any sequence of callbacks, the address field shows the last scanned payload verbatim; later cancellations and completions leave it alone |
| `Activity.AddressKeptWithoutPayload` | app/src/main/java/com/example/qrcode/MainActivity.java:42-56 | without a scanned payload the address field keeps its text |
| `Activity.FetchesAreForScannedText` | app/src/main/java/com/example/qrcode/MainActivity.java:47-54 | every running fetch was running at the start or is for the raw text of a payload scanned since |
| `Activity.CancelledScansChangeNothing` | app/src/main/java/com/example/qrcode/MainActivity.java:44-45 | any number of cancelled scans leave both fields and the running fetches as they were |
| `Activity.StaleTitleIsShown` | app/src/main/java/com/example/qrcode/MainActivity.java:137-160 | two overlapping scans whose fetches finish out of order end with the second payload beside the first payload's title |
| `Activity.ScanThenTitle` | app/src/main/java/com/example/qrcode/MainActivity.java:42-56 | a non-empty payload without a web scheme, followed by a posted title for its fetch, shows the payload unchanged beside the title; only a click on the address opens it with `https://` in front (whether such a fetch posts back at all depends on the HTTP client) |
| `Activity.MainActivity.constructor` | app/src/main/java/com/example/qrcode/MainActivity.java:69-71 | the fields start with the text the layout gives them and no fetch is running |
| `Activity.MainActivity.OnScanResult` | app/src/main/java/com/example/qrcode/MainActivity.java:42-56 | the new fields are `AfterScan` of the old ones; the fetch started is for exactly the raw payload, and none is started on cancellation; the toast is "Cancelled" or "Scanned: " with the payload |
| `Activity.MainActivity.OnTitlePosted` | app/src/main/java/com/example/qrcode/MainActivity.java:148-157 | the new fields are `AfterTitle` of the old ones |
| `Activity.MainActivity.OnAddressClick` | app/src/main/java/com/example/qrcode/MainActivity.java:117-134 | reads the address field, changes nothing, and does what `AddressClick` says for its text |

## Left out

- Activity lifecycle, edge-to-edge setup, the window-insets listener and view lookup (lines 59-81). These are UI setup with no decisions.
- Toasts and the browser intent are not displayed or started. The model returns which message would be shown or which URL would be opened.
- The HTTP request and HTML parsing (`Jsoup.connect(url).get()`, `document.title()`). Jsoup is not part of this model; its result is an input (a title, null, or an IOException).
- The executor and the main-thread handler. Each posted completion is one method call, in the order the main thread runs them. `Run` and `Event.TitlePosted` choose which running fetch completes, so every arrival order is covered.
- Typing into the two EditText fields. `Run` replays only the activity's own callbacks, so the trace lemmas about the fields (`LastTitleWins`, `NameKeptWithoutTitles`, `LastPayloadShown`, `AddressKeptWithoutPayload`) describe runs in which the user does not edit them.
- Exceptions other than IOException during the fetch. The code does not catch them, so it does not define what happens.
- Scanner and permission dialogs. Their results are inputs: a nullable payload, a permission value, a request code and a result array.
- The initial text of the two fields comes from the layout, which is not part of this model. The constructor takes it as parameters.
