/**
  The activity's two text fields and the callbacks that overwrite them: the
  scanner's result callback (the barcodeLauncher lambda) and the completion
  that each title fetch posts back to the main thread. Fetches run on their
  own executors; here each posted completion is one ordinary call, taken in
  the order the main thread runs them.
*/
module Activity {
  import opened Wrappers
  import FetchTitle
  import Url

  const CancelledText: string := "Cancelled"

  /** The toast shown for a scanned payload. */
  function ScannedText(payload: string): (text: string)
    ensures |payload| < |text| && text[|text| - |payload|..] == payload
  {
    "Scanned: " + payload
  }

  /** What the screen shows: the address field, the name field, and the URLs of
      the title fetches started and not yet posted back, oldest first. */
  datatype Screen = Screen(address: string, name: string, inFlight: seq<string>)

  /** The scanner's result callback. A null payload (a cancelled scan) leaves
      the screen alone; a payload goes into the address field as it is, not
      normalised, and one fetch is started for that same text. */
  function AfterScan(s: Screen, contents: Option<string>): (r: Screen)
    ensures contents.None? ==> r == s
    ensures contents.Some? ==> r.address == contents.value
    ensures contents.Some? ==> r.inFlight == s.inFlight + [r.address]
    ensures r.name == s.name
  {
    match contents
    case None => s
    case Some(payload) => s.(address := payload, inFlight := s.inFlight + [payload])
  }

  /** A fetch's posted completion. It writes the name field whatever the address
      field now shows: a late result for an older scan is not discarded. */
  function AfterTitle(s: Screen, slot: nat, outcome: FetchTitle.Outcome): (r: Screen)
    requires slot < |s.inFlight|
    ensures r.name == FetchTitle.NameText(outcome)
    ensures r.address == s.address
    ensures multiset(r.inFlight) + multiset{s.inFlight[slot]} == multiset(s.inFlight)
  {
    assert s.inFlight == s.inFlight[..slot] + [s.inFlight[slot]] + s.inFlight[slot + 1..];
    s.(name := FetchTitle.NameText(outcome), inFlight := s.inFlight[..slot] + s.inFlight[slot + 1..])
  }

  /** The callbacks that reach the screen, in the order the main thread runs them. */
  datatype Event =
    | ScanReturned(contents: Option<string>)
    | TitlePosted(slot: nat, outcome: FetchTitle.Outcome)  // completion of fetch inFlight[slot]

  predicate IsPayload(e: Event) {
    e.ScanReturned? && e.contents.Some?
  }

  /** One callback applied to the screen, or None for a completion that
      belongs to no running fetch (something the activity cannot produce). */
  function Step(s: Screen, e: Event): Option<Screen> {
    match e
    case ScanReturned(contents) => Some(AfterScan(s, contents))
    case TitlePosted(slot, outcome) =>
      if slot < |s.inFlight| then Some(AfterTitle(s, slot, outcome)) else None
  }

  /** The screen after `events`, or None when one of them cannot happen. */
  function Run(s: Screen, events: seq<Event>): Option<Screen>
    decreases |events|
  {
    if events == [] then Some(s)
    else
      match Run(s, events[..|events| - 1])
      case None => None
      case Some(u) => Step(u, events[|events| - 1])
  }

  /** Running one more callback after `events`. */
  lemma RunSnoc(s: Screen, events: seq<Event>, e: Event)
    ensures Run(s, events + [e]) == if Run(s, events).Some? then Step(Run(s, events).value, e) else None
  {
    assert (events + [e])[..|events|] == events;
  }

  /** The name field shows the text of the last completion posted, whichever
      scan started that fetch: completions overwrite it in arrival order. */
  lemma {:induction false} LastTitleWins(s: Screen, events: seq<Event>, t: Screen, i: nat)
    requires Run(s, events) == Some(t)
    requires i < |events| && events[i].TitlePosted?
    requires forall j :: i < j < |events| ==> !events[j].TitlePosted?
    ensures t.name == FetchTitle.NameText(events[i].outcome)
    decreases |events|
  {
    var prefix := events[..|events| - 1];
    var u :| Run(s, prefix) == Some(u);
    if i < |events| - 1 {
      assert events[|events| - 1].ScanReturned?;
      LastTitleWins(s, prefix, u, i);
    }
  }

  /** Without a posted completion the name field keeps its text. */
  lemma {:induction false} NameKeptWithoutTitles(s: Screen, events: seq<Event>, t: Screen)
    requires Run(s, events) == Some(t)
    requires forall j :: 0 <= j < |events| ==> events[j].ScanReturned?
    ensures t.name == s.name
    decreases |events|
  {
    if events != [] {
      var prefix := events[..|events| - 1];
      var u :| Run(s, prefix) == Some(u);
      NameKeptWithoutTitles(s, prefix, u);
    }
  }

  /** The address field shows the last scanned payload verbatim: later
      cancelled scans and posted titles leave it alone. */
  lemma {:induction false} LastPayloadShown(s: Screen, events: seq<Event>, t: Screen, i: nat)
    requires Run(s, events) == Some(t)
    requires i < |events| && IsPayload(events[i])
    requires forall j :: i < j < |events| ==> !IsPayload(events[j])
    ensures t.address == events[i].contents.value
    decreases |events|
  {
    var prefix := events[..|events| - 1];
    var u :| Run(s, prefix) == Some(u);
    if i < |events| - 1 {
      assert !IsPayload(events[|events| - 1]);
      LastPayloadShown(s, prefix, u, i);
    }
  }

  /** Without a scanned payload the address field keeps its text. */
  lemma {:induction false} AddressKeptWithoutPayload(s: Screen, events: seq<Event>, t: Screen)
    requires Run(s, events) == Some(t)
    requires forall j :: 0 <= j < |events| ==> !IsPayload(events[j])
    ensures t.address == s.address
    decreases |events|
  {
    if events != [] {
      var prefix := events[..|events| - 1];
      var u :| Run(s, prefix) == Some(u);
      AddressKeptWithoutPayload(s, prefix, u);
    }
  }

  /** Every running fetch was already running at the start or is for the raw
      text of a payload scanned since: nothing else starts a fetch, and the
      text is not normalised first. */
  lemma {:induction false} FetchesAreForScannedText(s: Screen, events: seq<Event>, t: Screen)
    requires Run(s, events) == Some(t)
    ensures forall url :: url in t.inFlight ==> url in s.inFlight || ScanReturned(Some(url)) in events
    decreases |events|
  {
    if events != [] {
      var prefix := events[..|events| - 1];
      var last := events[|events| - 1];
      var u :| Run(s, prefix) == Some(u);
      FetchesAreForScannedText(s, prefix, u);
      assert events == prefix + [last];
      match last
      case TitlePosted(slot, outcome) =>
        assert t == AfterTitle(u, slot, outcome);
        forall url | url in t.inFlight
          ensures url in u.inFlight
        {
          assert url in multiset(t.inFlight);
        }
      case ScanReturned(contents) =>
        assert t == AfterScan(u, contents);
    }
  }

  /** Cancelled scans change nothing and start no fetch. */
  lemma {:induction false} CancelledScansChangeNothing(s: Screen, events: seq<Event>)
    requires forall j :: 0 <= j < |events| ==> events[j] == ScanReturned(None)
    ensures Run(s, events) == Some(s)
    decreases |events|
  {
    if events != [] {
      CancelledScansChangeNothing(s, events[..|events| - 1]);
    }
  }

  /** Two overlapping scans whose fetches finish out of order: the screen ends
      with the second payload in the address field beside the title fetched
      for the first one. */
  lemma {:induction false} StaleTitleIsShown(s: Screen, first: string, second: string, o1: FetchTitle.Outcome, o2: FetchTitle.Outcome)
    ensures
      var n := |s.inFlight|;
      Run(s, [ScanReturned(Some(first)), ScanReturned(Some(second)), TitlePosted(n + 1, o2), TitlePosted(n, o1)])
      == Some(Screen(second, FetchTitle.NameText(o1), s.inFlight))
  {
    var n := |s.inFlight|;
    var e0, e1, e2, e3 := ScanReturned(Some(first)), ScanReturned(Some(second)), TitlePosted(n + 1, o2), TitlePosted(n, o1);
    var one := s.inFlight + [first];
    var both := one + [second];
    assert Run(s, [e0]) == Some(Screen(first, s.name, one)) by {
      RunSnoc(s, [], e0);
      assert [] + [e0] == [e0];
    }
    assert Run(s, [e0, e1]) == Some(Screen(second, s.name, both)) by {
      RunSnoc(s, [e0], e1);
      assert [e0] + [e1] == [e0, e1];
    }
    assert Run(s, [e0, e1, e2]) == Some(Screen(second, FetchTitle.NameText(o2), one)) by {
      RunSnoc(s, [e0, e1], e2);
      assert [e0, e1] + [e2] == [e0, e1, e2];
      assert both[..n + 1] + both[n + 2..] == one;
    }
    assert AfterTitle(Screen(second, FetchTitle.NameText(o2), one), n, o1)
        == Screen(second, FetchTitle.NameText(o1), s.inFlight) by {
      assert one[..n] + one[n + 1..] == s.inFlight;
    }
    assert Run(s, [e0, e1, e2, e3]) == Some(Screen(second, FetchTitle.NameText(o1), s.inFlight)) by {
      RunSnoc(s, [e0, e1, e2], e3);
      assert [e0, e1, e2] + [e3] == [e0, e1, e2, e3];
    }
  }

  /** Scanning a payload that lacks a scheme and then receiving its title: the
      payload is shown and fetched as it is; only a click on the address field
      adds the scheme. The posted title is hypothetical for such a payload: the
      fetch is for the raw text, and an HTTP client that rejects a URL without a
      scheme by an exception other than IOException posts nothing at all. */
  lemma {:induction false} ScanThenTitle(s: Screen, payload: string, title: string)
    requires payload != [] && !Url.HasWebScheme(payload)
    requires title != []
    ensures
      var n := |s.inFlight|;
      Run(s, [ScanReturned(Some(payload)), TitlePosted(n, FetchTitle.Document(Some(title)))])
      == Some(Screen(payload, title, s.inFlight))
    ensures Url.AddressClick(payload) == Url.OpenInBrowser(Url.Https + payload)
  {
    var n := |s.inFlight|;
    var e0, e1 := ScanReturned(Some(payload)), TitlePosted(n, FetchTitle.Document(Some(title)));
    RunSnoc(s, [], e0);
    assert [] + [e0] == [e0];
    RunSnoc(s, [e0], e1);
    assert [e0] + [e1] == [e0, e1];
    assert (s.inFlight + [payload])[..n] + (s.inFlight + [payload])[n + 1..] == s.inFlight;
  }

  /** MainActivity's fields `etAddress` and `etName`, as their text, and the
      fetches it has started whose completions are not yet posted. */
  class MainActivity {
    var address: string
    var name: string
    ghost var inFlight: seq<string>

    ghost function Shown(): Screen
      reads this
    {
      Screen(address, name, inFlight)
    }

    /** The fields hold what the layout put in them; no fetch is running. */
    constructor (address0: string, name0: string)
      ensures Shown() == Screen(address0, name0, [])
    {
      address, name, inFlight := address0, name0, [];
    }

    /** The barcodeLauncher result callback. `fetch` is the URL passed to
        fetchWebsiteTitle, if any. */
    method OnScanResult(contents: Option<string>) returns (toast: string, fetch: Option<string>)
      modifies this
      ensures Shown() == AfterScan(old(Shown()), contents)
      ensures fetch == contents
      ensures toast == if contents.None? then CancelledText else ScannedText(contents.value)
    {
      if contents.None? {
        toast, fetch := CancelledText, None;
      } else {
        var scannedUrl := contents.value;
        toast := ScannedText(scannedUrl);
        address := scannedUrl;
        inFlight := inFlight + [scannedUrl];
        fetch := Some(scannedUrl);
      }
    }

    /** The runnable a fetch posts to the main thread when it ends. */
    method OnTitlePosted(ghost slot: nat, outcome: FetchTitle.Outcome)
      requires slot < |inFlight|
      modifies this
      ensures Shown() == AfterTitle(old(Shown()), slot, outcome)
    {
      if outcome.IoError? {
        name := FetchTitle.ErrorFetchingTitleText;
      } else if outcome.title.Some? && outcome.title.value != [] {
        name := outcome.title.value;
      } else {
        name := FetchTitle.NoTitleFoundText;
      }
      inFlight := inFlight[..slot] + inFlight[slot + 1..];
    }

    /** onAddressClick: reads the address field and changes nothing. */
    method OnAddressClick() returns (r: Url.Click)
      ensures r == Url.AddressClick(address)
    {
      var url := address;
      if url != [] {
        if !(Url.Http <= url) && !(Url.Https <= url) {
          url := Url.Https + url;
        }
        r := Url.OpenInBrowser(url);
      } else {
        r := Url.NoUrlToOpen;
      }
    }
  }

  /** A client of the class: scan, click, cancel a second scan, then the
      first scan's fetch fails. */
  method ScanAndOpen(payload: string)
    requires payload != [] && !Url.HasWebScheme(payload)
  {
    var activity := new MainActivity([], []);
    var toast, fetch := activity.OnScanResult(Some(payload));
    assert fetch == Some(payload) && activity.address == payload;
    var click := activity.OnAddressClick();
    assert click == Url.OpenInBrowser(Url.Https + payload);
    toast, fetch := activity.OnScanResult(None);
    assert toast == CancelledText && fetch == None && activity.address == payload;
    activity.OnTitlePosted(0, FetchTitle.IoError);
    assert activity.name == FetchTitle.ErrorFetchingTitleText && activity.inFlight == [];
  }
}
