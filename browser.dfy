/** The browser service (src/browser/handler.rs): one WebDriver session, behind a lock, shared
    by every request. Each handler takes the lock, checks the API key, opens a tab, navigates it,
    extracts one thing from the page and closes the tab again. The browser is the state the
    handlers change; which of its commands fail, and what the page holds, are parameters. */
module Browser {
  import opened Wrappers
  import opened Utils
  import Base64
  import opened BrowserImages

  /** A window handle. WebDriver hands out opaque strings; here each new window gets the next number. */
  type Handle = nat

  predicate Distinct(ws: seq<Handle>) {
    forall i, j :: 0 <= i < j < |ws| ==> ws[i] != ws[j]
  }

  /** The open windows once `h` is closed. */
  function Remove(ws: seq<Handle>, h: Handle): (r: seq<Handle>)
    ensures forall w :: w in r <==> w in ws && w != h
    ensures |r| <= |ws|
    decreases |ws|
  {
    if ws == [] then []
    else (if ws[0] == h then [] else [ws[0]]) + Remove(ws[1..], h)
  }

  /** Closing an open window of a list without repeats removes exactly one entry, and no
      repeats appear. */
  lemma {:induction false} RemoveOpen(ws: seq<Handle>, h: Handle)
    requires Distinct(ws)
    ensures Distinct(Remove(ws, h))
    ensures h in ws ==> |Remove(ws, h)| == |ws| - 1
    ensures h !in ws ==> Remove(ws, h) == ws
    decreases |ws|
  {
    if ws != [] {
      var tail := ws[1..];
      DistinctTail(ws);
      RemoveOpen(tail, h);
      var rest := Remove(tail, h);
      if ws[0] != h {
        assert Remove(ws, h) == [ws[0]] + rest;
        DistinctCons(ws[0], rest);
        if h !in ws {
          assert ws == [ws[0]] + tail;
        }
      } else {
        assert Remove(ws, h) == [] + rest;
      }
    }
  }

  /** The tail of a list without repeats has none, and does not hold the head. */
  lemma DistinctTail(ws: seq<Handle>)
    requires Distinct(ws) && ws != []
    ensures Distinct(ws[1..]) && ws[0] !in ws[1..]
  {
    var tail := ws[1..];
    forall i, j | 0 <= i < j < |tail| ensures tail[i] != tail[j] {
      assert tail[i] == ws[i + 1] && tail[j] == ws[j + 1];
    }
    forall i | 0 <= i < |tail| ensures tail[i] != ws[0] {
      assert tail[i] == ws[i + 1];
    }
  }

  /** A new head in front of a list without repeats keeps it free of them. */
  lemma DistinctCons(x: Handle, rest: seq<Handle>)
    requires Distinct(rest) && x !in rest
    ensures Distinct([x] + rest)
  {
    var r := [x] + rest;
    forall i, j | 0 <= i < j < |r| ensures r[i] != r[j] {
      assert r[j] == rest[j - 1];
      if i > 0 {
        assert r[i] == rest[i - 1];
      }
    }
  }

  /** A fresh handle keeps a list without repeats free of them. */
  lemma AppendFresh(ws: seq<Handle>, h: Handle)
    requires Distinct(ws) && h !in ws
    ensures Distinct(ws + [h])
  {
    var r := ws + [h];
    forall i, j | 0 <= i < j < |r| ensures r[i] != r[j] {
      assert r[i] == ws[i];
      if j < |ws| {
        assert r[j] == ws[j];
      }
    }
  }

  /** Opening a fresh window and closing it again gives the list back. */
  lemma {:induction false} RemoveAppended(ws: seq<Handle>, h: Handle)
    requires h !in ws
    ensures Remove(ws + [h], h) == ws
    decreases |ws|
  {
    if ws == [] {
      assert [h][1..] == [];
    } else {
      RemoveAppended(ws[1..], h);
      assert (ws + [h])[1..] == ws[1..] + [h];
      assert ws == [ws[0]] + ws[1..];
    }
  }

  /** What the handlers see of the session: the open windows in the order WebDriver lists
      them, the window commands go to, the next handle to hand out and the address each window
      was last navigated to. */
  datatype Session = Session(windows: seq<Handle>, focused: Handle, nextHandle: nat, location: map<Handle, string>)

  /** Open windows are listed once each, and a new window never reuses an open window's handle. */
  predicate SessionValid(s: Session) {
    Distinct(s.windows) && forall w :: w in s.windows ==> w < s.nextHandle
  }

  /** Which WebDriver commands fail when a handler issues them (a transport or browser error).
      On top of these, a command aimed at a window that is not open fails, as the "no such
      window" error of the W3C WebDriver standard requires. */
  datatype DriverFaults = DriverFaults(
    newTab: bool,        // `new_tab`
    switchToTab: bool,   // `switch_to_window` to the new tab
    goto: bool,          // `goto`
    closeWindow: bool,   // `close_window`
    listWindows: bool,   // `windows`
    switchBack: bool)    // `switch_to_window` to the first window

  /** `cleanup_driver`: close the window in focus, list the windows, focus the first one. */
  function Cleanup(s: Session, f: DriverFaults): (r: (Result<(), string>, Session))
    ensures SessionValid(s) ==> SessionValid(r.1)
    ensures r.1.nextHandle == s.nextHandle && r.1.location == s.location
    ensures r.0.Success? <==>
              !f.closeWindow && s.focused in s.windows && !f.listWindows &&
              Remove(s.windows, s.focused) != [] && !f.switchBack
    ensures r.0.Success? ==> r.1.windows == Remove(s.windows, s.focused) && r.1.focused == r.1.windows[0]
  {
    if f.closeWindow || s.focused !in s.windows then (Failure("Failed to close tab"), s)
    else
      var closed := s.(windows := Remove(s.windows, s.focused));
      assert SessionValid(s) ==> SessionValid(closed) by {
        if SessionValid(s) {
          RemoveOpen(s.windows, s.focused);
        }
      }
      if f.listWindows then (Failure("Failed to get windows"), closed)
      else if closed.windows == [] then (Failure("Failed to get window handle"), closed)
      else if f.switchBack then (Failure("Failed to switch to window"), closed)
      else (Success(()), closed.(focused := closed.windows[0]))
  }

  /** `setup_driver`: open a tab, focus it and navigate it to `url`. Opening the tab fails
      when the window in focus is closed, as a failed cleanup can leave it. When focusing or
      navigating fails, the driver is cleaned up first, and a failing cleanup's error is the one
      returned. The `img` probe that follows changes nothing and its outcome is ignored. */
  function Setup(s: Session, url: string, f: DriverFaults): (r: (Result<(), string>, Session))
    ensures SessionValid(s) ==> SessionValid(r.1)
    ensures r.0.Success? <==> !f.newTab && s.focused in s.windows && !f.switchToTab && !f.goto
    ensures f.newTab || s.focused !in s.windows ==> r == (Failure("Failed to create new tab"), s)
    ensures r.0.Success? ==>
              r.1 == Session(s.windows + [s.nextHandle], s.nextHandle, s.nextHandle + 1,
                             s.location[s.nextHandle := url])
    ensures !f.newTab && s.focused in s.windows && f.switchToTab ==>
              var withTab := s.(windows := s.windows + [s.nextHandle], nextHandle := s.nextHandle + 1);
              var (cleanup, after) := Cleanup(withTab, f);
              r == (if cleanup.Failure? then cleanup else Failure("Failed to switch to new tab"), after)
    ensures !f.newTab && s.focused in s.windows && !f.switchToTab && f.goto ==>
              var moved := s.(windows := s.windows + [s.nextHandle], nextHandle := s.nextHandle + 1,
                              focused := s.nextHandle);
              var (cleanup, after) := Cleanup(moved, f);
              r == (if cleanup.Failure? then cleanup else Failure("Failed to navigate to URL"), after)
  {
    if f.newTab || s.focused !in s.windows then (Failure("Failed to create new tab"), s)
    else
      var tab := s.nextHandle;
      var withTab := s.(windows := s.windows + [tab], nextHandle := tab + 1);
      assert SessionValid(s) ==> SessionValid(withTab) by {
        if SessionValid(s) {
          AppendFresh(s.windows, tab);
        }
      }
      if f.switchToTab then
        var (cleanup, after) := Cleanup(withTab, f);
        (if cleanup.Failure? then cleanup else Failure("Failed to switch to new tab"), after)
      else
        var moved := withTab.(focused := tab);
        if f.goto then
          var (cleanup, after) := Cleanup(moved, f);
          (if cleanup.Failure? then cleanup else Failure("Failed to navigate to URL"), after)
        else
          (Success(()), moved.(location := moved.location[tab := url]))
  }

  /** A failed navigation whose cleanup works closes the new tab again: the windows are those
      before the call, the first one in focus. */
  lemma GotoFailureRestoresWindows(s: Session, url: string, f: DriverFaults)
    requires SessionValid(s) && s.focused in s.windows
    requires !f.newTab && !f.switchToTab && f.goto
    requires !f.closeWindow && !f.listWindows && !f.switchBack
    ensures Setup(s, url, f).0 == Failure("Failed to navigate to URL")
    ensures Setup(s, url, f).1.windows == s.windows && Setup(s, url, f).1.focused == s.windows[0]
  {
    assert s.nextHandle !in s.windows;
    RemoveAppended(s.windows, s.nextHandle);
  }

  /** The 12ft.io front end `get_html` goes through to bypass a paywall. */
  const HtmlFront: string := "https://12ft.io/"

  /** The 12ft.io proxy `get_text`, `get_screenshot` and `get_images` go through to bypass a paywall. */
  const ProxyFront: string := "https://12ft.io/api/proxy?ref=&q="

  /** The address a handler opens: the caller's URL, behind `front` when asked to bypass a paywall. */
  function Target(front: string, url: string, bypassPaywall: bool): (target: string)
    ensures bypassPaywall ==> target == front + url
    ensures !bypassPaywall ==> target == url
  {
    if bypassPaywall then front + url else url
  }

  /** A handler's answer and the session after it: check the key, set up the tab for `target`,
      take what the page gave (`extracted`, with the handler's own message on failure), clean up.
      The lock is held throughout, so no other request sees the steps in between. */
  function Serve<T, E>(s: Session, apiKey: string, header: Option<string>, target: string,
                       f: DriverFaults, extracted: Result<T, string>)
    : (Result<JsonSuccess<T>, JsonError<E>>, Session)
  {
    match VerifyApiKey(header, apiKey)
    case Failure(e) => (Failure(RespondUnauthorized(e)), s)
    case Success(_) =>
      var (setup, ready) := Setup(s, target, f);
      if setup.Failure? then (Failure(RespondInternalServerError("Failed to setup driver")), ready)
      else
        match extracted
        case Failure(message) => (Failure(RespondInternalServerError(message)), ready)
        case Success(value) =>
          var (cleanup, after) := Cleanup(ready, f);
          if cleanup.Failure? then (Failure(RespondInternalServerError("Failed to cleanup driver")), after)
          else (Success(RespondOk(value)), after)
  }

  /** What every handler promises: the session stays well formed; a wrong key is a 401 and
      nothing else happens; the answer is a success exactly when the key, the setup, the
      extraction and the cleanup all work, and then it carries the extracted value; every
      other failure is a 500. */
  lemma ServeAnswers<T, E>(s: Session, apiKey: string, header: Option<string>, target: string,
                           f: DriverFaults, extracted: Result<T, string>)
    ensures var r := Serve<T, E>(s, apiKey, header, target, f, extracted);
            SessionValid(s) ==> SessionValid(r.1)
    ensures var r := Serve<T, E>(s, apiKey, header, target, f, extracted);
            VerifyApiKey(header, apiKey).Failure? ==>
              r == (Failure(RespondUnauthorized(VerifyApiKey(header, apiKey).error)), s)
    ensures var r := Serve<T, E>(s, apiKey, header, target, f, extracted);
            r.0.Success? <==>
              && header == Some(apiKey)
              && Setup(s, target, f).0.Success?
              && extracted.Success?
              && Cleanup(Setup(s, target, f).1, f).0.Success?
    ensures var r := Serve<T, E>(s, apiKey, header, target, f, extracted);
            r.0.Success? ==> r.0.value == RespondOk(extracted.value)
    ensures var r := Serve<T, E>(s, apiKey, header, target, f, extracted);
            r.0.Failure? && !r.0.error.Unauthorized? ==> r.0.error.InternalServerError?
  {
  }

  /** What `get_html` takes from the page: its source. */
  function HtmlExtract(source: Result<string, string>): (r: Result<string, string>)
    ensures r.Success? <==> source.Success?
    ensures r.Success? ==> r.value == source.value
    ensures r.Failure? ==> r.error == "Failed to get page source"
  {
    if source.Success? then Success(source.value) else Failure("Failed to get page source")
  }

  /** What the browser answers to `find(By::Tag("body"))` and then to the body's `text()`. */
  datatype BodyReads = BodyMissing | BodyFound(text: Result<string, string>)

  /** What `get_text` takes from the page: the text of its body. */
  function TextExtract(body: BodyReads): (r: Result<string, string>)
    ensures r.Success? <==> body.BodyFound? && body.text.Success?
    ensures r.Success? ==> r.value == body.text.value
    ensures body.BodyMissing? ==> r == Failure("Failed to get the body of the page")
    ensures body.BodyFound? && body.text.Failure? ==> r == Failure("Failed to get the text of the body")
  {
    match body
    case BodyMissing => Failure("Failed to get the body of the page")
    case BodyFound(text) =>
      if text.Failure? then Failure("Failed to get the text of the body") else Success(text.value)
  }

  const DataUrlPrefix: string := "data:image/png;base64,"

  /** What `get_screenshot` takes from the page: the PNG as a base64 data URL. */
  function ScreenshotExtract(png: Result<seq<Base64.Byte>, string>): (r: Result<string, string>)
    ensures r.Success? <==> png.Success?
    ensures r.Failure? ==> r.error == "Failed to get the screenshot of the page"
    ensures r.Success? ==>
              DataUrlPrefix <= r.value && Base64.Decode(r.value[|DataUrlPrefix|..]) == Some(png.value)
  {
    if png.Failure? then Failure("Failed to get the screenshot of the page")
    else
      var data := DataUrlPrefix + Base64.Encode(png.value);
      Base64.DecodeEncode(png.value);
      assert data[|DataUrlPrefix|..] == Base64.Encode(png.value);
      Success(data)
  }

  /** What `get_images` takes from the page: the records of its `img` elements, largest first. */
  function ImagesExtract(found: Result<seq<ElementReads>, string>): (r: Result<seq<Image>, string>)
    ensures r.Success? <==> found.Success?
    ensures r.Failure? ==> r.error == "Failed to get the images of the page"
    ensures r.Success? ==> SortedBySize(r.value) && multiset(r.value) == multiset(Collected(found.value))
  {
    if found.Failure? then Failure("Failed to get the images of the page")
    else Success(SortBySize(Collected(found.value)))
  }

  const HealthUrl: string := "https://example.com"

  /** `health`: the same setup, source and cleanup cycle on a fixed page, without a key check;
      each failure carries the step's own error text. */
  function HealthCheck(s: Session, f: DriverFaults, source: Result<string, string>): (r: (Result<(), string>, Session))
    ensures SessionValid(s) ==> SessionValid(r.1)
    ensures r.0.Success? <==>
              Setup(s, HealthUrl, f).0.Success? && source.Success? && Cleanup(Setup(s, HealthUrl, f).1, f).0.Success?
    ensures Setup(s, HealthUrl, f).0.Failure? ==>
              r == (Failure("Failed to setup driver: " + Setup(s, HealthUrl, f).0.error), Setup(s, HealthUrl, f).1)
    ensures Setup(s, HealthUrl, f).0.Success? && source.Failure? ==>
              r == (Failure("Failed to get page source: " + source.error), Setup(s, HealthUrl, f).1)
    ensures Setup(s, HealthUrl, f).0.Success? && source.Success? ==>
              var (cleanup, after) := Cleanup(Setup(s, HealthUrl, f).1, f);
              r == (if cleanup.Failure? then Failure("Failed to cleanup driver: " + cleanup.error) else Success(()), after)
  {
    var (setup, ready) := Setup(s, HealthUrl, f);
    if setup.Failure? then (Failure("Failed to setup driver: " + setup.error), ready)
    else if source.Failure? then (Failure("Failed to get page source: " + source.error), ready)
    else
      var (cleanup, after) := Cleanup(ready, f);
      if cleanup.Failure? then (Failure("Failed to cleanup driver: " + cleanup.error), after)
      else (Success(()), after)
  }

  // Properties of the cycle

  /** A request that works leaves the windows exactly as it found them: the tab it opened is
      closed and the first window has focus. */
  lemma ServeRestoresWindows<T, E>(s: Session, apiKey: string, header: Option<string>, target: string,
                                   f: DriverFaults, extracted: Result<T, string>)
    requires SessionValid(s)
    requires Serve<T, E>(s, apiKey, header, target, f, extracted).0.Success?
    ensures var after := Serve<T, E>(s, apiKey, header, target, f, extracted).1;
            s.windows != [] && after.windows == s.windows && after.focused == s.windows[0]
    ensures Serve<T, E>(s, apiKey, header, target, f, extracted).1.location[s.nextHandle] == target
  {
    var ready := Setup(s, target, f).1;
    assert s.nextHandle !in s.windows;
    RemoveAppended(s.windows, s.nextHandle);
    assert Remove(ready.windows, ready.focused) == s.windows;
  }

  /** A failed extraction answers at once with the handler's message and leaves the new tab
      open and in focus. */
  lemma ExtractionFailureLeaksTab<T, E>(s: Session, apiKey: string, target: string,
                                        f: DriverFaults, extracted: Result<T, string>)
    requires Setup(s, target, f).0.Success? && extracted.Failure?
    ensures var r := Serve<T, E>(s, apiKey, Some(apiKey), target, f, extracted);
            && r.0 == Failure(RespondInternalServerError(extracted.error))
            && r.1.windows == s.windows + [s.nextHandle]
            && r.1.focused == s.nextHandle
  {
  }

  /** A failed cleanup after a successful extraction replaces the page's content with an error. */
  lemma CleanupFailureOverrides<T, E>(s: Session, apiKey: string, target: string,
                                      f: DriverFaults, extracted: Result<T, string>)
    requires Setup(s, target, f).0.Success? && extracted.Success?
    requires Cleanup(Setup(s, target, f).1, f).0.Failure?
    ensures Serve<T, E>(s, apiKey, Some(apiKey), target, f, extracted).0
            == Failure(RespondInternalServerError("Failed to cleanup driver"))
  {
  }

  /** When the new tab cannot be focused, the cleanup still runs on the window that had focus
      before: that window is closed and the new tab stays open. */
  lemma SwitchFailureClosesPreviousWindow(s: Session, url: string, f: DriverFaults)
    requires SessionValid(s) && s.focused in s.windows
    requires !f.newTab && f.switchToTab && !f.closeWindow
    ensures var after := Setup(s, url, f).1;
            && after.windows == Remove(s.windows, s.focused) + [s.nextHandle]
            && s.focused !in after.windows && s.nextHandle in after.windows
  {
    var tab := s.nextHandle;
    assert tab != s.focused;
    RemoveDistributes(s.windows, [tab], s.focused);
    assert Remove([tab], s.focused) == [tab];
  }

  /** A cleanup that closes the window in focus and then fails leaves focus on the closed
      window, so the next request's setup fails at once, touching nothing, whatever the
      browser would do. */
  lemma FailedCleanupBlocksNextSetup(s: Session, f: DriverFaults, url: string, g: DriverFaults)
    requires SessionValid(s) && s.focused in s.windows && !f.closeWindow
    requires Cleanup(s, f).0.Failure?
    ensures var after := Cleanup(s, f).1;
            s.focused == after.focused && after.focused !in after.windows
    ensures Setup(Cleanup(s, f).1, url, g) == (Failure("Failed to create new tab"), Cleanup(s, f).1)
  {
  }

  lemma {:induction false} RemoveDistributes(a: seq<Handle>, b: seq<Handle>, h: Handle)
    ensures Remove(a + b, h) == Remove(a, h) + Remove(b, h)
    decreases |a|
  {
    if a == [] {
      assert a + b == b;
    } else {
      var head := if a[0] == h then [] else [a[0]];
      RemoveDistributes(a[1..], b, h);
      assert (a + b)[0] == a[0] && (a + b)[1..] == a[1..] + b;
      assert Remove(a + b, h) == head + (Remove(a[1..], h) + Remove(b, h));
      assert Remove(a, h) == head + Remove(a[1..], h);
    }
  }

  /** A failed key check opens no tab and touches nothing, whatever the browser would have done. */
  lemma UnauthorizedTouchesNothing<T, E>(s: Session, apiKey: string, header: Option<string>, target: string,
                                         f: DriverFaults, extracted: Result<T, string>)
    requires header != Some(apiKey)
    ensures Serve<T, E>(s, apiKey, header, target, f, extracted).1 == s
    ensures Serve<T, E>(s, apiKey, header, target, f, extracted).0.Failure?
    ensures Serve<T, E>(s, apiKey, header, target, f, extracted).0.error.Unauthorized?
  {
  }

  /** The WebDriver session together with the lock that guards it (`Arc<Mutex<WebDriver>>`). */
  class WebDriver {
    var windows: seq<Handle>
    var focused: Handle
    var nextHandle: nat
    var location: map<Handle, string>
    var locked: bool
    var acquisitions: nat   // how many times the lock has been taken

    function State(): Session
      reads this
    {
      Session(windows, focused, nextHandle, location)
    }

    predicate Valid()
      reads this
    {
      SessionValid(State())
    }

    /** A fresh session: one window, in focus, and the lock free. */
    constructor()
      ensures Valid() && State() == Session([0], 0, 1, map[])
      ensures !locked && acquisitions == 0
    {
      windows := [0];
      focused := 0;
      nextHandle := 1;
      location := map[];
      locked := false;
      acquisitions := 0;
    }

    method Lock()
      requires !locked
      modifies this`locked, this`acquisitions
      ensures locked && acquisitions == old(acquisitions) + 1
    {
      locked := true;
      acquisitions := acquisitions + 1;
    }

    method Unlock()
      requires locked
      modifies this`locked
      ensures !locked
    {
      locked := false;
    }

    /** New Window: a tab with a fresh handle; focus stays where it was. It fails when the
        window in focus is not open. */
    method NewTab(fails: bool) returns (tab: Option<Handle>)
      requires Valid()
      modifies this`windows, this`nextHandle
      ensures Valid()
      ensures tab.None? <==> fails || focused !in old(windows)
      ensures tab.None? ==> windows == old(windows) && nextHandle == old(nextHandle)
      ensures tab.Some? ==> && tab == Some(old(nextHandle))
                            && windows == old(windows) + [old(nextHandle)]
                            && nextHandle == old(nextHandle) + 1
    {
      if fails || focused !in windows {
        return None;
      }
      tab := Some(nextHandle);
      AppendFresh(windows, nextHandle);
      windows := windows + [nextHandle];
      nextHandle := nextHandle + 1;
    }

    /** Switch To Window: fails for a handle that is not open. */
    method SwitchToWindow(handle: Handle, fails: bool) returns (ok: bool)
      modifies this`focused
      ensures ok <==> !fails && handle in windows
      ensures focused == if ok then handle else old(focused)
    {
      ok := !fails && handle in windows;
      if ok {
        focused := handle;
      }
    }

    /** Navigate To: fails when the window in focus is not open. */
    method Goto(url: string, fails: bool) returns (ok: bool)
      modifies this`location
      ensures ok <==> !fails && focused in windows
      ensures location == if ok then old(location)[focused := url] else old(location)
    {
      ok := !fails && focused in windows;
      if ok {
        location := location[focused := url];
      }
    }

    /** Close Window: closes the window in focus, which keeps its now stale handle. */
    method CloseWindow(fails: bool) returns (ok: bool)
      requires Valid()
      modifies this`windows
      ensures Valid()
      ensures ok <==> !fails && focused in old(windows)
      ensures windows == if ok then Remove(old(windows), focused) else old(windows)
    {
      ok := !fails && focused in windows;
      if ok {
        RemoveOpen(windows, focused);
        windows := Remove(windows, focused);
      }
    }

    /** Get Window Handles. */
    method Windows(fails: bool) returns (handles: Option<seq<Handle>>)
      ensures handles == if fails then None else Some(windows)
    {
      handles := if fails then None else Some(windows);
    }
  }

  /** `Selenium`: the endpoints, all sharing one session. */
  class Selenium {
    const driver: WebDriver

    constructor(driver: WebDriver)
      ensures this.driver == driver
    {
      this.driver := driver;
    }

    method CleanupDriver(f: DriverFaults) returns (r: Result<(), string>)
      requires driver.Valid()
      modifies driver`windows, driver`focused
      ensures driver.Valid()
      ensures (r, driver.State()) == Cleanup(old(driver.State()), f)
    {
      var closed := driver.CloseWindow(f.closeWindow);
      if !closed {
        return Failure("Failed to close tab");
      }
      var windows := driver.Windows(f.listWindows);
      if windows.None? {
        return Failure("Failed to get windows");
      }
      if windows.value == [] {
        return Failure("Failed to get window handle");
      }
      var handle := windows.value[0];
      var switched := driver.SwitchToWindow(handle, f.switchBack);
      if !switched {
        return Failure("Failed to switch to window");
      }
      return Success(());
    }

    method SetupDriver(url: string, f: DriverFaults) returns (r: Result<(), string>)
      requires driver.Valid()
      modifies driver`windows, driver`focused, driver`nextHandle, driver`location
      ensures driver.Valid()
      ensures (r, driver.State()) == Setup(old(driver.State()), url, f)
    {
      var tab := driver.NewTab(f.newTab);
      if tab.None? {
        return Failure("Failed to create new tab");
      }
      var switched := driver.SwitchToWindow(tab.value, f.switchToTab);
      if !switched {
        r := CleanupDriver(f);
        if r.Success? {
          r := Failure("Failed to switch to new tab");
        }
        return;
      }
      var navigated := driver.Goto(url, f.goto);
      if !navigated {
        r := CleanupDriver(f);
        if r.Success? {
          r := Failure("Failed to navigate to URL");
        }
        return;
      }
      return Success(());
    }

    /** `get_html`: the rendered source of the page. */
    method GetHtml(apiKey: string, header: Option<string>, url: string, bypassPaywall: bool,
                   f: DriverFaults, source: Result<string, string>)
      returns (r: Result<JsonSuccess<string>, JsonError<string>>)
      requires driver.Valid() && !driver.locked
      modifies driver
      ensures driver.Valid() && !driver.locked && driver.acquisitions == old(driver.acquisitions) + 1
      ensures (r, driver.State())
              == Serve(old(driver.State()), apiKey, header, Target(HtmlFront, url, bypassPaywall), f, HtmlExtract(source))
    {
      driver.Lock();
      var auth := VerifyApiKey(header, apiKey);
      if auth.Failure? {
        driver.Unlock();
        return Failure(RespondUnauthorized(auth.error));
      }
      var target := url;
      if bypassPaywall {
        target := HtmlFront + url;
      }
      var setup := SetupDriver(target, f);
      if setup.Failure? {
        driver.Unlock();
        return Failure(RespondInternalServerError("Failed to setup driver"));
      }
      if source.Failure? {
        driver.Unlock();
        return Failure(RespondInternalServerError("Failed to get page source"));
      }
      var html := source.value;
      var cleanup := CleanupDriver(f);
      driver.Unlock();
      if cleanup.Failure? {
        return Failure(RespondInternalServerError("Failed to cleanup driver"));
      }
      return Success(RespondOk(html));
    }

    /** `get_text`: the text of the page's body. */
    method GetText(apiKey: string, header: Option<string>, url: string, bypassPaywall: bool,
                   f: DriverFaults, body: BodyReads)
      returns (r: Result<JsonSuccess<string>, JsonError<string>>)
      requires driver.Valid() && !driver.locked
      modifies driver
      ensures driver.Valid() && !driver.locked && driver.acquisitions == old(driver.acquisitions) + 1
      ensures (r, driver.State())
              == Serve(old(driver.State()), apiKey, header, Target(ProxyFront, url, bypassPaywall), f, TextExtract(body))
    {
      driver.Lock();
      var auth := VerifyApiKey(header, apiKey);
      if auth.Failure? {
        driver.Unlock();
        return Failure(RespondUnauthorized(auth.error));
      }
      var target := url;
      if bypassPaywall {
        target := ProxyFront + url;
      }
      var setup := SetupDriver(target, f);
      if setup.Failure? {
        driver.Unlock();
        return Failure(RespondInternalServerError("Failed to setup driver"));
      }
      if body.BodyMissing? {
        driver.Unlock();
        return Failure(RespondInternalServerError("Failed to get the body of the page"));
      }
      if body.text.Failure? {
        driver.Unlock();
        return Failure(RespondInternalServerError("Failed to get the text of the body"));
      }
      var text := body.text.value;
      var cleanup := CleanupDriver(f);
      driver.Unlock();
      if cleanup.Failure? {
        return Failure(RespondInternalServerError("Failed to cleanup driver"));
      }
      return Success(RespondOk(text));
    }

    /** `get_screenshot`: a PNG of the page as a base64 data URL. */
    method GetScreenshot(apiKey: string, header: Option<string>, url: string, bypassPaywall: bool,
                         f: DriverFaults, png: Result<seq<Base64.Byte>, string>)
      returns (r: Result<JsonSuccess<string>, JsonError<Option<string>>>)
      requires driver.Valid() && !driver.locked
      modifies driver
      ensures driver.Valid() && !driver.locked && driver.acquisitions == old(driver.acquisitions) + 1
      ensures (r, driver.State())
              == Serve(old(driver.State()), apiKey, header, Target(ProxyFront, url, bypassPaywall), f, ScreenshotExtract(png))
    {
      driver.Lock();
      var auth := VerifyApiKey(header, apiKey);
      if auth.Failure? {
        driver.Unlock();
        return Failure(RespondUnauthorized(auth.error));
      }
      var target := url;
      if bypassPaywall {
        target := ProxyFront + url;
      }
      var setup := SetupDriver(target, f);
      if setup.Failure? {
        driver.Unlock();
        return Failure(RespondInternalServerError("Failed to setup driver"));
      }
      if png.Failure? {
        driver.Unlock();
        return Failure(RespondInternalServerError("Failed to get the screenshot of the page"));
      }
      var b64 := Base64.Encode(png.value);
      var cleanup := CleanupDriver(f);
      driver.Unlock();
      if cleanup.Failure? {
        return Failure(RespondInternalServerError("Failed to cleanup driver"));
      }
      return Success(RespondOk(DataUrlPrefix + b64));
    }

    /** `get_images`: the page's images, largest first. */
    method GetImages(apiKey: string, header: Option<string>, url: string, bypassPaywall: bool,
                     f: DriverFaults, found: Result<seq<ElementReads>, string>)
      returns (r: Result<JsonSuccess<seq<Image>>, JsonError<string>>)
      requires driver.Valid() && !driver.locked
      modifies driver
      ensures driver.Valid() && !driver.locked && driver.acquisitions == old(driver.acquisitions) + 1
      ensures (r, driver.State())
              == Serve(old(driver.State()), apiKey, header, Target(ProxyFront, url, bypassPaywall), f, ImagesExtract(found))
    {
      driver.Lock();
      var auth := VerifyApiKey(header, apiKey);
      if auth.Failure? {
        driver.Unlock();
        return Failure(RespondUnauthorized(auth.error));
      }
      var target := url;
      if bypassPaywall {
        target := ProxyFront + url;
      }
      var setup := SetupDriver(target, f);
      if setup.Failure? {
        driver.Unlock();
        return Failure(RespondInternalServerError("Failed to setup driver"));
      }
      if found.Failure? {
        driver.Unlock();
        return Failure(RespondInternalServerError("Failed to get the images of the page"));
      }
      var images := CollectImages(found.value);
      var cleanup := CleanupDriver(f);
      driver.Unlock();
      if cleanup.Failure? {
        return Failure(RespondInternalServerError("Failed to cleanup driver"));
      }
      images := SortBySize(images);
      return Success(RespondOk(images));
    }

    /** `health`: one full cycle on a fixed page. */
    method Health(f: DriverFaults, source: Result<string, string>) returns (r: Result<(), string>)
      requires driver.Valid() && !driver.locked
      modifies driver
      ensures driver.Valid() && !driver.locked && driver.acquisitions == old(driver.acquisitions) + 1
      ensures (r, driver.State()) == HealthCheck(old(driver.State()), f, source)
    {
      driver.Lock();
      var setup := SetupDriver(HealthUrl, f);
      if setup.Failure? {
        driver.Unlock();
        return Failure("Failed to setup driver: " + setup.error);
      }
      if source.Failure? {
        driver.Unlock();
        return Failure("Failed to get page source: " + source.error);
      }
      var cleanup := CleanupDriver(f);
      driver.Unlock();
      if cleanup.Failure? {
        return Failure("Failed to cleanup driver: " + cleanup.error);
      }
      return Success(());
    }
  }
}
