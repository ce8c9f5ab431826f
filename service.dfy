/** The argument checks and string building of the D-Bus service object
    (`src/ndb/NDBDbus.cc`, and its earlier twin `src/ndb/ndb.cc` where the two
    agree), the set of connected signal names, the view-change debounce and
    the signals emitted when a line-edit dialog closes, where the two versions
    differ. libnickel, the USB-session probe and the emission of D-Bus error
    replies are reduced to inputs and `Result` values. */
module Service {
  import opened Wrappers
  import opened Text

  datatype ErrorKind = InvalidArgs | InternalError

  /** The error reply a D-Bus call sends back. */
  datatype DBusError = DBusError(kind: ErrorKind, message: string)

  /** The guard every user-facing call starts with: nothing runs during a USB
      mass-storage session. */
  function UsbmsError(func: string): DBusError
  {
    DBusError(InternalError, "not calling method " + func + ": in usbms session")
  }

  // ---- actions and settings ----

  /** `ndbActionStrValid`: case-sensitive comparison with the three action
      words. */
  predicate ActionStrValid(action: string)
  {
    action == "enable" || action == "disable" || action == "toggle"
  }

  /** `ndbSettings`: an invalid action is refused before anything happens;
      otherwise the setting argument is `<action>:<setting>`. */
  function Settings(action: string, setting: string): (r: Result<string, DBusError>)
    ensures r.Failure? <==> !ActionStrValid(action)
    ensures r.Failure? ==> r.error == DBusError(InvalidArgs, "invalid action name")
  {
    if !ActionStrValid(action) then Failure(DBusError(InvalidArgs, "invalid action name"))
    else Success(action + ":" + setting)
  }

  /** Split a setting argument at its first colon. */
  function SplitSetting(arg: string): (string, string)
  {
    var k := IndexOf(arg, ':');
    if k < 0 then (arg, "") else (arg[..k], arg[k + 1..])
  }

  /** The setting argument carries the action and the setting unchanged:
      splitting it at the first colon gives both back, whatever the setting. */
  lemma SettingsRoundTrip(action: string, setting: string)
    requires Settings(action, setting).Success?
    ensures ActionStrValid(action)
    ensures SplitSetting(Settings(action, setting).value) == (action, setting)
  {
    var arg := action + ":" + setting;
    assert ':' !in action;
    assert arg[|action|] == ':';
    assert arg[..|action|] == action && arg[|action| + 1..] == setting;
  }

  // ---- the browser argument ----

  /** The text `bwmOpenBrowser` builds: `modal`, a colon when a URL or CSS
      follows it, the URL and a space, then the CSS. */
  function BrowserText(modal: bool, url: string, css: string): string
  {
    if modal || url != "" || css != "" then
      (if modal then "modal" + (if url != "" || css != "" then ":" else "") else "")
      + (if url != "" then url + " " else "")
      + css
    else ""
  }

  /** `bwmOpenBrowser`'s argument by successive appends; an empty argument
      is passed as NULL (`None`). */
  method BrowserArg(modal: bool, url: string, css: string) returns (arg: Option<string>)
    ensures arg.None? <==> BrowserText(modal, url, css) == ""
    ensures arg.Some? ==> arg.value == BrowserText(modal, url, css)
  {
    var qarg := "";
    if modal || url != "" || css != "" {
      if modal {
        qarg := qarg + "modal";
        if url != "" || css != "" {
          qarg := qarg + ":";
        }
      }
      if url != "" {
        qarg := qarg + url + " ";
      }
      if css != "" {
        qarg := qarg + css;
      }
    }
    if qarg != "" {
      arg := Some(qarg);
    } else {
      arg := None;
    }
  }

  /** NULL is passed exactly when the browser is neither modal nor given a
      URL or CSS. */
  lemma BrowserNullIff(modal: bool, url: string, css: string)
    ensures BrowserText(modal, url, css) == "" <==> !modal && url == "" && css == ""
  {
    if modal {
      assert BrowserText(modal, url, css)[0] == 'm';
    } else if url != "" {
      assert |BrowserText(modal, url, css)| >= |url| + 1;
    }
  }

  /** A reading of the browser argument: an optional `modal` prefix with its
      colon, then a URL up to the first space, then the CSS. */
  function ParseBrowserArg(arg: Option<string>): (bool, string, string)
  {
    match arg
    case None => (false, "", "")
    case Some(s) =>
      var modal := StartsWith(s, "modal");
      var rest := if modal then s[5..] else s;
      var body := if modal && StartsWith(rest, ":") then rest[1..] else rest;
      var sp := IndexOf(body, ' ');
      if sp < 0 then (modal, "", body) else (modal, body[..sp], body[sp + 1..])
  }

  /** The inputs for which the argument format is unambiguous: no space in the
      URL, no space in CSS that stands alone, and no `modal` lookalike at the
      front of a non-modal argument. */
  predicate Unambiguous(modal: bool, url: string, css: string)
  {
    && ' ' !in url
    && (url == "" ==> ' ' !in css)
    && (!modal && url != "" ==> !StartsWith(url, "modal"))
    && (!modal && url == "" ==> !StartsWith(css, "modal"))
  }

  function ArgOf(text: string): Option<string>
  {
    if text == "" then None else Some(text)
  }

  /** The body after the optional `modal:` prefix reads back as URL and CSS. */
  lemma {:induction false} BodyRoundTrip(url: string, css: string)
    requires ' ' !in url && (url == "" ==> ' ' !in css)
    ensures var body := (if url != "" then url + " " else "") + css;
      var sp := IndexOf(body, ' ');
      (if sp < 0 then ("", body) else (body[..sp], body[sp + 1..])) == (url, css)
  {
    var body := (if url != "" then url + " " else "") + css;
    if url != "" {
      assert body[|url|] == ' ';
      assert forall k :: 0 <= k < |url| ==> body[k] == url[k];
      assert body[..|url|] == url && body[|url| + 1..] == css;
    } else {
      assert body == css;
    }
  }

  /** A non-modal argument whose URL (or, without one, CSS) does not begin
      with `modal` does not begin with `modal`. */
  lemma NoModalPrefix(url: string, css: string)
    requires ' ' !in url
    requires url != "" ==> !StartsWith(url, "modal")
    requires url == "" ==> !StartsWith(css, "modal")
    ensures !StartsWith((if url != "" then url + " " else "") + css, "modal")
  {
    var s := (if url != "" then url + " " else "") + css;
    if url != "" && |url| < 5 && |s| >= 5 {
      assert s[..5][|url|] == ' ';
      assert forall i :: 0 <= i < 5 ==> "modal"[i] != ' ';
    }
    if url != "" && |url| >= 5 {
      assert s[..5] == url[..5];
    }
  }

  /** After `modal`, the optional colon is dropped and the body is left. */
  lemma ModalPrefixStripped(colon: string, body: string)
    requires colon == ":" || (colon == "" && body == "")
    ensures var s := "modal" + colon + body;
      StartsWith(s, "modal") && (if StartsWith(s[5..], ":") then s[5..][1..] else s[5..]) == body
  {
    var s := "modal" + colon + body;
    assert s[..5] == "modal";
    assert s[5..] == colon + body;
    if colon == ":" {
      assert (colon + body)[1..] == body;
    }
  }

  /** The modal half of the round trip. */
  lemma ModalRoundTrip(url: string, css: string)
    requires Unambiguous(true, url, css)
    ensures ParseBrowserArg(ArgOf(BrowserText(true, url, css))) == (true, url, css)
  {
    var body := (if url != "" then url + " " else "") + css;
    var colon := if url != "" || css != "" then ":" else "";
    BodyRoundTrip(url, css);
    ModalPrefixStripped(colon, body);
    assert BrowserText(true, url, css) == "modal" + colon + body;
  }

  /** The browser argument round-trips: reading it gives back the modal flag,
      the URL and the CSS. */
  lemma BrowserRoundTrip(modal: bool, url: string, css: string)
    requires Unambiguous(modal, url, css)
    ensures ParseBrowserArg(ArgOf(BrowserText(modal, url, css))) == (modal, url, css)
  {
    if modal {
      ModalRoundTrip(url, css);
    } else {
      BrowserNullIff(modal, url, css);
      BodyRoundTrip(url, css);
      NoModalPrefix(url, css);
      var body := (if url != "" then url + " " else "") + css;
      assert BrowserText(modal, url, css) == body;
      if body != "" {
        assert ParseBrowserArg(Some(body)).0 == false;
      }
    }
  }

  // ---- toast, layout and class-details checks ----

  /** `mwcToast`'s checks in order: the USB session, the duration bounds, the
      resolved symbols, the main-window controller. */
  function Toast(inUsbms: bool, duration: int, symbolsResolved: bool, controllerPresent: bool): (r: Result<(), DBusError>)
    ensures r.Success? <==> !inUsbms && 0 < duration <= 5000 && symbolsResolved && controllerPresent
    ensures r.Failure? && r.error.kind == InvalidArgs <==> !inUsbms && !(0 < duration <= 5000)
  {
    if inUsbms then Failure(UsbmsError("mwcToast"))
    else if !(duration > 0 && duration <= 5000) then
      Failure(DBusError(InvalidArgs, "toast duration must be between 0 and 5000 miliseconds"))
    else if !symbolsResolved then Failure(DBusError(InternalError, "mwcToast: required symbol(s) not resolved"))
    else if !controllerPresent then Failure(DBusError(InternalError, "could not get MainWindowController instance"))
    else Success(())
  }

  /** The duration bounds are 1 and 5000 milliseconds, both included. */
  lemma ToastBounds()
    ensures Toast(false, 1, true, true).Success? && Toast(false, 5000, true, true).Success?
    ensures Toast(false, 0, true, true).Failure? && Toast(false, 5001, true, true).Failure?
    ensures Toast(false, -1, false, false).error.kind == InvalidArgs
  {
  }

  datatype LayoutType = VertLayout | HorLayout | FormLayout

  /** `dlgConfirmAdvancedAddLayout`: the name, lower-cased, picks the layout. */
  function LayoutFromName(layout: string): (r: Result<LayoutType, DBusError>)
    ensures r.Failure? <==> ToLower(layout) !in ["vertical", "horizontal", "form"]
    ensures r.Failure? ==> r.error.kind == InvalidArgs
  {
    var l := ToLower(layout);
    if !(l == "vertical" || l == "horizontal" || l == "form") then
      Failure(DBusError(InvalidArgs, "Parameter must be one of 'vertical', 'horizontal' or 'form'"))
    else if l == "vertical" then Success(VertLayout)
    else if l == "horizontal" then Success(HorLayout)
    else Success(FormLayout)
  }

  function LayoutName(lt: LayoutType): string
  {
    match lt
    case VertLayout => "vertical"
    case HorLayout => "horizontal"
    case FormLayout => "form"
  }

  /** The three layout names are already lower-case. */
  lemma LayoutNamesLower(lt: LayoutType)
    ensures ToLower(LayoutName(lt)) == LayoutName(lt)
  {
    var n := LayoutName(lt);
    assert forall k :: 0 <= k < |n| ==> LowerChar(n[k]) == n[k];
  }

  /** Every layout has a name that selects it, and a name selects a layout
      exactly when it is, ignoring case, that layout's name. */
  lemma LayoutRoundTrip(lt: LayoutType, layout: string)
    ensures LayoutFromName(LayoutName(lt)) == Success(lt)
    ensures LayoutFromName(layout).Success? ==> LayoutName(LayoutFromName(layout).value) == ToLower(layout)
  {
    LayoutNameSelects(lt);
    if LayoutFromName(layout).Success? {
      var l := ToLower(layout);
      assert l == "vertical" || l == "horizontal" || l == "form";
    }
  }

  lemma LayoutNameSelects(lt: LayoutType)
    ensures LayoutFromName(LayoutName(lt)) == Success(lt)
  {
    LayoutNamesLower(lt);
    var n := LayoutName(lt);
    assert ToLower(n) == n;
  }

  /** Case does not matter to the layout name. */
  lemma LayoutIgnoresCase()
    ensures LayoutFromName("Horizontal") == Success(HorLayout)
  {
    var s := "Horizontal";
    assert forall k :: 0 <= k < |s| ==> LowerChar(s[k]) == "horizontal"[k];
    assert ToLower(s) == "horizontal";
  }

  /** `ndbNickelClassDetails`' argument check (both versions): only a
      `staticMetaObject` symbol is looked up. */
  function ClassDetailsCheck(inUsbms: bool, symbol: string): (r: Result<string, DBusError>)
    ensures r.Success? <==> !inUsbms && EndsWith(symbol, "staticMetaObjectE")
    ensures r.Success? ==> r.value == symbol
    ensures !inUsbms && r.Failure? ==> r.error == DBusError(InvalidArgs, "not a valid staticMetaObject symbol")
  {
    if inUsbms then Failure(UsbmsError("ndbNickelClassDetails"))
    else if !EndsWith(symbol, "staticMetaObjectE") then Failure(DBusError(InvalidArgs, "not a valid staticMetaObject symbol"))
    else Success(symbol)
  }

  /** Any mangled name ending in the suffix passes, and a bare class name
      does not. */
  lemma ClassDetailsSuffix(prefix: string)
    ensures ClassDetailsCheck(false, prefix + "staticMetaObjectE").Success?
    ensures ClassDetailsCheck(false, "HomePageView").Failure?
  {
    var s := prefix + "staticMetaObjectE";
    assert s[|s| - 17..] == "staticMetaObjectE";
    assert "HomePageView"[|"HomePageView"| - 17 + 17..] == "";
  }

  // ---- connected signals ----

  /** The name `ndbConnectSignal` records for a `SIGNAL()`/`SLOT()` string:
      the text after the leading code character up to the first `(`. */
  function SignalNameOf(dest: string): (r: string)
    requires |dest| >= 1 && '(' in dest[1..]
    ensures '(' !in r
    ensures |r| < |dest| && dest[1..|r| + 1] == r && dest[|r| + 1] == '('
  {
    var k := IndexOf(dest[1..], '(');
    dest[1..][..k]
  }

  /** A slot string `<code><name>(<params>)` yields exactly `<name>`. */
  lemma SignalNameRoundTrip(code: char, name: string, params: string)
    requires '(' !in name
    ensures var dest := [code] + name + "(" + params + ")";
      '(' in dest[1..] && SignalNameOf(dest) == name
  {
    var dest := [code] + name + "(" + params + ")";
    assert dest[1..] == name + "(" + params + ")";
    assert dest[1..][|name|] == '(';
    assert forall i :: 0 <= i < |name| ==> dest[1..][i] == name[i];
    var k := IndexOf(dest[1..], '(');
    assert k == |name|;
    assert dest[1..][..k] == name;
  }

  /** A signal the service emits on its D-Bus interface. */
  datatype Emitted = ViewChanged(view: string) | TextInput(text: string) | DialogResult(code: int)

  const Accepted := 1
  const Rejected := 0

  /** The service object. `earlier` selects the line-edit behaviour of
      `src/ndb/ndb.cc`; everything else the two versions do alike. */
  class NdbService {
    const earlier: bool
    var connectedSignals: set<string>
    var viewTimerActive: bool
    /** How often the view timer has been started. */
    var viewTimerStarts: nat
    var emitted: seq<Emitted>

    constructor (earlier: bool)
      ensures this.earlier == earlier
      ensures connectedSignals == {} && !viewTimerActive && viewTimerStarts == 0 && emitted == []
    {
      this.earlier := earlier;
      connectedSignals := {};
      viewTimerActive := false;
      viewTimerStarts := 0;
      emitted := [];
    }

    /** `ndbConnectSignal`: the name is recorded only when `QObject::connect`
      succeeded (`connected`). */
    method ConnectSignal(dest: string, connected: bool)
      requires |dest| >= 1 && '(' in dest[1..]
      modifies this`connectedSignals
      ensures connected ==> connectedSignals == old(connectedSignals) + {SignalNameOf(dest)}
      ensures !connected ==> connectedSignals == old(connectedSignals)
    {
      var destStart := dest[1..];
      var destEnd := IndexOf(destStart, '(');
      if connected {
        connectedSignals := connectedSignals + {destStart[..destEnd]};
      }
    }

    /** `ndbSignalConnected`: membership of the recorded names. */
    method SignalConnected(signalName: string) returns (r: bool)
      ensures r <==> signalName in connectedSignals
    {
      return signalName in connectedSignals;
    }

    /** `handleQSWCurrentChanged`: a non-negative index starts the 10 ms
      single-shot timer unless it is already running. */
    method HandleQSWCurrentChanged(index: int)
      modifies this`viewTimerActive, this`viewTimerStarts
      ensures viewTimerActive == (old(viewTimerActive) || index >= 0)
      ensures viewTimerStarts == old(viewTimerStarts) + (if index >= 0 && !old(viewTimerActive) then 1 else 0)
    {
      if index >= 0 {
        if !viewTimerActive {
          viewTimerActive := true;
          viewTimerStarts := viewTimerStarts + 1;
        }
      }
    }

    /** `handleQSWTimer`: the single-shot timer expired; the current view's
      name (`view`) is emitted. */
    method HandleQSWTimer(view: string)
      modifies this`viewTimerActive, this`emitted
      ensures !viewTimerActive && emitted == old(emitted) + [ViewChanged(view)]
    {
      viewTimerActive := false;
      emitted := emitted + [ViewChanged(view)];
    }

    /** A line-edit dialog was accepted with `text` (the dialog's
      `getText`). The current version emits the text and then Accepted; the
      earlier one emits only the text. */
    method OnDlgLineEditAccepted(text: string)
      modifies this`emitted
      ensures emitted == old(emitted) + LineEditEmissions(earlier, true, text)
    {
      emitted := emitted + [TextInput(text)];
      if !earlier {
        emitted := emitted + [DialogResult(Accepted)];
      }
    }

    /** A line-edit dialog was rejected. The current version emits an empty
      text and then Rejected; the earlier one emits only Rejected. */
    method OnDlgLineEditRejected()
      modifies this`emitted
      ensures emitted == old(emitted) + LineEditEmissions(earlier, false, "")
    {
      if !earlier {
        emitted := emitted + [TextInput("")];
      }
      emitted := emitted + [DialogResult(Rejected)];
    }
  }

  /** The signals a closing line-edit dialog emits. */
  function LineEditEmissions(earlier: bool, accepted: bool, text: string): seq<Emitted>
  {
    if earlier then (if accepted then [TextInput(text)] else [DialogResult(Rejected)])
    else if accepted then [TextInput(text), DialogResult(Accepted)]
    else [TextInput(""), DialogResult(Rejected)]
  }

  /** In the current version every outcome emits one text and then one
      result, the result telling the outcome; in the earlier version exactly
      one signal is emitted and an accepted dialog emits no result. */
  lemma LineEditEmissionOrder(accepted: bool, text: string)
    ensures var e := LineEditEmissions(false, accepted, text);
      |e| == 2 && e[0].TextInput? && e[1] == DialogResult(if accepted then Accepted else Rejected)
      && (!accepted ==> e[0].text == "")
    ensures var e := LineEditEmissions(true, accepted, text);
      |e| == 1 && (accepted <==> e[0].TextInput?) && forall x :: x in e && x.DialogResult? ==> x.code == Rejected
  {
  }

  /** What a run of view changes does to the timer: whether it runs after
      them, and how often it was started. */
  function ViewChanges(active: bool, indices: seq<int>): (bool, nat)
  {
    if |indices| == 0 then (active, 0)
    else
      var (mid, starts) := ViewChanges(active, indices[..|indices| - 1]);
      var index := indices[|indices| - 1];
      (mid || index >= 0, starts + if index >= 0 && !mid then 1 else 0)
  }

  /** The debounce: however many view changes arrive before the timer
      expires, it is started at most once, and exactly once when it was idle
      and some index was non-negative. */
  lemma {:induction false} DebounceAtMostOnce(active: bool, indices: seq<int>)
    ensures var (after, starts) := ViewChanges(active, indices);
      && starts <= 1
      && (after <==> active || exists k :: 0 <= k < |indices| && indices[k] >= 0)
      && (starts == 1 <==> !active && exists k :: 0 <= k < |indices| && indices[k] >= 0)
  {
    if |indices| > 0 {
      var n := |indices| - 1;
      DebounceAtMostOnce(active, indices[..n]);
      assert forall k :: 0 <= k < n ==> indices[..n][k] == indices[k];
      var (mid, starts) := ViewChanges(active, indices[..n]);
      if exists k :: 0 <= k < |indices| && indices[k] >= 0 {
        var k :| 0 <= k < |indices| && indices[k] >= 0;
        if k < n {
          assert indices[..n][k] >= 0;
        }
      }
    }
  }
}
