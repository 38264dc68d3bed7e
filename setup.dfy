/**
 * The setup flow: the two forms that collect the API key and the refresh interval, the
 * normalisation and range check of what the user entered, and the connection test that tries
 * three of the services twice each before the setup is accepted.
 */
module Setup {
  import opened Options
  import opened Strings
  import opened NasaConfig
  import Display
  import Feed

  // ---------------------------------------------------------------------------------------
  // Entered values
  // ---------------------------------------------------------------------------------------

  /** `api_key.strip()`, with the public demonstration key when nothing is left. */
  function NormaliseApiKey(entered: string): (key: string)
    ensures key != "" && (key == "DEMO_KEY" || key == Strip(entered))
    ensures key == "DEMO_KEY" <==> (forall i :: 0 <= i < |entered| ==> IsSpace(entered[i])) || Strip(entered) == "DEMO_KEY"
  {
    var stripped := Strip(entered);
    if stripped == "" then "DEMO_KEY" else stripped
  }

  /** Normalising a normalised key changes nothing. */
  lemma NormaliseIdempotent(entered: string)
    ensures NormaliseApiKey(NormaliseApiKey(entered)) == NormaliseApiKey(entered)
  {
    var key := NormaliseApiKey(entered);
    var stripped := Strip(entered);
    if stripped == "" || stripped == "DEMO_KEY" {
      assert key == "DEMO_KEY";
      DemoKeyIsStripped();
    } else {
      assert key == stripped;
      StripIdempotent(entered);
    }
  }

  lemma DemoKeyIsStripped()
    ensures Strip("DEMO_KEY") == "DEMO_KEY"
  {
    var d := "DEMO_KEY";
    assert !IsSpace(d[0]) && !IsSpace(d[|d| - 1]);
    StripOfUnpadded(d);
  }

  predicate IsDigit(c: char) {
    '0' <= c <= '9'
  }

  /** The value of a string of decimal digits. */
  function DigitsValue(ds: string): (n: nat)
    requires forall i :: 0 <= i < |ds| ==> IsDigit(ds[i])
    decreases |ds|
  {
    if ds == [] then 0
    else
      assert IsDigit(ds[|ds| - 1]);
      DigitsValue(ds[..|ds| - 1]) * 10 + (ds[|ds| - 1] as int - '0' as int)
  }

  predicate AllDigits(ds: string) {
    forall i :: 0 <= i < |ds| ==> IsDigit(ds[i])
  }

  /** The text after a leading `-` or `+`, or all of it when it has no sign. */
  function Unsigned(t: string): (u: string)
    ensures |u| <= |t| && u == t[|t| - |u|..]
  {
    if t != [] && (t[0] == '-' || t[0] == '+') then t[1..] else t
  }

  /** `int` on text without surrounding whitespace: an optional sign, then at least one decimal digit. */
  function Numeral(t: string): (r: Option<int>)
    ensures r.Some? <==> Unsigned(t) != [] && AllDigits(Unsigned(t))
    ensures r.Some? ==> t != [] && r.value == (if t[0] == '-' then 0 - DigitsValue(Unsigned(t)) else DigitsValue(Unsigned(t)) as int)
  {
    var digits := Unsigned(t);
    if digits != [] && AllDigits(digits) then
      var magnitude: int := DigitsValue(digits);
      Some(if t[0] == '-' then -magnitude else magnitude)
    else None
  }

  /**
   * `int(s)` on a string: it succeeds exactly when the stripped text is an optional sign followed
   * by at least one decimal digit, and then gives the digits' value, negated after a `-`.
   */
  function ParseInt(s: string): (r: Option<int>)
    ensures r.Some? <==> Unsigned(Strip(s)) != [] && AllDigits(Unsigned(Strip(s)))
    ensures r.Some? ==> Strip(s) != ""
    ensures r.Some? ==> r.value == (if Strip(s)[0] == '-' then 0 - DigitsValue(Unsigned(Strip(s))) else DigitsValue(Unsigned(Strip(s))) as int)
  {
    Numeral(Strip(s))
  }

  /** The decimal writing of a natural number. */
  function Decimal(n: nat): (ds: string)
    ensures ds != [] && forall i :: 0 <= i < |ds| ==> IsDigit(ds[i])
  {
    var d := ((n % 10) + '0' as int) as char;
    if n < 10 then [d] else Decimal(n / 10) + [d]
  }

  lemma {:induction false} DigitsOfDecimal(n: nat)
    ensures DigitsValue(Decimal(n)) == n
  {
    var d := ((n % 10) + '0' as int) as char;
    if n >= 10 {
      DigitsOfDecimal(n / 10);
      var ds := Decimal(n);
      assert ds == Decimal(n / 10) + [d];
      assert ds[..|ds| - 1] == Decimal(n / 10);
    }
  }

  /** Reading back a written number gives the number. */
  lemma ParseIntOfDecimal(n: nat)
    ensures ParseInt(Decimal(n)) == Some(n)
  {
    DigitsOfDecimal(n);
    var ds := Decimal(n);
    DigitsNeedNoStripping(ds);
    assert ds[0] != '-' && ds[0] != '+' by {
      assert IsDigit(ds[0]);
    }
  }

  lemma DigitsNeedNoStripping(ds: string)
    requires ds != [] && forall i :: 0 <= i < |ds| ==> IsDigit(ds[i])
    ensures Strip(ds) == ds
  {
    assert IsDigit(ds[0]) && IsDigit(ds[|ds| - 1]);
    StripOfUnpadded(ds);
  }

  lemma SignedDigitsAreUnpadded(sign: string, ds: string)
    requires sign == "" || sign == "-" || sign == "+"
    requires ds != [] && AllDigits(ds)
    ensures var t := sign + ds; t != [] && !IsSpace(t[0]) && !IsSpace(t[|t| - 1])
  {
    assert IsDigit(ds[0]) && IsDigit(ds[|ds| - 1]);
    assert (sign + ds)[|sign + ds| - 1] == ds[|ds| - 1];
  }

  /** Digits after an optional sign, surrounded by whitespace, read as their value with that sign. */
  lemma ParseIntOfWritten(pre: string, sign: string, ds: string, post: string)
    requires forall i :: 0 <= i < |pre| ==> IsSpace(pre[i])
    requires forall i :: 0 <= i < |post| ==> IsSpace(post[i])
    requires sign == "" || sign == "-" || sign == "+"
    requires ds != [] && AllDigits(ds)
    ensures ParseInt(pre + sign + ds + post) == Some(if sign == "-" then 0 - DigitsValue(ds) else DigitsValue(ds) as int)
  {
    StrippedWritten(pre, sign, ds, post);
    NumeralOfSignedDigits(sign, ds);
    ParseIntOfStripped(pre + sign + ds + post, sign + ds);
  }

  lemma StrippedWritten(pre: string, sign: string, ds: string, post: string)
    requires forall i :: 0 <= i < |pre| ==> IsSpace(pre[i])
    requires forall i :: 0 <= i < |post| ==> IsSpace(post[i])
    requires sign == "" || sign == "-" || sign == "+"
    requires ds != [] && AllDigits(ds)
    ensures Strip(pre + sign + ds + post) == sign + ds
  {
    var t := sign + ds;
    SignedDigitsAreUnpadded(sign, ds);
    assert pre + sign + ds + post == pre + t + post;
    StripPadded(pre, t, post);
  }

  lemma ParseIntOfStripped(x: string, t: string)
    requires Strip(x) == t
    ensures ParseInt(x) == Numeral(t)
  {
  }

  lemma NumeralOfSignedDigits(sign: string, ds: string)
    requires sign == "" || sign == "-" || sign == "+"
    requires ds != [] && AllDigits(ds)
    ensures Numeral(sign + ds) == Some(if sign == "-" then 0 - DigitsValue(ds) else DigitsValue(ds) as int)
  {
    assert IsDigit(ds[0]);
    if sign == "" {
      assert sign + ds == ds;
    } else {
      assert (sign + ds)[0] == sign[0] && (sign + ds)[1..] == ds;
    }
    assert Unsigned(sign + ds) == ds;
  }

  /** `int(value)` on a form value: `None` where Python raises. */
  function IntOf(v: Value): (r: Option<int>)
    ensures v.Int? ==> r == Some(v.n)
    ensures v.Bool? ==> r == Some(if v.b then 1 else 0)
    ensures v.Str? ==> r == ParseInt(v.s)
    ensures v.Null? ==> r.None?
  {
    match v
    case Int(n) => Some(n)
    case Bool(b) => Some(if b then 1 else 0)
    case Str(s) => ParseInt(s)
    case Null => None
  }

  /** The refresh intervals the user-data path accepts, in minutes. */
  predicate IntervalInRange(minutes: int) {
    5 <= minutes <= 60
  }

  // ---------------------------------------------------------------------------------------
  // The connection test
  // ---------------------------------------------------------------------------------------

  /** How one attempt at one service ended: the title it returned, the three-second limit, or an exception's message. */
  datatype Attempt = Returned(title: string) | TimedOut | Failed(message: string)

  /** The two attempts the test may make at one service; the second is made only when the first fails. */
  datatype Trials = Trials(first: Attempt, second: Attempt)

  const ApiNames: seq<string> := ["APOD", "ISS", "NEO"]

  const Degree := "\U{00B0}"

  /** The test of a returned title, per service: an empty title never passes. */
  function Plausible(name: string, title: string): (ok: bool)
    ensures ok ==> title != ""
    ensures name == "APOD" ==> (ok <==> |title| > 5)
  {
    if name == "APOD" then title != "" && |title| > 5
    else if name == "ISS" then Contains(title, "ISS") && (Contains(title, Degree) || Contains(title, "over"))
    else Contains(Lower(title), "asteroid") || Contains(Lower(title), "today")
  }

  predicate Accepts(name: string, a: Attempt) {
    a.Returned? && Plausible(name, a.title)
  }

  /** The error recorded for a service after its second attempt fails. */
  function ErrorText(name: string, a: Attempt): (e: string)
    ensures StartsWith(e, name + ": ")
  {
    match a
    case Returned(_) => name + ": Invalid data format"
    case TimedOut => name + ": Timeout"
    case Failed(message) => name + ": " + (if |message| <= 50 then message else message[..50])
  }

  /** What testing one service contributes: `None` when one of its attempts passed, else its error. */
  function ServiceOutcome(name: string, t: Trials): (r: Option<string>)
    ensures r.None? <==> Accepts(name, t.first) || Accepts(name, t.second)
    ensures r.Some? ==> r.value == ErrorText(name, t.second)
  {
    if Accepts(name, t.first) || Accepts(name, t.second) then None else Some(ErrorText(name, t.second))
  }

  /** The services that passed, in test order, over the first `|trials|` services. */
  function TestedApis(trials: seq<Trials>): (names: seq<string>)
    requires |trials| <= |ApiNames|
    ensures forall i :: 0 <= i < |names| ==> names[i] in ApiNames
    decreases |trials|
  {
    if trials == [] then []
    else
      var k := |trials| - 1;
      TestedApis(trials[..k]) + (if ServiceOutcome(ApiNames[k], trials[k]).None? then [ApiNames[k]] else [])
  }

  /** The errors recorded, in test order. */
  function TestErrors(trials: seq<Trials>): seq<string>
    requires |trials| <= |ApiNames|
    decreases |trials|
  {
    if trials == [] then []
    else
      var k := |trials| - 1;
      var o := ServiceOutcome(ApiNames[k], trials[k]);
      TestErrors(trials[..k]) + (if o.Some? then [o.value] else [])
  }

  /** Every service tested contributes exactly one entry, a pass or an error. */
  lemma {:induction false} OneEntryPerService(trials: seq<Trials>)
    requires |trials| <= |ApiNames|
    ensures |TestedApis(trials)| + |TestErrors(trials)| == |trials|
    ensures forall i :: 0 <= i < |trials| ==>
      (ApiNames[i] in TestedApis(trials) <==> ServiceOutcome(ApiNames[i], trials[i]).None?)
    decreases |trials|
  {
    if trials != [] {
      var k := |trials| - 1;
      OneEntryPerService(trials[..k]);
      forall i | 0 <= i < |trials|
        ensures ApiNames[i] in TestedApis(trials) <==> ServiceOutcome(ApiNames[i], trials[i]).None?
      {
        if i < k {
          assert trials[..k][i] == trials[i];
          assert ApiNames[i] != ApiNames[k];
        } else {
          NotYetTested(trials[..k], k);
        }
      }
    }
  }

  /** A service's name appears among the passes only once that service has been tested. */
  lemma {:induction false} NotYetTested(trials: seq<Trials>, k: nat)
    requires |trials| <= k < |ApiNames|
    ensures ApiNames[k] !in TestedApis(trials)
    decreases |trials|
  {
    if trials != [] {
      NotYetTested(trials[..|trials| - 1], k);
      assert ApiNames[|trials| - 1] != ApiNames[k];
    }
  }

  /** The first entry of the errors, when the picture of the day failed, is its own. */
  lemma {:induction false} FirstErrorIsApod(trials: seq<Trials>)
    requires 1 <= |trials| <= |ApiNames|
    requires ServiceOutcome("APOD", trials[0]).Some?
    ensures TestErrors(trials) != [] && StartsWith(TestErrors(trials)[0], "APOD: ")
    decreases |trials|
  {
    if |trials| > 1 {
      FirstErrorIsApod(trials[..|trials| - 1]);
    } else {
      assert trials[..0] == [];
    }
  }

  /** The messages shown when every service failed. */
  const NetworkMessage := "Network connectivity issue - check internet connection"
  const KeyMessage := "NASA API key may be invalid or rate limited"
  const MultipleMessage := "Multiple API failures detected"

  /** The error mentions a timeout or a connection, in any case. */
  predicate NetworkLike(e: string) {
    Contains(Lower(e), "timeout") || Contains(Lower(e), "connection")
  }

  /** A string contains each of its suffixes. */
  lemma {:induction false} SuffixContained(a: string, b: string)
    ensures Contains(a + b, b)
    decreases |a|
  {
    if a == [] {
      assert (a + b)[..|b|] == b;
    } else {
      assert (a + b)[1..] == a[1..] + b;
      SuffixContained(a[1..], b);
    }
  }

  /** A service whose last attempt timed out records an error that counts as a network failure. */
  lemma TimeoutIsNetworkLike(name: string)
    ensures NetworkLike(ErrorText(name, TimedOut))
  {
    var e := name + ": Timeout";
    assert Lower(e) == (Lower(name) + ": ") + "timeout";
    SuffixContained(Lower(name) + ": ", "timeout");
  }

  /** The classification of the failure: network first, then the picture of the day's key, then the catch-all. */
  function Classify(errors: seq<string>): (m: string)
    ensures m == NetworkMessage <==> forall i :: 0 <= i < |errors| ==> NetworkLike(errors[i])
    ensures m == KeyMessage <==> ((exists i :: 0 <= i < |errors| && !NetworkLike(errors[i]))
      && (exists i :: 0 <= i < |errors| && Contains(errors[i], "APOD")))
  {
    if forall i :: 0 <= i < |errors| ==> NetworkLike(errors[i]) then NetworkMessage
    else if exists i :: 0 <= i < |errors| && Contains(errors[i], "APOD") then KeyMessage
    else MultipleMessage
  }

  /** A string contains each of its prefixes. */
  lemma PrefixContained(s: string, p: string)
    requires StartsWith(s, p)
    ensures Contains(s, p)
  {
  }

  /** When every service fails, the picture of the day's error is always there, so the catch-all message is never shown. */
  lemma CatchAllUnreachable(trials: seq<Trials>)
    requires |trials| == |ApiNames| && TestedApis(trials) == []
    ensures Classify(TestErrors(trials)) != MultipleMessage
  {
    FirstErrorIsApodWhenAllFail(trials);
    var errors := TestErrors(trials);
    var e := errors[0];
    PrefixContained(e, "APOD");
    if Classify(errors) != NetworkMessage {
      assert Contains(errors[0], "APOD");
    }
  }

  lemma FirstErrorIsApodWhenAllFail(trials: seq<Trials>)
    requires |trials| == |ApiNames| && TestedApis(trials) == []
    ensures TestErrors(trials) != [] && StartsWith(TestErrors(trials)[0], "APOD")
  {
    NoPassesInPrefix(trials, 1);
    var first := trials[..1];
    assert first[..0] == [] && first[0] == trials[0];
    assert ServiceOutcome(ApiNames[0], trials[0]).Some?;
    FirstErrorIsApod(trials);
    NamePrefix(TestErrors(trials)[0]);
  }

  lemma NamePrefix(e: string)
    requires StartsWith(e, "APOD: ")
    ensures StartsWith(e, "APOD")
  {
    assert e[..4] == e[..6][..4];
  }

  /** When no service passed, none passed among the first `n` either. */
  lemma {:induction false} NoPassesInPrefix(trials: seq<Trials>, n: nat)
    requires n <= |trials| <= |ApiNames| && TestedApis(trials) == []
    ensures TestedApis(trials[..n]) == []
    decreases |trials|
  {
    if n < |trials| {
      var k := |trials| - 1;
      assert TestedApis(trials[..k]) == [];
      NoPassesInPrefix(trials[..k], n);
      assert trials[..k][..n] == trials[..n];
    } else {
      assert trials[..n] == trials;
    }
  }

  /** The fixed offline reply of the picture-of-the-day fetcher passes its own test. */
  lemma OfflineApodPassesTheTest()
    ensures Feed.OfflineTriple("apod").title == Display.Str("APOD service unavailable")
    ensures Accepts("APOD", Returned("APOD service unavailable"))
  {
  }

  /** Some service is listed among the passes exactly when one of its attempts passed. */
  lemma SomeServicePassed(trials: seq<Trials>)
    requires |trials| == |ApiNames|
    ensures TestedApis(trials) != [] <==> exists i :: 0 <= i < |trials| && ServiceOutcome(ApiNames[i], trials[i]).None?
  {
    OneEntryPerService(trials);
    var tested := TestedApis(trials);
    if tested != [] {
      assert tested[0] in ApiNames;
      var i :| 0 <= i < |ApiNames| && ApiNames[i] == tested[0];
      assert ApiNames[i] in tested;
    }
  }

  /** The result of the connection test. */
  datatype TestResult = TestResult(success: bool, tested: seq<string>, error: Option<string>)

  /**
   * The outcome of the connection test: a success, listing the services that passed, exactly when
   * one of the three services passed; otherwise the classified failure message.
   */
  function TestSpec(trials: seq<Trials>): (r: TestResult)
    requires |trials| == |ApiNames|
    ensures r.success <==> exists i :: 0 <= i < |trials| && ServiceOutcome(ApiNames[i], trials[i]).None?
    ensures r.success ==> r.error.None? && r.tested == TestedApis(trials)
    ensures !r.success ==> r.tested == [] && r.error == Some(Classify(TestErrors(trials)))
  {
    SomeServicePassed(trials);
    var tested := TestedApis(trials);
    if tested != [] then TestResult(true, tested, None) else TestResult(false, [], Some(Classify(TestErrors(trials))))
  }

  /** `_test_nasa_api_connection`: each service at most twice, moving on at the first pass. */
  method TestNasaApiConnection(trials: seq<Trials>) returns (result: TestResult, errors: seq<string>)
    requires |trials| == |ApiNames|
    ensures result == TestSpec(trials) && errors == TestErrors(trials)
    ensures result.success <==> TestedApis(trials) != []
  {
    var tested: seq<string> := [];
    errors := [];
    for i := 0 to |ApiNames|
      invariant tested == TestedApis(trials[..i]) && errors == TestErrors(trials[..i])
    {
      var name := ApiNames[i];
      var t := trials[i];
      assert trials[..i + 1][..i] == trials[..i];
      var attempt := 0;
      while attempt < 2
        invariant 0 <= attempt <= 2
        invariant attempt >= 1 ==> !Accepts(name, t.first)
        invariant attempt < 2 ==> tested == TestedApis(trials[..i]) && errors == TestErrors(trials[..i])
        invariant attempt == 2 ==> (!Accepts(name, t.second) && tested == TestedApis(trials[..i])
          && errors == TestErrors(trials[..i]) + [ErrorText(name, t.second)])
      {
        var a := if attempt == 0 then t.first else t.second;
        match a {
          case Returned(title) =>
            if Plausible(name, title) {
              tested := tested + [name];
              break;
            }
            if attempt == 1 {
              errors := errors + [name + ": Invalid data format"];
            }
          case TimedOut =>
            if attempt == 1 {
              errors := errors + [name + ": Timeout"];
            }
          case Failed(message) =>
            if attempt == 1 {
              errors := errors + [name + ": " + (if |message| <= 50 then message else message[..50])];
            }
        }
        attempt := attempt + 1;
      }
    }
    assert trials[..|ApiNames|] == trials;
    if |tested| >= 1 {
      result := TestResult(true, tested, None);
    } else {
      result := TestResult(false, [], Some(Classify(errors)));
    }
  }

  // ---------------------------------------------------------------------------------------
  // The setup handlers
  // ---------------------------------------------------------------------------------------

  /** The form shown to the user. */
  datatype Form =
    | InitialForm(storedKey: Value, storedInterval: Value)
      // the first form: the stored key unless it is the demonstration key, and the stored interval
    | RetryForm(message: string, shownKey: string, interval: int)
      // after a failed test: the failure message, the key entered, the interval entered, and the force option

  /** What a setup step answers; `Crash` where an exception leaves the handler. */
  datatype Action = SetupComplete | SetupError(error: string) | RequestUserInput(form: Form) | Crash

  /** The requests of the setup protocol. */
  datatype Request =
    | DriverSetupRequest(setupData: Option<map<string, Value>>)
    | UserDataResponse(inputValues: map<string, Value>)
    | UserConfirmationResponse(confirm: bool)
    | AbortDriverSetup(error: string)
    | UnknownRequest

  /** The key as the form shows it: the demonstration key is shown as an empty field. */
  function ShownKey(key: string): (shown: string)
    ensures shown == "" <==> key == "DEMO_KEY" || key == ""
    ensures shown != "" ==> shown == key
  {
    if key != "DEMO_KEY" then key else ""
  }

  /** `dict.get(key, default)` on the form values. */
  function FormValue(values: map<string, Value>, key: string, default: Value): Value {
    if key in values then values[key] else default
  }

  /** `_handle_user_confirmation_response`. */
  function ConfirmationAction(confirm: bool): (a: Action)
    ensures a == SetupComplete <==> confirm
    ensures !confirm ==> a == SetupError("OTHER")
  {
    if confirm then SetupComplete else SetupError("OTHER")
  }

  /** `_handle_abort_setup`: the abort's own error is passed back. */
  function AbortAction(error: string): (a: Action)
    ensures a.SetupError? && a.error == error
  {
    SetupError(error)
  }

  /** What the user entered, once read: the raw key, the interval and the force option. */
  datatype Entry = Entry(key: string, interval: int, force: bool)

  /**
   * The entry of a user-data response, `None` when reading it raises (a key that is not a string,
   * an interval that is not a number) or when the interval is outside 5 to 60 minutes.
   */
  function UserEntry(values: map<string, Value>): (e: Option<Entry>)
    ensures e.Some? ==> IntervalInRange(e.value.interval)
    ensures e.Some? <==> (FormValue(values, "api_key", Str("")).Str?
      && IntOf(FormValue(values, "refresh_interval", Int(10))).Some?
      && IntervalInRange(IntOf(FormValue(values, "refresh_interval", Int(10))).value))
    ensures e.Some? ==> (e.value.key == FormValue(values, "api_key", Str("")).s
      && e.value.interval == IntOf(FormValue(values, "refresh_interval", Int(10))).value
      && e.value.force == Truthy(FormValue(values, "force_setup", Bool(false))))
  {
    var key := FormValue(values, "api_key", Str(""));
    var interval := IntOf(FormValue(values, "refresh_interval", Int(10)));
    if key.Str? && interval.Some? && IntervalInRange(interval.value) then
      Some(Entry(key.s, interval.value, Truthy(FormValue(values, "force_setup", Bool(false)))))
    else None
  }

  /** Updating the settings with the key and the interval sets those two entries. */
  lemma StoredPair(values: map<string, Value>, key: Value, interval: Value)
    ensures values + map["api_key" := key, "refresh_interval" := interval]
      == values["api_key" := key]["refresh_interval" := interval]
  {
  }

  /** The settings once an entry is accepted: its normalised key and its interval stored. */
  function StoredEntry(values: map<string, Value>, key: string, interval: int): map<string, Value> {
    values["api_key" := Str(NormaliseApiKey(key))]["refresh_interval" := Int(interval)]
  }

  /** What accepting an entry answers: completion when forced, otherwise the connection test decides. */
  function AcceptAction(key: string, interval: int, force: bool, trials: seq<Trials>): Action
    requires |trials| == |ApiNames|
  {
    if force then SetupComplete
    else
      var r := TestSpec(trials);
      if r.success then SetupComplete else RequestUserInput(RetryForm(r.error.GetOr(""), ShownKey(NormaliseApiKey(key)), interval))
  }

  /** The key the first form shows: the stored value itself, blank for the demonstration key. */
  function ShownStoredKey(k: Value): (shown: Value)
    ensures shown == Str("") <==> k == Str("DEMO_KEY") || k == Str("")
    ensures shown != Str("") ==> shown == k
  {
    if k == Str("DEMO_KEY") then Str("") else k
  }

  /** A driver-setup request whose data carries a key, as opposed to the request for the first form. */
  predicate HasKey(setupData: Option<map<string, Value>>) {
    setupData.Some? && setupData.value != map[] && "api_key" in setupData.value
  }

  /** The key and interval of a driver-setup request with a key, `None` where reading them raises. */
  function DriverEntry(d: map<string, Value>): Option<Entry> {
    var key := FormValue(d, "api_key", Str(""));
    var interval := IntOf(FormValue(d, "refresh_interval", Int(10)));
    if key.Str? && interval.Some? then Some(Entry(key.s, interval.value, Truthy(FormValue(d, "force_setup", Bool(false)))))
    else None
  }

  /** What `_handle_driver_setup_request` answers, with the settings `values` stored before it. */
  function DriverSetupAction(values: map<string, Value>, setupData: Option<map<string, Value>>, trials: seq<Trials>): Action
    requires |trials| == |ApiNames|
  {
    if !HasKey(setupData) then
      RequestUserInput(InitialForm(ShownStoredKey(Lookup(values, "api_key", Str(""))), Lookup(values, "refresh_interval", Int(10))))
    else
      match DriverEntry(setupData.value)
      case None => Crash
      case Some(e) => AcceptAction(e.key, e.interval, e.force, trials)
  }

  /** The settings after `_handle_driver_setup_request`. */
  function DriverSetupValues(values: map<string, Value>, setupData: Option<map<string, Value>>): map<string, Value> {
    if !HasKey(setupData) then values
    else
      match DriverEntry(setupData.value)
      case None => values
      case Some(e) => StoredEntry(values, e.key, e.interval)
  }

  /** What `_handle_user_data_response` answers. */
  function UserDataAction(input: map<string, Value>, trials: seq<Trials>): Action
    requires |trials| == |ApiNames|
  {
    match UserEntry(input)
    case None => SetupError("OTHER")
    case Some(e) => AcceptAction(e.key, e.interval, e.force, trials)
  }

  /** The settings after `_handle_user_data_response`. */
  function UserDataValues(values: map<string, Value>, input: map<string, Value>): map<string, Value> {
    match UserEntry(input)
    case None => values
    case Some(e) => StoredEntry(values, e.key, e.interval)
  }

  /** An unreadable entry, or an interval outside 5 to 60 minutes, is refused before anything is stored. */
  lemma UserDataRefused(values: map<string, Value>, input: map<string, Value>, trials: seq<Trials>)
    requires |trials| == |ApiNames|
    requires UserEntry(input).None?
    ensures UserDataAction(input, trials) == SetupError("OTHER") && UserDataValues(values, input) == values
  {
  }

  /**
   * The user-data path accepts an entry read from the form: it stores the normalised key and the
   * interval, completes when forced, and otherwise completes exactly when the connection test
   * succeeds, showing the retry form when it fails.
   */
  lemma UserDataAccepted(values: map<string, Value>, input: map<string, Value>, trials: seq<Trials>, x: Entry)
    requires |trials| == |ApiNames|
    requires UserEntry(input) == Some(x)
    ensures var action := UserDataAction(input, trials);
      && (action.SetupComplete? || action.RequestUserInput?)
      && UserDataValues(values, input) == StoredEntry(values, x.key, x.interval)
      && (x.force ==> action == SetupComplete)
      && (!x.force ==> (action == SetupComplete <==> TestSpec(trials).success))
      && (!x.force && !TestSpec(trials).success ==>
          action == RequestUserInput(RetryForm(TestSpec(trials).error.value, ShownKey(NormaliseApiKey(x.key)), x.interval)))
  {
    assert UserDataAction(input, trials) == AcceptAction(x.key, x.interval, x.force, trials);
    AcceptedEntryIsStored(values, input, x);
    AcceptOutcome(x.key, x.interval, x.force, trials);
  }

  /** Accepting completes when forced, otherwise exactly when the test succeeds, with the retry form on failure. */
  lemma AcceptOutcome(key: string, interval: int, force: bool, trials: seq<Trials>)
    requires |trials| == |ApiNames|
    ensures var action := AcceptAction(key, interval, force, trials);
      && (action.SetupComplete? || action.RequestUserInput?)
      && (force ==> action == SetupComplete)
      && (!force ==> (action == SetupComplete <==> TestSpec(trials).success))
      && (!force && !TestSpec(trials).success ==>
          action == RequestUserInput(RetryForm(TestSpec(trials).error.value, ShownKey(NormaliseApiKey(key)), interval)))
  {
    if !force {
      var r := TestSpec(trials);
      assert !r.success ==> r.error.Some?;
    }
  }

  lemma AcceptedEntryIsStored(values: map<string, Value>, input: map<string, Value>, x: Entry)
    requires UserEntry(input) == Some(x)
    ensures UserDataValues(values, input) == StoredEntry(values, x.key, x.interval)
  {
  }

  /** `NASASetup`. The completion callback is not modelled. */
  class NasaSetup {
    const config: Config

    constructor (config: Config)
      ensures this.config == config
    {
      this.config := config;
    }

    /** Accepts an entered key and interval: normalises the key, stores both, then forces or tests. */
    method Accept(key: string, interval: int, force: bool, trials: seq<Trials>) returns (action: Action)
      requires |trials| == |ApiNames|
      modifies config
      ensures config.values == old(config.values)["api_key" := Str(NormaliseApiKey(key))]["refresh_interval" := Int(interval)]
      ensures force ==> action == SetupComplete
      ensures !action.SetupError? && action != Crash
      ensures !force ==> (action == SetupComplete <==> TestSpec(trials).success)
      ensures !force ==> var r := TestSpec(trials);
        action == (if r.success then SetupComplete else RequestUserInput(RetryForm(r.error.value, ShownKey(NormaliseApiKey(key)), interval)))
      ensures action == AcceptAction(key, interval, force, trials) && config.values == StoredEntry(old(config.values), key, interval)
    {
      var apiKey := NormaliseApiKey(key);
      StoredPair(config.values, Str(apiKey), Int(interval));
      config.Update(map["api_key" := Str(apiKey), "refresh_interval" := Int(interval)]);
      if force {
        return SetupComplete;
      }
      var result, errors := TestNasaApiConnection(trials);
      if result.success {
        action := SetupComplete;
      } else {
        action := RequestUserInput(RetryForm(result.error.value, ShownKey(apiKey), interval));
      }
    }

    /**
     * `_handle_driver_setup_request`: the first form, or the values of a form with a key. There is
     * no range check on this path, and a key that is not a string or an interval that is not a
     * number raises out of the handler.
     */
    method HandleDriverSetupRequest(setupData: Option<map<string, Value>>, trials: seq<Trials>) returns (action: Action)
      requires |trials| == |ApiNames|
      modifies config
      ensures setupData.None? || setupData.value == map[] || "api_key" !in setupData.value ==>
        action == RequestUserInput(InitialForm(ShownStoredKey(old(config.ApiKey())), old(config.RefreshInterval())))
        && config.values == old(config.values)
      ensures action == Crash ==> config.values == old(config.values)
      ensures setupData.Some? && "api_key" in setupData.value ==>
        var d := setupData.value;
        var key := d["api_key"];
        var interval := IntOf(FormValue(d, "refresh_interval", Int(10)));
        (action == Crash <==> !key.Str? || interval.None?)
        && (key.Str? && interval.Some? ==>
            config.values == old(config.values)["api_key" := Str(NormaliseApiKey(key.s))]["refresh_interval" := Int(interval.value)])
        && (key.Str? && interval.Some? && Truthy(FormValue(d, "force_setup", Bool(false))) ==> action == SetupComplete)
        && (key.Str? && interval.Some? && !Truthy(FormValue(d, "force_setup", Bool(false))) ==>
            var r := TestSpec(trials);
            action == (if r.success then SetupComplete
                       else RequestUserInput(RetryForm(r.error.value, ShownKey(NormaliseApiKey(key.s)), interval.value))))
      ensures action == DriverSetupAction(old(config.values), setupData, trials)
      ensures config.values == DriverSetupValues(old(config.values), setupData)
    {
      if setupData.None? || setupData.value == map[] || "api_key" !in setupData.value {
        return RequestUserInput(InitialForm(ShownStoredKey(config.ApiKey()), config.RefreshInterval()));
      }
      var d := setupData.value;
      var key := d["api_key"];
      if !key.Str? {
        return Crash;
      }
      var interval := IntOf(FormValue(d, "refresh_interval", Int(10)));
      if interval.None? {
        return Crash;
      }
      var force := Truthy(FormValue(d, "force_setup", Bool(false)));
      action := Accept(key.s, interval.value, force, trials);
    }

    /**
     * `_handle_user_data_response`: as the form path, but an interval outside 5 to 60 minutes
     * is refused before anything is stored, and every exception becomes a setup error.
     */
    method HandleUserDataResponse(values: map<string, Value>, trials: seq<Trials>) returns (action: Action)
      requires |trials| == |ApiNames|
      modifies config
      ensures action != Crash
      ensures action == UserDataAction(values, trials)
      ensures config.values == UserDataValues(old(config.values), values)
    {
      var entry := UserEntry(values);
      if entry.None? {
        return SetupError("OTHER");
      }
      action := Accept(entry.value.key, entry.value.interval, entry.value.force, trials);
    }

    /** `setup_handler`: dispatch on the kind of request. */
    method SetupHandler(request: Request, trials: seq<Trials>) returns (action: Action)
      requires |trials| == |ApiNames|
      modifies config
      ensures request.UserConfirmationResponse? ==> action == ConfirmationAction(request.confirm) && unchanged(config)
      ensures request.AbortDriverSetup? ==> action == SetupError(request.error) && unchanged(config)
      ensures request.UnknownRequest? ==> action == SetupError("OTHER") && unchanged(config)
      ensures request.DriverSetupRequest? ==>
        action == DriverSetupAction(old(config.values), request.setupData, trials)
        && config.values == DriverSetupValues(old(config.values), request.setupData)
      ensures request.UserDataResponse? ==>
        action == UserDataAction(request.inputValues, trials) && action != Crash
        && config.values == UserDataValues(old(config.values), request.inputValues)
    {
      match request {
        case DriverSetupRequest(setupData) =>
          action := HandleDriverSetupRequest(setupData, trials);
        case UserDataResponse(values) =>
          action := HandleUserDataResponse(values, trials);
        case UserConfirmationResponse(confirm) =>
          action := ConfirmationAction(confirm);
        case AbortDriverSetup(error) =>
          action := AbortAction(error);
        case UnknownRequest =>
          action := SetupError("OTHER");
      }
    }
  }
}
