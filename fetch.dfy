/**
 * The fetch client: the DONKI request for one kind and date range, the
 * mapping of the HTTP outcome to "payload or error message", and the
 * missing-key short circuit in front of it. The HTTP transport is a
 * parameter (`get`), so the model fixes what is sent and how the answer is
 * read, not how it travels.
 */
module Fetch {
  import opened Common
  import opened Decimal
  import opened Dates

  const BASE_URL := "https://api.nasa.gov/DONKI/"
  const ERROR_PREFIX := "Error fetching data: "
  const MISSING_KEY_MESSAGE := "Please enter your NASA API Key to proceed."

  /** A query-parameter value: the script passes strings and Python ints. */
  datatype ParamValue = Text(s: string) | Int(n: int)

  datatype Request = Request(url: string, params: map<string, ParamValue>)

  /** What `requests.get` hands back: status code, parsed body, raw text. */
  datatype Response<P> = Response(status: nat, body: P, text: string)

  /** The fetch function's return: the parsed body, or `None` with the message it showed. */
  datatype FetchResult<P> = Payload(data: P) | Failed(status: nat, message: string)

  /** The button handler's outcome: no request without a key, else the request and its result. */
  datatype Submission<P> = MissingKey(message: string) | Sent(request: Request, result: FetchResult<P>)

  function FetchErrorMessage(status: nat, text: string): string {
    ERROR_PREFIX + NatToString(status) + " - " + text
  }

  /** Status 200 yields the parsed body; any other status yields the error carrying code and body text. */
  function ResponseOutcome<P>(resp: Response<P>): (r: FetchResult<P>)
    ensures r.Payload? <==> resp.status == 200
    ensures r.Payload? ==> r.data == resp.body
    ensures r.Failed? ==> r.status == resp.status && r.message == FetchErrorMessage(resp.status, resp.text)
  {
    if resp.status == 200 then Payload(resp.body)
    else Failed(resp.status, FetchErrorMessage(resp.status, resp.text))
  }

  function LeadingDigits(s: string): (k: nat)
    ensures k <= |s| && AllDigits(s[..k])
    ensures k < |s| ==> !IsDigit(s[k])
  {
    if s == [] || !IsDigit(s[0]) then 0
    else
      var k := 1 + LeadingDigits(s[1..]);
      assert s[..k] == [s[0]] + s[1..][..k - 1];
      k
  }

  /** Reads a fetch error message back into its status code and body text. */
  function ParseFetchError(msg: string): Option<(nat, string)> {
    if |msg| < |ERROR_PREFIX| || msg[..|ERROR_PREFIX|] != ERROR_PREFIX then None
    else
      var rest := msg[|ERROR_PREFIX|..];
      var k := LeadingDigits(rest);
      if k == 0 || |rest| < k + 3 || rest[k..k + 3] != " - " then None
      else Some((DigitsValue(rest[..k]), rest[k + 3..]))
  }

  /** The error message loses neither the status code nor the body text. */
  lemma {:induction false} FetchErrorMessageRoundTrip(status: nat, text: string)
    ensures ParseFetchError(FetchErrorMessage(status, text)) == Some((status, text))
  {
    var digits := NatToString(status);
    var msg := FetchErrorMessage(status, text);
    assert msg == ERROR_PREFIX + (digits + " - " + text);
    var rest := msg[|ERROR_PREFIX|..];
    assert msg[..|ERROR_PREFIX|] == ERROR_PREFIX;
    assert rest == digits + " - " + text;
    var k := |digits|;
    assert LeadingDigits(rest) == k by {
      assert rest == digits + (" - " + text);
      LeadingDigitsOfNumber(digits, " - " + text);
    }
    assert rest[..k] == digits;
    assert rest[k..k + 3] == " - ";
    assert rest[k + 3..] == text;
    NatToStringRoundTrip(status);
  }

  lemma {:induction false} LeadingDigitsOfNumber(digits: string, tail: string)
    requires AllDigits(digits) && tail != [] && !IsDigit(tail[0])
    ensures LeadingDigits(digits + tail) == |digits|
    decreases |digits|
  {
    if digits != [] {
      assert (digits + tail)[1..] == digits[1..] + tail;
      LeadingDigitsOfNumber(digits[1..], tail);
    } else {
      assert digits + tail == tail;
    }
  }

  /** The filters added for CMEs: most accurate, complete entries, speed at least 500, half-angle at least 30, every catalog. */
  const CME_FILTERS: map<string, ParamValue> := map[
    "mostAccurateOnly" := Text("true"),
    "completeEntryOnly" := Text("true"),
    "speed" := Int(500),
    "halfAngle" := Int(30),
    "catalog" := Text("ALL")
  ]

  /** The filter added for notifications: every notification type. */
  const NOTIFICATION_FILTERS: map<string, ParamValue> := map["type" := Text("all")]

  /** The dated query every kind sends. */
  function BaseParams(start: Date, end: Date, key: string): (m: map<string, ParamValue>)
    requires ValidDate(start) && ValidDate(end)
    ensures m.Keys == {"startDate", "endDate", "api_key"}
  {
    map["startDate" := Text(FormatIsoDate(start)), "endDate" := Text(FormatIsoDate(end)), "api_key" := Text(key)]
  }

  lemma CmeFiltersExtendBase(base: map<string, ParamValue>)
    requires base.Keys == {"startDate", "endDate", "api_key"}
    ensures (base + CME_FILTERS).Keys
         == {"startDate", "endDate", "api_key", "mostAccurateOnly", "completeEntryOnly", "speed", "halfAngle", "catalog"}
    ensures forall k :: k in base ==> (base + CME_FILTERS)[k] == base[k]
    ensures var m := base + CME_FILTERS;
      && m["mostAccurateOnly"] == Text("true") && m["completeEntryOnly"] == Text("true")
      && m["speed"] == Int(500) && m["halfAngle"] == Int(30) && m["catalog"] == Text("ALL")
  {
    assert CME_FILTERS.Keys == {"mostAccurateOnly", "completeEntryOnly", "speed", "halfAngle", "catalog"};
  }

  lemma NotificationFiltersExtendBase(base: map<string, ParamValue>)
    requires base.Keys == {"startDate", "endDate", "api_key"}
    ensures (base + NOTIFICATION_FILTERS).Keys == {"startDate", "endDate", "api_key", "type"}
    ensures forall k :: k in base ==> (base + NOTIFICATION_FILTERS)[k] == base[k]
    ensures (base + NOTIFICATION_FILTERS)["type"] == Text("all")
  {
  }

  /**
   * `fetch_space_weather`: the base parameters, updated in place with the
   * CME filters or the notifications type, sent with `get`, and the answer
   * read by status.
   */
  method FetchSpaceWeather<P>(event: string, start: Date, end: Date, key: string, get: Request -> Response<P>)
    returns (request: Request, result: FetchResult<P>)
    requires ValidDate(start) && ValidDate(end)
    ensures request.url == BASE_URL + event
    ensures "startDate" in request.params && request.params["startDate"] == Text(FormatIsoDate(start))
    ensures "endDate" in request.params && request.params["endDate"] == Text(FormatIsoDate(end))
    ensures "api_key" in request.params && request.params["api_key"] == Text(key)
    ensures event == "CME" ==>
      && request.params.Keys == {"startDate", "endDate", "api_key", "mostAccurateOnly", "completeEntryOnly", "speed", "halfAngle", "catalog"}
      && request.params["mostAccurateOnly"] == Text("true")
      && request.params["completeEntryOnly"] == Text("true")
      && request.params["speed"] == Int(500)
      && request.params["halfAngle"] == Int(30)
      && request.params["catalog"] == Text("ALL")
    ensures event == "notifications" ==>
      request.params.Keys == {"startDate", "endDate", "api_key", "type"} && request.params["type"] == Text("all")
    ensures event != "CME" && event != "notifications" ==>
      request.params.Keys == {"startDate", "endDate", "api_key"}
    ensures request.params == BaseParams(start, end, key)
      + (if event == "CME" then CME_FILTERS else if event == "notifications" then NOTIFICATION_FILTERS else map[])
    ensures result == ResponseOutcome(get(request))
  {
    var base := BaseParams(start, end, key);
    var params := base;
    if event == "CME" {
      CmeFiltersExtendBase(base);
      params := params + CME_FILTERS;
    } else if event == "notifications" {
      NotificationFiltersExtendBase(base);
      params := params + NOTIFICATION_FILTERS;
    }
    request := Request(BASE_URL + event, params);
    result := ResponseOutcome(get(request));
  }

  /** The fetch button: an empty key is rejected before any request is built or sent. */
  method Submit<P>(event: string, start: Date, end: Date, key: string, get: Request -> Response<P>)
    returns (s: Submission<P>)
    requires ValidDate(start) && ValidDate(end)
    ensures s.MissingKey? <==> key == ""
    ensures s.MissingKey? ==> s.message == MISSING_KEY_MESSAGE
    ensures s.Sent? ==>
      && s.request.url == BASE_URL + event
      && "api_key" in s.request.params && s.request.params["api_key"] == Text(key)
      && "startDate" in s.request.params && s.request.params["startDate"] == Text(FormatIsoDate(start))
      && "endDate" in s.request.params && s.request.params["endDate"] == Text(FormatIsoDate(end))
      && (event == "CME" ==> s.request.params == BaseParams(start, end, key) + CME_FILTERS)
      && (event == "notifications" ==> s.request.params == BaseParams(start, end, key) + NOTIFICATION_FILTERS)
      && (event != "CME" && event != "notifications" ==> s.request.params == BaseParams(start, end, key))
      && s.result == ResponseOutcome(get(s.request))
  {
    if key == "" {
      s := MissingKey(MISSING_KEY_MESSAGE);
    } else {
      var request, result := FetchSpaceWeather(event, start, end, key, get);
      s := Sent(request, result);
    }
  }

  /** A 403 answer is an error naming the code and quoting the body, not a payload. */
  lemma ForbiddenScenario<P>(body: P, text: string)
    ensures ResponseOutcome(Response(403, body, text)) == Failed(403, "Error fetching data: 403 - " + text)
  {
    assert NatToString(403) == "403" by {
      assert NatToString(4) == "4";
      assert NatToString(40) == "40";
    }
  }
}
