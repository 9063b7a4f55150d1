/**
 * The pure pieces of the timeline in static/js/dashboard.js: `indexOf` on the
 * date list, the prev/next enablement rule, the nearest-date `reduce` of
 * `loadMapData`, and the message `fetchWithError` puts in the error it throws.
 */
module Timeline {
  import opened Wrappers
  import opened Api

  /** `dates.indexOf(d)`: the first position of `d`, or -1 (also for an undefined `d`). */
  function IndexOf(dates: seq<Day>, d: Option<Day>): (i: int)
    ensures -1 <= i < |dates|
    ensures i == -1 <==> d.None? || d.value !in dates
    ensures 0 <= i ==> d.Some? && dates[i] == d.value && forall j :: 0 <= j < i ==> dates[j] != d.value
  {
    if d.None? || d.value !in dates then -1
    else if dates[0] == d.value then 0
    else 1 + IndexOf(dates[1..], d)
  }

  /**
   * `updateButtonStates`: (prev disabled, next disabled). Prev is disabled on
   * the first date; next on the first occurrence of the last date, and also
   * whenever the list is empty, where `indexOf`'s -1 equals `length - 1`.
   */
  function ButtonStates(dates: seq<Day>, d: Option<Day>): (r: (bool, bool))
    ensures r.0 <==> d.Some? && dates != [] && dates[0] == d.value
    ensures r.1 <==> dates == [] || (d.Some? && dates[|dates| - 1] == d.value && d.value !in dates[..|dates| - 1])
  {
    var i := IndexOf(dates, d);
    (i == 0, i == |dates| - 1)
  }

  /** No date occurs twice. */
  predicate Distinct(dates: seq<Day>) {
    forall i, j :: 0 <= i < j < |dates| ==> dates[i] != dates[j]
  }

  /**
   * For a current date taken from a list without repetitions, prev is disabled
   * exactly on the first date and next exactly on the last; on every other date
   * both are enabled.
   */
  lemma ButtonStatesAtEnds(dates: seq<Day>, d: Day)
    requires Distinct(dates) && d in dates
    ensures ButtonStates(dates, Some(d)).0 <==> d == dates[0]
    ensures ButtonStates(dates, Some(d)).1 <==> d == dates[|dates| - 1]
  {
    var i := IndexOf(dates, Some(d));
    assert dates[i] == d;
  }

  /** The absolute distance between two days (`Math.abs(new Date(a) - new Date(b))`, up to a constant factor). */
  function Distance(a: Day, b: Day): nat {
    if a >= b then a - b else b - a
  }

  /** The distance is the absolute difference: symmetric, and zero only between equal days. */
  lemma DistanceIsAbsolute(a: Day, b: Day)
    ensures Distance(a, b) == a - b || Distance(a, b) == b - a
    ensures Distance(a, b) >= a - b && Distance(a, b) >= b - a
    ensures Distance(a, b) == Distance(b, a)
    ensures Distance(a, b) == 0 <==> a == b
  {
  }

  /**
   * `dates.reduce((prev, curr) => dist(curr) < dist(prev) ? curr : prev)`:
   * a left fold that starts from the first date and only switches on a strictly
   * smaller distance.
   */
  function ClosestDate(dates: seq<Day>, target: Day): (r: Day)
    requires |dates| > 0
    ensures r in dates
    ensures forall d :: d in dates ==> Distance(r, target) <= Distance(d, target)
    ensures exists k :: 0 <= k < |dates| && dates[k] == r &&
              forall j :: 0 <= j < k ==> Distance(dates[j], target) > Distance(r, target)
    decreases |dates|
  {
    if |dates| == 1 then dates[0]
    else
      var init := dates[..|dates| - 1];
      assert dates == init + [dates[|dates| - 1]];
      var prev := ClosestDate(init, target);
      var curr := dates[|dates| - 1];
      if Distance(curr, target) < Distance(prev, target) then curr else prev
  }

  /** A date of the list is its own closest date. */
  lemma ClosestDateOfMember(dates: seq<Day>, d: Day)
    requires d in dates
    ensures ClosestDate(dates, d) == d
  {
  }

  /** The number a string of decimal digits spells, most significant digit first. */
  function DigitsValue(s: string): nat
    requires forall i :: 0 <= i < |s| ==> '0' <= s[i] <= '9'
  {
    if s == [] then 0 else 10 * DigitsValue(s[..|s| - 1]) + (s[|s| - 1] as int - '0' as int)
  }

  /** `${n}` for a natural number: its digits, without leading zeros. */
  function DecimalString(n: nat): (s: string)
    ensures |s| > 0
    ensures forall i :: 0 <= i < |s| ==> '0' <= s[i] <= '9'
    ensures DigitsValue(s) == n
    ensures s[0] == '0' ==> n == 0
    decreases n
  {
    var digit := ['0' + (n % 10) as char];
    if n < 10 then digit
    else
      var rest := DecimalString(n / 10);
      assert (rest + digit)[..|rest|] == rest;
      rest + digit
  }

  /**
   * The message of the error `fetchWithError` throws for a non-2xx response:
   * the body's `detail` when it is a non-empty string, else one naming the URL
   * and the status. `body` is `Err` when the body is not JSON, and then the
   * parse error's own message is what is thrown.
   */
  function FetchErrorMessage(body: Result<Option<string>>, url: string, status: nat, statusText: string): (m: string)
    ensures body.Err? ==> m == body.message
    ensures body.Ok? && body.value.Some? && body.value.value != "" ==> m == body.value.value
    ensures body.Ok? && (body.value.None? || body.value.value == "") ==>
              m == "Error fetching " + url + ": " + DecimalString(status) + " " + statusText
  {
    match body
    case Err(parseError) => parseError
    case Ok(detail) =>
      if detail.Some? && detail.value != "" then detail.value
      else "Error fetching " + url + ": " + DecimalString(status) + " " + statusText
  }
}
