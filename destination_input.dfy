/**
 * The trip-parameter form: a destination text, a date range whose ends may
 * be unset, and a travelers counter that never drops below one. Dates are
 * integer milliseconds.
 */
module DestinationInput {
  import opened Wrappers

  // ---------------------------------------------------------------------------
  // String.prototype.trim

  /** The characters JavaScript's `trim` removes: white space and line terminators. */
  predicate IsWhiteSpace(c: char) {
    || c == '\U{0009}' || c == '\U{000B}' || c == '\U{000C}' || c == ' ' || c == '\U{00A0}'
    || c == '\U{FEFF}' || c == '\U{1680}' || ('\U{2000}' <= c <= '\U{200A}') || c == '\U{202F}'
    || c == '\U{205F}' || c == '\U{3000}'
    || c == '\U{000A}' || c == '\U{000D}' || c == '\U{2028}' || c == '\U{2029}'
  }

  predicate AllWhiteSpace(s: string) {
    forall i :: 0 <= i < |s| ==> IsWhiteSpace(s[i])
  }

  /** The length of the white-space run at the start of `s`. */
  function LeadingWhiteSpace(s: string): (n: nat)
    ensures n <= |s|
    ensures forall k :: 0 <= k < n ==> IsWhiteSpace(s[k])
    ensures n < |s| ==> !IsWhiteSpace(s[n])
  {
    if s == [] || !IsWhiteSpace(s[0]) then 0 else 1 + LeadingWhiteSpace(s[1..])
  }

  /** Where the white-space run ending `s[lo..hi]` starts. */
  function TrailingWhiteSpace(s: string, lo: nat, hi: nat): (n: nat)
    requires lo <= hi <= |s|
    ensures lo <= n <= hi
    ensures forall k :: n <= k < hi ==> IsWhiteSpace(s[k])
    ensures lo < n ==> !IsWhiteSpace(s[n - 1])
    decreases hi
  {
    if hi == lo || !IsWhiteSpace(s[hi - 1]) then hi else TrailingWhiteSpace(s, lo, hi - 1)
  }

  /**
   * `s.trim()`: the slice of `s` left once white space is cut from both
   * ends; it is empty exactly when `s` is all white space.
   */
  function Trim(s: string): (r: string)
    ensures |r| <= |s|
    ensures r == [] <==> AllWhiteSpace(s)
    ensures r == [] || (!IsWhiteSpace(r[0]) && !IsWhiteSpace(r[|r| - 1]))
    ensures exists i :: 0 <= i <= |s| - |r| && r == s[i..i + |r|] && AllWhiteSpace(s[..i]) && AllWhiteSpace(s[i + |r|..])
  {
    var i := LeadingWhiteSpace(s);
    var j := TrailingWhiteSpace(s, i, |s|);
    assert AllWhiteSpace(s[..i]) && AllWhiteSpace(s[j..]);
    s[i..j]
  }

  lemma TrimIdempotent(s: string)
    ensures Trim(Trim(s)) == Trim(s)
  {
  }

  // ---------------------------------------------------------------------------
  // Duration

  const DayMs: nat := 1000 * 60 * 60 * 24

  /** `Math.ceil(n / d)`: the least integer whose multiple of `d` reaches `n`. */
  function CeilDiv(n: int, d: nat): (r: int)
    requires d > 0
    ensures (r - 1) * d < n <= r * d
  {
    var q := (-n) / d;
    assert -n == q * d + (-n) % d;
    -q
  }

  /** The trip length in days handed on with the form. */
  function Duration(from: int, to: int): (days: int)
    ensures (days - 1) * DayMs < to - from <= days * DayMs
  {
    CeilDiv(to - from, DayMs)
  }

  /** A range of whole days has exactly that many days. */
  lemma DurationOfWholeDays(from: int, k: int)
    ensures Duration(from, from + k * DayMs) == k
  {
  }

  /** A part day at the end counts as one more day. */
  lemma DurationOfPartDay(from: int, k: int, r: int)
    requires 0 < r < DayMs
    ensures Duration(from, from + k * DayMs + r) == k + 1
  {
  }

  lemma DurationNonNegative(from: int, to: int)
    requires from <= to
    ensures Duration(from, to) >= 0
  {
  }

  // ---------------------------------------------------------------------------
  // The form

  /** The picker's range; either end may be unset while the user picks. */
  datatype DateRange = DateRange(from: Option<int>, to: Option<int>)

  /** What the form hands to its `onPlanTrip` callback. */
  datatype TripParams = TripParams(destination: string, from: int, to: int, travelers: int, duration: int)

  /** `handleSubmit`'s condition: a destination that is not blank and both dates set. */
  predicate SubmitGuard(destination: string, range: DateRange)
    ensures SubmitGuard(destination, range) <==>
      range.from.Some? && range.to.Some? &&
      exists i :: 0 <= i < |destination| && !IsWhiteSpace(destination[i])
  {
    Trim(destination) != [] && range.from.Some? && range.to.Some?
  }

  /** The submit button's `disabled` expression. */
  function SubmitDisabled(destination: string, range: DateRange): (disabled: bool)
    ensures disabled <==> !SubmitGuard(destination, range)
  {
    Trim(destination) == [] || range.from.None? || range.to.None?
  }

  /** The `-` button: one fewer traveler, but never fewer than one. */
  function DecrementTravelers(n: int): (r: int)
    ensures r >= 1
    ensures n > 1 ==> r == n - 1
    ensures n <= 1 ==> r == 1
  {
    if n - 1 > 1 then n - 1 else 1
  }

  class DestinationForm {
    var destination: string
    var dateRange: DateRange
    var travelers: int

    ghost predicate Valid()
      reads this
    {
      travelers >= 1
    }

    /**
     * A blank destination, today to a week from today, two travelers. The
     * clock is read twice, once for each end of the range: `now` and then
     * `later`.
     */
    constructor (now: int, later: int)
      requires now <= later
      ensures Valid()
      ensures destination == "" && dateRange == DateRange(Some(now), Some(later + 7 * DayMs))
      ensures travelers == 2
    {
      destination := "";
      dateRange := DateRange(Some(now), Some(later + 7 * DayMs));
      travelers := 2;
    }

    method SetDestination(text: string)
      requires Valid()
      modifies this`destination
      ensures Valid() && destination == text
    {
      destination := text;
    }

    method HandleDateSelect(range: DateRange)
      requires Valid()
      modifies this`dateRange
      ensures Valid() && dateRange == range
    {
      dateRange := range;
    }

    method Decrement()
      requires Valid()
      modifies this`travelers
      ensures Valid() && travelers == DecrementTravelers(old(travelers))
    {
      travelers := DecrementTravelers(travelers);
    }

    method Increment()
      requires Valid()
      modifies this`travelers
      ensures Valid() && travelers == old(travelers) + 1
    {
      travelers := travelers + 1;
    }

    function Disabled(): bool
      reads this
    {
      SubmitDisabled(destination, dateRange)
    }

    /**
     * `handleSubmit`: the parameters handed on when the guard passes, with
     * the destination trimmed and the duration in days; nothing otherwise.
     */
    method HandleSubmit() returns (submitted: Option<TripParams>)
      requires Valid()
      ensures submitted.Some? <==> !Disabled()
      ensures submitted.Some? ==>
        && submitted.value.destination == Trim(destination)
        && submitted.value.destination != []
        && Some(submitted.value.from) == dateRange.from
        && Some(submitted.value.to) == dateRange.to
        && submitted.value.travelers == travelers >= 1
        && submitted.value.duration == Duration(submitted.value.from, submitted.value.to)
    {
      if SubmitGuard(destination, dateRange) {
        var from, to := dateRange.from.value, dateRange.to.value;
        submitted := Some(TripParams(Trim(destination), from, to, travelers, Duration(from, to)));
      } else {
        submitted := None;
      }
    }
  }

  lemma TrimPadded()
    ensures Trim(" Paris ") == "Paris"
  {
    var padded := " Paris ";
    assert padded[1..] == "Paris ";
    assert !IsWhiteSpace('P') && !IsWhiteSpace('s');
    assert LeadingWhiteSpace(padded) == 1;
    assert TrailingWhiteSpace(padded, 1, 6) == 6;
    assert TrailingWhiteSpace(padded, 1, 7) == 6;
    assert padded[1..6] == "Paris";
  }

  /**
   * With the initial dates, a trip to " Paris " goes out as "Paris" with 2
   * travelers: 7 days when both clock reads agree, 8 when the second read
   * came later.
   */
  method InitialSubmitScenario(now: int, later: int) returns (submitted: Option<TripParams>)
    requires now <= later < now + DayMs
    ensures submitted.Some?
    ensures submitted.value.destination == "Paris" && submitted.value.travelers == 2
    ensures submitted.value.from == now && submitted.value.to == later + 7 * DayMs
    ensures submitted.value.duration == if now == later then 7 else 8
  {
    var form := new DestinationForm(now, later);
    form.SetDestination(" Paris ");
    if now == later {
      DurationOfWholeDays(now, 7);
    } else {
      DurationOfPartDay(now, 7, later - now);
    }
    TrimPadded();
    submitted := form.HandleSubmit();
  }
}
