/**
 * The visible date window of the maintenance booking page and the pure
 * helpers the page's handlers use on it.
 *
 * A calendar date is a day number counted from today: today is 0, tomorrow 1,
 * yesterday -1.  The set of fully booked dates is a `set<int>` of such numbers.
 */
module BookingWindow {
  import opened Wrappers

  /** Page size used by the previous/next arrows and by a direct pick. */
  const DatesPerPage: int := 5

  /** Number of date buttons shown at once. */
  const WindowLength: int := 7

  /** A date is full exactly when the server listed it as booked. */
  predicate IsDateFull(bookedDates: set<int>, day: int): (full: bool)
    ensures full <==> day in bookedDates
  {
    day in bookedDates
  }

  /** The seven dates shown, starting `offset` days after today. */
  function AvailableDates(offset: int): (w: seq<int>)
    ensures |w| == WindowLength
    ensures forall i :: 0 <= i < |w| ==> w[i] == offset + i
  {
    seq(WindowLength, i => offset + i)
  }

  /** A date is shown exactly when it lies between `offset` and `offset + 6`. */
  lemma WindowMembership(offset: int, day: int)
    ensures day in AvailableDates(offset) <==> offset <= day < offset + WindowLength
  {
    if offset <= day < offset + WindowLength {
      assert AvailableDates(offset)[day - offset] == day;
    }
  }

  /**
   * Calendar-day equality between the (optional) selection and another
   * optional date; an absent date is never the same day as anything.
   */
  function IsSameDay(d1: Option<int>, d2: Option<int>): (same: bool)
    ensures same <==> d1.Some? && d1 == d2
  {
    d1.Some? && d2.Some? && d1.value == d2.value
  }

  /**
   * The window offset a direct pick moves to, given the whole number of days
   * between today and the picked date: 0 for a past date, otherwise the
   * largest multiple of the page size not above `diffDays`.
   */
  function OffsetFor(diffDays: int): (offset: int)
    ensures offset >= 0 && offset % DatesPerPage == 0
    ensures diffDays < 0 ==> offset == 0
    ensures diffDays >= 0 ==> offset <= diffDays < offset + DatesPerPage
  {
    if diffDays < 0 then 0 else (diffDays / DatesPerPage) * DatesPerPage
  }

  /** `OffsetFor` picks the greatest page start at or before the picked day. */
  lemma OffsetForIsLatestPageStart(diffDays: int, pageStart: int)
    requires 0 <= pageStart <= diffDays && pageStart % DatesPerPage == 0
    ensures pageStart <= OffsetFor(diffDays)
  {
  }

  /**
   * A date picked with a time of day earlier than the current one is a
   * fraction of a day closer, so its whole-day difference can be one less
   * than its day number; the window still contains it.
   */
  lemma PickedDayInWindowDespiteTimeOfDay(day: int, diffDays: int)
    requires day >= 0 && (diffDays == day || diffDays == day - 1)
    ensures day in AvailableDates(OffsetFor(diffDays))
  {
    WindowMembership(OffsetFor(diffDays), day);
  }

  /**
   * `Array.prototype.find` over the window: the first date that is not full,
   * or nothing when every date is full.
   */
  function FirstNotFull(dates: seq<int>, bookedDates: set<int>): (found: Option<int>)
    ensures found.None? <==> forall i :: 0 <= i < |dates| ==> dates[i] in bookedDates
    ensures found.Some? ==>
      exists i :: 0 <= i < |dates| && dates[i] == found.value && found.value !in bookedDates
        && forall j :: 0 <= j < i ==> dates[j] in bookedDates
  {
    if |dates| == 0 then None
    else if !IsDateFull(bookedDates, dates[0]) then Some(dates[0])
    else
      var rest := FirstNotFull(dates[1..], bookedDates);
      if rest.Some? then
        var i :| 0 <= i < |dates[1..]| && dates[1..][i] == rest.value && rest.value !in bookedDates
                 && forall j :: 0 <= j < i ==> dates[1..][j] in bookedDates;
        assert dates[i + 1] == rest.value;
        rest
      else
        rest
  }

  /**
   * On the visible window, the date `find` returns is the earliest date of the
   * window that is not full; it returns nothing only if all seven are full.
   */
  lemma {:induction false} FirstFreeDayOfWindow(offset: int, bookedDates: set<int>)
    ensures match FirstNotFull(AvailableDates(offset), bookedDates)
      case Some(day) =>
        offset <= day < offset + WindowLength && day !in bookedDates
        && forall k :: offset <= k < day ==> k in bookedDates
      case None =>
        forall k :: offset <= k < offset + WindowLength ==> k in bookedDates
  {
    var w := AvailableDates(offset);
    match FirstNotFull(w, bookedDates)
    case Some(day) =>
      var i :| 0 <= i < |w| && w[i] == day && day !in bookedDates
               && forall j :: 0 <= j < i ==> w[j] in bookedDates;
      forall k | offset <= k < day ensures k in bookedDates {
        assert w[k - offset] == k;
      }
    case None =>
      forall k | offset <= k < offset + WindowLength ensures k in bookedDates {
        assert w[k - offset] == k;
      }
  }

  /** One date button of the window, as far as behaviour goes. */
  datatype DateButton = DateButton(day: int, selected: bool, disabled: bool)

  /** The window's buttons: a button is disabled when its date is full. */
  function DateButtons(offset: int, selectedDate: Option<int>, bookedDates: set<int>): (buttons: seq<DateButton>)
    ensures |buttons| == WindowLength
    ensures forall i :: 0 <= i < |buttons| ==>
      buttons[i].day == offset + i
      && (buttons[i].disabled <==> offset + i in bookedDates)
      && (buttons[i].selected <==> selectedDate == Some(offset + i))
  {
    var dates := AvailableDates(offset);
    seq(|dates|, i requires 0 <= i < |dates| =>
      DateButton(dates[i], IsSameDay(selectedDate, Some(dates[i])), IsDateFull(bookedDates, dates[i])))
  }

  /** At most one button of the window shows as selected. */
  lemma AtMostOneSelectedButton(offset: int, selectedDate: Option<int>, bookedDates: set<int>, i: int, j: int)
    requires 0 <= i < WindowLength && 0 <= j < WindowLength
    requires DateButtons(offset, selectedDate, bookedDates)[i].selected
    requires DateButtons(offset, selectedDate, bookedDates)[j].selected
    ensures i == j
  {
  }
}
