/**
 * The booking page component itself: its state hooks become fields, each
 * handler and effect a method that updates them through the same setter
 * calls, in the same order, as the page does.  Every method is proved to
 * perform the transition module BookingState specifies for it.
 */
module MaintenancePageComponent {
  import opened Wrappers
  import opened BookingWindow
  import opened BookingState
  import opened PhoneValidation

  class MaintenancePage {
    var selectedDate: Option<int>
    var dateOffset: int
    var bookedDates: set<int>
    var showDatePicker: bool
    var isConfirmationModalVisible: bool
    var maintenanceDetails: Option<MaintenanceData>
    var loading: bool
    var dateLoading: bool
    /** The values held by the form layer for the four fields. */
    var form: BookingValues

    /** The component's state as one value. */
    function State(): PageState
      reads this
    {
      PageState(selectedDate, dateOffset, bookedDates, showDatePicker,
                isConfirmationModalVisible, maintenanceDetails, loading, dateLoading, form)
    }

    /** The invariant between two handler runs. */
    ghost predicate Valid()
      reads this
    {
      Inv(State())
    }

    /** Mounting: initial hook values; the booked dates are still loading. */
    constructor ()
      ensures Valid() && State() == Initial()
    {
      selectedDate := None;
      dateOffset := 0;
      bookedDates := {};
      showDatePicker := false;
      isConfirmationModalVisible := false;
      maintenanceDetails := None;
      loading := false;
      dateLoading := true;
      form := BlankForm;
    }

    /**
     * `fetchBookedDates`, given the server's reply.  It runs on mount and
     * after a booking has cleared the selection, so nothing is selected.
     */
    method FetchBookedDates(reply: FetchResult) returns (notices: seq<Notice>)
      requires WellFormed(State()) && selectedDate.None?
      modifies this
      ensures Consistent(State()) && loading == old(loading)
      ensures Reaction(State(), notices) == ApplyFetch(old(State()), reply)
    {
      match reply {
        case Fetched(payload) =>
          bookedDates := if payload.Some? then payload.value else {};
          notices := [];
        case FetchFailed =>
          notices := [BookedDatesUnavailable];
          bookedDates := {};
      }
      dateLoading := false;
    }

    /** The effect that runs when the booked dates or their loading flag change. */
    method AutoAdvanceEffect()
      requires Valid()
      modifies this
      ensures Valid()
      ensures State() == AutoAdvance(old(State()))
    {
      if !dateLoading && selectedDate.None? {
        var firstAvailableDate := FirstNotFull(AvailableDates(dateOffset), bookedDates);
        if firstAvailableDate.Some? {
          selectedDate := firstAvailableDate;
        } else {
          var newOffset := dateOffset + DatesPerPage;
          dateOffset := newOffset;
        }
      }
    }

    /**
     * `handleDateChange`, from a window button or the pop-up calendar; both
     * are rendered only once the booked dates have loaded.
     */
    method HandleDateChange(day: int) returns (notices: seq<Notice>)
      requires Valid() && !dateLoading
      modifies this
      ensures Valid()
      ensures Reaction(State(), notices) == PickDate(old(State()), day)
    {
      notices := [];
      if !IsDateFull(bookedDates, day) {
        selectedDate := Some(day);
        var diffDays := day;
        if diffDays < 0 {
          dateOffset := 0;
        } else {
          var newOffset := (diffDays / DatesPerPage) * DatesPerPage;
          dateOffset := newOffset;
        }
        showDatePicker := false;
      } else {
        notices := [DateFull];
      }
    }

    method HandlePrevDates()
      requires Valid()
      modifies this
      ensures Valid()
      ensures State() == PrevDates(old(State()))
    {
      if dateOffset > 0 {
        dateOffset := dateOffset - DatesPerPage;
      }
    }

    method HandleNextDates()
      requires Valid()
      modifies this
      ensures Valid()
      ensures State() == NextDates(old(State()))
    {
      dateOffset := dateOffset + DatesPerPage;
    }

    /** The "choose another date" button. */
    method OpenDatePicker()
      requires Valid()
      modifies this
      ensures Valid()
      ensures State() == BookingState.OpenDatePicker(old(State()))
    {
      showDatePicker := true;
    }

    /** The form layer recording what the user typed. */
    method EnterDetails(values: BookingValues)
      requires Valid()
      modifies this
      ensures Valid()
      ensures State() == BookingState.EnterDetails(old(State()), values)
    {
      form := values;
    }

    /**
     * The part of `onFinish` before the post: the two checks, then
     * `setLoading(true)`.  `loading` is raised exactly when both checks pass,
     * and nothing else changes.
     */
    method BeginSubmit() returns (notices: seq<Notice>, posted: Option<MaintenanceData>)
      requires Idle(State()) && FormAccepts(form)
      modifies this
      ensures WellFormed(State())
      ensures posted.Some? ==> Consistent(State())
      ensures State() == old(State()).(loading := posted.Some?)
      ensures old(selectedDate).None? ==> notices == [ChooseDate] && posted.None?
      ensures old(selectedDate).Some? && old(selectedDate).value in bookedDates ==>
        notices == [DateFull] && posted.None?
      ensures posted.Some? <==> old(selectedDate).Some? && old(selectedDate).value !in bookedDates
      ensures posted.Some? ==> notices == [] && posted.value == BookingBody(old(State()), old(selectedDate).value)
    {
      if selectedDate.None? {
        notices, posted := [ChooseDate], None;
        return;
      }
      if IsDateFull(bookedDates, selectedDate.value) {
        notices, posted := [DateFull], None;
        return;
      }
      loading := true;
      var maintenanceData := BookingBody(State(), selectedDate.value);
      notices, posted := [], Some(maintenanceData);
    }

    /**
     * The part of `onFinish` after the post was sent with body `maintenanceData`:
     * the success or failure updates, then `setLoading(false)` in `finally`.
     */
    method SettleSubmit(maintenanceData: MaintenanceData, post: PostOutcome, refetch: FetchResult)
      returns (notices: seq<Notice>)
      requires WellFormed(State()) && loading && FormAccepts(form)
      requires maintenanceData.preferredDate !in bookedDates
      requires selectedDate == Some(maintenanceData.preferredDate) && maintenanceData == BookingBody(State(), maintenanceData.preferredDate)
      modifies this
      ensures Valid()
      ensures SubmitReaction(State(), notices, Some(maintenanceData)) == Submit(old(State()).(loading := false), post, refetch)
    {
      match post {
        case Posted =>
          maintenanceDetails := Some(maintenanceData.(status := AwaitingAdminConfirmation));
          isConfirmationModalVisible := true;
          form := BlankForm;
          selectedDate := None;
          dateOffset := 0;
          showDatePicker := false;
          var fetchNotices := FetchBookedDates(refetch);
          notices := [SubmitSucceeded] + fetchNotices;
        case PostFailed(serverMessage, errorMessage) =>
          notices := [SubmitFailed(FailureReason(serverMessage, errorMessage))];
      }
      loading := false;
    }

    /**
     * `onFinish`, which the form layer calls once its rules pass, given the
     * reply to the post and, after a successful post, the reply to the
     * refetch of the booked dates.  Returns the notices shown and the body
     * posted, if any.
     */
    method OnFinish(post: PostOutcome, refetch: FetchResult) returns (notices: seq<Notice>, posted: Option<MaintenanceData>)
      requires Idle(State()) && FormAccepts(form)
      modifies this
      ensures Idle(State())
      ensures old(Valid()) ==> Valid()
      ensures SubmitReaction(State(), notices, posted) == Submit(old(State()), post, refetch)
    {
      notices, posted := BeginSubmit();
      if posted.Some? {
        notices := SettleSubmit(posted.value, post, refetch);
      }
    }

    method HandleModalClose()
      requires Valid()
      modifies this
      ensures Valid()
      ensures State() == CloseModal(old(State()))
    {
      isConfirmationModalVisible := false;
      maintenanceDetails := None;
    }
  }

  /**
   * A usage example of the class, not a model of source code.
   * A page whose booked-dates fetch fails: nothing counts as booked, today is
   * selected, and a booking for it succeeds and resets the page.
   */
  method FailedFetchThenBooking()
  {
    var values := BookingValues("Somchai", "0812345678", "Civic", "1AB 1234");
    assert IsPhoneNumber(values.phone);
    var page := new MaintenancePage();
    var notices := page.FetchBookedDates(FetchFailed);
    assert notices == [BookedDatesUnavailable] && page.bookedDates == {};
    page.AutoAdvanceEffect();
    assert page.selectedDate == Some(0);
    page.EnterDetails(values);
    var posted;
    notices, posted := page.OnFinish(Posted, Fetched(Some({0})));
    assert posted == Some(MaintenanceData(values, 0, Pending));
    assert page.isConfirmationModalVisible && page.selectedDate.None? && page.dateOffset == 0;
    assert page.maintenanceDetails == Some(MaintenanceData(values, 0, AwaitingAdminConfirmation));
    assert page.bookedDates == {0} && !page.loading;
    page.HandleModalClose();
    assert !page.isConfirmationModalVisible && page.maintenanceDetails.None?;
  }
}
