/**
 * The booking page's state and, for every handler and effect of the page, the
 * state transition it performs, taken as one atomic step.  Network replies
 * arrive as parameters.  The page component (module MaintenancePageComponent)
 * is proved to perform exactly these transitions.
 */
module BookingState {
  import opened Wrappers
  import opened BookingWindow
  import opened PhoneValidation

  /** The four form fields the user fills in. */
  datatype BookingValues = BookingValues(name: string, phone: string, carModel: string, licensePlate: string)

  /** The fields after `form.resetFields()`. */
  const BlankForm: BookingValues := BookingValues("", "", "", "")

  datatype BookingStatus =
    | Pending                    // the status posted to the server
    | AwaitingAdminConfirmation  // the status the confirmation modal shows

  /** The booking as posted, and as held for the confirmation modal. */
  datatype MaintenanceData = MaintenanceData(values: BookingValues, preferredDate: int, status: BookingStatus)

  /** Outcome of `GET /api/maintenance/booked-dates`. */
  datatype FetchResult =
    | Fetched(bookedDates: Option<set<int>>)  // None: the payload held no array
    | FetchFailed

  /** Outcome of `POST /api/maintenance`. */
  datatype PostOutcome =
    | Posted
    | PostFailed(serverMessage: Option<string>, errorMessage: string)

  /** User-visible notices (toasts and the success alert), in the order shown. */
  datatype Notice =
    | BookedDatesUnavailable
    | DateFull
    | ChooseDate
    | SubmitSucceeded
    | SubmitFailed(reason: string)

  datatype PageState = PageState(
    selectedDate: Option<int>,
    dateOffset: int,
    bookedDates: set<int>,
    showDatePicker: bool,
    confirmationVisible: bool,
    maintenanceDetails: Option<MaintenanceData>,
    loading: bool,
    dateLoading: bool,
    form: BookingValues)

  /** A state together with the notices the step showed. */
  datatype Reaction = Reaction(next: PageState, notices: seq<Notice>)

  /** A submit step: also the body it posted, if it got that far. */
  datatype SubmitReaction = SubmitReaction(next: PageState, notices: seq<Notice>, posted: Option<MaintenanceData>)

  /**
   * The shape every state has, a submission in flight included: the window
   * starts at a non-negative multiple of the page size, the modal shows
   * exactly while it holds booking details, and nothing is selected before
   * the booked dates have loaded.
   */
  ghost predicate WellFormed(s: PageState)
  {
    && s.dateOffset >= 0
    && s.dateOffset % DatesPerPage == 0
    && (s.confirmationVisible <==> s.maintenanceDetails.Some?)
    && (s.dateLoading ==> s.selectedDate.None?)
  }

  /**
   * Also, the selected date is not a booked one.  A fetch reply that
   * interleaves with the user's actions can break this; atomic steps cannot.
   */
  ghost predicate Consistent(s: PageState)
  {
    WellFormed(s) && (s.selectedDate.Some? ==> s.selectedDate.value !in s.bookedDates)
  }

  /** A well-formed state with no submission in flight; the selection may be stale. */
  ghost predicate Idle(s: PageState)
  {
    WellFormed(s) && !s.loading
  }

  /** What holds between the model's atomic steps. */
  ghost predicate Inv(s: PageState)
  {
    Consistent(s) && !s.loading
  }

  /** The state of a freshly mounted page, before the booked dates arrive. */
  function Initial(): (s: PageState)
    ensures Inv(s) && s.dateLoading && s.selectedDate.None? && s.dateOffset == 0
  {
    PageState(None, 0, {}, false, false, None, false, true, BlankForm)
  }

  /** The booked dates a reply yields: none when the fetch failed or the payload held no array. */
  function LoadedDates(reply: FetchResult): (dates: set<int>)
    ensures reply.Fetched? && reply.bookedDates.Some? ==> dates == reply.bookedDates.value
    ensures reply.FetchFailed? || reply.bookedDates.None? ==> dates == {}
  {
    match reply
    case Fetched(Some(dates)) => dates
    case _ => {}
  }

  /** `fetchBookedDates` once its reply arrived. */
  function ApplyFetch(s: PageState, reply: FetchResult): (r: Reaction)
    ensures Consistent(s) && s.selectedDate.None? ==> Consistent(r.next)
    ensures Inv(s) && s.selectedDate.None? ==> Inv(r.next)
    ensures r.next == s.(bookedDates := LoadedDates(reply), dateLoading := false)
    ensures r.notices == if reply.FetchFailed? then [BookedDatesUnavailable] else []
  {
    var next := s.(bookedDates := LoadedDates(reply), dateLoading := false);
    if reply.FetchFailed? then Reaction(next, [BookedDatesUnavailable]) else Reaction(next, [])
  }

  /**
   * The auto-advance effect: with the booked dates loaded and nothing
   * selected, select the first date of the window that is not full, or move
   * the window one page on when all seven are full.
   */
  function AutoAdvance(s: PageState): (t: PageState)
    requires Inv(s)
    ensures Inv(t)
    ensures s.dateLoading || s.selectedDate.Some? ==> t == s
    ensures !s.dateLoading && s.selectedDate.None? ==>
      && t == s.(selectedDate := t.selectedDate, dateOffset := t.dateOffset)
      && (t.selectedDate.Some? ==>
            && t.dateOffset == s.dateOffset
            && s.dateOffset <= t.selectedDate.value < s.dateOffset + WindowLength
            && t.selectedDate.value !in s.bookedDates
            && forall k :: s.dateOffset <= k < t.selectedDate.value ==> k in s.bookedDates)
      && (t.selectedDate.None? ==>
            && t.dateOffset == s.dateOffset + DatesPerPage
            && forall k :: s.dateOffset <= k < s.dateOffset + WindowLength ==> k in s.bookedDates)
  {
    if !s.dateLoading && s.selectedDate.None? then
      FirstFreeDayOfWindow(s.dateOffset, s.bookedDates);
      match FirstNotFull(AvailableDates(s.dateOffset), s.bookedDates)
      case Some(day) => s.(selectedDate := Some(day))
      case None => s.(dateOffset := s.dateOffset + DatesPerPage)
    else
      s
  }

  /** With no date booked, the effect selects the first date of the window. */
  lemma AutoAdvanceWithNothingBooked(s: PageState)
    requires Inv(s) && !s.dateLoading && s.selectedDate.None? && s.bookedDates == {}
    ensures AutoAdvance(s).selectedDate == Some(s.dateOffset)
  {
  }

  /**
   * `handleDateChange`: a date that is not full becomes the selection, the
   * window moves so that it shows the date, and the pop-up closes; a full
   * date changes nothing and raises an error notice.  While the booked dates
   * load the page renders only a placeholder, so no date can be picked.
   */
  function PickDate(s: PageState, day: int): (r: Reaction)
    requires Inv(s) && !s.dateLoading
    ensures Inv(r.next)
    ensures day in s.bookedDates ==> r.next == s && r.notices == [DateFull]
    ensures day !in s.bookedDates ==>
      && r.notices == []
      && r.next == s.(selectedDate := Some(day), dateOffset := r.next.dateOffset, showDatePicker := false)
      && (day < 0 ==> r.next.dateOffset == 0)
      && (day >= 0 ==> day in AvailableDates(r.next.dateOffset) && r.next.dateOffset <= day < r.next.dateOffset + DatesPerPage)
  {
    if !IsDateFull(s.bookedDates, day) then
      var diffDays := day;
      WindowMembership(OffsetFor(diffDays), day);
      Reaction(s.(selectedDate := Some(day), dateOffset := OffsetFor(diffDays), showDatePicker := false), [])
    else
      Reaction(s, [DateFull])
  }

  /** `handlePrevDates`: one page back, never before today. */
  function PrevDates(s: PageState): (t: PageState)
    requires Inv(s)
    ensures Inv(t)
    ensures s.dateOffset == 0 ==> t == s
    ensures s.dateOffset != 0 ==> t == s.(dateOffset := s.dateOffset - DatesPerPage)
  {
    if s.dateOffset > 0 then s.(dateOffset := s.dateOffset - DatesPerPage) else s
  }

  /** `handleNextDates`: one page on, without bound. */
  function NextDates(s: PageState): (t: PageState)
    requires Inv(s)
    ensures Inv(t)
    ensures t == s.(dateOffset := s.dateOffset + DatesPerPage)
  {
    s.(dateOffset := s.dateOffset + DatesPerPage)
  }

  /** Paging on and back again returns to the same window. */
  lemma NextThenPrev(s: PageState)
    requires Inv(s)
    ensures PrevDates(NextDates(s)) == s
  {
  }

  /** The "choose another date" button opens the pop-up calendar. */
  function OpenDatePicker(s: PageState): (t: PageState)
    requires Inv(s)
    ensures Inv(t)
    ensures t == s.(showDatePicker := true)
  {
    s.(showDatePicker := true)
  }

  /** The form layer storing what the user typed into the four fields. */
  function EnterDetails(s: PageState, values: BookingValues): (t: PageState)
    requires Inv(s)
    ensures Inv(t)
    ensures t == s.(form := values)
  {
    s.(form := values)
  }

  /** The reason a failed submit shows: the server's message unless absent or empty. */
  function FailureReason(serverMessage: Option<string>, errorMessage: string): (reason: string)
    ensures serverMessage.Some? && serverMessage.value != "" ==> reason == serverMessage.value
    ensures serverMessage.None? || serverMessage.value == "" ==> reason == errorMessage
  {
    if serverMessage.Some? && serverMessage.value != "" then serverMessage.value else errorMessage
  }

  /** The body `onFinish` posts for the current selection. */
  function BookingBody(s: PageState, day: int): (body: MaintenanceData)
    ensures body.values == s.form && body.preferredDate == day && body.status == Pending
  {
    MaintenanceData(s.form, day, Pending)
  }

  /**
   * The form layer's rules, which must all pass before it calls `onFinish`:
   * name, car model and licence plate are required, and the phone number
   * passes its validator.
   */
  function FormAccepts(values: BookingValues): (accepted: bool)
    ensures accepted <==>
      values.name != "" && values.carModel != "" && values.licensePlate != ""
      && IsPhoneNumber(values.phone)
  {
    && !IsBlank(Some(values.name))
    && ValidatePhoneNumber(Some(values.phone)) == PhoneAccepted
    && !IsBlank(Some(values.carModel))
    && !IsBlank(Some(values.licensePlate))
  }

  /**
   * `onFinish`: reject without a selection, then reject a selection that is
   * now full; otherwise post the booking.  On success the modal shows the
   * booking with the awaiting-confirmation status, the form, selection,
   * window and pop-up are reset and the booked dates are fetched again; on
   * failure the state is kept for a retry.  No submission stays in flight.
   * The form layer calls `onFinish` only once its rules pass.  The selection
   * may have become booked since it was made (a stale selection).
   */
  function Submit(s: PageState, post: PostOutcome, refetch: FetchResult): (r: SubmitReaction)
    requires Idle(s) && FormAccepts(s.form)
    ensures Idle(r.next) && !r.next.loading
    ensures Inv(s) ==> Inv(r.next)
    ensures r.posted.Some? && post.Posted? ==> Inv(r.next)
    ensures s.selectedDate.None? ==> r.next == s && r.notices == [ChooseDate] && r.posted.None?
    ensures s.selectedDate.Some? && s.selectedDate.value in s.bookedDates ==>
      r.next == s && r.notices == [DateFull] && r.posted.None?
    ensures r.posted.Some? <==> s.selectedDate.Some? && s.selectedDate.value !in s.bookedDates
    ensures r.posted.Some? ==>
      && r.posted.value.values == s.form
      && r.posted.value.preferredDate == s.selectedDate.value
      && r.posted.value.status == Pending
      && IsPhoneNumber(r.posted.value.values.phone)
    ensures r.posted.Some? && post.Posted? ==>
      && r.next.selectedDate.None?
      && r.next.dateOffset == 0
      && !r.next.showDatePicker
      && r.next.confirmationVisible
      && r.next.maintenanceDetails == Some(r.posted.value.(status := AwaitingAdminConfirmation))
      && r.next.form == BlankForm
      && r.next.bookedDates == LoadedDates(refetch)
      && !r.next.dateLoading
      && r.notices == [SubmitSucceeded] + ApplyFetch(s, refetch).notices
    ensures r.posted.Some? && post.PostFailed? ==>
      && r.next == s
      && r.notices == [SubmitFailed(FailureReason(post.serverMessage, post.errorMessage))]
  {
    if s.selectedDate.None? then
      SubmitReaction(s, [ChooseDate], None)
    else if IsDateFull(s.bookedDates, s.selectedDate.value) then
      SubmitReaction(s, [DateFull], None)
    else
      var body := BookingBody(s, s.selectedDate.value);
      match post
      case Posted =>
        var shown := s.(
          maintenanceDetails := Some(body.(status := AwaitingAdminConfirmation)),
          confirmationVisible := true,
          form := BlankForm,
          selectedDate := None,
          dateOffset := 0,
          showDatePicker := false);
        var fetched := ApplyFetch(shown, refetch);
        SubmitReaction(fetched.next, [SubmitSucceeded] + fetched.notices, Some(body))
      case PostFailed(serverMessage, errorMessage) =>
        SubmitReaction(s, [SubmitFailed(FailureReason(serverMessage, errorMessage))], Some(body))
  }

  /** A selection that is full at submit time is never posted. */
  lemma SubmitNeverPostsFullDate(s: PageState, post: PostOutcome, refetch: FetchResult)
    requires Idle(s) && FormAccepts(s.form)
    ensures Submit(s, post, refetch).posted.Some? ==> Submit(s, post, refetch).posted.value.preferredDate !in s.bookedDates
  {
  }

  /**
   * A selection made before the booked dates were refetched, and booked
   * since, is rejected at submit time: nothing is posted and nothing changes.
   */
  lemma StaleSelectionRejected(s: PageState, post: PostOutcome, refetch: FetchResult)
    requires Idle(s) && FormAccepts(s.form)
    requires s.selectedDate == Some(3) && s.bookedDates == {3}
    ensures var r := Submit(s, post, refetch);
      r.posted.None? && r.next == s && r.notices == [DateFull] && !r.next.loading
  {
  }

  /** Closing the confirmation modal hides it and drops the held booking. */
  function CloseModal(s: PageState): (t: PageState)
    requires Inv(s)
    ensures Inv(t)
    ensures t == s.(confirmationVisible := false, maintenanceDetails := None)
  {
    s.(confirmationVisible := false, maintenanceDetails := None)
  }

  /** Everything that can happen to the page, one atomic step each. */
  datatype Event =
    | BookedDatesArrived(reply: FetchResult)
    | EffectFired
    | DatePicked(day: int)
    | PrevClicked
    | NextClicked
    | PickerOpened
    | DetailsEntered(values: BookingValues)
    | Submitted(post: PostOutcome, refetch: FetchResult)
    | ModalClosed

  /**
   * One event.  The only reply to the mount fetch arrives while the dates are
   * loading (the refetch after a booking is part of `Submitted`).  Until
   * then the page renders a placeholder, so the user can do nothing.  A
   * submit the form layer refuses never reaches `onFinish`.
   */
  function Step(s: PageState, e: Event): (t: PageState)
    requires Inv(s)
    ensures Inv(t)
  {
    match e
    case BookedDatesArrived(reply) => if s.dateLoading then ApplyFetch(s, reply).next else s
    case EffectFired => AutoAdvance(s)
    case DatePicked(day) => if s.dateLoading then s else PickDate(s, day).next
    case PrevClicked => if s.dateLoading then s else PrevDates(s)
    case NextClicked => if s.dateLoading then s else NextDates(s)
    case PickerOpened => if s.dateLoading then s else OpenDatePicker(s)
    case DetailsEntered(values) => if s.dateLoading then s else EnterDetails(s, values)
    case Submitted(post, refetch) =>
      if s.dateLoading || !FormAccepts(s.form) then s else Submit(s, post, refetch).next
    case ModalClosed => if s.dateLoading then s else CloseModal(s)
  }

  /** The state after a run of events. */
  function Run(s: PageState, events: seq<Event>): (t: PageState)
    requires Inv(s)
    ensures Inv(t)
    decreases |events|
  {
    if events == [] then s else Run(Step(s, events[0]), events[1..])
  }

  /**
   * Whatever happens after mounting, the window starts at a non-negative
   * multiple of five days, the modal shows exactly while it holds a booking,
   * a selected date is never a booked one, and no submission is left in
   * flight.
   */
  lemma {:induction false} ReachableStatesKeepInvariant(events: seq<Event>)
    ensures var t := Run(Initial(), events);
      t.dateOffset >= 0 && t.dateOffset % DatesPerPage == 0
      && (t.confirmationVisible <==> t.maintenanceDetails.Some?)
      && (t.selectedDate.Some? ==> t.selectedDate.value !in t.bookedDates)
      && !t.loading
  {
  }

  /**
   * All seven dates of the first window full: the first effect after the
   * booked dates arrive moves the window exactly one page on and selects
   * nothing.
   */
  lemma FullFirstWindowAdvancesOnePage(booked: set<int>)
    requires forall k :: 0 <= k < WindowLength ==> k in booked
    ensures var t := Run(Initial(), [BookedDatesArrived(Fetched(Some(booked))), EffectFired]);
      t.dateOffset == DatesPerPage && t.selectedDate.None?
  {
    var s1 := Step(Initial(), BookedDatesArrived(Fetched(Some(booked))));
    assert Run(Initial(), [BookedDatesArrived(Fetched(Some(booked))), EffectFired]) == Run(s1, [EffectFired]);
    assert Run(s1, [EffectFired]) == Run(AutoAdvance(s1), []);
  }

  /**
   * Only the third date of the window booked: its button is disabled and the
   * effect selects the first date of the window.
   */
  lemma ThirdDateBookedSelectsFirst()
    ensures DateButtons(0, None, {2})[2].disabled
    ensures var s := ApplyFetch(Initial(), Fetched(Some({2}))).next;
      AutoAdvance(s).selectedDate == Some(0)
  {
    var s := ApplyFetch(Initial(), Fetched(Some({2}))).next;
    assert 0 !in s.bookedDates;
  }

  /** A rejected post keeps the selection and fields and shows the server's message. */
  lemma RejectedPostKeepsDraft(s: PageState, refetch: FetchResult)
    requires Idle(s) && FormAccepts(s.form) && s.selectedDate.Some? && s.bookedDates == {}
    ensures var r := Submit(s, PostFailed(Some("slot taken"), "Request failed"), refetch);
      r.next.selectedDate == s.selectedDate && r.next.form == s.form
      && r.notices == [SubmitFailed("slot taken")]
  {
  }
}
