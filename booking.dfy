/** The public booking wizard: choose a service, a date, a time, then give a name and a
    phone number; step 5 is the confirmation. */
module Booking {
  import opened Api

  /** One entry of the service list the wizard offers. */
  datatype ServiceOption = ServiceOption(id: string, name: string, price: int, duration: string)

  /** The form the wizard fills in and finally sends as the new appointment. */
  datatype BookingData = BookingData(serviceId: string, date: string, time: string,
                                     name: string, phone: string)

  /** The body of the availability request. */
  datatype Availability = Availability(availableTimes: Option<seq<string>>)

  /** The arguments of one `getAvailability(serviceId, date)` request. */
  datatype Query = Query(serviceId: string, date: string)

  /** The list shown when the service list cannot be fetched. */
  const MockServices: seq<ServiceOption> := [
    ServiceOption("1", "Fio a Fio", 150, "2h"),
    ServiceOption("2", "Volume Russo", 200, "2h30"),
    ServiceOption("3", "Mega Volume", 250, "3h"),
    ServiceOption("4", "Volume H\U{00ED}brido", 180, "2h30"),
    ServiceOption("5", "Manuten\U{00E7}\U{00E3}o", 100, "1h30")
  ]

  /** The times shown when the availability request fails. */
  const FallbackTimes: seq<string> := ["09:00", "10:30", "13:00", "14:30", "16:00", "17:30"]

  /** Every field the appointment request needs is filled in. */
  predicate Complete(b: BookingData) {
    b.serviceId != "" && b.date != "" && b.time != "" && b.name != "" && b.phone != ""
  }

  /** The wizard's invariant: a step is only reached with the fields of the earlier steps
      filled in, because each "continue" button is disabled until its field is set. */
  predicate StepsFilled(step: int, b: BookingData) {
    1 <= step <= 5
    && (step >= 2 ==> b.serviceId != "")
    && (step >= 3 ==> b.date != "")
    && (step >= 4 ==> b.time != "")
    && (step == 5 ==> b.name != "" && b.phone != "")
  }

  /** Whether the "continue" button of steps 1 to 3 is enabled: from a step reached with
      the earlier fields filled, exactly when moving on keeps the wizard's invariant. */
  function CanContinue(step: int, b: BookingData): (enabled: bool)
    requires 1 <= step <= 3
    ensures StepsFilled(step, b) ==> (enabled <==> StepsFilled(step + 1, b))
  {
    if step == 1 then b.serviceId != ""
    else if step == 2 then b.date != ""
    else b.time != ""
  }

  /** Moving forward from a filled step keeps the invariant; this is what the disabled
      buttons guarantee. */
  lemma ContinueKeepsSteps(step: int, b: BookingData)
    requires 1 <= step <= 3 && StepsFilled(step, b) && CanContinue(step, b)
    ensures StepsFilled(step + 1, b)
  {
  }

  /** Whatever is on screen at step 4 with a name and phone typed in is a complete request. */
  lemma SubmitIsComplete(b: BookingData)
    requires StepsFilled(4, b) && b.name != "" && b.phone != ""
    ensures Complete(b) && StepsFilled(5, b)
  {
  }

  /** `services.find(s => s.id === bookingData.serviceId)`: the first service with that id. */
  function SelectedService(services: seq<ServiceOption>, id: string): (found: Option<ServiceOption>)
    ensures found.Some? ==> found.value in services && found.value.id == id
    ensures found.None? <==> forall s :: s in services ==> s.id != id
  {
    if services == [] then None
    else if services[0].id == id then Some(services[0])
    else SelectedService(services[1..], id)
  }

  /** The first match wins: nothing before it has the same id. */
  lemma SelectedServiceIsFirst(services: seq<ServiceOption>, id: string)
    requires SelectedService(services, id).Some?
    ensures exists i :: 0 <= i < |services| && services[i] == SelectedService(services, id).value
                        && forall j :: 0 <= j < i ==> services[j].id != id
  {
    if services[0].id == id {
      assert services[0] == SelectedService(services, id).value;
    } else {
      SelectedServiceIsFirst(services[1..], id);
      var i :| 0 <= i < |services[1..]| && services[1..][i] == SelectedService(services[1..], id).value
               && forall j :: 0 <= j < i ==> services[1..][j].id != id;
      assert services[i + 1] == SelectedService(services, id).value;
      forall j | 0 <= j < i + 1
        ensures services[j].id != id
      {
        if j > 0 {
          assert services[j] == services[1..][j - 1];
        }
      }
    }
  }

  /** How the progress bar draws step `s` of 1..4. */
  datatype StepMark = Done | Current | Upcoming

  function Mark(s: int, step: int): (m: StepMark)
    ensures m == Current <==> s == step
    ensures m == Done <==> s < step
  {
    if s == step then Current else if s < step then Done else Upcoming
  }

  class BookingWizard {
    var step: int
    var services: seq<ServiceOption>
    var availableTimes: seq<string>
    var bookingData: BookingData

    ghost predicate Valid()
      reads this
    {
      StepsFilled(step, bookingData)
    }

    /** The wizard opens at step 1 with the service taken from the `service` query
        parameter, when there is one, and every other field empty. */
    constructor (serviceParam: Option<string>)
      ensures Valid() && step == 1 && services == [] && availableTimes == []
      ensures bookingData == BookingData(if Truthy(serviceParam) then serviceParam.value else "", "", "", "", "")
    {
      step := 1;
      services := [];
      availableTimes := [];
      bookingData := BookingData(if Truthy(serviceParam) then serviceParam.value else "", "", "", "", "");
    }

    /** `loadServices`, run once on mount: the fetched list, or the mock list on failure. */
    method LoadServices(reply: Reply<seq<ServiceOption>>)
      modifies this`services
      ensures reply.Ok? ==> services == reply.value
      ensures reply.Fail? ==> services == MockServices
    {
      match reply
      case Ok(data) => services := data;
      case Fail(_, _) => services := MockServices;
    }

    /** `loadAvailability`: nothing happens until both a service and a date are chosen; then
        one request is made and the times shown are its list (`data.availableTimes || []`),
        or the fallback times when it fails or returns a null body (reading `availableTimes`
        of null throws into the same `catch`). */
    method LoadAvailability(reply: Reply<Option<Availability>>) returns (fetched: Option<Query>)
      modifies this`availableTimes
      ensures bookingData.serviceId == "" || bookingData.date == "" ==>
                fetched == None && availableTimes == old(availableTimes)
      ensures bookingData.serviceId != "" && bookingData.date != "" ==>
                fetched == Some(Query(bookingData.serviceId, bookingData.date))
      ensures fetched.Some? && reply.Ok? && reply.value.Some? ==>
                availableTimes == OrEmpty(reply.value.value.availableTimes)
      ensures fetched.Some? && (reply.Fail? || reply.value.None?) ==> availableTimes == FallbackTimes
    {
      if bookingData.serviceId == "" || bookingData.date == "" {
        return None;
      }
      fetched := Some(Query(bookingData.serviceId, bookingData.date));
      match reply
      case Ok(Some(data)) => availableTimes := OrEmpty(data.availableTimes);
      case Ok(None) => availableTimes := FallbackTimes;
      case Fail(_, _) => availableTimes := FallbackTimes;
    }

    /** Choosing a service on step 1 (a radio item or its card). */
    method SelectService(id: string)
      requires Valid() && step == 1
      modifies this`bookingData
      ensures Valid() && bookingData == old(bookingData).(serviceId := id)
    {
      bookingData := bookingData.(serviceId := id);
    }

    /** Typing into the date input of step 2. The time chosen before is kept. */
    method SetDate(date: string)
      requires Valid() && step == 2
      modifies this`bookingData
      ensures Valid() && bookingData == old(bookingData).(date := date)
    {
      bookingData := bookingData.(date := date);
    }

    /** Clicking one of the time buttons of step 3. */
    method SelectTime(t: string)
      requires Valid() && step == 3 && t in availableTimes
      modifies this`bookingData
      ensures Valid() && bookingData == old(bookingData).(time := t)
    {
      bookingData := bookingData.(time := t);
    }

    /** Typing into the name input of step 4. */
    method SetName(name: string)
      requires Valid() && step == 4
      modifies this`bookingData
      ensures Valid() && bookingData == old(bookingData).(name := name)
    {
      bookingData := bookingData.(name := name);
    }

    /** Typing into the phone input of step 4. */
    method SetPhone(phone: string)
      requires Valid() && step == 4
      modifies this`bookingData
      ensures Valid() && bookingData == old(bookingData).(phone := phone)
    {
      bookingData := bookingData.(phone := phone);
    }

    /** The "continue" button of steps 1 to 3, followed by the effect on `[step, date]` that
        loads the times whenever the wizard lands on step 3. A disabled button does nothing. */
    method Continue(reply: Reply<Option<Availability>>) returns (fetched: Option<Query>)
      requires Valid() && 1 <= step <= 3
      modifies this`step, this`availableTimes
      ensures Valid()
      ensures CanContinue(old(step), bookingData) ==> step == old(step) + 1
      ensures !CanContinue(old(step), bookingData) ==> step == old(step)
      ensures fetched.Some? <==> old(step) == 2 && step == 3
      ensures fetched.Some? ==> fetched.value == Query(bookingData.serviceId, bookingData.date)
      ensures fetched.None? ==> availableTimes == old(availableTimes)
      ensures fetched.Some? && reply.Ok? && reply.value.Some? ==>
                availableTimes == OrEmpty(reply.value.value.availableTimes)
      ensures fetched.Some? && (reply.Fail? || reply.value.None?) ==> availableTimes == FallbackTimes
    {
      fetched := None;
      if CanContinue(step, bookingData) {
        ContinueKeepsSteps(step, bookingData);
        step := step + 1;
        if step == 3 {
          fetched := LoadAvailability(reply);
        }
      }
    }

    /** The "back" button of steps 2 to 4; landing on step 3 from step 4 loads the times
        again. */
    method Back(reply: Reply<Option<Availability>>) returns (fetched: Option<Query>)
      requires Valid() && 2 <= step <= 4
      modifies this`step, this`availableTimes
      ensures Valid() && step == old(step) - 1
      ensures fetched.Some? <==> step == 3
      ensures fetched.Some? ==> fetched.value == Query(bookingData.serviceId, bookingData.date)
      ensures fetched.None? ==> availableTimes == old(availableTimes)
      ensures fetched.Some? && reply.Ok? && reply.value.Some? ==>
                availableTimes == OrEmpty(reply.value.value.availableTimes)
      ensures fetched.Some? && (reply.Fail? || reply.value.None?) ==> availableTimes == FallbackTimes
    {
      fetched := None;
      step := step - 1;
      if step == 3 {
        fetched := LoadAvailability(reply);
      }
    }

    /** `handleSubmit`: with the name or the phone empty nothing is sent; otherwise the whole
        form is sent once and the wizard moves to the confirmation only when the request
        succeeded (a failure leaves step 4 and the form as they were). */
    method Submit(reply: Reply<()>) returns (sent: Option<BookingData>)
      requires Valid() && step == 4
      modifies this`step
      ensures Valid()
      ensures sent.Some? <==> bookingData.name != "" && bookingData.phone != ""
      ensures sent.Some? ==> sent.value == bookingData && Complete(sent.value)
      ensures step == 5 <==> sent.Some? && reply.Ok?
      ensures step != 5 ==> step == 4
    {
      if bookingData.name == "" || bookingData.phone == "" {
        return None;
      }
      sent := Some(bookingData);
      SubmitIsComplete(bookingData);
      if reply.Ok? {
        step := 5;
      }
    }
  }

  /** A whole visit: the page is opened with `?service=1`, the service list cannot be fetched
      (the mock list appears), 2025-03-10 is chosen, the server offers 14:30, and the name Maria and
      a phone number are typed in. Exactly that booking is sent and the confirmation is shown. */
  method BookOneVisit() returns (sent: Option<BookingData>, shownService: Option<ServiceOption>, finalStep: int)
    ensures sent == Some(BookingData("1", "2025-03-10", "14:30", "Maria", "62999990000"))
    ensures shownService == Some(MockServices[0]) && finalStep == 5
  {
    var w := new BookingWizard(Some("1"));
    w.LoadServices(Fail(0, None));
    var q := w.Continue(Fail(0, None));
    assert q == None;
    w.SetDate("2025-03-10");
    q := w.Continue(Ok(Some(Availability(Some(["10:30", "14:30"])))));
    assert q == Some(Query("1", "2025-03-10"));
    w.SelectTime("14:30");
    q := w.Continue(Fail(0, None));
    w.SetName("Maria");
    w.SetPhone("62999990000");
    sent := w.Submit(Ok(()));
    shownService := SelectedService(w.services, w.bookingData.serviceId);
    finalStep := w.step;
  }

  /** Going back to step 2 and picking another date keeps the time chosen for the first date:
      the wizard lets the visitor continue to step 4 with a time the server did not offer for
      the new date. */
  method StaleTimeSurvivesDateChange() returns (offered: seq<string>, chosen: BookingData, stepReached: int)
    ensures stepReached == 4 && chosen.time == "14:30" && chosen.date == "2025-03-11"
    ensures chosen.time !in offered
  {
    var w := new BookingWizard(Some("1"));
    var q := w.Continue(Fail(0, None));
    w.SetDate("2025-03-10");
    q := w.Continue(Ok(Some(Availability(Some(["14:30"])))));
    w.SelectTime("14:30");
    q := w.Back(Fail(0, None));
    w.SetDate("2025-03-11");
    q := w.Continue(Ok(Some(Availability(Some(["09:00"])))));
    offered := w.availableTimes;
    q := w.Continue(Fail(0, None));
    chosen := w.bookingData;
    stepReached := w.step;
  }
}
