/** The back-office settings page: the studio's opening hours, one entry per weekday. */
module SettingsAdmin {
  import opened Api

  datatype DayHours = DayHours(open: string, close: string, closed: Option<bool>)

  /** The stored settings; the social links and texts are carried along untouched. */
  datatype Settings = Settings(openingHours: Option<map<string, DayHours>>,
                               socialLinks: Option<map<string, string>>,
                               texts: Option<map<string, string>>)

  /** One edit of a day's card: a time field or the "closed" checkbox. */
  datatype HoursEdit = SetOpen(time: string) | SetClose(time: string) | SetClosed(closed: bool)

  const Weekdays: set<string> := {"monday", "tuesday", "wednesday", "thursday", "friday", "saturday", "sunday"}

  const Weekday := DayHours("09:00", "19:00", Some(false))

  /** `DEFAULT_HOURS`: weekdays 09:00 to 19:00, Saturday 09:00 to 15:00, Sunday closed. */
  const DefaultHours: map<string, DayHours> := map[
    "monday" := Weekday, "tuesday" := Weekday, "wednesday" := Weekday,
    "thursday" := Weekday, "friday" := Weekday,
    "saturday" := DayHours("09:00", "15:00", Some(false)),
    "sunday" := DayHours("", "", Some(true))
  ]

  const EmptySettings := Settings(None, None, None)

  /** `!!d.closed`: a day whose flag is missing counts as open. */
  function IsClosed(d: DayHours): (closed: bool)
    ensures d.closed.None? ==> !closed
    ensures closed ==> d.closed == Some(true)
  {
    d.closed == Some(true)
  }

  /** The defaults cover the seven days, and only Sunday is closed. */
  lemma DefaultsCoverTheWeek()
    ensures DefaultHours.Keys == Weekdays
    ensures forall day :: day in DefaultHours ==> (IsClosed(DefaultHours[day]) <==> day == "sunday")
  {
  }

  /** `{ ...DEFAULT_HOURS, ...loaded }`: the loaded entries win, the defaults fill the gaps. */
  function MergeHours(loaded: map<string, DayHours>): (hours: map<string, DayHours>)
    ensures hours.Keys == DefaultHours.Keys + loaded.Keys
    ensures forall day :: day in loaded ==> hours[day] == loaded[day]
    ensures forall day :: day in DefaultHours && day !in loaded ==> hours[day] == DefaultHours[day]
  {
    DefaultHours + loaded
  }

  /** Every weekday has a card after loading, whatever the server sent; merging again changes
      nothing, and an empty object gives the defaults. */
  lemma MergeProperties(loaded: map<string, DayHours>)
    ensures Weekdays <= MergeHours(loaded).Keys
    ensures MergeHours(MergeHours(loaded)) == MergeHours(loaded)
    ensures MergeHours(map[]) == DefaultHours
  {
    DefaultsCoverTheWeek();
  }

  /** `{ ...prev[day], [key]: value }`. */
  function ApplyEdit(d: DayHours, e: HoursEdit): (r: DayHours)
    ensures e.SetOpen? ==> r == d.(open := e.time)
    ensures e.SetClose? ==> r == d.(close := e.time)
    ensures e.SetClosed? ==> r == d.(closed := Some(e.closed)) && (IsClosed(r) <==> e.closed)
  {
    match e
    case SetOpen(t) => d.(open := t)
    case SetClose(t) => d.(close := t)
    case SetClosed(c) => d.(closed := Some(c))
  }

  /** `handleChange`: only the edited day changes, and no day appears or disappears. */
  function ChangeHours(hours: map<string, DayHours>, day: string, e: HoursEdit): (r: map<string, DayHours>)
    requires day in hours
    ensures r.Keys == hours.Keys
    ensures r[day] == ApplyEdit(hours[day], e)
    ensures forall other :: other in hours && other != day ==> r[other] == hours[other]
  {
    hours[day := ApplyEdit(hours[day], e)]
  }

  /** Ticking "closed" and unticking it again restores the day, except that an absent flag
      becomes an explicit `false`. */
  lemma CloseThenReopen(hours: map<string, DayHours>, day: string)
    requires day in hours
    ensures var back := ChangeHours(ChangeHours(hours, day, SetClosed(true)), day, SetClosed(false));
            back.Keys == hours.Keys && back[day] == hours[day].(closed := Some(false))
            && !IsClosed(back[day])
  {
  }

  /** Reloading what was saved shows it unchanged: once every weekday has an entry, merging
      over the defaults is the identity. */
  lemma ReloadShowsSavedHours(hours: map<string, DayHours>)
    requires Weekdays <= hours.Keys
    ensures MergeHours(hours) == hours
  {
    DefaultsCoverTheWeek();
  }

  class SettingsPage {
    var settings: Settings
    var openingHours: map<string, DayHours>

    /** Every weekday has a card. */
    ghost predicate Valid()
      reads this
    {
      Weekdays <= openingHours.Keys
    }

    constructor ()
      ensures Valid() && settings == EmptySettings && openingHours == DefaultHours
    {
      settings := EmptySettings;
      openingHours := DefaultHours;
    }

    /** `loadSettings`: hours from the server merged over the defaults, or the defaults when
        the server has none or the request fails; a null body counts as empty settings, and a
        failure keeps the settings object. */
    method LoadSettings(reply: Reply<Option<Settings>>)
      modifies this`settings, this`openingHours
      ensures Valid()
      ensures reply.Ok? && reply.value.Some? && reply.value.value.openingHours.Some? ==>
                openingHours == MergeHours(reply.value.value.openingHours.value)
      ensures reply.Ok? && reply.value.Some? && reply.value.value.openingHours.None? ==>
                openingHours == DefaultHours
      ensures reply.Ok? && reply.value.Some? ==> settings == reply.value.value
      ensures reply.Ok? && reply.value.None? ==> settings == EmptySettings && openingHours == DefaultHours
      ensures reply.Fail? ==> settings == old(settings) && openingHours == DefaultHours
    {
      DefaultsCoverTheWeek();
      match reply
      case Ok(data) =>
        if data.Some? && data.value.openingHours.Some? {
          MergeProperties(data.value.openingHours.value);
          openingHours := MergeHours(data.value.openingHours.value);
        } else {
          openingHours := DefaultHours;
        }
        settings := if data.Some? then data.value else EmptySettings;
      case Fail(_, _) =>
        openingHours := DefaultHours;
    }

    /** Editing a day's card. The time fields are disabled while the day is marked closed. */
    method Change(day: string, e: HoursEdit)
      requires Valid() && day in openingHours
      requires e.SetClosed? || !IsClosed(openingHours[day])
      modifies this`openingHours
      ensures Valid() && openingHours == ChangeHours(old(openingHours), day, e)
    {
      openingHours := ChangeHours(openingHours, day, e);
    }

    /** `handleSave`: the loaded settings with the edited hours in place of the stored ones;
        the social links and texts go back as they were loaded. */
    method Save() returns (payload: Settings)
      requires Valid()
      ensures payload.openingHours.Some? && MergeHours(payload.openingHours.value) == openingHours
      ensures payload.openingHours == Some(openingHours)
      ensures payload.socialLinks == settings.socialLinks && payload.texts == settings.texts
    {
      payload := settings.(openingHours := Some(openingHours));
      ReloadShowsSavedHours(openingHours);
    }
  }
}
