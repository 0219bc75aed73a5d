# Julia Lashes Studio: a model of the booking site and its back office

This project models the pages of the Julia Lashes Studio website that hold state and logic. It covers:

- the public booking wizard;
- the public page where a client leaves a testimonial;
- the back-office agenda, client list, services, testimonials, gallery and opening-hours settings.

Each page is a Dafny `class`. Its fields are the page's React state, and each event handler is a method with a `modifies` clause and an `ensures` clause that states the new state.

Each backend request is a parameter of type `Api.Reply<T>` saying how the request ended:

- `Ok(value)` is a success;
- `Fail(status, message)` is a failure, with its HTTP status and the server's message, if any.

So a handler's contract covers every outcome of its requests, including the error paths. Asynchronous handlers are modelled as atomic steps, each followed by the reloads it triggers. Several handlers return the request they make, so that the contract can say what is sent.

The pure logic behind the pages is written as functions, and the properties the pages rely on are proved as lemmas. This covers:

- the month grid of the agenda, the per-day counts and the month filter;
- the search of the client list;
- the validations of the forms;
- the get-or-generate protocol for testimonial links;
- the merge of opening hours over their defaults.

Shared modules:

- `Api`: `Option`, `Reply`, `data || []` and JavaScript truthiness of strings.
- `JsText`: the string built-ins used (`trim`, ASCII `toLowerCase`, `includes`, `replace(/\D/g, "")`, `split("T")[0]`).
- `JsArray`: `filter` and `map` on sequences, with their lemmas.
- `Calendar`: the part of JavaScript's `Date` the agenda uses, on proleptic Gregorian calendar days:
  - the day after and before, day offsets and `setDate` roll-over;
  - day numbers and `getDay`;
  - ISO `YYYY-MM-DD` formatting and parsing, with a round-trip proof.
- `Appointments`: the status labels and colours shared by the agenda and the client history.
- `TestimonialLinks`: the testimonial-link protocol shared by the client list and the testimonial list, with the link and WhatsApp addresses it produces.

Where the pages' behaviour is surprising, the model follows the code:

- The booking wizard does not clear the chosen time when the date changes. `Booking.StaleTimeSurvivesDateChange` shows a visit reaching step 4 with a time the server did not offer for the new date.
- The booking wizard falls back to a mock service list and fixed times when its requests fail.
- The testimonial page's "minimum reached" hint counts the untrimmed text, while the submit checks trim it. `TestimonialPage.HintWithoutValidText` exhibits ten spaces that show the hint while the button stays disabled.
- The agenda's `isCurrentMonth` compares only the month number. `Agenda.MonthNumberSuffices` proves this is harmless within the 42 cells.
- The client list keeps the previous client's history when loading the new one fails.
- The testimonial list builds its WhatsApp text from the server's `whatsappMessage`. The client list builds its own invitation.
- The gallery reloads after a delete instead of filtering locally.

## Model

| member | source | states |
|---|---|---|
| JsText.TrimStart | src/pages/Testimonial.tsx:61 | the result is a suffix of the input, does not start with whitespace, and only whitespace was dropped |
| JsText.TrimEnd | src/pages/Testimonial.tsx:61 | the result is a prefix of the input, does not end with whitespace, and only whitespace was dropped |
| JsText.Trim | src/pages/Testimonial.tsx:61 | `s.trim()` is a piece of `s` that starts where the leading whitespace ends and is no longer than `s` |
| JsText.IsBlank | src/pages/sistema/Galeria.tsx:37-45 | `!s.trim()`: the empty string is blank, and a string starting with a character that is not whitespace is not |
| JsText.BlankIffAllWhitespace | src/pages/sistema/Galeria.tsx:37-45 | `!s.trim()` holds exactly when every character of `s` is whitespace |
| JsText.TrimShape | src/pages/Testimonial.tsx:61 | trimming never lengthens a string, and leaves no whitespace at either end |
| JsText.Utf16Units | src/pages/Testimonial.tsx:251 | a character takes two UTF-16 code units exactly when it lies outside the Basic Multilingual Plane, else one |
| JsText.Utf16Length | src/pages/Testimonial.tsx:251 | `s.length` counts code units: at least one and at most two per character |
| JsText.Utf16LengthAppend | src/pages/Testimonial.tsx:251 | the code units of a concatenation are those of its parts |
| JsText.Utf16LengthBmp | src/pages/Testimonial.tsx:251 | a string of Basic Multilingual Plane characters has one code unit per character |
| JsText.Utf16PartsBound | src/pages/Testimonial.tsx:61 | a prefix or a suffix has no more code units than the whole string |
| JsText.TrimUtf16Shorter | src/pages/Testimonial.tsx:61 | trimming never adds code units |
| JsText.LowerChar | src/pages/sistema/Clientes.tsx:67-70 | no upper-case ASCII letter remains, and other characters are unchanged |
| JsText.Lower | src/pages/sistema/Clientes.tsx:67-70 | the same length, lower-casing each character |
| JsText.LowerIdempotent | src/pages/sistema/Clientes.tsx:67-70 | lower-casing twice is lower-casing once |
| JsText.LowerAppend | src/pages/sistema/Clientes.tsx:67-70 | lower-casing distributes over concatenation |
| JsText.Includes | src/pages/sistema/Clientes.tsx:68-69 | true exactly when the needle occurs at some index of the haystack |
| JsText.IncludesEmpty | src/pages/sistema/Clientes.tsx:68-69 | every string includes the empty string |
| JsText.IncludesPiece | src/pages/sistema/Clientes.tsx:68-69 | a string that includes a needle includes every piece of it |
| JsText.DigitsOnly | src/pages/sistema/Clientes.tsx:133 | the result is no longer than the input and holds only decimal digits |
| JsText.DigitsOnlyAppend | src/pages/sistema/Clientes.tsx:133 | stripping non-digits distributes over concatenation, so the digits keep their order |
| JsText.DigitsOnlyKeepsDigitStrings | src/pages/sistema/Clientes.tsx:133 | a string of digits is left unchanged |
| JsText.DigitsOnlyIdempotent | src/pages/sistema/Depoimentos.tsx:70 | stripping twice is stripping once |
| JsText.BeforeT | src/pages/sistema/Agenda.tsx:155 | the result is the prefix before the first `T`, or the whole string when it has none |
| JsArray.Filter | src/pages/sistema/Depoimentos.tsx:92-94 | the kept elements are exactly those of the input that pass the test, and there are no more of them than in the input |
| JsArray.FilterAppend | src/pages/sistema/Agenda.tsx:74-77 | filtering a concatenation filters each part, so relative order is kept |
| JsArray.FilterKeepsAll | src/pages/sistema/Clientes.tsx:67-70 | a test every element passes keeps the whole array |
| JsArray.FilterSubsumed | src/pages/sistema/Agenda.tsx:152-157 | filtering first by a weaker test changes nothing for a stronger one |
| JsArray.FilterDisjoint | src/pages/sistema/Agenda.tsx:152-157 | filtering by two tests that no element passes together leaves nothing |
| JsArray.FilterCongruent | src/pages/sistema/Clientes.tsx:67-70 | two tests that agree on every element filter alike |
| JsArray.FilterDisjointCount | src/pages/sistema/Depoimentos.tsx:140-150 | two exclusive tests keep at most the array between them, and all of it when every element passes one of them |
| JsArray.Map | src/pages/sistema/Servicos.tsx:170-172 | the same length, with `f` applied to each element; its meaning for callers is given by MapAppend |
| JsArray.MapAppend | src/pages/sistema/Servicos.tsx:170-172 | mapping a concatenation maps each part, so every element keeps its place |
| Calendar.DaysInMonth | src/pages/sistema/Agenda.tsx:71-72 | a month has 28 to 31 days |
| Calendar.NextDay | src/pages/sistema/Agenda.tsx:138-150 | the day after a valid day is a valid day |
| Calendar.PrevDay | src/pages/sistema/Agenda.tsx:138-150 | the day before a valid day is valid, and the day after it is the day given |
| Calendar.PrevOfNext | src/pages/sistema/Agenda.tsx:138-150 | the day before the day after is the day itself |
| Calendar.AddDays | src/pages/sistema/Agenda.tsx:138-150 | an offset of a valid day is a valid day |
| Calendar.AddDaysSucc | src/pages/sistema/Agenda.tsx:138-150 | one more day of offset is one more step of the next day, for offsets of either sign |
| Calendar.AddDaysAdd | src/pages/sistema/Agenda.tsx:138-150 | day offsets add up |
| Calendar.AddDaysWithinMonth | src/pages/sistema/Agenda.tsx:138-150 | within a month, an offset only moves the day of the month |
| Calendar.SetDate | src/pages/sistema/Agenda.tsx:141-147 | `setDate(n)` gives a valid day, and day `n` itself when `n` lies within the month |
| Calendar.FirstOfMonth | src/pages/sistema/Agenda.tsx:71 | `new Date(y, m, 1)` is a valid first of a month, with month roll-over at both ends |
| Calendar.LastOfMonth | src/pages/sistema/Agenda.tsx:72 | `new Date(y, m + 1, 0)` is the last day of month `m` |
| Calendar.DayNumberNext | src/pages/sistema/Agenda.tsx:74-77 | the day after has the next day number |
| Calendar.DayNumberAddDays | src/pages/sistema/Agenda.tsx:74-77 | adding `k` days adds `k` to the day number |
| Calendar.Weekday | src/pages/sistema/Agenda.tsx:140 | `getDay()` is between 0 (Sunday) and 6 |
| Calendar.WeekdayNext | src/pages/sistema/Agenda.tsx:140 | the weekday advances by one, modulo seven, from each day to the next |
| Calendar.DayNumberInYear | src/pages/sistema/Agenda.tsx:74-77 | a valid day's number lies within its year |
| Calendar.InMonthIffBetween | src/pages/sistema/Agenda.tsx:71-77 | a day lies between the first and the last day of a month exactly when it has that year and month |
| Calendar.PadDigits | src/pages/sistema/Agenda.tsx:127 | zero-padding gives exactly `w` digits |
| Calendar.ParsePadDigits | src/pages/sistema/Agenda.tsx:127 | padding then parsing gives the number back when it fits |
| Calendar.YearText | src/pages/sistema/Agenda.tsx:127 | years 0 to 9999 are written as four padded digits |
| Calendar.IsoDate | src/pages/sistema/Agenda.tsx:127 | `isoDate` is at least ten characters long and has no `T` |
| Calendar.ParseIsoDay | src/pages/sistema/Agenda.tsx:75 | a parsed day is a valid day with a four-digit year |
| Calendar.IsoRoundTrip | src/pages/sistema/Agenda.tsx:127 | writing a day in ISO form and reading it back gives the same day |
| Appointments.StatusLabel | src/pages/sistema/Agenda.tsx:111-124 | a known status gets a Portuguese label that is not itself a status, and an unknown status is shown as it is |
| Appointments.StatusColor | src/pages/sistema/Agenda.tsx:98-109 | the default blue badge is used exactly for statuses other than done, canceled and no_show |
| Agenda.PrevMonth | src/pages/sistema/Agenda.tsx:132-133 | the month before is the one whose last day precedes the first of the viewed month |
| Agenda.NextMonth | src/pages/sistema/Agenda.tsx:134-135 | the month after starts the day after the viewed month's last day |
| Agenda.MonthSteppingInverse | src/pages/sistema/Agenda.tsx:132-135 | the previous and next buttons undo each other |
| Agenda.StartDay | src/pages/sistema/Agenda.tsx:140 | the number of leading days is between 0 and 6 |
| Agenda.SetDateOffset | src/pages/sistema/Agenda.tsx:144-146 | `setDate(startDate.getDate() + i)` is `i` days after the start |
| Agenda.GridStartNumber | src/pages/sistema/Agenda.tsx:141-142 | the grid starts `startDay` days before the first of the month |
| Agenda.GenerateCalendarDays | src/pages/sistema/Agenda.tsx:138-150 | the loop yields 42 cells, cell `i` being `i` days after the grid's start |
| Agenda.GridConsecutive | src/pages/sistema/Agenda.tsx:138-150 | each cell holds the day after the cell before it |
| Agenda.GridColumnIsWeekday | src/pages/sistema/Agenda.tsx:140-142 | cell `i` falls on weekday `i % 7`, so each row is a Sunday-to-Saturday week |
| Agenda.GridHoldsMonth | src/pages/sistema/Agenda.tsx:138-150 | every day of the viewed month appears, in cell `startDay + k - 1`, within the 42 cells |
| Agenda.GridCurrentMonth | src/pages/sistema/Agenda.tsx:200 | a cell is in the viewed month exactly when it lies between the first's cell and the last day's cell |
| Agenda.MonthNumberSuffices | src/pages/sistema/Agenda.tsx:200 | within the grid, comparing the month number alone gives the same answer as comparing year and month |
| Agenda.DatePart | src/pages/sistema/Agenda.tsx:155 | the date part `countAppointmentsOn` compares: the start of the date string before its first `T`, and "" for a missing date |
| Agenda.AppointmentDay | src/pages/sistema/Agenda.tsx:75 | `new Date(apt.date)` is a valid day only for a present date, and an undefined date gives Invalid Date |
| Agenda.CountOn | src/pages/sistema/Agenda.tsx:152-157 | the count of a cell is at most the number of appointments, and zero exactly when none has that day as its date part |
| Agenda.MonthFilter | src/pages/sistema/Agenda.tsx:74-77 | keeps exactly the appointments whose day lies between the month's first and last day, no more than were loaded |
| Agenda.MonthFilterKeepsMonth | src/pages/sistema/Agenda.tsx:68-84 | the month filter keeps exactly the appointments dated in the viewed month |
| Agenda.CountedDayIsDate | src/pages/sistema/Agenda.tsx:152-157 | an appointment counted on a day is dated on that day |
| Agenda.CountAfterMonthFilter | src/pages/sistema/Agenda.tsx:152-157 | a cell of the viewed month counts all that day's appointments, and a cell of another month counts 0 |
| Agenda.AgendaPage.constructor | src/pages/sistema/Agenda.tsx:23-32 | the page opens on today, with the calendar on today's month and both lists empty |
| Agenda.AgendaPage.LoadAppointments | src/pages/sistema/Agenda.tsx:45-56 | the day's list is `data \|\| []`, and a failure keeps it |
| Agenda.AgendaPage.LoadMonthlyAppointments | src/pages/sistema/Agenda.tsx:68-84 | the month's list is the month filter of all appointments, and is empty on failure |
| Agenda.AgendaPage.ShowPrevMonth | src/pages/sistema/Agenda.tsx:132-133 | the view moves to the previous month and its list is reloaded |
| Agenda.AgendaPage.ShowNextMonth | src/pages/sistema/Agenda.tsx:134-135 | the view moves to the next month and its list is reloaded |
| Agenda.AgendaPage.PickDate | src/pages/sistema/Agenda.tsx:34-38 | setting a different date reloads both lists; setting the same date again makes no request and changes nothing; the viewed month stays |
| Agenda.AgendaPage.SelectDay | src/pages/sistema/Agenda.tsx:208 | clicking a cell selects its ISO date, and reloads both lists only when that date was not already selected |
| Agenda.AgendaPage.UpdateStatus | src/pages/sistema/Agenda.tsx:86-96 | one request with the appointment and its new status; both lists are reloaded only after a successful update, and a failure changes nothing |
| Booking.CanContinue | src/pages/Booking.tsx:136-232 | a continue button is enabled, from a filled step, exactly when moving on keeps every earlier field filled |
| Booking.ContinueKeepsSteps | src/pages/Booking.tsx:136-137 | moving forward from a filled step with its button enabled keeps every earlier field filled |
| Booking.SubmitIsComplete | src/pages/Booking.tsx:70-79 | what step 4 sends, with a name and a phone, is a complete appointment |
| Booking.SelectedService | src/pages/Booking.tsx:88 | the service found has the id asked for, and none is found exactly when no service has it |
| Booking.SelectedServiceIsFirst | src/pages/Booking.tsx:88 | the service found is the first with that id |
| Booking.Mark | src/pages/Booking.tsx:366-378 | a step is current exactly when it is the wizard's step, and done exactly when it comes before it |
| Booking.BookingWizard.constructor | src/pages/Booking.tsx:16-27 | the wizard opens at step 1 with the service from the query parameter, if any |
| Booking.BookingWizard.LoadServices | src/pages/Booking.tsx:33-47 | the fetched list, or the mock list on failure |
| Booking.BookingWizard.LoadAvailability | src/pages/Booking.tsx:49-62 | no request without a service and a date; otherwise one request and its times, or the fallback times when it fails or returns a null body |
| Booking.BookingWizard.SelectService | src/pages/Booking.tsx:106-117 | only the service id changes |
| Booking.BookingWizard.SetDate | src/pages/Booking.tsx:158-164 | only the date changes; the chosen time is kept |
| Booking.BookingWizard.SelectTime | src/pages/Booking.tsx:203-207 | only the time changes, to one of the offered times |
| Booking.BookingWizard.SetName | src/pages/Booking.tsx:282 | only the name changes |
| Booking.BookingWizard.SetPhone | src/pages/Booking.tsx:293 | only the phone changes |
| Booking.BookingWizard.Continue | src/pages/Booking.tsx:64-68 | the step advances exactly when its field is filled, and landing on step 3 loads the times, or the fallback times on a failure or a null body |
| Booking.BookingWizard.Back | src/pages/Booking.tsx:168 | the step goes back by one, and landing on step 3 loads the times again, with the same fallback |
| Booking.BookingWizard.Submit | src/pages/Booking.tsx:70-86 | nothing is sent without a name and a phone; otherwise the whole form is sent and step 5 is reached exactly when the request succeeded |
| Booking.BookOneVisit | src/pages/Booking.tsx:33-86 | a whole visit with the mock list sends exactly the chosen booking and reaches the confirmation |
| Booking.StaleTimeSurvivesDateChange | src/pages/Booking.tsx:163 | after a date change the wizard reaches step 4 with a time not offered for the new date |
| TestimonialPage.Validate | src/pages/Testimonial.tsx:56-64 | the checks pass exactly with a rating and a trimmed text of at least 10 UTF-16 code units, and the rating is checked first |
| TestimonialPage.SubmitDisabled | src/pages/Testimonial.tsx:281 | the button is disabled while submitting, and otherwise exactly when the submit checks would refuse |
| TestimonialPage.ButtonAgreesWithChecks | src/pages/Testimonial.tsx:281 | when idle, the submit button is enabled exactly when the checks pass |
| TestimonialPage.MinimumHint | src/pages/Testimonial.tsx:251 | the hint counts the untrimmed text: ten characters always show it, fewer than five never do |
| TestimonialPage.ValidTextShowsHint | src/pages/Testimonial.tsx:251 | whenever the checks pass, the "minimum reached" hint is shown |
| TestimonialPage.HintWithoutValidText | src/pages/Testimonial.tsx:251 | ten spaces show the hint while the button stays disabled |
| TestimonialPage.AstralCharactersCountTwice | src/pages/Testimonial.tsx:61 | five emoji outside the Basic Multilingual Plane count as 10 and pass the minimum |
| TestimonialPage.StarRow | src/pages/Testimonial.tsx:196-208 | five stars, star `i + 1` filled exactly when it is at most the rating |
| TestimonialPage.FilledStarsMatchRating | src/pages/Testimonial.tsx:196-208 | a rating from 0 to 5 fills exactly that many stars |
| TestimonialPage.ErrorNotice | src/pages/Testimonial.tsx:75-76 | the server's message when there is one, else the generic text |
| TestimonialPage.TestimonialForm.constructor | src/pages/Testimonial.tsx:16-24 | the page mounts on the loading screen with an empty form |
| TestimonialPage.TestimonialForm.Load | src/pages/Testimonial.tsx:30-51 | no link, a failed request or a null body gives the error screen and its toast (a null body also clears the info); a published testimonial gives the thank-you screen; anything else gives the form |
| TestimonialPage.TestimonialForm.ClickStar | src/pages/Testimonial.tsx:200 | the rating becomes the star clicked |
| TestimonialPage.TestimonialForm.SetText | src/pages/Testimonial.tsx:238-245 | the text becomes what was typed, at most 500 UTF-16 code units |
| TestimonialPage.TestimonialForm.Clear | src/pages/Testimonial.tsx:270-272 | the rating and the text are emptied, so the rating check fails |
| TestimonialPage.TestimonialForm.Submit | src/pages/Testimonial.tsx:53-83 | a failed check (lengths in UTF-16 code units) sends nothing; otherwise the untrimmed text is sent once and only success shows the thank-you screen |
| TestimonialLinks.GetOrGenerate | src/pages/sistema/Clientes.tsx:86-116 | one info request; on a 404 only, one generate and a second info request; the details are the body of a successful info request, and a null body yields none |
| TestimonialLinks.GenerateOnlyAfterNotFound | src/pages/sistema/Depoimentos.tsx:53-77 | every request names the appointment, and a link is generated at most once, exactly after a 404 |
| TestimonialLinks.InfoComesFromLinkInfo | src/pages/sistema/Depoimentos.tsx:53-77 | details are obtained exactly when the first request returns a body, or after a 404 when both later requests succeed with a body; a null first body never leads to generation |
| TestimonialLinks.LinkUrl | src/pages/sistema/Depoimentos.tsx:45-50 | the address is the origin, `/depoimento/` and the link |
| TestimonialLinks.LinkUrlInjective | src/pages/sistema/Clientes.tsx:91-101 | different links never share an address |
| TestimonialLinks.WhatsAppUrl | src/pages/sistema/Clientes.tsx:133 | the address starts with `https://wa.me/` and ends with the message text |
| TestimonialLinks.WhatsAppUrlCarriesText | src/pages/sistema/Depoimentos.tsx:70 | the message text is included whole |
| TestimonialLinks.WhatsAppUrlInjective | src/pages/sistema/Clientes.tsx:133 | the address determines the phone's digits and the message text |
| Clients.MatchesSearch | src/pages/sistema/Clientes.tsx:67-70 | the empty search matches every client, and a match needs a name or phone at least as long as the search |
| Clients.FilterClients | src/pages/sistema/Clientes.tsx:67-70 | `filteredClients` holds exactly the loaded clients that match, and no more of them than were loaded |
| Clients.ShownIffMatches | src/pages/sistema/Clientes.tsx:67-70 | a client is listed exactly when their name or phone includes the search text, ignoring case |
| Clients.EmptySearchShowsAll | src/pages/sistema/Clientes.tsx:67-70 | an empty search lists every client, in order |
| Clients.SearchIgnoresCase | src/pages/sistema/Clientes.tsx:67-70 | searching the lower-cased text lists the same clients |
| Clients.TypingNarrows | src/pages/sistema/Clientes.tsx:67-70 | typing more only narrows the list, to a filter of the current one |
| Clients.ServiceCell | src/pages/sistema/Clientes.tsx:303 | the service name, or `-` when it is missing |
| Clients.InviteMessage | src/pages/sistema/Clientes.tsx:130-132 | the invitation includes the client's name and the link |
| Clients.ClientsPage.constructor | src/pages/sistema/Clientes.tsx:34-47 | the page opens with empty lists and the dialog closed |
| Clients.ClientsPage.LoadClients | src/pages/sistema/Clientes.tsx:54-65 | `data.items \|\| data`; a failure or a null body keeps the list |
| Clients.ClientsPage.SetSearch | src/pages/sistema/Clientes.tsx:67 | the search text becomes what was typed |
| Clients.ClientsPage.SelectClient | src/pages/sistema/Clientes.tsx:72-84 | the client is selected; the history is `appointments \|\| []`, and a failure keeps the old history |
| Clients.ClientsPage.GenerateTestimonialLink | src/pages/sistema/Clientes.tsx:86-116 | the dialog opens on a finished appointment and shows the address of the link obtained |
| Clients.ClientsPage.CopyLink | src/pages/sistema/Clientes.tsx:118-123 | the link is copied exactly when there is one |
| Clients.ClientsPage.SendWhatsApp | src/pages/sistema/Clientes.tsx:125-142 | with a link and a client, the address carries the phone's digits and an invitation with the name and the link |
| Clients.ClientsPage.CloseModal | src/pages/sistema/Clientes.tsx:144-148 | the dialog closes and forgets its appointment and link |
| ServicesAdmin.Submittable | src/pages/sistema/Servicos.tsx:254-287 | the browser submits the reset form exactly when a name has been typed, as its duration and price already meet the `min` attributes |
| ServicesAdmin.PayloadOf | src/pages/sistema/Servicos.tsx:104-110 | the form's fields, always with `active: true` |
| ServicesAdmin.FormOf | src/pages/sistema/Servicos.tsx:132-142 | the service's fields, with `description \|\| ""` |
| ServicesAdmin.EditThenSaveReactivates | src/pages/sistema/Servicos.tsx:100-142 | editing and saving unchanged sends the service back, but active |
| ServicesAdmin.RemoveById | src/pages/sistema/Servicos.tsx:150 | `prev.filter(s => s.id !== id)` keeps no service with that id and adds none |
| ServicesAdmin.RemoveByIdSpec | src/pages/sistema/Servicos.tsx:151-157 | a delete removes exactly the services with that id, keeps the others in order, and leaves a list without that id unchanged |
| ServicesAdmin.ToggleById | src/pages/sistema/Servicos.tsx:170-172 | only the service with that id flips `active` |
| ServicesAdmin.ToggleTwice | src/pages/sistema/Servicos.tsx:166-177 | toggling twice gives the list back |
| ServicesAdmin.ImageSource | src/pages/sistema/Servicos.tsx:410 | a card shows an image exactly when the image has its own URL or a gallery URL; its own comes first, and the address is always one of the two |
| ServicesAdmin.ImageCaption | src/pages/sistema/Servicos.tsx:414 | the caption is never empty, falling back from the image's alt to the gallery's alt to "Imagem" |
| ServicesAdmin.ServicesPage.constructor | src/pages/sistema/Servicos.tsx:29-46 | the page opens with empty lists and the empty form |
| ServicesAdmin.ServicesPage.LoadServices | src/pages/sistema/Servicos.tsx:53-64 | `data \|\| []`, and a failure keeps the table |
| ServicesAdmin.ServicesPage.LoadGallery | src/pages/sistema/Servicos.tsx:66-73 | `data \|\| []`, and a failure keeps the list |
| ServicesAdmin.ServicesPage.LoadServiceImages | src/pages/sistema/Servicos.tsx:75-86 | `imgs \|\| []`, and a failure keeps the images |
| ServicesAdmin.ServicesPage.SelectService | src/pages/sistema/Servicos.tsx:88-98 | the image panel opens, any edit is abandoned and the form is emptied |
| ServicesAdmin.ServicesPage.SetForm | src/pages/sistema/Servicos.tsx:251-287 | the form becomes what was typed |
| ServicesAdmin.ServicesPage.Edit | src/pages/sistema/Servicos.tsx:132-142 | the form takes the service's fields and the image panel closes |
| ServicesAdmin.ServicesPage.CancelEdit | src/pages/sistema/Servicos.tsx:295-304 | editing stops and the form is emptied |
| ServicesAdmin.ServicesPage.Save | src/pages/sistema/Servicos.tsx:100-130 | an update when editing, otherwise a create; on success the form resets and the table reloads; on failure nothing changes |
| ServicesAdmin.ServicesPage.Delete | src/pages/sistema/Servicos.tsx:144-164 | after confirmation, success removes the service and ends the edit or panel about it; otherwise nothing changes |
| ServicesAdmin.ServicesPage.ToggleActive | src/pages/sistema/Servicos.tsx:166-177 | sends the service with `active` flipped, and flips it in the table only on success |
| ServicesAdmin.ServicesPage.SetNewImageUrl | src/pages/sistema/Servicos.tsx:179-193 | the URL field becomes what was typed |
| ServicesAdmin.ServicesPage.SelectGalleryImage | src/pages/sistema/Servicos.tsx:450-454 | the chosen gallery id becomes the option's value |
| ServicesAdmin.ServicesPage.AddImageByUrl | src/pages/sistema/Servicos.tsx:179-193 | needs a selected service and a URL that is not blank; on success the field empties and the images reload |
| ServicesAdmin.ServicesPage.AddImageFromGallery | src/pages/sistema/Servicos.tsx:195-209 | needs a selected service and a chosen image; on success the choice clears and the images reload |
| ServicesAdmin.ServicesPage.DeleteImage | src/pages/sistema/Servicos.tsx:211-221 | after confirmation and success, the selected service's images are reloaded |
| TestimonialsAdmin.TabList | src/pages/sistema/Depoimentos.tsx:92-94 | the tab lists exactly the testimonials with its status |
| TestimonialsAdmin.BadgesCountEachOnce | src/pages/sistema/Depoimentos.tsx:140-150 | the two badge counts never exceed the total, and equal it when every status is pending or published |
| TestimonialsAdmin.RenderStars | src/pages/sistema/Depoimentos.tsx:96-110 | five stars, star `i` gold exactly when `i < rating` |
| TestimonialsAdmin.StarsAgreeWithPicker | src/pages/sistema/Depoimentos.tsx:102 | the back office draws the same stars the client picked |
| TestimonialsAdmin.StatusBadge | src/pages/sistema/Depoimentos.tsx:196-201 | "Publicado" exactly for published, else "Pendente"; BadgeMatchesTab ties it to the tabs |
| TestimonialsAdmin.BadgeMatchesTab | src/pages/sistema/Depoimentos.tsx:196-201 | every card of the published tab says "Publicado" and every card of the pending tab says "Pendente" |
| TestimonialsAdmin.RemoveTestimonial | src/pages/sistema/Depoimentos.tsx:84 | exactly the testimonials without that id remain, no more than before |
| TestimonialsAdmin.RemoveTestimonialKeepsOrder | src/pages/sistema/Depoimentos.tsx:84 | removal works on each part of the list separately, so order is kept, and a list without that id is unchanged |
| TestimonialsAdmin.TestimonialsPage.constructor | src/pages/sistema/Depoimentos.tsx:23-26 | the page opens on the pending tab with an empty list |
| TestimonialsAdmin.TestimonialsPage.Load | src/pages/sistema/Depoimentos.tsx:32-43 | the fetched list, and a failure keeps the list |
| TestimonialsAdmin.TestimonialsPage.SelectTab | src/pages/sistema/Depoimentos.tsx:133-150 | the tab becomes the one clicked |
| TestimonialsAdmin.TestimonialsPage.CopyLink | src/pages/sistema/Depoimentos.tsx:45-50 | the public address of the testimonial's link |
| TestimonialsAdmin.TestimonialsPage.SendWhatsApp | src/pages/sistema/Depoimentos.tsx:53-77 | the get-or-generate requests, and an address with the phone's digits and the server's message when details were obtained |
| TestimonialsAdmin.TestimonialsPage.Delete | src/pages/sistema/Depoimentos.tsx:79-90 | after confirmation, success leaves the list filtered by id, in order; otherwise nothing changes |
| GalleryAdmin.ValidateAdd | src/pages/sistema/Galeria.tsx:37-45 | the checks pass exactly when neither field is blank, and the URL is checked first |
| GalleryAdmin.AddDisabled | src/pages/sistema/Galeria.tsx:123 | the add button is disabled while adding, and otherwise exactly when the add checks would refuse |
| GalleryAdmin.AddButtonAgreesWithChecks | src/pages/sistema/Galeria.tsx:123 | when idle, the add button is enabled exactly when the checks pass |
| GalleryAdmin.AltAttribute | src/pages/sistema/Galeria.tsx:170 | the description, or "Imagem da galeria" |
| GalleryAdmin.Caption | src/pages/sistema/Galeria.tsx:180 | the description, or "Sem descrição" |
| GalleryAdmin.GalleryPage.constructor | src/pages/sistema/Galeria.tsx:12-17 | the page opens with an empty list and an empty form |
| GalleryAdmin.GalleryPage.Load | src/pages/sistema/Galeria.tsx:23-34 | `data \|\| []`, and a failure keeps the list |
| GalleryAdmin.GalleryPage.SetUrl | src/pages/sistema/Galeria.tsx:96-104 | the URL field becomes what was typed |
| GalleryAdmin.GalleryPage.SetAlt | src/pages/sistema/Galeria.tsx:107-115 | the description field becomes what was typed |
| GalleryAdmin.GalleryPage.Add | src/pages/sistema/Galeria.tsx:36-60 | a failed check sends nothing; otherwise the typed fields are sent, and success empties the form and reloads the list |
| GalleryAdmin.GalleryPage.Delete | src/pages/sistema/Galeria.tsx:62-73 | after confirmation and success the list is reloaded from the server; otherwise nothing changes |
| SettingsAdmin.IsClosed | src/pages/sistema/Configuracoes.tsx:118-126 | `!!d.closed`: a day without the flag is open, and a closed day has the flag set to true |
| SettingsAdmin.DefaultsCoverTheWeek | src/pages/sistema/Configuracoes.tsx:23-31 | the defaults cover the seven days, and only Sunday is closed |
| SettingsAdmin.MergeHours | src/pages/sistema/Configuracoes.tsx:49-51 | the loaded entries win and the defaults fill the gaps |
| SettingsAdmin.MergeProperties | src/pages/sistema/Configuracoes.tsx:49-51 | after loading every weekday has a card, merging again changes nothing, and an empty object gives the defaults |
| SettingsAdmin.ApplyEdit | src/pages/sistema/Configuracoes.tsx:62-70 | only the edited field of the day changes |
| SettingsAdmin.ChangeHours | src/pages/sistema/Configuracoes.tsx:62-70 | only the edited day changes, and no day appears or disappears |
| SettingsAdmin.CloseThenReopen | src/pages/sistema/Configuracoes.tsx:62-70 | closing then reopening a day restores it, with an explicit `closed: false` |
| SettingsAdmin.ReloadShowsSavedHours | src/pages/sistema/Configuracoes.tsx:47-51 | reloading saved hours that cover the week shows them unchanged |
| SettingsAdmin.SettingsPage.constructor | src/pages/sistema/Configuracoes.tsx:33-35 | the page opens on the default hours |
| SettingsAdmin.SettingsPage.LoadSettings | src/pages/sistema/Configuracoes.tsx:43-60 | the loaded hours merged over the defaults, or the defaults when there are none or the request fails |
| SettingsAdmin.SettingsPage.Change | src/pages/sistema/Configuracoes.tsx:62-70 | the hours change as `ChangeHours` says, and time fields are not edited while the day is closed |
| SettingsAdmin.SettingsPage.Save | src/pages/sistema/Configuracoes.tsx:72-87 | the edited hours replace the stored ones, and the other settings go back unchanged |

## Left out

- Asynchronous interleaving is left out: each handler, with the reloads it triggers, is one atomic step. Because of this, the `isLoading`, `isSubmitting`, `isAdding` and `isSaving` flags are not fields; between handlers they are always false. Stale responses arriving late are not modelled.
- Toasts are modelled only on the public testimonial page. On the back-office pages they are left out, and so are console logging, animations and layout.
- `window.confirm` is a boolean parameter. The following are not modelled, because they are browser effects:
  - `window.open`, which is modelled as the address returned;
  - the clipboard, which is modelled as the text returned;
  - the three-second redirect of the testimonial error screen;
  - `window.scrollTo`.
- `window.location.origin` and today's date are constructor parameters. The clock is not read.
- Time zones are not modelled. Dates are calendar days, so the difference between `toISOString` (UTC) and local `Date` constructors is not captured. Neither is the time of day in the month filter.
- The range of JavaScript dates is not modelled: years are unbounded. Years outside 0..9999 are written in `toISOString`'s signed six-digit form, but parsing reads four-digit years only, so the ISO round trip is proved for years 0..9999.
- JsText.Lower: lower-cases ASCII letters only, not full Unicode `toLowerCase`.
- TestimonialLinks.WhatsAppUrl: the message text is kept unencoded, so `encodeURIComponent` is not modelled.
- Prices and durations are integers, not JavaScript numbers, so fractional prices are not modelled.
- `toLocaleDateString` formatting and the order of `Object.keys` are not modelled. The month label is not modelled either.
- Agenda.AppointmentDay: a `null` date is treated like an undefined one (Invalid Date), whereas `new Date(null)` is 1970-01-01, so the source would keep such an appointment when January 1970 is viewed.
- The agenda loads the service list (Agenda.tsx:58-65) but never uses it, so it is left out.
- Booking.BookingWizard.LoadServices: a successful reply with a null body would set the list to null and break the page. The model takes the body to be an array.
- Clients.ClientsPage.LoadClients: a paged body without `items` falls back to the body itself in the source. Here it is covered only by the `Bare` case, with its list.
- TestimonialsAdmin.TestimonialsPage.Load: a null body would set the list to null and break the page. The model takes the body to be an array.
- Whether the server makes link generation idempotent is not modelled; only the page's request sequence is.
- The browser's form validation is modelled as a precondition of `ServicesAdmin.ServicesPage.Save` (`required`, `min`), not as a separate event.
- The Cancel button's form semantics are not modelled. It is modelled as `CancelEdit`, not as a submit.
- The following are not part of this model:
  - authentication, the API client and its interceptors (`src/lib/api.ts`);
  - routing;
  - the service worker;
  - the static pages.
