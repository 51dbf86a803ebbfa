# SkillSwap core, modelled in Dafny

SkillSwap is a skill-bartering marketplace. Providers publish service offerings with a
price in credits per session, a number of sessions, weekdays and time slots. Learners
browse the offerings, choose a slot and dates on an offering's page, and send a booking
request. This project models the sequential logic under the React pages and the Express
handlers and proves what that logic promises:

- **Slot labels** (`time_format.dfy`). `"start-end"` minute-offset slot strings are
  parsed and rendered on 12-hour and 24-hour clocks. Both labels read back to the slot.
- **Offering form** (`offer_skills.dfy`). The slot generator is a loop proved equal to
  a recursive specification. From that specification the model proves the slot count
  `960 / d`, the window bounds and contiguity. Each slot's label agrees with the
  12-hour formatter. Also modelled: the nine-rule validator, the day and slot toggles,
  the credit total and the `parseInt(...) || 1` number inputs.
- **Booking panel** (`skill_detail.dfy`).
  - The 21-name weekday map.
  - Which calendar days are disabled.
  - The sorted, one-per-day date toggle.
  - The session cap of the calendar.
  - The page's selection state, as a class with the page's handlers as methods.
  - The request that submitting sends.
- **Marketplace** (`skills_page.dfy`). The four filter passes are modelled as a method
  proved equal to one filter by the conjunction of the four tests, plus the transform
  of API rows into display rows.
- **Server**.
  - `models.dfy` holds the schemas, as datatypes and validity predicates.
  - `store.dfy` is an in-memory `Database` class with offering and booking sequences and
    a user map.
  - `offering_controller.dfy` models offering creation and listing.
  - `booking_controller.dfy` models booking creation.
  - `auth_middleware.dfy` models the bearer-token guard, with the token verifier as a
    parameter.
- **Auth page** (`auth_page.dfy`). The password checks and the page state.
- **Client against server** (`client_server.dfy`).
  - A form the client accepts passes the server's guard.
  - The stored total equals the total the client showed.
  - A booking request the page sends is well shaped, and its credits stay within the
    displayed total.
  - A created offering shows in the marketplace with its price and total.

Modelling conventions:
- A calendar date is an integer day number, and day 0 is a Thursday. `getDay()` is
  `(d + 4) % 7`, and "today" is a parameter.
- Ratings are held in tenths of a star.
- A JSON field that may be missing or may not be an array is an `Option`.
- A handler's response is `Reply`: `Ok(status, document)` or `Fail(status, message)`.

Notable behaviours of the code, which the model keeps:
- An unknown weekday name is silently ignored rather than rejected: the day names are
  mapped through `dayMap` with no check (client/src/pages/SkillDetail.tsx:199-202).
- The offering guard has no upper bounds and no length checks, and does not look at
  the description (server/src/controllers/serviceOffering.controller.ts:24-36).
- Booking checks only the body's shape, that the offering exists and that the
  requester exists. It does not check conflicts, weekdays, the date horizon, a session
  cap, whether the offering is live or a credit balance
  (server/src/controllers/serviceBooking.controller.ts:14-39).
- No credits are debited: the deduction is commented out
  (server/src/controllers/serviceBooking.controller.ts:41-43).
- The offering schema requires `teacherName`
  (server/src/models/ServiceOffering.model.ts:28), but the handler never sets it
  (server/src/controllers/serviceOffering.controller.ts:53-58). This is the finding
  below. The corrected handler stores the provider's user name.
- JavaScript's `.length` of a string counts UTF-16 code units, so a character above
  U+FFFF, such as an emoji, counts twice. The length rules use `Strings.Utf16Length`.

## Model

| member | source | states |
|---|---|---|
| Strings.NatToString | client/src/utils/timeFormat.ts:14 | `toString()` of a natural: non-empty decimal digits, no leading zero, two or more digits exactly from 10 up |
| Strings.DigitsValueOfNatToString | client/src/utils/timeFormat.ts:7 | `Number` of the rendered digits gives the number back |
| Strings.Split | client/src/utils/timeFormat.ts:7 | `split` on one character: at least one part, no part holds the separator, joining the parts restores the string |
| Strings.SplitAtFirst | server/src/middleware/auth.middlewere.ts:15 | splitting `a + sep + rest` with `sep` not in `a` yields `a` then the parts of `rest` |
| Strings.ToLower | client/src/pages/Skills.tsx:107-110 | `toLowerCase` keeps the length and lower-cases each character (ASCII) |
| Strings.Utf16Length | client/src/pages/Auth.tsx:80 | `.length` of a string: between the number of characters and twice that, 0 only for the empty string |
| Strings.Utf16LengthBasic | client/src/components/dashboard/OfferSkills.tsx:147 | without characters above U+FFFF, `.length` is the number of characters |
| Strings.Utf16LengthAllAstral | client/src/pages/Auth.tsx:38 | each character above U+FFFF counts two units |
| Strings.ContainsIff | client/src/pages/Skills.tsx:107-110 | `includes` holds exactly when the query occurs at some position |
| Lists.Filter | client/src/pages/Skills.tsx:106-137 | `filter` keeps exactly the elements that pass, never lengthening the list |
| Lists.FilterIsSubsequence | client/src/pages/Skills.tsx:101-138 | a filtered list is an order-preserving sub-list of its input |
| Lists.FilterFilter | client/src/pages/Skills.tsx:101-138 | two filters in a row equal one filter by the conjunction |
| Lists.FilterCommutes | client/src/pages/Skills.tsx:101-138 | the order of two filters does not matter |
| Lists.FilterIdempotent | client/src/pages/Skills.tsx:101-138 | filtering again by the same test changes nothing |
| Lists.RemoveAll | client/src/components/dashboard/OfferSkills.tsx:124 | `filter(x => x !== item)`: item gone, every other member kept, shorter when item was present |
| Lists.RemoveAllNoDuplicates | client/src/components/dashboard/OfferSkills.tsx:124 | removing an item keeps a duplicate-free list duplicate-free |
| Lists.Insert | client/src/pages/SkillDetail.tsx:270 | `[...prev, date].sort(...)` for a new date: strictly increasing, one longer, members are the old ones plus the date |
| Lists.IncreasingUnique | client/src/pages/SkillDetail.tsx:270 | a strictly increasing list is determined by its members |
| TimeFormat.ToNumber | client/src/utils/timeFormat.ts:7 | `Number(part)` is a number exactly for a digit string, and then the number those digits denote (the empty part is 0); NaN otherwise |
| TimeFormat.DisplayHour | client/src/utils/timeFormat.ts:13 | `hours % 12 \|\| 12` lies in 1..12 and agrees with the hour mod 12 |
| TimeFormat.PadStart2 | client/src/utils/timeFormat.ts:14 | `padStart(2, '0')` keeps a string of two or more characters and puts '0's in front of a shorter one up to length 2 |
| TimeFormat.SlotMinutesOfValue | client/src/utils/timeFormat.ts:7 | `SlotMinutes` (the `split` and `map(Number)`) reads a stored `"start-end"` back into both offsets |
| TimeFormat.FormatTimeSlotOfValue | client/src/utils/timeFormat.ts:6-35 | on a stored slot, both formatters join the two clock texts with " - " |
| TimeFormat.MidnightAndNoon | client/src/utils/timeFormat.ts:10-14 | minute 0 shows "12:00 AM" and minute 720 shows "12:00 PM" |
| TimeFormat.MissingEndShowsNaN | client/src/utils/timeFormat.ts:7-17 | a slot with no dash is read whole as the start, and its missing end prints "12:NaN AM" and "NaN:NaN" (`FormatTime12`, `FormatTime24`) |
| TimeFormat.PaddedField | client/src/utils/timeFormat.ts:14 | the padded minute field is decimal digits with the minute's value, exactly two characters |
| TimeFormat.Clock12RoundTrip | client/src/utils/timeFormat.ts:9-15 | `Clock12`, the 12-hour `formatTime`: for 0 <= m < 1440 its text reads back to m (displayed hour mod 12, plus 12 for PM, is the hour) |
| TimeFormat.Clock24RoundTrip | client/src/utils/timeFormat.ts:28-32 | `Clock24`, the 24-hour `formatTime`: its text reads back to m as HH * 60 + MM |
| TimeFormat.SlotLabel12RoundTrip | client/src/utils/timeFormat.ts:6-18 | `FormatTimeSlot` (`formatTimeSlot`) of a stored slot reads back to its start and end |
| TimeFormat.SlotLabel24RoundTrip | client/src/utils/timeFormat.ts:25-35 | `FormatTimeSlot24Hour` (`formatTimeSlot24Hour`) of a stored slot reads back to its start and end |
| TimeFormatExamples.ExampleClocks12 | client/src/utils/timeFormat.ts:3-4 | the documented example: 1080 and 1200 show "6:00 PM" and "8:00 PM" |
| TimeFormatExamples.ExampleClocks24 | client/src/utils/timeFormat.ts:22-23 | the documented example: 1080 and 1200 show "18:00" and "20:00" |
| TimeFormatExamples.ExampleDigits | client/src/utils/timeFormat.ts:3 | the slot of 1080 to 1200 is stored as "1080-1200" |
| OfferSkills.FormatClock | client/src/components/dashboard/OfferSkills.tsx:55-61 | the form's own `formatTime` renders exactly what timeFormat.ts's 12-hour `formatTime` renders |
| OfferSkills.GenerateTimeSlots | client/src/components/dashboard/OfferSkills.tsx:49-77 | the loop pushes exactly the slots of length d from 6:00 AM that end by 10:00 PM, in order |
| OfferSkills.SlotsFromCount | client/src/components/dashboard/OfferSkills.tsx:63-66 | the number of slots from `start` is the quotient of the remaining window by d |
| OfferSkills.SlotsFromAt | client/src/components/dashboard/OfferSkills.tsx:63-71 | the i-th slot starts i * d after `start` and lasts d |
| OfferSkills.TimeSlotsFitWindow | client/src/components/dashboard/OfferSkills.tsx:52-74 | floor(960 / d) slots, the i-th from 360 + i * d, none ending after 1320, no room for one more |
| OfferSkills.TimeSlotValue | client/src/components/dashboard/OfferSkills.tsx:71 | every stored value reads back as (start, start + d) |
| OfferSkills.TimeSlotsContiguous | client/src/components/dashboard/OfferSkills.tsx:52-66 | the first slot starts at 360 and each slot ends where the next starts, with start < end |
| OfferSkills.SlotCaption | client/src/components/dashboard/OfferSkills.tsx:72 | each slot's label is `formatTimeSlot` of its value |
| OfferSkills.Validate | client/src/components/dashboard/OfferSkills.tsx:144-177 | one error entry per failing rule, for each of the nine rules in both directions (lengths in UTF-16 units), and success iff there is none, iff the form is `Acceptable` |
| OfferSkills.ValidateDetails | client/src/components/dashboard/OfferSkills.tsx:147-158 | the name, category, description and level rules: an entry exactly for each failing one, name and description lengths in UTF-16 units |
| OfferSkills.ValidateTerms | client/src/components/dashboard/OfferSkills.tsx:159-173 | the credit, duration, session, day and slot rules: an entry exactly for each failing one |
| OfferSkills.Toggle | client/src/components/dashboard/OfferSkills.tsx:120-142 | the item flips membership, every other item keeps it, duplicate-freedom is kept |
| OfferSkills.ToggleTwice | client/src/components/dashboard/OfferSkills.tsx:120-142 | toggling an absent item twice restores the list |
| OfferSkills.ToggleDay | client/src/components/dashboard/OfferSkills.tsx:120-130 | `toggleDay`: the day flips membership, other days and every other field keep their values |
| OfferSkills.ToggleTimeSlot | client/src/components/dashboard/OfferSkills.tsx:132-142 | `toggleTimeSlot`: the slot flips membership, other slots and every other field keep their values |
| OfferSkills.TotalCreditsRange | client/src/components/dashboard/OfferSkills.tsx:96 | `TotalCredits`, credits per session times sessions, lies in 1..500 on a validated form |
| OfferSkills.LeadingDigits | client/src/components/dashboard/OfferSkills.tsx:506 | the digits `parseInt` reads: the longest digit prefix, all of a digit string |
| OfferSkills.ParseInt | client/src/components/dashboard/OfferSkills.tsx:506 | `parseInt`: a digit string gives its value, text starting with neither a digit nor a sign gives NaN, a negative result needs a leading "-" |
| OfferSkills.NumberInput | client/src/components/dashboard/OfferSkills.tsx:506 | `parseInt(v) \|\| 1`: NaN and 0 become 1, every other value passes through, never 0 |
| OfferSkills.NumberInputCases | client/src/components/dashboard/OfferSkills.tsx:506 | typing n >= 1 gives n, typing -n gives -n, "" and "0" give 1 |
| SkillDetail.DayNumber | client/src/pages/SkillDetail.tsx:34-59 | exactly the 21 spellings are recognised; each gives a weekday in 0..6 of which it is one of the three spellings |
| SkillDetail.DayNamesAgree | client/src/pages/SkillDetail.tsx:34-59 | "Mon", "monday" and "Monday" (and so on) map to the same index, Sunday = 0 |
| SkillDetail.Weekday | client/src/pages/SkillDetail.tsx:210 | `getDay()` of a day lies in 0..6 |
| SkillDetail.AvailableDayNumbers | client/src/pages/SkillDetail.tsx:199-202 | each listed day name maps through the day map, one entry per name |
| SkillDetail.EnabledWeekday | client/src/pages/SkillDetail.tsx:199-210 | a weekday is available iff some listed name maps to it |
| SkillDetail.UnknownDayEnablesNothing | client/src/pages/SkillDetail.tsx:199-210 | an unrecognised name changes no weekday's availability |
| SkillDetail.IsDateDisabled | client/src/pages/SkillDetail.tsx:204-226 | a day can be picked iff it lies in the 31 days from today, one of the offering's day names falls on it, and no booking holds it in the chosen slot |
| SkillDetail.NoSlotIgnoresBookings | client/src/pages/SkillDetail.tsx:214-223 | with no slot selected the booked slots play no part |
| SkillDetail.BookedIff | client/src/pages/SkillDetail.tsx:216-222 | `bookedSlots.some(...)` holds exactly when the (day, slot) pair is among the bookings |
| SkillDetail.ToggleDate | client/src/pages/SkillDetail.tsx:262-273 | stays strictly increasing; the day flips membership and nothing else does |
| SkillDetail.ToggleDateTwice | client/src/pages/SkillDetail.tsx:262-273 | toggling a day twice restores the selection |
| SkillDetail.ToggleDateSorts | client/src/pages/SkillDetail.tsx:270 | adding a day gives the one sorted arrangement of the old days plus the new one |
| SkillDetail.ReachedLimit | client/src/pages/SkillDetail.tsx:129-131 | a chosen day is never blocked; an unblocked new day keeps the selection within a positive cap; a cap of 0 blocks nothing |
| SkillDetail.BookingSelection.constructor | client/src/pages/SkillDetail.tsx:166-167 | no slot and no dates at first |
| SkillDetail.BookingSelection.HandleTimeSlotChange | client/src/pages/SkillDetail.tsx:257-260 | choosing a slot empties the dates |
| SkillDetail.BookingSelection.HandleDateToggle | client/src/pages/SkillDetail.tsx:262-273 | the dates become their toggle by the day, and stay strictly increasing |
| SkillDetail.BookingSelection.CalendarClick | client/src/pages/SkillDetail.tsx:129-137 | a click toggles the day iff a slot is chosen, the day is enabled and not blocked by the cap; otherwise nothing changes |
| SkillDetail.BookingSelection.SubmitRequest | client/src/pages/SkillDetail.tsx:233-243 | a request always names the chosen slot and at least one date, and sends the chosen dates in increasing order, none twice; none without a slot and a date |
| SkillDetail.ClickKeepsLimit | client/src/pages/SkillDetail.tsx:129-137 | clicks never take the selection past totalSessions; at the cap only deselection works |
| SkillDetail.BookedDayNotClickable | client/src/pages/SkillDetail.tsx:214-223 | a day booked in the chosen slot cannot be picked |
| SkillDetail.DisplayedTotal | client/src/pages/SkillDetail.tsx:229-231 | the shown total is 0 before loading and never negative for non-negative factors |
| SkillsPage.MinRating | client/src/pages/Skills.tsx:120-124 | every rating threshold lies between 4 and 5 stars |
| SkillsPage.ApplyFilters | client/src/pages/Skills.tsx:95-141 | the four passes give the skills that pass all four tests, and exactly those, in their order |
| SkillsPage.FilterCredits | client/src/pages/Skills.tsx:127-138 | the credits pass filters by the chosen bucket and keeps everything for any other label |
| SkillsPage.QueryPass | client/src/pages/Skills.tsx:104-112 | the search pass (or its absence for "") gives the first stage of the conjunction |
| SkillsPage.CategoryPass | client/src/pages/Skills.tsx:115-117 | the category pass adds the second test; "All Categories" adds nothing |
| SkillsPage.RatingPass | client/src/pages/Skills.tsx:120-124 | the rating pass adds the third test; "Any Rating" adds nothing |
| SkillsPage.FilteredIsSubsequence | client/src/pages/Skills.tsx:101-138 | the result is an order-preserving sub-list of the skills |
| SkillsPage.DefaultsKeepAll | client/src/pages/Skills.tsx:101-138 | with every filter at its default the whole list is shown |
| SkillsPage.FiltersIdempotent | client/src/pages/Skills.tsx:101-138 | filtering the result again changes nothing |
| SkillsPage.PassesInReverse | client/src/pages/Skills.tsx:101-138 | running the four passes in reverse order gives the same list |
| SkillsPage.QueryIgnoresCase | client/src/pages/Skills.tsx:104-112 | the case of the query does not matter |
| SkillsPage.NameFragmentMatches | client/src/pages/Skills.tsx:107 | any fragment of the name, in any case, finds the skill |
| SkillsPage.CreditBuckets | client/src/pages/Skills.tsx:127-138 | 1-2 and 3-5 are disjoint; 3-5 and 5+ overlap exactly at 5 |
| SkillsPage.OrString | client/src/pages/Skills.tsx:189 | `x \|\| fallback` for a string: either the value or the fallback, a present value wins, never empty with a non-empty fallback |
| SkillsPage.OrZero | client/src/pages/Skills.tsx:187-188 | `x \|\| 0`: a present number is kept, and a non-zero result comes from the row |
| SkillsPage.TransformRow | client/src/pages/Skills.tsx:172-191 | title = name, id defaults to "", rating and review count to 0, teacher to "Anonymous"; every other field copied |
| SkillsPage.TransformRows | client/src/pages/Skills.tsx:172 | the `map` transforms each row in place |
| SkillsPage.TitleAddsNothing | client/src/pages/Skills.tsx:104-112 | on an API row the title search is the name search |
| SkillsPage.UnratedHiddenByRatingFilter | client/src/pages/Skills.tsx:120-124 | an offering without a rating is hidden by every rating filter |
| SkillsPage.RatingThresholds | client/src/pages/Skills.tsx:120-124 | a 5-star skill passes every rating filter, a 4.5-star one all but "5 Stars Only", a 4-star one only "Any Rating", "4+ Stars" and unknown labels, one under 4 stars only "Any Rating" |
| Store.FindIn | server/src/controllers/serviceBooking.controller.ts:24 | `findById`: a found offering has the id; none is found iff no offering has it |
| Store.FindInAppend | server/src/controllers/serviceOffering.controller.ts:60 | after saving a new id, it finds the new offering and every other lookup is unchanged |
| Store.Database.FindOffering | server/src/controllers/serviceBooking.controller.ts:24 | the lookup on the stored offerings |
| Store.Database.SaveOffering | server/src/controllers/serviceOffering.controller.ts:60 | `save` stores the document iff it satisfies the offering schema (`Models.OfferingSchemaValid`), and changes nothing else |
| Store.Database.SaveBooking | server/src/controllers/serviceBooking.controller.ts:56 | `save` stores the booking iff it satisfies the booking schema (`Models.BookingSchemaValid`), and changes nothing else |
| OfferingController.NewOffering | server/src/controllers/serviceOffering.controller.ts:39-58 | the document: the ten allowed body fields copied, provider from auth, total = credits per session * sessions of the body (at least 1), live, rating and reviews 0 |
| OfferingController.ClientTotalIgnored | server/src/controllers/serviceOffering.controller.ts:39-51 | the client's total, rating and review count do not affect the document |
| OfferingController.GuardHasNoUpperBounds | server/src/controllers/serviceOffering.controller.ts:24-36 | `PassesGuard` ignores the description and bounds nothing from above: any price and session count from 1 up pass |
| OfferingController.CreateSkillOfferingAsWritten | server/src/controllers/serviceOffering.controller.ts:4-67 | 400 for a body failing the guard; every other request ends in 500 and nothing is stored |
| OfferingController.TeacherOf | server/src/models/ServiceOffering.model.ts:28 | the stored name is the provider's user name, and it meets the `required` check iff the provider is a user with a non-empty name |
| OfferingController.CreateSkillOffering | server/src/controllers/serviceOffering.controller.ts:4-67 | 400 iff the guard fails; then 201 with the document appended iff it satisfies the schema, else 500; bookings and users untouched |
| OfferingController.CorrectedSaves | server/src/models/ServiceOffering.model.ts:25-43 | with a named provider, a guarded body with a description, a known level and a numeric duration is saved |
| OfferingController.NoTeacherNeverValid | server/src/models/ServiceOffering.model.ts:28 | a document without a teacher name never satisfies the schema |
| OfferingController.GetSkillOfferings | server/src/controllers/serviceOffering.controller.ts:69-77 | exactly the live offerings, in stored order |
| OfferingController.CreatedIsListed | server/src/controllers/serviceOffering.controller.ts:53-72 | a newly stored offering joins the end of the listing |
| BookingController.NewBooking | server/src/controllers/serviceBooking.controller.ts:31-54 | sessions = number of dates (at least 1), credits = sessions * price, CONFIRMED, request fields copied |
| BookingController.Decide | server/src/controllers/serviceBooking.controller.ts:14-61 | accepted iff well shaped and both lookups succeed; failures are 400 or 404, 404 exactly for a missing offering, "Insufficient credits" exactly for an unknown requester; an accepted booking of a stored offering meets the schema |
| BookingController.CreateBooking | server/src/controllers/serviceBooking.controller.ts:7-67 | the reply is the decision on the stored offering and users; the booking is appended iff accepted; offerings and users unchanged |
| BookingController.SavedBookingValid | server/src/models/ServiceBooking.model.ts:34-43 | for a stored offering and a known requester the booking meets the schema minima (`Models.BookingSchemaValid`) |
| BookingController.ShapeCheckedFirst | server/src/controllers/serviceBooking.controller.ts:14-21 | a body that fails `WellShaped` gets the same reply whatever the database holds |
| BookingController.OnlyPriceMatters | server/src/controllers/serviceBooking.controller.ts:24-32 | liveness, days, slots and session count of the offering do not affect the decision |
| BookingController.RepeatedDateCharged | server/src/controllers/serviceBooking.controller.ts:31-32 | a repeated date counts as one more session and one more price |
| AuthMiddleware.BearerToken | server/src/middleware/auth.middlewere.ts:15 | the second space-separated field: the text after "Bearer " up to the next space |
| AuthMiddleware.Protect | server/src/middleware/auth.middlewere.ts:4-31 | next is reached iff the header starts with "Bearer ", the token is non-empty and the verifier accepts it, with the decoded user id |
| AuthMiddleware.WellFormedHeader | server/src/middleware/auth.middlewere.ts:11-28 | "Bearer <token>" is decided by the verifier alone, and later fields are ignored |
| AuthMiddleware.EmptyTokenRejected | server/src/middleware/auth.middlewere.ts:16-18 | "Bearer " and "Bearer" followed by two spaces give 401 |
| AuthMiddleware.SchemeIsCaseSensitive | server/src/middleware/auth.middlewere.ts:11-13 | "bearer " gives 401 |
| AuthPage.WithField | client/src/pages/Auth.tsx:25-28 | only the named input changes |
| AuthPage.ShowPasswordError | client/src/pages/Auth.tsx:76-77 | with `PasswordsMatch`: shown only when signing up, and then no call is made; hidden with a long enough password and a typed confirmation, the call is made |
| AuthPage.PasswordTooShort | client/src/pages/Auth.tsx:80 | while shown (length in UTF-16 units), neither mode makes a call; hidden with a non-empty password, a login is made |
| AuthPage.HasErrors | client/src/pages/Auth.tsx:81 | a disabled button never hides a call; an enabled one makes the call unless the password or the sign-up confirmation is empty |
| AuthPage.SubmitCall | client/src/pages/Auth.tsx:38-58 | a call is made only for a password of at least 8 UTF-16 units; it carries the form's email and password (and name when registering), and its kind follows the mode |
| AuthPage.ButtonEnabledButBlocked | client/src/pages/Auth.tsx:80-81 | an empty password, or an empty sign-up confirmation, leaves the button enabled and the submit blocked |
| AuthPage.LoginIgnoresConfirmation | client/src/pages/Auth.tsx:43-45 | in login mode the confirmation plays no part |
| AuthPage.AstralPasswordAccepted | client/src/pages/Auth.tsx:38 | four emoji make a long enough password: no error message and a login call |
| AuthPage.FailureMessage | client/src/pages/Auth.tsx:65-69 | the server's message when it sent one, otherwise "Invalid credentials" for login and "Registration failed" for sign-up; never empty |
| AuthPage.AuthPageState.constructor | client/src/pages/Auth.tsx:8-16 | login mode, no error, empty form |
| AuthPage.AuthPageState.HandleChange | client/src/pages/Auth.tsx:20-29 | the named field changes and the error clears |
| AuthPage.AuthPageState.SelectTab | client/src/pages/Auth.tsx:109-112 | the mode is set and the error clears |
| AuthPage.AuthPageState.HandleSubmit | client/src/pages/Auth.tsx:31-73 | the call is `SubmitCall`; a successful call ends in login mode, a failed one shows its message |
| ClientServer.ValidatedFormPassesGuard | server/src/controllers/serviceOffering.controller.ts:24-39 | the `Payload` of a form the client validates (`Acceptable`) passes the server's `PassesGuard`, and the stored total is the client's `TotalCredits` |
| ClientServer.ValidatedFormSaved | server/src/models/ServiceOffering.model.ts:25-43 | with the provider's name, a validated form with a listed level and duration satisfies the schema |
| ClientServer.SubmittedRequestAccepted | server/src/controllers/serviceBooking.controller.ts:14-32 | a request the page sends is `WellShaped` for the server, and its credits stay within the shown total |
| ClientServer.CreatedOfferingDisplayed | client/src/pages/Skills.tsx:172-191 | a created offering shows its price, sessions and total, no rating, and the stored name or "Anonymous" |

## Left out

- JSX rendering, alerts, console output and navigation are not modelled. The stored token after a login is not modelled either.
- HTTP calls are not modelled. Each server call's answer is a parameter: `AuthPage.AuthPageState.HandleSubmit` receives a `ServerAnswer`.
- The bearer-token verifier and the password hashing are not modelled. `protect` receives the verifier as a function from token to optional user id.
- Real dates, time zones and `toISOString` are not modelled. Days are integers, and `ClientServer.BookingBody` takes the ISO rendering as a parameter.
- The booked-slot check compares (day, slot) pairs, not ISO strings.
- Ratings are held in tenths of a star, so values finer than a tenth are not modelled.
- JavaScript loose typing is not modelled: `undefined < 1`, strings in number fields, and NaN arithmetic in number fields. Numeric body fields are integers.
- `toLowerCase` is modelled as ASCII lower-casing, without Unicode case mapping.
- OfferSkills.ParseInt does not skip leading whitespace, which `parseInt` does. The number inputs of the form never hold any.
- `Number(" 12 ")` and similar spellings are not modelled. Only digit strings are numbers in `TimeFormat.ToNumber` and in `Models.NumberCastable`.
- Mongoose casting of ids is not modelled. An `offeringId` that is not an ObjectId would throw and give 500; the model treats it as an unknown id, which gives 404.
- New ObjectIds are not generated by the model. A new offering's id is a parameter, required to be fresh.
- The validators' error dictionary is modelled as the set of failing fields, and `OfferSkills.Message` gives each entry's text.
- Clearing an error entry when its field or toggle changes is not modelled.
- `handleChange` of the offer form is not modelled, nor is the form reset after a successful submit.
- `OfferSkills.GenerateTimeSlots` requires a positive duration. With zero or a negative duration the loop never ends. The duration select only offers 30 to 120.
- The rendering of "skill not found" and of the loading states is not modelled.
- The requester's `save()` after the commented-out deduction is not modelled as a write. The user map is unchanged.
- Concurrency between requests is not modelled. Each handler is one atomic step.
- The user registration and login handlers on the server are not part of this model, and neither is the availability endpoint: those files are not modelled.
- `SkillDetail.DisplayedTotal` is weaker than the source: it states the total's bounds, not its value. `ClientServer.SubmittedRequestAccepted` relates it to the credits a booking uses.
- `SkillDetail.BookingSelection.CalendarClick` models the date panel's `pointer-events-none` while no slot is chosen (client/src/pages/SkillDetail.tsx:500) as a click that does nothing.

## Findings

| source | as written | input that shows it | evidently intended | confidence | as-written member | corrected member |
|---|---|---|---|---|---|---|
| server/src/controllers/serviceOffering.controller.ts:53-60 | the new document never receives `teacherName`, which the schema requires (server/src/models/ServiceOffering.model.ts:28), so `save()` always throws and the handler answers 500 | any body that passes the guard, e.g. a form the client's `validate` accepts | store the provider's user name as `teacherName`, so that a valid offering is saved and answered with 201 | not executed | OfferingController.CreateSkillOfferingAsWritten | OfferingController.CreateSkillOffering |
