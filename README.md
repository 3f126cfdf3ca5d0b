# Shivazen clinic scheduling — a Dafny model

Shivazen is a Django application for an aesthetics clinic. Clients register,
log in, and book procedures with the clinic's professionals. This project
models the parts of it that carry scheduling and account rules, and proves
properties of them:

- `Profissional.get_horarios_disponiveis` (`slots.dfy`, module `Slots`) lists
  the free 30-minute start times of one professional on one date as `"HH:MM"`
  labels. It looks up that weekday's working window, gathers the day's
  occupying bookings and the blocks covering the date, and walks the window
  30 minutes at a time.
- The `agendaCadastro` view (`views.dfy`, module `Views`) books an
  appointment. It checks that the form is complete, looks up the client, the
  professional and the procedure, and rejects the request when an
  overlapping occupying booking exists. Otherwise it inserts a booking with
  status `AGENDADO`.
- The `usuarioCadastro` view registers a client. It rejects a CPF or e-mail
  already on file. Otherwise it creates the client, the client's chart
  (`Prontuario`), the `Cliente` profile when it is missing, and the user. When
  creating the user fails, it deletes the client again.
- The first step of the `usuarioLogin` view resolves the login identifier to
  the e-mail to authenticate with.

`tables.dfy` (module `Tables`) holds the ORM's `.get()` and `.filter()` over a
table held as a sequence. `records.dfy` (module `Records`) holds the row
shapes and the time encoding. A date is Python's `date.toordinal()`. An instant
is a whole number of minutes, `date * 1440 + minute of day`.

Three behaviours of the code are modelled as written:

- The listing offers a final slot that runs past the end of the window.
  `Slots.LastSlotOverrunsWindow` shows a 09:00-09:45 window offering both
  09:00 and 09:30.
- The listing tests only whether a slot's start lies inside a booking or a
  block (`app_shivazen/models.py:81`, `:89`). So a short booking inside a
  slot, after its start, does not hide the slot. The booking view tests
  interval overlap (`app_shivazen/views.py:173-178`). In the model the listing
  can therefore offer a start that the booking view then refuses
  (`Views.OfferedSlotRejectedByBooking`, `Views.OfferedSlotClashesOnlyLater`).
- The listing considers only the bookings that start on the listed date
  (`app_shivazen/models.py:59`). A booking from 23:30 the day before to 00:45
  is not considered, so 00:00 is offered, and booking 00:00 is then refused
  as a conflict (`Views.OvernightBookingLeavesMidnightListed`,
  `Views.OvernightBookingRefusesMidnight`).

These hold in the model, where every time is a naive minute count. In the
program as written, once its views are routed (see "URL routing" under
"## Left out") and with time zones enabled, the listing fails as soon as it
considers one booking or block (see "Time zones" under "## Left out"), so it
never reaches the point of offering such a start.

## Model

| member | source | states |
|---|---|---|
| `Tables.Get` | app_shivazen/models.py:49-54 | `.get()` gives DoesNotExist exactly when no row matches, MultipleObjectsReturned exactly when two rows match, and otherwise the one matching row |
| `Tables.Filter` | app_shivazen/models.py:57-66 | `.filter()` keeps exactly the rows that pass the test, never more rows than the table has |
| `Records.DateOf` | app_shivazen/models.py:59 | the date of an instant is the day it falls in: the clock reading is the rest, in [0, 1440) |
| `Records.ClockOf` | app_shivazen/models.py:72-73 | the clock reading of an instant is its minute of the day, in [0, 1440) |
| `Records.Combine` | app_shivazen/models.py:72-73 | `datetime.combine(d, m)` is the instant whose date is `d` and whose clock reading is `m` |
| `Slots.IsoWeekday` | app_shivazen/models.py:46 | `isoweekday()` is in 1..7 and agrees with the date modulo 7 |
| `Slots.WeekdayCode` | app_shivazen/models.py:46 | the weekday code is in 1..7, Sunday is 1, and every other day is its ISO weekday plus one |
| `Slots.WeekdayCodeNextDay` | app_shivazen/models.py:46 | the code advances by one a day, wraps from 7 to 1, and repeats every 7 days |
| `Slots.FindAvailability` | app_shivazen/models.py:49-52 | the availability `.get()` is missing exactly when no row of the professional has that weekday code, ambiguous exactly when two have, and otherwise gives a row of the professional for that code |
| `Slots.BookingsOn` | app_shivazen/models.py:57-61 | the bookings considered are exactly those of the professional that start on the date with status AGENDADO or CONFIRMADO |
| `Slots.BlocksOn` | app_shivazen/models.py:62-66 | the blocks considered are exactly those of the professional whose start date is on or before the date and whose end date is on or after it |
| `Slots.ScanBookings` | app_shivazen/models.py:80-83 | the scan with its early exit reports a candidate occupied exactly when some considered booking holds it (start <= t < end) |
| `Slots.ScanBlocks` | app_shivazen/models.py:86-91 | the scan reports a candidate blocked exactly when some considered block holds it |
| `Slots.WalkWindow` | app_shivazen/models.py:68-97 | the loop emits the labels of exactly the free grid starts of the window, in order |
| `Slots.GetAvailableSlots` | app_shivazen/models.py:40-99 | the whole method returns the slot list of the specification function: `[]` without a window, an error for two windows, otherwise the walk's labels |
| `Slots.AvailableSlots` | app_shivazen/models.py:40-99 | the listing fails exactly when two availability rows match the weekday code, and otherwise offers at most ceil((end - start) / 30) labels of the window |
| `Slots.FreeFrom` | app_shivazen/models.py:76-97 | the walk from a start to the end emits at most ceil((end - start) / 30) starts |
| `Slots.FreeFromMembership` | app_shivazen/models.py:76-97 | a start is emitted if and only if it lies in [start, end), is a multiple of 30 minutes from the start, and nothing considered holds it |
| `Slots.FreeFromAscending` | app_shivazen/models.py:76-97 | the emitted starts are strictly ascending |
| `Slots.FreeFromUnobstructed` | app_shivazen/models.py:76-97 | with nothing booked or blocked, every grid start of the window is emitted, ceil((end - start) / 30) of them |
| `Slots.Label` | app_shivazen/models.py:95 | `strftime('%H:%M')` gives five characters: two digits, a colon, two digits |
| `Slots.LabelRoundTrip` | app_shivazen/models.py:95 | parsing the zero-padded `%H:%M` label of a clock time gives back that clock time |
| `Slots.ParsedLabelIsCanonical` | app_shivazen/models.py:95 | any `HH:MM` string that parses is exactly the label of the time it parses to |
| `Slots.NoWindowNoSlots` | app_shivazen/models.py:47-54 | a professional with no availability row for the date's weekday code gets `[]` |
| `Slots.EmptyWindowNoSlots` | app_shivazen/models.py:72-76 | a window whose start is not before its end gives `[]` |
| `Slots.SlotsOnGrid` | app_shivazen/models.py:72-97 | every label offered parses to a clock time in [start, end) of the window, on its 30-minute grid, that no considered booking or block holds |
| `Slots.SlotsAscending` | app_shivazen/models.py:76-97 | the labels offered are in strictly ascending clock order, so none repeats |
| `Slots.OfferedSlotIsFree` | app_shivazen/models.py:79-95 | a time is offered only if it is a grid time of the window that no considered booking or block holds |
| `Slots.FreeSlotIsOffered` | app_shivazen/models.py:79-95 | every grid time of the window that nothing considered holds is offered |
| `Slots.UnobstructedSlots` | app_shivazen/models.py:68-97 | with no bookings or blocks to consider, the result is all ceil((end - start) / 30) grid starts of the window |
| `Slots.LastSlotOverrunsWindow` | app_shivazen/models.py:76-97 | on Wednesday 2024-10-30 a 09:00-09:45 window offers `["09:00", "09:30"]`; the last slot runs past the window |
| `Views.Complete` | app_shivazen/views.py:160 | the form is complete when the session's client id is set and not 0 and the professional, procedure and time are given; the predicate's body states this |
| `Views.Clashes` | app_shivazen/views.py:174-177 | a booking clashes when it has the professional, status AGENDADO or CONFIRMADO, and starts before the new end and ends after the new start; the predicate's body states this |
| `Views.ConflictExists` | app_shivazen/views.py:173-178 | the conflict query finds a row if and only if some booking has the same professional, status AGENDADO or CONFIRMADO, start < new end and end > new start |
| `Views.OthersNeverConflict` | app_shivazen/views.py:173-178 | a booking of another professional, or with any other status, never changes whether a conflict exists |
| `Views.InsertKeepsNoDoubleBooking` | app_shivazen/views.py:173-191 | inserting a booking the conflict query lets through keeps every pair of occupying bookings of one professional disjoint |
| `Views.Admit` | app_shivazen/views.py:155-191 | an incomplete form is rejected; a booking is admitted exactly when all three rows exist once and no conflict exists, and it then is AGENDADO with end = start + duration; a conflict is reported exactly when the rows exist and the interval clashes |
| `Views.AdmitKeepsNoDoubleBooking` | app_shivazen/views.py:173-191 | whatever the view admits keeps the schedule free of double bookings |
| `Views.Clinic.Book` | app_shivazen/views.py:152-202 | on success exactly the admitted booking is appended; on any error the bookings are unchanged; a schedule without double bookings stays so, and so do the table constraints |
| `Views.Clinic.AddClient` | app_shivazen/views.py:44-46 | the client gets the next id and is appended with its chart; the table constraints still hold |
| `Views.Clinic.GetOrCreateProfile` | app_shivazen/views.py:49 | an existing profile of that name is reused unchanged; otherwise one is appended under the next id; either way exactly one profile has that name |
| `Views.Clinic.CreateUser` | app_shivazen/views.py:53-60 | a user with a non-empty, unused username and an unused e-mail is appended; the constraints still hold |
| `Views.Clinic.DeleteClientsWithCpf` | app_shivazen/views.py:68 | the clients with that CPF are removed, and so are the charts of the removed clients |
| `Views.ClientDeletionRestores` | app_shivazen/views.py:65-68 | the cleanup deletion removes exactly the client just created |
| `Views.ChartDeletionRestores` | app_shivazen/views.py:65-68 | the cascade of the cleanup removes exactly the chart just created |
| `Views.Clinic.UndoAddClient` | app_shivazen/views.py:65-68 | the cleanup after a failed user creation leaves exactly the clients and charts that were there before the client was created, with the constraints intact |
| `Views.Clinic.CreateAccount` | app_shivazen/views.py:42-69 | with no duplicate CPF or e-mail: the account is created with username = e-mail and the `Cliente` profile; creation fails exactly when the e-mail is blank or already a username, and then the client and chart are gone again; either way the client id sequence moves on by one, and the profiles are unchanged when a `Cliente` profile existed, otherwise exactly that profile is appended under the next profile id |
| `Views.Clinic.Register` | app_shivazen/views.py:29-71 | a CPF or e-mail on file rejects with nothing changed, id sequences included; otherwise the client id sequence moves on by one, the profiles are unchanged or gain exactly the missing `Cliente` profile, and exactly one new client, chart and user, with exactly one `Cliente` profile afterwards, or, exactly when the e-mail is blank or already a username, the failure path that leaves clients, charts and users as before |
| `Views.ResolveLogin` | app_shivazen/views.py:79-93 | an identifier with '@' is the e-mail; otherwise only the e-mail of a client with that CPF is used, an unknown CPF is rejected before authentication, and only a CPF held twice raises |
| `Views.ClientByCpf` | app_shivazen/views.py:86 | the CPF `.get()` is missing exactly when no client has that CPF, and otherwise a found client has it; a null CPF never matches |
| `Views.CpfResolvesToOwnEmail` | app_shivazen/views.py:84-93 | when no other client has the same non-null CPF, that CPF resolves to the client's e-mail, or is rejected when the e-mail is blank |
| `Views.RegisteredClientResolves` | app_shivazen/views.py:84-87 | a client just registered with an e-mail has the CPF resolved to that e-mail, the one handed to authentication |
| `Views.OfferedSlotClashesOnlyLater` | app_shivazen/views.py:173-178 | a booking that starts on the listed date and clashes with an offered slot always starts strictly inside that slot |
| `Views.ShortBookingLeavesNineListed` | app_shivazen/models.py:80-83 | a 09:10-09:20 booking leaves 09:00 listed in a 09:00-10:00 window |
| `Views.ShortBookingRefusesNine` | app_shivazen/views.py:173-182 | booking a 30-minute procedure at 09:00 beside that booking is refused as a conflict |
| `Views.OfferedSlotRejectedByBooking` | app_shivazen/views.py:173-182 | the slot listing offers 09:00 and the booking view refuses 09:00 on the same tables |
| `Views.OvernightBookingLeavesMidnightListed` | app_shivazen/models.py:57-61 | a booking from 23:30 the day before to 00:45 is not considered, so a 00:00-01:00 window lists 00:00 |
| `Views.OvernightBookingRefusesMidnight` | app_shivazen/views.py:173-182 | booking a 30-minute procedure at 00:00 beside that overnight booking is refused as a conflict |

## Left out

- Time zones: the settings enable time zones (`shivazen/settings.py:99`, `USE_TZ = True`), so the booking and block datetimes read from the database are aware. The listing builds a naive `hora_atual` (`app_shivazen/models.py:72`) and compares it with them (`app_shivazen/models.py:81`, `:89`). Python raises `TypeError` for that comparison, so as soon as one booking or block is considered the listing fails, and the `buscar_horarios` endpoint answers 500 (`app_shivazen/views.py:242-243`). The model compares naive minute counts and does not model that failure. Its listing results, and the mismatches with the booking view described above, hold for naive times only.
- Seconds and sub-minute parts of times are not modelled: times are whole minutes.
- Parsing of the posted date and time (`datetime.fromisoformat`) and its `ValueError` path are not modelled. The request carries an already parsed instant, or `None` when the field is absent or empty.
- Form values arrive as strings in the source. The model takes ids as integers, and an absent or empty field as `None`. The falsy client id 0 from the session is kept.
- `Views.Admit`: the `NotFound` and `Unexpected` outcomes are stated in one direction only. It names which lookup failed, but not that the earliest failing lookup decides. Primary keys make `Unexpected` impossible in a real database.
- `Views.ResolveLogin`: the positive direction for a CPF is stated by `Views.CpfResolvesToOwnEmail`. It needs no other client to hold the same CPF. The unique constraint guarantees this among non-null CPFs, and a null CPF never matches an identifier.
- Password hashing, `authenticate`, `auth_login`, and the session values written after login are not modelled. Nor is the redirect that depends on `is_staff`. The model stops at the e-mail handed to authentication.
- The registration form's fields are taken as present strings. A missing name makes client creation fail, and nothing is then created. That path is not modelled.
- Django's e-mail normalisation in `create_user`, and column length limits, are not modelled. `create_user` lower-cases the domain of the e-mail stored on the `Usuario` row, while `Cliente.email` keeps the e-mail as typed. So a client who registered as `ana@X.com` has the CPF resolved to `ana@X.com`, and `authenticate` (`app_shivazen/views.py:96`) then finds no user with that exact e-mail. `Views.RegisteredClientResolves` states only the resolution, not a successful login.
- Registration errors other than a blank e-mail (`create_user` refuses an empty username) or a username already taken are not modelled, for example a database failure.
- Django plumbing is not modelled: HTTP requests and responses, `render`, `redirect`, `messages`, `@login_required`. The listing of active professionals on a GET is not modelled either.
- `Views.Admit` and `Views.Clinic.Book`: dates and instants are unbounded integers, but Python's `datetime` ends at 9999-12-31 (ordinal 3652059) and starts at year 1. A start of 9999-12-31 23:45 with a 30-minute procedure, or a negative duration that pushes the end before year 1, raises `OverflowError` at `app_shivazen/views.py:170`. The handler's `except Exception` (`app_shivazen/views.py:199-202`) reports it and inserts nothing. The model admits such a booking and appends it.
- `Slots.AvailableSlots`, `Slots.GetAvailableSlots` and `Slots.WalkWindow`: on 9999-12-31, advancing the walk (`app_shivazen/models.py:97`) past the end of that day raises `OverflowError`. That happens once a grid start is at or after 23:30, for example in a 23:00-23:59 window. The `buscar_horarios` endpoint then answers 500 (`app_shivazen/views.py:242-243`). The model has no upper date bound and returns the labels.
- Concurrency is not modelled. The conflict check and the insert are not atomic in the source, so two simultaneous requests can both pass the check. The model runs one request at a time.
- URL routing: the admin configuration, URL routing, settings, templates and front-end scripts are not part of this model. As shipped, `app_shivazen/urls.py:23` and `:30-34` name six views that `app_shivazen/views.py` does not define (`adminDashboard`, `adminAgendamentos`, `adminProcedimentos`, `adminBloqueios`, `criarBloqueio`, `excluirBloqueio`). `shivazen/urls.py:7` includes that URL configuration, so loading it fails and none of the modelled views is reachable. The model describes the views as they would behave once routed.
- The availability `.get()` raising MultipleObjectsReturned becomes an error result of the slot function. The source lets the exception propagate to its caller.
