# Smartick attendance: the page logic, modelled in Dafny

Smartick is a browser application in which lecturers register, schedule a
class at a venue picked on a map, and show students a QR code. The code links
to an attendance page. A student may mark attendance there only when the
browser's position is within 60 metres of the venue. The repository is React
pages around a hosted backend. This project models the logic inside three of
those pages' event handlers:

- **Attendance page** (`src/page/Attendance.jsx`), module `Attendance`.
  - The distance gate is `distance <= 60`, inclusive.
  - The gate is skipped when the venue's `lat` or `lng` is falsy.
  - `handleRegister` refuses an empty name or matriculation number.
  - It normalises both by `trim()` then `toUpperCase()`.
  - It refuses a number already in the class row's `attendees` list.
  - Otherwise it writes the list back with one record appended.
  - The pure list operations (`some`, `[...attendees, newAttendee]`) are
    functions over `seq`.
  - The component state (`isLoading`, `userDistance`, `isWithinRange`,
    `matricNumber`, `name`) is the class `AttendancePage`.
- **Class-schedule page** (`src/page/ClassSchedule.jsx`), module `ClassSchedule`.
  - The state is a six-field form record, the selected venue coordinate, the QR
    data and two modal flags (class `ClassSchedulePage`).
  - `handleInputChange` and `handleLocationChange` change only what they name.
  - `handleSubmit` refuses to run without a coordinate.
  - It builds the stored `/studentLogin` link and the PostGIS geometry, then
    inserts the row.
  - On success it shows the `/attendance` link as QR data and clears the form.
- **Lecturer registration** (`src/page/RegisterLecturer.jsx`), module `RegisterLecturer`.
  - The password check comes first, then the missing-field check.
  - A sign-up that yields no user id is an error.
  - `isLoading` is raised and lowered on every exit path.

Two support modules hold the library behaviour the pages rely on:

- `JsText` models JavaScript `trim`, `toUpperCase` and string falsiness.
- `Formats` models the query-string and Extended WKT text formats.
  - The geometry is `SRID=4326;POINT(x y)`, the OGC Simple Features `POINT`
    text with x the longitude, behind PostGIS's SRID prefix.
  - Each format has a parser as its partner.
  - A round-trip lemma shows that what the page writes reads back field by field.

How input and output are modelled:

- Every backend reply, geolocation fix, clock reading and library function is
  an input.
  - The fetched `attendees` list, the update's failure, the insert's reply
    and the sign-up/upsert replies are method parameters.
  - `VERCEL_URL`, `encodeURIComponent`, number-to-text conversion and
    `new Date(s).toISOString()` are the fields of the `Platform` datatype.
    They are opaque functions.
- Handlers return an outcome datatype that carries the payload they send:
  - the attendee list passed to `update`;
  - the `classes` row passed to `insert`;
  - for the lecturer page, the sign-up credentials and the upserted row.
- The attendance and lecturer page classes each have a ghost field `loadingLog`. It records every value passed
  to `setIsLoading`, in order, so the contracts can state the loading
  lifecycle exactly.

The distance gate in the code is deliberately narrow:

- the threshold is a fixed 60 metres, compared inclusively;
- the distance function is imported, not defined, in the page;
- no coordinate or radius is validated; the only check is that the gate is
  skipped when a venue coordinate is falsy (`0` or `NaN`).

## Model

| member | source | states |
|---|---|---|
| `JsText.TrimStart` | src/page/Attendance.jsx:111-112 | definition of `trimStart`; its properties are in `JsText.TrimStartDrops` |
| `JsText.TrimEnd` | src/page/Attendance.jsx:111-112 | definition of `trimEnd`; its properties are in `JsText.TrimEndDrops` |
| `JsText.Trim` | src/page/Attendance.jsx:111-112 | definition of `trim` as `trimEnd` after `trimStart`; its properties are in `JsText.TrimSplits` and `JsText.TrimUnique` |
| `JsText.TrimStartDrops` | src/page/Attendance.jsx:111-112 | the result is a suffix of the input, everything dropped is whitespace, and the result does not start with whitespace |
| `JsText.TrimEndDrops` | src/page/Attendance.jsx:111-112 | the result is a prefix of the input, everything dropped is whitespace, and the result does not end with whitespace |
| `JsText.TrimSplits` | src/page/Attendance.jsx:111-112 | `trim` returns a contiguous slice with no whitespace at either end, and only whitespace lies outside that slice |
| `JsText.TrimUnique` | src/page/Attendance.jsx:111-112 | `trim` is fully determined: whitespace + trimmed text + whitespace always trims to that text |
| `JsText.TrimIdempotent` | src/page/Attendance.jsx:111-112 | trimming twice equals trimming once |
| `JsText.TrimIgnoresPadding` | src/page/Attendance.jsx:101 | extra whitespace around an input does not change its trimmed form |
| `JsText.BlankTrimsToEmpty` | src/page/Attendance.jsx:111-112 | an input made only of whitespace trims to "" |
| `JsText.ToUpper` | src/page/Attendance.jsx:111-112 | upper-casing keeps the length and maps each character on its own |
| `JsText.UpperChar` | src/page/Attendance.jsx:111-112 | lower-case ASCII letters become upper-case letters, every other character is kept, and whitespace stays whitespace |
| `JsText.ToUpperIdempotent` | src/page/Attendance.jsx:111-112 | upper-casing twice equals upper-casing once |
| `JsText.TrimToUpperCommute` | src/page/Attendance.jsx:101 | trimming and upper-casing commute |
| `Formats.Query` | src/page/ClassSchedule.jsx:55-59 | definition of the `name=value&…` text; its partner is `Formats.ParseQuery`, joined by `Formats.QueryRoundTrip` |
| `Formats.PointEwkt` | src/page/ClassSchedule.jsx:62 | definition of the `SRID=s;POINT(x y)` text; its partner is `Formats.ParsePointEwkt`, joined by `Formats.PointRoundTrip` |
| `Formats.QueryRoundTrip` | src/page/ClassSchedule.jsx:91-95 | a query string built from well-formed `name=value` pairs parses back to exactly those pairs, in order |
| `Formats.LinkRoundTrip` | src/page/ClassSchedule.jsx:55-59 | for a link `prefix?query` whose prefix has no `?`, the text after the first `?` is the query and parses back to its pairs |
| `Formats.QueryPart` | src/page/ClassSchedule.jsx:91-95 | the query part is `None` exactly when the link has no `?`; otherwise it is the text after the first `?` |
| `Formats.PointRoundTrip` | src/page/ClassSchedule.jsx:62 | `SRID=s;POINT(x y)` parses back to `(s, x, y)` in that order |
| `Formats.ParsePointEwkt` | src/page/ClassSchedule.jsx:62 | a parsed point's SRID holds no `;` and its x holds no space |
| `Attendance.Normalize` | src/page/Attendance.jsx:101 | definition of `trim()` then `toUpperCase()`; its properties are in `Attendance.NormalizeShape`, `Attendance.NormalizeIdempotent` and `Attendance.NormalizeIgnoresCaseAndPadding` |
| `Attendance.StoredList` | src/page/Attendance.jsx:97 | definition of `data?.attendees \|\| []`; its effect on the outcome is stated in `Attendance.RegisterOutcomes` |
| `Attendance.NewAttendee` | src/page/Attendance.jsx:110-114 | definition of the new record; its fields are stated in `Attendance.RegisterAppendsOne` |
| `Attendance.Register` | src/page/Attendance.jsx:74-133 | definition of the registration rule; each outcome's condition is in `Attendance.RegisterOutcomes`, and `Attendance.AttendancePage.HandleRegister` is proved against it |
| `Attendance.NormalizeShape` | src/page/Attendance.jsx:110-112 | a normalised value has no surrounding whitespace and no lower-case ASCII letter, and is the upper-cased input minus its surrounding whitespace |
| `Attendance.MatricExists` | src/page/Attendance.jsx:100-102 | the duplicate test is true exactly when some record's `matric_no` equals the given number |
| `Attendance.AddAttendee` | src/page/Attendance.jsx:99-116 | the list step refuses exactly when the normalised number is present; otherwise the old list is kept as a prefix and the new normalised record is appended last |
| `Attendance.RegisterOutcomes` | src/page/Attendance.jsx:74-133 | the outcome of one registration in each case: empty field → refused; fetch error → failed; number present → already registered; otherwise the sent list is the stored list (empty when absent) plus one record |
| `Attendance.RegisterKeepsDistinct` | src/page/Attendance.jsx:99-116 | if stored matriculation numbers are pairwise distinct, the list a registration sends keeps them distinct |
| `Attendance.RegisterAppendsOne` | src/page/Attendance.jsx:110-116 | a successful registration keeps every earlier record at its index and appends one record: trim-then-uppercase number, trim-then-uppercase name, the clock's timestamp |
| `Attendance.BlankMatricStoredEmpty` | src/page/Attendance.jsx:77-114 | a non-empty all-whitespace number passes the emptiness test and is stored as "" |
| `Attendance.NormalizeIdempotent` | src/page/Attendance.jsx:101 | normalising a normalised number changes nothing |
| `Attendance.NormalizeIgnoresCaseAndPadding` | src/page/Attendance.jsx:101 | inputs that differ only in ASCII case and surrounding whitespace normalise alike |
| `Attendance.PresentRejected` | src/page/Attendance.jsx:100-108 | a number whose normalised form is in the list is refused and nothing is sent |
| `Attendance.VariantRejected` | src/page/Attendance.jsx:100-108 | a padded or re-cased variant of a registered number is refused |
| `Attendance.SecondRegistrationRejected` | src/page/Attendance.jsx:100-116 | after a successful registration, registering the same number again against the updated list is refused |
| `Attendance.AttendancePage.constructor` | src/page/Attendance.jsx:16-21 | initial state: not loading, no distance, out of range, empty fields |
| `Attendance.AttendancePage.SubmitShown` | src/page/Attendance.jsx:199-211 | definition: the submit button is rendered exactly when `isWithinRange`; stated for pages in `Attendance.AttendancePage.LocateUser` and `Attendance.OpenWithFalsyVenue` |
| `Attendance.AttendancePage.SetIsLoading` | src/page/Attendance.jsx:82 | `isLoading` takes the value, which is appended to the loading log |
| `Attendance.AttendancePage.SetName` | src/page/Attendance.jsx:186 | the name field takes the typed value |
| `Attendance.AttendancePage.SetMatricNumber` | src/page/Attendance.jsx:195 | the matriculation field takes the typed value |
| `Attendance.AttendancePage.LocateUser` | src/page/Attendance.jsx:48-72 | with a falsy venue coordinate, or with no position delivered, the distance and the range flag are unchanged; a delivered position sets the distance and makes the flag `distance <= 60` |
| `Attendance.AttendancePage.HandleRegister` | src/page/Attendance.jsx:74-133 | the outcome is the registration rule applied to the form fields. A missing field changes nothing. Every other exit logs `setIsLoading(true)` then `setIsLoading(false)`. Only success clears both fields and navigates to `/success`. |
| `Attendance.AttendancePage.RecordAttendance` | src/page/Attendance.jsx:97-132 | after the fetch, the duplicate check and the update follow the rule; loading is lowered on every exit |
| `Attendance.OpenWithFalsyVenue` | src/page/Attendance.jsx:17-49 | a page opened with a falsy venue coordinate never shows the submit button and never shows a distance |
| `ClassSchedule.FieldNamed` | src/page/ClassSchedule.jsx:34 | an input name selects a key exactly when it is that key's own name (`ClassSchedule.FieldName`), so no other name touches the six keys |
| `ClassSchedule.With` | src/page/ClassSchedule.jsx:33-35 | the named field gets the value and the other five keep theirs |
| `ClassSchedule.WithLaws` | src/page/ClassSchedule.jsx:33-35 | writing back a field's own value changes nothing, and a second write to a field overrides the first |
| `ClassSchedule.CourseIdText` | src/page/ClassSchedule.jsx:90-92 | definition: the returned id, or the text `undefined` when there is none; it is the `courseId` written into the QR link by `ClassSchedule.ClassSchedulePage.HandleSubmit` |
| `ClassSchedule.RegistrationLink` | src/page/ClassSchedule.jsx:55-59 | definition of the stored link; its properties are in `ClassSchedule.RegistrationLinkReadsBack` |
| `ClassSchedule.AttendanceLink` | src/page/ClassSchedule.jsx:91-95 | definition of the QR link; its properties are in `ClassSchedule.AttendanceLinkReadsBack` |
| `ClassSchedule.Geography` | src/page/ClassSchedule.jsx:62 | definition of the venue geometry; its properties are in `ClassSchedule.GeographyLongitudeFirst` |
| `ClassSchedule.NewClassRow` | src/page/ClassSchedule.jsx:64-78 | definition of the inserted row, `None` when a date conversion throws; its properties are in `ClassSchedule.StoredRowReadsBack` |
| `ClassSchedule.AttendanceLinkReadsBack` | src/page/ClassSchedule.jsx:91-95 | the QR link's query reads back as `courseId`, `time`, `courseCode`, `lat`, `lng`, in this order. The first three values are encoded. The coordinates are plain number text. |
| `ClassSchedule.RegistrationLinkReadsBack` | src/page/ClassSchedule.jsx:55-59 | the stored link's query reads back as `courseCode`, `time`, `lectureVenue`, `lat`, `lng`, in this order |
| `ClassSchedule.GeographyLongitudeFirst` | src/page/ClassSchedule.jsx:62 | the stored geometry reads back as SRID 4326, with x the longitude and y the latitude |
| `ClassSchedule.StoredRowReadsBack` | src/page/ClassSchedule.jsx:55-78 | the inserted row's `qr_code` starts with the base URL and its query reads back as the registration parameters; its `location` reads back as SRID 4326 with longitude first; title, code, note, venue name and lecturer id are the form's and the caller's; both dates are the converted ones |
| `ClassSchedule.ClassSchedulePage.constructor` | src/page/ClassSchedule.jsx:18-31 | initial state: empty form, no coordinate, no QR data, both modals closed |
| `ClassSchedule.ClassSchedulePage.HandleInputChange` | src/page/ClassSchedule.jsx:33-35 | only the field named by the input changes; the coordinate is untouched |
| `ClassSchedule.ClassSchedulePage.HandleLocationChange` | src/page/ClassSchedule.jsx:37-40 | `lectureVenue` becomes the place name and the coordinate is set; the other fields keep their values |
| `ClassSchedule.ClassSchedulePage.OpenMap` | src/page/ClassSchedule.jsx:164 | the map modal opens |
| `ClassSchedule.ClassSchedulePage.CloseMap` | src/page/ClassSchedule.jsx:217 | the map modal closes |
| `ClassSchedule.ClassSchedulePage.CloseQR` | src/page/ClassSchedule.jsx:222 | the QR modal closes |
| `ClassSchedule.ClassSchedulePage.HandleSubmit` | src/page/ClassSchedule.jsx:44-110 | refused exactly when no coordinate is selected. The inserted row stores the `/studentLogin` link and the longitude-first geometry. An invalid date or an insert error changes nothing. Success sets QR data to the `/attendance` link, opens the QR modal, empties all six fields and clears the coordinate. |
| `RegisterLecturer.Validate` | src/page/RegisterLecturer.jsx:24-34 | a password mismatch is reported whatever the other fields hold. Otherwise "missing fields" is reported exactly when name, email or phone is empty. The form passes exactly when neither applies. |
| `RegisterLecturer.ToastText` | src/page/RegisterLecturer.jsx:69 | an error's own message is shown when non-empty, otherwise "Registration failed. Please try again."; never an empty toast |
| `RegisterLecturer.UserId` | src/page/RegisterLecturer.jsx:44-48 | a present, non-empty id of a successful sign-up is used as it is; an error reply, a missing id or an empty id gives none |
| `RegisterLecturer.Attempt` | src/page/RegisterLecturer.jsx:20-73 | definition of the handler's outcome; its properties are in `RegisterLecturer.MismatchReportedFirst`, `RegisterLecturer.RegisteredMeansStored` and `RegisterLecturer.FailureExplained` |
| `RegisterLecturer.FailureExplained` | src/page/RegisterLecturer.jsx:36-69 | with a valid form, the attempt fails exactly when the sign-up errs, yields no usable id, or the upsert errs; the toast is never empty, and a missing id shows its own message |
| `RegisterLecturer.MismatchReportedFirst` | src/page/RegisterLecturer.jsx:24-34 | with differing passwords the attempt ends in the mismatch error, whatever else holds |
| `RegisterLecturer.RegisteredMeansStored` | src/page/RegisterLecturer.jsx:36-66 | an attempt succeeds exactly when validation passes, the sign-up yields a non-empty user id and the upsert succeeds; the stored row carries that id and the form's values |
| `RegisterLecturer.EmptyPasswordPasses` | src/page/RegisterLecturer.jsx:24-34 | an empty password with an empty confirmation passes both checks, because the password is not among the fields checked for emptiness |
| `RegisterLecturer.RegisterLecturerPage.constructor` | src/page/RegisterLecturer.jsx:11-16 | initial state: empty fields, not loading |
| `RegisterLecturer.RegisterLecturerPage.SetIsLoading` | src/page/RegisterLecturer.jsx:22 | `isLoading` takes the value, which is appended to the loading log |
| `RegisterLecturer.RegisterLecturerPage.HandleRegister` | src/page/RegisterLecturer.jsx:20-73 | the loading log gains exactly `true, false` on every path. Sign-up is requested only when validation passes, and the upsert only when sign-up yields a user id. Navigation to `/loginLecturer` happens only on success. |

## Left out

- The distance computation: `calculateDistance` is not part of this model. It is floating-point haversine trigonometry. `Attendance.PositionFix` carries the distance it would return, as a real.
- A NaN distance is not modelled. With NaN, `distance <= 60` would be false, so the gate would stay closed.
- The backend calls are not modelled (Supabase auth, `select`, `insert`, `update`, `upsert`). Their replies are parameters, and the requests are returned as payloads.
- The fetch-then-update of `attendees` is a non-atomic read-modify-write on a shared row. The race between two concurrent registrations is out of scope. Uniqueness is proved for one registration against the list it fetched.
- Browser I/O is not modelled: geolocation, reverse geocoding through Nominatim, and the Leaflet map (`src/component/MapModal.jsx`). They enter as `PositionFix` and as the name and coordinate passed to `HandleLocationChange`.
- Dates and the clock are opaque: `Date`, `toISOString`, `dayjs`. The attendance timestamp is a parameter, and `new Date(s).toISOString()` is an opaque `Platform` function that may throw.
- `encodeURIComponent` (percent-encoding, section 2.1 of RFC 3986) and number-to-text conversion are opaque `Platform` functions. The read-back lemmas assume (predicate `ClassSchedule.LinkSafe`) that their output contains no `&`, that number text contains no space, and that the base URL `VERCEL_URL` contains no `?`.
- `JsText.ToUpper`, `JsText.UpperChar`, `Attendance.NormalizeIgnoresCaseAndPadding`, `Attendance.VariantRejected`: map or compare only the ASCII letters a–z. JavaScript's `toUpperCase` applies full Unicode case mapping, and that can change length (`ß` becomes `SS`), so case-variant lemmas are proved for ASCII case only.
- `ClassSchedule.ClassSchedulePage.HandleInputChange`: an input name outside the six form keys would add a seventh key to `formData`. The model keeps only the six keys, so it shows only that they are unchanged.
- `Attendance.AttendancePage.HandleRegister`: does not require the submit button to be shown. Only rendering enforces that (`Attendance.jsx:199-211`), and `SubmitShown` states it separately.
- Toast texts and console logging on the attendance and class-schedule pages are left out; the outcome datatypes tell those paths apart. The lecturer page's toast text is modelled.
- `toFixed(2)` display formatting, the class-details fetch used only for display (`Attendance.jsx:29-45`), and all rendering are left out.
- Routing (`src/App.jsx`), QR rendering (`src/component/QRCodeModal.jsx`) and the presentational components are left out. `navigate` is recorded as the `navigatedTo` field.
- Session lookup (`src/hooks/useUserDetails.js`) is not modelled: the lecturer id is a parameter of `HandleSubmit`. The class list (`src/page/PreviousClass.jsx`), login (`src/page/LoginLecturer.jsx`) and client construction (`src/utils/supabaseClient.js`) are left out.
- The five input setters of the lecturer form are plain assignments, so they are not modelled separately. The handler reads the fields as they stand.
- A `null` `data` from the insert would make `data[0]` throw after the success toast. That path is not modelled: the insert reply gives the first row's id or `None`.
