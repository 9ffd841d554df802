/** The lecturer's class-schedule page: a six-field form plus the venue
    coordinate picked on the map, and the submit handler that stores the class
    row and opens the QR code of the attendance link. The backend's insert
    reply and the library functions the page calls arrive as parameters. */
module ClassSchedule {
  import opened JsValues
  import opened Formats

  /** The six keys of `formData`. */
  datatype Field = CourseTitle | CourseCode | LectureVenue | Time | Date | Note

  datatype ScheduleForm = ScheduleForm(
    courseTitle: string,
    courseCode: string,
    lectureVenue: string,
    time: string,
    date: string,
    note: string)

  /** The form as the page starts and as a successful submit leaves it. */
  const EmptyForm := ScheduleForm("", "", "", "", "", "")

  /** The `{ lat, lng }` object the map hands back. */
  datatype LatLng = LatLng(lat: real, lng: real)

  /** What the page takes from its surroundings: `VERCEL_URL`,
      `encodeURIComponent`, the conversion of a number inside a template
      literal, and `new Date(s).toISOString()` (`None` where it throws a
      RangeError on an invalid date). None of them is modelled further. */
  datatype Platform = Platform(
    baseUrl: string,
    encodeUri: string -> string,
    numberText: real -> string,
    isoDate: string -> Option<string>)

  /** The `classes` row sent to the backend's `insert`. */
  datatype ClassRow = ClassRow(
    courseTitle: string,
    courseCode: string,
    time: string,
    date: string,
    location: string,
    note: string,
    qrCode: string,
    lecturerId: Option<string>,
    locationName: string)

  /** The insert's reply: an error, or the first returned row's `course_id`
      (`None` when that is undefined). */
  datatype InsertReply = InsertError | Inserted(courseId: Option<string>)

  /** How one press of "Generate QR Code" ended. */
  datatype SubmitOutcome =
    | NoVenueSelected
    | InvalidDate
    | InsertFailed(row: ClassRow)
    | Scheduled(row: ClassRow, link: string)

  // ---- the form record ------------------------------------------------------

  /** The `name` attribute of the input bound to a key. */
  function FieldName(field: Field): string {
    match field
    case CourseTitle => "courseTitle"
    case CourseCode => "courseCode"
    case LectureVenue => "lectureVenue"
    case Time => "time"
    case Date => "date"
    case Note => "note"
  }

  /** The key an input's `name` attribute refers to, if any: a key is found
      exactly when the name is that key's own. */
  function FieldNamed(name: string): (r: Option<Field>)
    ensures r != None ==> FieldName(r.value) == name
    ensures forall f :: FieldName(f) == name ==> r == Some(f)
  {
    match name
    case "courseTitle" => Some(CourseTitle)
    case "courseCode" => Some(CourseCode)
    case "lectureVenue" => Some(LectureVenue)
    case "time" => Some(Time)
    case "date" => Some(Date)
    case "note" => Some(Note)
    case _ => None
  }

  function Get(form: ScheduleForm, field: Field): string {
    match field
    case CourseTitle => form.courseTitle
    case CourseCode => form.courseCode
    case LectureVenue => form.lectureVenue
    case Time => form.time
    case Date => form.date
    case Note => form.note
  }

  /** `{ ...form, [field]: value }`: the named key gets the value and every
      other key keeps its own. */
  function With(form: ScheduleForm, field: Field, value: string): (r: ScheduleForm)
    ensures Get(r, field) == value
    ensures forall g :: g != field ==> Get(r, g) == Get(form, g)
  {
    match field
    case CourseTitle => form.(courseTitle := value)
    case CourseCode => form.(courseCode := value)
    case LectureVenue => form.(lectureVenue := value)
    case Time => form.(time := value)
    case Date => form.(date := value)
    case Note => form.(note := value)
  }

  /** Two forms that agree on every key are the same form. */
  lemma FormExtensional(a: ScheduleForm, b: ScheduleForm)
    requires forall g :: Get(a, g) == Get(b, g)
    ensures a == b
  {
    assert Get(a, CourseTitle) == Get(b, CourseTitle);
    assert Get(a, CourseCode) == Get(b, CourseCode);
    assert Get(a, LectureVenue) == Get(b, LectureVenue);
    assert Get(a, Time) == Get(b, Time);
    assert Get(a, Date) == Get(b, Date);
    assert Get(a, Note) == Get(b, Note);
  }

  /** Writing back the value a key already holds changes nothing, and a
      second write to the same key overrides the first. */
  lemma WithLaws(form: ScheduleForm, field: Field, v: string, w: string)
    ensures With(form, field, Get(form, field)) == form
    ensures With(With(form, field, v), field, w) == With(form, field, w)
  {
    FormExtensional(With(form, field, Get(form, field)), form);
    FormExtensional(With(With(form, field, v), field, w), With(form, field, w));
  }

  // ---- links and geometry -------------------------------------------------

  /** The text a course id takes inside the link: `undefined` when the insert
      returned no id. */
  function CourseIdText(id: Option<string>): string {
    if id == None then "undefined" else id.value
  }

  /** The query of the registration link stored as `qr_code`. */
  function RegistrationParams(p: Platform, form: ScheduleForm, c: LatLng): seq<Param> {
    [("courseCode", p.encodeUri(form.courseCode)),
     ("time", p.encodeUri(form.time)),
     ("lectureVenue", p.encodeUri(form.lectureVenue)),
     ("lat", p.numberText(c.lat)),
     ("lng", p.numberText(c.lng))]
  }

  function RegistrationLink(p: Platform, form: ScheduleForm, c: LatLng): string {
    p.baseUrl + "/studentLogin" + "?" + Query(RegistrationParams(p, form, c))
  }

  /** The query of the attendance link shown as the QR code. */
  function AttendanceParams(p: Platform, courseId: string, form: ScheduleForm, c: LatLng): seq<Param> {
    [("courseId", p.encodeUri(courseId)),
     ("time", p.encodeUri(form.time)),
     ("courseCode", p.encodeUri(form.courseCode)),
     ("lat", p.numberText(c.lat)),
     ("lng", p.numberText(c.lng))]
  }

  function AttendanceLink(p: Platform, courseId: string, form: ScheduleForm, c: LatLng): string {
    p.baseUrl + "/attendance" + "?" + Query(AttendanceParams(p, courseId, form, c))
  }

  /** The venue as a PostGIS geography: longitude first, then latitude. */
  function Geography(p: Platform, c: LatLng): string {
    PointEwkt("4326", p.numberText(c.lng), p.numberText(c.lat))
  }

  /** What the link builders rely on: the base URL has no `?`, and neither an
      encoded value nor a number's text holds `&` (percent-encoding escapes
      it) or, for numbers, a space. */
  ghost predicate LinkSafe(p: Platform) {
    && '?' !in p.baseUrl
    && (forall s :: '&' !in p.encodeUri(s))
    && (forall x :: '&' !in p.numberText(x) && ' ' !in p.numberText(x))
  }

  /** The attendance link's query reads back as `courseId`, `time`,
      `courseCode`, `lat`, `lng` in this order: the first three encoded, the
      coordinates as plain number text. */
  lemma AttendanceLinkReadsBack(p: Platform, courseId: string, form: ScheduleForm, c: LatLng)
    requires LinkSafe(p)
    ensures var ps := ParseQuery(QueryPart(AttendanceLink(p, courseId, form, c)).value);
            && |ps| == 5
            && ps[0] == ("courseId", p.encodeUri(courseId))
            && ps[1] == ("time", p.encodeUri(form.time))
            && ps[2] == ("courseCode", p.encodeUri(form.courseCode))
            && ps[3] == ("lat", p.numberText(c.lat))
            && ps[4] == ("lng", p.numberText(c.lng))
  {
    var ps := AttendanceParams(p, courseId, form, c);
    assert forall i :: 0 <= i < |ps| ==> WellFormedParam(ps[i]);
    LinkRoundTrip(p.baseUrl + "/attendance", ps);
  }

  /** The stored registration link's query reads back as `courseCode`,
      `time`, `lectureVenue`, `lat`, `lng` in this order. */
  lemma RegistrationLinkReadsBack(p: Platform, form: ScheduleForm, c: LatLng)
    requires LinkSafe(p)
    ensures var ps := ParseQuery(QueryPart(RegistrationLink(p, form, c)).value);
            && |ps| == 5
            && ps[0] == ("courseCode", p.encodeUri(form.courseCode))
            && ps[1] == ("time", p.encodeUri(form.time))
            && ps[2] == ("lectureVenue", p.encodeUri(form.lectureVenue))
            && ps[3] == ("lat", p.numberText(c.lat))
            && ps[4] == ("lng", p.numberText(c.lng))
  {
    var ps := RegistrationParams(p, form, c);
    assert forall i :: 0 <= i < |ps| ==> WellFormedParam(ps[i]);
    LinkRoundTrip(p.baseUrl + "/studentLogin", ps);
  }

  /** The stored geometry reads back with SRID 4326, x the longitude and y
      the latitude. */
  lemma GeographyLongitudeFirst(p: Platform, c: LatLng)
    requires LinkSafe(p)
    ensures ParsePointEwkt(Geography(p, c)) == Some(("4326", p.numberText(c.lng), p.numberText(c.lat)))
  {
    PointRoundTrip("4326", p.numberText(c.lng), p.numberText(c.lat));
  }

  /** The row a submit inserts, or `None` when a date conversion throws. */
  function NewClassRow(p: Platform, form: ScheduleForm, c: LatLng, lecturerId: Option<string>): Option<ClassRow> {
    var time := p.isoDate(form.date + "T" + form.time);
    var date := p.isoDate(form.date);
    if time == None || date == None then None
    else Some(ClassRow(form.courseTitle, form.courseCode, time.value, date.value, Geography(p, c),
                       form.note, RegistrationLink(p, form, c), lecturerId, form.lectureVenue))
  }

  /** The row a submit inserts keeps the registration link as `qr_code`,
      whose query reads back as the course code, time, venue and coordinate;
      the longitude-first point as `location`; and the venue's name. */
  lemma StoredRowReadsBack(p: Platform, form: ScheduleForm, c: LatLng, lecturerId: Option<string>)
    requires LinkSafe(p) && NewClassRow(p, form, c, lecturerId) != None
    ensures var row := NewClassRow(p, form, c, lecturerId).value;
            && ParseQuery(QueryPart(row.qrCode).value) == RegistrationParams(p, form, c)
            && row.qrCode[..|p.baseUrl|] == p.baseUrl
            && ParsePointEwkt(row.location) == Some(("4326", p.numberText(c.lng), p.numberText(c.lat)))
            && row.locationName == form.lectureVenue && row.lecturerId == lecturerId
            && row.courseCode == form.courseCode && row.courseTitle == form.courseTitle && row.note == form.note
            && row.time == p.isoDate(form.date + "T" + form.time).value && row.date == p.isoDate(form.date).value
  {
    RegistrationLinkReadsBack(p, form, c);
    GeographyLongitudeFirst(p, c);
  }

  // ---- page state --------------------------------------------------------------

  /** The component's state; each setter call becomes a field update. */
  class ClassSchedulePage {
    var form: ScheduleForm
    var selected: Option<LatLng>
    var qrData: string
    var isMapModalOpen: bool
    var isQRModalOpen: bool

    constructor ()
      ensures form == EmptyForm && selected == None && qrData == ""
      ensures !isMapModalOpen && !isQRModalOpen
    {
      form, selected, qrData := EmptyForm, None, "";
      isMapModalOpen, isQRModalOpen := false, false;
    }

    /** `handleInputChange`: the key named by the input gets its value. A
        name outside the six keys would add a key the form does not model,
        so the six stay as they are. */
    method HandleInputChange(name: string, value: string)
      modifies this`form
      ensures FieldNamed(name) != None ==> form == With(old(form), FieldNamed(name).value, value)
      ensures FieldNamed(name) == None ==> form == old(form)
    {
      var field := FieldNamed(name);
      if field != None {
        form := With(form, field.value, value);
      }
    }

    /** `handleLocationChange`, called by the map with the place's name and
        coordinate. */
    method HandleLocationChange(locationName: string, coordinate: LatLng)
      modifies this`form, this`selected
      ensures form == With(old(form), LectureVenue, locationName)
      ensures selected == Some(coordinate)
    {
      form := With(form, LectureVenue, locationName);
      selected := Some(coordinate);
    }

    /** The "Select Location" button. */
    method OpenMap()
      modifies this`isMapModalOpen
      ensures isMapModalOpen
    {
      isMapModalOpen := true;
    }

    /** The map modal's `onClose`. */
    method CloseMap()
      modifies this`isMapModalOpen
      ensures !isMapModalOpen
    {
      isMapModalOpen := false;
    }

    /** The QR modal's `onClose`. */
    method CloseQR()
      modifies this`isQRModalOpen
      ensures !isQRModalOpen
    {
      isQRModalOpen := false;
    }

    /** `handleSubmit`: refuses without a coordinate, builds the stored link
        and the geometry, inserts the row, and on success shows the
        attendance link and clears the form. */
    method HandleSubmit(p: Platform, lecturerId: Option<string>, insert: InsertReply)
      returns (outcome: SubmitOutcome)
      modifies this`form, this`selected, this`qrData, this`isQRModalOpen
      ensures old(selected) == None <==> outcome == NoVenueSelected
      ensures old(selected) != None ==>
                var row := NewClassRow(p, old(form), old(selected).value, lecturerId);
                && (row == None <==> outcome == InvalidDate)
                && (row != None ==> outcome.row == row.value)
                && (row != None && insert == InsertError ==> outcome.InsertFailed?)
                && (row != None && insert != InsertError ==> outcome.Scheduled?)
      ensures outcome.Scheduled? ==>
                && outcome.link == AttendanceLink(p, CourseIdText(insert.courseId), old(form), old(selected).value)
                && qrData == outcome.link && isQRModalOpen
                && form == EmptyForm && selected == None
      ensures !outcome.Scheduled? ==>
                form == old(form) && selected == old(selected)
                && qrData == old(qrData) && isQRModalOpen == old(isQRModalOpen)
    {
      if selected == None {
        return NoVenueSelected;
      }
      var c := selected.value;
      var row := NewClassRow(p, form, c, lecturerId);
      if row == None {
        return InvalidDate;
      }
      if insert == InsertError {
        return InsertFailed(row.value);
      }
      var link := AttendanceLink(p, CourseIdText(insert.courseId), form, c);
      qrData := link;
      isQRModalOpen := true;
      form := EmptyForm;
      selected := None;
      outcome := Scheduled(row.value, link);
    }
  }
}
