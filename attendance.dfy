/** The student attendance page: the distance gate fed by the browser's
    position, and the registration handler that appends one attendee record to
    the class row's `attendees` list. Backend replies, the position fix (as the
    distance computed from it) and the clock reading arrive as parameters. */
module Attendance {
  import opened JsValues
  import opened JsText

  /** The attendance form may be submitted from at most this many metres. */
  const MaxDistance: real := 60.0

  /** One element of a class row's `attendees` list. */
  datatype Attendee = Attendee(matricNo: string, name: string, timestamp: string)

  /** What the one `select("attendees")` call returned: an error, or the row's
      list (`None` when the row or its list is null). */
  datatype FetchReply = FetchError | Fetched(attendees: Option<seq<Attendee>>)

  /** What `navigator.geolocation` delivered: no geolocation support, an error
      callback, or a position, given here as its distance in metres from the
      venue (`calculateDistance` is not part of this model). */
  datatype PositionFix = Unsupported | PositionError | Located(distance: real)

  /** How one press of "Mark Attendance" ended; the last two carry the list
      that was sent to the backend's `update` call. */
  datatype RegisterOutcome =
    | MissingInput
    | FetchFailed
    | AlreadyRegistered
    | UpdateFailed(sent: seq<Attendee>)
    | Marked(sent: seq<Attendee>)

  /** `s.trim().toUpperCase()`. */
  function Normalize(s: string): string {
    ToUpper(Trim(s))
  }

  /** A normalised text has no whitespace at either end and no lower-case
      ASCII letter, and is `s` less its surrounding whitespace, upper-cased. */
  lemma NormalizeShape(s: string)
    ensures Trimmed(Normalize(s))
    ensures forall i :: 0 <= i < |Normalize(s)| ==> !('a' <= Normalize(s)[i] <= 'z')
    ensures exists i, j :: 0 <= i <= j <= |s| && Normalize(s) == ToUpper(s[i..j])
                           && AllWhitespace(s[..i]) && AllWhitespace(s[j..])
  {
    var i, j := TrimSplits(s);
    ToUpperKeepsTrimmed(Trim(s));
  }

  /** `attendees.some(a => a.matric_no === matricNo)`. */
  function MatricExists(attendees: seq<Attendee>, matricNo: string): (r: bool)
    ensures r <==> exists i :: 0 <= i < |attendees| && attendees[i].matricNo == matricNo
  {
    if attendees == [] then false
    else attendees[0].matricNo == matricNo || MatricExists(attendees[1..], matricNo)
  }

  /** No matriculation number occurs twice in the list. */
  ghost predicate DistinctMatrics(attendees: seq<Attendee>) {
    forall i, j :: 0 <= i < j < |attendees| ==> attendees[i].matricNo != attendees[j].matricNo
  }

  /** `data?.attendees || []`. */
  function StoredList(stored: Option<seq<Attendee>>): seq<Attendee> {
    if stored == None then [] else stored.value
  }

  /** The record built from the raw form fields and the clock reading. */
  function NewAttendee(rawMatric: string, rawName: string, timestamp: string): Attendee {
    Attendee(Normalize(rawMatric), Normalize(rawName), timestamp)
  }

  /** The list step of a registration: `None` when the normalised number is
      already present, otherwise the old list with the new record at its end. */
  function AddAttendee(attendees: seq<Attendee>, rawMatric: string, rawName: string, timestamp: string)
    : (r: Option<seq<Attendee>>)
    ensures r == None <==> exists i :: 0 <= i < |attendees| && attendees[i].matricNo == Normalize(rawMatric)
    ensures r != None ==> |r.value| == |attendees| + 1 && r.value[..|attendees|] == attendees
    ensures r != None ==> r.value[|attendees|] == NewAttendee(rawMatric, rawName, timestamp)
  {
    if MatricExists(attendees, Normalize(rawMatric)) then None
    else
      var updated := attendees + [NewAttendee(rawMatric, rawName, timestamp)];
      assert updated[..|attendees|] == attendees;
      Some(updated)
  }

  /** What `handleRegister` does, given the form fields, the fetch reply, the
      clock reading and whether the update call failed. */
  function Register(matricNumber: string, name: string, fetch: FetchReply, timestamp: string,
                    updateFailed: bool): RegisterOutcome
  {
    if Falsy(matricNumber) || Falsy(name) then MissingInput
    else match fetch
      case FetchError => FetchFailed
      case Fetched(stored) =>
        match AddAttendee(StoredList(stored), matricNumber, name, timestamp)
        case None => AlreadyRegistered
        case Some(updated) => if updateFailed then UpdateFailed(updated) else Marked(updated)
  }

  /** Which way a registration ends, stated for each outcome: both fields
      must be non-empty, then the fetch must succeed, then the normalised
      number must be new; the list sent is the fetched one plus one record. */
  lemma RegisterOutcomes(matricNumber: string, name: string, fetch: FetchReply, timestamp: string,
                         updateFailed: bool)
    ensures var r := Register(matricNumber, name, fetch, timestamp, updateFailed);
      && (r == MissingInput <==> Falsy(matricNumber) || Falsy(name))
      && (r == FetchFailed <==> !Falsy(matricNumber) && !Falsy(name) && fetch == FetchError)
      && (r == AlreadyRegistered <==>
            && !Falsy(matricNumber) && !Falsy(name) && fetch != FetchError
            && exists i :: 0 <= i < |StoredList(fetch.attendees)| &&
                 StoredList(fetch.attendees)[i].matricNo == Normalize(matricNumber))
      && (r.Marked? ==> !updateFailed)
      && (r.UpdateFailed? ==> updateFailed)
      && (r.Marked? || r.UpdateFailed? ==>
            fetch != FetchError && r.sent == StoredList(fetch.attendees) + [NewAttendee(matricNumber, name, timestamp)])
  {
  }

  /** Once both fields are present and the list is fetched, the outcome is
      decided by the duplicate check and then by the update. */
  lemma RegisterAfterFetch(rawMatric: string, rawName: string, attendees: seq<Attendee>, timestamp: string,
                           updateFailed: bool)
    requires !Falsy(rawMatric) && !Falsy(rawName)
    ensures var updated := attendees + [Attendee(Normalize(rawMatric), Normalize(rawName), timestamp)];
            Register(rawMatric, rawName, Fetched(Some(attendees)), timestamp, updateFailed)
            == if MatricExists(attendees, Normalize(rawMatric)) then AlreadyRegistered
               else if updateFailed then UpdateFailed(updated) else Marked(updated)
  {
  }

  // ---- properties of a registration -----------------------------------------

  /** A registration that goes through keeps matriculation numbers unique. */
  lemma RegisterKeepsDistinct(matricNumber: string, name: string, fetch: FetchReply, timestamp: string,
                              updateFailed: bool)
    requires fetch.Fetched? && DistinctMatrics(StoredList(fetch.attendees))
    ensures var r := Register(matricNumber, name, fetch, timestamp, updateFailed);
            r.Marked? || r.UpdateFailed? ==> DistinctMatrics(r.sent)
  {
    var r := Register(matricNumber, name, fetch, timestamp, updateFailed);
    if r.Marked? || r.UpdateFailed? {
      var old_ := StoredList(fetch.attendees);
      var m := Normalize(matricNumber);
      assert !MatricExists(old_, m);
      forall i, j | 0 <= i < j < |r.sent| ensures r.sent[i].matricNo != r.sent[j].matricNo {
        if j == |old_| {
          assert r.sent[i] == old_[i];
        } else {
          assert r.sent[i] == old_[i] && r.sent[j] == old_[j];
        }
      }
    }
  }

  /** A successful registration leaves every earlier record in place and adds
      exactly one, whose fields are the normalised inputs. */
  lemma RegisterAppendsOne(matricNumber: string, name: string, stored: Option<seq<Attendee>>, timestamp: string)
    requires Register(matricNumber, name, Fetched(stored), timestamp, false).Marked?
    ensures var sent := Register(matricNumber, name, Fetched(stored), timestamp, false).sent;
            && |sent| == |StoredList(stored)| + 1
            && (forall i :: 0 <= i < |StoredList(stored)| ==> sent[i] == StoredList(stored)[i])
            && sent[|sent| - 1].matricNo == ToUpper(Trim(matricNumber))
            && sent[|sent| - 1].name == ToUpper(Trim(name))
            && sent[|sent| - 1].timestamp == timestamp
  {
  }

  /** The emptiness test looks at the raw text, so a matriculation number of
      blanks gets through and is stored as "". */
  lemma BlankMatricStoredEmpty(matricNumber: string, name: string, stored: Option<seq<Attendee>>, timestamp: string)
    requires matricNumber != "" && AllWhitespace(matricNumber) && name != ""
    requires !MatricExists(StoredList(stored), "")
    ensures var r := Register(matricNumber, name, Fetched(stored), timestamp, false);
            r.Marked? && r.sent[|r.sent| - 1].matricNo == ""
  {
    BlankTrimsToEmpty(matricNumber);
  }

  /** Normalising twice is normalising once. */
  lemma NormalizeIdempotent(s: string)
    ensures Normalize(Normalize(s)) == Normalize(s)
  {
    TrimToUpperCommute(Trim(s));
    TrimIdempotent(s);
    ToUpperIdempotent(Trim(s));
  }

  /** Texts that differ only in letter case and surrounding whitespace
      normalise alike. */
  lemma NormalizeIgnoresCaseAndPadding(w1: string, s: string, w2: string, t: string)
    requires AllWhitespace(w1) && AllWhitespace(w2) && ToUpper(s) == ToUpper(t)
    ensures Normalize(w1 + s + w2) == Normalize(t)
  {
    TrimIgnoresPadding(w1, s, w2);
    TrimToUpperCommute(s);
    TrimToUpperCommute(t);
  }

  /** Once a number is in the list, a padded or differently cased variant of
      it is refused and nothing is sent. */
  lemma VariantRejected(attendees: seq<Attendee>, k: nat, w1: string, s: string, w2: string,
                        name: string, timestamp: string, updateFailed: bool)
    requires k < |attendees| && attendees[k].matricNo == Normalize(s)
    requires AllWhitespace(w1) && AllWhitespace(w2) && name != "" && w1 + s + w2 != ""
    ensures Register(w1 + s + w2, name, Fetched(Some(attendees)), timestamp, updateFailed) == AlreadyRegistered
  {
    VariantPresent(attendees, k, w1, s, w2);
    PresentRejected(attendees, w1 + s + w2, name, timestamp, updateFailed);
  }

  lemma PresentRejected(attendees: seq<Attendee>, raw: string, name: string, timestamp: string, updateFailed: bool)
    requires raw != "" && name != "" && MatricExists(attendees, Normalize(raw))
    ensures Register(raw, name, Fetched(Some(attendees)), timestamp, updateFailed) == AlreadyRegistered
  {
  }

  lemma VariantPresent(attendees: seq<Attendee>, k: nat, w1: string, s: string, w2: string)
    requires k < |attendees| && attendees[k].matricNo == Normalize(s)
    requires AllWhitespace(w1) && AllWhitespace(w2)
    ensures MatricExists(attendees, Normalize(w1 + s + w2))
  {
    NormalizeIgnoresCaseAndPadding(w1, s, w2, s);
    assert attendees[k].matricNo == Normalize(w1 + s + w2);
  }

  /** After a successful registration, registering the same number again
      against the updated list is refused. */
  lemma SecondRegistrationRejected(matricNumber: string, name: string, stored: Option<seq<Attendee>>,
                                   timestamp: string, again: string, name2: string, timestamp2: string,
                                   updateFailed: bool)
    requires Register(matricNumber, name, Fetched(stored), timestamp, false).Marked?
    requires again != "" && name2 != "" && Normalize(again) == Normalize(matricNumber)
    ensures var sent := Register(matricNumber, name, Fetched(stored), timestamp, false).sent;
            Register(again, name2, Fetched(Some(sent)), timestamp2, updateFailed) == AlreadyRegistered
  {
    var sent := Register(matricNumber, name, Fetched(stored), timestamp, false).sent;
    assert sent[|sent| - 1].matricNo == Normalize(again);
    PresentRejected(sent, again, name2, timestamp2, updateFailed);
  }

  // ---- page state --------------------------------------------------------------

  /** The component's state: the setters of `Attendance` become field updates.
      `loadingLog` records, in order, every value passed to `setIsLoading`. */
  class AttendancePage {
    var isLoading: bool
    var userDistance: Option<real>
    var isWithinRange: bool
    var matricNumber: string
    var name: string
    var navigatedTo: Option<string>
    ghost var loadingLog: seq<bool>

    constructor ()
      ensures !isLoading && userDistance == None && !isWithinRange
      ensures matricNumber == "" && name == "" && navigatedTo == None && loadingLog == []
    {
      isLoading, userDistance, isWithinRange := false, None, false;
      matricNumber, name, navigatedTo := "", "", None;
      loadingLog := [];
    }

    /** The "Mark Attendance" button is rendered only inside the range. */
    predicate SubmitShown()
      reads this
    {
      isWithinRange
    }

    /** The name field's `onChange`. */
    method SetName(value: string)
      modifies this`name
      ensures name == value
    {
      name := value;
    }

    /** The matriculation-number field's `onChange`. */
    method SetMatricNumber(value: string)
      modifies this`matricNumber
      ensures matricNumber == value
    {
      matricNumber := value;
    }

    method SetIsLoading(value: bool)
      modifies this`isLoading, this`loadingLog
      ensures isLoading == value && loadingLog == old(loadingLog) + [value]
    {
      isLoading := value;
      loadingLog := loadingLog + [value];
    }

    /** The geolocation effect for the venue coordinates from the link. With a
        falsy coordinate it returns at once; otherwise a delivered position
        sets the distance and the inclusive range flag. */
    method LocateUser(lat: Number, lng: Number, fix: PositionFix)
      modifies this`userDistance, this`isWithinRange
      ensures FalsyNumber(lat) || FalsyNumber(lng) || !fix.Located? ==>
                userDistance == old(userDistance) && isWithinRange == old(isWithinRange)
      ensures !FalsyNumber(lat) && !FalsyNumber(lng) && fix.Located? ==>
                userDistance == Some(fix.distance) && (isWithinRange <==> fix.distance <= MaxDistance)
    {
      if FalsyNumber(lat) || FalsyNumber(lng) {
        return;
      }
      match fix {
        case Unsupported =>
        case PositionError =>
        case Located(distance) =>
          userDistance := Some(distance);
          isWithinRange := distance <= MaxDistance;
      }
    }

    /** `handleRegister`: the form fields are checked, then the list is fetched,
        checked for the number and written back with one record more. */
    method HandleRegister(fetch: FetchReply, timestamp: string, updateFailed: bool)
      returns (outcome: RegisterOutcome)
      modifies this`isLoading, this`loadingLog, this`matricNumber, this`name, this`navigatedTo
      ensures outcome == Register(old(matricNumber), old(name), fetch, timestamp, updateFailed)
      ensures outcome == MissingInput ==> isLoading == old(isLoading) && loadingLog == old(loadingLog)
      ensures outcome != MissingInput ==> !isLoading && loadingLog == old(loadingLog) + [true, false]
      ensures outcome.Marked? ==> matricNumber == "" && name == "" && navigatedTo == Some("/success")
      ensures !outcome.Marked? ==>
                matricNumber == old(matricNumber) && name == old(name) && navigatedTo == old(navigatedTo)
    {
      var rawMatric, rawName := matricNumber, name;
      if Falsy(rawMatric) || Falsy(rawName) {
        return MissingInput;
      }
      ghost var before := loadingLog;
      assert before + [true] + [false] == before + [true, false];
      SetIsLoading(true);
      if fetch == FetchError {
        SetIsLoading(false);
        return FetchFailed;
      }
      outcome := RecordAttendance(rawMatric, rawName, StoredList(fetch.attendees), timestamp, updateFailed);
    }

    /** The part of `handleRegister` after a successful fetch: the duplicate
        check, then the update with one record appended. Runs with
        `isLoading` raised and lowers it on every exit. */
    method RecordAttendance(rawMatric: string, rawName: string, attendees: seq<Attendee>, timestamp: string,
                            updateFailed: bool)
      returns (outcome: RegisterOutcome)
      requires !Falsy(rawMatric) && !Falsy(rawName)
      modifies this`isLoading, this`loadingLog, this`matricNumber, this`name, this`navigatedTo
      ensures outcome == Register(rawMatric, rawName, Fetched(Some(attendees)), timestamp, updateFailed)
      ensures !isLoading && loadingLog == old(loadingLog) + [false]
      ensures outcome.Marked? ==> matricNumber == "" && name == "" && navigatedTo == Some("/success")
      ensures !outcome.Marked? ==>
                matricNumber == old(matricNumber) && name == old(name) && navigatedTo == old(navigatedTo)
    {
      RegisterAfterFetch(rawMatric, rawName, attendees, timestamp, updateFailed);
      var normalized := Normalize(rawMatric);
      if MatricExists(attendees, normalized) {
        SetIsLoading(false);
        return AlreadyRegistered;
      }
      var newAttendee := Attendee(normalized, Normalize(rawName), timestamp);
      var updated := attendees + [newAttendee];
      if updateFailed {
        SetIsLoading(false);
        outcome := UpdateFailed(updated);
      } else {
        SetMatricNumber("");
        SetName("");
        SetIsLoading(false);
        navigatedTo := Some("/success");
        outcome := Marked(updated);
      }
    }
  }

  /** A freshly opened page whose link carries a falsy venue coordinate never
      shows the submit button and never shows a distance. */
  method OpenWithFalsyVenue(lat: Number, lng: Number, fix: PositionFix) returns (page: AttendancePage)
    requires FalsyNumber(lat) || FalsyNumber(lng)
    ensures !page.SubmitShown() && page.userDistance == None
  {
    page := new AttendancePage();
    page.LocateUser(lat, lng, fix);
  }
}
