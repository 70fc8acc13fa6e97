/**
 * The add-device screen: its form draft, the ordered validator that guards
 * submission, the record it inserts into the `water_gauges` table, and the
 * screen state its two button handlers update.
 */
module AddDevice {
  import opened Wrappers
  import opened JsValues
  import opened Location

  /** The four text inputs of the form, as typed (or as captured). */
  datatype Field = NameField | LocationField | LatitudeField | LongitudeField

  /** The form draft: every field is free text until it is validated. */
  datatype Form = Form(name: string, location: string, latitude: string, longitude: string)
  {
    function Get(field: Field): string {
      match field
      case NameField => name
      case LocationField => location
      case LatitudeField => latitude
      case LongitudeField => longitude
    }

    /** `{ ...formData, [field]: text }`: one field replaced, the rest kept. */
    function With(field: Field, text: string): (f: Form)
      ensures f.Get(field) == text
      ensures forall other :: other != field ==> f.Get(other) == Get(other)
    {
      match field
      case NameField => this.(name := text)
      case LocationField => this.(location := text)
      case LatitudeField => this.(latitude := text)
      case LongitudeField => this.(longitude := text)
    }
  }

  const EmptyForm := Form("", "", "", "")

  /** JavaScript's `parseFloat`, left abstract: it is passed in. */
  type Parser = string -> JsNumber

  /** What the validator decides; every verdict but `Ok` raises its own alert. */
  datatype Verdict = Ok | EmptyName | EmptyLocation | MissingCoords | InvalidCoords | OutOfRange

  /** The validator's checks, listed in the order it makes them. */
  datatype Check = NameGiven | LocationGiven | CoordsGiven | CoordsNumeric | CoordsInRange

  function Rank(c: Check): nat {
    match c
    case NameGiven => 0
    case LocationGiven => 1
    case CoordsGiven => 2
    case CoordsNumeric => 3
    case CoordsInRange => 4
  }

  /**
   * What each check demands of the form, stated on its own: a name and a
   * location that are not blank, two coordinate strings that are not
   * empty, two coordinates that parse to a number, and a latitude within
   * [-90, 90] and a longitude within [-180, 180].
   */
  predicate Passes(c: Check, f: Form, parseFloat: Parser) {
    match c
    case NameGiven => !Blank(f.name)
    case LocationGiven => !Blank(f.location)
    case CoordsGiven => f.latitude != [] && f.longitude != []
    case CoordsNumeric => !parseFloat(f.latitude).NaN? && !parseFloat(f.longitude).NaN?
    case CoordsInRange => WithinBounds(parseFloat(f.latitude), 90.0) && WithinBounds(parseFloat(f.longitude), 180.0)
  }

  /** The check a failing verdict reports. */
  function FailedCheck(v: Verdict): Check
    requires v != Ok
  {
    match v
    case EmptyName => NameGiven
    case EmptyLocation => LocationGiven
    case MissingCoords => CoordsGiven
    case InvalidCoords => CoordsNumeric
    case OutOfRange => CoordsInRange
  }

  /**
   * `validateForm`: the form is accepted exactly when it passes every
   * check. (Which check a rejection names is `FirstFailureReported`.)
   * The test `!s.trim()` is written `Blank(s)`: by the contract of
   * `Trim`, a string trims to "" exactly when it is blank.
   */
  function Validate(f: Form, parseFloat: Parser): (v: Verdict)
    ensures v == Ok <==> forall c :: Passes(c, f, parseFloat)
  {
    if Blank(f.name) then
      assert !Passes(NameGiven, f, parseFloat);
      EmptyName
    else if Blank(f.location) then
      assert !Passes(LocationGiven, f, parseFloat);
      EmptyLocation
    else if f.latitude == [] || f.longitude == [] then
      assert !Passes(CoordsGiven, f, parseFloat);
      MissingCoords
    else
      var lat := parseFloat(f.latitude);
      var lng := parseFloat(f.longitude);
      if lat.NaN? || lng.NaN? then
        assert !Passes(CoordsNumeric, f, parseFloat);
        InvalidCoords
      else
        OutsideBounds(lat, 90.0);
        OutsideBounds(lng, 180.0);
        if LessThan(lat, -90.0) || GreaterThan(lat, 90.0) || LessThan(lng, -180.0) || GreaterThan(lng, 180.0) then
          assert !Passes(CoordsInRange, f, parseFloat);
          OutOfRange
        else
          Ok
  }

  /**
   * A rejection names a check the form fails, and the form passes every
   * check made before that one: the checks run in order and the first
   * failure stops them.
   */
  lemma FirstFailureReported(f: Form, parseFloat: Parser)
    ensures var v := Validate(f, parseFloat);
      v != Ok ==>
        !Passes(FailedCheck(v), f, parseFloat) &&
        forall c :: Rank(c) < Rank(FailedCheck(v)) ==> Passes(c, f, parseFloat)
  {
  }

  /** The row sent to the `water_gauges` table. */
  datatype GaugeInsert = GaugeInsert(
    name: string,
    location: string,
    latitude: real,
    longitude: real,
    waterLevel: real,
    maxCapacity: real,
    status: string)

  /**
   * The record `handleAddDevice` inserts for an accepted form: the name and
   * location are the form's text trimmed, and non-empty (so, by `Trim`,
   * without surrounding whitespace),
   * the coordinates as parsed (so finite and within range), a water level
   * of 0, a capacity of 10 and the status 'normal'.
   */
  function InsertPayload(f: Form, parseFloat: Parser): (g: GaugeInsert)
    requires Validate(f, parseFloat) == Ok
    ensures g.name == Trim(f.name) && g.name != []
    ensures g.location == Trim(f.location) && g.location != []
    ensures parseFloat(f.latitude) == Finite(g.latitude) && -90.0 <= g.latitude <= 90.0
    ensures parseFloat(f.longitude) == Finite(g.longitude) && -180.0 <= g.longitude <= 180.0
    ensures g.waterLevel == 0.0 && g.maxCapacity == 10.0 && g.status == "normal"
  {
    assert Passes(NameGiven, f, parseFloat) && Passes(LocationGiven, f, parseFloat);
    assert Passes(CoordsInRange, f, parseFloat);
    var lat := parseFloat(f.latitude);
    var lng := parseFloat(f.longitude);
    var name := Trim(f.name);
    var location := Trim(f.location);
    assert name != [] && location != [];
    GaugeInsert(name, location, lat.value, lng.value, 0.0, 10.0, "normal")
  }

  /** A name made only of whitespace is rejected exactly as an empty one. */
  lemma BlankNameLikeEmpty(f: Form, parseFloat: Parser)
    requires Blank(f.name)
    ensures Validate(f, parseFloat) == Validate(f.(name := ""), parseFloat) == EmptyName
  {
  }

  /** A location made only of whitespace is rejected exactly as an empty one. */
  lemma BlankLocationLikeEmpty(f: Form, parseFloat: Parser)
    requires Blank(f.location)
    ensures Validate(f, parseFloat) == Validate(f.(location := ""), parseFloat)
  {
  }

  /**
   * A coordinate string that is present but parses to NaN, on either axis,
   * is rejected as invalid rather than missing.
   */
  lemma UnparsableCoordinateIsInvalid(f: Form, parseFloat: Parser)
    requires !Blank(f.name) && !Blank(f.location) && f.latitude != [] && f.longitude != []
    requires parseFloat(f.latitude).NaN? || parseFloat(f.longitude).NaN?
    ensures Validate(f, parseFloat) == InvalidCoords
  {
  }

  /**
   * An empty coordinate, on either axis, is missing: it is reported before
   * anything is parsed, whatever `parseFloat` would make of the other one.
   */
  lemma EmptyCoordinateIsMissing(f: Form, parseFloat: Parser)
    requires !Blank(f.name) && !Blank(f.location)
    requires f.latitude == [] || f.longitude == []
    ensures Validate(f, parseFloat) == MissingCoords
  {
  }

  /**
   * The coordinate strings are not trimmed: one made only of spaces is
   * present, so it is rejected as invalid rather than missing when it
   * parses to NaN.
   */
  lemma BlankCoordinateIsInvalid(f: Form, parseFloat: Parser)
    requires !Blank(f.name) && !Blank(f.location)
    requires f.latitude == " " && f.longitude != []
    requires parseFloat(" ").NaN?
    ensures Validate(f, parseFloat) == InvalidCoords
    ensures Validate(f.(latitude := ""), parseFloat) == MissingCoords
  {
    UnparsableCoordinateIsInvalid(f, parseFloat);
    EmptyCoordinateIsMissing(f.(latitude := ""), parseFloat);
  }

  /** The corners of the valid range, ±90 and ±180, are accepted. */
  lemma BoundariesAccepted(f: Form, parseFloat: Parser, lat: real, lng: real)
    requires !Blank(f.name) && !Blank(f.location) && f.latitude != [] && f.longitude != []
    requires lat == 90.0 || lat == -90.0
    requires lng == 180.0 || lng == -180.0
    requires parseFloat(f.latitude) == Finite(lat) && parseFloat(f.longitude) == Finite(lng)
    ensures Validate(f, parseFloat) == Ok
  {
  }

  /**
   * A latitude beyond ±90 or a longitude beyond ±180 (an infinity
   * included) is rejected once the earlier checks pass.
   */
  lemma BeyondRangeRejected(f: Form, parseFloat: Parser)
    requires !Blank(f.name) && !Blank(f.location) && f.latitude != [] && f.longitude != []
    requires !parseFloat(f.latitude).NaN? && !parseFloat(f.longitude).NaN?
    requires !WithinBounds(parseFloat(f.latitude), 90.0) || !WithinBounds(parseFloat(f.longitude), 180.0)
    ensures Validate(f, parseFloat) == OutOfRange
  {
  }

  /**
   * The sample device (name "Test Gauge", location "Test City", latitude
   * "14.6000", longitude "120.9800") is accepted and inserted with the
   * default readings, whenever `parseFloat` reads the two numbers.
   */
  lemma SampleDevice(parseFloat: Parser)
    requires parseFloat("14.6000") == Finite(14.6) && parseFloat("120.9800") == Finite(120.98)
    ensures Validate(Form("Test Gauge", "Test City", "14.6000", "120.9800"), parseFloat) == Ok
    ensures InsertPayload(Form("Test Gauge", "Test City", "14.6000", "120.9800"), parseFloat)
         == GaugeInsert("Test Gauge", "Test City", 14.6, 120.98, 0.0, 10.0, "normal")
  {
    var f := Form("Test Gauge", "Test City", "14.6000", "120.9800");
    assert !IsWhitespace(f.name[0]) && !IsWhitespace(f.location[0]);
    assert !IsWhitespace(f.name[|f.name| - 1]) && !IsWhitespace(f.location[|f.location| - 1]);
    assert Validate(f, parseFloat) == Ok;
    TrimKeeps(f.name);
    TrimKeeps(f.location);
  }

  /** How the insert request settled. */
  datatype InsertOutcome = Inserted | StoreError(message: string) | InsertRejected

  /** Where the location-capture handler is suspended, if it is running. */
  datatype CaptureStep = CaptureIdle | AwaitingPermission | AwaitingPosition

  /**
   * The screen's state. Each async handler is split at its `await`s: the
   * part up to the first `await` is one method, and each continuation is
   * another that receives what the awaited call produced.
   */
  class AddDeviceScreen {
    var loading: bool
    var gettingLocation: bool
    var formData: Form
    /** The form as the capture handler's closure saw it when it started. */
    var captureBase: Form
    ghost var capture: CaptureStep

    ghost predicate Valid()
      reads this
    {
      gettingLocation <==> capture != CaptureIdle
    }

    constructor ()
      ensures Valid() && !loading && !gettingLocation && formData == EmptyForm
    {
      loading := false;
      gettingLocation := false;
      formData := EmptyForm;
      captureBase := EmptyForm;
      capture := CaptureIdle;
    }

    /** Typing into one of the four inputs. */
    method Edit(field: Field, text: string)
      requires Valid()
      modifies this`formData
      ensures Valid() && formData == old(formData).With(field, text)
    {
      formData := formData.With(field, text);
    }

    /**
     * Pressing "Add Device" (disabled while `loading`): validate, and only
     * on success set `loading` and issue one insert. The form is never
     * touched.
     */
    method Submit(parseFloat: Parser) returns (verdict: Verdict, request: Option<GaugeInsert>)
      requires Valid() && !loading
      modifies this`loading
      ensures Valid() && formData == old(formData)
      ensures verdict == Validate(formData, parseFloat)
      ensures request == if verdict == Ok then Some(InsertPayload(formData, parseFloat)) else None
      ensures loading <==> request.Some?
    {
      verdict := Validate(formData, parseFloat);
      if verdict != Ok {
        request := None;
        return;
      }
      loading := true;
      request := Some(InsertPayload(formData, parseFloat));
    }

    /**
     * The continuation after the insert: whether it succeeded, failed or
     * threw, `loading` ends false and the draft is kept. `added` tells
     * whether the success alert (whose button navigates back) is shown.
     */
    method InsertSettled(outcome: InsertOutcome) returns (added: bool)
      requires Valid() && loading
      modifies this`loading
      ensures Valid() && !loading && formData == old(formData)
      ensures added <==> outcome.Inserted?
    {
      // An insert error resets `loading` and returns early; success and a
      // thrown exception both reach the reset after the try block.
      added := outcome.Inserted?;
      loading := false;
    }

    /** `handleAddDevice` run to completion with nothing interleaved. */
    method HandleAddDevice(parseFloat: Parser, outcome: InsertOutcome) returns (request: Option<GaugeInsert>, added: bool)
      requires Valid() && !loading
      modifies this`loading
      ensures Valid() && !loading && formData == old(formData)
      ensures request == if Validate(formData, parseFloat) == Ok then Some(InsertPayload(formData, parseFloat)) else None
      ensures added <==> request.Some? && outcome.Inserted?
    {
      var verdict;
      verdict, request := Submit(parseFloat);
      added := false;
      if request.Some? {
        added := InsertSettled(outcome);
      }
    }

    /** Pressing "Use Current Location" (disabled while `gettingLocation`). */
    method StartCapture()
      requires Valid() && !gettingLocation
      modifies this`gettingLocation, this`captureBase, this`capture
      ensures Valid() && gettingLocation && capture == AwaitingPermission
      ensures captureBase == formData
    {
      gettingLocation := true;
      captureBase := formData;
      capture := AwaitingPermission;
    }

    /**
     * The continuation after the permission request. Unless permission is
     * granted (a refusal or a rejected request alike), the handler ends:
     * `gettingLocation` is reset and the form is left as it is.
     */
    method PermissionSettled(outcome: PermissionOutcome)
      requires Valid() && capture == AwaitingPermission
      modifies this`gettingLocation, this`capture
      ensures Valid()
      ensures outcome.Granted? ==> gettingLocation && capture == AwaitingPosition
      ensures !outcome.Granted? ==> !gettingLocation && capture == CaptureIdle
    {
      match outcome
      case Granted =>
        capture := AwaitingPosition;
      case NotGranted =>
        gettingLocation := false;
        capture := CaptureIdle;
      case PermissionRejected =>
        gettingLocation := false;
        capture := CaptureIdle;
    }

    /**
     * The continuation after the position request. A fix replaces the two
     * coordinate strings (formatted by `toFixed6`, JavaScript's
     * `toFixed(6)`) of the form the handler started from and keeps its
     * name and location; a rejection leaves the form alone. Either way
     * `gettingLocation` ends false.
     */
    method PositionSettled(outcome: PositionOutcome, toFixed6: real -> string)
      requires Valid() && capture == AwaitingPosition
      modifies this`gettingLocation, this`capture, this`formData
      ensures Valid() && !gettingLocation && capture == CaptureIdle
      ensures outcome.Fix? ==> formData == Form(captureBase.name, captureBase.location,
                                                toFixed6(outcome.coords.latitude), toFixed6(outcome.coords.longitude))
      ensures outcome.PositionRejected? ==> formData == old(formData)
    {
      if outcome.Fix? {
        formData := captureBase.(latitude := toFixed6(outcome.coords.latitude),
                                 longitude := toFixed6(outcome.coords.longitude));
      }
      gettingLocation := false;
      capture := CaptureIdle;
    }

    /**
     * `getCurrentLocation` run to completion with nothing interleaved: the
     * name and location are never changed, the coordinates change only on
     * a granted permission followed by a fix, and `gettingLocation` ends
     * false on every path.
     */
    method GetCurrentLocation(permission: PermissionOutcome, position: PositionOutcome, toFixed6: real -> string)
      requires Valid() && !gettingLocation
      modifies this`gettingLocation, this`captureBase, this`capture, this`formData
      ensures Valid() && !gettingLocation
      ensures formData.name == old(formData.name) && formData.location == old(formData.location)
      ensures permission.Granted? && position.Fix? ==>
                formData.latitude == toFixed6(position.coords.latitude) &&
                formData.longitude == toFixed6(position.coords.longitude)
      ensures !(permission.Granted? && position.Fix?) ==> formData == old(formData)
    {
      StartCapture();
      PermissionSettled(permission);
      if permission.Granted? {
        PositionSettled(position, toFixed6);
      }
    }
  }
}
