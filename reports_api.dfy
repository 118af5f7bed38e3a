/**
 * POST /api/reports as routes/api.mysql.js handles it: field checks in a
 * fixed order, decibel recalibration and clamp, the polygon geofence and the
 * severity band. The database insert is left to the caller of the model: a
 * `Created` response carries exactly the row the handler inserts.
 */
module ReportsApi {
  import opened Js
  import opened Calibration
  import opened Geofence

  const MaxDescriptionLength: int := 255

  datatype Severity = Quiet | Normal | Loud | VeryHigh

  /** The severity label the handler stores with a report. */
  function SeverityOf(db: int): (s: Severity)
    ensures s == VeryHigh <==> db > 100
    ensures s == Loud <==> 80 < db <= 100
    ensures s == Normal <==> 50 < db <= 80
    ensures s == Quiet <==> db <= 50
  {
    if db > 100 then VeryHigh
    else if db > 80 then Loud
    else if db > 50 then Normal
    else Quiet
  }

  /** The bands GET /reports/stats counts, as the CASE expressions of its query state them. */
  predicate StatsQuiet(db: int) { db <= 50 }
  predicate StatsNormal(db: int) { 51 <= db <= 80 }
  predicate StatsHigh(db: int) { 81 <= db <= 100 }
  predicate StatsVeryHigh(db: int) { db > 100 }

  /** On integers the stats bands partition the values and agree with the stored severity. */
  lemma {:induction false} SeverityMatchesStats(db: int)
    ensures StatsQuiet(db) <==> SeverityOf(db) == Quiet
    ensures StatsNormal(db) <==> SeverityOf(db) == Normal
    ensures StatsHigh(db) <==> SeverityOf(db) == Loud
    ensures StatsVeryHigh(db) <==> SeverityOf(db) == VeryHigh
  {
  }

  /** The fields of the JSON body the checks read. */
  datatype ReportBody = ReportBody(latitude: JsValue, longitude: JsValue, decibels: JsValue, description: JsValue)

  datatype Rejection = MissingFields | InvalidDecibels | DescriptionTooLong | InvalidCoordinates | OutsideArea

  /** The row inserted and echoed back with status 201. */
  datatype Report = Report(decibels: int, description: JsValue, latitude: real, longitude: real, severity: Severity)

  /** 201 with the stored report, or 400 with the reason; a 400 writes nothing. */
  datatype Response = Created(report: Report) | BadRequest(reason: Rejection)

  /** A coordinate is undefined, a decibel value is undefined, or the description is falsy. */
  predicate MissingRequired(body: ReportBody) {
    body.latitude.Undefined? || body.longitude.Undefined? || body.decibels.Undefined? || !Truthy(body.description)
  }

  /**
   * `description.length > 255`: a string's length counts UTF-16 code units,
   * an array's its elements; any other JSON value has no length, and
   * `undefined > 255` is false.
   */
  predicate TooLong(description: JsValue) {
    || (description.Str? && Utf16Length(description.s) > MaxDescriptionLength)
    || (description.Array? && |description.elems| > MaxDescriptionLength)
  }

  /** The body passes the three field checks that precede the coordinate checks. */
  predicate FieldsValid(body: ReportBody) {
    !MissingRequired(body) && IsFiniteNumber(body.decibels) && !TooLong(body.description)
  }

  predicate CoordinatesFinite(body: ReportBody, parseText: string -> Num, numberText: Num -> string) {
    ParseFloat(body.latitude, parseText, numberText).Finite? && ParseFloat(body.longitude, parseText, numberText).Finite?
  }

  /**
   * The handler. `env` is `parseFloat(process.env.DB_CALIB_OFFSET)`, `boundary`
   * is the polygon loaded at start-up (`Null` when the data file has none, in
   * which case the geofence is skipped), `parseText` is the engine's
   * parseFloat on strings and `numberText` its way of writing a number out.
   */
  function CreateReport(body: ReportBody, env: Num, boundary: Polygon, parseText: string -> Num, numberText: Num -> string): (resp: Response)
    ensures resp == BadRequest(MissingFields) <==> MissingRequired(body)
    ensures resp == BadRequest(InvalidDecibels) <==> !MissingRequired(body) && !IsFiniteNumber(body.decibels)
    ensures resp == BadRequest(DescriptionTooLong) <==>
              !MissingRequired(body) && IsFiniteNumber(body.decibels) && TooLong(body.description)
    ensures resp == BadRequest(InvalidCoordinates) <==> FieldsValid(body) && !CoordinatesFinite(body, parseText, numberText)
    ensures resp == BadRequest(OutsideArea) <==>
              FieldsValid(body) && CoordinatesFinite(body, parseText, numberText) && !boundary.Null?
              && !Inside(ParseFloat(body.latitude, parseText, numberText).r, ParseFloat(body.longitude, parseText, numberText).r, boundary)
    ensures resp.Created? ==>
              && FieldsValid(body)
              && resp.report.decibels == Calibrate(body.decibels.n.r, env)
              && MinDb <= resp.report.decibels <= MaxDb
              && resp.report.severity == SeverityOf(resp.report.decibels)
              && resp.report.description == body.description
              && ParseFloat(body.latitude, parseText, numberText) == Finite(resp.report.latitude)
              && ParseFloat(body.longitude, parseText, numberText) == Finite(resp.report.longitude)
              && (!boundary.Null? ==> Inside(resp.report.latitude, resp.report.longitude, boundary))
  {
    if MissingRequired(body) then BadRequest(MissingFields)
    else if !IsFiniteNumber(body.decibels) then BadRequest(InvalidDecibels)
    else if TooLong(body.description) then BadRequest(DescriptionTooLong)
    else
      var stored := Calibrate(body.decibels.n.r, env);
      var latNum := ParseFloat(body.latitude, parseText, numberText);
      var lngNum := ParseFloat(body.longitude, parseText, numberText);
      if !latNum.Finite? || !lngNum.Finite? then BadRequest(InvalidCoordinates)
      else if !boundary.Null? && !Inside(latNum.r, lngNum.r, boundary) then BadRequest(OutsideArea)
      else Created(Report(stored, body.description, latNum.r, lngNum.r, SeverityOf(stored)))
  }

  /** A stand-in service area for the scenarios: the box the report page uses, as a GeoJSON ring. */
  function TiranaBox(): Polygon {
    Ring(Rectangle(41.20, 41.45, 19.65, 19.98))
  }

  /** An in-area report of 65 dB is stored as 65 with severity normal. */
  lemma {:induction false} ScenarioTrafficNoise(parseText: string -> Num, numberText: Num -> string)
    ensures CreateReport(ReportBody(Number(Finite(41.33)), Number(Finite(19.82)), Number(Finite(65.0)), Str("Traffic noise")),
                         NaN, TiranaBox(), parseText, numberText)
            == Created(Report(65, Str("Traffic noise"), 41.33, 19.82, Normal))
  {
    RectangleIsHalfOpenBox(41.33, 19.82, 41.20, 41.45, 19.65, 19.98);
  }

  /** A report at (0, 0) is rejected by the geofence. */
  lemma {:induction false} ScenarioOriginRejected(parseText: string -> Num, numberText: Num -> string)
    ensures CreateReport(ReportBody(Number(Finite(0.0)), Number(Finite(0.0)), Number(Finite(65.0)), Str("Traffic noise")),
                         NaN, TiranaBox(), parseText, numberText)
            == BadRequest(OutsideArea)
  {
    RectangleIsHalfOpenBox(0.0, 0.0, 41.20, 41.45, 19.65, 19.98);
  }

  /** A dBFS reading of -20 with the default offset is stored as 95, severity loud. */
  lemma {:induction false} ScenarioDbfsReading(parseText: string -> Num, numberText: Num -> string)
    ensures CreateReport(ReportBody(Number(Finite(41.33)), Number(Finite(19.82)), Number(Finite(-20.0)), Str("Generator")),
                         NaN, TiranaBox(), parseText, numberText)
            == Created(Report(95, Str("Generator"), 41.33, 19.82, Loud))
  {
    RectangleIsHalfOpenBox(41.33, 19.82, 41.20, 41.45, 19.65, 19.98);
  }

  /** A description of 256 characters is rejected before anything else is looked at. */
  lemma {:induction false} ScenarioLongDescription(lat: JsValue, lng: JsValue, env: Num, boundary: Polygon, parseText: string -> Num, numberText: Num -> string)
    requires !lat.Undefined? && !lng.Undefined?
    ensures CreateReport(ReportBody(lat, lng, Number(Finite(65.0)), Str(seq(256, _ => 'a'))), env, boundary, parseText, numberText)
            == BadRequest(DescriptionTooLong)
  {
  }

  /**
   * 128 emoji are 128 characters but 256 UTF-16 code units, so the
   * description is refused although it has fewer than 255 characters.
   */
  lemma {:induction false} ScenarioAstralDescription(lat: JsValue, lng: JsValue, env: Num, boundary: Polygon, parseText: string -> Num, numberText: Num -> string)
    requires !lat.Undefined? && !lng.Undefined?
    ensures CreateReport(ReportBody(lat, lng, Number(Finite(65.0)), Str(seq(128, _ => '\U{1F600}'))), env, boundary, parseText, numberText)
            == BadRequest(DescriptionTooLong)
  {
    var s: string := seq(128, _ => '\U{1F600}');
    assert !(forall i :: 0 <= i < |s| ==> s[i] as int < 0x10000) by {
      assert s[0] as int >= 0x10000;
    }
    Utf16LengthCountsCharsInBmp(s);
    AstralOnlyDoubles(s);
  }

  /** A string made only of characters outside the Basic Multilingual Plane is twice as long in code units. */
  lemma {:induction false} AstralOnlyDoubles(s: string)
    requires forall i :: 0 <= i < |s| ==> s[i] as int >= 0x10000
    ensures Utf16Length(s) == 2 * |s|
    decreases |s|
  {
    if s != [] {
      AstralOnlyDoubles(s[..|s| - 1]);
    }
  }

  /** A coordinate sent as a one-element array, `[41.33]`, is read as the number inside. */
  lemma {:induction false} ScenarioArrayCoordinates(parseText: string -> Num, numberText: Num -> string)
    requires parseText(numberText(Finite(41.33))) == Finite(41.33)
    requires parseText(numberText(Finite(19.82))) == Finite(19.82)
    ensures CreateReport(ReportBody(Array([Number(Finite(41.33))]), Array([Number(Finite(19.82))]), Number(Finite(65.0)), Str("Traffic noise")),
                         NaN, TiranaBox(), parseText, numberText)
            == Created(Report(65, Str("Traffic noise"), 41.33, 19.82, Normal))
  {
    RectangleIsHalfOpenBox(41.33, 19.82, 41.20, 41.45, 19.65, 19.98);
  }

  /** An array description of 256 elements has length 256 and is refused. */
  lemma {:induction false} ScenarioArrayDescription(lat: JsValue, lng: JsValue, env: Num, boundary: Polygon, parseText: string -> Num, numberText: Num -> string)
    requires !lat.Undefined? && !lng.Undefined?
    ensures CreateReport(ReportBody(lat, lng, Number(Finite(65.0)), Array(seq(256, _ => JsValue.Null))), env, boundary, parseText, numberText)
            == BadRequest(DescriptionTooLong)
  {
  }
}
