/**
 * POST /api/reports as the older routes/api.js handles it: the same three
 * field checks and the same recalibration and clamp, with no coordinate
 * parsing, no geofence and no severity. The coordinates go to the insert as
 * they arrived, longitude first, as the x of the stored point.
 */
module LegacyReportsApi {
  import opened Js
  import opened Calibration
  import ReportsApi
  import Geofence

  datatype Rejection = MissingFields | InvalidDecibels | DescriptionTooLong

  /** The parameters of the insert: `[storedDecibels, description, longitude, latitude]`, the last two as the point's x and y. */
  datatype InsertParams = InsertParams(decibels: int, description: JsValue, pointX: JsValue, pointY: JsValue)

  datatype Response = Inserted(params: InsertParams) | BadRequest(reason: Rejection)

  function CreateReport(body: ReportsApi.ReportBody, env: Num): (resp: Response)
    ensures resp == BadRequest(MissingFields) <==> ReportsApi.MissingRequired(body)
    ensures resp == BadRequest(InvalidDecibels) <==>
              !ReportsApi.MissingRequired(body) && !IsFiniteNumber(body.decibels)
    ensures resp == BadRequest(DescriptionTooLong) <==>
              !ReportsApi.MissingRequired(body) && IsFiniteNumber(body.decibels) && ReportsApi.TooLong(body.description)
    ensures resp.Inserted? <==> ReportsApi.FieldsValid(body)
    ensures resp.Inserted? ==>
              && resp.params.decibels == Calibrate(body.decibels.n.r, env)
              && MinDb <= resp.params.decibels <= MaxDb
              && resp.params.description == body.description
              && resp.params.pointX == body.longitude
              && resp.params.pointY == body.latitude
  {
    if ReportsApi.MissingRequired(body) then BadRequest(MissingFields)
    else if !IsFiniteNumber(body.decibels) then BadRequest(InvalidDecibels)
    else if ReportsApi.TooLong(body.description) then BadRequest(DescriptionTooLong)
    else
      var stored := Calibrate(body.decibels.n.r, env);
      Inserted(InsertParams(stored, body.description, body.longitude, body.latitude))
  }

  /**
   * The newer handler rejects everything the older one rejects, for the same
   * reason, and whatever both accept is stored with the same decibel value;
   * the newer one may in addition refuse coordinates and locations.
   */
  lemma {:induction false} NewerHandlerRefinesOlder(body: ReportsApi.ReportBody, env: Num, boundary: Geofence.Polygon, parseText: string -> Num, numberText: Num -> string)
    ensures CreateReport(body, env).BadRequest? ==>
              ReportsApi.CreateReport(body, env, boundary, parseText, numberText).BadRequest?
    ensures CreateReport(body, env) == BadRequest(MissingFields) <==>
              ReportsApi.CreateReport(body, env, boundary, parseText, numberText) == ReportsApi.BadRequest(ReportsApi.MissingFields)
    ensures CreateReport(body, env) == BadRequest(InvalidDecibels) <==>
              ReportsApi.CreateReport(body, env, boundary, parseText, numberText) == ReportsApi.BadRequest(ReportsApi.InvalidDecibels)
    ensures CreateReport(body, env) == BadRequest(DescriptionTooLong) <==>
              ReportsApi.CreateReport(body, env, boundary, parseText, numberText) == ReportsApi.BadRequest(ReportsApi.DescriptionTooLong)
    ensures ReportsApi.CreateReport(body, env, boundary, parseText, numberText).Created? ==>
              CreateReport(body, env).Inserted?
              && CreateReport(body, env).params.decibels == ReportsApi.CreateReport(body, env, boundary, parseText, numberText).report.decibels
  {
  }
}
