/** The `device-update` edge function: a device posts a dustbin code and two
    sensor values; the handler checks the fields, derives a fill percentage,
    finds the one dustbin with that code and appends a reading.

    Each step exits early on failure. The store's answers that the code cannot
    decide (a failed lookup call, a failed insert) are parameters. */
module DeviceUpdate {
  import opened Common
  import opened Tables

  /** The inbound call. `Preflight` is the CORS `OPTIONS` request; `Unparsable`
      a body on which `req.json()` throws a `SyntaxError`, an `Error` whose
      message the `catch` block reports. A field that is `None` was absent
      from the body. */
  datatype Request =
    | Preflight
    | Unparsable(message: string)
    | Body(dustbinId: Option<string>, sensor1: Option<real>, sensor2: Option<real>)

  datatype Response =
    | CorsOk
    | Accepted(fillPercentage: real)
    | Rejected(status: int, error: string)

  /** Store failures: the lookup call reports an error, or the insert reports
      this error, which the handler throws into its `catch` block. */
  datatype Faults = Faults(lookupFails: bool, insertError: Option<Thrown>)

  /** What one call does: its response, whether it queried `dustbins`, whether
      it tried to insert into `readings`, and the readings it appended. */
  datatype Outcome = Outcome(response: Response, lookedUp: bool, insertTried: bool, appended: seq<Reading>)

  const MissingFields := "Missing required fields"
  const NotFound := "Dustbin not found"

  function Status(r: Response): int {
    match r
    case CorsOk => 200
    case Accepted(_) => 200
    case Rejected(status, _) => status
  }

  predicate HasRequiredFields(req: Request)
    requires req.Body?
  {
    !Falsy(req.dustbinId) && req.sensor1.Some? && req.sensor2.Some?
  }

  function Max(a: real, b: real): real { if a >= b then a else b }
  function Min(a: real, b: real): real { if a <= b then a else b }

  /** `Math.min(100, Math.max(0, (s1 + s2) / 2))`. */
  function FillPercentage(s1: real, s2: real): (r: real)
    ensures 0.0 <= r <= 100.0
    ensures 0.0 <= (s1 + s2) / 2.0 <= 100.0 ==> r == (s1 + s2) / 2.0
    ensures (s1 + s2) / 2.0 < 0.0 ==> r == 0.0
    ensures (s1 + s2) / 2.0 > 100.0 ==> r == 100.0
  {
    Min(100.0, Max(0.0, (s1 + s2) / 2.0))
  }

  lemma FillPercentageSymmetric(s1: real, s2: real)
    ensures FillPercentage(s1, s2) == FillPercentage(s2, s1)
  {
  }

  /** The rows `.eq('dustbin_id', code)` selects. */
  function Matches(dustbins: seq<Dustbin>, code: string): (r: seq<Dustbin>)
    ensures forall d :: d in r <==> d in dustbins && d.dustbinId == code
  {
    Filter(dustbins, (d: Dustbin) => d.dustbinId == code)
  }

  /** The specification of one call against the `dustbins` rows. */
  function Ingest(req: Request, dustbins: seq<Dustbin>, faults: Faults): (r: Outcome)
    // Preflight: nothing is read or written.
    ensures req.Preflight? ==> r == Outcome(CorsOk, false, false, [])
    // Missing fields: 400, no lookup, no insert; a sensor value of 0 is a present field.
    ensures Status(r.response) == 400 <==> req.Body? && !HasRequiredFields(req)
    ensures Status(r.response) == 400 ==> r == Outcome(Rejected(400, MissingFields), false, false, [])
    // Validation, then lookup, then insert, each only when the previous step passed.
    ensures r.lookedUp <==> req.Body? && HasRequiredFields(req)
    ensures r.insertTried ==> r.lookedUp
    ensures r.insertTried <==> r.lookedUp && !faults.lookupFails && |Matches(dustbins, req.dustbinId.value)| == 1
    // `.single()` fails unless exactly one row matches: 404, nothing inserted.
    ensures Status(r.response) == 404 <==> r.lookedUp && !r.insertTried
    ensures Status(r.response) == 404 ==> r.response == Rejected(404, NotFound) && r.appended == []
    // A failed insert: 500 with the catch block's message, never 200; a plain error object gives "Unknown error".
    ensures r.insertTried && faults.insertError.Some? ==>
              r.response == Rejected(500, CatchMessage(faults.insertError.value)) && r.appended == []
    ensures r.insertTried && faults.insertError == Some(NotAnError) ==> r.response == Rejected(500, UnknownError)
    // A body that is not JSON: 500 with the parse error's message.
    ensures req.Unparsable? ==> r == Outcome(Rejected(500, req.message), false, false, [])
    // 200 exactly when one reading is appended, for the matched row, reporting its fill percentage.
    ensures r.response.Accepted? <==> |r.appended| == 1
    ensures |r.appended| <= 1
    ensures r.response.Accepted? ==>
              r.insertTried && faults.insertError.None? &&
              var m := Matches(dustbins, req.dustbinId.value)[0];
              var s1, s2 := req.sensor1.value, req.sensor2.value;
              && r.appended == [Reading(m.id, FillPercentage(s1, s2), s1, s2)]
              && r.response.fillPercentage == FillPercentage(s1, s2)
              && m in dustbins && m.dustbinId == req.dustbinId.value
  {
    match req
    case Preflight => Outcome(CorsOk, false, false, [])
    case Unparsable(msg) => Outcome(Rejected(500, msg), false, false, [])
    case Body(code, sensor1, sensor2) =>
      if !HasRequiredFields(req) then Outcome(Rejected(400, MissingFields), false, false, [])
      else
        var fill := FillPercentage(sensor1.value, sensor2.value);
        var found := Matches(dustbins, code.value);
        if faults.lookupFails || |found| != 1 then Outcome(Rejected(404, NotFound), true, false, [])
        else if faults.insertError.Some? then Outcome(Rejected(500, CatchMessage(faults.insertError.value)), true, true, [])
        else
          var reading := Reading(found[0].id, fill, sensor1.value, sensor2.value);
          Outcome(Accepted(fill), true, true, [reading])
  }

  /** The part of the database the handler sees. */
  class TelemetryStore {
    var dustbins: seq<Dustbin>
    var readings: seq<Reading>

    /** Every reading the handler appends has a fill percentage in [0, 100]
        and belongs to an existing dustbin. */
    ghost predicate Valid()
      reads this
    {
      forall r :: r in readings ==>
        0.0 <= r.fillPercentage <= 100.0 && exists d :: d in dustbins && d.id == r.dustbinRef
    }

    constructor (dustbins: seq<Dustbin>)
      ensures this.dustbins == dustbins && readings == [] && Valid()
    {
      this.dustbins := dustbins;
      readings := [];
    }

    /** The request handler. */
    method HandleDeviceUpdate(req: Request, faults: Faults) returns (resp: Response)
      requires Valid()
      modifies this`readings
      ensures Valid()
      ensures resp == Ingest(req, dustbins, faults).response
      ensures readings == old(readings) + Ingest(req, dustbins, faults).appended
    {
      match req {
        case Preflight =>
          return CorsOk;
        case Unparsable(msg) =>
          return Rejected(500, msg);
        case Body(code, sensor1, sensor2) =>
          if Falsy(code) || sensor1.None? || sensor2.None? {
            return Rejected(400, MissingFields);
          }
          var fill := FillPercentage(sensor1.value, sensor2.value);
          var found := Matches(dustbins, code.value);
          if faults.lookupFails || |found| != 1 {
            return Rejected(404, NotFound);
          }
          var dustbin := found[0];
          if faults.insertError.Some? {
            return Rejected(500, CatchMessage(faults.insertError.value));
          }
          readings := readings + [Reading(dustbin.id, fill, sensor1.value, sensor2.value)];
          return Accepted(fill);
      }
    }
  }
}
