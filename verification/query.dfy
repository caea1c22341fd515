/**
 * `JPLQuery` of python/universe/query.py: the options of a Horizons request, checked in a fixed
 * order before anything is sent, and the `object` property that keeps the body's name and its
 * NAIF code together. The catalog is the module-level `naif_id()` instance; the request
 * itself is not part of the model.
 */
module Query {
  import opened Wrappers
  import opened Text
  import opened Coords
  import opened Horizons
  import opened NaifCatalog

  /** The `ValueError`s of `__init__`, one per check. */
  datatype QueryError = BadFormat | UnknownObject(name: string) | BadEphemType | BadCenter

  /** The parameters of the object-data request `__init__` prepares when no stop time is given. */
  datatype RequestParams = RequestParams(format: string, command: string, objData: string, makeEphem: string)

  /**
   * The checks of `__init__` in their order. The options pass exactly when all four checks do,
   * and then yield the object's NAIF code from the catalog; otherwise the first check that
   * fails, in the order format, object, type, centre, decides the error.
   */
  function CheckOptions(format: string, name: string, ephemType: string, center: string, ids: map<string, int>): (r: Result<int, QueryError>)
    ensures r.Success? <==> format in Formats && Upper(name) in ids && ephemType in EphemTypes && center == Center
    ensures r.Success? ==> r.value == ids[Upper(name)]
    ensures r == Failure(BadFormat) <==> format !in Formats
    ensures r == Failure(UnknownObject(name)) <==> format in Formats && Upper(name) !in ids
    ensures r == Failure(BadEphemType) <==> format in Formats && Upper(name) in ids && ephemType !in EphemTypes
    ensures r == Failure(BadCenter) <==> format in Formats && Upper(name) in ids && ephemType in EphemTypes && center != Center
  {
    if format !in Formats then Failure(BadFormat)
    else if Lookup(ids, name).None? then Failure(UnknownObject(name))
    else if ephemType !in EphemTypes then Failure(BadEphemType)
    else if center != Center then Failure(BadCenter)
    else Success(Lookup(ids, name).value)
  }

  class JPLQuery {
    var format: string
    var objectName: string
    var command: int
    var objData: string
    var makeEphem: string
    var ephemType: string
    var center: string
    var startTime: Timestamp
    var stopTime: Option<Timestamp>
    /** The request prepared when no stop time is given; sending it is not part of the model. */
    var request: Option<RequestParams>

    constructor Build(format: string, name: string, command: int, objData: bool, makeEphem: bool,
                      ephemType: string, center: string, startTime: Timestamp, stopTime: Option<Timestamp>)
      ensures this.format == format && objectName == name && this.command == command
      ensures this.objData == YesNo(objData) && this.makeEphem == YesNo(makeEphem)
      ensures this.ephemType == ephemType && this.center == center
      ensures this.startTime == startTime && this.stopTime == stopTime
      ensures stopTime.Some? ==> request == None
      ensures stopTime.None? ==> request == Some(RequestParams("json", IntToString(command), "YES", "NO"))
    {
      this.format := format;
      objectName := name;
      this.command := command;
      this.objData := YesNo(objData);
      this.makeEphem := YesNo(makeEphem);
      this.ephemType := ephemType;
      this.center := center;
      this.startTime := startTime;
      this.stopTime := stopTime;
      request := if stopTime.None? then Some(RequestParams("json", IntToString(command), "YES", "NO")) else None;
    }

    /**
     * `JPLQuery(object, format, obj_data, make_ephem, emphen_type, center, start_time, stop_time)`:
     * the checks of `CheckOptions`, then the fields; a given stop time is stored unchanged and
     * no request is prepared.
     */
    static method New(catalog: NaifId, name: string, format: string, objData: bool, makeEphem: bool,
                      ephemType: string, center: string, startTime: Timestamp, stopTime: Option<Timestamp>)
      returns (r: Result<JPLQuery, QueryError>)
      ensures CheckOptions(format, name, ephemType, center, catalog.ids).Failure? ==>
                r == Failure(CheckOptions(format, name, ephemType, center, catalog.ids).error)
      ensures CheckOptions(format, name, ephemType, center, catalog.ids).Success? ==>
                r.Success? && fresh(r.value)
                && r.value.objectName == name && r.value.command == catalog.Get(name).value
                && r.value.format == format && r.value.ephemType == ephemType && r.value.center == center
                && r.value.objData == YesNo(objData) && r.value.makeEphem == YesNo(makeEphem)
                && r.value.startTime == startTime && r.value.stopTime == stopTime
                && (stopTime.Some? <==> r.value.request.None?)
    {
      if format !in Formats {
        return Failure(BadFormat);
      }
      var code := catalog.Get(name);
      if code.None? {
        return Failure(UnknownObject(name));
      }
      if ephemType !in EphemTypes {
        return Failure(BadEphemType);
      }
      if center != Center {
        return Failure(BadCenter);
      }
      var q := new JPLQuery.Build(format, name, code.value, objData, makeEphem, ephemType, center, startTime, stopTime);
      return Success(q);
    }

    /**
     * The `object` setter. The name is stored before the lookup, so a name missing from the
     * catalog (a `KeyError`) leaves the new name beside the old code.
     */
    method SetObject(catalog: NaifId, name: string) returns (missing: bool)
      modifies this
      ensures objectName == name
      ensures missing <==> catalog.Get(name).None?
      ensures !missing ==> command == catalog.Get(name).value
      ensures missing ==> command == old(command)
      ensures format == old(format) && ephemType == old(ephemType) && center == old(center)
      ensures startTime == old(startTime) && stopTime == old(stopTime) && request == old(request)
      ensures objData == old(objData) && makeEphem == old(makeEphem)
    {
      objectName := name;
      var code := catalog.Get(name);
      if code.None? {
        return true;
      }
      command := code.value;
      missing := false;
    }
  }
}
