/** The health-check response builder of healthcheck/response.py, after the
    response format of the IETF Internet-Draft draft-inadarei-api-health-check,
    section 3: a dictionary of fields built in place, and the HTTP code the
    response is sent with. */
module Response {
  import opened Json

  /** The overall status of a response. */
  datatype HealthStatus = Pass | Warn | Fail

  /** `str` of a status: its value. */
  function ToString(s: HealthStatus): string {
    match s
    case Pass => "pass"
    case Warn => "warn"
    case Fail => "fail"
  }

  /** The three statuses print differently, so the printed status names the
      status it came from. */
  lemma ToStringInjective(s: HealthStatus, t: HealthStatus)
    ensures ToString(s) == ToString(t) <==> s == t
  {
  }

  /** The text `description` stores. */
  function DescriptionText(app: string): (r: string)
    ensures |r| == |app| + 18
  {
    "health of " + app + " service"
  }

  /** The application name can be read back out of the description. */
  lemma DescriptionNamesApp(app: string)
    ensures DescriptionText(app)[10..|DescriptionText(app)| - 8] == app
  {
    var r := DescriptionText(app);
    assert r == "health of " + (app + " service");
    assert (app + " service")[..|app|] == app;
  }

  const HttpOk := 200
  const HttpBadRequest := 400

  class HealthCheckResponse {
    var responseDict: map<string, Value<HealthStatus>>
    var httpcode: int

    /** Only the required field `status`, and it says failing; `status` holds
        the enumeration member itself, not its string. */
    constructor ()
      ensures responseDict == map["status" := Member(Fail), "version" := Text("1")]
      ensures httpcode == HttpBadRequest
    {
      responseDict := map["status" := Member(Fail), "version" := Text("1")];
      httpcode := HttpBadRequest;
    }

    /** Sets one key; every other key and the HTTP code stay as they were. */
    method Custom(key: string, value: Value<HealthStatus>) returns (self: HealthCheckResponse)
      modifies this
      ensures self == this
      ensures responseDict == old(responseDict)[key := value] && httpcode == old(httpcode)
    {
      responseDict := responseDict[key := value];
      return this;
    }

    /** `status`: the printed status and the HTTP code to send it with. */
    method Status(stat: HealthStatus := Pass, code: int := HttpOk) returns (self: HealthCheckResponse)
      modifies this
      ensures self == this
      ensures responseDict == old(responseDict)["status" := Text(ToString(stat))] && httpcode == code
    {
      self := Custom("status", Text(ToString(stat)));
      httpcode := code;
    }

    method Version(value: string) returns (self: HealthCheckResponse)
      modifies this
      ensures self == this
      ensures responseDict == old(responseDict)["version" := Text(value)] && httpcode == old(httpcode)
    {
      self := Custom("version", Text(value));
    }

    method Output(value: Value<HealthStatus>) returns (self: HealthCheckResponse)
      modifies this
      ensures self == this
      ensures responseDict == old(responseDict)["output" := value] && httpcode == old(httpcode)
    {
      self := Custom("output", value);
    }

    method ReleaseID(relid: string := "1.0.0") returns (self: HealthCheckResponse)
      modifies this
      ensures self == this
      ensures responseDict == old(responseDict)["releaseID" := Text(relid)] && httpcode == old(httpcode)
    {
      self := Custom("releaseID", Text(relid));
    }

    method ServiceID(servid: string := "1.0.0") returns (self: HealthCheckResponse)
      modifies this
      ensures self == this
      ensures responseDict == old(responseDict)["serviceID" := Text(servid)] && httpcode == old(httpcode)
    {
      self := Custom("serviceID", Text(servid));
    }

    method Description(app: string := "") returns (self: HealthCheckResponse)
      modifies this
      ensures self == this
      ensures responseDict == old(responseDict)["description" := Text(DescriptionText(app))]
      ensures httpcode == old(httpcode)
    {
      self := Custom("description", Text("health of " + app + " service"));
    }

    method Notes(note: Value<HealthStatus> := Text("")) returns (self: HealthCheckResponse)
      modifies this
      ensures self == this
      ensures responseDict == old(responseDict)["notes" := note] && httpcode == old(httpcode)
    {
      self := Custom("notes", note);
    }

    method Details(details: Value<HealthStatus> := Text("")) returns (self: HealthCheckResponse)
      modifies this
      ensures self == this
      ensures responseDict == old(responseDict)["details" := details] && httpcode == old(httpcode)
    {
      self := Custom("details", details);
    }

    /** `checks` and `links` store under the given key, as `custom` does. */
    method Checks(key: string, value: Value<HealthStatus>) returns (self: HealthCheckResponse)
      modifies this
      ensures self == this
      ensures responseDict == old(responseDict)[key := value] && httpcode == old(httpcode)
    {
      responseDict := responseDict[key := value];
      return this;
    }

    method Links(key: string, value: Value<HealthStatus>) returns (self: HealthCheckResponse)
      modifies this
      ensures self == this
      ensures responseDict == old(responseDict)[key := value] && httpcode == old(httpcode)
    {
      responseDict := responseDict[key := value];
      return this;
    }
  }
}
