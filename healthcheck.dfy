/** The simpler response builder of healthcheck.py: a dictionary of fields
    built in place, without an HTTP code of its own. */
module HealthCheck {
  import opened Json

  datatype Status = Pass | Fail

  /** `str` of a status: its value. */
  function ToString(s: Status): string {
    match s
    case Pass => "pass"
    case Fail => "fail"
  }

  lemma ToStringInjective(s: Status, t: Status)
    ensures ToString(s) == ToString(t) <==> s == t
  {
  }

  class HealthCheckResponse {
    var responseDict: map<string, Value<Status>>

    /** `status` holds the enumeration member itself, not its string. */
    constructor ()
      ensures responseDict == map["status" := Member(Fail), "version" := Text("1")]
    {
      responseDict := map[];
      new;
      responseDict := responseDict["status" := Member(Fail)];
      responseDict := responseDict["version" := Text("1")];
    }

    /** Sets one key; every other key stays as it was. */
    method Custom(key: string, value: Value<Status>) returns (self: HealthCheckResponse)
      modifies this
      ensures self == this && responseDict == old(responseDict)[key := value]
    {
      responseDict := responseDict[key := value];
      return this;
    }

    method Status(stat: Status := Pass) returns (self: HealthCheckResponse)
      modifies this
      ensures self == this && responseDict == old(responseDict)["status" := Text(ToString(stat))]
    {
      self := Custom("status", Text(ToString(stat)));
    }

    method Output(value: Value<Status>) returns (self: HealthCheckResponse)
      modifies this
      ensures self == this && responseDict == old(responseDict)["output" := value]
    {
      self := Custom("output", value);
    }

    method ReleaseID(relId: string := "1.0.0") returns (self: HealthCheckResponse)
      modifies this
      ensures self == this && responseDict == old(responseDict)["releaseID" := Text(relId)]
    {
      self := Custom("releaseID", Text(relId));
    }

    method ServiceID(servId: string := "") returns (self: HealthCheckResponse)
      modifies this
      ensures self == this && responseDict == old(responseDict)["serviceID" := Text(servId)]
    {
      self := Custom("serviceID", Text(servId));
    }

    method Description(app: string := "") returns (self: HealthCheckResponse)
      modifies this
      ensures self == this
      ensures responseDict == old(responseDict)["description" := Text("health of " + app + " service")]
    {
      self := Custom("description", Text("health of " + app + " service"));
    }

    method Notes(note: Value<Status> := Text("")) returns (self: HealthCheckResponse)
      modifies this
      ensures self == this && responseDict == old(responseDict)["notes" := note]
    {
      self := Custom("notes", note);
    }

    method Details(details: Value<Status> := Text("")) returns (self: HealthCheckResponse)
      modifies this
      ensures self == this && responseDict == old(responseDict)["details" := details]
    {
      self := Custom("details", details);
    }
  }
}
