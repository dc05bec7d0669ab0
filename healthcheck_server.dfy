/** The older monitoring service of healthcheck_server.py. Each app is a plain
    dictionary in `appsMonitored`; the counter update and the label rules are
    those of the newer service, with three differences: a timeout of 60 is
    rejected, the stored url gets an `http://` prefix, and the degraded label
    reads "Degraded". There are no syntax validators, a second registration
    answers 409 without touching the job, and no e-mail is sent. */
module LegacyServer {
  import opened Wrappers
  import opened Numbers
  import HC = HealthChecker

  const HttpConflict := 409
  const Degraded := "Degraded"

  /** The dictionary stored for an app. */
  datatype LegacyApp = LegacyApp(
    url: string, emailAddr: string, timeout: int, interval: int,
    unhealthyThreshold: int, healthyThreshold: int,
    lastcheck: Option<int>, health: string, healthchecks: seq<HC.Check>,
    unhealthy: int, healthy: int)

  /** The rejection test of `monitorRequest`; the timeout bound is exclusive. */
  predicate OutOfRange(timeout: int, interval: int, unhealthyThreshold: int, healthyThreshold: int) {
    || timeout < 2 || interval < 5 || unhealthyThreshold < 2 || healthyThreshold < 2
    || timeout >= 60 || interval > 300 || unhealthyThreshold > 10 || healthyThreshold > 10
  }

  /** The dictionary of a new registration. */
  function Fresh(f: HC.Form): (r: LegacyApp)
    ensures WellFormed(r) <==> !OutOfRange(f.timeout, f.interval, f.unhealthyThreshold, f.healthyThreshold)
  {
    LegacyApp("http://" + f.url, f.email, f.timeout, f.interval, f.unhealthyThreshold,
              f.healthyThreshold, None, HC.Pending, [], 0, 0)
  }

  /** A second registration counts as one more unhealthy check. */
  function Reregister(a: LegacyApp): (r: LegacyApp)
    ensures r == a.(unhealthy := r.unhealthy, healthy := r.healthy)
    ensures a.unhealthy <= r.unhealthy
    ensures r.unhealthy >= a.unhealthyThreshold ==> r.healthy == 0
  {
    var unhealthy := SaturatingIncrement(a.unhealthy, a.unhealthyThreshold);
    a.(unhealthy := unhealthy, healthy := if unhealthy >= a.unhealthyThreshold then 0 else a.healthy)
  }

  /** `monitorRequest`. */
  function Register(s: HC.Registry<LegacyApp>, f: HC.Form): (r: HC.Reply<LegacyApp>)
    ensures r.code == HttpConflict <==> f.appname in s.apps
    ensures r.code == HC.HttpCreated <==>
      f.appname !in s.apps && !OutOfRange(f.timeout, f.interval, f.unhealthyThreshold, f.healthyThreshold)
    ensures r.code in {HttpConflict, HC.HttpCreated, HC.HttpNotAcceptable}
    ensures r.code == HC.HttpNotAcceptable ==> r.state == s
    ensures r.code == HttpConflict ==>
      r.state == HC.Registry(s.apps[f.appname := Reregister(s.apps[f.appname])], s.jobs)
    ensures r.code == HC.HttpCreated ==>
      && r.state.apps == s.apps[f.appname := Fresh(f)]
      && r.state.jobs == s.jobs[f.appname := false]
      && r.state.apps[f.appname].url == "http://" + f.url
  {
    var name := f.appname;
    if name in s.apps then
      HC.Reply(HC.Registry(s.apps[name := Reregister(s.apps[name])], s.jobs), HttpConflict)
    else if OutOfRange(f.timeout, f.interval, f.unhealthyThreshold, f.healthyThreshold) then
      HC.Reply(s, HC.HttpNotAcceptable)
    else
      HC.Reply(HC.Registry(s.apps[name := Fresh(f)], s.jobs[name := false]), HC.HttpCreated)
  }

  /** `healthCheck`: the history entry is stamped with `now`, and `lastcheck`
      with the second clock reading `later`. */
  function Cycle(a: LegacyApp, statusCode: int, now: int, later: int): (r: LegacyApp)
    ensures r.lastcheck == Some(later)
    ensures r.health in {HC.Healthy, HC.Unhealthy, Degraded, HC.Unknown}
    ensures r.url == a.url && r.emailAddr == a.emailAddr && r.timeout == a.timeout && r.interval == a.interval
    ensures r.healthyThreshold == a.healthyThreshold && r.unhealthyThreshold == a.unhealthyThreshold
  {
    var history := HC.Trim(a.healthchecks, HC.Check(now, statusCode), a.healthyThreshold);
    var c := HC.UpdateCounters(HC.Counters(a.healthy, a.unhealthy), a.healthyThreshold,
                               a.unhealthyThreshold, statusCode == HC.HttpOk);
    a.(healthchecks := history, lastcheck := Some(later), healthy := c.healthy, unhealthy := c.unhealthy,
       health := HC.Label(c, a.healthyThreshold, a.unhealthyThreshold, Degraded))
  }

  function ServerCycle(s: HC.Registry<LegacyApp>, name: string, probe: HC.Probe, now: int, later: int)
    : (r: HC.Registry<LegacyApp>)
    requires name in s.apps
    ensures r.jobs == s.jobs
    ensures r.apps.Keys == s.apps.Keys
    ensures forall n :: n in s.apps && n != name ==> r.apps[n] == s.apps[n]
  {
    HC.Registry(s.apps[name := Cycle(s.apps[name], HC.StatusCode(probe), now, later)], s.jobs)
  }

  // ---------------------------------------------------------------------
  // Properties
  // ---------------------------------------------------------------------

  predicate WellFormed(a: LegacyApp) {
    && !OutOfRange(a.timeout, a.interval, a.unhealthyThreshold, a.healthyThreshold)
    && 0 <= a.healthy <= a.healthyThreshold
    && 0 <= a.unhealthy <= a.unhealthyThreshold
    && |a.healthchecks| <= a.healthyThreshold
  }

  predicate Consistent(s: HC.Registry<LegacyApp>) {
    && s.jobs.Keys == s.apps.Keys
    && forall n :: n in s.apps ==> WellFormed(s.apps[n])
  }

  /** The two range checks disagree on exactly one kind of request: a timeout
      of 60 with every other parameter in range, which only the newer service
      accepts. */
  lemma RangeChecksDifferOnlyAtSixty(timeout: int, interval: int, unhealthyThreshold: int, healthyThreshold: int)
    ensures !OutOfRange(timeout, interval, unhealthyThreshold, healthyThreshold)
      <==> HC.ParamsInRange(timeout, interval, unhealthyThreshold, healthyThreshold) && timeout != 60
    ensures HC.ParamsInRange(timeout, interval, unhealthyThreshold, healthyThreshold)
            && OutOfRange(timeout, interval, unhealthyThreshold, healthyThreshold)
      <==> timeout == 60 && HC.ParamsInRange(60, interval, unhealthyThreshold, healthyThreshold)
  {
  }

  lemma RegisterKeepsConsistent(s: HC.Registry<LegacyApp>, f: HC.Form)
    requires Consistent(s)
    ensures Consistent(Register(s, f).state)
  {
    var r := Register(s, f);
    forall n | n in r.state.apps ensures WellFormed(r.state.apps[n]) {
      if n != f.appname {
        assert r.state.apps[n] == s.apps[n];
      }
    }
  }

  lemma ServerCycleKeepsConsistent(s: HC.Registry<LegacyApp>, name: string, probe: HC.Probe, now: int, later: int)
    requires Consistent(s) && name in s.apps
    ensures Consistent(ServerCycle(s, name, probe, now, later))
  {
    var t := ServerCycle(s, name, probe, now, later);
    forall n | n in t.apps ensures WellFormed(t.apps[n]) {
      if n != name {
        assert t.apps[n] == s.apps[n];
      }
    }
  }

  lemma StopKeepsConsistent(s: HC.Registry<LegacyApp>, name: string)
    requires Consistent(s)
    ensures Consistent(HC.Stop(s, name).state)
  {
  }

  lemma SetPausedKeepsConsistent(s: HC.Registry<LegacyApp>, name: string, paused: bool)
    requires Consistent(s)
    ensures Consistent(HC.SetPaused(s, name, paused).state)
  {
  }

  /** The older cycle updates the history and the counters exactly as the
      newer one does, and gives the same label, with "Degraded" for "Warn". */
  lemma SameCycleAsNewer(a: LegacyApp, b: HC.AppState, statusCode: int, now: int, later: int)
    requires && a.healthyThreshold == b.healthyThreshold && a.unhealthyThreshold == b.unhealthyThreshold
             && a.healthy == b.healthy && a.unhealthy == b.unhealthy && a.healthchecks == b.healthchecks
    ensures var x := Cycle(a, statusCode, now, later);
      var y := HC.Cycle("", b, statusCode, now, later).app;
      && x.healthy == y.healthy && x.unhealthy == y.unhealthy && x.healthchecks == y.healthchecks
      && x.health == (if y.health == HC.Warn then Degraded else y.health)
  {
  }

  // ---------------------------------------------------------------------
  // The server state
  // ---------------------------------------------------------------------

  /** `appsMonitored` and the scheduler's jobs, as name to paused flag. */
  class Server {
    var appsMonitored: map<string, LegacyApp>
    var jobs: map<string, bool>

    function Snapshot(): HC.Registry<LegacyApp>
      reads this
    {
      HC.Registry(appsMonitored, jobs)
    }

    ghost predicate Valid()
      reads this
    {
      Consistent(Snapshot())
    }

    constructor ()
      ensures Valid() && appsMonitored == map[] && jobs == map[]
    {
      appsMonitored := map[];
      jobs := map[];
    }

    /** `monitorRequest`. */
    method MonitorRequest(form: HC.Form) returns (code: int)
      requires Valid()
      modifies this
      ensures Valid()
      ensures HC.Reply(Snapshot(), code) == Register(old(Snapshot()), form)
    {
      RegisterKeepsConsistent(Snapshot(), form);
      var appname := form.appname;
      if appname in appsMonitored {
        var appData := appsMonitored[appname];
        appData := appData.(unhealthy := appData.unhealthy + (if appData.unhealthy < appData.unhealthyThreshold then 1 else 0));
        if appData.unhealthy >= appData.unhealthyThreshold {
          appData := appData.(healthy := 0);
        }
        appsMonitored := appsMonitored[appname := appData];
        return HttpConflict;
      }
      if || form.timeout < 2 || form.interval < 5 || form.unhealthyThreshold < 2 || form.healthyThreshold < 2
         || form.timeout >= 60 || form.interval > 300 || form.unhealthyThreshold > 10 || form.healthyThreshold > 10
      {
        return HC.HttpNotAcceptable;
      }
      appsMonitored := appsMonitored[appname := LegacyApp(
        "http://" + form.url, form.email, form.timeout, form.interval, form.unhealthyThreshold,
        form.healthyThreshold, None, HC.Pending, [], 0, 0)];
      jobs := jobs[appname := false];
      return HC.HttpCreated;
    }

    /** `healthCheck`, the scheduled job of a registered app. */
    method HealthCheck(appname: string, probe: HC.Probe, now: int, later: int)
      requires Valid() && appname in appsMonitored
      modifies this
      ensures Valid()
      ensures Snapshot() == ServerCycle(old(Snapshot()), appname, probe, now, later)
    {
      ServerCycleKeepsConsistent(Snapshot(), appname, probe, now, later);
      var before := appsMonitored[appname];
      var appData := before;
      var statusCode := HC.StatusCode(probe);

      var history := appData.healthchecks + [HC.Check(now, statusCode)];
      if |history| > appData.healthyThreshold {
        history := history[1..];
      }
      assert history == HC.Trim(before.healthchecks, HC.Check(now, statusCode), before.healthyThreshold);
      appData := appData.(healthchecks := history, lastcheck := Some(later));

      var healthy := appData.healthy;
      var unhealthy := appData.unhealthy;
      if statusCode == HC.HttpOk {
        healthy := healthy + (if healthy < appData.healthyThreshold then 1 else 0);
        if healthy >= appData.healthyThreshold {
          unhealthy := 0;
        }
      } else {
        unhealthy := unhealthy + (if unhealthy < appData.unhealthyThreshold then 1 else 0);
        if unhealthy >= appData.unhealthyThreshold {
          healthy := 0;
        }
      }
      ghost var c := HC.Counters(healthy, unhealthy);
      assert c == HC.UpdateCounters(HC.Counters(before.healthy, before.unhealthy), before.healthyThreshold,
                                    before.unhealthyThreshold, statusCode == HC.HttpOk);
      appData := appData.(healthy := healthy, unhealthy := unhealthy);

      if unhealthy == 0 && healthy >= appData.healthyThreshold {
        appData := appData.(health := HC.Healthy);
      } else if healthy == 0 && unhealthy >= appData.unhealthyThreshold {
        appData := appData.(health := HC.Unhealthy);
      } else if appData.unhealthyThreshold > 2 && unhealthy >= 2 {
        appData := appData.(health := Degraded);
      } else {
        appData := appData.(health := HC.Unknown);
      }
      assert appData == Cycle(before, statusCode, now, later);
      appsMonitored := appsMonitored[appname := appData];
    }

    /** `stopmonitoring`. */
    method StopMonitoring(appname: string) returns (code: int)
      requires Valid()
      modifies this
      ensures Valid()
      ensures HC.Reply(Snapshot(), code) == HC.Stop(old(Snapshot()), appname)
    {
      StopKeepsConsistent(Snapshot(), appname);
      if appname in appsMonitored {
        appsMonitored := appsMonitored - {appname};
        jobs := jobs - {appname};
        return HC.HttpOk;
      }
      return HC.HttpBadRequest;
    }

    /** `pause`. */
    method Pause(appname: string) returns (code: int)
      requires Valid()
      modifies this
      ensures Valid()
      ensures HC.Reply(Snapshot(), code) == HC.SetPaused(old(Snapshot()), appname, true)
    {
      SetPausedKeepsConsistent(Snapshot(), appname, true);
      if appname in appsMonitored {
        jobs := jobs[appname := true];
        return HC.HttpOk;
      }
      return HC.HttpBadRequest;
    }

    /** `resume`. */
    method Resume(appname: string) returns (code: int)
      requires Valid()
      modifies this
      ensures Valid()
      ensures HC.Reply(Snapshot(), code) == HC.SetPaused(old(Snapshot()), appname, false)
    {
      SetPausedKeepsConsistent(Snapshot(), appname, false);
      if appname in appsMonitored {
        jobs := jobs[appname := false];
        return HC.HttpOk;
      }
      return HC.HttpBadRequest;
    }
  }
}
