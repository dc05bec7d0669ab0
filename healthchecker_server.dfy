/** The monitoring core of healthchecker_server.py: the registry of monitored
    apps, the job table of the scheduler, registration, the probe cycle with
    its hysteresis counters and health label, and the stop/pause/resume
    endpoints. The probe result, the clock readings and the syntax validators
    are inputs; e-mails are notices appended to an outbox. */
module HealthChecker {
  import opened Wrappers
  import opened Numbers
  import MonitorValues

  const HttpOk := 200
  const HttpCreated := 201
  const HttpFound := 302
  const HttpBadRequest := 400
  const HttpNotAcceptable := 406
  const HttpInternalServerError := 500

  /** Times are microseconds; `timedelta(days=1)`. */
  const OneDay := 24 * 60 * 60 * 1000000

  /** The health labels an app can carry. */
  const Pending := "Pending"
  const Healthy := "Healthy"
  const Warn := "Warn"
  const Unhealthy := "Unhealthy"
  const Unknown := "Unknown"

  /** One entry of the probe history: when it was taken and the status code. */
  datatype Check = Check(time: int, statusCode: int)

  /** What the probe of `<url>/health` gave: a response, or an exception. */
  datatype Probe = Responded(code: int) | Raised

  /** The status code a probe counts as; every exception is a 500. */
  function StatusCode(p: Probe): int {
    match p
    case Responded(code) => code
    case Raised => HttpInternalServerError
  }

  /** The value of an `AppData` record. */
  datatype AppState = AppState(
    url: string, emailAddr: string, timeout: int, interval: int,
    unhealthyThreshold: int, healthyThreshold: int,
    lastcheck: Option<int>, lasthealthy: Option<int>, health: string,
    healthchecks: seq<Check>, unhealthy: int, healthy: int)

  /** The fields of a registration request, already converted with `int`. */
  datatype Form = Form(
    appname: string, url: string, email: string, timeout: int, interval: int,
    unhealthyThreshold: int, healthyThreshold: int)

  /** The syntax checks of the `validators` package, as given predicates. */
  datatype Validators = Validators(
    url: string -> bool, email: string -> bool, ipv4: string -> bool, ipv6: string -> bool)

  /** What an e-mail reports. */
  datatype Event =
    | BackToHealthy(healthyThreshold: int)
    | BecameUnhealthy(lastHealthy: Option<int>)
    | Degraded
    | MonitoringPaused(lastHealthy: Option<int>)

  /** One e-mail about an app, to the address registered with it. */
  datatype Notice = Notice(app: string, to: string, event: Event)

  /** The registry `appsMonitored` and the scheduler's job table, as name to
      paused flag. */
  datatype Registry<A> = Registry(apps: map<string, A>, jobs: map<string, bool>)

  /** An endpoint's effect: the new registry and the HTTP status code. */
  datatype Reply<A> = Reply(state: Registry<A>, code: int)

  /** `validators.between`: both bounds included. */
  predicate Between(value: int, min: int, max: int) {
    min <= value <= max
  }

  /** The sanity check of a new registration. */
  predicate ParamsInRange(timeout: int, interval: int, unhealthyThreshold: int, healthyThreshold: int) {
    && Between(timeout, 2, 60)
    && Between(interval, 5, 300)
    && Between(healthyThreshold, 2, 10)
    && Between(unhealthyThreshold, 2, 10)
  }

  /** A url is accepted as a url, an IPv4 address or an IPv6 address. */
  predicate ValidTarget(v: Validators, target: string) {
    v.url(target) || v.ipv4(target) || v.ipv6(target)
  }

  /** A new `AppData(url, emailAddr, timeout, interval, unhealthy_threshold,
      healthy_threshold)`: pending, never checked, both counters at zero. */
  function Fresh(url: string, emailAddr: string, timeout: int, interval: int,
                 unhealthyThreshold: int, healthyThreshold: int): (r: AppState)
    ensures WellFormed(r) <==> ParamsInRange(timeout, interval, unhealthyThreshold, healthyThreshold)
  {
    AppState(url, emailAddr, timeout, interval, unhealthyThreshold, healthyThreshold,
             None, None, Pending, [], 0, 0)
  }

  /** An app that registers again is counted as one more unhealthy check. */
  function Reregister(a: AppState): (r: AppState)
    ensures r == a.(unhealthy := r.unhealthy, healthy := r.healthy)
    ensures a.unhealthy <= r.unhealthy
    ensures r.unhealthy >= a.unhealthyThreshold ==> r.healthy == 0
  {
    var unhealthy := SaturatingIncrement(a.unhealthy, a.unhealthyThreshold);
    a.(unhealthy := unhealthy, healthy := if unhealthy >= a.unhealthyThreshold then 0 else a.healthy)
  }

  /** `monitorRequest`: what a registration does to the registry. */
  function Register(s: Registry<AppState>, f: Form, v: Validators): (r: Reply<AppState>)
    ensures r.code == HttpFound <==> f.appname in s.apps
    ensures r.code == HttpBadRequest <==>
      f.appname !in s.apps && (!ValidTarget(v, f.url) || !v.email(f.email))
    ensures r.code == HttpCreated <==>
      && f.appname !in s.apps && ValidTarget(v, f.url) && v.email(f.email)
      && ParamsInRange(f.timeout, f.interval, f.unhealthyThreshold, f.healthyThreshold)
    ensures r.code in {HttpFound, HttpBadRequest, HttpCreated, HttpNotAcceptable}
    ensures r.code in {HttpBadRequest, HttpNotAcceptable} ==> r.state == s
    ensures r.code == HttpCreated ==>
      && r.state.apps == s.apps[f.appname := Fresh(f.url, f.email, f.timeout, f.interval,
                                                    f.unhealthyThreshold, f.healthyThreshold)]
      && r.state.jobs == s.jobs[f.appname := false]
    ensures r.code == HttpFound ==>
      && r.state.apps.Keys == s.apps.Keys
      && r.state.apps == s.apps[f.appname := Reregister(s.apps[f.appname])]
      && r.state.jobs == s.jobs[f.appname := false]
  {
    var name := f.appname;
    if name in s.apps then
      Reply(Registry(s.apps[name := Reregister(s.apps[name])], s.jobs[name := false]), HttpFound)
    else if !ValidTarget(v, f.url) then
      Reply(s, HttpBadRequest)
    else if !v.email(f.email) then
      Reply(s, HttpBadRequest)
    else if ParamsInRange(f.timeout, f.interval, f.unhealthyThreshold, f.healthyThreshold) then
      var a := Fresh(f.url, f.email, f.timeout, f.interval, f.unhealthyThreshold, f.healthyThreshold);
      Reply(Registry(s.apps[name := a], s.jobs[name := false]), HttpCreated)
    else
      Reply(s, HttpNotAcceptable)
  }

  /** The two counters of an app. */
  datatype Counters = Counters(healthy: int, unhealthy: int)

  /** One observation: a success raises `healthy` up to its threshold and, once
      the threshold is met, clears `unhealthy`; a failure does the same the
      other way round. */
  function UpdateCounters(c: Counters, healthyThreshold: int, unhealthyThreshold: int,
                          success: bool): (r: Counters)
    ensures
      && 0 <= c.healthy <= healthyThreshold && 0 <= c.unhealthy <= unhealthyThreshold
      ==> 0 <= r.healthy <= healthyThreshold && 0 <= r.unhealthy <= unhealthyThreshold
    ensures success ==> c.healthy <= r.healthy && (r.healthy < healthyThreshold ==> r.unhealthy == c.unhealthy)
    ensures !success ==> c.unhealthy <= r.unhealthy && (r.unhealthy < unhealthyThreshold ==> r.healthy == c.healthy)
  {
    if success then
      var healthy := SaturatingIncrement(c.healthy, healthyThreshold);
      Counters(healthy, if healthy >= healthyThreshold then 0 else c.unhealthy)
    else
      var unhealthy := SaturatingIncrement(c.unhealthy, unhealthyThreshold);
      Counters(if unhealthy >= unhealthyThreshold then 0 else c.healthy, unhealthy)
  }

  /** The label for the counters, first match wins; `warn` is the label of the
      degraded case ("Warn" here). */
  function Label(c: Counters, healthyThreshold: int, unhealthyThreshold: int, warn: string): (r: string)
    ensures r in {Healthy, Unhealthy, warn, Unknown}
  {
    if c.unhealthy == 0 && c.healthy >= healthyThreshold then Healthy
    else if c.healthy == 0 && c.unhealthy >= unhealthyThreshold then Unhealthy
    else if unhealthyThreshold > 2 && c.unhealthy >= 2 then warn
    else Unknown
  }

  /** Appends the entry and drops the oldest one if the history is then
      longer than `cap`. */
  function Trim(history: seq<Check>, entry: Check, cap: int): (r: seq<Check>)
    ensures 1 <= cap || history != [] ==> 0 < |r| && r[|r| - 1] == entry
    ensures 1 <= cap && |history| <= cap ==> |r| <= cap
  {
    var h := history + [entry];
    if |h| > cap then h[1..] else h
  }

  /** `sendEmail` does nothing for an empty address. */
  function Send(to: string, n: Notice): seq<Notice> {
    if to == "" then [] else [n]
  }

  /** The e-mail that goes with a new label other than "Unknown". */
  function LabelEvent(newHealth: string, healthyThreshold: int, lastHealthy: Option<int>): Event {
    if newHealth == Healthy then BackToHealthy(healthyThreshold)
    else if newHealth == Unhealthy then BecameUnhealthy(lastHealthy)
    else Degraded
  }

  /** The outcome of one probe cycle for one app. */
  datatype CycleResult = CycleResult(app: AppState, pause: bool, notices: seq<Notice>)

  /** The first half of a cycle: the check is recorded and the counters and
      `lasthealthy` are updated; the label is not touched yet. */
  function Observe(a: AppState, statusCode: int, now: int): (r: AppState)
    ensures r.lastcheck == Some(now)
    ensures 1 <= a.healthyThreshold ==>
      0 < |r.healthchecks| && r.healthchecks[|r.healthchecks| - 1] == Check(now, statusCode)
    ensures r.health == a.health && r.emailAddr == a.emailAddr && r.url == a.url
    ensures r.timeout == a.timeout && r.interval == a.interval
    ensures r.healthyThreshold == a.healthyThreshold && r.unhealthyThreshold == a.unhealthyThreshold
    ensures Counters(r.healthy, r.unhealthy) ==
      UpdateCounters(Counters(a.healthy, a.unhealthy), a.healthyThreshold, a.unhealthyThreshold, statusCode == HttpOk)
    ensures statusCode == HttpOk && r.healthy >= a.healthyThreshold ==> r.lasthealthy == Some(now)
    ensures !(statusCode == HttpOk && r.healthy >= a.healthyThreshold) ==> r.lasthealthy == a.lasthealthy
  {
    var success := statusCode == HttpOk;
    var c := UpdateCounters(Counters(a.healthy, a.unhealthy), a.healthyThreshold,
                            a.unhealthyThreshold, success);
    a.(lastcheck := Some(now),
       lasthealthy := if success && c.healthy >= a.healthyThreshold then Some(now) else a.lasthealthy,
       healthchecks := Trim(a.healthchecks, Check(now, statusCode), a.healthyThreshold),
       unhealthy := c.unhealthy, healthy := c.healthy)
  }

  /** The auto-pause: a failure that reached the unhealthy threshold, more
      than a day after `lastcheck` was set. */
  function PauseDue(b: AppState, statusCode: int, now: int, later: int): bool {
    statusCode != HttpOk && b.unhealthy >= b.unhealthyThreshold && later - now > OneDay
  }

  /** The label the counters of `b` call for. */
  function NewHealth(b: AppState): string {
    Label(Counters(b.healthy, b.unhealthy), b.healthyThreshold, b.unhealthyThreshold, Warn)
  }

  /** The e-mail about a label change, for the record `b` before its label is
      updated. */
  function LabelNotices(name: string, b: AppState): (r: seq<Notice>)
    ensures |r| <= 1
    ensures forall k :: 0 <= k < |r| ==> r[k].app == name && r[k].to == b.emailAddr != ""
  {
    var newHealth := NewHealth(b);
    if newHealth != b.health && newHealth != Unknown
    then Send(b.emailAddr, Notice(name, b.emailAddr, LabelEvent(newHealth, b.healthyThreshold, b.lasthealthy)))
    else []
  }

  /** `healthCheck` for the app `name` whose record is `a`: the probe gave
      `statusCode`, the clock read `now` when `lastcheck` is set and `later`
      when the auto-pause is decided. */
  function Cycle(name: string, a: AppState, statusCode: int, now: int, later: int): (r: CycleResult)
    ensures r.pause ==> statusCode != HttpOk
    ensures |r.notices| <= 2
    ensures forall k :: 0 <= k < |r.notices| ==> r.notices[k].app == name && r.notices[k].to == a.emailAddr != ""
  {
    var b := Observe(a, statusCode, now);
    var pause := PauseDue(b, statusCode, now, later);
    var pauseNotices :=
      if pause then Send(b.emailAddr, Notice(name, b.emailAddr, MonitoringPaused(b.lasthealthy))) else [];
    CycleResult(b.(health := NewHealth(b)), pause, pauseNotices + LabelNotices(name, b))
  }

  /** The effect of a cycle on the registry and the e-mails it sends. */
  datatype Outcome = Outcome(state: Registry<AppState>, notices: seq<Notice>)

  function ServerCycle(s: Registry<AppState>, name: string, probe: Probe, now: int, later: int): (r: Outcome)
    requires name in s.apps
    ensures r.state.apps.Keys == s.apps.Keys
    ensures forall n :: n in s.apps && n != name ==> r.state.apps[n] == s.apps[n]
    ensures forall n :: n in s.jobs && n != name ==> n in r.state.jobs && r.state.jobs[n] == s.jobs[n]
    ensures name in s.jobs ==> name in r.state.jobs
  {
    var c := Cycle(name, s.apps[name], StatusCode(probe), now, later);
    Outcome(Registry(s.apps[name := c.app], if c.pause then s.jobs[name := true] else s.jobs), c.notices)
  }

  /** `stopmonitoring`: removes the entry and its job. */
  function Stop<A>(s: Registry<A>, name: string): (r: Reply<A>)
    ensures r.code == HttpOk <==> name in s.apps
    ensures r.code != HttpOk ==> r.code == HttpBadRequest && r.state == s
    ensures r.code == HttpOk ==> r.state.apps == s.apps - {name} && r.state.jobs == s.jobs - {name}
  {
    if name in s.apps then Reply(Registry(s.apps - {name}, s.jobs - {name}), HttpOk)
    else Reply(s, HttpBadRequest)
  }

  /** `pause` and `resume`: set the job's paused flag. */
  function SetPaused<A>(s: Registry<A>, name: string, paused: bool): (r: Reply<A>)
    ensures r.code == HttpOk <==> name in s.apps
    ensures r.code != HttpOk ==> r.code == HttpBadRequest && r.state == s
    ensures r.code == HttpOk ==> r.state.apps == s.apps && r.state.jobs == s.jobs[name := paused]
  {
    if name in s.apps then Reply(Registry(s.apps, s.jobs[name := paused]), HttpOk)
    else Reply(s, HttpBadRequest)
  }

  // ---------------------------------------------------------------------
  // Invariants and properties
  // ---------------------------------------------------------------------

  /** What every stored record satisfies: parameters in range, counters within
      their thresholds, history no longer than the healthy threshold. */
  predicate WellFormed(a: AppState) {
    && ParamsInRange(a.timeout, a.interval, a.unhealthyThreshold, a.healthyThreshold)
    && 0 <= a.healthy <= a.healthyThreshold
    && 0 <= a.unhealthy <= a.unhealthyThreshold
    && |a.healthchecks| <= a.healthyThreshold
  }

  /** Every app has exactly one job, and every record is well formed. */
  predicate Consistent(s: Registry<AppState>) {
    && s.jobs.Keys == s.apps.Keys
    && forall n :: n in s.apps ==> WellFormed(s.apps[n])
  }

  lemma RegisterKeepsConsistent(s: Registry<AppState>, f: Form, v: Validators)
    requires Consistent(s)
    ensures Consistent(Register(s, f, v).state)
  {
    var r := Register(s, f, v);
    if r.code == HttpFound || r.code == HttpCreated {
      var a := r.state.apps[f.appname];
      assert WellFormed(a);
      forall n | n in r.state.apps ensures WellFormed(r.state.apps[n]) {
        if n != f.appname {
          assert r.state.apps[n] == s.apps[n];
        }
      }
    }
  }

  // ---------------------------------------------------------------------
  // Registration as the file runs it
  // ---------------------------------------------------------------------

  /** `monitorRequest` as healthchecker_server.py runs it. The view function
      `info` (lines 319-320) rebinds the name that line 7 imports from
      `logging`, and it takes no argument. So the `info(...)` call at line 189,
      between storing the record (line 186) and scheduling its job (line 190),
      raises: the request fails with 500, the record stays and no job is added.
      A re-registration succeeds only while the app's job exists; when it does
      not, `resume_job` (line 157) raises after the counters changed. */
  function RegisterAsWritten(s: Registry<AppState>, f: Form, v: Validators): (r: Reply<AppState>)
    ensures r.state.apps == Register(s, f, v).state.apps
    ensures r.code == HttpInternalServerError <==>
      || (f.appname in s.apps && f.appname !in s.jobs)
      || Register(s, f, v).code == HttpCreated
    ensures r.code == HttpInternalServerError ==> r.state.jobs == s.jobs
    ensures r.code != HttpInternalServerError ==> r == Register(s, f, v)
  {
    var name := f.appname;
    if name in s.apps then
      var a := Reregister(s.apps[name]);
      if name in s.jobs then Reply(Registry(s.apps[name := a], s.jobs[name := false]), HttpFound)
      else Reply(Registry(s.apps[name := a], s.jobs), HttpInternalServerError)
    else if !ValidTarget(v, f.url) || !v.email(f.email) then
      Reply(s, HttpBadRequest)
    else if ParamsInRange(f.timeout, f.interval, f.unhealthyThreshold, f.healthyThreshold) then
      var a := Fresh(f.url, f.email, f.timeout, f.interval, f.unhealthyThreshold, f.healthyThreshold);
      Reply(Registry(s.apps[name := a], s.jobs), HttpInternalServerError)
    else
      Reply(s, HttpNotAcceptable)
  }

  /** Every first registration that passes all checks fails as written and
      leaves its app without a job, so the registry is no longer consistent;
      `Register`, the intended behaviour, answers 201 and stays consistent. */
  lemma RegisterAsWrittenLeavesNoJob(s: Registry<AppState>, f: Form, v: Validators)
    requires Consistent(s) && f.appname !in s.apps
    requires ValidTarget(v, f.url) && v.email(f.email)
    requires ParamsInRange(f.timeout, f.interval, f.unhealthyThreshold, f.healthyThreshold)
    ensures Register(s, f, v).code == HttpCreated && Consistent(Register(s, f, v).state)
    ensures var r := RegisterAsWritten(s, f, v);
      && r.code == HttpInternalServerError
      && f.appname in r.state.apps && f.appname !in r.state.jobs
      && !Consistent(r.state)
  {
    RegisterKeepsConsistent(s, f, v);
  }

  /** Once that has happened, registering the same app again fails too. */
  lemma ReregisterAsWrittenFails(s: Registry<AppState>, f: Form, v: Validators, g: Form)
    requires Consistent(s) && f.appname !in s.apps
    requires ValidTarget(v, f.url) && v.email(f.email)
    requires ParamsInRange(f.timeout, f.interval, f.unhealthyThreshold, f.healthyThreshold)
    requires g.appname == f.appname
    ensures RegisterAsWritten(RegisterAsWritten(s, f, v).state, g, v).code == HttpInternalServerError
  {
    RegisterAsWrittenLeavesNoJob(s, f, v);
  }

  lemma CycleKeepsWellFormed(name: string, a: AppState, statusCode: int, now: int, later: int)
    requires WellFormed(a)
    ensures WellFormed(Cycle(name, a, statusCode, now, later).app)
  {
  }

  lemma ServerCycleKeepsConsistent(s: Registry<AppState>, name: string, probe: Probe, now: int, later: int)
    requires Consistent(s) && name in s.apps
    ensures Consistent(ServerCycle(s, name, probe, now, later).state)
  {
    var o := ServerCycle(s, name, probe, now, later);
    CycleKeepsWellFormed(name, s.apps[name], StatusCode(probe), now, later);
    forall n | n in o.state.apps ensures WellFormed(o.state.apps[n]) {
      if n != name {
        assert o.state.apps[n] == s.apps[n];
      }
    }
  }

  lemma StopKeepsConsistent(s: Registry<AppState>, name: string)
    requires Consistent(s)
    ensures Consistent(Stop(s, name).state)
  {
  }

  lemma SetPausedKeepsConsistent(s: Registry<AppState>, name: string, paused: bool)
    requires Consistent(s)
    ensures Consistent(SetPaused(s, name, paused).state)
  {
  }

  /** The registry's range check is the documented one of `MonitorValues`. */
  lemma ParamsInRangeIsWithinBounds(timeout: int, interval: int, unhealthyThreshold: int, healthyThreshold: int)
    ensures ParamsInRange(timeout, interval, unhealthyThreshold, healthyThreshold)
      <==> MonitorValues.WithinBounds(timeout, interval, unhealthyThreshold, healthyThreshold)
  {
  }

  /** Registering again changes the counters exactly as a failed probe does,
      and nothing else about the record. */
  lemma ReregisterIsFailedCheck(a: AppState)
    ensures var b := Reregister(a);
      && Counters(b.healthy, b.unhealthy)
         == UpdateCounters(Counters(a.healthy, a.unhealthy), a.healthyThreshold, a.unhealthyThreshold, false)
      && b.(healthy := a.healthy, unhealthy := a.unhealthy) == a
  {
  }

  /** Success is exactly a 200; an exception counts as a failure. */
  lemma SuccessIsExactly200(p: Probe)
    ensures StatusCode(p) == HttpOk <==> p == Responded(HttpOk)
  {
  }

  /** The history keeps the newest checks, at most `healthyThreshold` of them,
      and ends with the check just taken. */
  lemma CycleHistory(name: string, a: AppState, statusCode: int, now: int, later: int)
    requires 1 <= a.healthyThreshold && |a.healthchecks| <= a.healthyThreshold
    ensures var h := Cycle(name, a, statusCode, now, later).app.healthchecks;
      var all := a.healthchecks + [Check(now, statusCode)];
      && |h| == Min(|all|, a.healthyThreshold)
      && h == all[|all| - |h|..]
      && h[|h| - 1] == Check(now, statusCode)
  {
  }

  /** `lasthealthy` becomes the time of this check exactly when a success
      brings `healthy` to its threshold, and is kept otherwise; so both e-mails
      that report the last healthy check (the pause and "unhealthy") report
      the time it had before the cycle, never the failed check just taken. */
  lemma CycleLastHealthy(name: string, a: AppState, statusCode: int, now: int, later: int)
    requires WellFormed(a)
    ensures var c := Cycle(name, a, statusCode, now, later);
      && (statusCode == HttpOk && c.app.healthy >= a.healthyThreshold ==> c.app.lasthealthy == Some(now))
      && (!(statusCode == HttpOk && c.app.healthy >= a.healthyThreshold) ==> c.app.lasthealthy == a.lasthealthy)
    ensures var c := Cycle(name, a, statusCode, now, later);
      forall k :: 0 <= k < |c.notices| && (c.notices[k].event.MonitoringPaused? || c.notices[k].event.BecameUnhealthy?)
        ==> c.notices[k].event.lastHealthy == a.lasthealthy
  {
    var b := Observe(a, statusCode, now);
    if statusCode == HttpOk {
      assert b.healthy >= 1;
      assert NewHealth(b) != Unhealthy;
    }
  }

  /** `k` observations with the same outcome in a row. */
  function Repeat(c: Counters, healthyThreshold: int, unhealthyThreshold: int, success: bool, k: nat): Counters
    decreases k
  {
    if k == 0 then c
    else Repeat(UpdateCounters(c, healthyThreshold, unhealthyThreshold, success),
                healthyThreshold, unhealthyThreshold, success, k - 1)
  }

  /** `k` successes in a row raise `healthy` by `k`, stopping at the
      threshold, and `unhealthy` is cleared once the threshold is reached. */
  lemma {:induction false} ConsecutiveSuccesses(c: Counters, healthyThreshold: int, unhealthyThreshold: int, k: nat)
    requires 0 <= c.healthy <= healthyThreshold
    ensures var r := Repeat(c, healthyThreshold, unhealthyThreshold, true, k);
      && r.healthy == Min(c.healthy + k, healthyThreshold)
      && r.unhealthy == (if k >= 1 && c.healthy + k >= healthyThreshold then 0 else c.unhealthy)
    decreases k
  {
    if k > 0 {
      ConsecutiveSuccesses(UpdateCounters(c, healthyThreshold, unhealthyThreshold, true),
                           healthyThreshold, unhealthyThreshold, k - 1);
    }
  }

  /** `k` failures in a row raise `unhealthy` by `k`, stopping at the
      threshold, and `healthy` is cleared once the threshold is reached. */
  lemma {:induction false} ConsecutiveFailures(c: Counters, healthyThreshold: int, unhealthyThreshold: int, k: nat)
    requires 0 <= c.unhealthy <= unhealthyThreshold
    ensures var r := Repeat(c, healthyThreshold, unhealthyThreshold, false, k);
      && r.unhealthy == Min(c.unhealthy + k, unhealthyThreshold)
      && r.healthy == (if k >= 1 && c.unhealthy + k >= unhealthyThreshold then 0 else c.healthy)
    decreases k
  {
    if k > 0 {
      ConsecutiveFailures(UpdateCounters(c, healthyThreshold, unhealthyThreshold, false),
                          healthyThreshold, unhealthyThreshold, k - 1);
    }
  }

  /** Hysteresis: `healthyThreshold` successes in a row make any app healthy,
      and `unhealthyThreshold` failures in a row make it unhealthy. */
  lemma ThresholdRunsDecideLabel(c: Counters, healthyThreshold: int, unhealthyThreshold: int)
    requires 2 <= healthyThreshold && 0 <= c.healthy <= healthyThreshold
    requires 2 <= unhealthyThreshold && 0 <= c.unhealthy <= unhealthyThreshold
    ensures Label(Repeat(c, healthyThreshold, unhealthyThreshold, true, healthyThreshold as nat),
                  healthyThreshold, unhealthyThreshold, Warn) == Healthy
    ensures Label(Repeat(c, healthyThreshold, unhealthyThreshold, false, unhealthyThreshold as nat),
                  healthyThreshold, unhealthyThreshold, Warn) == Unhealthy
  {
    ConsecutiveSuccesses(c, healthyThreshold, unhealthyThreshold, healthyThreshold as nat);
    ConsecutiveFailures(c, healthyThreshold, unhealthyThreshold, unhealthyThreshold as nat);
  }

  /** Fewer failures than the threshold, starting from a healthy app, never
      make it unhealthy, and they leave `healthy` where it was. */
  lemma FailuresBelowThresholdNotUnhealthy(c: Counters, healthyThreshold: int, unhealthyThreshold: int, k: nat)
    requires 1 <= healthyThreshold && c == Counters(healthyThreshold, 0)
    requires 1 <= k < unhealthyThreshold
    ensures var r := Repeat(c, healthyThreshold, unhealthyThreshold, false, k);
      && r == Counters(healthyThreshold, k)
      && Label(r, healthyThreshold, unhealthyThreshold, Warn) != Unhealthy
      && Label(r, healthyThreshold, unhealthyThreshold, Warn) != Healthy
  {
    ConsecutiveFailures(c, healthyThreshold, unhealthyThreshold, k);
  }

  /** With the smallest unhealthy threshold the degraded label never shows. */
  lemma NoWarnAtThresholdTwo(c: Counters, healthyThreshold: int)
    ensures Label(c, healthyThreshold, 2, Warn) != Warn
  {
  }

  /** A pause happens only after a failure that leaves the app unhealthy, and
      only when more than a day passed between the two clock readings, which
      are taken within one cycle. */
  lemma PauseOnlyWhenUnhealthy(name: string, a: AppState, statusCode: int, now: int, later: int)
    requires WellFormed(a)
    ensures var r := Cycle(name, a, statusCode, now, later);
      r.pause ==> statusCode != HttpOk && later - now > OneDay && r.app.health == Unhealthy
  {
  }

  /** Every e-mail of a cycle goes to the app's own address: one about the
      pause, if any, first, then one if and only if the label changed to
      something other than "Unknown". An empty address gets nothing. */
  lemma CycleNotices(name: string, a: AppState, statusCode: int, now: int, later: int)
    ensures var r := Cycle(name, a, statusCode, now, later);
      && (forall k :: 0 <= k < |r.notices| ==> r.notices[k].to == a.emailAddr && r.notices[k].app == name)
      && (a.emailAddr == "" ==> r.notices == [])
      && (a.emailAddr != "" ==>
            |r.notices| == (if r.pause then 1 else 0)
                           + (if r.app.health != a.health && r.app.health != Unknown then 1 else 0))
      && (a.emailAddr != "" && r.pause ==> r.notices[0].event.MonitoringPaused?)
  {
  }

  /** The label e-mail names the new label. */
  lemma LabelNoticeMatchesLabel(name: string, a: AppState, statusCode: int, now: int, later: int)
    requires later - now <= OneDay && a.emailAddr != ""
    ensures var r := Cycle(name, a, statusCode, now, later);
      && (r.notices != [] <==> r.app.health != a.health && r.app.health != Unknown)
      && (r.notices != [] ==>
            && (r.notices[0].event.BackToHealthy? <==> r.app.health == Healthy)
            && (r.notices[0].event.BecameUnhealthy? <==> r.app.health == Unhealthy)
            && (r.notices[0].event.Degraded? <==> r.app.health == Warn))
  {
  }

  // ---------------------------------------------------------------------
  // The in-place records and the server state
  // ---------------------------------------------------------------------

  /** The `AppData` dataclass; the parameters of a registration never change,
      the probe cycle updates the other fields in place. */
  class AppData {
    static const DefaultTimeOut := 5
    static const DefaultInterval := 30
    static const DefaultUnhealthyThreshold := 2
    static const DefaultHealthyThreshold := 10

    const url: string
    const emailAddr: string
    const timeout: int
    const interval: int
    const unhealthyThreshold: int
    const healthyThreshold: int
    var lastcheck: Option<int>
    var lasthealthy: Option<int>
    var health: string
    var healthchecks: seq<Check>
    var unhealthy: int
    var healthy: int

    function Record(): AppState
      reads this
    {
      AppState(url, emailAddr, timeout, interval, unhealthyThreshold, healthyThreshold,
               lastcheck, lasthealthy, health, healthchecks, unhealthy, healthy)
    }

    constructor (url: string := "", emailAddr: string := "",
                 timeout: int := DefaultTimeOut, interval: int := DefaultInterval,
                 unhealthyThreshold: int := DefaultUnhealthyThreshold,
                 healthyThreshold: int := DefaultHealthyThreshold)
      ensures Record() == Fresh(url, emailAddr, timeout, interval, unhealthyThreshold, healthyThreshold)
    {
      this.url := url;
      this.emailAddr := emailAddr;
      this.timeout := timeout;
      this.interval := interval;
      this.unhealthyThreshold := unhealthyThreshold;
      this.healthyThreshold := healthyThreshold;
      lastcheck := None;
      lasthealthy := None;
      health := Pending;
      healthchecks := [];
      unhealthy := 0;
      healthy := 0;
    }
  }

  /** The dataclass defaults are those of `MonitorValues`, and a record made
      with them passes the registration check. */
  lemma AppDataDefaults()
    ensures && AppData.DefaultTimeOut == MonitorValues.DefaultTimeOut
            && AppData.DefaultInterval == MonitorValues.DefaultInterval
            && AppData.DefaultUnhealthyThreshold == MonitorValues.DefaultUnhealthyThreshold
            && AppData.DefaultHealthyThreshold == MonitorValues.DefaultHealthyThreshold
    ensures ParamsInRange(AppData.DefaultTimeOut, AppData.DefaultInterval,
                          AppData.DefaultUnhealthyThreshold, AppData.DefaultHealthyThreshold)
  {
  }

  /** The global state of the service: `appsMonitored`, the scheduler's jobs
      and the e-mails sent so far. */
  class Server {
    var appsMonitored: map<string, AppData>
    var jobs: map<string, bool>
    var outbox: seq<Notice>

    /** The records as values. */
    function Apps(): map<string, AppState>
      reads this`appsMonitored, appsMonitored.Values
    {
      map n | n in appsMonitored :: appsMonitored[n].Record()
    }

    /** The registry as a value. */
    function Snapshot(): Registry<AppState>
      reads this, appsMonitored.Values
    {
      Registry(Apps(), jobs)
    }

    /** Each name owns its own record, and the registry is consistent. */
    ghost predicate Valid()
      reads this, appsMonitored.Values
    {
      && (forall n, m :: n in appsMonitored && m in appsMonitored && n != m ==>
            appsMonitored[n] != appsMonitored[m])
      && Consistent(Snapshot())
    }

    constructor ()
      ensures Valid() && Snapshot() == Registry(map[], map[]) && outbox == []
    {
      appsMonitored := map[];
      jobs := map[];
      outbox := [];
    }

    /** `monitorRequest`. */
    method MonitorRequest(form: Form, v: Validators) returns (code: int)
      requires Valid()
      modifies this, appsMonitored.Values
      ensures Valid()
      ensures Reply(Snapshot(), code) == Register(old(Snapshot()), form, v)
      ensures outbox == old(outbox)
    {
      var appname := form.appname;
      if appname in appsMonitored {
        CountReregistration(appname);
        RegisterKeepsConsistent(old(Snapshot()), form, v);
        return HttpFound;
      }
      code := Admit(form, v);
    }

    /** A name not registered yet: the url and e-mail checks, the range check
        and, when all pass, the new record and its job. */
    method Admit(form: Form, v: Validators) returns (code: int)
      requires Valid() && form.appname !in appsMonitored
      modifies this`appsMonitored, this`jobs
      ensures Valid()
      ensures Reply(Snapshot(), code) == Register(old(Snapshot()), form, v)
      ensures outbox == old(outbox)
    {
      var appname := form.appname;
      if !v.url(form.url) && !v.ipv4(form.url) && !v.ipv6(form.url) {
        return HttpBadRequest;
      }
      if !v.email(form.email) {
        return HttpBadRequest;
      }
      if && Between(form.timeout, 2, 60) && Between(form.interval, 5, 300)
         && Between(form.healthyThreshold, 2, 10) && Between(form.unhealthyThreshold, 2, 10)
      {
        var appData := new AppData(form.url, form.email, form.timeout, form.interval,
                                   form.unhealthyThreshold, form.healthyThreshold);
        Insert(appname, appData);
        RecordAdded(appname);
        RegisterKeepsConsistent(old(Snapshot()), form, v);
        return HttpCreated;
      }
      return HttpNotAcceptable;
    }

    /** The re-registration branch: one more unhealthy check, and the job is
        resumed. */
    method CountReregistration(appname: string)
      requires Valid() && appname in appsMonitored
      modifies appsMonitored[appname], this`jobs
      ensures appsMonitored == old(appsMonitored) && outbox == old(outbox)
      ensures Snapshot() == Registry(old(Snapshot()).apps[appname := Reregister(old(Snapshot()).apps[appname])],
                                     old(jobs)[appname := false])
    {
      var appData := appsMonitored[appname];
      ghost var record := Reregister(appData.Record());
      jobs := jobs[appname := false];
      appData.unhealthy := appData.unhealthy + (if appData.unhealthy < appData.unhealthyThreshold then 1 else 0);
      if appData.unhealthy >= appData.unhealthyThreshold {
        appData.healthy := 0;
      }
      assert appData.Record() == record;
      OnlyRecordChanged(appname);
    }

    /** Stores a new record and schedules its job, not paused. */
    method Insert(appname: string, appData: AppData)
      modifies this`appsMonitored, this`jobs
      ensures appsMonitored == old(appsMonitored)[appname := appData]
      ensures jobs == old(jobs)[appname := false]
    {
      appsMonitored := appsMonitored[appname := appData];
      jobs := jobs[appname := false];
    }

    /** `sendEmail`: nothing is sent to an empty address. */
    method SendEmail(sendTo: string, n: Notice)
      modifies this`outbox
      ensures outbox == old(outbox) + Send(sendTo, n)
    {
      if sendTo == "" {
        return;
      }
      outbox := outbox + [n];
    }

    /** `healthCheck`, the scheduled job of a registered app. The probe result
        and the two clock readings are inputs. */
    method HealthCheck(appname: string, probe: Probe, now: int, later: int)
      requires Valid() && appname in appsMonitored
      modifies this`jobs, this`outbox, appsMonitored[appname]
      ensures Valid()
      ensures appsMonitored == old(appsMonitored)
      ensures var o := ServerCycle(old(Snapshot()), appname, probe, now, later);
        Snapshot() == o.state && outbox == old(outbox) + o.notices
    {
      ghost var before := Snapshot();
      var appData := appsMonitored[appname];
      var statusCode := StatusCode(probe);
      ObserveProbe(appname, appData, statusCode, now, later);
      // the e-mails of the first half, then those of the second
      ghost var sent := outbox[|old(outbox)|..];
      assert outbox == old(outbox) + sent;
      Relabel(appname, appData);
      assert outbox == old(outbox) + (sent + outbox[|old(outbox)| + |sent|..]);
      OnlyRecordChanged(appname);
      ServerCycleKeepsConsistent(before, appname, probe, now, later);
    }

    /** The first half of `healthCheck`: the check is recorded, the counters
        are updated and, when due, the job is paused and its owner told. */
    method ObserveProbe(appname: string, appData: AppData, statusCode: int, now: int, later: int)
      modifies appData, this`jobs, this`outbox
      ensures appData.Record() == Observe(old(appData.Record()), statusCode, now)
      ensures var b := appData.Record();
        && jobs == (if PauseDue(b, statusCode, now, later) then old(jobs)[appname := true] else old(jobs))
        && outbox == old(outbox) + (if PauseDue(b, statusCode, now, later)
                                    then Send(b.emailAddr, Notice(appname, b.emailAddr, MonitoringPaused(b.lasthealthy)))
                                    else [])
    {
      appData.lastcheck := Some(now);
      appData.healthchecks := appData.healthchecks + [Check(now, statusCode)];
      if |appData.healthchecks| > appData.healthyThreshold {
        appData.healthchecks := appData.healthchecks[1..];
      }

      if statusCode == HttpOk {
        appData.healthy := appData.healthy + (if appData.healthy < appData.healthyThreshold then 1 else 0);
        if appData.healthy >= appData.healthyThreshold {
          appData.lasthealthy := appData.lastcheck;
          appData.unhealthy := 0;
        }
      } else {
        appData.unhealthy := appData.unhealthy + (if appData.unhealthy < appData.unhealthyThreshold then 1 else 0);
        if appData.unhealthy >= appData.unhealthyThreshold {
          appData.healthy := 0;
          // `datetime.now() - appData.lastcheck`, with `lastcheck` read as `now`
          if later - now > OneDay {
            jobs := jobs[appname := true];
            SendEmail(appData.emailAddr, Notice(appname, appData.emailAddr, MonitoringPaused(appData.lasthealthy)));
          }
        }
      }
    }

    /** The second half of `healthCheck`: the label, with an e-mail when it
        changes to something other than "Unknown". */
    method Relabel(appname: string, appData: AppData)
      modifies appData`health, this`outbox
      ensures appData.Record() == old(appData.Record()).(health := NewHealth(old(appData.Record())))
      ensures outbox == old(outbox) + LabelNotices(appname, old(appData.Record()))
    {
      if appData.unhealthy == 0 && appData.healthy >= appData.healthyThreshold {
        if appData.health != Healthy {
          SendEmail(appData.emailAddr, Notice(appname, appData.emailAddr, BackToHealthy(appData.healthyThreshold)));
        }
        appData.health := Healthy;
      } else if appData.healthy == 0 && appData.unhealthy >= appData.unhealthyThreshold {
        if appData.health != Unhealthy {
          SendEmail(appData.emailAddr, Notice(appname, appData.emailAddr, BecameUnhealthy(appData.lasthealthy)));
        }
        appData.health := Unhealthy;
      } else if appData.unhealthyThreshold > 2 && appData.unhealthy >= 2 {
        if appData.health != Warn {
          SendEmail(appData.emailAddr, Notice(appname, appData.emailAddr, Degraded));
        }
        appData.health := Warn;
      } else {
        appData.health := Unknown;
      }
    }

    /** `stopmonitoring`. */
    method StopMonitoring(appname: string) returns (code: int)
      requires Valid()
      modifies this
      ensures Valid() && outbox == old(outbox)
      ensures Reply(Snapshot(), code) == Stop(old(Snapshot()), appname)
    {
      if appname in appsMonitored {
        StopKeepsConsistent(Snapshot(), appname);
        appsMonitored := appsMonitored - {appname};
        jobs := jobs - {appname};
        RecordRemoved(appname);
        return HttpOk;
      }
      return HttpBadRequest;
    }

    /** `pause`. */
    method Pause(appname: string) returns (code: int)
      requires Valid()
      modifies this`jobs
      ensures Valid()
      ensures Reply(Snapshot(), code) == SetPaused(old(Snapshot()), appname, true)
    {
      if appname in appsMonitored {
        SetPausedKeepsConsistent(Snapshot(), appname, true);
        jobs := jobs[appname := true];
        return HttpOk;
      }
      return HttpBadRequest;
    }

    /** `resume`. */
    method Resume(appname: string) returns (code: int)
      requires Valid()
      modifies this`jobs
      ensures Valid()
      ensures Reply(Snapshot(), code) == SetPaused(old(Snapshot()), appname, false)
    {
      if appname in appsMonitored {
        SetPausedKeepsConsistent(Snapshot(), appname, false);
        jobs := jobs[appname := false];
        return HttpOk;
      }
      return HttpBadRequest;
    }

    /** When no record but that of `name` changed, the registry differs from
        the old one in that record alone. */
    twostate lemma OnlyRecordChanged(name: string)
      requires name in old(appsMonitored) && appsMonitored == old(appsMonitored)
      requires forall n :: n in appsMonitored && n != name ==> unchanged(appsMonitored[n])
      ensures Snapshot().apps == old(Snapshot()).apps[name := appsMonitored[name].Record()]
    {
    }

    /** Adding the record of `name` adds its value, and only that. */
    twostate lemma RecordAdded(name: string)
      requires name !in old(appsMonitored) && name in appsMonitored
      requires appsMonitored == old(appsMonitored)[name := appsMonitored[name]]
      requires forall n :: n in old(appsMonitored) ==> unchanged(old(appsMonitored[n]))
      ensures Snapshot().apps == old(Snapshot()).apps[name := appsMonitored[name].Record()]
    {
    }

    /** Removing the record of `name` removes its value, and only that. */
    twostate lemma RecordRemoved(name: string)
      requires appsMonitored == old(appsMonitored) - {name}
      requires forall n :: n in appsMonitored ==> unchanged(appsMonitored[n])
      ensures Snapshot().apps == old(Snapshot()).apps - {name}
    {
    }
  }
}
