# HealthChecker server core, modelled in Dafny

This project models the health-monitoring logic of the HealthChecker
microservice and proves properties of that model. The service watches
registered web apps. It probes each app's `/health` endpoint on a schedule and
decides, with hysteresis, whether the app is healthy. It also runs a few small
helpers around that logic.

The model has one module per source file.

- `StateMachine` (statemachine.py) is the `Health` classifier.
  - It has four states: UNKNOWN, HEALTHY, DEGRADING and UNHEALTHY.
  - It keeps two saturating counters.
  - It has three triggers.
  - The transition library that statemachine.py uses is not part of this model. Its documented semantics are modelled instead, as `Fire` over the transition table:
    - A trigger tries the transitions registered for the current state, in registration order.
    - Each one runs its `prepare` callback (the callback's changes to the counters persist), then checks its condition.
    - The first whose condition holds executes.
    - A transition with destination `None` leaves the state as it is.
  - The `Health` class implements the triggers directly. Each method is proved equal to `Fire` on the table.
- `HealthChecker` (healthchecker_server.py) covers:
  - the registry `appsMonitored`;
  - the scheduler's job table, modelled as name → paused flag;
  - registration, and the probe cycle `healthCheck` with its history, counters, `lasthealthy`, health label and e-mails;
  - the stop, pause and resume endpoints.
  - Each `AppData` record is a class whose fields the cycle updates in place. The whole server is a class whose methods are proved equal to pure functions of the old state (`Register`, `ServerCycle`, `Stop`, `SetPaused`). The properties are proved about those functions.
- `LegacyServer` (healthcheck_server.py) is the older variant.
  - It reuses the newer variant's counter, label and history helpers.
  - It proves where the two variants differ and where they agree.
- `UpTime` (uptime.py) covers `timetostring`. It turns a whole number of seconds into "N years, N months, …".
- `Response` (healthcheck/response.py) and `HealthCheck` (healthcheck.py) are the response builders. Each is a dictionary mutated in place by chained setters.
  - The response format follows the IETF Internet-Draft draft-inadarei-api-health-check, section 3.
- `MonitorValues` (healthcheck/monitorvalues.py) holds the parameter defaults and ranges.
- `Json` holds the values stored in response dictionaries.
- `Wrappers` holds `Option`.

The following are inputs to the model:

- the probe result: a status code, or `Raised` for an exception, which is counted as 500;
- the two clock readings taken in one `healthCheck`: `now`, when `lastcheck` is set, and `later`, when the one-day auto-pause is decided;
- the `validators` predicates `url`, `email`, `ipv4` and `ipv6`.

Times are integer microseconds. E-mails are `Notice` records appended to an outbox.

In healthchecker_server.py, every call `info(...)` is modelled as the logging
call imported at line 7, which is evidently what the authors meant. As the file
is written, the view function `info` at lines 319-320 replaces that name, so each
of those calls raises (see "## Findings"). The members of `HealthChecker`
therefore model the intended behaviour, except `RegisterAsWritten`, which models
registration as the file runs it.

## Model

| member | source | states |
|---|---|---|
| `StateMachine.Health.constructor` | statemachine.py:17-23 | a new object is in UNKNOWN with both counters 0; the thresholds default to 2 (unhealthy) and 10 (healthy) |
| `StateMachine.Health.IncrementUnhealthy` | statemachine.py:61-63 | clears `healthyChecks` and raises `unhealthyChecks` by one unless it is already at the threshold |
| `StateMachine.Health.IncrementHealthy` | statemachine.py:65-67 | clears `unhealthyChecks` and raises `healthyChecks` by one unless it is already at the threshold |
| `StateMachine.Health.HealthyCheck` | statemachine.py:25-32 | equals firing `healthyCheck` on the table; while HEALTHY nothing changes; otherwise counters as in `incrementHealthy`, and HEALTHY exactly when `healthyChecks` reaches its threshold |
| `StateMachine.Health.UnhealthyCheck` | statemachine.py:34-49 | equals firing `unhealthyCheck` on the table; while UNHEALTHY nothing changes; DEGRADING goes to UNHEALTHY at the threshold; UNKNOWN and HEALTHY go to DEGRADING at the fixed count 2 |
| `StateMachine.Health.Unknown` | statemachine.py:51 | equals firing `unknown`: UNKNOWN from every state, counters untouched |
| `StateMachine.RunCallback` | statemachine.py:61-67 | a `prepare` callback keeps the state and both thresholds; `incrementHealthy` clears `unhealthyChecks` and never lowers `healthyChecks`, and `incrementUnhealthy` the mirror image |
| `StateMachine.Holds` | statemachine.py:69-76 | the three `conditions` predicates: the unhealthy count at its threshold, the unhealthy count at the fixed 2, the healthy count at its threshold |
| `StateMachine.Candidates` | statemachine.py:25-51 | the transitions registered for a state and trigger, in registration order from the table of `__init__`; there are never more than the table holds |
| `StateMachine.CandidatesMatch` | statemachine.py:25-51 | every candidate is a transition of the table, for the trigger fired, registered for the current state |
| `StateMachine.Execute` | statemachine.py:25-51 | trying the candidates keeps both thresholds; a trigger executes only when some transition is registered, and a trigger that executes nothing leaves the state as it was |
| `StateMachine.Fire` | statemachine.py:25-51 | firing a trigger: no result when no transition of the trigger is registered for the current state, otherwise the outcome of trying the candidates; `FireTotal` proves the first case never arises; `Step` is firing one trigger on the table, and `Iterate` and `Run` repeat it |
| `StateMachine.Health.IsUnhealthyThreshold` | statemachine.py:69-70 | holds exactly when the condition `isUnhealthyThreshold` holds of the object's counters |
| `StateMachine.Health.IsDegrading` | statemachine.py:72-73 | holds exactly when the condition `isDegrading` holds of the object's counters |
| `StateMachine.Health.IsHealthThreshold` | statemachine.py:75-76 | holds exactly when the condition `isHealthThreshold` holds of the object's counters |
| `StateMachine.TableCandidates` | statemachine.py:25-51 | for every state and trigger, the table registers exactly one transition, namely the one listed |
| `StateMachine.FireTotal` | statemachine.py:25-51 | no trigger ever raises a machine error: some transition always applies |
| `StateMachine.HealthyCheckEffect` | statemachine.py:25-32 | the effect of `healthyCheck` from each state, derived from the table and the library semantics |
| `StateMachine.UnhealthyCheckEffect` | statemachine.py:34-49 | the effect of `unhealthyCheck` from each state, derived from the table and the library semantics |
| `StateMachine.UnknownEffect` | statemachine.py:51 | `unknown` sets UNKNOWN and keeps both counters |
| `StateMachine.StepKeepsCountersInRange` | statemachine.py:61-67 | no trigger changes a threshold; every trigger keeps each counter between 0 and its threshold |
| `StateMachine.RunKeepsCountersInRange` | statemachine.py:61-67 | the counter bounds hold after any sequence of triggers |
| `StateMachine.EnteringUnhealthy` | statemachine.py:34-40 | UNHEALTHY is entered if and only if the machine was DEGRADING, the trigger is `unhealthyCheck`, and the count reaches the threshold |
| `StateMachine.HealthyIsStable` | statemachine.py:32 | any number of `healthyCheck`s while HEALTHY changes nothing |
| `StateMachine.UnhealthyIsStable` | statemachine.py:41 | any number of `unhealthyCheck`s while UNHEALTHY changes nothing |
| `StateMachine.ConsecutiveSuccesses` | statemachine.py:25-31 | after k ≥ 1 successes from a state other than HEALTHY: HEALTHY exactly when the count reached the threshold, otherwise unchanged; `healthyChecks` = min(start + k, threshold); `unhealthyChecks` = 0 |
| `StateMachine.ConsecutiveFailuresWhileDegrading` | statemachine.py:34-40 | after k ≥ 1 failures from DEGRADING: UNHEALTHY exactly when the count reached the threshold, DEGRADING otherwise; `unhealthyChecks` capped; `healthyChecks` = 0 |
| `StateMachine.FailuresFromCleanState` | statemachine.py:43-49 | from UNKNOWN or HEALTHY with no failures counted: one failure keeps the state; two give DEGRADING; k > 2 give UNHEALTHY exactly when k reaches the threshold |
| `StateMachine.NoDegradingBelowTwo` | statemachine.py:72-73 | with an unhealthy threshold below 2, failures never leave UNKNOWN or HEALTHY, because DEGRADING needs the fixed count 2 |
| `StateMachine.SelfTest` | statemachine.py:80-131 | the self-test scenario with thresholds 4 and 4 passes every one of its asserts and ends DEGRADING with counters 0 and 2 |
| `Numbers.SaturatingIncrement` | statemachine.py:61-67 | `count += 1 if count < cap else 0`: grows by at most one, never passes the cap once reached, and stays put exactly at or above the cap |
| `UpTime.TimeToString` | uptime.py:17-29 | the loop over the periods returns `UptimeText(time)`: the parts of `ComponentsFrom`, rendered and joined with ", " |
| `UpTime.UptimeText` | uptime.py:17-29 | the specification of `timetostring`: the parts, each rendered by `Format` (the helper `Render` maps it over them), joined with ", " |
| `UpTime.Format` | uptime.py:27-28 | `"%s %s%s"` of a part: the count, a space, the period's name and "s" for a count above 1 |
| `UpTime.Join` | uptime.py:29 | `", ".join`: the parts with the separator between neighbours |
| `UpTime.ComponentsFrom` | uptime.py:19-26 | every part has a value of at least 1 and a period from the current one on; each part's period comes after its predecessor's |
| `UpTime.ComponentsOrdered` | uptime.py:19-26 | the parts come in the order year, month, day, hour, minute, second, each period at most once |
| `UpTime.NatToString` | uptime.py:28 | `%s` of a count is a non-empty string of decimal digits |
| `UpTime.DecimalRoundTrip` | uptime.py:28 | the digits read back as the number printed |
| `UpTime.ComponentsSum` | uptime.py:25-26 | the sum of value × period length over the parts equals the input, for every input ≥ 0 |
| `UpTime.ComponentBounds` | uptime.py:20-26 | months < 13, days < 30, hours < 24, minutes < 60, seconds < 60 |
| `UpTime.UptimeTextEmpty` | uptime.py:18-29 | the text is empty if and only if the input is below one second; in particular 0 gives "" |
| `UpTime.PluralSuffix` | uptime.py:27 | a part ends in "s" if and only if its value is greater than 1 |
| `UpTime.JoinEmpty` | uptime.py:29 | joining non-empty parts gives "" only for no parts |
| `MonitorValues.DefaultsWithinBounds` | healthcheck/monitorvalues.py:7-24 | every default lies in its own inclusive range |
| `HealthChecker.AppDataDefaults` | healthchecker_server.py:112-115 | the `AppData` defaults are the `MonitorValues` defaults and pass the registration range check |
| `HealthChecker.ParamsInRangeIsWithinBounds` | healthchecker_server.py:179-184 | the registration range check is the inclusive `MonitorValues` range check |
| `HealthChecker.AppData.constructor` | healthchecker_server.py:117-128 | a new record is "Pending", with no `lastcheck` or `lasthealthy`, an empty history and both counters 0 |
| `HealthChecker.StatusCode` | healthchecker_server.py:219-229 | the status code a probe counts as: the response's code, and 500 for any exception |
| `HealthChecker.ParamsInRange` | healthchecker_server.py:179-184 | the range check of a new registration, both bounds included |
| `HealthChecker.Fresh` | healthchecker_server.py:117-128 | a new record is well formed exactly when its four parameters pass the range check |
| `HealthChecker.Reregister` | healthchecker_server.py:150-155 | a re-registration changes only the two counters; `unhealthy` never decreases, and `healthy` is cleared once `unhealthy` reaches its threshold |
| `HealthChecker.Register` | healthchecker_server.py:150-203 | 302 if and only if the name is registered (re-registration counted, job resumed); otherwise 400 if and only if the url or the e-mail is invalid (`ValidTarget`: the url passes as a url, an IPv4 or an IPv6 address); 201 if and only if all four parameters are in range (record stored, job added unpaused); else 406; on 400 and 406 the registry is unchanged; the intended behaviour, see Findings |
| `HealthChecker.ReregisterIsFailedCheck` | healthchecker_server.py:150-155 | a re-registration changes the counters exactly as a failed probe does, and changes nothing else |
| `HealthChecker.RegisterKeepsConsistent` | healthchecker_server.py:179-190 | registration keeps one job per app and every record well formed: parameters in range, counters within thresholds, history within the healthy threshold; the intended behaviour, see Findings |
| `HealthChecker.RegisterAsWritten` | healthchecker_server.py:150-203 | registration as the file runs it: the same records as `Register`; 500 exactly for a first registration that `Register` accepts and for a re-registration without a job, with the job table unchanged; otherwise the reply of `Register` |
| `HealthChecker.RegisterAsWrittenLeavesNoJob` | healthchecker_server.py:186-190 | a first registration that passes every check answers 500 and leaves the app stored without a job, so the registry is no longer consistent, while `Register` answers 201 and keeps it consistent |
| `HealthChecker.ReregisterAsWrittenFails` | healthchecker_server.py:150-158 | after such a failed registration, registering the same name again also answers 500, because `resume_job` finds no job |
| `HealthChecker.UpdateCounters` | healthchecker_server.py:238-249 | counters within their thresholds stay within them; a success never lowers `healthy` and keeps `unhealthy` until `healthy` reaches its threshold; a failure is the mirror image |
| `HealthChecker.Label` | healthchecker_server.py:258-275 | the label is always "Healthy", "Unhealthy", the degraded label or "Unknown"; what it means is proved by `ThresholdRunsDecideLabel`, `FailuresBelowThresholdNotUnhealthy` and `NoWarnAtThresholdTwo` |
| `HealthChecker.Trim` | healthchecker_server.py:232-235 | the history ends with the new entry, and a history within the cap stays within it |
| `HealthChecker.Observe` | healthchecker_server.py:231-249 | the first half of a cycle sets `lastcheck` to the first clock reading and ends the history with the new check; the new counters are `UpdateCounters` of the old ones; `lasthealthy` becomes the time of this check when a 200 brings `healthy` to its threshold and is kept otherwise; it keeps the label, the address, the url and the parameters |
| `HealthChecker.CycleLastHealthy` | healthchecker_server.py:238-267 | after a cycle, `lasthealthy` is the time of this check exactly when a 200 brought `healthy` to its threshold, and unchanged otherwise; the pause and "unhealthy" e-mails report the `lasthealthy` from before the cycle |
| `HealthChecker.PauseDue` | healthchecker_server.py:244-255 | the auto-pause test: a failed probe, the unhealthy threshold reached, and more than a day between the two clock readings |
| `HealthChecker.LabelNotices` | healthchecker_server.py:258-276 | at most one label e-mail, to the app's own address, and none for an empty address; the new label is `NewHealth` (the label the counters call for) and the e-mail's event is `LabelEvent` of it |
| `HealthChecker.Cycle` | healthchecker_server.py:207-276 | a cycle pauses only after a failed probe and sends at most two e-mails, each to the app's own non-empty address |
| `HealthChecker.ServerCycle` | healthchecker_server.py:207-276 | a cycle keeps the set of registered names and changes no other app's record or job |
| `HealthChecker.SuccessIsExactly200` | healthchecker_server.py:219-229 | a probe counts as a success if and only if it responded 200; an exception counts as 500 |
| `HealthChecker.CycleHistory` | healthchecker_server.py:232-235 | the history ends with the new `(lastcheck, statusCode)`; it keeps the newest min(n + 1, healthy threshold) entries |
| `HealthChecker.ConsecutiveSuccesses` | healthchecker_server.py:238-243 | after k successes, `healthy` = min(start + k, threshold); `unhealthy` is cleared once the threshold is reached, and kept otherwise |
| `HealthChecker.ConsecutiveFailures` | healthchecker_server.py:244-249 | after k failures, `unhealthy` = min(start + k, threshold); `healthy` is cleared once the threshold is reached, and left untouched otherwise |
| `HealthChecker.ThresholdRunsDecideLabel` | healthchecker_server.py:238-268 | a threshold's worth of successes makes the label "Healthy", and of failures "Unhealthy", from any in-range counters |
| `HealthChecker.FailuresBelowThresholdNotUnhealthy` | healthchecker_server.py:244-268 | from a healthy app, fewer failures than the threshold keep `healthy` and never give the label "Unhealthy" |
| `HealthChecker.NoWarnAtThresholdTwo` | healthchecker_server.py:269 | with unhealthy threshold 2, the label is never "Warn" |
| `HealthChecker.CycleKeepsWellFormed` | healthchecker_server.py:232-249 | a cycle keeps the counters within their thresholds and the history within the healthy threshold |
| `HealthChecker.ServerCycleKeepsConsistent` | healthchecker_server.py:207-276 | a cycle keeps the registry consistent |
| `HealthChecker.PauseOnlyWhenUnhealthy` | healthchecker_server.py:245-255 | the job is paused only after a failed probe, when more than a day separates the two clock readings, and the label is then "Unhealthy" |
| `HealthChecker.CycleNotices` | healthchecker_server.py:251-276 | every e-mail goes to the app's own address; an empty address gets none; the pause e-mail comes first; one label e-mail is sent if and only if the label changed to something other than "Unknown"; the intended behaviour, see Findings |
| `HealthChecker.LabelNoticeMatchesLabel` | healthchecker_server.py:258-276 | without a pause, an e-mail is sent if and only if the label changed to something other than "Unknown", and it names the new label; the intended behaviour, see Findings |
| `HealthChecker.Stop` | healthchecker_server.py:279-291 | 200 if and only if the name is registered, removing both the entry and the job; otherwise 400 and nothing changes |
| `HealthChecker.SetPaused` | healthchecker_server.py:294-316 | 200 if and only if the name is registered, changing only the job's paused flag; otherwise 400 and nothing changes |
| `HealthChecker.StopKeepsConsistent` | healthchecker_server.py:279-291 | stopping keeps the registry consistent |
| `HealthChecker.SetPausedKeepsConsistent` | healthchecker_server.py:294-316 | pausing or resuming keeps the registry consistent |
| `HealthChecker.Server.constructor` | healthchecker_server.py:49 | the service starts with no apps, no jobs and no e-mails |
| `HealthChecker.Server.MonitorRequest` | healthchecker_server.py:131-203 | the endpoint's code and new registry are those of `Register`; sends no e-mail; keeps the server valid; the intended behaviour, see Findings |
| `HealthChecker.Server.Admit` | healthchecker_server.py:159-203 | for a name not yet registered: the url and e-mail checks, the range check and the insertion, with the code and new registry of `Register`; the intended behaviour, see Findings |
| `HealthChecker.Server.CountReregistration` | healthchecker_server.py:150-157 | the re-registration branch: the record becomes `Reregister` of itself and the job is resumed |
| `HealthChecker.Server.Insert` | healthchecker_server.py:186-190 | stores the new record under its name and adds an unpaused job, and changes nothing else; the intended behaviour, see Findings |
| `HealthChecker.Server.SendEmail` | healthchecker_server.py:52-68 | appends the e-mail to the outbox unless the address is empty, as the function `Send` gives it (lines 53-54); the intended behaviour, see Findings |
| `HealthChecker.Server.HealthCheck` | healthchecker_server.py:207-276 | the new registry and the e-mails sent are those of `ServerCycle`; keeps the server valid; the intended behaviour, see Findings |
| `HealthChecker.Server.ObserveProbe` | healthchecker_server.py:231-255 | records the check, updates the counters and `lasthealthy`, and pauses the job (with its e-mail) when due; the intended behaviour, see Findings |
| `HealthChecker.Server.Relabel` | healthchecker_server.py:257-276 | sets the label the counters call for, with an e-mail when it changes to something other than "Unknown"; the intended behaviour, see Findings |
| `HealthChecker.Server.StopMonitoring` | healthchecker_server.py:279-291 | the endpoint's code and new registry are those of `Stop` |
| `HealthChecker.Server.Pause` | healthchecker_server.py:294-305 | the endpoint's code and new registry are those of pausing |
| `HealthChecker.Server.Resume` | healthchecker_server.py:308-316 | the endpoint's code and new registry are those of resuming |
| `LegacyServer.OutOfRange` | healthcheck_server.py:147-148 | the rejection test of a new registration; the timeout bound 60 is exclusive |
| `LegacyServer.Fresh` | healthcheck_server.py:155-167 | a new dictionary is well formed exactly when the range test does not reject its parameters |
| `LegacyServer.Reregister` | healthcheck_server.py:124-129 | a re-registration changes only the two counters; `unhealthy` never decreases, and `healthy` is cleared once `unhealthy` reaches its threshold |
| `LegacyServer.Register` | healthcheck_server.py:124-174 | 409 if and only if the name is registered (counters only, no job change); 201 if and only if no parameter is out of range (url stored with the `http://` prefix, job added); else 406 with the registry unchanged |
| `LegacyServer.Cycle` | healthcheck_server.py:177-229 | `lastcheck` becomes the second clock reading; the label is "Healthy", "Unhealthy", "Degraded" or "Unknown"; the url, the address and the parameters are kept |
| `LegacyServer.ServerCycle` | healthcheck_server.py:177-229 | a cycle leaves the job table alone, keeps the set of names and changes no other app's dictionary |
| `LegacyServer.RangeChecksDifferOnlyAtSixty` | healthcheck_server.py:147-148 | the older check accepts exactly what the newer one accepts, minus timeout 60 |
| `LegacyServer.SameCycleAsNewer` | healthcheck_server.py:192-229 | the older cycle gives the same history and counters as the newer one, and the same label with "Degraded" for "Warn" |
| `LegacyServer.RegisterKeepsConsistent` | healthcheck_server.py:146-171 | registration keeps one job per app and every record well formed |
| `LegacyServer.ServerCycleKeepsConsistent` | healthcheck_server.py:177-229 | a cycle keeps the registry consistent |
| `LegacyServer.StopKeepsConsistent` | healthcheck_server.py:232-241 | stopping keeps the registry consistent |
| `LegacyServer.SetPausedKeepsConsistent` | healthcheck_server.py:244-263 | pausing or resuming keeps the registry consistent |
| `LegacyServer.Server.constructor` | healthcheck_server.py:55 | the service starts with no apps and no jobs |
| `LegacyServer.Server.MonitorRequest` | healthcheck_server.py:109-174 | the endpoint's code and new registry are those of `LegacyServer.Register` |
| `LegacyServer.Server.HealthCheck` | healthcheck_server.py:177-229 | the counters are copied to locals, updated and written back; the new registry is that of `ServerCycle` |
| `LegacyServer.Server.StopMonitoring` | healthcheck_server.py:232-241 | the endpoint's code and new registry are those of `Stop` |
| `LegacyServer.Server.Pause` | healthcheck_server.py:244-252 | the endpoint's code and new registry are those of pausing |
| `LegacyServer.Server.Resume` | healthcheck_server.py:255-263 | the new registry is that of resuming, and the code is the 200 the view returns; Flask rejects a bare `int` as a view result, so the client actually gets 500 after the job was resumed |
| `Response.ToString` | healthcheck/response.py:15-27 | `str` of a status is its value: "pass", "warn" or "fail" |
| `Response.ToStringInjective` | healthcheck/response.py:15-27 | "pass", "warn" and "fail" name their statuses one to one |
| `Response.DescriptionNamesApp` | healthcheck/response.py:98-101 | the app name can be read back out of "health of <app> service", the text `DescriptionText` builds |
| `Response.HealthCheckResponse.constructor` | healthcheck/response.py:38-46 | the dictionary is exactly {status: the FAIL member itself, version: "1"}, and the HTTP code is 400 |
| `Response.HealthCheckResponse.Custom` | healthcheck/response.py:113-116 | sets exactly the given key; every other key and the HTTP code are unchanged; returns the builder |
| `Response.HealthCheckResponse.Status` | healthcheck/response.py:48-60 | "status" becomes the printed status (default "pass"); the HTTP code becomes the given one (default 200) |
| `Response.HealthCheckResponse.Version` | healthcheck/response.py:62-73 | writes only "version" |
| `Response.HealthCheckResponse.Output` | healthcheck/response.py:75-86 | writes only "output" |
| `Response.HealthCheckResponse.ReleaseID` | healthcheck/response.py:88-91 | writes only "releaseID", default "1.0.0" |
| `Response.HealthCheckResponse.ServiceID` | healthcheck/response.py:93-96 | writes only "serviceID", default "1.0.0" |
| `Response.HealthCheckResponse.Description` | healthcheck/response.py:98-101 | writes only "description", as "health of <app> service" |
| `Response.HealthCheckResponse.Notes` | healthcheck/response.py:103-106 | writes only "notes", default "" |
| `Response.HealthCheckResponse.Details` | healthcheck/response.py:108-111 | writes only "details", default "" |
| `Response.HealthCheckResponse.Checks` | healthcheck/response.py:120-122 | behaves exactly like `custom` |
| `Response.HealthCheckResponse.Links` | healthcheck/response.py:124-126 | behaves exactly like `custom` |
| `HealthCheck.ToString` | healthcheck.py:11-16 | `str` of a status is its value: "pass" or "fail" |
| `HealthCheck.ToStringInjective` | healthcheck.py:11-16 | "pass" and "fail" name their statuses one to one |
| `HealthCheck.HealthCheckResponse.constructor` | healthcheck.py:20-23 | the dictionary is exactly {status: the FAIL member itself, version: "1"} |
| `HealthCheck.HealthCheckResponse.Custom` | healthcheck.py:53-55 | overwrites exactly the given key |
| `HealthCheck.HealthCheckResponse.Status` | healthcheck.py:25-27 | "status" becomes the printed status, default "pass" |
| `HealthCheck.HealthCheckResponse.Output` | healthcheck.py:29-31 | writes only "output" |
| `HealthCheck.HealthCheckResponse.ReleaseID` | healthcheck.py:33-35 | writes only "releaseID", default "1.0.0" |
| `HealthCheck.HealthCheckResponse.ServiceID` | healthcheck.py:37-39 | writes only "serviceID", default "" |
| `HealthCheck.HealthCheckResponse.Description` | healthcheck.py:41-43 | writes only "description", as "health of <app> service" |
| `HealthCheck.HealthCheckResponse.Notes` | healthcheck.py:45-47 | writes only "notes", default "" |
| `HealthCheck.HealthCheckResponse.Details` | healthcheck.py:49-51 | writes only "details", default "" |

## Left out

- HTTP probing is not modelled. This covers `requestsRetrySession`, the retry and back-off settings, and the request headers. The probe's result is an input.
- Flask and waitress are not modelled: routing, request parsing, `make_response`, `jsonify` and the `build` methods. Form fields arrive already converted with `int`. A missing form key or a non-numeric value would raise in the source; that is not modelled.
- The `appname is None` branches of both `monitorRequest`s are not modelled. They are unreachable, because `request.form[...]` raises on a missing key instead of returning `None`.
- The `/health`, `/`, `info` and `status` endpoints are not modelled. Neither is the zeroconf registration or the command-line `main`.
- APScheduler is reduced to a job table of name → paused flag.
  - Intervals, misfire grace time and threads are not modelled.
  - `HealthCheck` requires a registered name, because a job exists only for a registered app. Scheduling never runs a paused job, but that is not a precondition here.
- E-mail delivery is not modelled.
  - `sendEmail` becomes a `Notice` appended to the outbox; the subject and body texts are reduced to an `Event`.
  - Calling `gmail.send` while no token was configured would raise in the source; that is not modelled.
  - The older variant sends no e-mail.
- Logging is not modelled. In the older variant, the `logging` calls only write log lines.
- In healthchecker_server.py, the model reads each `info(...)` as the logging call imported at line 7. As written, that name is the view function of lines 319-320, and the calls at lines 58, 189, 212, 260 and 366 raise (see "## Findings"). The following members therefore model the intended behaviour, not the file as it runs: `HealthChecker.Register`, `HealthChecker.RegisterKeepsConsistent`, `HealthChecker.CycleNotices`, `HealthChecker.LabelNoticeMatchesLabel`, `HealthChecker.Server.MonitorRequest`, `HealthChecker.Server.Admit`, `HealthChecker.Server.Insert`, `HealthChecker.Server.SendEmail`, `HealthChecker.Server.HealthCheck`, `HealthChecker.Server.ObserveProbe` and `HealthChecker.Server.Relabel`. Only registration is also modelled as written (`HealthChecker.RegisterAsWritten`).
- StateMachine.Health.constructor: the `debug` parameter is not modelled. Its on-enter print callbacks (statemachine.py:17, 55-59) only print, so they change no state.
- The one-day auto-pause is modelled exactly as written: it compares two clock readings taken within the same cycle. The model does not claim that such a gap occurs.
- In the older variant, `resume` returns a bare status code rather than a response. Flask's `make_response` rejects an `int` with a TypeError, so the client gets 500 after the job has been resumed. `LegacyServer.Server.Resume` records the 200 that the view returns.
- HealthChecker.Stop and HealthChecker.SetPaused answer 200 for every registered name. In the source, `remove_job`, `pause_job` and `resume_job` (healthchecker_server.py:285, 299, 311) raise when the name has no job, and the client gets 500; `SetPaused` would then add a job entry that the source never creates. Starting from the empty registry, `Register`, `ServerCycle`, `Stop` and `SetPaused` reach only `Consistent` registries (the `KeepsConsistent` lemmas), where every registered name has a job; only the registration as the file runs it (`RegisterAsWritten`) leaves a name without one.
- Clock readings are integers. `int(time)` in `timetostring` is the caller's conversion: `TimeToString` takes whole seconds. The float clock of `UpTime.current` is not modelled.
- The `validators` syntax checks are uninterpreted predicates.
- Concurrency between the scheduler threads and the request handlers is not modelled.
- In the older variant, each app's dictionary is a value in the registry map, replaced as a whole. No reference to it escapes, so the in-place update is not observable. In the newer variant, `AppData` is a class updated in place. `Server.Valid` requires that no two names share a record.
- The client wrappers (`HealthCheckServer`, `HealthCheckerServer`), the example scripts and setup.py are not part of this model.

## Findings

| source | as written | input that shows it | evidently intended | confidence | as-written member | corrected member |
|---|---|---|---|---|---|---|
| healthchecker_server.py:319-320 | the view `def info()` replaces the `info` imported from `logging` at line 7, and it takes no argument; so `info(...)` at line 189 raises after line 186 has stored the record, and the job of line 190 is never added; the calls at lines 58, 212, 260 and 366 raise in the same way | the first registration of a name whose url and e-mail are valid and whose four parameters are in range | the registration answers 201 and schedules the job; `info(...)` only writes a log line | not executed | `HealthChecker.RegisterAsWrittenLeavesNoJob` | `HealthChecker.RegisterKeepsConsistent` |
