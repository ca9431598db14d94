/** check_config of app.py: every thirty seconds it re-reads the
    configuration and, when the file's modification time changed and the
    HOUR option names a new time, replaces the daily job; then it runs the
    jobs that are due. Its state is the globals last_mtime, last_hour and
    job_ref, plus the scheduling library's registry of live jobs. */
module Scheduling {
  import opened Base
  import opened Text
  import opened Ini
  import opened Days
  import opened Pipeline

  /** A job registered with the scheduling library. */
  type JobId = nat

  /** The globals and the registry: live jobs by id, with their daily time. */
  datatype SchedState = SchedState(lastMtime: int, lastHour: Option<string>, jobRef: Option<JobId>,
                                   jobs: map<JobId, string>, nextId: JobId)

  /** The state at start-up: last_mtime = 0, last_hour = job_ref = None. */
  const Initial := SchedState(0, None, None, map[], 0)

  /** What one call observes: the configuration read_config returned and
      os.path.getmtime of the file (either may raise). */
  datatype Observation = Observation(config: Result<Config>, mtime: Result<int>)

  /** The daily times the scheduling library's at() accepts: HH:MM or
      HH:MM:SS with two digits each, the hour at most 23, minutes and
      seconds at most 59. */
  function DailyTimeOk(t: string): (ok: bool)
    ensures ok ==> (|t| == 5 || |t| == 8) && t[2] == ':' && (|t| == 8 ==> t[5] == ':')
    ensures ok ==> AllDigits(t[..2]) && DigitsValue(t[..2]) <= 23
                   && AllDigits(t[3..5]) && DigitsValue(t[3..5]) <= 59
    ensures ok && |t| == 8 ==> AllDigits(t[6..]) && DigitsValue(t[6..]) <= 59
  {
    if (|t| == 5 || |t| == 8)
       && '0' <= t[0] <= '2' && IsDigit(t[1]) && t[2] == ':' && '0' <= t[3] <= '5' && IsDigit(t[4])
       && (|t| == 8 ==> t[5] == ':' && '0' <= t[6] <= '5' && IsDigit(t[7]))
    then
      TwoDigitsValue(t[3..5]);
      if |t| == 8 then TwoDigitsValue(t[6..]); DigitsValue(t[..2]) <= 23
      else DigitsValue(t[..2]) <= 23
    else false
  }

  /** How far a call gets before the job registry is touched. */
  datatype Change =
    | Failed(state: SchedState, exc: Exc)   // an exception reached the handler
    | Unchanged(state: SchedState)          // same file, or same hour
    | NewHour(state: SchedState, hour: string)

  /** The part of check_config's try block both versions share: read the
      file, compare modification times (recording the new one first), look
      the HOUR up and strip it, and compare it with last_hour. */
  function Observe(s: SchedState, obs: Observation): (c: Change)
    ensures c.state == s || (obs.mtime.Ok? && c.state == s.(lastMtime := obs.mtime.value))
    ensures c.NewHour? ==> Some(c.hour) != s.lastHour
  {
    match obs.config
    case Raised(e) => Failed(s, e)
    case Ok(cfg) =>
      match obs.mtime
      case Raised(e) => Failed(s, e)
      case Ok(m) =>
        if m == s.lastMtime then Unchanged(s)
        else
          var s1 := s.(lastMtime := m);
          match Get(cfg, "TIMER", "HOUR")
          case Raised(e) => Failed(s1, e)
          case Ok(text) =>
            var hour := Strip(text);
            if Some(hour) == s.lastHour then Unchanged(s1) else NewHour(s1, hour)
  }

  /** A registration of a daily job at hour. */
  function Register(s: SchedState, hour: string): SchedState
  {
    s.(jobRef := Some(s.nextId), jobs := s.jobs[s.nextId := hour], nextId := s.nextId + 1,
       lastHour := Some(hour))
  }

  /** The previous job, if any, taken off the registry. */
  function CancelCurrent(s: SchedState): SchedState
  {
    if s.jobRef.Some? then s.(jobs := s.jobs - {s.jobRef.value}) else s
  }

  /** The new state and the error line check_config logs, if any. */
  datatype Reconfig = Reconfig(state: SchedState, log: seq<Notice>)

  function Report(e: Exc): seq<Notice> { [Notice(Error, ConfigChangeFailed(e))] }

  /** The reconfiguration as written: the old job is cancelled before at()
      checks the new time, so a refused time leaves no job at all while
      last_hour still names the old one. */
  function ReconfigureAsWritten(s: SchedState, obs: Observation): (r: Reconfig)
    ensures |r.log| <= 1
    ensures r.state.lastMtime == s.lastMtime || (obs.mtime.Ok? && r.state.lastMtime == obs.mtime.value)
    ensures r.state.lastHour != s.lastHour ==>
              r.log == [] && r.state.lastHour.Some? && DailyTimeOk(r.state.lastHour.value)
              && r.state.jobRef == Some(s.nextId) && r.state.jobs == (CancelCurrent(s).jobs)[s.nextId := r.state.lastHour.value]
    ensures forall id | id in r.state.jobs :: id in s.jobs || id == s.nextId
    ensures r.log != [] ==> r.state.lastHour == s.lastHour && r.state.jobs.Keys <= s.jobs.Keys
  {
    ApplyAsWritten(Observe(s, obs))
  }

  /** What the try block as written does once the file has been observed. */
  function ApplyAsWritten(c: Change): Reconfig
  {
    match c
    case Failed(s1, e) => Reconfig(s1, Report(e))
    case Unchanged(s1) => Reconfig(s1, [])
    case NewHour(s1, hour) =>
      var s2 := CancelCurrent(s1);
      if DailyTimeOk(hour) then Reconfig(Register(s2, hour), [])
      else Reconfig(s2, Report(ScheduleValueError(hour)))
  }

  /** The reconfiguration with the new time checked before the old job is
      cancelled: a refused time keeps the current job. */
  function Reconfigure(s: SchedState, obs: Observation): (r: Reconfig)
    ensures |r.log| <= 1
    ensures r.state.lastMtime == s.lastMtime || (obs.mtime.Ok? && r.state.lastMtime == obs.mtime.value)
    ensures r.state.lastHour != s.lastHour ==>
              r.log == [] && r.state.lastHour.Some? && DailyTimeOk(r.state.lastHour.value)
              && r.state.jobRef == Some(s.nextId) && r.state.jobs == (CancelCurrent(s).jobs)[s.nextId := r.state.lastHour.value]
    ensures forall id | id in r.state.jobs :: id in s.jobs || id == s.nextId
    ensures r.log != [] ==> r.state.lastHour == s.lastHour && r.state.jobs == s.jobs && r.state.jobRef == s.jobRef
  {
    Apply(Observe(s, obs))
  }

  /** What the corrected try block does once the file has been observed. */
  function Apply(c: Change): Reconfig
  {
    match c
    case Failed(s1, e) => Reconfig(s1, Report(e))
    case Unchanged(s1) => Reconfig(s1, [])
    case NewHour(s1, hour) =>
      if DailyTimeOk(hour) then Reconfig(Register(CancelCurrent(s1), hour), [])
      else Reconfig(s1, Report(ScheduleValueError(hour)))
  }

  /** At most the job job_ref names is live, and every id is below the
      next one to hand out. */
  predicate Valid(s: SchedState) {
    (forall id | id in s.jobs :: s.jobRef == Some(id))
    && (s.jobRef.Some? ==> s.jobRef.value < s.nextId)
  }

  /** Every live job's time is one at() accepted. */
  predicate TimesAccepted(s: SchedState) {
    forall id | id in s.jobs :: DailyTimeOk(s.jobs[id])
  }

  /** A time was accepted once and its job is live. */
  predicate Armed(s: SchedState) {
    s.lastHour.Some? ==> s.jobRef.Some? && s.jobs == map[s.jobRef.value := s.lastHour.value]
  }

  lemma ValidAtMostOneJob(s: SchedState)
    requires Valid(s)
    ensures |s.jobs| <= 1
    ensures s.jobs != map[] ==> s.jobs.Keys == {s.jobRef.value}
  {
    if s.jobs != map[] {
      assert s.jobs.Keys <= {s.jobRef.value};
      var id :| id in s.jobs;
      assert s.jobs.Keys == {s.jobRef.value};
    }
  }

  /** Both versions keep at most one live job, with an accepted time. */
  lemma ReconfigureKeepsValid(s: SchedState, obs: Observation)
    requires Valid(s) && TimesAccepted(s)
    ensures Valid(ReconfigureAsWritten(s, obs).state) && TimesAccepted(ReconfigureAsWritten(s, obs).state)
    ensures Valid(Reconfigure(s, obs).state) && TimesAccepted(Reconfigure(s, obs).state)
  {
    match Observe(s, obs)
    case Failed(_, _) =>
    case Unchanged(_) =>
    case NewHour(s1, hour) =>
      var s2 := CancelCurrent(s1);
      assert s2.jobs == map[];
  }

  /** The fixed version also keeps the accepted time armed. */
  lemma ReconfigureKeepsArmed(s: SchedState, obs: Observation)
    requires Valid(s) && Armed(s)
    ensures Armed(Reconfigure(s, obs).state)
  {
    match Observe(s, obs)
    case Failed(_, _) =>
    case Unchanged(_) =>
    case NewHour(s1, hour) =>
      if DailyTimeOk(hour) {
        assert CancelCurrent(s1).jobs == map[];
      }
  }

  /** An unchanged modification time changes nothing. */
  lemma SameMtimeNoOp(s: SchedState, cfg: Config)
    ensures ReconfigureAsWritten(s, Observation(Ok(cfg), Ok(s.lastMtime))) == Reconfig(s, [])
    ensures Reconfigure(s, Observation(Ok(cfg), Ok(s.lastMtime))) == Reconfig(s, [])
  {
  }

  /** A changed file whose HOUR is the current time only records the new
      modification time. */
  lemma SameHourOnlyMtime(s: SchedState, cfg: Config, m: int)
    requires m != s.lastMtime
    requires Get(cfg, "TIMER", "HOUR").Ok? && Some(Strip(Get(cfg, "TIMER", "HOUR").value)) == s.lastHour
    ensures ReconfigureAsWritten(s, Observation(Ok(cfg), Ok(m))) == Reconfig(s.(lastMtime := m), [])
    ensures Reconfigure(s, Observation(Ok(cfg), Ok(m))) == Reconfig(s.(lastMtime := m), [])
  {
  }

  /** A new accepted time cancels the previous job and registers exactly
      one new job. */
  lemma NewHourRearms(s: SchedState, cfg: Config, m: int)
    requires Valid(s) && m != s.lastMtime && Get(cfg, "TIMER", "HOUR").Ok?
    requires var hour := Strip(Get(cfg, "TIMER", "HOUR").value);
             Some(hour) != s.lastHour && DailyTimeOk(hour)
    ensures var hour := Strip(Get(cfg, "TIMER", "HOUR").value);
            var r := ReconfigureAsWritten(s, Observation(Ok(cfg), Ok(m)));
            r == Reconfigure(s, Observation(Ok(cfg), Ok(m))) && r.log == []
            && r.state == SchedState(m, Some(hour), Some(s.nextId), map[s.nextId := hour], s.nextId + 1)
  {
    assert CancelCurrent(s.(lastMtime := m)).jobs == map[];
  }

  /** As written, a refused time leaves no live job, and last_hour and
      job_ref keep naming the cancelled one. */
  lemma RefusedHourDropsJob(s: SchedState, cfg: Config, m: int)
    requires Valid(s) && m != s.lastMtime && Get(cfg, "TIMER", "HOUR").Ok?
    requires var hour := Strip(Get(cfg, "TIMER", "HOUR").value);
             Some(hour) != s.lastHour && !DailyTimeOk(hour)
    ensures var hour := Strip(Get(cfg, "TIMER", "HOUR").value);
            var r := ReconfigureAsWritten(s, Observation(Ok(cfg), Ok(m)));
            r.state == s.(lastMtime := m, jobs := map[])
            && r.log == [Notice(Error, ConfigChangeFailed(ScheduleValueError(hour)))]
  {
    assert CancelCurrent(s.(lastMtime := m)).jobs == map[];
  }

  /** The fixed version refuses the time and keeps the current job. */
  lemma RefusedHourKeepsJob(s: SchedState, cfg: Config, m: int)
    requires m != s.lastMtime && Get(cfg, "TIMER", "HOUR").Ok?
    requires var hour := Strip(Get(cfg, "TIMER", "HOUR").value);
             Some(hour) != s.lastHour && !DailyTimeOk(hour)
    ensures var hour := Strip(Get(cfg, "TIMER", "HOUR").value);
            Reconfigure(s, Observation(Ok(cfg), Ok(m)))
            == Reconfig(s.(lastMtime := m), [Notice(Error, ConfigChangeFailed(ScheduleValueError(hour)))])
  {
  }

  /** Seeing the same file twice is seeing it once. */
  lemma ReconfigureIdempotent(s: SchedState, obs: Observation)
    ensures var once := ReconfigureAsWritten(s, obs).state;
            obs.config.Ok? && obs.mtime.Ok? ==> ReconfigureAsWritten(once, obs) == Reconfig(once, [])
    ensures var once := Reconfigure(s, obs).state;
            obs.config.Ok? && obs.mtime.Ok? ==> Reconfigure(once, obs) == Reconfig(once, [])
  {
  }

  /** A configuration whose only option is TIMER's HOUR. */
  function HourConfig(hour: string): Config { map["TIMER" := map["hour" := hour]] }

  lemma HourConfigGet(hour: string)
    ensures Get(HourConfig(hour), "TIMER", "HOUR") == Ok(hour)
  {
    assert OptionKey("HOUR") == "hour";
  }

  lemma ExampleTimes()
    ensures Strip("17:00") == "17:00" && DailyTimeOk("17:00")
    ensures Strip("abc") == "abc" && !DailyTimeOk("abc")
  {
    StripUnchanged("17:00");
    StripUnchanged("abc");
    assert "17:00"[..2] == "17";
    assert DigitsValue("17") == 17 by {
      assert "17"[..1] == "1";
      assert DigitsValue("1") == 1 by { assert "1"[..0] == ""; }
    }
  }

  /** The three files: HOUR "17:00", then a mistyped "abc", then "17:00"
      again. */
  function Edits(): seq<Observation>
  {
    [Observation(Ok(HourConfig("17:00")), Ok(1)),
     Observation(Ok(HourConfig("abc")), Ok(2)),
     Observation(Ok(HourConfig("17:00")), Ok(3))]
  }

  /** As written, reverting a mistyped HOUR to the previous time leaves the
      program with no daily job at all. */
  lemma RevertedHourNeverRearms()
    ensures var s1 := ReconfigureAsWritten(Initial, Edits()[0]).state;
            var s2 := ReconfigureAsWritten(s1, Edits()[1]).state;
            var s3 := ReconfigureAsWritten(s2, Edits()[2]).state;
            s1.jobs == map[0 := "17:00"] && s3.jobs == map[] && s3.lastHour == Some("17:00")
  {
    ExampleTimes();
    HourConfigGet("17:00");
    HourConfigGet("abc");
    var s1 := ReconfigureAsWritten(Initial, Edits()[0]).state;
    assert s1 == SchedState(1, Some("17:00"), Some(0), map[0 := "17:00"], 1);
    var s2 := ReconfigureAsWritten(s1, Edits()[1]).state;
    assert s2 == SchedState(2, Some("17:00"), Some(0), map[], 1);
  }

  /** With the fix, the same edits keep the 17:00 job throughout. */
  lemma RevertedHourStaysArmed()
    ensures var s1 := Reconfigure(Initial, Edits()[0]).state;
            var s2 := Reconfigure(s1, Edits()[1]).state;
            var s3 := Reconfigure(s2, Edits()[2]).state;
            s1.jobs == map[0 := "17:00"] && s2.jobs == map[0 := "17:00"] && s3.jobs == map[0 := "17:00"]
  {
    ExampleTimes();
    HourConfigGet("17:00");
    HourConfigGet("abc");
    var s1 := Reconfigure(Initial, Edits()[0]).state;
    assert s1 == SchedState(1, Some("17:00"), Some(0), map[0 := "17:00"], 1);
    var s2 := Reconfigure(s1, Edits()[1]).state;
    assert s2 == SchedState(2, Some("17:00"), Some(0), map[0 := "17:00"], 1);
  }

  /** What the scheduled task is given when it runs. */
  datatype TaskEnv = TaskEnv(config: Result<Config>, today: Weekday, sync: SyncEnv)

  /** How a call of check_config ended: it re-entered itself for thirty
      seconds later, having run the task or not, or an exception escaped
      it, and then scheduler.run() in main, which does not catch it, so
      the program ends with a traceback. */
  datatype TickOutcome = Rescheduled(ran: Option<TaskOutcome>, log: seq<Notice>) | Crashed(exc: Exc)

  /** schedule.run_pending() as written, outside the try block: an
      exception out of the task ends check_config before it re-enters
      itself. */
  function RunPendingAsWritten(live: bool, due: bool, env: TaskEnv): (r: TickOutcome)
    ensures r.Crashed? <==> live && due && ScheduledTask(env.config, env.today, env.sync).Escaped?
    ensures r.Crashed? ==> r.exc == ScheduledTask(env.config, env.today, env.sync).exc
    ensures r.Rescheduled? ==> r.log == [] && (r.ran.Some? <==> live && due)
  {
    if live && due then
      match ScheduledTask(env.config, env.today, env.sync)
      case Escaped(e) => Crashed(e)
      case t => Rescheduled(Some(t), [])
    else Rescheduled(None, [])
  }

  /** run_pending inside the try block: an exception out of the task is
      logged like any other and check_config re-enters itself. */
  function RunPending(live: bool, due: bool, env: TaskEnv): (r: TickOutcome)
    ensures r.Rescheduled? && (r.ran.Some? <==> live && due)
    ensures r.ran.Some? ==> r.ran.value == ScheduledTask(env.config, env.today, env.sync)
    ensures r.log != [] <==> live && due && ScheduledTask(env.config, env.today, env.sync).Escaped?
    ensures r.log != [] ==> r.log == Report(ScheduledTask(env.config, env.today, env.sync).exc)
  {
    if live && due then
      match ScheduledTask(env.config, env.today, env.sync)
      case Escaped(e) => Rescheduled(Some(Escaped(e)), Report(e))
      case t => Rescheduled(Some(t), [])
    else Rescheduled(None, [])
  }

  /** As written, a malformed DAYS text stops the program at the first due
      time. */
  lemma MalformedDaysStopsScheduler(env: TaskEnv)
    requires env.config.Ok? && Get(env.config.value, "TIMER", "DAYS").Ok?
    requires !WellFormed(Get(env.config.value, "TIMER", "DAYS").value)
    ensures RunPendingAsWritten(true, true, env).Crashed?
    ensures RunPendingAsWritten(true, true, env).exc.ValueError?
  {
    TaskGatedByDays(env.config, env.today, env.sync);
  }

  /** With the fix, check_config always re-enters itself, and the task's
      outcome is the same otherwise. */
  lemma RunPendingNeverCrashes(live: bool, due: bool, env: TaskEnv)
    ensures RunPending(live, due, env).Rescheduled?
    ensures RunPendingAsWritten(live, due, env).Rescheduled? ==>
              RunPending(live, due, env) == RunPendingAsWritten(live, due, env)
    ensures RunPending(live, due, env).ran.Some? <==> live && due
  {
  }

  /** The globals of app.py and the scheduling library's registry. */
  class Scheduler {
    var lastMtime: int
    var lastHour: Option<string>
    var jobRef: Option<JobId>
    var jobs: map<JobId, string>
    var nextId: JobId

    function State(): SchedState
      reads this
    {
      SchedState(lastMtime, lastHour, jobRef, jobs, nextId)
    }

    constructor()
      ensures State() == Initial
    {
      lastMtime := 0;
      lastHour := None;
      jobRef := None;
      jobs := map[];
      nextId := 0;
    }

    /** The part of the try block both versions share, one assignment at
        a time: the exception that reaches the handler, or the new hour. */
    method ObserveInPlace(obs: Observation) returns (c: Change)
      modifies this
      ensures c == Observe(old(State()), obs) && State() == c.state
    {
      if obs.config.Raised? {
        return Failed(State(), obs.config.exc);
      }
      if obs.mtime.Raised? {
        return Failed(State(), obs.mtime.exc);
      }
      if obs.mtime.value == lastMtime {
        return Unchanged(State());
      }
      var previous := lastHour;
      lastMtime := obs.mtime.value;
      var text := Get(obs.config.value, "TIMER", "HOUR");
      if text.Raised? {
        return Failed(State(), text.exc);
      }
      var hour := Strip(text.value);
      if Some(hour) == previous {
        return Unchanged(State());
      }
      return NewHour(State(), hour);
    }

    /** The try block of check_config as written: cancel the current job,
        then ask at() for the new one. */
    method ReconfigureInPlaceAsWritten(obs: Observation) returns (caught: Option<Exc>)
      modifies this
      ensures State() == ReconfigureAsWritten(old(State()), obs).state
      ensures ReconfigureAsWritten(old(State()), obs).log == (if caught.Some? then Report(caught.value) else [])
    {
      var c := ObserveInPlace(obs);
      caught := if c.Failed? then Some(c.exc) else None;
      if c.NewHour? {
        var hour := c.hour;
        if jobRef.Some? {
          jobs := jobs - {jobRef.value};
        }
        assert State() == CancelCurrent(c.state);
        if DailyTimeOk(hour) {
          jobRef := Some(nextId);
          jobs := jobs[nextId := hour];
          nextId := nextId + 1;
          lastHour := Some(hour);
          assert State() == Register(CancelCurrent(c.state), hour);
        } else {
          caught := Some(ScheduleValueError(hour));
        }
      }
    }

    /** The try block with the time checked before the old job goes. */
    method ReconfigureInPlace(obs: Observation) returns (caught: Option<Exc>)
      modifies this
      ensures State() == Reconfigure(old(State()), obs).state
      ensures Reconfigure(old(State()), obs).log == (if caught.Some? then Report(caught.value) else [])
    {
      var c := ObserveInPlace(obs);
      caught := if c.Failed? then Some(c.exc) else None;
      if c.NewHour? {
        var hour := c.hour;
        if DailyTimeOk(hour) {
          if jobRef.Some? {
            jobs := jobs - {jobRef.value};
          }
          assert State() == CancelCurrent(c.state);
          jobRef := Some(nextId);
          jobs := jobs[nextId := hour];
          nextId := nextId + 1;
          lastHour := Some(hour);
          assert State() == Register(CancelCurrent(c.state), hour);
        } else {
          caught := Some(ScheduleValueError(hour));
        }
      }
    }

    /** One call of check_config as written: reconfigure, log a caught
        exception, then run the due job outside the try block. */
    method CheckConfigAsWritten(obs: Observation, due: bool, env: TaskEnv)
      returns (log: seq<Notice>, outcome: TickOutcome)
      modifies this
      ensures State() == ReconfigureAsWritten(old(State()), obs).state
      ensures log == ReconfigureAsWritten(old(State()), obs).log
      ensures outcome == RunPendingAsWritten(jobs != map[], due, env)
    {
      var caught := ReconfigureInPlaceAsWritten(obs);
      log := if caught.Some? then Report(caught.value) else [];
      outcome := RunPendingAsWritten(jobs != map[], due, env);
    }

    /** One call of check_config with both fixes. */
    method CheckConfig(obs: Observation, due: bool, env: TaskEnv)
      returns (log: seq<Notice>, outcome: TickOutcome)
      modifies this
      ensures State() == Reconfigure(old(State()), obs).state
      ensures log == Reconfigure(old(State()), obs).log
      ensures outcome == RunPending(jobs != map[], due, env) && outcome.Rescheduled?
    {
      var caught := ReconfigureInPlace(obs);
      log := if caught.Some? then Report(caught.value) else [];
      outcome := RunPending(jobs != map[], due, env);
      RunPendingNeverCrashes(jobs != map[], due, env);
    }
  }
}
