/** One synchronisation run of app.py (sync_job): read the configuration,
    query the database, write the export file, upload it; and the daily
    task that runs it on the configured days (scheduled_task). Every
    exception inside sync_job is caught and reported as one error line,
    chosen by the exception's class. */
module Pipeline {
  import opened Base
  import opened Text
  import opened Ini
  import opened Days
  import opened Export
  import opened Delivery

  /** What the outside world does during one run: the configuration
      read_config returns (or the exception it raises), the outcome of the
      database query, the day, the writing of the file and the network. */
  datatype SyncEnv = SyncEnv(config: Result<Config>, database: Step, today: Date,
                             write: Step, network: Network)

  /** The DATABASE options get_info reads, in the order it reads them:
      the four of the connection string, then the query. */
  const DatabaseOptions: seq<string> := ["SERVER", "DATABASE_NAME", "USER", "PASSWORD", "QUERY"]

  /** get_info: the DATABASE lookups in the order the connection string and
      the query are built, then the query itself. The result is the query
      that was run. */
  function GetInfo(cfg: Config, database: Step): (r: Result<string>)
    ensures r.Ok? <==> (forall o | o in DatabaseOptions :: Get(cfg, "DATABASE", o).Ok?) && database == Succeeds
    ensures r.Ok? ==> Get(cfg, "DATABASE", "QUERY") == Ok(r.value)
    ensures Lookups(cfg, "DATABASE", DatabaseOptions).Raised? ==>
              r == Raised(Lookups(cfg, "DATABASE", DatabaseOptions).exc)
    ensures (forall o | o in DatabaseOptions :: Get(cfg, "DATABASE", o).Ok?) && database.Fails? ==>
              r == Raised(database.exc)
    ensures "DATABASE" !in cfg ==> r == Raised(KeyError("DATABASE"))
  {
    var values :- Lookups(cfg, "DATABASE", DatabaseOptions);
    match database
    case Fails(e) => Raised(e)
    case Succeeds => Ok(values[4])
  }

  /** What a run did: the file it wrote (if it got that far), the requests
      it sent to the server, and the warning and error lines it logged. */
  datatype SyncRun = SyncRun(written: Option<string>, actions: seq<Action>, log: seq<Notice>)

  /** The steps of sync_job up to the first exception: the file written,
      the upload, and that exception. */
  datatype Attempt = Attempt(written: Option<string>, upload: Upload, failure: Option<Exc>)

  function Attempted(env: SyncEnv): (a: Attempt)
    ensures a.upload.actions != [] ==> a.written.Some?
    ensures env.config.Raised? ==> a == Attempt(None, Upload([], [], None), Some(env.config.exc))
    ensures env.config.Ok? && GetInfo(env.config.value, env.database).Raised? ==>
              a == Attempt(None, Upload([], [], None), Some(GetInfo(env.config.value, env.database).exc))
    ensures env.config.Ok? && GetInfo(env.config.value, env.database).Ok?
            && Generate(env.config.value, env.today, env.write).result.Raised? ==>
              a == Attempt(Generate(env.config.value, env.today, env.write).written, Upload([], [], None),
                           Some(Generate(env.config.value, env.today, env.write).result.exc))
    ensures env.config.Ok? && GetInfo(env.config.value, env.database).Ok?
            && Generate(env.config.value, env.today, env.write).result.Ok? ==>
              var file := Generate(env.config.value, env.today, env.write).result.value;
              a.written == Some(file) && a.upload == AppUpload(file, env.config.value, env.network)
              && a.failure == a.upload.raised
  {
    var none := Upload([], [], None);
    match env.config
    case Raised(e) => Attempt(None, none, Some(e))
    case Ok(cfg) =>
      match GetInfo(cfg, env.database)
      case Raised(e) => Attempt(None, none, Some(e))
      case Ok(_) =>
        var g := Generate(cfg, env.today, env.write);
        match g.result
        case Raised(e) => Attempt(g.written, none, Some(e))
        case Ok(file) =>
          var u := AppUpload(file, cfg, env.network);
          Attempt(g.written, u, u.raised)
  }

  /** The handlers of sync_job, tried in order: ftplib.error_perm, then
      ValueError, then any other exception. */
  function Classify(e: Exc): (ev: Event)
    ensures e.ErrorPerm? <==> ev == UserPathRejected
    ensures e.ValueError? <==> ev.ValueProblem?
    ensures e.ValueError? ==> ev == ValueProblem(e.reason)
    ensures !e.ErrorPerm? && !e.ValueError? <==> ev == ProcessFailed(e)
  {
    match e
    case ErrorPerm(_) => UserPathRejected
    case ValueError(reason) => ValueProblem(reason)
    case _ => ProcessFailed(e)
  }

  /** sync_job() of app.py: nothing is sent before the file is written,
      an unreadable configuration is one error line and nothing else, and
      an exception is reported by one error line after those the upload
      logged. */
  function SyncJob(env: SyncEnv): (run: SyncRun)
    ensures run.actions != [] ==> run.written.Some?
    ensures env.config.Raised? ==> run == SyncRun(None, [], [Notice(Error, Classify(env.config.exc))])
    ensures Attempted(env).failure.Some? ==>
              run.log != [] && run.log[|run.log| - 1] == Notice(Error, Classify(Attempted(env).failure.value))
    ensures Attempted(env).failure.None? ==> run.log == Attempted(env).upload.log
  {
    var a := Attempted(env);
    var handled := if a.failure.Some? then [Notice(Error, Classify(a.failure.value))] else [];
    SyncRun(a.written, a.upload.actions, a.upload.log + handled)
  }

  /** sync_job never raises: an exception that reaches its handlers
      becomes one last error line, after the lines the upload logged. */
  lemma SyncJobCatchesEverything(env: SyncEnv)
    ensures var a := Attempted(env);
            var run := SyncJob(env);
            run.actions == a.upload.actions
            && (a.failure.Some? ==>
                  |run.log| == |a.upload.log| + 1 && run.log[..|a.upload.log|] == a.upload.log
                  && run.log[|a.upload.log|] == Notice(Error, Classify(a.failure.value)))
            && (a.failure.None? ==> run.log == a.upload.log)
  {
    var a := Attempted(env);
    if a.failure.Some? {
      var handled := [Notice(Error, Classify(a.failure.value))];
      assert (a.upload.log + handled)[..|a.upload.log|] == a.upload.log;
    }
  }

  /** Nothing is sent to a server unless the export file was written. */
  lemma NoUploadWithoutFile(env: SyncEnv)
    requires SyncJob(env).actions != []
    ensures env.config.Ok? && GetInfo(env.config.value, env.database).Ok?
    ensures Generate(env.config.value, env.today, env.write).result.Ok?
    ensures SyncJob(env).written == Some(Generate(env.config.value, env.today, env.write).result.value)
  {
  }

  /** An unsupported export format is reported as a ValueError before any
      connection is made. */
  lemma UnsupportedFormatReported(env: SyncEnv)
    requires env.config.Ok? && GetInfo(env.config.value, env.database).Ok?
    requires Get(env.config.value, "CSVDATA", "file_name").Ok?
    requires Get(env.config.value, "CSVDATA", "FORMAT").Ok?
    requires Extension(Get(env.config.value, "CSVDATA", "FORMAT").value).Raised?
    ensures SyncJob(env) == SyncRun(None, [], [Notice(Error, ValueProblem(UnsupportedFormat))])
  {
  }

  /** A refused FTP login is an ftplib.error_perm, so sync_job reports it
      with the message meant for a rejected remote path. */
  lemma LoginRefusalReportedAsPathError(env: SyncEnv, reply: string)
    requires env.config.Ok? && GetInfo(env.config.value, env.database).Ok?
    requires Generate(env.config.value, env.today, env.write).result.Ok?
    requires AppSettings(env.config.value).Ok? && AppSettings(env.config.value).value.serverType == "FTP"
    requires env.network.ftpConnect.Succeeds? && env.network.ftpLogin == Fails(ErrorPerm(reply))
    ensures SyncJob(env).log == [Notice(Error, UserPathRejected)]
  {
  }

  /** What the daily task did: ran sync_job, found the day not scheduled,
      or let an exception out. */
  datatype TaskOutcome = Synced(run: SyncRun) | NotToday | Escaped(exc: Exc)

  /** scheduled_task(): read the configuration, check the day (outside any
      try), then run sync_job, which reads the configuration again.
      config is what the task's own read_config returned. */
  function ScheduledTask(config: Result<Config>, today: Weekday, env: SyncEnv): (t: TaskOutcome)
    ensures t.Synced? ==> t.run == SyncJob(env)
    ensures config.Raised? ==> t == Escaped(config.exc)
    ensures config.Ok? && t.Escaped? ==> t.exc.KeyError? || t.exc.ValueError?
    ensures t.Synced? <==> config.Ok? && Get(config.value, "TIMER", "DAYS").Ok?
                           && Eligible(Get(config.value, "TIMER", "DAYS").value, today) == Ok(true)
  {
    match config
    case Raised(e) => Escaped(e)
    case Ok(cfg) =>
      match Get(cfg, "TIMER", "DAYS")
      case Raised(e) => Escaped(e)
      case Ok(days) =>
        match Eligible(days, today)
        case Raised(e) => Escaped(e)
        case Ok(due) => if due then Synced(SyncJob(env)) else NotToday
  }

  /** sync_job runs exactly when the DAYS text covers today; a malformed
      DAYS text lets a ValueError out of the task. */
  lemma TaskGatedByDays(config: Result<Config>, today: Weekday, env: SyncEnv)
    ensures var t := ScheduledTask(config, today, env);
            (t.Synced? <==> config.Ok? && Get(config.value, "TIMER", "DAYS").Ok?
                            && WellFormed(Get(config.value, "TIMER", "DAYS").value)
                            && Covered(Get(config.value, "TIMER", "DAYS").value, today))
            && (t.Synced? ==> t.run == SyncJob(env))
            && (t == NotToday <==> config.Ok? && Get(config.value, "TIMER", "DAYS").Ok?
                                   && WellFormed(Get(config.value, "TIMER", "DAYS").value)
                                   && !Covered(Get(config.value, "TIMER", "DAYS").value, today))
            && ((config.Ok? && Get(config.value, "TIMER", "DAYS").Ok?
                 && !WellFormed(Get(config.value, "TIMER", "DAYS").value)) ==> t.Escaped? && t.exc.ValueError?)
  {
    if config.Ok? && Get(config.value, "TIMER", "DAYS").Ok? {
      EligibleIffCovered(Get(config.value, "TIMER", "DAYS").value, today);
    }
  }
}
