/** conector.py, the earlier version of the program: the same export with
    other option names (FICHERO_NOMBRE, FORMATO, TIPO_SERVER), an upload
    without a remote directory, a sync_job that reports every exception
    alike, and a main loop that registers a daily job on every pass. Its
    day check, valid, is is_valid_day of app.py line for line and is
    modelled by Days.IsValidDay. */
module Conector {
  import opened Base
  import opened Text
  import opened Ini
  import opened Days
  import opened Export
  import opened Delivery
  import opened Pipeline
  import opened Scheduling

  /** The FTP section as conector.py's upload reads it. */
  datatype Server = Server(serverType: string, host: string, user: string, password: string, port: nat)

  /** The FTP options conector.py's upload reads, in the order it reads
      them. */
  const ServerOptions: seq<string> := ["TIPO_SERVER", "HOST_FTP", "USER_FTP", "PASSWORD_FTP", "PORT_FTP"]

  /** The settings are read exactly when every option is there and the
      port is a number; the first missing option, or then the port,
      decides the exception. */
  function ServerSettings(cfg: Config): (r: Result<Server>)
    ensures r.Ok? <==> (forall o | o in ServerOptions :: Get(cfg, "FTP", o).Ok?)
                       && ParseInt(Get(cfg, "FTP", "PORT_FTP").value).Some?
    ensures r.Ok? ==> r.value == Server(Upper(Get(cfg, "FTP", "TIPO_SERVER").value),
                                        Get(cfg, "FTP", "HOST_FTP").value,
                                        Get(cfg, "FTP", "USER_FTP").value,
                                        Get(cfg, "FTP", "PASSWORD_FTP").value,
                                        ParseInt(Get(cfg, "FTP", "PORT_FTP").value).value)
    ensures Lookups(cfg, "FTP", ServerOptions).Raised? ==> r == Raised(Lookups(cfg, "FTP", ServerOptions).exc)
    ensures (forall o | o in ServerOptions :: Get(cfg, "FTP", o).Ok?)
            && ParseInt(Get(cfg, "FTP", "PORT_FTP").value).None? ==>
              r == Raised(ValueError(IntLiteral(Get(cfg, "FTP", "PORT_FTP").value)))
    ensures r.Raised? ==> r.exc.KeyError? || r.exc.ValueError?
    ensures "FTP" !in cfg ==> r == Raised(KeyError("FTP"))
  {
    var v :- Lookups(cfg, "FTP", ServerOptions);
    var port :- Int(v[4]);
    Ok(Server(Upper(v[0]), v[1], v[2], v[3], port))
  }

  /** The SFTP branch: connect, put the file to "./" + file, and close
      both sessions only when the put succeeded. */
  function SftpSend(file: string, s: Server, net: Network): (u: Upload)
    ensures u.actions != [] && u.actions[0] == SftpConnect(s.host, s.port, s.user)
    ensures u.raised.None? <==> net.sftpConnect.Succeeds? && net.put.Succeeds?
    ensures u.raised.None? ==> |u.actions| == 4 && u.actions[2..] == [SftpClose, TransportClose]
    ensures u.log == []
  {
    var connect := SftpConnect(s.host, s.port, s.user);
    if net.sftpConnect.Fails? then Upload([connect], [], Some(net.sftpConnect.exc))
    else if net.put.Fails? then Upload([connect, SftpPut(file, "./" + file)], [], Some(net.put.exc))
    else Upload([connect, SftpPut(file, "./" + file), SftpClose, TransportClose], [], None)
  }

  /** The FTP branch: connect, log in, read the file and store it under
      the name it was given; the with block quits once connected. */
  function FtpSend(file: string, s: Server, net: Network): (u: Upload)
    ensures u.actions != [] && u.actions[0] == FtpConnect(s.host, s.port)
    ensures u.raised.None? <==> net.ftpConnect.Succeeds? && net.ftpLogin.Succeeds?
                                && net.readLocal.Succeeds? && net.ftpStor.Succeeds?
    ensures net.ftpConnect.Succeeds? ==> |u.actions| >= 3 && u.actions[1] == FtpLogin(s.user)
                                         && u.actions[|u.actions| - 1] == FtpQuit
    ensures u.log == []
  {
    var connect := FtpConnect(s.host, s.port);
    if net.ftpConnect.Fails? then Upload([connect], [], Some(net.ftpConnect.exc))
    else
      var session := [connect, FtpLogin(s.user)];
      if net.ftpLogin.Fails? then Upload(session + [FtpQuit], [], Some(net.ftpLogin.exc))
      else if net.readLocal.Fails? then Upload(session + [FtpQuit], [], Some(net.readLocal.exc))
      else
        Upload(session + [FtpStor(file), FtpQuit], [], if net.ftpStor.Fails? then Some(net.ftpStor.exc) else None)
  }

  /** upload(file, config) of conector.py. */
  function ConectorUpload(file: string, cfg: Config, net: Network): (u: Upload)
    ensures ServerSettings(cfg).Raised? ==> u == Upload([], [], Some(ServerSettings(cfg).exc))
    ensures ServerSettings(cfg).Ok? && ServerSettings(cfg).value.serverType !in {"SFTP", "FTP"} ==>
              u == Upload([], [], Some(ValueError(UnsupportedServerType)))
    ensures u.actions != [] ==> ServerSettings(cfg).Ok? && ServerSettings(cfg).value.serverType in {"SFTP", "FTP"}
    ensures ServerSettings(cfg).Ok? && ServerSettings(cfg).value.serverType == "SFTP" ==>
              u == SftpSend(file, ServerSettings(cfg).value, net)
    ensures ServerSettings(cfg).Ok? && ServerSettings(cfg).value.serverType == "FTP" ==>
              u == FtpSend(file, ServerSettings(cfg).value, net)
  {
    match ServerSettings(cfg)
    case Raised(e) => Upload([], [], Some(e))
    case Ok(s) =>
      if s.serverType == "SFTP" then SftpSend(file, s, net)
      else if s.serverType == "FTP" then FtpSend(file, s, net)
      else Upload([], [], Some(ValueError(UnsupportedServerType)))
  }

  /** An unknown server type raises ValueError before any connection. */
  lemma UnknownServerTypeNoConnection(file: string, cfg: Config, net: Network)
    requires ServerSettings(cfg).Ok? && ServerSettings(cfg).value.serverType !in {"SFTP", "FTP"}
    ensures ConectorUpload(file, cfg, net) == Upload([], [], Some(ValueError(UnsupportedServerType)))
  {
  }

  /** The server type is matched without regard to letter case. */
  lemma ConectorServerTypeIgnoresCase(file: string, cfg: Config, net: Network)
    requires "FTP" in cfg && "tipo_server" in cfg["FTP"]
    ensures var section := cfg["FTP"];
            ConectorUpload(file, cfg["FTP" := section["tipo_server" := Upper(section["tipo_server"])]], net)
            == ConectorUpload(file, cfg, net)
  {
    var section := cfg["FTP"];
    var value := Upper(section["tipo_server"]);
    var cfg' := cfg["FTP" := section["tipo_server" := value]];
    UpperIdempotent(section["tipo_server"]);
    assert OptionKey("TIPO_SERVER") == "tipo_server";
    GetAfterSet(cfg, "FTP", "tipo_server", value, "TIPO_SERVER");
    assert OptionKey("HOST_FTP")[0] != 't';
    GetAfterSet(cfg, "FTP", "tipo_server", value, "HOST_FTP");
    assert OptionKey("USER_FTP")[0] != 't';
    GetAfterSet(cfg, "FTP", "tipo_server", value, "USER_FTP");
    assert OptionKey("PASSWORD_FTP")[0] != 't';
    GetAfterSet(cfg, "FTP", "tipo_server", value, "PASSWORD_FTP");
    assert OptionKey("PORT_FTP")[0] != 't';
    GetAfterSet(cfg, "FTP", "tipo_server", value, "PORT_FTP");
    ServerSettingsAgree(cfg, cfg');
  }

  /** Two FTP sections that agree on every option upload reads, up to the
      letter case of TIPO_SERVER, give the same settings. */
  lemma ServerSettingsAgree(cfg: Config, cfg': Config)
    requires Get(cfg', "FTP", "TIPO_SERVER").Ok? == Get(cfg, "FTP", "TIPO_SERVER").Ok?
    requires Get(cfg, "FTP", "TIPO_SERVER").Raised? ==> Get(cfg', "FTP", "TIPO_SERVER") == Get(cfg, "FTP", "TIPO_SERVER")
    requires Get(cfg, "FTP", "TIPO_SERVER").Ok? ==>
               Upper(Get(cfg', "FTP", "TIPO_SERVER").value) == Upper(Get(cfg, "FTP", "TIPO_SERVER").value)
    requires forall o | o in ServerOptions[1..] :: Get(cfg', "FTP", o) == Get(cfg, "FTP", o)
    ensures ServerSettings(cfg') == ServerSettings(cfg)
  {
    var options := ServerOptions;
    LookupsAgreeAfterFirst(cfg, cfg', "FTP", options);
    if Lookups(cfg, "FTP", options).Ok? {
      assert Get(cfg, "FTP", options[0]) == Ok(Lookups(cfg, "FTP", options).value[0]);
      assert Get(cfg', "FTP", options[0]) == Ok(Lookups(cfg', "FTP", options).value[0]);
      ServerFromValues(cfg, cfg');
    }
  }

  /** The settings depend on the looked-up values only, and on TIPO_SERVER
      only through its upper-case form. */
  lemma ServerFromValues(cfg: Config, cfg': Config)
    requires Lookups(cfg, "FTP", ServerOptions).Ok? && Lookups(cfg', "FTP", ServerOptions).Ok?
    requires Lookups(cfg', "FTP", ServerOptions).value[1..] == Lookups(cfg, "FTP", ServerOptions).value[1..]
    requires Upper(Lookups(cfg', "FTP", ServerOptions).value[0]) == Upper(Lookups(cfg, "FTP", ServerOptions).value[0])
    ensures ServerSettings(cfg') == ServerSettings(cfg)
  {
    var v, v' := Lookups(cfg, "FTP", ServerOptions).value, Lookups(cfg', "FTP", ServerOptions).value;
    assert v'[4] == v[4] && v'[1] == v[1] && v'[2] == v[2] && v'[3] == v[3];
  }

  /** SFTP puts the file to "./" + file; a failed put raises and leaves
      both sessions open. */
  lemma SftpSendTarget(file: string, s: Server, net: Network)
    requires net.sftpConnect.Succeeds?
    ensures SftpSend(file, s, net).actions[1] == SftpPut(file, "./" + file)
    ensures net.put.Fails? ==> SftpClose !in SftpSend(file, s, net).actions
                               && TransportClose !in SftpSend(file, s, net).actions
                               && SftpSend(file, s, net).raised == Some(net.put.exc)
    ensures net.put.Succeeds? ==> SftpSend(file, s, net).raised.None?
  {
  }

  /** FTP stores the file under exactly the name it was given. */
  lemma FtpSendStoresName(file: string, s: Server, net: Network)
    ensures var u := FtpSend(file, s, net);
            (FtpStor(file) in u.actions <==>
               net.ftpConnect.Succeeds? && net.ftpLogin.Succeeds? && net.readLocal.Succeeds?)
            && (forall a | a in u.actions && a.FtpStor? :: a.remote == file)
  {
    var u := FtpSend(file, s, net);
    var session := [FtpConnect(s.host, s.port), FtpLogin(s.user)];
    if net.ftpConnect.Fails? {
      assert u.actions == [FtpConnect(s.host, s.port)];
    } else if net.ftpLogin.Fails? || net.readLocal.Fails? {
      assert u.actions == session + [FtpQuit];
    } else {
      assert u.actions == session + [FtpStor(file), FtpQuit];
    }
  }

  /** The steps of conector.py's sync_job up to the first exception. */
  function ConectorAttempted(env: SyncEnv): (a: Attempt)
    ensures a.upload.actions != [] ==> a.written.Some?
    ensures env.config.Raised? ==> a == Attempt(None, Upload([], [], None), Some(env.config.exc))
    ensures env.config.Ok? && GetInfo(env.config.value, env.database).Raised? ==>
              a == Attempt(None, Upload([], [], None), Some(GetInfo(env.config.value, env.database).exc))
    ensures env.config.Ok? && GetInfo(env.config.value, env.database).Ok?
            && GenerateWith(env.config.value, "FICHERO_NOMBRE", "FORMATO", env.today, env.write).result.Raised? ==>
              var g := GenerateWith(env.config.value, "FICHERO_NOMBRE", "FORMATO", env.today, env.write);
              a == Attempt(g.written, Upload([], [], None), Some(g.result.exc))
    ensures env.config.Ok? && GetInfo(env.config.value, env.database).Ok?
            && GenerateWith(env.config.value, "FICHERO_NOMBRE", "FORMATO", env.today, env.write).result.Ok? ==>
              var file := GenerateWith(env.config.value, "FICHERO_NOMBRE", "FORMATO", env.today, env.write).result.value;
              a.written == Some(file) && a.upload == ConectorUpload(file, env.config.value, env.network)
              && a.failure == a.upload.raised
  {
    var none := Upload([], [], None);
    match env.config
    case Raised(e) => Attempt(None, none, Some(e))
    case Ok(cfg) =>
      match GetInfo(cfg, env.database)
      case Raised(e) => Attempt(None, none, Some(e))
      case Ok(_) =>
        var g := GenerateWith(cfg, "FICHERO_NOMBRE", "FORMATO", env.today, env.write);
        match g.result
        case Raised(e) => Attempt(g.written, none, Some(e))
        case Ok(file) =>
          var u := ConectorUpload(file, cfg, env.network);
          Attempt(g.written, u, u.raised)
  }

  /** sync_job of conector.py: nothing is sent before the file is written,
      and at most one line is logged, an error naming the exception. */
  function ConectorSyncJob(env: SyncEnv): (run: SyncRun)
    ensures run.actions != [] ==> run.written.Some?
    ensures env.config.Raised? ==> run == SyncRun(None, [], [Notice(Error, ProcessFailed(env.config.exc))])
    ensures |run.log| <= 1 && forall n | n in run.log :: n.level == Error && n.event.ProcessFailed?
  {
    var a := ConectorAttempted(env);
    var handled := if a.failure.Some? then [Notice(Error, ProcessFailed(a.failure.value))] else [];
    SyncRun(a.written, a.upload.actions, handled)
  }

  /** sync_job catches every exception and logs it as one error line,
      whatever its class; a run without exception logs nothing. */
  lemma ConectorSyncJobCatchesEverything(env: SyncEnv)
    ensures var a := ConectorAttempted(env);
            var run := ConectorSyncJob(env);
            (a.failure.Some? ==> run.log == [Notice(Error, ProcessFailed(a.failure.value))])
            && (a.failure.None? <==> run.log == [])
            && run.actions == a.upload.actions
  {
  }

  /** The state of main's loop: the daily times of the jobs registered so
      far, oldest first, and the last DAYS text read, which every job's
      day check reads when it runs. */
  datatype LoopState = LoopState(jobs: seq<string>, days: string)

  /** How one pass of the loop ended: the new state and the number of
      sync_job runs, or the exception that ended main. */
  datatype PassOutcome = Continued(state: LoopState, syncs: nat) | Stopped(exc: Exc)

  /** The number of registered jobs whose time is among due. A job is
      due in a pass when its time has come since it was registered or
      last ran; a job registered at or after its time first runs the next
      day, so a job is never due in the pass that registers it. */
  function DueCount(jobs: seq<string>, due: set<string>): (n: nat)
    ensures n <= |jobs|
    ensures n == 0 <==> forall i | 0 <= i < |jobs| :: jobs[i] !in due
    ensures n == |jobs| <==> forall i | 0 <= i < |jobs| :: jobs[i] in due
  {
    if jobs == [] then 0
    else
      var init := jobs[..|jobs| - 1];
      assert forall i | 0 <= i < |init| :: init[i] == jobs[i];
      DueCount(init, due) + (if jobs[|jobs| - 1] in due then 1 else 0)
  }

  /** The run_pending part of a pass: each due job checks the day with
      the current DAYS text; a ValueError from the check ends main. */
  function RunDue(st: LoopState, due: set<string>, today: Weekday): (r: PassOutcome)
    ensures (forall i | 0 <= i < |st.jobs| :: st.jobs[i] !in due) ==> r == Continued(st, 0)
    ensures r.Continued? ==> r.state == st && r.syncs <= |st.jobs|
    ensures r.Continued? && r.syncs > 0 ==>
              Eligible(st.days, today) == Ok(true) && r.syncs == DueCount(st.jobs, due)
    ensures DueCount(st.jobs, due) > 0 && Eligible(st.days, today) == Ok(true) ==>
              r == Continued(st, DueCount(st.jobs, due))
    ensures Eligible(st.days, today) == Ok(false) ==> r == Continued(st, 0)
    ensures r.Stopped? <==> DueCount(st.jobs, due) > 0 && Eligible(st.days, today).Raised?
    ensures r.Stopped? ==> r.exc.ValueError?
  {
    var n := DueCount(st.jobs, due);
    if n == 0 then Continued(st, 0)
    else
      match Eligible(st.days, today)
      case Raised(e) => Stopped(e)
      case Ok(ok) => Continued(st, if ok then n else 0)
  }

  /** The TIMER lookups of a pass, in order: HOUR (stripped), DAYS, then
      at() checking the time. */
  function Timer(config: Result<Config>): (r: Result<(string, string)>)
    ensures r.Ok? <==> config.Ok? && Get(config.value, "TIMER", "HOUR").Ok? && Get(config.value, "TIMER", "DAYS").Ok?
                       && DailyTimeOk(Strip(Get(config.value, "TIMER", "HOUR").value))
    ensures r.Ok? ==> r.value == (Strip(Get(config.value, "TIMER", "HOUR").value), Get(config.value, "TIMER", "DAYS").value)
    ensures r.Ok? ==> DailyTimeOk(r.value.0)
    ensures config.Raised? ==> r == Raised(config.exc)
    ensures config.Ok? && Get(config.value, "TIMER", "HOUR").Raised? ==> r == Raised(Get(config.value, "TIMER", "HOUR").exc)
    ensures config.Ok? && Get(config.value, "TIMER", "HOUR").Ok? && Get(config.value, "TIMER", "DAYS").Raised? ==>
              r == Raised(Get(config.value, "TIMER", "DAYS").exc)
    ensures config.Ok? && Get(config.value, "TIMER", "HOUR").Ok? && Get(config.value, "TIMER", "DAYS").Ok?
            && !DailyTimeOk(Strip(Get(config.value, "TIMER", "HOUR").value)) ==>
              r == Raised(ScheduleValueError(Strip(Get(config.value, "TIMER", "HOUR").value)))
  {
    var cfg :- config;
    var text :- Get(cfg, "TIMER", "HOUR");
    var days :- Get(cfg, "TIMER", "DAYS");
    var hour := Strip(text);
    if DailyTimeOk(hour) then Ok((hour, days)) else Raised(ScheduleValueError(hour))
  }

  /** One pass of main's loop as written: read the TIMER section, register
      one more job at HOUR, and run the earlier jobs whose time, in due,
      has come. */
  function PassAsWritten(st: LoopState, config: Result<Config>, due: set<string>, today: Weekday): (r: PassOutcome)
    ensures Timer(config).Raised? ==> r == Stopped(Timer(config).exc)
    ensures r.Continued? ==>
              Timer(config).Ok? && r.state == LoopState(st.jobs + [Timer(config).value.0], Timer(config).value.1)
              && r.syncs <= |st.jobs|
    ensures r.Stopped? && Timer(config).Ok? ==> r.exc.ValueError?
  {
    match Timer(config)
    case Raised(e) => Stopped(e)
    case Ok((hour, days)) =>
      match RunDue(LoopState(st.jobs, days), due, today)
      case Stopped(e) => Stopped(e)
      case Continued(_, k) => Continued(LoopState(st.jobs + [hour], days), k)
  }

  /** Every pass that does not stop adds exactly one job and cancels none. */
  lemma PassAddsOneJob(st: LoopState, config: Result<Config>, due: set<string>, today: Weekday)
    requires PassAsWritten(st, config, due, today).Continued?
    ensures var next := PassAsWritten(st, config, due, today).state;
            |next.jobs| == |st.jobs| + 1 && next.jobs[..|st.jobs|] == st.jobs
            && DailyTimeOk(next.jobs[|st.jobs|])
  {
  }

  /** n jobs at the same time. */
  function Repeat(hour: string, n: nat): (jobs: seq<string>)
    ensures |jobs| == n && forall i | 0 <= i < n :: jobs[i] == hour
  {
    if n == 0 then [] else Repeat(hour, n - 1) + [hour]
  }

  lemma {:induction false} DueCountAll(hour: string, n: nat, due: set<string>)
    ensures DueCount(Repeat(hour, n), due) == (if hour in due then n else 0)
  {
    if n > 0 {
      assert Repeat(hour, n)[..n - 1] == Repeat(hour, n - 1);
      DueCountAll(hour, n - 1, due);
    }
  }

  /** n passes before the configured time leave n jobs at that time... */
  lemma {:induction false} PassesPileUpJobs(config: Result<Config>, hour: string, days: string, n: nat, today: Weekday)
    requires Timer(config) == Ok((hour, days))
    ensures Passes(AsWritten, LoopState([], ""), config, {}, today, n)
            == Continued(LoopState(Repeat(hour, n), if n == 0 then "" else days), 0)
  {
    if n > 0 {
      PassesPileUpJobs(config, hour, days, n - 1, today);
      var mid := LoopState(Repeat(hour, n - 1), if n == 1 then "" else days);
      QuietPass(config, hour, days, mid, n - 1, today);
      assert Passes(AsWritten, LoopState([], ""), config, {}, today, n - 1) == Continued(mid, 0);
      assert Pass(AsWritten, mid, config, {}, today) == Continued(LoopState(Repeat(hour, n), days), 0);
    }
  }

  /** A pass before the configured time adds one job at that time and runs
      none. */
  lemma QuietPass(config: Result<Config>, hour: string, days: string, st: LoopState, n: nat, today: Weekday)
    requires Timer(config) == Ok((hour, days))
    requires st.jobs == Repeat(hour, n)
    ensures Pass(AsWritten, st, config, {}, today) == Continued(LoopState(Repeat(hour, n + 1), days), 0)
  {
    DueCountAll(hour, n, {});
  }

  /** ...so at that time one pass runs sync_job n times on a day the
      DAYS text covers. */
  lemma RepeatedSyncAtTheHour(config: Result<Config>, hour: string, days: string, n: nat, today: Weekday)
    requires Timer(config) == Ok((hour, days))
    requires Eligible(days, today) == Ok(true)
    ensures var before := Passes(AsWritten, LoopState([], ""), config, {}, today, n);
            before.Continued?
            && Pass(AsWritten, before.state, config, {hour}, today) == Continued(LoopState(Repeat(hour, n + 1), days), n)
  {
    PassesPileUpJobs(config, hour, days, n, today);
    var before := LoopState(Repeat(hour, n), if n == 0 then "" else days);
    PassAtTheHour(config, hour, days, before, n, today);
  }

  /** A pass at the configured time over n jobs at that time. */
  lemma PassAtTheHour(config: Result<Config>, hour: string, days: string, before: LoopState, n: nat, today: Weekday)
    requires Timer(config) == Ok((hour, days))
    requires Eligible(days, today) == Ok(true)
    requires before.jobs == Repeat(hour, n)
    ensures Pass(AsWritten, before, config, {hour}, today) == Continued(LoopState(Repeat(hour, n + 1), days), n)
  {
    DueCountAll(hour, n, {hour});
    assert RunDue(LoopState(before.jobs, days), {hour}, today).syncs == n;
  }

  /** A configuration with TIMER's HOUR and DAYS only. */
  function TimerConfig(hour: string, days: string): Config
  {
    map["TIMER" := map["hour" := hour, "days" := days]]
  }

  lemma TimerLookups(hour: string, days: string)
    ensures Get(TimerConfig(hour, days), "TIMER", "HOUR") == Ok(hour)
    ensures Get(TimerConfig(hour, days), "TIMER", "DAYS") == Ok(days)
  {
    assert OptionKey("HOUR") == "hour" && OptionKey("DAYS") == "days";
  }

  /** Such a configuration meets the conditions above. */
  lemma TimerConfigRead(hour: string, days: string)
    requires Strip(hour) == hour && DailyTimeOk(hour)
    ensures Timer(Ok(TimerConfig(hour, days))) == Ok((hour, days))
  {
    TimerLookups(hour, days);
  }

  /** The loop registering a job only when HOUR names a new time, and
      replacing the previous one, as check_config of app.py does: a kept
      job runs when its time comes, a new one not before the next day. */
  function PassReplacingJob(st: LoopState, config: Result<Config>, due: set<string>, today: Weekday): (r: PassOutcome)
    ensures Timer(config).Raised? ==> r == Stopped(Timer(config).exc)
    ensures r.Continued? ==>
              Timer(config).Ok? && r.state == LoopState([Timer(config).value.0], Timer(config).value.1)
    ensures r.Continued? && r.syncs > 0 ==> st.jobs == [Timer(config).value.0]
    ensures r.Stopped? && Timer(config).Ok? ==> r.exc.ValueError?
  {
    match Timer(config)
    case Raised(e) => Stopped(e)
    case Ok((hour, days)) =>
      if st.jobs == [hour] then RunDue(LoopState([hour], days), due, today)
      else Continued(LoopState([hour], days), 0)
  }

  /** With one job per time, there is never more than one job, and a due
      time runs sync_job at most once. */
  lemma PassKeepsOneJob(st: LoopState, config: Result<Config>, due: set<string>, today: Weekday)
    ensures var p := PassReplacingJob(st, config, due, today);
            p.Continued? ==> p.state.jobs == [Timer(config).value.0] && p.syncs <= 1
  {
  }

  /** Which of the two loops a run of passes follows. */
  datatype Loop = AsWritten | Replacing

  /** One pass of either loop: the last job is always at the HOUR just
      read, and every job the DAYS text just read governs. */
  function Pass(loop: Loop, st: LoopState, config: Result<Config>, due: set<string>, today: Weekday): (r: PassOutcome)
    ensures Timer(config).Raised? ==> r == Stopped(Timer(config).exc)
    ensures r.Continued? ==>
              Timer(config).Ok? && r.state.jobs != [] && r.state.days == Timer(config).value.1
              && r.state.jobs[|r.state.jobs| - 1] == Timer(config).value.0
              && DailyTimeOk(r.state.jobs[|r.state.jobs| - 1])
  {
    match loop
    case AsWritten => PassAsWritten(st, config, due, today)
    case Replacing => PassReplacingJob(st, config, due, today)
  }

  /** n passes of a loop, each reading config, with the times in due come;
      the numbers of sync_job runs are added up. */
  function Passes(loop: Loop, st: LoopState, config: Result<Config>, due: set<string>, today: Weekday, n: nat): PassOutcome
  {
    if n == 0 then Continued(st, 0)
    else
      match Passes(loop, st, config, due, today, n - 1)
      case Stopped(e) => Stopped(e)
      case Continued(mid, k) =>
        match Pass(loop, mid, config, due, today)
        case Stopped(e) => Stopped(e)
        case Continued(next, m) => Continued(next, k + m)
  }

  /** n passes of the corrected loop before the configured time leave the
      one job at that time... */
  lemma {:induction false} PassesKeepOneJob(config: Result<Config>, hour: string, days: string, n: nat, today: Weekday)
    requires Timer(config) == Ok((hour, days))
    requires n > 0
    ensures Passes(Replacing, LoopState([], ""), config, {}, today, n) == Continued(LoopState([hour], days), 0)
  {
    if n > 1 {
      PassesKeepOneJob(config, hour, days, n - 1, today);
    }
    assert DueCount([hour], {}) == 0 by { assert [hour][..0] == []; }
  }

  /** ...so at that time one pass runs sync_job exactly once on a day the
      DAYS text covers, however many passes came before. */
  lemma SingleSyncAtTheHour(config: Result<Config>, hour: string, days: string, n: nat, today: Weekday)
    requires Timer(config) == Ok((hour, days))
    requires Eligible(days, today) == Ok(true)
    requires n > 0
    ensures var before := Passes(Replacing, LoopState([], ""), config, {}, today, n);
            before.Continued?
            && Pass(Replacing, before.state, config, {hour}, today) == Continued(LoopState([hour], days), 1)
  {
    PassesKeepOneJob(config, hour, days, n, today);
    assert DueCount([hour], {hour}) == 1 by { assert [hour][..0] == []; }
  }
}
