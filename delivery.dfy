/** upload(file, config): the settings read from the FTP section, the
    normalisation of the remote directory, and the conversation with an
    SFTP or FTP server. The network is a set of step outcomes chosen by the
    environment; the model records the requests the program makes, the
    warning and error lines it logs and the exception it lets out. */
module Delivery {
  import opened Base
  import opened Text
  import opened Ini

  /** A request made to a remote server. */
  datatype Action =
    | SftpConnect(host: string, port: nat, user: string) // Transport, connect and SFTPClient
    | SftpChdir(path: string)
    | SftpPut(local: string, remote: string)
    | SftpClose
    | TransportClose
    | FtpConnect(host: string, port: nat)
    | FtpLogin(user: string)
    | FtpCwd(path: string)
    | FtpStor(remote: string)                             // STOR <remote>
    | FtpQuit                                             // leaving the with block

  /** How each step of a transfer turns out. readLocal is opening the
      generated file for reading. */
  datatype Network = Network(sftpConnect: Step, chdir: Step, put: Step,
                             ftpConnect: Step, ftpLogin: Step, ftpCwd: Step,
                             readLocal: Step, ftpStor: Step)

  /** The requests made, the lines logged and the exception raised, if any. */
  datatype Upload = Upload(actions: seq<Action>, log: seq<Notice>, raised: Option<Exc>)

  /** The FTP section as upload reads it, with the server type upper-cased
      and the remote directory normalised. */
  datatype Settings = Settings(serverType: string, path: string, host: string,
                               user: string, password: string, port: nat)

  /** An empty directory becomes "./"; then one trailing '/' is dropped. */
  function RemoteDir(path: string): (r: string)
    ensures path == [] ==> r == "."
    ensures path != [] ==> (r + "/" == path || (r == path && path[|path| - 1] != '/'))
  {
    var p := if path == [] then "./" else path;
    if p[|p| - 1] == '/' then p[..|p| - 1] else p
  }

  /** Only one trailing slash goes: "a//" becomes "a/". */
  lemma RemoteDirDropsOneSlash(path: string)
    requires |path| >= 2 && path[|path| - 1] == '/' && path[|path| - 2] == '/'
    ensures RemoteDir(path) == path[..|path| - 1]
    ensures RemoteDir(path)[|RemoteDir(path)| - 1] == '/'
  {
  }

  /** Normalising a second time changes the directory exactly when the
      first pass left it empty or ending with '/'. */
  lemma RemoteDirOnceOrTwice(path: string)
    ensures var r := RemoteDir(path);
            RemoteDir(r) == r <==> r != [] && r[|r| - 1] != '/'
  {
    var r := RemoteDir(path);
    if r != [] && r[|r| - 1] == '/' {
      assert |RemoteDir(r)| == |r| - 1;
    }
  }

  /** An empty PATH becomes ".", one trailing '/' goes, and the root "/"
      becomes the empty directory, so the SFTP target is "/" followed by
      the base name. */
  lemma RemoteDirExamples()
    ensures RemoteDir("") == "."
    ensures RemoteDir("/reports/") == "/reports"
    ensures RemoteDir("a//") == "a/"
    ensures RemoteDir("/") == ""
  {
    RemoteDirDropsOneSlash("a//");
    assert "a//"[..2] == "a/";
  }

  /** The FTP options upload reads, in the order it reads them. */
  const UploadOptions: seq<string> := ["server_type", "PATH", "HOST_FTP", "USER_FTP", "PASSWORD_FTP", "PORT_FTP"]

  /** The lookups of upload, in the order the program makes them; int() of
      the port comes last. The settings are read exactly when every option
      is there and the port is a number; the first missing option, or then
      the port, decides the exception. */
  function AppSettings(cfg: Config): (r: Result<Settings>)
    ensures r.Ok? <==> (forall o | o in UploadOptions :: Get(cfg, "FTP", o).Ok?)
                       && ParseInt(Get(cfg, "FTP", "PORT_FTP").value).Some?
    ensures r.Ok? ==> r.value == Settings(Upper(Get(cfg, "FTP", "server_type").value),
                                          RemoteDir(Get(cfg, "FTP", "PATH").value),
                                          Get(cfg, "FTP", "HOST_FTP").value,
                                          Get(cfg, "FTP", "USER_FTP").value,
                                          Get(cfg, "FTP", "PASSWORD_FTP").value,
                                          ParseInt(Get(cfg, "FTP", "PORT_FTP").value).value)
    ensures Lookups(cfg, "FTP", UploadOptions).Raised? ==> r == Raised(Lookups(cfg, "FTP", UploadOptions).exc)
    ensures (forall o | o in UploadOptions :: Get(cfg, "FTP", o).Ok?)
            && ParseInt(Get(cfg, "FTP", "PORT_FTP").value).None? ==>
              r == Raised(ValueError(IntLiteral(Get(cfg, "FTP", "PORT_FTP").value)))
    ensures r.Raised? ==> r.exc.KeyError? || r.exc.ValueError?
    ensures "FTP" !in cfg ==> r == Raised(KeyError("FTP"))
  {
    var v :- Lookups(cfg, "FTP", UploadOptions);
    var port :- Int(v[5]);
    Ok(Settings(Upper(v[0]), RemoteDir(v[1]), v[2], v[3], v[4], port))
  }

  /** Where the SFTP put sends the file: under the directory when chdir
      succeeded, under its base name when chdir raised an IOError; any
      other exception from chdir means no put at all. */
  function SftpTarget(dir: string, file: string, chdir: Step): (r: Option<string>)
    ensures chdir.Succeeds? ==> r == Some(dir + "/" + Basename(file))
    ensures chdir.Fails? && chdir.exc.IOError? ==> r == Some(Basename(file))
    ensures chdir.Fails? && !chdir.exc.IOError? ==> r == None
  {
    if chdir.Succeeds? then Some(dir + "/" + Basename(file))
    else if chdir.exc.IOError? then Some(Basename(file))
    else None
  }

  /** Whichever target is chosen, the remote file keeps the local file's
      base name. */
  lemma SftpTargetKeepsBasename(dir: string, file: string, chdir: Step)
    requires SftpTarget(dir, file, chdir).Some?
    ensures Basename(SftpTarget(dir, file, chdir).value) == Basename(file)
  {
    if chdir.Succeeds? {
      BasenameAfterSlash(dir, Basename(file));
    } else {
      BasenameOfBasename(file);
    }
  }

  /** The SFTP branch: connect, try to change into the directory, put the
      file to its target; transfer errors are logged and both sessions are
      closed. */
  function SftpUpload(file: string, s: Settings, net: Network): (u: Upload)
    ensures u.actions != [] && u.actions[0] == SftpConnect(s.host, s.port, s.user)
    ensures u.raised.Some? <==> net.sftpConnect.Fails?
  {
    var connect := SftpConnect(s.host, s.port, s.user);
    if net.sftpConnect.Fails? then Upload([connect], [], Some(net.sftpConnect.exc))
    else
      match SftpTarget(s.path, file, net.chdir)
      case None =>
        Upload([connect, SftpChdir(s.path), SftpClose, TransportClose],
               [Notice(Error, SftpTransferFailed(net.chdir.exc))], None)
      case Some(remote) =>
        var warn := if net.chdir.Fails? then [Notice(Warning, RemoteDirMissing(s.path))] else [];
        var failed := if net.put.Fails? then [Notice(Error, SftpTransferFailed(net.put.exc))] else [];
        Upload([connect, SftpChdir(s.path), SftpPut(file, remote), SftpClose, TransportClose],
               warn + failed, None)
  }

  /** A failed SFTP connection is the only exception SFTP lets out; once
      connected, every path ends by closing the SFTP session and the
      transport. */
  lemma SftpClosesOnEveryPath(file: string, s: Settings, net: Network)
    ensures var u := SftpUpload(file, s, net);
            (u.raised.Some? <==> net.sftpConnect.Fails?)
            && (u.raised.Some? ==> u.actions == [SftpConnect(s.host, s.port, s.user)] && u.raised.value == net.sftpConnect.exc)
            && (u.raised.None? ==>
                  |u.actions| >= 4
                  && u.actions[..2] == [SftpConnect(s.host, s.port, s.user), SftpChdir(s.path)]
                  && u.actions[|u.actions| - 2..] == [SftpClose, TransportClose])
  {
  }

  /** Whether the i-th request is a put. */
  predicate IsPut(u: Upload, i: int) { 0 <= i < |u.actions| && u.actions[i].SftpPut? }

  /** Once connected, the file is put exactly once, to its target, when it
      has one, and not at all otherwise. */
  lemma SftpPutsToTarget(file: string, s: Settings, net: Network)
    ensures var u := SftpUpload(file, s, net);
            var target := SftpTarget(s.path, file, net.chdir);
            (net.sftpConnect.Succeeds? && target.Some? ==>
               u.actions[2] == SftpPut(file, target.value) && forall i | IsPut(u, i) :: i == 2)
            && (net.sftpConnect.Fails? || target.None? ==> forall i :: !IsPut(u, i))
  {
  }

  /** A refused directory is a warning; a transfer error is logged and
      swallowed. */
  lemma SftpLogs(file: string, s: Settings, net: Network)
    ensures var u := SftpUpload(file, s, net);
            (Notice(Warning, RemoteDirMissing(s.path)) in u.log <==>
               net.sftpConnect.Succeeds? && net.chdir.Fails? && net.chdir.exc.IOError?)
            && ((exists n | n in u.log :: n.level == Error) <==>
                  net.sftpConnect.Succeeds?
                  && ((net.chdir.Fails? && !net.chdir.exc.IOError?)
                      || ((net.chdir.Succeeds? || net.chdir.exc.IOError?) && net.put.Fails?)))
  {
    var u := SftpUpload(file, s, net);
    if net.sftpConnect.Succeeds? && (net.chdir.Succeeds? || net.chdir.exc.IOError?) {
      if net.chdir.Fails? {
        assert u.log[0] == Notice(Warning, RemoteDirMissing(s.path));
      }
      if net.put.Fails? {
        assert u.log[|u.log| - 1].level == Error;
      }
    }
  }

  /** The FTP branch: connect, log in, try to change into the directory
      (a refusal is only a warning), then store the file under its base
      name. The connection is closed whenever it was opened. */
  function FtpUpload(file: string, s: Settings, net: Network): (u: Upload)
    ensures u.actions != [] && u.actions[0] == FtpConnect(s.host, s.port)
    ensures u.raised.None? ==> FtpStor(Basename(file)) in u.actions
    ensures u.log != [] ==> net.ftpCwd.Fails? && net.ftpCwd.exc.ErrorPerm?
  {
    var connect := FtpConnect(s.host, s.port);
    if net.ftpConnect.Fails? then Upload([connect], [], Some(net.ftpConnect.exc))
    else
      var session := [connect, FtpLogin(s.user)];
      if net.ftpLogin.Fails? then Upload(session + [FtpQuit], [], Some(net.ftpLogin.exc))
      else
        var cwd := session + [FtpCwd(s.path)];
        if net.ftpCwd.Fails? && !net.ftpCwd.exc.ErrorPerm? then
          Upload(cwd + [FtpQuit], [], Some(net.ftpCwd.exc))
        else
          var warn := if net.ftpCwd.Fails? then [Notice(Warning, RemoteDirMissing(s.path))] else [];
          if net.readLocal.Fails? then Upload(cwd + [FtpQuit], warn, Some(net.readLocal.exc))
          else
            var stored := cwd + [FtpStor(Basename(file)), FtpQuit];
            Upload(stored, warn, if net.ftpStor.Fails? then Some(net.ftpStor.exc) else None)
  }

  /** A refused connection raises at once; after it, the session is always
      quit last. */
  lemma FtpQuitsOnEveryPath(file: string, s: Settings, net: Network)
    ensures var u := FtpUpload(file, s, net);
            (net.ftpConnect.Fails? ==> u == Upload([FtpConnect(s.host, s.port)], [], Some(net.ftpConnect.exc)))
            && (net.ftpConnect.Succeeds? ==>
                  |u.actions| >= 3
                  && u.actions[..2] == [FtpConnect(s.host, s.port), FtpLogin(s.user)]
                  && u.actions[|u.actions| - 1] == FtpQuit)
  {
  }

  /** The file is stored under its base name exactly when login succeeded,
      the directory was entered or refused with a permission error, and
      the local file could be read. */
  lemma FtpStoresBasename(file: string, s: Settings, net: Network)
    ensures var u := FtpUpload(file, s, net);
            (FtpStor(Basename(file)) in u.actions <==>
               net.ftpConnect.Succeeds? && net.ftpLogin.Succeeds?
               && (net.ftpCwd.Succeeds? || net.ftpCwd.exc.ErrorPerm?) && net.readLocal.Succeeds?)
            && (forall a | a in u.actions && a.FtpStor? :: a.remote == Basename(file))
  {
    var u := FtpUpload(file, s, net);
    var session := [FtpConnect(s.host, s.port), FtpLogin(s.user)];
    var cwd := session + [FtpCwd(s.path)];
    if net.ftpConnect.Fails? {
      assert u.actions == [FtpConnect(s.host, s.port)];
    } else if net.ftpLogin.Fails? {
      assert u.actions == session + [FtpQuit];
    } else if (net.ftpCwd.Fails? && !net.ftpCwd.exc.ErrorPerm?) || net.readLocal.Fails? {
      assert u.actions == cwd + [FtpQuit];
    } else {
      assert u.actions == cwd + [FtpStor(Basename(file)), FtpQuit];
    }
  }

  /** A directory refused with a permission error is only a warning; every
      other failure is raised, and nothing is logged at error level. */
  lemma FtpCwdRefusalOnlyWarns(file: string, s: Settings, net: Network)
    ensures var u := FtpUpload(file, s, net);
            (Notice(Warning, RemoteDirMissing(s.path)) in u.log <==>
               net.ftpConnect.Succeeds? && net.ftpLogin.Succeeds? && net.ftpCwd.Fails? && net.ftpCwd.exc.ErrorPerm?)
            && (forall n | n in u.log :: n.level == Warning)
            && (u.raised.None? <==>
                  net.ftpConnect.Succeeds? && net.ftpLogin.Succeeds?
                  && (net.ftpCwd.Succeeds? || net.ftpCwd.exc.ErrorPerm?)
                  && net.readLocal.Succeeds? && net.ftpStor.Succeeds?)
  {
    var u := FtpUpload(file, s, net);
    var warn := [Notice(Warning, RemoteDirMissing(s.path))];
    if net.ftpConnect.Fails? || net.ftpLogin.Fails? || (net.ftpCwd.Fails? && !net.ftpCwd.exc.ErrorPerm?) {
      assert u.log == [];
    } else if net.ftpCwd.Fails? {
      assert u.log == warn;
    } else {
      assert u.log == [];
    }
  }

  /** upload(file, config) of app.py. */
  function AppUpload(file: string, cfg: Config, net: Network): (u: Upload)
    ensures AppSettings(cfg).Raised? ==> u == Upload([], [], Some(AppSettings(cfg).exc))
    ensures AppSettings(cfg).Ok? && AppSettings(cfg).value.serverType !in {"SFTP", "FTP"} ==>
              u == Upload([], [], Some(ValueError(UnsupportedServerType)))
    ensures u.actions != [] ==> AppSettings(cfg).Ok? && AppSettings(cfg).value.serverType in {"SFTP", "FTP"}
    ensures AppSettings(cfg).Ok? && AppSettings(cfg).value.serverType == "SFTP" ==>
              u == SftpUpload(file, AppSettings(cfg).value, net)
    ensures AppSettings(cfg).Ok? && AppSettings(cfg).value.serverType == "FTP" ==>
              u == FtpUpload(file, AppSettings(cfg).value, net)
  {
    match AppSettings(cfg)
    case Raised(e) => Upload([], [], Some(e))
    case Ok(s) =>
      if s.serverType == "SFTP" then SftpUpload(file, s, net)
      else if s.serverType == "FTP" then FtpUpload(file, s, net)
      else Upload([], [], Some(ValueError(UnsupportedServerType)))
  }

  /** The server type is matched without regard to letter case. */
  lemma ServerTypeIgnoresCase(file: string, cfg: Config, net: Network)
    requires "FTP" in cfg && "server_type" in cfg["FTP"]
    ensures var section := cfg["FTP"];
            AppUpload(file, cfg["FTP" := section["server_type" := Upper(section["server_type"])]], net)
            == AppUpload(file, cfg, net)
  {
    var section := cfg["FTP"];
    var value := Upper(section["server_type"]);
    var cfg' := cfg["FTP" := section["server_type" := value]];
    UpperIdempotent(section["server_type"]);
    assert OptionKey("server_type") == "server_type";
    GetAfterSet(cfg, "FTP", "server_type", value, "server_type");
    assert OptionKey("PATH")[0] != 's';
    GetAfterSet(cfg, "FTP", "server_type", value, "PATH");
    assert OptionKey("HOST_FTP")[0] != 's';
    GetAfterSet(cfg, "FTP", "server_type", value, "HOST_FTP");
    assert OptionKey("USER_FTP")[0] != 's';
    GetAfterSet(cfg, "FTP", "server_type", value, "USER_FTP");
    assert OptionKey("PASSWORD_FTP")[0] != 's';
    GetAfterSet(cfg, "FTP", "server_type", value, "PASSWORD_FTP");
    assert OptionKey("PORT_FTP")[0] != 's';
    GetAfterSet(cfg, "FTP", "server_type", value, "PORT_FTP");
    AppSettingsAgree(cfg, cfg');
  }

  /** Two FTP sections that agree on every option upload reads, up to the
      letter case of server_type, give the same settings. */
  lemma AppSettingsAgree(cfg: Config, cfg': Config)
    requires Get(cfg', "FTP", "server_type").Ok? == Get(cfg, "FTP", "server_type").Ok?
    requires Get(cfg, "FTP", "server_type").Raised? ==> Get(cfg', "FTP", "server_type") == Get(cfg, "FTP", "server_type")
    requires Get(cfg, "FTP", "server_type").Ok? ==>
               Upper(Get(cfg', "FTP", "server_type").value) == Upper(Get(cfg, "FTP", "server_type").value)
    requires forall o | o in UploadOptions[1..] :: Get(cfg', "FTP", o) == Get(cfg, "FTP", o)
    ensures AppSettings(cfg') == AppSettings(cfg)
  {
    var options := UploadOptions;
    LookupsAgreeAfterFirst(cfg, cfg', "FTP", options);
    if Lookups(cfg, "FTP", options).Ok? {
      assert Get(cfg, "FTP", options[0]) == Ok(Lookups(cfg, "FTP", options).value[0]);
      assert Get(cfg', "FTP", options[0]) == Ok(Lookups(cfg', "FTP", options).value[0]);
      AppSettingsFromValues(cfg, cfg');
    }
  }

  /** The settings depend on the looked-up values only, and on server_type
      only through its upper-case form. */
  lemma AppSettingsFromValues(cfg: Config, cfg': Config)
    requires Lookups(cfg, "FTP", UploadOptions).Ok? && Lookups(cfg', "FTP", UploadOptions).Ok?
    requires Lookups(cfg', "FTP", UploadOptions).value[1..] == Lookups(cfg, "FTP", UploadOptions).value[1..]
    requires Upper(Lookups(cfg', "FTP", UploadOptions).value[0]) == Upper(Lookups(cfg, "FTP", UploadOptions).value[0])
    ensures AppSettings(cfg') == AppSettings(cfg)
  {
    var v, v' := Lookups(cfg, "FTP", UploadOptions).value, Lookups(cfg', "FTP", UploadOptions).value;
    assert v'[5] == v[5] && v'[1] == v[1] && v'[2] == v[2] && v'[3] == v[3] && v'[4] == v[4];
  }

  /** With a refused SFTP directory the file goes to its base name. */
  lemma SftpFallbackExample(net: Network)
    requires net.sftpConnect.Succeeds? && net.chdir == Fails(IOError("no such file")) && net.put.Succeeds?
    ensures SftpUpload("out/ventas_20240105.csv", Settings("SFTP", "/reports", "h", "u", "p", 22), net)
            == Upload([SftpConnect("h", 22, "u"), SftpChdir("/reports"),
                       SftpPut("out/ventas_20240105.csv", "ventas_20240105.csv"), SftpClose, TransportClose],
                      [Notice(Warning, RemoteDirMissing("/reports"))], None)
  {
    BasenameAfterSlash("out", "ventas_20240105.csv");
    assert "out" + "/" + "ventas_20240105.csv" == "out/ventas_20240105.csv";
  }
}
