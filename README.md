# Scheduled database export and FTP/SFTP upload — a Dafny model

The program reads `config.ini`, runs a SQL query, writes the result as a
CSV or Excel file named `<base>_<YYYYMMDD>.<ext>`, and uploads that file
to an FTP or SFTP server. It does this every day at a configured hour,
on the configured days of the week. It comes in two versions:

- `app.py` is the current one. Its `check_config` reschedules the daily
  job whenever the file's modification time and its `HOUR` change. It
  re-enters itself every thirty seconds through `sched`.
- `conector.py` is the earlier one. Its `main` loop reads the file once a
  minute and registers a new daily job on every pass.

`setup_ini.py` creates `config.ini` with default values. It also adds any
missing section or option to an existing file, writing the file back only
when something was added.

## Modules

| file | module | what it holds |
|---|---|---|
| `base.dfy` | `Base` | `Option`, `Result` (usable with `:-`), the exceptions the program raises, and the warning/error lines it logs |
| `text.dfy` | `Text` | the string operations the source uses: `strip`, `split`, `upper`/`lower`, `int()`, `os.path.basename`, zero-padded digits |
| `ini.dfy` | `Ini` | a parsed `config.ini` and its case-insensitive option lookup (`config[section][option]`) |
| `days.dfy` | `Days` | the `DAYS` day-set parser and `is_valid_day`, as a loop method proved against a specification |
| `export.dfy` | `Export` | the `%Y%m%d` date stamp, the export file name and `generate` |
| `delivery.dfy` | `Delivery` | `upload` of `app.py`: the remote directory, and the SFTP and FTP conversations as request sequences |
| `pipeline.dfy` | `Pipeline` | `get_info`, `sync_job` with its three handlers, and `scheduled_task` |
| `scheduling.dfy` | `Scheduling` | `check_config`: its globals as a class, the job registry, and `run_pending` |
| `conector.dfy` | `Conector` | the earlier program: its upload, its `sync_job` and one pass of its `main` loop |
| `setup_ini.dfy` | `SetupIni` | `DEFAULT_CONFIG`, `update_ini` as loop methods, `create_ini`, and `config.ini` as a class |

The outside world enters as parameters:

- A `Step` says whether a database query, a file write or a network
  request succeeds, or which exception it raises.
- A `Network` holds one such step per request the upload makes.
- The date, the weekday and the file's modification time are values.
- The set of daily times whose moment has come is a parameter too.

An upload is modelled by the sequence of requests it sends (`Action`),
the lines it logs, and the exception it lets out.

## Model

| member | source | states |
|---|---|---|
| `Text.Strip` | app.py:142 | the result is the input without its leading and trailing whitespace, and starts and ends with a non-space |
| `Text.StripUnchanged` | app.py:172 | a text that neither starts nor ends with whitespace is left unchanged by strip |
| `Text.Split` | app.py:141 | str.split: at least one part, no part holds the separator, and exactly one part when the separator does not occur |
| `Text.JoinSplit` | app.py:141 | joining the parts of a split with the separator gives back the text |
| `Text.SplitJoin` | app.py:141 | splitting a join of separator-free parts gives back the parts |
| `Text.SplitNoSeparator` | app.py:141 | a text without the separator splits into itself alone |
| `Text.Int` | app.py:69 | int() raises ValueError naming the literal exactly when the text, stripped, is not a decimal number; otherwise its value is the one ParseInt reads |
| `Text.ParseIntDigits` | app.py:144-147 | a zero-padded decimal numeral parses back to its number |
| `Text.DigitsRoundTrip` | app.py:45 | a number written in w zero-padded digits reads back as the same number |
| `Text.UpperIdempotent` | app.py:64 | upper-casing twice is upper-casing once |
| `Text.Basename` | app.py:84 | os.path.basename holds no '/' |
| `Text.BasenameIsSuffix` | app.py:84 | the base name is a suffix of the path, preceded by '/' whenever it is not the whole path |
| `Text.BasenameAfterSlash` | app.py:84 | the base name of dir + "/" + name is name when name holds no '/' |
| `Text.BasenameOfBasename` | app.py:93 | taking the base name twice changes nothing |
| `Ini.Get` | app.py:63-69 | config[section][option] gives the value exactly when both exist (option names compared lower-cased); otherwise KeyError of the missing section, then of the missing option |
| `Ini.OptionNamesIgnoreCase` | app.py:64-65 | any two option names equal after lower-casing are found or missing together, and give the same value |
| `Ini.UpperSpellingSameOption` | app.py:45-46 | an option name and its upper-case spelling are found or missing together, with the same value |
| `Ini.Lookups` | app.py:63-69 | a run of lookups in one section succeeds iff every lookup does, giving the values in order; otherwise it raises the exception of the first lookup that fails, all earlier ones having succeeded |
| `Ini.LookupsFailAt` | app.py:32-34 | when the lookup at position i is the first to fail, the run raises exactly that lookup's KeyError |
| `Ini.LookupsSame` | app.py:63-69 | two configurations that read alike for every option give the same run of lookups |
| `Ini.LookupsAgreeAfterFirst` | app.py:63-69 | two configurations that read alike for every option but the first, and find the first alike, fail alike or agree on every value but the first |
| `Days.Range` | app.py:145 | range(start, end + 1) as a set holds exactly the days from start to end |
| `Days.TokenDays` | app.py:142-147 | a part of the DAYS text gives a set of days or a ValueError |
| `Days.RangeDays` | app.py:144-145 | "a-b" gives a set of days or a ValueError |
| `Days.SingleDay` | app.py:147 | a part without '-' that is not a number raises ValueError naming that part |
| `Days.PartDays` | app.py:141 | one outcome per comma-separated part, each the outcome of that part |
| `Days.Eligible` | app.py:139-149 | the day set is built iff every part is a day or a range, and otherwise the exception is that of the first part that is neither, every earlier part having parsed |
| `Days.IsValidDay` | app.py:139-149 | the loop over the parts returns exactly Eligible(days, today): the first part's ValueError, or whether today is in the union of the parts |
| `Days.FirstFailureIsRaised` | app.py:141-147 | when every earlier part succeeded, a failing part's exception is the one raised |
| `Days.UnionOfParts` | app.py:140-147 | the days are collected exactly when every part parses, and then they are the union of the parts' days |
| `Days.FirstErrorWins` | app.py:141-147 | a raised ValueError is that of the first failing part, all earlier parts having parsed |
| `Days.EligibleIffCovered` | conector.py:97-107 | the day check gives true iff the text is well formed and covers today, false iff well formed and not covering, and raises ValueError iff malformed (valid of conector.py is the same check) |
| `Days.BareNumberIsOneDay` | app.py:146-147 | a part that is one number gives that one day |
| `Days.RangeOfDays` | app.py:143-145 | "a-b" gives exactly the days a to b, and none when a > b |
| `Days.EmptyPartRaises` | app.py:147 | an empty part (as in "1,,2" or a trailing comma) raises ValueError for "" |
| `Days.ManyDashesRaise` | app.py:144 | a part with more than one '-' raises ValueError (unpacking into two names fails) |
| `Days.BadSinglePart` | app.py:139-149 | a DAYS text with one failing part is malformed |
| `Days.ThreePieceRange` | app.py:144 | "1-2-3" raises ValueError and is malformed |
| `Days.NonNumberRaises` | app.py:147 | a part that is neither a range nor digits raises ValueError naming the stripped part |
| `Days.LeadingSpaceIgnored` | app.py:142 | the blank after a comma is stripped away |
| `Days.DefaultDaysParts` | setup_ini.py:61 | the default "1-5, 7" splits into "1-5" and " 7" |
| `Days.WorkingWeek` | setup_ini.py:61 | "1-5" gives Monday to Friday |
| `Days.Sunday` | setup_ini.py:61 | " 7" gives Sunday |
| `Days.TwoParts` | app.py:141-147 | a text of two parts gives the union of their days |
| `Days.DefaultDaySet` | setup_ini.py:61 | the default DAYS means days 1 to 5 and 7 |
| `Days.DefaultDays` | setup_ini.py:61 | with the default DAYS the export runs on a Wednesday and not on a Saturday |
| `Export.Stamp` | app.py:45 | strftime('%Y%m%d') is eight digits |
| `Export.StampRoundTrip` | app.py:45 | the stamp reads back as the date it was made from |
| `Export.StampInjective` | app.py:45 | two dates with the same stamp are the same date |
| `Export.Extension` | app.py:46-55 | the format is accepted iff its lower-case form is csv or xlsx, and then gives that extension; otherwise ValueError("Formato de fichero no soportado") |
| `Export.ExportName` | app.py:45-55 | a name is produced iff the format is accepted; otherwise the ValueError |
| `Export.ExportNameRoundTrip` | app.py:45-53 | an export name parses back into the base name, the date and the lower-case extension |
| `Export.FormatIgnoresCase` | app.py:46 | upper-casing the format does not change the file name |
| `Export.GenerateWith` | app.py:43-58 | generate returns a file iff both options exist, the format is accepted and the write succeeds; the file is written iff the first three hold; the written name parses back to base, date and format |
| `Export.Generate` | app.py:43-58 | with file_name and FORMAT, a file is returned iff the format is csv or xlsx in any case and the write succeeds; its name reads back as file_name, the date and the lower-cased format; a failed write raises the writer's exception |
| `Export.UnsupportedFormatWritesNothing` | app.py:54-55 | an unsupported format raises ValueError before any file is written |
| `Export.DefaultFormatRefused` | setup_ini.py:49 | the default FORMAT "ip" is refused |
| `Delivery.RemoteDir` | app.py:71-75 | an empty PATH becomes "."; otherwise one trailing '/' is dropped, and only that |
| `Delivery.RemoteDirDropsOneSlash` | app.py:74-75 | a PATH ending in "//" keeps one trailing '/' |
| `Delivery.RemoteDirOnceOrTwice` | app.py:71-75 | normalising the directory again leaves it unchanged iff it is non-empty and does not end in '/' |
| `Delivery.RemoteDirExamples` | app.py:71-75 | "" → ".", "/reports/" → "/reports", "a//" → "a/", "/" → "" |
| `Delivery.AppSettings` | app.py:63-69 | the settings are read iff all six FTP options exist and the port is a number; they are server_type upper-cased, PATH normalised, and HOST_FTP, USER_FTP, PASSWORD_FTP and the port as found; a missing option raises the KeyError of the first one missing in reading order, then a bad port int()'s ValueError; no FTP section raises KeyError("FTP") |
| `Delivery.SftpTarget` | app.py:84-93 | the put goes to dir/basename when chdir succeeds, to the base name alone when chdir raises IOError, and nowhere when chdir raises anything else |
| `Delivery.SftpTargetKeepsBasename` | app.py:84-93 | whichever target is chosen, its base name is the file's |
| `Delivery.SftpUpload` | app.py:77-101 | the first request is the connection to HOST_FTP:PORT_FTP as USER_FTP, and an exception escapes iff that connection fails |
| `Delivery.SftpClosesOnEveryPath` | app.py:77-101 | only a failed connection raises; once connected, the requests start with connect and chdir and end by closing the SFTP session, then the transport |
| `Delivery.SftpPutsToTarget` | app.py:83-95 | once connected, the file is put exactly once, to its target, or not at all when there is no target |
| `Delivery.SftpLogs` | app.py:87-98 | the missing-directory warning is logged iff chdir raised IOError; an error line is logged iff chdir raised something else or the put failed |
| `Delivery.FtpUpload` | app.py:102-116 | the first request is the connection to HOST_FTP:PORT_FTP; an upload that raises nothing stored the file under its base name; a logged line means cwd was refused with error_perm |
| `Delivery.FtpQuitsOnEveryPath` | app.py:104-116 | a refused connection raises at once; after a connection, connect and login come first and QUIT comes last on every path |
| `Delivery.FtpStoresBasename` | app.py:104-116 | the file is stored iff login succeeded, cwd succeeded or was refused with error_perm, and the file could be read; it is always stored under its base name |
| `Delivery.FtpCwdRefusalOnlyWarns` | app.py:107-112 | an error_perm from cwd is only a warning; nothing is logged at error level; the upload ends without exception iff every other step succeeds |
| `Delivery.AppUpload` | app.py:62-120 | a failed lookup is raised before any request; server type SFTP is the SFTP upload and FTP the FTP upload, with the settings read; any other type raises ValueError("Tipo de servidor no soportado") without any request |
| `Delivery.ServerTypeIgnoresCase` | app.py:64 | upper-casing server_type in the file does not change the upload |
| `Delivery.AppSettingsAgree` | app.py:63-69 | two configurations that agree on every FTP option upload reads, server_type up to letter case, give the same settings |
| `Delivery.SftpFallbackExample` | app.py:87-95 | a missing "/reports" sends "out/ventas_20240105.csv" to "ventas_20240105.csv" with one warning |
| `Pipeline.GetInfo` | app.py:31-39 | the query runs iff all five DATABASE options exist and the database step succeeds, and it is the QUERY value; a missing option raises the KeyError of the first one missing in the order SERVER, DATABASE_NAME, USER, PASSWORD, QUERY; with all five present a failing database raises its exception; no DATABASE section raises KeyError("DATABASE") |
| `Pipeline.Attempted` | app.py:125-129 | the steps stop at the first exception: a failed read_config or get_info writes and sends nothing and gives that exception; a failed generate sends nothing and gives its exception; otherwise the upload is app.py's upload of the file generate returned, with the configuration read, and its exception is the run's |
| `Pipeline.Classify` | app.py:130-135 | error_perm gets the user-path message, ValueError its own message, and every other exception the generic message, each iff its class |
| `Pipeline.SyncJob` | app.py:123-135 | nothing is sent before a file is written; an unreadable configuration is one error line and nothing else; an exception ends the log with the error line Classify chooses, and without one the log is the upload's |
| `Pipeline.SyncJobCatchesEverything` | app.py:124-135 | sync_job never raises: an exception becomes exactly one error line after the upload's own lines, chosen by Classify; with no exception nothing is added |
| `Pipeline.NoUploadWithoutFile` | app.py:126-129 | any request to a server implies the configuration, the query and generate all succeeded, and the written file is the one generated |
| `Pipeline.UnsupportedFormatReported` | app.py:128-133 | an unsupported format yields no file, no request and the single line "Formato de fichero no soportado" |
| `Pipeline.LoginRefusalReportedAsPathError` | app.py:124-131 | a refused FTP login is an error_perm, so the only line logged is the one about the user's remote path |
| `Pipeline.ScheduledTask` | app.py:152-159 | sync_job runs iff DAYS is found and the day check gives true; a failed read_config escapes as is; any other escaping exception is a KeyError or ValueError |
| `Pipeline.TaskGatedByDays` | app.py:153-159 | scheduled_task runs sync_job iff DAYS is well formed and covers today, skips iff well formed and not covering, and lets a ValueError out iff DAYS is malformed |
| `Scheduling.DailyTimeOk` | app.py:177 | an accepted daily time is HH:MM or HH:MM:SS with the hour at most 23 and the minutes and seconds at most 59 |
| `Scheduling.Observe` | app.py:166-174 | reading the file changes nothing except last_mtime (recorded before HOUR is looked up); a new hour is one that differs from last_hour |
| `Scheduling.ReconfigureAsWritten` | app.py:166-181 | at most one line is logged; last_mtime is kept or becomes the new time; last_hour changes only to an accepted time, whose job is then the one new job, with the old one cancelled; no other id appears; a logged error keeps last_hour but may leave fewer jobs |
| `Scheduling.Reconfigure` | app.py:166-181 | as ReconfigureAsWritten, except that a logged error leaves last_hour, job_ref and the live jobs exactly as they were |
| `Scheduling.ValidAtMostOneJob` | app.py:175-177 | in a valid state at most one job is live, and it is the one job_ref names |
| `Scheduling.ReconfigureKeepsValid` | app.py:170-178 | both the written and the corrected reconfiguration keep the state valid and every live job at a time at() accepted |
| `Scheduling.ReconfigureKeepsArmed` | app.py:174-178 | with the time checked before cancelling, an accepted hour's job stays live through every reconfiguration |
| `Scheduling.SameMtimeNoOp` | app.py:170 | an unchanged modification time changes nothing and logs nothing |
| `Scheduling.SameHourOnlyMtime` | app.py:170-174 | a new modification time with the same hour records only the time |
| `Scheduling.NewHourRearms` | app.py:174-179 | a new accepted hour cancels the old job and registers exactly one job at it, recorded as last_hour and job_ref |
| `Scheduling.RefusedHourDropsJob` | app.py:175-181 | as written, an hour at() refuses leaves no live job while last_hour and job_ref still name the old one, and logs the error |
| `Scheduling.RefusedHourKeepsJob` | app.py:174-181 | corrected, a refused hour keeps the job and logs the error |
| `Scheduling.ReconfigureIdempotent` | app.py:166-178 | seeing the same file a second time changes nothing |
| `Scheduling.ExampleTimes` | app.py:177 | at() accepts "17:00" and refuses "abc" |
| `Scheduling.RevertedHourNeverRearms` | app.py:174-178 | as written, HOUR edited 17:00 → abc → 17:00 ends with no daily job while last_hour says 17:00 |
| `Scheduling.RevertedHourStaysArmed` | app.py:174-178 | corrected, the same edits keep the 17:00 job throughout |
| `Scheduling.RunPendingAsWritten` | app.py:183-184 | check_config stops iff a live job is due and the task lets an exception out, which is then the exception; otherwise the task ran iff a live job was due, and nothing is logged |
| `Scheduling.RunPending` | app.py:183-184 | with run_pending inside the try, check_config always re-enters itself; the task ran iff a live job was due; one error line is logged iff the task let an exception out, and it names that exception |
| `Scheduling.MalformedDaysStopsScheduler` | app.py:183-184 | as written, a malformed DAYS at a due time raises ValueError out of check_config, so it never re-enters itself |
| `Scheduling.RunPendingNeverCrashes` | app.py:180-184 | with run_pending inside the try, check_config always re-enters itself, runs the task iff a live job is due, and otherwise behaves as written |
| `Scheduling.Scheduler.constructor` | app.py:16-19 | the globals start at last_mtime 0, last_hour and job_ref None, with no job |
| `Scheduling.Scheduler.ObserveInPlace` | app.py:166-174 | updates the globals in place to what Observe gives |
| `Scheduling.Scheduler.ReconfigureInPlaceAsWritten` | app.py:166-181 | updates the globals and the registry as written, returning the caught exception that was logged |
| `Scheduling.Scheduler.ReconfigureInPlace` | app.py:166-181 | updates the globals and the registry with the corrected order |
| `Scheduling.Scheduler.CheckConfigAsWritten` | app.py:163-185 | one call of check_config as written: the reconfiguration, then run_pending outside the try |
| `Scheduling.Scheduler.CheckConfig` | app.py:163-185 | one call with both fixes, which always re-enters itself |
| `Conector.ServerSettings` | conector.py:51-56 | the settings are read iff all five FTP options exist and the port is a number; they are TIPO_SERVER upper-cased and HOST_FTP, USER_FTP, PASSWORD_FTP and the port as found; a missing option raises the KeyError of the first one missing in reading order, then a bad port int()'s ValueError |
| `Conector.SftpSend` | conector.py:58-66 | the first request is the connection to HOST_FTP:PORT_FTP as USER_FTP; no exception iff the connection and the put succeed, and then both sessions are closed last; nothing is logged |
| `Conector.FtpSend` | conector.py:67-74 | the first request is the connection to HOST_FTP:PORT_FTP; no exception iff connect, login, reading the file and STOR succeed; once connected, login comes second and QUIT last; nothing is logged |
| `Conector.ConectorUpload` | conector.py:50-78 | a failed lookup is raised before any request; server type SFTP is the SFTP branch and FTP the FTP branch, with the settings read; any other type raises ValueError("Tipo de servidor no soportado") without any request |
| `Conector.ServerSettingsAgree` | conector.py:51-56 | two configurations that agree on every FTP option upload reads, TIPO_SERVER up to letter case, give the same settings |
| `Conector.UnknownServerTypeNoConnection` | conector.py:58-76 | an unknown server type raises ValueError("Tipo de servidor no soportado") with no request sent |
| `Conector.ConectorServerTypeIgnoresCase` | conector.py:52 | upper-casing TIPO_SERVER does not change the upload |
| `Conector.SftpSendTarget` | conector.py:58-65 | the file is put to "./" + file; a failed put raises and leaves both sessions open |
| `Conector.FtpSendStoresName` | conector.py:67-74 | the file is stored iff connect, login and reading the file succeed, under exactly the name it was given |
| `Conector.ConectorAttempted` | conector.py:86-91 | the same steps with the options FICHERO_NOMBRE and FORMATO: a failed read_config or get_info writes and sends nothing; a failed generate sends nothing; otherwise the upload is conector.py's upload of the generated file, with the configuration read, and its exception is the run's |
| `Conector.ConectorSyncJob` | conector.py:85-94 | nothing is sent before a file is written; an unreadable configuration is one error line and nothing else; at most one line is logged, the generic error |
| `Conector.ConectorSyncJobCatchesEverything` | conector.py:85-94 | every exception becomes one generic error line, and a run without exception logs no error |
| `Conector.Timer` | conector.py:113-119 | the TIMER read succeeds iff the configuration was read, HOUR and DAYS exist and at() accepts the stripped HOUR, giving the stripped HOUR and DAYS as found; otherwise it raises read_config's exception, then the KeyError for HOUR, then for DAYS, then at()'s error for the stripped HOUR |
| `Conector.DueCount` | conector.py:122 | the count of due jobs is zero iff no registered job's time is due, and all of them iff every one is |
| `Conector.RunDue` | conector.py:119-122 | with no job due nothing happens and DAYS is not read; on a day DAYS covers, sync_job runs exactly once per due job, and on a day it does not cover not at all; main stops iff a job is due and DAYS is malformed, with a ValueError |
| `Conector.PassAsWritten` | conector.py:112-123 | a failed TIMER read stops main with its exception; a pass that goes on appends one job at the stripped HOUR, keeps every earlier job, records DAYS, and runs at most the jobs registered before it; otherwise it stops with a ValueError |
| `Conector.PassAddsOneJob` | conector.py:112-121 | every pass that does not stop adds exactly one job at an accepted time and cancels none |
| `Conector.PassesPileUpJobs` | conector.py:110-123 | n passes before the time leave n jobs at that time |
| `Conector.RepeatedSyncAtTheHour` | conector.py:110-123 | after n passes, the pass at the time runs sync_job n times on a day DAYS covers |
| `Conector.TimerConfigRead` | conector.py:113-117 | a TIMER section with a stripped accepted HOUR lets the loop go on |
| `Conector.PassReplacingJob` | conector.py:112-123 | corrected, a pass that goes on leaves only the job at the HOUR just read, and runs sync_job only when that job was already registered before the pass |
| `Conector.PassKeepsOneJob` | conector.py:119-122 | with one job per time, a pass leaves exactly one job, and a due time runs sync_job at most once |
| `Conector.Pass` | conector.py:112-123 | in either loop, a pass that goes on ends with its last job at the accepted HOUR just read, and with the DAYS just read governing every job |
| `Conector.PassesKeepOneJob` | conector.py:110-123 | corrected, any number of passes before the time leave exactly the one job |
| `Conector.SingleSyncAtTheHour` | conector.py:110-123 | corrected, the pass at the time runs sync_job exactly once, however many passes came before |
| `SetupIni.SetMissingOptions` | setup_ini.py:83-87 | the inner loop's section is the section with each missing default option set, and modified becomes true iff an option was missing |
| `SetupIni.MergeDefaults` | setup_ini.py:75-87 | the outer loop's configuration is MergeAll of the defaults, and modified is true iff some default section or option was missing |
| `SetupIni.MergeOptionsCompleteIsIdentity` | setup_ini.py:83-85 | a section already holding every default option is left as it was |
| `SetupIni.MergeCompleteIsIdentity` | setup_ini.py:77-87 | a configuration already holding every default is left as it was |
| `SetupIni.MergeOptionsProperties` | setup_ini.py:83-87 | after the inner loop the section holds every default option, keeps every value it had, and every new option carries its default value |
| `SetupIni.MergeKeepsAndCompletes` | setup_ini.py:77-87 | merging keeps every section and value the file had and leaves every default present |
| `SetupIni.MergeAddsOnlyDefaults` | setup_ini.py:77-87 | every section or option the merge adds is a default one, with its default value |
| `SetupIni.MergeIdempotent` | setup_ini.py:77-90 | a second update_ini finds nothing missing and changes nothing |
| `SetupIni.OtherSectionsUntouched` | setup_ini.py:77-87 | a section that is not a default one is neither added nor changed |
| `SetupIni.FreshIsDefaults` | setup_ini.py:13-34 | the file create_ini writes from scratch is exactly DEFAULT_CONFIG merged into an empty file |
| `SetupIni.DefaultsLackPath` | setup_ini.py:52-58 | with the defaults, app.py's upload raises KeyError("PATH"): the FTP defaults have no PATH |
| `SetupIni.DefaultFormatStopsExport` | setup_ini.py:48-51 | with the defaults, generate raises ValueError for the FORMAT "ip" and writes nothing |
| `SetupIni.ReadConfig` | app.py:23-27 | read_config, after create_ini, holds every default; it keeps everything an existing file held, and without a file it is the fresh file |
| `SetupIni.IniFile.constructor` | setup_ini.py:8 | the file as found: present or not, with its contents, not yet written |
| `SetupIni.IniFile.UpdateIni` | setup_ini.py:68-95 | modified iff a default was missing; only then is the file rewritten, once, with the merge; otherwise it is untouched |
| `SetupIni.IniFile.CreateIni` | setup_ini.py:7-38 | afterwards the file exists and holds every default; it is what ReadConfig describes, rewritten only when a default was missing, and written once when it did not exist |

## Left out

- Logging at info level is left out. Warning and error lines are modelled as `Notice` values, not their exact text.
- Database access, pandas, writing the file and the network are not modelled. Each appears as a `Step` that succeeds or raises, supplied by the caller.
- `logger.py` is not part of this model.
- Wall-clock time is not modelled. This covers `sched`'s thirty-second re-entry, `time.sleep(60)` and the schedule library's computation of the next run. Which daily times are due in a call is a parameter (`due`).
- The two endless loops (`sched` re-entering `check_config`, conector's `while True`) are modelled one call or one pass at a time (`CheckConfig`, `Passes`), never as a non-terminating run.
- Text.Int: does not model int()'s acceptance of signs, underscores and non-ASCII digits. It accepts ASCII digits, with surrounding whitespace.
- Upper and lower case are modelled for ASCII letters only. Unicode case mapping is left out.
- Text.Basename: models POSIX `os.path.basename`, splitting on '/' only. The Windows variant is left out.
- The modification time is modelled as an integer. Python returns a float, and only equality is used.
- Parsing and writing the INI text is left out. So are configparser's DEFAULT section and interpolation, and the order of sections and options in the written file. A `Config` is the parsed map, with option names lower-cased as configparser stores them.
- Pipeline.ScheduledTask: the weekday of the day check and the date in the file name are independent parameters. The program reads the clock separately for each, so near midnight they can belong to different days.
- Scheduling.DailyTimeOk: approximates at()'s check of a daily time as `HH:MM` or `HH:MM:SS`, with the hour at most 23.
- Export.Stamp: years are kept between 1000 and 9999, so strftime's `%Y` is four digits.
- Paramiko resolves a relative remote path against the directory chdir entered. The model records the path as given to `put`.
- SetupIni.ReadConfig: the `create_ini()` inside `read_config` is given as a function of the file's state. `Pipeline` and `Scheduling` take the configuration read_config returns as a parameter.

The model follows the code on these points, where the code is stricter or
looser than a reader might expect:

- A range written backwards ("5-1") gives no day and raises nothing (`Days.RangeOfDays`).
- Day numbers outside 1–7 are accepted and never match.
- The FTP defaults have no `PATH`, so `app.py` cannot upload with a freshly created file (`SetupIni.DefaultsLackPath`).
- The default `FORMAT` "ip" is refused (`SetupIni.DefaultFormatStopsExport`).
- A refused FTP login raises `ftplib.error_perm`, which `sync_job` reports with the message about the user's remote path (`Pipeline.LoginRefusalReportedAsPathError`).

## Findings

| source | as written | input that shows it | evidently intended | confidence | as-written member | corrected member |
|---|---|---|---|---|---|---|
| app.py:174-178 | the current job is cancelled before at() checks the new HOUR, and last_hour is left naming the old time | HOUR edited from "17:00" to "abc" and back to "17:00", each edit a new modification time | a refused HOUR keeps the current job, so correcting the typo leaves the 17:00 job in place | high, not executed | `Scheduling.RevertedHourNeverRearms` | `Scheduling.ReconfigureKeepsArmed` |
| app.py:183-184 | schedule.run_pending() is outside the try block, so the ValueError that is_valid_day raises for a malformed DAYS escapes check_config before it re-enters itself, propagates out of scheduler.run() (app.py:191), and main ends with a traceback | DAYS "1-2-3" when the daily time comes | the error is logged like other errors and checking goes on every thirty seconds | high, not executed | `Scheduling.MalformedDaysStopsScheduler` | `Scheduling.RunPendingNeverCrashes` |
| conector.py:119-121 | every pass of main registers one more daily job and none is ever cancelled | the program running for n minutes before the configured hour | one export at the configured hour | high, not executed | `Conector.RepeatedSyncAtTheHour` | `Conector.SingleSyncAtTheHour` |
