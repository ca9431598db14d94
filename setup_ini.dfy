/** setup_ini.py: the defaults of the configuration file, the fresh file
    create_ini writes when there is none, and update_ini, which adds every
    missing default section and option to an existing file, keeps every
    value already there, and writes the file back only when it added
    something. The file is seen through configparser, as an Ini.Config. */
module SetupIni {
  import opened Base
  import opened Text
  import opened Ini
  import opened Export
  import opened Delivery

  /** Sections in order, each with its options and default values in order. */
  type Defaults = seq<(string, seq<(string, string)>)>

  /** DEFAULT_CONFIG. */
  const DefaultConfig: Defaults := [
    ("DATABASE", [("SERVER", "ip"), ("USER", "usr"), ("PASSWORD", "pass"), ("DATABASE_NAME", "db"), ("QUERY", "spam")]),
    ("CSVDATA", [("FORMAT", "ip"), ("FILE_NAME", "usr")]),
    ("FTP", [("SERVER_TYPE", "SFTP"), ("HOST_FTP", "usr"), ("USER_FTP", "psw"), ("PASSWORD_FTP", "pass"), ("PORT_FTP", "22")]),
    ("TIMER", [("HOUR", "17:00"), ("DAYS", "1-5, 7")])
  ]

  /** The section a configuration has under name, or a new empty one. */
  function SectionOf(cfg: Config, name: string): Section
  {
    if name in cfg then cfg[name] else map[]
  }

  /** has_option, then set when it is missing. */
  function SetDefault(sec: Section, option: string, value: string): Section
  {
    if OptionKey(option) in sec then sec else sec[OptionKey(option) := value]
  }

  /** The inner loop of update_ini over one section's defaults. */
  function MergeOptions(sec: Section, options: seq<(string, string)>): Section
  {
    if options == [] then sec
    else
      var (option, value) := options[|options| - 1];
      SetDefault(MergeOptions(sec, options[..|options| - 1]), option, value)
  }

  /** The outer loop of update_ini: has_section, add_section when it is
      missing, then the options. */
  function MergeAll(cfg: Config, defaults: Defaults): Config
  {
    if defaults == [] then cfg
    else
      var prev := MergeAll(cfg, defaults[..|defaults| - 1]);
      var (name, options) := defaults[|defaults| - 1];
      prev[name := MergeOptions(SectionOf(prev, name), options)]
  }

  predicate SectionComplete(sec: Section, options: seq<(string, string)>)
  {
    forall j | 0 <= j < |options| :: OptionKey(options[j].0) in sec
  }

  /** Every default section and option is present. */
  predicate Complete(cfg: Config, defaults: Defaults)
  {
    forall i | 0 <= i < |defaults| :: defaults[i].0 in cfg && SectionComplete(cfg[defaults[i].0], defaults[i].1)
  }

  /** c2 has every section and option of c1, with the same values. */
  predicate Extends(c1: Config, c2: Config)
  {
    forall s | s in c1 :: s in c2 && forall k | k in c1[s] :: k in c2[s] && c2[s][k] == c1[s][k]
  }

  /** One of the defaults sets option key k of section s to v. */
  predicate DefaultFor(defaults: Defaults, s: string, k: string, v: string)
  {
    exists i, j | 0 <= i < |defaults| && 0 <= j < |defaults[i].1| ::
      defaults[i].0 == s && OptionKey(defaults[i].1[j].0) == k && defaults[i].1[j].1 == v
  }

  predicate DefaultSection(defaults: Defaults, s: string)
  {
    exists i | 0 <= i < |defaults| :: defaults[i].0 == s
  }

  /** The inner loop of update_ini: sets each missing option of one
      section and raises the flag when it sets one. */
  method SetMissingOptions(sec: Section, options: seq<(string, string)>, modified0: bool)
    returns (merged: Section, modified: bool)
    ensures merged == MergeOptions(sec, options)
    ensures modified <==> modified0 || !SectionComplete(sec, options)
  {
    merged := sec;
    modified := modified0;
    var j := 0;
    while j < |options|
      invariant 0 <= j <= |options|
      invariant merged == MergeOptions(sec, options[..j])
      invariant modified <==> modified0 || !SectionComplete(sec, options[..j])
    {
      var (option, value) := options[j];
      OptionStep(sec, options, j);
      if OptionKey(option) !in merged {
        merged := merged[OptionKey(option) := value];
        modified := true;
      }
      j := j + 1;
    }
    assert options[..j] == options;
  }

  /** One option of the inner loop extends the prefix by one. */
  lemma OptionStep(sec: Section, options: seq<(string, string)>, j: nat)
    requires j < |options|
    ensures MergeOptions(sec, options[..j + 1]) == SetDefault(MergeOptions(sec, options[..j]), options[j].0, options[j].1)
    ensures SectionComplete(sec, options[..j + 1])
            <==> SectionComplete(sec, options[..j]) && OptionKey(options[j].0) in sec
    ensures SectionComplete(sec, options[..j]) ==> MergeOptions(sec, options[..j]) == sec
  {
    assert options[..j + 1][..j] == options[..j];
    if SectionComplete(sec, options[..j + 1]) {
      assert options[..j + 1][j] == options[j];
    }
    if SectionComplete(sec, options[..j]) {
      MergeOptionsCompleteIsIdentity(sec, options[..j]);
    }
  }

  /** The loops of update_ini: the merged configuration and whether
      anything was added. */
  method MergeDefaults(cfg: Config, defaults: Defaults) returns (merged: Config, modified: bool)
    ensures merged == MergeAll(cfg, defaults)
    ensures modified <==> !Complete(cfg, defaults)
  {
    merged := cfg;
    modified := false;
    var i := 0;
    while i < |defaults|
      invariant 0 <= i <= |defaults|
      invariant merged == MergeAll(cfg, defaults[..i])
      invariant modified <==> !Complete(cfg, defaults[..i])
    {
      var name, options := defaults[i].0, defaults[i].1;
      ghost var prev, added := merged, modified;
      if name !in merged {
        merged := merged[name := map[]];
        modified := true;
      }
      var section;
      section, modified := SetMissingOptions(merged[name], options, modified);
      merged := merged[name := section];
      assert merged == prev[name := MergeOptions(SectionOf(prev, name), options)];
      SectionStep(cfg, defaults, i);
      assert modified <==> added || name !in prev || !SectionComplete(prev[name], options);
      CompleteStep(cfg, defaults, i);
      if Complete(cfg, defaults[..i]) {
        MergeCompleteIsIdentity(cfg, defaults[..i]);
      }
      i := i + 1;
    }
    assert defaults[..i] == defaults;
  }

  /** One section of the outer loop extends the prefix by one. */
  lemma SectionStep(cfg: Config, defaults: Defaults, i: nat)
    requires i < |defaults|
    ensures var prev := MergeAll(cfg, defaults[..i]);
            MergeAll(cfg, defaults[..i + 1])
            == prev[defaults[i].0 := MergeOptions(SectionOf(prev, defaults[i].0), defaults[i].1)]
  {
    var d := defaults[..i + 1];
    assert d[..i] == defaults[..i] && d[i] == defaults[i];
  }

  /** The defaults up to one section are complete when those before it
      are and that section is. */
  lemma CompleteStep(cfg: Config, defaults: Defaults, i: nat)
    requires i < |defaults|
    ensures Complete(cfg, defaults[..i + 1])
            <==> Complete(cfg, defaults[..i]) && defaults[i].0 in cfg && SectionComplete(cfg[defaults[i].0], defaults[i].1)
  {
    var d := defaults[..i + 1];
    assert d[i] == defaults[i];
    assert forall k | 0 <= k < i :: defaults[..i][k] == d[k];
  }

  /** Merging options a section already has changes nothing. */
  lemma {:induction false} MergeOptionsCompleteIsIdentity(sec: Section, options: seq<(string, string)>)
    requires SectionComplete(sec, options)
    ensures MergeOptions(sec, options) == sec
  {
    if options != [] {
      var init := options[..|options| - 1];
      assert forall j | 0 <= j < |init| :: init[j] == options[j];
      MergeOptionsCompleteIsIdentity(sec, init);
    }
  }

  /** Merging into a complete configuration changes nothing. */
  lemma {:induction false} MergeCompleteIsIdentity(cfg: Config, defaults: Defaults)
    requires Complete(cfg, defaults)
    ensures MergeAll(cfg, defaults) == cfg
  {
    if defaults != [] {
      var n := |defaults| - 1;
      var init := defaults[..n];
      assert forall i | 0 <= i < n :: init[i] == defaults[i];
      MergeCompleteIsIdentity(cfg, init);
      MergeOptionsCompleteIsIdentity(cfg[defaults[n].0], defaults[n].1);
    }
  }

  /** The inner loop keeps every option the section had and adds every
      default option, each with a value that one of the defaults gives. */
  lemma {:induction false} MergeOptionsProperties(sec: Section, options: seq<(string, string)>)
    ensures var r := MergeOptions(sec, options);
            SectionComplete(r, options)
            && (forall k | k in sec :: k in r && r[k] == sec[k])
            && (forall k | k in r :: k in sec || exists j | 0 <= j < |options| :: OptionKey(options[j].0) == k && options[j].1 == r[k])
  {
    if options != [] {
      MergeOptionsProperties(sec, options[..|options| - 1]);
      MergeOptionsStep(sec, options);
    }
  }

  /** The step of MergeOptionsProperties: one more option keeps the three
      properties. */
  lemma MergeOptionsStep(sec: Section, options: seq<(string, string)>)
    requires options != []
    requires var init := options[..|options| - 1];
             var prev := MergeOptions(sec, init);
             SectionComplete(prev, init)
             && (forall k | k in sec :: k in prev && prev[k] == sec[k])
             && (forall k | k in prev :: k in sec || exists j | 0 <= j < |init| :: OptionKey(init[j].0) == k && init[j].1 == prev[k])
    ensures var r := MergeOptions(sec, options);
            SectionComplete(r, options)
            && (forall k | k in sec :: k in r && r[k] == sec[k])
            && (forall k | k in r :: k in sec || exists j | 0 <= j < |options| :: OptionKey(options[j].0) == k && options[j].1 == r[k])
  {
    var n := |options| - 1;
    var init := options[..n];
    var prev := MergeOptions(sec, init);
    var r := MergeOptions(sec, options);
    assert r == SetDefault(prev, options[n].0, options[n].1);
    assert forall k | k in prev :: k in r && r[k] == prev[k];
    assert forall j | 0 <= j < n :: init[j] == options[j];
    assert SectionComplete(r, options) by {
      forall j | 0 <= j < |options| ensures OptionKey(options[j].0) in r {
        if j < n {
          assert OptionKey(init[j].0) in prev;
        }
      }
    }
    forall k | k in r && k !in sec
      ensures exists j | 0 <= j < |options| :: OptionKey(options[j].0) == k && options[j].1 == r[k]
    {
      if k in prev {
        var j :| 0 <= j < |init| && OptionKey(init[j].0) == k && init[j].1 == prev[k];
        assert options[j] == init[j];
      } else {
        assert OptionKey(options[n].0) == k && options[n].1 == r[k];
      }
    }
  }

  /** Extending is transitive. */
  lemma ExtendsTransitive(c1: Config, c2: Config, c3: Config)
    requires Extends(c1, c2) && Extends(c2, c3)
    ensures Extends(c1, c3)
  {
  }

  /** A configuration that extends a complete one is complete. */
  lemma CompleteExtended(c1: Config, c2: Config, defaults: Defaults)
    requires Complete(c1, defaults) && Extends(c1, c2)
    ensures Complete(c2, defaults)
  {
    forall i | 0 <= i < |defaults|
      ensures defaults[i].0 in c2 && SectionComplete(c2[defaults[i].0], defaults[i].1)
    {
      var s := defaults[i].0;
      assert forall j | 0 <= j < |defaults[i].1| :: OptionKey(defaults[i].1[j].0) in c1[s];
    }
  }

  /** update_ini keeps every section and option of the file, with its
      value, and afterwards every default section and option is present. */
  lemma {:induction false} MergeKeepsAndCompletes(cfg: Config, defaults: Defaults)
    ensures Extends(cfg, MergeAll(cfg, defaults))
    ensures Complete(MergeAll(cfg, defaults), defaults)
  {
    if defaults != [] {
      var n := |defaults| - 1;
      var init := defaults[..n];
      MergeKeepsAndCompletes(cfg, init);
      var prev := MergeAll(cfg, init);
      var (name, options) := defaults[n];
      var r := MergeAll(cfg, defaults);
      MergeOptionsProperties(SectionOf(prev, name), options);
      assert Extends(prev, r);
      ExtendsTransitive(cfg, prev, r);
      CompleteExtended(prev, r, init);
      forall i | 0 <= i < |defaults|
        ensures defaults[i].0 in r && SectionComplete(r[defaults[i].0], defaults[i].1)
      {
        if i < n {
          assert init[i] == defaults[i];
        }
      }
    }
  }

  /** Every section of r is in cfg or among the defaults, and every option
      of r is in cfg or has the value one of the defaults gives it. */
  predicate OnlyDefaults(cfg: Config, r: Config, defaults: Defaults)
  {
    forall s | s in r ::
      (s in cfg || DefaultSection(defaults, s))
      && forall k | k in r[s] :: (s in cfg && k in cfg[s]) || DefaultFor(defaults, s, k, r[s][k])
  }

  /** What a prefix of the defaults gives, the whole of them gives. */
  lemma OnlyDefaultsGrow(cfg: Config, r: Config, defaults: Defaults, n: nat)
    requires n <= |defaults| && OnlyDefaults(cfg, r, defaults[..n])
    ensures OnlyDefaults(cfg, r, defaults)
  {
    forall s | s in r
      ensures (s in cfg || DefaultSection(defaults, s))
              && forall k | k in r[s] :: (s in cfg && k in cfg[s]) || DefaultFor(defaults, s, k, r[s][k])
    {
      if s !in cfg {
        var i :| 0 <= i < n && defaults[..n][i].0 == s;
        assert defaults[i] == defaults[..n][i];
      }
      forall k | k in r[s] && !(s in cfg && k in cfg[s])
        ensures DefaultFor(defaults, s, k, r[s][k])
      {
        var i, j :| 0 <= i < n && 0 <= j < |defaults[..n][i].1| && defaults[..n][i].0 == s
                    && OptionKey(defaults[..n][i].1[j].0) == k && defaults[..n][i].1[j].1 == r[s][k];
        assert defaults[i] == defaults[..n][i];
      }
    }
  }

  /** The section merged last holds only options of cfg and its defaults. */
  lemma LastSectionOnlyDefaults(cfg: Config, defaults: Defaults)
    requires defaults != []
    requires OnlyDefaults(cfg, MergeAll(cfg, defaults[..|defaults| - 1]), defaults)
    ensures OnlyDefaults(cfg, MergeAll(cfg, defaults), defaults)
  {
    var n := |defaults| - 1;
    var prev := MergeAll(cfg, defaults[..n]);
    var (name, options) := defaults[n];
    var sec := MergeOptions(SectionOf(prev, name), options);
    var r := MergeAll(cfg, defaults);
    assert r == prev[name := sec];
    MergeOptionsProperties(SectionOf(prev, name), options);
    assert DefaultSection(defaults, name) by { assert defaults[n].0 == name; }
    forall k | k in sec && !(name in cfg && k in cfg[name])
      ensures DefaultFor(defaults, name, k, sec[k])
    {
      if k !in SectionOf(prev, name) {
        var j :| 0 <= j < |options| && OptionKey(options[j].0) == k && options[j].1 == sec[k];
        assert defaults[n].1[j] == options[j];
      }
    }
  }

  /** update_ini adds nothing but defaults. */
  lemma {:induction false} MergeAddsOnlyDefaults(cfg: Config, defaults: Defaults)
    ensures OnlyDefaults(cfg, MergeAll(cfg, defaults), defaults)
  {
    if defaults != [] {
      var n := |defaults| - 1;
      MergeAddsOnlyDefaults(cfg, defaults[..n]);
      OnlyDefaultsGrow(cfg, MergeAll(cfg, defaults[..n]), defaults, n);
      LastSectionOnlyDefaults(cfg, defaults);
    }
  }

  /** A merged file is complete, so merging it again adds nothing and
      leaves the flag down. */
  lemma MergeIdempotent(cfg: Config, defaults: Defaults)
    ensures Complete(MergeAll(cfg, defaults), defaults)
    ensures MergeAll(MergeAll(cfg, defaults), defaults) == MergeAll(cfg, defaults)
  {
    MergeKeepsAndCompletes(cfg, defaults);
    MergeCompleteIsIdentity(MergeAll(cfg, defaults), defaults);
  }

  /** A section the defaults do not name is left as it was, and is not
      created. */
  lemma OtherSectionsUntouched(cfg: Config, defaults: Defaults, s: string)
    requires !DefaultSection(defaults, s)
    ensures s in MergeAll(cfg, defaults) <==> s in cfg
    ensures s in cfg ==> MergeAll(cfg, defaults)[s] == cfg[s]
  {
    var r := MergeAll(cfg, defaults);
    MergeKeepsAndCompletes(cfg, defaults);
    MergeAddsOnlyDefaults(cfg, defaults);
    forall k | s in r && k in r[s] {
      DefaultForNamesSection(defaults, s, k, r[s][k]);
    }
  }

  lemma DefaultForNamesSection(defaults: Defaults, s: string, k: string, v: string)
    ensures DefaultFor(defaults, s, k, v) ==> DefaultSection(defaults, s)
  {
    if DefaultFor(defaults, s, k, v) {
      var i, j :| 0 <= i < |defaults| && 0 <= j < |defaults[i].1| && defaults[i].0 == s
                  && OptionKey(defaults[i].1[j].0) == k && defaults[i].1[j].1 == v;
    }
  }

  /** The file create_ini writes when there is none: the sections and
      options it adds and sets, the option names stored lower-cased as
      configparser stores them. */
  function FreshConfig(): Config
  {
    map[
      "DATABASE" := map["server" := "ip", "user" := "usr", "password" := "pass",
                        "database_name" := "db", "query" := "spam"],
      "CSVDATA" := map["format" := "ip", "file_name" := "usr"],
      "FTP" := map["server_type" := "SFTP", "host_ftp" := "usr", "user_ftp" := "psw",
                   "password_ftp" := "pass", "port_ftp" := "22"],
      "TIMER" := map["hour" := "17:00", "days" := "1-5, 7"]
    ]
  }

  /** The inner loop over one more option. */
  lemma MergeOptionsSnoc(sec: Section, options: seq<(string, string)>, option: string, value: string)
    ensures MergeOptions(sec, options + [(option, value)]) == SetDefault(MergeOptions(sec, options), option, value)
  {
    assert (options + [(option, value)])[..|options|] == options;
  }

  /** The stored names of the DATABASE options. */
  lemma DatabaseKeys()
    ensures OptionKey("SERVER") == "server" && OptionKey("USER") == "user"
    ensures OptionKey("PASSWORD") == "password" && OptionKey("DATABASE_NAME") == "database_name"
    ensures OptionKey("QUERY") == "query"
  {
  }

  /** The stored names of the FTP options. */
  lemma FtpKeys()
    ensures OptionKey("SERVER_TYPE") == "server_type" && OptionKey("HOST_FTP") == "host_ftp"
    ensures OptionKey("USER_FTP") == "user_ftp" && OptionKey("PASSWORD_FTP") == "password_ftp"
    ensures OptionKey("PORT_FTP") == "port_ftp"
  {
  }

  /** Each section of the fresh file is what update_ini makes of an
      empty section. */
  lemma FreshDatabase()
    ensures MergeOptions(map[], DefaultConfig[0].1) == FreshConfig()["DATABASE"]
  {
    DatabaseKeys();
    var o1 := [("SERVER", "ip")];
    var o2 := o1 + [("USER", "usr")];
    var o3 := o2 + [("PASSWORD", "pass")];
    var o4 := o3 + [("DATABASE_NAME", "db")];
    var o5 := o4 + [("QUERY", "spam")];
    var m1: Section := map["server" := "ip"];
    var m2 := m1["user" := "usr"];
    var m3 := m2["password" := "pass"];
    var m4 := m3["database_name" := "db"];
    var m5 := m4["query" := "spam"];
    assert MergeOptions(map[], o1) == m1 by { MergeOptionsSnoc(map[], [], "SERVER", "ip"); }
    assert MergeOptions(map[], o2) == m2 by { MergeOptionsSnoc(map[], o1, "USER", "usr"); }
    assert MergeOptions(map[], o3) == m3 by { MergeOptionsSnoc(map[], o2, "PASSWORD", "pass"); }
    assert MergeOptions(map[], o4) == m4 by { MergeOptionsSnoc(map[], o3, "DATABASE_NAME", "db"); }
    assert MergeOptions(map[], o5) == m5 by { MergeOptionsSnoc(map[], o4, "QUERY", "spam"); }
    assert o5 == DefaultConfig[0].1;
  }

  lemma FreshCsvData()
    ensures MergeOptions(map[], DefaultConfig[1].1) == FreshConfig()["CSVDATA"]
  {
    assert OptionKey("FORMAT") == "format" && OptionKey("FILE_NAME") == "file_name";
  }

  lemma FreshFtp()
    ensures MergeOptions(map[], DefaultConfig[2].1) == FreshConfig()["FTP"]
  {
    FtpKeys();
    var o1 := [("SERVER_TYPE", "SFTP")];
    var o2 := o1 + [("HOST_FTP", "usr")];
    var o3 := o2 + [("USER_FTP", "psw")];
    var o4 := o3 + [("PASSWORD_FTP", "pass")];
    var o5 := o4 + [("PORT_FTP", "22")];
    var m1: Section := map["server_type" := "SFTP"];
    var m2 := m1["host_ftp" := "usr"];
    var m3 := m2["user_ftp" := "psw"];
    var m4 := m3["password_ftp" := "pass"];
    var m5 := m4["port_ftp" := "22"];
    assert MergeOptions(map[], o1) == m1 by { MergeOptionsSnoc(map[], [], "SERVER_TYPE", "SFTP"); }
    assert MergeOptions(map[], o2) == m2 by { MergeOptionsSnoc(map[], o1, "HOST_FTP", "usr"); }
    assert MergeOptions(map[], o3) == m3 by { MergeOptionsSnoc(map[], o2, "USER_FTP", "psw"); }
    assert MergeOptions(map[], o4) == m4 by { MergeOptionsSnoc(map[], o3, "PASSWORD_FTP", "pass"); }
    assert MergeOptions(map[], o5) == m5 by { MergeOptionsSnoc(map[], o4, "PORT_FTP", "22"); }
    assert o5 == DefaultConfig[2].1;
  }

  lemma FreshTimer()
    ensures MergeOptions(map[], DefaultConfig[3].1) == FreshConfig()["TIMER"]
  {
    assert OptionKey("HOUR") == "hour" && OptionKey("DAYS") == "days";
  }

  /** The outer loop over one more section. */
  lemma MergeAllSnoc(cfg: Config, defaults: Defaults, name: string, options: seq<(string, string)>)
    ensures MergeAll(cfg, defaults + [(name, options)])
            == MergeAll(cfg, defaults)[name := MergeOptions(SectionOf(MergeAll(cfg, defaults), name), options)]
  {
    assert (defaults + [(name, options)])[..|defaults|] == defaults;
  }

  /** create_ini's fresh file and DEFAULT_CONFIG agree: the fresh file is
      what update_ini makes of an empty one. */
  lemma FreshIsDefaults()
    ensures FreshConfig() == MergeAll(map[], DefaultConfig)
  {
    var d := DefaultConfig;
    var d1 := [d[0]];
    var d2 := d1 + [d[1]];
    var d3 := d2 + [d[2]];
    var d4 := d3 + [d[3]];
    assert d4 == d;
    MergeAllSnoc(map[], [], d[0].0, d[0].1);
    MergeAllSnoc(map[], d1, d[1].0, d[1].1);
    MergeAllSnoc(map[], d2, d[2].0, d[2].1);
    MergeAllSnoc(map[], d3, d[3].0, d[3].1);
    FreshDatabase();
    FreshCsvData();
    FreshFtp();
    FreshTimer();
  }

  /** The FTP lookups app.py makes first, on the fresh file. */
  lemma FreshFtpLookups()
    ensures Get(FreshConfig(), "FTP", "server_type") == Ok("SFTP")
    ensures Get(FreshConfig(), "FTP", "PATH") == Raised(KeyError("PATH"))
  {
    assert OptionKey("server_type") == "server_type" && OptionKey("PATH") == "path";
  }

  /** The defaults have no FTP PATH option, which app.py's upload reads
      right after the server type: on the fresh file it raises KeyError. */
  lemma DefaultsLackPath()
    ensures AppSettings(FreshConfig()) == Raised(KeyError("PATH"))
  {
    FreshFtpLookups();
  }

  /** The CSVDATA lookups app.py's generate makes, on the fresh file. */
  lemma FreshCsvLookups()
    ensures Get(FreshConfig(), "CSVDATA", "file_name") == Ok("usr")
    ensures Get(FreshConfig(), "CSVDATA", "FORMAT") == Ok("ip")
  {
    assert OptionKey("file_name") == "file_name" && OptionKey("FORMAT") == "format";
  }

  /** The default format "ip" is neither csv nor xlsx: on the fresh file
      generate raises ValueError and writes nothing. */
  lemma DefaultFormatStopsExport(date: Date, write: Step)
    ensures Generate(FreshConfig(), date, write) == Generated(None, Raised(ValueError(UnsupportedFormat)))
  {
    FreshCsvLookups();
    DefaultFormatRefused();
  }

  /** What read_config of app.py returns, create_ini having run first:
      the file completed with the defaults (the fresh file when there was
      none). */
  function ReadConfig(present: bool, contents: Config): (cfg: Config)
    ensures Complete(cfg, DefaultConfig)
    ensures present ==> Extends(contents, cfg)
    ensures !present ==> cfg == FreshConfig()
  {
    FreshIsDefaults();
    MergeIdempotent(if present then contents else map[], DefaultConfig);
    MergeKeepsAndCompletes(if present then contents else map[], DefaultConfig);
    MergeAll(if present then contents else map[], DefaultConfig)
  }

  /** config.ini as the program finds it: whether it is there, what
      configparser reads from it, and how many times it was written. */
  class IniFile {
    var present: bool
    var contents: Config
    var writes: nat

    constructor(present: bool, contents: Config)
      ensures this.present == present && this.contents == contents && writes == 0
    {
      this.present := present;
      this.contents := contents;
      writes := 0;
    }

    /** update_ini(): read the file if there is one, add the missing
        defaults, and write the file back only when something was added. */
    method UpdateIni() returns (modified: bool)
      modifies this
      ensures var start := if old(present) then old(contents) else map[];
              (modified <==> !Complete(start, DefaultConfig))
              && present == (old(present) || modified)
              && contents == (if modified then MergeAll(start, DefaultConfig) else old(contents))
              && writes == old(writes) + (if modified then 1 else 0)
    {
      var config: Config := if present then contents else map[];
      var merged;
      merged, modified := MergeDefaults(config, DefaultConfig);
      if modified {
        contents := merged;
        present := true;
        writes := writes + 1;
      }
    }

    /** create_ini(): with a file, update it; without one, write the
        fresh file. Either way the file then holds every default. */
    method CreateIni()
      modifies this
      ensures present && Complete(contents, DefaultConfig)
      ensures contents == ReadConfig(old(present), old(contents))
      ensures old(present) ==> (contents == MergeAll(old(contents), DefaultConfig)
                                && writes == old(writes) + (if Complete(old(contents), DefaultConfig) then 0 else 1))
      ensures !old(present) ==> contents == FreshConfig() && writes == old(writes) + 1
    {
      if present {
        var modified := UpdateIni();
        MergeIdempotent(old(contents), DefaultConfig);
        if !modified {
          MergeCompleteIsIdentity(old(contents), DefaultConfig);
        }
        return;
      }
      contents := FreshConfig();
      present := true;
      writes := writes + 1;
      FreshIsDefaults();
      MergeIdempotent(map[], DefaultConfig);
    }
  }
}
