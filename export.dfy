/** The export step of generate: the name of the file written for one run,
    `<name>_<YYYYMMDD>.<ext>`, and the check of the configured format. The
    rows and the writing of the file itself are a step performed by a
    collaborator. */
module Export {
  import opened Base
  import opened Text
  import opened Ini

  predicate IsLeapYear(y: int) { y % 4 == 0 && (y % 100 != 0 || y % 400 == 0) }

  function DaysInMonth(y: int, m: int): int
    requires 1 <= m <= 12
  {
    if m == 2 then (if IsLeapYear(y) then 29 else 28)
    else if m == 4 || m == 6 || m == 9 || m == 11 then 30
    else 31
  }

  datatype CalendarDate = CalendarDate(year: int, month: int, day: int)

  predicate ValidDate(d: CalendarDate) {
    1000 <= d.year <= 9999 && 1 <= d.month <= 12 && 1 <= d.day <= DaysInMonth(d.year, d.month)
  }

  /** A calendar date whose year strftime writes with four digits. */
  type Date = d: CalendarDate | ValidDate(d) witness CalendarDate(2000, 1, 1)

  /** strftime('%Y%m%d'). */
  function Stamp(d: Date): (r: string)
    ensures |r| == 8 && AllDigits(r)
  {
    Digits(d.year, 4) + Digits(d.month, 2) + Digits(d.day, 2)
  }

  /** Reads a YYYYMMDD stamp back. */
  function ParseStamp(s: string): Option<Date>
  {
    if |s| == 8 && AllDigits(s) then
      var d := CalendarDate(DigitsValue(s[..4]), DigitsValue(s[4..6]), DigitsValue(s[6..]));
      if ValidDate(d) then Some(d) else None
    else None
  }

  /** The stamp of a date reads back as that date. */
  lemma StampRoundTrip(d: Date)
    ensures ParseStamp(Stamp(d)) == Some(d)
  {
    var s := Stamp(d);
    assert s[..4] == Digits(d.year, 4);
    assert s[4..6] == Digits(d.month, 2);
    assert s[6..] == Digits(d.day, 2);
    DigitsRoundTrip(d.year, 4);
    DigitsRoundTrip(d.month, 2);
    DigitsRoundTrip(d.day, 2);
  }

  /** Different dates get different stamps. */
  lemma StampInjective(d: Date, e: Date)
    requires Stamp(d) == Stamp(e)
    ensures d == e
  {
    StampRoundTrip(d);
    StampRoundTrip(e);
  }

  /** The extension chosen for a format: its lower-cased spelling, when that
      is csv or xlsx. */
  function Extension(format: string): (r: Result<string>)
    ensures r.Ok? <==> Lower(format) == "csv" || Lower(format) == "xlsx"
    ensures r.Ok? ==> r.value == Lower(format)
    ensures r.Raised? ==> r.exc == ValueError(UnsupportedFormat)
  {
    var f := Lower(format);
    if f == "csv" then Ok("csv")
    else if f == "xlsx" then Ok("xlsx")
    else Raised(ValueError(UnsupportedFormat))
  }

  /** The file name for a base name, a format and the day of the run. */
  function ExportName(base: string, format: string, date: Date): (r: Result<string>)
    ensures r.Ok? <==> Extension(format).Ok?
    ensures r.Raised? ==> r.exc == ValueError(UnsupportedFormat)
  {
    var ext :- Extension(format);
    Ok(base + "_" + Stamp(date) + "." + ext)
  }

  /** Splits an export file name into its base name, date and extension. */
  function ParseExportName(file: string): Option<(string, Date, string)>
  {
    var n := |file|;
    var (ext, rest) :=
      if n >= 4 && file[n - 4..] == ".csv" then ("csv", file[..n - 4])
      else if n >= 5 && file[n - 5..] == ".xlsx" then ("xlsx", file[..n - 5])
      else ("", file);
    var m := |rest|;
    if ext == "" || m < 9 || rest[m - 9] != '_' then None
    else
      match ParseStamp(rest[m - 8..])
      case None => None
      case Some(d) => Some((rest[..m - 9], d, ext))
  }

  /** An export name gives back the base name, the date and the extension
      it was made from. */
  lemma ExportNameRoundTrip(base: string, format: string, date: Date)
    requires ExportName(base, format, date).Ok?
    ensures ParseExportName(ExportName(base, format, date).value)
            == Some((base, date, Lower(format)))
  {
    var ext := Lower(format);
    var stamp := Stamp(date);
    var rest := base + "_" + stamp;
    var file := rest + "." + ext;
    assert ExportName(base, format, date).value == file;
    var n := |file|;
    if ext == "csv" {
      assert file[n - 4..] == ".csv";
      assert file[..n - 4] == rest;
    } else {
      assert file[n - 4..] != ".csv" by { assert file[n - 4] == 'x'; }
      assert file[n - 5..] == ".xlsx";
      assert file[..n - 5] == rest;
    }
    var m := |rest|;
    assert rest[m - 9] == '_';
    assert rest[m - 8..] == stamp;
    assert rest[..m - 9] == base;
    StampRoundTrip(date);
  }

  /** The format is compared without regard to letter case. */
  lemma FormatIgnoresCase(base: string, format: string, date: Date)
    ensures ExportName(base, Upper(format), date) == ExportName(base, format, date)
  {
    assert Lower(Upper(format)) == Lower(format);
  }

  /** What generate asked the writer to produce, and what it returned. */
  datatype Generated = Generated(written: Option<string>, result: Result<string>)

  /** generate(df, config): look up the base name and the format, then write
      the file under its export name. nameOption and formatOption are the
      option names the program reads. */
  function GenerateWith(cfg: Config, nameOption: string, formatOption: string,
                        date: Date, write: Step): (g: Generated)
    ensures g.result.Ok? <==>
              Get(cfg, "CSVDATA", nameOption).Ok? && Get(cfg, "CSVDATA", formatOption).Ok?
              && Extension(Get(cfg, "CSVDATA", formatOption).value).Ok? && write == Succeeds
    ensures g.written.Some? <==>
              Get(cfg, "CSVDATA", nameOption).Ok? && Get(cfg, "CSVDATA", formatOption).Ok?
              && Extension(Get(cfg, "CSVDATA", formatOption).value).Ok?
    ensures g.written.Some? ==>
              ParseExportName(g.written.value) == Some((Get(cfg, "CSVDATA", nameOption).value, date,
                                                        Lower(Get(cfg, "CSVDATA", formatOption).value)))
    ensures g.result.Ok? ==> g.written == Some(g.result.value)
  {
    match Get(cfg, "CSVDATA", nameOption)
    case Raised(e) => Generated(None, Raised(e))
    case Ok(base) =>
      match Get(cfg, "CSVDATA", formatOption)
      case Raised(e) => Generated(None, Raised(e))
      case Ok(format) =>
        match ExportName(base, format, date)
        case Raised(e) => Generated(None, Raised(e))
        case Ok(file) =>
          ExportNameRoundTrip(base, format, date);
          match write
          case Fails(e) => Generated(Some(file), Raised(e))
          case Succeeds => Generated(Some(file), Ok(file))
  }

  /** generate as app.py reads its options: a file is returned exactly
      when file_name and FORMAT are there, the format is csv or xlsx in any
      letter case and the write succeeds, and its name reads back as the
      base name, the date and the lower-cased format. */
  function Generate(cfg: Config, date: Date, write: Step): (g: Generated)
    ensures g.result.Ok? <==>
              Get(cfg, "CSVDATA", "file_name").Ok? && Get(cfg, "CSVDATA", "FORMAT").Ok?
              && Lower(Get(cfg, "CSVDATA", "FORMAT").value) in {"csv", "xlsx"} && write == Succeeds
    ensures g.result.Ok? ==>
              ParseExportName(g.result.value) == Some((Get(cfg, "CSVDATA", "file_name").value, date,
                                                       Lower(Get(cfg, "CSVDATA", "FORMAT").value)))
    ensures g.result.Raised? && g.written.Some? ==> write.Fails? && g.result == Raised(write.exc)
  {
    GenerateWith(cfg, "file_name", "FORMAT", date, write)
  }

  /** A format other than csv or xlsx raises ValueError and nothing is
      written. */
  lemma UnsupportedFormatWritesNothing(cfg: Config, date: Date, write: Step)
    requires Get(cfg, "CSVDATA", "file_name").Ok? && Get(cfg, "CSVDATA", "FORMAT").Ok?
    requires Lower(Get(cfg, "CSVDATA", "FORMAT").value) !in {"csv", "xlsx"}
    ensures Generate(cfg, date, write) == Generated(None, Raised(ValueError(UnsupportedFormat)))
  {
  }

  /** The defaults written by setup_ini (format "ip") are refused. */
  lemma DefaultFormatRefused()
    ensures Extension("ip") == Raised(ValueError(UnsupportedFormat))
  {
    assert Lower("ip") == "ip";
  }
}
