/** The day gate: a DAYS text such as "1-5, 7" names the ISO weekdays
    (Monday is 1) on which the daily job may run. The text is split on
    commas, each part is stripped, a part holding '-' is an inclusive range
    and any other part is a single day; the union of the parts is tested
    for today's weekday. */
module Days {
  import opened Base
  import opened Text

  /** datetime.isoweekday(): Monday is 1, Sunday is 7. */
  type Weekday = d: int | 1 <= d <= 7 witness 1

  /** range(start, end + 1) as a set: empty when start > end. */
  function Range(start: nat, end: nat): (r: set<nat>)
    ensures forall d :: d in r <==> start <= d <= end
    decreases end - start
  {
    if start > end then {} else {start} + Range(start + 1, end)
  }

  /** The days one comma-separated part adds, or the ValueError it raises:
      the part is stripped, then read as a range or as a single day. */
  function TokenDays(token: string): (r: Result<set<nat>>)
    ensures r.Raised? ==> r.exc.ValueError?
  {
    var part := Strip(token);
    if '-' in part then RangeDays(Split(part, '-')) else SingleDay(part)
  }

  /** start, end = map(int, pieces), then range(start, end + 1). Unpacking
      reads one piece past the second before it complains that there are too
      many, so a bad third piece is reported as such. */
  function RangeDays(pieces: seq<string>): (r: Result<set<nat>>)
    requires |pieces| >= 2
    ensures r.Raised? ==> r.exc.ValueError?
  {
    var start :- Int(pieces[0]);
    var end :- Int(pieces[1]);
    if |pieces| > 2 then
      var third :- Int(pieces[2]);
      Raised(ValueError(UnpackCount))
    else
      Ok(Range(start, end))
  }

  /** int(part) as the one day it names. */
  function SingleDay(part: string): (r: Result<set<nat>>)
    ensures r.Raised? ==> r.exc == ValueError(IntLiteral(part))
  {
    var day :- Int(part);
    Ok({day})
  }

  /** The outcome of each part, in order. */
  function PartDays(parts: seq<string>): (r: seq<Result<set<nat>>>)
    ensures |r| == |parts| && forall i | 0 <= i < |parts| :: r[i] == TokenDays(parts[i])
  {
    seq(|parts|, i requires 0 <= i < |parts| => TokenDays(parts[i]))
  }

  /** The union of the parts' days, built front to back, or the error of the
      first part that fails. */
  function Union(outcomes: seq<Result<set<nat>>>): Result<set<nat>>
  {
    if outcomes == [] then Ok({})
    else
      var earlier :- Union(outcomes[..|outcomes| - 1]);
      var more :- outcomes[|outcomes| - 1];
      Ok(earlier + more)
  }

  function DaySet(days: string): Result<set<nat>> { Union(PartDays(Split(days, ','))) }

  /** The specification of the gate: is today in the day set? The day set
      is built exactly when every part is a day or a range; otherwise the
      exception is that of the first part that is neither. */
  function Eligible(days: string, today: Weekday): (r: Result<bool>)
    ensures r.Ok? <==> forall i | 0 <= i < |Split(days, ',')| :: TokenDays(Split(days, ',')[i]).Ok?
    ensures r.Raised? ==>
              exists k | 0 <= k < |Split(days, ',')| ::
                TokenDays(Split(days, ',')[k]) == Raised(r.exc)
                && forall i | 0 <= i < k :: TokenDays(Split(days, ',')[i]).Ok?
  {
    var outcomes := PartDays(Split(days, ','));
    UnionOfParts(outcomes);
    match DaySet(days)
    case Raised(e) => FirstErrorWins(outcomes); Raised(e)
    case Ok(valid) => Ok(today in valid)
  }

  /** Every part of the text is a day or a range. */
  predicate WellFormed(days: string)
  {
    var parts := Split(days, ',');
    forall i | 0 <= i < |parts| :: TokenDays(parts[i]).Ok?
  }

  /** Some part of a well-formed text names the day. */
  predicate Covered(days: string, d: nat)
    requires WellFormed(days)
  {
    var parts := Split(days, ',');
    exists i | 0 <= i < |parts| :: d in TokenDays(parts[i]).value
  }

  /** is_valid_day (and conector's identical valid): the loop that builds the
      set part by part, then the membership test. */
  method IsValidDay(daysConfig: string, today: Weekday) returns (r: Result<bool>)
    ensures r == Eligible(daysConfig, today)
  {
    var validDays: set<nat> := {};
    var parts := Split(daysConfig, ',');
    ghost var outcomes := PartDays(parts);
    var i := 0;
    while i < |parts|
      invariant 0 <= i <= |parts|
      invariant Union(outcomes[..i]) == Ok(validDays)
    {
      FirstFailureIsRaised(outcomes, i);
      assert outcomes[..i + 1][..i] == outcomes[..i];
      var part := Strip(parts[i]);
      if '-' in part {
        var days :- RangeDays(Split(part, '-'));
        validDays := validDays + days;
      } else {
        var day :- Int(part);
        validDays := validDays + {day};
      }
      i := i + 1;
    }
    assert outcomes[..i] == outcomes;
    r := Ok(today in validDays);
  }

  /** The first part that fails decides the outcome of the whole text:
      later parts are never looked at. */
  lemma {:induction false} FirstFailureIsRaised(outcomes: seq<Result<set<nat>>>, i: nat)
    requires i < |outcomes| && Union(outcomes[..i]).Ok?
    ensures outcomes[i].Raised? ==> Union(outcomes) == Raised(outcomes[i].exc)
    decreases |outcomes|
  {
    if outcomes[i].Raised? {
      if i == |outcomes| - 1 {
        assert outcomes[..|outcomes| - 1] == outcomes[..i];
      } else {
        var init := outcomes[..|outcomes| - 1];
        assert init[..i] == outcomes[..i];
        FirstFailureIsRaised(init, i);
      }
    }
  }

  /** The union is built exactly when every part succeeds, and then it holds
      exactly the days some part names. */
  lemma {:induction false} UnionOfParts(outcomes: seq<Result<set<nat>>>)
    ensures Union(outcomes).Ok? <==> forall i | 0 <= i < |outcomes| :: outcomes[i].Ok?
    ensures Union(outcomes).Ok? ==>
              forall d :: d in Union(outcomes).value <==>
                          exists i | 0 <= i < |outcomes| :: outcomes[i].Ok? && d in outcomes[i].value
    decreases |outcomes|
  {
    if outcomes != [] {
      var init := outcomes[..|outcomes| - 1];
      UnionOfParts(init);
      assert forall i | 0 <= i < |init| :: init[i] == outcomes[i];
    }
  }

  /** A union that raises reports the error of the first part that failed. */
  lemma {:induction false} FirstErrorWins(outcomes: seq<Result<set<nat>>>)
    requires Union(outcomes).Raised?
    ensures exists k | 0 <= k < |outcomes| ::
              outcomes[k] == Raised(Union(outcomes).exc) && forall i | 0 <= i < k :: outcomes[i].Ok?
    decreases |outcomes|
  {
    var init := outcomes[..|outcomes| - 1];
    assert forall i | 0 <= i < |init| :: init[i] == outcomes[i];
    if Union(init).Ok? {
      UnionOfParts(init);
      var k := |outcomes| - 1;
      assert outcomes[k] == Raised(Union(outcomes).exc);
    } else {
      FirstErrorWins(init);
      var k :| 0 <= k < |init| && init[k] == Raised(Union(init).exc) && forall i | 0 <= i < k :: init[i].Ok?;
      assert outcomes[k] == Raised(Union(outcomes).exc);
    }
  }

  /** The gate is true exactly when the text is well-formed and some part
      names today, false exactly when it is well-formed and none does, and
      raises a ValueError exactly when some part is malformed. */
  lemma EligibleIffCovered(days: string, today: Weekday)
    ensures Eligible(days, today) == Ok(true) <==> WellFormed(days) && Covered(days, today)
    ensures Eligible(days, today) == Ok(false) <==> WellFormed(days) && !Covered(days, today)
    ensures Eligible(days, today).Raised? <==> !WellFormed(days)
    ensures Eligible(days, today).Raised? ==> Eligible(days, today).exc.ValueError?
  {
    var parts := Split(days, ',');
    var outcomes := PartDays(parts);
    UnionOfParts(outcomes);
    if Union(outcomes).Raised? {
      FirstErrorWins(outcomes);
    }
  }

  /** A bare number is that one day, whatever its value: 9 is accepted and
      simply never matches a weekday. */
  lemma BareNumberIsOneDay(token: string, n: nat, w: nat)
    requires 0 < w && n < Pow10(w)
    requires Strip(token) == Digits(n, w)
    ensures TokenDays(token) == Ok({n})
  {
    ParseIntDigits(n, w);
    assert '-' !in Digits(n, w);
  }

  /** "a-b" is the inclusive range a..b, which is empty when a > b: an
      inverted range adds nothing and raises nothing. */
  lemma RangeOfDays(token: string, a: nat, wa: nat, b: nat, wb: nat)
    requires 0 < wa && a < Pow10(wa) && 0 < wb && b < Pow10(wb)
    requires Strip(token) == Digits(a, wa) + "-" + Digits(b, wb)
    ensures TokenDays(token) == Ok(Range(a, b))
    ensures a > b ==> TokenDays(token) == Ok({})
    ensures forall d :: d in TokenDays(token).value <==> a <= d <= b
  {
    var pa, pb := Digits(a, wa), Digits(b, wb);
    assert '-' !in pa && '-' !in pb;
    assert Join([pa, pb], '-') == pa + "-" + pb;
    SplitJoin([pa, pb], '-');
    ParseIntDigits(a, wa);
    ParseIntDigits(b, wb);
    assert '-' in Strip(token) by { assert Strip(token)[|pa|] == '-'; }
  }

  /** An empty part (as in "1,,3" or a trailing comma) raises a ValueError. */
  lemma EmptyPartRaises(token: string)
    requires Strip(token) == ""
    ensures TokenDays(token) == Raised(ValueError(IntLiteral("")))
  {
  }

  /** A part with two or more dashes, such as "1-2-3", raises a ValueError. */
  lemma ManyDashesRaise(token: string)
    requires |Split(Strip(token), '-')| > 2
    ensures TokenDays(token).Raised? && TokenDays(token).exc.ValueError?
  {
    var part := Strip(token);
    var pieces := Split(part, '-');
    assert '-' in part;
    assert TokenDays(token) == RangeDays(pieces);
    ManyPiecesRaise(pieces);
  }

  lemma ManyPiecesRaise(pieces: seq<string>)
    requires |pieces| > 2
    ensures RangeDays(pieces).Raised? && RangeDays(pieces).exc.ValueError?
  {
  }

  /** A text without commas whose one part raises is malformed. */
  lemma BadSinglePart(days: string)
    requires ',' !in days && TokenDays(days).Raised?
    ensures !WellFormed(days)
  {
    SplitNoSeparator(days, ',');
    assert Split(days, ',')[0] == days;
  }

  lemma NoCommaInThreePieces()
    ensures ',' !in "1-2-3"
  {
  }

  /** "1-2-3" is refused. */
  lemma ThreePieceRange()
    ensures TokenDays("1-2-3").Raised? && TokenDays("1-2-3").exc.ValueError?
    ensures !WellFormed("1-2-3")
  {
    StripUnchanged("1-2-3");
    assert Join(["1", "2", "3"], '-') == "1-2-3";
    SplitJoin(["1", "2", "3"], '-');
    ManyDashesRaise("1-2-3");
    NoCommaInThreePieces();
    BadSinglePart("1-2-3");
  }

  /** A part without a dash that is not a number raises a ValueError. */
  lemma NonNumberRaises(token: string)
    requires '-' !in Strip(token) && !AllDigits(Strip(token))
    ensures TokenDays(token) == Raised(ValueError(IntLiteral(Strip(token))))
  {
    StripUnchanged(Strip(token));
  }

  /** One leading blank does not change a stripped part. */
  lemma LeadingSpaceIgnored(t: string)
    requires t == [] || (!IsSpace(t[0]) && !IsSpace(t[|t| - 1]))
    ensures Strip([' '] + t) == t
  {
    var s := [' '] + t;
    assert IsSpace(' ');
    assert SpanStart(s, 0) == SpanStart(s, 1);
    assert t != [] ==> s[1] == t[0] && s[|s| - 1] == t[|t| - 1];
    assert s[1..|s|] == t;
  }

  /** The union of two successful parts is the union of their days. */
  lemma UnionOfTwo(outcomes: seq<Result<set<nat>>>, x: set<nat>, y: set<nat>)
    requires |outcomes| == 2 && outcomes[0] == Ok(x) && outcomes[1] == Ok(y)
    ensures Union(outcomes) == Ok(x + y)
  {
    var first := outcomes[..1];
    assert first[..0] == [] && first[0] == Ok(x);
    assert Union(first) == Ok({} + x);
    assert {} + x == x;
  }

  /** The default DAYS text splits into a range and a single day. */
  lemma DefaultDaysParts()
    ensures Split("1-5, 7", ',') == ["1-5", " 7"]
  {
    assert Join(["1-5", " 7"], ',') == "1-5, 7";
    SplitJoin(["1-5", " 7"], ',');
  }

  lemma WorkingWeek()
    ensures TokenDays("1-5") == Ok(Range(1, 5))
  {
    StripUnchanged("1-5");
    assert Digits(1, 1) == "1" && Digits(5, 1) == "5";
    RangeOfDays("1-5", 1, 1, 5, 1);
  }

  lemma Sunday()
    ensures TokenDays(" 7") == Ok({7})
  {
    LeadingSpaceIgnored("7");
    assert " 7" == [' '] + "7";
    assert Digits(7, 1) == "7";
    BareNumberIsOneDay(" 7", 7, 1);
  }

  /** A text of two good parts gives the union of their days. */
  lemma TwoParts(days: string, p: string, q: string, x: set<nat>, y: set<nat>)
    requires Split(days, ',') == [p, q] && TokenDays(p) == Ok(x) && TokenDays(q) == Ok(y)
    ensures DaySet(days) == Ok(x + y)
  {
    var r := PartDays(Split(days, ','));
    UnionOfTwo(r, x, y);
  }

  lemma DefaultDaySet()
    ensures DaySet("1-5, 7") == Ok(Range(1, 5) + {7})
  {
    DefaultDaysParts();
    WorkingWeek();
    Sunday();
    TwoParts("1-5, 7", "1-5", " 7", Range(1, 5), {7});
  }

  /** The default DAYS text: Monday to Friday and Sunday. */
  lemma DefaultDays()
    ensures Eligible("1-5, 7", 3) == Ok(true)
    ensures Eligible("1-5, 7", 6) == Ok(false)
  {
    DefaultDaySet();
    var valid := Range(1, 5) + {7};
    assert 3 in valid && 6 !in valid;
  }
}
