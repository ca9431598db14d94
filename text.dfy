/** The few Python string operations the program relies on: str.isspace,
    str.strip, str.split with a one-character separator, str.upper and
    str.lower on ASCII letters, int() on a decimal text, zero-padded
    decimal formatting and os.path.basename. */
module Text {
  import opened Base

  /** The characters for which str.isspace() holds. */
  const Whitespace: set<char> :=
    {'\t', '\n', '\U{0B}', '\U{0C}', '\r', '\U{1C}', '\U{1D}', '\U{1E}', '\U{1F}', ' ',
     '\U{85}', '\U{A0}', '\U{1680}',
     '\U{2000}', '\U{2001}', '\U{2002}', '\U{2003}', '\U{2004}', '\U{2005}', '\U{2006}',
     '\U{2007}', '\U{2008}', '\U{2009}', '\U{200A}',
     '\U{2028}', '\U{2029}', '\U{202F}', '\U{205F}', '\U{3000}'}

  /** str.isspace() of a single character. */
  predicate IsSpace(c: char) { c in Whitespace }

  predicate IsDigit(c: char) { '0' <= c <= '9' }

  predicate AllDigits(s: string) { forall i | 0 <= i < |s| :: IsDigit(s[i]) }

  function LowerChar(c: char): char { if 'A' <= c <= 'Z' then (c as int + 32) as char else c }

  function UpperChar(c: char): char { if 'a' <= c <= 'z' then (c as int - 32) as char else c }

  function Lower(s: string): string { seq(|s|, i requires 0 <= i < |s| => LowerChar(s[i])) }

  function Upper(s: string): string { seq(|s|, i requires 0 <= i < |s| => UpperChar(s[i])) }

  /** Upper-casing twice is upper-casing once. */
  lemma UpperIdempotent(s: string)
    ensures Upper(Upper(s)) == Upper(s)
  {
    var u := Upper(s);
    assert forall i | 0 <= i < |u| :: UpperChar(u[i]) == u[i];
  }

  /** The first position at or after i that does not hold whitespace
      (|s| if there is none). */
  function SpanStart(s: string, i: nat): (k: nat)
    requires i <= |s|
    ensures i <= k <= |s|
    ensures forall j | i <= j < k :: IsSpace(s[j])
    ensures k == |s| || !IsSpace(s[k])
    decreases |s| - i
  {
    if i < |s| && IsSpace(s[i]) then SpanStart(s, i + 1) else i
  }

  /** The end of s[lo..e] once its trailing whitespace is dropped. */
  function SpanEnd(s: string, lo: nat, e: nat): (k: nat)
    requires lo <= e <= |s|
    ensures lo <= k <= e
    ensures forall j | k <= j < e :: IsSpace(s[j])
    ensures k == lo || !IsSpace(s[k - 1])
    decreases e - lo
  {
    if e > lo && IsSpace(s[e - 1]) then SpanEnd(s, lo, e - 1) else e
  }

  /** str.strip(): the text between the leading and the trailing whitespace. */
  function Strip(s: string): (r: string)
    ensures var k := SpanStart(s, 0);
            k + |r| <= |s| && r == s[k..k + |r|]
            && (forall i | 0 <= i < k :: IsSpace(s[i]))
            && (forall i | k + |r| <= i < |s| :: IsSpace(s[i]))
    ensures r == [] || (!IsSpace(r[0]) && !IsSpace(r[|r| - 1]))
  {
    var k := SpanStart(s, 0);
    var e := SpanEnd(s, k, |s|);
    assert e > k ==> s[k..e][0] == s[k] && s[k..e][e - k - 1] == s[e - 1];
    s[k..e]
  }

  /** A text that neither starts nor ends with whitespace is its own strip. */
  lemma StripUnchanged(s: string)
    requires s == [] || (!IsSpace(s[0]) && !IsSpace(s[|s| - 1]))
    ensures Strip(s) == s
  {
  }

  /** str.split(sep) for a one-character separator. */
  function Split(s: string, sep: char): (parts: seq<string>)
    ensures |parts| >= 1
    ensures forall i | 0 <= i < |parts| :: sep !in parts[i]
    ensures |parts| == 1 <==> sep !in s
    decreases |s|
  {
    if |s| == 0 then [""]
    else
      var rest := Split(s[1..], sep);
      if s[0] == sep then [""] + rest
      else [[s[0]] + rest[0]] + rest[1..]
  }

  /** sep.join(parts): the inverse of Split. */
  function Join(parts: seq<string>, sep: char): string
    decreases |parts|
  {
    if |parts| == 0 then ""
    else if |parts| == 1 then parts[0]
    else parts[0] + [sep] + Join(parts[1..], sep)
  }

  /** Splitting loses nothing: joining the parts gives back the text. */
  lemma {:induction false} JoinSplit(s: string, sep: char)
    ensures Join(Split(s, sep), sep) == s
    decreases |s|
  {
    if |s| > 0 {
      JoinSplit(s[1..], sep);
      if s[0] == sep {
        JoinSplitSeparator(s, sep);
      } else {
        JoinSplitChar(s, sep);
      }
    }
  }

  /** The step of JoinSplit for a text starting with the separator. */
  lemma JoinSplitSeparator(s: string, sep: char)
    requires |s| > 0 && s[0] == sep
    requires Join(Split(s[1..], sep), sep) == s[1..]
    ensures Join(Split(s, sep), sep) == s
  {
    var rest := Split(s[1..], sep);
    assert Split(s, sep) == [""] + rest;
    assert ([""] + rest)[1..] == rest;
    assert s == [s[0]] + s[1..];
  }

  /** The step of JoinSplit for a text starting with another character. */
  lemma JoinSplitChar(s: string, sep: char)
    requires |s| > 0 && s[0] != sep
    requires Join(Split(s[1..], sep), sep) == s[1..]
    ensures Join(Split(s, sep), sep) == s
  {
    var rest := Split(s[1..], sep);
    assert Split(s, sep) == [[s[0]] + rest[0]] + rest[1..];
    JoinConsChar(rest, s[0], sep);
    assert s == [s[0]] + s[1..];
  }

  /** Putting a character in front of the first part puts it in front of
      the join. */
  lemma JoinConsChar(parts: seq<string>, c: char, sep: char)
    requires |parts| >= 1
    ensures Join([[c] + parts[0]] + parts[1..], sep) == [c] + Join(parts, sep)
  {
    var longer := [[c] + parts[0]] + parts[1..];
    if |parts| > 1 {
      assert longer[1..] == parts[1..];
      var tail := [sep] + Join(parts[1..], sep);
      assert Join(longer, sep) == ([c] + parts[0]) + tail;
      assert Join(parts, sep) == parts[0] + tail;
      assert ([c] + parts[0]) + tail == [c] + (parts[0] + tail);
    }
  }

  /** Splitting a join of separator-free parts recovers the parts. */
  lemma {:induction false} SplitJoin(parts: seq<string>, sep: char)
    requires |parts| >= 1
    requires forall i | 0 <= i < |parts| :: sep !in parts[i]
    ensures Split(Join(parts, sep), sep) == parts
    decreases |parts|, |parts[0]|
  {
    var p := parts[0];
    if |parts| == 1 {
      SplitNoSeparator(p, sep);
    } else if p == [] {
      SplitJoin(parts[1..], sep);
      SplitEmptyHead(parts, sep);
    } else {
      var shorter := [p[1..]] + parts[1..];
      DropFirstChar(parts, sep);
      SplitJoin(shorter, sep);
      SplitCharHead(parts, sep);
    }
  }

  /** The step of SplitJoin for an empty first part. */
  lemma SplitEmptyHead(parts: seq<string>, sep: char)
    requires |parts| >= 2 && parts[0] == []
    requires Split(Join(parts[1..], sep), sep) == parts[1..]
    ensures Split(Join(parts, sep), sep) == parts
  {
    var tail := Join(parts[1..], sep);
    assert Join(parts, sep) == [sep] + tail;
    assert ([sep] + tail)[1..] == tail;
    assert parts == [""] + parts[1..];
  }

  /** The step of SplitJoin for a first part that starts with a character
      other than the separator. */
  lemma SplitCharHead(parts: seq<string>, sep: char)
    requires |parts| >= 2 && parts[0] != [] && parts[0][0] != sep
    requires var shorter := [parts[0][1..]] + parts[1..];
             Join(parts, sep)[1..] == Join(shorter, sep) && Split(Join(shorter, sep), sep) == shorter
    ensures Split(Join(parts, sep), sep) == parts
  {
    var p := parts[0];
    var shorter := [p[1..]] + parts[1..];
    var j := Join(parts, sep);
    assert j == p + [sep] + Join(parts[1..], sep);
    assert j[0] == p[0];
    var rest := Split(j[1..], sep);
    assert [p[0]] + rest[0] == p;
    assert Split(j, sep) == [p] + parts[1..];
    assert parts == [p] + parts[1..];
  }

  /** Dropping the first character of the first part keeps the parts free
      of the separator and drops the first character of the join. */
  lemma DropFirstChar(parts: seq<string>, sep: char)
    requires |parts| >= 2 && parts[0] != []
    requires forall i | 0 <= i < |parts| :: sep !in parts[i]
    ensures var shorter := [parts[0][1..]] + parts[1..];
            (forall i | 0 <= i < |shorter| :: sep !in shorter[i])
            && Join(parts, sep)[1..] == Join(shorter, sep)
  {
    var p := parts[0];
    var shorter := [p[1..]] + parts[1..];
    assert shorter[1..] == parts[1..];
    forall i | 0 <= i < |shorter| ensures sep !in shorter[i] {
      if i == 0 {
        assert forall c | c in p[1..] :: c in p;
      } else {
        assert shorter[i] == parts[i];
      }
    }
    var tail := [sep] + Join(parts[1..], sep);
    assert Join(parts, sep) == p + tail;
    assert Join(shorter, sep) == p[1..] + tail;
    assert (p + tail)[1..] == p[1..] + tail;
  }

  /** A text without the separator splits into itself. */
  lemma {:induction false} SplitNoSeparator(s: string, sep: char)
    requires sep !in s
    ensures Split(s, sep) == [s]
    decreases |s|
  {
    if |s| > 0 {
      assert forall c | c in s[1..] :: c in s;
      SplitNoSeparator(s[1..], sep);
      assert [s[0]] + s[1..] == s;
    }
  }

  function DigitValue(c: char): nat
    requires IsDigit(c)
  {
    c as int - '0' as int
  }

  function DigitChar(d: nat): (c: char)
    requires d < 10
    ensures IsDigit(c) && DigitValue(c) == d
  {
    ('0' as int + d) as char
  }

  /** The value of a text of decimal digits. */
  function DigitsValue(s: string): nat
    requires AllDigits(s)
    decreases |s|
  {
    if s == [] then 0 else DigitsValue(s[..|s| - 1]) * 10 + DigitValue(s[|s| - 1])
  }

  /** The value of two decimal digits. */
  lemma TwoDigitsValue(s: string)
    requires |s| == 2 && AllDigits(s)
    ensures DigitsValue(s) == DigitValue(s[0]) * 10 + DigitValue(s[1])
  {
    var first := s[..1];
    assert first[..0] == [] && first[0] == s[0];
    assert DigitsValue(first) == DigitValue(s[0]);
  }

  function Pow10(n: nat): (r: nat)
    ensures r >= 1
  {
    if n == 0 then 1 else 10 * Pow10(n - 1)
  }

  /** The last w decimal digits of n, zero-padded on the left. */
  function Digits(n: nat, w: nat): (r: string)
    ensures |r| == w && AllDigits(r)
  {
    if w == 0 then [] else Digits(n / 10, w - 1) + [DigitChar(n % 10)]
  }

  /** Zero-padded formatting is undone by reading the digits back. */
  lemma {:induction false} DigitsRoundTrip(n: nat, w: nat)
    requires n < Pow10(w)
    ensures DigitsValue(Digits(n, w)) == n
  {
    if w > 0 {
      var r := Digits(n, w);
      assert n / 10 < Pow10(w - 1);
      DigitsRoundTrip(n / 10, w - 1);
      assert r[..|r| - 1] == Digits(n / 10, w - 1);
      assert DigitValue(r[|r| - 1]) == n % 10;
    }
  }

  /** int() of a text: surrounding whitespace allowed, then decimal digits. */
  function ParseInt(s: string): Option<nat>
  {
    var t := Strip(s);
    if t != [] && AllDigits(t) then Some(DigitsValue(t)) else None
  }

  /** int() as Python calls it: a ValueError for a text that is not a number. */
  function Int(s: string): (r: Result<nat>)
    ensures r.Raised? ==> r.exc == ValueError(IntLiteral(s))
    ensures r.Ok? <==> ParseInt(s).Some?
    ensures r.Ok? ==> ParseInt(s) == Some(r.value)
  {
    match ParseInt(s)
    case Some(n) => Ok(n)
    case None => Raised(ValueError(IntLiteral(s)))
  }

  /** int() reads back what zero-padded formatting wrote, with or without
      surrounding whitespace. */
  lemma ParseIntDigits(n: nat, w: nat)
    requires 0 < w && n < Pow10(w)
    ensures ParseInt(Digits(n, w)) == Some(n)
  {
    var d := Digits(n, w);
    StripUnchanged(d);
    DigitsRoundTrip(n, w);
  }

  /** os.path.basename with '/' as the only separator: the text after the
      last '/' (BasenameIsSuffix). */
  function Basename(p: string): (r: string)
    ensures '/' !in r
    decreases |p|
  {
    if p == [] || p[|p| - 1] == '/' then []
    else Basename(p[..|p| - 1]) + [p[|p| - 1]]
  }

  /** The base name is the end of the path, and the character before it,
      if any, is the last '/'. */
  lemma {:induction false} BasenameIsSuffix(p: string)
    ensures var r := Basename(p);
            |r| <= |p| && r == p[|p| - |r|..] && (|r| < |p| ==> p[|p| - |r| - 1] == '/')
    decreases |p|
  {
    if p != [] && p[|p| - 1] != '/' {
      var init := p[..|p| - 1];
      BasenameIsSuffix(init);
      var r := Basename(init);
      assert init[|init| - |r|..] + [p[|p| - 1]] == p[|p| - |r| - 1..];
    }
  }

  /** The base name of dir/name is name, when name holds no '/'. */
  lemma BasenameAfterSlash(dir: string, name: string)
    requires '/' !in name
    ensures Basename(dir + "/" + name) == name
  {
    var p := dir + "/" + name;
    var r := Basename(p);
    BasenameIsSuffix(p);
    assert p[|p| - |name| - 1] == '/';
    assert r == p[|p| - |r|..] && name == p[|p| - |name|..];
  }

  /** A base name is its own base name. */
  lemma BasenameOfBasename(p: string)
    ensures Basename(Basename(p)) == Basename(p)
  {
    var r := Basename(p);
    var q := Basename(r);
    BasenameIsSuffix(r);
    assert forall j | 0 <= j < |r| :: r[j] != '/';
    assert q == r[0..];
  }
}
