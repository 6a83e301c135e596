/** Extraction of the performance numbers from a load-generator pod's log
    (client_job.py, the per-pod loop over METRIC_PATTERNS). The regular
    expressions of the pattern table are matched by hand: the literal, a run of
    whitespace, the captured run, and for most patterns a second whitespace run
    and the unit word. `re.search` takes the leftmost position where the pattern
    matches; `float` or `int` converts the captured text. */
module LogParse {
  import opened Outcomes
  import opened Config

  /** Python's `\s` on the ASCII characters: space, \t, \n, \v, \f, \r and
      the four separators \x1c to \x1f, which `str.isspace` also accepts. */
  predicate IsSpace(c: char)
  {
    c == ' ' || ('\t' <= c <= '\r') || ('\U{001C}' <= c <= '\U{001F}')
  }

  predicate IsDigit(c: char)
  {
    '0' <= c <= '9'
  }

  predicate InCapture(cap: Capture, c: char)
  {
    IsDigit(c) || (cap == DigitDotRun && c == '.')
  }

  /** The character classes of the runs a pattern is made of. */
  datatype Class = Space | Captured(cap: Capture)

  predicate InClass(cls: Class, c: char)
  {
    match cls
    case Space => IsSpace(c)
    case Captured(cap) => InCapture(cap, c)
  }

  predicate AllIn(text: string, i: nat, j: nat, cls: Class)
    requires i <= j <= |text|
  {
    forall k :: i <= k < j ==> InClass(cls, text[k])
  }

  predicate StartsAt(text: string, p: nat, s: string)
  {
    p + |s| <= |text| && text[p..p + |s|] == s
  }

  /** End of the longest run of `cls` characters that starts at `i` (a greedy `+`/`*`). */
  function RunEnd(text: string, i: nat, cls: Class): (j: nat)
    requires i <= |text|
    ensures i <= j <= |text|
    ensures AllIn(text, i, j, cls)
    ensures j < |text| ==> !InClass(cls, text[j])
    decreases |text| - i
  {
    if i < |text| && InClass(cls, text[i]) then RunEnd(text, i + 1, cls) else i
  }

  /** A run that is all `cls` and is not followed by a `cls` character is the longest one. */
  lemma RunEndAt(text: string, i: nat, k: nat, cls: Class)
    requires i <= k <= |text| && AllIn(text, i, k, cls)
    requires k == |text| || !InClass(cls, text[k])
    ensures RunEnd(text, i, cls) == k
  {
  }

  /** A unit word is well formed when it does not start with whitespace, so the
      whitespace run before it is forced to be the longest one. */
  predicate WellFormed(pat: Pattern)
  {
    pat.unit.Some? ==> pat.unit.value != [] && !IsSpace(pat.unit.value[0])
  }

  /** The captured text when `pat` matches at position `p` of `text`. */
  function MatchAt(text: string, p: nat, pat: Pattern): (m: Option<string>)
    requires p <= |text|
    ensures m.Some? ==> m.value != [] && forall c :: c in m.value ==> InCapture(pat.capture, c)
  {
    if !StartsAt(text, p, pat.literal) then None
    else
      var i := p + |pat.literal|;
      var j := RunEnd(text, i, Space);
      if j == i then None
      else
        var k := RunEnd(text, j, Captured(pat.capture));
        if k == j then None
        else
          match pat.unit
          case None => Some(text[j..k])
          case Some(u) =>
            var l := RunEnd(text, k, Space);
            if l > k && StartsAt(text, l, u) then Some(text[j..k]) else None
  }

  /** The ways the regular expression can match at `p`: the whitespace run is
      text[p+|literal|..j], the capture text[j..k] and the second whitespace run
      text[k..l] (empty when the pattern has no unit). */
  predicate Decomposes(text: string, p: nat, pat: Pattern, j: nat, k: nat, l: nat)
  {
    StartsAt(text, p, pat.literal) &&
    p + |pat.literal| < j < k <= l <= |text| &&
    AllIn(text, p + |pat.literal|, j, Space) &&
    AllIn(text, j, k, Captured(pat.capture)) &&
    match pat.unit
    case None => l == k
    case Some(u) => k < l && AllIn(text, k, l, Space) && StartsAt(text, l, u)
  }

  /** Every capture MatchAt reports is a way the expression matches. */
  lemma MatchAtSound(text: string, p: nat, pat: Pattern)
    requires p <= |text| && MatchAt(text, p, pat).Some?
    ensures exists j: nat, k: nat, l: nat :: Decomposes(text, p, pat, j, k, l) && MatchAt(text, p, pat).value == text[j..k]
  {
    var i := p + |pat.literal|;
    var j := RunEnd(text, i, Space);
    var k := RunEnd(text, j, Captured(pat.capture));
    var l := if pat.unit.None? then k else RunEnd(text, k, Space);
    assert Decomposes(text, p, pat, j, k, l);
  }

  /** Whenever the expression matches at `p`, MatchAt finds it; with a unit the
      capture is the only possible one, and without a unit it is the greedy
      (longest) one that `re.search` reports. */
  lemma MatchAtComplete(text: string, p: nat, pat: Pattern, j: nat, k: nat, l: nat)
    requires WellFormed(pat) && Decomposes(text, p, pat, j, k, l)
    ensures MatchAt(text, p, pat).Some?
    ensures pat.unit.Some? ==> MatchAt(text, p, pat) == Some(text[j..k])
    ensures pat.unit.None? ==>
      var c := MatchAt(text, p, pat).value;
      k - j <= |c| && c == text[j..j + |c|]
  {
    var i := p + |pat.literal|;
    assert InClass(Captured(pat.capture), text[j]);
    RunEndAt(text, i, j, Space);
    if pat.unit.Some? {
      var u := pat.unit.value;
      assert IsSpace(text[k]);
      RunEndAt(text, j, k, Captured(pat.capture));
      assert text[l] == u[0];
      RunEndAt(text, k, l, Space);
    }
  }

  datatype Match = Match(pos: nat, capture: string)

  predicate IsFirstMatch(text: string, pat: Pattern, q: nat)
  {
    q <= |text| && MatchAt(text, q, pat).Some? &&
    forall q' :: 0 <= q' < q ==> MatchAt(text, q', pat).None?
  }

  /** `re.search` from position `p`: the leftmost position at or after `p`
      where the pattern matches (SearchFromLeftmost, SearchFromNone). */
  function SearchFrom(text: string, pat: Pattern, p: nat): (m: Option<Match>)
    requires p <= |text|
    ensures m.Some? ==> p <= m.value.pos <= |text| && MatchAt(text, m.value.pos, pat) == Some(m.value.capture)
    decreases |text| - p
  {
    match MatchAt(text, p, pat)
    case Some(c) => Some(Match(p, c))
    case None => if p == |text| then None else SearchFrom(text, pat, p + 1)
  }

  /** A search result is the leftmost match at or after `p`: there is no match
      between `p` and its position. */
  lemma {:induction false} SearchFromLeftmost(text: string, pat: Pattern, p: nat)
    requires p <= |text| && SearchFrom(text, pat, p).Some?
    ensures forall q :: p <= q < SearchFrom(text, pat, p).value.pos ==> MatchAt(text, q, pat).None?
    decreases |text| - p
  {
    var here := MatchAt(text, p, pat);
    if here.None? {
      SearchFromLeftmost(text, pat, p + 1);
      var pos := SearchFrom(text, pat, p + 1).value.pos;
      assert SearchFrom(text, pat, p) == SearchFrom(text, pat, p + 1);
      forall q | p <= q < pos
        ensures MatchAt(text, q, pat).None?
      {
        if q == p {
          assert here.None?;
        }
      }
    }
  }

  /** No search result means no match at any position from `p` on. */
  lemma {:induction false} SearchFromNone(text: string, pat: Pattern, p: nat)
    requires p <= |text| && SearchFrom(text, pat, p).None?
    ensures forall q :: p <= q <= |text| ==> MatchAt(text, q, pat).None?
    decreases |text| - p
  {
    if p < |text| {
      SearchFromNone(text, pat, p + 1);
    }
  }

  /** A number as the dispatcher stores it: `int(...)` or `float(...)`. */
  datatype Number = Int(n: nat) | Decimal(d: real)

  /** `float` refused the captured text. */
  datatype ValueError = ValueError(text: string)

  predicate DigitsOnly(s: string)
  {
    forall i :: 0 <= i < |s| ==> IsDigit(s[i])
  }

  predicate DigitsOrDots(s: string)
  {
    forall i :: 0 <= i < |s| ==> IsDigit(s[i]) || s[i] == '.'
  }

  function DigitsValue(s: string): nat
    requires DigitsOnly(s)
  {
    if s == [] then 0 else DigitsValue(s[..|s| - 1]) * 10 + (s[|s| - 1] as int - '0' as int)
  }

  function Pow10(k: nat): (r: nat)
    ensures r >= 1
  {
    if k == 0 then 1 else 10 * Pow10(k - 1)
  }

  function DotCount(s: string): nat
  {
    if s == [] then 0 else (if s[0] == '.' then 1 else 0) + DotCount(s[1..])
  }

  lemma {:induction false} DotCountZero(s: string)
    ensures DotCount(s) == 0 <==> '.' !in s
  {
    if s != [] {
      DotCountZero(s[1..]);
      assert s == [s[0]] + s[1..];
    }
  }

  /** Position of the first '.' in `s`. */
  function DotIndex(s: string): (d: nat)
    requires '.' in s
    ensures d < |s| && s[d] == '.' && '.' !in s[..d]
  {
    if s[0] == '.' then 0
    else
      assert s == [s[0]] + s[1..];
      var d := DotIndex(s[1..]);
      assert s[..d + 1] == [s[0]] + s[1..][..d];
      d + 1
  }

  /** Among strings of digits and dots, `float` accepts exactly those with one
      dot and at least one digit ("5.", ".5", "1.25"; not ".", not "1.2.3"). */
  predicate FloatAccepts(s: string)
  {
    DotCount(s) == 1 && |s| >= 2
  }

  /** The value of the decimal literal "w.f". */
  function DecimalOf(w: string, f: string): real
    requires DigitsOnly(w) && DigitsOnly(f)
  {
    (DigitsValue(w) as real) + (DigitsValue(f) as real) / (Pow10(|f|) as real)
  }

  /** The value of a decimal literal with a single dot. */
  function DecimalValue(s: string): real
    requires DigitsOrDots(s) && '.' in s && DotCount(s) == 1
  {
    var d := DotIndex(s);
    DotsAfterFirst(s);
    DecimalOf(s[..d], s[d + 1..])
  }

  /** With exactly one dot, the parts before and after it are digits only. */
  lemma DotsAfterFirst(s: string)
    requires DigitsOrDots(s) && '.' in s && DotCount(s) == 1
    ensures DigitsOnly(s[..DotIndex(s)]) && DigitsOnly(s[DotIndex(s) + 1..])
  {
    var d := DotIndex(s);
    DotCountSplit(s, d);
    DotCountZero(s[..d]);
    DotCountZero(s[d + 1..]);
  }

  lemma {:induction false} DotCountSplit(s: string, d: nat)
    requires d < |s| && s[d] == '.'
    ensures DotCount(s) == DotCount(s[..d]) + 1 + DotCount(s[d + 1..])
  {
    if d > 0 {
      DotCountSplit(s[1..], d - 1);
      assert s[1..][..d - 1] == s[1..d];
      assert s[..d][1..] == s[1..d];
      assert s[1..][d..] == s[d + 1..];
    }
  }

  /** CPython's default bound on the digits `int` converts from a decimal
      string (`sys.int_info.default_max_str_digits`, in force since 3.11 and in
      the security releases that carry it back); a longer run raises ValueError. */
  const INT_MAX_STR_DIGITS := 4300

  /** The conversion of a captured value: a decimal iff the text contains a dot,
      otherwise an integer; `float` rejects a malformed decimal and `int` a run of
      more than INT_MAX_STR_DIGITS digits, both with ValueError. */
  function ParseCapture(s: string): (r: Result<Number, ValueError>)
    requires s != [] && DigitsOrDots(s)
    ensures r.Ok? ==> (r.value.Decimal? <==> '.' in s)
    ensures r.Err? <==> if '.' in s then !FloatAccepts(s) else |s| > INT_MAX_STR_DIGITS
    ensures r.Err? ==> r.error == ValueError(s)
    ensures '.' !in s && |s| <= INT_MAX_STR_DIGITS ==>
      r.Ok? && r.value.Int? && DigitsOnly(s) && r.value.n == DigitsValue(s)
  {
    if '.' in s then
      if FloatAccepts(s) then Ok(Decimal(DecimalValue(s))) else Err(ValueError(s))
    else if |s| > INT_MAX_STR_DIGITS then
      Err(ValueError(s))
    else
      Ok(Int(DigitsValue(s)))
  }

  /** The field value that a pattern yields for one log: `None` when the pattern
      matches nowhere, otherwise the conversion of its leftmost match
      (ExtractSpec). */
  function Extract(text: string, pat: Pattern): Result<Option<Number>, ValueError>
  {
    match SearchFrom(text, pat, 0)
    case None => Ok(None)
    case Some(m) =>
      match ParseCapture(m.capture)
      case Ok(n) => Ok(Some(n))
      case Err(e) => Err(e)
  }

  /** An extraction is `None` exactly when the pattern matches at no position;
      otherwise it is `float` or `int` of the capture at the first position
      where the pattern matches, or the error `float` raises on it. */
  lemma ExtractSpec(text: string, pat: Pattern)
    ensures Extract(text, pat) == Ok(None) <==> forall q :: 0 <= q <= |text| ==> MatchAt(text, q, pat).None?
    ensures forall q :: IsFirstMatch(text, pat, q) ==>
      match ParseCapture(MatchAt(text, q, pat).value)
      case Ok(n) => Extract(text, pat) == Ok(Some(n))
      case Err(e) => Extract(text, pat) == Err(e)
  {
    match SearchFrom(text, pat, 0)
    case None =>
      SearchFromNone(text, pat, 0);
    case Some(m) =>
      SearchFromLeftmost(text, pat, 0);
      assert IsFirstMatch(text, pat, m.pos);
      FirstMatchUnique(text, pat, m.pos);
  }

  lemma FirstMatchUnique(text: string, pat: Pattern, q: nat)
    requires IsFirstMatch(text, pat, q)
    ensures forall q' :: IsFirstMatch(text, pat, q') ==> q' == q
  {
  }

  /** A digits-only pattern never yields a decimal, and it raises exactly when
      its first match captures more than INT_MAX_STR_DIGITS digits. */
  lemma DigitPatternYieldsInteger(text: string, pat: Pattern)
    requires pat.capture == DigitRun
    ensures Extract(text, pat).Ok? && Extract(text, pat).value.Some? ==> Extract(text, pat).value.value.Int?
    ensures forall q :: IsFirstMatch(text, pat, q) ==>
      (Extract(text, pat).Err? <==> |MatchAt(text, q, pat).value| > INT_MAX_STR_DIGITS)
    ensures Extract(text, pat).Err? ==> exists q :: IsFirstMatch(text, pat, q)
  {
    match SearchFrom(text, pat, 0)
    case None =>
      SearchFromNone(text, pat, 0);
    case Some(m) =>
      SearchFromLeftmost(text, pat, 0);
      assert IsFirstMatch(text, pat, m.pos);
      FirstMatchUnique(text, pat, m.pos);
      var c := m.capture;
      assert forall i :: 0 <= i < |c| ==> IsDigit(c[i]) by {
        forall i | 0 <= i < |c| ensures IsDigit(c[i]) {
          assert c[i] in c;
        }
      }
      assert '.' !in c;
  }

  /** Every pattern of the table is well formed. */
  lemma PatternTableWellFormed()
    ensures forall i :: 0 <= i < |METRIC_PATTERNS| ==> WellFormed(METRIC_PATTERNS[i])
  {
  }

  function DigitChar(d: nat): (c: char)
    requires d < 10
    ensures IsDigit(c) && c as int - '0' as int == d
  {
    ('0' as int + d) as char
  }

  /** The decimal digits of `n`, as the load generator prints an integer. */
  function NatToDigits(n: nat): (s: string)
    ensures s != [] && DigitsOnly(s)
  {
    if n < 10 then [DigitChar(n)] else NatToDigits(n / 10) + [DigitChar(n % 10)]
  }

  lemma {:induction false} DigitsRoundTrip(n: nat)
    ensures DigitsValue(NatToDigits(n)) == n
  {
    if n >= 10 {
      DigitsRoundTrip(n / 10);
      var s := NatToDigits(n);
      assert s[..|s| - 1] == NatToDigits(n / 10);
    }
  }

  /** The text the load generator prints for one field, followed by a newline
      and the rest of the log: "literal value[ unit]\n...". */
  function Line(pat: Pattern, value: string, rest: string): string
  {
    pat.literal + " " + value + (match pat.unit case None => "" case Some(u) => " " + u) + "\n" + rest
  }

  /** After the capture, " unit\n..." gives a one-character whitespace run
      followed by the unit word. */
  lemma UnitFollows(text: string, k: nat, u: string, rest: string)
    requires u != [] && !IsSpace(u[0])
    requires k <= |text| && text[k..] == " " + u + "\n" + rest
    ensures RunEnd(text, k, Space) == k + 1 && StartsAt(text, k + 1, u)
  {
    assert text[k] == text[k..][0] == ' ';
    assert text[k + 1] == text[k..][1] == u[0];
    RunEndAt(text, k, k + 1, Space);
    assert text[k + 1..k + 1 + |u|] == text[k..][1..1 + |u|] == u;
  }

  /** In such a log the pattern matches at the very start and captures exactly
      the printed value. */
  lemma LineMatches(pat: Pattern, value: string, rest: string)
    requires WellFormed(pat) && value != []
    requires forall x :: 0 <= x < |value| ==> InCapture(pat.capture, value[x])
    ensures MatchAt(Line(pat, value, rest), 0, pat) == Some(value)
  {
    var text := Line(pat, value, rest);
    var lit := pat.literal;
    var tail := (match pat.unit case None => "" case Some(u) => " " + u) + "\n" + rest;
    assert text == lit + " " + value + tail;
    var i, j, k := |lit|, |lit| + 1, |lit| + 1 + |value|;
    assert StartsAt(text, 0, lit) by { assert text[..|lit|] == lit; }
    assert text[i] == ' ';
    assert text[j..k] == value;
    assert forall x :: j <= x < k ==> text[x] == value[x - j];
    RunEndAt(text, i, j, Space);
    assert text[k..] == tail;
    assert !InCapture(pat.capture, text[k]) by { assert text[k] == tail[0]; }
    RunEndAt(text, j, k, Captured(pat.capture));
    if pat.unit.Some? {
      UnitFollows(text, k, pat.unit.value, rest);
    }
  }

  /** The field value a log with that first line yields is the conversion of
      the printed value, whatever follows. */
  lemma ExtractLine(pat: Pattern, value: string, rest: string)
    requires WellFormed(pat) && value != []
    requires forall x :: 0 <= x < |value| ==> InCapture(pat.capture, value[x])
    ensures DigitsOrDots(value)
    ensures match ParseCapture(value)
      case Ok(n) => Extract(Line(pat, value, rest), pat) == Ok(Some(n))
      case Err(e) => Extract(Line(pat, value, rest), pat) == Err(e)
  {
    LineMatches(pat, value, rest);
    assert SearchFrom(Line(pat, value, rest), pat, 0) == Some(Match(0, value));
  }

  /** Round trip: a log whose first line prints the integer `n` for a field
      yields exactly `n` for that field, whatever follows, as long as `int`
      accepts that many digits; a longer number raises ValueError. */
  lemma ExtractRendered(pat: Pattern, n: nat, rest: string)
    requires WellFormed(pat)
    ensures Extract(Line(pat, NatToDigits(n), rest), pat) ==
      if |NatToDigits(n)| <= INT_MAX_STR_DIGITS then Ok(Some(Int(n)))
      else Err(ValueError(NatToDigits(n)))
  {
    var d := NatToDigits(n);
    assert forall x :: 0 <= x < |d| ==> IsDigit(d[x]);
    ExtractLine(pat, d, rest);
    DigitsRoundTrip(n);
  }

  lemma {:induction false} DigitsHaveNoDot(s: string)
    requires DigitsOnly(s)
    ensures DotCount(s) == 0
  {
    if s != [] {
      DigitsHaveNoDot(s[1..]);
    }
  }

  lemma DotIndexAfterDigits(w: string, f: string)
    requires DigitsOnly(w)
    ensures '.' in w + "." + f && DotIndex(w + "." + f) == |w|
  {
    assert (w + "." + f)[|w|] == '.';
  }

  lemma JoinedDigitsOrDots(w: string, f: string)
    requires DigitsOnly(w) && DigitsOnly(f)
    ensures DigitsOrDots(w + "." + f)
  {
    var d := w + "." + f;
    forall x | 0 <= x < |d| ensures IsDigit(d[x]) || d[x] == '.' {
      if x < |w| { assert d[x] == w[x]; } else if x > |w| { assert d[x] == f[x - |w| - 1]; }
    }
  }

  lemma JoinedOneDot(w: string, f: string)
    requires DigitsOnly(w) && DigitsOnly(f)
    ensures DotCount(w + "." + f) == 1
  {
    var d := w + "." + f;
    assert d[|w|] == '.';
    DotCountSplit(d, |w|);
    assert d[..|w|] == w && d[|w| + 1..] == f;
    DigitsHaveNoDot(w);
    DigitsHaveNoDot(f);
  }

  /** `float` reads "w.f" as w + f / 10^|f| (one of the two parts may be empty). */
  lemma ParseDecimal(w: string, f: string)
    requires DigitsOnly(w) && DigitsOnly(f) && (w != [] || f != [])
    ensures w + "." + f != [] && DigitsOrDots(w + "." + f)
    ensures '.' in w + "." + f && FloatAccepts(w + "." + f)
    ensures DecimalValue(w + "." + f) == DecimalOf(w, f)
  {
    var d := w + "." + f;
    JoinedDigitsOrDots(w, f);
    JoinedOneDot(w, f);
    DotIndexAfterDigits(w, f);
    assert d[|w|] == '.';
    assert '.' in d;
    assert FloatAccepts(d);
    assert d[..|w|] == w && d[|w| + 1..] == f;
  }

  lemma ParseAccepted(s: string)
    requires s != [] && DigitsOrDots(s) && '.' in s && FloatAccepts(s)
    ensures ParseCapture(s) == Ok(Decimal(DecimalValue(s)))
  {
  }

  /** Round trip for the one pattern that admits dots: a printed decimal
      "w.f" comes back as w + f / 10^|f|. */
  lemma ExtractRenderedDecimal(pat: Pattern, w: string, f: string, rest: string)
    requires WellFormed(pat) && pat.capture == DigitDotRun
    requires DigitsOnly(w) && DigitsOnly(f) && (w != [] || f != [])
    ensures Extract(Line(pat, w + "." + f, rest), pat) == Ok(Some(Decimal(DecimalOf(w, f))))
  {
    var d := w + "." + f;
    ParseDecimal(w, f);
    ParseAccepted(d);
    ExtractLine(pat, d, rest);
  }

  /** An information separator counts as whitespace for `\s`: the batch size
      printed after "\x1c" is still read. */
  lemma SeparatorIsWhitespace()
    ensures Extract("Batch size:\U{001C}5", Pattern("batch_size", "Batch size:", DigitRun, None)) == Ok(Some(Int(5)))
  {
    var text, pat := "Batch size:\U{001C}5", Pattern("batch_size", "Batch size:", DigitRun, None);
    assert StartsAt(text, 0, pat.literal) by { assert text[..11] == pat.literal; }
    RunEndAt(text, 11, 12, Space);
    RunEndAt(text, 12, 13, Captured(DigitRun));
    assert text[12..13] == "5";
    assert SearchFrom(text, pat, 0) == Some(Match(0, "5"));
    assert DigitsValue("5") == 5 by { assert "5"[..0] == ""; }
  }

  /** `float` refuses a captured text with two dots. */
  lemma TwoDotsRefused()
    ensures DigitsOrDots("1.2.3") && ParseCapture("1.2.3").Err?
  {
    assert "1.2.3"[1] == '.';
    assert DotCount("1.2.3") == 2;
  }

  /** A pattern that admits dots (throughput_ips) raises on a printed "1.2.3"
      instead of yielding `None`: the error aborts the pod's record. */
  lemma MalformedDecimalRaises(pat: Pattern, rest: string)
    requires WellFormed(pat) && pat.capture == DigitDotRun
    ensures Extract(Line(pat, "1.2.3", rest), pat) == Err(ValueError("1.2.3"))
  {
    ExtractLine(pat, "1.2.3", rest);
    TwoDotsRefused();
  }
}
