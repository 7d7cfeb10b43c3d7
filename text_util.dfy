/** String helpers shared by the services: Python's `str.strip()`, `str.replace`
    with a one-character pattern, ASCII case mapping, integer formatting, and the
    filename slug, width truncation and PDF escaping that the report and the
    invoice services each define identically. */
module TextUtil {
  import opened Common

  // ---------------------------------------------------------------- strip

  /** The characters `str.isspace()` accepts. */
  predicate IsWs(c: char) {
    c == ' ' || ('\t' <= c <= '\r') || ('\U{1c}' <= c <= '\U{1f}') || c == '\U{85}' || c == '\U{a0}'
    || c == '\U{1680}' || ('\U{2000}' <= c <= '\U{200a}') || c == '\U{2028}' || c == '\U{2029}'
    || c == '\U{202f}' || c == '\U{205f}' || c == '\U{3000}'
  }

  /** The first position at or after `i` that holds no whitespace (`|s|` when none). */
  function FirstNonWs(s: string, i: nat): (r: nat)
    requires i <= |s|
    ensures i <= r <= |s|
    ensures forall k :: i <= k < r ==> IsWs(s[k])
    ensures r < |s| ==> !IsWs(s[r])
    decreases |s| - i
  {
    if i < |s| && IsWs(s[i]) then FirstNonWs(s, i + 1) else i
  }

  /** The end of the last non-whitespace character before `j`, not below `lo`. */
  function EndNonWs(s: string, lo: nat, j: nat): (r: nat)
    requires lo <= j <= |s|
    ensures lo <= r <= j
    ensures forall k :: r <= k < j ==> IsWs(s[k])
    ensures r > lo ==> !IsWs(s[r - 1])
    decreases j
  {
    if j > lo && IsWs(s[j - 1]) then EndNonWs(s, lo, j - 1) else j
  }

  /** `str.strip()`: leading and trailing whitespace removed (see StripIsSlice). */
  function Strip(s: string): (r: string)
    ensures |r| <= |s|
    ensures r == "" || (!IsWs(r[0]) && !IsWs(r[|r| - 1]))
  {
    var i := FirstNonWs(s, 0);
    var j := EndNonWs(s, i, |s|);
    s[i..j]
  }

  /** What `Strip` keeps is one slice of the input, and all it removes is whitespace. */
  lemma StripIsSlice(s: string)
    ensures exists i, j :: 0 <= i <= j <= |s| && Strip(s) == s[i..j]
                           && (forall k :: 0 <= k < i ==> IsWs(s[k]))
                           && (forall k :: j <= k < |s| ==> IsWs(s[k]))
  {
    var i := FirstNonWs(s, 0);
    var j := EndNonWs(s, i, |s|);
    assert Strip(s) == s[i..j];
  }

  /** `(x or "").strip() or None`: a free-text comment as stored. */
  function BlankToNone(x: Option<string>): (r: Option<string>)
    ensures r.Some? ==> r.value != "" && !IsWs(r.value[0]) && !IsWs(r.value[|r.value| - 1])
    ensures r.None? <==> x.None? || Strip(x.value) == ""
    ensures r.Some? ==> x.Some? && r.value == Strip(x.value)
  {
    var t := Strip(x.GetOr(""));
    if t == "" then None else Some(t)
  }

  /** `x or None` for an optional string. */
  function EmptyToNone(x: Option<string>): (r: Option<string>)
    ensures r.Some? <==> x.Some? && x.value != ""
    ensures r.Some? ==> r == x
  {
    if x.Some? && x.value != "" then x else None
  }

  // ---------------------------------------------------------------- replace, case

  /** `s.replace(c, rep)` for a one-character pattern. */
  function ReplaceChar(s: string, c: char, rep: string): string {
    if |s| == 0 then "" else (if s[0] == c then rep else [s[0]]) + ReplaceChar(s[1..], c, rep)
  }

  lemma {:induction false} ReplaceCharAppend(a: string, b: string, c: char, rep: string)
    ensures ReplaceChar(a + b, c, rep) == ReplaceChar(a, c, rep) + ReplaceChar(b, c, rep)
    decreases |a|
  {
    if |a| == 0 {
      assert a + b == b;
    } else {
      assert (a + b)[1..] == a[1..] + b;
      ReplaceCharAppend(a[1..], b, c, rep);
    }
  }

  /** A string without `c` is left as it is. */
  lemma {:induction false} ReplaceCharAbsent(s: string, c: char, rep: string)
    requires c !in s
    ensures ReplaceChar(s, c, rep) == s
    decreases |s|
  {
    if |s| > 0 {
      ReplaceCharAbsent(s[1..], c, rep);
    }
  }

  function LowerChar(c: char): char {
    if 'A' <= c <= 'Z' then (c as int + 32) as char else c
  }

  function UpperChar(c: char): char {
    if 'a' <= c <= 'z' then (c as int - 32) as char else c
  }

  /** `str.lower()` on ASCII letters. */
  function ToLower(s: string): (r: string)
    ensures |r| == |s| && forall k :: 0 <= k < |s| ==> r[k] == LowerChar(s[k])
  {
    seq(|s|, k requires 0 <= k < |s| => LowerChar(s[k]))
  }

  /** `str.upper()` on ASCII letters. */
  function ToUpper(s: string): (r: string)
    ensures |r| == |s| && forall k :: 0 <= k < |s| ==> r[k] == UpperChar(s[k])
  {
    seq(|s|, k requires 0 <= k < |s| => UpperChar(s[k]))
  }

  // ---------------------------------------------------------------- integers

  function DigitChar(d: int): char
    requires 0 <= d < 10
  {
    ('0' as int + d) as char
  }

  function NatToString(n: nat): (r: string)
    ensures |r| > 0 && forall k :: 0 <= k < |r| ==> '0' <= r[k] <= '9'
  {
    if n < 10 then [DigitChar(n)] else NatToString(n / 10) + [DigitChar(n % 10)]
  }

  /** `str(n)` for an integer. */
  function IntToString(n: int): (r: string)
    ensures |r| > 0
  {
    if n < 0 then "-" + NatToString(-n) else NatToString(n)
  }

  function DigitsValue(s: string): int
    requires forall k :: 0 <= k < |s| ==> '0' <= s[k] <= '9'
  {
    if |s| == 0 then 0 else 10 * DigitsValue(s[..|s| - 1]) + (s[|s| - 1] as int - '0' as int)
  }

  /** Reading the digits back gives the number: the formatting is lossless. */
  lemma {:induction false} NatToStringRoundTrip(n: nat)
    ensures DigitsValue(NatToString(n)) == n
    decreases n
  {
    if n >= 10 {
      NatToStringRoundTrip(n / 10);
      var s := NatToString(n);
      assert s[..|s| - 1] == NatToString(n / 10);
    }
  }

  // ---------------------------------------------------------------- filename slug

  /** The characters `[a-zA-Z0-9_-]` a slug may contain. */
  predicate IsSlugChar(c: char) {
    ('a' <= c <= 'z') || ('A' <= c <= 'Z') || ('0' <= c <= '9') || c == '_' || c == '-'
  }

  /** A slug character other than '-'. */
  predicate IsWordChar(c: char) {
    IsSlugChar(c) && c != '-'
  }

  predicate AllSlugChars(s: string) {
    forall k :: 0 <= k < |s| ==> IsSlugChar(s[k])
  }

  /** The word characters of `s`, in order. */
  function WordChars(s: string): string {
    if |s| == 0 then "" else (if IsWordChar(s[0]) then [s[0]] else "") + WordChars(s[1..])
  }

  lemma {:induction false} WordCharsAppend(a: string, b: string)
    ensures WordChars(a + b) == WordChars(a) + WordChars(b)
    decreases |a|
  {
    if |a| == 0 {
      assert a + b == b;
    } else {
      var head := if IsWordChar(a[0]) then [a[0]] else "";
      assert (a + b)[0] == a[0];
      assert (a + b)[1..] == a[1..] + b;
      assert WordChars(a + b) == head + WordChars(a[1..] + b);
      WordCharsAppend(a[1..], b);
      assert WordChars(a) == head + WordChars(a[1..]);
    }
  }

  /** Drop the run of non-slug characters at the front. */
  function SkipRun(s: string): (r: string)
    ensures |r| <= |s| && r == s[|s| - |r|..]
    ensures |r| > 0 ==> IsSlugChar(r[0])
    ensures forall k :: 0 <= k < |s| - |r| ==> !IsSlugChar(s[k])
  {
    if |s| == 0 || IsSlugChar(s[0]) then s
    else
      var r := SkipRun(s[1..]);
      assert s[1..][|s| - 1 - |r|..] == s[|s| - |r|..];
      r
  }

  /** `re.sub(r"[^a-zA-Z0-9_-]+", "-", s)`: every maximal run of other
      characters becomes one '-'. */
  function CollapseRuns(s: string): (r: string)
    ensures AllSlugChars(r)
    decreases |s|
  {
    if |s| == 0 then ""
    else if IsSlugChar(s[0]) then [s[0]] + CollapseRuns(s[1..])
    else "-" + CollapseRuns(SkipRun(s[1..]))
  }

  /** The substitution keeps every word character of the input, in order, and
      adds none. */
  lemma {:induction false} CollapseRunsKeepsWords(s: string)
    ensures WordChars(CollapseRuns(s)) == WordChars(s)
    decreases |s|
  {
    if |s| > 0 {
      if IsSlugChar(s[0]) {
        CollapseRunsKeepsWords(s[1..]);
        KeptHeadWords(s);
      } else {
        var rest := SkipRun(s[1..]);
        CollapseRunsKeepsWords(rest);
        DroppedRunWords(s);
      }
    }
  }

  lemma WordCharsOne(c: char)
    ensures WordChars([c]) == if IsWordChar(c) then [c] else ""
  {
    assert [c][1..] == "";
  }

  /** A slug character at the front is kept, with its word character. */
  lemma KeptHeadWords(s: string)
    requires |s| > 0 && IsSlugChar(s[0])
    requires WordChars(CollapseRuns(s[1..])) == WordChars(s[1..])
    ensures WordChars(CollapseRuns(s)) == WordChars(s)
  {
    assert s == [s[0]] + s[1..];
    WordCharsAppend([s[0]], s[1..]);
    WordCharsAppend([s[0]], CollapseRuns(s[1..]));
  }

  /** A run of other characters becomes one dash, and neither has word characters. */
  lemma DroppedRunWords(s: string)
    requires |s| > 0 && !IsSlugChar(s[0])
    requires WordChars(CollapseRuns(SkipRun(s[1..]))) == WordChars(SkipRun(s[1..]))
    ensures WordChars(CollapseRuns(s)) == WordChars(s)
  {
    var rest := SkipRun(s[1..]);
    assert CollapseRuns(s) == ['-'] + CollapseRuns(rest);
    DashWords(CollapseRuns(rest));
    SkippedWords(s);
  }

  lemma DashWords(t: string)
    ensures WordChars(['-'] + t) == WordChars(t)
  {
    WordCharsOne('-');
    WordCharsAppend(['-'], t);
  }

  /** The characters `SkipRun` passes over, and a leading non-slug one, hold
      no word characters. */
  lemma SkippedWords(s: string)
    requires |s| > 0 && !IsSlugChar(s[0])
    ensures WordChars(s) == WordChars(SkipRun(s[1..]))
  {
    assert !IsWordChar(s[0]);
    assert WordChars(s) == "" + WordChars(s[1..]);
    assert "" + WordChars(s[1..]) == WordChars(s[1..]);
    SkipRunWords(s[1..]);
  }

  lemma {:induction false} SkipRunWords(tail: string)
    ensures WordChars(tail) == WordChars(SkipRun(tail))
    decreases |tail|
  {
    if |tail| > 0 && !IsSlugChar(tail[0]) {
      SkipRunWords(tail[1..]);
      assert !IsWordChar(tail[0]);
      assert WordChars(tail) == "" + WordChars(tail[1..]);
      assert "" + WordChars(tail[1..]) == WordChars(tail[1..]);
    }
  }

  /** A string made of slug characters only is not changed by the substitution. */
  lemma {:induction false} CollapseRunsClean(s: string)
    requires AllSlugChars(s)
    ensures CollapseRuns(s) == s
    decreases |s|
  {
    if |s| > 0 {
      CollapseRunsClean(s[1..]);
    }
  }

  function StripDashLeft(s: string): (r: string)
    ensures |r| <= |s| && r == s[|s| - |r|..]
    ensures |r| > 0 ==> r[0] != '-'
    ensures forall k :: 0 <= k < |s| - |r| ==> s[k] == '-'
  {
    if |s| > 0 && s[0] == '-' then StripDashLeft(s[1..]) else s
  }

  function StripDashRight(s: string): (r: string)
    ensures |r| <= |s| && r == s[..|r|]
    ensures |r| > 0 ==> r[|r| - 1] != '-'
    ensures forall k :: |r| <= k < |s| ==> s[k] == '-'
  {
    if |s| > 0 && s[|s| - 1] == '-' then StripDashRight(s[..|s| - 1]) else s
  }

  /** `.strip("-")`. */
  function StripDashes(s: string): (r: string)
    ensures exists i, j :: 0 <= i <= j <= |s| && r == s[i..j]
                           && (forall k :: 0 <= k < i ==> s[k] == '-')
                           && (forall k :: j <= k < |s| ==> s[k] == '-')
    ensures r == "" || (r[0] != '-' && r[|r| - 1] != '-')
  {
    var left := StripDashLeft(s);
    var r := StripDashRight(left);
    var i := |s| - |left|;
    assert r == s[i..i + |r|];
    r
  }

  lemma {:induction false} StripDashLeftKeepsWords(s: string)
    ensures WordChars(StripDashLeft(s)) == WordChars(s)
    decreases |s|
  {
    if |s| > 0 && s[0] == '-' {
      StripDashLeftKeepsWords(s[1..]);
    }
  }

  lemma {:induction false} StripDashRightKeepsWords(s: string)
    ensures WordChars(StripDashRight(s)) == WordChars(s)
    decreases |s|
  {
    if |s| > 0 && s[|s| - 1] == '-' {
      var init := s[..|s| - 1];
      StripDashRightKeepsWords(init);
      assert s == init + "-";
      WordCharsAppend(init, "-");
    }
  }

  /** Stripping dashes keeps the word characters. */
  lemma {:induction false} StripDashesKeepsWords(s: string)
    ensures WordChars(StripDashes(s)) == WordChars(s)
  {
    StripDashLeftKeepsWords(s);
    StripDashRightKeepsWords(StripDashLeft(s));
  }

  /** A string already free of leading and trailing dashes is not changed. */
  lemma StripDashesClean(s: string)
    requires s == "" || (s[0] != '-' && s[|s| - 1] != '-')
    ensures StripDashes(s) == s
  {
  }

  /** A clean filename part: slug characters only, no dash at either end, not empty. */
  predicate CleanSlug(s: string) {
    s != "" && AllSlugChars(s) && s[0] != '-' && s[|s| - 1] != '-'
  }

  /** `_safe_filename`: collapse runs of other characters to '-', strip dashes
      at both ends, and fall back to `fallback` when nothing is left. The result
      is a clean slug; it holds exactly the input's word characters, in order,
      unless it is the fallback, which is used only when the input had none. */
  function Slugify(value: string, fallback: string): (r: string)
    requires CleanSlug(fallback)
    ensures CleanSlug(r)
    ensures r == fallback || WordChars(r) == WordChars(value)
    ensures WordChars(value) != "" ==> WordChars(r) == WordChars(value)
  {
    var collapsed := CollapseRuns(value);
    var slug := StripDashes(collapsed);
    CollapseRunsKeepsWords(value);
    StripDashesKeepsWords(collapsed);
    assert slug != "" ==> AllSlugChars(slug);
    if slug == "" then fallback else slug
  }

  /** A clean slug is its own filename: `Slugify` is the identity on its
      outputs, hence idempotent. */
  lemma {:induction false} SlugifyIdempotent(value: string, fallback: string)
    requires CleanSlug(fallback)
    ensures Slugify(Slugify(value, fallback), fallback) == Slugify(value, fallback)
  {
    SlugifyClean(Slugify(value, fallback), fallback);
  }

  /** A clean slug is its own filename. */
  lemma SlugifyClean(s: string, fallback: string)
    requires CleanSlug(fallback) && CleanSlug(s)
    ensures Slugify(s, fallback) == s
  {
    CollapseRunsClean(s);
    StripDashesClean(s);
  }

  // ---------------------------------------------------------------- truncation

  /** Python's `int(x)` on a float: truncation toward zero. */
  function Trunc(x: real): (r: int)
    ensures x >= 0.0 ==> r as real <= x < r as real + 1.0
    ensures x < 0.0 ==> r as real - 1.0 < x <= r as real
  {
    if x >= 0.0 then x.Floor else -((-x).Floor)
  }

  /** `_text_width`: an estimate of half the font size per character. */
  function TextWidth(text: string, size: int): real {
    (|text| as real) * (size as real) * 0.5
  }

  /** The prefix length `_truncate_text` keeps: `max(1, int(w / (size*0.5)) - 3)`. */
  function KeptChars(maxWidth: real, size: int): (k: int)
    requires size > 0
    ensures k >= 1
  {
    var fit := Trunc(maxWidth / ((size as real) * 0.5));
    if fit - 3 > 1 then fit - 3 else 1
  }

  /** `_truncate_text`: a text that fits is returned unchanged; otherwise a
      non-empty prefix of it (at most the kept length) followed by "...", and
      when at least four characters fit, the result fits the width. */
  function TruncateText(text: string, maxWidth: real, size: int): (r: string)
    requires size > 0
    ensures TextWidth(text, size) <= maxWidth ==> r == text
    ensures TextWidth(text, size) > maxWidth ==>
              && 3 <= |r| <= |text| + 3 && r[|r| - 3..] == "..."
              && r[..|r| - 3] == text[..|r| - 3]
              && (|text| > 0 ==> |r| >= 4)
              && |r| - 3 == (if KeptChars(maxWidth, size) < |text| then KeptChars(maxWidth, size) else |text|)
    ensures TextWidth(text, size) > maxWidth && Trunc(maxWidth / ((size as real) * 0.5)) >= 4 ==>
              TextWidth(r, size) <= maxWidth && |r| - 3 < |text|
  {
    if TextWidth(text, size) <= maxWidth then text
    else
      var keep := KeptChars(maxWidth, size);
      var n := if keep < |text| then keep else |text|;
      var r := text[..n] + "...";
      TruncatedFits(text, maxWidth, size, n);
      r
  }

  lemma TruncatedFits(text: string, maxWidth: real, size: int, n: int)
    requires size > 0 && 0 <= n <= |text|
    requires TextWidth(text, size) > maxWidth
    requires n == (if KeptChars(maxWidth, size) < |text| then KeptChars(maxWidth, size) else |text|)
    ensures Trunc(maxWidth / ((size as real) * 0.5)) >= 4 ==>
              (n + 3) as real * (size as real) * 0.5 <= maxWidth && n < |text|
  {
    var half := (size as real) * 0.5;
    var q := maxWidth / half;
    var fit := Trunc(q);
    if fit >= 4 {
      assert q >= 0.0;
      assert n <= fit - 3;
      assert (n + 3) as real <= q;
      MulMonotone((n + 3) as real, q, half);
      assert q * half == maxWidth;
      assert (|text| as real) * half > maxWidth;
      MulStrict(|text| as real, fit as real, half);
    }
  }

  lemma MulMonotone(a: real, b: real, c: real)
    requires a <= b && c > 0.0
    ensures a * c <= b * c
  {
  }

  lemma MulStrict(a: real, b: real, c: real)
    requires c > 0.0 && a * c > b * c
    ensures a > b
  {
  }

  // ---------------------------------------------------------------- PDF escape

  /** The escape one character receives in a PDF string literal. */
  function PdfEscChar(c: char): string {
    if c == '\\' then "\\\\" else if c == '(' then "\\(" else if c == ')' then "\\)" else [c]
  }

  /** `_escape_pdf` as written: three replacements, the backslash first. */
  function EscapePdf(text: string): string {
    ReplaceChar(ReplaceChar(ReplaceChar(text, '\\', "\\\\"), '(', "\\("), ')', "\\)")
  }

  /** The escape character by character. */
  function EscapePdfByChar(text: string): string {
    if |text| == 0 then "" else PdfEscChar(text[0]) + EscapePdfByChar(text[1..])
  }

  /** Because the backslash is replaced first, the chain of replacements escapes
      every character exactly once. */
  lemma {:induction false} EscapePdfIsPerChar(text: string)
    ensures EscapePdf(text) == EscapePdfByChar(text)
    decreases |text|
  {
    if |text| > 0 {
      var c := text[0];
      assert text == [c] + text[1..];
      var a := ReplaceChar(text, '\\', "\\\\");
      ReplaceCharAppend([c], text[1..], '\\', "\\\\");
      var a1 := ReplaceChar([c], '\\', "\\\\");
      var a2 := ReplaceChar(text[1..], '\\', "\\\\");
      ReplaceCharAppend(a1, a2, '(', "\\(");
      var b1 := ReplaceChar(a1, '(', "\\(");
      var b2 := ReplaceChar(a2, '(', "\\(");
      ReplaceCharAppend(b1, b2, ')', "\\)");
      EscapePdfIsPerChar(text[1..]);
      assert ReplaceChar(ReplaceChar(a1, '(', "\\("), ')', "\\)") == PdfEscChar(c) by {
        assert ReplaceChar("\\", '(', "\\(") == "\\";
        assert ReplaceChar("\\", ')', "\\)") == "\\";
        assert ReplaceChar("\\\\", '(', "\\(") == "\\\\" by { ReplaceCharAbsent("\\\\", '(', "\\("); }
        assert ReplaceChar("\\\\", ')', "\\)") == "\\\\" by { ReplaceCharAbsent("\\\\", ')', "\\)"); }
        assert ReplaceChar("\\(", ')', "\\)") == "\\(" by { ReplaceCharAbsent("\\(", ')', "\\)"); }
      }
    }
  }

  /** How a PDF reader decodes a string literal's escapes. */
  function UnescapePdf(s: string): string
    decreases |s|
  {
    if |s| == 0 then ""
    else if s[0] == '\\' && |s| >= 2 then [s[1]] + UnescapePdf(s[2..])
    else [s[0]] + UnescapePdf(s[1..])
  }

  /** Decoding the escaped text gives back the text. */
  lemma {:induction false} EscapePdfRoundTrip(text: string)
    ensures UnescapePdf(EscapePdf(text)) == text
  {
    EscapePdfIsPerChar(text);
    ByCharRoundTrip(text);
  }

  lemma {:induction false} ByCharRoundTrip(text: string)
    ensures UnescapePdf(EscapePdfByChar(text)) == text
    decreases |text|
  {
    if |text| > 0 {
      var c := text[0];
      var rest := EscapePdfByChar(text[1..]);
      ByCharRoundTrip(text[1..]);
      var e := PdfEscChar(c) + rest;
      if c == '\\' || c == '(' || c == ')' {
        assert e[0] == '\\' && e[1] == c && e[2..] == rest;
      } else {
        assert e[0] == c && e[1..] == rest;
      }
    }
  }
}
