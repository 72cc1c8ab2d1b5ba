/** String helpers shared by the API and the frontend model: stripping of
    surrounding whitespace (Python's str.strip() and JavaScript's
    String.prototype.trim(), which disagree on what whitespace is) and the
    decimal rendering of a natural number used by template literals. */
module Text {

  /** The characters Python's str.strip() removes when called without
      arguments (str.isspace): the ASCII controls TAB..CR and FS..US, SPACE,
      NEL, NO-BREAK SPACE and the Unicode space and separator characters. */
  const PythonWhitespace: set<char> :=
    {'\t', '\n', '\U{0B}', '\U{0C}', '\r',
     '\U{1C}', '\U{1D}', '\U{1E}', '\U{1F}', ' ',
     '\U{85}', '\U{A0}', '\U{1680}',
     '\U{2000}', '\U{2001}', '\U{2002}', '\U{2003}', '\U{2004}', '\U{2005}',
     '\U{2006}', '\U{2007}', '\U{2008}', '\U{2009}', '\U{200A}',
     '\U{2028}', '\U{2029}', '\U{202F}', '\U{205F}', '\U{3000}'}

  /** The characters JavaScript's trim() removes: WhiteSpace (TAB, VT, FF,
      SPACE, NO-BREAK SPACE, ZERO WIDTH NO-BREAK SPACE and category Zs) and
      LineTerminator (LF, CR, LINE SEPARATOR, PARAGRAPH SEPARATOR). */
  const JsWhitespace: set<char> :=
    {'\t', '\n', '\U{0B}', '\U{0C}', '\r', ' ',
     '\U{A0}', '\U{FEFF}', '\U{1680}',
     '\U{2000}', '\U{2001}', '\U{2002}', '\U{2003}', '\U{2004}', '\U{2005}',
     '\U{2006}', '\U{2007}', '\U{2008}', '\U{2009}', '\U{200A}',
     '\U{2028}', '\U{2029}', '\U{202F}', '\U{205F}', '\U{3000}'}

  /** Every character of s is whitespace (the empty string included). */
  predicate IsBlank(s: string, ws: set<char>)
  {
    forall i :: 0 <= i < |s| ==> s[i] in ws
  }

  /** How many whitespace characters s starts with. */
  function LeadingBlanks(s: string, ws: set<char>): (n: nat)
    ensures n <= |s|
    ensures forall k :: 0 <= k < n ==> s[k] in ws
    ensures n < |s| ==> s[n] !in ws
  {
    if s != [] && s[0] in ws then
      var n := LeadingBlanks(s[1..], ws);
      assert forall k :: 1 <= k < n + 1 ==> s[k] == s[1..][k - 1];
      n + 1
    else
      0
  }

  /** The length of s once its trailing whitespace is cut off. */
  function KeptLength(s: string, ws: set<char>): (m: nat)
    ensures m <= |s|
    ensures forall k :: m <= k < |s| ==> s[k] in ws
    ensures m > 0 ==> s[m - 1] !in ws
  {
    if s != [] && s[|s| - 1] in ws then KeptLength(s[..|s| - 1], ws) else |s|
  }

  /** Removal of leading and trailing whitespace, as str.strip() (with
      PythonWhitespace) and trim() (with JsWhitespace) do it: skip the
      leading whitespace, then cut the trailing whitespace off the rest. */
  function Strip(s: string, ws: set<char>): (r: string)
    ensures |r| <= |s|
    ensures r == [] || (r[0] !in ws && r[|r| - 1] !in ws)
  {
    var rest := s[LeadingBlanks(s, ws)..];
    rest[..KeptLength(rest, ws)]
  }

  /** Strip cuts s into three parts s[..i], s[i..j] and s[j..]: blank, the
      result, blank; and the result neither starts nor ends with whitespace. */
  lemma StripSlices(s: string, ws: set<char>) returns (i: nat, j: nat)
    ensures i <= j <= |s| && Strip(s, ws) == s[i..j]
    ensures IsBlank(s[..i], ws) && IsBlank(s[j..], ws)
    ensures Strip(s, ws) == [] || (s[i] !in ws && s[j - 1] !in ws)
  {
    i := LeadingBlanks(s, ws);
    var rest := s[i..];
    var m := KeptLength(rest, ws);
    j := i + m;
    assert forall k :: 0 <= k < |s| - j ==> s[j..][k] == rest[m + k];
  }

  /** Stripping leaves nothing exactly when the string is blank; this is the
      test both the API and the submit handler apply. */
  lemma StripEmptyIffBlank(s: string, ws: set<char>)
    ensures Strip(s, ws) == [] <==> IsBlank(s, ws)
  {
    var i, j := StripSlices(s, ws);
    if Strip(s, ws) == [] {
      assert forall k :: 0 <= k < |s| ==> s[k] == if k < i then s[..i][k] else s[j..][k - j];
    }
  }

  /** The decimal digits of n, most significant first, with no leading
      zero: what a JavaScript template literal prints for an integer. */
  function Decimal(n: nat): (r: string)
    ensures 1 <= |r|
    ensures forall i :: 0 <= i < |r| ==> '0' <= r[i] <= '9'
    ensures |r| > 1 ==> r[0] != '0'
  {
    if n < 10 then [DigitChar(n)] else Decimal(n / 10) + [DigitChar(n % 10)]
  }

  function DigitChar(d: nat): (c: char)
    requires d < 10
    ensures '0' <= c <= '9' && c as int - '0' as int == d
  {
    (d + '0' as int) as char
  }

  /** The number a string of decimal digits denotes. */
  function DecimalValue(s: string): nat
    requires forall i :: 0 <= i < |s| ==> '0' <= s[i] <= '9'
  {
    if s == [] then 0
    else 10 * DecimalValue(s[..|s| - 1]) + (s[|s| - 1] as int - '0' as int)
  }

  /** Reading back the rendered digits gives the number again. */
  lemma {:induction false} DecimalRoundTrip(n: nat)
    ensures DecimalValue(Decimal(n)) == n
  {
    if n >= 10 {
      var r := Decimal(n);
      assert r[..|r| - 1] == Decimal(n / 10);
      DecimalRoundTrip(n / 10);
    }
  }
}
