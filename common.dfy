/**
 * Values and JavaScript behaviours shared by every screen controller: optional
 * values, the abstract outcome of a network request, the PDF upload rule,
 * JavaScript's `||` on an optional string, `String.prototype.trim`, and the
 * decimal text of an HTTP status code.
 */
module Common {

  /** A value that may be absent (JavaScript's `undefined` or `null`, which
      `||` and `?.` treat alike). */
  datatype Option<+T> = None | Some(value: T)

  /** A JSON field where absence and `null` behave differently: `undefined < 70`
      is false but `null < 70` is true (null compares as 0), and reading a
      property of either raises a TypeError that names which one it was. */
  datatype Field<+T> = Undefined | Null | Defined(value: T)

  /** What `response.json()` produced: the decoded object, or the message of the
      exception that reading or decoding the body raised. */
  datatype Parsed<+T> = Parsed(value: T) | Unparsable(message: string)

  /** What an awaited `fetch` produced: the call rejected with an error message,
      or a response arrived with an HTTP status and a body read as `B`. */
  datatype Reply<+B> = Thrown(message: string) | Replied(status: nat, body: Parsed<B>)

  /** `response.ok`: the status lies in the success range 200-299. */
  predicate IsOk(status: nat) {
    200 <= status <= 299
  }

  /** The decoded body of a successful response, if the response was successful
      and its body could be decoded. */
  function OkBody<B>(reply: Reply<B>): (r: Option<B>)
    ensures r.Some? <==> reply.Replied? && IsOk(reply.status) && reply.body.Parsed?
    ensures r.Some? ==> reply.body == Parsed(r.value)
  {
    if reply.Replied? && IsOk(reply.status) && reply.body.Parsed? then Some(reply.body.value) else None
  }

  /** JavaScript's `s || fallback` for a string field that may be absent: an
      absent or empty string gives way to the fallback. */
  function OrElse(s: Option<string>, fallback: string): (r: string)
    ensures r == fallback || Some(r) == s
    ensures s.Some? && s.value != "" ==> r == s.value
    ensures fallback != "" ==> r != ""
  {
    if s.Some? && s.value != "" then s.value else fallback
  }

  // ---------------------------------------------------------------------------
  // File selection

  /** A file picked in the browser's file dialog. */
  datatype File = File(name: string, mimeType: string)

  const PdfMimeType := "application/pdf"
  const NotPdfMessage := "Please upload a PDF file"

  /** A selection is accepted only when a file was picked and its MIME type is
      exactly `application/pdf`. */
  predicate IsPdf(selected: Option<File>) {
    selected.Some? && selected.value.mimeType == PdfMimeType
  }

  // ---------------------------------------------------------------------------
  // String.prototype.trim

  /** The characters `trim` removes: the ECMAScript WhiteSpace and LineTerminator
      code points (tab, vertical tab, form feed, space, no-break space, the byte
      order mark, the Unicode space separators, and the four line terminators). */
  predicate IsWhitespace(c: char) {
    || c == '\t' || c == '\n' || c == '\U{000B}' || c == '\U{000C}' || c == '\r'
    || c == ' ' || c == '\U{00A0}' || c == '\U{1680}'
    || ('\U{2000}' <= c <= '\U{200A}')
    || c == '\U{2028}' || c == '\U{2029}' || c == '\U{202F}' || c == '\U{205F}'
    || c == '\U{3000}' || c == '\U{FEFF}'
  }

  /** `s` with its leading whitespace removed: a suffix of `s`, everything cut
      off is whitespace, and what is left does not start with whitespace. */
  function TrimStart(s: string): (r: string)
    ensures |r| <= |s| && r == s[|s| - |r|..]
    ensures forall i :: 0 <= i < |s| - |r| ==> IsWhitespace(s[i])
    ensures r != [] ==> !IsWhitespace(r[0])
  {
    if s != [] && IsWhitespace(s[0]) then TrimStart(s[1..]) else s
  }

  /** `s` with its trailing whitespace removed: a prefix of `s`, everything cut
      off is whitespace, and what is left does not end with whitespace. */
  function TrimEnd(s: string): (r: string)
    ensures |r| <= |s| && r == s[..|r|]
    ensures forall i :: |r| <= i < |s| ==> IsWhitespace(s[i])
    ensures r != [] ==> !IsWhitespace(r[|r| - 1])
  {
    if s != [] && IsWhitespace(s[|s| - 1]) then TrimEnd(s[..|s| - 1]) else s
  }

  /** `s.trim()`: a contiguous slice of `s` that neither starts nor ends with
      whitespace (`TrimCutsOnlyWhitespace`: outside of it `s` holds only
      whitespace). */
  function Trim(s: string): (r: string)
    ensures var t := TrimStart(s); |r| <= |t| && r == s[|s| - |t|..|s| - |t| + |r|]
    ensures r != [] ==> !IsWhitespace(r[0]) && !IsWhitespace(r[|r| - 1])
  {
    TrimEnd(TrimStart(s))
  }

  /** What `trim` cuts from either end of `s` is whitespace only, so `s` is
      its trimmed form with whitespace around it. */
  lemma TrimCutsOnlyWhitespace(s: string)
    ensures var k := |s| - |TrimStart(s)|; forall i :: 0 <= i < k ==> IsWhitespace(s[i])
    ensures var k := |s| - |TrimStart(s)|; forall i :: k + |Trim(s)| <= i < |s| ==> IsWhitespace(s[i])
  {
    var t := TrimStart(s);
    var k := |s| - |t|;
    forall i | k + |Trim(s)| <= i < |s| ensures IsWhitespace(s[i]) {
      assert s[i] == t[i - k];
    }
  }

  /** The string holds nothing but whitespace. */
  predicate IsBlank(s: string) {
    forall i :: 0 <= i < |s| ==> IsWhitespace(s[i])
  }

  /** `!s.trim()` holds exactly for the blank strings. */
  lemma TrimEmptyIffBlank(s: string)
    ensures Trim(s) == "" <==> IsBlank(s)
  {
  }

  /** Trimming twice gives the same string as trimming once. */
  lemma TrimIdempotent(s: string)
    ensures Trim(Trim(s)) == Trim(s)
  {
    var r := Trim(s);
    if r != [] {
      assert TrimStart(r) == r;
      assert TrimEnd(r) == r;
    }
  }

  // ---------------------------------------------------------------------------
  // Decimal text of a status code (the `${response.status}` template)

  function Digit(d: nat): (c: char)
    requires d < 10
    ensures '0' <= c <= '9' && c as int - '0' as int == d
  {
    (48 + d) as char
  }

  /** The decimal digits of `n`, most significant first, without leading zeros. */
  function DecimalString(n: nat): (r: string)
    ensures r != [] && forall i :: 0 <= i < |r| ==> '0' <= r[i] <= '9'
    ensures |r| > 1 ==> r[0] != '0'
  {
    if n < 10 then [Digit(n)] else DecimalString(n / 10) + [Digit(n % 10)]
  }

  /** The number a string of decimal digits denotes. */
  function DecimalValue(s: string): nat
    requires forall i :: 0 <= i < |s| ==> '0' <= s[i] <= '9'
  {
    if s == [] then 0 else DecimalValue(s[..|s| - 1]) * 10 + (s[|s| - 1] as int - '0' as int)
  }

  /** Reading back the digits of `n` gives `n`: the logged status text names the
      status exactly. */
  lemma {:induction false} DecimalRoundTrip(n: nat)
    ensures DecimalValue(DecimalString(n)) == n
  {
    var r := DecimalString(n);
    if n >= 10 {
      DecimalRoundTrip(n / 10);
      assert r[..|r| - 1] == DecimalString(n / 10);
    }
  }
}
