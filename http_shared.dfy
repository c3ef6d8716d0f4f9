/**
 * Pieces that the poll-queue HTTP module and the callback HTTP module both
 * contain, each in its own copy: the version names, the request-header
 * extraction loop, and the conversion of response headers to a Lua table.
 * The header and method grammars are those of the `http` crate.
 */
module HttpShared {
  import opened Bridge

  /** `reqwest::Version`; the library may add versions, hence Unrecognised. */
  datatype Version = Http09 | Http10 | Http11 | Http2 | Http3 | Unrecognised

  function VersionToString(v: Version): (s: string)
    ensures s == "Unknown" <==> v == Unrecognised
  {
    match v
    case Http09 => "HTTP/0.9"
    case Http10 => "HTTP/1.0"
    case Http11 => "HTTP/1.1"
    case Http2 => "HTTP/2.0"
    case Http3 => "HTTP/3.0"
    case Unrecognised => "Unknown"
  }

  /** Distinct known versions get distinct names. */
  lemma VersionToStringInjective(v: Version, w: Version)
    requires VersionToString(v) == VersionToString(w)
    ensures v == w
  {
  }

  /** A `tchar` of RFC 7230 section 3.2.6. */
  predicate IsTokenChar(c: char) {
    || ('a' <= c <= 'z') || ('A' <= c <= 'Z') || ('0' <= c <= '9')
    || c == '!' || c == '#' || c == '$' || c == '%' || c == '&' || c == '\'' || c == '*'
    || c == '+' || c == '-' || c == '.' || c == '^' || c == '_' || c == '`' || c == '|' || c == '~'
  }

  /** What `Method::from_str` accepts: a non-empty token. */
  predicate IsMethodToken(m: string) {
    |m| > 0 && forall i | 0 <= i < |m| :: IsTokenChar(m[i])
  }

  /** What `HeaderName::from_str` accepts: a token of at most 65535 bytes. */
  predicate ValidHeaderName(k: string) {
    0 < |k| <= 0xFFFF && forall i | 0 <= i < |k| :: IsTokenChar(k[i])
  }

  /** What `HeaderValue::from_str` accepts: no control character other than tab. */
  predicate ValidHeaderValue(v: string) {
    forall i | 0 <= i < |v| :: (' ' <= v[i] && v[i] as int != 127) || v[i] == '\t'
  }

  const INVALID_HEADER_NAME: string := "invalid HTTP header name"
  const INVALID_HEADER_VALUE: string := "failed to parse header value"
  const INVALID_METHOD: string := "invalid HTTP method"

  function LowerChar(c: char): char {
    if 'A' <= c <= 'Z' then (c as int + 32) as char else c
  }

  /** ASCII lower-casing (header names are ASCII). */
  function Lower(s: string): (r: string)
    ensures |r| == |s| && forall i | 0 <= i < |s| :: r[i] == LowerChar(s[i])
  {
    if s == [] then [] else [LowerChar(s[0])] + Lower(s[1..])
  }

  predicate IsLower(s: string) {
    forall i | 0 <= i < |s| :: !('A' <= s[i] <= 'Z')
  }

  /**
   * One entry of the Lua `headers` table as `lua_next` yields it; a key or
   * value that is not a string reads as None and `unwrap_or_default` turns
   * it into "".
   */
  type HeaderSlot = (Option<string>, Option<string>)

  function SlotName(p: HeaderSlot): string { p.0.GetOr("") }
  function SlotValue(p: HeaderSlot): string { p.1.GetOr("") }

  predicate SlotValid(p: HeaderSlot) {
    ValidHeaderName(SlotName(p)) && ValidHeaderValue(SlotValue(p))
  }

  /** The error text for an entry that is not SlotValid: the name is checked first. */
  function SlotError(p: HeaderSlot): string {
    if !ValidHeaderName(SlotName(p)) then INVALID_HEADER_NAME else INVALID_HEADER_VALUE
  }

  predicate AllHeadersValid(slots: seq<HeaderSlot>) {
    forall i | 0 <= i < |slots| :: SlotValid(slots[i])
  }

  /** `msg` is the error of the first entry that does not parse. */
  predicate HeaderRejected(slots: seq<HeaderSlot>, msg: string) {
    exists i | 0 <= i < |slots| ::
      && !SlotValid(slots[i]) && msg == SlotError(slots[i])
      && forall j | 0 <= j < i :: SlotValid(slots[j])
  }

  /** A table is either accepted or rejected, and rejected with one message only. */
  lemma HeaderRejectedUnique(slots: seq<HeaderSlot>, m1: string, m2: string)
    requires HeaderRejected(slots, m1) && HeaderRejected(slots, m2)
    ensures m1 == m2 && !AllHeadersValid(slots)
  {
    var i :| 0 <= i < |slots| && !SlotValid(slots[i]) && m1 == SlotError(slots[i]) && forall j | 0 <= j < i :: SlotValid(slots[j]);
    var k :| 0 <= k < |slots| && !SlotValid(slots[k]) && m2 == SlotError(slots[k]) && forall j | 0 <= j < k :: SlotValid(slots[j]);
    assert i == k;
  }

  /** The (normalised name, value) inserts of a run of valid entries. */
  function Inserts(slots: seq<HeaderSlot>): (r: seq<(string, string)>)
    ensures |r| == |slots|
    ensures forall i | 0 <= i < |slots| :: r[i] == (Lower(SlotName(slots[i])), SlotValue(slots[i]))
  {
    if slots == [] then [] else Inserts(slots[..|slots| - 1]) + [(Lower(SlotName(slots[|slots| - 1])), SlotValue(slots[|slots| - 1]))]
  }

  /**
   * `extract_headers`: parses each entry of the `headers` table in
   * iteration order into a HeaderMap (names case-insensitive, a repeated
   * name replacing the earlier value) and stops at the first entry whose
   * name or value does not parse, returning that parse error's text.
   */
  method ExtractHeaders(slots: seq<HeaderSlot>) returns (r: Result<map<string, string>, string>)
    ensures r.Ok? <==> AllHeadersValid(slots)
    ensures r.Ok? ==> r.value == LastWins(Inserts(slots))
    ensures r.Err? ==> HeaderRejected(slots, r.error)
  {
    var headers: map<string, string> := map[];
    var i := 0;
    while i < |slots|
      invariant 0 <= i <= |slots|
      invariant forall j | 0 <= j < i :: SlotValid(slots[j])
      invariant headers == HeadersUpTo(slots, i)
    {
      var key := SlotName(slots[i]);
      var value := SlotValue(slots[i]);
      if !ValidHeaderName(key) {
        r := Err(INVALID_HEADER_NAME);
        assert !SlotValid(slots[i]) && r.error == SlotError(slots[i]);
        assert HeaderRejected(slots, r.error);
        return;
      }
      if !ValidHeaderValue(value) {
        r := Err(INVALID_HEADER_VALUE);
        assert !SlotValid(slots[i]) && r.error == SlotError(slots[i]);
        assert HeaderRejected(slots, r.error);
        return;
      }
      headers := headers[Lower(key) := value];
      i := i + 1;
    }
    HeadersUpToInserts(slots, i);
    assert slots[..i] == slots;
    return Ok(headers);
  }

  /** The HeaderMap after the first `n` entries have been inserted. */
  function HeadersUpTo(slots: seq<HeaderSlot>, n: nat): map<string, string>
    requires n <= |slots|
  {
    if n == 0 then map[] else HeadersUpTo(slots, n - 1)[Lower(SlotName(slots[n - 1])) := SlotValue(slots[n - 1])]
  }

  lemma {:induction false} HeadersUpToInserts(slots: seq<HeaderSlot>, n: nat)
    requires n <= |slots|
    ensures HeadersUpTo(slots, n) == LastWins(Inserts(slots[..n]))
  {
    if n > 0 {
      HeadersUpToInserts(slots, n - 1);
      assert slots[..n][..n - 1] == slots[..n - 1];
      LastWinsSnoc(Inserts(slots[..n - 1]), (Lower(SlotName(slots[n - 1])), SlotValue(slots[n - 1])));
    }
  }

  /** `HeaderValue::to_str` succeeds exactly on visible ASCII and tab. */
  predicate VisibleAscii(v: string) {
    forall i | 0 <= i < |v| :: (' ' <= v[i] && v[i] as int < 127) || v[i] == '\t'
  }

  predicate IsBlank(c: char) { c == ' ' || c == '\t' }

  function TrimStart(s: string): (r: string)
    ensures |r| <= |s| && r == s[|s| - |r|..]
    ensures r != [] ==> !IsBlank(r[0])
    ensures forall i | 0 <= i < |s| - |r| :: IsBlank(s[i])
  {
    if s != [] && IsBlank(s[0]) then TrimStart(s[1..]) else s
  }

  function TrimEnd(s: string): (r: string)
    ensures |r| <= |s| && r == s[..|r|]
    ensures r != [] ==> !IsBlank(r[|r| - 1])
    ensures forall i | |r| <= i < |s| :: IsBlank(s[i])
  {
    if s != [] && IsBlank(s[|s| - 1]) then TrimEnd(s[..|s| - 1]) else s
  }

  /**
   * `str::trim` on a visible-ASCII string: the only white space such a
   * string can hold is space and tab.
   */
  function Trim(s: string): (r: string)
    ensures |r| <= |s|
    ensures r != [] ==> !IsBlank(r[0]) && !IsBlank(r[|r| - 1])
  {
    TrimEnd(TrimStart(s))
  }

  /** Trimming cuts only blanks, and only from the two ends: the result is a slice of the input. */
  lemma TrimCutsOuterBlanks(s: string)
    ensures exists i, j :: (0 <= i <= j <= |s| && Trim(s) == s[i..j]
      && (forall k | 0 <= k < i :: IsBlank(s[k])) && (forall k | j <= k < |s| :: IsBlank(s[k])))
  {
    var a := TrimStart(s);
    var r := TrimEnd(a);
    var i := |s| - |a|;
    assert r == s[i..i + |r|];
    assert forall k | i + |r| <= k < |s| :: s[k] == a[k - i];
  }

  /** The Lua value a response header value becomes: its text or "" (`to_str().unwrap_or("")`), trimmed when asked. */
  function CellText(v: string, trim: bool): string {
    var text := if VisibleAscii(v) then v else "";
    if trim then Trim(text) else text
  }

  /** The (key, value) pairs the header loop rawsets, in the HeaderMap's order. */
  function Cells(headers: seq<(string, string)>, trim: bool): (r: seq<(string, string)>)
    ensures |r| == |headers|
    ensures forall i | 0 <= i < |headers| :: r[i] == (Lower(headers[i].0), CellText(headers[i].1, trim))
  {
    if headers == [] then []
    else Cells(headers[..|headers| - 1], trim) + [(Lower(headers[|headers| - 1].0), CellText(headers[|headers| - 1].1, trim))]
  }

  /**
   * The loop that turns a response's headers into the `headers` table:
   * each key lower-cased, each value its text or "" and, in the callback
   * module's `decode`, trimmed; a later duplicate key overwrites.
   */
  method HeaderTable(headers: seq<(string, string)>, trim: bool) returns (t: map<string, string>)
    ensures t == LastWins(Cells(headers, trim))
  {
    t := map[];
    for i := 0 to |headers|
      invariant t == LastWins(Cells(headers[..i], trim))
    {
      assert headers[..i + 1][..i] == headers[..i];
      LastWinsSnoc(Cells(headers[..i], trim), (Lower(headers[i].0), CellText(headers[i].1, trim)));
      t := t[Lower(headers[i].0) := CellText(headers[i].1, trim)];
    }
    assert headers[..|headers|] == headers;
  }

  lemma LowerIsLower(s: string)
    ensures IsLower(Lower(s))
  {
  }

  lemma {:induction false} TrimKeepsVisible(s: string)
    requires VisibleAscii(s)
    ensures VisibleAscii(Trim(s))
  {
    var a := TrimStart(s);
    var b := TrimEnd(a);
    forall i | 0 <= i < |b|
      ensures (' ' <= b[i] && b[i] as int < 127) || b[i] == '\t'
    {
      assert b[i] == a[i] == s[|s| - |a| + i];
    }
  }

  /** A clean cell: a lower-case key, a visible-ASCII value and, trimmed, no blank at either end. */
  predicate CleanCell(c: (string, string), trim: bool) {
    && IsLower(c.0) && VisibleAscii(c.1)
    && (trim && c.1 != [] ==> !IsBlank(c.1[0]) && !IsBlank(c.1[|c.1| - 1]))
  }

  /** The cell the header loop makes of one header is clean. */
  lemma CellClean(h: (string, string), trim: bool)
    ensures CleanCell((Lower(h.0), CellText(h.1, trim)), trim)
  {
    LowerIsLower(h.0);
    var text := if VisibleAscii(h.1) then h.1 else "";
    if trim {
      TrimKeepsVisible(text);
    }
  }

  /** The table's keys are the lower-cased header names. */
  lemma {:induction false} TableKeys(headers: seq<(string, string)>, trim: bool)
    ensures LastWins(Cells(headers, trim)).Keys == set i | 0 <= i < |headers| :: Lower(headers[i].0)
  {
    var cells := Cells(headers, trim);
    LastWinsKeys(cells);
    forall k | k in LastWins(cells).Keys
      ensures exists i | 0 <= i < |headers| :: Lower(headers[i].0) == k
    {
      var i :| 0 <= i < |cells| && cells[i].0 == k;
      assert Lower(headers[i].0) == k;
    }
    forall i | 0 <= i < |headers|
      ensures Lower(headers[i].0) in LastWins(cells).Keys
    {
      assert cells[i].0 == Lower(headers[i].0);
    }
  }

  /** A table built from clean cells holds only clean entries. */
  lemma {:induction false} TableEntriesClean(cells: seq<(string, string)>, trim: bool)
    requires forall i | 0 <= i < |cells| :: CleanCell(cells[i], trim)
    ensures forall k | k in LastWins(cells) :: CleanCell((k, LastWins(cells)[k]), trim)
  {
    LastWinsKeys(cells);
    forall k | k in LastWins(cells)
      ensures CleanCell((k, LastWins(cells)[k]), trim)
    {
      var i := LastIndex(cells, k);
      LastWinsAt(cells, i);
    }
  }

  /**
   * What the header table promises the Lua side: lower-case keys, one per
   * distinct header name, values that are visible ASCII, and with `trim` no
   * value that begins or ends with white space.
   */
  lemma {:induction false} HeaderTableClean(headers: seq<(string, string)>, trim: bool)
    ensures var t := LastWins(Cells(headers, trim));
      && t.Keys == (set i | 0 <= i < |headers| :: Lower(headers[i].0))
      && (forall k | k in t :: IsLower(k) && VisibleAscii(t[k]))
      && (trim ==> forall k | k in t && t[k] != [] :: !IsBlank(t[k][0]) && !IsBlank(t[k][|t[k]| - 1]))
  {
    TableKeys(headers, trim);
    CellsClean(headers, trim);
    TableEntriesClean(Cells(headers, trim), trim);
  }

  /** Every cell the header loop makes is clean. */
  lemma {:induction false} CellsClean(headers: seq<(string, string)>, trim: bool)
    ensures forall i | 0 <= i < |Cells(headers, trim)| :: CleanCell(Cells(headers, trim)[i], trim)
  {
    var cells := Cells(headers, trim);
    forall i | 0 <= i < |cells|
      ensures CleanCell(cells[i], trim)
    {
      CellClean(headers[i], trim);
    }
  }

  /** The position of the last pair whose key is `k`. */
  lemma LastIndex(pairs: seq<(string, string)>, k: string) returns (i: nat)
    requires exists j | 0 <= j < |pairs| :: pairs[j].0 == k
    ensures i < |pairs| && pairs[i].0 == k
    ensures forall j | i < j < |pairs| :: pairs[j].0 != k
  {
    i := |pairs| - 1;
    while pairs[i].0 != k
      invariant 0 <= i < |pairs|
      invariant exists j | 0 <= j <= i :: pairs[j].0 == k
      invariant forall j | i < j < |pairs| :: pairs[j].0 != k
      decreases i
    {
      i := i - 1;
    }
  }
}
