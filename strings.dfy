/** The handful of Python string operations the adapters rely on, with the
    semantics CPython gives them: `str.split(" ")`, `str.splitlines()`,
    `str.upper()` (ASCII letters), `int(str)` (sign and decimal digits),
    `str.startswith` and the substring test `t in s`. */
module Strings {
  import opened Wrappers

  /** Python's `t in s` on two strings: t occurs in s as a contiguous run. */
  predicate Contains(s: string, t: string) {
    exists i :: 0 <= i <= |s| - |t| && OccursAt(s, t, i)
  }

  predicate OccursAt(s: string, t: string, i: int) {
    0 <= i <= |s| - |t| && s[i..i + |t|] == t
  }

  /** If u occurs in s and t occurs in u, then t occurs in s. */
  lemma ContainsTransitive(s: string, u: string, t: string)
    requires Contains(s, u) && Contains(u, t)
    ensures Contains(s, t)
  {
    var i :| 0 <= i <= |s| - |u| && OccursAt(s, u, i);
    var j :| 0 <= j <= |u| - |t| && OccursAt(u, t, j);
    forall k | 0 <= k < |t| ensures s[i + j + k] == t[k] {
      assert s[i + j + k] == s[i..i + |u|][j + k] == u[j + k] == u[j..j + |t|][k];
    }
    assert s[i + j..i + j + |t|] == t;
    assert OccursAt(s, t, i + j);
  }

  /** Python's `s.startswith(p)`. */
  predicate StartsWith(s: string, p: string) {
    |p| <= |s| && s[..|p|] == p
  }

  /** Index of the first character satisfying p, or |s| when there is none. */
  function IndexWhere(s: string, p: char -> bool): (i: nat)
    ensures i <= |s|
    ensures forall j :: 0 <= j < i ==> !p(s[j])
    ensures i < |s| ==> p(s[i])
  {
    if s == [] then 0
    else if p(s[0]) then 0
    else 1 + IndexWhere(s[1..], p)
  }

  /** Python's `s.split(sep)` for a one-character separator: every occurrence
      of sep cuts, so adjacent separators yield empty fields, and the empty
      string yields one empty field. */
  function Split(s: string, sep: char): (r: seq<string>)
    ensures |r| >= 1
    ensures forall k :: 0 <= k < |r| ==> sep !in r[k]
    decreases |s|
  {
    var i := IndexWhere(s, c => c == sep);
    if i == |s| then [s]
    else [s[..i]] + Split(s[i + 1..], sep)
  }

  /** Python's `sep.join(parts)`. */
  function Join(parts: seq<string>, sep: char): string
    decreases |parts|
  {
    if parts == [] then []
    else if |parts| == 1 then parts[0]
    else parts[0] + [sep] + Join(parts[1..], sep)
  }

  /** Splitting and joining back on the same separator gives the text back. */
  lemma {:induction false} JoinSplit(s: string, sep: char)
    ensures Join(Split(s, sep), sep) == s
    decreases |s|
  {
    var i := IndexWhere(s, c => c == sep);
    if i < |s| {
      var rest := Split(s[i + 1..], sep);
      assert Split(s, sep) == [s[..i]] + rest;
      JoinSplit(s[i + 1..], sep);
      assert Join([s[..i]] + rest, sep) == s[..i] + [sep] + Join(rest, sep);
      assert s == s[..i] + [sep] + s[i + 1..];
    }
  }

  /** Joining fields that do not contain the separator and splitting again
      gives the same fields back. */
  lemma {:induction false} SplitJoin(parts: seq<string>, sep: char)
    requires |parts| >= 1
    requires forall k :: 0 <= k < |parts| ==> sep !in parts[k]
    ensures Split(Join(parts, sep), sep) == parts
    decreases |parts|
  {
    var s := Join(parts, sep);
    var i := IndexWhere(s, c => c == sep);
    if |parts| == 1 {
    } else {
      var p0 := parts[0];
      assert s == p0 + [sep] + Join(parts[1..], sep);
      assert s[|p0|] == sep;
      assert i == |p0|;
      assert s[..i] == p0;
      assert s[i + 1..] == Join(parts[1..], sep);
      SplitJoin(parts[1..], sep);
    }
  }

  /** The first field is the text up to the first separator, or all of it
      when there is none. */
  lemma SplitHead(s: string, sep: char)
    ensures StartsWith(s, Split(s, sep)[0])
    ensures sep !in Split(s, sep)[0]
    ensures |Split(s, sep)[0]| < |s| ==> s[|Split(s, sep)[0]|] == sep
    ensures sep !in s ==> Split(s, sep)[0] == s
  {
    var i := IndexWhere(s, c => c == sep);
    if sep !in s {
      assert i == |s|;
    }
  }

  /** The characters CPython's `str.splitlines()` treats as line boundaries. */
  predicate IsLineBreak(c: char) {
    c == '\n' || c == '\r' || c == '\U{0B}' || c == '\U{0C}' || c == '\U{1C}' || c == '\U{1D}'
    || c == '\U{1E}' || c == '\U{85}' || c == '\U{2028}' || c == '\U{2029}'
  }

  predicate NoLineBreak(line: string) {
    forall j :: 0 <= j < |line| ==> !IsLineBreak(line[j])
  }

  /** Python's `s.splitlines()`: cut at every line boundary ("\r\n" counts as
      one), drop the boundaries, and produce no empty last line for a
      trailing boundary. */
  function SplitLines(s: string): (r: seq<string>)
    ensures forall k :: 0 <= k < |r| ==> NoLineBreak(r[k])
    decreases |s|
  {
    if s == [] then []
    else
      var i := IndexWhere(s, IsLineBreak);
      if i == |s| then [s]
      else
        var next := if s[i] == '\r' && i + 1 < |s| && s[i + 1] == '\n' then i + 2 else i + 1;
        [s[..i]] + SplitLines(s[next..])
  }

  /** The text of a file whose lines each end with "\n". */
  function Terminated(lines: seq<string>): string
    decreases |lines|
  {
    if lines == [] then [] else lines[0] + "\n" + Terminated(lines[1..])
  }

  /** Reading back the lines of a newline-terminated file gives the lines
      that were written, empty ones included. */
  lemma {:induction false} SplitLinesTerminated(lines: seq<string>)
    requires forall k :: 0 <= k < |lines| ==> NoLineBreak(lines[k])
    ensures SplitLines(Terminated(lines)) == lines
    decreases |lines|
  {
    if lines != [] {
      var l := lines[0];
      var s := Terminated(lines);
      assert s == l + "\n" + Terminated(lines[1..]);
      assert IsLineBreak(s[|l|]);
      var i := IndexWhere(s, IsLineBreak);
      assert i == |l|;
      assert s[..i] == l;
      assert s[i + 1..] == Terminated(lines[1..]);
      SplitLinesTerminated(lines[1..]);
    }
  }

  /** Python's `str.upper()` on ASCII letters. */
  function UpperChar(c: char): char {
    if 'a' <= c <= 'z' then (c as int - 32) as char else c
  }

  function Upper(s: string): (r: string)
    ensures |r| == |s|
    ensures forall i :: 0 <= i < |s| ==> r[i] == UpperChar(s[i])
  {
    seq(|s|, i requires 0 <= i < |s| => UpperChar(s[i]))
  }

  /** s holds no lower-case ASCII letter. */
  predicate IsUpper(s: string) {
    forall i :: 0 <= i < |s| ==> !('a' <= s[i] <= 'z')
  }

  /** Upper-casing yields an upper-case string, and leaves exactly the
      upper-case strings unchanged. */
  lemma UpperIsUpper(s: string)
    ensures IsUpper(Upper(s))
    ensures Upper(s) == s <==> IsUpper(s)
  {
    if Upper(s) == s {
      forall i | 0 <= i < |s| ensures !('a' <= s[i] <= 'z') {
        assert Upper(s)[i] == UpperChar(s[i]);
      }
    }
  }

  predicate IsDigit(c: char) {
    '0' <= c <= '9'
  }

  predicate AllDigits(s: string) {
    forall i :: 0 <= i < |s| ==> IsDigit(s[i])
  }

  /** The value of a run of decimal digits, most significant first. */
  function DigitsValue(ds: string): nat
    requires AllDigits(ds)
    decreases |ds|
  {
    if ds == [] then 0
    else DigitsValue(ds[..|ds| - 1]) * 10 + (ds[|ds| - 1] as int - '0' as int)
  }

  /** Python's `int(s)` for an optional sign followed by decimal digits;
      anything else raises ValueError, here None. */
  function ParseInt(s: string): Option<int> {
    if |s| > 0 && (s[0] == '-' || s[0] == '+') then
      var ds := s[1..];
      if ds != [] && AllDigits(ds) then
        Some(if s[0] == '-' then -(DigitsValue(ds) as int) else DigitsValue(ds))
      else None
    else if s != [] && AllDigits(s) then Some(DigitsValue(s))
    else None
  }

  /** Python's `str(n)` for an integer. */
  function NatToString(n: nat): (r: string)
    ensures r != [] && AllDigits(r)
  {
    var d := ('0' as int + n % 10) as char;
    if n < 10 then [d] else NatToString(n / 10) + [d]
  }

  function IntToString(n: int): string {
    if n < 0 then "-" + NatToString(-n) else NatToString(n)
  }

  lemma {:induction false} DigitsOfNat(n: nat)
    ensures DigitsValue(NatToString(n)) == n
  {
    var r := NatToString(n);
    if n >= 10 {
      DigitsOfNat(n / 10);
      assert r[..|r| - 1] == NatToString(n / 10);
    }
  }

  /** `int(str(n)) == n`. */
  lemma ParseIntOfIntToString(n: int)
    ensures ParseInt(IntToString(n)) == Some(n)
  {
    var s := IntToString(n);
    if n < 0 {
      var ds := NatToString(-n);
      DigitsOfNat(-n);
      assert s == "-" + ds && s[0] == '-';
      assert s[1..] == ds;
    } else {
      var ds := NatToString(n);
      DigitsOfNat(n);
      assert IsDigit(ds[0]);
    }
  }

  /** A string with a character that is neither a digit nor a sign is not an
      integer. */
  lemma ParseIntRejects(s: string, i: nat)
    requires i < |s| && !IsDigit(s[i]) && s[i] != '-' && s[i] != '+'
    ensures ParseInt(s) == None
  {
    if 0 < i {
      assert s[1..][i - 1] == s[i];
    }
  }
}
