/** Values and string operations shared by every part of the report tool:
    spreadsheet cells with JavaScript truthiness, row lookup, and the
    string helpers (lower-casing, substring search, trimming, sanitising,
    decimal printing, joining) that the TypeScript code gets from its
    runtime. */
module Common {

  datatype Option<T> = None | Some(value: T)

  /** Outcome of a check that either passes or fails with a message. */
  datatype Outcome = Pass | Fail(message: string)

  /** Result of an operation that may throw. */
  datatype Result<T> = Ok(value: T) | Err(message: string)

  /** A spreadsheet cell as the parser hands it over: text, a number, or
      absent (`undefined` when a row has no such key). */
  datatype Value = Str(s: string) | Num(n: int) | Undefined

  /** A row in the order `Object.entries` yields it. */
  type Row = seq<(string, Value)>

  /** JavaScript truthiness of a cell. */
  predicate Truthy(v: Value) {
    match v
    case Str(s) => s != ""
    case Num(n) => n != 0
    case Undefined => false
  }

  /** `v || fallback`. */
  function Or(v: Value, fallback: Value): (r: Value)
    ensures Truthy(v) ==> r == v
    ensures !Truthy(v) ==> r == fallback
  {
    if Truthy(v) then v else fallback
  }

  /** `row[key]`: the value of the first entry with that key, or
      `undefined` when the row has none. */
  function Get(row: Row, key: string): Value {
    if |row| == 0 then Undefined
    else if row[0].0 == key then row[0].1
    else Get(row[1..], key)
  }

  /** `row[key]` is `undefined` when no entry has the key, and otherwise the
      value of the first entry that has it. */
  lemma {:induction false} GetFirst(row: Row, key: string)
    ensures (forall i :: 0 <= i < |row| ==> row[i].0 != key) ==> Get(row, key) == Undefined
    ensures (exists i :: 0 <= i < |row| && row[i].0 == key) ==>
              exists i :: 0 <= i < |row| && row[i] == (key, Get(row, key)) &&
                forall j :: 0 <= j < i ==> row[j].0 != key
  {
    if |row| > 0 && row[0].0 != key {
      GetFirst(row[1..], key);
      assert forall i :: 1 <= i < |row| ==> row[i] == row[1..][i - 1];
    }
  }

  /** The displayed text of a cell: its text, or "N/A" when it is falsy. */
  function CellText(row: Row, key: string): string {
    ToStr(Or(Get(row, key), Str("N/A")))
  }

  /** `Object.keys(row)`. */
  function Keys(row: Row): (ks: seq<string>)
    ensures |ks| == |row| && forall i :: 0 <= i < |row| ==> ks[i] == row[i].0
  {
    seq(|row|, i requires 0 <= i < |row| => row[i].0)
  }

  function Digit(d: nat): (c: char)
    requires d < 10
    ensures '0' <= c <= '9'
  {
    "0123456789"[d]
  }

  /** Decimal text of a natural number, as `String(n)` prints it. */
  function NatToString(n: nat): (r: string)
    ensures |r| >= 1 && forall i :: 0 <= i < |r| ==> '0' <= r[i] <= '9'
    ensures n < 10 <==> |r| == 1
    decreases n
  {
    if n < 10 then [Digit(n)] else NatToString(n / 10) + [Digit(n % 10)]
  }

  /** Different numbers print differently. */
  lemma {:induction false} NatToStringInjective(a: nat, b: nat)
    requires NatToString(a) == NatToString(b)
    ensures a == b
    decreases a
  {
    if a >= 10 && b >= 10 {
      var sa, sb := NatToString(a), NatToString(b);
      assert sa[|sa| - 1] == Digit(a % 10) && sb[|sb| - 1] == Digit(b % 10);
      assert "0123456789"[a % 10] == "0123456789"[b % 10];
      assert a % 10 == b % 10;
      assert NatToString(a / 10) == sa[..|sa| - 1] == sb[..|sb| - 1] == NatToString(b / 10);
      NatToStringInjective(a / 10, b / 10);
    } else if a < 10 && b < 10 {
      assert "0123456789"[a] == "0123456789"[b];
    }
  }

  /** `String(n)` for an integer. */
  function IntToString(n: int): (r: string)
    ensures |r| >= 1
  {
    if n < 0 then "-" + NatToString(-n) else NatToString(n)
  }

  /** `String(v)` / template-literal interpolation of a cell. */
  function ToStr(v: Value): string {
    match v
    case Str(s) => s
    case Num(n) => IntToString(n)
    case Undefined => "undefined"
  }

  /** `.length` of a cell: its length for text; a number has no length
      property, which `'='.repeat(undefined)` treats as zero. */
  function LengthOf(v: Value): nat {
    match v
    case Str(s) => |s|
    case Num(_) => 0
    case Undefined => 0
  }

  function LowerChar(c: char): char {
    if 'A' <= c <= 'Z' then (c as int + 32) as char else c
  }

  /** `toLowerCase()` on the ASCII letters. */
  function Lower(s: string): (r: string)
    ensures |r| == |s| && forall i :: 0 <= i < |s| ==> r[i] == LowerChar(s[i])
  {
    seq(|s|, i requires 0 <= i < |s| => LowerChar(s[i]))
  }

  /** The message of the `TypeError` thrown when a cell that is not text is
      lower-cased. */
  function NotText(what: string): string {
    what + (".toLowerCase is not " + "a function")
  }

  predicate StartsWith(s: string, p: string) {
    |p| <= |s| && s[..|p|] == p
  }

  predicate EndsWith(s: string, p: string) {
    |p| <= |s| && s[|s| - |p|..] == p
  }

  /** `s.includes(p)` (and `s.indexOf(p) !== -1`). */
  predicate Contains(s: string, p: string)
    decreases |s|
  {
    StartsWith(s, p) || (|s| > 0 && Contains(s[1..], p))
  }

  /** A text contains what either of its parts contains. */
  lemma {:induction false} ContainsLeft(a: string, b: string, p: string)
    requires Contains(a, p)
    ensures Contains(a + b, p)
    decreases |a|
  {
    if StartsWith(a, p) {
      assert (a + b)[..|p|] == a[..|p|];
    } else {
      assert (a + b)[1..] == a[1..] + b;
      ContainsLeft(a[1..], b, p);
    }
  }

  lemma {:induction false} ContainsRight(a: string, b: string, p: string)
    requires Contains(b, p)
    ensures Contains(a + b, p)
    decreases |a|
  {
    if |a| == 0 {
      assert a + b == b;
    } else {
      assert (a + b)[1..] == a[1..] + b;
      ContainsRight(a[1..], b, p);
    }
  }

  /** The characters `String.prototype.trim` removes. */
  predicate IsSpace(c: char) {
    c == ' ' || c == '\t' || c == '\n' || c == '\r' || c == '\U{B}' || c == '\U{C}'
    || c == '\U{A0}' || c == '\U{1680}' || ('\U{2000}' <= c <= '\U{200A}')
    || c == '\U{2028}' || c == '\U{2029}' || c == '\U{202F}' || c == '\U{205F}'
    || c == '\U{3000}' || c == '\U{FEFF}'
  }

  function TrimStart(s: string): (r: string)
    ensures |r| <= |s| && r == s[|s| - |r|..]
    ensures r == [] || !IsSpace(r[0])
    ensures forall i :: 0 <= i < |s| - |r| ==> IsSpace(s[i])
  {
    if |s| > 0 && IsSpace(s[0]) then
      var r := TrimStart(s[1..]);
      assert forall i :: 1 <= i < |s| ==> s[i] == s[1..][i - 1];
      r
    else s
  }

  function TrimEnd(s: string): (r: string)
    ensures |r| <= |s| && r == s[..|r|]
    ensures r == [] || !IsSpace(r[|r| - 1])
    ensures forall i :: |r| <= i < |s| ==> IsSpace(s[i])
  {
    if |s| > 0 && IsSpace(s[|s| - 1]) then TrimEnd(s[..|s| - 1]) else s
  }

  /** `s.trim()`. */
  function Trim(s: string): string {
    TrimEnd(TrimStart(s))
  }

  /** `!s.trim()`: nothing is left after trimming. */
  predicate IsBlank(s: string) {
    Trim(s) == ""
  }

  /** A string is blank exactly when every character of it is whitespace. */
  lemma BlankIffAllSpace(s: string)
    ensures IsBlank(s) <==> forall i :: 0 <= i < |s| ==> IsSpace(s[i])
  {
    var t := TrimStart(s);
    assert t != [] ==> t[0] == s[|s| - |t|];
  }

  predicate IsAlnum(c: char) {
    ('a' <= c <= 'z') || ('A' <= c <= 'Z') || ('0' <= c <= '9')
  }

  /** `s.replace(/[^a-zA-Z0-9]/g, '_')`. */
  function Sanitize(s: string): (r: string)
    ensures |r| == |s|
    ensures forall i :: 0 <= i < |s| ==> r[i] == if IsAlnum(s[i]) then s[i] else '_'
  {
    if s == [] then []
    else
      var tail := Sanitize(s[1..]);
      assert forall i :: 1 <= i < |s| ==> s[i] == s[1..][i - 1];
      [if IsAlnum(s[0]) then s[0] else '_'] + tail
  }

  /** Every character is a letter, a digit or `_`. */
  predicate FileSafe(s: string) {
    forall i :: 0 <= i < |s| ==> IsAlnum(s[i]) || s[i] == '_'
  }

  /** A sanitised string is file-safe, and sanitising it again changes
      nothing. */
  lemma SanitizeSafe(s: string)
    ensures FileSafe(Sanitize(s))
    ensures Sanitize(Sanitize(s)) == Sanitize(s)
  {
  }

  /** A concatenation starts with its first part and ends with its second. */
  lemma ConcatParts(head: string, tail: string)
    ensures StartsWith(head + tail, head) && EndsWith(head + tail, tail)
    ensures (head + tail)[..|head|] == head
  {
    assert (head + tail)[..|head|] == head;
    assert (head + tail)[|head|..] == tail;
  }

  lemma StartsWithTrans(x: string, p: string, q: string)
    requires StartsWith(x, p) && StartsWith(p, q)
    ensures StartsWith(x, q)
  {
    assert x[..|q|] == x[..|p|][..|q|];
  }

  lemma FileSafeConcat(a: string, b: string)
    requires FileSafe(a) && FileSafe(b)
    ensures FileSafe(a + b)
  {
    forall i | 0 <= i < |a + b| ensures IsAlnum((a + b)[i]) || (a + b)[i] == '_' {
      if i >= |a| { assert (a + b)[i] == b[i - |a|]; }
    }
  }

  /** `c.repeat(n)`. */
  function Repeat(c: char, n: nat): (r: string)
    ensures |r| == n && forall i :: 0 <= i < n ==> r[i] == c
  {
    seq(n, _ => c)
  }

  /** `parts.join(sep)`. */
  function Join(parts: seq<string>, sep: string): string {
    if |parts| == 0 then ""
    else if |parts| == 1 then parts[0]
    else parts[0] + sep + Join(parts[1..], sep)
  }

  /** A join of at least one part starts with the first part. */
  lemma JoinStartsWith(parts: seq<string>, sep: string)
    requires |parts| > 0
    ensures StartsWith(Join(parts, sep), parts[0])
  {
    if |parts| > 1 {
      ConcatParts(parts[0], sep + Join(parts[1..], sep));
      assert parts[0] + sep + Join(parts[1..], sep) == parts[0] + (sep + Join(parts[1..], sep));
    }
  }

  lemma JoinStartsWithPrefix(parts: seq<string>, sep: string, p: string)
    requires |parts| > 0 && StartsWith(parts[0], p)
    ensures StartsWith(Join(parts, sep), p)
  {
    JoinStartsWith(parts, sep);
    StartsWithTrans(Join(parts, sep), parts[0], p);
  }

  /** The `key: value` text of every entry whose value is truthy and not
      blank, in entry order:
      `Object.entries(row).filter(([k, v]) => v && v.toString().trim()).map(([k, v]) => `${k}: ${v}`)`. */
  function RowEntries(row: Row): (r: seq<string>)
    ensures |r| <= |row|
  {
    if |row| == 0 then []
    else
      var (k, v) := row[0];
      (if Truthy(v) && !IsBlank(ToStr(v)) then [k + ": " + ToStr(v)] else []) + RowEntries(row[1..])
  }
}
