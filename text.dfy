/**
 * The JavaScript string operations the application relies on, over
 * `string` (= `seq<char>`, one char per UTF-16 code unit):
 * `startsWith`, `indexOf`/`includes`, `replace` with a string pattern
 * (first occurrence only), `split(sep)[1]`, `join`, `trim() === ''`, the
 * character class `[a-zA-Z0-9_]` and the decimal text of a number.
 */
module Text {
  import opened Wrappers

  predicate StartsWith(s: string, prefix: string) {
    |prefix| <= |s| && s[..|prefix|] == prefix
  }

  /** `t` occurs in `s` starting at index `i`. */
  predicate OccursAt(s: string, t: string, i: nat) {
    i + |t| <= |s| && s[i..i + |t|] == t
  }

  lemma OccursAtTail(s: string, t: string, k: nat)
    requires |s| > 0
    ensures OccursAt(s[1..], t, k) <==> OccursAt(s, t, k + 1)
  {
    if k + 1 + |t| <= |s| {
      assert s[1..][k..k + |t|] == s[k + 1..k + 1 + |t|];
    }
  }

  /** `s.indexOf(t)`: the leftmost index at which `t` occurs, if any. */
  function IndexOf(s: string, t: string): (r: Option<nat>)
    ensures r.Some? ==> r.value + |t| <= |s|
    decreases |s|
  {
    if |s| < |t| then None
    else if s[..|t|] == t then Some(0)
    else
      match IndexOf(s[1..], t)
      case None => None
      case Some(k) => Some(k + 1)
  }

  /** `IndexOf` finds an occurrence, none further left, and misses only when there is none. */
  lemma {:induction false} IndexOfLeftmost(s: string, t: string)
    ensures IndexOf(s, t).Some? ==> OccursAt(s, t, IndexOf(s, t).value)
    ensures IndexOf(s, t).Some? ==> forall j: nat :: j < IndexOf(s, t).value ==> !OccursAt(s, t, j)
    ensures IndexOf(s, t).None? ==> forall j: nat :: !OccursAt(s, t, j)
    decreases |s|
  {
    if |s| < |t| {
    } else if s[..|t|] == t {
    } else {
      IndexOfLeftmost(s[1..], t);
      forall k: nat ensures OccursAt(s[1..], t, k) <==> OccursAt(s, t, k + 1) {
        OccursAtTail(s, t, k);
      }
      assert !OccursAt(s, t, 0);
      match IndexOf(s[1..], t)
      case None =>
        assert IndexOf(s, t) == None;
        forall j: nat ensures !OccursAt(s, t, j) {
          if j > 0 {
            assert !OccursAt(s[1..], t, j - 1);
          }
        }
      case Some(k) =>
        assert IndexOf(s, t) == Some(k + 1);
        forall j: nat | j < k + 1 ensures !OccursAt(s, t, j) {
          if j > 0 {
            assert !OccursAt(s[1..], t, j - 1);
          }
        }
    }
  }

  /** `s.includes(t)`. */
  predicate Contains(s: string, t: string) {
    IndexOf(s, t).Some?
  }

  lemma ContainsIff(s: string, t: string)
    ensures Contains(s, t) <==> exists i: nat :: OccursAt(s, t, i)
  {
    IndexOfLeftmost(s, t);
  }

  /** `s.replace(t, r)` with a string pattern: only the first occurrence is replaced. */
  function ReplaceFirst(s: string, t: string, r: string): string {
    match IndexOf(s, t)
    case None => s
    case Some(i) => s[..i] + r + s[i + |t|..]
  }

  lemma ReplaceFirstAbsent(s: string, t: string, r: string)
    requires !Contains(s, t)
    ensures ReplaceFirst(s, t, r) == s
  {
  }

  /** A leading occurrence is the one `replace` removes. */
  lemma {:induction false} ReplaceFirstLeading(s: string, t: string, r: string)
    requires StartsWith(s, t)
    ensures ReplaceFirst(s, t, r) == r + s[|t|..]
  {
    assert s[..|t|] == t;
  }

  /**
   * `s.split(sep)[1]` for a non-empty separator: the text between the first
   * and the second occurrence of `sep` (or up to the end), and `undefined`
   * when `sep` does not occur.
   */
  function SplitSecond(s: string, sep: string): (r: Option<string>)
    requires sep != []
  {
    match IndexOf(s, sep)
    case None => None
    case Some(i) =>
      var rest := s[i + |sep|..];
      match IndexOf(rest, sep)
      case None => Some(rest)
      case Some(j) => Some(rest[..j])
  }

  /** `xs.join(sep)`. */
  function Join(xs: seq<string>, sep: string): (r: string)
    ensures xs == [] ==> r == ""
    ensures |xs| == 1 ==> r == xs[0]
  {
    if xs == [] then ""
    else if |xs| == 1 then xs[0]
    else xs[0] + sep + Join(xs[1..], sep)
  }

  /** One character of the class `[a-zA-Z0-9_]`. */
  predicate IsWordChar(c: char) {
    ('a' <= c <= 'z') || ('A' <= c <= 'Z') || ('0' <= c <= '9') || c == '_'
  }

  /** The regular expression `^[a-zA-Z0-9_]+$`. */
  predicate IsWord(s: string) {
    |s| > 0 && forall i :: 0 <= i < |s| ==> IsWordChar(s[i])
  }

  /**
   * The white space `String.prototype.trim` removes: the ECMAScript
   * WhiteSpace and LineTerminator code points, which are the ASCII ones, the
   * byte-order mark and the Unicode space separators (category Zs).
   */
  predicate IsSpace(c: char) {
    c == ' ' || c == '\t' || c == '\n' || c == '\r' || c == '\U{000B}' || c == '\U{000C}'
    || c == '\U{00A0}' || c == '\U{1680}' || ('\U{2000}' <= c <= '\U{200A}')
    || c == '\U{2028}' || c == '\U{2029}' || c == '\U{202F}' || c == '\U{205F}'
    || c == '\U{3000}' || c == '\U{FEFF}'
  }

  /** `s.trim() === ''`. */
  predicate IsBlank(s: string) {
    forall i :: 0 <= i < |s| ==> IsSpace(s[i])
  }

  /** JavaScript truthiness of a nullable string: present and non-empty. */
  predicate Truthy(s: Option<string>) {
    s.Some? && s.value != ""
  }

  /** `a || b` on nullable strings. */
  function OrElse(s: Option<string>, default: string): (r: string)
    ensures Truthy(s) ==> r == s.value
    ensures !Truthy(s) ==> r == default
  {
    if Truthy(s) then s.value else default
  }

  function DigitChar(d: nat): (c: char)
    requires d < 10
  {
    ('0' as int + d) as char
  }

  /** `String(n)` for a non-negative integer: its decimal digits. */
  function Decimal(n: nat): (r: string)
    ensures |r| > 0
    ensures forall i :: 0 <= i < |r| ==> '0' <= r[i] <= '9'
  {
    if n < 10 then [DigitChar(n)] else Decimal(n / 10) + [DigitChar(n % 10)]
  }

  lemma {:induction false} DecimalLength(n: nat)
    ensures n >= 10 ==> |Decimal(n)| >= 2
  {
  }

  /** Different numbers have different decimal texts. */
  lemma {:induction false} DecimalInjective(a: nat, b: nat)
    requires Decimal(a) == Decimal(b)
    ensures a == b
    decreases a
  {
    DecimalLength(a);
    DecimalLength(b);
    if a < 10 && b < 10 {
      assert DigitChar(a) == Decimal(a)[0] == Decimal(b)[0] == DigitChar(b);
    } else if a >= 10 && b >= 10 {
      var da, db := Decimal(a / 10), Decimal(b / 10);
      assert Decimal(a) == da + [DigitChar(a % 10)] && Decimal(b) == db + [DigitChar(b % 10)];
      assert da == Decimal(a)[..|Decimal(a)| - 1];
      assert db == Decimal(b)[..|Decimal(b)| - 1];
      assert DigitChar(a % 10) == Decimal(a)[|Decimal(a)| - 1] == Decimal(b)[|Decimal(b)| - 1] == DigitChar(b % 10);
      DecimalInjective(a / 10, b / 10);
    }
  }
}
