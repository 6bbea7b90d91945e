/** Character and string helpers shared by the scanners: Python's `str.strip`,
    ASCII case folding for `re.IGNORECASE` and `str.lower`, slicing with
    Python's bounds rules, `str.join` and `str(int)`. */
module Text {

  /** Python's `str.isspace` (and the `\s` class of `re` on `str` patterns). */
  predicate IsSpace(c: char) {
    c == ' ' || ('\t' <= c <= '\r') || ('\U{1c}' <= c <= '\U{1f}')
    || c == '\U{85}' || c == '\U{a0}' || c == '\U{1680}'
    || ('\U{2000}' <= c <= '\U{200a}') || c == '\U{2028}' || c == '\U{2029}'
    || c == '\U{202f}' || c == '\U{205f}' || c == '\U{3000}'
  }

  /** `\d`, restricted to ASCII digits. */
  predicate IsDigit(c: char) {
    '0' <= c <= '9'
  }

  /** `\w`: ASCII letters, digits and `_`; any other non-ASCII character that is not
      whitespace is taken as a word character. */
  predicate IsWordChar(c: char) {
    ('a' <= c <= 'z') || ('A' <= c <= 'Z') || IsDigit(c) || c == '_'
    || (c >= '\U{80}' && !IsSpace(c))
  }

  /** ASCII lower-casing of one character; other characters are unchanged. */
  function LowerChar(c: char): (r: char)
    ensures 'A' <= c <= 'Z' ==> r != c && 'a' <= r <= 'z'
    ensures !('A' <= c <= 'Z') ==> r == c
  {
    if 'A' <= c <= 'Z' then (c as int + 32) as char else c
  }

  function Lower(s: string): (r: string)
    ensures |r| == |s|
    ensures forall i :: 0 <= i < |s| ==> r[i] == LowerChar(s[i])
  {
    seq(|s|, i requires 0 <= i < |s| => LowerChar(s[i]))
  }

  /** `pat` occurs at position `i` of `s` when both are compared case-insensitively. */
  predicate CiMatchAt(s: string, i: nat, pat: string) {
    i + |pat| <= |s| && forall k :: 0 <= k < |pat| ==> LowerChar(s[i + k]) == LowerChar(pat[k])
  }

  /** Python's `s[:n]` for `n >= 0`. */
  function Prefix(s: string, n: nat): (r: string)
    ensures |r| == if |s| <= n then |s| else n
    ensures r <= s
  {
    if |s| <= n then s else s[..n]
  }

  /** Python's `xs[:n]` for any integer `n` (a negative `n` drops `-n` items from the end). */
  function Head<T>(xs: seq<T>, n: int): (r: seq<T>)
    ensures r <= xs
    ensures n >= 0 ==> |r| == if |xs| <= n then |xs| else n
    ensures n < 0 ==> |r| == if |xs| + n < 0 then 0 else |xs| + n
  {
    if n >= 0 then (if |xs| <= n then xs else xs[..n])
    else if |xs| + n < 0 then [] else xs[..|xs| + n]
  }

  /** `s.lstrip()`: what remains does not start with whitespace (and is a tail of `s`,
      see `TrimStartIsSuffix`). */
  function TrimStart(s: string): (r: string)
    decreases |s|
    ensures |r| <= |s|
    ensures r == [] || !IsSpace(r[0])
  {
    if s != [] && IsSpace(s[0]) then TrimStart(s[1..]) else s
  }

  lemma {:induction false} TrimStartIsSuffix(s: string)
    decreases |s|
    ensures OccursAt(s, TrimStart(s), |s| - |TrimStart(s)|)
  {
    if s != [] && IsSpace(s[0]) {
      var t := s[1..];
      var r := TrimStart(t);
      TrimStartIsSuffix(t);
      forall k | 0 <= k < |r| ensures r[k] == s[|s| - |r| + k] {
        assert r[k] == t[|t| - |r| + k];
      }
    }
  }

  /** `s.rstrip()`: what remains is the head of `s` that does not end with whitespace. */
  function TrimEnd(s: string): (r: string)
    decreases |s|
    ensures |r| <= |s| && forall k :: 0 <= k < |r| ==> r[k] == s[k]
    ensures r == [] || !IsSpace(r[|r| - 1])
  {
    if s != [] && IsSpace(s[|s| - 1]) then TrimEnd(s[..|s| - 1]) else s
  }

  /** What `TrimStart` removes is whitespace. */
  lemma {:induction false} TrimStartRemovesSpace(s: string)
    decreases |s|
    ensures forall k :: 0 <= k < |s| - |TrimStart(s)| ==> IsSpace(s[k])
  {
    if s != [] && IsSpace(s[0]) {
      var t := s[1..];
      TrimStartRemovesSpace(t);
      forall k | 0 < k < |s| - |TrimStart(s)| ensures IsSpace(s[k]) {
        assert s[k] == t[k - 1];
      }
    }
  }

  /** What `TrimEnd` removes is whitespace. */
  lemma {:induction false} TrimEndRemovesSpace(s: string)
    decreases |s|
    ensures forall k :: |TrimEnd(s)| <= k < |s| ==> IsSpace(s[k])
  {
    if s != [] && IsSpace(s[|s| - 1]) {
      var t := s[..|s| - 1];
      TrimEndRemovesSpace(t);
      forall k | |TrimEnd(s)| <= k < |s| - 1 ensures IsSpace(s[k]) {
        assert s[k] == t[k];
      }
    }
  }

  /** `s.strip()`. */
  function Strip(s: string): string {
    TrimEnd(TrimStart(s))
  }

  /** `not s.strip()`: nothing but whitespace (see `BlankIffStripsEmpty`). */
  predicate Blank(s: string) {
    forall k :: 0 <= k < |s| ==> IsSpace(s[k])
  }

  lemma BlankIffStripsEmpty(s: string)
    ensures Blank(s) <==> Strip(s) == []
  {
    var t := TrimStart(s);
    TrimStartRemovesSpace(s);
    TrimStartIsSuffix(s);
    TrimEndRemovesSpace(t);
    if Strip(s) == [] && t != [] {
      assert false;
    }
  }

  /** What stripping leaves neither starts nor ends with whitespace. */
  lemma StripEdges(s: string)
    ensures var r := Strip(s); r == [] || (!IsSpace(r[0]) && !IsSpace(r[|r| - 1]))
  {
    var t := TrimStart(s);
    var r := TrimEnd(t);
    if r != [] {
      assert r[0] == t[0];
    }
  }

  /** What stripping leaves is a contiguous piece of the original, found where the
      leading whitespace ends. */
  lemma StripAt(s: string)
    ensures OccursAt(s, Strip(s), |s| - |TrimStart(s)|)
  {
    var t := TrimStart(s);
    var r := TrimEnd(t);
    TrimStartIsSuffix(s);
    forall k | 0 <= k < |r| ensures r[k] == s[|s| - |t| + k] {
      assert r[k] == t[k];
    }
  }

  /** Python's `sep.join(parts)`. */
  function Join(parts: seq<string>, sep: string): string {
    if parts == [] then []
    else if |parts| == 1 then parts[0]
    else parts[0] + sep + Join(parts[1..], sep)
  }

  /** The value of a string of decimal digits, read most significant first. */
  function DigitsValue(ds: string): nat
    requires forall k :: 0 <= k < |ds| ==> IsDigit(ds[k])
  {
    if ds == [] then 0
    else
      var c := ds[|ds| - 1];
      assert IsDigit(c);
      10 * DigitsValue(ds[..|ds| - 1]) + (c as int - '0' as int)
  }

  /** `str(n)` for a natural number: decimal digits that read back as `n`, without a
      leading zero. */
  function NatToString(n: nat): (r: string)
    ensures |r| >= 1
    ensures forall k :: 0 <= k < |r| ==> IsDigit(r[k])
    ensures DigitsValue(r) == n
    ensures |r| > 1 ==> r[0] != '0'
  {
    if n < 10 then [Digit(n)]
    else
      var high := NatToString(n / 10);
      var r := high + [Digit(n % 10)];
      assert r[..|r| - 1] == high;
      r
  }

  function Digit(d: nat): (c: char)
    requires d < 10
    ensures IsDigit(c) && c as int - '0' as int == d
  {
    ('0' as int + d) as char
  }

  /** `needle in hay` for strings. */
  predicate Contains(hay: string, needle: string) {
    exists i :: 0 <= i <= |hay| - |needle| && OccursAt(hay, needle, i)
  }

  predicate OccursAt(hay: string, needle: string, i: int) {
    0 <= i <= |hay| - |needle| && forall k :: 0 <= k < |needle| ==> needle[k] == hay[i + k]
  }

  /** The leftmost position in `from..n` at which `p` holds, the usual first-match
      search behind `re.search` and `str.find`. */
  function FindFirst(n: nat, p: nat -> bool, from: nat): (r: Option<nat>)
    decreases n - from
    ensures r.Some? ==> from <= r.value < n && p(r.value)
    ensures r.Some? ==> forall j :: from <= j < r.value ==> !p(j)
    ensures r.None? ==> forall j :: from <= j < n ==> !p(j)
  {
    if from >= n then None
    else if p(from) then Some(from)
    else FindFirst(n, p, from + 1)
  }

  /** A position where `p` holds with no earlier one is what the search finds. */
  lemma FindFirstAt(n: nat, p: nat -> bool, i: nat)
    requires i < n && p(i) && forall j: nat :: j < i ==> !p(j)
    ensures FindFirst(n, p, 0) == Some(i)
  {
  }

  /** `s.find(c)`: the first position of `c`. */
  function IndexOf(s: string, c: char): (r: Option<nat>)
    ensures r.Some? ==> r.value < |s| && s[r.value] == c && c !in s[..r.value]
    ensures r.None? ==> c !in s
  {
    if s == [] then None
    else if s[0] == c then Some(0)
    else
      match IndexOf(s[1..], c)
      case Some(i) =>
        assert s[..i + 1] == [s[0]] + s[1..][..i];
        Some(i + 1)
      case None => None
  }

  /** `s.rfind(c)`: the last position of `c`. */
  function LastIndexOf(s: string, c: char): (r: Option<nat>)
    ensures r.Some? ==> r.value < |s| && s[r.value] == c && c !in s[r.value + 1..]
    ensures r.None? ==> c !in s
  {
    if s == [] then None
    else if s[|s| - 1] == c then Some(|s| - 1)
    else
      match LastIndexOf(s[..|s| - 1], c)
      case Some(i) =>
        assert s[i + 1..] == s[..|s| - 1][i + 1..] + [s[|s| - 1]];
        Some(i)
      case None =>
        assert s == s[..|s| - 1] + [s[|s| - 1]];
        None
  }

  /** The rightmost position below `n` at which `p` holds (`str.rfind`). */
  function FindLast(n: nat, p: nat -> bool): (r: Option<nat>)
    ensures r.Some? ==> r.value < n && p(r.value)
    ensures r.Some? ==> forall j :: r.value < j < n ==> !p(j)
    ensures r.None? ==> forall j :: 0 <= j < n ==> !p(j)
  {
    if n == 0 then None
    else if p(n - 1) then Some(n - 1)
    else FindLast(n - 1, p)
  }

  /** The length of the run of characters satisfying `p` that starts at `i`. */
  function RunLength(s: string, i: nat, p: char -> bool): (len: nat)
    requires i <= |s|
    decreases |s| - i
    ensures i + len <= |s|
    ensures forall k :: i <= k < i + len ==> p(s[k])
    ensures i + len < |s| ==> !p(s[i + len])
  {
    if i < |s| && p(s[i]) then 1 + RunLength(s, i + 1, p) else 0
  }

  datatype Option<+T> = None | Some(value: T) {
    function GetOr(default: T): T {
      match this
      case Some(v) => v
      case None => default
    }
  }
}
