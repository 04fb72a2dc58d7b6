/** Helpers shared by every module of the model: optional values, the chat
    message shape, Python's notion of whitespace, strip/split/join, decimal
    integers, lexicographic string order and a stable descending sort. */
module Common {

  datatype Option<T> = None | Some(value: T) {
    function GetOr(default: T): T {
      match this
      case Some(v) => v
      case None => default
    }
  }

  /** A `{"role": ..., "content": ...}` message as the chat code passes it around. */
  datatype ChatMessage = ChatMessage(role: string, content: string)

  function Min(a: int, b: int): int { if a <= b then a else b }
  function Max(a: int, b: int): int { if a >= b then a else b }

  // ---------------------------------------------------------------------------
  // Whitespace, strip, split, join

  /** The characters for which Python's `str.isspace()` holds; `str.split()`,
      `str.strip()` and the regex class `\s` all use this set. */
  predicate IsSpace(c: char) {
    c == ' ' || ('\t' <= c <= '\r') || ('\U{1c}' <= c <= '\U{1f}')
    || c == '\U{85}' || c == '\U{a0}' || c == '\U{1680}'
    || ('\U{2000}' <= c <= '\U{200a}') || c == '\U{2028}' || c == '\U{2029}'
    || c == '\U{202f}' || c == '\U{205f}' || c == '\U{3000}'
  }

  predicate AllSpace(s: string) {
    forall i :: 0 <= i < |s| ==> IsSpace(s[i])
  }

  /** The end of the run of whitespace that starts at `i`. */
  function SpaceRunEnd(s: string, i: nat): (k: nat)
    requires i <= |s|
    ensures i <= k <= |s|
    ensures forall j :: i <= j < k ==> IsSpace(s[j])
    ensures k == |s| || !IsSpace(s[k])
    decreases |s| - i
  {
    if i < |s| && IsSpace(s[i]) then SpaceRunEnd(s, i + 1) else i
  }

  /** The start of the run of whitespace that ends at `j`. */
  function SpaceRunStart(s: string, j: nat): (k: nat)
    requires j <= |s|
    ensures k <= j
    ensures forall i :: k <= i < j ==> IsSpace(s[i])
    ensures k == 0 || !IsSpace(s[k - 1])
  {
    if j > 0 && IsSpace(s[j - 1]) then SpaceRunStart(s, j - 1) else j
  }

  /** `s.lstrip()`: drops the leading whitespace and nothing else. */
  function LStrip(s: string): (r: string)
    ensures |r| <= |s| && r == s[|s| - |r|..]
    ensures AllSpace(s[..|s| - |r|])
    ensures r == [] || !IsSpace(r[0])
  {
    s[SpaceRunEnd(s, 0)..]
  }

  /** `s.rstrip()`: drops the trailing whitespace and nothing else. */
  function RStrip(s: string): (r: string)
    ensures |r| <= |s| && r == s[..|r|]
    ensures AllSpace(s[|r|..])
    ensures r == [] || !IsSpace(r[|r| - 1])
  {
    s[..SpaceRunStart(s, |s|)]
  }

  /** `s.strip()`: neither end of the result is whitespace; `StripIsSlice`
      shows that only whitespace is cut, on either side. */
  function Strip(s: string): (r: string)
    ensures |r| <= |s|
    ensures r == [] || (!IsSpace(r[0]) && !IsSpace(r[|r| - 1]))
  {
    RStrip(LStrip(s))
  }

  /** The stripped text is the piece of `s` that starts where the leading
      whitespace ends, and whitespace is all that lies around it. */
  lemma StripIsSlice(s: string)
    ensures var i := |s| - |LStrip(s)|;
            i + |Strip(s)| <= |s| && Strip(s) == s[i..i + |Strip(s)|]
            && AllSpace(s[..i]) && AllSpace(s[i + |Strip(s)|..])
  {
    var l := LStrip(s);
    var r := RStrip(l);
    var i := |s| - |l|;
    assert l == s[i..];
    assert r == l[..|r|];
    assert l[..|r|] == s[i..i + |r|];
    assert l[|r|..] == s[i + |r|..];
  }

  /** True when `s` is empty or whitespace only; `StripEmptyIffBlank` shows
      this is `not s.strip()`. */
  predicate IsBlank(s: string) {
    AllSpace(s)
  }

  lemma {:induction false} StripEmptyIffBlank(s: string)
    ensures Strip(s) == [] <==> IsBlank(s)
  {
    StripIsSlice(s);
    var l := LStrip(s);
    var i := |s| - |l|;
    if Strip(s) == [] {
      assert l[0..] == l;
      assert l == [];
      assert s[..i] == s;
    } else {
      assert s[i] == Strip(s)[0];
    }
  }

  /** `sep.join(parts)`. */
  function Join(parts: seq<string>, sep: string): string {
    if |parts| == 0 then ""
    else if |parts| == 1 then parts[0]
    else parts[0] + sep + Join(parts[1..], sep)
  }

  lemma {:induction false} JoinNonEmpty(parts: seq<string>, sep: string)
    requires |parts| > 0 && parts[0] != ""
    ensures Join(parts, sep) != ""
  {
    if |parts| > 1 {
      assert Join(parts, sep)[0] == parts[0][0];
    }
  }

  /** `"".join(parts)`, taken from the end so that appending one piece is one step. */
  function Concat(parts: seq<string>): string {
    if |parts| == 0 then "" else Concat(parts[..|parts| - 1]) + parts[|parts| - 1]
  }

  lemma ConcatSnoc(parts: seq<string>, p: string)
    ensures Concat(parts + [p]) == Concat(parts) + p
  {
    assert (parts + [p])[..|parts|] == parts;
  }

  /** One more part read from a list adds it at the end. */
  lemma ConcatStep(parts: seq<string>, i: nat)
    requires i < |parts|
    ensures Concat(parts[..i + 1]) == Concat(parts[..i]) + parts[i]
  {
    assert parts[..i + 1] == parts[..i] + [parts[i]];
    ConcatSnoc(parts[..i], parts[i]);
  }

  /** `f` read off every element, in order. */
  function MapAll<T, U>(xs: seq<T>, f: T -> U): (ys: seq<U>)
    ensures |ys| == |xs|
    ensures forall i :: 0 <= i < |xs| ==> ys[i] == f(xs[i])
  {
    seq(|xs|, i requires 0 <= i < |xs| => f(xs[i]))
  }

  lemma MapAllSnoc<T, U>(xs: seq<T>, x: T, f: T -> U)
    ensures MapAll(xs + [x], f) == MapAll(xs, f) + [f(x)]
  {
    assert forall i :: 0 <= i < |xs| ==> (xs + [x])[i] == xs[i];
  }

  /** `s.split(sep)` for a one-character separator: always at least one part,
      none holding the separator, and joined by it they give `s` back. */
  function SplitOn(s: string, sep: char): (parts: seq<string>)
    ensures |parts| >= 1
    ensures forall i :: 0 <= i < |parts| ==> sep !in parts[i]
    ensures Join(parts, [sep]) == s
  {
    if |s| == 0 then [""]
    else
      var rest := SplitOn(s[1..], sep);
      if s[0] == sep then
        assert ([""] + rest)[1..] == rest;
        [""] + rest
      else
        JoinExtendsHead(s[0], rest, [sep]);
        [[s[0]] + rest[0]] + rest[1..]
  }

  /** Putting a character in front of the first part puts it in front of the join. */
  lemma JoinExtendsHead(c: char, parts: seq<string>, sep: string)
    requires |parts| >= 1
    ensures Join([[c] + parts[0]] + parts[1..], sep) == [c] + Join(parts, sep)
  {
    var ps := [[c] + parts[0]] + parts[1..];
    assert ps[1..] == parts[1..];
  }

  /** Python's `s[:n]`. */
  function Prefix<T>(s: seq<T>, n: nat): (r: seq<T>)
    ensures |r| == Min(|s|, n) && r == s[..|r|]
  {
    if |s| <= n then s else s[..n]
  }

  /** Python's `s[-n:]` applied only when `len(s) > n`, as the controllers do. */
  function LastN<T>(s: seq<T>, n: nat): (r: seq<T>)
    ensures |r| == Min(|s|, n) && r == s[|s| - |r|..]
  {
    if |s| > n then s[|s| - n..] else s
  }

  /** Python's `s[a:b]` for non-negative bounds. */
  function Slice<T>(s: seq<T>, a: nat, b: nat): (r: seq<T>)
    ensures a <= b <= |s| ==> r == s[a..b]
    ensures |r| <= |s| && |r| <= if a <= b then b - a else 0
  {
    if a >= b || a >= |s| then [] else s[a..Min(b, |s|)]
  }

  predicate StartsWith(s: string, p: string) {
    |p| <= |s| && s[..|p|] == p
  }

  predicate EndsWith(s: string, p: string) {
    |p| <= |s| && s[|s| - |p|..] == p
  }

  /** `sub in s`. */
  predicate Contains(s: string, sub: string)
    decreases |s|
  {
    StartsWith(s, sub) || (|s| > 0 && Contains(s[1..], sub))
  }

  function LowerChar(c: char): char {
    if 'A' <= c <= 'Z' then (c as int + 32) as char else c
  }

  function UpperChar(c: char): char {
    if 'a' <= c <= 'z' then (c as int - 32) as char else c
  }

  /** `s.lower()` on the ASCII letters. */
  function Lower(s: string): (r: string)
    ensures |r| == |s|
    ensures forall i :: 0 <= i < |s| ==> r[i] == LowerChar(s[i])
  {
    if |s| == 0 then "" else [LowerChar(s[0])] + Lower(s[1..])
  }

  // ---------------------------------------------------------------------------
  // Decimal integers

  function DigitChar(d: nat): char
    requires d < 10
  {
    ('0' as int + d) as char
  }

  predicate IsDigit(c: char) { '0' <= c <= '9' }

  function DigitValue(c: char): nat
    requires IsDigit(c)
  {
    c as int - '0' as int
  }

  predicate AllDigits(s: string) {
    forall i :: 0 <= i < |s| ==> IsDigit(s[i])
  }

  /** The number a run of decimal digits denotes. */
  function DigitsValue(s: string): nat
    requires AllDigits(s)
  {
    if |s| == 0 then 0 else 10 * DigitsValue(s[..|s| - 1]) + DigitValue(s[|s| - 1])
  }

  /** `str(n)` for a natural number. */
  function NatToString(n: nat): (s: string)
    ensures |s| >= 1 && forall i :: 0 <= i < |s| ==> IsDigit(s[i])
  {
    if n < 10 then [DigitChar(n)] else NatToString(n / 10) + [DigitChar(n % 10)]
  }

  /** Python's base-10 integer literal body: ASCII digits, with single
      underscores allowed between two digits (`"1_000"`); read from the end,
      a digit preceded by a grouped run, by `_` and a grouped run, or by nothing. */
  predicate GroupedDigits(s: string)
    decreases |s|
  {
    if |s| == 0 then false
    else if |s| == 1 then IsDigit(s[0])
    else IsDigit(s[|s| - 1]) && (GroupedDigits(s[..|s| - 1]) || (s[|s| - 2] == '_' && GroupedDigits(s[..|s| - 2])))
  }

  /** A grouped run starts and ends with a digit and holds only digits and underscores. */
  lemma {:induction false} GroupedChars(s: string)
    requires GroupedDigits(s)
    ensures IsDigit(s[0]) && IsDigit(s[|s| - 1])
    ensures forall i :: 0 <= i < |s| ==> IsDigit(s[i]) || s[i] == '_'
    decreases |s|
  {
    if |s| > 1 {
      var k := if GroupedDigits(s[..|s| - 1]) then |s| - 1 else |s| - 2;
      GroupedChars(s[..k]);
      assert s[0] == s[..k][0];
      assert forall i :: 0 <= i < k ==> s[i] == s[..k][i];
    }
  }

  /** A run of digits is grouped. */
  lemma {:induction false} DigitsAreGrouped(s: string)
    requires |s| > 0 && AllDigits(s)
    ensures GroupedDigits(s)
    decreases |s|
  {
    if |s| > 1 {
      var init := s[..|s| - 1];
      assert forall i :: 0 <= i < |init| ==> init[i] == s[i];
      DigitsAreGrouped(init);
    }
  }

  /** The digits of a grouped run, underscores dropped. */
  function DropUnderscores(s: string): (r: string)
    ensures (forall i :: 0 <= i < |s| ==> IsDigit(s[i]) || s[i] == '_') ==> AllDigits(r)
    ensures AllDigits(s) ==> r == s
  {
    if |s| == 0 then []
    else
      assert forall i :: 0 <= i < |s| - 1 ==> s[..|s| - 1][i] == s[i];
      DropUnderscores(s[..|s| - 1]) + (if s[|s| - 1] == '_' then [] else [s[|s| - 1]])
  }

  /** The number a grouped run denotes. */
  function GroupedValue(s: string): nat
    requires GroupedDigits(s)
  {
    GroupedChars(s);
    DigitsValue(DropUnderscores(s))
  }

  /** `int(s)`: optional surrounding whitespace, an optional sign, then ASCII
      digits grouped by single underscores; anything else is a `ValueError`,
      here `None`. */
  function ParseInt(s: string): Option<int> {
    ParseSigned(Strip(s))
  }

  /** `int` of a text without surrounding whitespace. */
  function ParseSigned(t: string): Option<int> {
    var neg := |t| > 0 && t[0] == '-';
    var body := if |t| > 0 && (t[0] == '-' || t[0] == '+') then t[1..] else t;
    if !GroupedDigits(body) then None
    else
      var n: int := GroupedValue(body);
      Some(if neg then -n else n)
  }

  lemma {:induction false} DigitsValueOfNatToString(n: nat)
    ensures AllDigits(NatToString(n)) && DigitsValue(NatToString(n)) == n
  {
    if n >= 10 {
      DigitsValueOfNatToString(n / 10);
      var s := NatToString(n);
      assert s[..|s| - 1] == NatToString(n / 10);
    }
  }

  lemma StripUnpadded(s: string)
    requires |s| > 0 && !IsSpace(s[0]) && !IsSpace(s[|s| - 1])
    ensures Strip(s) == s
  {
    assert LStrip(s) == s;
  }

  /** `int()` of a grouped digit run is the value of its digits, underscores
      ignored. */
  lemma ParseGrouped(s: string)
    requires GroupedDigits(s)
    ensures ParseInt(s) == Some(GroupedValue(s) as int)
  {
    GroupedChars(s);
    StripUnpadded(s);
    assert s[0] != '-' && s[0] != '+';
  }

  lemma ParseUnsigned(s: string)
    requires |s| > 0 && AllDigits(s)
    ensures ParseInt(s) == Some(DigitsValue(s) as int)
  {
    DigitsAreGrouped(s);
    ParseGrouped(s);
  }

  // ---------------------------------------------------------------------------
  // Python's string order and `sorted(..., reverse=True)`

  /** `a <= b` on Python strings: code-point lexicographic order. */
  predicate LexLe(a: string, b: string) {
    if |a| == 0 then true
    else if |b| == 0 then false
    else if a[0] != b[0] then a[0] < b[0]
    else LexLe(a[1..], b[1..])
  }

  lemma {:induction false} LexLeTotal(a: string, b: string)
    ensures LexLe(a, b) || LexLe(b, a)
  {
    if |a| > 0 && |b| > 0 && a[0] == b[0] {
      LexLeTotal(a[1..], b[1..]);
    }
  }

  lemma {:induction false} LexLeTrans(a: string, b: string, c: string)
    requires LexLe(a, b) && LexLe(b, c)
    ensures LexLe(a, c)
  {
    if |a| > 0 && |b| > 0 && |c| > 0 && a[0] == b[0] && b[0] == c[0] {
      LexLeTrans(a[1..], b[1..], c[1..]);
    }
  }

  /** Non-increasing by `key`, every pair compared. */
  ghost predicate SortedDesc<T>(xs: seq<T>, key: T -> string) {
    forall i, j :: 0 <= i < j < |xs| ==> LexLe(key(xs[j]), key(xs[i]))
  }

  /** Inserts `x` before the first element whose key is not above its own. */
  function InsertDesc<T>(x: T, xs: seq<T>, key: T -> string): seq<T> {
    if |xs| == 0 then [x]
    else if LexLe(key(xs[0]), key(x)) then [x] + xs
    else [xs[0]] + InsertDesc(x, xs[1..], key)
  }

  /** `sorted(xs, key=key, reverse=True)`: an element is inserted ahead of every
      later element with an equal key, which keeps Python's stability. */
  function SortDesc<T>(xs: seq<T>, key: T -> string): seq<T> {
    if |xs| == 0 then [] else InsertDesc(xs[0], SortDesc(xs[1..], key), key)
  }

  lemma {:induction false} InsertDescPerm<T>(x: T, xs: seq<T>, key: T -> string)
    ensures multiset(InsertDesc(x, xs, key)) == multiset(xs) + multiset{x}
  {
    if |xs| > 0 && !LexLe(key(xs[0]), key(x)) {
      InsertDescPerm(x, xs[1..], key);
      assert xs == [xs[0]] + xs[1..];
    }
  }

  lemma {:induction false} InsertDescSorted<T>(x: T, xs: seq<T>, key: T -> string)
    requires SortedDesc(xs, key)
    ensures SortedDesc(InsertDesc(x, xs, key), key)
  {
    var r := InsertDesc(x, xs, key);
    if |xs| == 0 {
    } else if LexLe(key(xs[0]), key(x)) {
      forall i, j | 0 <= i < j < |r| ensures LexLe(key(r[j]), key(r[i])) {
        if i == 0 {
          if j > 1 { LexLeTrans(key(xs[j - 1]), key(xs[0]), key(x)); }
        }
      }
    } else {
      var tail := InsertDesc(x, xs[1..], key);
      InsertDescSorted(x, xs[1..], key);
      InsertDescPerm(x, xs[1..], key);
      LexLeTotal(key(xs[0]), key(x));
      forall j | 0 <= j < |tail| ensures LexLe(key(tail[j]), key(xs[0])) {
        assert tail[j] in multiset(tail);
        if tail[j] != x {
          assert tail[j] in multiset(xs[1..]);
          var k :| 0 <= k < |xs[1..]| && xs[1..][k] == tail[j];
          assert xs[k + 1] == tail[j];
        }
      }
      assert r == [xs[0]] + tail;
    }
  }

  /** The result of `SortDesc` is a permutation of its input in non-increasing key order. */
  lemma {:induction false} SortDescCorrect<T>(xs: seq<T>, key: T -> string)
    ensures multiset(SortDesc(xs, key)) == multiset(xs)
    ensures SortedDesc(SortDesc(xs, key), key)
  {
    if |xs| > 0 {
      SortDescCorrect(xs[1..], key);
      InsertDescPerm(xs[0], SortDesc(xs[1..], key), key);
      InsertDescSorted(xs[0], SortDesc(xs[1..], key), key);
      assert xs == [xs[0]] + xs[1..];
    }
  }
}
