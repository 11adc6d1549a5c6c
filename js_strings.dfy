/** The JavaScript string built-ins the core relies on: `trim`, the regular-expression
    class `\s`, `includes`, `split`, `join`, `length` (UTF-16 code units) and the
    decimal rendering of a number inside a template literal. */
module JsStrings {

  /** WhiteSpace and LineTerminator code points of ECMAScript: what `String.prototype.trim`
      strips and what `\s` matches. */
  predicate IsWhitespace(c: char) {
    || c == '\t' || c == '\n' || c == '\U{B}' || c == '\U{C}' || c == '\r' || c == ' '
    || c == '\U{A0}' || c == '\U{1680}' || ('\U{2000}' <= c <= '\U{200A}')
    || c == '\U{2028}' || c == '\U{2029}' || c == '\U{202F}' || c == '\U{205F}'
    || c == '\U{3000}' || c == '\U{FEFF}'
  }

  /** True when every character is white space, i.e. `s.trim()` is falsy. */
  predicate IsBlank(s: string) {
    forall i :: 0 <= i < |s| ==> IsWhitespace(s[i])
  }

  /** The first index at or after `i` that is not white space (`|s|` if none). */
  function SkipLeading(s: string, i: nat): (k: nat)
    requires i <= |s|
    ensures i <= k <= |s|
    ensures forall j :: i <= j < k ==> IsWhitespace(s[j])
    ensures k < |s| ==> !IsWhitespace(s[k])
    decreases |s| - i
  {
    if i < |s| && IsWhitespace(s[i]) then SkipLeading(s, i + 1) else i
  }

  /** The end of `s[lo..hi]` once trailing white space is cut off. */
  function SkipTrailing(s: string, lo: nat, hi: nat): (k: nat)
    requires lo <= hi <= |s|
    ensures lo <= k <= hi
    ensures forall j :: k <= j < hi ==> IsWhitespace(s[j])
    ensures k > lo ==> !IsWhitespace(s[k - 1])
    decreases hi - lo
  {
    if hi > lo && IsWhitespace(s[hi - 1]) then SkipTrailing(s, lo, hi - 1) else hi
  }

  /** Where `trim` starts and ends its result in `s`. */
  function TrimLo(s: string): (lo: nat)
    ensures lo <= |s|
  {
    SkipLeading(s, 0)
  }

  function TrimHi(s: string): (hi: nat)
    ensures TrimLo(s) <= hi <= |s|
  {
    SkipTrailing(s, TrimLo(s), |s|)
  }

  /** `String.prototype.trim`: the piece of `s` between its leading and its trailing
      white space; everything cut off is white space and neither end of the result is. */
  function Trim(s: string): (r: string)
    ensures r == s[TrimLo(s)..TrimHi(s)]
    ensures forall j :: 0 <= j < TrimLo(s) ==> IsWhitespace(s[j])
    ensures forall j :: TrimHi(s) <= j < |s| ==> IsWhitespace(s[j])
    ensures IsTrimmed(r)
  {
    s[TrimLo(s)..TrimHi(s)]
  }

  /** Neither end of `s` is white space. */
  predicate IsTrimmed(s: string) {
    s == [] || (!IsWhitespace(s[0]) && !IsWhitespace(s[|s| - 1]))
  }

  /** `trim` leaves exactly the strings without white space at either end unchanged. */
  lemma TrimFixedIffTrimmed(s: string)
    ensures Trim(s) == s <==> IsTrimmed(s)
  {
    if IsTrimmed(s) && s != [] {
      assert TrimLo(s) == 0;
      assert TrimHi(s) == |s|;
    }
  }

  /** `s.trim()` is falsy exactly when `s` is blank. */
  lemma TrimEmptyIffBlank(s: string)
    ensures Trim(s) == [] <==> IsBlank(s)
  {
    if IsBlank(s) {
      assert TrimLo(s) == |s|;
    }
  }

  /** Trimming a trimmed string changes nothing. */
  lemma TrimIdempotent(s: string)
    ensures Trim(Trim(s)) == Trim(s)
  {
    TrimFixedIffTrimmed(Trim(s));
  }

  /** `sub` starts at index `i` of `s`. */
  predicate OccursAt(s: string, sub: string, i: int) {
    0 <= i <= |s| - |sub| && s[i..i + |sub|] == sub
  }

  /** `s.includes(sub)`. */
  predicate Includes(s: string, sub: string) {
    exists i | 0 <= i <= |s| - |sub| :: OccursAt(s, sub, i)
  }

  /** `parts.join(sep)`. */
  function Join(parts: seq<string>, sep: string): string {
    if |parts| == 0 then ""
    else if |parts| == 1 then parts[0]
    else parts[0] + sep + Join(parts[1..], sep)
  }

  /** A join of pieces of which at least one is non-empty is non-empty,
      and a join of no pieces is empty. */
  lemma {:induction false} JoinEmptyIff(parts: seq<string>, sep: string)
    requires forall i :: 0 <= i < |parts| ==> parts[i] != ""
    ensures Join(parts, sep) == "" <==> parts == []
  {
    if |parts| > 1 {
      assert |Join(parts, sep)| >= |parts[0]|;
    }
  }

  /** `s.split(sep)` for a non-empty separator: the pieces between the occurrences
      of `sep`, scanned from the left. */
  function Split(s: string, sep: string): (r: seq<string>)
    requires |sep| > 0
    ensures |r| >= 1
    decreases |s|
  {
    if |s| < |sep| then [s]
    else if s[..|sep|] == sep then [""] + Split(s[|sep|..], sep)
    else
      var rest := Split(s[1..], sep);
      [[s[0]] + rest[0]] + rest[1..]
  }

  /** Joining the pieces of a split with the same separator gives back the string. */
  lemma {:induction false} JoinSplit(s: string, sep: string)
    requires |sep| > 0
    ensures Join(Split(s, sep), sep) == s
    decreases |s|
  {
    if |s| < |sep| {
    } else if s[..|sep|] == sep {
      var rest := Split(s[|sep|..], sep);
      assert Split(s, sep) == [""] + rest;
      JoinSplit(s[|sep|..], sep);
      JoinCons("", rest, sep);
      assert s == sep + s[|sep|..];
    } else {
      var rest := Split(s[1..], sep);
      assert Split(s, sep) == [[s[0]] + rest[0]] + rest[1..];
      JoinSplit(s[1..], sep);
      JoinExtendFirst(s[0], rest, sep);
      assert s == [s[0]] + s[1..];
    }
  }

  /** Joining a piece in front of at least one other adds the piece and a separator. */
  lemma JoinCons(p: string, parts: seq<string>, sep: string)
    requires |parts| >= 1
    ensures Join([p] + parts, sep) == p + sep + Join(parts, sep)
  {
    assert ([p] + parts)[1..] == parts;
  }

  /** Prefixing the first piece with a character prefixes the join with it. */
  lemma JoinExtendFirst(c: char, parts: seq<string>, sep: string)
    requires |parts| >= 1
    ensures Join([[c] + parts[0]] + parts[1..], sep) == [c] + Join(parts, sep)
  {
    var ext := [[c] + parts[0]] + parts[1..];
    assert ext[1..] == parts[1..];
    if |parts| > 1 {
      assert Join(ext, sep) == [c] + parts[0] + sep + Join(parts[1..], sep);
    }
  }

  /** A string without the separator's first character splits into itself. */
  lemma {:induction false} SplitWithoutSeparator(s: string, sep: string)
    requires |sep| > 0
    requires forall i :: 0 <= i < |s| ==> s[i] != sep[0]
    ensures Split(s, sep) == [s]
    decreases |s|
  {
    if |s| >= |sep| {
      assert s[..|sep|] != sep by { assert s[..|sep|][0] == s[0]; }
      SplitWithoutSeparator(s[1..], sep);
      assert [s[0]] + s[1..] == s;
    }
  }

  /** A leading piece without the separator's first character splits off whole. */
  lemma {:induction false} SplitAfterPiece(p: string, sep: string, rest: string)
    requires |sep| > 0
    requires forall i :: 0 <= i < |p| ==> p[i] != sep[0]
    ensures Split(p + sep + rest, sep) == [p] + Split(rest, sep)
    decreases |p|
  {
    var s := p + sep + rest;
    if p == [] {
      assert s == sep + rest;
      assert s[..|sep|] == sep && s[|sep|..] == rest;
    } else {
      assert s[..|sep|] != sep by { assert s[..|sep|][0] == p[0]; }
      assert s[1..] == p[1..] + sep + rest;
      SplitAfterPiece(p[1..], sep, rest);
      assert [p[0]] + p[1..] == p;
    }
  }

  /** Splitting a join gives back the pieces when no piece contains the separator's
      first character. */
  lemma {:induction false} SplitJoin(parts: seq<string>, sep: string)
    requires |sep| > 0 && |parts| >= 1
    requires forall i, j :: 0 <= i < |parts| && 0 <= j < |parts[i]| ==> parts[i][j] != sep[0]
    ensures Split(Join(parts, sep), sep) == parts
    decreases |parts|
  {
    if |parts| == 1 {
      SplitWithoutSeparator(parts[0], sep);
    } else {
      assert forall j :: 0 <= j < |parts[0]| ==> parts[0][j] != sep[0];
      SplitAfterPiece(parts[0], sep, Join(parts[1..], sep));
      SplitJoin(parts[1..], sep);
      assert [parts[0]] + parts[1..] == parts;
    }
  }

  /** `Array.prototype.slice(lo, hi)` for non-negative bounds: clamped to the length. */
  function SliceClamped<T>(xs: seq<T>, lo: nat, hi: nat): (r: seq<T>)
    ensures lo <= hi && hi <= |xs| ==> r == xs[lo..hi]
    ensures |r| == if lo >= hi || lo >= |xs| then 0 else (if hi <= |xs| then hi else |xs|) - lo
    ensures forall i :: 0 <= i < |r| ==> r[i] == xs[lo + i]
  {
    var h := if hi <= |xs| then hi else |xs|;
    if lo >= h then [] else xs[lo..h]
  }

  /** Number of UTF-16 code units of the character: what it adds to a JavaScript `length`. */
  function CodeUnits(c: char): nat {
    if c as int > 0xFFFF then 2 else 1
  }

  /** `s.length` in JavaScript, which counts UTF-16 code units. */
  function Utf16Length(s: string): (n: nat)
    ensures |s| <= n <= 2 * |s|
    ensures (forall i :: 0 <= i < |s| ==> s[i] as int <= 0xFFFF) ==> n == |s|
  {
    if s == [] then 0 else CodeUnits(s[0]) + Utf16Length(s[1..])
  }

  predicate IsDigit(c: char) {
    '0' <= c <= '9'
  }

  function DigitChar(d: nat): (c: char)
    requires d < 10
    ensures IsDigit(c) && (c as int) - ('0' as int) == d
  {
    (('0' as int) + d) as char
  }

  /** The decimal rendering of a non-negative integer, as `${n}` produces it. */
  function Decimal(n: nat): (r: string)
    ensures |r| >= 1
    ensures forall i :: 0 <= i < |r| ==> IsDigit(r[i])
  {
    if n < 10 then [DigitChar(n)] else Decimal(n / 10) + [DigitChar(n % 10)]
  }

  /** A three-digit number renders as its three digits, hundreds first. */
  lemma DecimalThreeDigits(n: nat)
    requires 100 <= n < 1000
    ensures Decimal(n) == [DigitChar(n / 100), DigitChar(n / 10 % 10), DigitChar(n % 10)]
  {
    assert Decimal(n / 10) == [DigitChar(n / 100), DigitChar(n / 10 % 10)];
  }

  /** Two three-digit numbers with the same rendering are equal. */
  lemma DecimalInjectiveThreeDigits(n: nat, m: nat)
    requires 100 <= n < 1000 && 100 <= m < 1000
    ensures Decimal(n) == Decimal(m) <==> n == m
  {
    DecimalThreeDigits(n);
    DecimalThreeDigits(m);
    if Decimal(n) == Decimal(m) {
      assert DigitChar(n / 100) == DigitChar(m / 100);
      assert DigitChar(n / 10 % 10) == DigitChar(m / 10 % 10);
      assert DigitChar(n % 10) == DigitChar(m % 10);
    }
  }

  /** When `prefix` holds no digit and `digits` and `sub` are digit strings of the same
      length, `sub` occurs in `prefix + digits` only as `digits` itself. */
  lemma IncludesAfterDigitFreePrefix(prefix: string, digits: string, sub: string)
    requires forall i :: 0 <= i < |prefix| ==> !IsDigit(prefix[i])
    requires forall i :: 0 <= i < |digits| ==> IsDigit(digits[i])
    requires forall i :: 0 <= i < |sub| ==> IsDigit(sub[i])
    requires |sub| == |digits| > 0
    ensures Includes(prefix + digits, sub) <==> digits == sub
  {
    var s := prefix + digits;
    if Includes(s, sub) {
      var i :| 0 <= i <= |s| - |sub| && OccursAt(s, sub, i);
      assert forall j :: 0 <= j < |prefix| ==> s[j] == prefix[j];
      assert s[i..i + |sub|][0] == s[i] == sub[0];
      assert i == |prefix|;
      assert s[|prefix|..] == digits;
    } else {
      assert s[|prefix|..] == digits;
      assert digits != sub || OccursAt(s, sub, |prefix|);
    }
  }
}
