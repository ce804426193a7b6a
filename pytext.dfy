/** Python string and value semantics that the bot's modules rely on:
    `str.strip`, `str.split(',')`, `sep.join`, prefix slicing `s[:n]`,
    the truthiness of strings and `int(str)` for base-10 text. */
module PyText {

  datatype Option<+T> = None | Some(value: T)

  datatype Result<+T, +E> = Ok(value: T) | Err(error: E)

  /** A value read from a backend record: a JSON string or JSON null (Python `None`). */
  datatype PyVal = PNone | PStr(s: string)

  /** A Python dict whose values are strings or `None`. */
  type Record = map<string, PyVal>

  /** `d.get(k, default)`: the default is used only when the key is absent, never for a stored `None`. */
  function Get(d: Record, k: string, default: PyVal): (v: PyVal)
    ensures k in d ==> v == d[k]
    ensures k !in d ==> v == default
  {
    if k in d then d[k] else default
  }

  /** Truthiness of a string-or-None value: `None` and `''` are false. */
  predicate Truthy(v: PyVal) {
    v.PStr? && v.s != ""
  }

  /** What an f-string interpolation `{v}` produces. */
  function Show(v: PyVal): string {
    match v
    case PNone => "None"
    case PStr(s) => s
  }

  /** The characters for which Python's `str.isspace()` holds. */
  predicate IsSpace(c: char) {
    ('\U{9}' <= c <= '\U{D}') || ('\U{1C}' <= c <= '\U{20}') || c == '\U{85}' || c == '\U{A0}'
    || c == '\U{1680}' || ('\U{2000}' <= c <= '\U{200A}') || c == '\U{2028}' || c == '\U{2029}'
    || c == '\U{202F}' || c == '\U{205F}' || c == '\U{3000}'
  }

  /** Every character is whitespace. */
  predicate AllSpace(s: string) {
    s == [] || (IsSpace(s[0]) && AllSpace(s[1..]))
  }

  lemma {:induction false} AllSpaceAppend(a: string, b: string)
    requires AllSpace(a) && AllSpace(b)
    ensures AllSpace(a + b)
  {
    if a == [] {
      assert a + b == b;
    } else {
      assert (a + b)[1..] == a[1..] + b;
      AllSpaceAppend(a[1..], b);
    }
  }

  /** A single non-whitespace character makes the string not all whitespace. */
  lemma {:induction false} NotAllSpace(s: string, k: int)
    requires 0 <= k < |s| && !IsSpace(s[k])
    ensures !AllSpace(s)
  {
    if k > 0 {
      NotAllSpace(s[1..], k - 1);
    }
  }

  /** An all-whitespace string contains no non-whitespace character. */
  lemma {:induction false} AllSpaceExcludes(s: string, c: char)
    requires AllSpace(s) && !IsSpace(c)
    ensures c !in s
  {
    if s != [] {
      AllSpaceExcludes(s[1..], c);
      assert s == [s[0]] + s[1..];
    }
  }

  /** A string with no leading and no trailing whitespace. */
  predicate IsStripped(s: string) {
    s == [] || (!IsSpace(s[0]) && !IsSpace(s[|s| - 1]))
  }

  /** `s.strip()`: drop the leading, then the trailing whitespace. */
  function Strip(s: string): (r: string)
    ensures |r| <= |s| && IsStripped(r)
    decreases |s|
  {
    if s != [] && IsSpace(s[0]) then Strip(s[1..])
    else if s != [] && IsSpace(s[|s| - 1]) then Strip(s[..|s| - 1])
    else s
  }

  /** Cutting `s` down to `s[i..j]` removes only whitespace. */
  predicate CutsSpace(s: string, i: int, j: int) {
    0 <= i <= j <= |s| && AllSpace(s[..i]) && AllSpace(s[j..])
  }

  /** Where `strip` cuts its input: `Strip(s)` is `s[i..j]`, and only whitespace is cut. */
  lemma {:induction false} StripCut(s: string) returns (i: int, j: int)
    ensures CutsSpace(s, i, j) && Strip(s) == s[i..j]
    decreases |s|, 1
  {
    if s != [] && IsSpace(s[0]) {
      i, j := StripCutFront(s);
    } else if s != [] && IsSpace(s[|s| - 1]) {
      i, j := StripCutBack(s);
    } else {
      i, j := 0, |s|;
      assert s[..0] == [] && s[|s|..] == [];
    }
  }

  lemma {:induction false} StripCutFront(s: string) returns (i: int, j: int)
    requires s != [] && IsSpace(s[0])
    ensures CutsSpace(s, i, j) && Strip(s) == s[i..j]
    decreases |s|, 0
  {
    var t := s[1..];
    var i', j' := StripCut(t);
    i, j := i' + 1, j' + 1;
    assert s[..i] == [s[0]] + t[..i'];
    AllSpaceAppend([s[0]], t[..i']);
    assert s[j..] == t[j'..];
    assert t[i'..j'] == s[i..j];
  }

  lemma {:induction false} StripCutBack(s: string) returns (i: int, j: int)
    requires s != [] && !IsSpace(s[0]) && IsSpace(s[|s| - 1])
    ensures CutsSpace(s, i, j) && Strip(s) == s[i..j]
    decreases |s|, 0
  {
    var t := s[..|s| - 1];
    i, j := StripCut(t);
    assert s[..i] == t[..i];
    assert s[j..] == t[j..] + [s[|s| - 1]];
    AllSpaceAppend(t[j..], [s[|s| - 1]]);
    assert t[i..j] == s[i..j];
  }

  /** `strip` returns a contiguous piece of its input that has no surrounding
      whitespace, and everything it cut off was whitespace. */
  lemma StripSpec(s: string)
    ensures IsStripped(Strip(s))
    ensures exists i, j :: CutsSpace(s, i, j) && Strip(s) == s[i..j]
  {
    var i, j := StripCut(s);
  }

  /** `strip` introduces no character that was not in its input. */
  lemma StripKeepsOut(s: string, c: char)
    requires c !in s
    ensures c !in Strip(s)
  {
    var i, j := StripCut(s);
  }

  /** Stripping a string that has no surrounding whitespace changes nothing. */
  lemma StripOfStripped(s: string)
    requires IsStripped(s)
    ensures Strip(s) == s
  {
  }

  /** `strip` is idempotent. */
  lemma StripIdempotent(s: string)
    ensures Strip(Strip(s)) == Strip(s)
  {
    StripOfStripped(Strip(s));
  }

  /** `strip` yields the empty string exactly for all-whitespace input. */
  lemma StripEmptyIff(s: string)
    ensures Strip(s) == [] <==> AllSpace(s)
  {
    var i, j := StripCut(s);
    if Strip(s) == [] {
      assert s == s[..i] + s[j..];
      AllSpaceAppend(s[..i], s[j..]);
    } else {
      assert s[i] == Strip(s)[0];
      NotAllSpace(s, i);
    }
  }

  /** `s[:n]` for a non-negative `n`, or a negative one counted from the end. */
  function SliceTo<T>(s: seq<T>, n: int): (r: seq<T>)
    ensures 0 <= n ==> |r| == if n < |s| then n else |s|
    ensures n < 0 ==> |r| == if |s| + n < 0 then 0 else |s| + n
    ensures r <= s
  {
    if 0 <= n then (if n < |s| then s[..n] else s)
    else (if |s| + n < 0 then [] else s[..|s| + n])
  }

  /** The concatenation of `f(x)` over `xs`, in order: a loop that extends a list. */
  function ConcatMap<T, U>(xs: seq<T>, f: T -> seq<U>): seq<U> {
    if xs == [] then [] else ConcatMap(xs[..|xs| - 1], f) + f(xs[|xs| - 1])
  }

  lemma {:induction false} ConcatMapAppend<T, U>(a: seq<T>, b: seq<T>, f: T -> seq<U>)
    ensures ConcatMap(a + b, f) == ConcatMap(a, f) + ConcatMap(b, f)
    decreases |b|
  {
    if b == [] {
      assert a + b == a;
    } else {
      var b' := b[..|b| - 1];
      assert (a + b)[..|a + b| - 1] == a + b';
      ConcatMapAppend(a, b', f);
    }
  }

  lemma {:induction false} ConcatMapBound<T, U>(xs: seq<T>, f: T -> seq<U>, n: nat)
    requires forall x :: x in xs ==> |f(x)| <= n
    ensures |ConcatMap(xs, f)| <= n * |xs|
  {
    if xs != [] {
      var init := xs[..|xs| - 1];
      assert forall x :: x in init ==> x in xs;
      ConcatMapBound(init, f, n);
      var m := |init|;
      assert n * (m + 1) == n * m + n;
    }
  }

  /** `s.split(sep)` for a one-character separator: always at least one piece. */
  function Split(s: string, sep: char): (r: seq<string>)
    ensures |r| >= 1
    ensures forall k :: 0 <= k < |r| ==> sep !in r[k]
  {
    if s == [] then [""]
    else
      var rest := Split(s[1..], sep);
      if s[0] == sep then [""] + rest
      else [[s[0]] + rest[0]] + rest[1..]
  }

  /** `sep.join(xs)`. */
  function Join(xs: seq<string>, sep: string): (r: string)
    ensures |xs| == 1 ==> r == xs[0]
  {
    if xs == [] then ""
    else if |xs| == 1 then xs[0]
    else xs[0] + sep + Join(xs[1..], sep)
  }

  lemma {:induction false} JoinCons(x: string, xs: seq<string>, sep: string)
    requires xs != []
    ensures Join([x] + xs, sep) == x + sep + Join(xs, sep)
  {
    assert ([x] + xs)[1..] == xs;
  }

  /** `sep.join(s.split(sep)) == s`: splitting loses nothing. */
  lemma {:induction false} JoinSplit(s: string, sep: char)
    ensures Join(Split(s, sep), [sep]) == s
  {
    if s != [] {
      var rest := Split(s[1..], sep);
      JoinSplit(s[1..], sep);
      if s[0] == sep {
        JoinCons("", rest, [sep]);
      } else if |rest| == 1 {
      } else {
        var r := Split(s, sep);
        assert r == [[s[0]] + rest[0]] + rest[1..];
        JoinCons([s[0]] + rest[0], rest[1..], [sep]);
        JoinCons(rest[0], rest[1..], [sep]);
        assert rest == [rest[0]] + rest[1..];
      }
    }
  }

  lemma {:induction false} SplitNoSep(s: string, sep: char)
    requires sep !in s
    ensures Split(s, sep) == [s]
  {
    if s != [] {
      SplitNoSep(s[1..], sep);
      assert [s[0]] + s[1..] == s;
    }
  }

  lemma {:induction false} SplitAppend(a: string, b: string, sep: char)
    requires sep !in a
    ensures Split(a + [sep] + b, sep) == [a] + Split(b, sep)
  {
    if a == [] {
      assert a + [sep] + b == [sep] + b;
      assert ([sep] + b)[1..] == b;
    } else {
      var s := a + [sep] + b;
      assert s[0] == a[0] && s[1..] == a[1..] + [sep] + b;
      SplitAppend(a[1..], b, sep);
      assert [a[0]] + a[1..] == a;
    }
  }

  /** `sep.join(xs).split(sep) == xs` when no piece contains the separator. */
  lemma {:induction false} SplitJoin(xs: seq<string>, sep: char)
    requires xs != []
    requires forall k :: 0 <= k < |xs| ==> sep !in xs[k]
    ensures Split(Join(xs, [sep]), sep) == xs
  {
    if |xs| == 1 {
      SplitNoSep(xs[0], sep);
    } else {
      SplitJoin(xs[1..], sep);
      assert Join(xs, [sep]) == xs[0] + [sep] + Join(xs[1..], [sep]);
      SplitAppend(xs[0], Join(xs[1..], [sep]), sep);
      assert xs == [xs[0]] + xs[1..];
    }
  }

  predicate IsDigit(c: char) {
    '0' <= c <= '9'
  }

  function DigitValue(c: char): (d: nat)
    requires IsDigit(c)
    ensures d < 10
  {
    c as int - '0' as int
  }

  /** The value of a string of ASCII digits, most significant first. */
  function DigitsValue(s: string): (n: nat)
    requires forall k :: 0 <= k < |s| ==> IsDigit(s[k])
  {
    if s == [] then 0 else DigitsValue(s[..|s| - 1]) * 10 + DigitValue(s[|s| - 1])
  }

  /** The body of a Python integer literal as `int()` reads it: digits, with single
      underscores allowed between two digits. */
  predicate IsDigitBody(s: string) {
    s != [] && IsDigit(s[0]) && IsDigit(s[|s| - 1])
    && (forall k :: 0 <= k < |s| ==> IsDigit(s[k]) || s[k] == '_')
    && (forall k :: 0 <= k < |s| - 1 ==> IsDigit(s[k]) || IsDigit(s[k + 1]))
  }

  function DropUnderscores(s: string): (r: string)
    requires forall k :: 0 <= k < |s| ==> IsDigit(s[k]) || s[k] == '_'
    ensures forall k :: 0 <= k < |r| ==> IsDigit(r[k])
    ensures |r| <= |s|
  {
    if s == [] then []
    else if s[0] == '_' then DropUnderscores(s[1..])
    else [s[0]] + DropUnderscores(s[1..])
  }

  datatype IntError = InvalidLiteral(text: string)

  function Negate(n: nat): int { 0 - n as int }

  /** `int(s)` for a `str` argument in base 10: surrounding whitespace and one sign
      are accepted; anything else makes `int()` raise `ValueError`. */
  function ParseInt(s: string): (r: Result<int, IntError>)
  {
    var t := Strip(s);
    if t != [] && (t[0] == '+' || t[0] == '-') then
      match BodyValue(t[1..])
      case Some(v) => Ok(if t[0] == '-' then Negate(v) else v)
      case None => Err(InvalidLiteral(s))
    else
      match BodyValue(t)
      case Some(v) => Ok(v)
      case None => Err(InvalidLiteral(s))
  }

  /** A character that is not whitespace, not a digit, not a sign and not an underscore
      makes `int()` raise, wherever it stands. */
  lemma ParseIntRejects(s: string, k: int)
    requires 0 <= k < |s| && !IsSpace(s[k]) && !IsDigit(s[k]) && s[k] != '_' && s[k] != '+' && s[k] != '-'
    ensures ParseInt(s) == Err(InvalidLiteral(s))
  {
    var i, j := StripCut(s);
    if k < i {
      assert s[..i][k] == s[k];
      NotAllSpace(s[..i], k);
    }
    if k >= j {
      assert s[j..][k - j] == s[k];
      NotAllSpace(s[j..], k - j);
    }
    var t := Strip(s);
    var m := k - i;
    assert t[m] == s[k];
    if t[0] == '+' || t[0] == '-' {
      assert t[1..][m - 1] == s[k];
      assert !IsDigitBody(t[1..]);
    } else {
      assert !IsDigitBody(t);
    }
  }

  /** The value of an unsigned digit body, if it is one. */
  function BodyValue(t: string): (v: Option<nat>)
    ensures v.Some? <==> IsDigitBody(t)
  {
    if IsDigitBody(t) then Some(DigitsValue(DropUnderscores(t))) else None
  }

  /** `str(n)` for a natural number. */
  function NatToDigits(n: nat): (s: string)
    ensures s != [] && forall k :: 0 <= k < |s| ==> IsDigit(s[k])
    decreases n
  {
    if n < 10 then [('0' as int + n) as char]
    else NatToDigits(n / 10) + [('0' as int + n % 10) as char]
  }

  /** `str(n)` for any integer. */
  function IntToText(n: int): string {
    if n < 0 then "-" + NatToDigits(-n) else NatToDigits(n)
  }

  lemma {:induction false} DigitsValueOfNat(n: nat)
    ensures DigitsValue(NatToDigits(n)) == n
    decreases n
  {
    var s := NatToDigits(n);
    if n >= 10 {
      DigitsValueOfNat(n / 10);
      assert s[..|s| - 1] == NatToDigits(n / 10);
    }
  }

  lemma {:induction false} DropUnderscoresOfDigits(s: string)
    requires forall k :: 0 <= k < |s| ==> IsDigit(s[k])
    ensures DropUnderscores(s) == s
  {
    if s != [] {
      DropUnderscoresOfDigits(s[1..]);
    }
  }

  lemma {:induction false} BodyValueOfDigits(d: string)
    requires d != [] && forall k :: 0 <= k < |d| ==> IsDigit(d[k])
    ensures BodyValue(d) == Some(DigitsValue(d))
  {
    DropUnderscoresOfDigits(d);
  }

  lemma ParseIntOfDigits(d: string)
    requires d != [] && forall k :: 0 <= k < |d| ==> IsDigit(d[k])
    ensures ParseInt(d) == Ok(DigitsValue(d))
  {
    assert IsStripped(d);
    StripOfStripped(d);
    BodyValueOfDigits(d);
  }

  lemma ParseIntOfNegatedDigits(d: string)
    requires d != [] && forall k :: 0 <= k < |d| ==> IsDigit(d[k])
    ensures ParseInt("-" + d) == Ok(Negate(DigitsValue(d)))
  {
    var t := "-" + d;
    assert t[0] == '-' && t[|t| - 1] == d[|d| - 1] && t[1..] == d;
    assert IsStripped(t);
    StripOfStripped(t);
    BodyValueOfDigits(d);
  }

  /** `int(str(n)) == n` for every integer `n`. */
  lemma ParseIntOfText(n: int)
    ensures ParseInt(IntToText(n)) == Ok(n)
  {
    var m: nat := if n < 0 then -n else n;
    DigitsValueOfNat(m);
    if n < 0 {
      ParseIntOfNegatedDigits(NatToDigits(m));
    } else {
      ParseIntOfDigits(NatToDigits(m));
    }
  }
}
