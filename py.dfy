/**
 * The small part of Python's runtime that the analytics backend relies on:
 * its exceptions, truthiness, `str.strip`, `str.split`, `int()` parsing,
 * `str(int)` and slicing with possibly negative bounds.
 */
module Py {

  datatype Option<+T> = None | Some(value: T)

  /** The exceptions the modelled code raises, catches or lets escape. */
  datatype Error =
    | ValueError(msg: string)
    | TypeError(msg: string)
    | KeyError(key: string)
    | IndexError(msg: string)
    | AttributeError(name: string)
    | NameError(name: string)
    | UnboundLocalError(name: string)
    | StopIteration
    | ZeroDivisionError
    | ValidationError(field: string)
    | MMMModelError(msg: string)
    | AuthenticationError(msg: string)
    | HttpException(status: int, detail: string)

  datatype Result<+T> = Ok(value: T) | Err(error: Error)
  {
    predicate IsFailure() { Err? }

    function PropagateFailure<U>(): Result<U>
      requires Err?
    {
      Err(error)
    }

    function Extract(): T
      requires Ok?
    {
      value
    }
  }

  /**
   * `str(e)` for the exceptions above: an exception raised with a message
   * prints as that message, and one about a key, an attribute or a name
   * quotes it.
   */
  function ErrorText(e: Error): (r: string)
    ensures e.ValueError? || e.TypeError? || e.IndexError? || e.MMMModelError? || e.AuthenticationError? ==>
      r == e.msg
    ensures e.KeyError? ==> Contains(r, "'" + e.key + "'")
    ensures e.AttributeError? || e.NameError? || e.UnboundLocalError? ==> Contains(r, "'" + e.name + "'")
  {
    match e
    case ValueError(m) => m
    case TypeError(m) => m
    case KeyError(k) => Quoting("", k, "")
    case IndexError(m) => m
    case AttributeError(n) => Quoting("object has no attribute ", n, "")
    case NameError(n) => Quoting("name ", n, " is not defined")
    case UnboundLocalError(n) =>
      Quoting("cannot access local variable ", n, " where it is not associated with a value")
    case StopIteration => ""
    case ZeroDivisionError => "division by zero"
    case ValidationError(f) => "validation error for " + f
    case MMMModelError(m) => m
    case AuthenticationError(m) => m
    case HttpException(s, d) => IntToString(s) + ": " + d
  }

  /** A text with `n` in single quotes between `before` and `after`. */
  function Quoting(before: string, n: string, after: string): (t: string)
    ensures Contains(t, "'" + n + "'")
  {
    var x := "'" + n + "'";
    assert OccursAt(before + x + after, x, |before|) by {
      assert (before + x + after)[|before|..|before| + |x|] == x;
    }
    before + x + after
  }

  /** A Python argument as far as `not x` and `isinstance(x, str)` can tell. */
  datatype Value = NoneValue | Str(s: string) | NonStr(truthy: bool)
  {
    predicate Truthy() {
      match this
      case NoneValue => false
      case Str(s) => s != ""
      case NonStr(t) => t
    }
  }

  // ---------------------------------------------------------------------
  // Strings

  /** The characters for which `str.isspace()` holds. */
  const Spaces: set<char> := {
    ' ', '\U{9}', '\U{a}', '\U{b}', '\U{c}', '\U{d}', '\U{1c}', '\U{1d}',
    '\U{1e}', '\U{1f}', '\U{85}', '\U{a0}', '\U{1680}', '\U{2000}', '\U{2001}', '\U{2002}',
    '\U{2003}', '\U{2004}', '\U{2005}', '\U{2006}', '\U{2007}', '\U{2008}', '\U{2009}', '\U{200a}',
    '\U{2028}', '\U{2029}', '\U{202f}', '\U{205f}', '\U{3000}'
  }

  predicate IsSpace(c: char)
  {
    c in Spaces
  }

  predicate AllSpace(s: string)
  {
    forall k :: 0 <= k < |s| ==> IsSpace(s[k])
  }

  function LStrip(s: string): (r: string)
    ensures |r| <= |s| && r == s[|s| - |r|..]
    ensures r == [] || !IsSpace(r[0])
    ensures AllSpace(s[..|s| - |r|])
  {
    if s == [] || !IsSpace(s[0]) then s
    else
      var t := s[1..];
      var r := LStrip(t);
      var pre := s[..|s| - |r|];
      assert pre == [s[0]] + t[..|t| - |r|];
      assert AllSpace(pre) by {
        forall k | 0 <= k < |pre| ensures IsSpace(pre[k]) {
          if k > 0 {
            assert pre[k] == t[..|t| - |r|][k - 1];
          }
        }
      }
      r
  }

  function RStrip(s: string): (r: string)
    ensures |r| <= |s| && r == s[..|r|]
    ensures r == [] || !IsSpace(r[|r| - 1])
    ensures AllSpace(s[|r|..])
  {
    if s == [] || !IsSpace(s[|s| - 1]) then s
    else
      var r := RStrip(s[..|s| - 1]);
      assert s[|r|..] == s[..|s| - 1][|r|..] + [s[|s| - 1]];
      r
  }

  /**
   * `s.strip()`: removes leading and trailing whitespace, so it is empty
   * exactly for an all-whitespace string.
   */
  function Strip(s: string): (r: string)
    ensures |r| <= |s|
    ensures r == [] <==> AllSpace(s)
  {
    RStrip(LStrip(s))
  }

  /** The stripped string starts and ends with a non-space and occurs in `s`. */
  lemma StripShape(s: string)
    ensures var r := Strip(s);
      (r == [] || (!IsSpace(r[0]) && !IsSpace(r[|r| - 1])))
      && OccursAt(s, r, |s| - |LStrip(s)|)
  {
    StripEnds(s);
    StripOccurs(s);
  }

  /** The stripped string starts and ends with a non-space. */
  lemma StripEnds(s: string)
    ensures var r := Strip(s);
      r == [] || (!IsSpace(r[0]) && !IsSpace(r[|r| - 1]))
  {
    var l := LStrip(s);
    var r := RStrip(l);
    if r != [] {
      assert r == l[..|r|];
      assert l != [] && r[0] == l[0];
      assert !IsSpace(l[0]);
    }
  }

  /** The stripped string is the slice of `s` after its leading whitespace. */
  lemma StripOccurs(s: string)
    ensures OccursAt(s, Strip(s), |s| - |LStrip(s)|)
  {
    var l := LStrip(s);
    var r := RStrip(l);
    assert Strip(s) == r;
    PrefixOfSuffix(s, l, r);
  }

  /** A prefix of a suffix of `s` occurs in `s` where the suffix starts. */
  lemma PrefixOfSuffix(s: string, l: string, r: string)
    requires |l| <= |s| && l == s[|s| - |l|..]
    requires |r| <= |l| && r == l[..|r|]
    ensures OccursAt(s, r, |s| - |l|)
  {
    var i := |s| - |l|;
    assert s[i..i + |r|] == r;
  }

  /** A string without leading or trailing whitespace is its own strip. */
  lemma StripUnchanged(s: string)
    requires s == [] || (!IsSpace(s[0]) && !IsSpace(s[|s| - 1]))
    ensures Strip(s) == s
  {
  }

  /** Stripping twice is stripping once. */
  lemma StripIdempotent(s: string)
    ensures Strip(Strip(s)) == Strip(s)
  {
    StripShape(s);
    StripUnchanged(Strip(s));
  }

  predicate IsDigit(c: char) { '0' <= c <= '9' }

  predicate AllDigits(s: string) { forall k :: 0 <= k < |s| ==> IsDigit(s[k]) }

  function DigitChar(d: nat): (c: char)
    requires d < 10
    ensures IsDigit(c)
  {
    ['0', '1', '2', '3', '4', '5', '6', '7', '8', '9'][d]
  }

  function DigitValue(c: char): (d: nat)
    requires IsDigit(c)
    ensures d < 10 && DigitChar(d) == c
  {
    (c as int - '0' as int) as nat
  }

  /** `str(n)` for a non-negative integer: decimal digits, no leading zero. */
  function NatToString(n: nat): (s: string)
    ensures s != [] && AllDigits(s)
    ensures |s| > 1 ==> s[0] != '0'
  {
    if n < 10 then [DigitChar(n)] else NatToString(n / 10) + [DigitChar(n % 10)]
  }

  /** `str(i)` for any integer. */
  function IntToString(i: int): string
  {
    if i < 0 then "-" + NatToString(-i) else NatToString(i)
  }

  /** The value of a non-empty run of decimal digits. */
  function DigitsValue(s: string): nat
    requires AllDigits(s)
  {
    if s == [] then 0 else DigitsValue(s[..|s| - 1]) * 10 + DigitValue(s[|s| - 1])
  }

  lemma {:induction false} DigitsOfNat(n: nat)
    ensures DigitsValue(NatToString(n)) == n
  {
    if n >= 10 {
      var s := NatToString(n);
      assert s[..|s| - 1] == NatToString(n / 10);
      DigitsOfNat(n / 10);
    }
  }

  /** The value of an optionally signed run of decimal digits; `None` for anything else. */
  function SignedDigits(t: string): Option<int>
  {
    if t != [] && (t[0] == '-' || t[0] == '+') then
      var body := t[1..];
      if body != [] && AllDigits(body) then
        var v: int := DigitsValue(body);
        Some(if t[0] == '-' then -v else v)
      else None
    else if t != [] && AllDigits(t) then Some(DigitsValue(t))
    else None
  }

  /**
   * `int(s)` on a string: surrounding whitespace is ignored, one optional
   * sign, then at least one decimal digit; anything else is a ValueError.
   */
  function ParseInt(s: string): (r: Result<int>)
    ensures r.Ok? <==> SignedDigits(Strip(s)).Some?
    ensures r.Err? ==> r.error == ValueError("invalid literal for int() with base 10: '" + s + "'")
  {
    match SignedDigits(Strip(s))
    case Some(v) => Ok(v)
    case None => Err(ValueError("invalid literal for int() with base 10: '" + s + "'"))
  }

  /** Digits and the minus sign are not whitespace. */
  lemma NotSpace(c: char)
    requires IsDigit(c) || c == '-'
    ensures !IsSpace(c)
  {
  }

  /** The digits of a non-negative integer read back as that integer; they hold no whitespace. */
  lemma SignedDigitsOfNat(n: nat)
    ensures var s := NatToString(n);
      !IsSpace(s[0]) && !IsSpace(s[|s| - 1]) && SignedDigits(s) == Some(n)
  {
    var s := NatToString(n);
    DigitsOfNat(n);
    assert IsDigit(s[0]) && IsDigit(s[|s| - 1]);
    NotSpace(s[0]);
    NotSpace(s[|s| - 1]);
  }

  /** A minus sign and the digits of a positive integer read back as its negation. */
  lemma SignedDigitsOfNegative(m: nat)
    requires m > 0
    ensures var s := "-" + NatToString(m);
      !IsSpace(s[0]) && !IsSpace(s[|s| - 1]) && SignedDigits(s) == Some(-(m as int))
  {
    var d := NatToString(m);
    var s := "-" + d;
    DigitsOfNat(m);
    assert s[1..] == d;
    assert s[|s| - 1] == d[|d| - 1] && IsDigit(d[|d| - 1]);
    NotSpace(s[0]);
    NotSpace(s[|s| - 1]);
  }

  /** Without surrounding whitespace, `int(s)` reads `s` itself. */
  lemma ParseIntUnstripped(s: string)
    requires s != [] && !IsSpace(s[0]) && !IsSpace(s[|s| - 1])
    ensures SignedDigits(s).Some? ==> ParseInt(s) == Ok(SignedDigits(s).value)
  {
    StripUnchanged(s);
  }

  /** `str(i)` reads back as `i` and has no surrounding whitespace. */
  lemma IntToStringDigits(i: int)
    ensures var s := IntToString(i);
      s != [] && !IsSpace(s[0]) && !IsSpace(s[|s| - 1]) && SignedDigits(s) == Some(i)
  {
    if i < 0 {
      SignedDigitsOfNegative(-i);
      assert IntToString(i) == "-" + NatToString(-i);
    } else {
      SignedDigitsOfNat(i);
      assert IntToString(i) == NatToString(i);
    }
  }

  /** `int(str(i)) == i` for every integer. */
  lemma ParseIntOfIntToString(i: int)
    ensures ParseInt(IntToString(i)) == Ok(i)
  {
    IntToStringDigits(i);
    ParseIntUnstripped(IntToString(i));
  }

  /** `s.split(sep)` with a one-character separator; never an empty list. */
  function Split(s: string, sep: char): (parts: seq<string>)
    ensures |parts| >= 1
  {
    if s == [] then [""]
    else
      var rest := Split(s[1..], sep);
      if s[0] == sep then [""] + rest else [[s[0]] + rest[0]] + rest[1..]
  }

  lemma {:induction false} SplitNoSep(s: string, sep: char)
    requires sep !in s
    ensures Split(s, sep) == [s]
  {
    if s != [] {
      SplitNoSep(s[1..], sep);
      assert [s[0]] + s[1..] == s;
    }
  }

  /** Splitting a field, a separator and the rest peels the field off. */
  lemma {:induction false} SplitCons(a: string, sep: char, b: string)
    requires sep !in a
    ensures Split(a + [sep] + b, sep) == [a] + Split(b, sep)
  {
    if a != [] {
      assert (a + [sep] + b)[1..] == a[1..] + [sep] + b;
      SplitCons(a[1..], sep, b);
      assert [a[0]] + a[1..] == a;
    } else {
      assert (a + [sep] + b)[1..] == b;
    }
  }

  predicate StartsWith(s: string, prefix: string)
  {
    |prefix| <= |s| && s[..|prefix|] == prefix
  }

  predicate OccursAt(s: string, sub: string, i: int)
  {
    0 <= i <= |s| - |sub| && s[i..i + |sub|] == sub
  }

  /** `sub in s` for strings. */
  predicate Contains(s: string, sub: string)
  {
    exists i :: 0 <= i <= |s| && OccursAt(s, sub, i)
  }

  /**
   * The quote `repr` puts around a string: a double quote when the string
   * holds a single quote and no double quote, a single quote otherwise.
   */
  function ReprQuote(s: string): (q: char)
    ensures q == '"' <==> ('\'' in s && '"' !in s)
    ensures q == '\'' || q == '"'
  {
    if '\'' in s && '"' !in s then '"' else '\''
  }

  /**
   * One character as `repr` writes it between the quote `q`: a backslash,
   * the quote itself, a newline, a carriage return and a tab are escaped;
   * every other character stands for itself.
   */
  function EscapeChar(c: char, q: char): string
  {
    if c == '\\' then "\\\\"
    else if c == q then ['\\', q]
    else if c == '\n' then "\\n"
    else if c == '\r' then "\\r"
    else if c == '\t' then "\\t"
    else [c]
  }

  function Escaped(s: string, q: char): string
  {
    if s == [] then [] else EscapeChar(s[0], q) + Escaped(s[1..], q)
  }

  /** `repr(s)` of a string. */
  function StrRepr(s: string): (r: string)
    ensures |r| >= 2 && r[0] == ReprQuote(s) && r[|r| - 1] == ReprQuote(s)
  {
    [ReprQuote(s)] + Escaped(s, ReprQuote(s)) + [ReprQuote(s)]
  }

  /** Reading the escapes back: a backslash and the next character stand for one character. */
  function Unescaped(t: string): string
  {
    if t == [] then []
    else if t[0] == '\\' && |t| >= 2 then
      [if t[1] == 'n' then '\n' else if t[1] == 'r' then '\r' else if t[1] == 't' then '\t' else t[1]]
      + Unescaped(t[2..])
    else [t[0]] + Unescaped(t[1..])
  }

  /** Reading back one escaped character and the rest. */
  lemma UnescapeChar(c: char, q: char, rest: string)
    requires q == '\'' || q == '"'
    ensures Unescaped(EscapeChar(c, q) + rest) == [c] + Unescaped(rest)
  {
    var e := EscapeChar(c, q);
    if |e| == 2 {
      assert (e + rest)[2..] == rest;
    } else {
      assert (e + rest)[1..] == rest;
    }
  }

  /** The escapes lose nothing: reading them back gives the string. */
  lemma {:induction false} UnescapeEscaped(s: string, q: char)
    requires q == '\'' || q == '"'
    ensures Unescaped(Escaped(s, q)) == s
  {
    if s != [] {
      UnescapeEscaped(s[1..], q);
      UnescapeChar(s[0], q, Escaped(s[1..], q));
      assert [s[0]] + s[1..] == s;
    }
  }

  /** A string is plain when `repr` escapes none of its characters. */
  predicate Plain(s: string)
  {
    forall k :: 0 <= k < |s| ==> s[k] !in {'\'', '"', '\\', '\n', '\r', '\t'}
  }

  /** `repr` of a plain string is the string between single quotes. */
  lemma {:induction false} PlainRepr(s: string)
    requires Plain(s)
    ensures StrRepr(s) == "'" + s + "'"
  {
    PlainEscaped(s);
  }

  lemma {:induction false} PlainEscaped(s: string)
    requires Plain(s)
    ensures Escaped(s, '\'') == s
  {
    if s != [] {
      PlainEscaped(s[1..]);
      assert [s[0]] + s[1..] == s;
    }
  }

  /** `str(names)` for a list of strings: their `repr`s, comma-separated, in brackets. */
  function ListRepr(names: seq<string>): (r: string)
    ensures |r| >= 2 && r[0] == '[' && r[|r| - 1] == ']'
    ensures names == [] <==> r == "[]"
  {
    "[" + ReprItems(names) + "]"
  }

  function ReprItems(names: seq<string>): string
  {
    if names == [] then ""
    else if |names| == 1 then StrRepr(names[0])
    else StrRepr(names[0]) + ", " + ReprItems(names[1..])
  }

  /**
   * ASCII lowering: each upper-case ASCII letter becomes its lower-case
   * letter, every other character is kept. It stands in for `s.lower()`
   * on the ASCII part of a string only.
   */
  function Lower(s: string): (r: string)
    ensures |r| == |s|
    ensures forall k :: 0 <= k < |r| ==> !('A' <= r[k] <= 'Z')
    ensures forall k :: 0 <= k < |s| && !('A' <= s[k] <= 'Z') ==> r[k] == s[k]
  {
    seq(|s|, k requires 0 <= k < |s| =>
      if 'A' <= s[k] <= 'Z' then (s[k] as int + 32) as char else s[k])
  }

  /** A word found in a string is found, lowered, in the lowered string. */
  lemma LowerContains(s: string, w: string)
    ensures Contains(s, w) ==> Contains(Lower(s), Lower(w))
  {
    if Contains(s, w) {
      var i :| 0 <= i <= |s| && OccursAt(s, w, i);
      assert Lower(s)[i..i + |w|] == Lower(w) by {
        forall k | 0 <= k < |w| ensures Lower(s)[i + k] == Lower(w)[k] {
          assert s[i + k] == w[k];
        }
      }
      assert OccursAt(Lower(s), Lower(w), i);
    }
  }

  // ---------------------------------------------------------------------
  // Sequences

  /** A slice bound as Python normalises it against a length `n`. */
  function SliceBound(i: int, n: nat): (b: nat)
    ensures b <= n
  {
    if i < 0 then (if n + i < 0 then 0 else n + i) else if i > n then n else i
  }

  /** `s[start:stop]`. */
  function Slice<T>(s: seq<T>, start: int, stop: int): (r: seq<T>)
    ensures |r| <= |s|
  {
    var a := SliceBound(start, |s|);
    var b := SliceBound(stop, |s|);
    if a <= b then s[a..b] else []
  }

  /** `s[skip:skip + limit]` for non-negative bounds is the window of that size. */
  lemma SliceWindow<T>(s: seq<T>, skip: nat, limit: nat)
    ensures var r := Slice(s, skip, skip + limit);
      |r| == (if skip >= |s| then 0 else if skip + limit > |s| then |s| - skip else limit)
      && forall k :: 0 <= k < |r| ==> r[k] == s[skip + k]
  {
  }

  /** `range(0, stop, step)` for a positive step. */
  function Range(stop: nat, step: nat): (r: seq<nat>)
    requires step > 0
    ensures |r| == (stop + step - 1) / step
    ensures forall k :: 0 <= k < |r| ==> r[k] == k * step && r[k] < stop
  {
    var n := (stop + step - 1) / step;
    assert forall k :: 0 <= k < n ==> k * step < stop by {
      forall k | 0 <= k < n ensures k * step < stop {
        assert k <= n - 1;
        assert k * step <= (n - 1) * step;
        assert n * step <= stop + step - 1;
      }
    }
    seq(n, k requires 0 <= k < n => k * step)
  }

  /** `xs.index(x)`: the first position of `x`. */
  function IndexOf<T(==)>(xs: seq<T>, x: T): (i: nat)
    requires x in xs
    ensures i < |xs| && xs[i] == x
    ensures forall k :: 0 <= k < i ==> xs[k] != x
  {
    if xs[0] == x then 0 else 1 + IndexOf(xs[1..], x)
  }

  predicate Distinct<T(==)>(xs: seq<T>)
  {
    forall i, j :: 0 <= i < j < |xs| ==> xs[i] != xs[j]
  }

  /** In a sequence without repeats, an element does not occur before its position. */
  lemma DistinctLastFresh<T>(xs: seq<T>, n: nat)
    requires Distinct(xs) && 0 < n <= |xs|
    ensures xs[n - 1] !in xs[..n - 1]
  {
  }
}
