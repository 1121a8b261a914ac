/** Values and helpers shared by every handler: Python-like dynamic values as they arrive in
    parameter dictionaries and upstream JSON, their truthiness and f-string rendering, and the
    slicing, joining and number-printing the handlers rely on. */
module Common {

  datatype Option<+T> = None | Some(value: T)

  /** A call that either returns a value or raises; `error` is `str(e)` of the exception. */
  datatype Result<+T> = Ok(value: T) | Err(error: string)

  /** The outcome an upstream HTTP request would have if it were issued. */
  datatype Fetch<+T> = Fetched(body: T) | FetchFailed(reason: string)

  /** A scalar JSON value as Python sees it. A float carries the text `str()` gives for it. */
  datatype Value = Str(s: string) | Int(i: int) | Float(x: real, repr: string) | Bool(b: bool) | Null

  /** A Python dictionary with string keys, such as an action's `parameters`. */
  type Dict = map<string, Value>

  /** Python truthiness: empty string, zero, False and None are false. */
  predicate Truthy(v: Value)
  {
    match v
    case Str(s) => s != ""
    case Int(i) => i != 0
    case Float(x, _) => x != 0.0
    case Bool(b) => b
    case Null => false
  }

  /** `d.get(key, default)` */
  function Get(d: Dict, key: string, default: Value): Value
  {
    if key in d then d[key] else default
  }

  /** The number a value stands for in a numeric comparison (`True == 1` in Python). */
  function Numeric(v: Value): Option<real>
  {
    match v
    case Int(i) => Some(i as real)
    case Float(x, _) => Some(x)
    case Bool(b) => Some(if b then 1.0 else 0.0)
    case _ => None
  }

  /** Python `==` on two values. */
  predicate PyEq(a: Value, b: Value)
  {
    if Numeric(a).Some? && Numeric(b).Some? then Numeric(a).value == Numeric(b).value else a == b
  }

  function DigitChar(d: nat): (c: char)
    requires d < 10
    ensures '0' <= c <= '9'
  {
    (48 + d) as char
  }

  function DigitValue(c: char): nat
  {
    if '0' <= c <= '9' then (c as int - 48) as nat else 0
  }

  /** Decimal digits of `n`, most significant first, without leading zeros. */
  function NatToString(n: nat): (r: string)
    ensures |r| >= 1
    ensures forall i :: 0 <= i < |r| ==> '0' <= r[i] <= '9'
    ensures r[0] == '0' ==> n == 0
    decreases n
  {
    if n < 10 then [DigitChar(n)] else NatToString(n / 10) + [DigitChar(n % 10)]
  }

  /** Reads back a string of decimal digits. */
  function ParseDigits(s: string): nat
  {
    if s == [] then 0 else ParseDigits(s[..|s| - 1]) * 10 + DigitValue(s[|s| - 1])
  }

  /** The digits printed for a number read back as that number. */
  lemma {:induction false} NatToStringRoundTrip(n: nat)
    ensures ParseDigits(NatToString(n)) == n
    decreases n
  {
    var s := NatToString(n);
    if n >= 10 {
      NatToStringRoundTrip(n / 10);
      assert s[..|s| - 1] == NatToString(n / 10);
    }
  }

  /** `str(i)` for a Python int. */
  function IntToString(i: int): (r: string)
    ensures |r| >= 1
    ensures i < 0 <==> r[0] == '-'
  {
    if i < 0 then "-" + NatToString(-i) else NatToString(i)
  }

  /** The text an f-string prints for a value. */
  function Show(v: Value): string
  {
    match v
    case Str(s) => s
    case Int(i) => IntToString(i)
    case Float(_, repr) => repr
    case Bool(b) => if b then "True" else "False"
    case Null => "None"
  }

  /** Python `s[:limit]`, including a negative `limit`, which counts from the end. */
  function Take<T>(s: seq<T>, limit: int): (r: seq<T>)
    ensures |r| <= |s| && r == s[..|r|]
    ensures limit >= 0 ==> |r| == if limit < |s| then limit else |s|
    ensures limit < 0 ==> |r| == if |s| + limit > 0 then |s| + limit else 0
  {
    if limit >= 0 then
      (if limit < |s| then s[..limit] else s)
    else
      (if |s| + limit > 0 then s[..|s| + limit] else [])
  }

  /** `sep.join(parts)` */
  function Join(parts: seq<string>, sep: string): string
  {
    if |parts| == 0 then ""
    else if |parts| == 1 then parts[0]
    else parts[0] + sep + Join(parts[1..], sep)
  }

  /** Where the `i`-th part starts in `Join(parts, sep)`. */
  function JoinOffset(parts: seq<string>, sep: string, i: nat): nat
    requires i < |parts|
  {
    if i == 0 then 0 else |parts[0]| + |sep| + JoinOffset(parts[1..], sep, i - 1)
  }

  /** Every part appears, intact, in the joined text. */
  lemma {:induction false} JoinContains(parts: seq<string>, sep: string, i: nat)
    requires i < |parts|
    ensures JoinOffset(parts, sep, i) + |parts[i]| <= |Join(parts, sep)|
    ensures Join(parts, sep)[JoinOffset(parts, sep, i)..JoinOffset(parts, sep, i) + |parts[i]|] == parts[i]
  {
    var j := Join(parts, sep);
    if i == 0 {
      if |parts| > 1 {
        assert j == parts[0] + (sep + Join(parts[1..], sep));
        SliceAfterPrefix([], j, 0, |parts[0]|);
      }
    } else {
      JoinContains(parts[1..], sep, i - 1);
      var rest := Join(parts[1..], sep);
      var k := JoinOffset(parts[1..], sep, i - 1);
      var pre := parts[0] + sep;
      assert parts[1..][i - 1] == parts[i];
      assert JoinOffset(parts, sep, i) == |pre| + k;
      assert j == pre + rest;
      SliceAfterPrefix(pre, rest, k, |parts[i]|);
    }
  }

  /** A slice behind a prefix is a slice of what follows the prefix. */
  lemma SliceAfterPrefix<T>(a: seq<T>, b: seq<T>, k: nat, n: nat)
    requires k + n <= |b|
    ensures (a + b)[|a| + k..|a| + k + n] == b[k..k + n]
  {
  }

  lemma ConcatAssoc<T>(a: seq<T>, b: seq<T>, c: seq<T>)
    ensures (a + b) + c == a + (b + c)
  {
  }

  /** The mark every failure message shown to the user starts with. */
  const FailureMark := "❌"

  predicate StartsWith(s: string, prefix: string)
  {
    |prefix| <= |s| && s[..|prefix|] == prefix
  }

  /** `''.join(lines)`: text assembled line by line with `+=`. */
  function Concat(lines: seq<string>): string
  {
    if lines == [] then "" else Concat(lines[..|lines| - 1]) + lines[|lines| - 1]
  }

  lemma {:induction false} ConcatAppend(a: seq<string>, b: seq<string>)
    ensures Concat(a + b) == Concat(a) + Concat(b)
    decreases |b|
  {
    if b == [] {
      assert a + b == a;
    } else {
      var b' := b[..|b| - 1];
      assert (a + b)[..|a + b| - 1] == a + b';
      ConcatAppend(a, b');
    }
  }

  /** Assembled text begins with its first line. */
  lemma ConcatStartsWith(lines: seq<string>)
    requires lines != []
    ensures StartsWith(Concat(lines), lines[0])
  {
    ConcatAppend([lines[0]], lines[1..]);
    assert [lines[0]] + lines[1..] == lines;
    assert Concat([lines[0]]) == lines[0] by {
      assert [lines[0]][..0] == [];
    }
  }

  lemma StartsWithPrefix(a: string, b: string)
    ensures StartsWith(a + b, a)
  {
    assert (a + b)[..|a|] == a;
  }

  /** A text behind a heading whose first character is not the failure mark is not a failure. */
  lemma HeadedIsNotFailure(header: string, text: string)
    requires header != [] && header[0] != FailureMark[0]
    ensures !StartsWith(header + text, FailureMark)
  {
    assert (header + text)[0] == header[0];
  }

  // ---------------------------------------------------------------------------------------
  // `for i, x in enumerate(xs, 1): result += render(i, x)`, stopping at the first exception

  /** The rendered entries of `xs`, numbered from 1; None as soon as one of them raises. */
  function Numbered<T>(render: (int, T) -> Option<string>, xs: seq<T>): Option<string>
  {
    if xs == [] then Some("")
    else
      match Numbered(render, xs[..|xs| - 1])
      case None => None
      case Some(body) =>
        match render(|xs|, xs[|xs| - 1])
        case None => None
        case Some(entry) => Some(body + entry)
  }

  /** One more rendered entry extends the rendered prefix. */
  lemma NumberedStep<T>(render: (int, T) -> Option<string>, xs: seq<T>, i: nat, body: string, entry: string)
    requires i < |xs|
    requires Numbered(render, xs[..i]) == Some(body) && render(i + 1, xs[i]) == Some(entry)
    ensures Numbered(render, xs[..i + 1]) == Some(body + entry)
  {
    var s := xs[..i + 1];
    assert |s| == i + 1 && s[..|s| - 1] == xs[..i] && s[|s| - 1] == xs[i];
  }

  /** An entry that raises fails the prefix it ends. */
  lemma NumberedStepFails<T>(render: (int, T) -> Option<string>, xs: seq<T>, i: nat)
    requires i < |xs| && render(i + 1, xs[i]).None?
    ensures Numbered(render, xs[..i + 1]).None?
  {
    var s := xs[..i + 1];
    assert |s| == i + 1 && s[..|s| - 1] == xs[..i] && s[|s| - 1] == xs[i];
  }

  /** A failure in a prefix fails the whole list. */
  lemma {:induction false} NumberedPrefixFails<T>(render: (int, T) -> Option<string>, xs: seq<T>, j: nat)
    requires j <= |xs| && Numbered(render, xs[..j]).None?
    ensures Numbered(render, xs).None?
    decreases |xs| - j
  {
    if j < |xs| {
      var s := xs[..j + 1];
      assert s[..|s| - 1] == xs[..j];
      NumberedPrefixFails(render, xs, j + 1);
    } else {
      assert xs[..j] == xs;
    }
  }

  /** The list fails exactly when some entry raises. */
  lemma {:induction false} NumberedFails<T>(render: (int, T) -> Option<string>, xs: seq<T>)
    ensures Numbered(render, xs).None? <==> exists i :: 0 <= i < |xs| && render(i + 1, xs[i]).None?
  {
    if xs != [] {
      var pre := xs[..|xs| - 1];
      NumberedFails(render, pre);
      if Numbered(render, pre).None? {
        var i :| 0 <= i < |pre| && render(i + 1, pre[i]).None?;
        assert xs[i] == pre[i];
      }
      if exists i :: 0 <= i < |xs| && render(i + 1, xs[i]).None? {
        var i :| 0 <= i < |xs| && render(i + 1, xs[i]).None?;
        if i < |pre| {
          assert pre[i] == xs[i];
        }
      }
    }
  }
}
