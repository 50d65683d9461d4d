/** Python values and the few builtins the application relies on: truthiness,
    dictionary lookup and assignment (insertion ordered), `str.strip`/`rstrip`,
    `int(x)` and `str(x)` on integers. */
module Py {

  datatype Option<+T> = None | Some(value: T) {
    function GetOr(default: T): T {
      match this
      case Some(v) => v
      case None => default
    }
  }

  /** The Python exceptions that can escape from the modelled code. */
  datatype Error =
    | TypeError
    | ValueError
    | KeyError
    | IndexError
    | AttributeError
    | ImportError
    | DoesNotExist            // a record lookup found no row
    | NotFoundError           // the document store answered 404
    | AlreadyExistsError      // the document store refused to create an index
    | RuntimeError(message: string)

  datatype Result<+T> = Ok(value: T) | Err(error: Error) {
    predicate IsFailure() { Err? }
    function PropagateFailure<U>(): Result<U> requires Err? { Err(error) }
    function Extract(): T requires Ok? { value }
  }

  type Entries = seq<(string, Value)>

  /** A Python value. `Dict` is a list of entries: lookup answers from the entry with the
      key, and iteration visits the entries in the list's order (one fixed order; the
      interpreters this code runs on leave dict order unspecified). `List` stands for lists
      and tuples alike. */
  datatype Value =
    | Null
    | Bool(b: bool)
    | Int(i: int)
    | Str(s: string)
    | List(items: seq<Value>)
    | Dict(entries: Entries)
  {
    predicate IsScalar() { !List? && !Dict? }
  }

  /** The values a command-line option or a query-string parameter can hold. */
  type Scalar = v: Value | v.IsScalar() witness Null

  /** `bool(v)`. */
  predicate Truthy(v: Value) {
    match v
    case Null => false
    case Bool(b) => b
    case Int(i) => i != 0
    case Str(s) => s != ""
    case List(items) => items != []
    case Dict(entries) => entries != []
  }

  /** Whether the dictionary has key `k`. */
  predicate HasKey(d: Entries, k: string) {
    exists j :: 0 <= j < |d| && d[j].0 == k
  }

  /** No key occurs twice, as in any Python dict. */
  predicate DistinctKeys(e: Entries) {
    forall a, b :: 0 <= a < b < |e| ==> e[a].0 != e[b].0
  }

  /** `d.get(k)`: the value stored under the first entry with key `k`. */
  function Get(d: Entries, k: string): (r: Option<Value>)
    ensures r.Some? <==> HasKey(d, k)
    ensures r.Some? ==> exists j :: 0 <= j < |d| && d[j] == (k, r.value)
  {
    if d == [] then None
    else if d[0].0 == k then Some(d[0].1)
    else
      var r := Get(d[1..], k);
      assert HasKey(d, k) <==> HasKey(d[1..], k) by {
        if HasKey(d, k) {
          var j :| 0 <= j < |d| && d[j].0 == k;
          assert d[1..][j - 1].0 == k;
        }
        if HasKey(d[1..], k) {
          var j :| 0 <= j < |d[1..]| && d[1..][j].0 == k;
          assert d[j + 1].0 == k;
        }
      }
      if r.Some? then
        var j :| 0 <= j < |d[1..]| && d[1..][j] == (k, r.value);
        assert d[j + 1] == (k, r.value);
        r
      else r
  }

  /** `d[k] = v`: overwrite the entry in place when the key is present, append otherwise. */
  function Put(d: Entries, k: string, v: Value): (r: Entries)
    ensures |r| == if HasKey(d, k) then |d| else |d| + 1
    ensures forall j :: 0 <= j < |d| ==> r[j].0 == d[j].0
  {
    if d == [] then [(k, v)]
    else if d[0].0 == k then [(k, v)] + d[1..]
    else
      assert HasKey(d, k) <==> HasKey(d[1..], k) by {
        if HasKey(d, k) {
          var j :| 0 <= j < |d| && d[j].0 == k;
          assert d[1..][j - 1].0 == k;
        }
        if HasKey(d[1..], k) {
          var j :| 0 <= j < |d[1..]| && d[1..][j].0 == k;
          assert d[j + 1].0 == k;
        }
      }
      [d[0]] + Put(d[1..], k, v)
  }

  /** After `d[k] = v`, `d[k]` is `v` and every other key reads as before. */
  lemma {:induction false} GetPut(d: Entries, k: string, v: Value, k': string)
    ensures Get(Put(d, k, v), k') == if k' == k then Some(v) else Get(d, k')
  {
    if d != [] && d[0].0 != k {
      GetPut(d[1..], k, v, k');
    }
  }

  /** The int a list or str index stands for: an int, or a bool as 0 or 1; `None` otherwise. */
  function IntIndex(key: Value): (r: Option<int>)
    ensures r.Some? <==> key.Int? || key.Bool?
    ensures key.Int? ==> r == Some(key.i)
  {
    match key
    case Int(i) => Some(i)
    case Bool(b) => Some(if b then 1 else 0)
    case _ => None
  }

  /** The position index `i` names in a sequence of length `n`, negative indices counting
      from the end; `None` outside the sequence. */
  function Position(i: int, n: nat): (p: Option<nat>)
    ensures p.Some? <==> -(n as int) <= i < n
    ensures p.Some? ==> p.value < n && (p.value == i || p.value == i + n)
  {
    if 0 <= i < n then Some(i)
    else if -(n as int) <= i < 0 then Some(i + n)
    else None
  }

  /** `d[key]` on a dict: the value under a str key it holds; KeyError for any other
      hashable key, TypeError for an unhashable (container) one. */
  function DictSubscript(d: Entries, key: Value): (r: Result<Value>)
    ensures key.Str? ==> (r.Ok? <==> HasKey(d, key.s))
    ensures r.Ok? ==> key.Str? && Get(d, key.s) == Some(r.value)
    ensures r.Err? ==> r.error == if key.IsScalar() then KeyError else TypeError
  {
    if !key.IsScalar() then Err(TypeError)
    else if !key.Str? then Err(KeyError)
    else match Get(d, key.s)
      case Some(v) => Ok(v)
      case None => Err(KeyError)
  }

  /** The position `x[key]` reads in a list or str of length `n`: an int index, negative
      ones counting from the end; IndexError outside the sequence, TypeError for a key that
      is not an int. */
  function SequencePosition(key: Value, n: nat): (r: Result<nat>)
    ensures r.Ok? ==> r.value < n
    ensures r.Ok? <==> IntIndex(key).Some? && Position(IntIndex(key).value, n).Some?
    ensures r.Err? ==> r.error == if IntIndex(key).Some? then IndexError else TypeError
  {
    match IntIndex(key)
    case None => Err(TypeError)
    case Some(i) =>
      match Position(i, n)
      case Some(p) => Ok(p)
      case None => Err(IndexError)
  }

  /** `x[key]`: a dict answers or raises KeyError, and a container key is unhashable
      (TypeError); a list or a str takes an int index, negative ones counting from the end,
      raises IndexError outside its length and TypeError for any other key; any other value
      is not subscriptable (TypeError). */
  function Subscript(x: Value, key: Value): (r: Result<Value>)
    ensures key.Str? ==> (r.Ok? <==> x.Dict? && HasKey(x.entries, key.s))
    ensures r.Ok? && x.Dict? ==> key.Str? && Get(x.entries, key.s) == Some(r.value)
    ensures r.Err? ==> (r.error == KeyError <==> x.Dict? && key.IsScalar())
    ensures r.Err? ==> r.error in {KeyError, TypeError, IndexError}
  {
    match x
    case Dict(entries) => DictSubscript(entries, key)
    case List(items) =>
      var p :- SequencePosition(key, |items|);
      Ok(items[p])
    case Str(t) =>
      var p :- SequencePosition(key, |t|);
      Ok(Str([t[p]]))
    case _ => Err(TypeError)
  }

  /** The length of a list or a str. */
  function Len(x: Value): nat
    requires x.List? || x.Str?
  {
    if x.List? then |x.items| else |x.s|
  }

  /** Subscripting a list or a str: an int index inside its length answers with one of its
      items (a one-character str for a str), one outside raises IndexError, and any other key
      TypeError; every value other than a dict, a list or a str refuses subscripts. */
  lemma SubscriptSequence(x: Value, key: Value)
    ensures Subscript(x, key).Ok? ==> x.Dict? || x.List? || x.Str?
    ensures x.List? && Subscript(x, key).Ok? ==> Subscript(x, key).value in x.items
    ensures x.Str? && Subscript(x, key).Ok? ==>
              var v := Subscript(x, key).value; v.Str? && |v.s| == 1 && v.s[0] in x.s
    ensures (x.List? || x.Str?) && IntIndex(key).Some? ==>
              (Subscript(x, key).Ok? <==> -(Len(x) as int) <= IntIndex(key).value < Len(x))
    ensures Subscript(x, key).Err? ==>
              (Subscript(x, key).error == IndexError <==> (x.List? || x.Str?) && IntIndex(key).Some?)
  {
  }

  /** A list index counts from the front, and a negative one from the end: `x[-k]` is
      `x[len(x) - k]`. */
  lemma ListIndex(items: seq<Value>, i: int)
    requires -|items| <= i < |items|
    ensures i >= 0 ==> Subscript(List(items), Int(i)) == Ok(items[i])
    ensures i < 0 ==> Subscript(List(items), Int(i)) == Subscript(List(items), Int(i + |items|))
  {
  }

  /** The items `for item in x` visits: a list's items, a dict's keys, a string's characters. */
  function Iterate(x: Value): (r: Result<seq<Value>>)
    ensures r.Ok? <==> x.List? || x.Dict? || x.Str?
    ensures r.Ok? && x.List? ==> r.value == x.items
    ensures r.Ok? && x.Dict? ==> |r.value| == |x.entries|
  {
    match x
    case List(items) => Ok(items)
    case Dict(entries) => Ok(seq(|entries|, j requires 0 <= j < |entries| => Str(entries[j].0)))
    case Str(s) => Ok(seq(|s|, j requires 0 <= j < |s| => Str([s[j]])))
    case _ => Err(TypeError)
  }

  // ---------------------------------------------------------------------------
  // Whitespace and stripping

  /** `c.isspace()` as Python defines it. */
  predicate IsSpace(c: char) {
    var n := c as int;
    (9 <= n <= 13) || (28 <= n <= 32) || n == 0x85 || n == 0xA0 || n == 0x1680
    || (0x2000 <= n <= 0x200A) || n == 0x2028 || n == 0x2029 || n == 0x202F
    || n == 0x205F || n == 0x3000
  }

  /** `s.rstrip()`. */
  function RStrip(s: string): (r: string)
    ensures r <= s
    ensures r != [] ==> !IsSpace(r[|r| - 1])
  {
    if s != [] && IsSpace(s[|s| - 1]) then RStrip(s[..|s| - 1]) else s
  }

  /** `s.lstrip()`. */
  function LStrip(s: string): (r: string)
    ensures |r| <= |s| && r == s[|s| - |r|..]
    ensures r != [] ==> !IsSpace(r[0])
  {
    if s != [] && IsSpace(s[0]) then LStrip(s[1..]) else s
  }

  /** `s.strip()`. */
  function Strip(s: string): string {
    LStrip(RStrip(s))
  }

  /** What `s.rstrip()` removes is whitespace only, so it is empty exactly when `s` is blank. */
  lemma {:induction false} RStripEmptyIffBlank(s: string)
    ensures RStrip(s) == [] <==> forall i :: 0 <= i < |s| ==> IsSpace(s[i])
  {
    if s != [] && IsSpace(s[|s| - 1]) {
      RStripEmptyIffBlank(s[..|s| - 1]);
      assert forall i :: 0 <= i < |s| - 1 ==> s[..|s| - 1][i] == s[i];
    }
  }

  // ---------------------------------------------------------------------------
  // Integers and their decimal text

  predicate IsDigit(c: char) { '0' <= c <= '9' }

  predicate AllDigits(s: string) { forall i :: 0 <= i < |s| ==> IsDigit(s[i]) }

  function DigitValue(c: char): nat requires IsDigit(c) { c as nat - '0' as nat }

  function DigitChar(d: nat): (c: char)
    requires d < 10
    ensures IsDigit(c) && DigitValue(c) == d
  {
    ('0' as nat + d) as char
  }

  /** The number a string of decimal digits denotes. */
  function DigitsValue(s: string): nat
    requires AllDigits(s)
  {
    if s == [] then 0 else 10 * DigitsValue(s[..|s| - 1]) + DigitValue(s[|s| - 1])
  }

  /** The shortest decimal text of a natural number. */
  function NatToDigits(n: nat): (s: string)
    ensures |s| > 0 && AllDigits(s)
    ensures |s| > 1 ==> s[0] != '0'
  {
    if n < 10 then [DigitChar(n)]
    else
      var r := NatToDigits(n / 10) + [DigitChar(n % 10)];
      assert r[0] == NatToDigits(n / 10)[0];
      r
  }

  /** `str(n)` for a Python int. */
  function IntToString(n: int): (s: string)
  {
    if n < 0 then "-" + NatToDigits(-n) else NatToDigits(n)
  }

  /** `int(s)` for a str: surrounding whitespace, an optional sign, then at least one digit. */
  function ParseInt(s: string): (r: Result<int>)
  {
    var t := Strip(s);
    if t == [] then Err(ValueError)
    else
      var neg := t[0] == '-';
      var digits := if t[0] == '-' || t[0] == '+' then t[1..] else t;
      if digits == [] || !AllDigits(digits) then Err(ValueError)
      else
        var n: int := DigitsValue(digits);
        Ok(if neg then -n else n)
  }

  /** `int(v)` on a scalar value; containers and `None` raise TypeError. */
  function ToInt(v: Value): (r: Result<int>)
    ensures r.Err? ==> (r.error == TypeError <==> !v.Str? && !v.Int? && !v.Bool?)
    ensures r.Err? ==> r.error in {TypeError, ValueError}
    ensures v.Int? ==> r == Ok(v.i)
  {
    match v
    case Int(i) => Ok(i)
    case Bool(b) => Ok(if b then 1 else 0)
    case Str(s) => ParseInt(s)
    case _ => Err(TypeError)
  }

  lemma {:induction false} DigitsRoundTrip(n: nat)
    ensures DigitsValue(NatToDigits(n)) == n
  {
    if n >= 10 {
      var s := NatToDigits(n);
      assert s[..|s| - 1] == NatToDigits(n / 10);
      DigitsRoundTrip(n / 10);
    }
  }

  lemma StripDigits(s: string)
    requires AllDigits(s)
    ensures Strip(s) == s
  {
    if s != [] {
      assert !IsSpace(s[|s| - 1]) && !IsSpace(s[0]);
    }
  }

  /** A minus sign followed by digits is left alone by `strip()`. */
  lemma StripSigned(d: string)
    requires AllDigits(d)
    ensures Strip("-" + d) == "-" + d
  {
    var s := "-" + d;
    assert s[0] == '-';
    assert forall i :: 0 < i < |s| ==> s[i] == d[i - 1];
    assert !IsSpace(s[|s| - 1]);
    assert RStrip(s) == s;
    assert LStrip(s) == s;
  }

  /** `int(str(n)) == n`: the decimal text of an int parses back to it. */
  lemma IntRoundTrip(n: int)
    ensures ParseInt(IntToString(n)) == Ok(n)
  {
    if n < 0 {
      var d := NatToDigits(-n);
      StripSigned(d);
      assert ("-" + d)[1..] == d;
      DigitsRoundTrip(-n);
    } else {
      StripDigits(IntToString(n));
      DigitsRoundTrip(n);
    }
  }

  /** `str` is injective on ints, so ids compared as strings compare as ints. */
  lemma IntToStringInjective(m: int, n: int)
    ensures IntToString(m) == IntToString(n) <==> m == n
  {
    IntRoundTrip(m);
    IntRoundTrip(n);
  }

  /** `str(v)`; a list or dict is shown by its brackets only. */
  function ToStr(v: Value): (s: string)
    ensures v.Str? ==> s == v.s
    ensures v.Int? ==> ParseInt(s) == Ok(v.i)
  {
    match v
    case Null => "None"
    case Bool(b) => if b then "True" else "False"
    case Int(i) => IntRoundTrip(i); IntToString(i)
    case Str(s) => s
    case List(_) => "[...]"
    case Dict(_) => "{...}"
  }
}
