/** Stand-ins for the parts of the PHP standard library (Psl) that the pool and its
    workers call: integer parsing and printing (Str\to_int and PHP's int-to-string
    conversion), string prefixes (Str\starts_with, Str\strip_prefix), Str\join,
    Dict\merge, Vec\partition and socket addresses (Network\Address). */
module Psl {

  datatype Option<+T> = None | Some(value: T)

  datatype Result<+T, +E> = Success(value: T) | Failure(error: E)

  /** The outcome of an operation that returns nothing but may fail. */
  datatype Outcome<+E> = Pass | Fail(error: E)

  /** The range of PHP's 64-bit `int`. */
  const PHP_INT_MIN: int := -0x8000_0000_0000_0000
  const PHP_INT_MAX: int := 0x7FFF_FFFF_FFFF_FFFF

  type PhpInt = x: int | PHP_INT_MIN <= x <= PHP_INT_MAX

  // ---------------------------------------------------------------------------
  // Decimal integers
  // ---------------------------------------------------------------------------

  predicate IsDigit(c: char) {
    '0' <= c <= '9'
  }

  predicate AllDigits(s: string) {
    forall i | 0 <= i < |s| :: IsDigit(s[i])
  }

  function DigitValue(c: char): nat
    requires IsDigit(c)
  {
    c as int - '0' as int
  }

  function DigitChar(d: nat): (c: char)
    requires d < 10
    ensures IsDigit(c) && DigitValue(c) == d
  {
    ('0' as int + d) as char
  }

  /** The value of a string of decimal digits, most significant first. */
  function DigitsValue(s: string): nat
    requires AllDigits(s)
  {
    if s == [] then 0 else DigitsValue(s[..|s| - 1]) * 10 + DigitValue(s[|s| - 1])
  }

  /** The decimal spelling of `n`, most significant digit first. */
  function NatToString(n: nat): (s: string)
    ensures |s| >= 1 && AllDigits(s)
  {
    if n < 10 then [DigitChar(n)] else NatToString(n / 10) + [DigitChar(n % 10)]
  }

  /** PHP's conversion of an `int` to a `string`: an optional minus sign, then the digits. */
  function IntToString(n: int): string {
    if n < 0 then "-" + NatToString(-n) else NatToString(n)
  }

  lemma {:induction false} DigitsValueOfNatToString(n: nat)
    ensures DigitsValue(NatToString(n)) == n
  {
    if n >= 10 {
      var s := NatToString(n / 10);
      DigitsValueOfNatToString(n / 10);
      var t := s + [DigitChar(n % 10)];
      assert t[..|t| - 1] == s;
    }
  }

  /** The integer a string of the shape `-?[0-9]+` spells, if it has that shape. */
  function DecimalValue(s: string): Option<int> {
    if |s| >= 2 && s[0] == '-' && AllDigits(s[1..]) then Some(-(DigitsValue(s[1..]) as int))
    else if |s| >= 1 && AllDigits(s) then Some(DigitsValue(s))
    else None
  }

  /** Str\to_int: the integer `(int) s` when converting it back with `(string)` gives `s`
      again, and nothing otherwise. A string not of the shape `-?[0-9]+` can never be the
      spelling of an int; one of that shape casts to its value, saturated to the 64-bit
      range, so the round trip succeeds exactly when the value is in range and the
      spelling is canonical (no `+`, no leading zero, no `-0`). */
  function ToInt(s: string): (r: Option<PhpInt>)
    ensures DecimalValue(s).None? ==> r.None?
    ensures r.Some? ==> DecimalValue(s) == Some(r.value) && IntToString(r.value) == s
  {
    match DecimalValue(s)
    case Some(n) =>
      if PHP_INT_MIN <= n <= PHP_INT_MAX && IntToString(n) == s then Some(n) else None
    case None => None
  }

  /** The spelling of any integer reads back as that integer. */
  lemma DecimalValueOfIntToString(n: int)
    ensures DecimalValue(IntToString(n)) == Some(n)
  {
    var s := IntToString(n);
    if n < 0 {
      assert s[1..] == NatToString(-n);
      DigitsValueOfNatToString(-n);
    } else {
      assert IsDigit(s[0]);
      DigitsValueOfNatToString(n);
    }
  }

  /** Str\to_int accepts exactly the canonical spellings of 64-bit integers. */
  lemma ToIntCanonical(s: string, n: int)
    ensures ToInt(s) == Some(n) <==> PHP_INT_MIN <= n <= PHP_INT_MAX && s == IntToString(n)
  {
    if PHP_INT_MIN <= n <= PHP_INT_MAX && s == IntToString(n) {
      DecimalValueOfIntToString(n);
    }
  }

  // ---------------------------------------------------------------------------
  // Strings and dictionaries
  // ---------------------------------------------------------------------------

  /** Str\starts_with. */
  predicate StartsWith(s: string, prefix: string) {
    |prefix| <= |s| && s[..|prefix|] == prefix
  }

  /** Str\strip_prefix: `s` without `prefix` when it starts with it, `s` otherwise. */
  function StripPrefix(s: string, prefix: string): (r: string)
    ensures StartsWith(s, prefix) ==> prefix + r == s
    ensures !StartsWith(s, prefix) ==> r == s
  {
    if StartsWith(s, prefix) then s[|prefix|..] else s
  }

  /** Str\join: the pieces with `glue` between neighbours. */
  function Join(pieces: seq<string>, glue: string): string {
    if |pieces| == 0 then ""
    else if |pieces| == 1 then pieces[0]
    else pieces[0] + glue + Join(pieces[1..], glue)
  }

  /** Dict\merge of two dictionaries: every key of either, later values winning. */
  function Merge<K, V>(base: map<K, V>, overrides: map<K, V>): (r: map<K, V>)
    ensures r.Keys == base.Keys + overrides.Keys
    ensures forall k | k in overrides :: r[k] == overrides[k]
    ensures forall k | k in base && k !in overrides :: r[k] == base[k]
  {
    base + overrides
  }

  // ---------------------------------------------------------------------------
  // Vec\partition
  // ---------------------------------------------------------------------------

  /** Vec\partition: the elements satisfying `p`, then the others, each in input order. */
  function Partition<T>(s: seq<T>, p: T -> bool): (r: (seq<T>, seq<T>))
    ensures forall x | x in r.0 :: p(x)
    ensures forall x | x in r.1 :: !p(x)
    ensures multiset(r.0) + multiset(r.1) == multiset(s)
    ensures |r.0| + |r.1| == |s|
  {
    if s == [] then ([], [])
    else
      var rest := Partition(s[1..], p);
      assert s == [s[0]] + s[1..];
      if p(s[0]) then ([s[0]] + rest.0, rest.1) else (rest.0, [s[0]] + rest.1)
  }

  /** `s` is an interleaving of `a` and `b`: both occur in `s` in their own order and
      together they make up all of `s`. */
  ghost predicate Interleaves<T>(s: seq<T>, a: seq<T>, b: seq<T>)
    decreases |s|
  {
    if s == [] then a == [] && b == []
    else
      (a != [] && a[0] == s[0] && Interleaves(s[1..], a[1..], b))
      || (b != [] && b[0] == s[0] && Interleaves(s[1..], a, b[1..]))
  }

  /** The two halves of a partition, merged back in input order, are the input. */
  lemma {:induction false} PartitionInterleaves<T>(s: seq<T>, p: T -> bool)
    ensures Interleaves(s, Partition(s, p).0, Partition(s, p).1)
  {
    if s != [] {
      var rest := Partition(s[1..], p);
      PartitionInterleaves(s[1..], p);
      if p(s[0]) {
        assert ([s[0]] + rest.0)[1..] == rest.0;
      } else {
        assert ([s[0]] + rest.1)[1..] == rest.1;
      }
    }
  }

  // ---------------------------------------------------------------------------
  // Network\Address
  // ---------------------------------------------------------------------------

  /** A socket address: a Unix domain socket path, or a TCP host and port. */
  datatype Address = UnixAddress(path: string) | TcpAddress(host: string, port: int)

  /** Address::toString: `unix://<path>` or `tcp://<host>:<port>`. */
  function AddressToString(a: Address): string {
    match a
    case UnixAddress(path) => "unix://" + path
    case TcpAddress(host, port) => "tcp://" + host + ":" + IntToString(port)
  }
}
