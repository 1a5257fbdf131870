/**
  String helpers the bot relies on from Python's runtime: decimal rendering
  of integers (`str(n)`), the integer parser used on store keys (`int(s)`),
  `sep.join(parts)`, slicing `s[:n]` and `s.strip()`.
 */
module Text {

  datatype Option<+T> = None | Some(value: T)

  predicate IsDigit(c: char) {
    '0' <= c <= '9'
  }

  predicate AllDigits(s: string) {
    forall i :: 0 <= i < |s| ==> IsDigit(s[i])
  }

  function DigitChar(d: nat): (c: char)
    requires d < 10
    ensures IsDigit(c) && c as int - '0' as int == d
  {
    (d + '0' as int) as char
  }

  function DigitValue(c: char): nat
    requires IsDigit(c)
  {
    c as int - '0' as int
  }

  /** The decimal digits of `n`, most significant first, with no leading zero. */
  function NatToString(n: nat): (s: string)
    ensures |s| > 0 && AllDigits(s)
    ensures s[0] == '0' ==> s == "0"
    ensures n < 10 <==> |s| == 1
  {
    if n < 10 then [DigitChar(n)] else NatToString(n / 10) + [DigitChar(n % 10)]
  }

  /** The number a non-empty run of decimal digits denotes (leading zeros allowed). */
  function DigitsValue(s: string): nat
    requires AllDigits(s)
  {
    if s == [] then 0 else DigitsValue(s[..|s| - 1]) * 10 + DigitValue(s[|s| - 1])
  }

  lemma {:induction false} DigitsValueOfNatToString(n: nat)
    ensures DigitsValue(NatToString(n)) == n
  {
    if n >= 10 {
      var s := NatToString(n);
      assert s[..|s| - 1] == NatToString(n / 10);
      DigitsValueOfNatToString(n / 10);
    }
  }

  /** Python's `str(n)` for an integer. */
  function IntToString(n: int): (r: string)
    ensures |r| > 0 && (r[0] == '-' <==> n < 0)
  {
    if n < 0 then "-" + NatToString(-n) else NatToString(n)
  }

  /** `str(n)` is a sign exactly for a negative `n`, followed by the digits of its magnitude. */
  lemma IntToStringShape(n: int)
    ensures |IntToString(n)| > 0
    ensures IntToString(n)[0] == '-' <==> n < 0
    ensures n >= 0 ==> AllDigits(IntToString(n))
    ensures n < 0 ==> IntToString(n)[1..] == NatToString(-n)
  {
  }

  /**
    Python's `int(s)` restricted to an optional sign followed by ASCII digits;
    `None` where Python raises `ValueError`.
   */
  function ParseInt(s: string): (r: Option<int>)
    ensures r.Some? <==>
      || (|s| > 0 && AllDigits(s))
      || (|s| > 1 && (s[0] == '-' || s[0] == '+') && AllDigits(s[1..]))
    ensures AllDigits(s) && |s| > 0 ==> r == Some(DigitsValue(s))
    ensures |s| > 1 && s[0] == '-' && AllDigits(s[1..]) ==> r == Some(-(DigitsValue(s[1..]) as int))
    ensures |s| > 1 && s[0] == '+' && AllDigits(s[1..]) ==> r == Some(DigitsValue(s[1..]))
  {
    if |s| > 1 && s[0] == '-' && AllDigits(s[1..]) then Some(-(DigitsValue(s[1..]) as int))
    else if |s| > 1 && s[0] == '+' && AllDigits(s[1..]) then Some(DigitsValue(s[1..]))
    else if |s| > 0 && AllDigits(s) then Some(DigitsValue(s))
    else None
  }

  /** `int("-" + d)` for a run of digits `d`. */
  lemma ParseNegative(d: string)
    requires |d| > 0 && AllDigits(d)
    ensures ParseInt("-" + d) == Some(-(DigitsValue(d) as int))
  {
    assert ("-" + d)[1..] == d;
  }

  /** `int(str(n)) == n`. */
  lemma ParseIntToString(n: int)
    ensures ParseInt(IntToString(n)) == Some(n)
  {
    var m: nat := if n < 0 then -n else n;
    var digits := NatToString(m);
    DigitsValueOfNatToString(m);
    if n < 0 {
      assert IntToString(n) == "-" + digits;
      ParseNegative(digits);
    } else {
      assert IntToString(n) == digits;
    }
  }

  /** Distinct integers have distinct decimal renderings. */
  lemma IntToStringInjective(a: int, b: int)
    requires IntToString(a) == IntToString(b)
    ensures a == b
  {
    ParseIntToString(a);
    ParseIntToString(b);
  }

  /** A key `k` is canonical when `str(int(k)) == k`, as for every key `str(user_id)`. */
  predicate Canonical(k: string) {
    ParseInt(k).Some? && IntToString(ParseInt(k).value) == k
  }

  lemma RenderedIsCanonical(n: int)
    ensures Canonical(IntToString(n))
  {
    ParseIntToString(n);
  }

  /** A digit string with a leading zero (such as "0123") is never a canonical key. */
  lemma LeadingZeroNotCanonical(s: string)
    requires |s| > 1 && s[0] == '0'
    ensures !Canonical(s)
  {
    if ParseInt(s).Some? {
      IntToStringShape(ParseInt(s).value);
    }
  }

  /** Each part preceded by `sep`. */
  function Prefixed(parts: seq<string>, sep: string): (r: seq<string>)
    ensures |r| == |parts|
    ensures forall i :: 0 <= i < |parts| ==> r[i] == sep + parts[i]
  {
    seq(|parts|, i requires 0 <= i < |parts| => sep + parts[i])
  }

  /**
    Python's `sep.join(parts)`: nothing for no parts; otherwise, with one
    more `sep` in front, every part preceded by `sep`, in order.
   */
  function Join(parts: seq<string>, sep: string): (r: string)
    ensures parts == [] ==> r == ""
    ensures parts != [] ==> sep + r == Concat(Prefixed(parts, sep))
  {
    if parts == [] then ""
    else if |parts| == 1 then
      assert Prefixed(parts, sep)[..0] == [];
      parts[0]
    else
      var rest := Join(parts[1..], sep);
      PrefixedFront(parts, sep, rest);
      parts[0] + sep + rest
  }

  /** One more part in front adds that part, after `sep`, in front of the concatenation. */
  lemma PrefixedFront(parts: seq<string>, sep: string, rest: string)
    requires |parts| > 1 && sep + rest == Concat(Prefixed(parts[1..], sep))
    ensures sep + (parts[0] + sep + rest) == Concat(Prefixed(parts, sep))
  {
    var pre := Prefixed(parts, sep);
    ConcatFront(pre);
    assert pre[1..] == Prefixed(parts[1..], sep);
  }

  /** `"".join(parts)`: the parts one after the other. */
  function Concat<T>(parts: seq<seq<T>>): seq<T> {
    if parts == [] then [] else Concat(parts[..|parts| - 1]) + parts[|parts| - 1]
  }

  lemma {:induction false} ConcatAppend<T>(a: seq<seq<T>>, b: seq<seq<T>>)
    ensures Concat(a + b) == Concat(a) + Concat(b)
  {
    if b == [] {
      assert a + b == a;
    } else {
      var init := b[..|b| - 1];
      assert (a + b)[..|a + b| - 1] == a + init;
      assert (a + b)[|a + b| - 1] == b[|b| - 1];
      ConcatAppend(a, init);
    }
  }

  /** A non-empty list concatenates to its first part followed by the rest. */
  lemma {:induction false} ConcatFront<T>(parts: seq<seq<T>>)
    requires parts != []
    ensures Concat(parts) == parts[0] + Concat(parts[1..])
  {
    var n := |parts|;
    if n == 1 {
      assert parts[..0] == [] && parts[1..] == [];
      assert Concat(parts) == [] + parts[0];
    } else {
      var init := parts[..n - 1];
      ConcatFront(init);
      assert init[1..] == parts[1..][..n - 2];
      assert Concat(parts) == (parts[0] + Concat(init[1..])) + parts[n - 1];
    }
  }

  /**
    Growing a prefix of the list by one part grows its concatenation by
    that part, after any `head` it follows.
   */
  lemma ConcatPrefixStep<T>(head: seq<T>, parts: seq<seq<T>>, i: nat)
    requires i < |parts|
    ensures head + Concat(parts[..i + 1]) == head + Concat(parts[..i]) + parts[i]
  {
    assert parts[..i + 1][..i] == parts[..i];
  }

  /**
    The concatenation of a list, after any `head`, is that of the parts
    before `i`, part `i`, then the parts after it.
   */
  lemma {:induction false} ConcatAround<T>(head: seq<T>, parts: seq<seq<T>>, i: nat)
    requires i < |parts|
    ensures head + Concat(parts) == head + Concat(parts[..i]) + parts[i] + Concat(parts[i + 1..])
  {
    assert parts == (parts[..i] + [parts[i]]) + parts[i + 1..];
    ConcatAppend(parts[..i] + [parts[i]], parts[i + 1..]);
    ConcatAppend(parts[..i], [parts[i]]);
    assert [parts[i]][..0] == [];
  }

  /** Python's slice `s[:limit]` for a non-negative limit: a hard cut. */
  function Truncate(s: string, limit: nat): (r: string)
    ensures |r| == if |s| <= limit then |s| else limit
    ensures r == s[..|r|]
  {
    if |s| <= limit then s else s[..limit]
  }

  /** The characters `str.isspace` accepts. */
  predicate IsSpace(c: char) {
    || '\t' <= c <= '\r'
    || '\U{1C}' <= c <= '\U{1F}'
    || c == ' ' || c == '\U{85}' || c == '\U{A0}' || c == '\U{1680}'
    || '\U{2000}' <= c <= '\U{200A}'
    || c == '\U{2028}' || c == '\U{2029}' || c == '\U{202F}' || c == '\U{205F}' || c == '\U{3000}'
  }

  /** How many characters `s.lstrip()` drops: the white space run at the start. */
  function LeadingSpaces(s: string): (n: nat)
    ensures n <= |s|
    ensures forall i :: 0 <= i < n ==> IsSpace(s[i])
    ensures n < |s| ==> !IsSpace(s[n])
  {
    if s != [] && IsSpace(s[0]) then 1 + LeadingSpaces(s[1..]) else 0
  }

  /** How many characters `s.rstrip()` drops: the white space run at the end. */
  function TrailingSpaces(s: string): (n: nat)
    ensures n <= |s|
    ensures forall i :: |s| - n <= i < |s| ==> IsSpace(s[i])
    ensures n < |s| ==> !IsSpace(s[|s| - n - 1])
  {
    if s != [] && IsSpace(s[|s| - 1]) then 1 + TrailingSpaces(s[..|s| - 1]) else 0
  }

  /** `s.strip()`: the slice of `s` left once white space is dropped at both ends. */
  function Strip(s: string): (r: string)
    ensures LeadingSpaces(s) + |r| <= |s|
    ensures r == s[LeadingSpaces(s)..LeadingSpaces(s) + |r|]
    ensures r == [] || (!IsSpace(r[0]) && !IsSpace(r[|r| - 1]))
    ensures forall j :: LeadingSpaces(s) + |r| <= j < |s| ==> IsSpace(s[j])
  {
    var i := LeadingSpaces(s);
    var t := s[i..];
    var k := TrailingSpaces(t);
    assert forall j :: i + |t| - k <= j < |s| ==> s[j] == t[j - i];
    assert t[..|t| - k] == s[i..i + (|t| - k)];
    t[..|t| - k]
  }
}
