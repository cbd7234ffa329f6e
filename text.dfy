/**
 * The string operations the plugins rely on: Java's decimal rendering of a
 * `long` in ASCII digits (`Long.toString`, which `"" + n` uses; `%d` in
 * `String.format` renders the same text when the default locale's zero digit
 * is '0'), its inverse, `String.join`, and the small splitting functions the
 * trace reader uses.
 */
module Text {

  datatype Option<+T> = None | Some(value: T) {
    predicate IsFailure() { None? }

    function PropagateFailure<U>(): Option<U>
      requires None?
    {
      None
    }

    function Extract(): T
      requires Some?
    {
      value
    }
  }

  predicate IsDigit(c: char) { '0' <= c <= '9' }

  predicate AllDigits(s: string) { forall k :: 0 <= k < |s| ==> IsDigit(s[k]) }

  function DigitChar(d: nat): (c: char)
    requires d < 10
    ensures IsDigit(c) && c as int - '0' as int == d
  {
    ('0' as int + d) as char
  }

  /** Decimal digits of n, most significant first, with no leading zero. */
  function NatToString(n: nat): (s: string)
    ensures |s| >= 1 && AllDigits(s)
    ensures s[0] == '0' <==> n == 0
    ensures n == 0 ==> s == "0"
    decreases n
  {
    if n < 10 then [DigitChar(n)] else NatToString(n / 10) + [DigitChar(n % 10)]
  }

  /** `Long.toString(i)`: an optional minus sign, then the digits of |i|. */
  function IntToString(i: int): (s: string)
    ensures |s| >= 1
    ensures forall k :: 0 <= k < |s| ==> IsDigit(s[k]) || s[k] == '-'
    ensures (s[0] == '-') <==> i < 0
  {
    if i < 0 then "-" + NatToString(-i) else NatToString(i)
  }

  /** The number a string of decimal digits denotes. */
  function DigitsValue(s: string): nat
    requires AllDigits(s)
  {
    if s == [] then 0 else DigitsValue(s[..|s| - 1]) * 10 + (s[|s| - 1] as int - '0' as int)
  }

  /**
   * Reads an integer in the canonical form `Long.toString` produces: no sign
   * or a minus sign, then at least one digit, and no leading zero.
   */
  function ParseInt(s: string): Option<int>
  {
    if |s| >= 2 && s[0] == '-' && AllDigits(s[1..]) && s[1] != '0' then Some(0 - DigitsValue(s[1..]))
    else if |s| >= 1 && AllDigits(s) && (s[0] != '0' || |s| == 1) then Some(DigitsValue(s))
    else None
  }

  lemma {:induction false} DigitsValueOfNatToString(n: nat)
    ensures DigitsValue(NatToString(n)) == n
    decreases n
  {
    if n >= 10 {
      var s := NatToString(n);
      assert s[..|s| - 1] == NatToString(n / 10);
      DigitsValueOfNatToString(n / 10);
    }
  }

  /** Reading back a rendered integer gives the integer. */
  lemma ParseIntToString(i: int)
    ensures ParseInt(IntToString(i)) == Some(i)
  {
    var s := IntToString(i);
    if i < 0 {
      assert s[1..] == NatToString(-i);
      DigitsValueOfNatToString(-i);
    } else {
      DigitsValueOfNatToString(i);
    }
  }

  /** `String.join(sep, xs)`: the items in order, sep between neighbours. */
  function Join(sep: string, xs: seq<string>): (r: string)
    ensures |xs| == 0 ==> r == ""
    ensures |xs| > 0 ==> xs[0] <= r
  {
    if |xs| == 0 then "" else if |xs| == 1 then xs[0] else xs[0] + sep + Join(sep, xs[1..])
  }

  /** Total length of the items. */
  function TotalLength(xs: seq<string>): nat
  {
    if xs == [] then 0 else |xs[0]| + TotalLength(xs[1..])
  }

  /** The join of n items is as long as the items together plus n - 1 separators. */
  lemma {:induction false} JoinLength(sep: string, xs: seq<string>)
    requires |xs| > 0
    ensures |Join(sep, xs)| == TotalLength(xs) + (|xs| - 1) * |sep|
  {
    if |xs| > 1 {
      JoinLength(sep, xs[1..]);
    }
  }

  /** Joining one more item appends a separator and that item. */
  lemma {:induction false} JoinSnoc(sep: string, xs: seq<string>, x: string)
    requires |xs| > 0
    ensures Join(sep, xs + [x]) == Join(sep, xs) + sep + x
  {
    if |xs| > 1 {
      assert (xs + [x])[1..] == xs[1..] + [x];
      JoinSnoc(sep, xs[1..], x);
    } else {
      assert (xs + [x])[1..] == [x];
    }
  }

  /**
   * The first n items of xs, each followed by sep unless it is the last item
   * of all of xs, and then by term: the text an iterator loop writes when it
   * prints an item and then `hasNext() ? sep : ""` and a terminator.
   */
  function Punctuated(xs: seq<string>, sep: string, term: string, n: nat): string
    requires n <= |xs|
  {
    if n == 0 then ""
    else Punctuated(xs, sep, term, n - 1) + xs[n - 1] + (if n < |xs| then sep else "") + term
  }

  /** One more step of the item-by-item loop, after any fixed prefix. */
  lemma PunctuatedNext(prefix: string, xs: seq<string>, sep: string, term: string, i: nat, item: string, punct: string)
    requires i < |xs| && item == xs[i] && punct == (if i + 1 < |xs| then sep else "")
    ensures prefix + Punctuated(xs, sep, term, i) + item + punct + term
         == prefix + Punctuated(xs, sep, term, i + 1)
  {
  }

  lemma {:induction false} PunctuatedPrefix(xs: seq<string>, sep: string, term: string, n: nat)
    requires 1 <= n <= |xs|
    ensures Punctuated(xs, sep, term, n)
         == Join(sep + term, xs[..n]) + (if n < |xs| then sep + term else term)
  {
    if n > 1 {
      PunctuatedPrefix(xs, sep, term, n - 1);
      assert xs[..n] == xs[..n - 1] + [xs[n - 1]];
      JoinSnoc(sep + term, xs[..n - 1], xs[n - 1]);
    } else {
      assert xs[..1] == [xs[0]];
    }
  }

  /** The item-by-item loop form writes the same text as joining the items. */
  lemma PunctuatedIsJoin(xs: seq<string>, sep: string, term: string)
    requires |xs| > 0
    ensures Punctuated(xs, sep, term, |xs|) == Join(sep + term, xs) + term
  {
    PunctuatedPrefix(xs, sep, term, |xs|);
    assert xs[..|xs|] == xs;
  }

  /**
   * Splits s before the first occurrence of c: the text in front of it and
   * the rest, which starts with c. None when c does not occur.
   */
  function Until(s: string, c: char): (r: Option<(string, string)>)
    ensures r.Some? ==> r.value.0 + r.value.1 == s && c !in r.value.0
                        && |r.value.1| > 0 && r.value.1[0] == c
    ensures r.None? ==> c !in s
  {
    if s == [] then None
    else if s[0] == c then Some(([], s))
    else match Until(s[1..], c)
      case None => None
      case Some(p) => Some(([s[0]] + p.0, p.1))
  }

  lemma {:induction false} UntilConcat(a: string, b: string, c: char)
    requires c !in a && |b| > 0 && b[0] == c
    ensures Until(a + b, c) == Some((a, b))
  {
    if a != [] {
      var s := a + b;
      assert s[0] == a[0] && a[0] != c;
      assert s[1..] == a[1..] + b;
      UntilConcat(a[1..], b, c);
      assert Until(s[1..], c) == Some((a[1..], b));
      assert [a[0]] + a[1..] == a;
    } else {
      assert a + b == b;
    }
  }

  lemma Regroup(x: string, y: string, z: string, rest: string)
    ensures (x + y + z) + rest == x + (y + (z + rest))
  {
  }

  function StripPrefix(p: string, s: string): (r: Option<string>)
    ensures r.Some? <==> p <= s
    ensures r.Some? ==> p + r.value == s
  {
    if p <= s then Some(s[|p|..]) else None
  }

  function StripSuffix(s: string, q: string): (r: Option<string>)
    ensures r.Some? ==> r.value + q == s
  {
    if |q| <= |s| && s[|s| - |q|..] == q then Some(s[..|s| - |q|]) else None
  }

  lemma StripPrefixConcat(p: string, t: string)
    ensures StripPrefix(p, p + t) == Some(t)
  {
    assert (p + t)[..|p|] == p;
    assert (p + t)[|p|..] == t;
  }

  lemma StripSuffixConcat(t: string, q: string)
    ensures StripSuffix(t + q, q) == Some(t)
  {
    assert (t + q)[|t|..] == q;
    assert (t + q)[..|t|] == t;
  }

  /** Stripping the frame of framed text leaves the text inside. */
  lemma StripFrame(head: string, body: string, tail: string)
    ensures StripPrefix(head, head + body + tail) == Some(body + tail)
    ensures StripSuffix(body + tail, tail) == Some(body)
  {
    assert head + body + tail == head + (body + tail);
    StripPrefixConcat(head, body + tail);
    StripSuffixConcat(body, tail);
  }
}
