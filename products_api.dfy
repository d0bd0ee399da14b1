/**
 * The `getProducts` endpoint: the request path built from `limit` and
 * `skip`, its inverse, and the cache tags the endpoint provides.
 */
module ProductsApi {
  import opened Common
  import BaseApi

  /** The arguments of a `getProducts` request. */
  datatype ProductsArgs = ProductsArgs(limit: nat, skip: nat)

  predicate IsDigit(c: char)
  {
    '0' <= c <= '9'
  }

  function DigitChar(d: nat): (c: char)
    requires d < 10
    ensures IsDigit(c) && DigitValue(c) == d
  {
    ['0', '1', '2', '3', '4', '5', '6', '7', '8', '9'][d]
  }

  function DigitValue(c: char): nat
    requires IsDigit(c)
  {
    (c as int - '0' as int) as nat
  }

  /** The digits of a decimal number as JavaScript writes it: no sign, no leading zero except for 0 itself. */
  predicate Canonical(s: string)
  {
    |s| > 0 && (forall i :: 0 <= i < |s| ==> IsDigit(s[i])) && (s[0] == '0' ==> |s| == 1)
  }

  /** The decimal text of `n`, as a template literal interpolates a non-negative integer. */
  function Decimal(n: nat): (s: string)
    ensures Canonical(s)
    decreases n
  {
    if n < 10 then [DigitChar(n)] else Decimal(n / 10) + [DigitChar(n % 10)]
  }

  /** The number a non-empty run of digits denotes, read most significant digit first. */
  function DigitsValue(s: string): nat
    requires forall i :: 0 <= i < |s| ==> IsDigit(s[i])
    decreases |s|
  {
    if s == [] then 0 else DigitsValue(s[..|s| - 1]) * 10 + DigitValue(s[|s| - 1])
  }

  /** Reads a number written in canonical decimal; anything else is refused. */
  function ParseDecimal(s: string): Option<nat>
  {
    if Canonical(s) then Some(DigitsValue(s)) else None
  }

  lemma {:induction false} DecimalValue(n: nat)
    ensures DigitsValue(Decimal(n)) == n
    decreases n
  {
    if n >= 10 {
      var d := Decimal(n / 10) + [DigitChar(n % 10)];
      assert d[..|d| - 1] == Decimal(n / 10);
      DecimalValue(n / 10);
    }
  }

  /** The first digit of a canonical text is non-zero once it has more than one digit. */
  lemma {:induction false} CanonicalValueBound(s: string)
    requires Canonical(s) && |s| > 1
    ensures DigitsValue(s) >= 10
    decreases |s|
  {
    var p := s[..|s| - 1];
    assert p[0] == s[0];
    if |p| > 1 {
      CanonicalValueBound(p);
    } else {
      assert p == [s[0]];
      assert DigitsValue(p) == DigitValue(s[0]);
    }
  }

  /** A canonical decimal text is the one `Decimal` produces for its value. */
  lemma {:induction false} DecimalOfValue(s: string)
    requires Canonical(s)
    ensures Decimal(DigitsValue(s)) == s
    decreases |s|
  {
    if |s| == 1 {
      assert s == [s[0]];
    } else {
      var p := s[..|s| - 1];
      assert p[0] == s[0];
      assert Canonical(p);
      CanonicalValueBound(s);
      DecimalOfValue(p);
      var n := DigitsValue(s);
      assert n / 10 == DigitsValue(p) && n % 10 == DigitValue(s[|s| - 1]);
      assert DigitChar(n % 10) == s[|s| - 1];
      assert s == p + [s[|s| - 1]];
    }
  }

  /** Parsing inverts formatting, in both directions. */
  lemma DecimalRoundTrip(n: nat, s: string)
    ensures ParseDecimal(Decimal(n)) == Some(n)
    ensures ParseDecimal(s) == Some(n) ==> Decimal(n) == s
  {
    DecimalValue(n);
    if Canonical(s) {
      DecimalOfValue(s);
    }
  }

  const PathHead: string := "/products?limit="
  const SkipKey: string := "&skip="

  /** The endpoint's `query`: `/products?limit=<limit>&skip=<skip>`. */
  function QueryPath(args: ProductsArgs): (p: string)
    ensures |p| > |PathHead| && p[..|PathHead|] == PathHead
  {
    PathHead + Decimal(args.limit) + SkipKey + Decimal(args.skip)
  }

  /** How many digits `s` starts with. */
  function LeadingDigits(s: string): (k: nat)
    ensures k <= |s| && (forall i :: 0 <= i < k ==> IsDigit(s[i])) && (k < |s| ==> !IsDigit(s[k]))
    decreases |s|
  {
    if s != [] && IsDigit(s[0]) then 1 + LeadingDigits(s[1..]) else 0
  }

  /** Digits followed by a non-digit: the digit run is exactly the first part. */
  lemma {:induction false} LeadingDigitsOfConcat(a: string, b: string)
    requires forall i :: 0 <= i < |a| ==> IsDigit(a[i])
    requires b != [] && !IsDigit(b[0])
    ensures LeadingDigits(a + b) == |a|
    decreases |a|
  {
    if a != [] {
      assert (a + b)[1..] == a[1..] + b;
      LeadingDigitsOfConcat(a[1..], b);
    } else {
      assert a + b == b;
    }
  }

  /** Cuts a path of the endpoint's shape into the text of `limit` and the text of `skip`. */
  function SplitQueryPath(p: string): (parts: Option<(string, string)>)
    ensures parts.Some? ==> p == PathHead + parts.value.0 + SkipKey + parts.value.1
    ensures parts.Some? ==> forall i :: 0 <= i < |parts.value.0| ==> IsDigit(parts.value.0[i])
  {
    if |p| < |PathHead| || p[..|PathHead|] != PathHead then None
    else
      var rest := p[|PathHead|..];
      var k := LeadingDigits(rest);
      var tail := rest[k..];
      if |tail| < |SkipKey| || tail[..|SkipKey|] != SkipKey then None
      else
        Reassemble(p, PathHead, k, SkipKey);
        Some((rest[..k], tail[|SkipKey|..]))
  }

  /** A text that starts with `head`, then `k` more characters, then `key`, is those four parts joined. */
  lemma Reassemble(p: string, head: string, k: nat, key: string)
    requires |head| <= |p| && p[..|head|] == head
    requires |head| + k + |key| <= |p| && p[|head| + k..|head| + k + |key|] == key
    ensures p == head + p[|head|..][..k] + key + p[|head|..][k..][|key|..]
  {
    var rest := p[|head|..];
    var tail := rest[k..];
    assert tail[..|key|] == key;
    assert tail == tail[..|key|] + tail[|key|..];
    assert rest == rest[..k] + tail;
    assert p == p[..|head|] + rest;
  }

  /** Reads the arguments back out of a path of the endpoint's shape; any other text is refused. */
  function ParseQueryPath(p: string): Option<ProductsArgs>
  {
    match SplitQueryPath(p)
    case None => None
    case Some((l, s)) =>
      match (ParseDecimal(l), ParseDecimal(s))
      case (Some(limit), Some(skip)) => Some(ProductsArgs(limit, skip))
      case _ => None
  }

  /** The split of a built path gives back the two decimal texts. */
  lemma SplitBuiltPath(args: ProductsArgs)
    ensures SplitQueryPath(QueryPath(args)) == Some((Decimal(args.limit), Decimal(args.skip)))
  {
    var p := QueryPath(args);
    var dl, ds := Decimal(args.limit), Decimal(args.skip);
    var rest := p[|PathHead|..];
    assert p[..|PathHead|] == PathHead;
    assert rest == dl + (SkipKey + ds);
    LeadingDigitsOfConcat(dl, SkipKey + ds);
    assert rest[..|dl|] == dl;
    var tail := rest[|dl|..];
    assert tail == SkipKey + ds;
    assert tail[..|SkipKey|] == SkipKey;
    assert tail[|SkipKey|..] == ds;
  }

  /** Parsing the path recovers the arguments it was built from. */
  lemma QueryPathRoundTrip(args: ProductsArgs)
    ensures ParseQueryPath(QueryPath(args)) == Some(args)
  {
    SplitBuiltPath(args);
    DecimalRoundTrip(args.limit, Decimal(args.limit));
    DecimalRoundTrip(args.skip, Decimal(args.skip));
  }

  /** A path that parses is exactly the path built from what it parses to. */
  lemma ParsedPathIsQueryPath(p: string, args: ProductsArgs)
    requires ParseQueryPath(p) == Some(args)
    ensures QueryPath(args) == p
  {
    var parts := SplitQueryPath(p).value;
    DecimalRoundTrip(args.limit, parts.0);
    DecimalRoundTrip(args.skip, parts.1);
  }

  /** Different arguments never share a path, so the path identifies the request. */
  lemma QueryPathInjective(a: ProductsArgs, b: ProductsArgs)
    requires QueryPath(a) == QueryPath(b)
    ensures a == b
  {
    QueryPathRoundTrip(a);
    QueryPathRoundTrip(b);
  }

  /** The digits of `limit` come before the `skip` key, and `skip`'s digits close the path. */
  lemma LimitBeforeSkip(args: ProductsArgs)
    ensures var p := QueryPath(args);
      var i := |PathHead| + |Decimal(args.limit)|;
      && p[|PathHead|..i] == Decimal(args.limit)
      && p[i..i + |SkipKey|] == SkipKey
      && p[i + |SkipKey|..] == Decimal(args.skip)
  {
  }

  /** The cache tags the endpoint's results are filed under; each is a tag type the API declares. */
  function ProvidedTags(): (tags: seq<string>)
    ensures |tags| == 1 && tags[0] == "Products"
    ensures forall t :: t in tags ==> t in BaseApi.TagTypes
  {
    ["Products"]
  }
}
