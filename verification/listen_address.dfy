/**
 * The bind address of a tunnel's listening socket: the server host and the
 * tunnel's port joined by a colon, the port written in decimal as PHP
 * interpolates an integer (a leading '-' when negative).
 */
module ListenAddress {
  import opened Wrappers

  predicate IsDigit(ch: char)
  {
    '0' <= ch <= '9'
  }

  predicate AllDigits(s: string)
  {
    forall i :: 0 <= i < |s| ==> IsDigit(s[i])
  }

  function DigitChar(d: nat): (ch: char)
    requires d < 10
    ensures IsDigit(ch) && ch as int - '0' as int == d
  {
    ('0' as int + d) as char
  }

  /** Decimal digits of `n`, most significant first, with no leading zero. */
  function NatToString(n: nat): (r: string)
    ensures |r| >= 1 && AllDigits(r)
    ensures r[0] == '0' <==> n == 0
    ensures n == 0 ==> r == "0"
    decreases n
  {
    if n < 10 then [DigitChar(n)] else NatToString(n / 10) + [DigitChar(n % 10)]
  }

  /** The shortest decimal text of an integer: no leading zero, no "-0". */
  predicate Canonical(s: string)
  {
    if |s| >= 1 && s[0] == '-' then |s| >= 2 && AllDigits(s[1..]) && s[1] != '0'
    else |s| >= 1 && AllDigits(s) && (s[0] == '0' ==> |s| == 1)
  }

  /** An integer as PHP interpolates it into a string. */
  function IntToString(i: int): (r: string)
    ensures |r| >= 1 && ':' !in r
    ensures Canonical(r)
  {
    if i < 0 then "-" + NatToString(-i) else NatToString(i)
  }

  /** The number a run of decimal digits denotes (0 for the empty run). */
  function DigitsValue(s: string): nat
    requires AllDigits(s)
    decreases |s|
  {
    if s == [] then 0
    else DigitsValue(s[..|s| - 1]) * 10 + (s[|s| - 1] as int - '0' as int)
  }

  /** Reads an optionally negative decimal integer; anything else is None. */
  function ParseInt(s: string): Option<int>
  {
    if |s| >= 2 && s[0] == '-' && AllDigits(s[1..]) then Some(-(DigitsValue(s[1..]) as int))
    else if |s| >= 1 && AllDigits(s) then Some(DigitsValue(s))
    else None
  }

  /** The position of the last occurrence of `ch` in `s`. */
  function LastIndexOf(s: string, ch: char): (r: Option<nat>)
    ensures r.Some? ==> r.value < |s| && s[r.value] == ch
    ensures r.Some? ==> forall j :: r.value < j < |s| ==> s[j] != ch
    ensures r.None? <==> ch !in s
    decreases |s|
  {
    if s == [] then None
    else if s[|s| - 1] == ch then Some(|s| - 1)
    else LastIndexOf(s[..|s| - 1], ch)
  }

  /** Splits a bind address at its last colon into host and port. */
  function Split(address: string): Option<(string, int)>
  {
    match LastIndexOf(address, ':')
    case None => None
    case Some(k) =>
      match ParseInt(address[k + 1..])
      case None => None
      case Some(port) => Some((address[..k], port))
  }

  /** The address the tunnel server binds its listening socket to. */
  function Format(host: string, port: int): (r: string)
    ensures |r| > |host| && r[..|host|] == host && r[|host|] == ':'
    ensures Split(r) == Some((host, port))
    ensures Canonical(r[|host| + 1..])
  {
    var digits := IntToString(port);
    var r := host + ":" + digits;
    FormatSplits(host, digits, port);
    r
  }

  lemma {:induction false} DigitsRoundTrip(n: nat)
    ensures DigitsValue(NatToString(n)) == n
    decreases n
  {
    if n >= 10 {
      var s := NatToString(n);
      assert s[..|s| - 1] == NatToString(n / 10);
      DigitsRoundTrip(n / 10);
    }
  }

  lemma IntRoundTrip(i: int)
    ensures ParseInt(IntToString(i)) == Some(i)
  {
    if i < 0 {
      var s := IntToString(i);
      assert s[1..] == NatToString(-i);
      DigitsRoundTrip(-i);
    } else {
      DigitsRoundTrip(i);
    }
  }

  lemma FormatSplits(host: string, digits: string, port: int)
    requires digits == IntToString(port)
    ensures Split(host + ":" + digits) == Some((host, port))
  {
    var r := host + ":" + digits;
    assert r[|host|] == ':';
    assert forall j :: |host| < j < |r| ==> r[j] == digits[j - |host| - 1];
    assert LastIndexOf(r, ':') == Some(|host|);
    assert r[|host| + 1..] == digits;
    assert r[..|host|] == host;
    IntRoundTrip(port);
  }
}
