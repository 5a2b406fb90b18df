/** Connection ids `client_N` (server.ts:108): the text of a counter, and the fact
    that different counters never give the same id. */
module ClientIds {

  function DigitChar(d: nat): char
    requires d < 10
  {
    (48 + d) as char
  }

  predicate IsDigit(c: char)
  {
    '0' <= c <= '9'
  }

  /** The decimal text of `n`, as JavaScript's template literal writes a number:
      digits only, and no leading zero unless the number is 0. */
  function Decimal(n: nat): (r: string)
    ensures |r| >= 1 && forall k :: 0 <= k < |r| ==> IsDigit(r[k])
    ensures r[0] == '0' <==> n == 0
    decreases n
  {
    if n < 10 then [DigitChar(n)] else Decimal(n / 10) + [DigitChar(n % 10)]
  }

  /** The id `client_N`: the prefix, then the counter's decimal digits. */
  function ClientId(n: nat): (r: string)
    ensures |r| >= 8 && r[..7] == "client_"
    ensures forall k :: 7 <= k < |r| ==> IsDigit(r[k])
  {
    "client_" + Decimal(n)
  }

  /** The number a decimal text stands for (the inverse of Decimal). */
  function ParseDecimal(s: string): nat
  {
    if |s| == 0 then 0
    else
      var d := s[|s| - 1] as int - 48;
      10 * ParseDecimal(s[..|s| - 1]) + (if 0 <= d < 10 then d else 0)
  }

  /** The counter value an id `client_N` was made from; 0 for any other text. */
  function SerialOf(id: string): nat
  {
    if |id| >= 7 && id[..7] == "client_" then ParseDecimal(id[7..]) else 0
  }

  lemma {:induction false} ParseDecimalRoundTrip(n: nat)
    ensures ParseDecimal(Decimal(n)) == n
    decreases n
  {
    if n >= 10 {
      var s := Decimal(n);
      assert s[..|s| - 1] == Decimal(n / 10);
      ParseDecimalRoundTrip(n / 10);
    }
  }

  /** An id gives back the counter it was made from. */
  lemma SerialOfClientId(n: nat)
    ensures SerialOf(ClientId(n)) == n
  {
    var id := ClientId(n);
    assert id[..7] == "client_";
    assert id[7..] == Decimal(n);
    ParseDecimalRoundTrip(n);
  }

  /** Ids handed out for different counter values are different. */
  lemma ClientIdInjective(a: nat, b: nat)
    requires ClientId(a) == ClientId(b)
    ensures a == b
  {
    SerialOfClientId(a);
    SerialOfClientId(b);
  }
}
