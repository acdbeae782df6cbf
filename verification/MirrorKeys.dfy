/**
 The mids under which an endpoint holds the tracks of its peers: "{endpoint}-{mid}" (src/session/mod.rs,
 src/handlers/gateway.rs).
 */
module MirrorKeys {
  import opened Types

  function Digit(n: nat): char
    requires n < 10
  {
    ('0' as int + n) as char
  }

  function Decimal(n: nat): (s: string)
    ensures s != []
    ensures forall k :: 0 <= k < |s| ==> '0' <= s[k] <= '9'
  {
    if n < 10 then [Digit(n)] else Decimal(n / 10) + [Digit(n % 10)]
  }

  lemma {:induction false} DecimalInjective(a: nat, b: nat)
    requires Decimal(a) == Decimal(b)
    ensures a == b
  {
    var s, t := Decimal(a), Decimal(b);
    assert s[|s| - 1] == Digit(a % 10) && t[|t| - 1] == Digit(b % 10);
    assert Digit(a % 10) as int == '0' as int + a % 10;
    assert Digit(b % 10) as int == '0' as int + b % 10;
    assert a % 10 == b % 10;
    assert (a >= 10 <==> |s| >= 2) && (b >= 10 <==> |t| >= 2);
    if a >= 10 {
      assert s[..|s| - 1] == Decimal(a / 10) && t[..|t| - 1] == Decimal(b / 10);
      DecimalInjective(a / 10, b / 10);
    }
  }

  function MirrorKey(endpoint: EndpointId, mid: Mid): Mid { Decimal(endpoint) + "-" + mid }

  /** A mirror key determines both the endpoint and the mid it was made of, whatever the mid looks like. */
  lemma MirrorKeyInjective(a: EndpointId, m: Mid, b: EndpointId, n: Mid)
    requires MirrorKey(a, m) == MirrorKey(b, n)
    ensures a == b && m == n
  {
    var key, p, q := MirrorKey(a, m), |Decimal(a)|, |Decimal(b)|;
    assert key[p] == '-' && key[q] == '-';
    assert key[..p] == Decimal(a) && key[..q] == Decimal(b);
    assert p == q by {
      assert forall k :: 0 <= k < p ==> key[k] == Decimal(a)[k];
      assert forall k :: 0 <= k < q ==> key[k] == Decimal(b)[k];
    }
    DecimalInjective(a, b);
    assert key[p + 1..] == m && key[q + 1..] == n;
  }

  /** A mid that no mirror key can be mistaken for. */
  ghost predicate ClientMid(mid: Mid) {
    forall endpoint, m :: mid != MirrorKey(endpoint, m)
  }

  /** It is enough that a mid contains no dash. */
  lemma DashFreeIsClientMid(mid: Mid)
    requires '-' !in mid
    ensures ClientMid(mid)
  {
  }
}
