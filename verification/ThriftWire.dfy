/** Integers on the wire of the Thrift binary protocol: big-endian two's complement. */
module ThriftWire {
  import opened Arithmetic
  import opened RpcTypes

  function Pow256(n: nat): (p: nat)
    ensures p > 0
  {
    if n == 0 then 1 else 256 * Pow256(n - 1)
  }

  ghost predicate InWidth(n: nat, i: int) {
    0 - Pow256(n) <= 2 * i < Pow256(n)
  }

  lemma Widths()
    ensures Pow256(1) == 0x100 && Pow256(2) == 0x1_0000 && Pow256(4) == 0x1_0000_0000
    ensures Pow256(8) == 0x1_0000_0000_0000_0000
  {
    assert Pow256(3) == 0x100_0000 && Pow256(5) == 0x100_0000_0000;
    assert Pow256(6) == 0x1_0000_0000_0000 && Pow256(7) == 0x100_0000_0000_0000;
  }

  function EncNat(n: nat, u: nat): (s: bytes)
    requires u < Pow256(n)
    ensures |s| == n
  {
    if n == 0 then [] else EncNat(n - 1, u / 256) + [u % 256]
  }

  function DecNat(s: bytes): (u: nat)
    ensures u < Pow256(|s|)
    decreases |s|
  {
    if s == [] then 0 else DecNat(s[..|s| - 1]) * 256 + s[|s| - 1]
  }

  lemma {:induction false} DecEncNat(n: nat, u: nat)
    requires u < Pow256(n)
    ensures DecNat(EncNat(n, u)) == u
  {
    if n > 0 {
      var s := EncNat(n, u);
      assert s[..|s| - 1] == EncNat(n - 1, u / 256);
      DecEncNat(n - 1, u / 256);
    }
  }

  /** Big-endian: the k-th byte from the end is the digit of weight 256 to the k. */
  lemma {:induction false} BigEndian(n: nat, u: nat, k: nat)
    requires u < Pow256(n) && k < n
    ensures EncNat(n, u)[n - 1 - k] as int == u / Pow256(k) % 256
  {
    if k > 0 {
      BigEndian(n - 1, u / 256, k - 1);
      assert EncNat(n, u)[n - 1 - k] == EncNat(n - 1, u / 256)[n - 2 - (k - 1)];
      DivideTwice(u, Pow256(k - 1));
    }
  }

  lemma DivideTwice(u: nat, p: nat)
    requires p > 0
    ensures u / 256 / p == u / (256 * p)
  {
    var q, r := u / 256, u % 256;
    var a, b := q / p, q % p;
    assert u == 256 * (p * a + b) + r;
    assert 256 * (p * a) == 256 * p * a;
    QuotientAndRemainder(u, 256 * p, a, 256 * b + r);
  }

  function EncInt(n: nat, i: int): (s: bytes)
    requires InWidth(n, i)
    ensures |s| == n
  {
    EncNat(n, if i < 0 then i + Pow256(n) else i)
  }

  function DecInt(s: bytes): (i: int)
    ensures InWidth(|s|, i)
  {
    var u := DecNat(s);
    if 2 * u >= Pow256(|s|) then u - Pow256(|s|) else u
  }

  /** The next `n` bytes as an integer, and what follows them. */
  function ReadInt(n: nat, s: bytes): (r: Option<(int, bytes)>)
    ensures r.Some? <==> |s| >= n
    ensures r.Some? ==> InWidth(n, r.value.0) && r.value.1 == s[n..]
  {
    if |s| < n then None else Some((DecInt(s[..n]), s[n..]))
  }

  lemma ReadEncInt(n: nat, i: int, rest: bytes)
    requires InWidth(n, i)
    ensures ReadInt(n, EncInt(n, i) + rest) == Some((i, rest))
  {
    var u := if i < 0 then i + Pow256(n) else i;
    var s := EncInt(n, i) + rest;
    assert s[..n] == EncNat(n, u) && s[n..] == rest;
    DecEncNat(n, u);
  }
}
