/** The bytes of `credential_identity` of src/utils/identity_bootstrap.py, one by one. */
module DigestBytes {
  import opened CredentialDigest

  function FourBytes(b: Bytes): int
    requires |b| == 4
  {
    0x100_0000 * (b[0] as int) + 0x1_0000 * (b[1] as int) + 0x100 * (b[2] as int) + (b[3] as int)
  }

  /** Eight bytes read from the most significant on. */
  function EightBytes(b: Bytes): int
    requires |b| == 8
  {
    0x1_0000_0000 * FourBytes(b[..4]) + FourBytes(b[4..])
  }

  function FourOf(n: nat): (b: Bytes)
    ensures |b| == 4
  {
    [n / 256 / 256 / 256 % 256, n / 256 / 256 % 256, n / 256 % 256, n % 256]
  }

  lemma FourOfIsRead(n: nat)
    ensures n == 0x1_0000_0000 * (n / 256 / 256 / 256 / 256) + FourBytes(FourOf(n)) && FourBytes(FourOf(n)) >= 0
  {
    var a := n / 256;
    var b := a / 256;
    var c := b / 256;
    assert n == 256 * a + n % 256 && a == 256 * b + a % 256 && b == 256 * c + b % 256 && c == 256 * (c / 256) + c % 256;
  }

  lemma FourMore(n: nat, k: nat)
    ensures BigEndian(n, k + 4) == BigEndian(n / 256 / 256 / 256 / 256, k) + FourOf(n)
  {
    var a := n / 256;
    var b := a / 256;
    var c := b / 256;
    assert BigEndian(c, k + 1) == BigEndian(c / 256, k) + [c % 256];
    assert BigEndian(b, k + 2) == BigEndian(c / 256, k) + [c % 256, b % 256];
    assert BigEndian(a, k + 3) == BigEndian(c / 256, k) + [c % 256, b % 256, a % 256];
  }

  lemma EightDigits(n: nat)
    requires n < 0x1_0000_0000_0000_0000
    ensures EightBytes(BigEndian(n, 8)) == n
  {
    var m := n / 256 / 256 / 256 / 256;
    FourMore(n, 4);
    FourMore(m, 0);
    assert BigEndian(m, 4) == [] + FourOf(m);
    assert BigEndian(n, 8)[..4] == FourOf(m) && BigEndian(n, 8)[4..] == FourOf(n);
    FourOfIsRead(n);
    FourOfIsRead(m);
    assert m / 256 / 256 / 256 / 256 == 0;
  }

  /** The length of each value, of less than 2^64 bytes, is in front of it, with the most
      significant byte first. */
  lemma LengthComesFirst(value: Bytes)
    requires |value| < 0x1_0000_0000_0000_0000
    ensures |Framed(value)| == 8 + |value| && EightBytes(Framed(value)[..8]) == |value| && Framed(value)[8..] == value
  {
    EightDigits(|value|);
    assert Framed(value)[..8] == BigEndian(|value|, 8);
  }

  lemma LengthsThatFit(values: seq<Bytes>)
    ensures ShortValues(values) <==> forall i | 0 <= i < |values| :: |values[i]| < 0x1_0000_0000_0000_0000
  {
    assert Pow256(4) == 0x1_0000_0000;
    assert Pow256(8) == 256 * (256 * (256 * (256 * Pow256(4))));
  }

  ghost predicate AreChars(b: Bytes, s: string) {
    |b| == |s| && forall i | 0 <= i < |s| :: b[i] == s[i] as int
  }

  lemma TwoNames(v: Bytes, d: Bytes, rest: Bytes)
    ensures
      var e, k := v + [0] + (d + [0] + rest), |v| + 1 + |d|;
      && |e| > k && e[..|v|] == v && e[|v|] == 0 && e[|v| + 1..k] == d && e[k] == 0 && e[k + 1..] == rest
  {
  }

  /** What surrounds the values: the version, a NUL, the domain and a NUL. */
  lemma EncodingStarts(domain: string, values: seq<Bytes>)
    requires IsAscii(domain)
    ensures
      var n, e := |domain|, Encoding(domain, values);
      && |e| >= 33 + n && AreChars(e[..31], "osmo-embedded-dex-credential-v1") && e[31] == 0
      && AreChars(e[32..32 + n], domain) && e[32 + n] == 0 && e[33 + n..] == FramedAll(values)
  {
    assert |VERSION| == 31;
    TwoNames(Ascii(VERSION), Ascii(domain), FramedAll(values));
  }
}
