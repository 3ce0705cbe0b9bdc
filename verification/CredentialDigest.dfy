/** The bytes that `credential_identity` of src/utils/identity_bootstrap.py feeds to its
    hash: a fixed prefix, the domain, a NUL, and every value behind its length. */
module CredentialDigest {
  import opened Outcomes

  type Byte = x: int | 0 <= x < 256
  type Bytes = seq<Byte>

  const VERSION := "osmo-embedded-dex-credential-v1"
  const LENGTH_BYTES := 8

  predicate IsAscii(s: string) {
    forall i | 0 <= i < |s| :: s[i] as int < 128
  }

  predicate NulFree(s: string) {
    forall i | 0 <= i < |s| :: s[i] != '\0'
  }

  function Ascii(s: string): (b: Bytes)
    requires IsAscii(s)
    ensures |b| == |s|
  {
    seq(|s|, i requires 0 <= i < |s| => s[i] as int)
  }

  function Pow256(k: nat): nat {
    if k == 0 then 1 else 256 * Pow256(k - 1)
  }

  /** `int.to_bytes(k, byteorder='big')`. */
  function BigEndian(n: nat, k: nat): (b: Bytes)
    ensures |b| == k
  {
    if k == 0 then [] else BigEndian(n / 256, k - 1) + [n % 256]
  }

  function FromBigEndian(b: Bytes): nat {
    if b == [] then 0 else 256 * FromBigEndian(b[..|b| - 1]) + b[|b| - 1]
  }

  function Framed(value: Bytes): Bytes {
    BigEndian(|value|, LENGTH_BYTES) + value
  }

  function FramedAll(values: seq<Bytes>): Bytes {
    if values == [] then [] else Framed(values[0]) + FramedAll(values[1..])
  }

  function Header(): Bytes {
    Ascii(VERSION) + [0]
  }

  function Body(domain: string, values: seq<Bytes>): Bytes
    requires IsAscii(domain)
  {
    Ascii(domain) + [0] + FramedAll(values)
  }

  function Encoding(domain: string, values: seq<Bytes>): Bytes
    requires IsAscii(domain)
  {
    Header() + Body(domain, values)
  }

  lemma FramedAllAppends(values: seq<Bytes>, value: Bytes)
    ensures FramedAll(values + [value]) == FramedAll(values) + Framed(value)
  {
    if values == [] {
      assert values + [value] == [value];
    } else {
      assert (values + [value])[1..] == values[1..] + [value];
      FramedAllAppends(values[1..], value);
    }
  }

  /** Eight length bytes: 256^8 is 2^64. */
  predicate ShortValues(values: seq<Bytes>) {
    forall i | 0 <= i < |values| :: |values[i]| < Pow256(LENGTH_BYTES)
  }

  lemma FeedOne(start: Bytes, values: seq<Bytes>, i: nat)
    requires i < |values| && ShortValues(values[..i]) && |values[i]| < Pow256(LENGTH_BYTES)
    ensures start + FramedAll(values[..i]) + BigEndian(|values[i]|, LENGTH_BYTES) + values[i] == start + FramedAll(values[..i + 1])
    ensures ShortValues(values[..i + 1])
  {
    FramedAllAppends(values[..i], values[i]);
    assert values[..i + 1] == values[..i] + [values[i]];
  }

  /** The loop of `digest.update` calls over the values; a length that does not fit into
      eight bytes is refused. */
  method FeedValues(start: Bytes, values: seq<Bytes>) returns (digest: Attempt<Bytes>)
    ensures digest == if ShortValues(values) then Granted(start + FramedAll(values)) else Refused
  {
    var fed := start;
    assert FramedAll(values[..0]) == [];
    for i := 0 to |values|
      invariant ShortValues(values[..i]) && fed == start + FramedAll(values[..i])
    {
      if |values[i]| >= Pow256(LENGTH_BYTES) { return Refused; }
      FeedOne(start, values, i);
      fed := fed + BigEndian(|values[i]|, LENGTH_BYTES);
      fed := fed + values[i];
    }
    assert values[..|values|] == values;
    return Granted(fed);
  }

  /** All bytes fed to the hash; refused when the domain is not ASCII or a value too long. */
  method DigestInput(domain: string, values: seq<Bytes>) returns (fed: Attempt<Bytes>)
    ensures fed == if IsAscii(domain) && ShortValues(values) then Granted(Encoding(domain, values)) else Refused
  {
    if exists i :: 0 <= i < |domain| && domain[i] as int >= 128 {
      return Refused;
    }
    fed := FeedValues(Header() + (Ascii(domain) + [0]), values);
    if fed.Granted? {
      assert fed.value == Header() + Body(domain, values);
    }
  }

  // ---------- the decoder ----------

  function Chars(b: Bytes): (s: string)
    ensures |s| == |b|
  {
    seq(|b|, i requires 0 <= i < |b| => b[i] as char)
  }

  function FirstNul(b: Bytes): (n: nat)
    ensures n <= |b|
    ensures n < |b| ==> b[n] == 0
    ensures forall i | 0 <= i < n :: b[i] != 0
  {
    if b == [] || b[0] == 0 then 0 else 1 + FirstNul(b[1..])
  }

  function DecodeValues(b: Bytes): Option<seq<Bytes>> {
    if b == [] then Some([])
    else if |b| < LENGTH_BYTES then None
    else
      var n := FromBigEndian(b[..LENGTH_BYTES]);
      var rest := b[LENGTH_BYTES..];
      if |rest| < n then None
      else
        match DecodeValues(rest[n..])
        case None => None
        case Some(values) => Some([rest[..n]] + values)
  }

  function DecodeBody(body: Bytes): Option<(string, seq<Bytes>)> {
    var n := FirstNul(body);
    if n == |body| || exists i :: 0 <= i < n && body[i] >= 128 then None
    else
      match DecodeValues(body[n + 1..])
      case None => None
      case Some(values) => Some((Chars(body[..n]), values))
  }

  function Decode(b: Bytes): Option<(string, seq<Bytes>)> {
    var header := Header();
    if |b| < |header| || b[..|header|] != header then None
    else DecodeBody(b[|header|..])
  }

  // ---------- round trips ----------

  lemma {:induction false} BigEndianRoundTrip(n: nat, k: nat)
    requires n < Pow256(k)
    ensures FromBigEndian(BigEndian(n, k)) == n
  {
    if k > 0 {
      BigEndianRoundTrip(n / 256, k - 1);
      assert BigEndian(n, k)[..k - 1] == BigEndian(n / 256, k - 1);
    }
  }

  lemma {:induction false} FromBigEndianRoundTrip(b: Bytes)
    ensures FromBigEndian(b) < Pow256(|b|) && BigEndian(FromBigEndian(b), |b|) == b
  {
    if b != [] {
      var most, last := b[..|b| - 1], b[|b| - 1];
      FromBigEndianRoundTrip(most);
      var n := FromBigEndian(b);
      assert n / 256 == FromBigEndian(most) && n % 256 == last;
    }
  }

  lemma DecodeFramed(value: Bytes, more: Bytes)
    requires |value| < Pow256(LENGTH_BYTES)
    ensures
      DecodeValues(Framed(value) + more) ==
      match DecodeValues(more) case None => None case Some(values) => Some([value] + values)
  {
    var length := BigEndian(|value|, LENGTH_BYTES);
    var b := Framed(value) + more;
    BigEndianRoundTrip(|value|, LENGTH_BYTES);
    assert b[..LENGTH_BYTES] == length;
    var rest := b[LENGTH_BYTES..];
    assert rest == value + more;
    assert rest[..|value|] == value && rest[|value|..] == more;
  }

  lemma {:induction false} ValuesRoundTrip(values: seq<Bytes>)
    requires ShortValues(values)
    ensures DecodeValues(FramedAll(values)) == Some(values)
  {
    if values != [] {
      ValuesRoundTrip(values[1..]);
      DecodeFramed(values[0], FramedAll(values[1..]));
      assert [values[0]] + values[1..] == values;
    }
  }

  lemma FirstValueIsFramed(b: Bytes, n: nat)
    requires LENGTH_BYTES <= |b| && n == FromBigEndian(b[..LENGTH_BYTES]) && n <= |b| - LENGTH_BYTES
    ensures n < Pow256(LENGTH_BYTES)
    ensures b == Framed(b[LENGTH_BYTES..][..n]) + b[LENGTH_BYTES..][n..]
  {
    FromBigEndianRoundTrip(b[..LENGTH_BYTES]);
    var rest := b[LENGTH_BYTES..];
    assert rest == rest[..n] + rest[n..];
    assert b == b[..LENGTH_BYTES] + rest;
  }

  lemma {:induction false} DecodedValuesEncode(b: Bytes)
    requires DecodeValues(b).Some?
    ensures FramedAll(DecodeValues(b).value) == b && ShortValues(DecodeValues(b).value)
    decreases |b|
  {
    if b != [] {
      var n := FromBigEndian(b[..LENGTH_BYTES]);
      var rest := b[LENGTH_BYTES..];
      FirstValueIsFramed(b, n);
      DecodedValuesEncode(rest[n..]);
      var values := DecodeValues(b).value;
      assert values == [rest[..n]] + DecodeValues(rest[n..]).value;
      assert values[1..] == DecodeValues(rest[n..]).value;
    }
  }

  lemma FirstNulAfter(b: Bytes, tail: Bytes)
    requires forall i | 0 <= i < |b| :: b[i] != 0
    ensures FirstNul(b + [0] + tail) == |b|
  {
    var whole := b + [0] + tail;
    assert whole[|b|] == 0;
    forall i | 0 <= i < |b| ensures whole[i] != 0 { assert whole[i] == b[i]; }
    assert FirstNul(whole) <= |b|;
  }

  lemma BodyRoundTrip(domain: string, values: seq<Bytes>)
    requires IsAscii(domain) && NulFree(domain) && ShortValues(values)
    ensures DecodeBody(Body(domain, values)) == Some((domain, values))
  {
    var body := Body(domain, values);
    forall i | 0 <= i < |domain| ensures Ascii(domain)[i] != 0 { assert domain[i] != '\0'; }
    FirstNulAfter(Ascii(domain), FramedAll(values));
    assert body[..|domain|] == Ascii(domain) && body[|domain| + 1..] == FramedAll(values);
    ValuesRoundTrip(values);
    assert Chars(Ascii(domain)) == domain;
  }

  /** The bytes fed to the hash give back the domain and every value. */
  lemma EncodingRoundTrip(domain: string, values: seq<Bytes>)
    requires IsAscii(domain) && NulFree(domain) && ShortValues(values)
    ensures Decode(Encoding(domain, values)) == Some((domain, values))
  {
    var b, header, body := Encoding(domain, values), Header(), Body(domain, values);
    assert b[..|header|] == header && b[|header|..] == body;
    BodyRoundTrip(domain, values);
  }

  lemma CharsRoundTrip(b: Bytes)
    requires forall i | 0 <= i < |b| :: 0 < b[i] < 128
    ensures IsAscii(Chars(b)) && NulFree(Chars(b)) && Ascii(Chars(b)) == b
  {
    forall i | 0 <= i < |b|
      ensures Chars(b)[i] as int == b[i] && Chars(b)[i] != '\0'
    {
    }
  }

  lemma NameThenRest(body: Bytes, n: nat)
    requires n < |body| && body[n] == 0
    ensures body == body[..n] + [0] + body[n + 1..]
  {
  }

  lemma DecodedBodyIsBody(body: Bytes)
    requires DecodeBody(body).Some?
    ensures
      var (domain, values) := DecodeBody(body).value;
      IsAscii(domain) && NulFree(domain) && ShortValues(values) && Body(domain, values) == body
  {
    var n := FirstNul(body);
    var name, rest := body[..n], body[n + 1..];
    var values := DecodeValues(rest).value;
    forall i | 0 <= i < |name| ensures 0 < name[i] < 128 { assert name[i] == body[i]; }
    CharsRoundTrip(name);
    DecodedValuesEncode(rest);
    NameThenRest(body, n);
    assert DecodeBody(body).value == (Chars(name), values);
    assert Body(Chars(name), values) == name + [0] + rest;
  }

  /** Conversely, whatever decodes is the encoding of what it decodes to. */
  lemma DecodedIsEncoding(b: Bytes)
    requires Decode(b).Some?
    ensures
      var (domain, values) := Decode(b).value;
      IsAscii(domain) && NulFree(domain) && ShortValues(values) && Encoding(domain, values) == b
  {
    var header := Header();
    DecodedBodyIsBody(b[|header|..]);
    assert b == header + b[|header|..];
  }

  /** Two inputs are hashed alike only if they are the same input. */
  lemma EncodingIsInjective(d1: string, v1: seq<Bytes>, d2: string, v2: seq<Bytes>)
    requires IsAscii(d1) && NulFree(d1) && ShortValues(v1)
    requires IsAscii(d2) && NulFree(d2) && ShortValues(v2)
    ensures Encoding(d1, v1) == Encoding(d2, v2) <==> d1 == d2 && v1 == v2
  {
    EncodingRoundTrip(d1, v1);
    EncodingRoundTrip(d2, v2);
  }

  /** The domain must be free of NULs: eight of them read as the length of an empty value. */
  lemma NulsInDomainCollide()
    ensures Encoding("\0\0\0\0\0\0\0\0", []) == Encoding("", [[]])
  {
    assert Framed([]) == [0, 0, 0, 0, 0, 0, 0, 0] by {
      assert BigEndian(0, 8) == BigEndian(0, 7) + [0];
      assert BigEndian(0, 7) == BigEndian(0, 6) + [0];
      assert BigEndian(0, 6) == BigEndian(0, 5) + [0];
      assert BigEndian(0, 5) == BigEndian(0, 4) + [0];
      assert BigEndian(0, 4) == BigEndian(0, 3) + [0];
      assert BigEndian(0, 3) == [0, 0, 0];
    }
    assert FramedAll([[]]) == Framed([]);
    assert Ascii("\0\0\0\0\0\0\0\0") == [0, 0, 0, 0, 0, 0, 0, 0];
    assert Ascii("") == [];
  }
}
