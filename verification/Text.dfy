/** Sequences, and string operations of Python, that several components use. */
module Text {

  lemma Regroup<T>(done: seq<T>, own: seq<T>, rest: seq<T>)
    ensures (done + own) + rest == done + (own + rest)
  {
  }

  // ---------- split and join ----------

  /** `s.split(sep)` for a single character. */
  function Split(s: string, sep: char): (parts: seq<string>)
    ensures parts != []
  {
    if s == [] then [[]]
    else
      var rest := Split(s[1..], sep);
      if s[0] == sep then [[]] + rest else [[s[0]] + rest[0]] + rest[1..]
  }

  /** `sep.join(parts)`. */
  function Join(parts: seq<string>, sep: char): string {
    if parts == [] then []
    else if |parts| == 1 then parts[0]
    else parts[0] + [sep] + Join(parts[1..], sep)
  }

  lemma {:induction false} JoinAfterSplit(s: string, sep: char)
    ensures Join(Split(s, sep), sep) == s
  {
    if s != [] {
      var rest := Split(s[1..], sep);
      JoinAfterSplit(s[1..], sep);
      if s[0] == sep {
        assert Split(s, sep)[1..] == rest;
      } else {
        assert Split(s, sep)[1..] == rest[1..];
      }
    }
  }

  predicate Free(parts: seq<string>, sep: char) {
    forall i | 0 <= i < |parts| :: sep !in parts[i]
  }

  lemma {:induction false} SplitAfterJoin(parts: seq<string>, sep: char)
    requires parts != [] && Free(parts, sep)
    ensures Split(Join(parts, sep), sep) == parts
    decreases |parts|, |parts[0]|
  {
    var joined := Join(parts, sep);
    if |parts[0]| > 0 {
      var shorter := parts[0 := parts[0][1..]];
      assert parts[0][0] in parts[0];
      SplitAfterJoin(shorter, sep);
      assert shorter[1..] == parts[1..];
      assert joined[1..] == Join(shorter, sep) && joined[0] == parts[0][0];
      assert [parts[0][0]] + shorter[0] == parts[0];
      assert parts == [parts[0]] + shorter[1..];
    } else if |parts| > 1 {
      SplitAfterJoin(parts[1..], sep);
      assert joined[1..] == Join(parts[1..], sep);
      assert parts == [[]] + parts[1..];
    } else {
      assert parts == [[]];
    }
  }

  // ---------- decimal numbers ----------

  function Digit(d: nat): (c: char)
    requires d < 10
    ensures '0' <= c <= '9' && c as int - '0' as int == d
  {
    ('0' as int + d) as char
  }

  /** `str(n)`. */
  function Decimal(n: nat): (s: string)
    ensures s != []
  {
    if n < 10 then [Digit(n)] else Decimal(n / 10) + [Digit(n % 10)]
  }

  predicate AllDigits(s: string) {
    forall i | 0 <= i < |s| :: '0' <= s[i] <= '9'
  }

  /** `s.isdigit()`, for ASCII text. */
  predicate IsDigits(s: string) {
    s != [] && AllDigits(s)
  }

  /** `int(s)`. */
  function Number(s: string): nat
    requires AllDigits(s)
  {
    if s == [] then 0 else 10 * Number(s[..|s| - 1]) + (s[|s| - 1] as int - '0' as int)
  }

  lemma {:induction false} DecimalRoundTrip(n: nat)
    ensures IsDigits(Decimal(n)) && Number(Decimal(n)) == n
  {
    if n >= 10 {
      DecimalRoundTrip(n / 10);
      assert Decimal(n)[..|Decimal(n)| - 1] == Decimal(n / 10);
    } else {
      assert Decimal(n)[..0] == [];
    }
  }
}
