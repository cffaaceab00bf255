/** Shared vocabulary of the model: optional values, Go byte strings and
    the decimal text that `%d` produces. */
module Base {

  datatype Option<T> = None | Some(value: T)

  datatype Result<T, E> = Ok(value: T) | Err(error: E)

  /** A Go byte. Go strings and `[]byte` values are both sequences of bytes,
      so the model uses `Bytes` for both, and `[]byte(s)` is the identity. */
  type Byte = b: int | 0 <= b < 256

  type Bytes = seq<Byte>

  /** The bytes of an ASCII literal written in the source. */
  function Ascii(s: string): (r: Bytes)
    ensures |r| == |s|
    ensures forall i :: 0 <= i < |s| ==> r[i] == (s[i] as int) % 256
  {
    seq(|s|, i requires 0 <= i < |s| => (s[i] as int) % 256)
  }

  const Newline: Bytes := [10]
  const Slash: Byte := 47
  const Minus: Byte := 45

  /** The loop the source uses to add a line break: it appends the bytes
      of `br` to `data` one at a time. */
  method AppendEach(data: Bytes, br: Bytes) returns (r: Bytes)
    ensures r == data + br
  {
    r := data;
    var i := 0;
    while i < |br|
      invariant 0 <= i <= |br|
      invariant r == data + br[..i]
    {
      r := r + [br[i]];
      i := i + 1;
    }
    assert br[..|br|] == br;
  }

  /** `k` line breaks. */
  function Newlines(k: nat): (r: Bytes)
    ensures |r| == k
  {
    seq(k, _ => 10)
  }

  lemma NewlinesSucc(k: nat)
    ensures Newlines(k) + Newline == Newlines(k + 1)
    ensures Newline + Newlines(k) == Newlines(k + 1)
  {
    assert (Newlines(k) + Newline)[k] == 10;
    assert (Newline + Newlines(k))[0] == 10;
  }

  predicate IsDigit(b: Byte) {
    48 <= b <= 57
  }

  predicate AllDigits(s: Bytes) {
    forall i :: 0 <= i < |s| ==> IsDigit(s[i])
  }

  /** The decimal digits of `n`, most significant first, without leading zeros. */
  function Digits(n: nat): (r: Bytes)
    ensures 1 <= |r| && AllDigits(r)
    ensures r[0] == 48 ==> n == 0
    decreases n
  {
    if n < 10 then [48 + n] else Digits(n / 10) + [48 + n % 10]
  }

  /** The number a string of decimal digits denotes. */
  function DigitsValue(s: Bytes): nat
    requires AllDigits(s)
  {
    if s == [] then 0 else 10 * DigitsValue(s[..|s| - 1]) + (s[|s| - 1] - 48)
  }

  lemma {:induction false} DigitsRoundTrip(n: nat)
    ensures DigitsValue(Digits(n)) == n
    decreases n
  {
    if n >= 10 {
      DigitsRoundTrip(n / 10);
      var d := Digits(n / 10) + [48 + n % 10];
      assert d[..|d| - 1] == Digits(n / 10);
    }
  }

  /** The text `fmt.Sprintf("%d", n)` produces for an int. */
  function Decimal(n: int): Bytes {
    if n < 0 then [Minus] + Digits(-n) else Digits(n)
  }

  /** Reads back the text of `Decimal`: an optional minus sign followed by
      at least one digit. */
  function ParseDecimal(s: Bytes): Option<int> {
    if |s| >= 2 && s[0] == Minus && AllDigits(s[1..]) then Some(-(DigitsValue(s[1..]) as int))
    else if |s| >= 1 && AllDigits(s) then Some(DigitsValue(s))
    else None
  }

  lemma DecimalRoundTrip(n: int)
    ensures ParseDecimal(Decimal(n)) == Some(n)
    ensures 1 <= |Decimal(n)|
  {
    if n < 0 {
      DigitsRoundTrip(-n);
      assert Decimal(n)[1..] == Digits(-n);
    } else {
      DigitsRoundTrip(n);
      assert !IsDigit(Minus);
    }
  }
}
