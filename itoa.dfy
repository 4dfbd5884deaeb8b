/** The cheap integer-to-decimal writer behind every number the formatter
    prints (log.go, itoa). */
module Itoa {
  import opened Numbers

  /** The bytes itoa appends for `i` and width `wid`, in the shape of its
      loop: one digit per round while `i >= 10 || wid > 1`, then the last
      digit converted with Go's wrapping byte conversion. A negative `i`
      is only meaningful with `wid <= 1`, where the loop does not run. */
  function IntText(i: int, wid: int): (r: string)
    requires i >= 0 || wid <= 1
    decreases (if i > 0 then i else 0) + (if wid > 0 then wid else 0)
  {
    if i >= 10 || wid > 1 then IntText(i / 10, wid - 1) + [Digit(i % 10)]
    else [((48 + i) % 256) as char]
  }

  /** For i >= 0, itoa writes the canonical numeral of i, left-padded with
      zeros to `wid` characters when it is shorter, and never truncated. */
  lemma {:induction false} IntTextIsPaddedDigits(i: nat, wid: int)
    ensures IntText(i, wid) == Zeros(wid - |Digits(i)|) + Digits(i)
    decreases i + (if wid > 0 then wid else 0)
  {
    if i >= 10 {
      IntTextIsPaddedDigits(i / 10, wid - 1);
      assert Digits(i) == Digits(i / 10) + [Digit(i % 10)];
    } else if wid > 1 {
      IntTextIsPaddedDigits(0, wid - 1);
      assert Zeros(wid - 2) + "0" == Zeros(wid - 1);
    }
  }

  /** What itoa promises for a non-negative number: decimal digits whose value
      is `i`, at least `wid` of them, padding only with zeros, and no padding at
      all when `wid <= 1`. */
  lemma IntTextMeaning(i: nat, wid: int)
    ensures AllDigits(IntText(i, wid))
    ensures DecimalValue(IntText(i, wid)) == i
    ensures |IntText(i, wid)| == if wid > |Digits(i)| then wid else |Digits(i)|
    ensures wid <= 1 ==> IntText(i, wid) == Digits(i)
  {
    IntTextIsPaddedDigits(i, wid);
    PaddedValue(wid - |Digits(i)|, Digits(i));
    DigitsValue(i);
    if wid <= 1 {
      assert Zeros(wid - |Digits(i)|) == [];
    }
  }

  /** A number below 10^w printed with width w takes exactly w characters. */
  lemma IntTextFixedWidth(i: nat, w: nat)
    requires 1 <= w && i < Pow10(w)
    ensures |IntText(i, w)| == w
    ensures AllDigits(IntText(i, w)) && DecimalValue(IntText(i, w)) == i
  {
    DigitsLength(i, w);
    IntTextMeaning(i, w);
  }

  lemma LastDigit(n: nat)
    ensures n - (n / 10) * 10 == n % 10
  {
  }

  /** itoa's output fits its 20-byte scratch array. */
  lemma IntTextFits(i: Int64, wid: int)
    requires i >= 0 || wid <= 1
    requires wid <= 20
    ensures 1 <= |IntText(i, wid)| <= 20
  {
    if i >= 0 {
      Pow10Nineteen();
      DigitsLength(i, 19);
      IntTextMeaning(i, wid);
    }
  }

  /** One round of itoa's loop peels off the last character. */
  lemma IntTextStep(n: int, w: int)
    requires n >= 10 || w > 1
    requires n >= 0
    ensures IntText(n, w) == IntText(n / 10, w - 1) + [('0' as int + n - (n / 10) * 10) as char]
    ensures |IntText(n / 10, w - 1)| == |IntText(n, w)| - 1
  {
    LastDigit(n);
  }

  /** itoa: fills a 20-byte scratch array from the right and appends the
      used part to `buf`. */
  method Itoa(buf: string, i: Int64, wid: int) returns (r: string)
    requires i >= 0 || wid <= 1
    requires wid <= 20
    ensures r == buf + IntText(i, wid)
  {
    IntTextFits(i, wid);
    var b := new char[20];
    var bp := 19;
    var n, w := i as int, wid;
    while n >= 10 || w > 1
      invariant n >= 0 || w <= 1
      invariant 1 <= |IntText(n, w)| <= bp + 1 <= 20
      invariant IntText(i, wid) == IntText(n, w) + b[bp + 1..]
      decreases (if n > 0 then n else 0) + (if w > 0 then w else 0)
    {
      ghost var done := b[bp + 1..];
      var q := n / 10;
      b[bp] := ('0' as int + n - q * 10) as char;
      assert IntText(i, wid) == IntText(q, w - 1) + b[bp..] && 1 <= |IntText(q, w - 1)| <= bp by {
        IntTextStep(n, w);
        assert b[bp..] == [b[bp]] + done;
      }
      w := w - 1;
      bp := bp - 1;
      n := q;
    }
    // i < 10
    ghost var done := b[bp + 1..];
    b[bp] := ((48 + n) % 256) as char;
    assert b[bp..] == IntText(n, w) + done;
    r := buf + b[bp..];
  }
}
