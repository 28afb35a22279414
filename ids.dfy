/** Identifier generation (IdUtil.cpp). The clock reading and the process-wide
    sequence counter are inputs, so that a model run is a function of them. */
module Ids {
  import opened Json

  /** What the id generator consumes: the wall clock in milliseconds and the
      next value of the shared sequence counter. */
  datatype IdClock = IdClock(nowMs: Int64, counter: nat)

  function DigitChar(d: nat): char
    requires d < 10
  {
    "0123456789"[d]
  }

  function NatToDecimal(n: nat): (s: string)
    ensures |s| > 0
    decreases n
  {
    if n < 10 then [DigitChar(n)] else NatToDecimal(n / 10) + [DigitChar(n % 10)]
  }

  function IntToDecimal(n: int): (s: string)
    ensures |s| > 0
  {
    if n < 0 then "-" + NatToDecimal(-n) else NatToDecimal(n)
  }

  /** "<prefix>-<now>-<seq>": never empty, and always led by the prefix and a
      dash. */
  function GenerateId(prefix: string, nowMs: Int64, counter: nat): (id: string)
    ensures |id| > |prefix| + 1 && id[..|prefix| + 1] == prefix + "-"
  {
    prefix + "-" + IntToDecimal(nowMs) + "-" + NatToDecimal(counter)
  }

  /** Different numbers have different decimal spellings. */
  lemma {:induction false} DecimalInjective(a: nat, b: nat)
    ensures NatToDecimal(a) == NatToDecimal(b) ==> a == b
    decreases a
  {
    var sa, sb := NatToDecimal(a), NatToDecimal(b);
    if sa == sb {
      if a >= 10 && b >= 10 {
        assert sa[..|sa| - 1] == NatToDecimal(a / 10);
        assert sb[..|sb| - 1] == NatToDecimal(b / 10);
        DecimalInjective(a / 10, b / 10);
        assert DigitChar(a % 10) == sa[|sa| - 1] == DigitChar(b % 10);
      } else if a < 10 && b < 10 {
        assert DigitChar(a) == DigitChar(b);
      }
    }
  }

  /** Within one millisecond, two draws of the sequence counter give two
      different ids. */
  lemma GenerateIdFresh(prefix: string, nowMs: Int64, c1: nat, c2: nat)
    requires c1 != c2
    ensures GenerateId(prefix, nowMs, c1) != GenerateId(prefix, nowMs, c2)
  {
    var head := prefix + "-" + IntToDecimal(nowMs) + "-";
    assert GenerateId(prefix, nowMs, c1) == head + NatToDecimal(c1);
    assert GenerateId(prefix, nowMs, c2) == head + NatToDecimal(c2);
    if head + NatToDecimal(c1) == head + NatToDecimal(c2) {
      assert NatToDecimal(c1) == (head + NatToDecimal(c1))[|head|..];
      assert NatToDecimal(c2) == (head + NatToDecimal(c2))[|head|..];
      DecimalInjective(c1, c2);
    }
  }
}
