/** Decimal numerals name one number each, and iteration ids name one schedule and one slot each. */
module Names {
  import opened Queues

  lemma {:induction false} DigitsInjective(m: nat, n: nat)
    requires Digits(m) == Digits(n)
    ensures m == n
  {
    var s := Digits(m);
    if m < 10 && n < 10 {
      assert s[0] == Digit(m) == Digit(n);
    } else if m >= 10 && n >= 10 {
      var k := |s| - 1;
      assert s[k] == Digit(m % 10) == Digit(n % 10);
      assert Digits(m / 10) == s[..k] == Digits(n / 10);
      DigitsInjective(m / 10, n / 10);
    }
  }

  lemma DecimalShape(n: int)
    ensures Decimal(n) != "" && ':' !in Decimal(n)
    ensures n >= 0 ==> '0' <= Decimal(n)[0] <= '9'
  {
    if n >= 0 {
      assert Decimal(n)[0] in Decimal(n);
    }
  }

  lemma DecimalInjective(m: int, n: int)
    requires Decimal(m) == Decimal(n)
    ensures m == n
  {
    DecimalShape(m);
    DecimalShape(n);
    if m < 0 && n < 0 {
      assert Digits(-m) == Decimal(m)[1..] == Decimal(n)[1..] == Digits(-n);
      DigitsInjective(-m, -n);
    } else if m >= 0 && n >= 0 {
      DigitsInjective(m, n);
    }
  }

  /** Text behind the last colon is unique. */
  lemma LastColon(a: string, b: string, c: string, d: string)
    requires a + ":" + b == c + ":" + d && ':' !in b && ':' !in d
    ensures a == c && b == d
  {
    var s := a + ":" + b;
    assert |s| == |a| + 1 + |b| == |c| + 1 + |d|;
    assert s[|a|] == ':' && s[|c|] == ':';
    assert |a| == |c|;
    assert a == s[..|a|] == c;
    assert b == s[|a| + 1..] == d;
  }

  lemma SlotIdInjective(sid: SchedulerId, m: int, sid': SchedulerId, n: int)
    requires SlotId(sid, m) == SlotId(sid', n)
    ensures sid == sid' && m == n
  {
    DecimalShape(m);
    DecimalShape(n);
    LastColon("repeat:" + sid, Decimal(m), "repeat:" + sid', Decimal(n));
    assert ("repeat:" + sid)[7..] == sid && ("repeat:" + sid')[7..] == sid';
    DecimalInjective(m, n);
  }
}
