/** The names of partitions: `<topic>-part-<i>` with i in decimal. */
module Names {

  function Digit(d: nat): char
    requires d < 10
  {
    "0123456789"[d]
  }

  function Decimal(n: nat): (s: string)
    ensures |s| >= 1
  {
    if n < 10 then [Digit(n)] else Decimal(n / 10) + [Digit(n % 10)]
  }

  function PartitionTopic(topic: string, i: nat): string {
    topic + "-part-" + Decimal(i)
  }

  function PartitionProducer(name: string, i: nat): string {
    name + "-" + Decimal(i)
  }

  /** The number that a string of digits stands for, read from left to right. */
  function Value(s: string): nat
    requires forall i :: 0 <= i < |s| ==> '0' <= s[i] <= '9'
  {
    if s == [] then 0 else 10 * Value(s[..|s| - 1]) + (s[|s| - 1] as int - '0' as int)
  }

  /** The usual decimal numeral of `n`: digits only, no leading zero, and worth `n`. */
  predicate IsNumeral(s: string, n: nat) {
    && |s| >= 1 && (forall i :: 0 <= i < |s| ==> '0' <= s[i] <= '9')
    && (s[0] == '0' ==> |s| == 1)
    && Value(s) == n
  }

  lemma {:induction false} DecimalIsNumeral(n: nat)
    ensures IsNumeral(Decimal(n), n) && (n > 0 ==> Decimal(n)[0] != '0')
    decreases n
  {
    var s := Decimal(n);
    DigitValue(n % 10);
    if n >= 10 {
      DecimalIsNumeral(n / 10);
      assert s[..|s| - 1] == Decimal(n / 10) && s[|s| - 1] == Digit(n % 10);
    } else {
      assert s[..|s| - 1] == [];
    }
  }

  lemma DigitValue(d: nat)
    requires d < 10
    ensures '0' <= Digit(d) <= '9' && Digit(d) as int - '0' as int == d
  {
  }

  lemma {:induction false} DecimalInjective(m: nat, n: nat)
    requires Decimal(m) == Decimal(n)
    ensures m == n
    decreases m
  {
    var s := Decimal(m);
    if m >= 10 && n >= 10 {
      assert s[..|s| - 1] == Decimal(m / 10);
      assert s[..|s| - 1] == Decimal(n / 10);
      DecimalInjective(m / 10, n / 10);
      assert s[|s| - 1] == Digit(m % 10) == Digit(n % 10);
    } else if m < 10 && n < 10 {
      assert s[0] == Digit(m) == Digit(n);
    }
  }

  /** Different partitions of a topic are different topics. */
  lemma PartitionTopicInjective(topic: string, i: nat, j: nat)
    requires PartitionTopic(topic, i) == PartitionTopic(topic, j)
    ensures i == j
  {
    var p := topic + "-part-";
    assert PartitionTopic(topic, i)[|p|..] == Decimal(i);
    assert PartitionTopic(topic, j)[|p|..] == Decimal(j);
    DecimalInjective(i, j);
  }
}
