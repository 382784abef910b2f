/** The statistics strip: each stat's value such as "100+" is split into
    the number the counter animates to (its digits read as one decimal
    number) and the suffix shown after it (everything else). */
module Stats {
  import opened Wrappers
  import opened Text
  import opened PageModel

  /** `value.replace(/[^0-9]/g, "")`: the digits, in order. */
  function Digits(s: string): (r: string)
    ensures AllDigits(r) && |r| <= |s|
  {
    if s == [] then []
    else if IsDigit(s[0]) then [s[0]] + Digits(s[1..])
    else Digits(s[1..])
  }

  /** `value.replace(/[0-9]/g, "")`: everything but the digits, in order. */
  function Suffix(s: string): (r: string)
    ensures forall k :: 0 <= k < |r| ==> !IsDigit(r[k])
    ensures |r| <= |s|
  {
    if s == [] then []
    else if IsDigit(s[0]) then Suffix(s[1..])
    else [s[0]] + Suffix(s[1..])
  }

  function DigitValue(c: char): (d: nat)
    requires IsDigit(c)
    ensures d < 10
  {
    (c as int - '0' as int) as nat
  }

  /** The decimal number a digit string denotes, most significant digit
      first. */
  function DecimalValue(ds: string): nat
    requires AllDigits(ds)
  {
    if ds == [] then 0
    else DecimalValue(ds[..|ds| - 1]) * 10 + DigitValue(ds[|ds| - 1])
  }

  /** `parseInt(digits) || 0`: no digits (parseInt gives NaN) is 0. */
  function NumericValue(s: string): nat {
    var ds := Digits(s);
    if ds == [] then 0 else DecimalValue(ds)
  }

  // ---- Properties -------------------------------------------------------

  /** The digits and the suffix partition the value's characters. */
  lemma {:induction false} DigitsAndSuffixPartition(s: string)
    ensures |Digits(s)| + |Suffix(s)| == |s|
    ensures multiset(Digits(s)) + multiset(Suffix(s)) == multiset(s)
  {
    if s != [] {
      DigitsAndSuffixPartition(s[1..]);
      assert s == [s[0]] + s[1..];
    }
  }

  lemma {:induction false} DigitsConcat(a: string, b: string)
    ensures Digits(a + b) == Digits(a) + Digits(b)
    ensures Suffix(a + b) == Suffix(a) + Suffix(b)
  {
    if a != [] {
      DigitsConcat(a[1..], b);
      assert (a + b)[1..] == a[1..] + b;
    } else {
      assert a + b == b;
    }
  }

  lemma {:induction false} DigitsOfDigits(s: string)
    requires AllDigits(s)
    ensures Digits(s) == s && Suffix(s) == []
  {
    if s != [] {
      DigitsOfDigits(s[1..]);
    }
  }

  lemma {:induction false} SuffixOfNonDigits(s: string)
    requires forall k :: 0 <= k < |s| ==> !IsDigit(s[k])
    ensures Digits(s) == [] && Suffix(s) == s
  {
    if s != [] {
      SuffixOfNonDigits(s[1..]);
    }
  }

  function DigitChar(d: nat): (c: char)
    requires d < 10
    ensures IsDigit(c) && DigitValue(c) == d
  {
    ('0' as int + d) as char
  }

  /** The decimal digits of `n`, without leading zeros. */
  function ShowNat(n: nat): (r: string)
    ensures AllDigits(r) && r != []
  {
    if n < 10 then [DigitChar(n)] else ShowNat(n / 10) + [DigitChar(n % 10)]
  }

  lemma {:induction false} ShowNatValue(n: nat)
    ensures DecimalValue(ShowNat(n)) == n
  {
    if n >= 10 {
      ShowNatValue(n / 10);
      var r := ShowNat(n);
      assert r[..|r| - 1] == ShowNat(n / 10);
    }
  }

  /** A number written in decimal and followed by a digit-free suffix reads
      back as that number and that suffix. */
  lemma ParseShown(n: nat, suffix: string)
    requires forall k :: 0 <= k < |suffix| ==> !IsDigit(suffix[k])
    ensures NumericValue(ShowNat(n) + suffix) == n
    ensures Suffix(ShowNat(n) + suffix) == suffix
  {
    DigitsConcat(ShowNat(n), suffix);
    DigitsOfDigits(ShowNat(n));
    SuffixOfNonDigits(suffix);
    ShowNatValue(n);
    assert ShowNat(n) + [] == ShowNat(n);
    assert [] + suffix == suffix;
  }

  lemma Example()
    ensures NumericValue("100+") == 100 && Suffix("100+") == "+"
  {
    assert ShowNat(10) == "10";
    assert ShowNat(100) == "100";
    assert ShowNat(100) + "+" == "100+";
    ParseShown(100, "+");
  }

  /** A value without digits counts to 0 and shows whole as the suffix. */
  lemma NoDigits(s: string)
    requires forall k :: 0 <= k < |s| ==> !IsDigit(s[k])
    ensures NumericValue(s) == 0 && Suffix(s) == s
  {
    SuffixOfNonDigits(s);
  }

  /** One counter: the number, the suffix and the label. */
  datatype Counter = Counter(target: nat, suffix: string, labelText: string)

  /** The strip renders nothing when there are no stats, and otherwise one
      counter per stat, in order. */
  function RenderStats(stats: seq<Stat>): (r: Option<seq<Counter>>)
    ensures r.None? <==> stats == []
    ensures r.Some? ==> |r.value| == |stats| && forall k :: 0 <= k < |stats| ==>
      r.value[k] == Counter(NumericValue(stats[k].value), Suffix(stats[k].value), stats[k].labelText)
  {
    if stats == [] then None
    else Some(seq(|stats|, k requires 0 <= k < |stats| =>
      Counter(NumericValue(stats[k].value), Suffix(stats[k].value), stats[k].labelText)))
  }
}
