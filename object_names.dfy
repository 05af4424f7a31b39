/** Names of uploaded image objects: the upload time in milliseconds,
    written in decimal, a dash, and the file's original name. */
module ObjectNames {
  import opened Values

  predicate IsDigit(c: char) { '0' <= c <= '9' }

  predicate AllDigits(s: string) { forall i :: 0 <= i < |s| ==> IsDigit(s[i]) }

  function DigitChar(d: nat): (c: char)
    requires d < 10
    ensures IsDigit(c)
  {
    (48 + d) as char
  }

  function DigitValue(c: char): (d: nat)
    requires IsDigit(c)
    ensures d < 10 && DigitChar(d) == c
  {
    c as int - 48
  }

  /** The decimal form JavaScript gives a non-negative integer in a template
      literal: digits only, no leading zero. */
  function DecimalString(n: nat): (s: string)
    ensures |s| >= 1 && AllDigits(s)
    ensures s[0] == '0' ==> n == 0
    decreases n
  {
    if n < 10 then [DigitChar(n)] else DecimalString(n / 10) + [DigitChar(n % 10)]
  }

  /** The number a string of decimal digits denotes. */
  function DecimalValue(s: string): nat
    requires AllDigits(s)
    decreases |s|
  {
    if s == [] then 0 else DecimalValue(s[..|s| - 1]) * 10 + DigitValue(s[|s| - 1])
  }

  /** Reading the decimal form back gives the number. */
  lemma {:induction false} DecimalRoundTrip(n: nat)
    ensures DecimalValue(DecimalString(n)) == n
    decreases n
  {
    var s := DecimalString(n);
    if n >= 10 {
      DecimalRoundTrip(n / 10);
      assert s[..|s| - 1] == DecimalString(n / 10);
    }
  }

  /** `${Date.now()}-${file.originalname}` */
  function ObjectName(timestamp: nat, originalName: string): (name: string)
    ensures |name| > |originalName| + 1
    ensures name[|name| - |originalName| - 1..] == "-" + originalName
    ensures IsDigit(name[0])
  {
    DecimalString(timestamp) + "-" + originalName
  }

  /** Index of the first dash of `s`, or |s| when there is none. */
  function FirstDash(s: string): (k: nat)
    ensures k <= |s|
    ensures forall i :: 0 <= i < k ==> s[i] != '-'
    ensures k < |s| ==> s[k] == '-'
  {
    if s == [] || s[0] == '-' then 0 else 1 + FirstDash(s[1..])
  }

  /** Splits an object name into its timestamp and original file name. */
  function ParseObjectName(name: string): Option<(nat, string)>
  {
    var k := FirstDash(name);
    if k == 0 || k == |name| || !AllDigits(name[..k]) then None
    else Some((DecimalValue(name[..k]), name[k + 1..]))
  }

  /** The object name keeps both of its parts: parsing it gives back the
      timestamp and the original file name. */
  lemma ObjectNameRoundTrip(timestamp: nat, originalName: string)
    ensures ParseObjectName(ObjectName(timestamp, originalName)) == Some((timestamp, originalName))
  {
    var d := DecimalString(timestamp);
    var name := ObjectName(timestamp, originalName);
    var k := FirstDash(name);
    assert name[|d|] == '-';
    assert k == |d|;
    assert name[..k] == d;
    assert name[k + 1..] == originalName;
    DecimalRoundTrip(timestamp);
  }

  /** Two uploads get the same object name exactly when they have the same
      timestamp and the same original file name. */
  lemma ObjectNameInjective(t1: nat, n1: string, t2: nat, n2: string)
    ensures ObjectName(t1, n1) == ObjectName(t2, n2) <==> t1 == t2 && n1 == n2
  {
    if ObjectName(t1, n1) == ObjectName(t2, n2) {
      ObjectNameRoundTrip(t1, n1);
      ObjectNameRoundTrip(t2, n2);
    }
  }
}
