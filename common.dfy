/** Values shared by the three model wrappers and the service layer:
    optional values, the errors a wrapper raises, and their text. */
module Common {

  datatype Option<T> = None | Some(value: T)

  /** The exceptions raised on the way to an answer: the wrappers'
      `ValueError`s, numpy's index error, the isolation forest's rejection of
      an empty array, and the `OverflowError` of `int` applied to infinity. */
  datatype Error =
    | ArityMismatch(expected: nat, got: nat)  // "Expected N features, got M"
    | ColumnOutOfRange(column: nat, size: nat) // indexing a missing probability column
    | NoSamples(width: nat, estimator: string) // an estimator given a zero-row array
    | IntOfInfinity                            // `int(float('inf'))`

  datatype Result<T> = Ok(value: T) | Err(error: Error)

  /** A two-dimensional feature array: `width` is its column count
      (`features.shape[1]`), `rows` its rows. */
  datatype Batch = Batch(width: nat, rows: seq<seq<real>>)

  /** Decimal rendering of a natural number, as Python's f-string does it. */
  function NatStr(n: nat): (s: string)
    ensures |s| >= 1
    ensures forall i :: 0 <= i < |s| ==> '0' <= s[i] <= '9'
    decreases n
  {
    if n < 10 then [Digit(n)] else NatStr(n / 10) + [Digit(n % 10)]
  }

  function Digit(d: nat): (c: char)
    requires d < 10
    ensures '0' <= c <= '9' && (c as int) - ('0' as int) == d
  {
    ('0' as int + d) as char
  }

  /** Reads back a string of decimal digits (the inverse of NatStr). */
  function ParseNat(s: string): nat
  {
    if |s| == 0 then 0
    else ParseNat(s[..|s| - 1]) * 10 + DigitValue(s[|s| - 1])
  }

  function DigitValue(c: char): nat
  {
    if '0' <= c <= '9' then (c as int) - ('0' as int) else 0
  }

  /** The count named in an error message can be read back from it. */
  lemma {:induction false} ParseNatStr(n: nat)
    ensures ParseNat(NatStr(n)) == n
    decreases n
  {
    if n >= 10 {
      var s := NatStr(n);
      assert s[..|s| - 1] == NatStr(n / 10);
      ParseNatStr(n / 10);
    }
  }

  /** The text `str(e)` of each error. */
  function Message(e: Error): (m: string)
    ensures e.ArityMismatch? ==>
      m == "Expected " + NatStr(e.expected) + " features, got " + NatStr(e.got)
    ensures e.ArityMismatch? ==> m[|m| - |NatStr(e.got)|..] == NatStr(e.got)
  {
    match e
    case ArityMismatch(expected, got) =>
      "Expected " + NatStr(expected) + " features, got " + NatStr(got)
    case ColumnOutOfRange(column, size) =>
      "index " + NatStr(column) + " is out of bounds for axis 1 with size " + NatStr(size)
    case NoSamples(width, estimator) =>
      "Found array with 0 sample(s) (shape=(0, " + NatStr(width) + ")) while a minimum of 1 is required by "
        + estimator + "."
    case IntOfInfinity =>
      "cannot convert float infinity to integer"
  }

  /** Two arity errors have the same message only when they report the same
      counts, so a message names both counts. */
  lemma ArityMessageNamesCounts(a: nat, b: nat, c: nat, d: nat)
    requires Message(ArityMismatch(a, b)) == Message(ArityMismatch(c, d))
    ensures a == c && b == d
  {
    var p, t := "Expected ", " features, got ";
    var sa, sb, sc, sd := NatStr(a), NatStr(b), NatStr(c), NatStr(d);
    Reassociate(p, sa, t, sb);
    Reassociate(p, sc, t, sd);
    CancelPrefix(p, sa + (t + sb), sc + (t + sd));
    DigitsThenSpace(sa, sc, sa + (t + sb), t + sb, t + sd);
    CancelPrefix(sa, t + sb, t + sd);
    CancelPrefix(t, sb, sd);
    ParseNatStr(a);
    ParseNatStr(b);
    ParseNatStr(c);
    ParseNatStr(d);
  }

  lemma Reassociate(w: string, x: string, y: string, z: string)
    ensures w + x + y + z == w + (x + (y + z))
  {
  }

  lemma CancelPrefix(x: string, y: string, z: string)
    requires x + y == x + z
    ensures y == z
  {
    assert y == (x + y)[|x|..];
  }

  /** If two digit strings each followed by text starting with a space give
      the same string, the digit strings are equal. */
  lemma {:induction false} DigitsThenSpace(x: string, y: string, m: string, u: string, v: string)
    requires forall i :: 0 <= i < |x| ==> '0' <= x[i] <= '9'
    requires forall i :: 0 <= i < |y| ==> '0' <= y[i] <= '9'
    requires |u| > 0 && u[0] == ' ' && |v| > 0 && v[0] == ' '
    requires m == x + u && m == y + v
    ensures x == y
  {
    assert m[|x|] == ' ' && m[|y|] == ' ';
    assert forall i :: 0 <= i < |x| ==> m[i] == x[i];
    assert forall i :: 0 <= i < |y| ==> m[i] == y[i];
    assert x == m[..|x|] == y;
  }
}
