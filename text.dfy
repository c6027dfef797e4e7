/**
 * The two Go library routines the scoring-key loader relies on:
 * `strings.Split` with a one-character separator and `strconv.Atoi`
 * (with its error result discarded). `Atoi` reads back what `Itoa` writes,
 * and `Split` undoes `Join` on separator-free fields.
 */
module Text {

  /** Number of occurrences of `sep` in `s`. */
  function Count(s: string, sep: char): nat
  {
    if s == [] then 0 else (if s[0] == sep then 1 else 0) + Count(s[1..], sep)
  }

  /** The fields of `fields` glued back together with `sep` between neighbours. */
  function Join(fields: seq<string>, sep: char): string
  {
    if fields == [] then []
    else if |fields| == 1 then fields[0]
    else fields[0] + [sep] + Join(fields[1..], sep)
  }

  /**
   * `strings.Split(s, string(sep))`: the maximal `sep`-free pieces of `s`, in
   * order. There is always one more field than separators, so the empty
   * string splits into one empty field.
   */
  function Split(s: string, sep: char): (fields: seq<string>)
    ensures |fields| == Count(s, sep) + 1
    ensures forall i :: 0 <= i < |fields| ==> sep !in fields[i]
    ensures Join(fields, sep) == s
  {
    if s == [] then [[]]
    else
      var rest := Split(s[1..], sep);
      if s[0] == sep then
        [[]] + rest
      else
        assert Join([[s[0]] + rest[0]] + rest[1..], sep) == [s[0]] + Join(rest, sep);
        [[s[0]] + rest[0]] + rest[1..]
  }

  /** Prepending a separator-free piece to a string extends its first field. */
  lemma {:induction false} SplitPrepend(a: string, t: string, sep: char)
    requires sep !in a
    ensures Split(a + t, sep) == [a + Split(t, sep)[0]] + Split(t, sep)[1..]
    decreases |a|
  {
    if a != [] {
      var st := Split(t, sep);
      assert (a + t)[0] == a[0] != sep;
      assert (a + t)[1..] == a[1..] + t;
      SplitPrepend(a[1..], t, sep);
      var rest := Split(a[1..] + t, sep);
      assert rest[0] == a[1..] + st[0] && rest[1..] == st[1..];
      assert Split(a + t, sep) == [[a[0]] + rest[0]] + rest[1..];
      assert [a[0]] + (a[1..] + st[0]) == a + st[0];
    } else {
      var st := Split(t, sep);
      assert a + t == t && a + st[0] == st[0];
      assert [st[0]] + st[1..] == st;
    }
  }

  /** Splitting a joined sequence of separator-free fields gives the fields back. */
  lemma {:induction false} SplitJoin(fields: seq<string>, sep: char)
    requires |fields| >= 1
    requires forall i :: 0 <= i < |fields| ==> sep !in fields[i]
    ensures Split(Join(fields, sep), sep) == fields
    decreases |fields|
  {
    if |fields| == 1 {
      SplitPrepend(fields[0], [], sep);
      assert fields[0] + [] == fields[0];
    } else {
      var tail := Join(fields[1..], sep);
      assert Join(fields, sep) == fields[0] + ([sep] + tail);
      SplitPrepend(fields[0], [sep] + tail, sep);
      assert ([sep] + tail)[1..] == tail;
      SplitJoin(fields[1..], sep);
      var st := Split([sep] + tail, sep);
      assert st == [[]] + fields[1..];
      assert st[0] == [] && st[1..] == fields[1..];
      assert fields[0] + [] == fields[0];
      assert [fields[0]] + fields[1..] == fields;
    }
  }

  /** A separator splits a string into the fields of either side. */
  lemma {:induction false} SplitAround(a: string, b: string, sep: char)
    ensures Split(a + [sep] + b, sep) == Split(a, sep) + Split(b, sep)
    decreases |a|
  {
    if a == [] {
      assert a + [sep] + b == [sep] + b;
      assert ([sep] + b)[1..] == b;
    } else {
      assert (a + [sep] + b)[1..] == a[1..] + [sep] + b;
      SplitAround(a[1..], b, sep);
    }
  }

  predicate IsDigit(c: char)
  {
    '0' <= c <= '9'
  }

  /** A non-empty run of decimal digits. */
  predicate IsDigits(s: string)
  {
    |s| > 0 && forall i :: 0 <= i < |s| ==> IsDigit(s[i])
  }

  /** What `strconv.Atoi` accepts: an optional sign followed by at least one digit. */
  predicate IsDecimal(s: string)
  {
    |s| > 0 && if s[0] == '+' || s[0] == '-' then IsDigits(s[1..]) else IsDigits(s)
  }

  function DigitsValue(s: string): nat
    requires forall i :: 0 <= i < |s| ==> IsDigit(s[i])
  {
    if s == [] then 0
    else
      assert IsDigit(s[|s| - 1]);
      10 * DigitsValue(s[..|s| - 1]) + (s[|s| - 1] as int - '0' as int)
  }

  /**
   * `strconv.Atoi(s)` with its error dropped, as the loader calls it: a string
   * that is not an optionally signed run of digits yields 0.
   */
  function Atoi(s: string): (n: int)
    ensures !IsDecimal(s) ==> n == 0
    ensures IsDecimal(s) && s[0] == '-' ==> n <= 0
    ensures IsDecimal(s) && s[0] != '-' ==> n >= 0
  {
    if !IsDecimal(s) then 0
    else if s[0] == '-' then -(DigitsValue(s[1..]) as int)
    else if s[0] == '+' then DigitsValue(s[1..])
    else DigitsValue(s)
  }

  /** The shortest decimal digits of `n`. */
  function NatDigits(n: nat): (s: string)
    ensures IsDigits(s)
    ensures DigitsValue(s) == n
  {
    var last := ('0' as int + n % 10) as char;
    if n < 10 then
      assert [last][..0] == [];
      [last]
    else
      var prefix := NatDigits(n / 10);
      assert (prefix + [last])[..|prefix|] == prefix;
      prefix + [last]
  }

  /** `strconv.Itoa`: decimal text of `n`, with a leading '-' when negative. */
  function Itoa(n: int): string
  {
    if n < 0 then "-" + NatDigits(-n) else NatDigits(n)
  }

  /** `Atoi` reads back what `Itoa` writes. */
  lemma AtoiItoa(n: int)
    ensures Atoi(Itoa(n)) == n
  {
    if n < 0 {
      assert ("-" + NatDigits(-n))[1..] == NatDigits(-n);
    }
  }

  /** The decimal text of a number never contains a non-digit other than '-'. */
  lemma ItoaAvoids(n: int, c: char)
    requires c != '-' && !IsDigit(c)
    ensures c !in Itoa(n)
  {
  }
}
