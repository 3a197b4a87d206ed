/** Splitting, joining and decimal numbers, as the Go standard library defines them. */
module Text {
  import opened Types

  /** strings.Split with a one-character separator: always at least one piece. */
  function Split(s: string, sep: char): (pieces: seq<string>)
    ensures |pieces| >= 1
  {
    if s == "" then [""]
    else
      var rest := Split(s[1..], sep);
      if s[0] == sep then [""] + rest else [[s[0]] + rest[0]] + rest[1..]
  }

  /** strings.Join of a non-empty list. */
  function Join(pieces: seq<string>, sep: char): string
    requires |pieces| >= 1
  {
    if |pieces| == 1 then pieces[0] else pieces[0] + [sep] + Join(pieces[1..], sep)
  }

  ghost predicate Free(s: string, sep: char) {
    sep !in s
  }

  lemma {:induction false} SplitFree(s: string, sep: char)
    requires Free(s, sep)
    ensures Split(s, sep) == [s]
  {
    if s != "" {
      assert s[0] in s && forall c :: c in s[1..] ==> c in s;
      SplitFree(s[1..], sep);
      assert [s[0]] + s[1..] == s;
    }
  }

  /** Splitting turns the separator between two texts into concatenation of their pieces. */
  lemma {:induction false} SplitConcat(a: string, b: string, sep: char)
    ensures Split(a + [sep] + b, sep) == Split(a, sep) + Split(b, sep)
  {
    var whole := a + [sep] + b;
    if a == "" {
      assert whole[1..] == b;
    } else {
      assert whole[0] == a[0] && whole[1..] == a[1..] + [sep] + b;
      SplitConcat(a[1..], b, sep);
    }
  }

  lemma {:induction false} SplitJoin(pieces: seq<string>, sep: char)
    requires |pieces| >= 1
    requires forall i :: 0 <= i < |pieces| ==> Free(pieces[i], sep)
    ensures Split(Join(pieces, sep), sep) == pieces
  {
    SplitFree(pieces[0], sep);
    if |pieces| > 1 {
      SplitConcat(pieces[0], Join(pieces[1..], sep), sep);
      SplitJoin(pieces[1..], sep);
    }
  }

  // -------------------------------------------------------------------------------------
  // Decimal numbers

  const UINT32_LIMIT: nat := 4294967296

  predicate IsDigit(c: char) {
    '0' <= c <= '9'
  }

  predicate AllDigits(s: string) {
    forall i :: 0 <= i < |s| ==> IsDigit(s[i])
  }

  function Value(s: string): nat
    requires AllDigits(s)
  {
    if s == "" then 0 else 10 * Value(s[..|s| - 1]) + (s[|s| - 1] as int - '0' as int)
  }

  /** strconv.ParseUint(s, 10, 32): digits only, and no more than 32 bits. */
  function ParseUint32(s: string): Option<nat> {
    if s != "" && AllDigits(s) && Value(s) < UINT32_LIMIT then Some(Value(s)) else None
  }

  function Decimal(n: nat): (s: string)
    ensures s != "" && AllDigits(s)
  {
    var digit := ('0' as int + n % 10) as char;
    if n < 10 then [digit] else Decimal(n / 10) + [digit]
  }

  lemma {:induction false} ParseDecimal(n: nat)
    ensures Value(Decimal(n)) == n
    ensures ParseUint32(Decimal(n)) == if n < 4294967296 then Some(n) else None
  {
    var s := Decimal(n);
    if n >= 10 {
      ParseDecimal(n / 10);
      assert s[..|s| - 1] == Decimal(n / 10);
    } else {
      assert s[..|s| - 1] == "";
    }
  }

  /** Anything but digits is refused: a sign, a space, and no text at all. */
  lemma ParseRefuses(s: string)
    requires s == "" || exists c :: c in s && !('0' <= c <= '9')
    ensures ParseUint32(s).None?
  {
    if c :| c in s && !('0' <= c <= '9') {
      var i :| 0 <= i < |s| && s[i] == c;
      assert !IsDigit(s[i]);
    }
  }

  lemma DigitsAreFree(n: nat, sep: char)
    requires !IsDigit(sep)
    ensures Free(Decimal(n), sep)
  {
    var s := Decimal(n);
    forall i | 0 <= i < |s| ensures s[i] != sep {
      assert IsDigit(s[i]);
    }
  }
}
