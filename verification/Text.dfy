/** Text that names things: decimal integers as the `%d` verb prints them, and fields joined by a
    separator. Snapshot ids, commit keys and the signed text of a ticket are built from these, and all
    of them rely on different contents never reading alike. */
module Text {

  const DIGITS := "0123456789"

  function Natural(n: nat): string {
    if n < 10 then [DIGITS[n]] else Natural(n / 10) + [DIGITS[n % 10]]
  }

  function Integer(n: int): string {
    if n < 0 then "-" + Natural(-n) else Natural(n)
  }

  function Value(c: char): nat {
    if '0' <= c <= '9' then (c - '0') as nat else 0
  }

  function ReadNatural(s: string): nat {
    if s == "" then 0 else ReadNatural(s[..|s|-1]) * 10 + Value(s[|s|-1])
  }

  function ReadInteger(s: string): int {
    if s != "" && s[0] == '-' then 0 - ReadNatural(s[1..]) as int else ReadNatural(s)
  }

  predicate AllDigits(s: string) {
    forall i | 0 <= i < |s| :: '0' <= s[i] <= '9'
  }

  lemma DigitValue(d: nat)
    requires d < 10
    ensures '0' <= DIGITS[d] <= '9' && Value(DIGITS[d]) == d
  {
  }

  lemma {:induction false} ReadsNatural(n: nat)
    ensures ReadNatural(Natural(n)) == n && AllDigits(Natural(n)) && Natural(n) != ""
  {
    if n < 10 {
      DigitValue(n);
      assert Natural(n)[..0] == "";
    } else {
      ReadsNatural(n / 10);
      DigitValue(n % 10);
      assert Natural(n)[..|Natural(n)|-1] == Natural(n / 10);
    }
  }

  /** Reading a printed integer gives it back, so no two integers print alike. */
  lemma ReadsInteger(n: int)
    ensures ReadInteger(Integer(n)) == n
    ensures '\0' !in Integer(n) && '@' !in Integer(n)
  {
    ReadsNatural(if n < 0 then -n else n);
    if n < 0 {
      assert Integer(n)[1..] == Natural(-n);
    } else {
      assert Integer(n)[0] != '-';
    }
  }

  /** A field free of the separator ends where the first separator stands. */
  lemma FirstFieldUnique(a: string, rest: string, b: string, rest': string, sep: char)
    requires sep !in a && sep !in b && a + [sep] + rest == b + [sep] + rest'
    ensures a == b && rest == rest'
  {
    var s := a + [sep] + rest;
    assert s[|a|] == sep && s[|b|] == sep;
    assert forall i | 0 <= i < |a| :: s[i] == a[i] != sep;
    assert forall i | 0 <= i < |b| :: s[i] == b[i] != sep;
    assert |a| == |b|;
    assert a == s[..|a|] == b;
    assert rest == s[|a|+1..] == rest';
  }

  /** And one that stands last starts after the last separator. */
  lemma LastFieldUnique(a: string, last: string, b: string, last': string, sep: char)
    requires sep !in last && sep !in last' && a + [sep] + last == b + [sep] + last'
    ensures a == b && last == last'
  {
    var s := a + [sep] + last;
    assert s[|a|] == sep && s[|b|] == sep;
    assert forall i | |a| < i < |s| :: s[i] == last[i - |a| - 1] != sep;
    assert forall i | |b| < i < |s| :: s[i] == last'[i - |b| - 1] != sep;
    assert |a| == |b|;
    assert a == s[..|a|] == b;
    assert last == s[|a|+1..] == last';
  }
}
