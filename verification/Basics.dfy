/** Small shared vocabulary. */
module Basics {

  datatype Option<+T> = None | Some(value: T)

  datatype Result<+T, +E> = Ok(value: T) | Err(error: E)

  function Last<T>(s: seq<T>): T
    requires s != []
  {
    s[|s| - 1]
  }

  function Front<T>(s: seq<T>): seq<T>
    requires s != []
  {
    s[..|s| - 1]
  }

  function StripLeft(s: string): string {
    if s != "" && s[0] in " \t\n\r" then StripLeft(s[1..]) else s
  }

  function StripRight(s: string): string {
    if s != "" && Last(s) in " \t\n\r" then StripRight(Front(s)) else s
  }

  /** Python's `str.strip`, over ASCII white space. */
  function Strip(s: string): string { StripRight(StripLeft(s)) }

  function Filter<T>(keep: T -> bool, s: seq<T>): seq<T> {
    if s == [] then [] else Filter(keep, Front(s)) + if keep(Last(s)) then [Last(s)] else []
  }

  lemma {:induction false} FilterMembers<T>(keep: T -> bool, s: seq<T>, x: T)
    ensures x in Filter(keep, s) <==> x in s && keep(x)
  {
    if s != [] {
      FilterMembers(keep, Front(s), x);
      assert s == Front(s) + [Last(s)];
    }
  }

  lemma {:induction false} FilterConcat<T>(keep: T -> bool, a: seq<T>, b: seq<T>)
    ensures Filter(keep, a + b) == Filter(keep, a) + Filter(keep, b)
  {
    if b == [] {
      assert a + b == a;
    } else {
      assert Front(a + b) == a + Front(b) && Last(a + b) == Last(b);
      FilterConcat(keep, a, Front(b));
    }
  }

  lemma {:induction false} FilterNone<T>(keep: T -> bool, s: seq<T>)
    requires forall x :: x in s ==> !keep(x)
    ensures Filter(keep, s) == []
  {
    if s != [] {
      assert s == Front(s) + [Last(s)];
      FilterNone(keep, Front(s));
    }
  }

  lemma {:induction false} FilterAll<T>(keep: T -> bool, s: seq<T>)
    requires forall x :: x in s ==> keep(x)
    ensures Filter(keep, s) == s
  {
    if s != [] {
      assert s == Front(s) + [Last(s)];
      FilterAll(keep, Front(s));
    }
  }

  ghost predicate Distinct<T(!new)>(s: seq<T>) {
    forall i, j :: 0 <= i < j < |s| ==> s[i] != s[j]
  }

  /** Python's `list(dict.fromkeys(s))`: first occurrences, in order. */
  function Dedupe<T(==, !new)>(s: seq<T>): (r: seq<T>)
    ensures forall x :: x in r <==> x in s
    ensures Distinct(r)
  {
    if s == [] then []
    else
      var rest := Dedupe(Front(s));
      assert s == Front(s) + [Last(s)];
      if Last(s) in rest then rest else rest + [Last(s)]
  }

}

/** Decimal text of natural numbers, and its reading. */
module Decimal {
  import opened Basics

  function Digit(d: nat): char
    requires d < 10
  {
    "0123456789"[d]
  }

  predicate IsDigit(c: char) { '0' <= c <= '9' }

  function Print(n: nat): (s: string)
    ensures s != "" && forall c :: c in s ==> IsDigit(c)
  {
    if n < 10 then [Digit(n)] else Print(n / 10) + [Digit(n % 10)]
  }

  /** None unless the text is a non-empty run of digits. */
  function Read(s: string): Option<nat> {
    if s == "" || !IsDigit(Last(s)) then None
    else if |s| == 1 then Some((Last(s) - '0') as nat)
    else
      match Read(Front(s))
      case None => None
      case Some(n) => Some(10 * n + (Last(s) - '0') as nat)
  }

  lemma {:induction false} ReadPrint(n: nat)
    ensures Read(Print(n)) == Some(n)
  {
    if n >= 10 {
      ReadPrint(n / 10);
      assert Front(Print(n)) == Print(n / 10);
    }
  }

  /** Zero padding on the left, as in a `03d` format. */
  function Pad(s: string, width: nat): string
    decreases width - |s|
  {
    if |s| >= width then s else Pad("0" + s, width)
  }

  lemma {:induction false} ReadZero(s: string)
    requires s != ""
    ensures Read("0" + s) == Read(s)
  {
    var z := "0" + s;
    assert Last(z) == Last(s) && Front(z) == "0" + Front(s);
    if |s| == 1 {
      assert Front(z) == "0";
    } else {
      ReadZero(Front(s));
    }
  }

  lemma {:induction false} ReadPad(s: string, width: nat)
    requires s != ""
    ensures Read(Pad(s, width)) == Read(s)
    decreases width - |s|
  {
    if |s| < width {
      ReadZero(s);
      ReadPad("0" + s, width);
    }
  }
}
