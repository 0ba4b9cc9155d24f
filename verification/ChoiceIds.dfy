/** Choice ids: `choice-N` in the first group, `group-G-choice-N` in the others. */
module ChoiceIds {
  function Digit(n: nat): char
    requires n < 10
  {
    '0' + n as char
  }

  function Decimal(n: nat): (s: string)
    ensures s != "" && forall i :: 0 <= i < |s| ==> '0' <= s[i] <= '9'
  {
    if n < 10 then [Digit(n)] else Decimal(n / 10) + [Digit(n % 10)]
  }

  function FeedbackChoiceId(group: nat, choice: nat): string {
    if group == 1 then "choice-" + Decimal(choice) else "group-" + Decimal(group) + "-choice-" + Decimal(choice)
  }

  lemma {:induction false} DecimalIsInjective(a: nat, b: nat)
    requires Decimal(a) == Decimal(b)
    ensures a == b
  {
    var s, t := Decimal(a), Decimal(b);
    assert s[|s| - 1] == Digit(a % 10) && t[|t| - 1] == Digit(b % 10);
    if a >= 10 && b >= 10 {
      assert s[..|s| - 1] == Decimal(a / 10) && t[..|t| - 1] == Decimal(b / 10);
      DecimalIsInjective(a / 10, b / 10);
    }
  }

  function FirstDash(s: string): nat {
    if s == "" || s[0] == '-' then 0 else 1 + FirstDash(s[1..])
  }

  lemma {:induction false} FirstDashAfter(a: string, x: string)
    requires '-' !in a
    ensures FirstDash(a + "-" + x) == |a|
  {
    var s := a + "-" + x;
    if a != "" {
      assert s[1..] == a[1..] + "-" + x;
      FirstDashAfter(a[1..], x);
    }
  }

  /** What stands before the first dash is settled by the whole. */
  lemma SplitAtDash(a: string, b: string, x: string, y: string)
    requires '-' !in a && '-' !in b && a + "-" + x == b + "-" + y
    ensures a == b && x == y
  {
    FirstDashAfter(a, x);
    FirstDashAfter(b, y);
    var s := a + "-" + x;
    assert a == s[..|a|] && b == s[..|b|];
    assert x == s[|a| + 1..] && y == s[|b| + 1..];
  }

  lemma NoDash(n: nat)
    ensures '-' !in Decimal(n)
  {
  }

  lemma AfterPrefix(prefix: string, a: string, b: string)
    requires prefix + a == prefix + b
    ensures a == b
  {
    assert (prefix + a)[|prefix|..] == a && (prefix + b)[|prefix|..] == b;
  }

  lemma SameChoiceNumber(i: nat, j: nat)
    requires "choice-" + Decimal(i) == "choice-" + Decimal(j)
    ensures i == j
  {
    hide Decimal;
    AfterPrefix("choice-", Decimal(i), Decimal(j));
    DecimalIsInjective(i, j);
  }

  lemma LaterGroupId(g: nat, i: nat)
    requires g != 1
    ensures FeedbackChoiceId(g, i) == "group-" + (Decimal(g) + "-" + ("choice-" + Decimal(i)))
  {
    hide Decimal;
    var d, t := Decimal(g), Decimal(i);
    assert "-choice-" == "-" + "choice-";
    assert "group-" + d + ("-" + "choice-") + t == "group-" + (d + "-" + ("choice-" + t));
  }

  lemma GroupOneByFirstLetter(g: nat, i: nat)
    ensures FeedbackChoiceId(g, i) != "" && (g == 1 <==> FeedbackChoiceId(g, i)[0] == 'c')
  {
    hide Decimal;
  }

  /** No two choices of a note share an id. */
  lemma ChoiceIdsAreUnique(g: nat, i: nat, h: nat, j: nat)
    requires FeedbackChoiceId(g, i) == FeedbackChoiceId(h, j)
    ensures g == h && i == j
  {
    hide Decimal;
    GroupOneByFirstLetter(g, i);
    GroupOneByFirstLetter(h, j);
    if g != 1 {
      NoDash(g);
      NoDash(h);
      LaterGroupId(g, i);
      LaterGroupId(h, j);
      var x, y := "choice-" + Decimal(i), "choice-" + Decimal(j);
      AfterPrefix("group-", Decimal(g) + "-" + x, Decimal(h) + "-" + y);
      SplitAtDash(Decimal(g), Decimal(h), x, y);
      DecimalIsInjective(g, h);
    }
    SameChoiceNumber(i, j);
  }
}
