/**
  The boolean search grammar and its recursive-descent parser (`parseSearchExpression`):

    Or  := And (or And)*        And := Not ([and] Not)*        Not := not Not | term | ( Or )

  with both operators associating to the left.
 */
module SearchParser {
  import opened Options
  import opened SearchLexer

  datatype Expr = TermOf(value: string) | NotOf(inner: Expr) | AndOf(left: Expr, right: Expr) | OrOf(left: Expr, right: Expr)

  // ---- the grammar, as which lexeme lists derive which trees ---------------------------------

  ghost predicate DerivesOr(e: Expr, ls: seq<Lexeme>)
    decreases |ls|, 2
  {
    || DerivesAnd(e, ls)
    || (e.OrOf? && exists k :: 0 <= k < |ls| && ls[k].kind == OrWord
                               && DerivesOr(e.left, ls[..k]) && DerivesAnd(e.right, ls[k + 1..]))
  }

  ghost predicate DerivesAnd(e: Expr, ls: seq<Lexeme>)
    decreases |ls|, 1
  {
    || DerivesNot(e, ls)
    || (e.AndOf? && exists k :: 0 < k < |ls| && DerivesAnd(e.left, ls[..k])
                                && (DerivesNot(e.right, ls[k..])
                                    || (ls[k].kind == AndWord && DerivesNot(e.right, ls[k + 1..]))))
  }

  ghost predicate DerivesNot(e: Expr, ls: seq<Lexeme>)
    decreases |ls|, 0
  {
    && ls != []
    && match ls[0].kind
       case NotWord => e.NotOf? && DerivesNot(e.inner, ls[1..])
       case Term => e == TermOf(ls[0].value) && |ls| == 1
       case Left => |ls| >= 2 && ls[|ls| - 1].kind == Right && DerivesOr(e, ls[1..|ls| - 1])
       case _ => false
  }

  // ---- the parser as functions of the remaining lexemes ---------------------------------------

  datatype Parsed = Fail | Ok(expr: Expr, rest: seq<Lexeme>)

  /** What may not start another conjunct. */
  predicate Stops(ls: seq<Lexeme>) {
    ls == [] || ls[0].kind == Right || ls[0].kind == OrWord
  }

  function ParsePrimary(ls: seq<Lexeme>): (r: Parsed)
    ensures r.Ok? ==> |r.rest| < |ls|
    decreases |ls|, 0
  {
    if ls == [] then Fail
    else if ls[0].kind == Term then Ok(TermOf(ls[0].value), ls[1..])
    else if ls[0].kind == Left then
      match ParseOr(ls[1..])
      case Fail => Fail
      case Ok(e, rest) => if rest != [] && rest[0].kind == Right then Ok(e, rest[1..]) else Fail
    else Fail
  }

  function ParseNot(ls: seq<Lexeme>): (r: Parsed)
    ensures r.Ok? ==> |r.rest| < |ls|
    decreases |ls|, 1
  {
    if ls != [] && ls[0].kind == NotWord then
      match ParseNot(ls[1..])
      case Fail => Fail
      case Ok(e, rest) => Ok(NotOf(e), rest)
    else ParsePrimary(ls)
  }

  function AndLoop(left: Expr, ls: seq<Lexeme>): (r: Parsed)
    ensures r.Ok? ==> |r.rest| <= |ls|
    decreases |ls|, 2
  {
    if Stops(ls) then Ok(left, ls)
    else
      match ParseNot(if ls[0].kind == AndWord then ls[1..] else ls)
      case Fail => Fail
      case Ok(right, rest) => AndLoop(AndOf(left, right), rest)
  }

  function ParseAnd(ls: seq<Lexeme>): (r: Parsed)
    ensures r.Ok? ==> |r.rest| < |ls|
    decreases |ls|, 3
  {
    match ParseNot(ls)
    case Fail => Fail
    case Ok(left, rest) => AndLoop(left, rest)
  }

  function OrLoop(left: Expr, ls: seq<Lexeme>): (r: Parsed)
    ensures r.Ok? ==> |r.rest| <= |ls|
    decreases |ls|, 4
  {
    if ls == [] || ls[0].kind != OrWord then Ok(left, ls)
    else
      match ParseAnd(ls[1..])
      case Fail => Fail
      case Ok(right, rest) => OrLoop(OrOf(left, right), rest)
  }

  function ParseOr(ls: seq<Lexeme>): (r: Parsed)
    ensures r.Ok? ==> |r.rest| < |ls|
    decreases |ls|, 5
  {
    match ParseAnd(ls)
    case Fail => Fail
    case Ok(left, rest) => OrLoop(left, rest)
  }

  function Parse(ls: seq<Lexeme>): Option<Expr> {
    match ParseOr(ls)
    case Fail => None
    case Ok(e, rest) => if rest == [] then Some(e) else None
  }

  // ---- the parser as the source writes it: closures over one cursor ---------------------------

  class Parser {
    const lexemes: seq<Lexeme>
    var cursor: nat

    constructor (lexemes: seq<Lexeme>)
      ensures this.lexemes == lexemes && cursor == 0
    {
      this.lexemes := lexemes;
      cursor := 0;
    }

    function Ahead(): seq<Lexeme>
      requires cursor <= |lexemes|
      reads this
    {
      lexemes[cursor..]
    }

    /** The method's result and new cursor are what `parsed` says of the lexemes that were ahead. */
    ghost predicate Did(parsed: Parsed, e: Option<Expr>)
      reads this
    {
      && cursor <= |lexemes|
      && (parsed.Fail? ==> e.None?)
      && (parsed.Ok? ==> e == Some(parsed.expr) && Ahead() == parsed.rest)
    }

    method Primary() returns (e: Option<Expr>)
      requires cursor <= |lexemes|
      modifies this
      ensures Did(ParsePrimary(old(Ahead())), e)
      decreases |lexemes| - cursor, 0
    {
      if cursor == |lexemes| {
        return None;
      }
      var token := lexemes[cursor];
      if token.kind == Term {
        cursor := cursor + 1;
        return Some(TermOf(token.value));
      }
      if token.kind == Left {
        cursor := cursor + 1;
        assert lexemes[cursor..] == old(lexemes[cursor..])[1..];
        e := Or();
        if e.None? || cursor == |lexemes| || lexemes[cursor].kind != Right {
          return None;
        }
        cursor := cursor + 1;
        return;
      }
      return None;
    }

    method Not() returns (e: Option<Expr>)
      requires cursor <= |lexemes|
      modifies this
      ensures Did(ParseNot(old(Ahead())), e)
      decreases |lexemes| - cursor, 1
    {
      if cursor < |lexemes| && lexemes[cursor].kind == NotWord {
        cursor := cursor + 1;
        assert lexemes[cursor..] == old(lexemes[cursor..])[1..];
        var value := Not();
        return if value.Some? then Some(NotOf(value.value)) else None;
      }
      e := Primary();
    }

    method And() returns (e: Option<Expr>)
      requires cursor <= |lexemes|
      modifies this
      ensures Did(ParseAnd(old(Ahead())), e)
      decreases |lexemes| - cursor, 3
    {
      ghost var all := ParseAnd(Ahead());
      var left := Not();
      if left.None? {
        return None;
      }
      while cursor < |lexemes| && lexemes[cursor].kind != Right && lexemes[cursor].kind != OrWord
        invariant old(cursor) < cursor <= |lexemes| && left.Some?
        invariant AndLoop(left.value, Ahead()) == all
        decreases |lexemes| - cursor
      {
        ghost var before := Ahead();
        if lexemes[cursor].kind == AndWord {
          cursor := cursor + 1;
          assert Ahead() == before[1..];
        }
        var right := Not();
        if right.None? {
          return None;
        }
        left := Some(AndOf(left.value, right.value));
      }
      e := left;
    }

    method Or() returns (e: Option<Expr>)
      requires cursor <= |lexemes|
      modifies this
      ensures Did(ParseOr(old(Ahead())), e)
      decreases |lexemes| - cursor, 5
    {
      ghost var all := ParseOr(Ahead());
      var left := And();
      if left.None? {
        return None;
      }
      while cursor < |lexemes| && lexemes[cursor].kind == OrWord
        invariant old(cursor) < cursor <= |lexemes| && left.Some?
        invariant OrLoop(left.value, Ahead()) == all
        decreases |lexemes| - cursor
      {
        ghost var before := Ahead();
        cursor := cursor + 1;
        assert Ahead() == before[1..];
        var right := And();
        if right.None? {
          return None;
        }
        left := Some(OrOf(left.value, right.value));
      }
      e := left;
    }
  }

  method ParseSearchExpression(query: string) returns (e: Option<Expr>)
    ensures e == Parse(Lex(query))
  {
    var lexemes := LexSearchExpression(query);
    if |lexemes| == 0 {
      return None;
    }
    var parser := new Parser(lexemes);
    assert parser.Ahead() == lexemes;
    e := parser.Or();
    if e.Some? && parser.cursor != |lexemes| {
      e := None;
    }
  }

  // ---- sound ------------------------------------------------------------------------------------

  lemma {:induction false} DerivesSomething(e: Expr, ls: seq<Lexeme>)
    requires DerivesAnd(e, ls) || DerivesOr(e, ls)
    ensures ls != []
  {
  }

  lemma NotIntro(word: Lexeme, x: Expr, ls: seq<Lexeme>)
    requires word.kind == NotWord && DerivesNot(x, ls)
    ensures DerivesNot(NotOf(x), [word] + ls)
  {
    assert ([word] + ls)[1..] == ls;
  }

  lemma ParenIntro(open: Lexeme, e: Expr, ls: seq<Lexeme>, close: Lexeme)
    requires open.kind == Left && close.kind == Right && DerivesOr(e, ls)
    ensures DerivesNot(e, [open] + (ls + [close]))
  {
    var all := [open] + (ls + [close]);
    assert all[1..|all| - 1] == ls && all[|all| - 1] == close;
  }

  lemma AndIntro(l: Expr, a: seq<Lexeme>, word: seq<Lexeme>, r: Expr, b: seq<Lexeme>)
    requires DerivesAnd(l, a) && DerivesNot(r, b)
    requires word == [] || (|word| == 1 && word[0].kind == AndWord)
    ensures DerivesAnd(AndOf(l, r), a + (word + b))
  {
    hide DerivesNot, DerivesOr;
    var all := a + (word + b);
    DerivesSomething(l, a);
    assert b != [] by { NotDerivesSomething(r, b); }
    assert all[..|a|] == a;
    assert if word == [] then all[|a|..] == b else all[|a|] == word[0] && all[|a| + 1..] == b;
  }

  lemma NotDerivesSomething(e: Expr, ls: seq<Lexeme>)
    requires DerivesNot(e, ls)
    ensures ls != []
  {
  }

  lemma OrIntro(l: Expr, a: seq<Lexeme>, word: Lexeme, r: Expr, b: seq<Lexeme>)
    requires DerivesOr(l, a) && DerivesAnd(r, b) && word.kind == OrWord
    ensures DerivesOr(OrOf(l, r), a + ([word] + b))
  {
    hide DerivesNot, DerivesAnd;
    var all := a + ([word] + b);
    assert all[..|a|] == a && all[|a|] == word && all[|a| + 1..] == b;
  }

  lemma {:induction false} NotSound(ls: seq<Lexeme>) returns (used: seq<Lexeme>)
    requires ParseNot(ls).Ok?
    ensures ls == used + ParseNot(ls).rest && DerivesNot(ParseNot(ls).expr, used)
    decreases |ls|, 1
  {
    hide DerivesOr, DerivesAnd, ParseOr;
    assert ls == [ls[0]] + ls[1..];
    if ls[0].kind == NotWord {
      var u := NotSound(ls[1..]);
      NotIntro(ls[0], ParseNot(ls[1..]).expr, u);
      used := [ls[0]] + u;
    } else if ls[0].kind == Left {
      var inner := ParseOr(ls[1..]);
      var u := OrSound(ls[1..]);
      ParenIntro(ls[0], inner.expr, u, inner.rest[0]);
      used := [ls[0]] + (u + [inner.rest[0]]);
      assert inner.rest == [inner.rest[0]] + inner.rest[1..];
    } else {
      used := [ls[0]];
    }
  }

  lemma Regroup(a: seq<Lexeme>, b: seq<Lexeme>, c: seq<Lexeme>)
    ensures (a + b) + c == a + (b + c)
  {
  }

  lemma {:induction false} AndLoopSound(left: Expr, pre: seq<Lexeme>, ls: seq<Lexeme>) returns (used: seq<Lexeme>)
    requires DerivesAnd(left, pre) && AndLoop(left, ls).Ok?
    ensures ls == used + AndLoop(left, ls).rest && DerivesAnd(AndLoop(left, ls).expr, pre + used)
    decreases |ls|, 2
  {
    hide DerivesOr, DerivesAnd, DerivesNot, ParseNot;
    if Stops(ls) {
      used := [];
      assert pre + [] == pre;
    } else {
      var word := if ls[0].kind == AndWord then [ls[0]] else [];
      var from := if ls[0].kind == AndWord then ls[1..] else ls;
      assert ls == word + from;
      var u := NotSound(from);
      var n := ParseNot(from);
      AndIntro(left, pre, word, n.expr, u);
      var more := AndLoopSound(AndOf(left, n.expr), pre + (word + u), n.rest);
      used := (word + u) + more;
      Regroup(pre, word + u, more);
      Regroup(word, u, n.rest);
      Regroup(word + u, more, AndLoop(left, ls).rest);
    }
  }

  lemma {:induction false} AndSound(ls: seq<Lexeme>) returns (used: seq<Lexeme>)
    requires ParseAnd(ls).Ok?
    ensures ls == used + ParseAnd(ls).rest && DerivesAnd(ParseAnd(ls).expr, used)
    decreases |ls|, 3
  {
    hide DerivesOr, DerivesNot, ParseNot, AndLoop;
    var u := NotSound(ls);
    var n := ParseNot(ls);
    var more := AndLoopSound(n.expr, u, n.rest);
    used := u + more;
  }

  lemma {:induction false} OrLoopSound(left: Expr, pre: seq<Lexeme>, ls: seq<Lexeme>) returns (used: seq<Lexeme>)
    requires DerivesOr(left, pre) && OrLoop(left, ls).Ok?
    ensures ls == used + OrLoop(left, ls).rest && DerivesOr(OrLoop(left, ls).expr, pre + used)
    decreases |ls|, 4
  {
    hide DerivesOr, DerivesAnd, DerivesNot, ParseAnd;
    if ls == [] || ls[0].kind != OrWord {
      used := [];
      assert pre + [] == pre;
    } else {
      assert ls == [ls[0]] + ls[1..];
      var u := AndSound(ls[1..]);
      var n := ParseAnd(ls[1..]);
      OrIntro(left, pre, ls[0], n.expr, u);
      var more := OrLoopSound(OrOf(left, n.expr), pre + ([ls[0]] + u), n.rest);
      used := [ls[0]] + u + more;
      assert pre + used == pre + ([ls[0]] + u) + more;
    }
  }

  lemma {:induction false} OrSound(ls: seq<Lexeme>) returns (used: seq<Lexeme>)
    requires ParseOr(ls).Ok?
    ensures ls == used + ParseOr(ls).rest && DerivesOr(ParseOr(ls).expr, used)
    decreases |ls|, 5
  {
    hide DerivesAnd, DerivesNot, ParseAnd, OrLoop;
    var u := AndSound(ls);
    var n := ParseAnd(ls);
    var more := OrLoopSound(n.expr, u, n.rest);
    used := u + more;
  }

  // ---- complete -----------------------------------------------------------------------------------

  lemma {:induction false} NotComplete(e: Expr, pre: seq<Lexeme>, rest: seq<Lexeme>)
    requires DerivesNot(e, pre)
    ensures ParseNot(pre + rest) == Ok(e, rest)
    decreases |pre|, 0
  {
    hide DerivesOr, DerivesAnd, ParseAnd, AndLoop, ParseOr;
    var all := pre + rest;
    assert all[0] == pre[0] && all[1..] == pre[1..] + rest;
    if pre[0].kind == NotWord {
      NotComplete(e.inner, pre[1..], rest);
    } else if pre[0].kind == Left {
      var inner, close := pre[1..|pre| - 1], [pre[|pre| - 1]] + rest;
      assert all[1..] == inner + close;
      OrComplete(e, inner, close);
      assert OrLoop(e, close) == Ok(e, close) && close[1..] == rest;
    } else {
      assert pre[1..] + rest == rest;
    }
  }

  lemma StartOfNot(e: Expr, ls: seq<Lexeme>)
    requires DerivesNot(e, ls)
    ensures ls != [] && ls[0].kind != AndWord && !Stops(ls)
  {
  }

  lemma StartOfNotIf(e: Expr, ls: seq<Lexeme>)
    requires ls != [] && ls[0].kind == AndWord
    ensures !DerivesNot(e, ls)
  {
  }

  /** After a derived conjunction the parser is in its loop with exactly that tree. */
  lemma {:induction false} AndComplete(e: Expr, pre: seq<Lexeme>, rest: seq<Lexeme>)
    requires DerivesAnd(e, pre)
    ensures ParseAnd(pre + rest) == AndLoop(e, rest)
    decreases |pre|, 1
  {
    hide DerivesNot, DerivesOr, ParseNot;
    if DerivesNot(e, pre) {
      NotComplete(e, pre, rest);
    } else {
      var k :| 0 < k < |pre| && DerivesAnd(e.left, pre[..k])
               && (DerivesNot(e.right, pre[k..]) || (pre[k].kind == AndWord && DerivesNot(e.right, pre[k + 1..])));
      var more := pre[k..] + rest;
      assert pre + rest == pre[..k] + more;
      AndComplete(e.left, pre[..k], more);
      assert more[0] == pre[k];
      if pre[k].kind == AndWord {
        assert DerivesNot(e.right, pre[k + 1..]) by { StartOfNotIf(e.right, pre[k..]); }
        assert more[1..] == pre[k + 1..] + rest;
        NotComplete(e.right, pre[k + 1..], rest);
      } else {
        StartOfNot(e.right, pre[k..]);
        NotComplete(e.right, pre[k..], rest);
      }
    }
  }

  /** A conjunction that ends where a disjunction may go on. */
  lemma ConjunctionEnds(ls: seq<Lexeme>, e: Expr, rest: seq<Lexeme>)
    requires ParseAnd(ls) == AndLoop(e, rest) && Stops(rest)
    ensures ParseAnd(ls) == Ok(e, rest) && ParseOr(ls) == OrLoop(e, rest)
  {
    hide ParseAnd, OrLoop;
  }

  lemma DisjunctionGoesOn(left: Expr, more: seq<Lexeme>, right: Expr, rest: seq<Lexeme>)
    requires more != [] && more[0].kind == OrWord && ParseAnd(more[1..]) == Ok(right, rest)
    ensures OrLoop(left, more) == OrLoop(OrOf(left, right), rest)
  {
    hide ParseAnd;
  }

  lemma {:induction false} OrComplete(e: Expr, pre: seq<Lexeme>, rest: seq<Lexeme>)
    requires DerivesOr(e, pre) && Stops(rest)
    ensures ParseOr(pre + rest) == OrLoop(e, rest)
    decreases |pre|, 2
  {
    hide DerivesNot, DerivesAnd, ParseAnd, ParseNot, ParseOr, OrLoop, AndLoop;
    if DerivesAnd(e, pre) {
      AndComplete(e, pre, rest);
      ConjunctionEnds(pre + rest, e, rest);
    } else {
      var k :| 0 <= k < |pre| && pre[k].kind == OrWord && DerivesOr(e.left, pre[..k]) && DerivesAnd(e.right, pre[k + 1..]);
      var more := pre[k..] + rest;
      assert pre + rest == pre[..k] + more && more[0] == pre[k] && more[1..] == pre[k + 1..] + rest;
      OrComplete(e.left, pre[..k], more);
      AndComplete(e.right, pre[k + 1..], rest);
      ConjunctionEnds(more[1..], e.right, rest);
      DisjunctionGoesOn(e.left, more, e.right, rest);
    }
  }

  /** The parser accepts exactly what the grammar derives, with the tree the grammar gives it. */
  lemma ParsesExactlyTheGrammar(ls: seq<Lexeme>, e: Expr)
    ensures Parse(ls) == Some(e) <==> DerivesOr(e, ls)
  {
    if DerivesOr(e, ls) {
      OrComplete(e, ls, []);
      assert ls + [] == ls;
    }
    if Parse(ls) == Some(e) {
      var used := OrSound(ls);
      assert used + [] == used;
    }
  }

  /** The grammar is unambiguous: a lexeme list derives at most one tree. */
  lemma GrammarIsUnambiguous(ls: seq<Lexeme>, a: Expr, b: Expr)
    requires DerivesOr(a, ls) && DerivesOr(b, ls)
    ensures a == b
  {
    ParsesExactlyTheGrammar(ls, a);
    ParsesExactlyTheGrammar(ls, b);
  }

  // ---- round trip through characters ----------------------------------------------------------------

  function Escaped(v: string): string {
    if v == "" then ""
    else if v[0] == '\"' || v[0] == '\\' then ['\\', v[0]] + Escaped(v[1..])
    else [v[0]] + Escaped(v[1..])
  }

  function Print(e: Expr): string {
    match e
    case TermOf(v) => "\"" + (Escaped(v) + "\"")
    case NotOf(x) => "not" + (" " + Print(x))
    case AndOf(l, r) => "(" + (Print(l) + (" " + ("and" + (" " + (Print(r) + ")")))))
    case OrOf(l, r) => "(" + (Print(l) + (" " + ("or" + (" " + (Print(r) + ")")))))
  }

  function Lexemes(e: Expr): seq<Lexeme> {
    match e
    case TermOf(v) => [Lexeme(Term, v)]
    case NotOf(x) => [Lexeme(NotWord, "not")] + Lexemes(x)
    case AndOf(l, r) => [Lexeme(Left, "(")] + (Lexemes(l) + ([Lexeme(AndWord, "and")] + (Lexemes(r) + [Lexeme(Right, ")")])))
    case OrOf(l, r) => [Lexeme(Left, "(")] + (Lexemes(l) + ([Lexeme(OrWord, "or")] + (Lexemes(r) + [Lexeme(Right, ")")])))
  }

  lemma {:induction false} EscapedReadsBack(v: string, rest: string)
    ensures Quoted(Escaped(v) + ("\"" + rest)) == QuotedText(v, true, rest)
  {
    hide Quoted;
    var close := "\"" + rest;
    if v == "" {
      assert Escaped(v) + close == ['\"'] + rest;
      QuotedSteps('a', rest);
    } else {
      EscapedReadsBack(v[1..], rest);
      var tail := Escaped(v[1..]) + close;
      QuotedSteps(v[0], tail);
      var head := if v[0] == '\"' || v[0] == '\\' then ['\\', v[0]] else [v[0]];
      assert Escaped(v) == head + Escaped(v[1..]);
      assert (head + Escaped(v[1..])) + close == head + tail;
      assert [v[0]] + v[1..] == v;
    }
  }

  /** A keyword between spaces is read as that keyword. */
  lemma KeywordReadsBack(word: string, rest: string)
    requires word == "and" || word == "or" || word == "not"
    ensures Lex(word + (" " + rest)) == [Lexeme(KindOf(word), word)] + Lex(rest)
  {
    var after := " " + rest;
    var s := word + after;
    assert after[0] == ' ' && after[1..] == rest;
    WordBeforeSpace(word, after);
    assert s[..|word|] == word && s[|word|..] == after;
  }

  lemma {:induction false} WordBeforeSpace(word: string, after: string)
    requires after != "" && IsSpace(after[0])
    requires forall i :: 0 <= i < |word| ==> 'a' <= word[i] <= 'z'
    ensures WordLength(word + after, false) == |word|
  {
    if word == "" {
      assert word + after == after;
    } else {
      assert (word + after)[0] == word[0] && (word + after)[1..] == word[1..] + after;
      WordBeforeSpace(word[1..], after);
    }
  }

  lemma SpaceIsSkipped(rest: string)
    ensures Lex(" " + rest) == Lex(rest)
  {
    assert (" " + rest)[1..] == rest;
  }

  lemma ParenReadsBack(rest: string)
    ensures Lex("(" + rest) == [Lexeme(Left, "(")] + Lex(rest)
    ensures Lex(")" + rest) == [Lexeme(Right, ")")] + Lex(rest)
  {
    assert ("(" + rest)[1..] == rest && (")" + rest)[1..] == rest;
  }

  function Size(e: Expr): nat {
    match e
    case TermOf(_) => 1
    case NotOf(x) => 1 + Size(x)
    case AndOf(l, r) => 1 + Size(l) + Size(r)
    case OrOf(l, r) => 1 + Size(l) + Size(r)
  }

  lemma {:induction false} SizePositive(e: Expr)
    ensures Size(e) > 0
  {
  }

  /** A binary operator's printed form, read back piece by piece. */
  lemma {:induction false} BinaryReadsBack(l: Expr, word: string, r: Expr, rest: string)
    requires word == "and" || word == "or"
    ensures Lex("(" + (Print(l) + (" " + (word + (" " + (Print(r) + (")" + rest)))))))
         == [Lexeme(Left, "(")] + (Lexemes(l) + ([Lexeme(KindOf(word), word)] + (Lexemes(r) + ([Lexeme(Right, ")")] + Lex(rest)))))
    decreases Size(l) + Size(r), 1
  {
    hide Lex, Print, Lexemes, KindOf;
    SizePositive(l);
    SizePositive(r);
    var s4 := ")" + rest;
    var s3 := Print(r) + s4;
    var s2 := " " + (word + (" " + s3));
    ParenReadsBack(Print(l) + s2);
    PrintReadsBack(l, s2);
    SpaceIsSkipped(word + (" " + s3));
    KeywordReadsBack(word, s3);
    PrintReadsBack(r, s4);
    ParenReadsBack(rest);
  }

  lemma TermReadsBack(v: string, rest: string)
    ensures Lex("\"" + (Escaped(v) + ("\"" + rest))) == [Lexeme(Term, v)] + Lex(rest)
  {
    hide Quoted, Escaped, WordLength;
    var s := "\"" + (Escaped(v) + ("\"" + rest));
    assert s[1..] == Escaped(v) + ("\"" + rest);
    EscapedReadsBack(v, rest);
  }

  lemma KeywordKinds()
    ensures KindOf("and") == AndWord && KindOf("or") == OrWord && KindOf("not") == NotWord
  {
    assert Lower("or"[0]) != "and"[0] && Lower("not"[0]) != "and"[0] && |"not"| != |"or"|;
  }

  lemma Rejoin(a: string, b: string, c: string)
    ensures (a + b) + c == a + (b + c)
  {
  }

  lemma RejoinBinary(pl: string, word: string, pr: string, rest: string)
    ensures ("(" + (pl + (" " + (word + (" " + (pr + ")")))))) + rest
         == "(" + (pl + (" " + (word + (" " + (pr + (")" + rest))))))
  {
    var s5 := pr + ")";
    var s4 := " " + s5;
    var s3 := word + s4;
    var s2 := " " + s3;
    var s1 := pl + s2;
    Rejoin("(", s1, rest);
    Rejoin(pl, s2, rest);
    Rejoin(" ", s3, rest);
    Rejoin(word, s4, rest);
    Rejoin(" ", s5, rest);
    Rejoin(pr, ")", rest);
  }

  /** The lexemes of a binary expression, grouped the way they are read. */
  lemma RegroupBinary(l: seq<Lexeme>, word: Lexeme, r: seq<Lexeme>, rest: seq<Lexeme>)
    ensures ([Lexeme(Left, "(")] + (l + ([word] + (r + [Lexeme(Right, ")")])))) + rest
         == [Lexeme(Left, "(")] + (l + ([word] + (r + ([Lexeme(Right, ")")] + rest))))
  {
    var close := [Lexeme(Right, ")")];
    Regroup([Lexeme(Left, "(")], l + ([word] + (r + close)), rest);
    Regroup(l, [word] + (r + close), rest);
    Regroup([word], r + close, rest);
    Regroup(r, close, rest);
  }

  lemma {:induction false} PrintReadsBack(e: Expr, rest: string)
    ensures Lex(Print(e) + rest) == Lexemes(e) + Lex(rest)
    decreases Size(e), 0
  {
    hide Lex, Escaped, KindOf;
    KeywordKinds();
    match e
    case TermOf(v) =>
      Rejoin("\"", Escaped(v) + "\"", rest);
      Rejoin(Escaped(v), "\"", rest);
      TermReadsBack(v, rest);
    case NotOf(x) =>
      Rejoin("not", " " + Print(x), rest);
      Rejoin(" ", Print(x), rest);
      KeywordReadsBack("not", Print(x) + rest);
      PrintReadsBack(x, rest);
      Regroup([Lexeme(NotWord, "not")], Lexemes(x), Lex(rest));
    case AndOf(l, r) =>
      RejoinBinary(Print(l), "and", Print(r), rest);
      BinaryReadsBack(l, "and", r, rest);
      RegroupBinary(Lexemes(l), Lexeme(AndWord, "and"), Lexemes(r), Lex(rest));
    case OrOf(l, r) =>
      RejoinBinary(Print(l), "or", Print(r), rest);
      BinaryReadsBack(l, "or", r, rest);
      RegroupBinary(Lexemes(l), Lexeme(OrWord, "or"), Lexemes(r), Lex(rest));
  }

  lemma {:induction false} LexemesDerive(e: Expr)
    ensures DerivesNot(e, Lexemes(e))
  {
    hide DerivesOr, DerivesAnd;
    match e
    case TermOf(v) =>
    case NotOf(x) =>
      LexemesDerive(x);
      NotIntro(Lexeme(NotWord, "not"), x, Lexemes(x));
    case AndOf(l, r) =>
      LexemesDerive(l);
      LexemesDerive(r);
      Upwards(l, Lexemes(l));
      AndIntro(l, Lexemes(l), [Lexeme(AndWord, "and")], r, Lexemes(r));
      InParens(e, Lexemes(l) + ([Lexeme(AndWord, "and")] + Lexemes(r)));
      assert Lexemes(e) == [Lexeme(Left, "(")] + (Lexemes(l) + ([Lexeme(AndWord, "and")] + Lexemes(r)) + [Lexeme(Right, ")")]);
    case OrOf(l, r) =>
      LexemesDerive(l);
      LexemesDerive(r);
      Upwards(l, Lexemes(l));
      Upwards(r, Lexemes(r));
      OrIntro(l, Lexemes(l), Lexeme(OrWord, "or"), r, Lexemes(r));
      InParens(e, Lexemes(l) + ([Lexeme(OrWord, "or")] + Lexemes(r)));
      assert Lexemes(e) == [Lexeme(Left, "(")] + (Lexemes(l) + ([Lexeme(OrWord, "or")] + Lexemes(r)) + [Lexeme(Right, ")")]);
  }

  lemma Upwards(e: Expr, ls: seq<Lexeme>)
    requires DerivesNot(e, ls)
    ensures DerivesAnd(e, ls) && DerivesOr(e, ls)
  {
  }

  lemma InParens(e: Expr, ls: seq<Lexeme>)
    requires DerivesAnd(e, ls) || DerivesOr(e, ls)
    ensures DerivesNot(e, [Lexeme(Left, "(")] + (ls + [Lexeme(Right, ")")]))
  {
    ParenIntro(Lexeme(Left, "("), e, ls, Lexeme(Right, ")"));
  }

  /**
    Printing any expression with quoted, escaped terms and explicit parentheses and parsing the
    text gives the expression back, whatever its terms spell or contain.
   */
  lemma PrintedQueryParsesBack(e: Expr)
    ensures Parse(Lex(Print(e))) == Some(e)
  {
    PrintReadsBack(e, "");
    assert Print(e) + "" == Print(e) && Lexemes(e) + [] == Lexemes(e);
    LexemesDerive(e);
    Upwards(e, Lexemes(e));
    ParsesExactlyTheGrammar(Lexemes(e), e);
  }
}
