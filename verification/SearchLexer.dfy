/** Splitting a boolean search query into lexemes (`lexSearchExpression`). */
module SearchLexer {
  datatype Kind = Term | AndWord | OrWord | NotWord | Left | Right

  datatype Lexeme = Lexeme(kind: Kind, value: string)

  /** The white space of the source's regular expressions. */
  predicate IsSpace(c: char) {
    || c == ' ' || '\t' <= c <= '\r'
    || c == '\U{00A0}' || c == '\U{1680}' || '\U{2000}' <= c <= '\U{200A}'
    || c == '\U{2028}' || c == '\U{2029}' || c == '\U{202F}' || c == '\U{205F}' || c == '\U{3000}' || c == '\U{FEFF}'
  }

  function Lower(c: char): char {
    if 'A' <= c <= 'Z' then c - 'A' + 'a' else c
  }

  predicate Spells(word: string, keyword: string) {
    |word| == |keyword| && forall i :: 0 <= i < |word| ==> Lower(word[i]) == keyword[i]
  }

  function KindOf(word: string): Kind {
    if Spells(word, "and") then AndWord
    else if Spells(word, "or") then OrWord
    else if Spells(word, "not") then NotWord
    else Term
  }

  /** The text after an opening quote: its value with escapes undone, whether it closes, what follows. */
  datatype QuotedText = QuotedText(value: string, closed: bool, rest: string)

  function Quoted(s: string): (q: QuotedText)
    ensures |q.rest| <= |s|
    decreases |s|
  {
    if s == "" then QuotedText("", false, "")
    else if s[0] == '\\' && |s| > 1 then var q := Quoted(s[2..]); q.(value := [s[1]] + q.value)
    else if s[0] == '\"' then QuotedText("", true, s[1..])
    else var q := Quoted(s[1..]); q.(value := [s[0]] + q.value)
  }

  lemma QuotedSteps(c: char, t: string)
    ensures Quoted(['\\', c] + t) == Quoted(t).(value := [c] + Quoted(t).value)
    ensures Quoted(['\"'] + t) == QuotedText("", true, t)
    ensures c != '\"' && (c != '\\' || t == "") ==> Quoted([c] + t) == Quoted(t).(value := [c] + Quoted(t).value)
  {
    var escaped, plain, close := ['\\', c] + t, [c] + t, ['\"'] + t;
    assert escaped[0] == '\\' && escaped[1] == c && escaped[2..] == t;
    assert plain[0] == c && plain[1..] == t;
    assert close[0] == '\"' && close[1..] == t;
  }

  function QuotedTerm(q: QuotedText): Lexeme {
    Lexeme(Term, if q.closed then q.value else "\"" + q.value)
  }

  /** How far a bare word reaches; quotes inside it protect spaces and parentheses. */
  function WordLength(s: string, quoted: bool): (n: nat)
    ensures n <= |s|
    decreases |s|
  {
    if s == "" then 0
    else if s[0] == '\\' && quoted && |s| > 1 then 2 + WordLength(s[2..], quoted)
    else
      var q := if s[0] == '\"' then !quoted else quoted;
      if !q && (IsSpace(s[0]) || s[0] == '(' || s[0] == ')') then 0 else 1 + WordLength(s[1..], q)
  }

  function Lex(s: string): seq<Lexeme>
    decreases |s|
  {
    if s == "" then []
    else if IsSpace(s[0]) then Lex(s[1..])
    else if s[0] == '(' then [Lexeme(Left, "(")] + Lex(s[1..])
    else if s[0] == ')' then [Lexeme(Right, ")")] + Lex(s[1..])
    else if s[0] == '\"' then [QuotedTerm(Quoted(s[1..]))] + Lex(Quoted(s[1..]).rest)
    else
      var n := WordLength(s, false);
      assert n > 0;
      [Lexeme(KindOf(s[..n]), s[..n])] + Lex(s[n..])
  }

  lemma DropDrop(s: string, i: nat, j: nat)
    requires i + j <= |s|
    ensures s[i..][j..] == s[i + j..]
  {
  }

  /** One step of the lexer at `index`: what it emits and where it goes on. */
  lemma LexStep(query: string, index: nat, emitted: seq<Lexeme>, next: nat, result: seq<Lexeme>)
    requires index < next <= |query|
    requires Lex(query[index..]) == emitted + Lex(query[next..])
    requires result + Lex(query[index..]) == Lex(query)
    ensures (result + emitted) + Lex(query[next..]) == Lex(query)
  {
    hide Lex;
    var rest := Lex(query[next..]);
    assert result + (emitted + rest) == (result + emitted) + rest;
  }

  lemma LexOne(query: string, index: nat)
    requires index < |query|
    ensures var c, tail := query[index], Lex(query[index + 1..]);
            && (IsSpace(c) ==> Lex(query[index..]) == [] + tail)
            && (!IsSpace(c) && c == '(' ==> Lex(query[index..]) == [Lexeme(Left, "(")] + tail)
            && (!IsSpace(c) && c == ')' ==> Lex(query[index..]) == [Lexeme(Right, ")")] + tail)
  {
    hide IsSpace, KindOf, Quoted, WordLength;
    DropDrop(query, index, 1);
  }

  /** A character that starts a term. */
  predicate StartsTerm(c: char) {
    !IsSpace(c) && c != '(' && c != ')'
  }

  lemma LexOneTerm(s: string)
    requires s != "" && StartsTerm(s[0])
    ensures s[0] == '\"' ==> Lex(s) == [QuotedTerm(Quoted(s[1..]))] + Lex(Quoted(s[1..]).rest)
    ensures s[0] != '\"' ==>
              var n := WordLength(s, false);
              n > 0 && Lex(s) == [Lexeme(KindOf(s[..n]), s[..n])] + Lex(s[n..])
  {
    hide KindOf, Quoted, QuotedTerm, IsSpace;
  }

  lemma LexLonger(query: string, index: nat)
    requires index < |query| && StartsTerm(query[index])
    ensures query[index] == '\"' ==>
              Lex(query[index..]) == [QuotedTerm(Quoted(query[index + 1..]))] + Lex(Quoted(query[index + 1..]).rest)
    ensures query[index] != '\"' ==>
              var n := WordLength(query[index..], false);
              n > 0 && Lex(query[index..]) == [Lexeme(KindOf(query[index..index + n]), query[index..index + n])] + Lex(query[index + n..])
  {
    hide KindOf, Quoted, QuotedTerm, Lex, IsSpace, WordLength;
    var s := query[index..];
    LexOneTerm(s);
    var n := WordLength(s, false);
    DropDrop(query, index, 1);
    DropDrop(query, index, n);
    assert s[..n] == query[index..index + n];
  }

  /** The lexer as the source writes it: one index moved over the query. */
  method LexSearchExpression(query: string) returns (result: seq<Lexeme>)
    ensures result == Lex(query)
  {
    hide KindOf, IsSpace, WordLength, Quoted, Lex;
    result := [];
    var index := 0;
    assert query[0..] == query && [] + Lex(query) == Lex(query);
    while index < |query|
      invariant index <= |query|
      invariant result + Lex(query[index..]) == Lex(query)
    {
      LexOne(query, index);
      if IsSpace(query[index]) {
        LexStep(query, index, [], index + 1, result);
        assert result + [] == result;
        index := index + 1;
      } else if query[index] == '(' {
        LexStep(query, index, [Lexeme(Left, "(")], index + 1, result);
        result := result + [Lexeme(Left, "(")];
        index := index + 1;
      } else if query[index] == ')' {
        LexStep(query, index, [Lexeme(Right, ")")], index + 1, result);
        result := result + [Lexeme(Right, ")")];
        index := index + 1;
      } else if query[index] == '\"' {
        LexLonger(query, index);
        var lexeme, next := LexQuoted(query, index + 1);
        LexStep(query, index, [lexeme], next, result);
        result := result + [lexeme];
        index := next;
      } else {
        LexLonger(query, index);
        var next := LexWord(query, index);
        var word := query[index..next];
        LexStep(query, index, [Lexeme(KindOf(word), word)], next, result);
        result := result + [Lexeme(KindOf(word), word)];
        index := next;
      }
    }
    assert Lex(query[|query|..]) == [] by { LexEmpty(); assert query[|query|..] == ""; }
    assert result + [] == result;
  }

  lemma LexEmpty()
    ensures Lex("") == []
  {
  }

  method LexQuoted(query: string, start: nat) returns (lexeme: Lexeme, index: nat)
    requires start <= |query|
    ensures start <= index <= |query|
    ensures lexeme == QuotedTerm(Quoted(query[start..])) && query[index..] == Quoted(query[start..]).rest
  {
    var value, closed := "", false;
    ghost var whole := Quoted(query[start..]);
    index := start;
    while index < |query|
      invariant start <= index <= |query|
      invariant !closed && Continues(whole, value, Quoted(query[index..]))
    {
      hide Quoted;
      QuotedAdvance(query, index);
      var character := query[index];
      index := index + 1;
      if character == '\\' && index < |query| {
        ReadMore(whole, value, query[index], Quoted(query[index + 1..]));
        value := value + [query[index]];
        index := index + 1;
        continue;
      }
      if character == '\"' {
        closed := true;
        break;
      }
      ReadMore(whole, value, character, Quoted(query[index..]));
      value := value + [character];
    }
    assert value + "" == value;
    lexeme := Lexeme(Term, if closed then value else "\"" + value);
  }

  lemma QuotedAdvance(query: string, index: nat)
    requires index < |query|
    ensures var c, here := query[index], Quoted(query[index..]);
            if c == '\\' && index + 1 < |query| then here == Longer(query[index + 1], Quoted(query[index + 2..]))
            else if c == '\"' then here == QuotedText("", true, query[index + 1..])
            else here == Longer(c, Quoted(query[index + 1..]))
  {
    hide Quoted;
    var c := query[index];
    assert query[index..] == [c] + query[index + 1..];
    QuotedSteps(c, query[index + 1..]);
    if index + 1 < |query| {
      assert query[index..] == [c, query[index + 1]] + query[index + 2..];
      QuotedSteps(query[index + 1], query[index + 2..]);
    }
  }

  function Longer(c: char, q: QuotedText): QuotedText {
    q.(value := [c] + q.value)
  }

  lemma ReadMore(whole: QuotedText, value: string, c: char, q: QuotedText)
    requires Continues(whole, value, Longer(c, q))
    ensures Continues(whole, value + [c], q)
  {
    assert value + ([c] + q.value) == (value + [c]) + q.value;
  }

  /** The whole quoted text is what was read so far followed by what remains. */
  ghost predicate Continues(whole: QuotedText, value: string, remaining: QuotedText) {
    whole == remaining.(value := value + remaining.value)
  }

  method LexWord(query: string, start: nat) returns (index: nat)
    requires start < |query|
    ensures start <= index <= |query| && index == start + WordLength(query[start..], false)
  {
    index := start;
    var quoted := false;
    while index < |query|
      invariant start <= index <= |query|
      invariant index + WordLength(query[index..], quoted) == start + WordLength(query[start..], false)
    {
      var character := query[index];
      DropDrop(query, index, 1);
      if index + 2 <= |query| {
        DropDrop(query, index, 2);
      }
      if character == '\\' && quoted && index + 1 < |query| {
        index := index + 2;
        continue;
      }
      if character == '\"' {
        quoted := !quoted;
      }
      if !quoted && (IsSpace(character) || character == '(' || character == ')') {
        break;
      }
      index := index + 1;
    }
  }
}
