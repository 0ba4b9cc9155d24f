/** What the lexer takes for a bare word, a keyword and an unclosed quotation. */
module SearchWords {
  import opened Options
  import opened SearchLexer
  import opened SearchParser

  /** A piece of a bare word: plain characters, or a quotation inside it. */
  datatype Chunk = PlainChunk(text: string) | QuotedChunk(value: string)

  predicate Delimits(c: char) {
    IsSpace(c) || c == '(' || c == ')'
  }

  /** Characters that neither end a word nor open a quotation. */
  predicate IsPlain(text: string) {
    forall i :: 0 <= i < |text| ==> !Delimits(text[i]) && text[i] != '\"'
  }

  function Written(c: Chunk): string {
    match c
    case PlainChunk(text) => text
    case QuotedChunk(value) => "\"" + (Escaped(value) + "\"")
  }

  function WrittenAll(cs: seq<Chunk>): string {
    if cs == [] then "" else Written(cs[0]) + WrittenAll(cs[1..])
  }

  ghost predicate WellFormed(cs: seq<Chunk>) {
    forall i :: 0 <= i < |cs| && cs[i].PlainChunk? ==> IsPlain(cs[i].text)
  }

  /** What may follow a word: nothing, white space or a parenthesis. */
  predicate EndsWord(rest: string) {
    rest == "" || Delimits(rest[0])
  }

  lemma WordStep(c: char, tail: string, quoted: bool)
    requires !(c == '\\' && quoted && tail != "")
    ensures var q := if c == '\"' then !quoted else quoted;
            WordLength([c] + tail, quoted) == if !q && Delimits(c) then 0 else 1 + WordLength(tail, q)
  {
    var s := [c] + tail;
    assert s[0] == c && s[1..] == tail && |s| == 1 + |tail|;
  }

  lemma WordEscape(c: char, tail: string)
    ensures WordLength(['\\', c] + tail, true) == 2 + WordLength(tail, true)
  {
    var s := ['\\', c] + tail;
    assert s[0] == '\\' && s[2..] == tail && |s| > 1;
  }

  lemma {:induction false} PlainIsRead(text: string, rest: string)
    requires IsPlain(text)
    ensures WordLength(text + rest, false) == |text| + WordLength(rest, false)
  {
    hide WordLength;
    if text == "" {
      assert text + rest == rest;
    } else {
      assert text + rest == [text[0]] + (text[1..] + rest);
      WordStep(text[0], text[1..] + rest, false);
      PlainIsRead(text[1..], rest);
    }
  }

  /** Inside a quotation spaces and parentheses are part of the word, and escapes hide quotes. */
  lemma {:induction false} QuotationIsRead(v: string, rest: string)
    requires rest != ""
    ensures WordLength(Escaped(v) + rest, true) == |Escaped(v)| + WordLength(rest, true)
  {
    hide WordLength;
    if v == "" {
      assert Escaped(v) + rest == rest;
    } else {
      var tail := Escaped(v[1..]) + rest;
      QuotationIsRead(v[1..], rest);
      if v[0] == '\"' || v[0] == '\\' {
        assert Escaped(v) + rest == ['\\', v[0]] + tail;
        WordEscape(v[0], tail);
      } else {
        assert Escaped(v) + rest == [v[0]] + tail;
        WordStep(v[0], tail, true);
      }
    }
  }

  lemma ChunkIsRead(c: Chunk, rest: string)
    requires c.PlainChunk? ==> IsPlain(c.text)
    ensures WordLength(Written(c) + rest, false) == |Written(c)| + WordLength(rest, false)
  {
    hide WordLength;
    match c
    case PlainChunk(text) => PlainIsRead(text, rest);
    case QuotedChunk(v) =>
      var inner := Escaped(v) + ("\"" + rest);
      assert Written(c) + rest == ['\"'] + inner;
      WordStep('\"', inner, false);
      QuotationIsRead(v, "\"" + rest);
      assert "\"" + rest == ['\"'] + rest;
      WordStep('\"', rest, true);
  }

  lemma {:induction false} WordIsRead(cs: seq<Chunk>, rest: string)
    requires WellFormed(cs) && EndsWord(rest)
    ensures WordLength(WrittenAll(cs) + rest, false) == |WrittenAll(cs)|
  {
    hide Written;
    if cs == [] {
      assert WrittenAll(cs) + rest == rest;
    } else {
      var tail := WrittenAll(cs[1..]) + rest;
      assert WrittenAll(cs) + rest == Written(cs[0]) + tail;
      ChunkIsRead(cs[0], tail);
      WordIsRead(cs[1..], rest);
    }
  }

  /**
    A bare word starts with a plain character and goes on over plain characters and quotations; before
    white space, a parenthesis or the end it is lexed to itself, quotes and all.
   */
  lemma BareWordReadsBack(cs: seq<Chunk>, rest: string)
    requires WellFormed(cs) && cs != [] && cs[0].PlainChunk? && cs[0].text != "" && EndsWord(rest)
    ensures var w := WrittenAll(cs); Lex(w + rest) == [Lexeme(KindOf(w), w)] + Lex(rest)
  {
    hide WordLength, KindOf, Quoted, Lex;
    var w := WrittenAll(cs);
    var s := w + rest;
    WordIsRead(cs, rest);
    assert s[0] == cs[0].text[0] && !Delimits(s[0]) && s[0] != '\"';
    LexOneTerm(s);
    assert s[..|w|] == w && s[|w|..] == rest;
  }

  predicate Either(c: char, lower: char, upper: char) {
    c == lower || c == upper
  }

  /** Exactly the three operators in any mix of capitals are keywords; every other word is a term. */
  lemma KeywordsInAnyCase(w: string)
    ensures KindOf(w) == AndWord <==> |w| == 3 && Either(w[0], 'a', 'A') && Either(w[1], 'n', 'N') && Either(w[2], 'd', 'D')
    ensures KindOf(w) == OrWord <==> |w| == 2 && Either(w[0], 'o', 'O') && Either(w[1], 'r', 'R')
    ensures KindOf(w) == NotWord <==> |w| == 3 && Either(w[0], 'n', 'N') && Either(w[1], 'o', 'O') && Either(w[2], 't', 'T')
    ensures KindOf(w) == Term <==> KindOf(w) != AndWord && KindOf(w) != OrWord && KindOf(w) != NotWord
  {
    SpellsThree(w, "and");
    SpellsThree(w, "not");
    assert Spells(w, "or") <==> |w| == 2 && Lower(w[0]) == 'o' && Lower(w[1]) == 'r';
  }

  lemma SpellsThree(w: string, keyword: string)
    requires |keyword| == 3
    ensures Spells(w, keyword) <==> |w| == 3 && Lower(w[0]) == keyword[0] && Lower(w[1]) == keyword[1] && Lower(w[2]) == keyword[2]
  {
  }

  lemma {:induction false} UnclosedReads(v: string)
    ensures Quoted(Escaped(v)) == QuotedText(v, false, "")
  {
    hide Quoted;
    if v == "" {
      NothingQuoted();
    } else {
      UnclosedReads(v[1..]);
      var tail := Escaped(v[1..]);
      QuotedSteps(v[0], tail);
      assert [v[0]] + v[1..] == v;
    }
  }

  lemma NothingQuoted()
    ensures Quoted("") == QuotedText("", false, "")
  {
  }

  /** A quotation that is never closed is one term to the end of the query, its opening quote included. */
  lemma UnclosedQuotationReadsBack(v: string)
    ensures Lex("\"" + Escaped(v)) == [Lexeme(Term, "\"" + v)]
  {
    hide Quoted, WordLength, KindOf, Lex;
    var s := "\"" + Escaped(v);
    assert s[0] == '\"' && s[1..] == Escaped(v);
    LexOneTerm(s);
    UnclosedReads(v);
    LexEmpty();
    assert [Lexeme(Term, "\"" + v)] + [] == [Lexeme(Term, "\"" + v)];
  }

  /** White space separates and parentheses stand alone, wherever they come. */
  lemma DelimitersReadBack(c: char, rest: string)
    requires Delimits(c)
    ensures Lex([c] + rest) ==
            if IsSpace(c) then Lex(rest)
            else if c == '(' then [Lexeme(Left, "(")] + Lex(rest)
            else [Lexeme(Right, ")")] + Lex(rest)
  {
    hide IsSpace, KindOf, Quoted, WordLength;
    var s := [c] + rest;
    assert s[0] == c && s[1..] == rest;
  }
}
