/**
  Evaluating a parsed query against a ticket (`evaluateSearchExpression`) and collecting the
  structured terms whose answers must be fetched first (`structuredSearchTerms`). How a term is
  recognized and how a plain term matches a ticket are parameters.
 */
module SearchEvaluation {
  import opened Options
  import opened SearchLexer
  import opened SearchParser

  /** A structured term; `raw` is its canonical text, the key it is collected under. */
  datatype Token = Token(raw: string, detail: string)

  type Recognizer = string -> Option<Token>

  function Evaluate<T>(
    ticket: T, e: Expr, matchesPlain: (T, string) -> bool, recognize: Recognizer, resolve: Option<(T, Token) -> bool>
  ): bool
  {
    match e
    case TermOf(v) =>
      if resolve.Some? && recognize(v).Some? then resolve.value(ticket, recognize(v).value) else matchesPlain(ticket, v)
    case NotOf(x) => !Evaluate(ticket, x, matchesPlain, recognize, resolve)
    case AndOf(l, r) =>
      Evaluate(ticket, l, matchesPlain, recognize, resolve) && Evaluate(ticket, r, matchesPlain, recognize, resolve)
    case OrOf(l, r) =>
      Evaluate(ticket, l, matchesPlain, recognize, resolve) || Evaluate(ticket, r, matchesPlain, recognize, resolve)
  }

  /** `matchesSearchExpression`: a query that does not parse is matched as one plain text. */
  function Matches<T>(
    ticket: T, query: string, matchesPlain: (T, string) -> bool, contains: (T, string) -> bool,
    recognize: Recognizer, resolve: Option<(T, Token) -> bool>
  ): bool
  {
    match Parse(Lex(query))
    case Some(e) => Evaluate(ticket, e, matchesPlain, recognize, resolve)
    case None => contains(ticket, query)
  }

  /** The collecting walk: a later term with the same raw text replaces an earlier one. */
  function Visit(found: map<string, Token>, e: Expr, recognize: Recognizer): map<string, Token>
    decreases e
  {
    match e
    case TermOf(v) => if recognize(v).Some? then found[recognize(v).value.raw := recognize(v).value] else found
    case NotOf(x) => Visit(found, x, recognize)
    case AndOf(l, r) => Visit(Visit(found, l, recognize), r, recognize)
    case OrOf(l, r) => Visit(Visit(found, l, recognize), r, recognize)
  }

  function StructuredTerms(query: string, recognize: Recognizer): map<string, Token> {
    match Parse(Lex(query))
    case Some(e) => Visit(map[], e, recognize)
    case None => map[]
  }

  function Terms(e: Expr): set<string> {
    match e
    case TermOf(v) => {v}
    case NotOf(x) => Terms(x)
    case AndOf(l, r) => Terms(l) + Terms(r)
    case OrOf(l, r) => Terms(l) + Terms(r)
  }

  /** No two terms of the query are different structured terms with the same raw text. */
  ghost predicate RawDetermines(vs: set<string>, recognize: Recognizer) {
    forall v, w :: v in vs && w in vs && recognize(v).Some? && recognize(w).Some? ==>
      recognize(v).value.raw == recognize(w).value.raw ==> recognize(v) == recognize(w)
  }

  /** Every structured term of `vs` is in `found`. */
  ghost predicate HoldsAll(found: map<string, Token>, vs: set<string>, recognize: Recognizer) {
    forall v :: v in vs && recognize(v).Some? ==>
      recognize(v).value.raw in found && found[recognize(v).value.raw] == recognize(v).value
  }

  /** Whatever the walk recorded under a raw text came from a term, the last one visited. */
  ghost predicate FromTerms(found: map<string, Token>, before: map<string, Token>, vs: set<string>, recognize: Recognizer) {
    forall raw :: raw in found ==>
      || (raw in before && found[raw] == before[raw])
      || (exists v :: v in vs && recognize(v) == Some(found[raw]) && found[raw].raw == raw)
  }

  lemma {:induction false} VisitRecords(found: map<string, Token>, e: Expr, recognize: Recognizer)
    ensures var after := Visit(found, e, recognize);
            && found.Keys <= after.Keys && FromTerms(after, found, Terms(e), recognize)
            && forall v :: v in Terms(e) && recognize(v).Some? ==> recognize(v).value.raw in after
    decreases e, 1
  {
    match e
    case TermOf(v) =>
      assert v in Terms(e);
    case NotOf(x) => VisitRecords(found, x, recognize);
    case AndOf(l, r) => VisitTwo(found, l, r, e, recognize);
    case OrOf(l, r) => VisitTwo(found, l, r, e, recognize);
  }

  lemma {:induction false} VisitTwo(found: map<string, Token>, l: Expr, r: Expr, e: Expr, recognize: Recognizer)
    requires e == AndOf(l, r) || e == OrOf(l, r)
    ensures var after := Visit(found, e, recognize);
            && found.Keys <= after.Keys && FromTerms(after, found, Terms(e), recognize)
            && forall v :: v in Terms(e) && recognize(v).Some? ==> recognize(v).value.raw in after
    decreases e, 0
  {
    VisitRecords(found, l, recognize);
    VisitRecords(Visit(found, l, recognize), r, recognize);
  }

  /** The walk keeps every structured term of the query exactly when no two of them collide. */
  lemma CollectsAllUnlessColliding(e: Expr, recognize: Recognizer)
    ensures HoldsAll(Visit(map[], e, recognize), Terms(e), recognize) <==> RawDetermines(Terms(e), recognize)
  {
    var after := Visit(map[], e, recognize);
    VisitRecords(map[], e, recognize);
    if RawDetermines(Terms(e), recognize) {
      forall v | v in Terms(e) && recognize(v).Some?
        ensures recognize(v).value.raw in after && after[recognize(v).value.raw] == recognize(v).value {
        var raw := recognize(v).value.raw;
        assert raw in after;
        var w :| w in Terms(e) && recognize(w) == Some(after[raw]) && after[raw].raw == raw;
      }
    }
  }

  lemma {:induction false} AgreeingResolvers<T(!new)>(
    ticket: T, e: Expr, matchesPlain: (T, string) -> bool, recognize: Recognizer,
    a: (T, Token) -> bool, b: (T, Token) -> bool, found: map<string, Token>
  )
    requires HoldsAll(found, Terms(e), recognize)
    requires forall raw :: raw in found ==> a(ticket, found[raw]) == b(ticket, found[raw])
    ensures Evaluate(ticket, e, matchesPlain, recognize, Some(a)) == Evaluate(ticket, e, matchesPlain, recognize, Some(b))
  {
    match e
    case TermOf(v) =>
      assert v in Terms(e);
    case NotOf(x) => AgreeingResolvers(ticket, x, matchesPlain, recognize, a, b, found);
    case AndOf(l, r) =>
      AgreeingResolvers(ticket, l, matchesPlain, recognize, a, b, found);
      AgreeingResolvers(ticket, r, matchesPlain, recognize, a, b, found);
    case OrOf(l, r) =>
      AgreeingResolvers(ticket, l, matchesPlain, recognize, a, b, found);
      AgreeingResolvers(ticket, r, matchesPlain, recognize, a, b, found);
  }

  /**
    The collected terms suffice: if no two terms of the query are different tokens with one raw text,
    two resolvers that agree on the collected terms give it the same result, however it nests.
   */
  lemma CollectedTermsSuffice<T(!new)>(
    ticket: T, query: string, matchesPlain: (T, string) -> bool, contains: (T, string) -> bool, recognize: Recognizer,
    a: (T, Token) -> bool, b: (T, Token) -> bool
  )
    requires Parse(Lex(query)).Some? ==> RawDetermines(Terms(Parse(Lex(query)).value), recognize)
    requires var terms := StructuredTerms(query, recognize);
             forall raw :: raw in terms ==> a(ticket, terms[raw]) == b(ticket, terms[raw])
    ensures Matches(ticket, query, matchesPlain, contains, recognize, Some(a))
         == Matches(ticket, query, matchesPlain, contains, recognize, Some(b))
  {
    hide Parse, Lex;
    match Parse(Lex(query))
    case Some(e) =>
      assert StructuredTerms(query, recognize) == Visit(map[], e, recognize);
      CollectsAllUnlessColliding(e, recognize);
      AgreeingResolvers(ticket, e, matchesPlain, recognize, a, b, Visit(map[], e, recognize));
    case None =>
  }

  // ---- what a query means -------------------------------------------------------------------------------

  /** The result of a lexeme list, when it parses. */
  function Meaning<T>(
    ticket: T, ls: seq<Lexeme>, matchesPlain: (T, string) -> bool, recognize: Recognizer, resolve: Option<(T, Token) -> bool>
  ): Option<bool>
  {
    match Parse(ls)
    case Some(e) => Some(Evaluate(ticket, e, matchesPlain, recognize, resolve))
    case None => None
  }

  /** Lexemes that stand for a whole operand of `or`, of `and`, and of `not`. */
  ghost predicate IsDisjunction(ls: seq<Lexeme>) {
    exists e :: DerivesOr(e, ls)
  }

  ghost predicate IsConjunction(ls: seq<Lexeme>) {
    exists e :: DerivesAnd(e, ls)
  }

  ghost predicate IsOperand(ls: seq<Lexeme>) {
    exists e :: DerivesNot(e, ls)
  }

  lemma DerivedMeaning<T(!new)>(
    ticket: T, e: Expr, ls: seq<Lexeme>, matchesPlain: (T, string) -> bool, recognize: Recognizer, resolve: Option<(T, Token) -> bool>
  )
    requires DerivesOr(e, ls)
    ensures Meaning(ticket, ls, matchesPlain, recognize, resolve) == Some(Evaluate(ticket, e, matchesPlain, recognize, resolve))
  {
    hide Parse, DerivesOr;
    ParsesExactlyTheGrammar(ls, e);
  }

  /** A query with `or` between a disjunction and a conjunction is the disjunction of the two. */
  lemma OrMeansOr<T(!new)>(
    ticket: T, a: seq<Lexeme>, word: Lexeme, b: seq<Lexeme>,
    matchesPlain: (T, string) -> bool, recognize: Recognizer, resolve: Option<(T, Token) -> bool>
  )
    requires IsDisjunction(a) && IsConjunction(b) && word.kind == OrWord
    ensures var x, y := Meaning(ticket, a, matchesPlain, recognize, resolve), Meaning(ticket, b, matchesPlain, recognize, resolve);
            x.Some? && y.Some? && Meaning(ticket, a + ([word] + b), matchesPlain, recognize, resolve) == Some(x.value || y.value)
  {
    hide Meaning, DerivesAnd;
    var l :| DerivesOr(l, a);
    var r :| DerivesAnd(r, b);
    OrIntro(l, a, word, r, b);
    assert DerivesOr(r, b);
    DerivedMeaning(ticket, l, a, matchesPlain, recognize, resolve);
    DerivedMeaning(ticket, r, b, matchesPlain, recognize, resolve);
    DerivedMeaning(ticket, OrOf(l, r), a + ([word] + b), matchesPlain, recognize, resolve);
  }

  /** A conjunction followed by an operand, with `and` between them or nothing, is the conjunction of the two. */
  lemma AndMeansAnd<T(!new)>(
    ticket: T, a: seq<Lexeme>, word: seq<Lexeme>, b: seq<Lexeme>,
    matchesPlain: (T, string) -> bool, recognize: Recognizer, resolve: Option<(T, Token) -> bool>
  )
    requires IsConjunction(a) && IsOperand(b) && (word == [] || (|word| == 1 && word[0].kind == AndWord))
    ensures var x, y := Meaning(ticket, a, matchesPlain, recognize, resolve), Meaning(ticket, b, matchesPlain, recognize, resolve);
            x.Some? && y.Some? && Meaning(ticket, a + (word + b), matchesPlain, recognize, resolve) == Some(x.value && y.value)
  {
    hide Meaning, DerivesNot;
    var l :| DerivesAnd(l, a);
    var r :| DerivesNot(r, b);
    AndIntro(l, a, word, r, b);
    Upwards(r, b);
    DerivedMeaning(ticket, l, a, matchesPlain, recognize, resolve);
    DerivedMeaning(ticket, r, b, matchesPlain, recognize, resolve);
    DerivedMeaning(ticket, AndOf(l, r), a + (word + b), matchesPlain, recognize, resolve);
  }

  /** `not` before an operand negates it, and parentheses change nothing. */
  lemma NotMeansNot<T(!new)>(
    ticket: T, word: Lexeme, a: seq<Lexeme>, open: Lexeme, b: seq<Lexeme>, close: Lexeme,
    matchesPlain: (T, string) -> bool, recognize: Recognizer, resolve: Option<(T, Token) -> bool>
  )
    requires word.kind == NotWord && IsOperand(a) && open.kind == Left && close.kind == Right && IsDisjunction(b)
    ensures var x, y := Meaning(ticket, a, matchesPlain, recognize, resolve), Meaning(ticket, b, matchesPlain, recognize, resolve);
            && x.Some? && Meaning(ticket, [word] + a, matchesPlain, recognize, resolve) == Some(!x.value)
            && y.Some? && Meaning(ticket, [open] + (b + [close]), matchesPlain, recognize, resolve) == y
  {
    hide Meaning;
    var e :| DerivesNot(e, a);
    var d :| DerivesOr(d, b);
    NotIntro(word, e, a);
    ParenIntro(open, d, b, close);
    hide DerivesNot, DerivesOr;
    Upwards(e, a);
    Upwards(NotOf(e), [word] + a);
    Upwards(d, [open] + (b + [close]));
    DerivedMeaning(ticket, e, a, matchesPlain, recognize, resolve);
    DerivedMeaning(ticket, NotOf(e), [word] + a, matchesPlain, recognize, resolve);
    DerivedMeaning(ticket, d, b, matchesPlain, recognize, resolve);
    DerivedMeaning(ticket, d, [open] + (b + [close]), matchesPlain, recognize, resolve);
  }

  /** A single term asks its resolver if it is structured and one is given, and else is matched as plain text. */
  lemma TermMeansItself<T(!new)>(
    ticket: T, v: string, matchesPlain: (T, string) -> bool, recognize: Recognizer, resolve: Option<(T, Token) -> bool>
  )
    ensures Meaning(ticket, [Lexeme(Term, v)], matchesPlain, recognize, resolve)
         == Some(if resolve.Some? && recognize(v).Some? then resolve.value(ticket, recognize(v).value) else matchesPlain(ticket, v))
  {
    hide Meaning;
    assert DerivesNot(TermOf(v), [Lexeme(Term, v)]);
    Upwards(TermOf(v), [Lexeme(Term, v)]);
    DerivedMeaning(ticket, TermOf(v), [Lexeme(Term, v)], matchesPlain, recognize, resolve);
  }

  /** A query matches as its lexemes mean; one that does not parse is matched as plain text. */
  lemma QueryMeansItsLexemes<T(!new)>(
    ticket: T, query: string, matchesPlain: (T, string) -> bool, contains: (T, string) -> bool, recognize: Recognizer, resolve: Option<(T, Token) -> bool>
  )
    ensures var meaning := Meaning(ticket, Lex(query), matchesPlain, recognize, resolve);
            && Matches(ticket, query, matchesPlain, contains, recognize, resolve) == (if meaning.Some? then meaning.value else contains(ticket, query))
            && (meaning.Some? <==> IsDisjunction(Lex(query)))
  {
    hide Lex, DerivesOr, Parse;
    var ls := Lex(query);
    if IsDisjunction(ls) {
      var e :| DerivesOr(e, ls);
      ParsesExactlyTheGrammar(ls, e);
    } else if Parse(ls).Some? {
      ParsesExactlyTheGrammar(ls, Parse(ls).value);
    }
  }
}
