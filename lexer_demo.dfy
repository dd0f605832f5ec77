/**
 * The rule table of the lexer's demonstration (2009/eblib/lexer.py, the
 * `__main__` block): NUMBER, IDENTIFIER and seven one-character operators,
 * each regex written out as an anchored matcher over ASCII characters, and
 * the token streams the lexer produces with it.
 */
module LexerDemo {
  import opened Wrappers
  import opened Lexing

  predicate IsDigit(c: char) {
    '0' <= c <= '9'
  }

  /** `[a-zA-Z_]` */
  predicate IsIdentStart(c: char) {
    'a' <= c <= 'z' || 'A' <= c <= 'Z' || c == '_'
  }

  /** `\w` */
  predicate IsWordChar(c: char) {
    IsIdentStart(c) || IsDigit(c)
  }

  datatype CharClass = Digit | Word

  predicate InClass(c: char, cls: CharClass) {
    match cls
    case Digit => IsDigit(c)
    case Word => IsWordChar(c)
  }

  /** Where the longest run of `cls` characters starting at `p` ends (a greedy `*`). */
  function SpanEnd(cls: CharClass, buf: string, p: nat): (e: nat)
    ensures p <= e && (p <= |buf| ==> e <= |buf|)
    ensures forall k :: p <= k < e ==> k < |buf| && InClass(buf[k], cls)
    ensures e < |buf| ==> !InClass(buf[e], cls)
    decreases |buf| - p
  {
    if p < |buf| && InClass(buf[p], cls) then SpanEnd(cls, buf, p + 1) else p
  }

  /** `\d+`: a maximal non-empty run of digits. */
  function MatchNumber(buf: string, p: nat): (r: Option<nat>)
    ensures r.None? <==> p >= |buf| || !IsDigit(buf[p])
    ensures r.Some? ==> p < r.value <= |buf|
                        && (forall k :: p <= k < r.value ==> IsDigit(buf[k]))
                        && (r.value < |buf| ==> !IsDigit(buf[r.value]))
  {
    var e := SpanEnd(Digit, buf, p);
    if p < e then Some(e) else None
  }

  /**
   * `[a-zA-Z_]\w+`, as the table writes it: a letter or underscore followed
   * by at least one more word character, taken greedily.
   */
  function MatchIdentifier(buf: string, p: nat): (r: Option<nat>)
    ensures r.None? <==> p + 1 >= |buf| || !IsIdentStart(buf[p]) || !IsWordChar(buf[p + 1])
    ensures r.Some? ==> p + 2 <= r.value <= |buf|
                        && IsIdentStart(buf[p])
                        && (forall k :: p < k < r.value ==> IsWordChar(buf[k]))
                        && (r.value < |buf| ==> !IsWordChar(buf[r.value]))
  {
    if p < |buf| && IsIdentStart(buf[p]) then
      var e := SpanEnd(Word, buf, p + 1);
      if p + 1 < e then Some(e) else None
    else None
  }

  /**
   * `[a-zA-Z_]\w*`, the identifier rule as evidently intended: a letter or
   * underscore followed by any number of word characters, taken greedily.
   */
  function MatchIdentifierFixed(buf: string, p: nat): (r: Option<nat>)
    ensures r.None? <==> p >= |buf| || !IsIdentStart(buf[p])
    ensures r.Some? ==> p < r.value <= |buf|
                        && IsIdentStart(buf[p])
                        && (forall k :: p < k < r.value ==> IsWordChar(buf[k]))
                        && (r.value < |buf| ==> !IsWordChar(buf[r.value]))
  {
    if p < |buf| && IsIdentStart(buf[p]) then Some(SpanEnd(Word, buf, p + 1)) else None
  }

  /**
   * The two identifier rules agree wherever the written one matches; the
   * intended one also accepts a lone letter or underscore, which the written
   * one rejects.
   */
  lemma IdentifierFixOnlyAddsSingleCharacters(buf: string, p: nat)
    ensures MatchIdentifier(buf, p).Some? ==> MatchIdentifierFixed(buf, p) == MatchIdentifier(buf, p)
    ensures MatchIdentifier(buf, p).None? && MatchIdentifierFixed(buf, p).Some? ==>
              MatchIdentifierFixed(buf, p) == Some(p + 1)
  {
  }

  /** A one-character pattern such as `\+`. */
  function MatchChar(c: char, buf: string, p: nat): (r: Option<nat>)
    ensures r.None? <==> p >= |buf| || buf[p] != c
    ensures r.Some? ==> r.value == p + 1
  {
    if p < |buf| && buf[p] == c then Some(p + 1) else None
  }

  function CharRule(c: char, kind: Kind): Rule {
    Rule((buf: string, p: nat) => MatchChar(c, buf, p), kind)
  }

  /** The operator characters of rules 2 to 8, in rule order. */
  const Operators: string := "+-*/()="

  /** The demonstration's nine rules in the order listed, with the given matcher for IDENTIFIER. */
  function Table(identifier: Matcher): (rules: seq<Rule>)
    ensures |rules| == 9
  {
    [ Rule(MatchNumber, "NUMBER"),
      Rule(identifier, "IDENTIFIER"),
      CharRule('+', "PLUS"),
      CharRule('-', "MINUS"),
      CharRule('*', "MULTIPLY"),
      CharRule('/', "DIVIDE"),
      CharRule('(', "LP"),
      CharRule(')', "RP"),
      CharRule('=', "EQUALS") ]
  }

  /** The table as written. */
  function DemoRules(): seq<Rule> {
    Table(MatchIdentifier)
  }

  /** The table with the identifier rule as evidently intended. */
  function FixedRules(): seq<Rule> {
    Table(MatchIdentifierFixed)
  }

  lemma TableWellFormed(identifier: Matcher)
    requires Advances(identifier)
    ensures WellFormed(Table(identifier))
  {
    forall i | 0 <= i < 9
      ensures Advances(Table(identifier)[i].matcher)
    {
      if i >= 2 {
        var c := Table(identifier)[i];
      }
    }
  }

  lemma DemoRulesWellFormed()
    ensures WellFormed(DemoRules()) && WellFormed(FixedRules())
  {
    TableWellFormed(MatchIdentifier);
    TableWellFormed(MatchIdentifierFixed);
  }

  lemma NumberWins(identifier: Matcher, buf: string, q: nat)
    requires q < |buf| && IsDigit(buf[q])
    ensures Wins(Table(identifier), buf, q, 0)
  {
  }

  lemma IdentifierWins(identifier: Matcher, buf: string, q: nat)
    requires q < |buf| && !IsDigit(buf[q]) && identifier(buf, q).Some?
    ensures Wins(Table(identifier), buf, q, 1)
  {
  }

  lemma OperatorWins(identifier: Matcher, buf: string, q: nat, i: nat)
    requires 2 <= i < 9 && q < |buf| && buf[q] == Operators[i - 2] && identifier(buf, q).None?
    ensures Wins(Table(identifier), buf, q, i) && Table(identifier)[i].matcher(buf, q) == Some(q + 1)
  {
  }

  lemma NothingMatches(identifier: Matcher, buf: string, q: nat)
    requires q < |buf| && !IsDigit(buf[q]) && buf[q] !in Operators && identifier(buf, q).None?
    ensures NoRuleMatches(Table(identifier), buf, q)
  {
    forall i | 0 <= i < 9
      ensures Table(identifier)[i].matcher(buf, q).None?
    {
      if i >= 2 {
        assert buf[q] != Operators[i - 2];
      }
    }
  }

  /**
   * `token()` called at cursor `p` starts at `t.pos`, where rule `i` of the
   * table wins with a match ending at `e` and reports `t`.
   */
  ghost predicate Lexes(identifier: Matcher, skip: bool, buf: string, p: nat, t: Token, i: nat, e: nat) {
    && StartsAt(buf, p, t.pos, skip) && Wins(Table(identifier), buf, t.pos, i)
    && Table(identifier)[i].matcher(buf, t.pos) == Some(e)
    && Table(identifier)[i].kind == t.kind
    && t.pos <= e <= |buf| && buf[t.pos..e] == t.val
  }

  /** A token that `token()` reports is the first one the drain yields, and the drain goes on after it. */
  lemma Emits(identifier: Matcher, skip: bool, buf: string, p: nat, t: Token, i: nat, e: nat)
    requires WellFormed(Table(identifier)) && Lexes(identifier, skip, buf, p, t, i, e)
    ensures Run(Table(identifier), skip, buf, p) == Prepend([t], Run(Table(identifier), skip, buf, e))
  {
    RunEmitsWinner(Table(identifier), skip, buf, p, t.pos, i, e);
  }

  /** A run of `cls` characters from `p` that stops at `e` is the span `SpanEnd` finds. */
  lemma SpanStops(cls: CharClass, buf: string, p: nat, e: nat)
    requires p <= e <= |buf|
    requires forall k :: p <= k < e ==> InClass(buf[k], cls)
    requires e < |buf| ==> !InClass(buf[e], cls)
    ensures SpanEnd(cls, buf, p) == e
  {
  }

  lemma NumberAt(buf: string, q: nat, e: nat)
    requires q < e <= |buf|
    requires forall k :: q <= k < e ==> IsDigit(buf[k])
    requires e < |buf| ==> !IsDigit(buf[e])
    ensures MatchNumber(buf, q) == Some(e)
  {
    SpanStops(Digit, buf, q, e);
  }

  lemma IdentifierFixedAt(buf: string, q: nat, e: nat)
    requires q < e <= |buf| && IsIdentStart(buf[q])
    requires forall k :: q < k < e ==> IsWordChar(buf[k])
    requires e < |buf| ==> !IsWordChar(buf[e])
    ensures MatchIdentifierFixed(buf, q) == Some(e)
  {
    SpanStops(Word, buf, q + 1, e);
  }

  lemma IdentifierAt(buf: string, q: nat, e: nat)
    requires q + 1 < e <= |buf| && IsIdentStart(buf[q])
    requires forall k :: q < k < e ==> IsWordChar(buf[k])
    requires e < |buf| ==> !IsWordChar(buf[e])
    ensures MatchIdentifier(buf, q) == Some(e) && MatchIdentifierFixed(buf, q) == Some(e)
  {
    SpanStops(Word, buf, q + 1, e);
  }

  /** The input of the demonstration. */
  const DemoInput: string := "erw = _abc + 12*(R4-623902)  "

  /** Where the identifier pattern, as written and as corrected, matches in the demonstration's input: `erw`, `_abc`, `R4`. */
  lemma DemoIdentifier0(buf: string)
    requires buf == DemoInput
    ensures MatchIdentifier(buf, 0) == Some(3) && MatchIdentifierFixed(buf, 0) == Some(3)
  {
    assert buf[0] == 'e' && buf[1] == 'r' && buf[2] == 'w' && buf[3] == ' ';
    IdentifierAt(buf, 0, 3);
  }

  lemma DemoIdentifier6(buf: string)
    requires buf == DemoInput
    ensures MatchIdentifier(buf, 6) == Some(10) && MatchIdentifierFixed(buf, 6) == Some(10)
  {
    assert buf[6] == '_' && buf[7] == 'a' && buf[8] == 'b' && buf[9] == 'c' && buf[10] == ' ';
    IdentifierAt(buf, 6, 10);
  }

  lemma DemoIdentifier17(buf: string)
    requires buf == DemoInput
    ensures MatchIdentifier(buf, 17) == Some(19) && MatchIdentifierFixed(buf, 17) == Some(19)
  {
    assert buf[17] == 'R' && buf[18] == '4' && buf[19] == '-';
    IdentifierAt(buf, 17, 19);
  }

  /** Where `\d+` matches in the demonstration's input: `12` and `623902`. */
  lemma DemoNumbers(buf: string)
    requires buf == DemoInput
    ensures MatchNumber(buf, 13) == Some(15) && MatchNumber(buf, 20) == Some(26)
  {
    assert buf[13] == '1' && buf[14] == '2' && buf[15] == '*';
    NumberAt(buf, 13, 15);
    assert buf[20] == '6' && buf[21] == '2' && buf[22] == '3' && buf[23] == '9' && buf[24] == '0' && buf[25] == '2';
    assert buf[26] == ')';
    NumberAt(buf, 20, 26);
  }

  /** At the operators of the demonstration's input, neither identifier pattern matches. */
  lemma DemoNonIdentifiers(buf: string)
    requires buf == DemoInput
    ensures MatchIdentifier(buf, 4).None? && MatchIdentifier(buf, 11).None? && MatchIdentifier(buf, 15).None?
    ensures MatchIdentifier(buf, 16).None? && MatchIdentifier(buf, 19).None? && MatchIdentifier(buf, 26).None?
    ensures MatchIdentifierFixed(buf, 4).None? && MatchIdentifierFixed(buf, 11).None? && MatchIdentifierFixed(buf, 15).None?
    ensures MatchIdentifierFixed(buf, 16).None? && MatchIdentifierFixed(buf, 19).None? && MatchIdentifierFixed(buf, 26).None?
  {
    assert buf[4] == '=' && buf[11] == '+' && buf[15] == '*' && buf[16] == '(' && buf[19] == '-' && buf[26] == ')';
  }

  // One lemma per token of the demonstration's input: where `token()` starts, which rule wins, where it ends.

  lemma DemoInputFrom0(buf: string, identifier: Matcher)
    requires buf == DemoInput
    requires identifier(buf, 0) == Some(3)
    ensures Lexes(identifier, true, buf, 0, Token("IDENTIFIER", "erw", 0), 1, 3)
  {
    assert buf[0] == 'e' && buf[1] == 'r' && buf[2] == 'w';
    IdentifierWins(identifier, buf, 0);
    assert buf[0..3] == "erw";
  }

  lemma DemoInputFrom3(buf: string, identifier: Matcher)
    requires buf == DemoInput
    requires identifier(buf, 4).None?
    ensures Lexes(identifier, true, buf, 3, Token("EQUALS", "=", 4), 8, 5)
  {
    assert buf[3] == ' ' && buf[4] == '=';
    OperatorWins(identifier, buf, 4, 8);
    assert buf[4..5] == "=";
  }

  lemma DemoInputFrom5(buf: string, identifier: Matcher)
    requires buf == DemoInput
    requires identifier(buf, 6) == Some(10)
    ensures Lexes(identifier, true, buf, 5, Token("IDENTIFIER", "_abc", 6), 1, 10)
  {
    assert buf[5] == ' ' && buf[6] == '_' && buf[7] == 'a' && buf[8] == 'b' && buf[9] == 'c';
    IdentifierWins(identifier, buf, 6);
    assert buf[6..10] == "_abc";
  }

  lemma DemoInputFrom10(buf: string, identifier: Matcher)
    requires buf == DemoInput
    requires identifier(buf, 11).None?
    ensures Lexes(identifier, true, buf, 10, Token("PLUS", "+", 11), 2, 12)
  {
    assert buf[10] == ' ' && buf[11] == '+';
    OperatorWins(identifier, buf, 11, 2);
    assert buf[11..12] == "+";
  }

  lemma DemoInputFrom12(buf: string, identifier: Matcher)
    requires buf == DemoInput
    requires MatchNumber(buf, 13) == Some(15)
    ensures Lexes(identifier, true, buf, 12, Token("NUMBER", "12", 13), 0, 15)
  {
    assert buf[12] == ' ' && buf[13] == '1' && buf[14] == '2';
    NumberWins(identifier, buf, 13);
    assert buf[13..15] == "12";
  }

  lemma DemoInputFrom15(buf: string, identifier: Matcher)
    requires buf == DemoInput
    requires identifier(buf, 15).None?
    ensures Lexes(identifier, true, buf, 15, Token("MULTIPLY", "*", 15), 4, 16)
  {
    assert buf[15] == '*';
    OperatorWins(identifier, buf, 15, 4);
    assert buf[15..16] == "*";
  }

  lemma DemoInputFrom16(buf: string, identifier: Matcher)
    requires buf == DemoInput
    requires identifier(buf, 16).None?
    ensures Lexes(identifier, true, buf, 16, Token("LP", "(", 16), 6, 17)
  {
    assert buf[16] == '(';
    OperatorWins(identifier, buf, 16, 6);
    assert buf[16..17] == "(";
  }

  lemma DemoInputFrom17(buf: string, identifier: Matcher)
    requires buf == DemoInput
    requires identifier(buf, 17) == Some(19)
    ensures Lexes(identifier, true, buf, 17, Token("IDENTIFIER", "R4", 17), 1, 19)
  {
    assert buf[17] == 'R' && buf[18] == '4';
    IdentifierWins(identifier, buf, 17);
    assert buf[17..19] == "R4";
  }

  lemma DemoInputFrom19(buf: string, identifier: Matcher)
    requires buf == DemoInput
    requires identifier(buf, 19).None?
    ensures Lexes(identifier, true, buf, 19, Token("MINUS", "-", 19), 3, 20)
  {
    assert buf[19] == '-';
    OperatorWins(identifier, buf, 19, 3);
    assert buf[19..20] == "-";
  }

  lemma DemoInputFrom20(buf: string, identifier: Matcher)
    requires buf == DemoInput
    requires MatchNumber(buf, 20) == Some(26)
    ensures Lexes(identifier, true, buf, 20, Token("NUMBER", "623902", 20), 0, 26)
  {
    assert buf[20] == '6' && buf[21] == '2' && buf[22] == '3' && buf[23] == '9' && buf[24] == '0' && buf[25] == '2';
    NumberWins(identifier, buf, 20);
    assert buf[20..26] == "623902";
  }

  lemma DemoInputFrom26(buf: string, identifier: Matcher)
    requires buf == DemoInput
    requires identifier(buf, 26).None?
    ensures Lexes(identifier, true, buf, 26, Token("RP", ")", 26), 7, 27)
  {
    assert buf[26] == ')';
    OperatorWins(identifier, buf, 26, 7);
    assert buf[26..27] == ")";
  }

  lemma DemoInputFrom27(buf: string, identifier: Matcher)
    requires WellFormed(Table(identifier))
    requires |buf| == 29 && buf[27] == ' ' && buf[28] == ' '
    ensures Run(Table(identifier), true, buf, 27) == (Drained([], None), 27)
  {
    assert AllSpace(buf, 27, |buf|);
  }

  /** Chains the per-token steps of the demonstration, given as the drain results `run(p)` from each cursor `p`. */
  lemma DemoChain(run: nat -> (Drained, nat))
    requires run(0) == Prepend([Token("IDENTIFIER", "erw", 0)], run(3))
    requires run(3) == Prepend([Token("EQUALS", "=", 4)], run(5))
    requires run(5) == Prepend([Token("IDENTIFIER", "_abc", 6)], run(10))
    requires run(10) == Prepend([Token("PLUS", "+", 11)], run(12))
    requires run(12) == Prepend([Token("NUMBER", "12", 13)], run(15))
    requires run(15) == Prepend([Token("MULTIPLY", "*", 15)], run(16))
    requires run(16) == Prepend([Token("LP", "(", 16)], run(17))
    requires run(17) == Prepend([Token("IDENTIFIER", "R4", 17)], run(19))
    requires run(19) == Prepend([Token("MINUS", "-", 19)], run(20))
    requires run(20) == Prepend([Token("NUMBER", "623902", 20)], run(26))
    requires run(26) == Prepend([Token("RP", ")", 26)], run(27))
    requires run(27) == (Drained([], None), 27)
    ensures run(0).0 == Drained([ Token("IDENTIFIER", "erw", 0), Token("EQUALS", "=", 4),
                     Token("IDENTIFIER", "_abc", 6), Token("PLUS", "+", 11),
                     Token("NUMBER", "12", 13), Token("MULTIPLY", "*", 15),
                     Token("LP", "(", 16), Token("IDENTIFIER", "R4", 17),
                     Token("MINUS", "-", 19), Token("NUMBER", "623902", 20),
                     Token("RP", ")", 26) ], None)
  {
  }

  /** The drain over a buffer whose tokens lie where the demonstration's do. */
  lemma DemoExpressionRun(buf: string, identifier: Matcher)
    requires WellFormed(Table(identifier))
    requires Lexes(identifier, true, buf, 0, Token("IDENTIFIER", "erw", 0), 1, 3)
    requires Lexes(identifier, true, buf, 3, Token("EQUALS", "=", 4), 8, 5)
    requires Lexes(identifier, true, buf, 5, Token("IDENTIFIER", "_abc", 6), 1, 10)
    requires Lexes(identifier, true, buf, 10, Token("PLUS", "+", 11), 2, 12)
    requires Lexes(identifier, true, buf, 12, Token("NUMBER", "12", 13), 0, 15)
    requires Lexes(identifier, true, buf, 15, Token("MULTIPLY", "*", 15), 4, 16)
    requires Lexes(identifier, true, buf, 16, Token("LP", "(", 16), 6, 17)
    requires Lexes(identifier, true, buf, 17, Token("IDENTIFIER", "R4", 17), 1, 19)
    requires Lexes(identifier, true, buf, 19, Token("MINUS", "-", 19), 3, 20)
    requires Lexes(identifier, true, buf, 20, Token("NUMBER", "623902", 20), 0, 26)
    requires Lexes(identifier, true, buf, 26, Token("RP", ")", 26), 7, 27)
    requires |buf| == 29 && buf[27] == ' ' && buf[28] == ' '
    ensures Run(Table(identifier), true, buf, 0).0 == Drained([ Token("IDENTIFIER", "erw", 0), Token("EQUALS", "=", 4),
                     Token("IDENTIFIER", "_abc", 6), Token("PLUS", "+", 11),
                     Token("NUMBER", "12", 13), Token("MULTIPLY", "*", 15),
                     Token("LP", "(", 16), Token("IDENTIFIER", "R4", 17),
                     Token("MINUS", "-", 19), Token("NUMBER", "623902", 20),
                     Token("RP", ")", 26) ], None)
  {
    Emits(identifier, true, buf, 0, Token("IDENTIFIER", "erw", 0), 1, 3);
    Emits(identifier, true, buf, 3, Token("EQUALS", "=", 4), 8, 5);
    Emits(identifier, true, buf, 5, Token("IDENTIFIER", "_abc", 6), 1, 10);
    Emits(identifier, true, buf, 10, Token("PLUS", "+", 11), 2, 12);
    Emits(identifier, true, buf, 12, Token("NUMBER", "12", 13), 0, 15);
    Emits(identifier, true, buf, 15, Token("MULTIPLY", "*", 15), 4, 16);
    Emits(identifier, true, buf, 16, Token("LP", "(", 16), 6, 17);
    Emits(identifier, true, buf, 17, Token("IDENTIFIER", "R4", 17), 1, 19);
    Emits(identifier, true, buf, 19, Token("MINUS", "-", 19), 3, 20);
    Emits(identifier, true, buf, 20, Token("NUMBER", "623902", 20), 0, 26);
    Emits(identifier, true, buf, 26, Token("RP", ")", 26), 7, 27);
    DemoInputFrom27(buf, identifier);
    DemoChain((p: nat) => Run(Table(identifier), true, buf, p));
  }

  /**
   * The demonstration's input, lexed with a table whose identifier rule
   * matches `erw`, `_abc` and `R4` and nothing at the operators.
   */
  lemma DemoExpressionWith(buf: string, identifier: Matcher)
    requires buf == DemoInput && WellFormed(Table(identifier))
    requires MatchNumber(buf, 13) == Some(15) && MatchNumber(buf, 20) == Some(26)
    requires identifier(buf, 0) == Some(3) && identifier(buf, 6) == Some(10) && identifier(buf, 17) == Some(19)
    requires identifier(buf, 4).None? && identifier(buf, 11).None? && identifier(buf, 15).None?
    requires identifier(buf, 16).None? && identifier(buf, 19).None? && identifier(buf, 26).None?
    ensures Run(Table(identifier), true, buf, 0).0 == Drained([ Token("IDENTIFIER", "erw", 0), Token("EQUALS", "=", 4),
                     Token("IDENTIFIER", "_abc", 6), Token("PLUS", "+", 11),
                     Token("NUMBER", "12", 13), Token("MULTIPLY", "*", 15),
                     Token("LP", "(", 16), Token("IDENTIFIER", "R4", 17),
                     Token("MINUS", "-", 19), Token("NUMBER", "623902", 20),
                     Token("RP", ")", 26) ], None)
  {
    DemoInputFrom0(buf, identifier);
    DemoInputFrom3(buf, identifier);
    DemoInputFrom5(buf, identifier);
    DemoInputFrom10(buf, identifier);
    DemoInputFrom12(buf, identifier);
    DemoInputFrom15(buf, identifier);
    DemoInputFrom16(buf, identifier);
    DemoInputFrom17(buf, identifier);
    DemoInputFrom19(buf, identifier);
    DemoInputFrom20(buf, identifier);
    DemoInputFrom26(buf, identifier);
    assert buf[27] == ' ' && buf[28] == ' ';
    DemoExpressionRun(buf, identifier);
  }

  /**
   * The demonstration's input lexes to the eleven tokens it prints, and the
   * trailing blanks end the stream without error; the corrected identifier
   * rule lexes it the same way.
   */
  lemma DemoExpression(buf: string)
    requires buf == DemoInput
    ensures WellFormed(DemoRules()) && WellFormed(FixedRules())
    ensures Run(DemoRules(), true, buf, 0).0 == Drained([ Token("IDENTIFIER", "erw", 0), Token("EQUALS", "=", 4),
                     Token("IDENTIFIER", "_abc", 6), Token("PLUS", "+", 11),
                     Token("NUMBER", "12", 13), Token("MULTIPLY", "*", 15),
                     Token("LP", "(", 16), Token("IDENTIFIER", "R4", 17),
                     Token("MINUS", "-", 19), Token("NUMBER", "623902", 20),
                     Token("RP", ")", 26) ], None)
    ensures Run(FixedRules(), true, buf, 0).0 == Run(DemoRules(), true, buf, 0).0
  {
    DemoRulesWellFormed();
    DemoIdentifier0(buf);
    DemoIdentifier6(buf);
    DemoIdentifier17(buf);
    DemoNumbers(buf);
    DemoNonIdentifiers(buf);
    DemoExpressionWith(buf, MatchIdentifier);
    DemoExpressionWith(buf, MatchIdentifierFixed);
  }

  /** An input with a character that no rule matches. */
  const BadInput: string := "12 @ 3"

  lemma BadInputFrom0(buf: string, identifier: Matcher)
    requires buf == BadInput
    requires MatchNumber(buf, 0) == Some(2)
    ensures Lexes(identifier, true, buf, 0, Token("NUMBER", "12", 0), 0, 2)
  {
    assert buf[0] == '1' && buf[1] == '2';
    NumberWins(identifier, buf, 0);
    assert buf[0..2] == "12";
  }

  lemma BadInputFrom2(buf: string)
    requires WellFormed(DemoRules())
    requires 3 < |buf| && buf[2] == ' ' && buf[3] == '@'
    ensures Run(DemoRules(), true, buf, 2) == (Drained([], Some(LexerError(3))), 3)
  {
    NothingMatches(MatchIdentifier, buf, 3);
    assert StartsAt(buf, 2, 3, true);
    RunRaises(DemoRules(), true, buf, 2, 3);
  }

  /** Chains the steps on `12 @ 3`, given as the drain results `run(p)` from each cursor `p`. */
  lemma ErrorChain(run: nat -> (Drained, nat))
    requires run(0) == Prepend([Token("NUMBER", "12", 0)], run(2))
    requires run(2) == (Drained([], Some(LexerError(3))), 3)
    ensures run(0).0 == Drained([Token("NUMBER", "12", 0)], Some(LexerError(3)))
  {
  }

  /** `12 @ 3` yields NUMBER(12) at 0, then raises `LexerError` at 3, where the `@` is. */
  lemma DemoLexerError(buf: string)
    requires buf == BadInput
    ensures WellFormed(DemoRules())
    ensures Run(DemoRules(), true, buf, 0).0 == Drained([Token("NUMBER", "12", 0)], Some(LexerError(3)))
  {
    DemoRulesWellFormed();
    assert buf[0] == '1' && buf[1] == '2' && buf[2] == ' ' && buf[3] == '@';
    NumberAt(buf, 0, 2);
    BadInputFrom0(buf, MatchIdentifier);
    Emits(MatchIdentifier, true, buf, 0, Token("NUMBER", "12", 0), 0, 2);
    BadInputFrom2(buf);
    ErrorChain((p: nat) => Run(DemoRules(), true, buf, p));
  }

  /** An empty buffer yields no token and no error, whether or not whitespace is skipped. */
  lemma DemoEmptyInput(skip: bool)
    ensures WellFormed(DemoRules())
    ensures Run(DemoRules(), skip, "", 0) == (Drained([], None), 0)
  {
    DemoRulesWellFormed();
  }

  /** Two numbers separated by a blank. */
  const SpacedInput: string := "12 3"

  lemma SpacedInputSkippingFrom0(buf: string, identifier: Matcher)
    requires buf == SpacedInput
    requires MatchNumber(buf, 0) == Some(2)
    ensures Lexes(identifier, true, buf, 0, Token("NUMBER", "12", 0), 0, 2)
  {
    assert buf[0] == '1' && buf[1] == '2';
    NumberWins(identifier, buf, 0);
    assert buf[0..2] == "12";
  }

  lemma SpacedInputSkippingFrom2(buf: string, identifier: Matcher)
    requires buf == SpacedInput
    requires MatchNumber(buf, 3) == Some(4)
    ensures Lexes(identifier, true, buf, 2, Token("NUMBER", "3", 3), 0, 4)
  {
    assert buf[2] == ' ' && buf[3] == '3';
    NumberWins(identifier, buf, 3);
    assert buf[3..4] == "3";
  }

  lemma SpacedInputNotSkippingFrom0(buf: string, identifier: Matcher)
    requires buf == SpacedInput
    requires MatchNumber(buf, 0) == Some(2)
    ensures Lexes(identifier, false, buf, 0, Token("NUMBER", "12", 0), 0, 2)
  {
    assert buf[0] == '1' && buf[1] == '2';
    NumberWins(identifier, buf, 0);
    assert buf[0..2] == "12";
  }

  lemma SpacedInputSkippingFrom4(buf: string)
    requires WellFormed(DemoRules()) && |buf| == 4
    ensures Run(DemoRules(), true, buf, 4) == (Drained([], None), 4)
  {
  }

  lemma SpacedInputNotSkippingFrom2(buf: string)
    requires WellFormed(DemoRules())
    requires 2 < |buf| && buf[2] == ' '
    ensures Run(DemoRules(), false, buf, 2) == (Drained([], Some(LexerError(2))), 2)
  {
    NothingMatches(MatchIdentifier, buf, 2);
    RunRaises(DemoRules(), false, buf, 2, 2);
  }

  /** Chains the steps on `12 3` with skipping (`skipping`) and without (`strict`). */
  lemma SpacedChain(skipping: nat -> (Drained, nat), strict: nat -> (Drained, nat))
    requires skipping(0) == Prepend([Token("NUMBER", "12", 0)], skipping(2))
    requires skipping(2) == Prepend([Token("NUMBER", "3", 3)], skipping(4))
    requires skipping(4) == (Drained([], None), 4)
    requires strict(0) == Prepend([Token("NUMBER", "12", 0)], strict(2))
    requires strict(2) == (Drained([], Some(LexerError(2))), 2)
    ensures skipping(0).0 == Drained([Token("NUMBER", "12", 0), Token("NUMBER", "3", 3)], None)
    ensures strict(0).0 == Drained([Token("NUMBER", "12", 0)], Some(LexerError(2)))
  {
    assert [Token("NUMBER", "3", 3)] + [] == [Token("NUMBER", "3", 3)];
  }

  /** The drains over a buffer whose numbers lie where those of `12 3` do, with and without skipping. */
  lemma SpacedRun(buf: string)
    requires WellFormed(DemoRules())
    requires Lexes(MatchIdentifier, true, buf, 0, Token("NUMBER", "12", 0), 0, 2)
    requires Lexes(MatchIdentifier, true, buf, 2, Token("NUMBER", "3", 3), 0, 4)
    requires Lexes(MatchIdentifier, false, buf, 0, Token("NUMBER", "12", 0), 0, 2)
    requires |buf| == 4 && buf[2] == ' '
    ensures Run(DemoRules(), true, buf, 0).0
         == Drained([Token("NUMBER", "12", 0), Token("NUMBER", "3", 3)], None)
    ensures Run(DemoRules(), false, buf, 0).0
         == Drained([Token("NUMBER", "12", 0)], Some(LexerError(2)))
  {
    Emits(MatchIdentifier, true, buf, 0, Token("NUMBER", "12", 0), 0, 2);
    Emits(MatchIdentifier, true, buf, 2, Token("NUMBER", "3", 3), 0, 4);
    Emits(MatchIdentifier, false, buf, 0, Token("NUMBER", "12", 0), 0, 2);
    SpacedInputSkippingFrom4(buf);
    SpacedInputNotSkippingFrom2(buf);
    SpacedChain((p: nat) => Run(DemoRules(), true, buf, p), (p: nat) => Run(DemoRules(), false, buf, p));
  }

  /**
   * Whitespace policy: with skipping, the blank in `12 3` separates two
   * numbers; without it, and with no rule for blanks, the blank raises
   * `LexerError` at its own offset.
   */
  lemma DemoWhitespacePolicy(buf: string)
    requires buf == SpacedInput
    ensures WellFormed(DemoRules())
    ensures Run(DemoRules(), true, buf, 0).0
         == Drained([Token("NUMBER", "12", 0), Token("NUMBER", "3", 3)], None)
    ensures Run(DemoRules(), false, buf, 0).0
         == Drained([Token("NUMBER", "12", 0)], Some(LexerError(2)))
  {
    DemoRulesWellFormed();
    assert buf[0] == '1' && buf[1] == '2' && buf[2] == ' ' && buf[3] == '3';
    NumberAt(buf, 0, 2);
    NumberAt(buf, 3, 4);
    SpacedInputSkippingFrom0(buf, MatchIdentifier);
    SpacedInputSkippingFrom2(buf, MatchIdentifier);
    SpacedInputNotSkippingFrom0(buf, MatchIdentifier);
    SpacedRun(buf);
  }

  /** An assignment to a one-letter variable. */
  const OneLetterInput: string := "x = 1"

  /** As written, the IDENTIFIER rule needs two characters, so `x = 1` fails at once. */
  lemma OneLetterIdentifierRejected(buf: string)
    requires buf == OneLetterInput
    ensures WellFormed(DemoRules())
    ensures Run(DemoRules(), true, buf, 0).0 == Drained([], Some(LexerError(0)))
  {
    DemoRulesWellFormed();
    assert buf[0] == 'x' && buf[1] == ' ';
    NothingMatches(MatchIdentifier, buf, 0);
    assert StartsAt(buf, 0, 0, true);
    RunRaises(DemoRules(), true, buf, 0, 0);
  }

  lemma OneLetterInputFixedFrom0(buf: string, identifier: Matcher)
    requires buf == OneLetterInput
    requires identifier(buf, 0) == Some(1)
    ensures Lexes(identifier, true, buf, 0, Token("IDENTIFIER", "x", 0), 1, 1)
  {
    assert buf[0] == 'x';
    IdentifierWins(identifier, buf, 0);
    assert buf[0..1] == "x";
  }

  lemma OneLetterInputFixedFrom1(buf: string, identifier: Matcher)
    requires buf == OneLetterInput
    requires identifier(buf, 2).None?
    ensures Lexes(identifier, true, buf, 1, Token("EQUALS", "=", 2), 8, 3)
  {
    assert buf[1] == ' ' && buf[2] == '=';
    OperatorWins(identifier, buf, 2, 8);
    assert buf[2..3] == "=";
  }

  lemma OneLetterInputFixedFrom3(buf: string, identifier: Matcher)
    requires buf == OneLetterInput
    requires MatchNumber(buf, 4) == Some(5)
    ensures Lexes(identifier, true, buf, 3, Token("NUMBER", "1", 4), 0, 5)
  {
    assert buf[3] == ' ' && buf[4] == '1';
    NumberWins(identifier, buf, 4);
    assert buf[4..5] == "1";
  }

  lemma OneLetterInputFixedFrom5(buf: string)
    requires WellFormed(FixedRules()) && |buf| == 5
    ensures Run(FixedRules(), true, buf, 5) == (Drained([], None), 5)
  {
  }

  /** Chains the steps on `x = 1` under the corrected identifier rule. */
  lemma OneLetterChain(run: nat -> (Drained, nat))
    requires run(0) == Prepend([Token("IDENTIFIER", "x", 0)], run(1))
    requires run(1) == Prepend([Token("EQUALS", "=", 2)], run(3))
    requires run(3) == Prepend([Token("NUMBER", "1", 4)], run(5))
    requires run(5) == (Drained([], None), 5)
    ensures run(0).0 == Drained([Token("IDENTIFIER", "x", 0), Token("EQUALS", "=", 2), Token("NUMBER", "1", 4)], None)
  {
    assert [Token("NUMBER", "1", 4)] + [] == [Token("NUMBER", "1", 4)];
  }

  /** The drain over a buffer whose tokens lie where those of `x = 1` do. */
  lemma OneLetterRun(buf: string)
    requires WellFormed(FixedRules())
    requires Lexes(MatchIdentifierFixed, true, buf, 0, Token("IDENTIFIER", "x", 0), 1, 1)
    requires Lexes(MatchIdentifierFixed, true, buf, 1, Token("EQUALS", "=", 2), 8, 3)
    requires Lexes(MatchIdentifierFixed, true, buf, 3, Token("NUMBER", "1", 4), 0, 5)
    requires |buf| == 5
    ensures Run(FixedRules(), true, buf, 0).0
         == Drained([Token("IDENTIFIER", "x", 0), Token("EQUALS", "=", 2), Token("NUMBER", "1", 4)], None)
  {
    Emits(MatchIdentifierFixed, true, buf, 0, Token("IDENTIFIER", "x", 0), 1, 1);
    Emits(MatchIdentifierFixed, true, buf, 1, Token("EQUALS", "=", 2), 8, 3);
    Emits(MatchIdentifierFixed, true, buf, 3, Token("NUMBER", "1", 4), 0, 5);
    OneLetterInputFixedFrom5(buf);
    OneLetterChain((p: nat) => Run(FixedRules(), true, buf, p));
  }

  /** With the corrected identifier rule, `x = 1` lexes to IDENTIFIER, EQUALS, NUMBER. */
  lemma OneLetterIdentifierAccepted(buf: string)
    requires buf == OneLetterInput
    ensures WellFormed(FixedRules())
    ensures Run(FixedRules(), true, buf, 0).0
         == Drained([Token("IDENTIFIER", "x", 0), Token("EQUALS", "=", 2), Token("NUMBER", "1", 4)], None)
  {
    DemoRulesWellFormed();
    assert buf[0] == 'x' && buf[1] == ' ' && buf[2] == '=' && buf[3] == ' ' && buf[4] == '1';
    IdentifierFixedAt(buf, 0, 1);
    NumberAt(buf, 4, 5);
    OneLetterInputFixedFrom0(buf, MatchIdentifierFixed);
    OneLetterInputFixedFrom1(buf, MatchIdentifierFixed);
    OneLetterInputFixedFrom3(buf, MatchIdentifierFixed);
    OneLetterRun(buf);
  }
}
