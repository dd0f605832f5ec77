/**
 * eblib's generic regex-based lexer (2009/eblib/lexer.py).
 *
 * A lexer is built from an ordered list of `(regex, type)` rules, which it
 * joins into one alternation of named groups `GROUP1 .. GROUPn`.  After
 * `input(buf)` binds a buffer, each `token()` optionally skips whitespace,
 * matches the alternation anchored at the cursor and returns a token, `None`
 * at the end of the buffer, or raises `LexerError` with the failing position.
 *
 * Each rule's regex is modelled as an anchored matcher: a function from the
 * buffer and a start offset to the end offset of its match, if any.
 */
module Lexing {
  import opened Wrappers

  /** A token type label, such as "NUMBER". */
  type Kind = string

  /** An anchored matcher for one rule's regex: the end offset of its match at `p`, if any. */
  type Matcher = (string, nat) -> Option<nat>

  /** One `(regex, type)` rule. */
  datatype Rule = Rule(matcher: Matcher, kind: Kind)

  /** The group name `GROUP<idx>` that the combined regex gives the idx-th rule (counting from 1). */
  datatype GroupName = Group(idx: nat)

  datatype Token = Token(kind: Kind, val: string, pos: nat)

  datatype LexerError = LexerError(pos: nat)

  /** What one call of `token()` gives back: a token, `None`, or a raised `LexerError`. */
  datatype Outcome = Emit(token: Token) | EndOfInput | Error(error: LexerError)

  /** What a consumer of `tokens()` sees: the tokens yielded, then the error that ended it, if any. */
  datatype Drained = Drained(tokens: seq<Token>, error: Option<LexerError>)

  /** Every match of `m` is non-empty and ends inside the buffer. */
  ghost predicate Advances(m: Matcher) {
    forall buf: string, p: nat :: m(buf, p).Some? ==> p < m(buf, p).value <= |buf|
  }

  ghost predicate WellFormed(rules: seq<Rule>) {
    forall i :: 0 <= i < |rules| ==> Advances(rules[i].matcher)
  }

  /** The alternatives of the combined regex, one per rule, in rule order. */
  function Alternatives(rules: seq<Rule>): (alts: seq<Matcher>)
    ensures |alts| == |rules|
    ensures forall i :: 0 <= i < |rules| ==> alts[i] == rules[i].matcher
  {
    if rules == [] then [] else [rules[0].matcher] + Alternatives(rules[1..])
  }

  /** `table` maps `GROUPk` to the type of the k-th rule, with exactly one entry per rule. */
  ghost predicate IsGroupTable(table: map<GroupName, Kind>, rules: seq<Rule>) {
    && (forall g :: g in table <==> 1 <= g.idx <= |rules|)
    && (forall k: nat :: 1 <= k <= |rules| ==> table[Group(k)] == rules[k - 1].kind)
  }

  // ---------------------------------------------------------------------------
  // Whitespace skipping (`re.compile('\S')` searched from the cursor)
  // ---------------------------------------------------------------------------

  /**
   * The ASCII characters that `\s` matches in a str pattern (those for which
   * `str.isspace` holds): tab, LF, VT, FF, CR, the separators U+001C-U+001F
   * and space.
   */
  predicate IsSpace(c: char) {
    c == ' ' || '\t' <= c <= '\r' || '\U{1C}' <= c <= '\U{1F}'
  }

  ghost predicate AllSpace(buf: string, a: nat, b: nat) {
    b <= |buf| && forall k :: a <= k < b ==> IsSpace(buf[k])
  }

  /** The first offset at or after `p` holding a non-whitespace character, if any. */
  function SearchNonSpace(buf: string, p: nat): (r: Option<nat>)
    ensures r.Some? ==> p <= r.value < |buf| && !IsSpace(buf[r.value]) && AllSpace(buf, p, r.value)
    ensures r.None? ==> AllSpace(buf, p, |buf|)
    decreases |buf| - p
  {
    if p >= |buf| then None
    else if !IsSpace(buf[p]) then Some(p)
    else SearchNonSpace(buf, p + 1)
  }

  // ---------------------------------------------------------------------------
  // The combined alternation, matched at one offset
  // ---------------------------------------------------------------------------

  /** The alternative that matched (0-based, so its group is `GROUP<index+1>`) and where its match ends. */
  datatype Match = Match(index: nat, end: nat)

  /** No alternative with an index in `[from, to)` matches at `q`. */
  ghost predicate NoneMatch(alts: seq<Matcher>, buf: string, q: nat, from: nat, to: nat) {
    to <= |alts| && forall j :: from <= j < to ==> alts[j](buf, q).None?
  }

  /**
   * Python's left-to-right alternation anchored at `q`, trying the
   * alternatives from index `from` on: the first one that matches wins.
   */
  function FirstMatch(alts: seq<Matcher>, buf: string, q: nat, from: nat): (r: Option<Match>)
    requires from <= |alts|
    ensures r.Some? ==> from <= r.value.index < |alts|
                        && alts[r.value.index](buf, q) == Some(r.value.end)
                        && NoneMatch(alts, buf, q, from, r.value.index)
    ensures r.None? ==> NoneMatch(alts, buf, q, from, |alts|)
    decreases |alts| - from
  {
    if from == |alts| then None
    else match alts[from](buf, q)
      case Some(e) => Some(Match(from, e))
      case None => FirstMatch(alts, buf, q, from + 1)
  }

  // ---------------------------------------------------------------------------
  // One step of the scanner: `token()` as a function of the cursor
  // ---------------------------------------------------------------------------

  /**
   * `q` is where `token()` called at cursor `p` tries to match: `p` itself,
   * or, when skipping whitespace, the first non-whitespace offset from `p`.
   */
  ghost predicate StartsAt(buf: string, p: nat, q: nat, skip: bool) {
    q < |buf| && if skip then p <= q && AllSpace(buf, p, q) && !IsSpace(buf[q]) else q == p
  }

  /** Rule `i` matches at `q` and no rule listed before it does. */
  ghost predicate Wins(rules: seq<Rule>, buf: string, q: nat, i: nat) {
    i < |rules| && rules[i].matcher(buf, q).Some?
    && forall j :: 0 <= j < i ==> rules[j].matcher(buf, q).None?
  }

  ghost predicate NoRuleMatches(rules: seq<Rule>, buf: string, q: nat) {
    forall i :: 0 <= i < |rules| ==> rules[i].matcher(buf, q).None?
  }

  /** What `token()` returns when called with the cursor at `p`, and the cursor it leaves. */
  function Step(rules: seq<Rule>, skip: bool, buf: string, p: nat): (r: (Outcome, nat))
    requires WellFormed(rules)
    ensures p <= r.1 && (p <= |buf| ==> r.1 <= |buf|)
    ensures r.0.EndOfInput? <==> p >= |buf| || (skip && AllSpace(buf, p, |buf|))
    ensures r.0.EndOfInput? ==> r.1 == p
    ensures r.0.Emit? ==>
              var t := r.0.token;
              && StartsAt(buf, p, t.pos, skip)
              && t.pos < r.1 <= |buf|
              && t.val == buf[t.pos..r.1]
              && exists i: nat :: Wins(rules, buf, t.pos, i) && rules[i].kind == t.kind
                             && rules[i].matcher(buf, t.pos) == Some(r.1)
    ensures r.0.Error? ==>
              && r.0.error.pos == r.1
              && StartsAt(buf, p, r.1, skip)
              && NoRuleMatches(rules, buf, r.1)
  {
    if p >= |buf| then (EndOfInput, p)
    else
      var start := if skip then SearchNonSpace(buf, p) else Some(p);
      match start
      case None => (EndOfInput, p)
      case Some(q) =>
        var alts := Alternatives(rules);
        match FirstMatch(alts, buf, q, 0)
        case Some(m) =>
          assert Advances(rules[m.index].matcher);
          assert Wins(rules, buf, q, m.index);
          (Emit(Token(rules[m.index].kind, buf[q..m.end], q)), m.end)
        case None =>
          (Error(LexerError(q)), q)
  }

  /** Rule priority: whenever rule `i` is the first-listed rule matching where `token()` starts, its type is reported. */
  lemma FirstListedRuleWins(rules: seq<Rule>, skip: bool, buf: string, p: nat, q: nat, i: nat)
    requires WellFormed(rules) && StartsAt(buf, p, q, skip) && Wins(rules, buf, q, i)
    ensures var e := rules[i].matcher(buf, q).value;
            Step(rules, skip, buf, p) == (Emit(Token(rules[i].kind, buf[q..e], q)), e)
  {
    var r := Step(rules, skip, buf, p);
    var t := r.0.token;
    var k: nat :| Wins(rules, buf, t.pos, k) && rules[k].kind == t.kind && rules[k].matcher(buf, t.pos) == Some(r.1);
  }

  /** When no rule matches where `token()` starts, it raises `LexerError` there and leaves the cursor there. */
  lemma UnmatchedRaises(rules: seq<Rule>, skip: bool, buf: string, p: nat, q: nat)
    requires WellFormed(rules) && StartsAt(buf, p, q, skip) && NoRuleMatches(rules, buf, q)
    ensures Step(rules, skip, buf, p) == (Error(LexerError(q)), q)
  {
  }

  /** After a `LexerError` the cursor stays at the error, so calling `token()` again raises the same error. */
  lemma ErrorRepeats(rules: seq<Rule>, skip: bool, buf: string, p: nat)
    requires WellFormed(rules) && Step(rules, skip, buf, p).0.Error?
    ensures Step(rules, skip, buf, Step(rules, skip, buf, p).1) == Step(rules, skip, buf, p)
  {
    var q := Step(rules, skip, buf, p).1;
    assert StartsAt(buf, q, q, skip);
    UnmatchedRaises(rules, skip, buf, q, q);
  }

  // ---------------------------------------------------------------------------
  // Draining the scanner: `tokens()` as a function of the cursor
  // ---------------------------------------------------------------------------

  /** What draining `tokens()` from cursor `p` yields, and the cursor it leaves. */
  function Run(rules: seq<Rule>, skip: bool, buf: string, p: nat): (r: (Drained, nat))
    requires WellFormed(rules)
    ensures p <= |buf| ==> r.1 <= |buf|
    ensures r.0.error.Some? ==> r.1 == r.0.error.value.pos
    decreases |buf| - p
  {
    var (o, q) := Step(rules, skip, buf, p);
    match o
    case EndOfInput => (Drained([], None), q)
    case Error(e) => (Drained([], Some(e)), q)
    case Emit(t) =>
      var rest := Run(rules, skip, buf, q);
      (Drained([t] + rest.0.tokens, rest.0.error), rest.1)
  }

  /** The drain result `rest` with `toks` yielded before it. */
  function Prepend(toks: seq<Token>, rest: (Drained, nat)): (Drained, nat) {
    (Drained(toks + rest.0.tokens, rest.0.error), rest.1)
  }

  lemma PrependTwice(a: seq<Token>, b: seq<Token>, rest: (Drained, nat))
    ensures Prepend(a, Prepend(b, rest)) == Prepend(a + b, rest)
  {
    assert a + (b + rest.0.tokens) == (a + b) + rest.0.tokens;
  }

  /** Draining is one `token()` call, then, after a token, the drain from where that call left the cursor. */
  lemma RunSteps(rules: seq<Rule>, skip: bool, buf: string, p: nat)
    requires WellFormed(rules)
    ensures var (o, q) := Step(rules, skip, buf, p);
            && (o.Emit? ==> Run(rules, skip, buf, p) == Prepend([o.token], Run(rules, skip, buf, q)))
            && (o.EndOfInput? ==> Run(rules, skip, buf, p) == (Drained([], None), q))
            && (o.Error? ==> Run(rules, skip, buf, p) == (Drained([], Some(o.error)), q))
  {
  }

  /** When rule `i` wins where `token()` starts, draining yields its token first and continues after it. */
  lemma RunEmitsWinner(rules: seq<Rule>, skip: bool, buf: string, p: nat, q: nat, i: nat, e: nat)
    requires WellFormed(rules) && StartsAt(buf, p, q, skip) && Wins(rules, buf, q, i)
    requires rules[i].matcher(buf, q) == Some(e)
    ensures q < e <= |buf|
    ensures var rest := Run(rules, skip, buf, e);
            Run(rules, skip, buf, p)
              == (Drained([Token(rules[i].kind, buf[q..e], q)] + rest.0.tokens, rest.0.error), rest.1)
  {
    assert Advances(rules[i].matcher);
    FirstListedRuleWins(rules, skip, buf, p, q, i);
  }

  /** When no rule matches where `token()` starts, draining yields nothing more and ends with that error. */
  lemma RunRaises(rules: seq<Rule>, skip: bool, buf: string, p: nat, q: nat)
    requires WellFormed(rules) && StartsAt(buf, p, q, skip) && NoRuleMatches(rules, buf, q)
    ensures Run(rules, skip, buf, p) == (Drained([], Some(LexerError(q))), q)
  {
    UnmatchedRaises(rules, skip, buf, p, q);
  }

  /** Nothing lies between offsets `a` and `b` that the lexer would not skip. */
  ghost predicate Gap(buf: string, a: nat, b: nat, skip: bool) {
    a <= b <= |buf| && if skip then AllSpace(buf, a, b) else a == b
  }

  /**
   * `toks` lie in `buf` between `p` and `end`, in order and without overlap:
   * each token's text is the non-empty slice of `buf` at its position, and
   * only skippable whitespace lies around them.
   */
  ghost predicate LaidOut(toks: seq<Token>, buf: string, p: nat, skip: bool, end: nat)
    decreases |toks|
  {
    if toks == [] then Gap(buf, p, end, skip)
    else
      var t := toks[0];
      && Gap(buf, p, t.pos, skip)
      && 0 < |t.val|
      && t.pos + |t.val| <= |buf|
      && buf[t.pos..t.pos + |t.val|] == t.val
      && LaidOut(toks[1..], buf, t.pos + |t.val|, skip, end)
  }

  /**
   * The tokens that `tokens()` yields from cursor `p` cover the buffer: up to
   * its end when it stops without error, up to the error position otherwise,
   * where a non-whitespace character matches no rule.
   */
  lemma {:induction false} RunLayout(rules: seq<Rule>, skip: bool, buf: string, p: nat)
    requires WellFormed(rules) && p <= |buf|
    ensures var d := Run(rules, skip, buf, p).0;
            d.error.None? ==> LaidOut(d.tokens, buf, p, skip, |buf|)
    ensures var d := Run(rules, skip, buf, p).0;
            d.error.Some? ==>
              var e := d.error.value.pos;
              && LaidOut(d.tokens, buf, p, skip, e)
              && e < |buf|
              && (skip ==> !IsSpace(buf[e]))
              && NoRuleMatches(rules, buf, e)
    decreases |buf| - p
  {
    var (o, q) := Step(rules, skip, buf, p);
    RunSteps(rules, skip, buf, p);
    match o
    case EndOfInput =>
    case Error(e) =>
    case Emit(t) =>
      RunLayout(rules, skip, buf, q);
      var toks := [t] + Run(rules, skip, buf, q).0.tokens;
      assert toks[0] == t && toks[1..] == Run(rules, skip, buf, q).0.tokens;
      assert q == t.pos + |t.val| && Gap(buf, p, t.pos, skip);
  }

  /** Tokens laid out in the buffer come in buffer order, do not overlap, and each is the slice at its position. */
  lemma {:induction false} LaidOutInOrder(toks: seq<Token>, buf: string, p: nat, skip: bool, end: nat)
    requires LaidOut(toks, buf, p, skip, end)
    ensures p <= end <= |buf|
    ensures forall i :: 0 <= i < |toks| ==>
              p <= toks[i].pos && toks[i].pos + |toks[i].val| <= end
              && buf[toks[i].pos..toks[i].pos + |toks[i].val|] == toks[i].val
    ensures forall i, j :: 0 <= i < j < |toks| ==> toks[i].pos + |toks[i].val| <= toks[j].pos
    decreases |toks|
  {
    if toks != [] {
      var t := toks[0];
      LaidOutInOrder(toks[1..], buf, t.pos + |t.val|, skip, end);
      forall i, j | 0 <= i < j < |toks|
        ensures toks[i].pos + |toks[i].val| <= toks[j].pos
      {
        if i > 0 {
          assert toks[i] == toks[1..][i - 1] && toks[j] == toks[1..][j - 1];
        } else {
          assert toks[j] == toks[1..][j - 1];
        }
      }
      forall i | 0 <= i < |toks|
        ensures p <= toks[i].pos && toks[i].pos + |toks[i].val| <= end
      {
        if i > 0 {
          assert toks[i] == toks[1..][i - 1];
        }
      }
    }
  }

  /** The token texts, concatenated. */
  function Texts(toks: seq<Token>): string
  {
    if toks == [] then [] else toks[0].val + Texts(toks[1..])
  }

  /** `s` with its whitespace removed. */
  function Strip(s: string): (r: string)
    ensures |r| <= |s|
  {
    if s == [] then []
    else if IsSpace(s[0]) then Strip(s[1..])
    else [s[0]] + Strip(s[1..])
  }

  lemma {:induction false} StripAppend(a: string, b: string)
    ensures Strip(a + b) == Strip(a) + Strip(b)
    decreases |a|
  {
    if a == [] {
      assert a + b == b;
    } else {
      assert (a + b)[0] == a[0] && (a + b)[1..] == a[1..] + b;
      StripAppend(a[1..], b);
    }
  }

  lemma {:induction false} StripSpaces(buf: string, a: nat, b: nat)
    requires a <= b && AllSpace(buf, a, b)
    ensures Strip(buf[a..b]) == []
    decreases b - a
  {
    if a < b {
      assert buf[a..b][1..] == buf[a + 1..b];
      StripSpaces(buf, a + 1, b);
    }
  }

  /** Without skipping, the texts of tokens laid out between `p` and `end` spell that slice of the buffer. */
  lemma {:induction false} LaidOutSpellsSlice(toks: seq<Token>, buf: string, p: nat, end: nat)
    requires LaidOut(toks, buf, p, false, end)
    ensures p <= end <= |buf| && Texts(toks) == buf[p..end]
    decreases |toks|
  {
    if toks != [] {
      var t := toks[0];
      var e := t.pos + |t.val|;
      LaidOutSpellsSlice(toks[1..], buf, e, end);
      assert buf[p..end] == buf[p..e] + buf[e..end];
    }
  }

  /** With skipping, the texts of tokens laid out between `p` and `end` spell that slice once whitespace is removed. */
  lemma {:induction false} LaidOutSpellsStripped(toks: seq<Token>, buf: string, p: nat, end: nat)
    requires LaidOut(toks, buf, p, true, end)
    ensures p <= end <= |buf| && Strip(Texts(toks)) == Strip(buf[p..end])
    decreases |toks|
  {
    if toks == [] {
      StripSpaces(buf, p, end);
    } else {
      var t := toks[0];
      var e := t.pos + |t.val|;
      LaidOutSpellsStripped(toks[1..], buf, e, end);
      assert buf[p..end] == buf[p..t.pos] + (t.val + buf[e..end]);
      StripSpaces(buf, p, t.pos);
      StripAppend(buf[p..t.pos], t.val + buf[e..end]);
      StripAppend(t.val, buf[e..end]);
      StripAppend(t.val, Texts(toks[1..]));
    }
  }

  /** Draining a buffer that lexes without error from offset 0 accounts for every non-skipped character. */
  lemma RunSpellsBuffer(rules: seq<Rule>, skip: bool, buf: string)
    requires WellFormed(rules) && Run(rules, skip, buf, 0).0.error.None?
    ensures !skip ==> Texts(Run(rules, skip, buf, 0).0.tokens) == buf
    ensures skip ==> Strip(Texts(Run(rules, skip, buf, 0).0.tokens)) == Strip(buf)
  {
    RunLayout(rules, skip, buf, 0);
    if skip {
      LaidOutSpellsStripped(Run(rules, skip, buf, 0).0.tokens, buf, 0, |buf|);
    } else {
      LaidOutSpellsSlice(Run(rules, skip, buf, 0).0.tokens, buf, 0, |buf|);
    }
    assert buf[0..|buf|] == buf;
  }

  // ---------------------------------------------------------------------------
  // The Lexer object
  // ---------------------------------------------------------------------------

  class Lexer {
    /** The rules the lexer was built from. */
    ghost const rules: seq<Rule>
    /** The combined alternation, one alternative per rule. */
    const regex: seq<Matcher>
    /** Group name to token type. */
    const groupType: map<GroupName, Kind>
    const skipWhitespace: bool
    var buf: string
    var pos: nat

    ghost predicate Valid()
      reads this
    {
      && WellFormed(rules)
      && 0 < |rules|
      && regex == Alternatives(rules)
      && IsGroupTable(groupType, rules)
      && pos <= |buf|
    }

    /** Joins the rules into one alternation and records the type of each group. */
    constructor (rules: seq<Rule>, skipWhitespace: bool)
      requires 0 < |rules| && WellFormed(rules)
      ensures Valid()
      ensures this.rules == rules && this.skipWhitespace == skipWhitespace
      ensures buf == [] && pos == 0
    {
      var regexParts: seq<Matcher> := [];
      var table: map<GroupName, Kind> := map[];
      for idx := 1 to |rules| + 1
        invariant |regexParts| == idx - 1
        invariant forall i :: 0 <= i < idx - 1 ==> regexParts[i] == rules[i].matcher
        invariant forall g :: g in table <==> 1 <= g.idx < idx
        invariant forall k: nat :: 1 <= k < idx ==> table[Group(k)] == rules[k - 1].kind
      {
        regexParts := regexParts + [rules[idx - 1].matcher];
        table := table[Group(idx) := rules[idx - 1].kind];
      }
      this.rules := rules;
      regex := regexParts;
      groupType := table;
      this.skipWhitespace := skipWhitespace;
      buf := [];
      pos := 0;
    }

    /** Binds a buffer and rewinds the cursor. */
    method Input(buf: string)
      requires Valid()
      modifies this`buf, this`pos
      ensures Valid() && this.buf == buf && pos == 0
    {
      this.buf := buf;
      pos := 0;
    }

    /** `token()`: the next token, `EndOfInput` for `None`, or `Error` for a raised `LexerError`. */
    method NextToken() returns (r: Outcome)
      requires Valid()
      modifies this`pos
      ensures Valid()
      ensures (r, pos) == Step(rules, skipWhitespace, buf, old(pos))
    {
      if pos >= |buf| {
        return EndOfInput;
      }
      if skipWhitespace {
        var m := SearchNonSpace(buf, pos);
        if m.Some? {
          pos := m.value;
        } else {
          return EndOfInput;
        }
      }
      var m := FirstMatch(regex, buf, pos, 0);
      if m.Some? {
        var groupName := Group(m.value.index + 1);
        var tokType := groupType[groupName];
        assert Advances(rules[m.value.index].matcher);
        var tok := Token(tokType, buf[pos..m.value.end], pos);
        pos := m.value.end;
        return Emit(tok);
      }
      return Error(LexerError(pos));
    }

    /** `tokens()`: pulls tokens until `None`, and stops at a raised `LexerError`. */
    method Tokens() returns (d: Drained)
      requires Valid()
      modifies this`pos
      ensures Valid()
      ensures (d, pos) == Run(rules, skipWhitespace, buf, old(pos))
    {
      var toks: seq<Token> := [];
      ghost var input := buf;
      ghost var total := Run(rules, skipWhitespace, input, pos);
      assert toks + total.0.tokens == total.0.tokens;
      while true
        invariant Valid() && buf == input
        invariant total == Prepend(toks, Run(rules, skipWhitespace, input, pos))
        decreases |input| - pos
      {
        ghost var before := pos;
        var r := NextToken();
        RunSteps(rules, skipWhitespace, input, before);
        match r
        case EndOfInput =>
          assert toks + [] == toks;
          return Drained(toks, None);
        case Error(e) =>
          assert toks + [] == toks;
          return Drained(toks, Some(e));
        case Emit(t) =>
          PrependTwice(toks, [t], Run(rules, skipWhitespace, input, pos));
          toks := toks + [t];
      }
    }
  }
}
