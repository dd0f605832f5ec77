# Lexer, multiple dispatch and small sequence examples, in Dafny

This project models three parts of Eli Bendersky's `code-for-blog` repository and proves properties about them.

- **eblib's regex-rule lexer** (`2009/eblib/lexer.py`). This is the main part.
  - A `Lexer` is built from an ordered list of `(regex, type)` rules. It joins them into one alternation of named groups `GROUP1..GROUPn`.
  - `input(buf)` binds a buffer and rewinds the cursor.
  - `token()` optionally skips whitespace, then matches the alternation anchored at the cursor. It returns a `Token(type, val, pos)`, `None` at the end of input, or raises `LexerError(pos)`.
  - `tokens()` drains `token()`.
  - `lexer.dfy` (module `Lexing`) specifies one call of `token()` as the function `Step` and the drain as `Run`. The class `Lexing.Lexer` has the source's fields; its methods are proved against those functions.
  - `lexer_demo.dfy` (module `LexerDemo`) instantiates the demonstration's rule table and proves the token streams for its input and for a few others.
- **The multiple-dispatch examples** (`2016/multiple-dispatch/python`).
  - The shape classes and handler tags live in `shapes.dfy`.
  - The ordered `isinstance` chain is `bruteforce.dfy`.
  - The constant exact-type map is `bruteforce_with_map.dfy`.
  - The multimethod library that rejects duplicate registrations is `multi.dfy`.
  - The library variant that expands each registration over all subclasses and lets the last registration win is `multi_defaults.dfy`.
- **Two small pure pieces.** `evenodd.dfy` models parity by mutual recursion and its trampolined form. `seq_process.dfy` models a filtered sum.

Each rule's regex is modelled as an anchored matcher: a function from the buffer and a start offset to the end offset of its match, if any. Such a rule is `WellFormed` when every match is non-empty and ends inside the buffer. Python's left-to-right alternation becomes "the first-listed rule that matches wins". Python reflection is replaced by an explicit class hierarchy: `__class__`, `isinstance` and `__subclasses__` become `Base`, `IsSubclass` and `DirectSubclasses`. Handlers are tags, and their `print` is not modelled.

## Model

| member | source | states |
|---|---|---|
| Lexing.Alternatives | 2009/eblib/lexer.py:58-65 | the combined regex has one alternative per rule, and the i-th alternative is the i-th rule's regex |
| Lexing.SearchNonSpace | 2009/eblib/lexer.py:85-89 | the search for `\S` from the cursor finds the first non-whitespace offset, with only whitespace before it; when it finds nothing, only whitespace remains |
| Lexing.FirstMatch | 2009/eblib/lexer.py:91-92 | the anchored alternation reports the first alternative that matches, with no earlier alternative matching; when it reports nothing, no alternative matches |
| Lexing.Step | 2009/eblib/lexer.py:75-99 | `token()` returns `None` exactly when the cursor is at or past the end or, when skipping, only whitespace remains, and then the cursor is unchanged; a token has the type of the first-listed rule matching at the post-skip cursor, its text is the buffer slice it matched, its position is that cursor, and the cursor moves to the match end inside the buffer; otherwise `LexerError` carries the post-skip cursor, where the cursor stays |
| Lexing.FirstListedRuleWins | 2009/eblib/lexer.py:91-96 | whenever rule i is the first-listed rule matching where `token()` starts, `token()` returns rule i's type, the matched slice and that position, and moves the cursor to the match end |
| Lexing.UnmatchedRaises | 2009/eblib/lexer.py:85-99 | when no rule matches where `token()` starts, it raises `LexerError` at that offset and leaves the cursor there |
| Lexing.ErrorRepeats | 2009/eblib/lexer.py:98-99 | after a `LexerError` the cursor stays at the error, so calling `token()` again raises the same error |
| Lexing.Run | 2009/eblib/lexer.py:101-107 | draining `tokens()` keeps the cursor inside the buffer and, when it ends in an error, leaves the cursor at the error position |
| Lexing.RunEmitsWinner | 2009/eblib/lexer.py:91-107 | when rule i wins where `token()` starts, the drain yields rule i's token first and continues from the match end |
| Lexing.RunRaises | 2009/eblib/lexer.py:98-107 | when no rule matches where `token()` starts, the drain yields nothing more and ends with `LexerError` at that offset |
| Lexing.RunLayout | 2009/eblib/lexer.py:83-107 | the yielded tokens are laid out in the buffer in order, each separated from the next only by skippable whitespace; without error they reach the end of the buffer; with an error they reach the error position, where a non-whitespace character matches no rule |
| Lexing.LaidOutInOrder | 2009/eblib/lexer.py:94-107 | yielded tokens come in buffer order and do not overlap (each token's `pos + len(val)` is at most the next token's `pos`), and each `val` is the buffer slice at its `pos` |
| Lexing.RunSpellsBuffer | 2009/eblib/lexer.py:83-107 | when draining from 0 ends without error, the token texts concatenated spell the whole buffer (without skipping), or the buffer minus its whitespace (with skipping) |
| Lexing.Lexer.constructor | 2009/eblib/lexer.py:43-67 | the loop over the rules assigns group `GROUPi` to the i-th rule's type for i = 1..n, with exactly one entry per rule, and the alternation lists the rules in order |
| Lexing.Lexer.Input | 2009/eblib/lexer.py:69-73 | `input(buf)` binds the buffer and resets the cursor to 0 |
| Lexing.Lexer.NextToken | 2009/eblib/lexer.py:75-99 | the result and the new cursor of `token()` are `Step` of the old cursor, and the cursor stays within the buffer |
| Lexing.Lexer.Tokens | 2009/eblib/lexer.py:101-107 | the loop pulling `token()` until `None` or an error yields what `Run` specifies from the old cursor, and leaves the cursor where `Run` does |
| LexerDemo.MatchNumber | 2009/eblib/lexer.py:112 | `\d+` matches exactly at a digit, and takes the maximal run of digits |
| LexerDemo.MatchIdentifier | 2009/eblib/lexer.py:113 | `[a-zA-Z_]\w+` matches exactly at a letter or underscore followed by a word character, and takes the maximal run of word characters, at least two |
| LexerDemo.MatchIdentifierFixed | 2009/eblib/lexer.py:113 | `[a-zA-Z_]\w*` matches exactly at a letter or underscore, and takes the maximal run of word characters after it |
| LexerDemo.IdentifierFixOnlyAddsSingleCharacters | 2009/eblib/lexer.py:113 | the two identifier patterns agree wherever the written one matches; they differ only by the intended one accepting a single letter or underscore |
| LexerDemo.MatchChar | 2009/eblib/lexer.py:114-120 | a one-character operator pattern matches exactly that character, with a match one character long |
| LexerDemo.DemoRulesWellFormed | 2009/eblib/lexer.py:111-121 | every rule of the demonstration table, as written and as corrected, only makes non-empty matches inside the buffer |
| LexerDemo.NumberWins | 2009/eblib/lexer.py:111-112 | at a digit, NUMBER is the first-listed rule that matches |
| LexerDemo.IdentifierWins | 2009/eblib/lexer.py:111-113 | where the identifier pattern matches and no digit stands, IDENTIFIER is the first-listed rule that matches |
| LexerDemo.OperatorWins | 2009/eblib/lexer.py:111-120 | at an operator character, its one-character rule is the first-listed rule that matches |
| LexerDemo.NothingMatches | 2009/eblib/lexer.py:111-121 | at a character that is neither a digit, nor an identifier start the pattern accepts, nor an operator, no rule matches |
| LexerDemo.DemoExpression | 2009/eblib/lexer.py:123-130 | `erw = _abc + 12*(R4-623902)  ` lexes to the eleven tokens IDENTIFIER(erw)@0 … RP())@26; the trailing blanks end the stream without error; the corrected table gives the same stream |
| LexerDemo.DemoLexerError | 2009/eblib/lexer.py:126-130 | `12 @ 3` yields NUMBER(12)@0, then the drain stops with `LexerError` at 3 |
| LexerDemo.DemoEmptyInput | 2009/eblib/lexer.py:83-84 | an empty buffer yields no token and no error, whatever the whitespace policy |
| LexerDemo.DemoWhitespacePolicy | 2009/eblib/lexer.py:85-99 | with skipping, `12 3` yields NUMBER(12)@0 and NUMBER(3)@3; without skipping and with no whitespace rule, the blank raises `LexerError` at 2 |
| LexerDemo.OneLetterIdentifierRejected | 2009/eblib/lexer.py:113 | with the table as written, `x = 1` raises `LexerError` at 0 before yielding any token |
| LexerDemo.OneLetterIdentifierAccepted | 2009/eblib/lexer.py:113 | with the corrected identifier pattern, `x = 1` yields IDENTIFIER(x)@0, EQUALS(=)@2, NUMBER(1)@4 and ends without error |
| Shapes.DirectSubclasses | 2016/multiple-dispatch/python/multi_with_base_class_defaults.py:61-72 | `__subclasses__()` lists exactly the classes whose declared base is the given class, each once, in declaration order |
| Shapes.SubclassTable | 2016/multiple-dispatch/python/multi_with_base_class_defaults.py:61-72 | `issubclass(c, d)`, and `isinstance` on an object of class `c` (Shapes.IsSubclass), holds exactly when `c` is `d`, when `d` is `Shape`, or when `c` is `Square` and `d` is `Rectangle` |
| Shapes.SubclassTransitive | 2016/multiple-dispatch/python/multi_with_base_class_defaults.py:61-72 | an instance of a subclass of a subclass of `e` is an instance of `e` |
| Shapes.RectangleEllipseDisjoint | 2016/multiple-dispatch/python/bruteforce.py:13-15 | no class is both a Rectangle and an Ellipse, so at most one of the first two tests of the chain can hold |
| BruteForce.Intersect | 2016/multiple-dispatch/python/bruteforce.py:19-26 | the Rectangle x Ellipse branch fires exactly when the first argument is a Rectangle instance and the second an Ellipse instance; the Rectangle x Rectangle branch fires exactly when both are Rectangle instances; the generic branch fires in every other case |
| BruteForce.IntersectIsFirstCovering | 2016/multiple-dispatch/python/bruteforce.py:19-26 | the chain is "the first branch, in test order, whose signature the arguments are instances of, else generic" |
| BruteForce.SubclassesInheritBranch | 2016/multiple-dispatch/python/bruteforce.py:20-22 | because the tests use `isinstance`, a specific branch taken for two classes is taken for any of their subclasses too |
| BruteForce.ExampleCalls | 2016/multiple-dispatch/python/bruteforce.py:29-37 | the example calls take the Rectangle x Ellipse, Rectangle x Rectangle and generic branches |
| BruteForceWithMap.Intersect | 2016/multiple-dispatch/python/bruteforce_with_map.py:28-35 | exact types `(Rectangle, Ellipse)` and `(Rectangle, Rectangle)` go to their handlers, and every other exact-type pair falls back to `intersect_generic` |
| BruteForceWithMap.AgreesWithChainWithoutSubclasses | 2016/multiple-dispatch/python/bruteforce_with_map.py:33-35 | for the classes this example declares, the map lookup dispatches exactly like the `isinstance` chain |
| BruteForceWithMap.SubclassFallsBackToGeneric | 2016/multiple-dispatch/python/bruteforce_with_map.py:34 | lookup is on `type()`, so a subclass of Rectangle gets the generic handler where the `isinstance` chain takes a Rectangle branch |
| BruteForceWithMap.PairIsOrdered | 2016/multiple-dispatch/python/bruteforce_with_map.py:28-34 | the key is an ordered pair: `(Ellipse, Rectangle)` goes to the generic handler while `(Rectangle, Ellipse)` does not |
| BruteForceWithMap.ExampleCalls | 2016/multiple-dispatch/python/bruteforce_with_map.py:37-45 | the example calls reach `intersect_rectangle_ellipse`, `intersect_rectangle_rectangle` and `intersect_generic` for Triangle x Ellipse |
| Multi.Insert | 2016/multiple-dispatch/python/multi.py:26-29 | registering an already-present tuple is a duplicate-registration `TypeError`; otherwise exactly that mapping is added, the other entries are kept, and the map grows by one entry |
| Multi.MultiMethod.constructor | 2016/multiple-dispatch/python/multi.py:15-17 | a new multimethod has its name and an empty typemap |
| Multi.MultiMethod.Call | 2016/multiple-dispatch/python/multi.py:19-24 | a call dispatches on the exact tuple of argument classes, with no base-class fallback; an unregistered tuple raises `TypeError` naming the multimethod and the tuple |
| Multi.MultiMethod.RegisterFunctionForTypes | 2016/multiple-dispatch/python/multi.py:26-29 | the typemap becomes what `Insert` gives; on the duplicate `TypeError` it is unchanged |
| Multi.Registry.constructor | 2016/multiple-dispatch/python/multi.py:33 | the registry starts empty |
| Multi.Registry.Multimethod | 2016/multiple-dispatch/python/multi.py:35-43 | the registry creates a multimethod only on the first use of a name, files it under that name, returns the same object afterwards, registers the function on it, and leaves the other multimethods' typemaps alone |
| Multi.Client | 2016/multiple-dispatch/python/multi.py:62-81 | with the three registrations, `intersect(r1, e)` reaches Rectangle x Ellipse; `intersect(e, r1)` raises `TypeError` although Shape x Shape is registered; a second Rectangle x Ellipse registration raises the duplicate error |
| MultiDefaults.AllBelowValues | 2016/multiple-dispatch/python/multi_with_base_class_defaults.py:14-19 | `all_subclasses` (MultiDefaults.AllBelow): `all_subclasses(Shape)` is `[Rectangle, Ellipse, Triangle, Square]`, `all_subclasses(Rectangle)` is `[Square]`, and the other classes have none |
| MultiDefaults.AllBelowIsProperSubclasses | 2016/multiple-dispatch/python/multi_with_base_class_defaults.py:14-19 | `all_subclasses(c)` lists exactly the transitive proper subclasses of `c`, each once |
| MultiDefaults.AllSubclasses | 2016/multiple-dispatch/python/multi_with_base_class_defaults.py:14-19 | the loop that extends the direct subclasses with each one's recursive subclasses returns `AllBelow(c)` |
| MultiDefaults.InProduct | 2016/multiple-dispatch/python/multi_with_base_class_defaults.py:37 | `itertools.product` (MultiDefaults.Product) yields exactly the tuples that take their i-th element from the i-th list |
| MultiDefaults.Expand | 2016/multiple-dispatch/python/multi_with_base_class_defaults.py:36 | each declared type is followed by all its subclasses |
| MultiDefaults.ProductOfExpansionCovers | 2016/multiple-dispatch/python/multi_with_base_class_defaults.py:36-37 | the tuples a registration produces are exactly the tuples of instances of the declared types |
| MultiDefaults.RegistrationOverrides | 2016/multiple-dispatch/python/multi_with_base_class_defaults.py:35-41 | after a registration, which writes the typemap entries of lines 37-41 (MultiDefaults.Overwrite), the covered tuples map to the new function whatever they held before, so the last registration wins; entries outside the product are unchanged; no other key appears |
| MultiDefaults.MultiMethod.constructor | 2016/multiple-dispatch/python/multi_with_base_class_defaults.py:24-26 | a new multimethod has its name and an empty typemap |
| MultiDefaults.MultiMethod.Call | 2016/multiple-dispatch/python/multi_with_base_class_defaults.py:28-33 | a call looks up the exact tuple of argument classes; a missing key raises `TypeError` |
| MultiDefaults.TypesWithSubclasses | 2016/multiple-dispatch/python/multi_with_base_class_defaults.py:36 | the list built from the declared types holds, in order, each type followed by `all_subclasses` of it, which is `Expand(types)` |
| MultiDefaults.MultiMethod.RegisterFunctionForTypes | 2016/multiple-dispatch/python/multi_with_base_class_defaults.py:35-41 | the loop over the product of the subclass lists sets every tuple to the function, so the new typemap is `Overwrite` of the old one |
| MultiDefaults.Registry.constructor | 2016/multiple-dispatch/python/multi_with_base_class_defaults.py:45 | the registry starts empty |
| MultiDefaults.Registry.Multimethod | 2016/multiple-dispatch/python/multi_with_base_class_defaults.py:47-55 | the registry creates one multimethod per name on first use and reuses it afterwards; it registers the function over the product, and the other multimethods are unchanged |
| MultiDefaults.ClientTableIsChain | 2016/multiple-dispatch/python/multi_with_base_class_defaults.py:75-86 | after Shape x Shape, then Rectangle x Ellipse, then Rectangle x Rectangle, every pair of classes is registered, and exact-type lookup agrees with the `isinstance` chain of bruteforce.py |
| MultiDefaults.Client | 2016/multiple-dispatch/python/multi_with_base_class_defaults.py:75-97 | `(Square, Ellipse)` dispatches to Rectangle x Ellipse and `(Square, Rectangle)` to Rectangle x Rectangle through Square's base class; `(Triangle, Ellipse)` falls back to Shape x Shape |
| EvenOdd.ParityIsRemainder | 2017/continuations-trampolines/evenodd.py:7-12 | for n >= 0, `is_even(n)` (EvenOdd.IsEven) holds exactly when n mod 2 is 0, and `is_odd(n)` (EvenOdd.IsOdd) is `not is_even(n)` |
| EvenOdd.ThunkedMeansDirect | 2017/continuations-trampolines/evenodd.py:15-20 | the thunked versions `is_even_thunked` and `is_odd_thunked` (EvenOdd.IsEvenThunked, EvenOdd.IsOddThunked) return the direct result at 0; otherwise they return a thunk that calls the other function on n-1; either way the thunk stands for the direct function's result |
| EvenOdd.Trampoline | 2017/continuations-trampolines/evenodd.py:23-27 | `trampoline(f, n)` calls thunks until it holds a value, returns the direct function's result, and calls exactly n thunks |
| EvenOdd.Example | 2017/continuations-trampolines/evenodd.py:30-35 | `is_even(800)` and `trampoline(is_even_thunked, 1000)` are both True |
| SeqProcess.Evens | 2017/reducers-transducers-async/python/imperative-seq-code.py:8 | the filter keeps an element exactly when `i % 2 == 0`, and keeps each even value as many times as it occurs in the input |
| SeqProcess.EvensAppend | 2017/reducers-transducers-async/python/imperative-seq-code.py:8 | the filter keeps the input's order: filtering `a + b` gives the filtered `a` followed by the filtered `b` |
| SeqProcess.Incremented | 2017/reducers-transducers-async/python/imperative-seq-code.py:8 | the mapped value of each element is the element plus one |
| SeqProcess.ProcessIsFilteredSum | 2017/reducers-transducers-async/python/imperative-seq-code.py:7-8 | `process(s)` (SeqProcess.Process) equals the sum of `i + 1` over the even elements of `s` |
| SeqProcess.ProcessEmpty | 2017/reducers-transducers-async/python/imperative-seq-code.py:8 | an empty input gives 0 |
| SeqProcess.ProcessAppend | 2017/reducers-transducers-async/python/imperative-seq-code.py:8 | `process(a + b) == process(a) + process(b)` |
| SeqProcess.OddElementsContributeNothing | 2017/reducers-transducers-async/python/imperative-seq-code.py:8 | dropping the odd elements leaves the result unchanged |
| SeqProcess.Range | 2017/reducers-transducers-async/python/imperative-seq-code.py:12 | `range(n)` is 0, 1, …, n-1 |
| SeqProcess.ProcessRangeTen | 2017/reducers-transducers-async/python/imperative-seq-code.py:12 | `process(range(10))` is 25 |

## Left out

- Python's `re` engine is not modelled: compiling, regex syntax errors, backtracking inside a rule, and the Unicode meaning of `\s`, `\S` and `\w`. Each rule's regex is an abstract anchored matcher. Whitespace is the ASCII part of what `\s` matches in a str pattern: tab, LF, VT, FF, CR, U+001C to U+001F and space. Non-ASCII whitespace such as U+0085 or U+00A0, which `\s` also matches, is treated as ordinary characters. The demonstration's classes `\d` and `\w` are ASCII.
- The group bookkeeping through `m.lastgroup` is modelled as "the index of the first matching rule". This holds because each rule's group `GROUPi` encloses the whole rule, so it closes after any group nested inside it. Python's named-group syntax inside a rule regex is not modelled, because matchers are abstract.
- Rules that can match the empty string are excluded by `WellFormed`. With such a rule the cursor would not advance, and `tokens()` would loop forever.
- Lexing.Lexer.constructor: it requires at least one rule. With none, the source compiles an empty regex whose match has no `lastgroup`, and `token()` fails with a `KeyError` that the model does not represent.
- Lexing.Lexer.constructor: it binds an empty buffer. In the source, calling `token()` before `input()` fails with an `AttributeError`.
- `tokens()` is a generator. The model drains it eagerly into a sequence plus the `LexerError` that ended it, if any.
- `Token.__str__`, every `print`, and the `__main__` blocks are not modelled. The demonstration inputs are used as concrete scenarios instead.
- Python reflection is replaced by a fixed hierarchy over the declared shape classes. This covers `__class__`, `isinstance` and `__subclasses__`. The implicit base `object` is not modelled.
- `Square` is declared only in multi_with_base_class_defaults.py. The lemmas of the other examples quantify over all five classes, and in their own programs no Square object exists.
- The handlers are tags. What they do when called, a `print`, is not modelled. The model also does not pass the argument objects through to them.
- `multimethod` returns the multimethod object, which rebinds the decorated function's name. When it raises the duplicate-registration `TypeError`, the name keeps its previous binding. Multi.Registry.Multimethod reports that `TypeError` as `err` and still returns the multimethod.
- SeqProcess.Process: `process` accepts any iterable of numbers, so `process([2.0])` returns `3.0`. The model takes a sequence of integers, with no floats and no lazy iterables.
- `is_even` and `is_odd` recurse forever on negative inputs, so the model takes `nat` arguments. The source's recursion-depth limit, which makes `is_even(1000)` fail, is not modelled. Nor is the source's closure object: a thunk is the datatype `Bounce(next, n)`.

## Findings

| source | as written | input that shows it | evidently intended | confidence | as-written member | corrected member |
|---|---|---|---|---|---|---|
| 2009/eblib/lexer.py:113 | the IDENTIFIER rule `[a-zA-Z_]\w+` requires at least two characters | `x = 1`: no rule matches the one-letter name, so `token()` raises `LexerError` at 0 | `[a-zA-Z_]\w*`, under which `x = 1` lexes to IDENTIFIER(x)@0, EQUALS(=)@2, NUMBER(1)@4 | medium; not executed | LexerDemo.OneLetterIdentifierRejected | LexerDemo.OneLetterIdentifierAccepted |

Nothing in lexer.py asks for two characters. The rule's first class `[a-zA-Z_]` already says what may begin a name, and no other rule of the table accepts a lone letter or underscore, so one-letter names such as `x`, `i` or `_` end the token stream with an error instead of yielding an identifier. The model follows the code as written and states the difference as the finding above. `LexerDemo.DemoExpression` shows that both patterns lex the demonstration's input identically.
