/** The parser of the Go `dsf` port (`Parser`, `NewParser`, `nextToken`, `Parse`,
    `parseValue`, `parseObject`, `parseArray` and `parseConstructor` in
    `ref-impl/go/dsf/dsf.go`). The parser reads one token ahead; the functions below say what
    each parsing method returns from a parser state and which state it leaves, and the class
    `Parser` holds the methods, proved to agree with them.

    `lib.cal.dateTime` stands for `time.Parse(time.RFC3339, ..)` and `lib.cal.dateOnly` for
    `time.Parse("2006-01-02", ..)`, each followed by the writer's `Format(time.RFC3339)`;
    `lib.finite` is the range check of `strconv.ParseFloat`. */
module DsfParser {
  import opened Values
  import opened Text
  import opened Codec
  import opened Cursor
  import opened Tokens
  import opened DsfLexer

  /** The parser's state: the current token, the lexer's position, and the lexer error
      `nextToken` recorded, after which it reads no further and the token stays the zero
      token. */
  datatype PState = PState(token: Token, pos: nat, err: Option<LexError>)

  /** The states the parser can be in. */
  predicate Good(s: string, st: PState)
  {
    st.pos <= |s| && Shaped(st.token) && (st.err.Some? ==> st.token == EofToken)
  }

  /** What is left to read: the bytes after the lexer's position, and the current token
      unless it is the end of input. */
  function Rank(s: string, st: PState): nat
    requires st.pos <= |s|
  {
    2 * (|s| - st.pos) + (if st.token.kind == EOF then 0 else 1)
  }

  /** `nextToken`: once an error is recorded nothing changes; otherwise the lexer reads the
      next token, and an error leaves the zero token (the end of input) behind. */
  function Advance(s: string, st: PState): (r: PState)
    requires Good(s, st)
    ensures Good(s, r)
    ensures Rank(s, r) <= Rank(s, st)
    ensures st.token.kind != EOF ==> Rank(s, r) < Rank(s, st)
    ensures st.err.Some? ==> r == st
    ensures Tracks(s, st) ==> Tracks(s, r)
  {
    if st.err.Some? then st
    else
      var l := Lex(s, st.pos);
      match l.result
      case Ok(t) => PState(t, l.next, None)
      case Err(e) => PState(EofToken, l.next, Some(e))
  }

  /** The state `NewParser` starts in: the first token read. */
  function Start(s: string): PState
  {
    Advance(s, PState(EofToken, 0, None))
  }

  /** The errors the parser returns (`Lexing` only from `ParseReported`). */
  datatype DsfError =
    | ExpectedOpenBrace(got: Token)
    | ExpectedKey(got: Token)
    | DuplicateKey(key: string)
    | ExpectedColon(got: Token)
    | ExpectedCommaOrBrace(got: Token)
    | MissingBrace
    | ExpectedCommaOrBracket(got: Token)
    | MissingBracket
    | UnexpectedToken(got: Token)
    | TrailingData(got: Token)
    | InvalidNumber(text: string)
    | InvalidConstructor(full: string)
    | InvalidBigInt(payload: string)
    | InvalidHex(payload: string)
    | UnknownConstructor(name: string)
    | Lexing(error: LexError)

  /** What a parsing method returns: a value and the state after it, or an error. */
  datatype Parsed<+T> = Got(value: T, next: PState) | Failed(error: DsfError)

  /** A parsing method that returned `r` and left the parser in state `st` did what `parsed`
      says. */
  predicate Reached<T(==)>(parsed: Parsed<T>, r: Result<T, DsfError>, st: PState)
  {
    if r.Ok? then parsed == Got(r.value, st) else parsed == Failed(r.error)
  }

  // ---------------------------------------------------------------- scalars

  /** The number case of `parseValue`: a lexeme with `.`, `e` or `E` is a float
      (`strconv.ParseFloat`), any other an `int64` (`strconv.ParseInt`). */
  function NumberValue(text: string, lib: Library): (r: Result<Value, DsfError>)
    ensures r.Ok? ==> r.value.Number? || r.value.Int?
    ensures r.Ok? && r.value.Number? <==> ('.' in text || 'e' in text || 'E' in text) && lib.finite(text)
    ensures r.Ok? && r.value.Number? ==> r.value.text == text
    ensures r.Ok? && r.value.Int? ==> InI64(r.value.i) && SignedDecimal(text, true) == Some(r.value.i)
    ensures r.Err? ==> r.error == InvalidNumber(text)
  {
    if '.' in text || 'e' in text || 'E' in text then
      if lib.finite(text) then Ok(Number(text)) else Err(InvalidNumber(text))
    else
      match SignedDecimal(text, true)
      case Some(n) => if InI64(n) then Ok(Int(n)) else Err(InvalidNumber(text))
      case None => Err(InvalidNumber(text))
  }

  /** The `D(..)` case of `parseConstructor`: a date-time, else a date, else the payload as a
      string. */
  function ReadDate(payload: string, cal: Calendar): (r: Value)
    ensures r.Date? <==> cal.dateTime(payload).Some? || cal.dateOnly(payload).Some?
    ensures r.Date? && cal.dateTime(payload).Some? ==> r.text == cal.dateTime(payload).value
    ensures !r.Date? ==> r == Str(payload)
  {
    match cal.dateTime(payload)
    case Some(t) => Date(t)
    case None =>
      match cal.dateOnly(payload)
      case Some(t) => Date(t)
      case None => Str(payload)
  }

  /** `parseConstructor`: the name before the first `(` picks the reader of the payload
      between it and the final `)`. */
  function ConstructorValue(full: string, lib: Library): (r: Result<Value, DsfError>)
    requires |full| > 0 && full[|full| - 1] == ')'
    ensures r == Err(InvalidConstructor(full)) <==> Free(full, '(')
    ensures r.Ok? && r.value.BigInt? ==>
      |full| >= 4 && full[..3] == "BN(" && SignedDecimal(full[3..|full| - 1], true) == Some(r.value.n)
    ensures r.Ok? && r.value.Bytes? ==>
      |full| >= 3 && full[..2] == "B(" && HexDecode(full[2..|full| - 1]) == Some(r.value.bytes)
  {
    var idx := ByteEnd(full, 0, '(');
    if idx == |full| then Err(InvalidConstructor(full))
    else
      var typeName := full[..idx];
      var payload := full[idx + 1..|full| - 1];
      if typeName == "D" then Ok(ReadDate(payload, lib.cal))
      else if typeName == "BN" then
        match SignedDecimal(payload, true)
        case Some(n) => Ok(BigInt(n))
        case None => Err(InvalidBigInt(payload))
      else if typeName == "B" then
        match HexDecode(payload)
        case Some(bs) => Ok(Bytes(bs))
        case None => Err(InvalidHex(payload))
      else Err(UnknownConstructor(typeName))
  }

  // ---------------------------------------------------------------- containers

  /** The result of a step with the same state after it. */
  function Then<T>(r: Result<T, DsfError>, next: PState): Parsed<T>
  {
    match r
    case Ok(v) => Got(v, next)
    case Err(e) => Failed(e)
  }

  /** `parseValue` in state `st`. Every value it reads takes at least one token. */
  function ValueAt(s: string, st: PState, lib: Library): (r: Parsed<Value>)
    requires Good(s, st)
    ensures r.Got? ==> Good(s, r.next) && Rank(s, r.next) < Rank(s, st)
    ensures r.Got? && Tracks(s, st) ==> Tracks(s, r.next)
    decreases Rank(s, st), 1
  {
    var tok := st.token;
    match tok.kind
    case BraceOpen =>
      (match ObjectAt(s, st, lib)
       case Got(m, n) => Got(Object(m), n)
       case Failed(e) => Failed(e))
    case BracketOpen =>
      (match ArrayAt(s, st, lib)
       case Got(a, n) => Got(Array(a), n)
       case Failed(e) => Failed(e))
    case StringTok => Got(Str(tok.text[1..|tok.text| - 1]), Advance(s, st))
    case NumberTok => Then(NumberValue(tok.text, lib), Advance(s, st))
    case BoolT => Got(Bool(true), Advance(s, st))
    case BoolF => Got(Bool(false), Advance(s, st))
    case NullN => Got(Null, Advance(s, st))
    case ConstructorTok => Then(ConstructorValue(tok.text, lib), Advance(s, st))
    case _ => Failed(UnexpectedToken(tok))
  }

  /** `parseObject` in state `st`. */
  function ObjectAt(s: string, st: PState, lib: Library): (r: Parsed<map<string, Value>>)
    requires Good(s, st)
    ensures r.Got? ==> Good(s, r.next) && Rank(s, r.next) < Rank(s, st)
    ensures r.Got? && Tracks(s, st) ==> Tracks(s, r.next)
    decreases Rank(s, st), 0
  {
    if st.token.kind != BraceOpen then Failed(ExpectedOpenBrace(st.token))
    else MembersAt(s, Advance(s, st), map[], lib)
  }

  /** The member loop of `parseObject` in state `st`, with the members read so far in `obj`.
      The loop stops at `}` or at the end of input; a key is checked for duplicates before
      its colon is read; after a value comes `,` (read, and the loop goes on) or `}` (left
      for the loop test), so a `,` before the `}` is accepted. */
  function MembersAt(s: string, st: PState, obj: map<string, Value>, lib: Library): (r: Parsed<map<string, Value>>)
    requires Good(s, st)
    ensures r.Got? ==> Good(s, r.next) && Rank(s, r.next) < Rank(s, st)
    ensures r.Got? && Tracks(s, st) ==> Tracks(s, r.next)
    decreases Rank(s, st), 2
  {
    var tok := st.token;
    if tok.kind == BraceClose || tok.kind == EOF then
      if tok.kind != BraceClose then Failed(MissingBrace) else Got(obj, Advance(s, st))
    else if !KeyKind(tok.kind) then Failed(ExpectedKey(tok))
    else if tok.text in obj then Failed(DuplicateKey(tok.text))
    else
      var st1 := Advance(s, st);
      if st1.token.kind != Colon then Failed(ExpectedColon(st1.token))
      else
        match ValueAt(s, Advance(s, st1), lib)
        case Failed(e) => Failed(e)
        case Got(v, st3) =>
          if st3.token.kind == Comma then MembersAt(s, Advance(s, st3), obj[tok.text := v], lib)
          else if st3.token.kind != BraceClose then Failed(ExpectedCommaOrBrace(st3.token))
          else MembersAt(s, st3, obj[tok.text := v], lib)
  }

  /** `parseArray` in state `st`, whose token is `[`. */
  function ArrayAt(s: string, st: PState, lib: Library): (r: Parsed<seq<Value>>)
    requires Good(s, st) && st.token.kind == BracketOpen
    ensures r.Got? ==> Good(s, r.next) && Rank(s, r.next) < Rank(s, st)
    ensures r.Got? && Tracks(s, st) ==> Tracks(s, r.next)
    decreases Rank(s, st), 0
  {
    ElemsAt(s, Advance(s, st), [], lib)
  }

  /** The element loop of `parseArray` in state `st`, with the items read so far in `arr`. */
  function ElemsAt(s: string, st: PState, arr: seq<Value>, lib: Library): (r: Parsed<seq<Value>>)
    requires Good(s, st)
    ensures r.Got? ==> Good(s, r.next) && Rank(s, r.next) < Rank(s, st)
    ensures r.Got? && Tracks(s, st) ==> Tracks(s, r.next)
    decreases Rank(s, st), 2
  {
    var tok := st.token;
    if tok.kind == BracketClose || tok.kind == EOF then
      if tok.kind != BracketClose then Failed(MissingBracket) else Got(arr, Advance(s, st))
    else
      match ValueAt(s, st, lib)
      case Failed(e) => Failed(e)
      case Got(v, st1) =>
        if st1.token.kind == Comma then ElemsAt(s, Advance(s, st1), arr + [v], lib)
        else if st1.token.kind != BracketClose then Failed(ExpectedCommaOrBracket(st1.token))
        else ElemsAt(s, st1, arr + [v], lib)
  }

  // ---------------------------------------------------------------- documents

  /** `Parser.Parse` after `parseObject`: the object, unless a token other than the end of
      input follows it. */
  function Finish(r: Parsed<map<string, Value>>): Result<map<string, Value>, DsfError>
  {
    match r
    case Failed(e) => Err(e)
    case Got(m, st) => if st.token.kind != EOF then Err(TrailingData(st.token)) else Ok(m)
  }

  /** `Parse`: a document is one object. */
  function ParseAll(s: string, lib: Library): Result<map<string, Value>, DsfError>
  {
    Finish(ObjectAt(s, Start(s), lib))
  }

  /** The lexer reads every token from `p` to the end of input without an error. */
  predicate Clean(s: string, p: nat)
    requires p <= |s|
    decreases |s| - p
  {
    var l := Lex(s, p);
    l.result.Ok? && (l.result.value.kind == EOF || Clean(s, l.next))
  }

  /** With no error recorded, the input lexes cleanly if the rest does after the current
      token (or the current token is the end of input). The first state read has this
      property and `Advance` keeps it, so a final state at the end of input with no recorded
      error implies that the whole input lexed cleanly. */
  predicate Tracks(s: string, st: PState)
  {
    st.pos <= |s| && (st.err.None? && (st.token.kind == EOF || Clean(s, st.pos)) ==> Clean(s, 0))
  }

  /** `Parse` with the lexer error checked (after a lexer error `nextToken` leaves the end of
      input token, so `Parse` accepts an object followed by text that fails to lex). */
  function ParseReported(s: string, lib: Library): (r: Result<map<string, Value>, DsfError>)
    ensures r.Ok? ==> Clean(s, 0)
    ensures r.Ok? ==> ParseAll(s, lib) == r
  {
    assert Tracks(s, Start(s));
    match ObjectAt(s, Start(s), lib)
    case Failed(e) => Err(e)
    case Got(m, st) =>
      if st.err.Some? then Err(Lexing(st.err.value))
      else if st.token.kind != EOF then Err(TrailingData(st.token))
      else Ok(m)
  }

  /** As written, `Parse` accepts an object followed by a byte that is no token: the
      lexer error after `}` leaves the end of input token, which is what `Parse` checks
      for. The input does not lex cleanly, and `ParseReported` returns the lexer error. */
  lemma TrailingLexErrorAccepted(lib: Library)
    ensures ParseAll("{} @", lib) == Ok(map[])
    ensures !Clean("{} @", 0)
    ensures ParseReported("{} @", lib) == Err(Lexing(UnexpectedCharacter(3, '@')))
  {
    TrailingDocument("{} @", lib);
  }

  lemma TrailingDocument(s: string, lib: Library)
    requires s == "{} @"
    ensures ParseAll(s, lib) == Ok(map[])
    ensures !Clean(s, 0)
    ensures ParseReported(s, lib) == Err(Lexing(UnexpectedCharacter(3, '@')))
  {
    var st0, st1, st2 := TrailingStates(s);
    assert MembersAt(s, st1, map[], lib) == Got(map[], st2);
    assert ObjectAt(s, st0, lib) == Got(map[], st2);
    assert !Clean(s, 2);
  }

  /** The parser's states over `{} @`: `{`, then `}`, then the end of input with the lexer
      error recorded. */
  lemma TrailingStates(s: string) returns (st0: PState, st1: PState, st2: PState)
    requires s == "{} @"
    ensures Lex(s, 0) == Lexed(Ok(Token(BraceOpen, "{")), 1)
    ensures Lex(s, 1) == Lexed(Ok(Token(BraceClose, "}")), 2)
    ensures Lex(s, 2) == Lexed(Err(UnexpectedCharacter(3, '@')), 3)
    ensures st0 == Start(s) && st0 == PState(Token(BraceOpen, "{"), 1, None) && Good(s, st0)
    ensures st1 == Advance(s, st0) && st1 == PState(Token(BraceClose, "}"), 2, None)
    ensures st2 == Advance(s, st1) && st2 == PState(EofToken, 3, Some(UnexpectedCharacter(3, '@')))
  {
    TrailingLex(s);
    st0 := Start(s);
    st1 := Advance(s, st0);
    st2 := Advance(s, st1);
  }

  lemma TrailingLex(s: string)
    requires s == "{} @"
    ensures Lex(s, 0) == Lexed(Ok(Token(BraceOpen, "{")), 1)
    ensures Lex(s, 1) == Lexed(Ok(Token(BraceClose, "}")), 2)
    ensures Lex(s, 2) == Lexed(Err(UnexpectedCharacter(3, '@')), 3)
  {
    assert s[0] == '{' && s[1] == '}' && s[2] == ' ' && s[3] == '@';
    assert Lex(s, 0) == Lexed(Ok(Token(BraceOpen, "{")), 1);
    assert Lex(s, 1) == Lexed(Ok(Token(BraceClose, "}")), 2);
    assert SpaceEnd(s, 2) == 3;
    assert NumberToken(s, 3) == None;
  }

  /** A dot cannot stand in a key: the lexer stops with an error at the `.` of `user.name`,
      which leaves the end of input where the parser wants the colon. */
  lemma DottedKeyRejected(lib: Library)
    ensures ParseAll("{ user.name: 1 }", lib) == Err(ExpectedColon(EofToken))
  {
    DottedKeyDocument("{ user.name: 1 }", lib);
  }

  lemma DottedKeyDocument(s: string, lib: Library)
    requires s == "{ user.name: 1 }"
    ensures ParseAll(s, lib) == Err(ExpectedColon(EofToken))
  {
    DottedKeyLex(s);
    var st0 := Start(s);
    assert st0 == PState(Token(BraceOpen, "{"), 1, None);
    var st1 := Advance(s, st0);
    assert st1 == PState(Token(KeyTok, "user"), 6, None);
    assert Advance(s, st1) == PState(EofToken, 6, Some(UnexpectedCharacter(6, '.')));
    assert MembersAt(s, st1, map[], lib) == Failed(ExpectedColon(EofToken));
  }

  lemma DottedKeyLex(s: string)
    requires s == "{ user.name: 1 }"
    ensures Lex(s, 0) == Lexed(Ok(Token(BraceOpen, "{")), 1)
    ensures Lex(s, 1) == Lexed(Ok(Token(KeyTok, "user")), 6)
    ensures Lex(s, 6) == Lexed(Err(UnexpectedCharacter(6, '.')), 6)
  {
    assert s[0] == '{' && s[1] == ' ' && s[2] == 'u' && s[5] == 'r' && s[6] == '.';
    assert SpaceEnd(s, 1) == 2;
    assert WordEnd(s, 2) == 6 by {
      assert forall i :: 2 <= i < 6 ==> IsIdentifierChar(s[i]);
    }
    assert s[2..6] == "user";
    assert WordAt(s, 2) == Lexed(Ok(Token(KeyTok, "user")), 6);
    assert SpaceEnd(s, 6) == 6;
  }

  /** A number directly followed by an identifier byte is not a number: `123abc` is one
      key token. */
  lemma DigitLedKey()
    ensures Lex("123abc", 0) == Lexed(Ok(Token(KeyTok, "123abc")), 6)
  {
    DigitLedKeyLex("123abc");
  }

  lemma DigitLedKeyLex(s: string)
    requires s == "123abc"
    ensures Lex(s, 0) == Lexed(Ok(Token(KeyTok, s)), 6)
  {
    assert SpaceEnd(s, 0) == 0;
    assert GreedyNumberEnd(s, 0) == Some(3) by {
      assert s[0] == '1' && s[1] == '2' && s[2] == '3' && s[3] == 'a';
      assert DigitsEnd(s, 0) == 3;
    }
    assert NumberToken(s, 0) == None;
    assert WordEnd(s, 0) == 6 by {
      assert forall i :: 0 <= i < 6 ==> IsIdentifierChar(s[i]);
    }
    assert s[0..6] == s;
  }

  /** `Parser`: the lexer, the current token and the recorded lexer error. */
  class Parser {
    const lexer: Lexer
    const lib: Library
    var token: Token
    var err: Option<LexError>

    /** The parser's state, as the functions above see it. */
    function State(): PState
      reads this, lexer
    {
      PState(token, lexer.pos, err)
    }

    predicate Valid()
      reads this, lexer
    {
      Good(lexer.input, State())
    }

    /** `NewParser`: the first token is read. */
    constructor(input: string, lib: Library)
      ensures lexer.input == input && this.lib == lib && fresh(lexer)
      ensures Valid() && State() == Start(input)
    {
      lexer := new Lexer(input);
      this.lib := lib;
      token := EofToken;
      err := None;
      new;
      NextToken();
    }

    /** `nextToken`. */
    method NextToken()
      requires Valid()
      modifies this, lexer
      ensures Valid() && State() == Advance(lexer.input, old(State()))
    {
      if err.Some? {
        return;
      }
      var t := lexer.NextToken();
      match t
      case Ok(tok) =>
        token := tok;
      case Err(e) =>
        token := EofToken;
        err := Some(e);
    }

    /** `Parse`. */
    method Parse() returns (r: Result<map<string, Value>, DsfError>)
      requires Valid()
      modifies this, lexer
      ensures r == Finish(ObjectAt(lexer.input, old(State()), lib))
    {
      var val := ParseObject();
      if val.Err? {
        return Err(val.error);
      }
      if token.kind != EOF {
        return Err(TrailingData(token));
      }
      return Ok(val.value);
    }

    /** `parseValue`. */
    method ParseValue() returns (r: Result<Value, DsfError>)
      requires Valid()
      modifies this, lexer
      ensures Valid() && Reached(ValueAt(lexer.input, old(State()), lib), r, State())
      decreases Rank(lexer.input, State()), 1
    {
      match token.kind
      case BraceOpen =>
        var o := ParseObject();
        r := if o.Ok? then Ok(Object(o.value)) else Err(o.error);
      case BracketOpen =>
        var a := ParseArray();
        r := if a.Ok? then Ok(Array(a.value)) else Err(a.error);
      case StringTok =>
        var v := token.text[1..|token.text| - 1];
        NextToken();
        r := Ok(Str(v));
      case NumberTok =>
        var v := token.text;
        NextToken();
        r := NumberValue(v, lib);
      case BoolT =>
        NextToken();
        r := Ok(Bool(true));
      case BoolF =>
        NextToken();
        r := Ok(Bool(false));
      case NullN =>
        NextToken();
        r := Ok(Null);
      case ConstructorTok =>
        var v := token.text;
        NextToken();
        r := ConstructorValue(v, lib);
      case _ =>
        r := Err(UnexpectedToken(token));
    }

    /** `parseObject`. */
    method ParseObject() returns (r: Result<map<string, Value>, DsfError>)
      requires Valid()
      modifies this, lexer
      ensures Valid() && Reached(ObjectAt(lexer.input, old(State()), lib), r, State())
      decreases Rank(lexer.input, State()), 0
    {
      if token.kind != BraceOpen {
        return Err(ExpectedOpenBrace(token));
      }
      NextToken();
      var obj := map[];
      while token.kind != BraceClose && token.kind != EOF
        invariant Valid()
        invariant ObjectAt(lexer.input, old(State()), lib) == MembersAt(lexer.input, State(), obj, lib)
        invariant Rank(lexer.input, State()) < Rank(lexer.input, old(State()))
        decreases Rank(lexer.input, State())
      {
        ghost var st := State();
        if !KeyKind(token.kind) {
          return Err(ExpectedKey(token));
        }
        var key := token.text;
        if key in obj {
          return Err(DuplicateKey(key));
        }
        NextToken();
        if token.kind != Colon {
          return Err(ExpectedColon(token));
        }
        NextToken();
        var val := ParseValue();
        if val.Err? {
          return Err(val.error);
        }
        obj := obj[key := val.value];
        if token.kind == Comma {
          NextToken();
        } else if token.kind != BraceClose {
          return Err(ExpectedCommaOrBrace(token));
        }
      }
      if token.kind != BraceClose {
        return Err(MissingBrace);
      }
      NextToken();
      return Ok(obj);
    }

    /** `parseArray`, entered at a `[`. */
    method ParseArray() returns (r: Result<seq<Value>, DsfError>)
      requires Valid() && token.kind == BracketOpen
      modifies this, lexer
      ensures Valid() && Reached(ArrayAt(lexer.input, old(State()), lib), r, State())
      decreases Rank(lexer.input, State()), 0
    {
      NextToken();
      var arr := [];
      while token.kind != BracketClose && token.kind != EOF
        invariant Valid()
        invariant ArrayAt(lexer.input, old(State()), lib) == ElemsAt(lexer.input, State(), arr, lib)
        invariant Rank(lexer.input, State()) < Rank(lexer.input, old(State()))
        decreases Rank(lexer.input, State())
      {
        var val := ParseValue();
        if val.Err? {
          return Err(val.error);
        }
        arr := arr + [val.value];
        if token.kind == Comma {
          NextToken();
        } else if token.kind != BracketClose {
          return Err(ExpectedCommaOrBracket(token));
        }
      }
      if token.kind != BracketClose {
        return Err(MissingBracket);
      }
      NextToken();
      return Ok(arr);
    }
  }

  /** The package-level `Parse`: a new parser over the input, then `Parser.Parse`. */
  method ParseText(input: string, lib: Library) returns (r: Result<map<string, Value>, DsfError>)
    ensures r == ParseAll(input, lib)
  {
    var p := new Parser(input, lib);
    r := p.Parse();
  }
}
