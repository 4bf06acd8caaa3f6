/**
 * The SQL statements the database controller prints, and a lexer for the fragment of PostgreSQL they use
 * (sections 4.1.1 and 4.1.2.1 of the PostgreSQL documentation, standard-conforming strings).
 */
module SqlText {
  import opened Basics

  // ---------------------------------------------------------------- printing

  /** Every occurrence of the quote character doubled. */
  function Doubled(s: string, quote: char): string {
    if s == "" then "" else (if s[0] == quote then [quote, quote] else [s[0]]) + Doubled(s[1..], quote)
  }

  function QuoteIdentifier(name: string): string { "\"" + Doubled(name, '"') + "\"" }

  /** `'%s'` around a value whose single quotes have been doubled. */
  function QuoteLiteral(value: string): string { "'" + Doubled(value, '\'') + "'" }

  function WithPassword(user: string, password: string): string {
    QuoteIdentifier(user) + (" WITH " + ("PASSWORD " + (QuoteLiteral(password) + ";")))
  }

  function CreateUser(user: string, password: string): string { "CREATE " + ("USER " + WithPassword(user, password)) }

  function AlterUser(user: string, password: string): string { "ALTER " + ("USER " + WithPassword(user, password)) }

  function CreateDatabase(database: string, user: string): string {
    "CREATE " + ("DATABASE " + (QuoteIdentifier(database) + (" OWNER " + (QuoteIdentifier(user) + ";"))))
  }

  // ---------------------------------------------------------------- lexing

  datatype Token = Word(text: string) | Identifier(name: string) | StringConstant(value: string) | Special(c: char)

  datatype Tokens = End | Then(head: Token, tail: Tokens)

  predicate Space(c: char) { c == ' ' || c == '\t' || c == '\n' || c == '\r' }

  predicate WordStart(c: char) { 'a' <= c <= 'z' || 'A' <= c <= 'Z' || c == '_' || c as int >= 128 }

  predicate WordChar(c: char) { WordStart(c) || '0' <= c <= '9' || c == '$' }

  /** Reads a quoted body up to its closing quote; a doubled quote stands for one, and NUL is not allowed. */
  function Body(s: string, quote: char): (r: Option<(string, string)>)
    ensures r.Some? ==> |r.value.1| < |s|
    decreases |s|
  {
    if s == "" then None
    else if s[0] == quote then
      if |s| > 1 && s[1] == quote then
        match Body(s[2..], quote)
        case None => None
        case Some((body, rest)) => Some(([quote] + body, rest))
      else Some(("", s[1..]))
    else if s[0] == '\0' then None
    else
      match Body(s[1..], quote)
      case None => None
      case Some((body, rest)) => Some(([s[0]] + body, rest))
  }

  function WordLength(s: string): (n: nat)
    ensures n <= |s|
  {
    if s == "" || !WordChar(s[0]) then 0 else 1 + WordLength(s[1..])
  }

  /** A string constant goes on after white space with a newline in it (section 4.1.2.1). */
  predicate Continues(s: string, newline: bool) {
    s != "" && (if Space(s[0]) then Continues(s[1..], newline || s[0] == '\n') else newline && s[0] == '\'')
  }

  function Cons(token: Token, rest: Option<Tokens>): Option<Tokens> {
    if rest.Some? then Some(Then(token, rest.value)) else None
  }

  /** One token off the front of a text that does not start with white space. */
  function Next(s: string): (r: Option<(Token, string)>)
    requires s != ""
    ensures r.Some? ==> |r.value.1| < |s|
  {
    if s[0] == '"' then
      match Body(s[1..], '"')
      case None => None
      case Some((name, rest)) => if name == "" then None else Some((Identifier(name), rest))
    else if s[0] == '\'' then
      match Body(s[1..], '\'')
      case None => None
      case Some((value, rest)) => if Continues(rest, false) then None else Some((StringConstant(value), rest))
    else if WordStart(s[0]) then
      var n := 1 + WordLength(s[1..]);
      if n < |s| && (s[n] == '\'' || s[n] == '"' || s[n] == '&') then None
      else Some((Word(s[..n]), s[n..]))
    else if s[0] in ";,()" then Some((Special(s[0]), s[1..]))
    else None
  }

  /**
   * The tokens of a text, or None when the text is malformed or leaves the fragment: numbers, operators,
   * comments, dollar quotes, prefixed constants (E'', B'', U&"") and continued constants.
   */
  function Lex(s: string): Option<Tokens>
    decreases |s|
  {
    if s == "" then Some(End)
    else if Space(s[0]) then Lex(s[1..])
    else
      match Next(s)
      case None => None
      case Some((token, rest)) => Cons(token, Lex(rest))
  }

  // ---------------------------------------------------------------- round trip

  /** Names and values that PostgreSQL can hold: no NUL, and an identifier is not empty. */
  predicate Representable(token: Token) {
    match token
    case Word(_) => true
    case Identifier(name) => name != "" && '\0' !in name
    case StringConstant(value) => '\0' !in value
    case Special(_) => true
  }

  predicate PlainWord(text: string) {
    text != "" && WordStart(text[0]) && forall i | 0 <= i < |text| :: WordChar(text[i])
  }

  /** Tokens as the statements use them: keywords as plain words, and no special character but the semicolon. */
  predicate Printable(token: Token) {
    (token.Word? ==> PlainWord(token.text)) && (token.Special? ==> token.c == ';')
  }

  predicate AllPrintable(tokens: Tokens) {
    tokens.Then? ==> Printable(tokens.head) && AllPrintable(tokens.tail)
  }

  predicate AllRepresentable(tokens: Tokens) {
    tokens.Then? ==> Representable(tokens.head) && AllRepresentable(tokens.tail)
  }

  function TokenText(token: Token): string {
    match token
    case Word(text) => text
    case Identifier(name) => QuoteIdentifier(name)
    case StringConstant(value) => QuoteLiteral(value)
    case Special(c) => [c]
  }

  function Gap(tokens: Tokens): string { if tokens == End || tokens.head.Special? then "" else " " }

  /** Tokens separated by one space, with the semicolon attached. */
  function Print(tokens: Tokens): string {
    if tokens == End then "" else TokenText(tokens.head) + (Gap(tokens.tail) + Print(tokens.tail))
  }

  lemma {:induction false} BodyReadsBack(s: string, quote: char, rest: string)
    requires quote != '\0' && (rest != "" ==> rest[0] != quote)
    ensures Body(Doubled(s, quote) + [quote] + rest, quote) == if '\0' in s then None else Some((s, rest))
  {
    var text := Doubled(s, quote) + [quote] + rest;
    if s == "" {
      assert text == [quote] + rest;
    } else {
      BodyReadsBack(s[1..], quote, rest);
      var tail := Doubled(s[1..], quote) + [quote] + rest;
      assert s == [s[0]] + s[1..];
      if s[0] == quote {
        assert text[2..] == tail;
      } else {
        assert text[1..] == tail;
      }
    }
  }

  lemma {:induction false} WordReadsBack(word: string, rest: string)
    requires forall i | 0 <= i < |word| :: WordChar(word[i])
    requires rest != "" ==> !WordChar(rest[0])
    ensures WordLength(word + rest) == |word|
  {
    if word == "" {
      assert word + rest == rest;
    } else {
      assert (word + rest)[1..] == word[1..] + rest;
      WordReadsBack(word[1..], rest);
    }
  }

  /** What may follow a printed token: nothing, a space and no new line, or a semicolon. */
  predicate Separated(rest: string) {
    rest == "" || rest[0] == ';' || (rest[0] == ' ' && |rest| > 1 && !Space(rest[1]))
  }

  lemma WordIsNext(text: string, rest: string)
    requires PlainWord(text) && Separated(rest)
    ensures Next(text + rest) == Some((Word(text), rest))
  {
    WordReadsBack(text[1..], rest);
    var s := text + rest;
    assert s[1..] == text[1..] + rest;
    assert s[..|text|] == text && s[|text|..] == rest;
    assert s[0] == text[0];
  }

  lemma IdentifierIsNext(name: string, rest: string)
    requires Separated(rest)
    ensures Next(QuoteIdentifier(name) + rest) ==
            if name != "" && '\0' !in name then Some((Identifier(name), rest)) else None
  {
    BodyReadsBack(name, '"', rest);
    var s := QuoteIdentifier(name) + rest;
    assert s[1..] == Doubled(name, '"') + ['"'] + rest;
  }

  lemma NotContinued(rest: string)
    requires Separated(rest)
    ensures !Continues(rest, false)
  {
  }

  lemma StringIsNext(value: string, rest: string)
    requires Separated(rest)
    ensures Next(QuoteLiteral(value) + rest) ==
            if '\0' !in value then Some((StringConstant(value), rest)) else None
  {
    BodyReadsBack(value, '\'', rest);
    NotContinued(rest);
    var s := QuoteLiteral(value) + rest;
    assert s[1..] == Doubled(value, '\'') + ['\''] + rest;
    assert s[0] == '\'';
  }

  lemma TokenReadsBack(token: Token, rest: string)
    requires Printable(token) && Separated(rest)
    ensures Lex(TokenText(token) + rest) == if Representable(token) then Cons(token, Lex(rest)) else None
  {
    var s := TokenText(token) + rest;
    match token
    case Word(text) => WordIsNext(text, rest);
    case Identifier(name) => IdentifierIsNext(name, rest);
    case StringConstant(value) => StringIsNext(value, rest);
    case Special(c) => assert s[1..] == rest;
  }

  lemma GapSeparates(tokens: Tokens)
    requires AllPrintable(tokens)
    ensures Separated(Gap(tokens) + Print(tokens)) && Lex(Gap(tokens) + Print(tokens)) == Lex(Print(tokens))
  {
    var text := Print(tokens);
    if tokens.Then? {
      assert text[0] == TokenText(tokens.head)[0];
    }
    assert "" + text == text && (" " + text)[1..] == text;
  }

  /**
   * Round trip: lexing what was printed gives back exactly the tokens that were meant, for every list of
   * tokens; and the text is rejected exactly when a name or value cannot be represented at all.
   */
  lemma {:induction false} LexPrinted(tokens: Tokens)
    requires AllPrintable(tokens)
    ensures Lex(Print(tokens)) == if AllRepresentable(tokens) then Some(tokens) else None
  {
    if tokens.Then? {
      LexPrinted(tokens.tail);
      GapSeparates(tokens.tail);
      TokenReadsBack(tokens.head, Gap(tokens.tail) + Print(tokens.tail));
    }
  }

  function PasswordTokens(user: string, password: string): Tokens {
    Then(Identifier(user), Then(Word("WITH"), Then(Word("PASSWORD"),
      Then(StringConstant(password), Then(Special(';'), End)))))
  }

  function UserStatement(verb: string, user: string, password: string): Tokens {
    Then(Word(verb), Then(Word("USER"), PasswordTokens(user, password)))
  }

  function DatabaseStatement(database: string, user: string): Tokens {
    Then(Word("CREATE"), Then(Word("DATABASE"), Then(Identifier(database),
      Then(Word("OWNER"), Then(Identifier(user), Then(Special(';'), End))))))
  }

  lemma Unroll(token: Token, tail: Tokens)
    ensures AllPrintable(Then(token, tail)) == (Printable(token) && AllPrintable(tail))
    ensures AllRepresentable(Then(token, tail)) == (Representable(token) && AllRepresentable(tail))
  {
  }

  lemma StatementsArePrintable(verb: string, database: string, user: string, password: string)
    requires PlainWord(verb)
    ensures AllPrintable(UserStatement(verb, user, password)) && AllPrintable(DatabaseStatement(database, user))
    ensures AllRepresentable(UserStatement(verb, user, password)) <==>
            user != "" && '\0' !in user && '\0' !in password
    ensures AllRepresentable(DatabaseStatement(database, user)) <==>
            database != "" && user != "" && '\0' !in database && '\0' !in user
  {
    hide AllPrintable, AllRepresentable;
    var end := Then(Special(';'), End);
    Ends();
    Unroll(Special(';'), End);
    Unroll(StringConstant(password), end);
    Unroll(Word("PASSWORD"), Then(StringConstant(password), end));
    Unroll(Word("WITH"), Then(Word("PASSWORD"), Then(StringConstant(password), end)));
    Unroll(Identifier(user), Then(Word("WITH"), Then(Word("PASSWORD"), Then(StringConstant(password), end))));
    Unroll(Word("USER"), PasswordTokens(user, password));
    Unroll(Word(verb), Then(Word("USER"), PasswordTokens(user, password)));
    var d2 := Then(Word("OWNER"), Then(Identifier(user), end));
    Unroll(Identifier(user), end);
    Unroll(Word("OWNER"), Then(Identifier(user), end));
    Unroll(Identifier(database), d2);
    Unroll(Word("DATABASE"), Then(Identifier(database), d2));
    Unroll(Word("CREATE"), Then(Word("DATABASE"), Then(Identifier(database), d2)));
  }

  lemma Ends()
    ensures AllPrintable(End) && AllRepresentable(End)
  {
  }

  lemma Spaced(word: string, rest: string)
    ensures (word + " ") + rest == word + (" " + rest)
    ensures (" " + word + " ") + rest == " " + (word + (" " + rest))
  {
  }

  lemma PrintPasswordTokens(user: string, password: string)
    ensures Print(PasswordTokens(user, password)) == WithPassword(user, password)
  {
    var t3 := Then(StringConstant(password), Then(Special(';'), End));
    var t2 := Then(Word("PASSWORD"), t3);
    var t1 := Then(Word("WITH"), t2);
    assert Print(Then(Special(';'), End)) == ";";
    assert Print(t3) == QuoteLiteral(password) + ";";
    assert Print(t2) == "PASSWORD" + (" " + Print(t3));
    Spaced("PASSWORD", Print(t3));
    Spaced("WITH", Print(t2));
    assert "PASSWORD" + " " == "PASSWORD ";
    assert " " + "WITH" + " " == " WITH ";
  }

  lemma PrintUserStatement(verb: string, user: string, password: string)
    ensures Print(UserStatement(verb, user, password)) == (verb + " ") + ("USER " + WithPassword(user, password))
  {
    PrintPasswordTokens(user, password);
    var tail := WithPassword(user, password);
    Spaced("USER", tail);
    assert "USER" + " " == "USER ";
    Spaced(verb, "USER " + tail);
  }

  /** CREATE USER reads back as the intended tokens, with the role name and the password unchanged. */
  lemma CreateUserReadsBack(user: string, password: string)
    ensures Lex(CreateUser(user, password)) ==
            if user != "" && '\0' !in user && '\0' !in password
            then Some(Then(Word("CREATE"), Then(Word("USER"), Then(Identifier(user), Then(Word("WITH"),
                      Then(Word("PASSWORD"), Then(StringConstant(password), Then(Special(';'), End))))))))
            else None
  {
    StatementsArePrintable("CREATE", "", user, password);
    LexPrinted(UserStatement("CREATE", user, password));
    PrintUserStatement("CREATE", user, password);
    assert "CREATE" + " " == "CREATE ";
  }

  /** ALTER USER reads back as the intended tokens, with the role name and the password unchanged. */
  lemma AlterUserReadsBack(user: string, password: string)
    ensures Lex(AlterUser(user, password)) ==
            if user != "" && '\0' !in user && '\0' !in password
            then Some(Then(Word("ALTER"), Then(Word("USER"), Then(Identifier(user), Then(Word("WITH"),
                      Then(Word("PASSWORD"), Then(StringConstant(password), Then(Special(';'), End))))))))
            else None
  {
    StatementsArePrintable("ALTER", "", user, password);
    LexPrinted(UserStatement("ALTER", user, password));
    PrintUserStatement("ALTER", user, password);
    assert "ALTER" + " " == "ALTER ";
  }

  lemma PrintDatabaseStatement(database: string, user: string)
    ensures Print(DatabaseStatement(database, user)) == CreateDatabase(database, user)
  {
    var t4 := Then(Identifier(user), Then(Special(';'), End));
    var t3 := Then(Word("OWNER"), t4);
    var t2 := Then(Identifier(database), t3);
    assert Print(Then(Special(';'), End)) == ";";
    assert Print(t4) == QuoteIdentifier(user) + ";";
    Spaced("OWNER", Print(t4));
    assert " " + "OWNER" + " " == " OWNER ";
    assert Print(t2) == QuoteIdentifier(database) + (" OWNER " + Print(t4));
    Spaced("DATABASE", Print(t2));
    assert "DATABASE" + " " == "DATABASE ";
    Spaced("CREATE", "DATABASE " + Print(t2));
    assert "CREATE" + " " == "CREATE ";
  }

  /** CREATE DATABASE reads back as the intended tokens. */
  lemma CreateDatabaseReadsBack(database: string, user: string)
    ensures Lex(CreateDatabase(database, user)) ==
            if database != "" && user != "" && '\0' !in database && '\0' !in user
            then Some(Then(Word("CREATE"), Then(Word("DATABASE"), Then(Identifier(database), Then(Word("OWNER"),
                      Then(Identifier(user), Then(Special(';'), End)))))))
            else None
  {
    StatementsArePrintable("CREATE", database, user, "");
    LexPrinted(DatabaseStatement(database, user));
    PrintDatabaseStatement(database, user);
  }

  /** Quoting is injective: no two (name, password) pairs are printed as the same statement. */
  lemma UserStatementIsInjective(user1: string, password1: string, user2: string, password2: string)
    requires user1 != "" && '\0' !in user1 && '\0' !in password1
    requires CreateUser(user1, password1) == CreateUser(user2, password2)
    ensures user1 == user2 && password1 == password2
  {
    CreateUserReadsBack(user1, password1);
    CreateUserReadsBack(user2, password2);
  }
}
