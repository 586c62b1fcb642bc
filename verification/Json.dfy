/** The lexical structure of JSON texts, as far as it tells string literals from the rest. */
module Json {

  datatype Lex = Plain | Quoted | Escaped | Broken

  /** One character: quotation marks open and close string literals, a backslash escapes one character of
      a literal, and outside literals JSON has no backslash and no underscore (RFC 8259, sections 2 to 7). */
  function Next(x: Lex, c: char): Lex
  {
    match x
    case Plain => if c == '"' then Quoted else if c == '\\' || c == '_' then Broken else Plain
    case Quoted => if c == '"' then Plain else if c == '\\' then Escaped else Quoted
    case Escaped => Quoted
    case Broken => Broken
  }

  function Scan(x: Lex, s: string): Lex
    decreases |s|
  {
    if s == "" then x else Scan(Next(x, s[0]), s[1..])
  }

  /** What every JSON text satisfies: all its literals are closed. The empty string satisfies it too. */
  predicate Closed(s: string)
  {
    Scan(Plain, s) == Plain
  }

  lemma {:induction false} ScanAppend(x: Lex, s: string, t: string)
    ensures Scan(x, s + t) == Scan(Scan(x, s), t)
    decreases |s|
  {
    if s == "" {
      assert s + t == t;
    } else {
      assert (s + t)[1..] == s[1..] + t;
      ScanAppend(Next(x, s[0]), s[1..], t);
    }
  }

  lemma {:induction false} BrokenStays(s: string)
    ensures Scan(Broken, s) == Broken
    decreases |s|
  {
    if s != "" {
      BrokenStays(s[1..]);
    }
  }

  lemma {:induction false} QuotedStays(s: string)
    requires '"' !in s && '\\' !in s
    ensures Scan(Quoted, s) == Quoted
    decreases |s|
  {
    if s != "" {
      QuotedStays(s[1..]);
    }
  }

  lemma {:induction false} PlainBreaks(s: string)
    requires '"' !in s && '_' in s
    ensures Scan(Plain, s) == Broken
    decreases |s|
  {
    if s[0] == '_' || s[0] == '\\' {
      BrokenStays(s[1..]);
    } else {
      PlainBreaks(s[1..]);
    }
  }

  /** A word with an underscore and no quotation mark can only stand inside a literal. */
  lemma WordIsQuoted(x: Lex, s: string)
    requires '"' !in s && '\\' !in s && '_' in s
    ensures Scan(x, s) == Quoted || Scan(x, s) == Broken
  {
    match x
    case Plain => PlainBreaks(s);
    case Quoted => QuotedStays(s);
    case Escaped => QuotedStays(s[1..]);
    case Broken => BrokenStays(s);
  }

  /** No text is closed both when read from outside a literal and when read from inside one. */
  lemma {:induction false} OutOfPhase(x: Lex, y: Lex, s: string)
    requires (x == Plain && y == Quoted) || (x == Quoted && y == Plain)
    ensures Scan(x, s) != Plain || Scan(y, s) != Plain
    decreases |s|
  {
    if s != "" {
      var x', y' := Next(x, s[0]), Next(y, s[0]);
      if x' == Broken || y' == Broken {
        BrokenStays(s[1..]);
      } else {
        OutOfPhase(x', y', s[1..]);
      }
    }
  }

  /** A closed text has no suffix made of such a word alone, or of such a word, a colon and a closed text. */
  lemma NoSuchSuffix(front: string, word: string, rest: string)
    requires '"' !in word && '\\' !in word && '_' in word
    requires rest == "" || (rest[0] == ':' && Closed(rest[1..]))
    ensures !Closed(front + word + rest)
  {
    var inside := Scan(Scan(Plain, front), word);
    ScanAppend(Plain, front + word, rest);
    ScanAppend(Plain, front, word);
    WordIsQuoted(Scan(Plain, front), word);
    if inside == Broken {
      BrokenStays(rest);
    } else if rest != "" {
      assert Next(Quoted, rest[0]) == Quoted;
      OutOfPhase(Plain, Quoted, rest[1..]);
    }
  }
}
