/** `shellQuote` against the quoting rules of the POSIX Shell Command Language: sections 2.2.1
    to 2.2.3, with the token recognition of section 2.3 as far as it ends a word. */
module ShellQuote {
  import opened Lifecycle

  /** `strings.ReplaceAll` of a single quote: close, quote it with double quotes, reopen. */
  function Escaped(value: string): string {
    if value == "" then ""
    else (if value[0] == '\'' then "'\"'\"'" else [value[0]]) + Escaped(value[1..])
  }

  function Quote(value: string): string {
    "'" + Escaped(value) + "'"
  }

  // ---- how a shell reads one word ----

  datatype Mode = Bare | InSingle | InDouble

  /** A word as the shell has read it, and the input after it. */
  datatype Word = Word(text: string, rest: string)

  /** Blanks, newlines and operators delimit a word that is not quoted. */
  predicate Delimits(c: char) {
    c in " \t\n|&;<>()"
  }

  /** Characters that, outside of quotes, the shell may take for more than themselves. */
  predicate Special(c: char) {
    c in "$`*?[#~=%"
  }

  function Prepend(c: char, read: Option<Word>): Option<Word> {
    match read
    case None => None
    case Some(word) => Some(Word([c] + word.text, word.rest))
  }

  /** Reads up to the end of a word that stands for itself, or None if the input is not such a
      word: a quote is left open, something would be expanded, or a NUL is met. */
  function Read(input: string, mode: Mode): Option<Word>
    decreases |input|
  {
    if input == "" then
      if mode == Bare then Some(Word("", "")) else None
    else
      var c, tail := input[0], input[1..];
      if c == '\0' then None
      else
        match mode
        case Bare =>
          if Delimits(c) then Some(Word("", input))
          else if c == '\'' then Read(tail, InSingle)
          else if c == '"' then Read(tail, InDouble)
          else if c == '\\' then ReadEscaped(tail, mode)
          else if Special(c) then None
          else Prepend(c, Read(tail, mode))
        case InSingle =>
          if c == '\'' then Read(tail, Bare) else Prepend(c, Read(tail, mode))
        case InDouble =>
          if c == '"' then Read(tail, Bare)
          else if c == '$' || c == '`' then None
          else if c == '\\' then ReadEscaped(tail, mode)
          else Prepend(c, Read(tail, mode))
  }

  /** After a backslash: a newline is removed with it, and inside double quotes it is kept
      before anything but the characters it can escape there. */
  function ReadEscaped(tail: string, mode: Mode): Option<Word>
    decreases |tail|
  {
    if tail == "" || tail[0] == '\0' then None
    else if tail[0] == '\n' then Read(tail[1..], mode)
    else if mode == InDouble && tail[0] !in "$`\"\\" then Prepend('\\', Prepend(tail[0], Read(tail[1..], mode)))
    else Prepend(tail[0], Read(tail[1..], mode))
  }

  // ---- what is quoted is read back ----

  lemma ReadQuoteInSingle(tail: string)
    ensures Read("'\"'\"'" + tail, InSingle) == Prepend('\'', Read(tail, InSingle))
  {
    var input := "'\"'\"'" + tail;
    assert input[1..] == "\"'\"'" + tail;
    assert input[1..][1..] == "'\"'" + tail;
    assert input[1..][1..][1..] == "\"'" + tail;
    assert input[1..][1..][1..][1..] == "'" + tail;
    assert input[1..][1..][1..][1..][1..] == tail;
    assert Read(input, InSingle) == Read(input[1..], Bare) == Read(input[1..][1..], InDouble);
    assert Read(input[1..][1..], InDouble) == Prepend('\'', Read(input[1..][1..][1..], InDouble));
    assert Read(input[1..][1..][1..], InDouble) == Read(input[1..][1..][1..][1..], Bare) == Read(tail, InSingle);
  }

  lemma ReadClosing(rest: string)
    requires rest == "" || (rest[0] != '\0' && Delimits(rest[0]))
    ensures Read("'" + rest, InSingle) == Some(Word("", rest))
  {
    assert ("'" + rest)[1..] == rest;
  }

  lemma ReadLiteral(c: char, tail: string)
    requires c != '\''
    ensures Read([c] + tail, InSingle) == if c == '\0' then None else Prepend(c, Read(tail, InSingle))
  {
    assert ([c] + tail)[1..] == tail;
  }

  lemma ReadOpening(tail: string)
    ensures Read("'" + tail, Bare) == Read(tail, InSingle)
  {
    assert ("'" + tail)[1..] == tail;
  }

  lemma EscapedStep(value: string, after: string)
    requires value != ""
    ensures Escaped(value) + after ==
              (if value[0] == '\'' then "'\"'\"'" + (Escaped(value[1..]) + after)
               else [value[0]] + (Escaped(value[1..]) + after))
  {}

  lemma {:induction false} EscapedRead(value: string, rest: string)
    requires rest == "" || (rest[0] != '\0' && Delimits(rest[0]))
    ensures Read(Escaped(value) + ("'" + rest), InSingle) == if '\0' in value then None else Some(Word(value, rest))
  {
    if value == "" {
      ReadClosing(rest);
      assert Escaped(value) + ("'" + rest) == "'" + rest;
    } else {
      var c, after := value[0], "'" + rest;
      EscapedRead(value[1..], rest);
      EscapedStep(value, after);
      assert value == [c] + value[1..];
      if c == '\'' {
        ReadQuoteInSingle(Escaped(value[1..]) + after);
      } else {
        ReadLiteral(c, Escaped(value[1..]) + after);
      }
    }
  }

  /** For any string, whatever follows the word: the shell reads the quoted string back as one
      word, the string itself, exactly when the string holds no NUL, which no shell can read. */
  lemma QuoteRoundTrip(value: string, rest: string)
    requires rest == "" || (rest[0] != '\0' && Delimits(rest[0]))
    ensures Read(Quote(value) + rest, Bare) == Some(Word(value, rest)) <==> '\0' !in value
  {
    var tail := Escaped(value) + ("'" + rest);
    assert Quote(value) + rest == "'" + tail;
    ReadOpening(tail);
    EscapedRead(value, rest);
  }

  // ---- the line of the install script that uses two quoted values ----

  const CHECKSUM_HEAD := "printf '%s  %s\\n' "
  const CHECKSUM_TAIL := " \"$tmp\" | sha256sum --check --status\n"

  function ChecksumLine(sum: string): string {
    CHECKSUM_HEAD + Quote(sum) + CHECKSUM_TAIL
  }

  const DOWNLOAD_HEAD := "curl --fail --location --silent --show-error --output \"$tmp\" "

  function DownloadLine(url: string): string {
    DOWNLOAD_HEAD + Quote(url) + "\n"
  }

  /** In both lines of the script the value is one argument, and what follows it is left to
      the script: no value can end its own argument. */
  lemma ScriptArguments(url: string, sum: string)
    requires '\0' !in url && '\0' !in sum
    ensures Read(DownloadLine(url)[|DOWNLOAD_HEAD|..], Bare) == Some(Word(url, "\n"))
    ensures Read(ChecksumLine(sum)[|CHECKSUM_HEAD|..], Bare) == Some(Word(sum, CHECKSUM_TAIL))
  {
    assert DownloadLine(url)[|DOWNLOAD_HEAD|..] == Quote(url) + "\n";
    assert ChecksumLine(sum)[|CHECKSUM_HEAD|..] == Quote(sum) + CHECKSUM_TAIL;
    QuoteRoundTrip(url, "\n");
    QuoteRoundTrip(sum, CHECKSUM_TAIL);
  }
}
