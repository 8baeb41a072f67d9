/** Single-quoting a value for the shell, and what the shell makes of it. */
module ShellQuote {
  import opened Wrappers

  const QUOTE := '\''
  const DOUBLE := '"'

  /** The replacement for a quote inside the value: close, a quoted quote, open. */
  const QUOTED_QUOTE: string := [QUOTE, DOUBLE, QUOTE, DOUBLE, QUOTE]

  function EscapeQuotes(value: string): string {
    if value == "" then ""
    else (if value[0] == QUOTE then QUOTED_QUOTE else [value[0]]) + EscapeQuotes(value[1..])
  }

  /** shellSingleQuote. */
  function ShellSingleQuote(value: string): string {
    [QUOTE] + EscapeQuotes(value) + [QUOTE]
  }

  datatype Mode = Unquoted | InSingle | InDouble

  /** Characters that, unquoted, do not stand for themselves in a word
      (section 2.2 of the POSIX.1-2017 Shell Command Language). */
  predicate IsSpecial(c: char) {
    c in "|&;<>()$`\\ \t\n*?[#~=%"
  }

  /** Reads the text as one word and removes its quotes (sections 2.2.2, 2.2.3
      and 2.6.7): None if the text is more than one word, is not closed, or
      relies on a character that the shell would treat specially. */
  function ReadWord(text: string, mode: Mode, read: string): Option<string> {
    if text == "" then (if mode.Unquoted? then Some(read) else None)
    else
      var c, rest := text[0], text[1..];
      match mode
      case Unquoted =>
        if c == QUOTE then ReadWord(rest, InSingle, read)
        else if c == DOUBLE then ReadWord(rest, InDouble, read)
        else if IsSpecial(c) then None
        else ReadWord(rest, Unquoted, read + [c])
      case InSingle =>
        if c == QUOTE then ReadWord(rest, Unquoted, read)
        else ReadWord(rest, InSingle, read + [c])
      case InDouble =>
        if c == DOUBLE then ReadWord(rest, Unquoted, read)
        else if c == '$' || c == '`' || c == '\\' then None
        else ReadWord(rest, InDouble, read + [c])
  }

  /** The inside of the quotes, up to the closing one. */
  lemma {:induction false} EscapedIsRead(value: string, read: string)
    ensures ReadWord(EscapeQuotes(value) + [QUOTE], InSingle, read) == Some(read + value)
    decreases |value|
  {
    var text := EscapeQuotes(value) + [QUOTE];
    if value == "" {
      assert text == [QUOTE] && text[1..] == "";
      assert read + value == read;
    } else {
      var rest := EscapeQuotes(value[1..]) + [QUOTE];
      EscapedIsRead(value[1..], read + [value[0]]);
      assert read + [value[0]] + value[1..] == read + value;
      if value[0] == QUOTE {
        assert text == QUOTED_QUOTE + rest;
        QuotedQuoteIsRead(rest, read);
      } else {
        assert text == [value[0]] + rest && text[1..] == rest;
      }
    }
  }

  lemma QuotedQuoteIsRead(rest: string, read: string)
    ensures ReadWord(QUOTED_QUOTE + rest, InSingle, read) == ReadWord(rest, InSingle, read + [QUOTE])
  {
    var t0 := QUOTED_QUOTE + rest;
    var t1 := [DOUBLE, QUOTE, DOUBLE, QUOTE] + rest;
    var t2 := [QUOTE, DOUBLE, QUOTE] + rest;
    var t3 := [DOUBLE, QUOTE] + rest;
    var t4 := [QUOTE] + rest;
    assert t0[1..] == t1 && t1[1..] == t2 && t2[1..] == t3 && t3[1..] == t4 && t4[1..] == rest;
    assert ReadWord(t0, InSingle, read) == ReadWord(t1, Unquoted, read);
    assert ReadWord(t1, Unquoted, read) == ReadWord(t2, InDouble, read);
    assert ReadWord(t2, InDouble, read) == ReadWord(t3, InDouble, read + [QUOTE]);
    assert ReadWord(t3, InDouble, read + [QUOTE]) == ReadWord(t4, Unquoted, read + [QUOTE]);
  }

  /** The shell reads the quoted value as one word, equal to the value. */
  lemma QuotingRoundTrip(value: string)
    ensures ReadWord(ShellSingleQuote(value), Unquoted, "") == Some(value)
  {
    var inner := EscapeQuotes(value) + [QUOTE];
    assert ShellSingleQuote(value) == [QUOTE] + inner;
    assert ([QUOTE] + inner)[1..] == inner;
    EscapedIsRead(value, "");
    assert "" + value == value;
  }
}
