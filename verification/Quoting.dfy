/**
 burmilla/config.go: quoting a string for the shell, against a reader of shell words.

 The reader follows sections 2.2.1 to 2.2.3 of the Shell Command Language of POSIX.1-2017.  It gives
 up on everything that is more than plain quoted text: operators, expansions, patterns, comments.
*/
module Quoting {
  import opened Basics

  const QUOTED_QUOTE := ['\'', '"', '\'', '"', '\'']

  /** Every single quote replaced. */
  function ReplaceQuotes(s: string): string {
    if s == [] then []
    else (if s[0] == '\'' then QUOTED_QUOTE else [s[0]]) + ReplaceQuotes(s[1..])
  }

  function QuoteBashString(s: string): string {
    ['\''] + ReplaceQuotes(s) + ['\'']
  }

  /** Between words, or inside one, outside or inside quotes. */
  datatype Mode = Between | Plain(word: string) | Single(word: string) | Double(word: string)

  predicate IsBlank(c: char) {
    c == ' ' || c == '\t'
  }

  predicate IsSpecial(c: char) {
    c in ['|', '&', ';', '<', '>', '(', ')', '$', '`', '\n', '*', '?', '[', '#', '~', '=', '%', '{', '}', '!']
  }

  function WordOf(m: Mode): string {
    match m
    case Between => []
    case Plain(w) => w
    case Single(w) => w
    case Double(w) => w
  }

  function WithWord(words: seq<string>, m: Mode): seq<string> {
    match m
    case Plain(w) => words + [w]
    case _ => words
  }

  /** The words of `input`, after the words already read and in the mode they left. */
  function ReadFrom(input: string, m: Mode, words: seq<string>): Option<seq<string>> {
    if input == [] then
      match m
      case Between => Some(words)
      case Plain(w) => Some(words + [w])
      case _ => None                      // a quote is still open
    else
      var c, rest := input[0], input[1..];
      if c == '\0' then None
      else match m
           case Single(w) =>
             if c == '\'' then ReadFrom(rest, Plain(w), words) else ReadFrom(rest, Single(w + [c]), words)
           case Double(w) =>
             if c == '"' then ReadFrom(rest, Plain(w), words)
             else if c == '$' || c == '`' then None
             else if c == '\\' then
               if rest == [] || rest[0] == '\0' then None
               else if rest[0] == '\n' then ReadFrom(rest[1..], Double(w), words)
               else if rest[0] in ['$', '`', '"', '\\'] then ReadFrom(rest[1..], Double(w + [rest[0]]), words)
               else ReadFrom(rest, Double(w + [c]), words)
             else ReadFrom(rest, Double(w + [c]), words)
           case _ =>
             if IsBlank(c) then ReadFrom(rest, Between, WithWord(words, m))
             else if c == '\'' then ReadFrom(rest, Single(WordOf(m)), words)
             else if c == '"' then ReadFrom(rest, Double(WordOf(m)), words)
             else if c == '\\' then
               if rest == [] || rest[0] == '\0' then None
               else if rest[0] == '\n' then ReadFrom(rest[1..], m, words)
               else ReadFrom(rest[1..], Plain(WordOf(m) + [rest[0]]), words)
             else if IsSpecial(c) then None
             else ReadFrom(rest, Plain(WordOf(m) + [c]), words)
  }

  function Read(input: string): Option<seq<string>> {
    ReadFrom(input, Between, [])
  }

  /** Inside single quotes the replacement text closes, double-quotes one quote, and opens again. */
  lemma {:induction false} ReadsQuotedQuote(w: string, tail: string, words: seq<string>)
    ensures ReadFrom(QUOTED_QUOTE + tail, Single(w), words) == ReadFrom(tail, Single(w + ['\'']), words)
  {
    var i0 := QUOTED_QUOTE + tail;
    var i1, i2, i3, i4 := i0[1..], i0[2..], i0[3..], i0[4..];
    assert i1[1..] == i2 && i2[1..] == i3 && i3[1..] == i4 && i4[1..] == tail;
    assert i0[0] == '\'' && i1[0] == '"' && i2[0] == '\'' && i3[0] == '"' && i4[0] == '\'';
    assert ReadFrom(i0, Single(w), words) == ReadFrom(i1, Plain(w), words);
    assert ReadFrom(i1, Plain(w), words) == ReadFrom(i2, Double(w), words);
    assert ReadFrom(i2, Double(w), words) == ReadFrom(i3, Double(w + ['\'']), words);
    assert ReadFrom(i3, Double(w + ['\'']), words) == ReadFrom(i4, Plain(w + ['\'']), words);
    assert ReadFrom(i4, Plain(w + ['\'']), words) == ReadFrom(tail, Single(w + ['\'']), words);
  }

  lemma {:induction false} ReadsBody(s: string, w: string, tail: string, words: seq<string>)
    requires '\0' !in s
    ensures ReadFrom(ReplaceQuotes(s) + tail, Single(w), words) == ReadFrom(tail, Single(w + s), words)
    decreases |s|
  {
    if s == [] {
      assert ReplaceQuotes(s) + tail == tail && w + s == w;
    } else {
      var c := s[0];
      var more := ReplaceQuotes(s[1..]) + tail;
      if c == '\'' {
        assert ReplaceQuotes(s) + tail == QUOTED_QUOTE + more;
        ReadsQuotedQuote(w, more, words);
      } else {
        assert ReplaceQuotes(s) + tail == [c] + more;
        assert ([c] + more)[1..] == more;
      }
      ReadsBody(s[1..], w + [c], tail, words);
      assert w + [c] + s[1..] == w + s;
    }
  }

  lemma {:induction false} NulStopsBody(s: string, w: string, tail: string, words: seq<string>)
    requires '\0' in s
    ensures ReadFrom(ReplaceQuotes(s) + tail, Single(w), words) == None
    decreases |s|
  {
    var c := s[0];
    var more := ReplaceQuotes(s[1..]) + tail;
    if c == '\'' {
      assert ReplaceQuotes(s) + tail == QUOTED_QUOTE + more;
      ReadsQuotedQuote(w, more, words);
      NulStopsBody(s[1..], w + [c], tail, words);
    } else {
      assert ReplaceQuotes(s) + tail == [c] + more;
      assert ([c] + more)[1..] == more;
      if c != '\0' {
        NulStopsBody(s[1..], w + [c], tail, words);
      }
    }
  }

  lemma OpensQuote(body: string, words: seq<string>)
    ensures ReadFrom(['\''] + body, Between, words) == ReadFrom(body, Single([]), words)
  {
  }

  /** A quoted string, wherever a word may start, is taken in as exactly that string. */
  lemma {:induction false} ReadsQuoted(s: string, tail: string, words: seq<string>)
    requires '\0' !in s
    ensures ReadFrom(QuoteBashString(s) + tail, Between, words) == ReadFrom(tail, Plain(s), words)
  {
    var body := ReplaceQuotes(s) + (['\''] + tail);
    assert QuoteBashString(s) + tail == ['\''] + body;
    OpensQuote(body, words);
    ReadsBody(s, [], ['\''] + tail, words);
    assert [] + s == s;
    assert (['\''] + tail)[1..] == tail;
  }

  /** The shell reads a quoted string back as one word, itself, exactly if it holds no NUL. */
  lemma {:induction false} QuoteRoundTrip(s: string)
    ensures Read(QuoteBashString(s)) == Some([s]) <==> '\0' !in s
  {
    assert QuoteBashString(s) + [] == QuoteBashString(s);
    if '\0' !in s {
      ReadsQuoted(s, [], []);
      assert [] + [s] == [s];
    } else {
      var body := ReplaceQuotes(s) + ['\''];
      assert QuoteBashString(s) == ['\''] + body;
      OpensQuote(body, []);
      NulStopsBody(s, [], ['\''], []);
    }
  }

  /** Quoting goes character by character. */
  lemma {:induction false} QuotedInParts(s: string, t: string)
    ensures ReplaceQuotes(s + t) == ReplaceQuotes(s) + ReplaceQuotes(t)
    decreases |s|
  {
    if s == [] {
      assert s + t == t;
    } else {
      assert (s + t)[0] == s[0] && (s + t)[1..] == s[1..] + t;
      QuotedInParts(s[1..], t);
    }
  }

  /** Each stands for itself, but a single quote, which closes the quotes, quotes itself, and opens them again. */
  lemma QuotedChar(c: char)
    ensures ReplaceQuotes([c]) == if c == '\'' then ['\'', '"', '\'', '"', '\''] else [c]
  {
    assert [c][1..] == [];
  }

  /** Quoted strings with blanks between them. */
  function QuoteAll(ss: seq<string>): string {
    if ss == [] then []
    else QuoteBashString(ss[0]) + if |ss| == 1 then [] else [' '] + QuoteAll(ss[1..])
  }

  lemma {:induction false} ReadsList(ss: seq<string>, words: seq<string>)
    requires forall s :: s in ss ==> '\0' !in s
    ensures ReadFrom(QuoteAll(ss), Between, words) == Some(words + ss)
    decreases |ss|
  {
    if ss == [] {
      assert words + ss == words;
    } else {
      var tail := if |ss| == 1 then [] else [' '] + QuoteAll(ss[1..]);
      ReadsQuoted(ss[0], tail, words);
      if |ss| == 1 {
        assert words + ss == words + [ss[0]];
      } else {
        assert tail[1..] == QuoteAll(ss[1..]);
        ReadsList(ss[1..], words + [ss[0]]);
        assert words + [ss[0]] + ss[1..] == words + ss;
      }
    }
  }

  /** A blank-separated list of quoted words reads back as the list. */
  lemma {:induction false} QuotedListRoundTrip(ss: seq<string>)
    requires forall s :: s in ss ==> '\0' !in s
    ensures Read(QuoteAll(ss)) == Some(ss)
  {
    ReadsList(ss, []);
    assert [] + ss == ss;
  }
}
