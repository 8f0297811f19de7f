/**
 * The SMS text normaliser (`smsCharacterReplacement`): walk the input one code
 * point at a time and emit the table's replacement for it, or the character
 * itself when the table has no entry.
 *
 * The transform is first defined for any lookup table and its laws are proved
 * for every table whose entries are safe (`SafeEntry`); `Replace` is the
 * instance for the source's table, `Replacement`.
 */
module SmsReplacement {
  import opened Outcomes
  import opened SmsTable

  /** A lookup table from UTF-16 code units to replacement strings. */
  type Table = int -> Option<string>

  /** A table all of whose entries are safe. */
  ghost predicate IsSafeTable(table: Table) {
    forall code :: SafeEntry(code, table(code))
  }

  /**
   * The first UTF-16 code unit of a character, which is what `charCodeAt(0)`
   * reads from a one-code-point string: the code point itself below U+10000,
   * and the high surrogate of its pair above.
   */
  function FirstCodeUnit(c: char): (u: int)
    ensures 0 <= u < 0x1_0000
    ensures c as int < 0x1_0000 ==> u == c as int
    ensures c as int >= 0x1_0000 ==> 0xD800 <= u < 0xDC00
  {
    if c as int < 0x1_0000 then c as int else 0xD800 + (c as int - 0x1_0000) / 0x400
  }

  /** A character whose code unit is a key of `table`. */
  predicate IsKeyOf(table: Table, c: char) {
    table(FirstCodeUnit(c)).Some?
  }

  /** What one character becomes: the table's value (`get(...) ?? c`), or the character itself. */
  function ReplaceCharWith(table: Table, c: char): string {
    match table(FirstCodeUnit(c))
    case Some(v) => v
    case None => [c]
  }

  /** The replacements of the characters of `s`, left to right. */
  function ReplaceWith(table: Table, s: string): string {
    if s == [] then [] else ReplaceWith(table, s[..|s| - 1]) + ReplaceCharWith(table, s[|s| - 1])
  }

  /** The normalised text for the source's table. */
  function Replace(s: string): string {
    ReplaceWith(Replacement, s)
  }

  /** `smsCharacterReplacement`: the loop that appends one replacement per character. */
  method SmsCharacterReplacement(input: string) returns (output: string)
    ensures output == Replace(input)
  {
    output := "";
    for i := 0 to |input|
      invariant output == Replace(input[..i])
    {
      var c := input[i];
      var found := Replacement(FirstCodeUnit(c));
      output := output + (if found.Some? then found.value else [c]);
      assert input[..i + 1][..i] == input[..i];
    }
    assert input[..|input|] == input;
  }

  // Laws of the transform, for any table.

  /** The transform distributes over concatenation, and the empty text maps to itself. */
  lemma {:induction false} ReplaceWithConcat(table: Table, a: string, b: string)
    ensures ReplaceWith(table, []) == []
    ensures ReplaceWith(table, a + b) == ReplaceWith(table, a) + ReplaceWith(table, b)
  {
    if b != [] {
      var front := b[..|b| - 1];
      assert (a + b)[..|a + b| - 1] == a + front;
      ReplaceWithConcat(table, a, front);
    } else {
      assert a + b == a;
    }
  }

  /** The output of a safe table is at most three times as long as its input. */
  lemma {:induction false} ReplaceWithLength(table: Table, s: string)
    requires IsSafeTable(table)
    ensures |ReplaceWith(table, s)| <= 3 * |s|
  {
    if s != [] {
      ReplaceWithLength(table, s[..|s| - 1]);
      assert SafeEntry(FirstCodeUnit(s[|s| - 1]), table(FirstCodeUnit(s[|s| - 1])));
    }
  }

  /** The output of a safe table contains no key of the table. */
  lemma {:induction false} ReplaceWithIsKeyFree(table: Table, s: string)
    requires IsSafeTable(table)
    ensures forall x | x in ReplaceWith(table, s) :: !IsKeyOf(table, x)
  {
    if s != [] {
      var front, last := s[..|s| - 1], s[|s| - 1];
      ReplaceWithIsKeyFree(table, front);
      var u := FirstCodeUnit(last);
      assert SafeEntry(u, table(u));
      forall x | x in ReplaceCharWith(table, last) ensures !IsKeyOf(table, x) {
        if table(u).Some? {
          assert IsSafeAscii(x) && FirstCodeUnit(x) == x as int;
          assert SafeEntry(x as int, table(x as int));
        }
      }
    }
  }

  /** Text without any key of the table is left exactly as it is. */
  lemma {:induction false} KeyFreeTextIsUnchanged(table: Table, s: string)
    requires forall x | x in s :: !IsKeyOf(table, x)
    ensures ReplaceWith(table, s) == s
  {
    if s != [] {
      var front, last := s[..|s| - 1], s[|s| - 1];
      assert forall x | x in front :: x in s;
      KeyFreeTextIsUnchanged(table, front);
      assert ReplaceCharWith(table, last) == [last] by {
        assert !IsKeyOf(table, last);
      }
      assert s == front + [last];
    }
  }

  // The same laws for the source's table.

  /** `smsCharacterReplacement` distributes over concatenation and maps the empty text to itself. */
  lemma ReplaceConcat(a: string, b: string)
    ensures Replace([]) == []
    ensures Replace(a + b) == Replace(a) + Replace(b)
  {
    ReplaceWithConcat(Replacement, a, b);
  }

  /** A character that is not a key of the table is copied to the output unchanged, wherever it stands. */
  lemma UnlistedCharacterPassesThrough(a: string, c: char, b: string)
    requires Replacement(FirstCodeUnit(c)).None?
    ensures Replace(a + [c] + b) == Replace(a) + [c] + Replace(b)
  {
    ReplaceWithConcat(Replacement, a + [c], b);
    ReplaceWithConcat(Replacement, a, [c]);
    assert Replace([c]) == Replace([]) + ReplaceCharWith(Replacement, c);
  }

  /** The output is at most three times as long as the input. */
  lemma ReplaceLength(s: string)
    ensures |Replace(s)| <= 3 * |s|
  {
    ReplacementIsSafe();
    ReplaceWithLength(Replacement, s);
  }

  /** No character of the table reaches the output, whatever the input. */
  lemma ReplaceIsKeyFree(s: string)
    ensures forall x | x in Replace(s) :: Replacement(FirstCodeUnit(x)).None?
  {
    ReplacementIsSafe();
    ReplaceWithIsKeyFree(Replacement, s);
  }

  /**
   * Characters the table removes (maps to the empty string) never appear in
   * the output, whatever the input; the single quotation marks among them.
   */
  lemma RemovedCharactersNeverAppear(s: string)
    ensures forall x | x in Replace(s) :: Replacement(FirstCodeUnit(x)) != Some("")
    ensures '\U{2018}' !in Replace(s) && '\U{2019}' !in Replace(s)
  {
    ReplaceIsKeyFree(s);
    assert Replacement(0x2018) == Some("") && Replacement(0x2019) == Some("");
  }

  /** Normalising twice gives the same text as normalising once. */
  lemma ReplaceIsIdempotent(s: string)
    ensures Replace(Replace(s)) == Replace(s)
  {
    ReplacementIsSafe();
    ReplaceWithIsKeyFree(Replacement, s);
    KeyFreeTextIsUnchanged(Replacement, Replace(s));
  }

  /**
   * A code point above U+FFFF is read through its high surrogate, which is not
   * a key, so it passes through unchanged.
   */
  lemma AstralCharacterPassesThrough(c: char)
    requires c as int >= 0x1_0000
    ensures Replace([c]) == [c]
  {
    ReplacementIsSafe();
    assert SafeEntry(FirstCodeUnit(c), Replacement(FirstCodeUnit(c)));
    assert Replace([c]) == Replace([]) + ReplaceCharWith(Replacement, c);
  }

  /** The source's table is safe. */
  lemma ReplacementIsSafe()
    ensures IsSafeTable(Replacement)
  {
    forall code ensures SafeEntry(code, Replacement(code)) {
    }
  }

  /**
   * The two smart double quotes, the em dash and the en dash, each on its own.
   * The texts are parameters pinned by the precondition rather than literals in
   * the postcondition: callers then pass the very sequences they concatenate,
   * which keeps the verifier from comparing string literals element by element.
   */
  lemma QuoteAndDashReplacements(open: string, close: string, dash: string, enDash: string)
    requires open == "\U{201C}" && close == "\U{201D}" && dash == "\U{2014}" && enDash == "\U{2013}"
    ensures Replace(open) == "\"" && Replace(close) == "\"" && Replace(dash) == "-" && Replace(enDash) == "-"
  {
    DashAndEllipsisEntries(0x2014);
    DashAndEllipsisEntries(0x2013);
    assert Replace(enDash) == Replace([]) + ReplaceCharWith(Replacement, enDash[0]);
    assert Replace(open) == Replace([]) + ReplaceCharWith(Replacement, open[0]);
    assert Replace(close) == Replace([]) + ReplaceCharWith(Replacement, close[0]);
    assert Replace(dash) == Replace([]) + ReplaceCharWith(Replacement, dash[0]);
  }

  /**
   * The closing quote, a space, the em dash and a space become a straight
   * quote, a space, a hyphen-minus and a space. The text is a parameter pinned
   * by the precondition for the same reason as in `QuoteAndDashReplacements`.
   */
  lemma ClosingQuoteAndDash(middle: string)
    requires middle == "\U{201D} \U{2014} "
    ensures Replace(middle) == "\" - "
  {
    var open, close, space, dash := "\U{201C}", "\U{201D}", " ", "\U{2014}";
    QuoteAndDashReplacements(open, close, dash, "\U{2013}");
    AsciiTextIsUnchanged(space);
    assert middle == close + space + dash + space;
    ReplaceConcat(close + space + dash, space);
    ReplaceConcat(close + space, dash);
    ReplaceConcat(close, space);
  }

  /**
   * Smart double quotes become a straight quote and the em dash a hyphen-minus,
   * while the other characters are unchanged: with `word` "Hello" and `tail`
   * "50%", the text “Hello” — 50% becomes "Hello" - 50%.
   */
  lemma SmartQuotesAndDashExample(word: string, tail: string)
    requires forall x | x in word :: IsSafeAscii(x)
    requires forall x | x in tail :: IsSafeAscii(x)
    ensures Replace("\U{201C}" + word + "\U{201D} \U{2014} " + tail) == "\"" + word + "\" - " + tail
  {
    var open, middle := "\U{201C}", "\U{201D} \U{2014} ";
    QuoteAndDashReplacements(open, "\U{201D}", "\U{2014}", "\U{2013}");
    ClosingQuoteAndDash(middle);
    AsciiTextIsUnchanged(word);
    AsciiTextIsUnchanged(tail);
    ReplaceConcat(open + word + middle, tail);
    ReplaceConcat(open + word, middle);
    ReplaceConcat(open, word);
  }

  /** Text made only of safe ASCII characters is left as it is. */
  lemma AsciiTextIsUnchanged(s: string)
    requires forall x | x in s :: IsSafeAscii(x)
    ensures Replace(s) == s
  {
    ReplacementIsSafe();
    forall x | x in s ensures !IsKeyOf(Replacement, x) {
      assert SafeEntry(x as int, Replacement(x as int));
    }
    KeyFreeTextIsUnchanged(Replacement, s);
  }

  /** The three-to-one length bound is reached: the ellipsis becomes three full stops. */
  lemma EllipsisReachesLengthBound()
    ensures Replace("\U{2026}") == "..."
    ensures |Replace("\U{2026}")| == 3 * |"\U{2026}"|
  {
    DashAndEllipsisEntries(0x2026);
    assert Replace("\U{2026}") == Replace([]) + ReplaceCharWith(Replacement, '\U{2026}');
  }
}
