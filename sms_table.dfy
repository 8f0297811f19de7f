/**
 * The replacement table of the SMS text normaliser: a fixed map from UTF-16
 * code units to replacement strings, which may be empty or several characters
 * long.
 */
module SmsTable {
  import opened Outcomes

  /** Printable ASCII other than the grave accent: what every replacement is made of. */
  predicate IsSafeAscii(c: char) {
    ' ' <= c <= '~' && c != '`'
  }

  /**
   * What holds of every entry of the table: a replacement is at most three
   * characters long and made of safe ASCII characters, no safe ASCII character
   * is itself a key, and neither is any UTF-16 surrogate.
   */
  predicate SafeEntry(code: int, r: Option<string>) {
    && (r.Some? ==> |r.value| <= 3 && forall c | c in r.value :: IsSafeAscii(c))
    && (0x20 <= code < 0x7f && code != 0x60 ==> r.None?)
    && (0xD800 <= code < 0xE000 ==> r.None?)
  }

  /**
   * The replacement table, looked up by a UTF-16 code unit. The table has no
   * repeated keys, so it is the union of the ten groups below, which list its
   * entries in the order of the source.
   */
  function Replacement(code: int): (r: Option<string>)
    ensures SafeEntry(code, r)
  {
    if QuotationMarks(code).Some? then QuotationMarks(code)
    else if FractionsSlashesAndBars(code).Some? then FractionsSlashesAndBars(code)
    else if DashesSignsAndParentheses(code).Some? then DashesSignsAndParentheses(code)
    else if AsterisksAndStops(code).Some? then AsterisksAndStops(code)
    else if DigitsAndOperators(code).Some? then DigitsAndOperators(code)
    else if LettersAToM(code).Some? then LettersAToM(code)
    else if LettersMToZ(code).Some? then LettersMToZ(code)
    else if BracketsAndTildes(code).Some? then BracketsAndTildes(code)
    else if SpacesAndControls(code).Some? then SpacesAndControls(code)
    else TypographicMarks(code)
  }

  /** The table entries on lines 2-31 of src/smsCharacterReplacement.ts. Double quotation marks become a straight quote; single quotes, primes and accents are removed. */
  function QuotationMarks(code: int): (r: Option<string>)
    ensures SafeEntry(code, r)
  {
    match code
      case 0x00bb => Some("\"")
      case 0x201c => Some("\"")
      case 0x201d => Some("\"")
      case 0x02ba => Some("\"")
      case 0x02ee => Some("\"")
      case 0x201f => Some("\"")
      case 0x275d => Some("\"")
      case 0x275e => Some("\"")
      case 0x301d => Some("\"")
      case 0x301e => Some("\"")
      case 0xff02 => Some("\"")
      case 0x2018 => Some("")
      case 0x2019 => Some("")
      case 0x02bb => Some("")
      case 0x02c8 => Some("")
      case 0x02bc => Some("")
      case 0x02bd => Some("")
      case 0x02b9 => Some("")
      case 0x201b => Some("")
      case 0xff07 => Some("")
      case 0x00b4 => Some("")
      case 0x02ca => Some("")
      case 0x0060 => Some("")
      case 0x02cb => Some("")
      case 0x275b => Some("")
      case 0x275c => Some("")
      case 0x0313 => Some("")
      case 0x0314 => Some("")
      case 0xfe10 => Some("")
      case 0xfe11 => Some("")
    case _ => None
  }

  /** The table entries on lines 32-57 of src/smsCharacterReplacement.ts. Division sign, vulgar fractions, slashes, reverse solidi, low lines and vertical bars. */
  function FractionsSlashesAndBars(code: int): (r: Option<string>)
    ensures SafeEntry(code, r)
  {
    match code
      case 0x00f7 => Some("/")
      case 0x00bc => Some("1/4")
      case 0x00bd => Some("1/2")
      case 0x00be => Some("3/4")
      case 0x29f8 => Some("/")
      case 0x0337 => Some("/")
      case 0x0338 => Some("/")
      case 0x2044 => Some("/")
      case 0x2215 => Some("/")
      case 0xff0f => Some("/")
      case 0x29f9 => Some("\\")
      case 0x29f5 => Some("\\")
      case 0x20e5 => Some("\\")
      case 0xfe68 => Some("\\")
      case 0xff3c => Some("\\")
      case 0x0332 => Some("_")
      case 0xff3f => Some("_")
      case 0x20d2 => Some("|")
      case 0x20d3 => Some("|")
      case 0x2223 => Some("|")
      case 0xff5c => Some("|")
      case 0x23b8 => Some("|")
      case 0x23b9 => Some("|")
      case 0x23d0 => Some("|")
      case 0x239c => Some("|")
      case 0x239f => Some("|")
    case _ => None
  }

  /** The table entries on lines 58-98 of src/smsCharacterReplacement.ts. Dashes and bullets, at, dollar, exclamation, number, percent and ampersand signs, commas and parentheses. */
  function DashesSignsAndParentheses(code: int): (r: Option<string>)
    ensures SafeEntry(code, r)
  {
    match code
      case 0x23bc => Some("-")
      case 0x23bd => Some("-")
      case 0x2015 => Some("-")
      case 0xfe63 => Some("-")
      case 0xff0d => Some("-")
      case 0x2010 => Some("-")
      case 0x2022 => Some("-")
      case 0x2043 => Some("-")
      case 0xfe6b => Some("@")
      case 0xff20 => Some("@")
      case 0xfe69 => Some("$")
      case 0xff04 => Some("$")
      case 0x01c3 => Some("!")
      case 0xfe15 => Some("!")
      case 0xfe57 => Some("!")
      case 0xff01 => Some("!")
      case 0xfe5f => Some("#")
      case 0xff03 => Some("#")
      case 0xfe6a => Some("%")
      case 0xff05 => Some("%")
      case 0xfe60 => Some("&")
      case 0xff06 => Some("&")
      case 0x201a => Some(",")
      case 0x0326 => Some(",")
      case 0xfe50 => Some(",")
      case 0x3001 => Some(",")
      case 0xfe51 => Some(",")
      case 0xff0c => Some(",")
      case 0xff64 => Some(",")
      case 0x2768 => Some("(")
      case 0x276a => Some("(")
      case 0xfe59 => Some("(")
      case 0xff08 => Some("(")
      case 0x27ee => Some("(")
      case 0x2985 => Some("(")
      case 0x2769 => Some(")")
      case 0x276b => Some(")")
      case 0xfe5a => Some(")")
      case 0xff09 => Some(")")
      case 0x27ef => Some(")")
      case 0x2986 => Some(")")
    case _ => None
  }

  /** The table entries on lines 99-126 of src/smsCharacterReplacement.ts. Asterisks, plus signs and full stops. */
  function AsterisksAndStops(code: int): (r: Option<string>)
    ensures SafeEntry(code, r)
  {
    match code
      case 0x204e => Some("*")
      case 0x2217 => Some("*")
      case 0x229b => Some("*")
      case 0x2722 => Some("*")
      case 0x2723 => Some("*")
      case 0x2724 => Some("*")
      case 0x2725 => Some("*")
      case 0x2731 => Some("*")
      case 0x2732 => Some("*")
      case 0x2733 => Some("*")
      case 0x273a => Some("*")
      case 0x273b => Some("*")
      case 0x273c => Some("*")
      case 0x273d => Some("*")
      case 0x2743 => Some("*")
      case 0x2749 => Some("*")
      case 0x274a => Some("*")
      case 0x274b => Some("*")
      case 0x29c6 => Some("*")
      case 0xfe61 => Some("*")
      case 0xff0a => Some("*")
      case 0x02d6 => Some("+")
      case 0xfe62 => Some("+")
      case 0xff0b => Some("+")
      case 0x3002 => Some(".")
      case 0xfe52 => Some(".")
      case 0xff0e => Some(".")
      case 0xff61 => Some(".")
    case _ => None
  }

  /** The table entries on lines 127-157 of src/smsCharacterReplacement.ts. Fullwidth digits, colons, semicolons, comparison and equals signs, question marks. */
  function DigitsAndOperators(code: int): (r: Option<string>)
    ensures SafeEntry(code, r)
  {
    match code
      case 0xff10 => Some("0")
      case 0xff11 => Some("1")
      case 0xff12 => Some("2")
      case 0xff13 => Some("3")
      case 0xff14 => Some("4")
      case 0xff15 => Some("5")
      case 0xff16 => Some("6")
      case 0xff17 => Some("7")
      case 0xff18 => Some("8")
      case 0xff19 => Some("9")
      case 0x02d0 => Some(":")
      case 0x02f8 => Some(":")
      case 0x2982 => Some(":")
      case 0xa789 => Some(":")
      case 0xfe13 => Some(":")
      case 0xff1a => Some(":")
      case 0x204f => Some(";")
      case 0xfe14 => Some(";")
      case 0xfe54 => Some(";")
      case 0xff1b => Some(";")
      case 0xfe64 => Some("<")
      case 0xff1c => Some("<")
      case 0x0347 => Some("=")
      case 0xa78a => Some("=")
      case 0xfe66 => Some("=")
      case 0xff1d => Some("=")
      case 0xfe65 => Some(">")
      case 0xff1e => Some(">")
      case 0xfe16 => Some("?")
      case 0xfe56 => Some("?")
      case 0xff1f => Some("?")
    case _ => None
  }

  /** The table entries on lines 158-182 of src/smsCharacterReplacement.ts. Fullwidth capital letters and small capitals A to M become the ASCII capital. */
  function LettersAToM(code: int): (r: Option<string>)
    ensures SafeEntry(code, r)
  {
    match code
      case 0xff21 => Some("A")
      case 0x1d00 => Some("A")
      case 0xff22 => Some("B")
      case 0x0299 => Some("B")
      case 0xff23 => Some("C")
      case 0x1d04 => Some("C")
      case 0xff24 => Some("D")
      case 0x1d05 => Some("D")
      case 0xff25 => Some("E")
      case 0x1d07 => Some("E")
      case 0xff26 => Some("F")
      case 0xa730 => Some("F")
      case 0xff27 => Some("G")
      case 0x0262 => Some("G")
      case 0xff28 => Some("H")
      case 0x029c => Some("H")
      case 0xff29 => Some("I")
      case 0x026a => Some("I")
      case 0xff2a => Some("J")
      case 0x1d0a => Some("J")
      case 0xff2b => Some("K")
      case 0x1d0b => Some("K")
      case 0xff2c => Some("L")
      case 0x029f => Some("L")
      case 0xff2d => Some("M")
    case _ => None
  }

  /** The table entries on lines 183-207 of src/smsCharacterReplacement.ts. The small capital M, then fullwidth capital letters and small capitals N to Z, become the ASCII capital. */
  function LettersMToZ(code: int): (r: Option<string>)
    ensures SafeEntry(code, r)
  {
    match code
      case 0x1d0d => Some("M")
      case 0xff2e => Some("N")
      case 0x0274 => Some("N")
      case 0xff2f => Some("O")
      case 0x1d0f => Some("O")
      case 0xff30 => Some("P")
      case 0x1d18 => Some("P")
      case 0xff31 => Some("Q")
      case 0xff32 => Some("R")
      case 0x0280 => Some("R")
      case 0xff33 => Some("S")
      case 0xa731 => Some("S")
      case 0xff34 => Some("T")
      case 0x1d1b => Some("T")
      case 0xff35 => Some("U")
      case 0x1d1c => Some("U")
      case 0xff36 => Some("V")
      case 0x1d20 => Some("V")
      case 0xff37 => Some("W")
      case 0x1d21 => Some("W")
      case 0xff38 => Some("X")
      case 0xff39 => Some("Y")
      case 0x028f => Some("Y")
      case 0xff3a => Some("Z")
      case 0x1d22 => Some("Z")
    case _ => None
  }

  /** The table entries on lines 208-226 of src/smsCharacterReplacement.ts. Circumflexes, braces, square brackets and tildes. */
  function BracketsAndTildes(code: int): (r: Option<string>)
    ensures SafeEntry(code, r)
  {
    match code
      case 0x02c6 => Some("^")
      case 0x0302 => Some("^")
      case 0xff3e => Some("^")
      case 0x1dcd => Some("^")
      case 0x2774 => Some("{")
      case 0xfe5b => Some("{")
      case 0xff5b => Some("{")
      case 0x2775 => Some("}")
      case 0xfe5c => Some("}")
      case 0xff5d => Some("}")
      case 0xff3b => Some("[")
      case 0xff3d => Some("]")
      case 0x02dc => Some("~")
      case 0x02f7 => Some("~")
      case 0x0303 => Some("~")
      case 0x0330 => Some("~")
      case 0x0334 => Some("~")
      case 0x223c => Some("~")
      case 0xff5e => Some("~")
    case _ => None
  }

  /** The table entries on lines 227-259 of src/smsCharacterReplacement.ts. Unusual spaces, zero-width characters and control codes are removed. */
  function SpacesAndControls(code: int): (r: Option<string>)
    ensures SafeEntry(code, r)
  {
    match code
      case 0x00a0 => Some("")
      case 0x2000 => Some("")
      case 0x2001 => Some("")
      case 0x2002 => Some("")
      case 0x2003 => Some("")
      case 0x2004 => Some("")
      case 0x2005 => Some("")
      case 0x2006 => Some("")
      case 0x2007 => Some("")
      case 0x2008 => Some("")
      case 0x2009 => Some("")
      case 0x200a => Some("")
      case 0x200b => Some("")
      case 0x202f => Some("")
      case 0x205f => Some("")
      case 0x3000 => Some("")
      case 0xfeff => Some("")
      case 0x008d => Some("")
      case 0x009f => Some("")
      case 0x0080 => Some("")
      case 0x0090 => Some("")
      case 0x009b => Some("")
      case 0x0010 => Some("")
      case 0x0009 => Some("")
      case 0x0000 => Some("")
      case 0x0003 => Some("")
      case 0x0004 => Some("")
      case 0x0017 => Some("")
      case 0x0019 => Some("")
      case 0x0011 => Some("")
      case 0x0012 => Some("")
      case 0x0013 => Some("")
      case 0x0014 => Some("")
    case _ => None
  }

  /** The table entries on lines 260-270 of src/smsCharacterReplacement.ts. Double low line, dashes, angle quotation marks, the double exclamation mark, the ellipsis and separators. */
  function TypographicMarks(code: int): (r: Option<string>)
    ensures SafeEntry(code, r)
  {
    match code
      case 0x2017 => Some("_")
      case 0x2014 => Some("-")
      case 0x2013 => Some("-")
      case 0x2039 => Some(">")
      case 0x203a => Some("<")
      case 0x203c => Some("!!")
      case 0x201e => Some("\"")
      case 0x2026 => Some("...")
      case 0x2028 => Some("")
      case 0x2029 => Some("")
      case 0x2060 => Some("")
    case _ => None
  }

  /** The em and en dashes and the ellipsis are listed in none of the first three groups. */
  lemma NotInGroupsZeroToTwo(code: int)
    requires code == 0x2014 || code == 0x2013 || code == 0x2026
    ensures QuotationMarks(code).None? && FractionsSlashesAndBars(code).None? && DashesSignsAndParentheses(code).None?
  {
  }

  /** The em and en dashes and the ellipsis are listed in none of groups three to five. */
  lemma NotInGroupsThreeToFive(code: int)
    requires code == 0x2014 || code == 0x2013 || code == 0x2026
    ensures AsterisksAndStops(code).None? && DigitsAndOperators(code).None? && LettersAToM(code).None?
  {
  }

  /** The em and en dashes and the ellipsis are listed in none of groups six to eight. */
  lemma NotInGroupsSixToEight(code: int)
    requires code == 0x2014 || code == 0x2013 || code == 0x2026
    ensures LettersMToZ(code).None? && BracketsAndTildes(code).None? && SpacesAndControls(code).None?
  {
  }

  /** The em and en dashes become a hyphen-minus and the horizontal ellipsis three full stops. */
  lemma DashAndEllipsisEntries(code: int)
    requires code == 0x2014 || code == 0x2013 || code == 0x2026
    ensures Replacement(code) == if code == 0x2026 then Some("...") else Some("-")
  {
    NotInGroupsZeroToTwo(code);
    NotInGroupsThreeToFive(code);
    NotInGroupsSixToEight(code);
  }
}
