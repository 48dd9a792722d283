/** What a translated format means: the text TO_CHAR gives in PostgreSQL (PostgreSQL 14 documentation,
    section 9.8) against the text strftime gives in SQLite, for times in UTC. */
module ToCharMeaning {
  import opened Text
  import opened Scanner
  import opened Literal
  import opened ToChar

  datatype Time = Time(year: nat, month: nat, day: nat, hour: nat, minute: nat, second: nat, micro: nat)

  predicate Sensible(t: Time) {
    t.year <= 9999 && 1 <= t.month <= 12 && 1 <= t.day <= 31 && t.hour < 24 && t.minute < 60 && t.second < 60 && t.micro < 1000000
  }

  /** A number with leading zeros. */
  function Padded(n: nat, width: nat): (r: string)
    ensures |r| == width
  {
    if width == 0 then "" else Padded(n / 10, width - 1) + [(n % 10 + 48) as char]
  }

  function Hour12(hour: nat): nat {
    if hour % 12 == 0 then 12 else hour % 12
  }

  /** The text of a template pattern of TO_CHAR. */
  function PatternText(pattern: string, t: Time): string {
    if pattern == "YYYY" then Padded(t.year, 4)
    else if pattern == "YY" then Padded(t.year % 100, 2)
    else if pattern == "MM" then Padded(t.month, 2)
    else if pattern == "DD" then Padded(t.day, 2)
    else if pattern == "HH24" then Padded(t.hour, 2)
    else if pattern == "HH12" || pattern == "HH" then Padded(Hour12(t.hour), 2)
    else if pattern == "MI" then Padded(t.minute, 2)
    else if pattern == "SS" then Padded(t.second, 2)
    else if pattern == "MS" then Padded(t.micro / 1000, 3)
    else if pattern == "US" then Padded(t.micro, 6)
    else if pattern == "TZH" then "+00"
    else if pattern == "TZM" then "00"
    else if pattern == "TZH:TZM" then "+00:00"
    else pattern
  }

  /** The text of a substitution of strftime; None for one it does not know, as for 12-hour clocks. */
  function SubstitutionText(c: char, t: Time): Option<string> {
    match c
    case 'Y' => Some(Padded(t.year, 4))
    case 'm' => Some(Padded(t.month, 2))
    case 'd' => Some(Padded(t.day, 2))
    case 'H' => Some(Padded(t.hour, 2))
    case 'M' => Some(Padded(t.minute, 2))
    case 'S' => Some(Padded(t.second, 2))
    case 'f' => Some(Padded(t.second, 2) + ("." + Padded(t.micro / 1000, 3)))
    case '%' => Some("%")
    case _ => None
  }

  function Then(a: Option<string>, b: Option<string>): Option<string> {
    if a.None? || b.None? then None else Some(a.value + b.value)
  }

  /** strftime, which is NULL when it does not know a substitution. */
  function StrftimeText(format: string, t: Time): Option<string>
    decreases |format|
  {
    if format == "" then Some("")
    else if format[0] != '%' then Then(Some([format[0]]), StrftimeText(format[1..], t))
    else if |format| == 1 then None
    else Then(SubstitutionText(format[1], t), StrftimeText(format[2..], t))
  }

  // -------------------------------------------------------------- the token table

  /** Every token and what it is replaced by. */
  lemma TokensInFull()
    ensures Replace(PG_TO_STRFTIME, "YYYY") == "%Y" && Replace(PG_TO_STRFTIME, "YY") == "%Y"
    ensures Replace(PG_TO_STRFTIME, "MM") == "%m" && Replace(PG_TO_STRFTIME, "DD") == "%d"
    ensures Replace(PG_TO_STRFTIME, "HH24") == "%H" && Replace(PG_TO_STRFTIME, "HH12") == "%I" && Replace(PG_TO_STRFTIME, "HH") == "%H"
    ensures Replace(PG_TO_STRFTIME, "MI") == "%M" && Replace(PG_TO_STRFTIME, "SS") == "%S"
    ensures Replace(PG_TO_STRFTIME, "MS") == "%f" && Replace(PG_TO_STRFTIME, "US") == "%f"
    ensures Replace(PG_TO_STRFTIME, "TZH:TZM") == "+00:00" && Replace(PG_TO_STRFTIME, "TZH") == "+00" && Replace(PG_TO_STRFTIME, "TZM") == "00"
  {
    hide Replace;
    TokenAlone(0);
    TokenAlone(1);
    TokenAlone(2);
    TokenAlone(3);
    TokenAlone(4);
    TokenAlone(5);
    TokenAlone(6);
    TokenAlone(7);
    TokenAlone(8);
    TokenAlone(9);
    TokenAlone(10);
    TokenAlone(11);
    TokenAlone(12);
    TokenAlone(13);
  }

  /** The patterns whose replacement means the same. */
  predicate Faithful(pattern: string) {
    pattern == "YYYY" || pattern == "MM" || pattern == "DD" || pattern == "HH24" || pattern == "MI" || pattern == "SS" ||
    pattern == "TZH" || pattern == "TZM" || pattern == "TZH:TZM"
  }

  /** The replacements of these patterns. */
  function Image(pattern: string): string
    requires Faithful(pattern)
  {
    if pattern == "YYYY" then "%Y"
    else if pattern == "MM" then "%m"
    else if pattern == "DD" then "%d"
    else if pattern == "HH24" then "%H"
    else if pattern == "MI" then "%M"
    else if pattern == "SS" then "%S"
    else if pattern == "TZH" then "+00"
    else if pattern == "TZM" then "00"
    else "+00:00"
  }

  lemma Substituted(c: char, rest: string, t: Time)
    ensures StrftimeText(['%', c] + rest, t) == Then(SubstitutionText(c, t), StrftimeText(rest, t))
  {
    assert (['%', c] + rest)[2..] == rest;
  }

  lemma {:induction false} Copied(s: string, rest: string, t: Time)
    requires '%' !in s
    ensures StrftimeText(s + rest, t) == Then(Some(s), StrftimeText(rest, t))
  {
    if s == "" {
      assert s + rest == rest;
      if StrftimeText(rest, t).Some? {
        assert "" + StrftimeText(rest, t).value == StrftimeText(rest, t).value;
      }
    } else {
      assert (s + rest)[1..] == s[1..] + rest;
      Copied(s[1..], rest, t);
      if StrftimeText(rest, t).Some? {
        Assoc([s[0]], s[1..], StrftimeText(rest, t).value);
        assert [s[0]] + s[1..] == s;
      }
    }
  }

  /** A faithful pattern comes out of strftime as it comes out of TO_CHAR, whatever follows. */
  lemma ImageText(pattern: string, rest: string, t: Time)
    requires Faithful(pattern)
    ensures StrftimeText(Image(pattern) + rest, t) == Then(Some(PatternText(pattern, t)), StrftimeText(rest, t))
  {
    hide StrftimeText, Padded, Then;
    if pattern == "YYYY" {
      Substituted('Y', rest, t);
    } else if pattern == "MM" {
      Substituted('m', rest, t);
    } else if pattern == "DD" {
      Substituted('d', rest, t);
    } else if pattern == "HH24" {
      Substituted('H', rest, t);
    } else if pattern == "MI" {
      Substituted('M', rest, t);
    } else if pattern == "SS" {
      Substituted('S', rest, t);
    } else {
      Copied(Image(pattern), rest, t);
    }
  }

  // ------------------------------------------------------------- whole formats

  /** A format as patterns and text between them. */
  datatype Item = Pattern(p: string) | Gap(c: char)

  function PrintItem(i: Item): string {
    match i
    case Pattern(p) => p
    case Gap(c) => [c]
  }

  function PrintItems(items: seq<Item>): string {
    if items == [] then "" else PrintItem(items[0]) + PrintItems(items[1..])
  }

  /** What TO_CHAR gives for the format. */
  function FormatText(items: seq<Item>, t: Time): string {
    if items == [] then ""
    else (match items[0] case Pattern(p) => PatternText(p, t) case Gap(c) => [c]) + FormatText(items[1..], t)
  }

  /** A character TO_CHAR copies: no letter, and none that escapes. */
  predicate IsGap(c: char) {
    !('a' <= c <= 'z') && !('A' <= c <= 'Z') && c != '%' && c != '"' && c != '\\'
  }

  /** Faithful patterns; TZH, where :TZM does not make one pattern of both. */
  predicate SoundItems(items: seq<Item>) {
    items == [] ||
    ((match items[0]
      case Pattern(p) => Faithful(p) && (p == "TZH" ==> !(":TZM" <= PrintItems(items[1..])))
      case Gap(c) => IsGap(c)) && SoundItems(items[1..]))
  }

  /** The pattern at the front of a format is read as itself. */
  lemma PatternRead(p: string, rest: string)
    requires Faithful(p) && (p == "TZH" ==> !(":TZM" <= rest))
    ensures Replace(PG_TO_STRFTIME, p + rest) == Image(p) + Replace(PG_TO_STRFTIME, rest)
  {
    hide Replace, FirstToken;
    var i := if p == "TZH:TZM" then 0 else if p == "HH24" then 1 else if p == "YYYY" then 3 else if p == "TZH" then 4
             else if p == "TZM" then 5 else if p == "MM" then 8 else if p == "DD" then 9 else if p == "MI" then 11 else 12;
    var s := p + rest;
    assert PG_TO_STRFTIME[i] == (p, Image(p));
    forall j | 0 <= j < i
      ensures !(PG_TO_STRFTIME[j].0 <= s)
    {
      NotEarlier(p, rest, i, j);
    }
    TokenFirst(PG_TO_STRFTIME, i, rest);
  }

  lemma NotEarlier(p: string, rest: string, i: nat, j: nat)
    requires j < i < |PG_TO_STRFTIME| && PG_TO_STRFTIME[i].0 == p && Faithful(p) && (p == "TZH" ==> !(":TZM" <= rest))
    ensures !(PG_TO_STRFTIME[j].0 <= p + rest)
  {
    var q, s := PG_TO_STRFTIME[j].0, p + rest;
    assert s[0] == p[0] && s[1] == p[1] && (|p| > 2 ==> s[2] == p[2]);
    assert p == "TZH" ==> s[3..] == rest;
    assert j == 0 ==> q[3..] == ":TZM";
    PrefixMeans(q, s);
  }

  lemma PrefixMeans(q: string, s: string)
    requires |q| >= 2 && |s| >= 2
    ensures q <= s ==> q[0] == s[0] && q[1] == s[1] && (|q| > 2 ==> q[2] == s[2]) && (|q| > 3 ==> q[3..] <= s[3..])
  {
  }

  /** A character that begins no pattern is copied. */
  lemma GapRead(c: char, rest: string)
    requires IsGap(c)
    ensures Replace(PG_TO_STRFTIME, [c] + rest) == [c] + Replace(PG_TO_STRFTIME, rest)
  {
    assert forall i :: 0 <= i < |PG_TO_STRFTIME| ==> PG_TO_STRFTIME[i].0[0] != c;
    NoneStarts(PG_TO_STRFTIME, [c] + rest);
    assert ([c] + rest)[1..] == rest;
  }

  lemma {:induction false} NoneStarts(r: Replacer, s: string)
    requires s != "" && forall i :: 0 <= i < |r| ==> r[i].0 == "" || r[i].0[0] != s[0]
    ensures FirstToken(r, s) == None
  {
    if r != [] {
      assert forall i :: 0 <= i < |r| - 1 ==> r[1..][i] == r[i + 1];
      NoneStarts(r[1..], s);
    }
  }

  /** For every format of faithful patterns and text between them and every time: strftime with the
      translated format gives just what TO_CHAR gives. */
  lemma {:induction false} FormatKeepsMeaning(items: seq<Item>, t: Time)
    requires SoundItems(items)
    ensures StrftimeText(Replace(PG_TO_STRFTIME, PrintItems(items)), t) == Some(FormatText(items, t))
  {
    hide Replace, StrftimeText, PatternText, Image;
    if items == [] {
      ReplaceNothing(PG_TO_STRFTIME);
      NothingText(t);
    } else {
      var rest := PrintItems(items[1..]);
      FormatKeepsMeaning(items[1..], t);
      match items[0]
      case Pattern(p) =>
        PatternRead(p, rest);
        ImageText(p, Replace(PG_TO_STRFTIME, rest), t);
      case Gap(c) =>
        GapRead(c, rest);
        Copied([c], Replace(PG_TO_STRFTIME, rest), t);
    }
  }

  lemma NothingText(t: Time)
    ensures StrftimeText("", t) == Some("")
  {
  }

  /** A call of TO_CHAR with such a format becomes a call of strftime whose format literal stands for
      a format of the same meaning, and whose time is the same expression. */
  lemma CallKeepsMeaning(expr: string, items: seq<Item>, t: Time) returns (format: string)
    requires Argument(expr) && Tight(expr) && SoundItems(items)
    ensures var args := [expr, SqlStringLiteral(PrintItems(items))];
            && Split(Join(args, ",")) == args
            && Translation(args) == Some("strftime(" + SqlStringLiteral(format) + ", " + expr + ")")
            && StrftimeText(format, t) == Some(FormatText(items, t))
  {
    hide Replace, StrftimeText, Translation, DoubleQuotes, SqlStringLiteral, Split, Argument, Tight, SoundItems;
    var f := PrintItems(items);
    format := Replace(PG_TO_STRFTIME, f);
    LiteralFormat("", expr, "", "", f, "");
    assert "" + expr + "" == expr && "" + SqlStringLiteral(f) + "" == SqlStringLiteral(f);
    FormatKeepsMeaning(items, t);
  }

  // ------------------------------------------------------------ the other tokens

  lemma {:induction false} PaddedDiffers(a: nat, b: nat, width: nat)
    requires a < Power(width) && b < Power(width)
    ensures Padded(a, width) == Padded(b, width) <==> a == b
  {
    if width > 0 && Padded(a, width) == Padded(b, width) {
      var x, y := Padded(a / 10, width - 1), Padded(b / 10, width - 1);
      assert Padded(a, width)[..width - 1] == x && Padded(b, width)[..width - 1] == y;
      assert Padded(a, width)[width - 1] == (a % 10 + 48) as char && Padded(b, width)[width - 1] == (b % 10 + 48) as char;
      PaddedDiffers(a / 10, b / 10, width - 1);
    }
  }

  function Power(width: nat): nat {
    if width == 0 then 1 else 10 * Power(width - 1)
  }

  /** HH is the hour of a 12-hour clock to TO_CHAR and of a 24-hour clock after the translation: they
      agree exactly from one to twelve. */
  lemma HourAgreesIff(t: Time)
    requires Sensible(t)
    ensures StrftimeText(Replace(PG_TO_STRFTIME, "HH"), t) == Some(PatternText("HH", t)) <==> 1 <= t.hour <= 12
  {
    hide Replace, StrftimeText, Padded;
    TokensInFull();
    Alone('H', t);
    assert Power(2) == 10 * Power(1) == 100;
    PaddedDiffers(t.hour, Hour12(t.hour), 2);
  }

  lemma Alone(c: char, t: Time)
    ensures StrftimeText(['%', c], t) == SubstitutionText(c, t)
  {
    hide SubstitutionText;
    assert ['%', c] + "" == ['%', c];
    Substituted(c, "", t);
    var s := SubstitutionText(c, t);
    assert s.Some? ==> s.value + "" == s.value;
  }

  /** HH12 makes strftime give NULL; YY, MS and US never give what TO_CHAR gives. */
  lemma UnfaithfulTokens(t: Time)
    ensures StrftimeText(Replace(PG_TO_STRFTIME, "HH12"), t) == None
    ensures StrftimeText(Replace(PG_TO_STRFTIME, "YY"), t) != Some(PatternText("YY", t))
    ensures StrftimeText(Replace(PG_TO_STRFTIME, "MS"), t) != Some(PatternText("MS", t))
    ensures StrftimeText(Replace(PG_TO_STRFTIME, "US"), t) != Some(PatternText("US", t))
  {
    hide Replace, StrftimeText, Padded;
    TokensInFull();
    Alone('I', t);
    Alone('Y', t);
    Alone('f', t);
    DigitsOnly(t.micro, 6);
    var f := Padded(t.second, 2) + ("." + Padded(t.micro / 1000, 3));
    assert f[2] == '.';
  }

  lemma {:induction false} DigitsOnly(n: nat, width: nat)
    ensures forall i :: 0 <= i < width ==> IsDigit(Padded(n, width)[i])
  {
    if width > 0 {
      DigitsOnly(n / 10, width - 1);
    }
  }
}
