/** Strings as the Go standard library and its regular expressions see them:
    character classes, trimming, case mapping and joining. */
module Text {

  datatype Option<+T> = None | Some(value: T)

  /** unicode.IsSpace, the white space of strings.TrimSpace and strings.Fields. */
  predicate IsSpace(c: char) {
    var n := c as int;
    9 <= n <= 13 || n == 32 || n == 0x85 || n == 0xA0 || n == 0x1680 || 0x2000 <= n <= 0x200A ||
    n == 0x2028 || n == 0x2029 || n == 0x202F || n == 0x205F || n == 0x3000
  }

  /** The class \s of Go's regular expressions; unlike IsSpace it leaves out the vertical tab. */
  predicate IsBlank(c: char) {
    c == ' ' || c == '\t' || c == '\n' || c == '\r' || c as int == 12
  }

  predicate IsDigit(c: char) {
    '0' <= c <= '9'
  }

  /** The class \w: what the word boundary \b looks at. */
  predicate IsWord(c: char) {
    IsDigit(c) || 'a' <= c <= 'z' || 'A' <= c <= 'Z' || c == '_'
  }

  /** unicode.ToLower as far as its results are ASCII letters: the Kelvin sign and the
      capital I with a dot come down to k and i. */
  function Lower(c: char): char {
    if 'A' <= c <= 'Z' then (c as int + 32) as char
    else if c as int == 0x212A then 'k'
    else if c as int == 0x130 then 'i'
    else c
  }

  /** unicode.ToUpper as far as its results are ASCII letters: the long s and the small i
      without a dot go up to S and I. */
  function Upper(c: char): char {
    if 'a' <= c <= 'z' then (c as int - 32) as char
    else if c as int == 0x17F then 'S'
    else if c as int == 0x131 then 'I'
    else c
  }

  /** Equality of a character with a lower-case letter under the flag (?i). Case folding takes two
      letters to ASCII ones, the Kelvin sign to k and the long s to s; the dotted and dotless
      forms of i fold to themselves. */
  predicate Folds(c: char, letter: char) {
    c == letter || ('A' <= c <= 'Z' && c as int + 32 == letter as int) ||
    (c as int == 0x212A && letter == 'k') || (c as int == 0x17F && letter == 's')
  }

  /** The class \w under the flag (?i), which takes in the two letters that fold to ASCII. */
  predicate IsFoldedWord(c: char) {
    IsWord(c) || c as int == 0x212A || c as int == 0x17F
  }

  /** The 25 code points of the Unicode property White_Space. */
  lemma SpaceIff(c: char)
    ensures IsSpace(c) <==>
              c as int in {0x9, 0xA, 0xB, 0xC, 0xD, 0x20, 0x85, 0xA0, 0x1680, 0x2000, 0x2001, 0x2002, 0x2003, 0x2004, 0x2005,
                           0x2006, 0x2007, 0x2008, 0x2009, 0x200A, 0x2028, 0x2029, 0x202F, 0x205F, 0x3000}
    ensures IsBlank(c) <==> c as int in {0x9, 0xA, 0xC, 0xD, 0x20}
    ensures IsBlank(c) ==> IsSpace(c)
  {
  }

  /** Which characters come to a given letter. */
  lemma CaseIff(c: char, i: nat)
    requires i < 26
    ensures var capital, small := (65 + i) as char, (97 + i) as char;
            && (Upper(c) == capital <==> c == capital || c == small || (c as int == 0x17F && small == 's') || (c as int == 0x131 && small == 'i'))
            && (Lower(c) == small <==> c == small || c == capital || (c as int == 0x212A && small == 'k') || (c as int == 0x130 && small == 'i'))
            && (Folds(c, small) <==> c == small || c == capital || (c as int == 0x212A && small == 'k') || (c as int == 0x17F && small == 's'))
  {
  }

  function ToLower(s: string): (r: string)
    ensures |r| == |s| && forall i :: 0 <= i < |s| ==> r[i] == Lower(s[i])
  {
    seq(|s|, i requires 0 <= i < |s| => Lower(s[i]))
  }

  function ToUpper(s: string): (r: string)
    ensures |r| == |s| && forall i :: 0 <= i < |s| ==> r[i] == Upper(s[i])
  {
    seq(|s|, i requires 0 <= i < |s| => Upper(s[i]))
  }

  predicate AllBlank(s: string) {
    s == [] || (IsBlank(s[0]) && AllBlank(s[1..]))
  }

  predicate AllSpace(s: string) {
    forall i :: 0 <= i < |s| ==> IsSpace(s[i])
  }

  function TrimLeft(s: string): string {
    if s != [] && IsSpace(s[0]) then TrimLeft(s[1..]) else s
  }

  function TrimRight(s: string): string {
    if s != [] && IsSpace(s[|s| - 1]) then TrimRight(s[..|s| - 1]) else s
  }

  function TrimSpace(s: string): string {
    TrimRight(TrimLeft(s))
  }

  /** Text that begins and ends in a character other than white space. */
  predicate Tight(s: string) {
    s != [] && !IsSpace(s[0]) && !IsSpace(s[|s| - 1])
  }

  lemma {:induction false} TrimLeftPadded(pad: string, s: string)
    requires AllSpace(pad) && s != [] && !IsSpace(s[0])
    ensures TrimLeft(pad + s) == s
  {
    if pad == [] {
      assert pad + s == s;
    } else {
      assert (pad + s)[1..] == pad[1..] + s;
      TrimLeftPadded(pad[1..], s);
    }
  }

  lemma {:induction false} TrimRightPadded(s: string, pad: string)
    requires AllSpace(pad) && s != [] && !IsSpace(s[|s| - 1])
    ensures TrimRight(s + pad) == s
  {
    if pad == [] {
      assert s + pad == s;
    } else {
      assert (s + pad)[..|s + pad| - 1] == s + pad[..|pad| - 1];
      TrimRightPadded(s, pad[..|pad| - 1]);
    }
  }

  /** Trimming undoes padding. */
  lemma TrimPadded(lead: string, s: string, trail: string)
    requires AllSpace(lead) && AllSpace(trail) && Tight(s)
    ensures TrimSpace(lead + s + trail) == s
  {
    assert lead + s + trail == lead + (s + trail);
    TrimLeftPadded(lead, s + trail);
    TrimRightPadded(s, trail);
  }

  lemma TrimTight(s: string)
    requires Tight(s)
    ensures TrimSpace(s) == s
  {
  }

  lemma {:induction false} TrimLeftSplits(s: string) returns (lead: string)
    ensures AllSpace(lead) && s == lead + TrimLeft(s)
  {
    if s != [] && IsSpace(s[0]) {
      var rest := TrimLeftSplits(s[1..]);
      lead := [s[0]] + rest;
      Assoc([s[0]], rest, TrimLeft(s));
      assert s == [s[0]] + s[1..];
    } else {
      lead := [];
    }
  }

  lemma {:induction false} TrimRightSplits(s: string) returns (trail: string)
    ensures AllSpace(trail) && s == TrimRight(s) + trail
  {
    if s != [] && IsSpace(s[|s| - 1]) {
      var rest := TrimRightSplits(s[..|s| - 1]);
      trail := rest + [s[|s| - 1]];
      Assoc(TrimRight(s), rest, [s[|s| - 1]]);
      assert s == s[..|s| - 1] + [s[|s| - 1]];
    } else {
      trail := [];
    }
  }

  /** What trimming removes is white space and nothing else. */
  lemma TrimSplits(s: string) returns (lead: string, trail: string)
    ensures AllSpace(lead) && AllSpace(trail) && s == lead + TrimSpace(s) + trail
  {
    lead := TrimLeftSplits(s);
    trail := TrimRightSplits(TrimLeft(s));
    assert lead + (TrimSpace(s) + trail) == lead + TrimSpace(s) + trail;
  }

  // ------------------------------------------------------- equalities of sequences

  lemma Assoc<T>(a: seq<T>, b: seq<T>, c: seq<T>)
    ensures a + b + c == a + (b + c)
  {
  }

  lemma Drop<T>(s: seq<T>, i: nat, j: nat)
    requires i + j <= |s|
    ensures s[i..][j..] == s[i + j..]
  {
  }

  lemma Take<T>(s: seq<T>, i: nat)
    requires i <= |s|
    ensures s == s[..i] + s[i..]
  {
  }

  lemma HeadTail<T>(s: seq<T>, i: nat)
    requires i < |s|
    ensures s[i..] == [s[i]] + s[i + 1..]
  {
  }

  lemma UpdateTwice<K, V>(m: map<K, V>, k: K, a: V, b: V)
    ensures m[k := a][k := b] == m[k := b]
  {
  }

  lemma Front<T>(a: seq<T>, b: seq<T>)
    ensures (a + b)[..|a|] == a && (a + b)[|a|..] == b
  {
  }

  /** strings.Join. */
  function Join(parts: seq<string>, sep: string): string {
    if parts == [] then ""
    else if |parts| == 1 then parts[0]
    else parts[0] + (sep + Join(parts[1..], sep))
  }
}
