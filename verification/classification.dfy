/** What the classifiers of statements mean for the text of a statement, word by word. */
module Classification {
  import opened Text
  import opened CallPattern
  import opened Command

  // ------------------------------------------------------------- the first word

  /** Only white space and open parentheses stand before position i. */
  predicate OnlyBefore(q: string, i: nat)
    requires i <= |q|
  {
    forall j :: 0 <= j < i ==> IsSpace(q[j]) || q[j] == '('
  }

  /** The word, in any letter case, stands at position i up to white space or the end. */
  predicate WordAt(q: string, i: nat, word: string) {
    && i + |word| <= |q|
    && (i + |word| < |q| ==> IsSpace(q[i + |word|]))
    && forall j :: 0 <= j < |word| ==> Upper(q[i + j]) == word[j]
  }

  /** The first word of the statement behind white space and parentheses is this one. */
  ghost predicate FirstWordIs(q: string, word: string) {
    exists i :: 0 <= i <= |q| && OnlyBefore(q, i) && WordAt(q, i, word)
  }

  /** How many characters trimming the front takes away. */
  function Front(q: string): (i: nat)
    ensures i <= |q|
  {
    if q != [] && (IsSpace(q[0]) || q[0] == '(') then 1 + Front(q[1..]) else 0
  }

  lemma {:induction false} FrontIsBare(q: string)
    ensures Bare(q) == q[Front(q)..] && OnlyBefore(q, Front(q))
    ensures Front(q) < |q| ==> !IsSpace(q[Front(q)]) && q[Front(q)] != '('
  {
    if q != [] && (IsSpace(q[0]) || q[0] == '(') {
      FrontIsBare(q[1..]);
    }
  }

  lemma {:induction false} WordLenIs(s: string)
    ensures forall j :: 0 <= j < WordLen(s) ==> !IsSpace(s[j])
    ensures WordLen(s) < |s| ==> IsSpace(s[WordLen(s)])
  {
    if s != [] && !IsSpace(s[0]) {
      WordLenIs(s[1..]);
      assert forall j :: 0 < j < WordLen(s) ==> s[j] == s[1..][j - 1];
    }
  }

  /** A word in upper-case letters. */
  predicate UpperWord(word: string) {
    word != "" && forall j :: 0 <= j < |word| ==> 'A' <= word[j] <= 'Z'
  }

  lemma UpperIsNoSpace(c: char)
    requires 'A' <= Upper(c) <= 'Z'
    ensures !IsSpace(c) && c != '('
  {
  }

  /** The leading keyword is this word exactly when the first word is. */
  lemma KeywordIff(q: string, word: string)
    requires UpperWord(word)
    ensures LeadingKeyword(q) == word <==> FirstWordIs(q, word)
  {
    hide Upper;
    var i, bare := Front(q), Bare(q);
    var n := WordLen(bare);
    FrontIsBare(q);
    WordLenIs(bare);
    if LeadingKeyword(q) == word {
      assert ToUpper(bare[..n]) == word && n == |word|;
      forall j | 0 <= j < |word|
        ensures Upper(q[i + j]) == word[j]
      {
        assert q[i + j] == bare[j] == bare[..n][j];
      }
      assert n < |bare| ==> bare[n] == q[i + n];
      assert WordAt(q, i, word);
    }
    if FirstWordIs(q, word) {
      var k :| 0 <= k <= |q| && OnlyBefore(q, k) && WordAt(q, k, word);
      FrontReached(q, k, word);
      assert k == i;
      WordReached(bare, word, q, i);
    }
  }

  lemma FrontReached(q: string, k: nat, word: string)
    requires UpperWord(word) && k <= |q| && OnlyBefore(q, k) && WordAt(q, k, word)
    ensures Front(q) == k
  {
    FrontIsBare(q);
    assert k < Front(q) ==> IsSpace(q[k]) || q[k] == '(';
    assert Upper(q[k + 0]) == word[0];
    UpperIsNoSpace(q[k]);
  }

  lemma WordReached(bare: string, word: string, q: string, i: nat)
    requires UpperWord(word) && i <= |q| && bare == q[i..] && WordAt(q, i, word)
    ensures WordLen(bare) == |word| && ToUpper(bare[..WordLen(bare)]) == word
  {
    var n := WordLen(bare);
    WordLenIs(bare);
    forall j | 0 <= j < |word|
      ensures !IsSpace(bare[j]) && Upper(bare[j]) == word[j]
    {
      assert bare[j] == q[i + j] && Upper(q[i + j]) == word[j];
      UpperIsNoSpace(q[i + j]);
    }
    assert |word| < |bare| ==> bare[|word|] == q[i + |word|] && IsSpace(bare[|word|]);
    assert ToUpper(bare[..n]) == word;
  }

  // -------------------------------------------------------- statements with rows

  /** A letter of a lower-case word, in either case. */
  predicate EitherCase(c: char, letter: char) {
    c == letter || c as int == letter as int - 32
  }

  /** The word, in any letter case, stands at position i and neither side goes on in a word. */
  predicate AloneAt(q: string, i: nat, word: string) {
    && i + |word| <= |q|
    && (i > 0 ==> !IsWord(q[i - 1]))
    && (i + |word| < |q| ==> !IsWord(q[i + |word|]))
    && forall j :: 0 <= j < |word| ==> EitherCase(q[i + j], word[j])
  }

  ghost predicate Holds(q: string, word: string) {
    exists i :: 0 <= i <= |q| && AloneAt(q, i, word)
  }

  /** Letters that only fold among ASCII. */
  predicate AsciiOnly(word: string) {
    word != "" && forall j :: 0 <= j < |word| ==> 'a' <= word[j] <= 'z' && word[j] != 'k' && word[j] != 's'
  }

  lemma {:induction false} SpellsIff(s: string, word: string)
    requires word == "" || AsciiOnly(word)
    ensures Spells(s, word) <==> |word| <= |s| && forall j :: 0 <= j < |word| ==> EitherCase(s[j], word[j])
  {
    if word != "" && s != "" {
      var t, w := s[1..], word[1..];
      assert forall j :: 0 <= j < |w| ==> w[j] == word[j + 1];
      SpellsIff(t, w);
      assert forall j :: 0 <= j < |t| ==> t[j] == s[j + 1];
      FoldsIff(s[0], word[0]);
      if Spells(s, word) {
        forall j | 0 <= j < |word|
          ensures EitherCase(s[j], word[j])
        {
          if j > 0 {
            assert EitherCase(t[j - 1], w[j - 1]);
          }
        }
      }
      if |word| <= |s| && forall j :: 0 <= j < |word| ==> EitherCase(s[j], word[j]) {
        forall j | 0 <= j < |w|
          ensures EitherCase(t[j], w[j])
        {
          assert EitherCase(s[j + 1], word[j + 1]);
        }
      }
    }
  }

  lemma FoldsIff(c: char, letter: char)
    requires 'a' <= letter <= 'z' && letter != 'k' && letter != 's'
    ensures Folds(c, letter) <==> EitherCase(c, letter)
  {
  }

  /** The word stands alone at the i-th position of the text after q[..from]. */
  lemma {:induction false} HasWordIff(q: string, from: nat, word: string)
    requires AsciiOnly(word) && from <= |q|
    ensures HasWord(q[from..], word, from == 0 || !IsWord(q[from - 1])) <==>
            exists i :: from <= i <= |q| && AloneAt(q, i, word)
    decreases |q| - from
  {
    hide Spells, EitherCase, IsWord;
    var s := q[from..];
    if s != [] {
      assert s[1..] == q[from + 1..] && s[0] == q[from];
      HasWordIff(q, from + 1, word);
      AloneHere(q, from, word);
    } else {
      forall i | from <= i <= |q|
        ensures !AloneAt(q, i, word)
      {
      }
    }
  }

  lemma AloneHere(q: string, from: nat, word: string)
    requires AsciiOnly(word) && from < |q|
    ensures var s := q[from..];
            AloneAt(q, from, word) <==>
            (from == 0 || !IsWord(q[from - 1])) && Spells(s, word) && (|s| <= |word| || !IsWord(s[|word|]))
  {
    var s := q[from..];
    SpellsIff(s, word);
    assert forall j :: 0 <= j < |s| ==> s[j] == q[from + j];
    if AloneAt(q, from, word) {
      forall j | 0 <= j < |word|
        ensures EitherCase(s[j], word[j])
      {
        assert EitherCase(q[from + j], word[j]);
      }
    }
    if Spells(s, word) {
      forall j | 0 <= j < |word|
        ensures EitherCase(q[from + j], word[j])
      {
        assert EitherCase(s[j], word[j]);
      }
    }
  }

  /** A statement returns rows exactly when its first word is one of seven, in any letter case, or
      RETURNING stands in it between word boundaries. */
  lemma RowReturningIff(q: string)
    ensures IsRowReturning(q) <==>
              || FirstWordIs(q, "SELECT") || FirstWordIs(q, "VALUES") || FirstWordIs(q, "WITH") || FirstWordIs(q, "SHOW")
              || FirstWordIs(q, "EXPLAIN") || FirstWordIs(q, "TABLE") || FirstWordIs(q, "PRAGMA")
              || Holds(q, "returning")
  {
    hide LeadingKeyword, HasWord, FirstWordIs, AloneAt;
    KeywordIff(q, "SELECT");
    KeywordIff(q, "VALUES");
    KeywordIff(q, "WITH");
    KeywordIff(q, "SHOW");
    KeywordIff(q, "EXPLAIN");
    KeywordIff(q, "TABLE");
    KeywordIff(q, "PRAGMA");
    HasWordIff(q, 0, "returning");
    assert q[0..] == q;
  }

  /** Transaction control is told by six first words. */
  lemma ControlIff(q: string)
    ensures IsTxBegin(LeadingKeyword(q)) <==> FirstWordIs(q, "BEGIN") || FirstWordIs(q, "START")
    ensures IsTxCommit(LeadingKeyword(q)) <==> FirstWordIs(q, "COMMIT") || FirstWordIs(q, "END")
    ensures IsTxRollback(LeadingKeyword(q)) <==> FirstWordIs(q, "ROLLBACK") || FirstWordIs(q, "ABORT")
  {
    hide LeadingKeyword, FirstWordIs;
    KeywordIff(q, "BEGIN");
    KeywordIff(q, "START");
    KeywordIff(q, "COMMIT");
    KeywordIff(q, "END");
    KeywordIff(q, "ROLLBACK");
    KeywordIff(q, "ABORT");
  }

  // ------------------------------------------------------------- command tags

  /** The tags of statements with counts, by the first word. */
  lemma CountTags(q: string, affected: int, returned: int)
    ensures var count := if IsRowReturning(q) then returned else affected; var tag := CommandTag(q, affected, returned);
            && (FirstWordIs(q, "INSERT") ==> tag == "INSERT 0 " + Decimal(count))
            && (FirstWordIs(q, "UPDATE") ==> tag == "UPDATE " + Decimal(count))
            && (FirstWordIs(q, "DELETE") ==> tag == "DELETE " + Decimal(count))
  {
    hide LeadingKeyword, FirstWordIs, IsRowReturning, Decimal;
    KeywordIff(q, "INSERT");
    KeywordIff(q, "UPDATE");
    KeywordIff(q, "DELETE");
    assert "UPDATE" + " " == "UPDATE " && "DELETE" + " " == "DELETE ";
  }

  /** Every statement that begins as a query is tagged SELECT. */
  lemma QueryTags(q: string, affected: int, returned: int)
    requires FirstWordIs(q, "SELECT") || FirstWordIs(q, "VALUES") || FirstWordIs(q, "WITH") || FirstWordIs(q, "SHOW") || FirstWordIs(q, "TABLE")
    ensures CommandTag(q, affected, returned) == "SELECT " + Decimal(returned)
  {
    hide LeadingKeyword, FirstWordIs, IsRowReturning, Decimal;
    KeywordIff(q, "SELECT");
    KeywordIff(q, "VALUES");
    KeywordIff(q, "WITH");
    KeywordIff(q, "SHOW");
    KeywordIff(q, "TABLE");
  }

  lemma ControlTags(q: string, affected: int, returned: int)
    ensures var tag := CommandTag(q, affected, returned);
            && (FirstWordIs(q, "BEGIN") || FirstWordIs(q, "START") ==> tag == "BEGIN")
            && (FirstWordIs(q, "COMMIT") || FirstWordIs(q, "END") ==> tag == "COMMIT")
            && (FirstWordIs(q, "ROLLBACK") ==> tag == "ROLLBACK")
  {
    hide LeadingKeyword, FirstWordIs, IsRowReturning, Decimal;
    KeywordIff(q, "BEGIN");
    KeywordIff(q, "START");
    KeywordIff(q, "COMMIT");
    KeywordIff(q, "END");
    KeywordIff(q, "ROLLBACK");
  }

  /** A statement that defines something names the kind of object when it knows it. */
  predicate Defines(kw: string) {
    kw == "CREATE" || kw == "DROP" || kw == "ALTER" || kw == "TRUNCATE" || kw == "GRANT" || kw == "REVOKE" ||
    kw == "COMMENT" || kw == "REINDEX"
  }

  predicate IsObject(kind: string) {
    kind == "TABLE" || kind == "INDEX" || kind == "VIEW" || kind == "TRIGGER" || kind == "DATABASE" || kind == "SCHEMA" ||
    kind == "SEQUENCE"
  }

  /** A run of characters other than white space. */
  predicate IsField(w: string) {
    w != "" && forall i :: 0 <= i < |w| ==> !IsSpace(w[i])
  }

  lemma {:induction false} FieldLen(w: string, rest: string)
    requires (forall i :: 0 <= i < |w| ==> !IsSpace(w[i])) && (rest == "" || IsSpace(rest[0]))
    ensures WordLen(w + rest) == |w|
  {
    if w == "" {
      assert w + rest == rest;
    } else {
      assert (w + rest)[1..] == w[1..] + rest;
      FieldLen(w[1..], rest);
    }
  }

  lemma {:induction false} FieldsSkip(gap: string, rest: string)
    requires AllSpace(gap)
    ensures Fields(gap + rest) == Fields(rest)
  {
    if gap == "" {
      assert gap + rest == rest;
    } else {
      assert (gap + rest)[1..] == gap[1..] + rest;
      FieldsSkip(gap[1..], rest);
    }
  }

  lemma FieldFirst(w: string, rest: string)
    requires IsField(w) && (rest == "" || IsSpace(rest[0]))
    ensures Fields(w + rest) == [w] + Fields(rest)
  {
    FieldLen(w, rest);
    assert (w + rest)[..|w|] == w && (w + rest)[|w|..] == rest;
  }

  /** CREATE TABLE and the like: both words, in any letter case, come back in upper case when the second
      is a kind of object, else the first alone. */
  lemma DefinitionTags(w: string, gap: string, kind: string, rest: string, affected: int, returned: int)
    requires IsField(w) && w[0] != '(' && Defines(ToUpper(w)) && gap != "" && AllSpace(gap)
    requires IsField(kind) && (rest == "" || IsSpace(rest[0]))
    ensures CommandTag(w + (gap + (kind + rest)), affected, returned) ==
            ToUpper(w) + if IsObject(ToUpper(kind)) then " " + ToUpper(kind) else ""
  {
    hide Fields, LeadingKeyword, IsRowReturning, Decimal, ToUpper, WordLen, HasWord;
    var q := w + (gap + (kind + rest));
    FieldFirst(w, gap + (kind + rest));
    FieldsSkip(gap, kind + rest);
    FieldFirst(kind, rest);
    assert Fields(q) == [w] + ([kind] + Fields(rest));
    LeadingIs(w, gap + (kind + rest));
    assert ToUpper(w) + "" == ToUpper(w);
    assert ToUpper(w) + " " + ToUpper(kind) == ToUpper(w) + (" " + ToUpper(kind));
  }

  lemma LeadingIs(w: string, rest: string)
    requires IsField(w) && w[0] != '(' && (rest == "" || IsSpace(rest[0]))
    ensures LeadingKeyword(w + rest) == ToUpper(w)
  {
    FieldLen(w, rest);
    assert Bare(w + rest) == w + rest;
    assert (w + rest)[..|w|] == w;
  }
}
