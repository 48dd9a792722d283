/** parseEnums: the enums a CREATE statement declares through CHECK clauses. */
module EnumTables {
  import opened Text
  import opened Scanner
  import opened CallPattern
  import opened EnumLabels

  datatype EnumType = EnumType(table: string, column: string, typname: string, labels: seq<string>)

  const CHECK := "check"

  lemma CheckIsKeyword()
    ensures Keyword(CHECK)
  {
  }

  function Entry(table: string, column: string, labels: seq<string>): EnumType {
    EnumType(table, column, ToLower(table + "_" + column), labels)
  }

  /** The enums of the text after the columns already seen. */
  function EnumsAfter(table: string, ddl: string, seen: set<string>): seq<EnumType>
    decreases |ddl|
  {
    match FirstCall(ddl, CHECK)
    case None => []
    case Some(c) =>
      FirstCallText(ddl, CHECK);
      match InList(c.body)
      case None => EnumsAfter(table, c.post, seen)
      case Some(list) =>
        if ToLower(list.0) in seen then EnumsAfter(table, c.post, seen)
        else [Entry(table, list.0, list.1)] + EnumsAfter(table, c.post, seen + {ToLower(list.0)})
  }

  function Enums(table: string, ddl: string): seq<EnumType> {
    EnumsAfter(table, ddl, {})
  }

  method ParseEnums(table: string, ddl: string) returns (out: seq<EnumType>)
    ensures out == Enums(table, ddl)
  {
    hide EnumsAfter, Locate, FirstCall, InList;
    out := [];
    var seen: map<string, bool> := map[];
    var idx := 0;
    assert ddl[0..] == ddl && seen.Keys == {};
    while idx < |ddl|
      invariant 0 <= idx <= |ddl|
      invariant Enums(table, ddl) == out + EnumsAfter(table, ddl[idx..], seen.Keys)
    {
      var p := NextCall(ddl, idx, CHECK);
      if p == None {
        NoMoreEnums(table, ddl[idx..], seen.Keys);
        return;
      }
      var body := ddl[p.value.open + 1..p.value.end];
      EnumsRound(table, ddl, idx, p.value, seen.Keys);
      idx := p.value.end + 1;
      var col, labels, ok := ParseInList(body);
      if !ok {
        continue;
      }
      var key := ToLower(col);
      if key in seen {
        continue;
      }
      assert seen[key := true].Keys == seen.Keys + {key};
      seen := seen[key := true];
      Assoc(out, [Entry(table, col, labels)], EnumsAfter(table, ddl[idx..], seen.Keys));
      out := out + [EnumType(table, col, ToLower(table + "_" + col), labels)];
    }
    NoMoreEnums(table, ddl[idx..], seen.Keys) by {
      FindInEmpty(ddl[idx..]);
    }
  }

  lemma FindInEmpty(s: string)
    requires s == ""
    ensures Locate(s, CHECK) == None
  {
  }

  lemma NoMoreEnums(table: string, t: string, seen: set<string>)
    requires Locate(t, CHECK) == None
    ensures EnumsAfter(table, t, seen) == []
  {
  }

  lemma EnumsRound(table: string, ddl: string, idx: nat, p: Place, seen: set<string>)
    requires FoundAfter(ddl, idx, CHECK, p)
    ensures var list := InList(ddl[p.open + 1..p.end]);
            EnumsAfter(table, ddl[idx..], seen) ==
            if list.None? || ToLower(list.value.0) in seen then EnumsAfter(table, ddl[p.end + 1..], seen)
            else [Entry(table, list.value.0, list.value.1)] +
                 EnumsAfter(table, ddl[p.end + 1..], seen + {ToLower(list.value.0)})
  {
    hide Locate, FirstCall, InList;
    CallInSuffix(ddl, idx, CHECK, p);
    var c := Call(ddl[idx..p.start], ddl[p.start..p.open], ddl[p.open + 1..p.end], ddl[p.end + 1..]);
    EnumsStep(table, ddl[idx..], c, seen);
  }

  lemma EnumsStep(table: string, t: string, c: Call, seen: set<string>)
    requires FirstCall(t, CHECK) == Some(c)
    ensures EnumsAfter(table, t, seen) ==
            match InList(c.body)
            case None => EnumsAfter(table, c.post, seen)
            case Some(list) =>
              if ToLower(list.0) in seen then EnumsAfter(table, c.post, seen)
              else [Entry(table, list.0, list.1)] + EnumsAfter(table, c.post, seen + {ToLower(list.0)})
  {
  }

  // ---------------------------------------------------- printed CREATE statements

  /** A CHECK body: a printed membership test, or any balanced text. */
  datatype Body = Membership(test: Test) | Other(text: string)

  function PrintBody(b: Body): string {
    match b
    case Membership(t) => PrintTest(t)
    case Other(text) => text
  }

  predicate SoundBody(b: Body) {
    match b
    case Membership(t) => SoundTest(t) && Balanced(PrintColumn(t.col))
    case Other(text) => Balanced(text)
  }

  /** Text and CHECK clauses in turn. */
  datatype Ddl = End(text: string) | Check(text: string, head: string, body: Body, rest: Ddl)

  function Print(d: Ddl): string {
    match d
    case End(text) => text
    case Check(text, head, body, rest) => Call(text, head, PrintBody(body), Print(rest)).Text()
  }

  /** Every clause is the first that can be read, and closed; after the last comes text without one or
      text whose first CHECK ( is never closed. */
  predicate Sound(d: Ddl) {
    match d
    case End(text) => FirstCall(text, CHECK) == None
    case Check(text, head, body, rest) => Leads(text, head, CHECK) && SoundBody(body) && Sound(rest)
  }

  /** The statement that a text is. */
  function Read(s: string): Ddl
    decreases |s|
  {
    match FirstCall(s, CHECK)
    case None => End(s)
    case Some(c) =>
      FirstCallText(s, CHECK);
      Check(c.pre, c.head, Other(c.body), Read(c.post))
  }

  /** Every text is a sound statement. */
  lemma {:induction false} ReadIsSound(s: string)
    ensures Sound(Read(s)) && Print(Read(s)) == s
    decreases |s|
  {
    hide FirstCall, Balanced, Leads;
    if FirstCall(s, CHECK).Some? {
      CheckIsKeyword();
      FirstCallLeads(s, CHECK);
      ReadIsSound(FirstCall(s, CHECK).value.post);
    }
  }

  type Clause = (string, seq<string>)

  /** What a body says: of a printed test its column and labels, of other text what is read in it. */
  function ClauseOf(b: Body): Option<Clause> {
    match b
    case Membership(t) => Some((t.col.name, Texts(t.labels)))
    case Other(text) => InList(text)
  }

  /** The columns and labels of the bodies that say something, in order. */
  function Clauses(d: Ddl): seq<Clause> {
    match d
    case End(_) => []
    case Check(_, _, body, rest) => (if ClauseOf(body).Some? then [ClauseOf(body).value] else []) + Clauses(rest)
  }

  function Key(c: Clause): string {
    ToLower(c.0)
  }

  /** The first clause of each lower-cased column. */
  function Firsts(table: string, cs: seq<Clause>, seen: set<string>): seq<EnumType> {
    if cs == [] then []
    else if Key(cs[0]) in seen then Firsts(table, cs[1..], seen)
    else [Entry(table, cs[0].0, cs[0].1)] + Firsts(table, cs[1..], seen + {Key(cs[0])})
  }

  lemma TestIsBalanced(t: Test)
    requires SoundTest(t) && Balanced(PrintColumn(t.col))
    ensures Balanced(PrintTest(t))
  {
    InIsKeyword();
    BlankIsPlain(t.lead);
    BlankIsPlain(t.gap);
    InWordIsPlain(t.word);
    assert Plain(t.trail);
    PlainIsArgument(t.trail);
    ListIsBalanced(t.labels);
    var list := Join(PrintLabels(t.labels), ",");
    Parenthesized(list);
    BalancedPair("(" + list + ")", t.trail);
    Assoc("(", list, ")");
    Assoc("(", list + ")", t.trail);
    Assoc(list, ")", t.trail);
    BalancedPair(t.word, "(" + (list + (")" + t.trail)));
    BalancedPair(t.gap, t.word + ("(" + (list + (")" + t.trail))));
    BalancedPair(PrintColumn(t.col), t.gap + (t.word + ("(" + (list + (")" + t.trail)))));
    BalancedPair(t.lead, PrintColumn(t.col) + (t.gap + (t.word + ("(" + (list + (")" + t.trail))))));
  }

  lemma {:induction false} BlankIsPlain(s: string)
    requires AllBlank(s)
    ensures Argument(s)
  {
    forall i | 0 <= i < |s|
      ensures IsBlank(s[i])
    {
      AllBlankAt(s, i);
    }
    PlainIsArgument(s);
  }

  lemma InWordIsPlain(word: string)
    requires CallHead(word, IN)
    ensures Argument(word)
  {
    InIsKeyword();
    forall i | 0 <= i < |word|
      ensures word[i] != '\'' && word[i] != '(' && word[i] != ')' && word[i] != ','
    {
      if i < |IN| {
        SpelledLetters(word, IN, i);
      } else {
        AllBlankAt(word[|IN|..], i - |IN|);
      }
    }
    PlainIsArgument(word);
  }

  lemma BareIsBalanced(c: Column)
    requires SoundColumn(c) && c.Bare?
    ensures Balanced(PrintColumn(c))
  {
    assert forall i :: 0 <= i < |c.name| ==> IsFoldedWord(c.name[i]);
    assert Plain(c.name);
    PlainIsArgument(c.name);
  }

  lemma BodyParses(b: Body)
    requires SoundBody(b)
    ensures Balanced(PrintBody(b)) && InList(PrintBody(b)) == ClauseOf(b)
  {
    hide InList, Balanced;
    match b
    case Membership(t) =>
      TestIsBalanced(t);
      InListRoundTrip(t);
    case Other(_) =>
  }

  /** A statement yields the first clause of each lower-cased column, in order; of printed tests with
      exact labels, even when labels hold quotes, commas, parentheses or CHECK (. */
  lemma {:induction false} EnumsRoundTrip(table: string, d: Ddl, seen: set<string>)
    requires Sound(d)
    ensures EnumsAfter(table, Print(d), seen) == Firsts(table, Clauses(d), seen)
  {
    match d
    case End(text) => hide FirstCall; NoEnums(table, text, seen);
    case Check(text, head, body, rest) =>
      hide EnumsAfter, PrintBody, InList, SoundBody, ClauseOf, Leads;
      var c := Call(text, head, PrintBody(body), Print(rest));
      CheckIsKeyword();
      BodyParses(body);
      LeadingCall(c, CHECK);
      EnumsStep(table, Print(d), c, seen);
      EnumsRoundTrip(table, rest, seen);
      if ClauseOf(body).Some? {
        var clause := ClauseOf(body).value;
        EnumsRoundTrip(table, rest, seen + {Key(clause)});
        assert Clauses(d)[1..] == Clauses(rest) && Clauses(d)[0] == clause;
      } else {
        assert Clauses(d) == [] + Clauses(rest) == Clauses(rest);
      }
  }

  function ColumnKey(e: EnumType): string {
    ToLower(e.column)
  }

  predicate DistinctColumns(r: seq<EnumType>) {
    forall i, j :: 0 <= i < j < |r| ==> ColumnKey(r[i]) != ColumnKey(r[j])
  }

  /** No column is reported twice, whatever its case. */
  lemma {:induction false} FirstsAreDistinct(table: string, cs: seq<Clause>, seen: set<string>)
    ensures forall e :: e in Firsts(table, cs, seen) ==> ColumnKey(e) !in seen
    ensures DistinctColumns(Firsts(table, cs, seen))
  {
    hide ColumnKey;
    if cs != [] {
      var r := Firsts(table, cs, seen);
      if Key(cs[0]) in seen {
        FirstsAreDistinct(table, cs[1..], seen);
        assert r == Firsts(table, cs[1..], seen);
      } else {
        var first := Entry(table, cs[0].0, cs[0].1);
        var rest := Firsts(table, cs[1..], seen + {Key(cs[0])});
        FirstsAreDistinct(table, cs[1..], seen + {Key(cs[0])});
        EntryKey(table, cs[0]);
        assert r == [first] + rest;
        forall i, j | 0 <= i < j < |r|
          ensures ColumnKey(r[i]) != ColumnKey(r[j])
        {
          assert r[j] == rest[j - 1] && r[j] in rest;
          if i > 0 {
            assert r[i] == rest[i - 1];
          }
        }
      }
    }
  }

  lemma EntryKey(table: string, c: Clause)
    ensures ColumnKey(Entry(table, c.0, c.1)) == Key(c)
  {
  }

  /** A clause is the first of its column. */
  predicate IsFirst(cs: seq<Clause>, seen: set<string>, i: nat)
    requires i < |cs|
  {
    Key(cs[i]) !in seen && forall j :: 0 <= j < i ==> Key(cs[j]) != Key(cs[i])
  }

  /** Exactly the first clauses are reported. */
  lemma {:induction false} FirstsAreFirst(table: string, cs: seq<Clause>, seen: set<string>, e: EnumType)
    ensures e in Firsts(table, cs, seen) <==>
            exists i :: 0 <= i < |cs| && IsFirst(cs, seen, i) && e == Entry(table, cs[i].0, cs[i].1)
  {
    if cs != [] {
      var skip := Key(cs[0]) in seen;
      var rest, seen' := cs[1..], if skip then seen else seen + {Key(cs[0])};
      FirstsAreFirst(table, rest, seen', e);
      forall i | 0 < i < |cs|
        ensures IsFirst(cs, seen, i) <==> IsFirst(rest, seen', i - 1)
      {
        assert forall j :: 0 < j < i ==> cs[j] == rest[j - 1];
        assert forall j :: 0 <= j < i - 1 ==> rest[j] == cs[j + 1];
      }
      if e in Firsts(table, rest, seen') {
        var k :| 0 <= k < |rest| && IsFirst(rest, seen', k) && e == Entry(table, rest[k].0, rest[k].1);
        assert IsFirst(cs, seen, k + 1) && cs[k + 1] == rest[k];
      }
      if exists i :: 0 <= i < |cs| && IsFirst(cs, seen, i) && e == Entry(table, cs[i].0, cs[i].1) {
        var i :| 0 <= i < |cs| && IsFirst(cs, seen, i) && e == Entry(table, cs[i].0, cs[i].1);
        if i > 0 {
          assert rest[i - 1] == cs[i];
        }
      }
      if !skip {
        assert IsFirst(cs, seen, 0);
      }
    }
  }

  /** Every reported enum has at least one label. */
  lemma {:induction false} EnumsHaveLabels(table: string, ddl: string, seen: set<string>, e: EnumType)
    requires e in EnumsAfter(table, ddl, seen)
    ensures e.labels != []
    decreases |ddl|
  {
    hide InList, EnumsAfter, Locate;
    if FirstCall(ddl, CHECK) == None {
      NoEnums(table, ddl, seen);
    } else {
      var c := FirstCall(ddl, CHECK).value;
      FirstCallText(ddl, CHECK);
      EnumsStep(table, ddl, c, seen);
      InListHasLabels(c.body);
      assert |c.post| < |ddl|;
      if e in EnumsAfter(table, c.post, seen) {
        EnumsHaveLabels(table, c.post, seen, e);
      } else if e.labels == [] {
        EnumsHaveLabels(table, c.post, seen + {ToLower(InList(c.body).value.0)}, e);
      }
    }
  }

  lemma NoEnums(table: string, ddl: string, seen: set<string>)
    requires FirstCall(ddl, CHECK) == None
    ensures EnumsAfter(table, ddl, seen) == []
  {
  }

  lemma InListHasLabels(body: string)
    ensures InList(body).Some? ==> InList(body).value.1 != []
  {
  }

  // ------------------------------------------------------------ what is reported

  /** An enum carries its table and column as they are written, its labels, and a type name of both in lower
      case with an underscore between. */
  lemma EntryMeans(table: string, column: string, labels: seq<string>)
    ensures var e := Entry(table, column, labels);
            && e.table == table && e.column == column && e.labels == labels
            && e.typname == ToLower(table) + "_" + ToLower(column)
  {
    var e := Entry(table, column, labels);
    forall i | 0 <= i < |e.typname|
      ensures e.typname[i] == (ToLower(table) + "_" + ToLower(column))[i]
    {
    }
  }

  /** A name in capitals comes back in small letters. */
  lemma EntryOfCapitals()
    ensures Entry("Tasks", "STATUS", ["open"]).typname == "tasks_status"
  {
    EntryMeans("Tasks", "STATUS", ["open"]);
    assert ToLower("Tasks") == "tasks" && ToLower("STATUS") == "status";
  }
}
