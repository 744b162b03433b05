/** `_build_question_query`: the parameterised SELECT behind drill creation.
    The number of '?' marks in a string s is `multiset(s)['?']`. */
module DrillQuery {
  import opened Text

  /** `QUESTION_SELECT_FIELDS`. */
  const SelectFields: seq<string> :=
    ["id", "question_text", "answer_choices", "correct_answer", "difficulty_level", "question_type", "passage_text"]

  function Marks(s: string): nat {
    multiset(s)['?']
  }

  lemma MarksAppend(a: string, b: string)
    ensures Marks(a + b) == Marks(a) + Marks(b)
    ensures b == "" ==> a + b == a
  {
    assert multiset(a + b) == multiset(a) + multiset(b);
  }

  /** A string with no '?' anywhere. */
  predicate NoMark(s: string) {
    forall i :: 0 <= i < |s| ==> s[i] != '?'
  }

  lemma NoMarkMeansZero(s: string)
    requires NoMark(s)
    ensures Marks(s) == 0
  {
    assert '?' !in s;
  }

  /** Fixed text without marks around p adds no marks. */
  lemma Enclosed(open: string, p: string, close: string)
    requires NoMark(open) && NoMark(close)
    ensures Marks(open + p + close) == Marks(p)
  {
    NoMarkMeansZero(open);
    NoMarkMeansZero(close);
    MarksAppend(open, p);
    MarksAppend(open + p, close);
  }

  /** `','.join('?' * n)`: n question marks separated by commas. */
  function Placeholders(n: nat): string {
    if n == 0 then "" else if n == 1 then "?" else "?," + Placeholders(n - 1)
  }

  /** The recursive definition is the join of n single marks. */
  lemma {:induction false} PlaceholdersJoin(n: nat)
    ensures Placeholders(n) == Join(seq(n, _ => "?"), ",")
  {
    if n > 1 {
      PlaceholdersJoin(n - 1);
      assert seq(n, _ => "?")[1..] == seq(n - 1, _ => "?");
    }
  }

  /** The exclusion list has exactly one '?' per excluded id. */
  lemma {:induction false} PlaceholderMarks(n: nat)
    ensures Marks(Placeholders(n)) == n
  {
    if n > 1 {
      PlaceholderMarks(n - 1);
      MarksAppend("?,", Placeholders(n - 1));
    }
  }

  const ExclusionOpen: string := " AND id NOT IN ("
  const ExclusionClose: string := ")"

  lemma ExclusionTextHasNoMarks()
    ensures NoMark(ExclusionOpen) && NoMark(ExclusionClose)
  {
  }

  /** The id exclusion appended to the filters: present only when there are
      ids to exclude, and then with exactly one mark per id. */
  function Exclusion(excludeIds: seq<string>): (clause: string)
    ensures Marks(clause) == |excludeIds|
    ensures clause == "" <==> |excludeIds| == 0
  {
    if |excludeIds| == 0 then ""
    else
      var p := Placeholders(|excludeIds|);
      PlaceholderMarks(|excludeIds|);
      ExclusionTextHasNoMarks();
      Enclosed(ExclusionOpen, p, ExclusionClose);
      ExclusionOpen + p + ExclusionClose
  }

  /** The where filters joined by AND, followed by the id exclusion. */
  function WhereClause(filters: seq<string>, excludeIds: seq<string>): (clause: string)
    ensures Marks(clause) == Marks(Join(filters, " AND ")) + |excludeIds|
    ensures |excludeIds| == 0 ==> clause == Join(filters, " AND ")
  {
    var joined := Join(filters, " AND ");
    var exclusion := Exclusion(excludeIds);
    MarksAppend(joined, exclusion);
    joined + exclusion
  }

  /** The fixed text of the query: the fields it selects and the SQL before
      the fields, before the where clause and around the LIMIT's mark. */
  datatype Layout = Layout(head: string, fields: seq<string>, from: string, order: string, end: string) {
    /** None of the fixed text binds a parameter. */
    predicate Valid() {
      NoMark(head) && NoMark(from) && NoMark(order) && NoMark(end) &&
      forall k :: 0 <= k < |fields| ==> NoMark(fields[k])
    }
  }

  /** The text `_build_question_query` writes around its where clause. */
  const HeadText: string := "\n        SELECT "
  const FromText: string := "\n        FROM questions\n        WHERE "
  const OrderText: string := "\n        ORDER BY RANDOM()\n        LIMIT "
  const EndText: string := "\n    "
  const SourceLayout: Layout := Layout(HeadText, SelectFields, FromText, OrderText, EndText)

  lemma HeadHasNoMarks() ensures NoMark(HeadText) && NoMark(EndText) {}
  lemma FromHasNoMarks() ensures NoMark(FromText) {}
  lemma OrderHasNoMarks() ensures NoMark(OrderText) {}
  lemma FieldsHaveNoMarks() ensures forall k :: 0 <= k < |SelectFields| ==> NoMark(SelectFields[k]) {}

  lemma SourceLayoutValid()
    ensures SourceLayout.Valid()
  {
    HeadHasNoMarks();
    FromHasNoMarks();
    OrderHasNoMarks();
    FieldsHaveNoMarks();
  }

  /** Joining pieces without marks with a separator without marks gives a
      string without marks. */
  lemma {:induction false} JoinNoMarks(parts: seq<string>, sep: string)
    requires forall k :: 0 <= k < |parts| ==> NoMark(parts[k])
    requires NoMark(sep)
    ensures NoMark(Join(parts, sep))
  {
    if |parts| > 1 {
      JoinNoMarks(parts[1..], sep);
    }
  }

  /** Text without marks, then the clause, then the suffix: the marks of the
      last two. */
  lemma Framed(prefix: string, clause: string, suffix: string)
    requires NoMark(prefix)
    ensures Marks(prefix + clause + suffix) == Marks(clause) + Marks(suffix)
  {
    NoMarkMeansZero(prefix);
    MarksAppend(prefix, clause);
    MarksAppend(prefix + clause, suffix);
  }

  lemma NoMarkAppend(a: string, b: string)
    requires NoMark(a) && NoMark(b)
    ensures NoMark(a + b)
  {
  }

  /** The query around a where clause: its only marks are the clause's and
      the LIMIT's. */
  function Render(layout: Layout, clause: string): (query: string)
    requires layout.Valid()
    ensures Marks(query) == Marks(clause) + 1
  {
    var fields := Join(layout.fields, ", ");
    JoinNoMarks(layout.fields, ", ");
    NoMarkAppend(layout.head, fields);
    NoMarkAppend(layout.head + fields, layout.from);
    var prefix := layout.head + fields + layout.from;
    var suffix := layout.order + "?" + layout.end;
    MarkAfter(layout.order);
    NoMarkMeansZero(layout.end);
    MarksAppend(layout.order + "?", layout.end);
    Framed(prefix, clause, suffix);
    prefix + clause + suffix
  }

  /** `_build_question_query`: the query has one mark per mark in the
      filters, one per excluded id and one for the LIMIT. */
  function BuildQuestionQuery(layout: Layout, filters: seq<string>, excludeIds: seq<string>): (query: string)
    requires layout.Valid()
    ensures Marks(query) == Marks(Join(filters, " AND ")) + |excludeIds| + 1
  {
    Render(layout, WhereClause(filters, excludeIds))
  }

  /** Text without marks followed by one mark. */
  lemma MarkAfter(prefix: string)
    requires NoMark(prefix)
    ensures Marks(prefix + "?") == 1
  {
    NoMarkMeansZero(prefix);
    MarksAppend(prefix, "?");
  }

  /** The fallback filter of `_fetch_questions`, `domain = ?`. */
  const DomainColumn: string := "domain = "
  const DomainFilter: string := DomainColumn + "?"

  lemma DomainFilterMarks()
    ensures Marks(DomainFilter) == 1
  {
    assert NoMark(DomainColumn);
    MarkAfter(DomainColumn);
  }

  /** The fallback query of `_fetch_questions` binds 'lsat', each excluded id
      and the remaining count: as many parameters as the query has marks. */
  lemma FallbackQueryParameters(layout: Layout, excludeIds: seq<string>)
    requires layout.Valid()
    ensures Marks(BuildQuestionQuery(layout, [DomainFilter], excludeIds)) == |["lsat"] + excludeIds + ["remaining"]|
  {
    DomainFilterMarks();
    assert Join([DomainFilter], " AND ") == DomainFilter;
  }
}
