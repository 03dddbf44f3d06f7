/** The helpers of `src/components/SchemaViewer.tsx`: the table count shown beside a
    schema (`sql.match(/CREATE\s+TABLE/gi)`), the name of the exported file
    (`name.replace(/\s+/g, '_') + '_schema.sql'`) and the expand/collapse flag. */
module SchemaViewer {
  import opened Wrappers
  import opened Strings
  import opened Seqs

  /** The length of the run of whitespace that starts at `i`. */
  function WhitespaceRun(s: string, i: nat): (n: nat)
    requires i <= |s|
    ensures i + n <= |s|
    ensures forall k :: i <= k < i + n ==> IsWhitespace(s[k])
    ensures i + n == |s| || !IsWhitespace(s[i + n])
    decreases |s| - i
  {
    if i < |s| && IsWhitespace(s[i]) then 1 + WhitespaceRun(s, i + 1) else 0
  }

  /** `w` is one match of the lower-cased pattern: "create", at least one whitespace
      character, "table". */
  predicate IsTableMatch(w: string) {
    |w| >= 12 && w[..6] == "create" && w[|w| - 5..] == "table" && AllWhitespace(w[6..|w| - 5])
  }

  /** The length of the match starting at `i` of the lower-cased text, if one starts
      there. The greedy whitespace run never has to give anything back, because "t" is
      not whitespace, so the match, when there is one, is the only one at `i`. */
  function MatchLength(s: string, i: nat): (r: Option<nat>)
    requires i <= |s|
    ensures r.Some? ==> i + r.value <= |s| && IsTableMatch(s[i..i + r.value])
    ensures forall j :: i <= j <= |s| && IsTableMatch(s[i..j]) ==> r == Some(j - i)
  {
    if OccursAt(s, "create", i) then
      var n := WhitespaceRun(s, i + 6);
      if n > 0 && OccursAt(s, "table", i + 6 + n) then
        var r := Some(11 + n);
        MatchLengthShape(s, i, n);
        r
      else
        MatchLengthShape(s, i, n);
        None
    else
      None
  }

  lemma MatchLengthShape(s: string, i: nat, n: nat)
    requires OccursAt(s, "create", i) && i + 6 <= |s| && n == WhitespaceRun(s, i + 6)
    ensures n > 0 && OccursAt(s, "table", i + 6 + n) ==> IsTableMatch(s[i..i + 11 + n])
    ensures forall j :: i <= j <= |s| && IsTableMatch(s[i..j]) ==> j == i + 11 + n && OccursAt(s, "table", i + 6 + n)
  {
    if n > 0 && OccursAt(s, "table", i + 6 + n) {
      var w := s[i..i + 11 + n];
      assert w[..6] == s[i..i + 6];
      assert w[|w| - 5..] == s[i + 6 + n..i + 11 + n];
      var mid := w[6..|w| - 5];
      forall k | 0 <= k < |mid| ensures IsWhitespace(mid[k]) {
        assert mid[k] == s[i + 6 + k];
      }
    }
    forall j | i <= j <= |s| && IsTableMatch(s[i..j])
      ensures j == i + 11 + n && OccursAt(s, "table", i + 6 + n)
    {
      MatchWindowIsRun(s, i, n, j);
    }
  }

  /** A matching window at `i` ends its whitespace exactly where the run does. */
  lemma MatchWindowIsRun(s: string, i: nat, n: nat, j: nat)
    requires i + 6 <= |s| && n == WhitespaceRun(s, i + 6)
    requires i <= j <= |s| && IsTableMatch(s[i..j])
    ensures j == i + 11 + n && OccursAt(s, "table", i + 6 + n)
  {
    var w := s[i..j];
    var mid := w[6..|w| - 5];
    forall k | i + 6 <= k < j - 5 ensures IsWhitespace(s[k]) {
      assert s[k] == mid[k - i - 6];
      assert IsWhitespace(mid[k - i - 6]);
    }
    assert s[j - 5] == w[|w| - 5..][0];
    assert i + 6 + n == j - 5;
    assert s[i + 6 + n..i + 11 + n] == w[|w| - 5..];
  }

  /** The matches of a global regular expression: scan from `i`, take the match at the
      first position that has one, and continue after it. */
  function CountFrom(s: string, i: nat): (c: nat)
    requires i <= |s|
    ensures 12 * c <= |s| - i
    decreases |s| - i
  {
    if i == |s| then 0
    else match MatchLength(s, i)
      case Some(n) => 1 + CountFrom(s, i + n)
      case None => CountFrom(s, i + 1)
  }

  /** `countTables`: the number of non-overlapping matches of `CREATE\s+TABLE`, in any
      letter case; no match at all gives 0. */
  function CountTables(sql: string): (c: nat)
    ensures 12 * c <= |sql|
  {
    CountFrom(ToLower(sql), 0)
  }

  /** Every counted match begins with "create". */
  lemma {:induction false} NoCreateFrom(s: string, i: nat)
    requires i <= |s|
    requires forall k :: i <= k <= |s| ==> !OccursAt(s, "create", k)
    ensures CountFrom(s, i) == 0
    decreases |s| - i
  {
    if i < |s| {
      NoCreateFrom(s, i + 1);
    }
  }

  /** Text without "create", in any letter case, has no tables. */
  lemma NoCreateNoTables(sql: string)
    requires !Contains(ToLower(sql), "create")
    ensures CountTables(sql) == 0
  {
    NoCreateFrom(ToLower(sql), 0);
  }

  /** The count ignores the letter case of the text. */
  lemma CountTablesIgnoresCase(sql: string)
    ensures CountTables(ToUpper(sql)) == CountTables(sql)
  {
    LowerOfUpper(sql);
  }

  /** "CREATETABLE", without whitespace between the words, is not a match. */
  lemma GluedWordsNotCounted(sql: string)
    requires sql == "CREATETABLE t"
    ensures CountTables(sql) == 0
  {
    var lower := ToLower(sql);
    assert lower == "createtable t";
    forall k | 1 <= k <= |lower| ensures !OccursAt(lower, "create", k) {
      if k + 6 <= |lower| {
        assert lower[k] != 'c';
        assert lower[k..k + 6][0] != 'c';
      }
    }
    NoCreateFrom(lower, 1);
    assert MatchLength(lower, 0).None? by {
      assert WhitespaceRun(lower, 6) == 0;
    }
  }

  /** A newline and a tab between the words still make one match. */
  lemma LineBreakCounted(sql: string)
    requires sql == "create\n\ttable t"
    ensures CountTables(sql) == 1
  {
    var lower := ToLower(sql);
    assert lower == sql;
    assert WhitespaceRun(lower, 8) == 0;
    assert WhitespaceRun(lower, 6) == 2;
    assert OccursAt(lower, "table", 8);
    assert MatchLength(lower, 0) == Some(13);
    assert CountFrom(lower, 15) == 0;
    assert CountFrom(lower, 14) == 0;
    assert CountFrom(lower, 13) == 0;
  }

  /** What the card description appends: the count, only when it is positive. */
  function TablesNote(sql: string): (note: Option<nat>)
    ensures note.Some? ==> note.value == CountTables(sql) && note.value > 0
    ensures note.None? ==> CountTables(sql) == 0
  {
    var count := CountTables(sql);
    if count > 0 then Some(count) else None
  }

  /** A schema with a counted table mentions "create" somewhere. */
  lemma NoteNeedsCreate(sql: string)
    ensures TablesNote(sql).Some? ==> Contains(ToLower(sql), "create")
  {
    if !Contains(ToLower(sql), "create") {
      NoCreateNoTables(sql);
    }
  }

  /** Some window at or after `i` is a match of the lower-cased pattern. */
  predicate HasTableWindow(s: string, i: nat) {
    exists p, j :: i <= p <= j <= |s| && IsTableMatch(s[p..j])
  }

  /** A match anywhere at or after `i` is found by the scan from `i`: a position before
      it either has a match of its own or is skipped, and at the window itself the
      match cannot be missed. */
  lemma {:induction false} WindowCounted(s: string, i: nat, p: nat, j: nat)
    requires i <= p <= j <= |s| && IsTableMatch(s[p..j])
    ensures CountFrom(s, i) >= 1
    decreases p - i
  {
    if MatchLength(s, i).None? {
      WindowCounted(s, i + 1, p, j);
    }
  }

  /** Whatever the scan from `i` counts is a window at or after `i`. */
  lemma {:induction false} CountedIsWindow(s: string, i: nat)
    requires i <= |s| && CountFrom(s, i) >= 1
    ensures HasTableWindow(s, i)
    decreases |s| - i
  {
    match MatchLength(s, i)
    case Some(n) =>
      assert IsTableMatch(s[i..i + n]);
    case None =>
      CountedIsWindow(s, i + 1);
      var p, j :| i + 1 <= p <= j <= |s| && IsTableMatch(s[p..j]);
      assert IsTableMatch(s[p..j]);
  }

  /** Tables are counted exactly when the lower-cased SQL holds a `create\s+table`
      window; so the card shows a count exactly then. */
  lemma TablesCountedIff(sql: string)
    ensures CountTables(sql) > 0 <==> HasTableWindow(ToLower(sql), 0)
    ensures TablesNote(sql).Some? <==> HasTableWindow(ToLower(sql), 0)
  {
    var lower := ToLower(sql);
    if HasTableWindow(lower, 0) {
      var p, j :| 0 <= p <= j <= |lower| && IsTableMatch(lower[p..j]);
      WindowCounted(lower, 0, p, j);
    }
    if CountTables(sql) > 0 {
      CountedIsWindow(lower, 0);
    }
  }

  /** `s.replace(/\s+/g, '_')`: every maximal run of whitespace becomes one "_". */
  function ReplaceWhitespaceRuns(s: string): (r: string)
    ensures HasNoWhitespace(r)
    decreases |s|
  {
    if s == [] then []
    else if IsWhitespace(s[0]) then "_" + ReplaceWhitespaceRuns(s[WhitespaceRun(s, 0)..])
    else [s[0]] + ReplaceWhitespaceRuns(s[1..])
  }

  const FileSuffix := "_schema.sql"

  /** The exported file's name. */
  function DownloadFilename(name: string): (f: string)
    ensures HasNoWhitespace(f)
    ensures |f| >= |FileSuffix| && f[|f| - |FileSuffix|..] == FileSuffix
  {
    var r := ReplaceWhitespaceRuns(name) + FileSuffix;
    assert r[|r| - |FileSuffix|..] == FileSuffix;
    r
  }

  /** A name without whitespace is kept as it is. */
  lemma {:induction false} NoWhitespaceUnchanged(s: string)
    requires HasNoWhitespace(s)
    ensures ReplaceWhitespaceRuns(s) == s
  {
    if s != [] {
      NoWhitespaceUnchanged(s[1..]);
      assert [s[0]] + s[1..] == s;
    }
  }

  /** A run of whitespace in front of text that does not start with whitespace turns
      into a single "_". */
  lemma RunCollapses(run: string, rest: string)
    requires run != [] && AllWhitespace(run)
    requires rest == [] || !IsWhitespace(rest[0])
    ensures ReplaceWhitespaceRuns(run + rest) == "_" + ReplaceWhitespaceRuns(rest)
  {
    var s := run + rest;
    assert WhitespaceRun(s, 0) == |run| by {
      RunLength(s, 0, |run|);
    }
    assert s[|run|..] == rest;
  }

  lemma {:induction false} RunLength(s: string, i: nat, end: nat)
    requires i <= end <= |s|
    requires forall k :: i <= k < end ==> IsWhitespace(s[k])
    requires end == |s| || !IsWhitespace(s[end])
    ensures WhitespaceRun(s, i) == end - i
    decreases end - i
  {
    if i < end {
      RunLength(s, i + 1, end);
    }
  }

  predicate NotUnderscore(c: char) { c != '_' }

  predicate KeptChar(c: char) { !IsWhitespace(c) && c != '_' }

  /** Apart from the underscores, the name's characters survive in order: only
      whitespace is dropped. */
  lemma {:induction false} ReplacementKeepsText(s: string)
    ensures Filter(ReplaceWhitespaceRuns(s), NotUnderscore) == Filter(s, KeptChar)
    decreases |s|
  {
    if s != [] {
      var r := ReplaceWhitespaceRuns(s);
      if IsWhitespace(s[0]) {
        var n := WhitespaceRun(s, 0);
        ReplacementKeepsText(s[n..]);
        FilterAppend<char>("_", ReplaceWhitespaceRuns(s[n..]), NotUnderscore);
        assert s == s[..n] + s[n..];
        FilterAppend(s[..n], s[n..], KeptChar);
        NoneKept(s[..n]);
      } else {
        ReplacementKeepsText(s[1..]);
        FilterAppend([s[0]], ReplaceWhitespaceRuns(s[1..]), NotUnderscore);
        assert s == [s[0]] + s[1..];
        FilterAppend([s[0]], s[1..], KeptChar);
      }
    }
  }

  lemma {:induction false} NoneKept(s: string)
    requires AllWhitespace(s)
    ensures Filter(s, KeptChar) == []
  {
    if s != [] {
      NoneKept(s[1..]);
    }
  }

  /** The schema card's expand/collapse state. */
  class SchemaCard {
    var isExpanded: bool

    constructor ()
      ensures !isExpanded
    {
      isExpanded := false;
    }

    /** The expand button: `setIsExpanded(!isExpanded)`. */
    method Toggle()
      modifies this
      ensures isExpanded == !old(isExpanded)
    {
      isExpanded := !isExpanded;
    }
  }

  /** A new card starts collapsed; the first click expands it and the second collapses
      it again. */
  method ClickTwice() returns (afterFirst: bool, afterSecond: bool)
    ensures afterFirst && !afterSecond
  {
    var card := new SchemaCard();
    card.Toggle();
    afterFirst := card.isExpanded;
    card.Toggle();
    afterSecond := card.isExpanded;
  }

  /** Toggling twice restores whatever state the card was in. */
  method ToggleTwice(card: SchemaCard)
    modifies card
    ensures card.isExpanded == old(card.isExpanded)
  {
    card.Toggle();
    card.Toggle();
  }
}
