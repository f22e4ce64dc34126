/** The progress ledgers of src/context-manager.ts: the markdown entry
    written for a milestone or a technical decision, the append-only text
    the entries are added to, and the line-based parsers that read a ledger
    back. Ids and creation times of parsed records come from the caller
    (`generateId()` and `new Date()` in the source). */
module Ledger {
  import opened Wrappers
  import opened Text
  import opened Records

  // ---------------------------------------------------------------------
  // Appending to a ledger

  const MilestonesFile := "milestones.md"
  const DecisionsFile := "decisions.md"
  const MilestonesHeader := "# Project Milestones\n\n"
  const DecisionsHeader := "# Technical Decisions\n\n"

  /** The ledger text after an entry is added: the file's text, or the
      header when it cannot be read, then the entry on lines of its own. */
  function Appended(existing: Option<string>, header: string, entry: string): (r: string)
    ensures StartsWith(r, existing.GetOr(header))
    ensures EndsWith(r, "\n" + entry + "\n")
    ensures |r| == |existing.GetOr(header)| + |entry| + 2
  {
    var r := existing.GetOr(header) + "\n" + entry + "\n";
    assert r[|r| - |entry| - 2..] == "\n" + entry + "\n";
    r
  }

  /** The lines of a text that ends with a newline end with an empty one. */
  lemma LastLineAfterNewline(text: string)
    requires text != [] && text[|text| - 1] == '\n'
    ensures Lines(text)[|Lines(text)| - 1] == ""
  {
    var body := text[..|text| - 1];
    assert text == body + "\n" + "";
    LinesConcat(body, "");
  }

  /** The lines of a text with a block of lines appended. */
  lemma AppendedLines(existing: string, xs: seq<string>)
    requires xs != []
    requires forall i :: 0 <= i < |xs| ==> '\n' !in xs[i]
    ensures Lines(existing + "\n" + Join(xs, "\n") + "\n") == Lines(existing) + xs + [""]
  {
    var body := Join(xs, "\n");
    assert existing + "\n" + body + "\n" == existing + "\n" + (body + "\n" + "");
    LinesConcat(existing, body + "\n" + "");
    LinesConcat(body, "");
    LinesOfJoin(xs);
  }

  // ---------------------------------------------------------------------
  // Scanning lines with a lookahead

  /** The lines after index `i`, at most `n` of them: what a parser that
      looks `n` lines ahead sees. */
  function Window(lines: seq<string>, i: nat, n: nat): (w: seq<string>)
    requires i < |lines|
    ensures |w| <= n && i + 1 + |w| <= |lines|
    ensures forall k :: 0 <= k < |w| ==> w[k] == lines[i + 1 + k]
    ensures |w| == n || i + 1 + |w| == |lines|
  {
    lines[i + 1..if i + 1 + n <= |lines| then i + 1 + n else |lines|]
  }

  /** A pass over the lines from index `i` on, each line contributing what
      `step` makes of it and of the lines it sees. */
  function Scan<V>(lines: seq<string>, i: nat, n: nat, step: (string, seq<string>) -> seq<V>): seq<V>
    requires i <= |lines|
    decreases |lines| - i
  {
    if i == |lines| then [] else step(lines[i], Window(lines, i, n)) + Scan(lines, i + 1, n, step)
  }

  /** A sequence of results that unfolds the way a pass does is that pass. */
  lemma {:induction false} ScanUnique<V>(lines: seq<string>, i: nat, n: nat, step: (string, seq<string>) -> seq<V>, f: nat -> seq<V>)
    requires i <= |lines| && f(|lines|) == []
    requires forall j :: i <= j < |lines| ==> f(j) == step(lines[j], Window(lines, j, n)) + f(j + 1)
    ensures f(i) == Scan(lines, i, n, step)
    decreases |lines| - i
  {
    if i < |lines| {
      ScanUnique(lines, i + 1, n, step, f);
    }
  }

  /** A line that contributes nothing whatever follows it. */
  ghost predicate Quiet<V>(step: (string, seq<string>) -> seq<V>, line: string) {
    forall w :: step(line, w) == []
  }

  /** Once the pass is past `a`, the lines of `a` do not matter. */
  lemma {:induction false} ScanShift<V>(a: seq<string>, b: seq<string>, k: nat, n: nat, step: (string, seq<string>) -> seq<V>)
    requires |a| <= k <= |a| + |b|
    ensures Scan(a + b, k, n, step) == Scan(b, k - |a|, n, step)
    decreases |a| + |b| - k
  {
    if k < |a| + |b| {
      ScanShift(a, b, k + 1, n, step);
      assert (a + b)[k] == b[k - |a|];
      assert Window(a + b, k, n) == Window(b, k - |a|, n);
    }
  }

  /** When the last `n` lines of `a` are quiet, no line of `a` looks into
      `b`, and the pass over `a + b` is the pass over `a` followed by the
      pass over `b`. */
  lemma {:induction false} ScanSplit<V>(a: seq<string>, b: seq<string>, k: nat, n: nat, step: (string, seq<string>) -> seq<V>)
    requires k <= |a|
    requires forall j :: 0 <= j < |a| && |a| <= j + n ==> Quiet(step, a[j])
    ensures Scan(a + b, k, n, step) == Scan(a, k, n, step) + Scan(b, 0, n, step)
    decreases |a| - k
  {
    if k == |a| {
      ScanShift(a, b, k, n, step);
    } else {
      ScanSplit(a, b, k + 1, n, step);
      assert (a + b)[k] == a[k];
      if k + n < |a| {
        assert Window(a + b, k, n) == Window(a, k, n);
      } else {
        assert Quiet(step, a[k]);
        assert step(a[k], Window(a + b, k, n)) == [] == step(a[k], Window(a, k, n));
      }
      var x, y := Scan(a, k + 1, n, step), Scan(b, 0, n, step);
      assert step(a[k], Window(a, k, n)) + (x + y) == (step(a[k], Window(a, k, n)) + x) + y;
    }
  }

  /** A pass over quiet lines contributes nothing. */
  lemma {:induction false} ScanQuiet<V>(lines: seq<string>, i: nat, n: nat, step: (string, seq<string>) -> seq<V>)
    requires i <= |lines|
    requires forall j :: i <= j < |lines| ==> Quiet(step, lines[j])
    ensures Scan(lines, i, n, step) == []
    decreases |lines| - i
  {
    if i < |lines| {
      ScanQuiet(lines, i + 1, n, step);
      assert Quiet(step, lines[i]);
    }
  }

  /** Appending a block of lines to a text whose last `n` lines are quiet
      appends the block's contribution to the text's. */
  lemma ScanAppended<V>(prior: string, xs: seq<string>, n: nat, step: (string, seq<string>) -> seq<V>)
    requires xs != [] && forall i :: 0 <= i < |xs| ==> '\n' !in xs[i]
    requires var before := Lines(prior);
      forall j :: 0 <= j < |before| && |before| <= j + n ==> Quiet(step, before[j])
    ensures Scan(Lines(prior + "\n" + Join(xs, "\n") + "\n"), 0, n, step)
         == Scan(Lines(prior), 0, n, step) + Scan(xs + [""], 0, n, step)
  {
    AppendedLines(prior, xs);
    assert Lines(prior) + xs + [""] == Lines(prior) + (xs + [""]);
    ScanSplit(Lines(prior), xs + [""], 0, n, step);
  }

  // ---------------------------------------------------------------------
  // Rendering a milestone: generateMilestoneMarkdown

  const CompletedIcon := "\U{2705}"
  const InProgressIcon := "\U{1F504}"
  const PlannedIcon := "\U{23F3}"

  function StatusIcon(s: MilestoneStatus): (icon: string)
    ensures |icon| == 1 && icon[0] != ' ' && icon[0] != '\n' && icon[0] != 'M'
  {
    match s
    case Completed => CompletedIcon
    case InProgress => InProgressIcon
    case Planned => PlannedIcon
  }

  function MilestoneStatusText(s: MilestoneStatus): string {
    match s
    case Planned => "planned"
    case InProgress => "in-progress"
    case Completed => "completed"
  }

  /** The four lines of a milestone entry. */
  function MilestoneLines(m: Milestone): seq<string> {
    [ "### " + StatusIcon(m.status) + " " + m.title,
      "**Status:** " + MilestoneStatusText(m.status) + "  ",
      "**Created:** " + m.createdAt.day + "  ",
      "**Description:** " + m.description ]
  }

  /** `generateMilestoneMarkdown(milestone)`: the four-line template. */
  function MilestoneMarkdown(m: Milestone): string {
    Join(MilestoneLines(m), "\n")
  }

  // ---------------------------------------------------------------------
  // Reading milestones back: parseMilestonesFromMarkdown

  /** A line the milestone parser takes for a heading. */
  predicate IsMilestoneHeading(line: string) {
    StartsWith(line, "### ") && Contains(line, "Milestone")
  }

  /** The title read from a heading: its first "### " and its first
      " Milestone" removed; the status icon stays. */
  function ParsedMilestoneTitle(line: string): string {
    ReplaceFirst(ReplaceFirst(line, "### ", ""), " Milestone", "")
  }

  function ParsedMilestoneStatus(line: string): MilestoneStatus {
    if Contains(line, CompletedIcon) then Completed
    else if Contains(line, InProgressIcon) then InProgress
    else Planned
  }

  /** `lines[i + k] || ''`: past the end the value is `undefined`, which
      reads as "". */
  function LineAfter(lines: seq<string>, i: nat, k: nat): (r: string)
    ensures i + k < |lines| ==> r == lines[i + k]
    ensures i + k >= |lines| ==> r == ""
  {
    if i + k < |lines| then lines[i + k] else ""
  }

  /** The milestone pushed for the heading at index `i`. */
  function MilestoneAt(lines: seq<string>, i: nat, newId: nat -> string, now: Time): Milestone
    requires i < |lines|
  {
    Milestone(newId(i), ParsedMilestoneTitle(lines[i]), LineAfter(lines, i, 1),
              ParsedMilestoneStatus(lines[i]), now, None)
  }

  /** The milestones the parser pushes for the lines from index `i` on. */
  function MilestonesFrom(lines: seq<string>, i: nat, newId: nat -> string, now: Time): (r: seq<Milestone>)
    requires i <= |lines|
    ensures |r| <= |lines| - i
    ensures forall k :: 0 <= k < |r| ==> r[k].createdAt == now && r[k].completedAt.None?
    decreases |lines| - i
  {
    if i == |lines| then []
    else
      var rest := MilestonesFrom(lines, i + 1, newId, now);
      if IsMilestoneHeading(lines[i]) then [MilestoneAt(lines, i, newId, now)] + rest else rest
  }

  /** `parseMilestonesFromMarkdown(content)`: one pass over the lines,
      pushing a milestone for every heading. */
  method ParseMilestonesFromMarkdown(content: string, newId: nat -> string, now: Time)
    returns (milestones: seq<Milestone>)
    ensures milestones == MilestonesFrom(Lines(content), 0, newId, now)
  {
    var lines := Lines(content);
    milestones := [];
    var i := 0;
    while i < |lines|
      invariant 0 <= i <= |lines|
      invariant MilestonesFrom(lines, 0, newId, now) == milestones + MilestonesFrom(lines, i, newId, now)
      decreases |lines| - i
    {
      var line := lines[i];
      ghost var rest := MilestonesFrom(lines, i + 1, newId, now);
      if IsMilestoneHeading(line) {
        var title := ParsedMilestoneTitle(line);
        var status := ParsedMilestoneStatus(line);
        var description := LineAfter(lines, i, 1);
        milestones := milestones + [Milestone(newId(i), title, description, status, now, None)];
        assert MilestonesFrom(lines, i, newId, now) == [MilestoneAt(lines, i, newId, now)] + rest;
      }
      i := i + 1;
    }
    assert milestones + [] == milestones;
  }

  // ---------------------------------------------------------------------
  // What a milestone ledger reads back as

  /** The part of a parsed milestone that comes from the text. */
  datatype MilestoneView = MilestoneView(title: string, description: string, status: MilestoneStatus)

  function MilestoneViews(ms: seq<Milestone>): (r: seq<MilestoneView>)
    ensures |r| == |ms|
  {
    if ms == [] then []
    else [MilestoneView(ms[0].title, ms[0].description, ms[0].status)] + MilestoneViews(ms[1..])
  }

  lemma {:induction false} MilestoneViewsAppend(xs: seq<Milestone>, ys: seq<Milestone>)
    ensures MilestoneViews(xs + ys) == MilestoneViews(xs) + MilestoneViews(ys)
  {
    if xs == [] {
      assert xs + ys == ys;
    } else {
      assert (xs + ys)[1..] == xs[1..] + ys;
      MilestoneViewsAppend(xs[1..], ys);
    }
  }

  /** What the milestone parser makes of one line and the line after it. */
  function MilestoneViewOf(line: string, next: seq<string>): seq<MilestoneView> {
    if IsMilestoneHeading(line) then
      [MilestoneView(ParsedMilestoneTitle(line), if next == [] then "" else next[0], ParsedMilestoneStatus(line))]
    else []
  }

  /** One step of the parse, seen through its view. */
  lemma MilestoneStepAsScan(lines: seq<string>, i: nat, newId: nat -> string, now: Time)
    requires i < |lines|
    ensures MilestoneViews(MilestonesFrom(lines, i, newId, now))
         == MilestoneViewOf(lines[i], Window(lines, i, 1)) + MilestoneViews(MilestonesFrom(lines, i + 1, newId, now))
  {
    var rest := MilestonesFrom(lines, i + 1, newId, now);
    if IsMilestoneHeading(lines[i]) {
      MilestoneViewsAppend([MilestoneAt(lines, i, newId, now)], rest);
    }
  }

  /** The parse, seen through its views, is a scan looking one line ahead. */
  lemma {:induction false} MilestonesAsScan(lines: seq<string>, i: nat, newId: nat -> string, now: Time)
    requires i <= |lines|
    ensures MilestoneViews(MilestonesFrom(lines, i, newId, now)) == Scan(lines, i, 1, MilestoneViewOf)
    decreases |lines| - i
  {
    if i < |lines| {
      MilestonesAsScan(lines, i + 1, newId, now);
      MilestoneStepAsScan(lines, i, newId, now);
      assert Scan(lines, i, 1, MilestoneViewOf)
          == MilestoneViewOf(lines[i], Window(lines, i, 1)) + Scan(lines, i + 1, 1, MilestoneViewOf);
    } else {
      assert MilestonesFrom(lines, i, newId, now) == [];
    }
  }

  /** What an entry reads back as: nothing unless its title contains
      "Milestone"; otherwise the icon followed by the title with its first
      " Milestone" removed, the entry's `**Status:**` line as the
      description, and the status. */
  function MilestoneReadBack(m: Milestone): seq<MilestoneView> {
    if Contains(m.title, "Milestone") then
      [MilestoneView(StatusIcon(m.status) + ReplaceFirst(" " + m.title, " Milestone", ""),
                     "**Status:** " + MilestoneStatusText(m.status) + "  ", m.status)]
    else []
  }

  /** What an entry needs to be read back: every field on one line, and no
      other status's icon in the title. */
  predicate MilestoneReadable(m: Milestone) {
    && '\n' !in m.title && '\n' !in m.description && '\n' !in m.createdAt.day
    && (m.status != Completed ==> CompletedIcon[0] !in m.title)
    && (m.status == Planned ==> InProgressIcon[0] !in m.title)
  }

  lemma MilestoneHeadingRead(m: Milestone)
    requires MilestoneReadable(m)
    ensures var h := MilestoneLines(m)[0];
      && (IsMilestoneHeading(h) <==> Contains(m.title, "Milestone"))
      && ParsedMilestoneStatus(h) == m.status
      && ParsedMilestoneTitle(h) == StatusIcon(m.status) + ReplaceFirst(" " + m.title, " Milestone", "")
  {
    var icon := StatusIcon(m.status);
    HeadingShape("### ", icon, m.title);
    MilestoneTitleRead(icon, m.title);
    MilestoneStatusRead(m.status, m.title);
  }

  lemma HeadingShape(a: string, icon: string, title: string)
    ensures a + icon + " " + title == a + icon + (" " + title) == a + (icon + " " + title)
  {
  }

  /** The heading is recognised by the title alone, and its title is read
      with the icon kept. */
  lemma MilestoneTitleRead(icon: string, title: string)
    requires |icon| == 1 && icon[0] != ' ' && icon[0] != 'M'
    ensures IsMilestoneHeading("### " + icon + " " + title) <==> Contains(title, "Milestone")
    ensures ParsedMilestoneTitle("### " + icon + " " + title) == icon + ReplaceFirst(" " + title, " Milestone", "")
  {
    HeadingTitleShape("### ", icon, title, "Milestone", " Milestone");
  }

  /** `MilestoneTitleRead` over any marker and any word. */
  lemma HeadingTitleShape(marker: string, icon: string, title: string, word: string, spacedWord: string)
    requires |icon| == 1 && word != [] && spacedWord != []
    requires word[0] !in marker && word[0] != icon[0] && word[0] != ' '
    requires spacedWord[0] == ' ' && icon[0] != ' '
    ensures var h := marker + icon + " " + title;
      && StartsWith(h, marker)
      && (Contains(h, word) <==> Contains(title, word))
      && ReplaceFirst(ReplaceFirst(h, marker, ""), spacedWord, "") == icon + ReplaceFirst(" " + title, spacedWord, "")
  {
    var h := marker + icon + " " + title;
    assert h[..|marker|] == marker;
    ContainsAfterPrefix(marker + icon + " ", title, word);
    ReplaceFirstAtStart(h, marker, "");
    assert "" + h[|marker|..] == icon + (" " + title);
    ReplaceFirstAfterPrefix(icon, " " + title, spacedWord, "");
  }

  /** The icon in the heading gives back the status. */
  lemma MilestoneStatusRead(status: MilestoneStatus, title: string)
    requires status != Completed ==> CompletedIcon[0] !in title
    requires status == Planned ==> InProgressIcon[0] !in title
    ensures ParsedMilestoneStatus("### " + StatusIcon(status) + " " + title) == status
  {
    var icon := StatusIcon(status);
    var h := "### " + icon + " " + title;
    HeadingShape("### ", icon, title);
    if status == Completed {
      ContainsMiddle("### ", CompletedIcon, " " + title);
    } else {
      NotContainsFirstChar(h, CompletedIcon);
      if status == InProgress {
        ContainsMiddle("### ", InProgressIcon, " " + title);
      } else {
        NotContainsFirstChar(h, InProgressIcon);
      }
    }
  }

  lemma NotMilestoneHeading(line: string)
    requires line == [] || line[0] == '*'
    ensures !IsMilestoneHeading(line)
  {
    NotStartsWithAt(line, "### ", 0);
  }

  /** One rendered entry, followed by the empty line after it, reads back
      as `MilestoneReadBack`. */
  lemma MilestoneEntryRead(m: Milestone)
    requires MilestoneReadable(m)
    ensures Scan(MilestoneLines(m) + [""], 0, 1, MilestoneViewOf) == MilestoneReadBack(m)
  {
    var lines := MilestoneLines(m) + [""];
    MilestoneHeadingRead(m);
    NotMilestoneHeading(lines[1]);
    NotMilestoneHeading(lines[2]);
    NotMilestoneHeading(lines[3]);
    NotMilestoneHeading(lines[4]);
    ScanQuiet(lines, 1, 1, MilestoneViewOf);
    assert Window(lines, 0, 1) == [lines[1]];
  }

  /** Adding a milestone to a ledger whose last line is not a heading adds
      exactly what the entry reads back as to what the ledger reads back
      as; nothing read before changes. */
  lemma AddedMilestoneRead(prior: string, m: Milestone, newId: nat -> string, now: Time)
    requires MilestoneReadable(m)
    requires var before := Lines(prior); !IsMilestoneHeading(before[|before| - 1])
    ensures MilestoneViews(MilestonesFrom(Lines(prior + "\n" + MilestoneMarkdown(m) + "\n"), 0, newId, now))
         == MilestoneViews(MilestonesFrom(Lines(prior), 0, newId, now)) + MilestoneReadBack(m)
  {
    var before := Lines(prior);
    QuietMilestoneLine(before[|before| - 1]);
    MilestoneLinesSingle(m);
    ScanAppended(prior, MilestoneLines(m), 1, MilestoneViewOf);
    MilestonesAsScan(Lines(prior + "\n" + MilestoneMarkdown(m) + "\n"), 0, newId, now);
    MilestonesAsScan(before, 0, newId, now);
    MilestoneEntryRead(m);
  }

  lemma MilestoneLinesSingle(m: Milestone)
    requires MilestoneReadable(m)
    ensures forall i :: 0 <= i < |MilestoneLines(m)| ==> '\n' !in MilestoneLines(m)[i]
  {
    var icon, st := StatusIcon(m.status), MilestoneStatusText(m.status);
    assert '\n' !in st by {
      match m.status
      case Planned => assert st == "planned";
      case InProgress => assert st == "in-progress";
      case Completed => assert st == "completed";
    }
    CharNotIn3('\n', "### " + icon, " ", m.title);
    CharNotIn3('\n', "**Status:** ", st, "  ");
    CharNotIn3('\n', "**Created:** ", m.createdAt.day, "  ");
    CharNotIn3('\n', "**Description:** ", m.description, "");
    assert "**Description:** " + m.description + "" == "**Description:** " + m.description;
  }

  lemma CharNotIn3(x: char, a: string, b: string, c: string)
    requires x !in a && x !in b && x !in c
    ensures x !in a + b + c
  {
  }

  /** The lines of a ledger header: the title and two empty lines. */
  lemma HeaderLines(title: string)
    requires '\n' !in title
    ensures Lines(title + "\n\n") == [title, "", ""]
  {
    assert title + "\n\n" == title + "\n" + "\n";
    LinesConcat(title, "\n");
    LinesOfLine(title);
    assert Lines("\n") == [""] + Lines("");
  }

  /** The ledger `addMilestone` builds from nothing, entry by entry. */
  function MilestoneLedger(ms: seq<Milestone>): (r: string)
    ensures r != [] && r[|r| - 1] == '\n'
  {
    if ms == [] then MilestonesHeader
    else Appended(Some(MilestoneLedger(ms[..|ms| - 1])), MilestonesHeader, MilestoneMarkdown(ms[|ms| - 1]))
  }

  function MilestonesReadBack(ms: seq<Milestone>): seq<MilestoneView> {
    if ms == [] then [] else MilestonesReadBack(ms[..|ms| - 1]) + MilestoneReadBack(ms[|ms| - 1])
  }

  /** A header whose lines are quiet contributes nothing to a pass. */
  lemma HeaderScan<V>(title: string, n: nat, step: (string, seq<string>) -> seq<V>)
    requires '\n' !in title && Quiet(step, title) && Quiet(step, "")
    ensures Scan(Lines(title + "\n\n"), 0, n, step) == []
  {
    HeaderLines(title);
    ScanQuiet(Lines(title + "\n\n"), 0, n, step);
  }

  /** The bare header holds no milestone. */
  lemma EmptyMilestoneLedgerRead(newId: nat -> string, now: Time)
    ensures MilestonesFrom(Lines(MilestonesHeader), 0, newId, now) == []
  {
    var title := "# Project Milestones";
    assert MilestonesHeader == title + "\n\n";
    NotStartsWithAt(title, "### ", 1);
    NotMilestoneHeading("");
    QuietMilestoneLine(title);
    QuietMilestoneLine("");
    HeaderScan(title, 1, MilestoneViewOf);
    MilestonesAsScan(Lines(MilestonesHeader), 0, newId, now);
  }

  lemma QuietMilestoneLine(line: string)
    requires !IsMilestoneHeading(line)
    ensures Quiet(MilestoneViewOf, line)
  {
  }

  /** A ledger built by `addMilestone` reads back entry by entry; in
      particular, an entry whose title lacks "Milestone" is never read. */
  lemma {:induction false} MilestoneLedgerRead(ms: seq<Milestone>, newId: nat -> string, now: Time)
    requires forall k :: 0 <= k < |ms| ==> MilestoneReadable(ms[k])
    ensures MilestoneViews(MilestonesFrom(Lines(MilestoneLedger(ms)), 0, newId, now)) == MilestonesReadBack(ms)
    decreases |ms|
  {
    if ms == [] {
      EmptyMilestoneLedgerRead(newId, now);
    } else {
      var init, last := ms[..|ms| - 1], ms[|ms| - 1];
      var prior := MilestoneLedger(init);
      assert forall k :: 0 <= k < |init| ==> init[k] == ms[k];
      MilestoneLedgerRead(init, newId, now);
      LastLineAfterNewline(prior);
      NotMilestoneHeading("");
      AddedMilestoneRead(prior, last, newId, now);
      assert MilestoneLedger(ms) == prior + "\n" + MilestoneMarkdown(last) + "\n";
    }
  }

  // ---------------------------------------------------------------------
  // Rendering a decision: generateDecisionMarkdown

  function DecisionStatusText(s: DecisionStatus): string {
    match s
    case Proposed => "proposed"
    case Accepted => "accepted"
    case Rejected => "rejected"
  }

  /** The six lines of a decision entry; `suffix` is the number written
      after "ADR-" (the last three characters of a fresh id). */
  function DecisionLines(d: TechnicalDecision, suffix: string): seq<string> {
    [ "### ADR-" + suffix + ": " + d.title,
      "**Date:** " + d.createdAt.day + "  ",
      "**Status:** " + DecisionStatusText(d.status) + "  ",
      "**Context:** " + d.context + "  ",
      "**Decision:** " + d.decision + "  ",
      "**Consequences:** " + Join(d.consequences, ", ") ]
  }

  /** `generateDecisionMarkdown(decision)`, numbered by
      `generateId().slice(-3)` for the fresh id `adrId`. The alternatives
      are not written. */
  function DecisionMarkdown(d: TechnicalDecision, adrId: string): string {
    Join(DecisionLines(d, LastChars(adrId, 3)), "\n")
  }

  // ---------------------------------------------------------------------
  // Reading decisions back: parseDecisionsFromMarkdown

  predicate IsDecisionHeading(line: string) {
    StartsWith(line, "### ADR-")
  }

  /** The number of decimal digits `s` starts with. */
  function DecimalRun(s: string): (n: nat)
    ensures n <= |s|
    decreases |s|
  {
    if s != [] && IsDecimalDigit(s[0]) then 1 + DecimalRun(s[1..]) else 0
  }

  /** The length of a match of `/### ADR-\d+: /` at the start of `s`. The
      digit run is greedy and a shorter run would leave a digit where ':'
      is needed, so the longest run decides. */
  function AdrPrefixLength(s: string): (r: Option<nat>)
    ensures r.Some? ==> 11 <= r.value <= |s|
  {
    if !StartsWith(s, "### ADR-") then None
    else
      var k := DecimalRun(s[8..]);
      if k > 0 && StartsWith(s[8 + k..], ": ") then Some(8 + k + 2) else None
  }

  /** `s.replace(/### ADR-\d+: /, '')`: the leftmost match is removed. */
  function RemoveAdrPrefix(s: string): (r: string)
    ensures |r| <= |s|
    decreases |s|
  {
    match AdrPrefixLength(s)
    case Some(n) => s[n..]
    case None => if s == [] then [] else [s[0]] + RemoveAdrPrefix(s[1..])
  }

  /** The decision pushed for the heading at index `i`: only the title and
      the line three below it come from the text. */
  function DecisionAt(lines: seq<string>, i: nat, newId: nat -> string, now: Time): TechnicalDecision
    requires i < |lines|
  {
    TechnicalDecision(newId(i), RemoveAdrPrefix(lines[i]), "", LineAfter(lines, i, 3), [], [], Accepted, now)
  }

  function DecisionsFrom(lines: seq<string>, i: nat, newId: nat -> string, now: Time): (r: seq<TechnicalDecision>)
    requires i <= |lines|
    ensures |r| <= |lines| - i
    ensures forall k :: 0 <= k < |r| ==>
      && r[k].status == Accepted && r[k].context == ""
      && r[k].alternatives == [] && r[k].consequences == [] && r[k].createdAt == now
    decreases |lines| - i
  {
    if i == |lines| then []
    else
      var rest := DecisionsFrom(lines, i + 1, newId, now);
      if IsDecisionHeading(lines[i]) then [DecisionAt(lines, i, newId, now)] + rest else rest
  }

  /** `parseDecisionsFromMarkdown(content)` */
  method ParseDecisionsFromMarkdown(content: string, newId: nat -> string, now: Time)
    returns (decisions: seq<TechnicalDecision>)
    ensures decisions == DecisionsFrom(Lines(content), 0, newId, now)
  {
    var lines := Lines(content);
    decisions := [];
    var i := 0;
    while i < |lines|
      invariant 0 <= i <= |lines|
      invariant DecisionsFrom(lines, 0, newId, now) == decisions + DecisionsFrom(lines, i, newId, now)
      decreases |lines| - i
    {
      var line := lines[i];
      ghost var rest := DecisionsFrom(lines, i + 1, newId, now);
      if IsDecisionHeading(line) {
        var title := RemoveAdrPrefix(line);
        var decision := LineAfter(lines, i, 3);
        decisions := decisions + [TechnicalDecision(newId(i), title, "", decision, [], [], Accepted, now)];
        assert DecisionsFrom(lines, i, newId, now) == [DecisionAt(lines, i, newId, now)] + rest;
      }
      i := i + 1;
    }
    assert decisions + [] == decisions;
  }

  // ---------------------------------------------------------------------
  // What a decision ledger reads back as

  /** The part of a parsed decision that comes from the text. */
  datatype DecisionView = DecisionView(title: string, decision: string)

  function DecisionViews(ds: seq<TechnicalDecision>): (r: seq<DecisionView>)
    ensures |r| == |ds|
  {
    if ds == [] then [] else [DecisionView(ds[0].title, ds[0].decision)] + DecisionViews(ds[1..])
  }

  lemma {:induction false} DecisionViewsAppend(xs: seq<TechnicalDecision>, ys: seq<TechnicalDecision>)
    ensures DecisionViews(xs + ys) == DecisionViews(xs) + DecisionViews(ys)
  {
    if xs == [] {
      assert xs + ys == ys;
    } else {
      assert (xs + ys)[1..] == xs[1..] + ys;
      DecisionViewsAppend(xs[1..], ys);
    }
  }

  /** What the decision parser makes of one line and the three after it. */
  function DecisionViewOf(line: string, next: seq<string>): seq<DecisionView> {
    if IsDecisionHeading(line) then [DecisionView(RemoveAdrPrefix(line), if |next| < 3 then "" else next[2])]
    else []
  }

  /** One step of the parse, seen through its view. */
  lemma DecisionStepAsScan(lines: seq<string>, i: nat, newId: nat -> string, now: Time)
    requires i < |lines|
    ensures DecisionViews(DecisionsFrom(lines, i, newId, now))
         == DecisionViewOf(lines[i], Window(lines, i, 3)) + DecisionViews(DecisionsFrom(lines, i + 1, newId, now))
  {
    var rest := DecisionsFrom(lines, i + 1, newId, now);
    if IsDecisionHeading(lines[i]) {
      var d := DecisionAt(lines, i, newId, now);
      DecisionViewsAppend([d], rest);
      assert d.decision == (if |Window(lines, i, 3)| < 3 then "" else Window(lines, i, 3)[2]);
    }
  }

  lemma DecisionsAsScan(lines: seq<string>, i: nat, newId: nat -> string, now: Time)
    requires i <= |lines|
    ensures DecisionViews(DecisionsFrom(lines, i, newId, now)) == Scan(lines, i, 3, DecisionViewOf)
  {
    var f := (j: nat) => if j <= |lines| then DecisionViews(DecisionsFrom(lines, j, newId, now)) else [];
    forall j | i <= j < |lines|
      ensures f(j) == DecisionViewOf(lines[j], Window(lines, j, 3)) + f(j + 1)
    {
      DecisionStepAsScan(lines, j, newId, now);
    }
    ScanUnique(lines, i, 3, DecisionViewOf, f);
  }

  predicate DecisionReadable(d: TechnicalDecision, suffix: string) {
    && '\n' !in suffix && '\n' !in d.title && '\n' !in d.createdAt.day
    && '\n' !in d.context && '\n' !in d.decision && '\n' !in Join(d.consequences, ", ")
  }

  /** What an entry reads back as: one decision, whose title is the heading
      with the ADR prefix removed where the regex matches, and whose
      `decision` is the entry's `**Context:**` line. */
  function DecisionReadBack(d: TechnicalDecision, suffix: string): DecisionView {
    DecisionView(RemoveAdrPrefix("### ADR-" + suffix + ": " + d.title), "**Context:** " + d.context + "  ")
  }

  lemma NotDecisionHeading(line: string)
    requires line == [] || line[0] == '*'
    ensures !IsDecisionHeading(line)
  {
    NotStartsWithAt(line, "### ADR-", 0);
  }

  lemma DecisionEntryRead(d: TechnicalDecision, suffix: string)
    requires DecisionReadable(d, suffix)
    ensures Scan(DecisionLines(d, suffix) + [""], 0, 3, DecisionViewOf) == [DecisionReadBack(d, suffix)]
  {
    var lines := DecisionLines(d, suffix) + [""];
    assert IsDecisionHeading(lines[0]);
    NotDecisionHeading(lines[1]);
    NotDecisionHeading(lines[2]);
    NotDecisionHeading(lines[3]);
    NotDecisionHeading(lines[4]);
    NotDecisionHeading(lines[5]);
    NotDecisionHeading(lines[6]);
    ScanQuiet(lines, 1, 3, DecisionViewOf);
    assert Window(lines, 0, 3)[2] == lines[3];
  }

  lemma QuietDecisionLine(line: string)
    requires !IsDecisionHeading(line)
    ensures Quiet(DecisionViewOf, line)
  {
  }

  lemma DecisionLinesSingle(d: TechnicalDecision, suffix: string)
    requires DecisionReadable(d, suffix)
    ensures forall i :: 0 <= i < |DecisionLines(d, suffix)| ==> '\n' !in DecisionLines(d, suffix)[i]
  {
    var st := DecisionStatusText(d.status);
    assert '\n' !in st by {
      match d.status
      case Proposed => assert st == "proposed";
      case Accepted => assert st == "accepted";
      case Rejected => assert st == "rejected";
    }
    CharNotIn3('\n', "### ADR-", suffix, ": " + d.title);
    CharNotIn3('\n', "**Date:** ", d.createdAt.day, "  ");
    CharNotIn3('\n', "**Status:** ", st, "  ");
    CharNotIn3('\n', "**Context:** ", d.context, "  ");
    CharNotIn3('\n', "**Decision:** ", d.decision, "  ");
    CharNotIn3('\n', "**Consequences:** ", Join(d.consequences, ", "), "");
    assert "**Consequences:** " + Join(d.consequences, ", ") + "" == "**Consequences:** " + Join(d.consequences, ", ");
  }

  /** Logging a decision adds exactly one decision to what the ledger reads
      back as, provided the ledger's last three lines are not headings. */
  lemma AddedDecisionRead(prior: string, d: TechnicalDecision, adrId: string, newId: nat -> string, now: Time)
    requires DecisionReadable(d, LastChars(adrId, 3))
    requires forall j :: 0 <= j < |Lines(prior)| && |Lines(prior)| <= j + 3 ==> !IsDecisionHeading(Lines(prior)[j])
    ensures DecisionViews(DecisionsFrom(Lines(prior + "\n" + DecisionMarkdown(d, adrId) + "\n"), 0, newId, now))
         == DecisionViews(DecisionsFrom(Lines(prior), 0, newId, now)) + [DecisionReadBack(d, LastChars(adrId, 3))]
  {
    var suffix := LastChars(adrId, 3);
    var before := Lines(prior);
    forall j | 0 <= j < |before| && |before| <= j + 3
      ensures Quiet(DecisionViewOf, before[j])
    {
      QuietDecisionLine(before[j]);
    }
    DecisionLinesSingle(d, suffix);
    ScanAppended(prior, DecisionLines(d, suffix), 3, DecisionViewOf);
    DecisionsAsScan(Lines(prior + "\n" + DecisionMarkdown(d, adrId) + "\n"), 0, newId, now);
    DecisionsAsScan(before, 0, newId, now);
    DecisionEntryRead(d, suffix);
  }

  /** No line among the last three of `lines` is a decision heading. */
  predicate DecisionTailQuiet(lines: seq<string>) {
    forall j :: 0 <= j < |lines| && |lines| <= j + 3 ==> !IsDecisionHeading(lines[j])
  }

  /** The ledger `logDecision` builds from nothing: each entry is a decision
      and the fresh id its number is cut from. */
  function DecisionLedger(entries: seq<(TechnicalDecision, string)>): (r: string)
    ensures r != [] && r[|r| - 1] == '\n'
  {
    if entries == [] then DecisionsHeader
    else
      var (d, adrId) := entries[|entries| - 1];
      Appended(Some(DecisionLedger(entries[..|entries| - 1])), DecisionsHeader, DecisionMarkdown(d, adrId))
  }

  function DecisionsReadBack(entries: seq<(TechnicalDecision, string)>): seq<DecisionView> {
    if entries == [] then []
    else
      var (d, adrId) := entries[|entries| - 1];
      DecisionsReadBack(entries[..|entries| - 1]) + [DecisionReadBack(d, LastChars(adrId, 3))]
  }

  /** The bare header holds no decision. */
  lemma EmptyDecisionLedgerRead(newId: nat -> string, now: Time)
    ensures DecisionsFrom(Lines(DecisionsHeader), 0, newId, now) == []
    ensures DecisionTailQuiet(Lines(DecisionsHeader))
  {
    var title := "# Technical Decisions";
    assert DecisionsHeader == title + "\n\n";
    NotStartsWithAt(title, "### ADR-", 1);
    HeaderDecisions(title, newId, now);
  }

  /** A header whose title is no decision heading. */
  lemma HeaderDecisions(title: string, newId: nat -> string, now: Time)
    requires '\n' !in title && !IsDecisionHeading(title)
    ensures DecisionsFrom(Lines(title + "\n\n"), 0, newId, now) == []
    ensures DecisionTailQuiet(Lines(title + "\n\n"))
  {
    NotDecisionHeading("");
    QuietDecisionLine(title);
    QuietDecisionLine("");
    HeaderScan(title, 3, DecisionViewOf);
    HeaderLines(title);
    DecisionsAsScan(Lines(title + "\n\n"), 0, newId, now);
  }

  /** After an entry the last three lines are its decision and
      consequences lines and the empty line. */
  lemma EntryTailQuiet(prior: string, d: TechnicalDecision, adrId: string)
    requires DecisionReadable(d, LastChars(adrId, 3))
    ensures DecisionTailQuiet(Lines(prior + "\n" + DecisionMarkdown(d, adrId) + "\n"))
  {
    var xs := DecisionLines(d, LastChars(adrId, 3));
    DecisionLinesSingle(d, LastChars(adrId, 3));
    AppendedLines(prior, xs);
    var lines := Lines(prior) + xs + [""];
    assert lines[|lines| - 3] == xs[4] && lines[|lines| - 2] == xs[5];
    NotDecisionHeading(xs[4]);
    NotDecisionHeading(xs[5]);
    NotDecisionHeading("");
  }

  /** A ledger built by `logDecision` reads back entry by entry. */
  lemma {:induction false} DecisionLedgerRead(entries: seq<(TechnicalDecision, string)>, newId: nat -> string, now: Time)
    requires forall k :: 0 <= k < |entries| ==> DecisionReadable(entries[k].0, LastChars(entries[k].1, 3))
    ensures DecisionViews(DecisionsFrom(Lines(DecisionLedger(entries)), 0, newId, now)) == DecisionsReadBack(entries)
    ensures DecisionTailQuiet(Lines(DecisionLedger(entries)))
    decreases |entries|
  {
    if entries == [] {
      EmptyDecisionLedgerRead(newId, now);
    } else {
      var init, last := entries[..|entries| - 1], entries[|entries| - 1];
      var prior := DecisionLedger(init);
      assert forall k :: 0 <= k < |init| ==> init[k] == entries[k];
      DecisionLedgerRead(init, newId, now);
      AddedDecisionRead(prior, last.0, last.1, newId, now);
      EntryTailQuiet(prior, last.0, last.1);
      assert DecisionLedger(entries) == prior + "\n" + DecisionMarkdown(last.0, last.1) + "\n";
    }
  }

  /** A decimal ADR number is stripped with its prefix: the title comes
      back unchanged. */
  lemma DecimalAdrTitle(suffix: string, title: string)
    requires suffix != [] && forall i :: 0 <= i < |suffix| ==> IsDecimalDigit(suffix[i])
    ensures RemoveAdrPrefix("### ADR-" + suffix + ": " + title) == title
  {
    var s := "### ADR-" + suffix + ": " + title;
    assert s[..8] == "### ADR-";
    assert s[8..] == suffix + (": " + title);
    DecimalRunPrefix(suffix, ": " + title);
    assert s[8 + |suffix|..] == ": " + title;
  }

  lemma {:induction false} DecimalRunPrefix(ds: string, rest: string)
    requires forall i :: 0 <= i < |ds| ==> IsDecimalDigit(ds[i])
    requires rest != [] && !IsDecimalDigit(rest[0])
    ensures DecimalRun(ds + rest) == |ds|
    decreases |ds|
  {
    if ds == [] {
      assert ds + rest == rest;
    } else {
      assert (ds + rest)[1..] == ds[1..] + rest;
      DecimalRunPrefix(ds[1..], rest);
    }
  }

  /** Text without '#' holds no ADR prefix. */
  lemma {:induction false} RemoveAdrPrefixNoHash(s: string)
    requires '#' !in s
    ensures RemoveAdrPrefix(s) == s
    decreases |s|
  {
    if s != [] {
      NotStartsWithAt(s, "### ADR-", 0);
      RemoveAdrPrefixNoHash(s[1..]);
    }
  }

  /** An ADR number that does not start with a decimal digit (the last
      three characters of a base-36 id usually hold a letter) is not
      matched: the parsed title is the whole heading line. */
  lemma LetteredAdrTitle(suffix: string, title: string)
    requires suffix != [] && !IsDecimalDigit(suffix[0])
    requires '#' !in suffix && '#' !in title
    ensures RemoveAdrPrefix("### ADR-" + suffix + ": " + title) == "### ADR-" + suffix + ": " + title
  {
    var rest := " ADR-" + suffix + ": " + title;
    assert "### ADR-" + suffix + ": " + title == "###" + rest;
    assert rest == " ADR-" + (suffix + ": " + title);
    CharNotIn3('#', " ADR-", suffix, ": " + title);
    UnmatchedHashes(rest);
  }

  /** A line "###" followed by text without '#' that starts " ADR-" and a
      non-digit keeps its prefix. */
  lemma UnmatchedHashes(rest: string)
    requires |rest| > 5 && rest[..5] == " ADR-" && !IsDecimalDigit(rest[5]) && '#' !in rest
    ensures RemoveAdrPrefix("###" + rest) == "###" + rest
  {
    var s1, s2 := "#" + rest, "##" + rest;
    assert s2 == "#" + s1 && "###" + rest == "#" + s2;
    RemoveAdrPrefixNoHash(rest);
    HashStep(rest, rest);
    HashStep(s1, rest);
    ThirdHash(s2, rest);
  }

  /** The third '#' cannot start a prefix either: "### ADR-" would need a
      digit after it. */
  lemma ThirdHash(s2: string, rest: string)
    requires |rest| > 5 && s2 == "##" + rest && !IsDecimalDigit(rest[5])
    requires RemoveAdrPrefix(s2) == s2
    ensures RemoveAdrPrefix("#" + s2) == "#" + s2
  {
    var s3 := "#" + s2;
    assert s3[8] == rest[5];
    NoDigitAfterAdr(s3, rest[5]);
    assert s3[1..] == s2;
    RemoveUnmatched(s3);
  }

  /** A '#' that does not start an ADR prefix is kept. */
  lemma HashStep(t: string, rest: string)
    requires (t == rest || t == "#" + rest) && rest != [] && rest[0] == ' '
    requires RemoveAdrPrefix(t) == t
    ensures RemoveAdrPrefix("#" + t) == "#" + t
  {
    var s := "#" + t;
    assert s[1..] == t;
    if t == rest {
      NotStartsWithAt(s, "### ADR-", 1);
    } else {
      assert s[2] == ' ';
      NotStartsWithAt(s, "### ADR-", 2);
    }
    RemoveUnmatched(s);
  }

  /** A prefix "### ADR-" followed by a non-digit is no match. */
  lemma NoDigitAfterAdr(s: string, c: char)
    requires |s| > 8 && s[8] == c && !IsDecimalDigit(c)
    ensures AdrPrefixLength(s).None?
  {
    assert s[8..][0] == c;
  }

  /** Where no prefix starts, the first character is kept. */
  lemma RemoveUnmatched(s: string)
    requires s != [] && AdrPrefixLength(s).None?
    ensures RemoveAdrPrefix(s) == [s[0]] + RemoveAdrPrefix(s[1..])
  {
  }
}
