/** The pure parts of the restoration synthesiser of
    src/context-manager.ts: the record read from a session file's name, the
    current phase read from the project summary, the `keyContext` and
    `nextSteps` lists and the rendered restoration prompt. */
module Restoration {
  import opened Wrappers
  import opened Text
  import opened Records
  import opened Transcript

  function Min(a: int, b: int): int {
    if a <= b then a else b
  }

  /** No line of `s` ends inside it. */
  predicate SingleLine(s: string) {
    '\n' !in s
  }

  // ---------------------------------------------------------------------
  // parseSessionInfo: `session_(.+?)_(\d{4}-\d{2}-\d{2})\.md`

  /** `\d{4}-\d{2}-\d{2}` */
  predicate DateShaped(d: string) {
    && |d| == 10 && d[4] == '-' && d[7] == '-'
    && IsDecimalDigit(d[0]) && IsDecimalDigit(d[1]) && IsDecimalDigit(d[2]) && IsDecimalDigit(d[3])
    && IsDecimalDigit(d[5]) && IsDecimalDigit(d[6]) && IsDecimalDigit(d[8]) && IsDecimalDigit(d[9])
  }

  /** `_\d{4}-\d{2}-\d{2}\.md` matches at the start of `t`. */
  predicate DateSuffixAt(t: string) {
    |t| >= 14 && t[0] == '_' && DateShaped(t[1..11]) && t[11] == '.' && t[12] == 'm' && t[13] == 'd'
  }

  /** The first `k` characters of `t` hold no line terminator, so `.+`
      can span them. */
  predicate Spannable(t: string, k: nat)
    requires k <= |t|
  {
    forall i :: 0 <= i < k ==> !IsLineTerminator(t[i])
  }

  /** The lazy `(.+?)_date\.md` on the text after "session_": the shortest
      capture length, at least `from`, after which the date follows. */
  function LazyCapture(t: string, from: nat): (r: Option<nat>)
    requires 1 <= from && (from - 1 <= |t| ==> Spannable(t, from - 1))
    ensures r.Some? ==> from <= r.value <= |t| && Spannable(t, r.value) && DateSuffixAt(t[r.value..])
    ensures r.Some? ==> forall k :: from <= k < r.value ==> !DateSuffixAt(t[k..])
    ensures r.None? ==> forall k :: from <= k <= |t| && Spannable(t, k) ==> !DateSuffixAt(t[k..])
    decreases |t| - from
  {
    if from > |t| || IsLineTerminator(t[from - 1]) then None
    else if DateSuffixAt(t[from..]) then Some(from)
    else LazyCapture(t, from + 1)
  }

  /** The leftmost match starting at `p` or later: where its capture
      starts and how long it is. */
  function SessionMatch(f: string, p: nat): (r: Option<(nat, nat)>)
    ensures r.Some? ==> var (c, k) := r.value;
      && p + 8 <= c && 1 <= k && c + k <= |f|
      && StartsWith(f[c - 8..], SessionPrefix) && DateSuffixAt(f[c + k..])
    decreases |f| - p
  {
    if p + 8 > |f| then None
    else
      var t := f[p + 8..];
      var lazy := LazyCapture(t, 1);
      if StartsWith(f[p..], SessionPrefix) && lazy.Some? then
        assert t[lazy.value..] == f[p + 8 + lazy.value..];
        Some((p + 8, lazy.value))
      else SessionMatch(f, p + 1)
  }

  /** `parseSessionInfo(filename)`: the id is the capture (or the whole
      name), the start time the captured date read by `parseDay` (or
      `now`); the counters are always zero. */
  function ParseSessionInfo(filename: string, parseDay: string -> Time, now: Time): (info: SessionInfo)
    ensures info.tokenCount == 0 && info.messageCount == 0 && info.status == Ended
    ensures info.projectPath == "" && info.sessionName.None? && info.endTime.None?
  {
    InfoOfMatch(filename, SessionMatch(filename, 0), parseDay, now)
  }

  /** The record for the match found, or for none. */
  function InfoOfMatch(filename: string, m: Option<(nat, nat)>, parseDay: string -> Time, now: Time): SessionInfo
    requires m.Some? ==> m.value.0 + m.value.1 + 11 <= |filename|
  {
    match m
    case None => SessionInfo(filename, "", None, now, None, 0, 0, Ended)
    case Some((c, k)) => SessionInfo(filename[c..c + k], "", None, parseDay(filename[c + k + 1..c + k + 11]), None, 0, 0, Ended)
  }

  lemma ParseAsMatched(filename: string, c: nat, k: nat, parseDay: string -> Time, now: Time)
    requires SessionMatch(filename, 0) == Some((c, k))
    ensures c + k + 14 <= |filename|
    ensures ParseSessionInfo(filename, parseDay, now) == InfoOfMatch(filename, Some((c, k)), parseDay, now)
  {
  }

  lemma CapturedInfo(filename: string, c: nat, k: nat, parseDay: string -> Time, now: Time)
    requires c + k + 11 <= |filename|
    ensures InfoOfMatch(filename, Some((c, k)), parseDay, now).id == filename[c..c + k]
    ensures InfoOfMatch(filename, Some((c, k)), parseDay, now).startTime == parseDay(filename[c + k + 1..c + k + 11])
  {
  }

  /** The lazy capture reaches the first length after which the date
      follows. */
  lemma {:induction false} LazyCaptureReaches(t: string, from: nat, n: nat)
    requires 1 <= from <= n <= |t| && Spannable(t, n) && DateSuffixAt(t[n..])
    requires forall k :: from <= k < n ==> !DateSuffixAt(t[k..])
    ensures LazyCapture(t, from) == Some(n)
    decreases n - from
  {
    if from < n {
      LazyCaptureReaches(t, from + 1, n);
    }
  }

  /** The tail of a transcript's name: the `_`, the day and ".md". */
  lemma DateTail(day: string)
    requires DateShaped(day)
    ensures var u := "_" + day + ".md";
      DateSuffixAt(u) && forall j :: 0 <= j < 11 ==> u[j] != '.'
  {
    var u := "_" + day + ".md";
    assert u[1..11] == day;
  }

  /** Before the tail no date can start: the '.' a date suffix needs is
      not there. */
  lemma NoEarlyDate(id: string, u: string, k: nat)
    requires '.' !in id && k < |id| && |u| >= 11 && forall j :: 0 <= j < 11 ==> u[j] != '.'
    ensures !DateSuffixAt((id + u)[k..])
  {
    var t := id + u;
    if k + 11 < |t| {
      if k + 11 < |id| {
        assert t[k + 11] == id[k + 11];
      } else {
        assert t[k + 11] == u[k + 11 - |id|];
      }
    }
  }

  /** The manager reads back the id and the date of every transcript the
      tracker names, as long as the id has no '.' and no line terminator:
      the lazy capture runs up to the `_` before the date. */
  lemma SessionInfoOfTranscriptName(session: SessionInfo, parseDay: string -> Time, now: Time)
    requires session.id != [] && '.' !in session.id && Spannable(session.id, |session.id|)
    requires DateShaped(session.startTime.day)
    ensures ParseSessionInfo(TranscriptFileName(session), parseDay, now).id == session.id
    ensures ParseSessionInfo(TranscriptFileName(session), parseDay, now).startTime == parseDay(session.startTime.day)
  {
    TranscriptNameMatch(session);
    TranscriptNameParts(session);
    MatchedSessionInfo(TranscriptFileName(session), 8, |session.id|, parseDay, now);
  }

  /** The pattern matches a transcript's name right after "session_",
      capturing the id. */
  lemma TranscriptNameMatch(session: SessionInfo)
    requires session.id != [] && '.' !in session.id && Spannable(session.id, |session.id|)
    requires DateShaped(session.startTime.day)
    ensures SessionMatch(TranscriptFileName(session), 0) == Some((8, |session.id|))
  {
    var id, day := session.id, session.startTime.day;
    var u := "_" + day + ".md";
    var t := id + u;
    assert TranscriptFileName(session) == SessionPrefix + t;
    DateTail(day);
    CaptureBeforeTail(id, u);
    MatchAtStart(t, |id|);
  }

  /** Where the id and the day sit in a transcript's name. */
  lemma TranscriptNameParts(session: SessionInfo)
    requires |session.startTime.day| == 10
    ensures var f, n := TranscriptFileName(session), |session.id|;
      && |f| == n + 22 && f[8..8 + n] == session.id && f[8 + n + 1..8 + n + 11] == session.startTime.day
  {
    var f, n := TranscriptFileName(session), |session.id|;
    assert f == SessionPrefix + session.id + "_" + session.startTime.day + ".md";
    assert f[8..8 + n] == session.id;
    assert f[8 + n + 1..8 + n + 11] == session.startTime.day;
  }

  /** Where the pattern matches, the id is the capture and the start time
      the date after it. */
  lemma MatchedSessionInfo(filename: string, c: nat, k: nat, parseDay: string -> Time, now: Time)
    requires SessionMatch(filename, 0) == Some((c, k))
    ensures c + k + 14 <= |filename|
    ensures ParseSessionInfo(filename, parseDay, now).id == filename[c..c + k]
    ensures ParseSessionInfo(filename, parseDay, now).startTime == parseDay(filename[c + k + 1..c + k + 11])
  {
    ParseAsMatched(filename, c, k, parseDay, now);
    CapturedInfo(filename, c, k, parseDay, now);
  }

  /** The capture after "session_" is the whole id. */
  lemma CaptureBeforeTail(id: string, u: string)
    requires id != [] && '.' !in id && Spannable(id, |id|)
    requires DateSuffixAt(u) && forall j :: 0 <= j < 11 ==> u[j] != '.'
    ensures LazyCapture(id + u, 1) == Some(|id|)
  {
    var t := id + u;
    assert t[|id|..] == u;
    forall k | 1 <= k < |id|
      ensures !DateSuffixAt(t[k..])
    {
      NoEarlyDate(id, u, k);
    }
    assert Spannable(t, |id|) by {
      forall i | 0 <= i < |id|
        ensures !IsLineTerminator(t[i])
      {
        assert t[i] == id[i];
      }
    }
    LazyCaptureReaches(t, 1, |id|);
  }

  /** A name that starts with "session_" matches there when the capture
      after it succeeds. */
  lemma MatchAtStart(t: string, n: nat)
    requires LazyCapture(t, 1) == Some(n)
    ensures SessionMatch(SessionPrefix + t, 0) == Some((8, n))
  {
    var f := SessionPrefix + t;
    assert f[0..] == f && f[8..] == t;
    assert StartsWith(f, SessionPrefix);
  }

  /** A name in which no date suffix starts keeps the whole name as its id
      and `now` as its start time. */
  lemma UndatedSessionName(filename: string, parseDay: string -> Time, now: Time)
    requires forall i :: 0 <= i <= |filename| ==> !DateSuffixAt(filename[i..])
    ensures ParseSessionInfo(filename, parseDay, now).id == filename
    ensures ParseSessionInfo(filename, parseDay, now).startTime == now
  {
    if SessionMatch(filename, 0).Some? {
      assert false;
    }
  }

  // ---------------------------------------------------------------------
  // getCurrentPhase: `/\*\*Current Phase:\*\* (.+)/`

  const PhaseLabel := "**Current Phase:** "

  /** The greedy `(.+)`: the characters before the first line terminator. */
  function LineRest(s: string): (r: string)
    ensures |r| <= |s| && s[..|r|] == r && Spannable(r, |r|)
    ensures |r| < |s| ==> IsLineTerminator(s[|r|])
    decreases |s|
  {
    if s == [] || IsLineTerminator(s[0]) then []
    else
      var r := [s[0]] + LineRest(s[1..]);
      assert s == [s[0]] + s[1..];
      r
  }

  /** The regex matches at `q`: the label, then at least one character
      before the line ends. */
  predicate PhaseAt(s: string, q: nat) {
    q <= |s| && StartsWith(s[q..], PhaseLabel) && LineRest(s[q + |PhaseLabel|..]) != []
  }

  /** What a match at `q` captures. */
  function PhaseCapture(s: string, q: nat): string
    requires PhaseAt(s, q)
  {
    LineRest(s[q + |PhaseLabel|..])
  }

  /** The leftmost match at `p` or later, its capture: `None` exactly when
      there is no match, and otherwise the capture of the first one. */
  function PhaseFrom(s: string, p: nat): (r: Option<string>)
    ensures r.None? <==> forall q :: p <= q <= |s| ==> !PhaseAt(s, q)
    ensures r.Some? ==> exists q :: p <= q <= |s| && PhaseAt(s, q) && r.value == PhaseCapture(s, q)
                                   && forall k :: p <= k < q ==> !PhaseAt(s, k)
    ensures forall q :: p <= q <= |s| && PhaseAt(s, q) && (forall k :: p <= k < q ==> !PhaseAt(s, k))
                        ==> r == Some(PhaseCapture(s, q))
    ensures r.Some? ==> r.value != [] && Spannable(r.value, |r.value|)
    decreases |s| - p
  {
    if p > |s| then None
    else if PhaseAt(s, p) then Some(PhaseCapture(s, p))
    else PhaseFrom(s, p + 1)
  }

  /** `getCurrentPhase(projectPath)` over the summary file's text, `None`
      where the file cannot be read or holds no phase line. */
  function CurrentPhase(content: Option<string>): (r: Option<string>)
    ensures content.None? ==> r.None?
    ensures content.Some? ==> (r.None? <==> forall q :: 0 <= q <= |content.value| ==> !PhaseAt(content.value, q))
    ensures content.Some? ==> forall q :: 0 <= q <= |content.value| && PhaseAt(content.value, q)
                                          && (forall k :: 0 <= k < q ==> !PhaseAt(content.value, k))
                                          ==> r == Some(PhaseCapture(content.value, q))
    ensures r.Some? ==> r.value != [] && Spannable(r.value, |r.value|)
  {
    match content
    case None => None
    case Some(text) => PhaseFrom(text, 0)
  }

  lemma {:induction false} LineRestOf(phase: string, rest: string)
    requires Spannable(phase, |phase|) && (rest == [] || IsLineTerminator(rest[0]))
    ensures LineRest(phase + rest) == phase
    decreases |phase|
  {
    if phase != [] {
      assert (phase + rest)[1..] == phase[1..] + rest;
      LineRestOf(phase[1..], rest);
    }
  }

  /** The phase written on a `**Current Phase:**` line is read back when
      no match starts before that line's label. */
  lemma PhaseLineRead(pre: string, phase: string, rest: string)
    requires phase != [] && Spannable(phase, |phase|)
    requires rest == [] || IsLineTerminator(rest[0])
    requires forall q :: 0 <= q < |pre| ==> !PhaseAt(pre + PhaseLabel + phase + rest, q)
    ensures CurrentPhase(Some(pre + PhaseLabel + phase + rest)) == Some(phase)
  {
    var s := pre + PhaseLabel + phase + rest;
    assert s[|pre|..] == PhaseLabel + (phase + rest);
    assert s[|pre| + |PhaseLabel|..] == phase + rest;
    LineRestOf(phase, rest);
    assert PhaseAt(s, |pre|) && PhaseCapture(s, |pre|) == phase;
  }

  /** A position holding no '*' starts no match. */
  lemma NoPhaseWithoutStar(s: string, q: nat)
    requires q < |s| && s[q] != '*'
    ensures !PhaseAt(s, q)
  {
    NotStartsWithAt(s[q..], PhaseLabel, 0);
  }

  /** The label holds no line break, so no match starts where a break
      follows within the label's length. */
  lemma NoPhaseAcrossBreak(s: string, q: nat, n: nat)
    requires q <= n < |s| && n < q + |PhaseLabel| && s[n] == '\n'
    ensures !PhaseAt(s, q)
  {
  }

  /** A label line inside ordinary Markdown: the bold `**Status:**` line
      before it starts no match, so its phase is read back. */
  lemma BoldLineBeforePhase()
    ensures CurrentPhase(Some("**Status:** beta\n" + PhaseLabel + "Beta")) == Some("Beta")
  {
    var pre := "**Status:** beta\n";
    var s := pre + PhaseLabel + "Beta" + "";
    assert s == "**Status:** beta\n" + PhaseLabel + "Beta";
    forall q | 0 <= q < |pre|
      ensures !PhaseAt(s, q)
    {
      NoPhaseAcrossBreak(s, q, |pre| - 1);
    }
    PhaseLineRead(pre, "Beta", "");
  }

  // ---------------------------------------------------------------------
  // The keyContext list of generateRestorationPrompt

  /** `milestones.filter(m => m.status === 'in-progress')` */
  function ActiveMilestones(ms: seq<Milestone>): (r: seq<Milestone>)
    ensures |r| <= |ms|
    ensures forall m :: m in r <==> m in ms && m.status == InProgress
  {
    if ms == [] then []
    else (if ms[0].status == InProgress then [ms[0]] else []) + ActiveMilestones(ms[1..])
  }

  /** The filter keeps the order of the milestones it keeps. */
  lemma {:induction false} ActiveMilestonesAppend(a: seq<Milestone>, b: seq<Milestone>)
    ensures ActiveMilestones(a + b) == ActiveMilestones(a) + ActiveMilestones(b)
    decreases |a|
  {
    if a != [] {
      assert (a + b)[1..] == a[1..] + b;
      ActiveMilestonesAppend(a[1..], b);
    } else {
      assert a + b == b;
    }
  }

  /** `x || fallback` for an optional text. */
  function TextOr(x: Option<string>, fallback: string): (r: string)
    ensures r == fallback || (x.Some? && r == x.value && r != [])
  {
    if x.Some? && x.value != [] then x.value else fallback
  }

  /** `Project: ${summary.name}` */
  function ProjectLine(name: string): string {
    "Project: " + name
  }

  /** `Total sessions: ${summary.totalSessions}` */
  function SessionsLine(total: nat): string {
    "Total sessions: " + NatToString(total)
  }

  /** `Total tokens used: ${summary.totalTokens}` */
  function TokensLine(total: nat): string {
    "Total tokens used: " + NatToString(total)
  }

  /** `Current phase: ${summary.currentPhase || 'Initial development'}` */
  function PhaseLine(phase: Option<string>): string {
    "Current phase: " + TextOr(phase, "Initial development")
  }

  /** `Active milestone: ${m.title}` */
  function ActiveLine(m: Milestone): string {
    "Active milestone: " + m.title
  }

  /** `Decision: ${d.title} - ${d.decision}` */
  function DecisionLine(d: TechnicalDecision): string {
    "Decision: " + d.title + " - " + d.decision
  }

  /** `keyContext`: four fixed lines, then one per in-progress milestone,
      then one for each of the first three decisions. */
  function KeyContext(summary: ProjectSummary, milestones: seq<Milestone>, decisions: seq<TechnicalDecision>): (r: seq<string>)
    ensures var active := ActiveMilestones(milestones);
      && |r| == 4 + |active| + Min(3, |decisions|)
      && r[0] == ProjectLine(summary.name)
      && r[1] == SessionsLine(summary.totalSessions)
      && r[2] == TokensLine(summary.totalTokens)
      && r[3] == PhaseLine(summary.currentPhase)
      && (forall i :: 0 <= i < |active| ==> r[4 + i] == ActiveLine(active[i]))
      && (forall j :: 0 <= j < Min(3, |decisions|) ==> r[4 + |active| + j] == DecisionLine(decisions[j]))
  {
    var active := ActiveMilestones(milestones);
    var shown := Min(3, |decisions|);
    var fixed := [ProjectLine(summary.name), SessionsLine(summary.totalSessions),
                  TokensLine(summary.totalTokens), PhaseLine(summary.currentPhase)];
    var activeLines := seq(|active|, i requires 0 <= i < |active| => ActiveLine(active[i]));
    var decisionLines := seq(shown, j requires 0 <= j < shown => DecisionLine(decisions[j]));
    ConcatParts(fixed, activeLines, decisionLines);
    fixed + activeLines + decisionLines
  }

  /** Where the parts of a three-part concatenation sit. */
  lemma ConcatParts<T>(x: seq<T>, y: seq<T>, z: seq<T>)
    ensures |x + y + z| == |x| + |y| + |z|
    ensures forall i :: 0 <= i < |x| ==> (x + y + z)[i] == x[i]
    ensures forall i :: |x| <= i < |x| + |y| ==> (x + y + z)[i] == y[i - |x|]
    ensures forall i :: |x| + |y| <= i < |x| + |y| + |z| ==> (x + y + z)[i] == z[i - |x| - |y|]
  {
  }

  // ---------------------------------------------------------------------
  // generateNextSteps

  const ReviewStep := "Review project status and set priorities"
  const DevelopStep := "Continue development work"
  const DefaultSteps: seq<string> := [ReviewStep, DevelopStep]

  /** `Continue work on: ${m.title}` */
  function ContinueStep(m: Milestone): string {
    "Continue work on: " + m.title
  }

  /** `Implement decision: ${d.title}` */
  function ImplementStep(d: TechnicalDecision): string {
    "Implement decision: " + d.title
  }

  /** One step per in-progress milestone, in order. */
  function ContinueSteps(milestones: seq<Milestone>): seq<string> {
    var active := ActiveMilestones(milestones);
    seq(|active|, i requires 0 <= i < |active| => ContinueStep(active[i]))
  }

  /** Each further milestone adds its own step when it is in progress. */
  lemma ContinueStepsAppend(done: seq<Milestone>, m: Milestone)
    ensures ContinueSteps(done + [m]) == ContinueSteps(done) + (if m.status == InProgress then [ContinueStep(m)] else [])
  {
    ActiveMilestonesAppend(done, [m]);
    assert ActiveMilestones([m]) == if m.status == InProgress then [m] else [];
  }

  /** The steps pushed before the fallback: one per in-progress milestone,
      then one for each of the first two decisions. */
  function ProposedSteps(milestones: seq<Milestone>, decisions: seq<TechnicalDecision>): seq<string> {
    var recent := Min(2, |decisions|);
    ContinueSteps(milestones) + seq(recent, j requires 0 <= j < recent => ImplementStep(decisions[j]))
  }

  /** The steps `generateNextSteps` returns: the proposed ones, or the two
      defaults when there are none, cut to five. */
  function NextSteps(milestones: seq<Milestone>, decisions: seq<TechnicalDecision>): seq<string> {
    var proposed := ProposedSteps(milestones, decisions);
    var steps := if proposed == [] then DefaultSteps else proposed;
    steps[..Min(5, |steps|)]
  }

  /** The proposed steps: the in-progress milestones in order, then the
      first two decisions. */
  lemma ProposedStepsShape(milestones: seq<Milestone>, decisions: seq<TechnicalDecision>)
    ensures var p, active := ProposedSteps(milestones, decisions), ActiveMilestones(milestones);
      && |p| == |active| + Min(2, |decisions|)
      && (forall i :: 0 <= i < |active| ==> p[i] == ContinueStep(active[i]))
      && (forall i :: |active| <= i < |p| ==> p[i] == ImplementStep(decisions[i - |active|]))
  {
    var continued := ContinueSteps(milestones);
    assert |continued| == |ActiveMilestones(milestones)|;
  }

  /** One to five steps; the defaults exactly when neither source gives a
      step; otherwise the in-progress milestones in order, then the first
      two decisions, cut to five. */
  lemma NextStepsShape(milestones: seq<Milestone>, decisions: seq<TechnicalDecision>)
    ensures 1 <= |NextSteps(milestones, decisions)| <= 5
    ensures NextSteps(milestones, decisions) == DefaultSteps <==> ActiveMilestones(milestones) == [] && decisions == []
    ensures var r, active := NextSteps(milestones, decisions), ActiveMilestones(milestones);
      (active != [] || decisions != []) ==>
        && |r| == Min(5, |active| + Min(2, |decisions|))
        && (forall i :: 0 <= i < |r| && i < |active| ==> r[i] == ContinueStep(active[i]))
        && (forall i :: |active| <= i < |r| ==> r[i] == ImplementStep(decisions[i - |active|]))
  {
    var active := ActiveMilestones(milestones);
    var proposed := ProposedSteps(milestones, decisions);
    var r := NextSteps(milestones, decisions);
    ProposedStepsShape(milestones, decisions);
    if active != [] || decisions != [] {
      assert r == proposed[..Min(5, |proposed|)];
      if active != [] {
        assert r[0][0] == 'C';
      } else {
        assert r[0][0] == 'I';
      }
      assert ReviewStep[0] == 'R';
    } else {
      assert proposed == [];
    }
  }

  // ---------------------------------------------------------------------
  // Summaries and buildRestorationPrompt

  const NoSessionsSummary := "No previous sessions found"

  /** `summarizeSession(session)` */
  function SummarizeSession(session: SessionInfo): (r: string)
    ensures StartsWith(r, "Last session focused on ")
  {
    "Last session focused on " + TextOr(session.sessionName, "development work")
    + " with " + NatToString(session.messageCount) + " exchanges and "
    + NatToString(session.tokenCount) + " tokens used."
  }

  /** A record read from a file name has no name and zero counters, so
      every summary of one reads the same. */
  lemma SummaryOfListedSession(filename: string, parseDay: string -> Time, now: Time)
    ensures SummarizeSession(ParseSessionInfo(filename, parseDay, now))
         == "Last session focused on " + "development work" + " with " + "0" + " exchanges and " + "0" + " tokens used."
  {
    assert NatToString(0) == "0";
  }

  /** `xs.reverse()` */
  function Reversed<T>(xs: seq<T>): (r: seq<T>)
    ensures |r| == |xs| && forall i :: 0 <= i < |xs| ==> r[i] == xs[|xs| - 1 - i]
    decreases |xs|
  {
    if xs == [] then []
    else
      [xs[|xs| - 1]] + Reversed(xs[..|xs| - 1])
  }

  /** `sessions.slice(-count).reverse()`: the last `count` sessions, the
      newest first (`slice(-0)` keeps them all). */
  function Recent<T>(sessions: seq<T>, count: nat): (r: seq<T>)
    ensures |r| == (if count == 0 then |sessions| else Min(count, |sessions|))
    ensures forall i :: 0 <= i < |r| ==> r[i] == sessions[|sessions| - 1 - i]
  {
    var start := if count == 0 || count >= |sessions| then 0 else |sessions| - count;
    Reversed(sessions[start..])
  }

  /** The `lastSessionSummary` of `generateRestorationPrompt`: the summary
      of the first of the three most recent sessions. */
  function LastSessionSummary(sessions: seq<SessionInfo>): string {
    var recent := Recent(sessions, 3);
    if |recent| > 0 then SummarizeSession(recent[0]) else NoSessionsSummary
  }

  /** The placeholder appears exactly when there is no session; otherwise
      the summary is about the last session listed. */
  lemma LastSessionSummaryCases(sessions: seq<SessionInfo>)
    ensures LastSessionSummary(sessions) == NoSessionsSummary <==> sessions == []
    ensures sessions != [] ==> LastSessionSummary(sessions) == SummarizeSession(sessions[|sessions| - 1])
  {
    if sessions != [] {
      var r := SummarizeSession(sessions[|sessions| - 1]);
      assert r[0] == 'L' && NoSessionsSummary[0] == 'N';
    }
  }

  /** `items.map(x => `${prefix}${x}`)`: the key context is bulleted with
      `- `, the steps numbered with `1. `. */
  function Prefixed(items: seq<string>, prefix: string): (r: seq<string>)
    ensures |r| == |items| && forall i :: 0 <= i < |items| ==> r[i] == prefix + items[i]
  {
    seq(|items|, i requires 0 <= i < |items| => prefix + items[i])
  }

  const TitlePrefix := "# Context Restoration for "
  const PhasePrefix := "**Current Phase:** "
  const InstructionsStart := "You are continuing work on "
  /** The instruction sentence, in pieces short enough for `ChunkSingle`
      to check character by character. */
  const InstructionsEnd := ". Please review the" + " above context and let"
                            + " me know when you're ready" + " to proceed with the next steps."

  function Instructions(projectName: string): string {
    InstructionsStart + projectName + InstructionsEnd
  }

  /** The lines of the prompt template, each list joined into one. */
  function PromptParts(projectName: string, phase: string, last: string,
                       keyContext: seq<string>, nextSteps: seq<string>): seq<string> {
    [ TitlePrefix + projectName, "", "## Project Status", PhasePrefix + phase, "",
      "## Last Session Summary", last, "", "## Key Context" ]
    + [Join(Prefixed(keyContext, "- "), "\n")]
    + ["", "## Recommended Next Steps"]
    + [Join(Prefixed(nextSteps, "1. "), "\n")]
    + ["", "## Instructions", Instructions(projectName)]
  }

  /** `buildRestorationPrompt(...)` */
  function BuildRestorationPrompt(projectName: string, phase: string, last: string,
                                  keyContext: seq<string>, nextSteps: seq<string>): string {
    Join(PromptParts(projectName, phase, last, keyContext, nextSteps), "\n")
  }

  /** A joined list stands for its own lines, or one empty line. */
  function Block(xs: seq<string>): seq<string> {
    if xs == [] then [""] else xs
  }

  /** The prompt's lines: its sections with the bulleted context and the
      numbered steps one per line. */
  function PromptLines(projectName: string, phase: string, last: string,
                       keyContext: seq<string>, nextSteps: seq<string>): seq<string> {
    [ TitlePrefix + projectName, "", "## Project Status", PhasePrefix + phase, "",
      "## Last Session Summary", last, "", "## Key Context" ]
    + Block(Prefixed(keyContext, "- "))
    + ["", "## Recommended Next Steps"]
    + Block(Prefixed(nextSteps, "1. "))
    + ["", "## Instructions", Instructions(projectName)]
  }

  /** Splicing a joined list into a list to be joined with the same
      separator. */
  lemma JoinBlock(a: seq<string>, b: seq<string>, c: seq<string>)
    requires a != [] && c != []
    ensures Join(a + [Join(b, "\n")] + c, "\n") == Join(a + Block(b) + c, "\n")
  {
    if b != [] {
      JoinAppend(a, [Join(b, "\n")] + c, "\n");
      JoinAppend([Join(b, "\n")], c, "\n");
      JoinAppend(a, b + c, "\n");
      JoinAppend(b, c, "\n");
      assert a + [Join(b, "\n")] + c == a + ([Join(b, "\n")] + c);
      assert a + b + c == a + (b + c);
    } else {
      assert Block(b) == [Join(b, "\n")];
    }
  }

  lemma PromptLiteralsSingle()
    ensures SingleLine(TitlePrefix) && SingleLine(PhasePrefix) && SingleLine(InstructionsStart)
    ensures SingleLine("## Project Status") && SingleLine("## Last Session Summary")
    ensures SingleLine("## Key Context") && SingleLine("## Recommended Next Steps")
    ensures SingleLine("## Instructions")
  {
    ChunkSingle(TitlePrefix);
    ChunkSingle(PhasePrefix);
    ChunkSingle(InstructionsStart);
    ChunkSingle("## Project Status");
    ChunkSingle("## Last Session Summary");
    ChunkSingle("## Key Context");
    ChunkSingle("## Recommended Next Steps");
    ChunkSingle("## Instructions");
  }

  lemma InstructionsEndSingle()
    ensures SingleLine(InstructionsEnd)
  {
    ChunkSingle(". Please review the");
    ChunkSingle(" above context and let");
    ChunkSingle(" me know when you're ready");
    ChunkSingle(" to proceed with the next steps.");
  }

  lemma ChunkSingle(s: string)
    requires forall i :: 0 <= i < |s| ==> s[i] != '\n'
    ensures SingleLine(s)
  {
  }

  /** The prompt splits into its template lines when every value put into
      it is one line. */
  lemma PromptLinesRead(projectName: string, phase: string, last: string,
                        keyContext: seq<string>, nextSteps: seq<string>)
    requires SingleLine(projectName) && SingleLine(phase) && SingleLine(last)
    requires forall i :: 0 <= i < |keyContext| ==> SingleLine(keyContext[i])
    requires forall i :: 0 <= i < |nextSteps| ==> SingleLine(nextSteps[i])
    ensures Lines(BuildRestorationPrompt(projectName, phase, last, keyContext, nextSteps))
         == PromptLines(projectName, phase, last, keyContext, nextSteps)
  {
    PromptJoinsLines(projectName, phase, last, keyContext, nextSteps);
    PromptLinesSingle(projectName, phase, last, keyContext, nextSteps);
    LinesOfJoin(PromptLines(projectName, phase, last, keyContext, nextSteps));
  }

  /** Joining the parts is joining the template lines. */
  lemma PromptJoinsLines(projectName: string, phase: string, last: string,
                         keyContext: seq<string>, nextSteps: seq<string>)
    ensures BuildRestorationPrompt(projectName, phase, last, keyContext, nextSteps)
         == Join(PromptLines(projectName, phase, last, keyContext, nextSteps), "\n")
  {
    var head := [ TitlePrefix + projectName, "", "## Project Status", PhasePrefix + phase, "",
                  "## Last Session Summary", last, "", "## Key Context" ];
    var mid := ["", "## Recommended Next Steps"];
    var tail := ["", "## Instructions", Instructions(projectName)];
    var b, n := Prefixed(keyContext, "- "), Prefixed(nextSteps, "1. ");
    var jb, jn := Join(b, "\n"), Join(n, "\n");
    assert PromptParts(projectName, phase, last, keyContext, nextSteps) == head + [jb] + (mid + [jn] + tail);
    JoinBlock(head, b, mid + [jn] + tail);
    assert head + Block(b) + (mid + [jn] + tail) == (head + Block(b) + mid) + [jn] + tail;
    JoinBlock(head + Block(b) + mid, n, tail);
    assert head + Block(b) + mid + Block(n) + tail == PromptLines(projectName, phase, last, keyContext, nextSteps);
  }

  /** Every template line is one line when the values are. */
  lemma PromptLinesSingle(projectName: string, phase: string, last: string,
                          keyContext: seq<string>, nextSteps: seq<string>)
    requires SingleLine(projectName) && SingleLine(phase) && SingleLine(last)
    requires forall i :: 0 <= i < |keyContext| ==> SingleLine(keyContext[i])
    requires forall i :: 0 <= i < |nextSteps| ==> SingleLine(nextSteps[i])
    ensures var lines := PromptLines(projectName, phase, last, keyContext, nextSteps);
      forall i :: 0 <= i < |lines| ==> SingleLine(lines[i])
  {
    var head := [ TitlePrefix + projectName, "", "## Project Status", PhasePrefix + phase, "",
                  "## Last Session Summary", last, "", "## Key Context" ];
    var mid := ["", "## Recommended Next Steps"];
    var tail := ["", "## Instructions", Instructions(projectName)];
    var b, n := Prefixed(keyContext, "- "), Prefixed(nextSteps, "1. ");
    PromptLiteralsSingle();
    InstructionsEndSingle();
    assert SingleLine(Instructions(projectName)) by {
      assert Instructions(projectName) == InstructionsStart + projectName + InstructionsEnd;
    }
    assert forall i :: 0 <= i < |b| ==> SingleLine(b[i]);
    assert forall i :: 0 <= i < |n| ==> SingleLine(n[i]);
    AllSingle(head, Block(b), mid, Block(n), tail);
  }

  lemma AllSingle(head: seq<string>, b: seq<string>, mid: seq<string>, n: seq<string>, tail: seq<string>)
    requires forall i :: 0 <= i < |head| ==> SingleLine(head[i])
    requires forall i :: 0 <= i < |b| ==> SingleLine(b[i])
    requires forall i :: 0 <= i < |mid| ==> SingleLine(mid[i])
    requires forall i :: 0 <= i < |n| ==> SingleLine(n[i])
    requires forall i :: 0 <= i < |tail| ==> SingleLine(tail[i])
    ensures forall i :: 0 <= i < |head + b + mid + n + tail| ==> SingleLine((head + b + mid + n + tail)[i])
  {
  }

  /** Every context item is a `- ` line and every step a `1. ` line, in
      their order, between the title, phase and summary lines and the
      instructions. */
  lemma PromptListsInOrder(projectName: string, phase: string, last: string,
                           keyContext: seq<string>, nextSteps: seq<string>)
    requires SingleLine(projectName) && SingleLine(phase) && SingleLine(last)
    requires forall i :: 0 <= i < |keyContext| ==> SingleLine(keyContext[i])
    requires forall i :: 0 <= i < |nextSteps| ==> SingleLine(nextSteps[i])
    requires keyContext != [] && nextSteps != []
    ensures var lines := Lines(BuildRestorationPrompt(projectName, phase, last, keyContext, nextSteps));
      && |lines| == 14 + |keyContext| + |nextSteps|
      && lines[0] == TitlePrefix + projectName
      && lines[3] == PhasePrefix + phase
      && lines[6] == last
      && (forall i :: 0 <= i < |keyContext| ==> lines[9 + i] == "- " + keyContext[i])
      && (forall j :: 0 <= j < |nextSteps| ==> lines[11 + |keyContext| + j] == "1. " + nextSteps[j])
      && lines[|lines| - 1] == Instructions(projectName)
  {
    PromptLinesRead(projectName, phase, last, keyContext, nextSteps);
    PromptLinesInOrder(projectName, phase, last, keyContext, nextSteps);
  }

  /** The template lines with non-empty lists: nine head lines, the
      context, two lines, the steps, three lines. */
  lemma PromptLinesInOrder(projectName: string, phase: string, last: string,
                           keyContext: seq<string>, nextSteps: seq<string>)
    requires keyContext != [] && nextSteps != []
    ensures var lines := PromptLines(projectName, phase, last, keyContext, nextSteps);
      && |lines| == 14 + |keyContext| + |nextSteps|
      && lines[0] == TitlePrefix + projectName
      && lines[3] == PhasePrefix + phase
      && lines[6] == last
      && (forall i :: 0 <= i < |keyContext| ==> lines[9 + i] == "- " + keyContext[i])
      && (forall j :: 0 <= j < |nextSteps| ==> lines[11 + |keyContext| + j] == "1. " + nextSteps[j])
      && lines[|lines| - 1] == Instructions(projectName)
  {
    var head := [ TitlePrefix + projectName, "", "## Project Status", PhasePrefix + phase, "",
                  "## Last Session Summary", last, "", "## Key Context" ];
    var b, n := Prefixed(keyContext, "- "), Prefixed(nextSteps, "1. ");
    var mid := ["", "## Recommended Next Steps"];
    var tail := ["", "## Instructions", Instructions(projectName)];
    var front := head + b + mid;
    assert PromptLines(projectName, phase, last, keyContext, nextSteps) == front + n + tail;
    ConcatParts(head, b, mid);
    ConcatParts(front, n, tail);
  }
}
