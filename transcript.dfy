/** The markdown transcript an ended session leaves behind
    (src/session-tracker.ts, `generateSessionMarkdown`), the label-prefix
    parser that reads it back (`parseSessionFromMarkdown`), and the session
    id that parser takes from the transcript's file name. */
module Transcript {
  import opened Wrappers
  import opened Text
  import opened Records

  // ---------------------------------------------------------------------
  // Rendered dates

  /** A character of the date-fns patterns `yyyy-MM-dd` and `HH:mm:ss`. */
  predicate FormatChar(c: char) {
    IsDecimalDigit(c) || c == '-' || c == ':'
  }

  /** A date whose day and clock renderings are what `format` writes:
      non-empty, made of digits, dashes and colons. */
  predicate WellFormedTime(t: Time) {
    && t.day != [] && t.clock != []
    && (forall i :: 0 <= i < |t.day| ==> FormatChar(t.day[i]))
    && (forall i :: 0 <= i < |t.clock| ==> FormatChar(t.clock[i]))
  }

  /** `format(t, 'yyyy-MM-dd HH:mm:ss')` */
  function Stamp(t: Time): string {
    t.day + " " + t.clock
  }

  /** A rendered date is made of format characters and one blank. */
  lemma StampChars(t: Time)
    requires WellFormedTime(t)
    ensures forall i :: 0 <= i < |Stamp(t)| ==> FormatChar(Stamp(t)[i]) || Stamp(t)[i] == ' '
  {
    var s := Stamp(t);
    forall i | 0 <= i < |s|
      ensures FormatChar(s[i]) || s[i] == ' '
    {
      if i < |t.day| {
        assert s[i] == t.day[i];
      } else if i > |t.day| {
        assert s[i] == t.clock[i - |t.day| - 1];
      }
    }
  }

  /** A format character is not white space. */
  lemma FormatCharNotSpace(c: char)
    requires FormatChar(c)
    ensures !IsJsSpace(c)
  {
  }

  /** `trim` leaves a rendered date alone, whatever blank precedes it. */
  lemma TrimStamp(t: Time)
    requires WellFormedTime(t)
    ensures Trim(" " + Stamp(t)) == Stamp(t)
  {
    var s := Stamp(t);
    assert s[0] == t.day[0];
    assert s[|s| - 1] == t.clock[|t.clock| - 1];
    FormatCharNotSpace(t.day[0]);
    FormatCharNotSpace(t.clock[|t.clock| - 1]);
    TrimLeadingSpace(s);
    TrimOfTrimmed(s);
  }

  // ---------------------------------------------------------------------
  // The labels the parser looks for

  const ProjectLabel := "**Project:**"
  const NameLabel := "**Session Name:**"
  const StartLabel := "**Start Time:**"
  const EndLabel := "**End Time:**"
  const MessagesLabel := "**Messages:**"
  const TokensLabel := "**Total Tokens:**"

  // ---------------------------------------------------------------------
  // Rendering

  function RoleLabel(r: Role): string {
    match r
    case User => "\U{1F464} User"
    case Assistant => "\U{1F916} Assistant"
  }

  function StatusText(s: SessionStatus): string {
    match s
    case Active => "active"
    case Ended => "ended"
  }

  /** `session.sessionName || 'Unnamed Session'` */
  function DisplayName(name: Option<string>): string {
    if name.Some? && name.value != "" then name.value else "Unnamed Session"
  }

  /** The End Time field: the rendered end, or "Active" while unset. */
  function EndStamp(end: Option<Time>): string {
    match end
    case None => "Active"
    case Some(t) => Stamp(t)
  }

  /** The duration written for a session: its length in minutes, rounded
      to the nearest minute, halves up. */
  function DurationMinutes(start: Time, end: Time): (d: int)
    ensures 120000 * d - 60000 <= 2 * (end.millis - start.millis) < 120000 * d + 60000
  {
    RoundedQuotient(end.millis - start.millis, 60000)
  }

  /** The number of messages from `role`. */
  function CountRole(ms: seq<SessionMessage>, role: Role): (n: nat)
    ensures n <= |ms|
    decreases |ms|
  {
    if ms == [] then 0
    else CountRole(ms[..|ms| - 1], role) + (if ms[|ms| - 1].role == role then 1 else 0)
  }

  /** Every message is the user's or the assistant's, so the two role
      counts add up to the total. */
  lemma {:induction false} RoleCountsAddUp(ms: seq<SessionMessage>)
    ensures CountRole(ms, User) + CountRole(ms, Assistant) == |ms|
    decreases |ms|
  {
    if ms != [] {
      RoleCountsAddUp(ms[..|ms| - 1]);
    }
  }

  /** The summed JavaScript lengths of the message contents. */
  function TotalChars(ms: seq<SessionMessage>): nat
    decreases |ms|
  {
    if ms == [] then 0 else TotalChars(ms[..|ms| - 1]) + Utf16Length(ms[|ms| - 1].content)
  }

  /** `Math.round(chars / messages.length || 0)`: the rounded mean length,
      and 0 when there are no messages (0 / 0 is NaN, which `|| 0`
      replaces). */
  function AverageLength(ms: seq<SessionMessage>): (a: int)
    ensures a >= 0
    ensures |ms| == 0 ==> a == 0
    ensures |ms| > 0 ==> 2 * |ms| * a - |ms| <= 2 * TotalChars(ms) < 2 * |ms| * a + |ms|
  {
    if |ms| == 0 then 0 else RoundedQuotient(TotalChars(ms), |ms|)
  }

  /** `Math.round(tokens / Math.max(1, chars) * 1000)`: tokens per
      thousand characters, with the divisor kept at least 1. */
  function Efficiency(tokens: nat, chars: nat): (e: int)
    ensures e >= 0
    ensures var d := if chars == 0 then 1 else chars;
      2 * d * e - d <= 2000 * tokens < 2 * d * e + d
    ensures chars == 0 ==> e == 1000 * tokens
  {
    RoundedQuotient(1000 * tokens, if chars == 0 then 1 else chars)
  }

  // The transcript text, piece by piece as it is appended.

  function HeadText(session: SessionInfo): string {
    ("# Session " + session.id + "\n\n")
    + (ProjectLabel + " " + Basename(session.projectPath) + "\n")
    + (NameLabel + " " + DisplayName(session.sessionName) + "\n")
    + (StartLabel + " " + Stamp(session.startTime) + "\n")
    + (EndLabel + " " + EndStamp(session.endTime) + "\n")
  }

  /** The Duration line, written only for a nonzero duration. */
  function DurationText(duration: int): string {
    if duration != 0 then "**Duration:** " + IntToString(duration) + " minutes\n" else ""
  }

  /** The header's fallbacks: a session without a name (or with an empty
      one) is shown as "Unnamed Session", one without an end as "Active",
      and the Duration line is left out exactly for a zero duration. */
  lemma HeaderFallbacks(session: SessionInfo, duration: int)
    ensures (session.sessionName.None? || session.sessionName == Some("")) ==>
              DisplayName(session.sessionName) == "Unnamed Session"
    ensures session.endTime.None? ==> EndStamp(session.endTime) == "Active"
    ensures DurationText(duration) == "" <==> duration == 0
  {
  }

  function CounterText(session: SessionInfo): string {
    (MessagesLabel + " " + NatToString(session.messageCount) + "\n")
    + (TokensLabel + " " + NatToString(session.tokenCount) + "\n")
    + ("**Status:** " + StatusText(session.status) + "\n\n")
  }

  /** The summary section, written only for a non-empty summary. */
  function SummaryText(summary: Option<string>): string {
    if summary.Some? && summary.value != "" then "## Session Summary\n\n" + summary.value + "\n\n" else ""
  }

  function MessageHeading(m: SessionMessage): string {
    "### " + RoleLabel(m.role) + " (" + m.timestamp.clock + ") [" + NatToString(m.tokenCount) + " tokens]"
  }

  function MessageText(m: SessionMessage): string {
    ("### " + RoleLabel(m.role) + " (" + m.timestamp.clock + ") [" + NatToString(m.tokenCount) + " tokens]\n\n")
    + (m.content + "\n\n") + "---\n\n"
  }

  function ConversationText(ms: seq<SessionMessage>): string
    decreases |ms|
  {
    if ms == [] then "" else ConversationText(ms[..|ms| - 1]) + MessageText(ms[|ms| - 1])
  }

  const StatisticsHeading := "## Session Statistics"
  const ConversationHeading := "## Conversation"

  function TotalLine(ms: seq<SessionMessage>): string {
    "- **Total Messages:** " + NatToString(|ms|)
  }

  function UserLine(ms: seq<SessionMessage>): string {
    "- **User Messages:** " + NatToString(CountRole(ms, User))
  }

  function AssistantLine(ms: seq<SessionMessage>): string {
    "- **Assistant Messages:** " + NatToString(CountRole(ms, Assistant))
  }

  function AverageLine(ms: seq<SessionMessage>): string {
    "- **Average Message Length:** " + IntToString(AverageLength(ms)) + " characters"
  }

  function EfficiencyLine(session: SessionInfo, ms: seq<SessionMessage>): string {
    "- **Token Efficiency:** " + IntToString(Efficiency(session.tokenCount, TotalChars(ms)))
    + " tokens per 1000 characters"
  }

  function StatisticsText(session: SessionInfo, ms: seq<SessionMessage>): string {
    (StatisticsHeading + "\n\n")
    + (TotalLine(ms) + "\n") + (UserLine(ms) + "\n") + (AssistantLine(ms) + "\n")
    + (AverageLine(ms) + "\n") + (EfficiencyLine(session, ms) + "\n\n")
  }

  lemma ConversationSnoc(ms: seq<SessionMessage>, i: nat)
    requires i < |ms|
    ensures ConversationText(ms[..i + 1]) == ConversationText(ms[..i]) + MessageText(ms[i])
  {
    assert ms[..i + 1][..i] == ms[..i];
  }

  lemma TakeAll(ms: seq<SessionMessage>)
    ensures ms[..|ms|] == ms
  {
  }

  /** One pass of the conversation loop appends one message block. */
  lemma ConversationStep(before: string, ms: seq<SessionMessage>, i: nat)
    requires i < |ms|
    ensures var m := ms[i];
      before + ConversationText(ms[..i])
      + ("### " + RoleLabel(m.role) + " (" + m.timestamp.clock + ") [" + NatToString(m.tokenCount) + " tokens]\n\n")
      + (m.content + "\n\n") + "---\n\n"
      == before + ConversationText(ms[..i + 1])
  {
    var m := ms[i];
    var heading := "### " + RoleLabel(m.role) + " (" + m.timestamp.clock + ") [" + NatToString(m.tokenCount) + " tokens]\n\n";
    AppendAssoc(before + ConversationText(ms[..i]), heading + (m.content + "\n\n"), "---\n\n");
    AppendAssoc(before + ConversationText(ms[..i]), heading, m.content + "\n\n");
    AppendAssoc(before, ConversationText(ms[..i]), MessageText(m));
    ConversationSnoc(ms, i);
  }

  /** Appending the statistics block line by line. */
  lemma StatisticsAppend(prefix: string, session: SessionInfo, ms: seq<SessionMessage>)
    ensures prefix + (StatisticsHeading + "\n\n") + (TotalLine(ms) + "\n") + (UserLine(ms) + "\n")
            + (AssistantLine(ms) + "\n") + (AverageLine(ms) + "\n") + (EfficiencyLine(session, ms) + "\n\n")
            == prefix + StatisticsText(session, ms)
  {
    var s0 := (StatisticsHeading + "\n\n");
    var s1 := s0 + (TotalLine(ms) + "\n");
    var s2 := s1 + (UserLine(ms) + "\n");
    var s3 := s2 + (AssistantLine(ms) + "\n");
    var s4 := s3 + (AverageLine(ms) + "\n");
    AppendAssoc(prefix, s4, EfficiencyLine(session, ms) + "\n\n");
    AppendAssoc(prefix, s3, AverageLine(ms) + "\n");
    AppendAssoc(prefix, s2, AssistantLine(ms) + "\n");
    AppendAssoc(prefix, s1, UserLine(ms) + "\n");
    AppendAssoc(prefix, s0, TotalLine(ms) + "\n");
  }

  /** The transcript `generateSessionMarkdown` writes for a session, its
      messages, an optional summary and a duration in minutes. */
  function SessionMarkdown(session: SessionInfo, ms: seq<SessionMessage>, summary: Option<string>, duration: int): string {
    HeadText(session) + DurationText(duration) + CounterText(session) + SummaryText(summary)
    + (ConversationHeading + "\n\n") + ConversationText(ms) + StatisticsText(session, ms)
  }

  /** The opening part of `generateSessionMarkdown`: the header, the
      optional summary and the Conversation heading. */
  method RenderHeader(session: SessionInfo, summary: Option<string>, duration: int) returns (markdown: string)
    ensures markdown == HeadText(session) + DurationText(duration) + CounterText(session)
                        + SummaryText(summary) + (ConversationHeading + "\n\n")
  {
    var startTime := Stamp(session.startTime);
    var endTime := EndStamp(session.endTime);

    markdown := "# Session " + session.id + "\n\n";
    markdown := markdown + (ProjectLabel + " " + Basename(session.projectPath) + "\n");
    markdown := markdown + (NameLabel + " " + DisplayName(session.sessionName) + "\n");
    markdown := markdown + (StartLabel + " " + startTime + "\n");
    markdown := markdown + (EndLabel + " " + endTime + "\n");
    ghost var head := markdown;
    if duration != 0 {
      markdown := markdown + ("**Duration:** " + IntToString(duration) + " minutes\n");
    }
    assert markdown == head + DurationText(duration);
    ghost var counted := markdown;
    markdown := markdown + (MessagesLabel + " " + NatToString(session.messageCount) + "\n");
    markdown := markdown + (TokensLabel + " " + NatToString(session.tokenCount) + "\n");
    markdown := markdown + ("**Status:** " + StatusText(session.status) + "\n\n");
    AppendAssoc(counted, (MessagesLabel + " " + NatToString(session.messageCount) + "\n")
                         + (TokensLabel + " " + NatToString(session.tokenCount) + "\n"),
                "**Status:** " + StatusText(session.status) + "\n\n");
    AppendAssoc(counted, MessagesLabel + " " + NatToString(session.messageCount) + "\n",
                TokensLabel + " " + NatToString(session.tokenCount) + "\n");
    assert markdown == counted + CounterText(session);
    ghost var summarised := markdown;
    if summary.Some? && summary.value != "" {
      markdown := markdown + ("## Session Summary\n\n" + summary.value + "\n\n");
    }
    assert markdown == summarised + SummaryText(summary);
    markdown := markdown + (ConversationHeading + "\n\n");
  }

  /** The closing part of `generateSessionMarkdown`: the statistics block,
      line by line. */
  method AppendStatistics(text: string, session: SessionInfo, messages: seq<SessionMessage>) returns (markdown: string)
    ensures markdown == text + StatisticsText(session, messages)
  {
    markdown := text;
    var chars := TotalChars(messages);
    markdown := markdown + (StatisticsHeading + "\n\n");
    markdown := markdown + ("- **Total Messages:** " + NatToString(|messages|) + "\n");
    markdown := markdown + ("- **User Messages:** " + NatToString(CountRole(messages, User)) + "\n");
    markdown := markdown + ("- **Assistant Messages:** " + NatToString(CountRole(messages, Assistant)) + "\n");
    markdown := markdown + ("- **Average Message Length:** " + IntToString(AverageLength(messages)) + " characters" + "\n");
    markdown := markdown + ("- **Token Efficiency:** " + IntToString(Efficiency(session.tokenCount, chars))
                            + " tokens per 1000 characters" + "\n\n");
    StatisticsAppend(text, session, messages);
  }

  /** `generateSessionMarkdown(session, messages, summary, duration)`:
      the header, then one block per message, then the statistics, each
      appended in turn. */
  method GenerateSessionMarkdown(session: SessionInfo, messages: seq<SessionMessage>,
                                 summary: Option<string>, duration: int) returns (markdown: string)
    ensures markdown == SessionMarkdown(session, messages, summary, duration)
  {
    markdown := RenderHeader(session, summary, duration);
    ghost var before := markdown;

    var i := 0;
    while i < |messages|
      invariant 0 <= i <= |messages|
      invariant markdown == before + ConversationText(messages[..i])
    {
      var message := messages[i];
      var timestamp := message.timestamp.clock;
      var role := RoleLabel(message.role);
      markdown := markdown + ("### " + role + " (" + timestamp + ") [" + NatToString(message.tokenCount) + " tokens]\n\n");
      markdown := markdown + (message.content + "\n\n");
      markdown := markdown + "---\n\n";
      ConversationStep(before, messages, i);
      i := i + 1;
    }
    TakeAll(messages);

    markdown := AppendStatistics(markdown, session, messages);
  }

  // ---------------------------------------------------------------------
  // The transcript as lines

  function HeadLines(session: SessionInfo): seq<string> {
    ["# Session " + session.id, "",
     ProjectLabel + " " + Basename(session.projectPath),
     NameLabel + " " + DisplayName(session.sessionName),
     StartLabel + " " + Stamp(session.startTime),
     EndLabel + " " + EndStamp(session.endTime)]
  }

  function DurationLines(duration: int): seq<string> {
    if duration != 0 then ["**Duration:** " + IntToString(duration) + " minutes"] else []
  }

  function CounterLines(session: SessionInfo): seq<string> {
    [MessagesLabel + " " + NatToString(session.messageCount),
     TokensLabel + " " + NatToString(session.tokenCount),
     "**Status:** " + StatusText(session.status), ""]
  }

  function SummaryLines(summary: Option<string>): seq<string> {
    if summary.Some? && summary.value != "" then ["## Session Summary", "", summary.value, ""] else []
  }

  function MessageLines(m: SessionMessage): seq<string> {
    [MessageHeading(m), "", m.content, "", "---", ""]
  }

  function ConversationLines(ms: seq<SessionMessage>): seq<string>
    decreases |ms|
  {
    if ms == [] then [] else ConversationLines(ms[..|ms| - 1]) + MessageLines(ms[|ms| - 1])
  }

  function StatisticsLines(session: SessionInfo, ms: seq<SessionMessage>): seq<string> {
    [StatisticsHeading, "", TotalLine(ms), UserLine(ms), AssistantLine(ms), AverageLine(ms),
     EfficiencyLine(session, ms), ""]
  }

  function HeaderLines(session: SessionInfo, duration: int): seq<string> {
    HeadLines(session) + DurationLines(duration) + CounterLines(session)
  }

  function TailLines(session: SessionInfo, ms: seq<SessionMessage>, summary: Option<string>): seq<string> {
    SummaryLines(summary) + [ConversationHeading, ""] + ConversationLines(ms) + StatisticsLines(session, ms)
  }

  lemma Emit1(lines: seq<string>, x: string)
    ensures Unlines(lines + [x]) == Unlines(lines) + (x + "\n")
  {
    UnlinesSnoc(lines, x);
  }

  lemma Emit2(lines: seq<string>, x: string)
    ensures Unlines(lines + [x, ""]) == Unlines(lines) + (x + "\n\n")
  {
    UnlinesSnoc(lines, x);
    UnlinesSnoc(lines + [x], "");
    assert lines + [x] + [""] == lines + [x, ""];
  }

  // The shapes of the blocks, over arbitrary lines.

  lemma HeadShape(t: string, p: string, n: string, st: string, e: string)
    ensures Unlines([t, "", p, n, st, e])
            == (t + "\n\n") + (p + "\n") + (n + "\n") + (st + "\n") + (e + "\n")
  {
    Emit2([], t);
    assert [] + [t, ""] == [t, ""];
    Emit1([t, ""], p);
    assert [t, ""] + [p] == [t, "", p];
    Emit1([t, "", p], n);
    assert [t, "", p] + [n] == [t, "", p, n];
    Emit1([t, "", p, n], st);
    assert [t, "", p, n] + [st] == [t, "", p, n, st];
    Emit1([t, "", p, n, st], e);
    assert [t, "", p, n, st] + [e] == [t, "", p, n, st, e];
  }

  lemma CounterShape(m: string, t: string, st: string)
    ensures Unlines([m, t, st, ""]) == (m + "\n") + (t + "\n") + (st + "\n\n")
  {
    Emit1([], m);
    assert [] + [m] == [m];
    Emit1([m], t);
    assert [m] + [t] == [m, t];
    Emit2([m, t], st);
    assert [m, t] + [st, ""] == [m, t, st, ""];
  }

  lemma StatisticsShape(h: string, a: string, b: string, c: string, d: string, e: string)
    ensures Unlines([h, "", a, b, c, d, e, ""])
            == (h + "\n\n") + (a + "\n") + (b + "\n") + (c + "\n") + (d + "\n") + (e + "\n\n")
  {
    Emit2([], h);
    assert [] + [h, ""] == [h, ""];
    Emit1([h, ""], a);
    assert [h, ""] + [a] == [h, "", a];
    Emit1([h, "", a], b);
    assert [h, "", a] + [b] == [h, "", a, b];
    Emit1([h, "", a, b], c);
    assert [h, "", a, b] + [c] == [h, "", a, b, c];
    Emit1([h, "", a, b, c], d);
    assert [h, "", a, b, c] + [d] == [h, "", a, b, c, d];
    Emit2([h, "", a, b, c, d], e);
    assert [h, "", a, b, c, d] + [e, ""] == [h, "", a, b, c, d, e, ""];
  }

  lemma HeadTextLines(session: SessionInfo)
    ensures HeadText(session) == Unlines(HeadLines(session))
  {
    HeadShape("# Session " + session.id, ProjectLabel + " " + Basename(session.projectPath),
              NameLabel + " " + DisplayName(session.sessionName), StartLabel + " " + Stamp(session.startTime),
              EndLabel + " " + EndStamp(session.endTime));
  }

  lemma DurationTextLines(duration: int)
    ensures DurationText(duration) == Unlines(DurationLines(duration))
  {
    if duration != 0 {
      Emit1([], "**Duration:** " + IntToString(duration) + " minutes");
      assert [] + ["**Duration:** " + IntToString(duration) + " minutes"] == DurationLines(duration);
    }
  }

  lemma CounterTextLines(session: SessionInfo)
    ensures CounterText(session) == Unlines(CounterLines(session))
  {
    CounterShape(MessagesLabel + " " + NatToString(session.messageCount),
                 TokensLabel + " " + NatToString(session.tokenCount),
                 "**Status:** " + StatusText(session.status));
  }

  lemma SummaryTextLines(summary: Option<string>)
    ensures SummaryText(summary) == Unlines(SummaryLines(summary))
  {
    if summary.Some? && summary.value != "" {
      Emit2([], "## Session Summary");
      assert [] + ["## Session Summary", ""] == ["## Session Summary", ""];
      Emit2(["## Session Summary", ""], summary.value);
      assert ["## Session Summary", ""] + [summary.value, ""] == SummaryLines(summary);
      AppendAssoc("## Session Summary\n\n", summary.value, "\n\n");
    }
  }

  lemma MessageTextLines(m: SessionMessage)
    ensures MessageText(m) == Unlines(MessageLines(m))
  {
    var h := MessageHeading(m);
    Emit2([], h);
    assert [] + [h, ""] == [h, ""];
    Emit2([h, ""], m.content);
    assert [h, ""] + [m.content, ""] == [h, "", m.content, ""];
    Emit2([h, "", m.content, ""], "---");
    assert [h, "", m.content, ""] + ["---", ""] == MessageLines(m);
  }

  lemma {:induction false} ConversationTextLines(ms: seq<SessionMessage>)
    ensures ConversationText(ms) == Unlines(ConversationLines(ms))
    decreases |ms|
  {
    if ms != [] {
      ConversationTextLines(ms[..|ms| - 1]);
      MessageTextLines(ms[|ms| - 1]);
      UnlinesAppend(ConversationLines(ms[..|ms| - 1]), MessageLines(ms[|ms| - 1]));
    }
  }

  lemma StatisticsTextLines(session: SessionInfo, ms: seq<SessionMessage>)
    ensures StatisticsText(session, ms) == Unlines(StatisticsLines(session, ms))
  {
    StatisticsShape(StatisticsHeading, TotalLine(ms), UserLine(ms), AssistantLine(ms),
                    AverageLine(ms), EfficiencyLine(session, ms));
  }

  lemma Regroup(a: string, b: string, c: string, d: string, e: string, f: string, g: string)
    ensures (a + b + c) + (d + e + f + g) == a + b + c + d + e + f + g
  {
    AppendAssoc(a + b + c, d + e + f, g);
    AppendAssoc(a + b + c, d + e, f);
    AppendAssoc(a + b + c, d, e);
  }

  lemma HeaderUnlines(session: SessionInfo, duration: int)
    ensures Unlines(HeaderLines(session, duration))
            == HeadText(session) + DurationText(duration) + CounterText(session)
  {
    var h, d, c := HeadLines(session), DurationLines(duration), CounterLines(session);
    HeadTextLines(session);
    DurationTextLines(duration);
    CounterTextLines(session);
    UnlinesAppend(h, d);
    UnlinesAppend(h + d, c);
  }

  lemma ConversationHeadingLines()
    ensures Unlines([ConversationHeading, ""]) == (ConversationHeading + "\n\n")
  {
    Emit2([], ConversationHeading);
    assert [] + [ConversationHeading, ""] == [ConversationHeading, ""];
  }

  lemma TailUnlines(session: SessionInfo, ms: seq<SessionMessage>, summary: Option<string>)
    ensures Unlines(TailLines(session, ms, summary))
            == SummaryText(summary) + (ConversationHeading + "\n\n") + ConversationText(ms) + StatisticsText(session, ms)
  {
    var s, v, k, t := SummaryLines(summary), [ConversationHeading, ""], ConversationLines(ms), StatisticsLines(session, ms);
    SummaryTextLines(summary);
    ConversationHeadingLines();
    ConversationTextLines(ms);
    StatisticsTextLines(session, ms);
    UnlinesAppend(s, v);
    UnlinesAppend(s + v, k);
    UnlinesAppend(s + v + k, t);
  }

  /** The transcript is exactly its lines, each ended by a newline. */
  lemma SessionMarkdownLines(session: SessionInfo, ms: seq<SessionMessage>, summary: Option<string>, duration: int)
    ensures SessionMarkdown(session, ms, summary, duration)
            == Unlines(HeaderLines(session, duration) + TailLines(session, ms, summary))
  {
    UnlinesAppend(HeaderLines(session, duration), TailLines(session, ms, summary));
    HeaderUnlines(session, duration);
    TailUnlines(session, ms, summary);
    Regroup(HeadText(session), DurationText(duration), CounterText(session), SummaryText(summary),
            (ConversationHeading + "\n\n"), ConversationText(ms), StatisticsText(session, ms));
  }

  // ---------------------------------------------------------------------
  // Reading a transcript back: parseSessionFromMarkdown

  /** What the parser recovers from a transcript: every field it may leave
      unset is an `Option`. */
  datatype SessionRecord = SessionRecord(
    id: string,
    projectPath: Option<string>,
    sessionName: Option<string>,
    startTime: Option<Time>,
    endTime: Option<Time>,
    messageCount: Option<JsNumber>,
    tokenCount: Option<JsNumber>,
    status: SessionStatus)

  const SessionPrefix := "session_"

  /** The lazy group of `/session_(.+?)_/` run on the text `t` after
      `session_`, trying the group length `j` and up: every character of the
      group must be one `.` matches, and the group ends at the first `_`
      after its first character. */
  function CaptureFrom(t: string, j: nat): (r: Option<string>)
    requires j >= 1 && forall k :: 1 <= k < j && k < |t| ==> t[k] != '_'
    requires forall k :: 0 <= k < j - 1 && k < |t| ==> !IsLineTerminator(t[k])
    ensures r.Some? ==> |r.value| >= 1 && StartsWith(t, r.value) && |r.value| < |t| && t[|r.value|] == '_'
    ensures r.Some? ==> forall k :: 1 <= k < |r.value| ==> r.value[k] != '_'
    ensures r.Some? ==> forall k :: 0 <= k < |r.value| ==> !IsLineTerminator(r.value[k])
    decreases |t| - j
  {
    if j >= |t| || IsLineTerminator(t[j - 1]) then None
    else if t[j] == '_' then Some(t[..j])
    else CaptureFrom(t, j + 1)
  }

  /** `/session_(.+?)_/` matched at the leftmost position `i` or after. */
  function MatchSessionId(s: string, i: nat): (r: Option<string>)
    requires i <= |s|
    ensures r.Some? ==> r.value != []
    decreases |s| - i
  {
    if StartsWith(s[i..], SessionPrefix) && CaptureFrom(s[i + |SessionPrefix|..], 1).Some? then
      CaptureFrom(s[i + |SessionPrefix|..], 1)
    else if i == |s| then None
    else MatchSessionId(s, i + 1)
  }

  /** `filename.match(/session_(.+?)_/)?.[1] || filename`: the group is
      never empty, so the file name stands in only when nothing matches. */
  function ParsedSessionId(filename: string): (id: string)
    ensures id != [] || filename == []
  {
    match MatchSessionId(filename, 0)
    case Some(c) => c
    case None => filename
  }

  /** The text of a `**Label:**` line after the label, up to the label's
      next occurrence: `line.split(label)[1]` for a line starting with the
      (non-empty) label. */
  function SplitSecond(line: string, key: string): (r: string)
    requires key != [] && StartsWith(line, key)
    ensures StartsWith(line[|key|..], r)
    ensures !Contains(line[|key|..], key) ==> r == line[|key|..]
  {
    Before(line[|key|..], key)
  }

  /** `line.split(key)[1].trim()` */
  function FieldValue(line: string, key: string): string
    requires key != [] && StartsWith(line, key)
  {
    Trim(SplitSecond(line, key))
  }

  /** The parser's record before the first line: the id from the file
      name, and `ended` whatever the transcript says. */
  function InitialRecord(filename: string): SessionRecord {
    SessionRecord(ParsedSessionId(filename), None, None, None, None, None, None, Ended)
  }

  /** One pass of the parser's loop: the six label tests in the order the
      source makes them, each able to overwrite what an earlier line set.
      The project line yields the working directory `cwd`, whatever path it
      shows; `parseDate` is `new Date(...)`. */
  function Step(rec: SessionRecord, line: string, cwd: string, parseDate: string -> Time): SessionRecord {
    var r1 := if StartsWith(line, ProjectLabel) then rec.(projectPath := Some(cwd)) else rec;
    var r2 := if StartsWith(line, StartLabel)
              then r1.(startTime := Some(parseDate(FieldValue(line, StartLabel)))) else r1;
    var r3 := if StartsWith(line, EndLabel) && !Contains(line, "Active")
              then r2.(endTime := Some(parseDate(FieldValue(line, EndLabel)))) else r2;
    var r4 := if StartsWith(line, MessagesLabel)
              then r3.(messageCount := Some(ParseInt(FieldValue(line, MessagesLabel)))) else r3;
    var r5 := if StartsWith(line, TokensLabel)
              then r4.(tokenCount := Some(ParseInt(FieldValue(line, TokensLabel)))) else r4;
    if StartsWith(line, NameLabel) then r5.(sessionName := Some(FieldValue(line, NameLabel))) else r5
  }

  /** The parser run over a list of lines. */
  function ParseLines(rec: SessionRecord, lines: seq<string>, cwd: string, parseDate: string -> Time): SessionRecord
    decreases |lines|
  {
    if lines == [] then rec
    else Step(ParseLines(rec, lines[..|lines| - 1], cwd, parseDate), lines[|lines| - 1], cwd, parseDate)
  }

  /** What `parseSessionFromMarkdown(content, filename)` returns. */
  function ParseTranscript(content: string, filename: string, cwd: string, parseDate: string -> Time): SessionRecord {
    ParseLines(InitialRecord(filename), Lines(content), cwd, parseDate)
  }

  /** `parseSessionFromMarkdown`: the loop over the lines of the file. */
  method ParseSessionFromMarkdown(content: string, filename: string, cwd: string, parseDate: string -> Time)
    returns (session: SessionRecord)
    ensures session == ParseTranscript(content, filename, cwd, parseDate)
  {
    var lines := Lines(content);
    session := InitialRecord(filename);
    var i := 0;
    while i < |lines|
      invariant 0 <= i <= |lines|
      invariant session == ParseLines(InitialRecord(filename), lines[..i], cwd, parseDate)
    {
      assert lines[..i + 1][..i] == lines[..i];
      session := Step(session, lines[i], cwd, parseDate);
      i := i + 1;
    }
    assert lines[..i] == lines;
  }

  // The id the parser recovers.

  lemma {:induction false} CaptureOf(id: string, rest: string, j: nat)
    requires 1 <= j <= |id|
    requires '_' !in id && forall k :: 0 <= k < |id| ==> !IsLineTerminator(id[k])
    ensures CaptureFrom(id + "_" + rest, j) == Some(id)
    decreases |id| - j
  {
    var t := id + "_" + rest;
    assert t[j - 1] == id[j - 1];
    if j < |id| {
      assert t[j] == id[j];
      CaptureOf(id, rest, j + 1);
    } else {
      assert t[j] == '_';
      assert t[..j] == id;
    }
  }

  /** A file named `session_<id>_<rest>` yields the id back, provided the
      id is non-empty, has no `_` and no line terminator. */
  lemma SessionIdRecovered(id: string, rest: string)
    requires id != [] && '_' !in id && forall k :: 0 <= k < |id| ==> !IsLineTerminator(id[k])
    ensures ParsedSessionId(SessionPrefix + id + "_" + rest) == id
  {
    var s := SessionPrefix + id + "_" + rest;
    CaptureOf(id, rest, 1);
    assert s[0..] == s && StartsWith(s, SessionPrefix);
    assert s[|SessionPrefix|..] == id + "_" + rest;
  }

  /** The name of the file a transcript is written to; the part after the
      id is the day of the start time. */
  function TranscriptFileName(session: SessionInfo): string {
    SessionPrefix + session.id + "_" + session.startTime.day + ".md"
  }

  /** Ids made by the tracker are `session_<time>_<random>`, so the name of
      their transcript begins `session_session_` and the parser reads every
      such id back as the same word, `session`. */
  lemma TrackerIdsReadBackAsSession(session: SessionInfo)
    requires StartsWith(session.id, SessionPrefix)
    ensures ParsedSessionId(TranscriptFileName(session)) == "session"
  {
    var rest := session.id[|SessionPrefix|..] + "_" + session.startTime.day + ".md";
    assert session.id == SessionPrefix + session.id[|SessionPrefix|..];
    assert TranscriptFileName(session) == SessionPrefix + "session" + "_" + rest;
    SessionIdRecovered("session", rest);
  }

  // ---------------------------------------------------------------------
  // Reading back what was written

  /** A line none of the six label tests fires on. */
  predicate Inert(line: string) {
    && !StartsWith(line, ProjectLabel) && !StartsWith(line, StartLabel) && !StartsWith(line, EndLabel)
    && !StartsWith(line, MessagesLabel) && !StartsWith(line, TokensLabel) && !StartsWith(line, NameLabel)
  }

  /** A text none of whose lines the parser reacts to. */
  predicate InertText(s: string) {
    forall i :: 0 <= i < |Lines(s)| ==> Inert(Lines(s)[i])
  }

  predicate AllInert(xs: seq<string>) {
    forall i :: 0 <= i < |xs| ==> InertText(xs[i])
  }

  /** Every label begins with `*`, so no other line is a label line. */
  lemma InertUnlessStar(line: string)
    requires line == [] || line[0] != '*'
    ensures Inert(line)
  {
    NotStartsWithAt(line, ProjectLabel, 0);
    NotStartsWithAt(line, StartLabel, 0);
    NotStartsWithAt(line, EndLabel, 0);
    NotStartsWithAt(line, MessagesLabel, 0);
    NotStartsWithAt(line, TokensLabel, 0);
    NotStartsWithAt(line, NameLabel, 0);
  }

  lemma InertLine(line: string)
    requires '\n' !in line && Inert(line)
    ensures InertText(line)
  {
    LinesOfLine(line);
  }

  lemma InertPlain(line: string)
    requires '\n' !in line && (line == [] || line[0] != '*')
    ensures InertText(line)
  {
    InertUnlessStar(line);
    InertLine(line);
  }

  /** The lines the parser skips leave its record alone. */
  lemma {:induction false} ParseLinesInert(rec: SessionRecord, lines: seq<string>, cwd: string, parseDate: string -> Time)
    requires forall i :: 0 <= i < |lines| ==> Inert(lines[i])
    ensures ParseLines(rec, lines, cwd, parseDate) == rec
    decreases |lines|
  {
    if lines != [] {
      ParseLinesInert(rec, lines[..|lines| - 1], cwd, parseDate);
    }
  }

  lemma {:induction false} ParseLinesAppend(rec: SessionRecord, xs: seq<string>, ys: seq<string>,
                                            cwd: string, parseDate: string -> Time)
    ensures ParseLines(rec, xs + ys, cwd, parseDate)
            == ParseLines(ParseLines(rec, xs, cwd, parseDate), ys, cwd, parseDate)
    decreases |ys|
  {
    if ys != [] {
      assert (xs + ys)[..|xs + ys| - 1] == xs + ys[..|ys| - 1];
      ParseLinesAppend(rec, xs, ys[..|ys| - 1], cwd, parseDate);
    } else {
      assert xs + ys == xs;
    }
  }

  lemma {:induction false} InertLinesOfAll(xs: seq<string>)
    requires AllInert(xs)
    ensures forall j :: 0 <= j < |LinesOfAll(xs)| ==> Inert(LinesOfAll(xs)[j])
    decreases |xs|
  {
    if xs != [] {
      InertLinesOfAll(xs[..|xs| - 1]);
      assert InertText(xs[|xs| - 1]);
    }
  }

  lemma AllInertAppend(xs: seq<string>, ys: seq<string>)
    requires AllInert(xs) && AllInert(ys)
    ensures AllInert(xs + ys)
  {
    forall i | 0 <= i < |xs + ys|
      ensures InertText((xs + ys)[i])
    {
      if i < |xs| {
        assert (xs + ys)[i] == xs[i];
      } else {
        assert (xs + ys)[i] == ys[i - |xs|];
      }
    }
  }

  lemma AllInertFour(a: string, b: string, c: string, d: string)
    requires InertText(a) && InertText(b) && InertText(c) && InertText(d)
    ensures AllInert([a, b, c, d])
  {
  }

  lemma AllInertSix(a: string, b: string, c: string, d: string, e: string, f: string)
    requires InertText(a) && InertText(b) && InertText(c) && InertText(d) && InertText(e) && InertText(f)
    ensures AllInert([a, b, c, d, e, f])
  {
  }

  lemma AllInertEight(a: string, b: string, c: string, d: string, e: string, f: string, g: string, h: string)
    requires InertText(a) && InertText(b) && InertText(c) && InertText(d)
    requires InertText(e) && InertText(f) && InertText(g) && InertText(h)
    ensures AllInert([a, b, c, d, e, f, g, h])
  {
  }

  /** A numeral has neither a newline nor a `*`. */
  lemma PlainNumeral(s: string)
    requires forall k :: 0 <= k < |s| ==> s[k] == '-' || IsDecimalDigit(s[k])
    ensures '\n' !in s && '*' !in s
  {
  }

  lemma NatNumeral(n: nat)
    ensures '\n' !in NatToString(n) && '*' !in NatToString(n)
  {
    PlainNumeral(NatToString(n));
  }

  lemma IntNumeral(i: int)
    ensures '\n' !in IntToString(i) && '*' !in IntToString(i)
  {
    PlainNumeral(IntToString(i));
  }

  lemma FormatText(s: string)
    requires forall k :: 0 <= k < |s| ==> FormatChar(s[k])
    ensures '\n' !in s
  {
  }

  /** A rendered date has no newline, no `*` and no `A`. */
  lemma StampAvoids(t: Time)
    requires WellFormedTime(t)
    ensures '\n' !in Stamp(t) && '*' !in Stamp(t) && 'A' !in Stamp(t)
  {
    StampChars(t);
  }

  lemma InertMessage(m: SessionMessage)
    requires WellFormedTime(m.timestamp) && InertText(m.content)
    ensures AllInert(MessageLines(m))
  {
    var h := MessageHeading(m);
    assert '\n' !in RoleLabel(m.role);
    FormatText(m.timestamp.clock);
    NatNumeral(m.tokenCount);
    InertPlain(h);
    InertPlain("");
    InertPlain("---");
    AllInertSix(h, "", m.content, "", "---", "");
  }

  lemma {:induction false} InertConversation(ms: seq<SessionMessage>)
    requires forall i :: 0 <= i < |ms| ==> WellFormedTime(ms[i].timestamp) && InertText(ms[i].content)
    ensures AllInert(ConversationLines(ms))
    decreases |ms|
  {
    if ms != [] {
      InertConversation(ms[..|ms| - 1]);
      InertMessage(ms[|ms| - 1]);
      AllInertAppend(ConversationLines(ms[..|ms| - 1]), MessageLines(ms[|ms| - 1]));
    }
  }

  /** A one-line text that does not begin with `*` is inert. */
  lemma InertPrefixed(prefix: string, rest: string)
    requires prefix != [] && prefix[0] != '*'
    requires '\n' !in prefix && '\n' !in rest
    ensures InertText(prefix + rest)
  {
    var line := prefix + rest;
    assert line[0] == prefix[0];
    InertPlain(line);
  }

  lemma InertCountLine(prefix: string, n: nat)
    requires prefix != [] && prefix[0] != '*' && '\n' !in prefix
    ensures InertText(prefix + NatToString(n))
  {
    NatNumeral(n);
    InertPrefixed(prefix, NatToString(n));
  }

  lemma InertTotalLine(ms: seq<SessionMessage>)
    ensures InertText(TotalLine(ms))
  {
    InertCountLine("- **Total Messages:** ", |ms|);
  }

  lemma InertUserLine(ms: seq<SessionMessage>)
    ensures InertText(UserLine(ms))
  {
    InertCountLine("- **User Messages:** ", CountRole(ms, User));
  }

  lemma InertAssistantLine(ms: seq<SessionMessage>)
    ensures InertText(AssistantLine(ms))
  {
    InertCountLine("- **Assistant Messages:** ", CountRole(ms, Assistant));
  }

  lemma InertAverageLine(ms: seq<SessionMessage>)
    ensures InertText(AverageLine(ms))
  {
    IntNumeral(AverageLength(ms));
    InertPrefixed("- **Average Message Length:** ", IntToString(AverageLength(ms)) + " characters");
    AppendAssoc("- **Average Message Length:** ", IntToString(AverageLength(ms)), " characters");
  }

  lemma InertEfficiencyLine(session: SessionInfo, ms: seq<SessionMessage>)
    ensures InertText(EfficiencyLine(session, ms))
  {
    var e := IntToString(Efficiency(session.tokenCount, TotalChars(ms)));
    IntNumeral(Efficiency(session.tokenCount, TotalChars(ms)));
    InertPrefixed("- **Token Efficiency:** ", e + " tokens per 1000 characters");
    AppendAssoc("- **Token Efficiency:** ", e, " tokens per 1000 characters");
  }

  lemma InertStatistics(session: SessionInfo, ms: seq<SessionMessage>)
    ensures AllInert(StatisticsLines(session, ms))
  {
    InertPlain(StatisticsHeading);
    InertPlain("");
    InertTotalLine(ms);
    InertUserLine(ms);
    InertAssistantLine(ms);
    InertAverageLine(ms);
    InertEfficiencyLine(session, ms);
    AllInertEight(StatisticsHeading, "", TotalLine(ms), UserLine(ms), AssistantLine(ms),
                  AverageLine(ms), EfficiencyLine(session, ms), "");
  }

  // The label lines, one at a time.

  /** A label followed by a blank and a value that does not repeat the
      label: the field read back is the trimmed value. */
  lemma LabelledLine(key: string, value: string)
    requires key != [] && key[0] != ' ' && !Contains(value, key)
    ensures StartsWith(key + " " + value, key)
    ensures FieldValue(key + " " + value, key) == Trim(" " + value)
  {
    var line := key + " " + value;
    assert line[..|key|] == key;
    assert line[|key|..] == " " + value;
    ContainsAfterPrefix(" ", value, key);
    assert SplitSecond(line, key) == " " + value;
  }

  /** The labels are told apart by their third, fourth or sixth
      character, so a line starting with one label starts with no other. */
  lemma ProjectLineOnly(line: string)
    requires StartsWith(line, ProjectLabel)
    ensures !StartsWith(line, StartLabel) && !StartsWith(line, EndLabel) && !StartsWith(line, MessagesLabel)
    ensures !StartsWith(line, TokensLabel) && !StartsWith(line, NameLabel)
  {
    assert line[2] == ProjectLabel[2];
    NotStartsWithAt(line, StartLabel, 2);
    NotStartsWithAt(line, EndLabel, 2);
    NotStartsWithAt(line, MessagesLabel, 2);
    NotStartsWithAt(line, TokensLabel, 2);
    NotStartsWithAt(line, NameLabel, 2);
  }

  lemma NameLineOnly(line: string)
    requires StartsWith(line, NameLabel)
    ensures !StartsWith(line, ProjectLabel) && !StartsWith(line, StartLabel) && !StartsWith(line, EndLabel)
    ensures !StartsWith(line, MessagesLabel) && !StartsWith(line, TokensLabel)
  {
    assert line[2] == NameLabel[2] && line[3] == NameLabel[3];
    NotStartsWithAt(line, ProjectLabel, 2);
    NotStartsWithAt(line, StartLabel, 3);
    NotStartsWithAt(line, EndLabel, 2);
    NotStartsWithAt(line, MessagesLabel, 2);
    NotStartsWithAt(line, TokensLabel, 2);
  }

  lemma StartLineOnly(line: string)
    requires StartsWith(line, StartLabel)
    ensures !StartsWith(line, ProjectLabel) && !StartsWith(line, EndLabel) && !StartsWith(line, MessagesLabel)
    ensures !StartsWith(line, TokensLabel) && !StartsWith(line, NameLabel)
  {
    assert line[2] == StartLabel[2] && line[3] == StartLabel[3];
    NotStartsWithAt(line, ProjectLabel, 2);
    NotStartsWithAt(line, EndLabel, 2);
    NotStartsWithAt(line, MessagesLabel, 2);
    NotStartsWithAt(line, TokensLabel, 2);
    NotStartsWithAt(line, NameLabel, 3);
  }

  lemma EndLineOnly(line: string)
    requires StartsWith(line, EndLabel)
    ensures !StartsWith(line, ProjectLabel) && !StartsWith(line, StartLabel) && !StartsWith(line, MessagesLabel)
    ensures !StartsWith(line, TokensLabel) && !StartsWith(line, NameLabel)
  {
    assert line[2] == EndLabel[2];
    NotStartsWithAt(line, ProjectLabel, 2);
    NotStartsWithAt(line, StartLabel, 2);
    NotStartsWithAt(line, MessagesLabel, 2);
    NotStartsWithAt(line, TokensLabel, 2);
    NotStartsWithAt(line, NameLabel, 2);
  }

  lemma MessagesLineOnly(line: string)
    requires StartsWith(line, MessagesLabel)
    ensures !StartsWith(line, ProjectLabel) && !StartsWith(line, StartLabel) && !StartsWith(line, EndLabel)
    ensures !StartsWith(line, TokensLabel) && !StartsWith(line, NameLabel)
  {
    assert line[2] == MessagesLabel[2];
    NotStartsWithAt(line, ProjectLabel, 2);
    NotStartsWithAt(line, StartLabel, 2);
    NotStartsWithAt(line, EndLabel, 2);
    NotStartsWithAt(line, TokensLabel, 2);
    NotStartsWithAt(line, NameLabel, 2);
  }

  lemma TokensLineOnly(line: string)
    requires StartsWith(line, TokensLabel)
    ensures !StartsWith(line, ProjectLabel) && !StartsWith(line, StartLabel) && !StartsWith(line, EndLabel)
    ensures !StartsWith(line, MessagesLabel) && !StartsWith(line, NameLabel)
  {
    assert line[2] == TokensLabel[2];
    NotStartsWithAt(line, ProjectLabel, 2);
    NotStartsWithAt(line, StartLabel, 2);
    NotStartsWithAt(line, EndLabel, 2);
    NotStartsWithAt(line, MessagesLabel, 2);
    NotStartsWithAt(line, NameLabel, 2);
  }

  lemma StepProject(rec: SessionRecord, v: string, cwd: string, parseDate: string -> Time)
    ensures Step(rec, ProjectLabel + " " + v, cwd, parseDate) == rec.(projectPath := Some(cwd))
  {
    var line := ProjectLabel + " " + v;
    assert line[..|ProjectLabel|] == ProjectLabel;
    ProjectLineOnly(line);
  }

  lemma StepName(rec: SessionRecord, v: string, cwd: string, parseDate: string -> Time)
    requires !Contains(v, NameLabel)
    ensures Step(rec, NameLabel + " " + v, cwd, parseDate) == rec.(sessionName := Some(Trim(" " + v)))
  {
    LabelledLine(NameLabel, v);
    NameLineOnly(NameLabel + " " + v);
  }

  lemma StepStart(rec: SessionRecord, v: string, cwd: string, parseDate: string -> Time)
    requires !Contains(v, StartLabel)
    ensures Step(rec, StartLabel + " " + v, cwd, parseDate) == rec.(startTime := Some(parseDate(Trim(" " + v))))
  {
    LabelledLine(StartLabel, v);
    StartLineOnly(StartLabel + " " + v);
  }

  /** An End Time line mentioning `Active` anywhere is skipped. */
  lemma StepEnd(rec: SessionRecord, v: string, cwd: string, parseDate: string -> Time)
    requires !Contains(v, EndLabel)
    ensures Step(rec, EndLabel + " " + v, cwd, parseDate)
            == if Contains(v, "Active") then rec else rec.(endTime := Some(parseDate(Trim(" " + v))))
  {
    LabelledLine(EndLabel, v);
    EndLineActive(v);
    EndLineOnly(EndLabel + " " + v);
  }

  lemma EndLineActive(v: string)
    ensures Contains(EndLabel + " " + v, "Active") <==> Contains(v, "Active")
  {
    assert 'A' !in EndLabel + " ";
    ContainsAfterPrefix(EndLabel + " ", v, "Active");
  }

  lemma StepMessages(rec: SessionRecord, n: nat, cwd: string, parseDate: string -> Time)
    ensures Step(rec, MessagesLabel + " " + NatToString(n), cwd, parseDate) == rec.(messageCount := Some(Num(n)))
  {
    NatNumeral(n);
    NotContainsFirstChar(NatToString(n), MessagesLabel);
    LabelledLine(MessagesLabel, NatToString(n));
    ParseIntOfPaddedNat(n);
    MessagesLineOnly(MessagesLabel + " " + NatToString(n));
  }

  lemma StepTokens(rec: SessionRecord, n: nat, cwd: string, parseDate: string -> Time)
    ensures Step(rec, TokensLabel + " " + NatToString(n), cwd, parseDate) == rec.(tokenCount := Some(Num(n)))
  {
    NatNumeral(n);
    NotContainsFirstChar(NatToString(n), TokensLabel);
    LabelledLine(TokensLabel, NatToString(n));
    ParseIntOfPaddedNat(n);
    TokensLineOnly(TokensLabel + " " + NatToString(n));
  }

  /** The Status line is not a label line: `**Status:**` differs from
      `**Start Time:**` in its sixth character. */
  lemma StatusInert(status: SessionStatus)
    ensures Inert("**Status:** " + StatusText(status))
  {
    var pre, t := "**Status:** ", StatusText(status);
    PrefixNotStartsWith(pre, t, ProjectLabel, 2);
    PrefixNotStartsWith(pre, t, StartLabel, 5);
    PrefixNotStartsWith(pre, t, EndLabel, 2);
    PrefixNotStartsWith(pre, t, MessagesLabel, 2);
    PrefixNotStartsWith(pre, t, TokensLabel, 2);
    PrefixNotStartsWith(pre, t, NameLabel, 3);
  }

  lemma DurationInert(duration: int)
    ensures Inert("**Duration:** " + IntToString(duration) + " minutes")
  {
    var pre, t := "**Duration:** ", IntToString(duration) + " minutes";
    AppendAssoc(pre, IntToString(duration), " minutes");
    PrefixNotStartsWith(pre, t, ProjectLabel, 2);
    PrefixNotStartsWith(pre, t, StartLabel, 2);
    PrefixNotStartsWith(pre, t, EndLabel, 2);
    PrefixNotStartsWith(pre, t, MessagesLabel, 2);
    PrefixNotStartsWith(pre, t, TokensLabel, 2);
    PrefixNotStartsWith(pre, t, NameLabel, 2);
  }

  // The header block, read back.

  predicate SingleLines(xs: seq<string>) {
    forall i :: 0 <= i < |xs| ==> '\n' !in xs[i]
  }

  lemma SingleLinesAppend(xs: seq<string>, ys: seq<string>)
    requires SingleLines(xs) && SingleLines(ys)
    ensures SingleLines(xs + ys)
  {
    forall i | 0 <= i < |xs + ys|
      ensures '\n' !in (xs + ys)[i]
    {
      if i < |xs| {
        assert (xs + ys)[i] == xs[i];
      } else {
        assert (xs + ys)[i] == ys[i - |xs|];
      }
    }
  }

  /** What the header needs in order to be read back: the session's id,
      project directory name and name fit on one line, the name does not
      repeat its own label, and the dates are rendered as `format` does. */
  predicate HeaderReadable(session: SessionInfo) {
    && '\n' !in session.id
    && '\n' !in Basename(session.projectPath)
    && (session.sessionName.Some? ==>
          '\n' !in session.sessionName.value && !Contains(session.sessionName.value, NameLabel))
    && WellFormedTime(session.startTime)
    && (session.endTime.Some? ==> WellFormedTime(session.endTime.value))
  }

  lemma DisplayNameReadable(session: SessionInfo)
    requires HeaderReadable(session)
    ensures '\n' !in DisplayName(session.sessionName) && !Contains(DisplayName(session.sessionName), NameLabel)
  {
    if DisplayName(session.sessionName) == "Unnamed Session" {
      UnnamedReadable();
    }
  }

  lemma UnnamedReadable()
    ensures '\n' !in "Unnamed Session" && !Contains("Unnamed Session", NameLabel)
  {
    assert "Unnamed Session" == "Unnamed" + " " + "Session";
    CharsNotIn3('*', '\n', "Unnamed", " ", "Session");
    NotContainsFirstChar("Unnamed Session", NameLabel);
  }

  lemma CharsNotIn3(x: char, y: char, a: string, b: string, c: string)
    requires x !in a && x !in b && x !in c && y !in a && y !in b && y !in c
    ensures x !in a + b + c && y !in a + b + c
  {
  }

  lemma OneLine(prefix: string, rest: string)
    requires '\n' !in prefix && '\n' !in rest
    ensures '\n' !in prefix + " " + rest
  {
  }

  lemma EndStampReadable(end: Option<Time>)
    requires end.Some? ==> WellFormedTime(end.value)
    ensures '\n' !in EndStamp(end) && !Contains(EndStamp(end), EndLabel)
    ensures Contains(EndStamp(end), "Active") <==> end.None?
  {
    match end
    case None =>
      NotContainsFirstChar("Active", EndLabel);
      assert StartsWith("Active", "Active");
    case Some(t) =>
      StampAvoids(t);
      NotContainsFirstChar(Stamp(t), EndLabel);
      NotContainsFirstChar(Stamp(t), "Active");
  }

  lemma LabelsSingleLine()
    ensures '\n' !in "# Session" && '\n' !in ProjectLabel && '\n' !in NameLabel
    ensures '\n' !in StartLabel && '\n' !in EndLabel
  {
  }

  lemma SingleSix(a: string, b: string, c: string, d: string, e: string, f: string)
    requires '\n' !in a && '\n' !in b && '\n' !in c && '\n' !in d && '\n' !in e && '\n' !in f
    ensures SingleLines([a, b, c, d, e, f])
  {
  }

  lemma HeadSingleLines(session: SessionInfo)
    requires HeaderReadable(session)
    ensures SingleLines(HeadLines(session))
  {
    var name := DisplayName(session.sessionName);
    assert '\n' !in name by {
      if name == "Unnamed Session" {
        UnnamedReadable();
      }
    }
    StampAvoids(session.startTime);
    var end := EndStamp(session.endTime);
    assert '\n' !in end by {
      if session.endTime.Some? {
        StampAvoids(session.endTime.value);
      }
    }
    LabelsSingleLine();
    OneLine("# Session", session.id);
    OneLine(ProjectLabel, Basename(session.projectPath));
    OneLine(NameLabel, name);
    OneLine(StartLabel, Stamp(session.startTime));
    OneLine(EndLabel, end);
    assert "# Session" + " " + session.id == "# Session " + session.id;
    SingleSix("# Session " + session.id, "", ProjectLabel + " " + Basename(session.projectPath),
              NameLabel + " " + name, StartLabel + " " + Stamp(session.startTime), EndLabel + " " + end);
  }

  lemma CounterSingleLines(session: SessionInfo)
    ensures SingleLines(CounterLines(session))
  {
    NatNumeral(session.messageCount);
    NatNumeral(session.tokenCount);
  }

  lemma DurationSingleLines(duration: int)
    ensures SingleLines(DurationLines(duration))
  {
    IntNumeral(duration);
  }

  lemma HeaderSingleLines(session: SessionInfo, duration: int)
    requires HeaderReadable(session)
    ensures SingleLines(HeaderLines(session, duration))
  {
    HeadSingleLines(session);
    DurationSingleLines(duration);
    CounterSingleLines(session);
    SingleLinesAppend(HeadLines(session), DurationLines(duration));
    SingleLinesAppend(HeadLines(session) + DurationLines(duration), CounterLines(session));
  }

  /** A left fold over lines, for any record type and step. */
  function FoldLines<R>(start: R, lines: seq<string>, step: (R, string) -> R): R
    decreases |lines|
  {
    if lines == [] then start else step(FoldLines(start, lines[..|lines| - 1], step), lines[|lines| - 1])
  }

  lemma FoldFour<R>(start: R, a: string, b: string, c: string, d: string, step: (R, string) -> R)
    ensures FoldLines(start, [a, b, c, d], step) == step(step(step(step(start, a), b), c), d)
  {
    assert [a][..0] == [];
    assert FoldLines(start, [a], step) == step(start, a);
    assert [a, b][..1] == [a];
    assert FoldLines(start, [a, b], step) == step(step(start, a), b);
    assert [a, b, c][..2] == [a, b];
    assert FoldLines(start, [a, b, c], step) == step(step(step(start, a), b), c);
    assert [a, b, c, d][..3] == [a, b, c];
  }

  lemma FoldSix<R>(start: R, a: string, b: string, c: string, d: string, e: string, f: string, step: (R, string) -> R)
    ensures FoldLines(start, [a, b, c, d, e, f], step) == step(step(FoldLines(start, [a, b, c, d], step), e), f)
  {
    assert [a, b, c, d, e, f][..5] == [a, b, c, d, e];
    assert [a, b, c, d, e][..4] == [a, b, c, d];
  }

  /** The parser's step for a fixed working directory and date parser. */
  function StepWith(cwd: string, parseDate: string -> Time): (SessionRecord, string) -> SessionRecord {
    (r: SessionRecord, line: string) => Step(r, line, cwd, parseDate)
  }

  lemma {:induction false} ParseLinesFold(rec: SessionRecord, lines: seq<string>, cwd: string, parseDate: string -> Time)
    ensures ParseLines(rec, lines, cwd, parseDate) == FoldLines(rec, lines, StepWith(cwd, parseDate))
    decreases |lines|
  {
    if lines != [] {
      ParseLinesFold(rec, lines[..|lines| - 1], cwd, parseDate);
    }
  }

  lemma ParseFour(rec: SessionRecord, a: string, b: string, c: string, d: string,
                  cwd: string, parseDate: string -> Time)
    ensures ParseLines(rec, [a, b, c, d], cwd, parseDate)
            == Step(Step(Step(Step(rec, a, cwd, parseDate), b, cwd, parseDate), c, cwd, parseDate), d, cwd, parseDate)
  {
    var step := StepWith(cwd, parseDate);
    ParseLinesFold(rec, [a, b, c, d], cwd, parseDate);
    FoldFour(rec, a, b, c, d, step);
  }

  lemma ParseSix(rec: SessionRecord, a: string, b: string, c: string, d: string, e: string, f: string,
                 cwd: string, parseDate: string -> Time)
    ensures ParseLines(rec, [a, b, c, d, e, f], cwd, parseDate)
            == Step(Step(ParseLines(rec, [a, b, c, d], cwd, parseDate), e, cwd, parseDate), f, cwd, parseDate)
  {
    var step := StepWith(cwd, parseDate);
    ParseLinesFold(rec, [a, b, c, d, e, f], cwd, parseDate);
    ParseLinesFold(rec, [a, b, c, d], cwd, parseDate);
    FoldSix(rec, a, b, c, d, e, f, step);
  }

  /** The six header lines set the project, the name, the start and, for
      an ended session, the end. */
  lemma HeadEffect(rec: SessionRecord, session: SessionInfo, cwd: string, parseDate: string -> Time)
    requires HeaderReadable(session)
    ensures ParseLines(rec, HeadLines(session), cwd, parseDate)
            == rec.(projectPath := Some(cwd),
                    sessionName := Some(Trim(DisplayName(session.sessionName))),
                    startTime := Some(parseDate(Stamp(session.startTime))),
                    endTime := if session.endTime.Some? then Some(parseDate(Stamp(session.endTime.value)))
                               else rec.endTime)
  {
    var name, start, end := DisplayName(session.sessionName), Stamp(session.startTime), EndStamp(session.endTime);
    var title := "# Session " + session.id;
    ParseSix(rec, title, "", ProjectLabel + " " + Basename(session.projectPath),
             NameLabel + " " + name, StartLabel + " " + start, EndLabel + " " + end, cwd, parseDate);
    ParseFour(rec, title, "", ProjectLabel + " " + Basename(session.projectPath), NameLabel + " " + name,
              cwd, parseDate);
    assert title[0] == '#';
    InertUnlessStar(title);
    InertUnlessStar("");
    StepProject(rec, Basename(session.projectPath), cwd, parseDate);
    var r1 := rec.(projectPath := Some(cwd));
    DisplayNameReadable(session);
    StepName(r1, name, cwd, parseDate);
    TrimLeadingSpace(name);
    var r2 := r1.(sessionName := Some(Trim(name)));
    StampAvoids(session.startTime);
    NotContainsFirstChar(start, StartLabel);
    StepStart(r2, start, cwd, parseDate);
    TrimStamp(session.startTime);
    var r3 := r2.(startTime := Some(parseDate(start)));
    EndStampReadable(session.endTime);
    StepEnd(r3, end, cwd, parseDate);
    if session.endTime.Some? {
      TrimStamp(session.endTime.value);
    }
  }

  /** The counter lines set the message and token counts. */
  lemma CounterEffect(rec: SessionRecord, session: SessionInfo, cwd: string, parseDate: string -> Time)
    ensures ParseLines(rec, CounterLines(session), cwd, parseDate)
            == rec.(messageCount := Some(Num(session.messageCount)), tokenCount := Some(Num(session.tokenCount)))
  {
    ParseFour(rec, MessagesLabel + " " + NatToString(session.messageCount),
              TokensLabel + " " + NatToString(session.tokenCount),
              "**Status:** " + StatusText(session.status), "", cwd, parseDate);
    StepMessages(rec, session.messageCount, cwd, parseDate);
    var r1 := rec.(messageCount := Some(Num(session.messageCount)));
    StepTokens(r1, session.tokenCount, cwd, parseDate);
    StatusInert(session.status);
    InertUnlessStar("");
  }

  lemma DurationEffect(rec: SessionRecord, duration: int, cwd: string, parseDate: string -> Time)
    ensures ParseLines(rec, DurationLines(duration), cwd, parseDate) == rec
  {
    DurationInert(duration);
    ParseLinesInert(rec, DurationLines(duration), cwd, parseDate);
  }

  lemma HeaderEffect(rec: SessionRecord, session: SessionInfo, duration: int, cwd: string, parseDate: string -> Time)
    requires HeaderReadable(session)
    ensures ParseLines(rec, HeaderLines(session, duration), cwd, parseDate)
            == rec.(projectPath := Some(cwd),
                    sessionName := Some(Trim(DisplayName(session.sessionName))),
                    startTime := Some(parseDate(Stamp(session.startTime))),
                    endTime := if session.endTime.Some? then Some(parseDate(Stamp(session.endTime.value)))
                               else rec.endTime,
                    messageCount := Some(Num(session.messageCount)),
                    tokenCount := Some(Num(session.tokenCount)))
  {
    var h, d, c := HeadLines(session), DurationLines(duration), CounterLines(session);
    ParseLinesAppend(rec, h + d, c, cwd, parseDate);
    ParseLinesAppend(rec, h, d, cwd, parseDate);
    HeadEffect(rec, session, cwd, parseDate);
    DurationEffect(ParseLines(rec, h, cwd, parseDate), duration, cwd, parseDate);
    CounterEffect(ParseLines(rec, h, cwd, parseDate), session, cwd, parseDate);
  }

  // The rest of the transcript, skipped.

  /** What the rest needs in order to be skipped: message clocks as
      `format` writes them, and no content or summary line that starts
      with a label. */
  predicate BodyReadable(ms: seq<SessionMessage>, summary: Option<string>) {
    && (forall i :: 0 <= i < |ms| ==> WellFormedTime(ms[i].timestamp) && InertText(ms[i].content))
    && (summary.Some? ==> InertText(summary.value))
  }

  lemma AllInertTwo(a: string, b: string)
    requires InertText(a) && InertText(b)
    ensures AllInert([a, b])
  {
  }

  lemma InertSummary(summary: Option<string>)
    requires summary.Some? ==> InertText(summary.value)
    ensures AllInert(SummaryLines(summary))
  {
    if summary.Some? && summary.value != "" {
      InertPlain("## Session Summary");
      InertPlain("");
      AllInertFour("## Session Summary", "", summary.value, "");
    }
  }

  lemma InertTail(session: SessionInfo, ms: seq<SessionMessage>, summary: Option<string>)
    requires BodyReadable(ms, summary)
    ensures AllInert(TailLines(session, ms, summary))
  {
    var s, v, k, t := SummaryLines(summary), [ConversationHeading, ""], ConversationLines(ms), StatisticsLines(session, ms);
    InertSummary(summary);
    InertPlain(ConversationHeading);
    InertPlain("");
    AllInertTwo(ConversationHeading, "");
    InertConversation(ms);
    InertStatistics(session, ms);
    AllInertAppend(s, v);
    AllInertAppend(s + v, k);
    AllInertAppend(s + v + k, t);
  }

  lemma LinesOfBlocks(h: seq<string>, t: seq<string>)
    requires SingleLines(h)
    ensures Lines(Unlines(h + t)) == h + (LinesOfAll(t) + [""])
  {
    assert Unlines(h + t) + "" == Unlines(h + t);
    LinesOfUnlines(h + t, "");
    LinesOfAllAppend(h, t);
    LinesOfAllSingle(h);
    assert Lines("") == [""];
  }

  /** The transcript splits into the header lines, then the lines of the
      rest, then the empty line after the last newline. */
  lemma TranscriptLines(session: SessionInfo, ms: seq<SessionMessage>, summary: Option<string>, duration: int)
    requires HeaderReadable(session)
    ensures Lines(SessionMarkdown(session, ms, summary, duration))
            == HeaderLines(session, duration) + (LinesOfAll(TailLines(session, ms, summary)) + [""])
  {
    SessionMarkdownLines(session, ms, summary, duration);
    HeaderSingleLines(session, duration);
    LinesOfBlocks(HeaderLines(session, duration), TailLines(session, ms, summary));
  }

  lemma InertRest(t: seq<string>)
    requires AllInert(t)
    ensures forall j :: 0 <= j < |LinesOfAll(t) + [""]| ==> Inert((LinesOfAll(t) + [""])[j])
  {
    InertLinesOfAll(t);
    InertUnlessStar("");
  }

  lemma SkipRest(rec: SessionRecord, h: seq<string>, rest: seq<string>, cwd: string, parseDate: string -> Time)
    requires forall j :: 0 <= j < |rest| ==> Inert(rest[j])
    ensures ParseLines(rec, h + rest, cwd, parseDate) == ParseLines(rec, h, cwd, parseDate)
  {
    ParseLinesAppend(rec, h, rest, cwd, parseDate);
    ParseLinesInert(ParseLines(rec, h, cwd, parseDate), rest, cwd, parseDate);
  }

  /** Reading back a written transcript: the parser recovers the start,
      the end of an ended session, both counters and the trimmed display
      name; the project path is always the working directory, the status
      always `ended` and the id whatever the file name yields. */
  lemma ReadBack(session: SessionInfo, ms: seq<SessionMessage>, summary: Option<string>, duration: int,
                 filename: string, cwd: string, parseDate: string -> Time)
    requires HeaderReadable(session) && BodyReadable(ms, summary)
    ensures ParseTranscript(SessionMarkdown(session, ms, summary, duration), filename, cwd, parseDate)
            == SessionRecord(
                 ParsedSessionId(filename),
                 Some(cwd),
                 Some(Trim(DisplayName(session.sessionName))),
                 Some(parseDate(Stamp(session.startTime))),
                 if session.endTime.Some? then Some(parseDate(Stamp(session.endTime.value))) else None,
                 Some(Num(session.messageCount)),
                 Some(Num(session.tokenCount)),
                 Ended)
  {
    var h, t := HeaderLines(session, duration), TailLines(session, ms, summary);
    var init := InitialRecord(filename);
    TranscriptLines(session, ms, summary, duration);
    InertTail(session, ms, summary);
    InertRest(t);
    SkipRest(init, h, LinesOfAll(t) + [""], cwd, parseDate);
    HeaderEffect(init, session, duration, cwd, parseDate);
  }
}
