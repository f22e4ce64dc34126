/** The record shapes shared by the tracker's components. A `Date` is an
    instant together with the two renderings the components print of it. */
module Records {
  import opened Wrappers

  /** A `Date`: its epoch milliseconds, its `yyyy-MM-dd` day and its
      `HH:mm:ss` clock time, as `format` from date-fns renders them in the
      local time zone. */
  datatype Time = Time(millis: int, day: string, clock: string)

  datatype Role = User | Assistant

  datatype SessionStatus = Active | Ended

  datatype SessionInfo = SessionInfo(
    id: string,
    projectPath: string,
    sessionName: Option<string>,
    startTime: Time,
    endTime: Option<Time>,
    tokenCount: nat,
    messageCount: nat,
    status: SessionStatus)

  datatype SessionMessage = SessionMessage(
    id: string,
    content: string,
    role: Role,
    timestamp: Time,
    tokenCount: nat)

  datatype MilestoneStatus = Planned | InProgress | Completed

  datatype Milestone = Milestone(
    id: string,
    title: string,
    description: string,
    status: MilestoneStatus,
    createdAt: Time,
    completedAt: Option<Time>)

  datatype DecisionStatus = Proposed | Accepted | Rejected

  datatype TechnicalDecision = TechnicalDecision(
    id: string,
    title: string,
    context: string,
    decision: string,
    alternatives: seq<string>,
    consequences: seq<string>,
    status: DecisionStatus,
    createdAt: Time)

  datatype ProjectSummary = ProjectSummary(
    name: string,
    path: string,
    totalSessions: nat,
    totalTokens: nat,
    lastActivity: Time,
    currentPhase: Option<string>,
    keyMilestones: seq<Milestone>)

  datatype RestorationPrompt = RestorationPrompt(
    projectName: string,
    currentPhase: string,
    lastSessionSummary: string,
    keyContext: seq<string>,
    nextSteps: seq<string>,
    fullPrompt: string)

  datatype SummaryLength = Short | Medium | Long

  datatype ContextConfig = ContextConfig(
    maxTokensPerSession: int,
    warningThreshold: int,
    autoSummarize: bool,
    summaryLength: SummaryLength,
    projectName: Option<string>,
    contextDirectory: string)

  /** The band a token total falls into. */
  datatype Suggestion = Continue | Warn | Break

  datatype TokenUsage = TokenUsage(current: int, limit: int, percentage: int, suggestion: Suggestion)

  datatype SuggestedAction = EndSession | CreateCheckpoint

  datatype BreakSuggestion = BreakSuggestion(
    reason: string,
    currentTokens: int,
    suggestedAction: SuggestedAction,
    summary: string)
}
