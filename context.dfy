/** The `ContextManager` of src/context-manager.ts: the project summary and
    the restoration prompt assembled from what the `.context` directory
    holds, the configuration cached on first use, and the two ledger
    writers. Reads that fail give the source's empty or default values. */
module Context {
  import opened Wrappers
  import opened Text
  import opened Records
  import opened FileStore
  import opened Sessions
  import opened Ledger
  import opened Restoration

  function SummaryPath(projectPath: string): string {
    PathJoin(ContextDir(projectPath), "project_summary.md")
  }

  function MilestonesPath(projectPath: string): string {
    PathJoin(ProgressDir(projectPath), MilestonesFile)
  }

  function DecisionsPath(projectPath: string): string {
    PathJoin(ProgressDir(projectPath), DecisionsFile)
  }

  /** The configuration `loadConfig` falls back to. */
  function DefaultConfig(projectPath: string): ContextConfig {
    ContextConfig(15000, 12000, true, Medium, Some(Basename(projectPath)), ".context")
  }

  /** What `loadConfig` returns: the cached configuration, else the parsed
      file, else the default. `parseConfig` is `JSON.parse`, `None` where it
      throws. */
  function LoadedConfig(cached: Option<ContextConfig>, stored: Option<string>,
                        parseConfig: string -> Option<ContextConfig>, projectPath: string): ContextConfig {
    if cached.Some? then cached.value
    else if stored.Some? && parseConfig(stored.value).Some? then parseConfig(stored.value).value
    else DefaultConfig(projectPath)
  }

  /** `config.projectName || path.basename(projectPath)` */
  function ProjectName(config: ContextConfig, projectPath: string): (name: string)
    ensures name == Basename(projectPath) || (config.projectName.Some? && name == config.projectName.value)
  {
    TextOr(config.projectName, Basename(projectPath))
  }

  /** Without a configuration file the project is named after the last
      segment of its path. */
  lemma DefaultProjectName(projectPath: string, stored: Option<string>, parseConfig: string -> Option<ContextConfig>)
    requires stored.None? || parseConfig(stored.value).None?
    ensures ProjectName(LoadedConfig(None, stored, parseConfig, projectPath), projectPath) == Basename(projectPath)
  {
  }

  /** Once a configuration is cached, it is the one returned, whatever the
      project path and the files. */
  lemma CachedConfigKept(c: ContextConfig, stored: Option<string>, parseConfig: string -> Option<ContextConfig>, projectPath: string)
    ensures LoadedConfig(Some(c), stored, parseConfig, projectPath) == c
  {
  }

  /** A project whose configuration `ensureContextDirectory` has just
      created loads that configuration, where it parses; one that had a
      configuration keeps it. */
  lemma InitialConfigLoaded(files: map<string, string>, projectPath: string, configText: string,
                            parseConfig: string -> Option<ContextConfig>)
    ensures var after := WithInitialConfig(files, projectPath, configText);
      && ConfigPath(projectPath) in after
      && (ConfigPath(projectPath) !in files && parseConfig(configText).Some? ==>
            LoadedConfig(None, Some(after[ConfigPath(projectPath)]), parseConfig, projectPath) == parseConfig(configText).value)
      && (ConfigPath(projectPath) in files ==> after[ConfigPath(projectPath)] == files[ConfigPath(projectPath)])
  {
  }

  /** `getAllSessions(sessionsDir)` over the directory's listing: one
      record per session file, in listing order; none where the listing
      fails. */
  function ListedSessions(listing: Option<seq<string>>, parseDay: string -> Time, now: Time): (r: seq<SessionInfo>)
    ensures listing.None? ==> r == []
    ensures listing.Some? ==> |r| == |SessionFiles(listing.value)|
    ensures listing.Some? ==> forall i :: 0 <= i < |r| ==> r[i] == ParseSessionInfo(SessionFiles(listing.value)[i], parseDay, now)
    ensures forall i :: 0 <= i < |r| ==> r[i].tokenCount == 0
  {
    match listing
    case None => []
    case Some(names) =>
      var files := SessionFiles(names);
      seq(|files|, i requires 0 <= i < |files| => ParseSessionInfo(files[i], parseDay, now))
  }

  /** `sessions.reduce((acc, s) => acc + s.tokenCount, 0)` */
  function TokenTotal(sessions: seq<SessionInfo>): nat {
    if sessions == [] then 0 else TokenTotal(sessions[..|sessions| - 1]) + sessions[|sessions| - 1].tokenCount
  }

  /** Sessions whose counters are all zero add up to zero tokens. */
  lemma {:induction false} TokenTotalOfZeros(sessions: seq<SessionInfo>)
    requires forall i :: 0 <= i < |sessions| ==> sessions[i].tokenCount == 0
    ensures TokenTotal(sessions) == 0
    decreases |sessions|
  {
    if sessions != [] {
      TokenTotalOfZeros(sessions[..|sessions| - 1]);
    }
  }

  /** `new Date(Math.max(...sessions.map(s => s.startTime.getTime())))`, or
      `now` when there are no sessions: the latest start. */
  function LatestStart(sessions: seq<SessionInfo>, now: Time): (t: Time)
    ensures sessions == [] ==> t == now
    ensures sessions != [] ==> exists i :: 0 <= i < |sessions| && sessions[i].startTime == t
    ensures forall i :: 0 <= i < |sessions| ==> sessions[i].startTime.millis <= t.millis
    decreases |sessions|
  {
    if sessions == [] then now
    else if |sessions| == 1 then sessions[0].startTime
    else
      var rest := LatestStart(sessions[1..], now);
      assert forall i :: 1 <= i < |sessions| ==> sessions[i] == sessions[1..][i - 1];
      if sessions[0].startTime.millis >= rest.millis then sessions[0].startTime else rest
  }

  /** The summary `getProjectSummary` returns for the loaded
      configuration, the sessions, the milestones and the phase read. */
  function Summary(config: ContextConfig, projectPath: string, sessions: seq<SessionInfo>,
                   milestones: seq<Milestone>, phase: Option<string>, now: Time): (s: ProjectSummary)
    ensures s.name == ProjectName(config, projectPath) && s.path == projectPath
    ensures s.totalSessions == |sessions| && s.totalTokens == TokenTotal(sessions)
    ensures s.lastActivity == LatestStart(sessions, now) && s.currentPhase == phase
    ensures |s.keyMilestones| == Min(5, |milestones|)
    ensures forall i :: 0 <= i < |s.keyMilestones| ==> s.keyMilestones[i] == milestones[i]
  {
    ProjectSummary(ProjectName(config, projectPath), projectPath, |sessions|, TokenTotal(sessions),
                   LatestStart(sessions, now), phase, milestones[..Min(5, |milestones|)])
  }

  /** The summary of a listed sessions directory: one session per
      session file, no tokens (the records read from file names have zero
      counters), and `now` as the last activity when there is no session. */
  lemma ListedSummaryFacts(config: ContextConfig, projectPath: string, listing: Option<seq<string>>,
                           milestones: seq<Milestone>, phase: Option<string>, parseDay: string -> Time, now: Time)
    ensures var s := Summary(config, projectPath, ListedSessions(listing, parseDay, now), milestones, phase, now);
      && s.totalSessions == (if listing.Some? then |SessionFiles(listing.value)| else 0)
      && s.totalTokens == 0
      && (s.totalSessions == 0 ==> s.lastActivity == now)
  {
    TokenTotalOfZeros(ListedSessions(listing, parseDay, now));
  }

  /** `getMilestones(projectPath)` over the ledger's text. */
  function StoredMilestones(content: Option<string>, newId: nat -> string, now: Time): seq<Milestone> {
    match content
    case None => []
    case Some(text) => MilestonesFrom(Lines(text), 0, newId, now)
  }

  /** `getDecisions(projectPath)` over the ledger's text. */
  function StoredDecisions(content: Option<string>, newId: nat -> string, now: Time): seq<TechnicalDecision> {
    match content
    case None => []
    case Some(text) => DecisionsFrom(Lines(text), 0, newId, now)
  }

  /** The prompt `generateRestorationPrompt` builds from the loaded
      configuration and the texts read. */
  function RestorationOf(config: ContextConfig, projectPath: string, listing: Option<seq<string>>,
                         milestonesText: Option<string>, decisionsText: Option<string>, summaryText: Option<string>,
                         parseDay: string -> Time, newId: nat -> string, now: Time): RestorationPrompt {
    var sessions := ListedSessions(listing, parseDay, now);
    var milestones := StoredMilestones(milestonesText, newId, now);
    var decisions := StoredDecisions(decisionsText, newId, now);
    var summary := Summary(config, projectPath, sessions, milestones, CurrentPhase(summaryText), now);
    var last := LastSessionSummary(sessions);
    var keyContext := KeyContext(summary, milestones, decisions);
    var nextSteps := NextSteps(milestones, decisions);
    var phase := TextOr(summary.currentPhase, "Development");
    RestorationPrompt(summary.name, phase, last, keyContext, nextSteps,
                      BuildRestorationPrompt(summary.name, phase, last, keyContext, nextSteps))
  }

  /** What a restoration prompt says about the project: no session
      total, no tokens, the placeholder summary exactly when no session file
      is listed, four fixed context lines first and one to five steps. */
  lemma RestorationFacts(config: ContextConfig, projectPath: string, listing: Option<seq<string>>,
                         milestonesText: Option<string>, decisionsText: Option<string>, summaryText: Option<string>,
                         parseDay: string -> Time, newId: nat -> string, now: Time)
    ensures var r := RestorationOf(config, projectPath, listing, milestonesText, decisionsText, summaryText, parseDay, newId, now);
      var sessions := ListedSessions(listing, parseDay, now);
      && r.projectName == ProjectName(config, projectPath)
      && r.currentPhase == TextOr(CurrentPhase(summaryText), "Development")
      && (r.lastSessionSummary == NoSessionsSummary <==> sessions == [])
      && r.keyContext[0] == ProjectLine(r.projectName)
      && r.keyContext[1] == SessionsLine(|sessions|)
      && r.keyContext[2] == TokensLine(0)
      && 1 <= |r.nextSteps| <= 5
  {
    var sessions := ListedSessions(listing, parseDay, now);
    TokenTotalOfZeros(sessions);
    LastSessionSummaryCases(sessions);
    NextStepsShape(StoredMilestones(milestonesText, newId, now), StoredDecisions(decisionsText, newId, now));
  }

  class ContextManager {
    var config: Option<ContextConfig>

    constructor()
      ensures config.None?
    {
      config := None;
    }

    /** `loadConfig(projectPath)`: the cached configuration, or the file's,
        or the default, which is then cached. */
    method LoadConfig(fs: FileSystem, projectPath: string, parseConfig: string -> Option<ContextConfig>)
      returns (c: ContextConfig)
      modifies this
      ensures c == LoadedConfig(old(config), fs.ReadFile(ConfigPath(projectPath)), parseConfig, projectPath)
      ensures config == Some(c)
      ensures old(config).Some? ==> config == old(config)
    {
      if config.Some? {
        return config.value;
      }
      var content := fs.ReadFile(ConfigPath(projectPath));
      if content.Some? && parseConfig(content.value).Some? {
        config := parseConfig(content.value);
      } else {
        config := Some(DefaultConfig(projectPath));
      }
      c := config.value;
    }

    /** `getMilestones(projectPath)` */
    method GetMilestones(fs: FileSystem, projectPath: string, newId: nat -> string, now: Time)
      returns (milestones: seq<Milestone>)
      ensures milestones == StoredMilestones(fs.ReadFile(MilestonesPath(projectPath)), newId, now)
    {
      var content := fs.ReadFile(MilestonesPath(projectPath));
      if content.Some? {
        milestones := ParseMilestonesFromMarkdown(content.value, newId, now);
      } else {
        milestones := [];
      }
    }

    /** `getDecisions(projectPath)` */
    method GetDecisions(fs: FileSystem, projectPath: string, newId: nat -> string, now: Time)
      returns (decisions: seq<TechnicalDecision>)
      ensures decisions == StoredDecisions(fs.ReadFile(DecisionsPath(projectPath)), newId, now)
    {
      var content := fs.ReadFile(DecisionsPath(projectPath));
      if content.Some? {
        decisions := ParseDecisionsFromMarkdown(content.value, newId, now);
      } else {
        decisions := [];
      }
    }

    /** `getProjectSummary(projectPath)` */
    method GetProjectSummary(fs: FileSystem, projectPath: string, parseConfig: string -> Option<ContextConfig>,
                             parseDay: string -> Time, newId: nat -> string, now: Time)
      returns (summary: ProjectSummary)
      modifies this
      ensures config == Some(LoadedConfig(old(config), fs.ReadFile(ConfigPath(projectPath)), parseConfig, projectPath))
      ensures summary == Summary(config.value, projectPath, ListedSessions(fs.ReadDir(SessionsDir(projectPath)), parseDay, now),
                                 StoredMilestones(fs.ReadFile(MilestonesPath(projectPath)), newId, now),
                                 CurrentPhase(fs.ReadFile(SummaryPath(projectPath))), now)
    {
      var loaded := LoadConfig(fs, projectPath, parseConfig);
      var sessions := ListedSessions(fs.ReadDir(SessionsDir(projectPath)), parseDay, now);
      var totalTokens := TokenTotal(sessions);
      var lastActivity := LatestStart(sessions, now);
      var milestones := GetMilestones(fs, projectPath, newId, now);
      var phase := CurrentPhase(fs.ReadFile(SummaryPath(projectPath)));
      summary := ProjectSummary(ProjectName(loaded, projectPath), projectPath, |sessions|, totalTokens,
                                lastActivity, phase, milestones[..Min(5, |milestones|)]);
    }

    /** `generateNextSteps(milestones, decisions)`: push a step for each
        in-progress milestone and for each of the first two decisions,
        fall back to the two defaults, keep at most five. */
    method GenerateNextSteps(milestones: seq<Milestone>, decisions: seq<TechnicalDecision>)
      returns (steps: seq<string>)
      ensures steps == NextSteps(milestones, decisions)
    {
      var nextSteps: seq<string> := [];
      var i := 0;
      while i < |milestones|
        invariant 0 <= i <= |milestones|
        invariant nextSteps == ContinueSteps(milestones[..i])
      {
        ContinueStepsAppend(milestones[..i], milestones[i]);
        assert milestones[..i + 1] == milestones[..i] + [milestones[i]];
        if milestones[i].status == InProgress {
          nextSteps := nextSteps + [ContinueStep(milestones[i])];
        }
        i := i + 1;
      }
      assert milestones[..i] == milestones;
      ghost var fromMilestones := nextSteps;
      var recent := Min(2, |decisions|);
      var j := 0;
      while j < recent
        invariant 0 <= j <= recent
        invariant nextSteps == fromMilestones + seq(j, k requires 0 <= k < j => ImplementStep(decisions[k]))
      {
        nextSteps := nextSteps + [ImplementStep(decisions[j])];
        j := j + 1;
      }
      assert nextSteps == ProposedSteps(milestones, decisions);
      if |nextSteps| == 0 {
        nextSteps := nextSteps + [ReviewStep, DevelopStep];
      }
      steps := nextSteps[..Min(5, |nextSteps|)];
    }

    /** `generateRestorationPrompt(projectPath)` */
    method GenerateRestorationPrompt(fs: FileSystem, projectPath: string, parseConfig: string -> Option<ContextConfig>,
                                     parseDay: string -> Time, newId: nat -> string, now: Time)
      returns (prompt: RestorationPrompt)
      modifies this
      ensures config == Some(LoadedConfig(old(config), fs.ReadFile(ConfigPath(projectPath)), parseConfig, projectPath))
      ensures prompt == RestorationOf(config.value, projectPath, fs.ReadDir(SessionsDir(projectPath)),
                                      fs.ReadFile(MilestonesPath(projectPath)), fs.ReadFile(DecisionsPath(projectPath)),
                                      fs.ReadFile(SummaryPath(projectPath)), parseDay, newId, now)
    {
      var summary := GetProjectSummary(fs, projectPath, parseConfig, parseDay, newId, now);
      var sessions := ListedSessions(fs.ReadDir(SessionsDir(projectPath)), parseDay, now);
      var milestones := GetMilestones(fs, projectPath, newId, now);
      var decisions := GetDecisions(fs, projectPath, newId, now);
      var lastSessionSummary := LastSessionSummary(sessions);
      var keyContext := KeyContext(summary, milestones, decisions);
      var nextSteps := GenerateNextSteps(milestones, decisions);
      var phase := TextOr(summary.currentPhase, "Development");
      var fullPrompt := BuildRestorationPrompt(summary.name, phase, lastSessionSummary, keyContext, nextSteps);
      prompt := RestorationPrompt(summary.name, phase, lastSessionSummary, keyContext, nextSteps, fullPrompt);
    }

    /** `addMilestone(projectPath, milestone)`: the milestone gets the fresh
        id `id` and the creation time `now`; its entry is appended to the
        ledger, which starts from the header when it cannot be read. */
    method AddMilestone(fs: FileSystem, projectPath: string, milestone: Milestone, id: string, now: Time)
      modifies fs
      ensures fs.files == old(fs.files)[MilestonesPath(projectPath) :=
        Appended(old(fs.ReadFile(MilestonesPath(projectPath))), MilestonesHeader,
                 MilestoneMarkdown(milestone.(id := id, createdAt := now)))]
      ensures fs.listings == AfterWrite(WithDirectory(old(fs.listings), ProgressDir(projectPath)), ProgressDir(projectPath), MilestonesFile)
    {
      var newMilestone := milestone.(id := id, createdAt := now);
      fs.MakeDirectory(ProgressDir(projectPath));
      var existing := fs.ReadFile(MilestonesPath(projectPath));
      var entry := MilestoneMarkdown(newMilestone);
      var content := existing.GetOr(MilestonesHeader) + "\n" + entry + "\n";
      fs.WriteFile(ProgressDir(projectPath), MilestonesFile, content);
    }

    /** `logDecision(projectPath, decision)`: the decision gets the fresh
        id `id` and the creation time `now`, and its entry is numbered by
        the last three characters of a second fresh id, `adrId`. */
    method LogDecision(fs: FileSystem, projectPath: string, decision: TechnicalDecision, id: string, adrId: string, now: Time)
      modifies fs
      ensures fs.files == old(fs.files)[DecisionsPath(projectPath) :=
        Appended(old(fs.ReadFile(DecisionsPath(projectPath))), DecisionsHeader,
                 DecisionMarkdown(decision.(id := id, createdAt := now), adrId))]
      ensures fs.listings == AfterWrite(WithDirectory(old(fs.listings), ProgressDir(projectPath)), ProgressDir(projectPath), DecisionsFile)
    {
      var newDecision := decision.(id := id, createdAt := now);
      fs.MakeDirectory(ProgressDir(projectPath));
      var existing := fs.ReadFile(DecisionsPath(projectPath));
      var entry := DecisionMarkdown(newDecision, adrId);
      var content := existing.GetOr(DecisionsHeader) + "\n" + entry + "\n";
      fs.WriteFile(ProgressDir(projectPath), DecisionsFile, content);
    }
  }
}
