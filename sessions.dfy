/** The session lifecycle (src/session-tracker.ts): one optional active
    session and its message buffer, the transcript written when it ends,
    and the listing of the transcripts of a project. Ids and clock readings
    are parameters. */
module Sessions {
  import opened Wrappers
  import opened Text
  import opened Records
  import opened Transcript
  import opened FileStore

  const AlreadyActive := "Session already active. End current session first."
  const NoActiveSession := "No active session"
  const NoSessionToEnd := "No active session to end"
  const CurrentSessionFile := "current_session.md"

  /** The sum of the messages' token counts. */
  function TotalTokens(ms: seq<SessionMessage>): nat
    decreases |ms|
  {
    if ms == [] then 0 else TotalTokens(ms[..|ms| - 1]) + ms[|ms| - 1].tokenCount
  }

  lemma TotalTokensSnoc(ms: seq<SessionMessage>, m: SessionMessage)
    ensures TotalTokens(ms + [m]) == TotalTokens(ms) + m.tokenCount
  {
    assert (ms + [m])[..|ms|] == ms;
  }

  /** The session `startSession` creates. */
  function NewSession(id: string, projectPath: string, sessionName: Option<string>, now: Time): SessionInfo {
    SessionInfo(id, projectPath, sessionName, now, None, 0, 0, Active)
  }

  /** The session as `endSession` leaves it just before writing it. */
  function EndedSession(session: SessionInfo, now: Time): SessionInfo {
    session.(endTime := Some(now), status := Ended)
  }

  /** The transcript `writeSessionFile` writes for an ended session: the
      duration is the elapsed time in whole minutes, rounded. */
  function TranscriptOf(ended: SessionInfo, ms: seq<SessionMessage>, summary: Option<string>): string {
    SessionMarkdown(ended, ms, summary, SessionDuration(ended))
  }

  /** The duration written into a transcript: 0 while the session has no
      end. */
  function SessionDuration(session: SessionInfo): int {
    if session.endTime.Some? then DurationMinutes(session.startTime, session.endTime.value) else 0
  }

  class SessionTracker {
    var currentSession: Option<SessionInfo>
    var messages: seq<SessionMessage>

    /** While a session is active its counters describe the buffer; with
        none, the buffer is empty. */
    ghost predicate Valid()
      reads this
    {
      match currentSession
      case None => messages == []
      case Some(s) =>
        && s.status == Active && s.endTime == None
        && s.messageCount == |messages| && s.tokenCount == TotalTokens(messages)
    }

    constructor()
      ensures Valid()
      ensures currentSession == None && messages == []
    {
      currentSession := None;
      messages := [];
    }

    /** `getCurrentSession()` */
    function GetCurrentSession(): (s: Option<SessionInfo>)
      requires Valid()
      reads this
      ensures s.Some? ==> s.value.status == Active && s.value.endTime == None
      ensures s.Some? ==> s.value.messageCount == |messages| && s.value.tokenCount == TotalTokens(messages)
      ensures s.None? ==> messages == []
    {
      currentSession
    }

    /** `startSession(projectPath, sessionName)` with the id, the clock
        reading and the rendered initial configuration given. */
    method StartSession(fs: FileSystem, projectPath: string, sessionName: Option<string>, id: string, now: Time,
                        configText: string)
      returns (r: Result<SessionInfo>)
      requires Valid()
      modifies this, fs
      ensures Valid()
      ensures old(currentSession).Some? ==>
        && r == Failure(AlreadyActive)
        && currentSession == old(currentSession) && messages == old(messages)
        && fs.files == old(fs.files) && fs.listings == old(fs.listings)
      ensures old(currentSession).None? ==>
        && r == Success(NewSession(id, projectPath, sessionName, now))
        && currentSession == Some(r.value) && messages == []
        && fs.files == WithInitialConfig(old(fs.files), projectPath, configText)
        && fs.listings == ContextListings(old(fs.listings), old(fs.files), projectPath)
    {
      if currentSession.Some? {
        return Failure(AlreadyActive);
      }
      var session := NewSession(id, projectPath, sessionName, now);
      currentSession := Some(session);
      messages := [];
      fs.EnsureContextDirectory(projectPath, configText);
      return Success(session);
    }

    /** `addMessage(content, role, tokenCount)` with the id and the clock
        reading given. */
    method AddMessage(content: string, role: Role, tokenCount: nat, id: string, now: Time) returns (r: Result<()>)
      requires Valid()
      modifies this
      ensures Valid()
      ensures old(currentSession).None? ==>
        r == Failure(NoActiveSession) && currentSession == None && messages == old(messages)
      ensures old(currentSession).Some? ==>
        && r == Success(())
        && messages == old(messages) + [SessionMessage(id, content, role, now, tokenCount)]
        && currentSession == Some(old(currentSession).value.(
             tokenCount := old(currentSession).value.tokenCount + tokenCount,
             messageCount := old(currentSession).value.messageCount + 1))
    {
      if currentSession.None? {
        return Failure(NoActiveSession);
      }
      var message := SessionMessage(id, content, role, now, tokenCount);
      TotalTokensSnoc(messages, message);
      messages := messages + [message];
      var s := currentSession.value;
      currentSession := Some(s.(tokenCount := s.tokenCount + tokenCount, messageCount := s.messageCount + 1));
      return Success(());
    }

    /** `writeSessionFile`: the transcript under its own name and as
        `current_session.md`, both in the project's sessions directory. */
    method WriteSessionFile(fs: FileSystem, ended: SessionInfo, ms: seq<SessionMessage>, summary: Option<string>)
      modifies fs
      ensures fs.files == old(fs.files)
        [PathJoin(SessionsDir(ended.projectPath), TranscriptFileName(ended)) := TranscriptOf(ended, ms, summary)]
        [PathJoin(SessionsDir(ended.projectPath), CurrentSessionFile) := TranscriptOf(ended, ms, summary)]
      ensures fs.listings == AfterWrite(AfterWrite(old(fs.listings), SessionsDir(ended.projectPath),
                                                   TranscriptFileName(ended)),
                                        SessionsDir(ended.projectPath), CurrentSessionFile)
    {
      var dir := SessionsDir(ended.projectPath);
      var duration := SessionDuration(ended);
      var markdown := GenerateSessionMarkdown(ended, ms, summary, duration);
      fs.WriteFile(dir, TranscriptFileName(ended), markdown);
      fs.WriteFile(dir, CurrentSessionFile, markdown);
    }

    /** `endSession(summary)` with the clock reading given. */
    method EndSession(fs: FileSystem, summary: Option<string>, now: Time) returns (r: Result<()>)
      requires Valid()
      modifies this, fs
      ensures Valid()
      ensures old(currentSession).None? ==>
        && r == Failure(NoSessionToEnd)
        && currentSession == None && messages == old(messages)
        && fs.files == old(fs.files) && fs.listings == old(fs.listings)
      ensures old(currentSession).Some? ==>
        var ended := EndedSession(old(currentSession).value, now);
        var dir := SessionsDir(ended.projectPath);
        && r == Success(())
        && currentSession == None && messages == []
        && fs.files == old(fs.files)[PathJoin(dir, TranscriptFileName(ended)) := TranscriptOf(ended, old(messages), summary)]
                                    [PathJoin(dir, CurrentSessionFile) := TranscriptOf(ended, old(messages), summary)]
        && fs.listings == AfterWrite(AfterWrite(old(fs.listings), dir, TranscriptFileName(ended)), dir, CurrentSessionFile)
    {
      if currentSession.None? {
        return Failure(NoSessionToEnd);
      }
      var ended := EndedSession(currentSession.value, now);
      currentSession := Some(ended);
      WriteSessionFile(fs, ended, messages, summary);
      currentSession := None;
      messages := [];
      return Success(());
    }
  }

  // ---------------------------------------------------------------------
  // getSessions

  /** The names `getSessions` keeps: `session_*.md`. */
  predicate IsSessionFile(name: string) {
    StartsWith(name, SessionPrefix) && EndsWith(name, ".md")
  }

  /** `files.filter(...)`: the session files of a listing, in order. */
  function SessionFiles(listing: seq<string>): (r: seq<string>)
    ensures forall n :: n in r <==> n in listing && IsSessionFile(n)
    ensures |r| <= |listing|
  {
    if listing == [] then []
    else if IsSessionFile(listing[0]) then [listing[0]] + SessionFiles(listing[1..])
    else SessionFiles(listing[1..])
  }

  /** Every session file of `names` in `dir`, read and parsed in order;
      `None` as soon as one cannot be read. */
  function ReadRecords(files: map<string, string>, dir: string, names: seq<string>,
                       cwd: string, parseDate: string -> Time): (r: Option<seq<SessionRecord>>)
    ensures r.Some? ==> |r.value| == |names|
    ensures r.Some? ==> forall k :: 0 <= k < |names| ==>
              PathJoin(dir, names[k]) in files
              && r.value[k] == ParseTranscript(files[PathJoin(dir, names[k])], names[k], cwd, parseDate)
    ensures r.None? <==> exists k :: 0 <= k < |names| && PathJoin(dir, names[k]) !in files
    decreases |names|
  {
    if names == [] then Some([])
    else if PathJoin(dir, names[0]) !in files then None
    else
      match ReadRecords(files, dir, names[1..], cwd, parseDate)
      case None => None
      case Some(rest) =>
        Some([ParseTranscript(files[PathJoin(dir, names[0])], names[0], cwd, parseDate)] + rest)
  }

  /** The start time of a parsed transcript, in milliseconds. */
  function StartKey(rec: SessionRecord): int
    requires rec.startTime.Some?
  {
    rec.startTime.value.millis
  }

  predicate AllStarted(rs: seq<SessionRecord>) {
    forall i :: 0 <= i < |rs| ==> rs[i].startTime.Some?
  }

  predicate SortedByStart(rs: seq<SessionRecord>) {
    forall i, j :: 0 <= i < j < |rs| ==>
      rs[i].startTime.Some? && rs[j].startTime.Some? && StartKey(rs[i]) <= StartKey(rs[j])
  }

  /** `sorted` with `rec` placed after every record that does not start
      later, so records with equal starts keep their order. */
  function InsertByStart(rec: SessionRecord, sorted: seq<SessionRecord>): (r: seq<SessionRecord>)
    requires rec.startTime.Some? && AllStarted(sorted)
    ensures AllStarted(r) && multiset(r) == multiset(sorted) + multiset{rec}
    decreases |sorted|
  {
    if sorted == [] || StartKey(rec) < StartKey(sorted[0]) then [rec] + sorted
    else
      assert sorted == [sorted[0]] + sorted[1..];
      [sorted[0]] + InsertByStart(rec, sorted[1..])
  }

  predicate StartsNoEarlier(rs: seq<SessionRecord>, key: int) {
    forall i :: 0 <= i < |rs| ==> rs[i].startTime.Some? && StartKey(rs[i]) >= key
  }

  lemma {:induction false} InsertLowerBound(rec: SessionRecord, sorted: seq<SessionRecord>, key: int)
    requires rec.startTime.Some? && AllStarted(sorted)
    requires StartKey(rec) >= key && StartsNoEarlier(sorted, key)
    ensures StartsNoEarlier(InsertByStart(rec, sorted), key)
    decreases |sorted|
  {
    if sorted != [] && StartKey(rec) >= StartKey(sorted[0]) {
      InsertLowerBound(rec, sorted[1..], key);
    }
  }

  lemma SortedCons(x: SessionRecord, rs: seq<SessionRecord>)
    requires x.startTime.Some? && SortedByStart(rs) && StartsNoEarlier(rs, StartKey(x))
    ensures SortedByStart([x] + rs)
  {
    var r := [x] + rs;
    forall i, j | 0 <= i < j < |r|
      ensures r[i].startTime.Some? && r[j].startTime.Some? && StartKey(r[i]) <= StartKey(r[j])
    {
      assert r[j] == rs[j - 1];
      if i > 0 {
        assert r[i] == rs[i - 1];
      }
    }
  }

  lemma {:induction false} InsertKeepsSorted(rec: SessionRecord, sorted: seq<SessionRecord>)
    requires rec.startTime.Some? && AllStarted(sorted) && SortedByStart(sorted)
    ensures SortedByStart(InsertByStart(rec, sorted))
    decreases |sorted|
  {
    if sorted == [] || StartKey(rec) < StartKey(sorted[0]) {
      SortedCons(rec, sorted);
    } else {
      var rest := sorted[1..];
      InsertKeepsSorted(rec, rest);
      assert StartsNoEarlier(rest, StartKey(sorted[0])) by {
        forall i | 0 <= i < |rest|
          ensures rest[i].startTime.Some? && StartKey(rest[i]) >= StartKey(sorted[0])
        {
          assert rest[i] == sorted[i + 1];
        }
      }
      InsertLowerBound(rec, rest, StartKey(sorted[0]));
      SortedCons(sorted[0], InsertByStart(rec, rest));
    }
  }

  /** `sessions.sort((a, b) => a.startTime.getTime() - b.startTime.getTime())`:
      a stable sort by start time. */
  function SortByStart(rs: seq<SessionRecord>): (r: seq<SessionRecord>)
    requires AllStarted(rs)
    ensures AllStarted(r) && multiset(r) == multiset(rs)
    decreases |rs|
  {
    if rs == [] then []
    else
      assert rs == rs[..|rs| - 1] + [rs[|rs| - 1]];
      InsertByStart(rs[|rs| - 1], SortByStart(rs[..|rs| - 1]))
  }

  lemma {:induction false} SortByStartSorted(rs: seq<SessionRecord>)
    requires AllStarted(rs)
    ensures SortedByStart(SortByStart(rs))
    decreases |rs|
  {
    if rs != [] {
      SortByStartSorted(rs[..|rs| - 1]);
      InsertKeepsSorted(rs[|rs| - 1], SortByStart(rs[..|rs| - 1]));
    }
  }

  /** What `getSessions(projectPath)` returns. A missing sessions
      directory or an unreadable file yields `[]`, and so does sorting two
      or more records when one lacks a start time, since the comparator
      then throws. */
  function ListSessions(files: map<string, string>, listings: map<string, seq<string>>, projectPath: string,
                        cwd: string, parseDate: string -> Time): seq<SessionRecord> {
    var dir := SessionsDir(projectPath);
    if dir !in listings then []
    else
      match ReadRecords(files, dir, SessionFiles(listings[dir]), cwd, parseDate)
      case None => []
      case Some(rs) => Arranged(rs)
  }

  /** The sorted records; sorting two or more records when one lacks a
      start time throws. */
  function Arranged(rs: seq<SessionRecord>): seq<SessionRecord> {
    if AllStarted(rs) then SortByStart(rs)
    else if |rs| <= 1 then rs
    else []
  }

  /** `getSessions(projectPath)`: every session file read and parsed in
      listing order, then sorted. */
  method GetSessions(fs: FileSystem, projectPath: string, cwd: string, parseDate: string -> Time)
    returns (sessions: seq<SessionRecord>)
    ensures sessions == ListSessions(fs.files, fs.listings, projectPath, cwd, parseDate)
  {
    var dir := SessionsDir(projectPath);
    var listing := fs.ReadDir(dir);
    if listing.None? {
      return [];
    }
    var names := SessionFiles(listing.value);
    var found: seq<SessionRecord> := [];
    var i := 0;
    assert names[0..] == names;
    PrependNothing(ReadRecords(fs.files, dir, names, cwd, parseDate));
    while i < |names|
      invariant 0 <= i <= |names|
      invariant ReadRecords(fs.files, dir, names, cwd, parseDate)
                == Prepend(found, ReadRecords(fs.files, dir, names[i..], cwd, parseDate))
    {
      var content := fs.ReadFile(PathJoin(dir, names[i]));
      ReadRecordsStep(fs.files, dir, names, i, cwd, parseDate);
      if content.None? {
        return [];
      }
      var session := ParseSessionFromMarkdown(content.value, names[i], cwd, parseDate);
      PrependTwice(found, session, ReadRecords(fs.files, dir, names[i + 1..], cwd, parseDate));
      found := found + [session];
      i := i + 1;
    }
    assert names[i..] == [];
    assert found + [] == found;
    assert ReadRecords(fs.files, dir, names, cwd, parseDate) == Some(found);
    sessions := Arranged(found);
    ListedAs(fs.files, fs.listings, projectPath, cwd, parseDate, found);
  }

  lemma ListedAs(files: map<string, string>, listings: map<string, seq<string>>, projectPath: string,
                 cwd: string, parseDate: string -> Time, rs: seq<SessionRecord>)
    requires SessionsDir(projectPath) in listings
    requires ReadRecords(files, SessionsDir(projectPath), SessionFiles(listings[SessionsDir(projectPath)]), cwd, parseDate)
             == Some(rs)
    ensures ListSessions(files, listings, projectPath, cwd, parseDate) == Arranged(rs)
  {
  }

  lemma ReadRecordsStep(files: map<string, string>, dir: string, names: seq<string>, i: nat,
                        cwd: string, parseDate: string -> Time)
    requires i < |names|
    ensures PathJoin(dir, names[i]) !in files ==> ReadRecords(files, dir, names[i..], cwd, parseDate) == None
    ensures PathJoin(dir, names[i]) in files ==>
      ReadRecords(files, dir, names[i..], cwd, parseDate)
      == Prepend([ParseTranscript(files[PathJoin(dir, names[i])], names[i], cwd, parseDate)],
                 ReadRecords(files, dir, names[i + 1..], cwd, parseDate))
  {
    assert names[i..][0] == names[i];
    assert names[i..][1..] == names[i + 1..];
  }

  lemma PrependNothing(rest: Option<seq<SessionRecord>>)
    ensures Prepend([], rest) == rest
  {
    if rest.Some? {
      assert [] + rest.value == rest.value;
    }
  }

  lemma PrependTwice(front: seq<SessionRecord>, x: SessionRecord, rest: Option<seq<SessionRecord>>)
    ensures Prepend(front, Prepend([x], rest)) == Prepend(front + [x], rest)
  {
    if rest.Some? {
      assert front + ([x] + rest.value) == front + [x] + rest.value;
    }
  }

  function Prepend(front: seq<SessionRecord>, rest: Option<seq<SessionRecord>>): Option<seq<SessionRecord>> {
    match rest
    case None => None
    case Some(r) => Some(front + r)
  }

  /** What `getSessions` promises: a missing directory gives `[]`; the
      result is sorted by start time; and a non-empty result holds exactly
      the parsed session files of the listing. */
  lemma ListSessionsProperties(files: map<string, string>, listings: map<string, seq<string>>, projectPath: string,
                               cwd: string, parseDate: string -> Time)
    ensures SessionsDir(projectPath) !in listings ==> ListSessions(files, listings, projectPath, cwd, parseDate) == []
    ensures var r := ListSessions(files, listings, projectPath, cwd, parseDate);
      && SortedByStart(r)
      && (r != [] ==>
            var names := SessionFiles(listings[SessionsDir(projectPath)]);
            var rs := ReadRecords(files, SessionsDir(projectPath), names, cwd, parseDate);
            rs.Some? && multiset(r) == multiset(rs.value))
  {
    var dir := SessionsDir(projectPath);
    if dir in listings {
      var rs := ReadRecords(files, dir, SessionFiles(listings[dir]), cwd, parseDate);
      if rs.Some? && AllStarted(rs.value) {
        SortByStartSorted(rs.value);
      }
    }
  }

  /** The files `endSession` writes: the transcript is listed by
      `getSessions`, `current_session.md` is not. */
  lemma WrittenNamesFiltered(session: SessionInfo)
    ensures IsSessionFile(TranscriptFileName(session))
    ensures !IsSessionFile(CurrentSessionFile)
  {
    var name := TranscriptFileName(session);
    assert name[..|SessionPrefix|] == SessionPrefix;
    assert name[|name| - 3..] == ".md";
    NotStartsWithAt(CurrentSessionFile, SessionPrefix, 0);
  }
}
