/** The build manager of the editor: it tracks one active build per
    configured target, admits hub messages only for uids it tracks, keeps the
    build log (capped in size), records diagnostics as sorted markers in text
    buffers, and starts, kills and restarts builds and programs through the
    hub. The hub's own types are given only the variants used here. */
module BuildManager {
  import opened Common

  /** A uid allocated by the hub route. */
  datatype HubUid = HubUid(id: nat)

  datatype BuildTarget = BuildTarget(builder: string, workspace: string, package: string, config: string)

  /** What a finished build produced; only an executable can be run. */
  datatype BuildResult = Executable(path: string) | NotExecutable(tag: nat)

  /** A diagnostic with an optional byte range `(head, tail)` in a file. */
  datatype LocMsg = LocMsg(path: string, body: string, range: Option<(nat, nat)>)

  datatype HubLogItem =
    | LocPanic(loc: LocMsg)
    | LocError(loc: LocMsg)
    | LocWarning(loc: LocMsg)
    | LocMessage(loc: LocMsg)
    | Error(text: string)
    | Warning(text: string)
    | Message(text: string)

  /** The diagnostic a log item carries, if any. */
  function LocOf(item: HubLogItem): Option<LocMsg>
  {
    match item
    case LocPanic(loc) => Some(loc)
    case LocError(loc) => Some(loc)
    case LocWarning(loc) => Some(loc)
    case LocMessage(loc) => Some(loc)
    case _ => None
  }

  datatype MessageLevel = LevelLog | LevelError | LevelWarning

  /** The marker level of a log item: panics and plain messages are logs. */
  function LevelOf(item: HubLogItem): (l: MessageLevel)
    ensures l == LevelError <==> item.LocError? || item.Error?
    ensures l == LevelWarning <==> item.LocWarning? || item.Warning?
  {
    match item
    case LocPanic(_) => LevelLog
    case LocError(_) => LevelError
    case LocWarning(_) => LevelWarning
    case LocMessage(_) => LevelLog
    case Error(_) => LevelError
    case Warning(_) => LevelWarning
    case Message(_) => LevelLog
  }

  /** The hub messages the build manager receives and sends. */
  datatype HubMsg =
    | ListBuildersResponse
    | CargoBegin(uid: HubUid)
    | LogItem(uid: HubUid, item: HubLogItem)
    | CargoArtifact(uid: HubUid, packageId: string, isFresh: bool)
    | BuildFailure(uid: HubUid)
    | CargoEnd(uid: HubUid, buildResult: BuildResult)
    | ProgramEnd(uid: HubUid)
    | ProgramKill(uid: HubUid)
    | ProgramRun(uid: HubUid, path: string, args: seq<string>)
    | BuildKill(uid: HubUid)
    | Build(uid: HubUid, workspace: string, package: string, config: string)
    | OtherMsg

  /** A message sent to one builder. */
  datatype ToHubMsg = ToHubMsg(builder: string, msg: HubMsg)

  /** The signals the manager raises for its views. */
  datatype Status = NewLogItem | NewArtifact | CargoEndStatus | ProgramEndStatus

  datatype ActiveBuild = ActiveBuild(
    buildTarget: BuildTarget,
    buildResult: Option<BuildResult>,
    buildUid: Option<HubUid>,
    runUid: Option<HubUid>)

  /** The settings a restart reads. */
  datatype Settings = Settings(builds: seq<BuildTarget>, execWhenDone: bool)

  // ---------------------------------------------------------------------
  // Queries over the active builds
  // ---------------------------------------------------------------------

  /** `uid` is some entry's build uid or run uid. */
  predicate Tracked(builds: seq<ActiveBuild>, uid: HubUid)
  {
    exists i :: 0 <= i < |builds| && (builds[i].buildUid == Some(uid) || builds[i].runUid == Some(uid))
  }

  predicate AnyCargo(builds: seq<ActiveBuild>)
  {
    exists i :: 0 <= i < |builds| && builds[i].buildUid.Some?
  }

  predicate AnyArtifact(builds: seq<ActiveBuild>)
  {
    exists i :: 0 <= i < |builds| && builds[i].runUid.Some?
  }

  /** Every tracked uid was allocated before `next`. */
  predicate UidsBelow(builds: seq<ActiveBuild>, next: nat)
  {
    forall i :: 0 <= i < |builds| ==>
      (builds[i].buildUid.Some? ==> builds[i].buildUid.value.id < next) &&
      (builds[i].runUid.Some? ==> builds[i].runUid.value.id < next)
  }

  /** The uid a message is admitted by, for the arms that check one. */
  function UidOf(m: HubMsg): Option<HubUid>
  {
    match m
    case CargoBegin(uid) => Some(uid)
    case LogItem(uid, _) => Some(uid)
    case CargoArtifact(uid, _, _) => Some(uid)
    case BuildFailure(uid) => Some(uid)
    case CargoEnd(uid, _) => Some(uid)
    case ProgramEnd(uid) => Some(uid)
    case _ => None
  }

  /** Whether `handle_hub_msg` leaves everything as it was: a message for
      a uid no build is running under, a message that has no arm, or the
      builder list off the desktop. */
  function Ignored(m: HubMsg, builds: seq<ActiveBuild>, desktop: bool): bool
  {
    match m
    case ListBuildersResponse => !desktop
    case _ => UidOf(m).None? || !Tracked(builds, UidOf(m).value)
  }

  // ---------------------------------------------------------------------
  // The per-entry updates of the message arms
  // ---------------------------------------------------------------------

  /** A failed build: the entries building `uid` stop building. */
  function Failed(builds: seq<ActiveBuild>, uid: HubUid): (r: seq<ActiveBuild>)
    ensures |r| == |builds|
    ensures !exists i :: 0 <= i < |r| && r[i].buildUid == Some(uid)
    ensures forall i :: 0 <= i < |r| ==>
              && r[i].buildTarget == builds[i].buildTarget && r[i].buildResult == builds[i].buildResult
              && r[i].runUid == builds[i].runUid
              && (builds[i].buildUid != Some(uid) ==> r[i] == builds[i])
  {
    seq(|builds|, i requires 0 <= i < |builds| =>
      if builds[i].buildUid == Some(uid) then builds[i].(buildUid := None) else builds[i])
  }

  /** A finished build: the entries building `uid` stop building and record
      the result. */
  function Ended(builds: seq<ActiveBuild>, uid: HubUid, result: BuildResult): (r: seq<ActiveBuild>)
    ensures |r| == |builds|
    ensures !exists i :: 0 <= i < |r| && r[i].buildUid == Some(uid)
    ensures forall i :: 0 <= i < |r| ==>
              && r[i].buildTarget == builds[i].buildTarget && r[i].runUid == builds[i].runUid
              && (builds[i].buildUid == Some(uid) ==> r[i].buildResult == Some(result))
              && (builds[i].buildUid != Some(uid) ==> r[i] == builds[i])
  {
    seq(|builds|, i requires 0 <= i < |builds| =>
      if builds[i].buildUid == Some(uid) then builds[i].(buildUid := None, buildResult := Some(result)) else builds[i])
  }

  /** A program that ended: the entries running `uid` stop running. */
  function Stopped(builds: seq<ActiveBuild>, uid: HubUid): (r: seq<ActiveBuild>)
    ensures |r| == |builds|
    ensures !exists i :: 0 <= i < |r| && r[i].runUid == Some(uid)
    ensures forall i :: 0 <= i < |r| ==>
              && r[i].buildTarget == builds[i].buildTarget && r[i].buildResult == builds[i].buildResult
              && r[i].buildUid == builds[i].buildUid
              && (builds[i].runUid != Some(uid) ==> r[i] == builds[i])
  {
    seq(|builds|, i requires 0 <= i < |builds| =>
      if builds[i].runUid == Some(uid) then builds[i].(runUid := None) else builds[i])
  }

  /** After a build ends, a build is still going on exactly when another
      entry was building under another uid. */
  lemma {:induction false} EndedLeavesOtherBuilds(builds: seq<ActiveBuild>, uid: HubUid, result: BuildResult)
    ensures AnyCargo(Ended(builds, uid, result)) <==>
            exists i :: 0 <= i < |builds| && builds[i].buildUid.Some? && builds[i].buildUid != Some(uid)
    ensures AnyCargo(Failed(builds, uid)) <==>
            exists i :: 0 <= i < |builds| && builds[i].buildUid.Some? && builds[i].buildUid != Some(uid)
  {
    var ended := Ended(builds, uid, result);
    var failed := Failed(builds, uid);
    if AnyCargo(ended) {
      var i :| 0 <= i < |ended| && ended[i].buildUid.Some?;
      assert builds[i].buildUid.Some? && builds[i].buildUid != Some(uid);
    }
    if AnyCargo(failed) {
      var i :| 0 <= i < |failed| && failed[i].buildUid.Some?;
      assert builds[i].buildUid.Some? && builds[i].buildUid != Some(uid);
    }
    if exists i :: 0 <= i < |builds| && builds[i].buildUid.Some? && builds[i].buildUid != Some(uid) {
      var i :| 0 <= i < |builds| && builds[i].buildUid.Some? && builds[i].buildUid != Some(uid);
      assert ended[i].buildUid.Some? && failed[i].buildUid.Some?;
    }
  }

  // ---------------------------------------------------------------------
  // Running the artifacts
  // ---------------------------------------------------------------------

  function IsExecutable(b: ActiveBuild): bool
  {
    b.buildResult.Some? && b.buildResult.value.Executable?
  }

  /** The kill of an entry's running program, if it has one. */
  function ProgramKills(b: ActiveBuild): seq<ToHubMsg>
  {
    if b.runUid.Some? then [ToHubMsg(b.buildTarget.builder, ProgramKill(b.runUid.value))] else []
  }

  datatype RunOutcome = RunOutcome(builds: seq<ActiveBuild>, sends: seq<ToHubMsg>, next: nat)

  /** One entry of `run_all_artifacts`, the route's next uid being `next`:
      an executable entry takes that uid as its run uid, after the kill of
      its previous program; any other entry is left alone. */
  function RunEntry(b: ActiveBuild, next: nat): (e: RunOutcome)
    ensures |e.builds| == 1
    ensures IsExecutable(b) ==> e.next == next + 1 && e.builds[0] == b.(runUid := Some(HubUid(next)))
    ensures !IsExecutable(b) ==> e.next == next && e.builds[0] == b && e.sends == []
  {
    if IsExecutable(b) then
      var uid := HubUid(next);
      RunOutcome([b.(runUid := Some(uid))],
                 ProgramKills(b) + [ToHubMsg(b.buildTarget.builder, ProgramRun(uid, b.buildResult.value.path, []))],
                 next + 1)
    else RunOutcome([b], [], next)
  }

  function CountExecutable(builds: seq<ActiveBuild>): nat
    decreases |builds|
  {
    if |builds| == 0 then 0
    else CountExecutable(builds[..|builds| - 1]) + (if IsExecutable(builds[|builds| - 1]) then 1 else 0)
  }

  /** `run_all_artifacts` over the entries in order, the route's next uid
      being `next`: each executable entry gets the next uid as its run uid,
      after the kill of its previous program, and every other entry is left
      as it is. */
  function RunAll(builds: seq<ActiveBuild>, next: nat): (r: RunOutcome)
    ensures |r.builds| == |builds| && r.next == next + CountExecutable(builds)
    ensures forall i :: 0 <= i < |builds| && !IsExecutable(builds[i]) ==> r.builds[i] == builds[i]
    ensures forall i :: 0 <= i < |builds| && IsExecutable(builds[i]) ==>
              && r.builds[i] == builds[i].(runUid := r.builds[i].runUid)
              && r.builds[i].runUid.Some? && next <= r.builds[i].runUid.value.id < r.next
    ensures forall i, j :: 0 <= i < j < |builds| && IsExecutable(builds[i]) && IsExecutable(builds[j]) ==>
              r.builds[i].runUid.value.id < r.builds[j].runUid.value.id
    decreases |builds|
  {
    if |builds| == 0 then RunOutcome([], [], next)
    else
      var o := RunAll(builds[..|builds| - 1], next);
      var e := RunEntry(builds[|builds| - 1], o.next);
      RunOutcome(o.builds + e.builds, o.sends + e.sends, e.next)
  }

  lemma RunAllUnfold(builds: seq<ActiveBuild>, i: nat, next: nat)
    requires i < |builds|
    ensures var o := RunAll(builds[..i], next);
            var e := RunEntry(builds[i], o.next);
            RunAll(builds[..i + 1], next) == RunOutcome(o.builds + e.builds, o.sends + e.sends, e.next)
  {
    assert builds[..i + 1][..i] == builds[..i];
  }

  /** One turn of the `run_all_artifacts` loop: with the first `i` entries
      of `start` run into `done`, running entry `i` of `before` as `RunEntry`
      does extends the run by one entry. */
  lemma {:induction false} RunAllStep(start: seq<ActiveBuild>, next: nat, i: nat, done: RunOutcome,
                                      before: seq<ActiveBuild>, after: seq<ActiveBuild>)
    requires i < |start| == |before|
    requires done == RunAll(start[..i], next) && before[..i] == done.builds
    requires forall j :: i <= j < |start| ==> before[j] == start[j]
    requires after == before[i := RunEntry(start[i], done.next).builds[0]]
    ensures var e := RunEntry(start[i], done.next);
            var d := RunOutcome(done.builds + e.builds, done.sends + e.sends, e.next);
            && d == RunAll(start[..i + 1], next)
            && after[..i + 1] == d.builds
            && forall j :: i + 1 <= j < |start| ==> after[j] == start[j]
  {
    RunAllUnfold(start, i, next);
    assert after[..i + 1] == before[..i] + [after[i]];
  }

  /** Running the artifacts gives every executable entry a uid nobody
      tracked before, and all uids stay below the route's next one. */
  lemma {:induction false} RunAllUsesFreshUids(builds: seq<ActiveBuild>, next: nat)
    requires UidsBelow(builds, next)
    ensures UidsBelow(RunAll(builds, next).builds, RunAll(builds, next).next)
    ensures forall i :: 0 <= i < |builds| && IsExecutable(builds[i]) ==>
              !Tracked(builds, RunAll(builds, next).builds[i].runUid.value)
  {
    var r := RunAll(builds, next);
    forall i | 0 <= i < |builds| && IsExecutable(builds[i])
      ensures !Tracked(builds, r.builds[i].runUid.value)
    {
      assert r.builds[i].runUid.value.id >= next;
    }
  }

  /** Message `m` is the run of an executable entry of `builds` under the
      run uid that entry has in `after`, or the kill of a program some entry
      of `builds` was running. */
  ghost predicate RunSendExplained(m: ToHubMsg, builds: seq<ActiveBuild>, after: seq<ActiveBuild>)
    requires |after| == |builds|
  {
    || (m.msg.ProgramRun? && (exists i :: 0 <= i < |builds| && IsExecutable(builds[i]) && after[i].runUid.Some? &&
                                m.msg.uid == after[i].runUid.value &&
                                m.msg.path == builds[i].buildResult.value.path && m.msg.args == []))
    || (m.msg.ProgramKill? && (exists i :: 0 <= i < |builds| && builds[i].runUid == Some(m.msg.uid)))
  }

  /** A message explained by a prefix of the entries is explained by all of
      them. */
  lemma {:induction false} ExplainedByPrefix(m: ToHubMsg, builds: seq<ActiveBuild>, after: seq<ActiveBuild>, n: nat)
    requires |after| == |builds| && n <= |builds|
    requires RunSendExplained(m, builds[..n], after[..n])
    ensures RunSendExplained(m, builds, after)
  {
    if m.msg.ProgramRun? && exists i :: 0 <= i < n && IsExecutable(builds[..n][i]) && after[..n][i].runUid.Some? &&
                                         m.msg.uid == after[..n][i].runUid.value &&
                                         m.msg.path == builds[..n][i].buildResult.value.path && m.msg.args == [] {
      var i :| 0 <= i < n && IsExecutable(builds[..n][i]) && after[..n][i].runUid.Some? &&
               m.msg.uid == after[..n][i].runUid.value &&
               m.msg.path == builds[..n][i].buildResult.value.path && m.msg.args == [];
      assert builds[..n][i] == builds[i] && after[..n][i] == after[i];
    } else {
      var i :| 0 <= i < n && builds[..n][i].runUid == Some(m.msg.uid);
      assert builds[..n][i] == builds[i];
    }
  }

  /** One ProgramRun is sent per executable entry, carrying that entry's new
      run uid and path; the kills name only programs that were running. */
  lemma {:induction false} RunAllSends(builds: seq<ActiveBuild>, next: nat)
    ensures forall m :: m in RunAll(builds, next).sends ==> RunSendExplained(m, builds, RunAll(builds, next).builds)
    decreases |builds|
  {
    if |builds| > 0 {
      var n := |builds| - 1;
      var init := builds[..n];
      RunAllSends(init, next);
      var o := RunAll(init, next);
      var e := RunEntry(builds[n], o.next);
      var r := RunAll(builds, next);
      assert r == RunOutcome(o.builds + e.builds, o.sends + e.sends, e.next);
      assert r.builds[..n] == o.builds;
      forall m | m in r.sends
        ensures RunSendExplained(m, builds, r.builds)
      {
        if m in o.sends {
          ExplainedByPrefix(m, builds, r.builds, n);
        } else {
          assert m in e.sends && IsExecutable(builds[n]);
          assert r.builds[n] == e.builds[0];
        }
      }
    }
  }

  // ---------------------------------------------------------------------
  // Restarting
  // ---------------------------------------------------------------------

  /** The kills a restart sends for an entry: its build, then its program. */
  function EntryKills(b: ActiveBuild): seq<ToHubMsg>
  {
    (if b.buildUid.Some? then [ToHubMsg(b.buildTarget.builder, BuildKill(b.buildUid.value))] else [])
    + ProgramKills(b)
  }

  function KillSends(builds: seq<ActiveBuild>): seq<ToHubMsg>
    decreases |builds|
  {
    if |builds| == 0 then [] else KillSends(builds[..|builds| - 1]) + EntryKills(builds[|builds| - 1])
  }

  lemma {:induction false} KillSendsStep(builds: seq<ActiveBuild>, i: nat)
    requires i < |builds|
    ensures KillSends(builds[..i + 1]) == KillSends(builds[..i]) + EntryKills(builds[i])
  {
    assert builds[..i + 1][..i] == builds[..i];
  }

  /** Sending an entry's build kill, if any, and then its program kill, if
      any, appends exactly its `EntryKills`. */
  lemma {:induction false} KillsAppended(before: seq<ToHubMsg>, mid: seq<ToHubMsg>, after: seq<ToHubMsg>, b: ActiveBuild)
    requires mid == before + (if b.buildUid.Some? then [ToHubMsg(b.buildTarget.builder, BuildKill(b.buildUid.value))] else [])
    requires after == mid + ProgramKills(b)
    ensures after == before + EntryKills(b)
  {
    assert before + EntryKills(b) ==
           before + (if b.buildUid.Some? then [ToHubMsg(b.buildTarget.builder, BuildKill(b.buildUid.value))] else [])
                  + ProgramKills(b);
  }

  /** A restart kills nothing but tracked uids: builds with BuildKill,
      programs with ProgramKill. */
  lemma {:induction false} KillSendsOnlyTracked(builds: seq<ActiveBuild>)
    ensures forall m :: m in KillSends(builds) ==>
              || (m.msg.BuildKill? && (exists i :: 0 <= i < |builds| && builds[i].buildUid == Some(m.msg.uid)))
              || (m.msg.ProgramKill? && (exists i :: 0 <= i < |builds| && builds[i].runUid == Some(m.msg.uid)))
    decreases |builds|
  {
    if |builds| > 0 {
      var n := |builds| - 1;
      var init := builds[..n];
      KillSendsOnlyTracked(init);
      forall m | m in KillSends(builds)
        ensures || (m.msg.BuildKill? && (exists i :: 0 <= i < |builds| && builds[i].buildUid == Some(m.msg.uid)))
                || (m.msg.ProgramKill? && (exists i :: 0 <= i < |builds| && builds[i].runUid == Some(m.msg.uid)))
      {
        if m in KillSends(init) {
          if m.msg.BuildKill? {
            var i :| 0 <= i < |init| && init[i].buildUid == Some(m.msg.uid);
            assert builds[i] == init[i];
          } else {
            var i :| 0 <= i < |init| && init[i].runUid == Some(m.msg.uid);
            assert builds[i] == init[i];
          }
        } else {
          assert m in EntryKills(builds[n]);
        }
      }
    }
  }

  /** The kills for one entry are among a restart's kills. */
  lemma {:induction false} EntryKillsSent(builds: seq<ActiveBuild>, i: nat)
    requires i < |builds|
    ensures forall m :: m in EntryKills(builds[i]) ==> m in KillSends(builds)
    decreases |builds|
  {
    var n := |builds| - 1;
    var init := builds[..n];
    var own := EntryKills(builds[i]);
    assert KillSends(builds) == KillSends(init) + EntryKills(builds[n]);
    if i < n {
      EntryKillsSent(init, i);
      assert init[i] == builds[i];
      forall m | m in own ensures m in KillSends(builds) {
        assert m in KillSends(init);
      }
    }
  }

  /** A restart kills every tracked uid. */
  lemma {:induction false} KillSendsAllTracked(builds: seq<ActiveBuild>)
    ensures forall i :: 0 <= i < |builds| && builds[i].buildUid.Some? ==>
              ToHubMsg(builds[i].buildTarget.builder, BuildKill(builds[i].buildUid.value)) in KillSends(builds)
    ensures forall i :: 0 <= i < |builds| && builds[i].runUid.Some? ==>
              ToHubMsg(builds[i].buildTarget.builder, ProgramKill(builds[i].runUid.value)) in KillSends(builds)
  {
    forall i | 0 <= i < |builds|
      ensures builds[i].buildUid.Some? ==>
                ToHubMsg(builds[i].buildTarget.builder, BuildKill(builds[i].buildUid.value)) in KillSends(builds)
      ensures builds[i].runUid.Some? ==>
                ToHubMsg(builds[i].buildTarget.builder, ProgramKill(builds[i].runUid.value)) in KillSends(builds)
    {
      EntryKillsSent(builds, i);
    }
  }

  /** The entries a restart creates: one per target, in order, building
      under consecutive fresh uids. */
  function FreshBuilds(targets: seq<BuildTarget>, next: nat): (r: seq<ActiveBuild>)
    ensures |r| == |targets|
  {
    seq(|targets|, i requires 0 <= i < |targets| => ActiveBuild(targets[i], None, Some(HubUid(next + i)), None))
  }

  function BuildSends(targets: seq<BuildTarget>, next: nat): (r: seq<ToHubMsg>)
    ensures |r| == |targets|
  {
    seq(|targets|, i requires 0 <= i < |targets| =>
      ToHubMsg(targets[i].builder, Build(HubUid(next + i), targets[i].workspace, targets[i].package, targets[i].config)))
  }

  /** After a restart the tracked uids are exactly the new build uids, no
      program runs, and a build is going on iff some target is configured. */
  lemma {:induction false} RestartTracksNewBuilds(targets: seq<BuildTarget>, next: nat, uid: HubUid)
    ensures Tracked(FreshBuilds(targets, next), uid) <==> next <= uid.id < next + |targets|
    ensures !AnyArtifact(FreshBuilds(targets, next))
    ensures AnyCargo(FreshBuilds(targets, next)) <==> |targets| > 0
    ensures UidsBelow(FreshBuilds(targets, next), next + |targets|)
  {
    var r := FreshBuilds(targets, next);
    if next <= uid.id < next + |targets| {
      assert r[uid.id - next].buildUid == Some(uid);
    }
    if |targets| > 0 {
      assert r[0].buildUid.Some?;
    }
  }

  // ---------------------------------------------------------------------
  // The log limit
  // ---------------------------------------------------------------------

  const LOG_LIMIT: nat := 700000
  const LOG_KEEP: nat := 500000
  const LOG_SKIPPED: nat := 700001
  const TRUNCATED_NOTE: string := "------------ Log truncated here -----------"
  const SKIPPING_NOTE: string := "------------ Log skipping, press tail to resume -----------"

  /** `handle_log_item_limit` on the log: at the limit, a tailing log keeps
      its first 500000 items and a truncation note; a log that is not
      tailing gets a skipping note unless it holds exactly 700001 items. */
  function LimitedLog(items: seq<HubLogItem>, tail: bool): seq<HubLogItem>
  {
    if |items| < LOG_LIMIT then items
    else if tail then items[..LOG_KEEP] + [Message(TRUNCATED_NOTE)]
    else if |items| != LOG_SKIPPED then items + [Message(SKIPPING_NOTE)]
    else items
  }

  /** The signal the limit raises: only for a skipping note. */
  function LimitSignals(items: seq<HubLogItem>, tail: bool): seq<Status>
  {
    if |items| >= LOG_LIMIT && !tail && |items| != LOG_SKIPPED then [NewLogItem] else []
  }

  /** What a caller of the limit leaves behind: the limited log with the
      new item pushed after it. */
  function AddedLog(items: seq<HubLogItem>, tail: bool, item: HubLogItem): (r: seq<HubLogItem>)
    ensures |r| > 0 && r[|r| - 1] == item
  {
    LimitedLog(items, tail) + [item]
  }

  /** The log limit keeps history: below the limit nothing is lost, and a
      tailing log never grows past 700000 items (once it reaches 700000 it
      drops back to 500002). */
  lemma {:induction false} TailingLogStaysBounded(items: seq<HubLogItem>, item: HubLogItem)
    ensures |items| < LOG_LIMIT ==> AddedLog(items, true, item) == items + [item]
    ensures |items| <= LOG_LIMIT ==> |AddedLog(items, true, item)| <= LOG_LIMIT
    ensures |items| >= LOG_LIMIT ==> |AddedLog(items, true, item)| == LOG_KEEP + 2
    ensures |items| >= LOG_LIMIT ==> AddedLog(items, true, item)[..LOG_KEEP] == items[..LOG_KEEP]
  {
    if |items| >= LOG_LIMIT {
      assert AddedLog(items, true, item)[..LOG_KEEP] == items[..LOG_KEEP];
    }
  }

  /** `n` consecutive log items appended through the limit. */
  function AddedTimes(items: seq<HubLogItem>, tail: bool, item: HubLogItem, n: nat): seq<HubLogItem>
    decreases n
  {
    if n == 0 then items else AddedTimes(AddedLog(items, tail, item), tail, item, n - 1)
  }

  /** As written, a log that is not tailing keeps growing: from 700002
      items on, every item adds a skipping note and the item itself. */
  lemma {:induction false} UntailedLogGrowsWithoutBound(items: seq<HubLogItem>, item: HubLogItem, n: nat)
    requires |items| > LOG_SKIPPED
    ensures |AddedTimes(items, false, item, n)| == |items| + 2 * n
    decreases n
  {
    if n > 0 {
      UntailedLogGrowsWithoutBound(AddedLog(items, false, item), item, n - 1);
    }
  }

  /** The evident intent of the limit when not tailing: the item is thrown
      away, and the skipping note is added once, at the limit. */
  function CorrectedAddedLog(items: seq<HubLogItem>, tail: bool, item: HubLogItem): seq<HubLogItem>
  {
    if |items| < LOG_LIMIT then items + [item]
    else if tail then items[..LOG_KEEP] + [Message(TRUNCATED_NOTE), item]
    else if |items| == LOG_LIMIT then items + [Message(SKIPPING_NOTE)]
    else items
  }

  /** With the correction the log never holds more than 700001 items,
      whether it is tailing or not, and an untailed full log stays as it is. */
  lemma {:induction false} CorrectedLogStaysBounded(items: seq<HubLogItem>, tail: bool, item: HubLogItem, n: nat)
    requires |items| <= LOG_SKIPPED
    ensures |CorrectedTimes(items, tail, item, n)| <= LOG_SKIPPED
    ensures !tail && |items| == LOG_SKIPPED ==> CorrectedTimes(items, tail, item, n) == items
    decreases n
  {
    if n > 0 {
      CorrectedLogStaysBounded(CorrectedAddedLog(items, tail, item), tail, item, n - 1);
    }
  }

  function CorrectedTimes(items: seq<HubLogItem>, tail: bool, item: HubLogItem, n: nat): seq<HubLogItem>
    decreases n
  {
    if n == 0 then items else CorrectedTimes(CorrectedAddedLog(items, tail, item), tail, item, n - 1)
  }

  // ---------------------------------------------------------------------
  // Diagnostic markers in a text buffer
  // ---------------------------------------------------------------------

  datatype TextCursor = TextCursor(head: nat, tail: nat, max: nat)
  datatype TextBufferMessage = TextBufferMessage(body: string, level: MessageLevel)

  const MAX_MARKERS: nat := 100000

  /** Where a marker with `head` goes: after the last entry whose head is
      at most `head` (at the front if there is none). */
  function InsertPos(cs: seq<TextCursor>, head: nat): (k: nat)
    ensures k <= |cs|
    ensures forall j :: k <= j < |cs| ==> cs[j].head > head
    ensures k > 0 ==> cs[k - 1].head <= head
    decreases |cs|
  {
    if |cs| == 0 then 0
    else if cs[|cs| - 1].head <= head then |cs|
    else InsertPos(cs[..|cs| - 1], head)
  }

  function Insert<T>(s: seq<T>, k: nat, x: T): (r: seq<T>)
    requires k <= |s|
    ensures |r| == |s| + 1 && r[k] == x && r[..k] == s[..k] && r[k + 1..] == s[k..]
  {
    s[..k] + [x] + s[k..]
  }

  /** The cursors once `loc` is marked: a new cursor at `InsertPos`, or
      the same cursors past `MAX_MARKERS` or without a range. */
  function MarkedCursors(cs: seq<TextCursor>, loc: LocMsg): seq<TextCursor>
  {
    if |cs| > MAX_MARKERS || loc.range.None? then cs
    else Insert(cs, InsertPos(cs, loc.range.value.0), TextCursor(loc.range.value.0, loc.range.value.1, 0))
  }

  /** The bodies parallel to `MarkedCursors`. */
  function MarkedBodies(cs: seq<TextCursor>, bs: seq<TextBufferMessage>, loc: LocMsg, level: MessageLevel): seq<TextBufferMessage>
    requires |bs| == |cs|
  {
    if |cs| > MAX_MARKERS || loc.range.None? then bs
    else Insert(bs, InsertPos(cs, loc.range.value.0), TextBufferMessage(loc.body, level))
  }

  predicate SortedByHead(cs: seq<TextCursor>)
  {
    forall i, j :: 0 <= i < j < |cs| ==> cs[i].head <= cs[j].head
  }

  /** Inserting at `InsertPos` keeps the markers sorted by head, after every
      existing marker with an equal head. */
  lemma {:induction false} InsertKeepsSorted(cs: seq<TextCursor>, c: TextCursor)
    requires SortedByHead(cs)
    ensures SortedByHead(Insert(cs, InsertPos(cs, c.head), c))
    ensures forall j :: 0 <= j < InsertPos(cs, c.head) ==> cs[j].head <= c.head
  {
    var k := InsertPos(cs, c.head);
    var r := Insert(cs, k, c);
    forall j | 0 <= j < k ensures cs[j].head <= c.head {
      assert cs[j].head <= cs[k - 1].head;
    }
    forall i, j | 0 <= i < j < |r| ensures r[i].head <= r[j].head {
      if j < k {
        assert r[i] == cs[i] && r[j] == cs[j];
      } else if j == k {
        assert r[i] == cs[i];
      } else if i == k {
        assert r[j] == cs[j - 1];
      } else if i < k {
        assert r[i] == cs[i] && r[j] == cs[j - 1];
      } else {
        assert r[i] == cs[i - 1] && r[j] == cs[j - 1];
      }
    }
  }

  /** The message markers of one text buffer: cursors and bodies are
      parallel lists. */
  class TextMarkers {
    var mutationId: nat
    var messageCursors: seq<TextCursor>
    var messageBodies: seq<TextBufferMessage>

    ghost predicate Valid()
      reads this
    {
      |messageCursors| == |messageBodies|
    }

    constructor ()
      ensures Valid() && mutationId == 0 && messageCursors == [] && messageBodies == []
    {
      mutationId := 0;
      messageCursors := [];
      messageBodies := [];
    }

    /** Empties both lists. */
    method Clear()
      modifies this
      ensures Valid() && messageCursors == [] && messageBodies == [] && mutationId == old(mutationId)
    {
      messageCursors := [];
      messageBodies := [];
    }
  }

  /** The backward scan for the insertion index: nothing when the marker
      belongs at the end. */
  method ScanInsertPos(cs: seq<TextCursor>, head: nat) returns (inserted: Option<nat>)
    ensures inserted.None? ==> InsertPos(cs, head) == |cs|
    ensures inserted.Some? ==> inserted.value == InsertPos(cs, head) < |cs|
  {
    if |cs| == 0 {
      return None;
    }
    var i := |cs|;
    while true
      invariant 1 <= i <= |cs|
      invariant forall j :: i <= j < |cs| ==> cs[j].head > head
      invariant i < |cs| ==> cs[i - 1].head > head
      decreases i
    {
      var idx := i - 1;
      if head >= cs[idx].head {
        return None;
      }
      if head < cs[idx].head && (idx == 0 || head >= cs[idx - 1].head) {
        return Some(idx);
      }
      i := i - 1;
    }
  }

  /** `process_loc_message_for_textbuffers` on the markers of the buffer the
      message's path maps to (`bufferMutationId` being that buffer's
      mutation id): a message with a range becomes a cursor and a body,
      both inserted at the same index after the last cursor whose head is at
      most the new head. With no range, or more than 100000 cursors, the
      lists are unchanged. */
  method ProcessLocMessage(markers: TextMarkers, bufferMutationId: nat, loc: LocMsg, level: MessageLevel)
    requires markers.Valid()
    modifies markers
    ensures markers.Valid()
    ensures markers.mutationId == if bufferMutationId > 1 then bufferMutationId else 1
    ensures |old(markers.messageCursors)| > MAX_MARKERS || loc.range.None? ==>
              markers.messageCursors == old(markers.messageCursors) && markers.messageBodies == old(markers.messageBodies)
    ensures |old(markers.messageCursors)| <= MAX_MARKERS && loc.range.Some? ==>
              var k := InsertPos(old(markers.messageCursors), loc.range.value.0);
              && markers.messageCursors == Insert(old(markers.messageCursors), k, TextCursor(loc.range.value.0, loc.range.value.1, 0))
              && markers.messageBodies == Insert(old(markers.messageBodies), k, TextBufferMessage(loc.body, level))
  {
    markers.mutationId := if bufferMutationId > 1 then bufferMutationId else 1;
    if |markers.messageCursors| > MAX_MARKERS {
      return;
    }
    if loc.range.None? {
      return;
    }
    var (head, tail) := loc.range.value;
    var cs := markers.messageCursors;
    var inserted := ScanInsertPos(cs, head);
    var c := TextCursor(head, tail, 0);
    var msg := TextBufferMessage(loc.body, level);
    if inserted.Some? {
      var pos := inserted.value;
      markers.messageCursors := Insert(cs, pos, c);
      markers.messageBodies := Insert(markers.messageBodies, pos, msg);
    } else {
      markers.messageCursors := cs + [c];
      markers.messageBodies := markers.messageBodies + [msg];
    }
  }

  /** `clear_textbuffer_messages`: empties the markers of every buffer. */
  method ClearTextbufferMessages(buffers: seq<TextMarkers>)
    modifies set b | b in buffers
    ensures forall b :: b in buffers ==> b.Valid() && b.messageCursors == [] && b.messageBodies == []
    ensures forall b :: b in buffers ==> b.mutationId == old(b.mutationId)
  {
    for i := 0 to |buffers|
      invariant forall j :: 0 <= j < i ==> buffers[j].Valid() && buffers[j].messageCursors == [] && buffers[j].messageBodies == []
      invariant forall b :: b in buffers ==> b.mutationId == old(b.mutationId)
    {
      buffers[i].Clear();
    }
  }

  // ---------------------------------------------------------------------
  // The hub route and the manager
  // ---------------------------------------------------------------------

  /** The sending half of the hub connection: a uid allocator and the
      messages sent so far. */
  class HubRoute {
    var nextUid: nat
    var sent: seq<ToHubMsg>

    constructor (next: nat)
      ensures nextUid == next && sent == []
    {
      nextUid := next;
      sent := [];
    }

    method AllocUid() returns (uid: HubUid)
      modifies this`nextUid
      ensures uid == HubUid(old(nextUid)) && nextUid == old(nextUid) + 1
    {
      uid := HubUid(nextUid);
      nextUid := nextUid + 1;
    }

    method Send(m: ToHubMsg)
      modifies this`sent
      ensures sent == old(sent) + [m]
    {
      sent := sent + [m];
    }
  }

  class BuildManager {
    var activeBuilds: seq<ActiveBuild>
    var execWhenDone: bool
    var logItems: seq<HubLogItem>
    var tailLogItems: bool
    var artifacts: seq<string>
    /** The signals raised so far, in order. */
    var signals: seq<Status>

    constructor ()
      ensures activeBuilds == [] && !execWhenDone && logItems == [] && tailLogItems
      ensures artifacts == [] && signals == []
    {
      activeBuilds := [];
      execWhenDone := false;
      logItems := [];
      tailLogItems := true;
      artifacts := [];
      signals := [];
    }

    method IsRunningUid(uid: HubUid) returns (b: bool)
      ensures b == Tracked(activeBuilds, uid)
    {
      for i := 0 to |activeBuilds|
        invariant !Tracked(activeBuilds[..i], uid)
      {
        if activeBuilds[i].buildUid == Some(uid) {
          return true;
        }
        if activeBuilds[i].runUid == Some(uid) {
          return true;
        }
        assert activeBuilds[..i + 1] == activeBuilds[..i] + [activeBuilds[i]];
      }
      assert activeBuilds[..|activeBuilds|] == activeBuilds;
      return false;
    }

    method IsAnyCargoRunning() returns (b: bool)
      ensures b == AnyCargo(activeBuilds)
    {
      for i := 0 to |activeBuilds|
        invariant forall j :: 0 <= j < i ==> activeBuilds[j].buildUid.None?
      {
        if activeBuilds[i].buildUid.Some? {
          return true;
        }
      }
      return false;
    }

    method IsAnyArtifactRunning() returns (b: bool)
      ensures b == AnyArtifact(activeBuilds)
    {
      for i := 0 to |activeBuilds|
        invariant forall j :: 0 <= j < i ==> activeBuilds[j].runUid.None?
      {
        if activeBuilds[i].runUid.Some? {
          return true;
        }
      }
      return false;
    }

    method HandleLogItemLimit()
      modifies this`logItems, this`signals
      ensures logItems == LimitedLog(old(logItems), tailLogItems)
      ensures signals == old(signals) + LimitSignals(old(logItems), tailLogItems)
    {
      if |logItems| >= LOG_LIMIT {
        if tailLogItems {
          logItems := logItems[..LOG_KEEP];
          logItems := logItems + [Message(TRUNCATED_NOTE)];
        } else {
          if |logItems| != LOG_SKIPPED {
            logItems := logItems + [Message(SKIPPING_NOTE)];
            signals := signals + [NewLogItem];
          }
          return;
        }
      }
    }

    /** `add_log_message`: the limit, then the message, then a signal. */
    method AddLogMessage(msg: string)
      modifies this`logItems, this`signals
      ensures logItems == AddedLog(old(logItems), tailLogItems, Message(msg))
      ensures signals == old(signals) + LimitSignals(old(logItems), tailLogItems) + [NewLogItem]
    {
      HandleLogItemLimit();
      logItems := logItems + [Message(msg)];
      signals := signals + [NewLogItem];
    }

    /** The loop of the `BuildFailure` arm. */
    method ClearBuildUid(uid: HubUid)
      modifies this`activeBuilds
      ensures activeBuilds == Failed(old(activeBuilds), uid)
    {
      for i := 0 to |activeBuilds|
        invariant |activeBuilds| == |old(activeBuilds)|
        invariant forall j :: 0 <= j < i ==> activeBuilds[j] == Failed(old(activeBuilds), uid)[j]
        invariant forall j :: i <= j < |activeBuilds| ==> activeBuilds[j] == old(activeBuilds)[j]
      {
        if activeBuilds[i].buildUid == Some(uid) {
          activeBuilds := activeBuilds[i := activeBuilds[i].(buildUid := None)];
        }
      }
    }

    /** The loop of the `CargoEnd` arm. */
    method EndBuilds(uid: HubUid, result: BuildResult)
      modifies this`activeBuilds
      ensures activeBuilds == Ended(old(activeBuilds), uid, result)
    {
      for i := 0 to |activeBuilds|
        invariant |activeBuilds| == |old(activeBuilds)|
        invariant forall j :: 0 <= j < i ==> activeBuilds[j] == Ended(old(activeBuilds), uid, result)[j]
        invariant forall j :: i <= j < |activeBuilds| ==> activeBuilds[j] == old(activeBuilds)[j]
      {
        if activeBuilds[i].buildUid == Some(uid) {
          activeBuilds := activeBuilds[i := activeBuilds[i].(buildUid := None, buildResult := Some(result))];
        }
      }
    }

    /** The loop of the `ProgramEnd` arm. */
    method ClearRunUid(uid: HubUid)
      modifies this`activeBuilds
      ensures activeBuilds == Stopped(old(activeBuilds), uid)
    {
      for i := 0 to |activeBuilds|
        invariant |activeBuilds| == |old(activeBuilds)|
        invariant forall j :: 0 <= j < i ==> activeBuilds[j] == Stopped(old(activeBuilds), uid)[j]
        invariant forall j :: i <= j < |activeBuilds| ==> activeBuilds[j] == old(activeBuilds)[j]
      {
        if activeBuilds[i].runUid == Some(uid) {
          activeBuilds := activeBuilds[i := activeBuilds[i].(runUid := None)];
        }
      }
    }

    /** The body of the `run_all_artifacts` loop for entry `i`. */
    method RunArtifact(i: nat, route: HubRoute)
      requires i < |activeBuilds|
      modifies this`activeBuilds, route
      ensures var e := RunEntry(old(activeBuilds)[i], old(route.nextUid));
              && activeBuilds == old(activeBuilds)[i := e.builds[0]]
              && route.sent == old(route.sent) + e.sends && route.nextUid == e.next
    {
      var ab := activeBuilds[i];
      if ab.buildResult.Some? && ab.buildResult.value.Executable? {
        var path := ab.buildResult.value.path;
        var uid := route.AllocUid();
        if ab.runUid.Some? {
          route.Send(ToHubMsg(ab.buildTarget.builder, ProgramKill(ab.runUid.value)));
        }
        activeBuilds := activeBuilds[i := ab.(runUid := Some(uid))];
        route.Send(ToHubMsg(ab.buildTarget.builder, ProgramRun(uid, path, [])));
      }
    }

    /** `run_all_artifacts`: for each executable entry in turn, allocate a
        uid, kill the entry's running program if any, and run the
        executable under the new uid. */
    method RunAllArtifacts(route: HubRoute)
      modifies this`activeBuilds, route
      ensures var r := RunAll(old(activeBuilds), old(route.nextUid));
              activeBuilds == r.builds && route.sent == old(route.sent) + r.sends && route.nextUid == r.next
    {
      ghost var start := activeBuilds;
      ghost var next := route.nextUid;
      ghost var sent := route.sent;
      ghost var done := RunOutcome([], [], next);
      for i := 0 to |activeBuilds|
        invariant |activeBuilds| == |start|
        invariant done == RunAll(start[..i], next)
        invariant activeBuilds[..i] == done.builds
        invariant forall j :: i <= j < |start| ==> activeBuilds[j] == start[j]
        invariant route.sent == sent + done.sends && route.nextUid == done.next
      {
        ghost var before := activeBuilds;
        ghost var e := RunEntry(start[i], done.next);
        RunArtifact(i, route);
        RunAllStep(start, next, i, done, before, activeBuilds);
        assert sent + done.sends + e.sends == sent + (done.sends + e.sends);
        done := RunOutcome(done.builds + e.builds, done.sends + e.sends, e.next);
      }
      assert start[..|start|] == start;
      assert activeBuilds[..|activeBuilds|] == activeBuilds;
    }

    /** `artifact_run`: while a build is going on, only remember to run
        when it is done; otherwise run now. */
    method ArtifactRun(route: HubRoute)
      modifies this`activeBuilds, this`execWhenDone, route
      ensures AnyCargo(old(activeBuilds)) ==>
                execWhenDone && activeBuilds == old(activeBuilds) &&
                route.sent == old(route.sent) && route.nextUid == old(route.nextUid)
      ensures !AnyCargo(old(activeBuilds)) ==>
                var r := RunAll(old(activeBuilds), old(route.nextUid));
                && execWhenDone == old(execWhenDone)
                && activeBuilds == r.builds && route.sent == old(route.sent) + r.sends && route.nextUid == r.next
    {
      var running := IsAnyCargoRunning();
      if running {
        execWhenDone := true;
      } else {
        RunAllArtifacts(route);
      }
    }

    /** The kill loop of `restart_build`: each entry's build, then its
        program, is killed. */
    method KillAll(route: HubRoute)
      modifies this`activeBuilds, route`sent
      ensures route.sent == old(route.sent) + KillSends(old(activeBuilds))
    {
      ghost var start := activeBuilds;
      ghost var sent := route.sent;
      for i := 0 to |activeBuilds|
        invariant |activeBuilds| == |start|
        invariant forall j :: i <= j < |start| ==> activeBuilds[j] == start[j]
        invariant route.sent == sent + KillSends(start[..i])
      {
        KillSendsStep(start, i);
        ghost var before := route.sent;
        var ab := activeBuilds[i];
        assert ab == start[i];
        ab := ab.(buildResult := None);
        if ab.buildUid.Some? {
          route.Send(ToHubMsg(ab.buildTarget.builder, BuildKill(ab.buildUid.value)));
          ab := ab.(buildUid := None);
        }
        ghost var mid := route.sent;
        if ab.runUid.Some? {
          route.Send(ToHubMsg(ab.buildTarget.builder, ProgramKill(ab.runUid.value)));
          ab := ab.(runUid := None);
        }
        KillsAppended(before, mid, route.sent, start[i]);
        activeBuilds := activeBuilds[i := ab];
      }
      assert start[..|start|] == start;
    }

    /** The build loop of `restart_build`: one fresh entry and one Build
        per configured target. */
    method StartAll(route: HubRoute, targets: seq<BuildTarget>)
      modifies this`activeBuilds, route
      ensures activeBuilds == FreshBuilds(targets, old(route.nextUid))
      ensures route.sent == old(route.sent) + BuildSends(targets, old(route.nextUid))
      ensures route.nextUid == old(route.nextUid) + |targets|
    {
      ghost var next := route.nextUid;
      ghost var sent := route.sent;
      activeBuilds := [];
      for i := 0 to |targets|
        invariant activeBuilds == FreshBuilds(targets[..i], next)
        invariant route.sent == sent + BuildSends(targets[..i], next)
        invariant route.nextUid == next + i
      {
        var t := targets[i];
        var uid := route.AllocUid();
        route.Send(ToHubMsg(t.builder, Build(uid, t.workspace, t.package, t.config)));
        activeBuilds := activeBuilds + [ActiveBuild(t, None, Some(uid), None)];
        assert targets[..i + 1][..i] == targets[..i];
      }
      assert targets[..|targets|] == targets;
    }

    /** `restart_build`: off the desktop nothing happens. Otherwise the
        artifacts, log and markers are emptied, `exec_when_done` is read
        from the settings, every tracked uid is killed, and one new build
        per configured target is started. */
    method RestartBuild(route: HubRoute, buffers: seq<TextMarkers>, desktop: bool, settings: Settings)
      modifies this, route, set b | b in buffers
      ensures !desktop ==>
                && activeBuilds == old(activeBuilds) && execWhenDone == old(execWhenDone)
                && logItems == old(logItems) && artifacts == old(artifacts) && signals == old(signals)
                && tailLogItems == old(tailLogItems)
                && route.sent == old(route.sent) && route.nextUid == old(route.nextUid)
                && forall b :: b in buffers ==> unchanged(b)
      ensures desktop ==>
                && artifacts == [] && logItems == [] && execWhenDone == settings.execWhenDone
                && signals == old(signals) && tailLogItems == old(tailLogItems)
                && activeBuilds == FreshBuilds(settings.builds, old(route.nextUid))
                && route.sent == old(route.sent) + KillSends(old(activeBuilds)) + BuildSends(settings.builds, old(route.nextUid))
                && route.nextUid == old(route.nextUid) + |settings.builds|
                && forall b :: b in buffers ==> (b.Valid() && b.messageCursors == [] && b.messageBodies == [] &&
                                                 b.mutationId == old(b.mutationId))
    {
      if !desktop {
        return;
      }
      artifacts := [];
      logItems := [];
      ClearTextbufferMessages(buffers);
      execWhenDone := settings.execWhenDone;
      KillAll(route);
      StartAll(route, settings.builds);
    }

    /** The `LogItem` arm of a tracked uid. */
    method OnLogItem(item: HubLogItem, markers: TextMarkers, bufferMutationId: nat)
      requires markers.Valid()
      modifies this`logItems, this`signals, markers
      ensures markers.Valid()
      ensures logItems == AddedLog(old(logItems), tailLogItems, item)
      ensures signals == old(signals) + LimitSignals(old(logItems), tailLogItems) + [NewLogItem]
      ensures LocOf(item).None? ==> unchanged(markers)
      ensures LocOf(item).Some? ==>
                && markers.mutationId == (if bufferMutationId > 1 then bufferMutationId else 1)
                && markers.messageCursors == MarkedCursors(old(markers.messageCursors), LocOf(item).value)
                && markers.messageBodies == MarkedBodies(old(markers.messageCursors), old(markers.messageBodies), LocOf(item).value, LevelOf(item))
    {
      HandleLogItemLimit();
      logItems := logItems + [item];
      var loc := LocOf(item);
      if loc.Some? {
        ProcessLocMessage(markers, bufferMutationId, loc.value, LevelOf(item));
      }
      signals := signals + [NewLogItem];
    }

    /** The `CargoEnd` arm of a tracked uid: the build ends, and when no
        build is left and a run was asked for, everything runs;
        `exec_when_done` itself stays set. */
    method OnCargoEnd(uid: HubUid, result: BuildResult, route: HubRoute)
      modifies this`activeBuilds, this`signals, route
      ensures signals == old(signals) + [CargoEndStatus]
      ensures var ended := Ended(old(activeBuilds), uid, result);
              if !AnyCargo(ended) && execWhenDone then
                var r := RunAll(ended, old(route.nextUid));
                activeBuilds == r.builds && route.sent == old(route.sent) + r.sends && route.nextUid == r.next
              else
                activeBuilds == ended && route.sent == old(route.sent) && route.nextUid == old(route.nextUid)
    {
      EndBuilds(uid, result);
      var running := IsAnyCargoRunning();
      if !running && execWhenDone {
        RunAllArtifacts(route);
      }
      signals := signals + [CargoEndStatus];
    }

    /** `handle_hub_msg`. A message that names a uid is ignored unless the
        uid is tracked; `ListBuildersResponse` restarts the builds. */
    method HandleHubMsg(msg: HubMsg, route: HubRoute, markers: TextMarkers, bufferMutationId: nat,
                        buffers: seq<TextMarkers>, desktop: bool, settings: Settings)
      requires markers.Valid()
      modifies this, route, markers, set b | b in buffers
      ensures tailLogItems == old(tailLogItems)
      ensures Ignored(msg, old(activeBuilds), desktop) ==>
                && activeBuilds == old(activeBuilds) && execWhenDone == old(execWhenDone)
                && logItems == old(logItems) && artifacts == old(artifacts) && signals == old(signals)
                && route.sent == old(route.sent) && route.nextUid == old(route.nextUid)
                && unchanged(markers) && forall b :: b in buffers ==> unchanged(b)
      ensures !(msg.ListBuildersResponse? && desktop) ==> forall b :: b in buffers && b != markers ==> unchanged(b)
      ensures !msg.LogItem? && !(msg.ListBuildersResponse? && desktop && markers in buffers) ==> unchanged(markers)
      ensures msg.CargoBegin? && Tracked(old(activeBuilds), msg.uid) ==>
                && signals == old(signals) + [NewLogItem]
                && activeBuilds == old(activeBuilds) && execWhenDone == old(execWhenDone)
                && logItems == old(logItems) && artifacts == old(artifacts)
                && route.sent == old(route.sent) && route.nextUid == old(route.nextUid)
      ensures msg.LogItem? && Tracked(old(activeBuilds), msg.uid) ==>
                && logItems == AddedLog(old(logItems), tailLogItems, msg.item)
                && signals == old(signals) + LimitSignals(old(logItems), tailLogItems) + [NewLogItem]
                && activeBuilds == old(activeBuilds) && execWhenDone == old(execWhenDone) && artifacts == old(artifacts)
                && route.sent == old(route.sent) && route.nextUid == old(route.nextUid)
                && (LocOf(msg.item).None? ==> unchanged(markers))
                && (LocOf(msg.item).Some? ==>
                      && markers.mutationId == (if bufferMutationId > 1 then bufferMutationId else 1)
                      && markers.messageCursors == MarkedCursors(old(markers.messageCursors), LocOf(msg.item).value)
                      && markers.messageBodies == MarkedBodies(old(markers.messageCursors), old(markers.messageBodies), LocOf(msg.item).value, LevelOf(msg.item)))
      ensures msg.CargoArtifact? && Tracked(old(activeBuilds), msg.uid) ==>
                && artifacts == old(artifacts) + [msg.packageId] && signals == old(signals) + [NewArtifact]
                && activeBuilds == old(activeBuilds) && execWhenDone == old(execWhenDone) && logItems == old(logItems)
                && route.sent == old(route.sent) && route.nextUid == old(route.nextUid)
      ensures msg.BuildFailure? && Tracked(old(activeBuilds), msg.uid) ==>
                && activeBuilds == Failed(old(activeBuilds), msg.uid) && signals == old(signals)
                && execWhenDone == old(execWhenDone) && logItems == old(logItems) && artifacts == old(artifacts)
                && route.sent == old(route.sent) && route.nextUid == old(route.nextUid)
      ensures msg.CargoEnd? && Tracked(old(activeBuilds), msg.uid) ==>
                && execWhenDone == old(execWhenDone) && logItems == old(logItems) && artifacts == old(artifacts)
                && signals == old(signals) + [CargoEndStatus]
                && var ended := Ended(old(activeBuilds), msg.uid, msg.buildResult);
                   if !AnyCargo(ended) && old(execWhenDone) then
                     var r := RunAll(ended, old(route.nextUid));
                     activeBuilds == r.builds && route.sent == old(route.sent) + r.sends && route.nextUid == r.next
                   else
                     activeBuilds == ended && route.sent == old(route.sent) && route.nextUid == old(route.nextUid)
      ensures msg.ProgramEnd? && Tracked(old(activeBuilds), msg.uid) ==>
                && activeBuilds == Stopped(old(activeBuilds), msg.uid) && signals == old(signals) + [ProgramEndStatus]
                && execWhenDone == old(execWhenDone) && logItems == old(logItems) && artifacts == old(artifacts)
                && route.sent == old(route.sent) && route.nextUid == old(route.nextUid)
      ensures msg.ListBuildersResponse? && desktop ==>
                && activeBuilds == FreshBuilds(settings.builds, old(route.nextUid))
                && route.sent == old(route.sent) + KillSends(old(activeBuilds)) + BuildSends(settings.builds, old(route.nextUid))
                && route.nextUid == old(route.nextUid) + |settings.builds|
                && execWhenDone == settings.execWhenDone && logItems == [] && artifacts == [] && signals == old(signals)
                && (forall b :: b in buffers ==> (b.Valid() && b.messageCursors == [] && b.messageBodies == [] &&
                                                  b.mutationId == old(b.mutationId)))
                && (markers !in buffers ==> unchanged(markers))
    {
      match msg {
        case ListBuildersResponse =>
          RestartBuild(route, buffers, desktop, settings);
        case CargoBegin(uid) =>
          var tracked := IsRunningUid(uid);
          if tracked {
            signals := signals + [NewLogItem];
          }
        case LogItem(uid, item) =>
          var tracked := IsRunningUid(uid);
          if tracked {
            OnLogItem(item, markers, bufferMutationId);
          }
        case CargoArtifact(uid, packageId, _) =>
          var tracked := IsRunningUid(uid);
          if tracked {
            artifacts := artifacts + [packageId];
            signals := signals + [NewArtifact];
          }
        case BuildFailure(uid) =>
          var tracked := IsRunningUid(uid);
          if tracked {
            ClearBuildUid(uid);
          }
        case CargoEnd(uid, result) =>
          var tracked := IsRunningUid(uid);
          if tracked {
            OnCargoEnd(uid, result, route);
          }
        case ProgramEnd(uid) =>
          var tracked := IsRunningUid(uid);
          if tracked {
            ClearRunUid(uid);
            signals := signals + [ProgramEndStatus];
          }
        case _ =>
      }
    }
  }
}
