/**
  The libolm migration: a sequence of steps, most of which can fail, that
  reports progress to a listener and makes up to three writes to the new store.
 */
module MigrationScripts {
  import opened Sequences

  /** What migration can write to the store. */
  datatype Write =
    | TrackedUsers(users: seq<string>)
    | PendingAccount(account: string)
    | SaveChanges(changes: Changes)

  datatype Changes = Changes(
    privateIdentity: Option<Secrets>,
    sessions: seq<string>,
    inboundGroupSessions: seq<string>,
    backupDecryptionKey: Option<string>,
    backupVersion: Option<string>,
    roomSettings: map<string, string>)

  datatype Secrets = Secrets(master: Option<string>, selfSigning: Option<string>, userSigning: Option<string>)

  /** One step: whether it succeeds and, if so, what it writes and then reports. */
  datatype Stage = Stage(succeeds: bool, report: Option<nat>, write: Option<Write>)

  function Reports(script: seq<Stage>): seq<nat> {
    if script == [] then []
    else
      var last := script[|script| - 1].report;
      Reports(script[..|script| - 1]) + (if last.Some? then [last.value] else [])
  }

  function Writes(script: seq<Stage>): seq<Write> {
    if script == [] then []
    else
      var last := script[|script| - 1].write;
      Writes(script[..|script| - 1]) + (if last.Some? then [last.value] else [])
  }

  /** How many steps are carried out: all before the first that fails. */
  function Completed(script: seq<Stage>): (n: nat)
    ensures n <= |script|
    ensures forall i :: 0 <= i < n ==> script[i].succeeds
    ensures n < |script| ==> !script[n].succeeds
  {
    if script == [] || !script[0].succeeds then 0 else 1 + Completed(script[1..])
  }

  lemma CompletedIs(script: seq<Stage>, n: nat)
    requires n <= |script|
    requires forall i :: 0 <= i < n ==> script[i].succeeds
    requires n < |script| ==> !script[n].succeeds
    ensures Completed(script) == n
  {}

  lemma {:induction false} EffectsAppend(a: seq<Stage>, b: seq<Stage>)
    ensures Reports(a + b) == Reports(a) + Reports(b)
    ensures Writes(a + b) == Writes(a) + Writes(b)
    decreases |b|
  {
    if b == [] {
      assert a + b == a;
    } else {
      assert (a + b)[..|a + b| - 1] == a + b[..|b| - 1];
      EffectsAppend(a, b[..|b| - 1]);
    }
  }

  /** Whatever fails, the listener saw and the store holds a prefix of the full run. */
  lemma EffectsArePrefixes(script: seq<Stage>, n: nat)
    requires n <= |script|
    ensures Reports(script[..n]) <= Reports(script)
    ensures Writes(script[..n]) <= Writes(script)
  {
    assert script == script[..n] + script[n..];
    EffectsAppend(script[..n], script[n..]);
  }
}

module Migration {
  import opened Sequences
  import opened MigrationScripts

  /** The largest integer a `UInt` timestamp can hold. */
  const MAX_SAFE_UINT: nat := 0x1F_FFFF_FFFF_FFFF

  datatype PickledSession = PickledSession(
    pickle: string, senderKey: string, createdUsingFallbackKey: bool, creationTime: nat, lastUseTime: nat)

  datatype PickledGroupSession = PickledGroupSession(
    pickle: string, senderKey: string, signingKey: map<string, string>, roomId: string, imported: bool, backedUp: bool)

  datatype MigrationData = MigrationData(
    userId: string,
    accountPickle: string,
    sessions: seq<PickledSession>,
    inboundGroupSessions: seq<PickledGroupSession>,
    backupVersion: Option<string>,
    backupRecoveryKey: Option<string>,
    crossSigning: Secrets,
    trackedUsers: seq<string>,
    roomSettings: seq<(string, string)>)

  datatype SessionMigrationData = SessionMigrationData(
    userId: string, keys: string, sessions: seq<PickledSession>, inboundGroupSessions: seq<PickledGroupSession>)

  /** The crypto and store code the migration calls; any part of it may fail. */
  datatype Library = Library(
    opens: bool,
    parseUserId: string -> bool,
    parseRoomId: string -> bool,
    parseKeys: string -> bool,
    restoreAccount: string -> Option<string>,
    restoreSession: PickledSession -> Option<string>,
    restoreGroupSession: PickledGroupSession -> Option<string>,
    parseBackupKey: string -> Option<string>,
    importSecrets: Secrets -> bool,
    savesTrackedUsers: bool,
    savesAccount: bool,
    savesChanges: bool)

  function Unwrap(o: Option<string>): string { if o.Some? then o.value else "" }

  /** One Olm session: both timestamps must fit, and the pickle must restore. */
  function ConvertSession(lib: Library, p: PickledSession): Option<string> {
    if p.creationTime <= MAX_SAFE_UINT && p.lastUseTime <= MAX_SAFE_UINT then lib.restoreSession(p) else None
  }

  // ---- The steps of each migration ----

  function SessionStages(lib: Library, ps: seq<PickledSession>, done: nat): (r: seq<Stage>)
    ensures |r| == |ps|
  {
    seq(|ps|, i requires 0 <= i < |ps| => Stage(ConvertSession(lib, ps[i]).Some?, Some(done + i + 1), None))
  }

  function GroupSessionStages(lib: Library, ps: seq<PickledGroupSession>, done: nat): (r: seq<Stage>)
    ensures |r| == |ps|
  {
    seq(|ps|, i requires 0 <= i < |ps| => Stage(lib.restoreGroupSession(ps[i]).Some?, Some(done + i + 1), None))
  }

  function CollectStages(lib: Library, ss: seq<PickledSession>, gs: seq<PickledGroupSession>, done: nat): seq<Stage> {
    SessionStages(lib, ss, done) + GroupSessionStages(lib, gs, done + |ss|)
  }

  function RestoredSessions(lib: Library, ps: seq<PickledSession>): seq<string> {
    Map(p => Unwrap(ConvertSession(lib, p)), ps)
  }

  function RestoredGroupSessions(lib: Library, ps: seq<PickledGroupSession>): seq<string> {
    Map(p => Unwrap(lib.restoreGroupSession(p)), ps)
  }

  function ValidUsers(lib: Library, users: seq<string>): seq<string> {
    if users == [] then []
    else
      ValidUsers(lib, users[..|users| - 1])
      + (if lib.parseUserId(users[|users| - 1]) then [users[|users| - 1]] else [])
  }

  predicate RoomIdsParse(lib: Library, settings: seq<(string, string)>) {
    forall i :: 0 <= i < |settings| ==> lib.parseRoomId(settings[i].0)
  }

  function SettingsMap(settings: seq<(string, string)>): map<string, string> {
    if settings == [] then map[]
    else
      var last := settings[|settings| - 1];
      SettingsMap(settings[..|settings| - 1])[last.0 := last.1]
  }

  function BackupKey(lib: Library, key: Option<string>): Option<string> {
    match key case Some(k) => lib.parseBackupKey(k) case None => None
  }

  predicate BackupKeyParses(lib: Library, key: Option<string>) {
    key.Some? ==> lib.parseBackupKey(key.value).Some?
  }

  function AllChanges(lib: Library, d: MigrationData): Changes {
    Changes(Some(d.crossSigning), RestoredSessions(lib, d.sessions), RestoredGroupSessions(lib, d.inboundGroupSessions),
            BackupKey(lib, d.backupRecoveryKey), d.backupVersion, SettingsMap(d.roomSettings))
  }

  function OpeningStages(lib: Library, d: MigrationData): seq<Stage> {
    [Stage(lib.opens, Some(1), None),
     Stage(lib.parseUserId(d.userId) && lib.restoreAccount(d.accountPickle).Some?, Some(2), None)]
  }

  function SecretsStages(lib: Library, d: MigrationData): seq<Stage> {
    [Stage(BackupKeyParses(lib, d.backupRecoveryKey) && lib.importSecrets(d.crossSigning), Some(3), None),
     Stage(lib.savesTrackedUsers, Some(4), Some(TrackedUsers(ValidUsers(lib, d.trackedUsers))))]
  }

  function SavingStages(lib: Library, d: MigrationData): seq<Stage> {
    [Stage(RoomIdsParse(lib, d.roomSettings), None, None),
     Stage(lib.savesAccount, None, Some(PendingAccount(Unwrap(lib.restoreAccount(d.accountPickle))))),
     Stage(lib.savesChanges, Some(5), Some(SaveChanges(AllChanges(lib, d))))]
  }

  function ClosingStages(lib: Library, d: MigrationData): seq<Stage> {
    SecretsStages(lib, d) + SavingStages(lib, d)
  }

  function DataScript(lib: Library, d: MigrationData): seq<Stage> {
    OpeningStages(lib, d) + DataCollecting(lib, d) + ClosingStages(lib, d)
  }

  function DataCollecting(lib: Library, d: MigrationData): seq<Stage> {
    CollectStages(lib, d.sessions, d.inboundGroupSessions, 2)
  }

  function SessionOpening(lib: Library, d: SessionMigrationData): seq<Stage> {
    [Stage(lib.opens, None, None), Stage(lib.parseUserId(d.userId) && lib.parseKeys(d.keys), None, None)]
  }

  function SessionClosing(lib: Library, d: SessionMigrationData): seq<Stage> {
    [Stage(lib.savesChanges, Some(1),
           Some(SaveChanges(Changes(None, RestoredSessions(lib, d.sessions),
                                    RestoredGroupSessions(lib, d.inboundGroupSessions), None, None, map[]))))]
  }

  function SessionScript(lib: Library, d: SessionMigrationData): seq<Stage> {
    SessionOpening(lib, d) + SessionCollecting(lib, d) + SessionClosing(lib, d)
  }

  function SessionCollecting(lib: Library, d: SessionMigrationData): seq<Stage> {
    CollectStages(lib, d.sessions, d.inboundGroupSessions, 0)
  }

  // ---- The code ----

  /** Rust's `usize as i32`. */
  function AsI32(n: nat): int {
    var low := n % 0x1_0000_0000;
    if low < 0x8000_0000 then low else low - 0x1_0000_0000
  }

  function AsReported(steps: seq<nat>, total: nat): seq<(int, int)> {
    Map(p => (AsI32(p), AsI32(total)), steps)
  }

  /** What the outside sees of a migration: the `on_progress` callbacks and the contents of the store. */
  datatype Log = Log(progress: seq<(int, int)>, saved: seq<Write>)

  /** The log after carrying out the steps `done`. */
  function Extend(log: Log, done: seq<Stage>, total: nat): Log {
    Log(log.progress + AsReported(Reports(done), total), log.saved + Writes(done))
  }

  /** The log after running `script` up to its first failing step. */
  function Run(log: Log, script: seq<Stage>, total: nat): Log {
    Extend(log, script[..Completed(script)], total)
  }

  predicate Succeeds(script: seq<Stage>) {
    forall i :: 0 <= i < |script| ==> script[i].succeeds
  }

  class Migrator {
    const lib: Library
    /** The arguments of the `on_progress` callbacks so far. */
    var progress: seq<(int, int)>
    /** What the store holds. */
    var saved: seq<Write>

    constructor (lib: Library)
      ensures this.lib == lib && progress == [] && saved == []
    {
      this.lib := lib;
      progress, saved := [], [];
    }

    ghost function View(): Log
      reads this
    {
      Log(progress, saved)
    }

    method Report(step: nat, total: nat)
      modifies this`progress
      ensures progress == old(progress) + [(AsI32(step), AsI32(total))]
    {
      progress := progress + [(AsI32(step), AsI32(total))];
    }

    /** The first loop of `collect_sessions`. */
    method ConvertSessions(processed: nat, total: nat, ps: seq<PickledSession>) returns (r: Option<seq<string>>)
      modifies this`progress
      ensures View() == Run(old(View()), SessionStages(lib, ps, processed), total)
      ensures r.Some? <==> Succeeds(SessionStages(lib, ps, processed))
      ensures r.Some? ==> r.value == RestoredSessions(lib, ps)
    {
      ghost var script := SessionStages(lib, ps, processed);
      var sessions := [];
      var i := 0;
      assert script[..0] == [];
      while i < |ps|
        invariant 0 <= i <= |ps|
        invariant View() == Extend(old(View()), script[..i], total)
        invariant forall j :: 0 <= j < i ==> script[j].succeeds
        invariant sessions == RestoredSessions(lib, ps[..i])
      {
        var session := ConvertSession(lib, ps[i]);
        if session == None {
          CompletedIs(script, i);
          return None;
        }
        sessions := sessions + [session.value];
        Report(processed + i + 1, total);
        assert ps[..i + 1] == ps[..i] + [ps[i]];
        StepTaken(script, i, old(View()), total);
        i := i + 1;
      }
      assert ps[..i] == ps && script[..i] == script;
      CompletedIs(script, |script|);
      r := Some(sessions);
    }

    /** The second loop of `collect_sessions`. */
    method ConvertGroupSessions(processed: nat, total: nat, ps: seq<PickledGroupSession>)
      returns (r: Option<seq<string>>)
      modifies this`progress
      ensures View() == Run(old(View()), GroupSessionStages(lib, ps, processed), total)
      ensures r.Some? <==> Succeeds(GroupSessionStages(lib, ps, processed))
      ensures r.Some? ==> r.value == RestoredGroupSessions(lib, ps)
    {
      ghost var script := GroupSessionStages(lib, ps, processed);
      var sessions := [];
      var i := 0;
      assert script[..0] == [];
      while i < |ps|
        invariant 0 <= i <= |ps|
        invariant View() == Extend(old(View()), script[..i], total)
        invariant forall j :: 0 <= j < i ==> script[j].succeeds
        invariant sessions == RestoredGroupSessions(lib, ps[..i])
      {
        var session := lib.restoreGroupSession(ps[i]);
        if session == None {
          CompletedIs(script, i);
          return None;
        }
        sessions := sessions + [session.value];
        Report(processed + i + 1, total);
        assert ps[..i + 1] == ps[..i] + [ps[i]];
        StepTaken(script, i, old(View()), total);
        i := i + 1;
      }
      assert ps[..i] == ps && script[..i] == script;
      CompletedIs(script, |script|);
      r := Some(sessions);
    }

    method CollectSessions(processed: nat, total: nat, ss: seq<PickledSession>, gs: seq<PickledGroupSession>)
      returns (r: Option<(seq<string>, seq<string>)>)
      modifies this`progress
      ensures View() == Run(old(View()), CollectStages(lib, ss, gs, processed), total)
      ensures r.Some? <==> Succeeds(CollectStages(lib, ss, gs, processed))
      ensures r.Some? ==> r.value == (RestoredSessions(lib, ss), RestoredGroupSessions(lib, gs))
    {
      ghost var first, second := SessionStages(lib, ss, processed), GroupSessionStages(lib, gs, processed + |ss|);
      RunInSequence(View(), first, second, total);
      var sessions := ConvertSessions(processed, total, ss);
      if sessions == None {
        return None;
      }
      var groupSessions := ConvertGroupSessions(processed + |ss|, total, gs);
      if groupSessions == None {
        return None;
      }
      r := Some((sessions.value, groupSessions.value));
    }

    /** `store.save_*`: the write happens, or the store reports an error. */
    method Save(write: Write, works: bool) returns (ok: bool)
      modifies this`saved
      ensures ok == works
      ensures saved == old(saved) + (if works then [write] else [])
    {
      if works {
        saved := saved + [write];
      }
      ok := works;
    }

    /** The helper `save_changes`, shared by both migrations. */
    method SaveAllChanges(processed: nat, total: nat, changes: Changes) returns (ok: bool)
      modifies this
      ensures View() == Run(old(View()),
          [Stage(lib.savesChanges, Some(processed + 1), Some(SaveChanges(changes)))], total)
      ensures ok == lib.savesChanges
    {
      RunOne(View(), Stage(lib.savesChanges, Some(processed + 1), Some(SaveChanges(changes))), total);
      ok := Save(SaveChanges(changes), lib.savesChanges);
      if ok {
        Report(processed + 1, total);
      }
    }

    /** The room IDs of the settings, all of which must parse. */
    method ParseRoomSettings(settings: seq<(string, string)>) returns (r: Option<map<string, string>>)
      ensures r.Some? <==> RoomIdsParse(lib, settings)
      ensures r.Some? ==> r.value == SettingsMap(settings)
    {
      var m := map[];
      var i := 0;
      while i < |settings|
        invariant 0 <= i <= |settings|
        invariant forall j :: 0 <= j < i ==> lib.parseRoomId(settings[j].0)
        invariant m == SettingsMap(settings[..i])
      {
        if !lib.parseRoomId(settings[i].0) {
          return None;
        }
        m := m[settings[i].0 := settings[i].1];
        assert settings[..i + 1][..i] == settings[..i];
        i := i + 1;
      }
      assert settings[..i] == settings;
      r := Some(m);
    }

    /** The `filter_map` over the tracked users: unparsable ones are dropped. */
    method KeepValidUsers(users: seq<string>) returns (r: seq<string>)
      ensures r == ValidUsers(lib, users)
    {
      r := [];
      var i := 0;
      while i < |users|
        invariant 0 <= i <= |users|
        invariant r == ValidUsers(lib, users[..i])
      {
        if lib.parseUserId(users[i]) {
          r := r + [users[i]];
        }
        assert users[..i + 1][..i] == users[..i];
        i := i + 1;
      }
      assert users[..i] == users;
    }

    /** The part of `migrate_data` before the sessions. */
    method OpenStoreAndAccount(d: MigrationData, total: nat) returns (account: Option<string>)
      modifies this`progress
      ensures View() == Run(old(View()), OpeningStages(lib, d), total)
      ensures account.Some? <==> Succeeds(OpeningStages(lib, d))
      ensures account.Some? ==> account == lib.restoreAccount(d.accountPickle)
    {
      ghost var script := OpeningStages(lib, d);
      RunHead(View(), script, total);
      if !lib.opens {
        return None;
      }
      Report(1, total);
      assert script[1..] == [script[1]];
      RunOne(View(), script[1], total);
      if !lib.parseUserId(d.userId) {
        return None;
      }
      account := lib.restoreAccount(d.accountPickle);
      if account.Some? {
        Report(2, total);
      }
    }

    /** The backup key, the cross-signing secrets and the tracked users. */
    method ImportSecretsAndUsers(d: MigrationData, processed: nat, total: nat) returns (ok: bool)
      requires processed == 2
      modifies this
      ensures View() == Run(old(View()), SecretsStages(lib, d), total)
      ensures ok <==> Succeeds(SecretsStages(lib, d))
    {
      ghost var script := SecretsStages(lib, d);
      RunHead(View(), script, total);
      if d.backupRecoveryKey.Some? && lib.parseBackupKey(d.backupRecoveryKey.value) == None {
        return false;
      }
      if !lib.importSecrets(d.crossSigning) {
        return false;
      }
      Report(processed + 1, total);
      assert script[1..] == [script[1]];
      RunOne(View(), script[1], total);
      var users := KeepValidUsers(d.trackedUsers);
      ok := Save(TrackedUsers(users), lib.savesTrackedUsers);
      if ok {
        Report(processed + 2, total);
      }
    }

    /** The room settings and the last two writes. */
    method SaveAccountAndChanges(
      d: MigrationData, processed: nat, total: nat, account: string, sessions: seq<string>, groupSessions: seq<string>)
      returns (ok: bool)
      requires processed == 4
      requires lib.restoreAccount(d.accountPickle) == Some(account)
      requires sessions == RestoredSessions(lib, d.sessions)
      requires groupSessions == RestoredGroupSessions(lib, d.inboundGroupSessions)
      modifies this
      ensures View() == Run(old(View()), SavingStages(lib, d), total)
      ensures ok <==> Succeeds(SavingStages(lib, d))
    {
      ghost var script, before := SavingStages(lib, d), View();
      RunHead(before, script, total);
      var roomSettings := ParseRoomSettings(d.roomSettings);
      if roomSettings == None {
        return false;
      }
      assert Reached(before, script[0], total) == before;
      assert script[1..] == [script[1], script[2]];
      RunHead(before, [script[1], script[2]], total);
      ok := Save(PendingAccount(account), lib.savesAccount);
      if !ok {
        return;
      }
      assert View() == Reached(before, script[1], total);
      assert [script[1], script[2]][1..] == [script[2]];
      RunOne(View(), script[2], total);
      var changes := Changes(Some(d.crossSigning), sessions, groupSessions, BackupKey(lib, d.backupRecoveryKey),
                             d.backupVersion, roomSettings.value);
      assert changes == AllChanges(lib, d);
      ok := SaveAllChanges(processed, total, changes);
    }

    /** The part of `migrate_data` after the sessions. */
    method ImportAndSave(
      d: MigrationData, processed: nat, total: nat, account: string, sessions: seq<string>, groupSessions: seq<string>)
      returns (ok: bool)
      requires processed == 2
      requires lib.restoreAccount(d.accountPickle) == Some(account)
      requires sessions == RestoredSessions(lib, d.sessions)
      requires groupSessions == RestoredGroupSessions(lib, d.inboundGroupSessions)
      modifies this
      ensures View() == Run(old(View()), ClosingStages(lib, d), total)
      ensures ok <==> Succeeds(ClosingStages(lib, d))
    {
      RunInSequence(View(), SecretsStages(lib, d), SavingStages(lib, d), total);
      ok := ImportSecretsAndUsers(d, processed, total);
      if ok {
        ok := SaveAccountAndChanges(d, processed + 2, total, account, sessions, groupSessions);
      }
    }

    /** Everything up to the sessions, which are given back with the account. */
    method OpenAndCollect(d: MigrationData, total: nat) returns (r: Option<(string, seq<string>, seq<string>)>)
      modifies this`progress
      ensures View() == Run(old(View()), OpeningStages(lib, d) + DataCollecting(lib, d), total)
      ensures r.Some? <==> Succeeds(OpeningStages(lib, d) + DataCollecting(lib, d))
      ensures r.Some? ==> lib.restoreAccount(d.accountPickle) == Some(r.value.0)
      ensures r.Some? ==> r.value.1 == RestoredSessions(lib, d.sessions)
      ensures r.Some? ==> r.value.2 == RestoredGroupSessions(lib, d.inboundGroupSessions)
    {
      RunInSequence(View(), OpeningStages(lib, d), DataCollecting(lib, d), total);
      var account := OpenStoreAndAccount(d, total);
      if account == None {
        return None;
      }
      var collected := CollectSessions(2, total, d.sessions, d.inboundGroupSessions);
      if collected == None {
        return None;
      }
      r := Some((account.value, collected.value.0, collected.value.1));
    }

    method MigrateData(d: MigrationData) returns (ok: bool)
      modifies this
      ensures View() == Run(old(View()), DataScript(lib, d), 5 + |d.sessions| + |d.inboundGroupSessions|)
      ensures ok <==> Succeeds(DataScript(lib, d))
    {
      var total := 5 + |d.sessions| + |d.inboundGroupSessions|;
      ghost var first, second := OpeningStages(lib, d) + DataCollecting(lib, d), ClosingStages(lib, d);
      RunInSequence(View(), first, second, total);
      assert DataScript(lib, d) == first + second;
      var collected := OpenAndCollect(d, total);
      ok := collected.Some?;
      if ok {
        var (account, sessions, groupSessions) := collected.value;
        // The counter was passed by value: the steps counted for the sessions are not counted here.
        ok := ImportAndSave(d, 2, total, account, sessions, groupSessions);
      }
    }

    /** The part of `migrate_session_data` before the sessions, which reports nothing. */
    method OpenForSessions(d: SessionMigrationData, ghost total: nat) returns (ok: bool)
      ensures View() == Run(View(), SessionOpening(lib, d), total)
      ensures ok <==> Succeeds(SessionOpening(lib, d))
    {
      SilentOpening(View(), lib, d, total);
      ok := lib.opens && lib.parseUserId(d.userId) && lib.parseKeys(d.keys);
    }

    method OpenAndCollectSessions(d: SessionMigrationData, total: nat)
      returns (r: Option<(seq<string>, seq<string>)>)
      modifies this`progress
      ensures View() == Run(old(View()), SessionOpening(lib, d) + SessionCollecting(lib, d), total)
      ensures r.Some? <==> Succeeds(SessionOpening(lib, d) + SessionCollecting(lib, d))
      ensures r.Some? ==>
                r.value == (RestoredSessions(lib, d.sessions), RestoredGroupSessions(lib, d.inboundGroupSessions))
    {
      RunInSequence(View(), SessionOpening(lib, d), SessionCollecting(lib, d), total);
      var ok := OpenForSessions(d, total);
      if !ok {
        return None;
      }
      r := CollectSessions(0, total, d.sessions, d.inboundGroupSessions);
    }

    method MigrateSessionData(d: SessionMigrationData) returns (ok: bool)
      modifies this
      ensures View() == Run(old(View()), SessionScript(lib, d), 1 + |d.sessions| + |d.inboundGroupSessions|)
      ensures ok <==> Succeeds(SessionScript(lib, d))
    {
      var total := 1 + |d.sessions| + |d.inboundGroupSessions|;
      ghost var first, second := SessionOpening(lib, d) + SessionCollecting(lib, d), SessionClosing(lib, d);
      RunInSequence(View(), first, second, total);
      assert SessionScript(lib, d) == first + second;
      var collected := OpenAndCollectSessions(d, total);
      if collected.Some? {
        ok := SaveSessions(d, total, collected.value.0, collected.value.1);
      } else {
        ok := false;
      }
    }

    /** The last write of `migrate_session_data`. */
    method SaveSessions(d: SessionMigrationData, total: nat, sessions: seq<string>, groupSessions: seq<string>)
      returns (ok: bool)
      requires sessions == RestoredSessions(lib, d.sessions)
      requires groupSessions == RestoredGroupSessions(lib, d.inboundGroupSessions)
      modifies this
      ensures View() == Run(old(View()), SessionClosing(lib, d), total)
      ensures ok <==> Succeeds(SessionClosing(lib, d))
    {
      ghost var closing := SessionClosing(lib, d);
      assert closing == [closing[0]];
      RunOne(View(), closing[0], total);
      ok := SaveAllChanges(0, total, Changes(None, sessions, groupSessions, None, None, map[]));
    }
  }

  /** Opening the store for `migrate_session_data` reports and writes nothing. */
  lemma SilentOpening(log: Log, lib: Library, d: SessionMigrationData, total: nat)
    ensures Run(log, SessionOpening(lib, d), total) == log
    ensures Succeeds(SessionOpening(lib, d)) <==> lib.opens && lib.parseUserId(d.userId) && lib.parseKeys(d.keys)
  {
    var script := SessionOpening(lib, d);
    RunHead(log, script, total);
    assert script[1..] == [script[1]];
    RunOne(log, script[1], total);
  }

  /** A script runs its first step and, if that succeeds, the rest. */
  lemma RunHead(log: Log, script: seq<Stage>, total: nat)
    requires script != []
    ensures Succeeds(script) <==> script[0].succeeds && Succeeds(script[1..])
    ensures Run(log, script, total)
            == if script[0].succeeds then Run(Reached(log, script[0], total), script[1..], total) else log
  {
    assert script == [script[0]] + script[1..];
    RunInSequence(log, [script[0]], script[1..], total);
    RunOne(log, script[0], total);
  }

  function Reached(log: Log, s: Stage, total: nat): Log {
    Log(log.progress + (if s.report.Some? then [(AsI32(s.report.value), AsI32(total))] else []),
        log.saved + (if s.write.Some? then [s.write.value] else []))
  }

  lemma RunOne(log: Log, s: Stage, total: nat)
    ensures Succeeds([s]) <==> s.succeeds
    ensures Run(log, [s], total) == if s.succeeds then Reached(log, s, total) else log
  {
    if s.succeeds {
      CompletedIs([s], 1);
      assert [s][..1] == [s];
      ExtendOne(log, s, total);
    } else {
      CompletedIs([s], 0);
      assert [s][..0] == [];
      assert AsReported([], total) == [];
    }
  }

  lemma StepTaken(script: seq<Stage>, i: nat, log: Log, total: nat)
    requires i < |script|
    ensures Extend(log, script[..i + 1], total) == Reached(Extend(log, script[..i], total), script[i], total)
  {
    assert script[..i + 1] == script[..i] + [script[i]];
    ExtendAppend(log, script[..i], [script[i]], total);
    ExtendOne(Extend(log, script[..i], total), script[i], total);
  }

  lemma ExtendAppend(log: Log, a: seq<Stage>, b: seq<Stage>, total: nat)
    ensures Extend(log, a + b, total) == Extend(Extend(log, a, total), b, total)
  {
    EffectsAppend(a, b);
    assert AsReported(Reports(a) + Reports(b), total) == AsReported(Reports(a), total) + AsReported(Reports(b), total);
  }

  lemma ExtendOne(log: Log, s: Stage, total: nat)
    ensures Extend(log, [s], total)
            == Reached(log, s, total)
  {
    assert [s][..0] == [];
    assert Reports([s]) == if s.report.Some? then [s.report.value] else [];
    assert Writes([s]) == if s.write.Some? then [s.write.value] else [];
    assert AsReported([], total) == [];
    if s.report.Some? {
      assert AsReported([s.report.value], total) == [(AsI32(s.report.value), AsI32(total))];
    }
  }

  lemma SucceedsAppend(a: seq<Stage>, b: seq<Stage>)
    ensures Succeeds(a + b) <==> Succeeds(a) && Succeeds(b)
  {
    assert forall i :: 0 <= i < |b| ==> (a + b)[|a| + i] == b[i];
    assert forall i :: 0 <= i < |a| ==> (a + b)[i] == a[i];
  }

  lemma CompletedAppend(a: seq<Stage>, b: seq<Stage>)
    ensures Succeeds(a) ==> Completed(a) == |a| && Completed(a + b) == |a| + Completed(b)
    ensures !Succeeds(a) ==> Completed(a + b) == Completed(a) < |a|
  {
    if Succeeds(a) {
      CompletedIs(a, |a|);
      CompletedIs(a + b, |a| + Completed(b));
    } else {
      CompletedIs(a + b, Completed(a));
    }
  }

  /** Running one script after another: the second only starts if the first succeeds. */
  lemma RunInSequence(log: Log, a: seq<Stage>, b: seq<Stage>, total: nat)
    ensures Succeeds(a + b) <==> Succeeds(a) && Succeeds(b)
    ensures Run(log, a + b, total) == if Succeeds(a) then Run(Run(log, a, total), b, total) else Run(log, a, total)
  {
    SucceedsAppend(a, b);
    CompletedAppend(a, b);
    var n := Completed(b);
    if Succeeds(a) {
      assert (a + b)[..|a| + n] == a + b[..n];
      assert a[..|a|] == a;
      ExtendAppend(log, a, b[..n], total);
    } else {
      assert (a + b)[..Completed(a)] == a[..Completed(a)];
    }
  }

  // ---- The progress listener ----

  /** `count` numbers starting with `first`. */
  function Range(first: nat, count: nat): seq<nat> { seq(count, i => first + i) }

  /** The steps a successful `migrate_data` reports for `s` sessions of both kinds together. */
  function DataTrace(s: nat): (r: seq<nat>)
    ensures |r| == 5 + s
  {
    [1, 2] + Range(3, s) + [3, 4, 5]
  }

  /** The steps a successful `migrate_session_data` reports. */
  function SessionTrace(s: nat): (r: seq<nat>)
    ensures |r| == 1 + s
  {
    Range(1, s) + [1]
  }

  /** A stage list that reports `first`, `first + 1`, … and writes nothing. */
  lemma {:induction false} CountingReports(script: seq<Stage>, first: nat)
    requires forall i :: 0 <= i < |script| ==> script[i].report == Some(first + i) && script[i].write == None
    ensures Reports(script) == Range(first, |script|)
    ensures Writes(script) == []
  {
    if script != [] {
      CountingReports(script[..|script| - 1], first);
    }
  }

  lemma CollectReports(lib: Library, ss: seq<PickledSession>, gs: seq<PickledGroupSession>, done: nat)
    ensures Reports(CollectStages(lib, ss, gs, done)) == Range(done + 1, |ss| + |gs|)
    ensures Writes(CollectStages(lib, ss, gs, done)) == []
  {
    CountingReports(CollectStages(lib, ss, gs, done), done + 1);
  }

  /** The three writes of `migrate_data`, in order. */
  function DataWrites(lib: Library, d: MigrationData): seq<Write> {
    [TrackedUsers(ValidUsers(lib, d.trackedUsers)),
     PendingAccount(Unwrap(lib.restoreAccount(d.accountPickle))),
     SaveChanges(AllChanges(lib, d))]
  }

  function ReportOf(s: Stage): seq<nat> { if s.report.Some? then [s.report.value] else [] }

  function WriteOf(s: Stage): seq<Write> { if s.write.Some? then [s.write.value] else [] }

  lemma OneStage(a: Stage)
    ensures Reports([a]) == ReportOf(a) && Writes([a]) == WriteOf(a)
  {
    assert [a][..0] == [];
  }

  lemma TwoStages(a: Stage, b: Stage)
    ensures Reports([a, b]) == ReportOf(a) + ReportOf(b) && Writes([a, b]) == WriteOf(a) + WriteOf(b)
  {
    assert [a, b] == [a] + [b];
    EffectsAppend([a], [b]);
    OneStage(a);
    OneStage(b);
  }

  lemma ThreeStages(a: Stage, b: Stage, c: Stage)
    ensures Reports([a, b, c]) == ReportOf(a) + ReportOf(b) + ReportOf(c)
    ensures Writes([a, b, c]) == WriteOf(a) + WriteOf(b) + WriteOf(c)
  {
    assert [a, b, c] == [a, b] + [c];
    EffectsAppend([a, b], [c]);
    TwoStages(a, b);
    OneStage(c);
  }

  lemma ClosingEffects(lib: Library, d: MigrationData)
    ensures Reports(ClosingStages(lib, d)) == [3, 4, 5] && Writes(ClosingStages(lib, d)) == DataWrites(lib, d)
  {
    var a, b := SecretsStages(lib, d), SavingStages(lib, d);
    EffectsAppend(a, b);
    TwoStages(a[0], a[1]);
    ThreeStages(b[0], b[1], b[2]);
  }

  /** What `migrate_data` reports and writes when every step succeeds. */
  lemma DataScriptEffects(lib: Library, d: MigrationData)
    ensures Reports(DataScript(lib, d)) == DataTrace(|d.sessions| + |d.inboundGroupSessions|)
    ensures Writes(DataScript(lib, d)) == DataWrites(lib, d)
  {
    var opening, middle := OpeningStages(lib, d), CollectStages(lib, d.sessions, d.inboundGroupSessions, 2);
    EffectsAppend(opening + middle, ClosingStages(lib, d));
    EffectsAppend(opening, middle);
    CountingReports(opening, 1);
    CollectReports(lib, d.sessions, d.inboundGroupSessions, 2);
    ClosingEffects(lib, d);
    assert Range(1, 2) == [1, 2];
  }

  lemma SessionScriptEffects(lib: Library, d: SessionMigrationData)
    ensures Reports(SessionScript(lib, d)) == SessionTrace(|d.sessions| + |d.inboundGroupSessions|)
    ensures Writes(SessionScript(lib, d)) == [SessionClosing(lib, d)[0].write.value]
  {
    var opening, middle := SessionOpening(lib, d), CollectStages(lib, d.sessions, d.inboundGroupSessions, 0);
    EffectsAppend(opening + middle, SessionClosing(lib, d));
    EffectsAppend(opening, middle);
    SessionEndsEffects(lib, d);
    CollectReports(lib, d.sessions, d.inboundGroupSessions, 0);
  }

  lemma SessionEndsEffects(lib: Library, d: SessionMigrationData)
    ensures Reports(SessionOpening(lib, d)) == [] && Writes(SessionOpening(lib, d)) == []
    ensures Reports(SessionClosing(lib, d)) == [1]
    ensures Writes(SessionClosing(lib, d)) == [SessionClosing(lib, d)[0].write.value]
  {
    var opening, closing := SessionOpening(lib, d), SessionClosing(lib, d);
    TwoStages(opening[0], opening[1]);
    assert opening == [opening[0], opening[1]];
    OneStage(closing[0]);
    assert closing == [closing[0]];
  }

  /**
    Every run of `migrate_data`, failing or not, shows the listener a prefix of the
    successful trace, and all of it exactly when it returns `Ok`.
   */
  lemma DataProgress(lib: Library, d: MigrationData)
    ensures var script, full := DataScript(lib, d), DataTrace(|d.sessions| + |d.inboundGroupSessions|);
            var seen := Reports(script[..Completed(script)]);
            seen <= full && (seen == full <==> Succeeds(script))
  {
    var script := DataScript(lib, d);
    DataScriptEffects(lib, d);
    AllOrShort(script);
    if !Succeeds(script) {
      StoppingShort(script, Completed(script));
    }
  }

  /** The same for `migrate_session_data`. */
  lemma SessionProgress(lib: Library, d: SessionMigrationData)
    ensures var script, full := SessionScript(lib, d), SessionTrace(|d.sessions| + |d.inboundGroupSessions|);
            var seen := Reports(script[..Completed(script)]);
            seen <= full && (seen == full <==> Succeeds(script))
  {
    var script := SessionScript(lib, d);
    SessionScriptEffects(lib, d);
    AllOrShort(script);
    if !Succeeds(script) {
      StoppingShort(script, Completed(script));
    }
  }

  /** A run that stops short of a last step that reports and writes misses something. */
  lemma StoppingShort(script: seq<Stage>, n: nat)
    requires n < |script|
    ensures script[|script| - 1].report.Some? ==> Reports(script[..n]) < Reports(script)
    ensures script[|script| - 1].write.Some? ==> Writes(script[..n]) < Writes(script)
  {
    var shorter, last := script[..|script| - 1], script[|script| - 1];
    assert script == shorter + [last];
    EffectsAppend(shorter, [last]);
    OneStage(last);
    EffectsArePrefixes(shorter, n);
    assert shorter[..n] == script[..n];
  }

  /** Either every step was carried out, or the run stopped short. */
  lemma AllOrShort(script: seq<Stage>)
    ensures Succeeds(script) ==> script[..Completed(script)] == script
    ensures !Succeeds(script) ==> Completed(script) < |script|
  {
    if Succeeds(script) {
      CompletedIs(script, |script|);
    }
  }

  predicate NonDecreasing(s: seq<int>) {
    forall i, j :: 0 <= i < j < |s| ==> s[i] <= s[j]
  }

  function Values(steps: seq<nat>): seq<int> { Map(AsI32, steps) }

  /** What a run reports, as the listener gets it. */
  function ReportedBy(script: seq<Stage>): seq<int> { Values(Reports(script[..Completed(script)])) }

  lemma DataTraceAt(s: nat, i: nat)
    requires i < 5 + s
    ensures DataTrace(s)[i] == if i < 2 + s then i + 1 else i - s + 1
  {}

  /** The first `n` reports of a complete run. */
  lemma DataTraceMonotone(s: nat, n: nat)
    requires n <= 5 + s
    ensures NonDecreasing(Values(DataTrace(s)[..n])) <==> s <= 1 || (n <= 2 + s && n < 0x8000_0000)
  {
    var t := DataTrace(s)[..n];
    forall i | 0 <= i < n ensures t[i] == if i < 2 + s then i + 1 else i - s + 1 {
      DataTraceAt(s, i);
    }
    if s <= 1 {
      SmallMonotone(t);
    } else if n > 2 + s {
      assert Values(t)[3] == AsI32(4) > AsI32(3) == Values(t)[2 + s];
    } else {
      CountingMonotone(t);
    }
  }

  lemma SmallMonotone(steps: seq<nat>)
    requires forall i :: 0 <= i < |steps| ==> steps[i] < 0x8000_0000
    requires forall i, j :: 0 <= i < j < |steps| ==> steps[i] <= steps[j]
    ensures NonDecreasing(Values(steps))
  {
    assert forall i :: 0 <= i < |steps| ==> Values(steps)[i] == steps[i];
  }

  /** Counting goes back exactly where the cast to `i32` wraps. */
  lemma CountingMonotone(steps: seq<nat>)
    requires forall i :: 0 <= i < |steps| ==> steps[i] == i + 1
    ensures NonDecreasing(Values(steps)) <==> |steps| < 0x8000_0000
  {
    var v := Values(steps);
    if |steps| >= 0x8000_0000 {
      assert v[0x7FFF_FFFE] == 0x7FFF_FFFF && v[0x7FFF_FFFF] == -0x8000_0000;
    }
  }

  lemma {:induction false} AllReport(script: seq<Stage>)
    requires forall i :: 0 <= i < |script| ==> script[i].report.Some?
    ensures |Reports(script)| == |script|
  {
    if script != [] {
      AllReport(script[..|script| - 1]);
    }
  }

  lemma DataStagesReport(lib: Library, d: MigrationData)
    ensures var s, script := |d.sessions| + |d.inboundGroupSessions|, DataScript(lib, d);
            |script| == 7 + s && forall i :: 0 <= i < 3 + s ==> script[i].report.Some?
  {
    var opening, middle := OpeningStages(lib, d), CollectStages(lib, d.sessions, d.inboundGroupSessions, 2);
    var closing, script := ClosingStages(lib, d), DataScript(lib, d);
    forall i | 0 <= i < |opening| + |middle| + 1 ensures script[i].report.Some? {
      assert script[i] == if i < 2 then opening[i] else if i < 2 + |middle| then middle[i - 2] else closing[0];
    }
  }

  /** The reports of a run: a prefix of the trace, one per step up to the third after the sessions. */
  predicate DataReports(script: seq<Stage>, s: nat) {
    var done, n := Completed(script), |Reports(script[..Completed(script)])|;
    && n <= 5 + s && Reports(script[..done]) == DataTrace(s)[..n]
    && (if done <= 2 + s then n == done else n > 2 + s)
  }

  lemma DataReportCount(lib: Library, d: MigrationData)
    ensures DataReports(DataScript(lib, d), |d.sessions| + |d.inboundGroupSessions|)
  {
    var s, script := |d.sessions| + |d.inboundGroupSessions|, DataScript(lib, d);
    var done := Completed(script);
    DataScriptEffects(lib, d);
    EffectsArePrefixes(script, done);
    DataStagesReport(lib, d);
    CountUpTo(script, done, 3 + s);
  }

  lemma CountUpTo(script: seq<Stage>, done: nat, k: nat)
    requires done <= |script| && k <= |script| && forall i :: 0 <= i < k ==> script[i].report.Some?
    ensures if done < k then |Reports(script[..done])| == done else |Reports(script[..done])| >= k
  {
    if done < k {
      AllReport(script[..done]);
    } else {
      AllReport(script[..k]);
      EffectsArePrefixes(script[..done], k);
      assert script[..done][..k] == script[..k];
    }
  }

  /**
    The reported progress of a run never goes back exactly when there is at most one
    session, or the run stops before the counter starts over (and before the cast to
    `i32` wraps).
   */
  lemma DataProgressMonotone(lib: Library, d: MigrationData)
    ensures var s, script := |d.sessions| + |d.inboundGroupSessions|, DataScript(lib, d);
            NonDecreasing(ReportedBy(script))
            <==> s <= 1 || (Completed(script) <= 2 + s && Completed(script) < 0x8000_0000)
  {
    DataReportCount(lib, d);
    DataMonotone(DataScript(lib, d), |d.sessions| + |d.inboundGroupSessions|);
  }

  lemma DataMonotone(script: seq<Stage>, s: nat)
    requires DataReports(script, s)
    ensures NonDecreasing(ReportedBy(script))
            <==> s <= 1 || (Completed(script) <= 2 + s && Completed(script) < 0x8000_0000)
  {
    DataTraceMonotone(s, |Reports(script[..Completed(script)])|);
  }

  /** Nothing fails, and two sessions are enough for the progress to go back from 4 to 3. */
  lemma TwoSessionsGoBack() returns (lib: Library, d: MigrationData)
    ensures Succeeds(DataScript(lib, d)) && |d.sessions| == 2
    ensures ReportedBy(DataScript(lib, d)) == [1, 2, 3, 4, 3, 4, 5]
  {
    lib := Library(true, _ => true, _ => true, _ => true, _ => Some(""), _ => Some(""), _ => Some(""), _ => Some(""),
                   _ => true, true, true, true);
    var session := PickledSession("", "", false, 0, 0);
    d := MigrationData("", "", [session, session], [], None, None, Secrets(None, None, None), [], []);
    DataProgress(lib, d);
    assert DataTrace(2) == [1, 2, 3, 4, 3, 4, 5];
  }

  lemma SessionTraceAt(s: nat, i: nat)
    requires i < 1 + s
    ensures SessionTrace(s)[i] == if i < s then i + 1 else 1
  {}

  lemma SessionTraceMonotone(s: nat, n: nat)
    requires n <= 1 + s
    ensures NonDecreasing(Values(SessionTrace(s)[..n])) <==> s <= 1 || (n <= s && n < 0x8000_0000)
  {
    var t := SessionTrace(s)[..n];
    forall i | 0 <= i < n ensures t[i] == if i < s then i + 1 else 1 {
      SessionTraceAt(s, i);
    }
    if s <= 1 {
      SmallMonotone(t);
    } else if n > s {
      assert Values(t)[1] == AsI32(2) > AsI32(1) == Values(t)[s];
    } else {
      CountingMonotone(t);
    }
  }

  lemma SessionStagesReport(lib: Library, d: SessionMigrationData)
    ensures var s, script := |d.sessions| + |d.inboundGroupSessions|, SessionScript(lib, d);
            && |script| == 3 + s && script[..2] == SessionOpening(lib, d)
            && forall i :: 2 <= i < |script| ==> script[i].report.Some?
  {
    var opening, middle := SessionOpening(lib, d), CollectStages(lib, d.sessions, d.inboundGroupSessions, 0);
    var closing, script := SessionClosing(lib, d), SessionScript(lib, d);
    forall i | 2 <= i < |script| ensures script[i].report.Some? {
      assert script[i] == if i < 2 + |middle| then middle[i - 2] else closing[0];
    }
  }

  /** The reports of a run: nothing while opening and then one per step. */
  predicate SessionReports(script: seq<Stage>, s: nat) {
    var done, n := Completed(script), |Reports(script[..Completed(script)])|;
    && n <= 1 + s && Reports(script[..done]) == SessionTrace(s)[..n]
    && n == if done <= 2 then 0 else done - 2
  }

  lemma SessionReportCount(lib: Library, d: SessionMigrationData)
    ensures SessionReports(SessionScript(lib, d), |d.sessions| + |d.inboundGroupSessions|)
  {
    var script := SessionScript(lib, d);
    var done, opening := Completed(script), SessionOpening(lib, d);
    SessionScriptEffects(lib, d);
    EffectsArePrefixes(script, done);
    SessionEndsEffects(lib, d);
    SessionStagesReport(lib, d);
    CountAfter(script, opening, done);
  }

  /** The number of reports of the first `done` steps, after an opening without any. */
  lemma CountAfter(script: seq<Stage>, opening: seq<Stage>, done: nat)
    requires |opening| == 2 <= |script| && done <= |script| && script[..2] == opening && Reports(opening) == []
    requires forall i :: 2 <= i < |script| ==> script[i].report.Some?
    ensures |Reports(script[..done])| == if done <= 2 then 0 else done - 2
  {
    if done <= 2 {
      EffectsArePrefixes(opening, done);
      assert opening[..done] == script[..done];
    } else {
      assert script[..done] == opening + script[2..done];
      EffectsAppend(opening, script[2..done]);
      AllReport(script[2..done]);
    }
  }

  lemma SessionProgressMonotone(lib: Library, d: SessionMigrationData)
    ensures var s, script := |d.sessions| + |d.inboundGroupSessions|, SessionScript(lib, d);
            NonDecreasing(ReportedBy(script))
            <==> s <= 1 || (Completed(script) <= 2 + s && Completed(script) < 0x8000_0002)
  {
    SessionReportCount(lib, d);
    SessionMonotone(SessionScript(lib, d), |d.sessions| + |d.inboundGroupSessions|);
  }

  lemma SessionMonotone(script: seq<Stage>, s: nat)
    requires SessionReports(script, s)
    ensures NonDecreasing(ReportedBy(script))
            <==> s <= 1 || (Completed(script) <= 2 + s && Completed(script) < 0x8000_0002)
  {
    SessionTraceMonotone(s, |Reports(script[..Completed(script)])|);
  }

  predicate AllAtMost(s: seq<int>, total: int) {
    forall i :: 0 <= i < |s| ==> s[i] <= total
  }

  /** The total survives the cast to `i32`, or wraps to the largest `i32` there is. */
  predicate TotalUsable(total: nat) {
    total < 0x8000_0000 || total % 0x1_0000_0000 == 0x7FFF_FFFF
  }

  /**
    The first `n` steps of a trace that counts up to the last three of its `total`
    steps: with a total that is not usable, the counter passes it at the next step.
   */
  lemma CountingWithin(t: seq<nat>, n: nat, total: nat)
    requires n <= |t| && forall i :: 0 <= i < |t| ==> t[i] <= total && (i < total - 3 ==> t[i] == i + 1)
    ensures AllAtMost(Values(t[..n]), AsI32(total)) <==> TotalUsable(total) || n == 0 || n <= AsI32(total)
  {
    var v, last := Values(t[..n]), AsI32(total);
    if !TotalUsable(total) && n > 0 && n > last {
      var k := if last < 0 then 0 else last;
      assert v[k] == AsI32(k + 1) == k + 1;
    }
  }

  /**
    No value a run reports exceeds the reported total exactly when the total is
    usable, or the run stops before the counter passes what the total was cast to.
   */
  lemma DataProgressWithinTotal(lib: Library, d: MigrationData)
    ensures var total, script := 5 + |d.sessions| + |d.inboundGroupSessions|, DataScript(lib, d);
            AllAtMost(ReportedBy(script), AsI32(total))
            <==> TotalUsable(total) || Completed(script) == 0 || Completed(script) <= AsI32(total)
  {
    DataReportCount(lib, d);
    DataWithin(DataScript(lib, d), |d.sessions| + |d.inboundGroupSessions|);
  }

  lemma DataWithin(script: seq<Stage>, s: nat)
    requires DataReports(script, s)
    ensures AllAtMost(ReportedBy(script), AsI32(5 + s))
            <==> TotalUsable(5 + s) || Completed(script) == 0 || Completed(script) <= AsI32(5 + s)
  {
    forall i | 0 <= i < 5 + s ensures DataTrace(s)[i] <= 5 + s && (i < 2 + s ==> DataTrace(s)[i] == i + 1) {
      DataTraceAt(s, i);
    }
    CountingWithin(DataTrace(s), |Reports(script[..Completed(script)])|, 5 + s);
  }

  /** The same for sessions alone, whose first two steps report nothing. */
  lemma SessionProgressWithinTotal(lib: Library, d: SessionMigrationData)
    ensures var total, script := 1 + |d.sessions| + |d.inboundGroupSessions|, SessionScript(lib, d);
            AllAtMost(ReportedBy(script), AsI32(total))
            <==> TotalUsable(total) || Completed(script) <= 2 || Completed(script) - 2 <= AsI32(total)
  {
    SessionReportCount(lib, d);
    SessionWithin(SessionScript(lib, d), |d.sessions| + |d.inboundGroupSessions|);
  }

  lemma SessionWithin(script: seq<Stage>, s: nat)
    requires SessionReports(script, s)
    ensures AllAtMost(ReportedBy(script), AsI32(1 + s))
            <==> TotalUsable(1 + s) || Completed(script) <= 2 || Completed(script) - 2 <= AsI32(1 + s)
  {
    forall i | 0 <= i < 1 + s ensures SessionTrace(s)[i] <= 1 + s && (i < s ==> SessionTrace(s)[i] == i + 1) {
      SessionTraceAt(s, i);
    }
    CountingWithin(SessionTrace(s), |Reports(script[..Completed(script)])|, 1 + s);
  }

  /** With 2^31 steps the first report is step 1 of a negative total. */
  lemma LargeTotalTurnsNegative()
    ensures Values(DataTrace(0x7FFF_FFFB))[0] == 1 && AsI32(5 + 0x7FFF_FFFB) == -0x8000_0000
  {
    assert DataTrace(0x7FFF_FFFB)[0] == 1;
  }

  // ---- The store ----

  /**
    In every run the store holds a prefix of [tracked users, account, changes], and
    all three exactly when `migrate_data` returns `Ok`.
   */
  lemma DataPersisted(lib: Library, d: MigrationData)
    ensures var script := DataScript(lib, d);
            var held := Writes(script[..Completed(script)]);
            held <= DataWrites(lib, d) && (held == DataWrites(lib, d) <==> Succeeds(script))
  {
    var script := DataScript(lib, d);
    DataScriptEffects(lib, d);
    AllOrShort(script);
    if !Succeeds(script) {
      StoppingShort(script, Completed(script));
    }
  }

  lemma FailingPickleStops(lib: Library, d: MigrationData)
    requires (exists i :: 0 <= i < |d.sessions| && ConvertSession(lib, d.sessions[i]) == None)
             || (exists i ::
                   0 <= i < |d.inboundGroupSessions| && lib.restoreGroupSession(d.inboundGroupSessions[i]) == None)
    ensures !Succeeds(CollectStages(lib, d.sessions, d.inboundGroupSessions, 2))
  {
    var middle := CollectStages(lib, d.sessions, d.inboundGroupSessions, 2);
    if i :| 0 <= i < |d.sessions| && ConvertSession(lib, d.sessions[i]) == None {
      assert !middle[i].succeeds;
    } else {
      var i :| 0 <= i < |d.inboundGroupSessions| && lib.restoreGroupSession(d.inboundGroupSessions[i]) == None;
      assert !middle[|d.sessions| + i].succeeds;
    }
  }

  /** A single pickle that does not restore leaves the store untouched. */
  lemma FailingPickleSavesNothing(lib: Library, d: MigrationData)
    requires (exists i :: 0 <= i < |d.sessions| && ConvertSession(lib, d.sessions[i]) == None)
             || (exists i ::
                   0 <= i < |d.inboundGroupSessions| && lib.restoreGroupSession(d.inboundGroupSessions[i]) == None)
    ensures var script := DataScript(lib, d); Writes(script[..Completed(script)]) == []
    ensures !Succeeds(DataScript(lib, d))
  {
    var opening, middle := OpeningStages(lib, d), CollectStages(lib, d.sessions, d.inboundGroupSessions, 2);
    var script := DataScript(lib, d);
    var front := opening + middle;
    FailingPickleStops(lib, d);
    SucceedsAppend(opening, middle);
    SucceedsAppend(front, ClosingStages(lib, d));
    CompletedAppend(front, ClosingStages(lib, d));
    assert script[..Completed(script)] == front[..Completed(script)];
    EffectsArePrefixes(front, Completed(script));
    EffectsAppend(opening, middle);
    CountingReports(opening, 1);
    CollectReports(lib, d.sessions, d.inboundGroupSessions, 2);
  }

  /** On success the stored sessions are the images of the pickles, one for one and in order. */
  lemma SavedSessionsAreTheImages(lib: Library, d: MigrationData)
    requires Succeeds(DataScript(lib, d))
    ensures var sessions := AllChanges(lib, d).sessions;
            |sessions| == |d.sessions|
            && forall i :: 0 <= i < |sessions| ==> ConvertSession(lib, d.sessions[i]) == Some(sessions[i])
    ensures var sessions := AllChanges(lib, d).inboundGroupSessions;
            |sessions| == |d.inboundGroupSessions|
            && forall i :: 0 <= i < |sessions| ==>
                 lib.restoreGroupSession(d.inboundGroupSessions[i]) == Some(sessions[i])
  {
    var opening, middle := OpeningStages(lib, d), CollectStages(lib, d.sessions, d.inboundGroupSessions, 2);
    SucceedsAppend(opening + middle, ClosingStages(lib, d));
    SucceedsAppend(opening, middle);
    var ss, gs := SessionStages(lib, d.sessions, 2), GroupSessionStages(lib, d.inboundGroupSessions, 2 + |d.sessions|);
    SucceedsAppend(ss, gs);
    forall i | 0 <= i < |d.sessions| ensures ConvertSession(lib, d.sessions[i]).Some? {
      assert ss[i].succeeds;
    }
    forall i | 0 <= i < |d.inboundGroupSessions| ensures lib.restoreGroupSession(d.inboundGroupSessions[i]).Some? {
      assert gs[i].succeeds;
    }
  }
}
