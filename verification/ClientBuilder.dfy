/**
  `ClientBuilder` values and the setters of its API. Payloads the binding layer
  only stores and passes on are kept as opaque strings.
 */
module BuilderValues {
  import opened Sequences

  type Opaque = string

  datatype HomeserverConfig =
    | Url(url: string)
    | ServerName(name: string)
    | ServerNameOrUrl(nameOrUrl: string)
    | ServerNameFromUserId(userId: string)

  datatype StoreBuilder = InMemory | Sqlite(config: Opaque) | Custom(provider: Opaque)

  datatype ThreadingSupport = Enabled(withSubscriptions: bool) | Disabled

  datatype EncryptionSettings = EncryptionSettings(
    autoEnableCrossSigning: bool, backupDownloadStrategy: Opaque, autoEnableBackups: bool)

  datatype ClientBuilder = ClientBuilder(
    store: Option<StoreBuilder>,
    systemIsMemoryConstrained: bool,
    homeserverCfg: Option<HomeserverConfig>,
    slidingSyncVersionBuilder: Opaque,
    disableAutomaticTokenRefresh: bool,
    crossProcessLockConfig: Opaque,
    sessionDelegate: Option<Opaque>,
    encryptionSettings: EncryptionSettings,
    roomKeyRecipientStrategy: Opaque,
    decryptionSettings: Opaque,
    enableShareHistoryOnInvite: bool,
    disableWellKnownLookup: bool,
    enableAutomaticBackPagination: bool,
    requestConfig: Option<Opaque>,
    userAgent: Option<string>,
    proxy: Option<string>,
    disableSslVerification: bool,
    disableBuiltInRootCertificates: bool,
    additionalRootCertificates: seq<Opaque>,
    threadingSupport: ThreadingSupport,
    dmRoomDefinition: Opaque)

  /** `ClientBuilder::new`. */
  const NEW := ClientBuilder(
    None, false, None, "None", false, "SingleProcess", None,
    EncryptionSettings(false, "AfterDecryptionFailure", false), "Default", "Untrusted",
    false, false, false, None, None, None, false, false, [], Disabled, "MatrixSpec")

  datatype Setter =
    | SetDmRoomDefinition(definition: Opaque)
    | SetCrossProcessLockConfig(lock: Opaque)
    | SetSessionDelegate(delegate: Opaque)
    | SetSystemIsMemoryConstrained
    | SetHomeserverUrl(url: string)
    | SetServerName(serverName: string)
    | SetServerNameOrHomeserverUrl(serverNameOrUrl: string)
    | SetServerNameFromUserId(userId: string)
    | SetSlidingSyncVersionBuilder(version: Opaque)
    | SetDisableAutomaticTokenRefresh
    | SetAutoEnableCrossSigning(crossSigning: bool)
    | SetBackupDownloadStrategy(strategy: Opaque)
    | SetAutoEnableBackups(backups: bool)
    | SetRoomKeyRecipientStrategy(recipients: Opaque)
    | SetDecryptionSettings(decryption: Opaque)
    | SetEnableShareHistoryOnInvite(share: bool)
    | SetDisableWellKnownLookup(disable: bool)
    | SetEnableAutomaticBackPagination(paginate: bool)
    | SetRequestConfig(config: Opaque)
    | SetThreadsEnabled(enabled: bool, subscriptions: bool)
    | SetInMemoryStore
    | SetSqliteStore(sqlite: Opaque)
    | SetCustomStore(provider: Opaque)
    | SetProxy(proxyUrl: string)
    | SetDisableSslVerification
    | SetAddRootCertificates(certificates: seq<Opaque>)
    | SetDisableBuiltInRootCertificates
    | SetUserAgent(agent: string)

  /** The assignment in the body of each setter. */
  function Assign(s: Setter, b: ClientBuilder): ClientBuilder {
    match s
    case SetDmRoomDefinition(v) => b.(dmRoomDefinition := v)
    case SetCrossProcessLockConfig(v) => b.(crossProcessLockConfig := v)
    case SetSessionDelegate(v) => b.(sessionDelegate := Some(v))
    case SetSystemIsMemoryConstrained => b.(systemIsMemoryConstrained := true)
    case SetHomeserverUrl(v) => b.(homeserverCfg := Some(Url(v)))
    case SetServerName(v) => b.(homeserverCfg := Some(ServerName(v)))
    case SetServerNameOrHomeserverUrl(v) => b.(homeserverCfg := Some(ServerNameOrUrl(v)))
    case SetServerNameFromUserId(v) => b.(homeserverCfg := Some(ServerNameFromUserId(v)))
    case SetSlidingSyncVersionBuilder(v) => b.(slidingSyncVersionBuilder := v)
    case SetDisableAutomaticTokenRefresh => b.(disableAutomaticTokenRefresh := true)
    case SetAutoEnableCrossSigning(v) =>
      b.(encryptionSettings := b.encryptionSettings.(autoEnableCrossSigning := v))
    case SetBackupDownloadStrategy(v) =>
      b.(encryptionSettings := b.encryptionSettings.(backupDownloadStrategy := v))
    case SetAutoEnableBackups(v) =>
      b.(encryptionSettings := b.encryptionSettings.(autoEnableBackups := v))
    case SetRoomKeyRecipientStrategy(v) => b.(roomKeyRecipientStrategy := v)
    case SetDecryptionSettings(v) => b.(decryptionSettings := v)
    case SetEnableShareHistoryOnInvite(v) => b.(enableShareHistoryOnInvite := v)
    case SetDisableWellKnownLookup(v) => b.(disableWellKnownLookup := v)
    case SetEnableAutomaticBackPagination(v) => b.(enableAutomaticBackPagination := v)
    case SetRequestConfig(v) => b.(requestConfig := Some(v))
    case SetThreadsEnabled(e, subs) => b.(threadingSupport := if e then Enabled(subs) else Disabled)
    case SetInMemoryStore => b.(store := Some(InMemory))
    case SetSqliteStore(v) => b.(store := Some(Sqlite(v)))
    case SetCustomStore(v) => b.(store := Some(Custom(v)))
    case SetProxy(v) => b.(proxy := Some(v))
    case SetDisableSslVerification => b.(disableSslVerification := true)
    case SetAddRootCertificates(v) => b.(additionalRootCertificates := v)
    case SetDisableBuiltInRootCertificates => b.(disableBuiltInRootCertificates := true)
    case SetUserAgent(v) => b.(userAgent := Some(v))
  }

  /** A builder on which the setters of `history` were called, oldest first. */
  function Build(history: seq<Setter>): ClientBuilder {
    Fold(Assign, NEW, history)
  }

  // ---- Each field holds what its last setter wrote ----

  datatype Field =
    | FStore | FMemory | FHomeserver | FSlidingSync | FTokenRefresh | FLock | FDelegate
    | FCrossSigning | FBackupStrategy | FBackups | FRecipients | FDecryption | FShareHistory
    | FWellKnown | FBackPagination | FRequestConfig | FUserAgent | FProxy | FSsl
    | FBuiltInCertificates | FCertificates | FThreading | FDmRoom

  datatype Value =
    | VStore(store: Option<StoreBuilder>) | VFlag(flag: bool) | VHomeserver(cfg: Option<HomeserverConfig>)
    | VText(text: Opaque) | VOptText(optText: Option<Opaque>) | VTexts(texts: seq<Opaque>)
    | VThreading(threading: ThreadingSupport)

  function Get(f: Field, b: ClientBuilder): Value {
    match f
    case FStore => VStore(b.store)
    case FMemory => VFlag(b.systemIsMemoryConstrained)
    case FHomeserver => VHomeserver(b.homeserverCfg)
    case FSlidingSync => VText(b.slidingSyncVersionBuilder)
    case FTokenRefresh => VFlag(b.disableAutomaticTokenRefresh)
    case FLock => VText(b.crossProcessLockConfig)
    case FDelegate => VOptText(b.sessionDelegate)
    case FCrossSigning => VFlag(b.encryptionSettings.autoEnableCrossSigning)
    case FBackupStrategy => VText(b.encryptionSettings.backupDownloadStrategy)
    case FBackups => VFlag(b.encryptionSettings.autoEnableBackups)
    case FRecipients => VText(b.roomKeyRecipientStrategy)
    case FDecryption => VText(b.decryptionSettings)
    case FShareHistory => VFlag(b.enableShareHistoryOnInvite)
    case FWellKnown => VFlag(b.disableWellKnownLookup)
    case FBackPagination => VFlag(b.enableAutomaticBackPagination)
    case FRequestConfig => VOptText(b.requestConfig)
    case FUserAgent => VOptText(b.userAgent)
    case FProxy => VOptText(b.proxy)
    case FSsl => VFlag(b.disableSslVerification)
    case FBuiltInCertificates => VFlag(b.disableBuiltInRootCertificates)
    case FCertificates => VTexts(b.additionalRootCertificates)
    case FThreading => VThreading(b.threadingSupport)
    case FDmRoom => VText(b.dmRoomDefinition)
  }

  /** The field a setter is about, and what it puts there. */
  function Writes(s: Setter): (Field, Value) {
    match s
    case SetDmRoomDefinition(v) => (FDmRoom, VText(v))
    case SetCrossProcessLockConfig(v) => (FLock, VText(v))
    case SetSessionDelegate(v) => (FDelegate, VOptText(Some(v)))
    case SetSystemIsMemoryConstrained => (FMemory, VFlag(true))
    case SetHomeserverUrl(v) => (FHomeserver, VHomeserver(Some(Url(v))))
    case SetServerName(v) => (FHomeserver, VHomeserver(Some(ServerName(v))))
    case SetServerNameOrHomeserverUrl(v) => (FHomeserver, VHomeserver(Some(ServerNameOrUrl(v))))
    case SetServerNameFromUserId(v) => (FHomeserver, VHomeserver(Some(ServerNameFromUserId(v))))
    case SetSlidingSyncVersionBuilder(v) => (FSlidingSync, VText(v))
    case SetDisableAutomaticTokenRefresh => (FTokenRefresh, VFlag(true))
    case SetAutoEnableCrossSigning(v) => (FCrossSigning, VFlag(v))
    case SetBackupDownloadStrategy(v) => (FBackupStrategy, VText(v))
    case SetAutoEnableBackups(v) => (FBackups, VFlag(v))
    case SetRoomKeyRecipientStrategy(v) => (FRecipients, VText(v))
    case SetDecryptionSettings(v) => (FDecryption, VText(v))
    case SetEnableShareHistoryOnInvite(v) => (FShareHistory, VFlag(v))
    case SetDisableWellKnownLookup(v) => (FWellKnown, VFlag(v))
    case SetEnableAutomaticBackPagination(v) => (FBackPagination, VFlag(v))
    case SetRequestConfig(v) => (FRequestConfig, VOptText(Some(v)))
    case SetThreadsEnabled(e, subs) => (FThreading, VThreading(if e then Enabled(subs) else Disabled))
    case SetInMemoryStore => (FStore, VStore(Some(InMemory)))
    case SetSqliteStore(v) => (FStore, VStore(Some(Sqlite(v))))
    case SetCustomStore(v) => (FStore, VStore(Some(Custom(v))))
    case SetProxy(v) => (FProxy, VOptText(Some(v)))
    case SetDisableSslVerification => (FSsl, VFlag(true))
    case SetAddRootCertificates(v) => (FCertificates, VTexts(v))
    case SetDisableBuiltInRootCertificates => (FBuiltInCertificates, VFlag(true))
    case SetUserAgent(v) => (FUserAgent, VOptText(Some(v)))
  }

  // The setters in groups, to keep the case distinctions small.

  predicate Group1(s: Setter) {
    s.SetDmRoomDefinition? || s.SetCrossProcessLockConfig? || s.SetSessionDelegate? || s.SetSystemIsMemoryConstrained?
  }

  predicate Group2(s: Setter) {
    s.SetHomeserverUrl? || s.SetServerName? || s.SetServerNameOrHomeserverUrl? || s.SetServerNameFromUserId?
  }

  predicate Group3(s: Setter) {
    || s.SetSlidingSyncVersionBuilder? || s.SetDisableAutomaticTokenRefresh?
    || s.SetAutoEnableCrossSigning? || s.SetBackupDownloadStrategy?
  }

  predicate Group4(s: Setter) {
    || s.SetAutoEnableBackups? || s.SetRoomKeyRecipientStrategy?
    || s.SetDecryptionSettings? || s.SetEnableShareHistoryOnInvite?
  }

  predicate Group5(s: Setter) {
    s.SetDisableWellKnownLookup? || s.SetEnableAutomaticBackPagination? || s.SetRequestConfig? || s.SetThreadsEnabled?
  }

  predicate Group6(s: Setter) {
    s.SetInMemoryStore? || s.SetSqliteStore? || s.SetCustomStore? || s.SetProxy?
  }

  predicate Group7(s: Setter) {
    || s.SetDisableSslVerification? || s.SetAddRootCertificates?
    || s.SetDisableBuiltInRootCertificates? || s.SetUserAgent?
  }

  lemma AssignInGroup1(s: Setter, b: ClientBuilder, f: Field)
    requires Group1(s)
    ensures Get(f, Assign(s, b)) == if Writes(s).0 == f then Writes(s).1 else Get(f, b)
  {
    if s.SetDmRoomDefinition? {
      assert Writes(s).0 == FDmRoom;
    } else if s.SetCrossProcessLockConfig? {
      assert Writes(s).0 == FLock;
    } else if s.SetSessionDelegate? {
      assert Writes(s).0 == FDelegate;
    } else {
      assert Writes(s).0 == FMemory;
    }
  }

  lemma AssignInGroup2(s: Setter, b: ClientBuilder, f: Field)
    requires Group2(s)
    ensures Get(f, Assign(s, b)) == if Writes(s).0 == f then Writes(s).1 else Get(f, b)
  {
    if s.SetHomeserverUrl? {
      assert Writes(s).0 == FHomeserver;
    } else if s.SetServerName? {
      assert Writes(s).0 == FHomeserver;
    } else if s.SetServerNameOrHomeserverUrl? {
      assert Writes(s).0 == FHomeserver;
    } else {
      assert Writes(s).0 == FHomeserver;
    }
  }

  lemma AssignInGroup3(s: Setter, b: ClientBuilder, f: Field)
    requires Group3(s)
    ensures Get(f, Assign(s, b)) == if Writes(s).0 == f then Writes(s).1 else Get(f, b)
  {
    if s.SetSlidingSyncVersionBuilder? {
      assert Writes(s).0 == FSlidingSync;
    } else if s.SetDisableAutomaticTokenRefresh? {
      assert Writes(s).0 == FTokenRefresh;
    } else if s.SetAutoEnableCrossSigning? {
      assert Writes(s).0 == FCrossSigning;
    } else {
      assert Writes(s).0 == FBackupStrategy;
    }
  }

  lemma AssignInGroup4(s: Setter, b: ClientBuilder, f: Field)
    requires Group4(s)
    ensures Get(f, Assign(s, b)) == if Writes(s).0 == f then Writes(s).1 else Get(f, b)
  {
    if s.SetAutoEnableBackups? {
      assert Writes(s).0 == FBackups;
    } else if s.SetRoomKeyRecipientStrategy? {
      assert Writes(s).0 == FRecipients;
    } else if s.SetDecryptionSettings? {
      assert Writes(s).0 == FDecryption;
    } else {
      assert Writes(s).0 == FShareHistory;
    }
  }

  lemma AssignInGroup5(s: Setter, b: ClientBuilder, f: Field)
    requires Group5(s)
    ensures Get(f, Assign(s, b)) == if Writes(s).0 == f then Writes(s).1 else Get(f, b)
  {
    if s.SetDisableWellKnownLookup? {
      assert Writes(s).0 == FWellKnown;
    } else if s.SetEnableAutomaticBackPagination? {
      assert Writes(s).0 == FBackPagination;
    } else if s.SetRequestConfig? {
      assert Writes(s).0 == FRequestConfig;
    } else {
      assert Writes(s).0 == FThreading;
    }
  }

  lemma AssignInGroup6(s: Setter, b: ClientBuilder, f: Field)
    requires Group6(s)
    ensures Get(f, Assign(s, b)) == if Writes(s).0 == f then Writes(s).1 else Get(f, b)
  {
    if s.SetInMemoryStore? {
      assert Writes(s).0 == FStore;
    } else if s.SetSqliteStore? {
      assert Writes(s).0 == FStore;
    } else if s.SetCustomStore? {
      assert Writes(s).0 == FStore;
    } else {
      assert Writes(s).0 == FProxy;
    }
  }

  lemma AssignInGroup7(s: Setter, b: ClientBuilder, f: Field)
    requires Group7(s)
    ensures Get(f, Assign(s, b)) == if Writes(s).0 == f then Writes(s).1 else Get(f, b)
  {
    if s.SetDisableSslVerification? {
      assert Writes(s).0 == FSsl;
    } else if s.SetAddRootCertificates? {
      assert Writes(s).0 == FCertificates;
    } else if s.SetDisableBuiltInRootCertificates? {
      assert Writes(s).0 == FBuiltInCertificates;
    } else {
      assert Writes(s).0 == FUserAgent;
    }
  }

  lemma AssignWrites(s: Setter, b: ClientBuilder, f: Field)
    ensures Get(f, Assign(s, b)) == if Writes(s).0 == f then Writes(s).1 else Get(f, b)
  {
    if Group1(s) {
      AssignInGroup1(s, b, f);
    } else if Group2(s) {
      AssignInGroup2(s, b, f);
    } else if Group3(s) {
      AssignInGroup3(s, b, f);
    } else if Group4(s) {
      AssignInGroup4(s, b, f);
    } else if Group5(s) {
      AssignInGroup5(s, b, f);
    } else if Group6(s) {
      AssignInGroup6(s, b, f);
    } else {
      assert Group7(s);
      AssignInGroup7(s, b, f);
    }
  }

  predicate SetsField(f: Field, s: Setter) { Writes(s).0 == f }

  function Setters(f: Field): Setter -> bool { s => SetsField(f, s) }

  /** Whichever was set last is used; a field no setter touched keeps its initial value. */
  lemma LastSetterWins(f: Field, history: seq<Setter>)
    ensures forall i: nat :: IsLast(Setters(f), history, i) ==> Get(f, Build(history)) == Writes(history[i]).1
    ensures Never(Setters(f), history) ==> Get(f, Build(history)) == Get(f, NEW)
  {
    var get := (b: ClientBuilder) => Get(f, b);
    var written := (s: Setter) => Writes(s).1;
    forall s: Setter, b: ClientBuilder
      ensures get(Assign(s, b)) == if Setters(f)(s) then written(s) else get(b)
    {
      AssignWrites(s, b, f);
    }
    LastWriteWins(Assign, NEW, history, get, Setters(f), written);
  }

  // ---- The homeserver selection in `build` ----

  datatype Selection =
    | ByUrl(url: string)
    | ByServerName(server: string)
    | ByServerNameOrUrl(nameOrUrl: string)
    | NothingConfigured
    | Unparsable

  function SelectHomeserver(
    b: ClientBuilder, parseServer: string -> Option<string>, serverOfUser: string -> Option<string>): Selection
  {
    match b.homeserverCfg
    case Some(Url(url)) => ByUrl(url)
    case Some(ServerName(name)) =>
      (match parseServer(name) case Some(server) => ByServerName(server) case None => Unparsable)
    case Some(ServerNameOrUrl(nameOrUrl)) => ByServerNameOrUrl(nameOrUrl)
    case Some(ServerNameFromUserId(id)) =>
      (match serverOfUser(id) case Some(server) => ByServerName(server) case None => Unparsable)
    case None => NothingConfigured
  }

  /** What `build` makes of one homeserver setter. */
  function Selects(
    s: Setter, parseServer: string -> Option<string>, serverOfUser: string -> Option<string>): Selection
    requires Writes(s).0 == FHomeserver
  {
    match s
    case SetHomeserverUrl(url) => ByUrl(url)
    case SetServerName(name) =>
      var r := parseServer(name); if r.Some? then ByServerName(r.value) else Unparsable
    case SetServerNameOrHomeserverUrl(nameOrUrl) => ByServerNameOrUrl(nameOrUrl)
    case SetServerNameFromUserId(id) =>
      var r := serverOfUser(id); if r.Some? then ByServerName(r.value) else Unparsable
  }

  /** The four homeserver setters are mutually exclusive: `build` obeys the last one called. */
  lemma BuildObeysLastHomeserverSetter(
    history: seq<Setter>, parseServer: string -> Option<string>, serverOfUser: string -> Option<string>, i: nat)
    requires IsLast(Setters(FHomeserver), history, i)
    ensures SelectHomeserver(Build(history), parseServer, serverOfUser)
            == Selects(history[i], parseServer, serverOfUser)
  {
    LastSetterWins(FHomeserver, history);
    assert Get(FHomeserver, Build(history)) == Writes(history[i]).1;
  }

  /** `build` asks for a homeserver setter exactly when none was called. */
  lemma BuildNeedsHomeserverSetter(
    history: seq<Setter>, parseServer: string -> Option<string>, serverOfUser: string -> Option<string>)
    ensures SelectHomeserver(Build(history), parseServer, serverOfUser) == NothingConfigured
            <==> Never(Setters(FHomeserver), history)
  {
    if Never(Setters(FHomeserver), history) {
      LastSetterWins(FHomeserver, history);
      assert Get(FHomeserver, Build(history)) == VHomeserver(None);
    } else {
      var i := SomeLast(Setters(FHomeserver), history);
      BuildObeysLastHomeserverSetter(history, parseServer, serverOfUser, i);
    }
  }
}
