/**
 * The encryption coordinator of the sync service (SyncServiceCrypto) as it is
 * driven by its unit test: the coordinator, the test's in-memory trusted vault
 * client and the mocked sync engine, together one Fixture value, and one pure
 * function per callback. The classes in sync_service_crypto.dfy run the same
 * steps in place; the lemmas here state the protocol's properties: buffering
 * before an engine is bound, single-flight fetching, deferred (not dropped)
 * refetches, exact fetch and reconfigure counts, and the passphrase check.
 */
module TrustedVaultProtocol {
  import opened Wrappers
  import opened Nigori

  newtype Byte = b: int | 0 <= b < 256

  /** std::vector<std::vector<uint8_t>>: a list of trusted vault keys. */
  type Keys = seq<seq<Byte>>

  type GaiaId = string

  datatype CoreAccountInfo = CoreAccountInfo(gaia: GaiaId)

  /** CoreAccountInfo(): the account with an empty gaia id. */
  const DefaultAccount: CoreAccountInfo := CoreAccountInfo("")

  datatype PassphraseRequiredReason = ReasonEncryption | ReasonDecryption

  datatype RequiredUserAction =
    | NoActionRequired
    | FetchingTrustedVaultKeys
    | TrustedVaultKeyRequired
    | TrustedVaultKeyRequiredButFetching
    | PassphraseRequiredForDecryption
    | PassphraseRequiredForEncryption

  /** A FetchKeys() request of the coordinator is outstanding or due. */
  predicate IsFetchingAction(a: RequiredUserAction)
  {
    a == FetchingTrustedVaultKeys || a == TrustedVaultKeyRequiredButFetching
  }

  predicate IsTrustedVaultAction(a: RequiredUserAction)
  {
    a == FetchingTrustedVaultKeys || a == TrustedVaultKeyRequired || a == TrustedVaultKeyRequiredButFetching
  }

  predicate IsPassphraseAction(a: RequiredUserAction)
  {
    a == PassphraseRequiredForDecryption || a == PassphraseRequiredForEncryption
  }

  // ------------------------------------------------ TestTrustedVaultClient

  datatype VaultClient = VaultClient(
    gaiaIdToKeys: map<GaiaId, Keys>,
    fetchCount: nat,
    keysMarkedAsStale: bool,
    pendingResponses: seq<Keys>)

  const InitialClient: VaultClient := VaultClient(map[], 0, false, [])

  /** gaia_id_to_keys_[gaia]: the stored keys, empty when none were stored. */
  function StoredKeys(v: VaultClient, gaia: GaiaId): Keys
  {
    if gaia in v.gaiaIdToKeys then v.gaiaIdToKeys[gaia] else []
  }

  /** FetchKeys: counts the call, clears the stale flag and queues a response with the keys stored now. */
  function ClientFetchKeys(v: VaultClient, account: CoreAccountInfo): (r: VaultClient)
    ensures r.fetchCount == v.fetchCount + 1 && !r.keysMarkedAsStale
    ensures r.pendingResponses == v.pendingResponses + [StoredKeys(v, account.gaia)]
    ensures forall g :: StoredKeys(r, g) == StoredKeys(v, g)
  {
    var keys := StoredKeys(v, account.gaia);
    VaultClient(v.gaiaIdToKeys[account.gaia := keys], v.fetchCount + 1, false, v.pendingResponses + [keys])
  }

  /** StoreKeys without the observer notification: overwrites one account's keys. */
  function ClientStoreKeys(v: VaultClient, gaia: GaiaId, keys: Keys): (r: VaultClient)
    ensures StoredKeys(r, gaia) == keys
    ensures forall g :: g != gaia ==> StoredKeys(r, g) == StoredKeys(v, g)
    ensures r.fetchCount == v.fetchCount && r.keysMarkedAsStale == v.keysMarkedAsStale
    ensures r.pendingResponses == v.pendingResponses
  {
    v.(gaiaIdToKeys := v.gaiaIdToKeys[gaia := keys])
  }

  /** The pop_front of CompleteFetchKeysRequest: the oldest response, or none when the queue is empty. */
  function ClientTakeResponse(v: VaultClient): (r: (VaultClient, Option<Keys>))
    ensures r.1.None? <==> |v.pendingResponses| == 0
    ensures r.1.None? ==> r.0 == v
    ensures r.1.Some? ==>
      r.1.value == v.pendingResponses[0] && r.0 == v.(pendingResponses := v.pendingResponses[1..])
  {
    if |v.pendingResponses| == 0 then (v, None)
    else (v.(pendingResponses := v.pendingResponses[1..]), Some(v.pendingResponses[0]))
  }

  /** MarkKeysAsStale: sets the stale flag and answers false. */
  function ClientMarkKeysAsStale(v: VaultClient): (r: (VaultClient, bool))
    ensures r.0.keysMarkedAsStale && !r.1
    ensures r.0.gaiaIdToKeys == v.gaiaIdToKeys && r.0.fetchCount == v.fetchCount
    ensures r.0.pendingResponses == v.pendingResponses
  {
    (v.(keysMarkedAsStale := true), false)
  }

  /** Responses complete in request order, each one with the keys stored when it was requested. */
  lemma ResponsesCompleteInRequestOrder(v: VaultClient, a1: CoreAccountInfo, a2: CoreAccountInfo)
    requires |v.pendingResponses| == 0
    ensures
      var v2 := ClientFetchKeys(ClientFetchKeys(v, a1), a2);
      var t1 := ClientTakeResponse(v2);
      var t2 := ClientTakeResponse(t1.0);
      t1.1 == Some(StoredKeys(v, a1.gaia)) && t2.1 == Some(StoredKeys(v, a2.gaia)) &&
      ClientTakeResponse(t2.0).1 == None
  {
    var v1 := ClientFetchKeys(v, a1);
    var v2 := ClientFetchKeys(v1, a2);
    assert v2.pendingResponses == [StoredKeys(v, a1.gaia), StoredKeys(v, a2.gaia)];
  }

  /** A StoreKeys after a FetchKeys does not change what that fetch returns. */
  lemma ResponseUsesKeysAtRequestTime(v: VaultClient, account: CoreAccountInfo, gaia: GaiaId, keys: Keys)
    requires |v.pendingResponses| == 0
    ensures ClientTakeResponse(ClientStoreKeys(ClientFetchKeys(v, account), gaia, keys)).1 ==
      Some(StoredKeys(v, account.gaia))
  {
  }

  // -------------------------------------------------------- the mock engine

  /**
   * How the mocked engine answers AddTrustedVaultDecryptionKeys: either the
   * test keeps the done callback to run it later, or the engine accepts
   * exactly the given keys and runs the done callback at once.
   */
  datatype EngineBehaviour = HoldDoneCallback | AcceptSynchronouslyIf(acceptedKeys: Keys)

  datatype MockEngine = MockEngine(
    behaviour: EngineBehaviour,
    confirmsPassphrase: bool,
    addedKeys: seq<Keys>,
    passphrases: seq<string>,
    heldDone: bool)

  // ----------------------------------------------------------- coordinator

  datatype CryptoState = CryptoState(
    requiredUserAction: RequiredUserAction,
    deferredTrustedVaultKeyFetch: bool,
    engineBound: bool,
    accountInfo: CoreAccountInfo,
    cachedPendingKeys: Option<EncryptedData>,
    passphraseKeyDerivationParams: KeyDerivationParams,
    reconfigureCount: nat)

  const InitialCrypto: CryptoState :=
    CryptoState(NoActionRequired, false, false, DefaultAccount, None, Pbkdf2, 0)

  datatype Fixture = Fixture(crypto: CryptoState, client: VaultClient, engine: MockEngine)

  function InitialFixture(behaviour: EngineBehaviour, confirmsPassphrase: bool): Fixture
  {
    Fixture(InitialCrypto, InitialClient, MockEngine(behaviour, confirmsPassphrase, [], [], false))
  }

  predicate IsTrustedVaultKeyRequired(c: CryptoState)
  {
    c.requiredUserAction == TrustedVaultKeyRequired || c.requiredUserAction == TrustedVaultKeyRequiredButFetching
  }

  predicate IsPassphraseRequired(c: CryptoState)
  {
    IsPassphraseAction(c.requiredUserAction)
  }

  function WithAction(f: Fixture, a: RequiredUserAction): Fixture
  {
    f.(crypto := f.crypto.(requiredUserAction := a))
  }

  function Reconfigured(f: Fixture): Fixture
  {
    f.(crypto := f.crypto.(reconfigureCount := f.crypto.reconfigureCount + 1))
  }

  function FetchTrustedVaultKeys(f: Fixture): Fixture
  {
    f.(crypto := f.crypto.(deferredTrustedVaultKeyFetch := false),
       client := ClientFetchKeys(f.client, f.crypto.accountInfo))
  }

  function OnTrustedVaultKeyRequired(f: Fixture): Fixture
  {
    if f.crypto.requiredUserAction != NoActionRequired then f
    else
      var f1 := WithAction(f, FetchingTrustedVaultKeys);
      if !f1.crypto.engineBound then f1 else FetchTrustedVaultKeys(f1)
  }

  function SetSyncEngine(f: Fixture, account: CoreAccountInfo): Fixture
  {
    var f1 := f.(crypto := f.crypto.(accountInfo := account, engineBound := true));
    if f1.crypto.requiredUserAction == FetchingTrustedVaultKeys then FetchTrustedVaultKeys(f1) else f1
  }

  function OnTrustedVaultKeysChanged(f: Fixture): Fixture
  {
    match f.crypto.requiredUserAction
    case FetchingTrustedVaultKeys => f.(crypto := f.crypto.(deferredTrustedVaultKeyFetch := true))
    case TrustedVaultKeyRequiredButFetching => f.(crypto := f.crypto.(deferredTrustedVaultKeyFetch := true))
    case TrustedVaultKeyRequired => FetchTrustedVaultKeys(WithAction(f, TrustedVaultKeyRequiredButFetching))
    case NoActionRequired => f
    case PassphraseRequiredForDecryption => f
    case PassphraseRequiredForEncryption => f
  }

  /** TestTrustedVaultClient::StoreKeys, whose notification reaches the coordinator. */
  function StoreKeys(f: Fixture, gaia: GaiaId, keys: Keys): Fixture
  {
    OnTrustedVaultKeysChanged(f.(client := ClientStoreKeys(f.client, gaia, keys)))
  }

  function OnTrustedVaultKeyAccepted(f: Fixture): Fixture
  {
    if !IsTrustedVaultAction(f.crypto.requiredUserAction) then f
    else Reconfigured(WithAction(f, NoActionRequired))
  }

  function FetchTrustedVaultKeysCompletedButInsufficient(f: Fixture): Fixture
  {
    if f.crypto.deferredTrustedVaultKeyFetch then FetchTrustedVaultKeys(f)
    else Reconfigured(WithAction(f, TrustedVaultKeyRequired))
  }

  function TrustedVaultKeysMarkedAsStale(f: Fixture): Fixture
  {
    if !IsFetchingAction(f.crypto.requiredUserAction) then f
    else FetchTrustedVaultKeysCompletedButInsufficient(f)
  }

  /** The engine's done callback: keys still not accepted are reported stale. */
  function TrustedVaultKeysAdded(f: Fixture): Fixture
  {
    if !IsFetchingAction(f.crypto.requiredUserAction) then f
    else TrustedVaultKeysMarkedAsStale(f.(client := ClientMarkKeysAsStale(f.client).0))
  }

  /** The mocked engine's AddTrustedVaultDecryptionKeys. */
  function AddTrustedVaultDecryptionKeys(f: Fixture, keys: Keys): Fixture
  {
    var f1 := f.(engine := f.engine.(addedKeys := f.engine.addedKeys + [keys]));
    match f.engine.behaviour
    case HoldDoneCallback => f1.(engine := f1.engine.(heldDone := true))
    case AcceptSynchronouslyIf(accepted) =>
      TrustedVaultKeysAdded(if keys == accepted then OnTrustedVaultKeyAccepted(f1) else f1)
  }

  function TrustedVaultKeysFetchedFromClient(f: Fixture, keys: Keys): Fixture
  {
    if !IsFetchingAction(f.crypto.requiredUserAction) then f
    else if |keys| == 0 then FetchTrustedVaultKeysCompletedButInsufficient(f)
    else AddTrustedVaultDecryptionKeys(f, keys)
  }

  /** TestTrustedVaultClient::CompleteFetchKeysRequest: runs the oldest queued response. */
  function CompleteFetchKeysRequest(f: Fixture): (Fixture, bool)
  {
    var (client, response) := ClientTakeResponse(f.client);
    if response.None? then (f, false)
    else (TrustedVaultKeysFetchedFromClient(f.(client := client), response.value), true)
  }

  /** The test running the done callback it kept. */
  function RunHeldDoneCallback(f: Fixture): Fixture
    requires f.engine.heldDone
  {
    TrustedVaultKeysAdded(f.(engine := f.engine.(heldDone := false)))
  }

  function OnPassphraseRequired(f: Fixture, reason: PassphraseRequiredReason, params: KeyDerivationParams,
                                pendingKeys: EncryptedData): Fixture
  {
    var action := match reason
                  case ReasonEncryption => PassphraseRequiredForEncryption
                  case ReasonDecryption => PassphraseRequiredForDecryption;
    Reconfigured(f.(crypto := f.crypto.(cachedPendingKeys := Some(pendingKeys),
                                         passphraseKeyDerivationParams := params,
                                         requiredUserAction := action)))
  }

  predicate CheckPassphraseAgainstPendingKeys(c: CryptoState, passphrase: string)
  {
    c.cachedPendingKeys.Some? && CheckPassphrase(c.cachedPendingKeys.value, c.passphraseKeyDerivationParams, passphrase)
  }

  function OnPassphraseAccepted(f: Fixture): Fixture
  {
    Reconfigured(f.(crypto := f.crypto.(cachedPendingKeys := None, requiredUserAction := NoActionRequired)))
  }

  function SetDecryptionPassphrase(f: Fixture, passphrase: string): (Fixture, bool)
    requires CheckPassphraseAgainstPendingKeys(f.crypto, passphrase) ==> f.crypto.engineBound
  {
    if !CheckPassphraseAgainstPendingKeys(f.crypto, passphrase) then (f, false)
    else
      var f1 := f.(engine := f.engine.(passphrases := f.engine.passphrases + [passphrase]));
      var f2 := if f.engine.confirmsPassphrase then OnPassphraseAccepted(f1) else f1;
      (OnPassphraseAccepted(f2), true)
  }

  // ------------------------------------------------------------ properties

  /**
   * A second "key required" signal changes nothing, and from an idle bound
   * coordinator a burst of signals issues exactly one fetch.
   */
  lemma RequireIsIdempotent(f: Fixture)
    ensures OnTrustedVaultKeyRequired(OnTrustedVaultKeyRequired(f)) == OnTrustedVaultKeyRequired(f)
    ensures OnTrustedVaultKeyRequired(f).client.fetchCount <= f.client.fetchCount + 1
    ensures f.crypto.engineBound && f.crypto.requiredUserAction == NoActionRequired ==>
      OnTrustedVaultKeyRequired(f).client.fetchCount == f.client.fetchCount + 1 &&
      OnTrustedVaultKeyRequired(OnTrustedVaultKeyRequired(f)).client.fetchCount == f.client.fetchCount + 1
  {
  }

  /**
   * Before an engine is bound a "key required" signal is remembered but
   * starts no fetch, and no user action is exposed.
   */
  lemma RequireBeforeBindingIsBuffered(f: Fixture)
    requires !f.crypto.engineBound && f.crypto.requiredUserAction == NoActionRequired
    ensures OnTrustedVaultKeyRequired(f).client == f.client
    ensures OnTrustedVaultKeyRequired(f).crypto.requiredUserAction == FetchingTrustedVaultKeys
    ensures !IsTrustedVaultKeyRequired(OnTrustedVaultKeyRequired(f).crypto)
  {
  }

  /**
   * Binding the engine replays a buffered signal: exactly one fetch, for the
   * bound account, with nothing exposed as required while it is in flight.
   */
  lemma BindingReplaysBufferedRequire(f: Fixture, account: CoreAccountInfo)
    requires f.crypto.requiredUserAction == FetchingTrustedVaultKeys
    ensures var r := SetSyncEngine(f, account);
      r.client.fetchCount == f.client.fetchCount + 1 &&
      r.client.pendingResponses == f.client.pendingResponses + [StoredKeys(f.client, account.gaia)] &&
      !r.crypto.deferredTrustedVaultKeyFetch &&
      !IsTrustedVaultKeyRequired(r.crypto)
  {
  }

  /** A change notification during a fetch starts nothing and only records that a refetch is due. */
  lemma ChangeDuringFetchIsDeferred(f: Fixture, gaia: GaiaId, keys: Keys)
    requires IsFetchingAction(f.crypto.requiredUserAction)
    ensures var r := StoreKeys(f, gaia, keys);
      r.client.fetchCount == f.client.fetchCount &&
      r.client.pendingResponses == f.client.pendingResponses &&
      r.crypto == f.crypto.(deferredTrustedVaultKeyFetch := true)
  {
  }

  /** With keys required and no fetch in flight, a change notification fetches at once. */
  lemma ChangeWhileRequiredRefetches(f: Fixture, gaia: GaiaId, keys: Keys)
    requires f.crypto.requiredUserAction == TrustedVaultKeyRequired
    ensures var r := StoreKeys(f, gaia, keys);
      r.client.fetchCount == f.client.fetchCount + 1 &&
      r.client.pendingResponses == f.client.pendingResponses +
        [if gaia == f.crypto.accountInfo.gaia then keys else StoredKeys(f.client, f.crypto.accountInfo.gaia)] &&
      r.crypto.requiredUserAction == TrustedVaultKeyRequiredButFetching &&
      IsTrustedVaultKeyRequired(r.crypto)
  {
  }

  /** The engine accepts the keys of a completed fetch at once. */
  predicate AcceptsSynchronously(e: MockEngine, keys: Keys)
  {
    e.behaviour.AcceptSynchronouslyIf? && e.behaviour.acceptedKeys == keys
  }

  /**
   * A completed fetch issues at most one new fetch, and it issues one exactly
   * when a change arrived during the fetch and the fetched keys were not
   * accepted by the time the engine's done callback ran.
   */
  lemma CompletionFetchesAtMostOnce(f: Fixture)
    ensures var r := CompleteFetchKeysRequest(f).0;
      var refetch := |f.client.pendingResponses| > 0 &&
        IsFetchingAction(f.crypto.requiredUserAction) &&
        f.crypto.deferredTrustedVaultKeyFetch &&
        (|f.client.pendingResponses[0]| == 0 ||
         (f.engine.behaviour.AcceptSynchronouslyIf? && !AcceptsSynchronously(f.engine, f.client.pendingResponses[0])));
      r.client.fetchCount == f.client.fetchCount + (if refetch then 1 else 0)
  {
  }

  /**
   * A fetch that returns no keys never reaches the engine: the coordinator
   * exposes the keys as required with one reconfigure (or refetches if a
   * change arrived meanwhile), and nothing is marked stale.
   */
  lemma EmptyFetchResultSkipsEngine(f: Fixture)
    requires |f.client.pendingResponses| > 0 && |f.client.pendingResponses[0]| == 0
    requires IsFetchingAction(f.crypto.requiredUserAction) && !f.crypto.deferredTrustedVaultKeyFetch
    ensures var r := CompleteFetchKeysRequest(f);
      r.1 && r.0.engine == f.engine &&
      r.0.crypto.requiredUserAction == TrustedVaultKeyRequired &&
      r.0.crypto.reconfigureCount == f.crypto.reconfigureCount + 1 &&
      r.0.client.keysMarkedAsStale == f.client.keysMarkedAsStale
  {
  }

  /**
   * The done callback after an engine that did not accept: the keys are
   * marked stale, and (with no change pending) the keys become required with
   * one reconfigure.
   */
  lemma RejectedKeysAreMarkedStale(f: Fixture)
    requires f.engine.heldDone
    requires IsFetchingAction(f.crypto.requiredUserAction) && !f.crypto.deferredTrustedVaultKeyFetch
    ensures var r := RunHeldDoneCallback(f);
      r.client.keysMarkedAsStale &&
      IsTrustedVaultKeyRequired(r.crypto) &&
      r.crypto.reconfigureCount == f.crypto.reconfigureCount + 1 &&
      r.client.fetchCount == f.client.fetchCount
  {
  }

  /**
   * Acceptance before the done callback: the required bit is cleared with
   * exactly one reconfigure, and the done callback then marks nothing stale.
   */
  lemma AcceptedKeysAreNotMarkedStale(f: Fixture)
    requires f.engine.heldDone && IsTrustedVaultAction(f.crypto.requiredUserAction)
    ensures var r := RunHeldDoneCallback(OnTrustedVaultKeyAccepted(f));
      !IsTrustedVaultKeyRequired(r.crypto) &&
      r.crypto.reconfigureCount == f.crypto.reconfigureCount + 1 &&
      r.client == f.client
  {
  }

  // ------------------------------------------------- passphrase challenge

  lemma PassphraseRequiredIsExposed(f: Fixture, reason: PassphraseRequiredReason, params: KeyDerivationParams,
                                    pendingKeys: EncryptedData)
    ensures var r := OnPassphraseRequired(f, reason, params, pendingKeys);
      IsPassphraseRequired(r.crypto) && !IsTrustedVaultKeyRequired(r.crypto) &&
      r.crypto.cachedPendingKeys == Some(pendingKeys) &&
      r.crypto.reconfigureCount == f.crypto.reconfigureCount + 1 &&
      r.client == f.client && r.engine == f.engine
  {
  }

  /** A wrong candidate is a local failure: false, and nothing changes. */
  lemma WrongPassphraseIsRejected(f: Fixture, passphrase: string)
    requires !CheckPassphraseAgainstPendingKeys(f.crypto, passphrase)
    ensures SetDecryptionPassphrase(f, passphrase) == (f, false)
  {
  }

  /**
   * The right candidate is forwarded to the engine once and accepted: one
   * reconfigure right away and one more when the engine confirms.
   */
  lemma CorrectPassphraseIsAccepted(f: Fixture, passphrase: string)
    requires CheckPassphraseAgainstPendingKeys(f.crypto, passphrase) && f.crypto.engineBound
    ensures var (r, ok) := SetDecryptionPassphrase(f, passphrase);
      ok && !IsPassphraseRequired(r.crypto) && r.crypto.cachedPendingKeys == None &&
      r.engine.passphrases == f.engine.passphrases + [passphrase] &&
      r.crypto.reconfigureCount == f.crypto.reconfigureCount + (if f.engine.confirmsPassphrase then 2 else 1) &&
      r.client == f.client
  {
  }

  /** After a challenge made from `passphrase`, exactly that passphrase is accepted. */
  lemma PassphraseChallengeAcceptsOnlyItsPassphrase(f: Fixture, reason: PassphraseRequiredReason,
                                                    params: KeyDerivationParams, passphrase: string, candidate: string)
    requires f.crypto.engineBound
    ensures var f1 := OnPassphraseRequired(f, reason, params, MakeEncryptedData(passphrase, params));
      SetDecryptionPassphrase(f1, candidate).1 <==> candidate == passphrase
  {
    PassphraseRoundTrip(passphrase, params, candidate);
  }

  // ------------------------------------------------ event sequences

  /**
   * The inputs of the trusted-vault protocol with an engine that answers
   * synchronously: the engine's "key required" signal, binding (once), a
   * vault change for any account, and the vault answering a fetch.
   */
  datatype Event =
    | KeyRequired
    | BindEngine(account: CoreAccountInfo)
    | KeysStored(gaia: GaiaId, keys: Keys)
    | FetchCompleted

  predicate Allowed(f: Fixture, e: Event)
  {
    e.BindEngine? ==> !f.crypto.engineBound
  }

  function Apply(f: Fixture, e: Event): Fixture
  {
    match e
    case KeyRequired => OnTrustedVaultKeyRequired(f)
    case BindEngine(account) => SetSyncEngine(f, account)
    case KeysStored(gaia, keys) => StoreKeys(f, gaia, keys)
    case FetchCompleted => CompleteFetchKeysRequest(f).0
  }

  function Run(f: Fixture, events: seq<Event>): Fixture
    decreases |events|
  {
    if |events| == 0 then f else Run(Apply(f, events[0]), events[1..])
  }

  predicate Admissible(f: Fixture, events: seq<Event>)
    decreases |events|
  {
    |events| == 0 || (Allowed(f, events[0]) && Admissible(Apply(f, events[0]), events[1..]))
  }

  /**
   * The protocol invariant: at most one response is outstanding, one is
   * outstanding exactly while the bound coordinator is fetching, nothing
   * happens before binding but buffering, and a fetch with no change since it
   * started carries the keys the vault holds now (no change is lost).
   */
  ghost predicate Inv(f: Fixture)
  {
    f.engine.behaviour.AcceptSynchronouslyIf? && !f.engine.heldDone &&
    !IsPassphraseAction(f.crypto.requiredUserAction) &&
    |f.client.pendingResponses| <= 1 &&
    (|f.client.pendingResponses| == 1 <==> f.crypto.engineBound && IsFetchingAction(f.crypto.requiredUserAction)) &&
    (!f.crypto.engineBound ==>
       f.crypto.requiredUserAction == NoActionRequired || f.crypto.requiredUserAction == FetchingTrustedVaultKeys) &&
    (f.crypto.engineBound && IsFetchingAction(f.crypto.requiredUserAction) && !f.crypto.deferredTrustedVaultKeyFetch ==>
       f.client.pendingResponses == [StoredKeys(f.client, f.crypto.accountInfo.gaia)])
  }

  lemma InitialFixtureSatisfiesInv(accepted: Keys, confirmsPassphrase: bool)
    ensures Inv(InitialFixture(AcceptSynchronouslyIf(accepted), confirmsPassphrase))
  {
  }

  /** The completion of the single outstanding fetch keeps the invariant. */
  lemma CompletionPreservesInv(f: Fixture)
    requires Inv(f)
    ensures Inv(CompleteFetchKeysRequest(f).0)
  {
    if |f.client.pendingResponses| > 0 {
      var keys := f.client.pendingResponses[0];
      var f1 := f.(client := f.client.(pendingResponses := []));
      assert CompleteFetchKeysRequest(f).0 == TrustedVaultKeysFetchedFromClient(f1, keys);
      if |keys| > 0 {
        var f2 := f1.(engine := f1.engine.(addedKeys := f1.engine.addedKeys + [keys]));
        var f3 := if keys == f.engine.behaviour.acceptedKeys then OnTrustedVaultKeyAccepted(f2) else f2;
        assert AddTrustedVaultDecryptionKeys(f1, keys) == TrustedVaultKeysAdded(f3);
      }
    }
  }

  lemma EventPreservesInv(f: Fixture, e: Event)
    requires Inv(f) && Allowed(f, e)
    ensures Inv(Apply(f, e))
    ensures Apply(f, e).client.fetchCount <= f.client.fetchCount + 1
  {
    match e
    case KeyRequired =>
    case BindEngine(account) =>
    case KeysStored(gaia, keys) =>
    case FetchCompleted =>
      CompletionPreservesInv(f);
      CompletionFetchesAtMostOnce(f);
  }

  /**
   * Single flight along any admissible event sequence: never more than one
   * outstanding FetchKeys() request, and the invariant holds throughout.
   */
  lemma {:induction false} SingleFlight(f: Fixture, events: seq<Event>)
    requires Inv(f) && Admissible(f, events)
    ensures Inv(Run(f, events))
    ensures |Run(f, events).client.pendingResponses| <= 1
    decreases |events|
  {
    if |events| > 0 {
      EventPreservesInv(f, events[0]);
      SingleFlight(Apply(f, events[0]), events[1..]);
    }
  }
}
