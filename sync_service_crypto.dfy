/**
 * The coordinator and its test collaborators as objects updated in place:
 * TestTrustedVaultClient (the in-memory vault), MockSyncEngine (the mocked
 * engine and what it was called with) and SyncServiceCrypto. Every method
 * performs exactly the step of the same name in TrustedVaultProtocol, so the
 * properties proved there hold of these objects.
 */
module SyncServiceCryptoFixture {
  import opened Wrappers
  import opened Nigori
  import P = TrustedVaultProtocol

  class TestTrustedVaultClient {
    var gaiaIdToKeys: map<P.GaiaId, P.Keys>
    var fetchCount: nat
    var keysMarkedAsStale: bool
    var pendingResponses: seq<P.Keys>

    ghost function Model(): P.VaultClient
      reads this
    {
      P.VaultClient(gaiaIdToKeys, fetchCount, keysMarkedAsStale, pendingResponses)
    }

    constructor ()
      ensures Model() == P.InitialClient
    {
      gaiaIdToKeys := map[];
      fetchCount := 0;
      keysMarkedAsStale := false;
      pendingResponses := [];
    }

    method FetchKeys(account: P.CoreAccountInfo)
      modifies this
      ensures Model() == P.ClientFetchKeys(old(Model()), account)
    {
      fetchCount := fetchCount + 1;
      keysMarkedAsStale := false;
      var keys := if account.gaia in gaiaIdToKeys then gaiaIdToKeys[account.gaia] else [];
      gaiaIdToKeys := gaiaIdToKeys[account.gaia := keys];
      pendingResponses := pendingResponses + [keys];
    }

    /** The store part of StoreKeys; the notification is sent by the caller. */
    method StoreKeys(gaia: P.GaiaId, keys: P.Keys)
      modifies this
      ensures Model() == P.ClientStoreKeys(old(Model()), gaia, keys)
    {
      gaiaIdToKeys := gaiaIdToKeys[gaia := keys];
    }

    method MarkKeysAsStale() returns (result: bool)
      modifies this
      ensures (Model(), result) == P.ClientMarkKeysAsStale(old(Model()))
    {
      keysMarkedAsStale := true;
      result := false;
    }

    /** The FIFO pop of CompleteFetchKeysRequest. */
    method TakeResponse() returns (response: Option<P.Keys>)
      modifies this
      ensures (Model(), response) == P.ClientTakeResponse(old(Model()))
    {
      if |pendingResponses| == 0 {
        return None;
      }
      response := Some(pendingResponses[0]);
      pendingResponses := pendingResponses[1..];
    }
  }

  class MockSyncEngine {
    const behaviour: P.EngineBehaviour
    const confirmsPassphrase: bool
    var addedKeys: seq<P.Keys>
    var passphrases: seq<string>
    var heldDone: bool

    ghost function Model(): P.MockEngine
      reads this
    {
      P.MockEngine(behaviour, confirmsPassphrase, addedKeys, passphrases, heldDone)
    }

    constructor (behaviour: P.EngineBehaviour, confirmsPassphrase: bool)
      ensures Model() == P.MockEngine(behaviour, confirmsPassphrase, [], [], false)
    {
      this.behaviour := behaviour;
      this.confirmsPassphrase := confirmsPassphrase;
      addedKeys := [];
      passphrases := [];
      heldDone := false;
    }
  }

  class SyncServiceCrypto {
    const client: TestTrustedVaultClient
    /** The test's engine; `engineBound` says whether SetSyncEngine handed it over. */
    const engine: MockSyncEngine
    var requiredUserAction: P.RequiredUserAction
    var deferredTrustedVaultKeyFetch: bool
    var engineBound: bool
    var accountInfo: P.CoreAccountInfo
    var cachedPendingKeys: Option<EncryptedData>
    var passphraseKeyDerivationParams: KeyDerivationParams
    var reconfigureCount: nat

    /** The coordinator's own state, as the protocol sees it. */
    ghost function Crypto(): P.CryptoState
      reads this
    {
      P.CryptoState(requiredUserAction, deferredTrustedVaultKeyFetch, engineBound, accountInfo,
                    cachedPendingKeys, passphraseKeyDerivationParams, reconfigureCount)
    }

    ghost function Model(): P.Fixture
      reads this, client, engine
    {
      P.Fixture(Crypto(), client.Model(), engine.Model())
    }

    constructor (client: TestTrustedVaultClient, engine: MockSyncEngine)
      ensures this.client == client && this.engine == engine
      ensures Model() == P.Fixture(P.InitialCrypto, client.Model(), engine.Model())
    {
      this.client := client;
      this.engine := engine;
      requiredUserAction := P.NoActionRequired;
      deferredTrustedVaultKeyFetch := false;
      engineBound := false;
      accountInfo := P.DefaultAccount;
      cachedPendingKeys := None;
      passphraseKeyDerivationParams := Pbkdf2;
      reconfigureCount := 0;
    }

    function IsTrustedVaultKeyRequired(): (r: bool)
      reads this
      ensures r == P.IsTrustedVaultKeyRequired(Crypto())
    {
      requiredUserAction == P.TrustedVaultKeyRequired || requiredUserAction == P.TrustedVaultKeyRequiredButFetching
    }

    function IsPassphraseRequired(): (r: bool)
      reads this
      ensures r == P.IsPassphraseRequired(Crypto())
    {
      requiredUserAction == P.PassphraseRequiredForDecryption || requiredUserAction == P.PassphraseRequiredForEncryption
    }

    method FetchTrustedVaultKeys()
      modifies this, client
      ensures Model() == P.FetchTrustedVaultKeys(old(Model()))
    {
      deferredTrustedVaultKeyFetch := false;
      client.FetchKeys(accountInfo);
    }

    method OnTrustedVaultKeyRequired()
      modifies this, client
      ensures Model() == P.OnTrustedVaultKeyRequired(old(Model()))
    {
      if requiredUserAction != P.NoActionRequired {
        return;
      }
      requiredUserAction := P.FetchingTrustedVaultKeys;
      if !engineBound {
        return;
      }
      FetchTrustedVaultKeys();
    }

    method SetSyncEngine(account: P.CoreAccountInfo)
      modifies this, client
      ensures Model() == P.SetSyncEngine(old(Model()), account)
    {
      accountInfo := account;
      engineBound := true;
      if requiredUserAction == P.FetchingTrustedVaultKeys {
        FetchTrustedVaultKeys();
      }
    }

    method OnTrustedVaultKeysChanged()
      modifies this, client
      ensures Model() == P.OnTrustedVaultKeysChanged(old(Model()))
    {
      match requiredUserAction {
        case NoActionRequired =>
        case PassphraseRequiredForDecryption =>
        case PassphraseRequiredForEncryption =>
        case FetchingTrustedVaultKeys =>
          deferredTrustedVaultKeyFetch := true;
        case TrustedVaultKeyRequiredButFetching =>
          deferredTrustedVaultKeyFetch := true;
        case TrustedVaultKeyRequired =>
          requiredUserAction := P.TrustedVaultKeyRequiredButFetching;
          FetchTrustedVaultKeys();
      }
    }

    method OnTrustedVaultKeyAccepted()
      modifies this
      ensures Model() == P.OnTrustedVaultKeyAccepted(old(Model()))
    {
      if !P.IsTrustedVaultAction(requiredUserAction) {
        return;
      }
      requiredUserAction := P.NoActionRequired;
      reconfigureCount := reconfigureCount + 1;
    }

    method FetchTrustedVaultKeysCompletedButInsufficient()
      modifies this, client
      ensures Model() == P.FetchTrustedVaultKeysCompletedButInsufficient(old(Model()))
    {
      if deferredTrustedVaultKeyFetch {
        FetchTrustedVaultKeys();
        return;
      }
      requiredUserAction := P.TrustedVaultKeyRequired;
      reconfigureCount := reconfigureCount + 1;
    }

    method TrustedVaultKeysMarkedAsStale()
      modifies this, client
      ensures Model() == P.TrustedVaultKeysMarkedAsStale(old(Model()))
    {
      if !P.IsFetchingAction(requiredUserAction) {
        return;
      }
      FetchTrustedVaultKeysCompletedButInsufficient();
    }

    method TrustedVaultKeysAdded()
      modifies this, client
      ensures Model() == P.TrustedVaultKeysAdded(old(Model()))
    {
      if !P.IsFetchingAction(requiredUserAction) {
        return;
      }
      var _ := client.MarkKeysAsStale();
      TrustedVaultKeysMarkedAsStale();
    }

    /** The mocked engine's AddTrustedVaultDecryptionKeys, calling back into the coordinator. */
    method AddTrustedVaultDecryptionKeys(keys: P.Keys)
      modifies this, client, engine
      ensures Model() == P.AddTrustedVaultDecryptionKeys(old(Model()), keys)
    {
      engine.addedKeys := engine.addedKeys + [keys];
      match engine.behaviour {
        case HoldDoneCallback =>
          engine.heldDone := true;
        case AcceptSynchronouslyIf(accepted) =>
          if keys == accepted {
            OnTrustedVaultKeyAccepted();
          }
          TrustedVaultKeysAdded();
      }
    }

    method TrustedVaultKeysFetchedFromClient(keys: P.Keys)
      modifies this, client, engine
      ensures Model() == P.TrustedVaultKeysFetchedFromClient(old(Model()), keys)
    {
      if !P.IsFetchingAction(requiredUserAction) {
        return;
      }
      if |keys| == 0 {
        FetchTrustedVaultKeysCompletedButInsufficient();
        return;
      }
      AddTrustedVaultDecryptionKeys(keys);
    }

    method OnPassphraseRequired(reason: P.PassphraseRequiredReason, params: KeyDerivationParams,
                                pendingKeys: EncryptedData)
      modifies this
      ensures Model() == P.OnPassphraseRequired(old(Model()), reason, params, pendingKeys)
    {
      cachedPendingKeys := Some(pendingKeys);
      passphraseKeyDerivationParams := params;
      match reason {
        case ReasonEncryption => requiredUserAction := P.PassphraseRequiredForEncryption;
        case ReasonDecryption => requiredUserAction := P.PassphraseRequiredForDecryption;
      }
      reconfigureCount := reconfigureCount + 1;
    }

    method CheckPassphraseAgainstPendingKeys(passphrase: string) returns (ok: bool)
      ensures ok == P.CheckPassphraseAgainstPendingKeys(Model().crypto, passphrase)
    {
      if cachedPendingKeys.None? {
        return false;
      }
      var nigori := CreateByDerivation(passphraseKeyDerivationParams, passphrase);
      ok := Permute(nigori) == cachedPendingKeys.value.keyName;
    }

    method OnPassphraseAccepted()
      modifies this
      ensures Model() == P.OnPassphraseAccepted(old(Model()))
    {
      cachedPendingKeys := None;
      requiredUserAction := P.NoActionRequired;
      reconfigureCount := reconfigureCount + 1;
    }

    method SetDecryptionPassphrase(passphrase: string) returns (ok: bool)
      requires P.CheckPassphraseAgainstPendingKeys(Model().crypto, passphrase) ==> engineBound
      modifies this, engine
      ensures (Model(), ok) == P.SetDecryptionPassphrase(old(Model()), passphrase)
    {
      ok := CheckPassphraseAgainstPendingKeys(passphrase);
      if !ok {
        return;
      }
      engine.passphrases := engine.passphrases + [passphrase];
      if engine.confirmsPassphrase {
        OnPassphraseAccepted();
      }
      OnPassphraseAccepted();
    }
  }

  /** TestTrustedVaultClient::StoreKeys with its notification to the coordinator. */
  method StoreKeys(crypto: SyncServiceCrypto, gaia: P.GaiaId, keys: P.Keys)
    modifies crypto, crypto.client
    ensures crypto.Model() == P.StoreKeys(old(crypto.Model()), gaia, keys)
  {
    crypto.client.StoreKeys(gaia, keys);
    crypto.OnTrustedVaultKeysChanged();
  }

  /** TestTrustedVaultClient::CompleteFetchKeysRequest: runs the oldest response, if any. */
  method CompleteFetchKeysRequest(crypto: SyncServiceCrypto) returns (completed: bool)
    modifies crypto, crypto.client, crypto.engine
    ensures (crypto.Model(), completed) == P.CompleteFetchKeysRequest(old(crypto.Model()))
  {
    var response := crypto.client.TakeResponse();
    if response.None? {
      return false;
    }
    crypto.TrustedVaultKeysFetchedFromClient(response.value);
    return true;
  }

  /** The test running the done callback the mocked engine kept. */
  method RunHeldDoneCallback(crypto: SyncServiceCrypto)
    requires crypto.engine.heldDone
    modifies crypto, crypto.client, crypto.engine
    ensures crypto.Model() == P.RunHeldDoneCallback(old(crypto.Model()))
  {
    crypto.engine.heldDone := false;
    crypto.TrustedVaultKeysAdded();
  }
}
