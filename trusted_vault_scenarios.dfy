/**
 * The scenarios of the coordinator's unit test, replayed on the protocol
 * model: each lemma runs the test's calls in order and states the counts and
 * flags the test checks after each of them.
 */
module TrustedVaultScenarios {
  import opened Wrappers
  import opened Nigori
  import opened TrustedVaultProtocol

  const SyncingAccount: CoreAccountInfo := CoreAccountInfo("syncingaccount")

  const InitialKeys: Keys := [[0, 1, 2, 3, 4]]
  const IntermediateKeys: Keys := [[0, 1, 2, 3, 4], [2, 3, 4, 5]]
  const LatestKeys: Keys := [[0, 1, 2, 3, 4], [2, 3, 4, 5], [3, 4]]

  /** ShouldExposePassphraseRequired. */
  lemma PassphraseRequiredScenario()
    ensures
      var f1 := SetSyncEngine(InitialFixture(HoldDoneCallback, true), DefaultAccount);
      var f2 := OnPassphraseRequired(f1, ReasonDecryption, Pbkdf2, MakeEncryptedData("somepassphrase", Pbkdf2));
      var (f3, wrongAccepted) := SetDecryptionPassphrase(f2, "wrongpassphrase");
      var (f4, rightAccepted) := SetDecryptionPassphrase(f3, "somepassphrase");
      !IsPassphraseRequired(f1.crypto) && f1.client.fetchCount == 0 &&
      IsPassphraseRequired(f2.crypto) && f2.crypto.reconfigureCount == 1 &&
      !wrongAccepted && IsPassphraseRequired(f3.crypto) && f3.crypto.reconfigureCount == 1 &&
      f3.engine.passphrases == [] &&
      rightAccepted && !IsPassphraseRequired(f4.crypto) && f4.crypto.reconfigureCount == 3 &&
      f4.engine.passphrases == ["somepassphrase"]
  {
    var f1 := SetSyncEngine(InitialFixture(HoldDoneCallback, true), DefaultAccount);
    var f2 := OnPassphraseRequired(f1, ReasonDecryption, Pbkdf2, MakeEncryptedData("somepassphrase", Pbkdf2));
    PassphraseRoundTrip("somepassphrase", Pbkdf2, "wrongpassphrase");
    WrongPassphraseIsRejected(f2, "wrongpassphrase");
    CorrectPassphraseIsAccepted(f2, "somepassphrase");
  }

  /** ShouldReadValidTrustedVaultKeysFromClientBeforeInitialization. */
  lemma ValidKeysBeforeInitializationScenario()
    ensures
      var f1 := OnTrustedVaultKeyRequired(InitialFixture(HoldDoneCallback, false));
      var f2 := StoreKeys(f1, SyncingAccount.gaia, InitialKeys);
      var f3 := SetSyncEngine(f2, SyncingAccount);
      var (f4, completed) := CompleteFetchKeysRequest(f3);
      var f5 := OnTrustedVaultKeyAccepted(f4);
      f2.client.fetchCount == 0 &&
      f3.client.fetchCount == 1 && !IsTrustedVaultKeyRequired(f3.crypto) &&
      completed && f4.engine.heldDone && f4.engine.addedKeys == [InitialKeys] &&
      !IsTrustedVaultKeyRequired(f4.crypto) && f4.crypto.reconfigureCount == 0 &&
      f5.engine.heldDone &&
      var f6 := RunHeldDoneCallback(f5);
      !IsTrustedVaultKeyRequired(f6.crypto) && f6.crypto.reconfigureCount == 1 &&
      !f6.client.keysMarkedAsStale
  {
  }

  /** ShouldReadValidTrustedVaultKeysFromClientAfterInitialization. */
  lemma ValidKeysAfterInitializationScenario()
    ensures
      var f1 := StoreKeys(InitialFixture(HoldDoneCallback, false), SyncingAccount.gaia, InitialKeys);
      var f2 := SetSyncEngine(f1, SyncingAccount);
      var f3 := OnTrustedVaultKeyRequired(f2);
      var (f4, completed) := CompleteFetchKeysRequest(f3);
      var f5 := OnTrustedVaultKeyAccepted(f4);
      f2.client.fetchCount == 0 &&
      f3.client.fetchCount == 1 && !IsTrustedVaultKeyRequired(f3.crypto) &&
      completed && f4.engine.heldDone && f4.engine.addedKeys == [InitialKeys] &&
      !IsTrustedVaultKeyRequired(f4.crypto) && f4.crypto.reconfigureCount == 0 &&
      f5.engine.heldDone &&
      var f6 := RunHeldDoneCallback(f5);
      !IsTrustedVaultKeyRequired(f6.crypto) && f6.crypto.reconfigureCount == 1 &&
      !f6.client.keysMarkedAsStale
  {
  }

  /** ShouldReadNoTrustedVaultKeysFromClientAfterInitialization. */
  lemma NoKeysAfterInitializationScenario()
    ensures
      var f1 := SetSyncEngine(InitialFixture(HoldDoneCallback, false), SyncingAccount);
      var f2 := OnTrustedVaultKeyRequired(f1);
      var (f3, completed) := CompleteFetchKeysRequest(f2);
      f1.client.fetchCount == 0 &&
      f2.client.fetchCount == 1 && !IsTrustedVaultKeyRequired(f2.crypto) &&
      completed && IsTrustedVaultKeyRequired(f3.crypto) && f3.crypto.reconfigureCount == 1 &&
      !f3.client.keysMarkedAsStale && f3.engine.addedKeys == []
  {
  }

  /** ShouldReadInvalidTrustedVaultKeysFromClient. */
  lemma InvalidKeysScenario()
    ensures
      var f1 := StoreKeys(InitialFixture(HoldDoneCallback, false), SyncingAccount.gaia, InitialKeys);
      var f2 := SetSyncEngine(f1, SyncingAccount);
      var f3 := OnTrustedVaultKeyRequired(f2);
      var (f4, completed) := CompleteFetchKeysRequest(f3);
      f2.client.fetchCount == 0 &&
      f3.client.fetchCount == 1 && !IsTrustedVaultKeyRequired(f3.crypto) &&
      completed && f4.engine.heldDone && f4.engine.addedKeys == [InitialKeys] &&
      !IsTrustedVaultKeyRequired(f4.crypto) &&
      var f5 := RunHeldDoneCallback(f4);
      f5.crypto.reconfigureCount == 1 && IsTrustedVaultKeyRequired(f5.crypto) &&
      f5.client.keysMarkedAsStale
  {
  }

  /** ShouldRefetchTrustedVaultKeysWhenChangeObserved. */
  lemma RefetchWhenChangeObservedScenario()
    ensures
      var f0 := StoreKeys(InitialFixture(AcceptSynchronouslyIf(IntermediateKeys), false),
                          SyncingAccount.gaia, InitialKeys);
      var f1 := OnTrustedVaultKeyRequired(SetSyncEngine(f0, SyncingAccount));
      var (f2, completed1) := CompleteFetchKeysRequest(f1);
      var f3 := StoreKeys(f2, SyncingAccount.gaia, IntermediateKeys);
      var (f4, completed2) := CompleteFetchKeysRequest(f3);
      f1.client.fetchCount == 1 &&
      completed1 && IsTrustedVaultKeyRequired(f2.crypto) && f2.client.keysMarkedAsStale &&
      f2.crypto.reconfigureCount == 1 &&
      f3.client.fetchCount == 2 &&
      completed2 && !IsTrustedVaultKeyRequired(f4.crypto) && !f4.client.keysMarkedAsStale &&
      f4.crypto.reconfigureCount == 2
  {
  }

  /** ShouldDeferTrustedVaultKeyFetchingWhenChangeObservedWhileOngoingFetch. */
  lemma DeferWhileOngoingFetchScenario()
    ensures
      var f0 := StoreKeys(InitialFixture(AcceptSynchronouslyIf(IntermediateKeys), false),
                          SyncingAccount.gaia, InitialKeys);
      var f1 := OnTrustedVaultKeyRequired(SetSyncEngine(f0, SyncingAccount));
      var f2 := StoreKeys(f1, SyncingAccount.gaia, IntermediateKeys);
      var (f3, completed1) := CompleteFetchKeysRequest(f2);
      var (f4, completed2) := CompleteFetchKeysRequest(f3);
      f1.client.fetchCount == 1 && !IsTrustedVaultKeyRequired(f1.crypto) &&
      f2.client.fetchCount == 1 &&
      completed1 && f3.client.fetchCount == 2 && !IsTrustedVaultKeyRequired(f3.crypto) &&
      f3.crypto.reconfigureCount == 0 &&
      completed2 && f4.client.fetchCount == 2 && !IsTrustedVaultKeyRequired(f4.crypto) &&
      f4.crypto.reconfigureCount == 1
  {
  }

  /** ShouldDeferTrustedVaultKeyFetchingWhenChangeObservedWhileOngoingRefetch. */
  lemma DeferWhileOngoingRefetchScenario()
    ensures
      var f0 := StoreKeys(InitialFixture(AcceptSynchronouslyIf(LatestKeys), false),
                          SyncingAccount.gaia, InitialKeys);
      var f1 := OnTrustedVaultKeyRequired(SetSyncEngine(f0, SyncingAccount));
      var (f2, completed1) := CompleteFetchKeysRequest(f1);
      var f3 := StoreKeys(f2, SyncingAccount.gaia, IntermediateKeys);
      var f4 := StoreKeys(f3, SyncingAccount.gaia, LatestKeys);
      var (f5, completed2) := CompleteFetchKeysRequest(f4);
      var (f6, completed3) := CompleteFetchKeysRequest(f5);
      f1.client.fetchCount == 1 &&
      completed1 && IsTrustedVaultKeyRequired(f2.crypto) && f2.crypto.reconfigureCount == 1 &&
      f3.client.fetchCount == 2 &&
      f4.client.fetchCount == 2 &&
      completed2 && f5.client.fetchCount == 3 && IsTrustedVaultKeyRequired(f5.crypto) &&
      f5.crypto.reconfigureCount == 1 &&
      completed3 && f6.client.fetchCount == 3 && !IsTrustedVaultKeyRequired(f6.crypto) &&
      f6.crypto.reconfigureCount == 2
  {
  }
}
