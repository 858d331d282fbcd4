# Chromium state machines and registries in Dafny

This project models five single-threaded pieces of Chromium and proves
properties of them.

- **Sync crypto coordinator (trusted vault and passphrase).** This is
  `SyncServiceCrypto` as its unit test drives it. The test's in-memory
  `TestTrustedVaultClient` holds a map from gaia id to keys, a FIFO queue of
  pending fetch responses, a fetch counter and a stale flag. The mocked sync
  engine either keeps the done callback or accepts one key list at once.
  - `trusted_vault_protocol.dfy` puts the three objects together in one
    `Fixture` value, with one pure step function per callback. It proves
    buffering before an engine is bound, single-flight fetching over event
    sequences, deferred (not dropped) refetches, exact fetch and reconfigure
    counts, and the one-slot passphrase challenge.
  - `sync_service_crypto.dfy` has the same objects as classes updated in
    place. Every method is proved to perform exactly its step function.
  - `trusted_vault_scenarios.dfy` replays each TEST_F and states the counts
    and flags the test expects.
  - `nigori.dfy` is an abstract, injective key derivation.
- **`ActionTracker` (declarativeNetRequest), in `action_tracker.dfy`.** It
  keeps two ordered maps: (extension, tab) and (extension, navigation id),
  each mapped to an action count and a list of matched rules. The model
  covers recording a match, erasing by extension, tab or navigation, moving
  a tab's rules to the unknown tab, moving pending navigation state onto a
  tab, and the queries. The maps' key order (`operator<`) is modelled, and
  proved to be a strict total order, so the iteration order of
  `GetMatchedRules` is stated exactly.
- **`InteractionHandlerAndroid` (autofill assistant), in
  `interaction_handler.dfy`.** It covers the registry from event key to an
  ordered callback list, with its listening flag; the converters from event
  and callback protos; the validation done by the ShowListPopup callback;
  and running an event's callbacks.
- **`PerformanceHintsObserver`, in `performance_hints.dfy`.** It covers the
  first-match hint lookup and the repopulation of the (pattern, hint) list
  when a navigation finishes.
- **`WebTestClientImpl::SetPermission`, in `web_test_permissions.dfy`.** It
  covers the mapping from permission name to `PermissionType`.

`sync_service_crypto.cc` is not part of this model. The coordinator's
behaviour is reconstructed from `sync_service_crypto_unittest.cc`: from the
calls its tests make and the results they expect. Where the tests allow
more than one reading, the model takes one and says so below.

## Model

| member | source | states |
|---|---|---|
| TrustedVaultProtocol.ClientFetchKeys | components/sync/driver/sync_service_crypto_unittest.cc:94-102 | FetchKeys counts the call and clears the stale flag. It queues one response holding the keys stored for the account at request time, and leaves every account's stored keys unchanged. |
| TrustedVaultProtocol.ClientStoreKeys | components/sync/driver/sync_service_crypto_unittest.cc:104-109 | StoreKeys overwrites exactly one account's keys. The counter, the stale flag and the queue are unchanged. |
| TrustedVaultProtocol.ClientTakeResponse | components/sync/driver/sync_service_crypto_unittest.cc:77-86 | CompleteFetchKeysRequest takes the oldest queued response and removes it. There is no response exactly when the queue is empty, and then nothing changes. |
| TrustedVaultProtocol.ClientMarkKeysAsStale | components/sync/driver/sync_service_crypto_unittest.cc:111-115 | MarkKeysAsStale sets the stale flag and answers false. Nothing else changes. |
| TrustedVaultProtocol.ResponsesCompleteInRequestOrder | components/sync/driver/sync_service_crypto_unittest.cc:76-102 | Two fetches complete in FIFO order. Each completes with the keys stored when it was requested, and a third completion finds the queue empty. |
| TrustedVaultProtocol.ResponseUsesKeysAtRequestTime | components/sync/driver/sync_service_crypto_unittest.cc:100-107 | A StoreKeys after a FetchKeys does not change the keys that fetch returns. |
| TrustedVaultProtocol.RequireIsIdempotent | components/sync/driver/sync_service_crypto_unittest.cc:197-209 | A repeated "key required" signal changes nothing. One signal starts at most one fetch, and from an idle coordinator with a bound engine one signal issues exactly one fetch, as do two signals in a row. |
| TrustedVaultProtocol.RequireBeforeBindingIsBuffered | components/sync/driver/sync_service_crypto_unittest.cc:197-205 | Before an engine is bound, a "key required" signal starts no fetch and leaves the client untouched. It is remembered as a fetching state, and the key is not reported as required. |
| TrustedVaultProtocol.BindingReplaysBufferedRequire | components/sync/driver/sync_service_crypto_unittest.cc:206-209 | Binding the engine after a buffered signal issues exactly one fetch, for the bound account's stored keys. No refetch is pending, and the key is not reported as required while the fetch is in flight. |
| TrustedVaultProtocol.ChangeDuringFetchIsDeferred | components/sync/driver/sync_service_crypto_unittest.cc:415-420 | A vault change during a fetch starts no fetch and queues nothing. It only records that a refetch is due. |
| TrustedVaultProtocol.ChangeWhileRequiredRefetches | components/sync/driver/sync_service_crypto_unittest.cc:366-375 | With the key required and no fetch in flight, a vault change fetches once, at once, with the newly stored keys. The key stays reported as required while the fetch runs. |
| TrustedVaultProtocol.CompletionFetchesAtMostOnce | components/sync/driver/sync_service_crypto_unittest.cc:420-432 | A completed fetch starts at most one new fetch. It starts one exactly when a change arrived during the fetch and the fetched keys were empty, or were not accepted by a synchronously answering engine. |
| TrustedVaultProtocol.EmptyFetchResultSkipsEngine | components/sync/driver/sync_service_crypto_unittest.cc:276-295 | A fetch that returns no keys does not reach the engine. The key becomes required with exactly one reconfigure, and nothing is marked stale. |
| TrustedVaultProtocol.RejectedKeysAreMarkedStale | components/sync/driver/sync_service_crypto_unittest.cc:316-333 | When the done callback runs before the keys are accepted, they are marked stale and the key becomes required. There is one reconfigure and no new fetch. |
| TrustedVaultProtocol.AcceptedKeysAreNotMarkedStale | components/sync/driver/sync_service_crypto_unittest.cc:215-227 | Acceptance before the done callback clears the required state with exactly one reconfigure. The done callback then leaves the client, stale flag included, unchanged. |
| TrustedVaultProtocol.PassphraseRequiredIsExposed | components/sync/driver/sync_service_crypto_unittest.cc:160-166 | OnPassphraseRequired reports the passphrase as required, caches the pending keys and reconfigures once. The client and the engine are unchanged. |
| TrustedVaultProtocol.WrongPassphraseIsRejected | components/sync/driver/sync_service_crypto_unittest.cc:168-173 | A candidate that fails the check is refused, and nothing changes: no reconfigure and no engine call. |
| TrustedVaultProtocol.CorrectPassphraseIsAccepted | components/sync/driver/sync_service_crypto_unittest.cc:175-183 | A candidate that passes the check is forwarded to the engine once and accepted. The passphrase is no longer required, the cache is cleared, and it costs one reconfigure plus one more when the engine confirms. |
| TrustedVaultProtocol.PassphraseChallengeAcceptsOnlyItsPassphrase | components/sync/driver/sync_service_crypto_unittest.cc:161-180 | After a challenge made from a passphrase, SetDecryptionPassphrase accepts a candidate exactly when it is that passphrase. |
| TrustedVaultProtocol.InitialFixtureSatisfiesInv | components/sync/driver/sync_service_crypto_unittest.cc:125-151 | The fixture as the test sets it up satisfies the protocol invariant. |
| TrustedVaultProtocol.CompletionPreservesInv | components/sync/driver/sync_service_crypto_unittest.cc:384-433 | Completing the single outstanding fetch preserves the protocol invariant: at most one outstanding response, and no change lost. |
| TrustedVaultProtocol.EventPreservesInv | components/sync/driver/sync_service_crypto_unittest.cc:438-498 | Each allowed event preserves the protocol invariant and adds at most one fetch. |
| TrustedVaultProtocol.SingleFlight | components/sync/driver/sync_service_crypto_unittest.cc:384-498 | Along any admissible event sequence the invariant holds, and there is never more than one outstanding FetchKeys request. |
| TrustedVaultScenarios.PassphraseRequiredScenario | components/sync/driver/sync_service_crypto_unittest.cc:153-184 | ShouldExposePassphraseRequired: the required flag, the reconfigure count and the passphrases forwarded after each step, with no fetch. |
| TrustedVaultScenarios.ValidKeysBeforeInitializationScenario | components/sync/driver/sync_service_crypto_unittest.cc:186-228 | The test's fetch counts (0, then 1), required flags, the single reconfigure and the unset stale flag. |
| TrustedVaultScenarios.ValidKeysAfterInitializationScenario | components/sync/driver/sync_service_crypto_unittest.cc:230-269 | The test's fetch counts, required flags, the single reconfigure and the unset stale flag. |
| TrustedVaultScenarios.NoKeysAfterInitializationScenario | components/sync/driver/sync_service_crypto_unittest.cc:271-296 | An empty fetch: no engine call, one reconfigure, the key required, nothing stale. |
| TrustedVaultScenarios.InvalidKeysScenario | components/sync/driver/sync_service_crypto_unittest.cc:298-334 | Rejected keys: one fetch, one reconfigure, the key required and the keys marked stale. |
| TrustedVaultScenarios.RefetchWhenChangeObservedScenario | components/sync/driver/sync_service_crypto_unittest.cc:340-380 | A change while the key is required refetches at once (fetch count 2), and acceptance clears the required flag with one reconfigure. |
| TrustedVaultScenarios.DeferWhileOngoingFetchScenario | components/sync/driver/sync_service_crypto_unittest.cc:384-433 | A change during the fetch is deferred (count stays 1), runs once on completion (2) and is not repeated (still 2). |
| TrustedVaultScenarios.DeferWhileOngoingRefetchScenario | components/sync/driver/sync_service_crypto_unittest.cc:438-498 | The same deferral during a refetch: fetch counts 1, 2, 2, 3, 3 as the test expects. |
| Nigori.Decrypt | components/sync/driver/sync_service_crypto_unittest.cc:29-44 | Decryption succeeds exactly with the keys the blob was encrypted with. |
| Nigori.MakeEncryptedData | components/sync/driver/sync_service_crypto_unittest.cc:29-44 | The test's pending keys decrypt to "test" under the keys derived from the passphrase. |
| Nigori.KeyNameIsInjective | components/sync/driver/sync_service_crypto_unittest.cc:29-44 | Two derivations give the same key name exactly when their parameters and passphrases are equal. |
| Nigori.PassphraseRoundTrip | components/sync/driver/sync_service_crypto_unittest.cc:29-44 | Data made from a passphrase passes the key-name check exactly for that passphrase. |
| SyncServiceCryptoFixture.TestTrustedVaultClient.FetchKeys | components/sync/driver/sync_service_crypto_unittest.cc:94-102 | The in-place client performs ClientFetchKeys on its fields. |
| SyncServiceCryptoFixture.TestTrustedVaultClient.StoreKeys | components/sync/driver/sync_service_crypto_unittest.cc:104-109 | The in-place client performs ClientStoreKeys. |
| SyncServiceCryptoFixture.TestTrustedVaultClient.MarkKeysAsStale | components/sync/driver/sync_service_crypto_unittest.cc:111-115 | The in-place client performs ClientMarkKeysAsStale and returns its answer. |
| SyncServiceCryptoFixture.TestTrustedVaultClient.TakeResponse | components/sync/driver/sync_service_crypto_unittest.cc:77-83 | The FIFO pop, as ClientTakeResponse. |
| SyncServiceCryptoFixture.SyncServiceCrypto.IsTrustedVaultKeyRequired | components/sync/driver/sync_service_crypto_unittest.cc:197-227 | Answers TrustedVaultProtocol.IsTrustedVaultKeyRequired of the object's protocol state, the predicate the scenario lemmas state the tests' expectations with. That is true exactly in the two key-required states, so it is false in the plain fetching state a bare "key required" signal leads to. |
| SyncServiceCryptoFixture.SyncServiceCrypto.IsPassphraseRequired | components/sync/driver/sync_service_crypto_unittest.cc:160-183 | Answers TrustedVaultProtocol.IsPassphraseRequired of the object's protocol state, the predicate the passphrase scenario lemmas use. That is true exactly in the two passphrase-required states. |
| SyncServiceCryptoFixture.SyncServiceCrypto.OnTrustedVaultKeyRequired | components/sync/driver/sync_service_crypto_unittest.cc:197-209 | The new state of coordinator, client and engine is the protocol step OnTrustedVaultKeyRequired of the old state. |
| SyncServiceCryptoFixture.SyncServiceCrypto.SetSyncEngine | components/sync/driver/sync_service_crypto_unittest.cc:206-209 | The new state is the protocol step SetSyncEngine of the old state. |
| SyncServiceCryptoFixture.SyncServiceCrypto.OnTrustedVaultKeysChanged | components/sync/driver/sync_service_crypto_unittest.cc:340-433 | The new state is the protocol step OnTrustedVaultKeysChanged of the old state. |
| SyncServiceCryptoFixture.SyncServiceCrypto.OnTrustedVaultKeyAccepted | components/sync/driver/sync_service_crypto_unittest.cc:215-227 | The new state is the protocol step OnTrustedVaultKeyAccepted of the old state. |
| SyncServiceCryptoFixture.SyncServiceCrypto.TrustedVaultKeysAdded | components/sync/driver/sync_service_crypto_unittest.cc:316-333 | The new state is the protocol step of the engine's done callback. |
| SyncServiceCryptoFixture.SyncServiceCrypto.TrustedVaultKeysFetchedFromClient | components/sync/driver/sync_service_crypto_unittest.cc:276-295 | The new state is the protocol step run when a fetch response arrives. |
| SyncServiceCryptoFixture.SyncServiceCrypto.OnPassphraseRequired | components/sync/driver/sync_service_crypto_unittest.cc:160-166 | The new state is the protocol step OnPassphraseRequired of the old state. |
| SyncServiceCryptoFixture.SyncServiceCrypto.CheckPassphraseAgainstPendingKeys | components/sync/driver/sync_service_crypto_unittest.cc:168-180 | Answers the protocol's passphrase check and changes nothing. |
| SyncServiceCryptoFixture.SyncServiceCrypto.SetDecryptionPassphrase | components/sync/driver/sync_service_crypto_unittest.cc:168-183 | The new state and the answer are the protocol step SetDecryptionPassphrase. |
| SyncServiceCryptoFixture.StoreKeys | components/sync/driver/sync_service_crypto_unittest.cc:104-109 | Storing keys in the client and notifying the coordinator performs the protocol step StoreKeys. |
| SyncServiceCryptoFixture.CompleteFetchKeysRequest | components/sync/driver/sync_service_crypto_unittest.cc:77-86 | Completing the oldest fetch performs the protocol step CompleteFetchKeysRequest and returns its answer. |
| SyncServiceCryptoFixture.RunHeldDoneCallback | components/sync/driver/sync_service_crypto_unittest.cc:316-333 | Running the held done callback performs the protocol step RunHeldDoneCallback. |
| ActionTracker.KeyLessIsStrictTotalOrder | extensions/browser/api/declarative_net_request/action_tracker.cc:283-288 | The key order, lexicographic on (secondary id, extension id), is irreflexive, transitive, total and asymmetric. |
| ActionTracker.StringLessTotal | extensions/browser/api/declarative_net_request/action_tracker.cc:283-288 | Lexicographic string order is total on distinct strings. |
| ActionTracker.StringLessTransitive | extensions/browser/api/declarative_net_request/action_tracker.cc:283-288 | Lexicographic string order is transitive. |
| ActionTracker.OrderedKeysComplete | extensions/browser/api/declarative_net_request/action_tracker.cc:237-243 | Iteration visits every key of the map. |
| ActionTracker.OrderedKeysAscending | extensions/browser/api/declarative_net_request/action_tracker.cc:237-243 | The map's iteration order is strictly ascending in the key order. |
| ActionTracker.OrderedKeysOfOneExtension | extensions/browser/api/declarative_net_request/action_tracker.cc:237-243 | Iterating the whole map visits one extension's tab ids in ascending order. |
| ActionTracker.RecordMatch | extensions/browser/api/declarative_net_request/action_tracker.cc:72-89 | The count grows by one exactly when the tab is known and the action is not allow; otherwise it is unchanged. The rule is appended exactly when the extension has the feedback permission; otherwise the list is unchanged. |
| ActionTracker.EraseIf | extensions/browser/api/declarative_net_request/action_tracker.cc:136-167 | Exactly the entries whose key fails the predicate remain, with their values unchanged. The three clear operations use it with the extension id, the tab id and the navigation id. |
| ActionTracker.TransferRules | extensions/browser/api/declarative_net_request/action_tracker.cc:342-359 | Each (extension, tab) rule list is appended, in order, to the end of that extension's unknown-tab list and then emptied. No action count changes, the only new keys are unknown-tab keys receiving rules, and every other entry is unchanged. |
| ActionTracker.ResetTabSpec | extensions/browser/api/declarative_net_request/action_tracker.cc:186-207 | Afterwards each extension with rulesets has on the tab exactly its former pending entry for the navigation, or a fresh entry. Every other entry is kept. |
| ActionTracker.Tagged | extensions/browser/api/declarative_net_request/action_tracker.cc:361-374 | One MatchedRuleInfo per tracked rule, in order, each carrying the rule id, source type and tab id. |
| ActionTracker.ActionTracker.OnRuleMatched | extensions/browser/api/declarative_net_request/action_tracker.cc:56-117 | A main-frame navigation request updates only its pending (extension, navigation id) entry and leaves the tab map untouched. Any other request updates only its (extension, tab) entry. The badge update is reported exactly when the count grew and the extension shows the count as badge text. The pending or per-tab rule count grows by one exactly when the extension has the feedback permission. |
| ActionTracker.ActionTracker.ClearExtensionData | extensions/browser/api/declarative_net_request/action_tracker.cc:136-143 | Both maps lose exactly the extension's entries. |
| ActionTracker.ActionTracker.ClearTabData | extensions/browser/api/declarative_net_request/action_tracker.cc:145-157 | No key with the tab id remains. The tab's rules are preserved at the end of the unknown-tab lists. |
| ActionTracker.ActionTracker.ClearPendingNavigation | extensions/browser/api/declarative_net_request/action_tracker.cc:159-167 | Exactly the pending entries of the navigation are removed, so every extension's pending count for it is 0. |
| ActionTracker.ActionTracker.ResetTrackedInfoForTab | extensions/browser/api/declarative_net_request/action_tracker.cc:169-212 | The tab's rules are first transferred, then each extension with rulesets takes over its pending entry or a fresh one. Badge updates are reported in iteration order, and no pending entry of the navigation remains. |
| ActionTracker.ActionTracker.TransferRulesOnTabInvalid | extensions/browser/api/declarative_net_request/action_tracker.cc:342-359 | The in-place loop leaves the map equal to TransferRules of the old map. |
| ActionTracker.ActionTracker.MatchedRulesForTab | extensions/browser/api/declarative_net_request/action_tracker.cc:226-235 | The entry's rules tagged with the tab id, or nothing when the entry is absent. |
| ActionTracker.ActionTracker.GetMatchedRules | extensions/browser/api/declarative_net_request/action_tracker.cc:214-246 | With a tab id, that entry's tagged rules (or none). Without one, all of the extension's entries concatenated in ascending key order, each tagged with its own tab id. |
| ActionTracker.ActionTracker.GetMatchedRuleCountForTest | extensions/browser/api/declarative_net_request/action_tracker.cc:248-256 | The number of matched rules GetMatchedRules returns for that tab; 0 for an absent entry. |
| ActionTracker.ActionTracker.GetPendingRuleCountForTest | extensions/browser/api/declarative_net_request/action_tracker.cc:258-266 | The number of rules recorded for the extension on the pending navigation; 0 when it has no pending entry. OnRuleMatched on a main-frame navigation request raises it by one exactly when the extension has the feedback permission; ClearPendingNavigation and ResetTrackedInfoForTab leave it 0 for every extension on that navigation. |
| ActionTracker.AddToMatchedRules | extensions/browser/api/declarative_net_request/action_tracker.cc:219-224 | Appends the rules, tagged with the tab id and in order, to the output. |
| ActionTracker.RulesInKeyOrder | extensions/browser/api/declarative_net_request/action_tracker.cc:237-243 | The loop over the map in key order collects exactly the extension's entries in ascending key order. |
| InteractionHandler.CreateEventKeyFromProto | chrome/browser/android/autofill_assistant/interaction_handler_android.cc:129-161 | A value-changed event is keyed by its model identifier. A click event has a key only when the view exists. An unset kind has no key. |
| InteractionHandler.CreateInteractionCallbackFromProto | chrome/browser/android/autofill_assistant/interaction_handler_android.cc:163-204 | No callback exactly when SetValue's identifier is empty, ShowListPopup's item-names or selected-indices identifier is empty, or the kind is unset. Otherwise the callback keeps the proto's data. |
| InteractionHandler.ListPopupFor | chrome/browser/android/autofill_assistant/interaction_handler_android.cc:50-101 | A popup is shown exactly when the item names exist and are non-empty, explicit item types (if given) exist and match the names in number, and the selected indices exist and are unset or ints. The shown popup carries the names, the types (one ENABLED per name by default) and the indices. |
| InteractionHandler.ShowListPopupOnModel | chrome/browser/android/autofill_assistant/interaction_handler_android.cc:41-127 | The callback's guard chain and default-type loop compute exactly ListPopupFor. |
| InteractionHandler.RunCallbacksAppend | chrome/browser/android/autofill_assistant/interaction_handler_android.cc:268-276 | Running a concatenated list is running its first part and then its second part on the model the first part left. |
| InteractionHandler.RunCallbacksOnlySetsValues | chrome/browser/android/autofill_assistant/interaction_handler_android.cc:22-29 | Only SetValue callbacks change the user model. Each writes the event's value under its identifier, and every other entry is unchanged. |
| InteractionHandler.RegisterCallbacksSpec | chrome/browser/android/autofill_assistant/interaction_handler_android.cc:249-258 | Registering one callback list only extends the target key's list. It succeeds exactly when every callback converts. |
| InteractionHandler.RegisterInteractionsSpec | chrome/browser/android/autofill_assistant/interaction_handler_android.cc:241-259 | Registration succeeds exactly when every trigger and callback is valid. What was registered before a failure stays registered, so there is no rollback. |
| InteractionHandler.RegisterCallbacksContents | chrome/browser/android/autofill_assistant/interaction_handler_android.cc:249-258 | On success the key's list is its former list followed by the converted callbacks, in order. |
| InteractionHandler.RegisterInteractionsContents | chrome/browser/android/autofill_assistant/interaction_handler_android.cc:241-259 | On success every key holds its former callbacks followed by those the interactions contribute to it, in list order. |
| InteractionHandler.RegisterCallbacksStop | chrome/browser/android/autofill_assistant/interaction_handler_android.cc:251-254 | The first failing callback fixes the outcome: failure, with what was registered before it. |
| InteractionHandler.RegisterInteractionsStop | chrome/browser/android/autofill_assistant/interaction_handler_android.cc:243-254 | A failure inside one interaction fixes the outcome of the whole list. |
| InteractionHandler.AddThenRun | chrome/browser/android/autofill_assistant/interaction_handler_android.cc:262-276 | After AddInteraction, firing the key runs the former callbacks and then the new one. |
| InteractionHandler.InteractionHandlerAndroid.StartListening | chrome/browser/android/autofill_assistant/interaction_handler_android.cc:220-223 | Sets the listening flag. |
| InteractionHandler.InteractionHandlerAndroid.StopListening | chrome/browser/android/autofill_assistant/interaction_handler_android.cc:225-228 | Clears the listening flag. |
| InteractionHandler.InteractionHandlerAndroid.AddInteraction | chrome/browser/android/autofill_assistant/interaction_handler_android.cc:262-266 | Appends the callback to the end of its key's list; every other key is unchanged. |
| InteractionHandler.InteractionHandlerAndroid.AddInteractionsFromProto | chrome/browser/android/autofill_assistant/interaction_handler_android.cc:230-260 | While listening: false, and nothing is added. Otherwise the result and the new registry are those of RegisterInteractions, whose meaning the lemmas above state. |
| InteractionHandler.InteractionHandlerAndroid.OnEvent | chrome/browser/android/autofill_assistant/interaction_handler_android.cc:268-276 | Runs each callback registered under the key once, in insertion order. For an unregistered key it is a no-op. |
| PerformanceHints.FirstMatchIndex | chrome/browser/performance_hints/performance_hints_observer.cc:43-47 | The index of the first pair whose pattern matches. No earlier pair matches, and the index is the length when none matches. |
| PerformanceHints.HintIn | chrome/browser/performance_hints/performance_hints_observer.cc:37-48 | None for an invalid URL. Otherwise the hint of the first matching pair in order, or none exactly when no pair matches. |
| PerformanceHints.PatternHintsOf | chrome/browser/performance_hints/performance_hints_observer.cc:90-93 | One pair per metadata hint, in metadata order, each with a pattern built from that hint's wildcard pattern. |
| PerformanceHints.HintAfterNavigationIsFirstMatchingHint | chrome/browser/performance_hints/performance_hints_observer.cc:37-48 | After a successful navigation, looking up a valid URL finds the first metadata hint whose own wildcard pattern matches it. |
| PerformanceHints.PerformanceHintsObserver.HintForURL | chrome/browser/performance_hints/performance_hints_observer.cc:37-48 | Reads the state only. Returns none for an invalid URL, and otherwise the first matching pair's hint or none. |
| PerformanceHints.PerformanceHintsObserver.DidFinishNavigation | chrome/browser/performance_hints/performance_hints_observer.cc:51-94 | Subframe, same-document and uncommitted navigations keep the hints. The hints are otherwise cleared, and stay empty without a decider, on an error page, or when the decision is not true. On success they are the metadata's pairs, in order. |
| WebTestPermissions.PermissionTypeForName | content/shell/browser/web_test/web_test_client_impl.cc:110-147 | Exactly the four sensor names give SENSORS, exactly "midi" gives MIDI and exactly "midi-sysex" gives MIDI_SYSEX; likewise for GEOLOCATION and NFC. |
| WebTestPermissions.NotificationsNames | content/shell/browser/web_test/web_test_client_impl.cc:115-116 | NOTIFICATIONS is given exactly for the two notification aliases and for every unlisted name (the fallback at lines 144-147). |
| WebTestPermissions.PermissionTypeMatchesTable | content/shell/browser/web_test/web_test_client_impl.cc:110-147 | The comparison chain agrees with the table of twenty listed names and falls back to NOTIFICATIONS for any other name. |
| WebTestPermissions.KnownNameIsListed | content/shell/browser/web_test/web_test_client_impl.cc:111-143 | Every listed name maps to its table entry. |
| WebTestPermissions.MidiNamesAreDistinct | content/shell/browser/web_test/web_test_client_impl.cc:111-114 | Matching is whole-string: "midi" is MIDI, "midi-sysex" is MIDI_SYSEX, and "midi-" falls back. |

## Left out

- The sync coordinator's own source, `sync_service_crypto.cc`, is not part of
  this model. Its behaviour is reconstructed from the unit test, and these
  choices follow from that:
  - OnTrustedVaultKeyAccepted reconfigures at once.
  - The engine's done callback does nothing more once the keys were
    accepted, so no deferred refetch follows an acceptance.
  - The answer of MarkKeysAsStale is ignored. The test client always answers
    false, so the path where the answer is true is not modelled.
- The notify-observers callback, the mocked prefs and the gmock
  expectations of the unit test. The model records calls as counters and
  lists instead.
- The Nigori key derivation, Permute and encryption. They are cryptography,
  so they are modelled as injective constructors. The UNSUPPORTED
  derivation method is not modelled.
- TestTrustedVaultClient.StoreKeys ignores `last_key_version`, so the model
  has no such parameter.
- TrustedVaultProtocol.OnTrustedVaultKeyRequired and
  TrustedVaultProtocol.OnPassphraseRequired: the model keeps one
  RequiredUserAction for the coordinator rather than separate passphrase
  and trusted-vault states. No test requires a passphrase and a trusted
  vault key together, so the tests do not decide between the two readings.
  Three things follow:
  - A passphrase requirement that arrives during a fetch replaces the
    fetching state. The fetch's response is then dropped by the
    fetching-state guard and no retry follows.
  - A "key required" signal is ignored while a passphrase is required.
  - A "key required" signal in the idle key-required state, with no fetch
    outstanding, starts no new fetch. Only a vault change or the done
    callback refetches from there, so a repeated signal is not a retry.
- TrustedVaultProtocol.SingleFlight: proved only for four events: "key
  required", binding once, a vault change and a fetch completion, with an
  engine that answers synchronously. A spontaneous acceptance, passphrase
  events and rebinding can leave an outdated response queued, so they are
  not among the events.
- TrustedVaultProtocol.SetDecryptionPassphrase: requires an engine to be
  bound when the check passes, since the coordinator forwards the passphrase
  to the engine.
- ActionTracker's foreign services are inputs: the extension registry, the
  feedback-permission check and the badge-text preference.
  `UpdateActionCount` is returned as a value. `extensions_with_rulesets()`
  is an ordered sequence rather than a set.
- `DispatchOnRuleMatchedDebugIfNeeded` and its event routing are not
  modelled, nor is `CreateRequestDetails`. They are foreign event-router
  calls.
- `OnPreferenceEnabled` is not modelled; it is outside the modelled members.
  The destructor's consistency checks are not modelled either.
- ActionTracker.ActionTracker.OnRuleMatched,
  ActionTracker.ActionTracker.ClearTabData,
  ActionTracker.ActionTracker.ResetTrackedInfoForTab and
  ActionTracker.ActionTracker.TransferRulesOnTabInvalid: the source's debug
  checks are preconditions. These are a navigation id for a main-frame
  request, and a tab id other than the unknown tab.
- ActionTracker.StringLess: compares characters by code point. `std::string`
  compares bytes as unsigned char, and the two agree on extension ids, which
  are ASCII.
- The JNI and Java side of InteractionHandlerAndroid is not modelled: views,
  click listeners, the info popup and the list popup. Showing a popup is
  recorded as a UiEffect value, and a view is known by its identifier only.
- InteractionHandler.InteractionHandlerAndroid.StartListening and
  InteractionHandler.InteractionHandlerAndroid.StopListening: only the
  listening flag is modelled. Adding and removing the handler as the user
  model's observer is not. OnEvent is therefore not gated on the flag; it
  models a call made while the handler is listening.
- Weak pointers are not modelled. The user model's weak pointer is assumed
  live, and the ShowListPopup weak-pointer check always passes.
- InteractionHandler.ItemTypeEnabled: the value of
  `ShowListPopupProto::ENABLED` is defined outside the modelled files and is
  taken to be 1. Only its being the default matters to the model.
- The values of ValueProto kinds other than strings and ints are reduced to
  booleans or "not set". Only the kind matters to the checks.
- The URL pattern matcher and the OptimizationGuideDecider are abstract. The
  matcher is a function parameter, and the decider is a function fixed at
  construction.
- The `NOTREACHED()` in SetPermission is a debug-only check. Release builds
  fall through to NOTIFICATIONS, which is what the model does.
- The permission status and origins passed on by SetPermission go to a
  foreign service and are not modelled.
