/**
 * The declarativeNetRequest ActionTracker: per (extension, tab) it keeps the
 * number of actions taken and the list of matched rules; matches on a
 * main-frame navigation are kept per (extension, navigation id) until the
 * navigation commits and they move onto the tab.
 *
 * The two std::maps are Dafny maps; their key order (operator< on the key) is
 * modelled by KeyLess and used where iteration order is observable
 * (GetMatchedRules without a tab id). Registry, permission and preference
 * lookups are inputs; the badge-text update is returned as a value.
 */
module ActionTracker {
  import opened Wrappers

  type ExtensionId = string

  /** extension_misc::kUnknownTabId. */
  const UnknownTabId: int := -1

  datatype SourceType = SourceTypeManifest | SourceTypeDynamic

  datatype TrackedRule = TrackedRule(ruleId: int, sourceType: SourceType)

  datatype TrackedInfo = TrackedInfo(actionCount: nat, matchedRules: seq<TrackedRule>)

  const FreshInfo: TrackedInfo := TrackedInfo(0, [])

  /** TrackedInfoContextKey: an extension and a tab id or a navigation id. */
  datatype ContextKey = ContextKey(extensionId: ExtensionId, secondaryId: int)

  type Tracked = map<ContextKey, TrackedInfo>

  datatype RequestActionType = Block | Collapse | Allow | Redirect | Upgrade | RemoveHeaders

  datatype RequestAction = RequestAction(
    actionType: RequestActionType,
    extensionId: ExtensionId,
    ruleId: int,
    sourceType: SourceType)

  datatype ResourceType = MainFrame | SubFrame | OtherResource

  datatype WebRequestInfo = WebRequestInfo(
    isNavigationRequest: bool,
    resourceType: ResourceType,
    navigationId: Option<int>,
    tabId: int)

  datatype MatchedRuleInfo = MatchedRuleInfo(ruleId: int, sourceType: SourceType, tabId: int)

  /** A call to ExtensionsAPIClient::UpdateActionCount. */
  datatype BadgeUpdate = BadgeUpdate(extensionId: ExtensionId, tabId: int, actionCount: nat)

  predicate IsMainFrameNavigationRequest(request: WebRequestInfo)
  {
    request.isNavigationRequest && request.resourceType == MainFrame
  }

  function InfoAt(m: Tracked, k: ContextKey): TrackedInfo
  {
    if k in m then m[k] else FreshInfo
  }

  // ---------------------------------------------------------------- key order

  /** std::string operator<: lexicographic on characters. */
  predicate StringLess(a: string, b: string)
  {
    if |a| == 0 then |b| > 0
    else if |b| == 0 then false
    else if a[0] != b[0] then a[0] < b[0]
    else StringLess(a[1..], b[1..])
  }

  /** operator< of the key: std::tie(secondary_id, extension_id). */
  predicate KeyLess(a: ContextKey, b: ContextKey)
  {
    a.secondaryId < b.secondaryId ||
    (a.secondaryId == b.secondaryId && StringLess(a.extensionId, b.extensionId))
  }

  lemma {:induction false} StringLessIrreflexive(a: string)
    ensures !StringLess(a, a)
  {
    if |a| > 0 { StringLessIrreflexive(a[1..]); }
  }

  lemma {:induction false} StringLessTransitive(a: string, b: string, c: string)
    requires StringLess(a, b) && StringLess(b, c)
    ensures StringLess(a, c)
  {
    if |a| > 0 && |b| > 0 && |c| > 0 && a[0] == b[0] && b[0] == c[0] {
      StringLessTransitive(a[1..], b[1..], c[1..]);
    }
  }

  lemma {:induction false} StringLessTotal(a: string, b: string)
    requires a != b
    ensures StringLess(a, b) || StringLess(b, a)
  {
    if |a| > 0 && |b| > 0 && a[0] == b[0] {
      assert a == [a[0]] + a[1..] && b == [b[0]] + b[1..];
      StringLessTotal(a[1..], b[1..]);
    }
  }

  /** The key order is a strict total order, so the maps' iteration order is well defined. */
  lemma KeyLessIsStrictTotalOrder(a: ContextKey, b: ContextKey, c: ContextKey)
    ensures !KeyLess(a, a)
    ensures KeyLess(a, b) && KeyLess(b, c) ==> KeyLess(a, c)
    ensures a != b ==> KeyLess(a, b) || KeyLess(b, a)
    ensures KeyLess(a, b) ==> !KeyLess(b, a)
  {
    StringLessIrreflexive(a.extensionId);
    if KeyLess(a, b) && KeyLess(b, c) && a.secondaryId == b.secondaryId == c.secondaryId {
      StringLessTransitive(a.extensionId, b.extensionId, c.extensionId);
    }
    if a != b && a.secondaryId == b.secondaryId {
      StringLessTotal(a.extensionId, b.extensionId);
    }
    if KeyLess(a, b) && KeyLess(b, a) {
      StringLessTransitive(a.extensionId, b.extensionId, a.extensionId);
    }
  }

  predicate IsLeast(k: ContextKey, s: set<ContextKey>)
  {
    k in s && forall j {:trigger KeyLess(k, j)} :: j in s && j != k ==> KeyLess(k, j)
  }

  lemma LeastIsUnique(k1: ContextKey, k2: ContextKey, s: set<ContextKey>)
    requires IsLeast(k1, s) && IsLeast(k2, s)
    ensures k1 == k2
  {
    if k1 != k2 {
      KeyLessIsStrictTotalOrder(k1, k2, k1);
    }
  }

  /** The least key of a non-empty finite set of keys. */
  ghost function LeastKey(s: set<ContextKey>): (k: ContextKey)
    requires s != {}
    ensures IsLeast(k, s)
    decreases |s|
  {
    var x :| x in s;
    if s == {x} then x
    else
      var r := LeastKey(s - {x});
      KeyLessIsStrictTotalOrder(x, r, x);
      forall j | j in s - {x} && j != r ensures KeyLess(r, j) && (KeyLess(x, r) ==> KeyLess(x, j)) {
        KeyLessIsStrictTotalOrder(x, r, j);
      }
      if KeyLess(x, r) then x else r
  }

  /** The keys of a map in its iteration order (ascending KeyLess). */
  ghost function OrderedKeys(s: set<ContextKey>): (r: seq<ContextKey>)
    ensures |r| == |s|
    ensures forall i :: 0 <= i < |r| ==> r[i] in s
    decreases |s|
  {
    if s == {} then []
    else
      var k := LeastKey(s);
      [k] + OrderedKeys(s - {k})
  }

  /** The first key in iteration order is the least one, and the others follow in the order of the rest. */
  lemma OrderedKeysAt(s: set<ContextKey>, n: nat)
    requires n < |OrderedKeys(s)|
    ensures n == 0 ==> OrderedKeys(s)[n] == LeastKey(s)
    ensures n > 0 ==> OrderedKeys(s)[n] == OrderedKeys(s - {LeastKey(s)})[n - 1]
  {
  }

  /** Iteration visits every key of the map. */
  lemma {:induction false} OrderedKeysComplete(s: set<ContextKey>, k: ContextKey)
    requires k in s
    ensures k in OrderedKeys(s)
    decreases |s|
  {
    var least := LeastKey(s);
    assert OrderedKeys(s) == [least] + OrderedKeys(s - {least});
    if k != least {
      OrderedKeysComplete(s - {least}, k);
    }
  }

  /** Iteration order is strictly ascending. */
  lemma {:induction false} OrderedKeysAscending(s: set<ContextKey>, i: nat, j: nat)
    requires i < j < |OrderedKeys(s)|
    ensures KeyLess(OrderedKeys(s)[i], OrderedKeys(s)[j])
    decreases |s|
  {
    if i == 0 {
      OrderedKeysHeadIsLeast(s, j);
    } else {
      var k := LeastKey(s);
      OrderedKeysAt(s, i);
      OrderedKeysAt(s, j);
      OrderedKeysAscending(s - {k}, i - 1, j - 1);
    }
  }

  /** The first key in iteration order is below every later one. */
  lemma OrderedKeysHeadIsLeast(s: set<ContextKey>, j: nat)
    requires 0 < j < |OrderedKeys(s)|
    ensures KeyLess(OrderedKeys(s)[0], OrderedKeys(s)[j])
  {
    var k := LeastKey(s);
    OrderedKeysAt(s, 0);
    OrderedKeysAt(s, j);
    var rest := OrderedKeys(s - {k});
    assert rest[j - 1] in s - {k};
    LeastIsBelow(k, s, rest[j - 1]);
  }

  lemma LeastIsBelow(k: ContextKey, s: set<ContextKey>, x: ContextKey)
    requires IsLeast(k, s) && x in s && x != k
    ensures KeyLess(k, x)
  {
  }

  /** For one extension, iterating the whole map visits its tab ids in ascending order. */
  lemma OrderedKeysOfOneExtension(s: set<ContextKey>, i: nat, j: nat)
    requires i < j < |OrderedKeys(s)|
    requires OrderedKeys(s)[i].extensionId == OrderedKeys(s)[j].extensionId
    ensures OrderedKeys(s)[i].secondaryId < OrderedKeys(s)[j].secondaryId
  {
    OrderedKeysAscending(s, i, j);
    StringLessIrreflexive(OrderedKeys(s)[i].extensionId);
  }

  // ---------------------------------------------------------- pure operations

  /**
   * The update OnRuleMatched makes to one entry: the rule is recorded only
   * with the feedback permission, and the count grows only for a known tab
   * and an action other than allow.
   */
  function RecordMatch(info: TrackedInfo, action: RequestAction, tabId: int, hasFeedbackPermission: bool): (r: TrackedInfo)
    ensures r.actionCount == info.actionCount + 1 <==> tabId != UnknownTabId && action.actionType != Allow
    ensures r.actionCount == info.actionCount <==> !(tabId != UnknownTabId && action.actionType != Allow)
    ensures hasFeedbackPermission ==> r.matchedRules == info.matchedRules + [TrackedRule(action.ruleId, action.sourceType)]
    ensures !hasFeedbackPermission ==> r.matchedRules == info.matchedRules
  {
    var rules := if hasFeedbackPermission
                 then info.matchedRules + [TrackedRule(action.ruleId, action.sourceType)]
                 else info.matchedRules;
    var increment := tabId != UnknownTabId && action.actionType != Allow;
    TrackedInfo(if increment then info.actionCount + 1 else info.actionCount, rules)
  }

  /**
   * base::EraseIf on a tracking map: the entries whose key satisfies `p` go,
   * the rest stay as they were.
   */
  function EraseIf(m: Tracked, p: ContextKey -> bool): (r: Tracked)
    ensures forall k :: k in r <==> k in m && !p(k)
    ensures forall k :: k in r ==> r[k] == m[k]
  {
    map k | k in m && !p(k) :: m[k]
  }

  /** Key `k` is the unknown-tab entry that receives the rules of its extension on `tabId`. */
  predicate ReceivesTransfer(m: Tracked, tabId: int, k: ContextKey)
  {
    k.secondaryId == UnknownTabId && ContextKey(k.extensionId, tabId) in m
  }

  /** The unknown-tab keys TransferRulesOnTabInvalid needs for extensions in `exts`. */
  function UnknownKeysFor(m: Tracked, tabId: int, exts: set<ExtensionId>): set<ContextKey>
  {
    set k | k in m && k.secondaryId == tabId && k.extensionId in exts :: ContextKey(k.extensionId, UnknownTabId)
  }

  /** The transferred value for key `k` of an extension already handled. */
  function TransferredInfo(m: Tracked, tabId: int, k: ContextKey): TrackedInfo
    requires tabId != UnknownTabId
    requires k in m || (k.secondaryId == UnknownTabId && ContextKey(k.extensionId, tabId) in m)
  {
    if k.secondaryId == tabId then TrackedInfo(m[k].actionCount, [])
    else if k.secondaryId == UnknownTabId && ContextKey(k.extensionId, tabId) in m then
      TrackedInfo(InfoAt(m, k).actionCount,
                  InfoAt(m, k).matchedRules + m[ContextKey(k.extensionId, tabId)].matchedRules)
    else m[k]
  }

  /** The map once the extensions in `done` have had their `tabId` rules moved to the unknown tab. */
  function PartialTransfer(m: Tracked, tabId: int, done: set<ExtensionId>): Tracked
    requires tabId != UnknownTabId
  {
    map k | k in m.Keys + UnknownKeysFor(m, tabId, done) ::
      if k.extensionId in done then TransferredInfo(m, tabId, k) else m[k]
  }

  function ExtensionsOnTab(m: Tracked, tabId: int): set<ExtensionId>
  {
    set k | k in m && k.secondaryId == tabId :: k.extensionId
  }

  /**
   * TransferRulesOnTabInvalid as a value: each (extension, tab) rule list is
   * appended, in order, to the end of that extension's unknown-tab list and
   * emptied; no action count changes and no other entry changes.
   */
  function TransferRules(m: Tracked, tabId: int): (r: Tracked)
    requires tabId != UnknownTabId
    ensures forall k :: k in m ==> k in r && r[k].actionCount == m[k].actionCount
    ensures forall k :: k in m && k.secondaryId == tabId ==> r[k].matchedRules == []
    ensures forall e :: ContextKey(e, tabId) in m ==>
      var u := ContextKey(e, UnknownTabId);
      u in r && r[u].actionCount == InfoAt(m, u).actionCount &&
      r[u].matchedRules == InfoAt(m, u).matchedRules + m[ContextKey(e, tabId)].matchedRules
    ensures forall k :: k in r && k !in m ==>
      k.secondaryId == UnknownTabId && ContextKey(k.extensionId, tabId) in m
    ensures forall k :: k in m && k.secondaryId != tabId && !ReceivesTransfer(m, tabId, k) ==> r[k] == m[k]
  {
    var r := PartialTransfer(m, tabId, ExtensionsOnTab(m, tabId));
    forall e | ContextKey(e, tabId) in m
      ensures ContextKey(e, UnknownTabId) in r
    {
      assert e in ExtensionsOnTab(m, tabId);
      assert ContextKey(e, UnknownTabId) in UnknownKeysFor(m, tabId, ExtensionsOnTab(m, tabId));
    }
    r
  }

  /**
   * ResetTrackedInfoForTab as a value (after the transfer): the extensions
   * with rulesets, in iteration order, each set their `tabId` entry to their
   * pending entry for `navigationId`, or to a fresh entry when there is none.
   */
  function ResetTab(m: Tracked, pending: Tracked, tabId: int, navigationId: int, exts: seq<ExtensionId>): Tracked
  {
    if |exts| == 0 then m
    else
      var e := exts[|exts| - 1];
      ResetTab(m, pending, tabId, navigationId, exts[..|exts| - 1])[ContextKey(e, tabId) :=
        InfoAt(pending, ContextKey(e, navigationId))]
  }

  /**
   * After the reset every extension with rulesets has, on `tabId`, exactly its
   * former pending entry for the navigation or a fresh one; every other entry
   * is kept.
   */
  lemma {:induction false} ResetTabSpec(m: Tracked, pending: Tracked, tabId: int, navigationId: int,
                                        exts: seq<ExtensionId>)
    ensures var r := ResetTab(m, pending, tabId, navigationId, exts);
      (forall e :: e in exts ==>
         ContextKey(e, tabId) in r &&
         r[ContextKey(e, tabId)] == (if ContextKey(e, navigationId) in pending
                                     then pending[ContextKey(e, navigationId)] else FreshInfo)) &&
      (forall k :: k in r && !(k.secondaryId == tabId && k.extensionId in exts) ==> k in m && r[k] == m[k]) &&
      (forall k :: k in m ==> k in r)
  {
    if |exts| > 0 {
      var init := exts[..|exts| - 1];
      ResetTabSpec(m, pending, tabId, navigationId, init);
      assert exts == init + [exts[|exts| - 1]];
    }
  }

  /** The badge-text updates ResetTrackedInfoForTab reports, in iteration order. */
  function ResetBadges(pending: Tracked, tabId: int, navigationId: int, exts: seq<ExtensionId>,
                       useActionCountAsBadgeText: ExtensionId -> bool): seq<BadgeUpdate>
  {
    if |exts| == 0 then []
    else
      var e := exts[|exts| - 1];
      ResetBadges(pending, tabId, navigationId, exts[..|exts| - 1], useActionCountAsBadgeText) +
      (if useActionCountAsBadgeText(e)
       then [BadgeUpdate(e, tabId, InfoAt(pending, ContextKey(e, navigationId)).actionCount)] else [])
  }

  function Tagged(rules: seq<TrackedRule>, tabId: int): (r: seq<MatchedRuleInfo>)
    ensures |r| == |rules|
    ensures forall i :: 0 <= i < |r| ==>
      r[i] == MatchedRuleInfo(rules[i].ruleId, rules[i].sourceType, tabId)
  {
    seq(|rules|, i requires 0 <= i < |rules| => MatchedRuleInfo(rules[i].ruleId, rules[i].sourceType, tabId))
  }

  /** What one entry contributes to GetMatchedRules for `extensionId`. */
  function EntryRules(m: Tracked, extensionId: ExtensionId, k: ContextKey): seq<MatchedRuleInfo>
    requires k in m
  {
    if k.extensionId == extensionId then Tagged(m[k].matchedRules, k.secondaryId) else []
  }

  /** The matched rules of `extensionId`'s entries among `keys`, in the order of `keys`. */
  function RulesAlong(m: Tracked, extensionId: ExtensionId, keys: seq<ContextKey>): seq<MatchedRuleInfo>
    requires forall i :: 0 <= i < |keys| ==> keys[i] in m
  {
    if |keys| == 0 then []
    else
      EntryRules(m, extensionId, keys[0]) + RulesAlong(m, extensionId, keys[1..])
  }

  // --------------------------------------------------------------- the class

  class ActionTracker {
    var rulesTracked: Tracked
    var pendingNavigationActions: Tracked

    constructor ()
      ensures rulesTracked == map[] && pendingNavigationActions == map[]
    {
      rulesTracked := map[];
      pendingNavigationActions := map[];
    }

    /**
     * A main-frame navigation request updates only its pending entry; any
     * other request updates its (extension, tab) entry and, when the count
     * grew and the extension shows the count as badge text, reports the new
     * count.
     */
    method OnRuleMatched(action: RequestAction, request: WebRequestInfo,
                         hasFeedbackPermission: bool, useActionCountAsBadgeText: bool)
      returns (badge: Option<BadgeUpdate>)
      requires IsMainFrameNavigationRequest(request) ==> request.navigationId.Some?
      modifies this
      ensures IsMainFrameNavigationRequest(request) ==>
        var pk := ContextKey(action.extensionId, request.navigationId.value);
        pendingNavigationActions == old(pendingNavigationActions)[pk :=
          RecordMatch(InfoAt(old(pendingNavigationActions), pk), action, request.tabId, hasFeedbackPermission)] &&
        rulesTracked == old(rulesTracked) && badge == None
      ensures !IsMainFrameNavigationRequest(request) ==>
        var k := ContextKey(action.extensionId, request.tabId);
        var info := RecordMatch(InfoAt(old(rulesTracked), k), action, request.tabId, hasFeedbackPermission);
        rulesTracked == old(rulesTracked)[k := info] &&
        pendingNavigationActions == old(pendingNavigationActions) &&
        badge == if info.actionCount != InfoAt(old(rulesTracked), k).actionCount && useActionCountAsBadgeText
                 then Some(BadgeUpdate(action.extensionId, request.tabId, info.actionCount)) else None
      // The counts the tests read: one more rule exactly when the extension has feedback permission.
      ensures IsMainFrameNavigationRequest(request) ==>
        GetPendingRuleCountForTest(action.extensionId, request.navigationId.value) ==
          old(GetPendingRuleCountForTest(action.extensionId, request.navigationId.value)) +
          (if hasFeedbackPermission then 1 else 0)
      ensures !IsMainFrameNavigationRequest(request) ==>
        GetMatchedRuleCountForTest(action.extensionId, request.tabId) ==
          old(GetMatchedRuleCountForTest(action.extensionId, request.tabId)) +
          (if hasFeedbackPermission then 1 else 0)
    {
      badge := None;
      if IsMainFrameNavigationRequest(request) {
        var pk := ContextKey(action.extensionId, request.navigationId.value);
        pendingNavigationActions := pendingNavigationActions[pk :=
          RecordMatch(InfoAt(pendingNavigationActions, pk), action, request.tabId, hasFeedbackPermission)];
        return;
      }
      var k := ContextKey(action.extensionId, request.tabId);
      var before := InfoAt(rulesTracked, k);
      var info := RecordMatch(before, action, request.tabId, hasFeedbackPermission);
      rulesTracked := rulesTracked[k := info];
      if !(request.tabId != UnknownTabId && action.actionType != Allow) {
        return;
      }
      if !useActionCountAsBadgeText {
        return;
      }
      badge := Some(BadgeUpdate(action.extensionId, request.tabId, info.actionCount));
    }

    /** Removes exactly the entries of `extensionId` from both maps. */
    method ClearExtensionData(extensionId: ExtensionId)
      modifies this
      ensures rulesTracked == EraseIf(old(rulesTracked), (k: ContextKey) => k.extensionId == extensionId)
      ensures pendingNavigationActions == EraseIf(old(pendingNavigationActions), (k: ContextKey) => k.extensionId == extensionId)
    {
      rulesTracked := EraseIf(rulesTracked, (k: ContextKey) => k.extensionId == extensionId);
      pendingNavigationActions := EraseIf(pendingNavigationActions, (k: ContextKey) => k.extensionId == extensionId);
    }

    /** Moves the tab's rules to the unknown tab, then removes every entry of the tab. */
    method ClearTabData(tabId: int)
      requires tabId != UnknownTabId
      modifies this`rulesTracked
      ensures rulesTracked == EraseIf(TransferRules(old(rulesTracked), tabId), (k: ContextKey) => k.secondaryId == tabId)
      ensures forall k :: k in rulesTracked ==> k.secondaryId != tabId
      ensures forall e :: ContextKey(e, tabId) in old(rulesTracked) ==>
        ContextKey(e, UnknownTabId) in rulesTracked &&
        rulesTracked[ContextKey(e, UnknownTabId)].matchedRules ==
          InfoAt(old(rulesTracked), ContextKey(e, UnknownTabId)).matchedRules +
          old(rulesTracked)[ContextKey(e, tabId)].matchedRules
    {
      TransferRulesOnTabInvalid(tabId);
      rulesTracked := EraseIf(rulesTracked, (k: ContextKey) => k.secondaryId == tabId);
    }

    method ClearPendingNavigation(navigationId: int)
      modifies this`pendingNavigationActions
      ensures pendingNavigationActions == EraseIf(old(pendingNavigationActions), (k: ContextKey) => k.secondaryId == navigationId)
      ensures forall e :: GetPendingRuleCountForTest(e, navigationId) == 0
    {
      pendingNavigationActions := EraseIf(pendingNavigationActions, (k: ContextKey) => k.secondaryId == navigationId);
    }

    /**
     * A committed navigation in `tabId`: the tab's old rules go to the unknown
     * tab, each extension with rulesets takes over its pending entry for the
     * navigation (or starts afresh) and reports its count when it shows the
     * count as badge text, and no pending entry of the navigation remains.
     */
    method ResetTrackedInfoForTab(tabId: int, navigationId: int, extensionsWithRulesets: seq<ExtensionId>,
                                  useActionCountAsBadgeText: ExtensionId -> bool)
      returns (badges: seq<BadgeUpdate>)
      requires tabId != UnknownTabId
      modifies this
      ensures rulesTracked ==
        ResetTab(TransferRules(old(rulesTracked), tabId), old(pendingNavigationActions),
                 tabId, navigationId, extensionsWithRulesets)
      ensures pendingNavigationActions == EraseIf(old(pendingNavigationActions), (k: ContextKey) => k.secondaryId == navigationId)
      ensures badges == ResetBadges(old(pendingNavigationActions), tabId, navigationId,
                                    extensionsWithRulesets, useActionCountAsBadgeText)
      ensures forall e :: GetPendingRuleCountForTest(e, navigationId) == 0
    {
      TransferRulesOnTabInvalid(tabId);
      ghost var transferred := rulesTracked;
      badges := [];
      for i := 0 to |extensionsWithRulesets|
        invariant pendingNavigationActions == old(pendingNavigationActions)
        invariant rulesTracked ==
          ResetTab(transferred, pendingNavigationActions, tabId, navigationId, extensionsWithRulesets[..i])
        invariant badges ==
          ResetBadges(pendingNavigationActions, tabId, navigationId, extensionsWithRulesets[..i], useActionCountAsBadgeText)
      {
        var e := extensionsWithRulesets[i];
        assert extensionsWithRulesets[..i + 1][..i] == extensionsWithRulesets[..i];
        var key := ContextKey(e, navigationId);
        var tabInfo;
        if key in pendingNavigationActions {
          tabInfo := pendingNavigationActions[key];
        } else {
          tabInfo := FreshInfo;
        }
        rulesTracked := rulesTracked[ContextKey(e, tabId) := tabInfo];
        if useActionCountAsBadgeText(e) {
          badges := badges + [BadgeUpdate(e, tabId, tabInfo.actionCount)];
        }
      }
      assert extensionsWithRulesets[..|extensionsWithRulesets|] == extensionsWithRulesets;
      ClearPendingNavigation(navigationId);
    }

    /** Appends each (extension, tabId) rule list to that extension's unknown-tab list. */
    method TransferRulesOnTabInvalid(tabId: int)
      requires tabId != UnknownTabId
      modifies this`rulesTracked
      ensures rulesTracked == TransferRules(old(rulesTracked), tabId)
    {
      ghost var m := rulesTracked;
      var remaining := set k | k in rulesTracked && k.secondaryId == tabId;
      ghost var done: set<ExtensionId> := {};
      while remaining != {}
        invariant forall k :: k in remaining ==> k in m && k.secondaryId == tabId
        invariant forall k :: k in m && k.secondaryId == tabId ==> (k in remaining <==> k.extensionId !in done)
        invariant rulesTracked == PartialTransfer(m, tabId, done)
        decreases |remaining|
      {
        var k :| k in remaining;
        var e := k.extensionId;
        assert k == ContextKey(e, tabId);
        var unknownKey := ContextKey(e, UnknownTabId);
        var unknownInfo := InfoAt(rulesTracked, unknownKey);
        var value := rulesTracked[k];
        rulesTracked := rulesTracked[unknownKey :=
          TrackedInfo(unknownInfo.actionCount, unknownInfo.matchedRules + value.matchedRules)];
        rulesTracked := rulesTracked[k := TrackedInfo(value.actionCount, [])];
        TransferStep(m, tabId, done, e);
        done := done + {e};
        remaining := remaining - {k};
      }
      ExtensionsOnTabCovered(m, tabId, done);
    }

    /** The rules of one tab, tagged with that tab id; empty when the entry is absent. */
    function MatchedRulesForTab(extensionId: ExtensionId, tabId: int): (r: seq<MatchedRuleInfo>)
      reads this
      ensures ContextKey(extensionId, tabId) !in rulesTracked ==> r == []
      ensures ContextKey(extensionId, tabId) in rulesTracked ==>
        r == Tagged(rulesTracked[ContextKey(extensionId, tabId)].matchedRules, tabId)
    {
      var key := ContextKey(extensionId, tabId);
      if key !in rulesTracked then [] else Tagged(rulesTracked[key].matchedRules, tabId)
    }

    /**
     * With a tab id, that tab's rules; without one, the rules of all of the
     * extension's entries in the map's key order.
     */
    method GetMatchedRules(extensionId: ExtensionId, tabId: Option<int>) returns (r: seq<MatchedRuleInfo>)
      ensures tabId.Some? ==> r == MatchedRulesForTab(extensionId, tabId.value)
      ensures tabId.None? ==> r == RulesAlong(rulesTracked, extensionId, OrderedKeys(rulesTracked.Keys))
    {
      r := [];
      if tabId.Some? {
        var key := ContextKey(extensionId, tabId.value);
        if key !in rulesTracked {
          return;
        }
        r := AddToMatchedRules(r, rulesTracked[key].matchedRules, tabId.value);
        return;
      }
      r := RulesInKeyOrder(rulesTracked, extensionId);
    }

    function GetMatchedRuleCountForTest(extensionId: ExtensionId, tabId: int): (n: nat)
      reads this
      ensures n == |MatchedRulesForTab(extensionId, tabId)|
    {
      var key := ContextKey(extensionId, tabId);
      if key !in rulesTracked then 0 else |rulesTracked[key].matchedRules|
    }

    function GetPendingRuleCountForTest(extensionId: ExtensionId, navigationId: int): (n: nat)
      reads this
      ensures n == |InfoAt(pendingNavigationActions, ContextKey(extensionId, navigationId)).matchedRules|
    {
      var key := ContextKey(extensionId, navigationId);
      if key !in pendingNavigationActions then 0 else |pendingNavigationActions[key].matchedRules|
    }
  }

  /** The add_to_matched_rules helper: appends `rules`, tagged with `tabId`, to `matched`. */
  method AddToMatchedRules(matched: seq<MatchedRuleInfo>, rules: seq<TrackedRule>, tabId: int)
    returns (r: seq<MatchedRuleInfo>)
    ensures r == matched + Tagged(rules, tabId)
  {
    r := matched;
    var i := 0;
    while i < |rules|
      invariant 0 <= i <= |rules|
      invariant r == matched + Tagged(rules[..i], tabId)
    {
      assert Tagged(rules[..i + 1], tabId) ==
        Tagged(rules[..i], tabId) + [MatchedRuleInfo(rules[i].ruleId, rules[i].sourceType, tabId)];
      r := r + [MatchedRuleInfo(rules[i].ruleId, rules[i].sourceType, tabId)];
      i := i + 1;
    }
    assert rules[..i] == rules;
  }

  /** The walk of GetMatchedRules over the whole map, in ascending key order. */
  method RulesInKeyOrder(m: Tracked, extensionId: ExtensionId) returns (r: seq<MatchedRuleInfo>)
    ensures r == RulesAlong(m, extensionId, OrderedKeys(m.Keys))
  {
    r := [];
    var remaining := m.Keys;
    while remaining != {}
      invariant remaining <= m.Keys
      invariant r + RulesAlong(m, extensionId, OrderedKeys(remaining)) ==
        RulesAlong(m, extensionId, OrderedKeys(m.Keys))
      decreases |remaining|
    {
      assert IsLeast(LeastKey(remaining), remaining);
      var k :| IsLeast(k, remaining);
      RulesAlongLeast(m, extensionId, remaining, k);
      var next := r;
      if k.extensionId == extensionId {
        next := AddToMatchedRules(r, m[k].matchedRules, k.secondaryId);
      }
      ghost var entry := EntryRules(m, extensionId, k);
      ghost var rest := RulesAlong(m, extensionId, OrderedKeys(remaining - {k}));
      assert next == r + entry;
      AppendAssociative(r, entry, rest);
      r := next;
      remaining := remaining - {k};
    }
  }

  lemma AppendAssociative<T>(a: seq<T>, b: seq<T>, c: seq<T>)
    ensures (a + b) + c == a + (b + c)
  {
  }

  /** Visiting the least remaining key first splits the ordered walk into that entry and the rest. */
  lemma RulesAlongLeast(m: Tracked, extensionId: ExtensionId, s: set<ContextKey>, k: ContextKey)
    requires s <= m.Keys && IsLeast(k, s)
    ensures RulesAlong(m, extensionId, OrderedKeys(s)) ==
      EntryRules(m, extensionId, k) + RulesAlong(m, extensionId, OrderedKeys(s - {k}))
  {
    LeastIsUnique(k, LeastKey(s), s);
    assert OrderedKeys(s) == [k] + OrderedKeys(s - {k});
    assert OrderedKeys(s)[1..] == OrderedKeys(s - {k});
  }

  /** One step of the transfer loop: handling extension `e` extends the partial transfer by `e`. */
  lemma TransferStep(m: Tracked, tabId: int, done: set<ExtensionId>, e: ExtensionId)
    requires tabId != UnknownTabId
    requires ContextKey(e, tabId) in m && e !in done
    ensures
      var p := PartialTransfer(m, tabId, done);
      var u := ContextKey(e, UnknownTabId);
      var k := ContextKey(e, tabId);
      p[u := TrackedInfo(InfoAt(p, u).actionCount, InfoAt(p, u).matchedRules + p[k].matchedRules)]
       [k := TrackedInfo(p[k].actionCount, [])] == PartialTransfer(m, tabId, done + {e})
  {
    var p := PartialTransfer(m, tabId, done);
    var u := ContextKey(e, UnknownTabId);
    var k := ContextKey(e, tabId);
    assert InfoAt(p, u) == InfoAt(m, u);
    assert p[k] == m[k];
    var lhs := p[u := TrackedInfo(InfoAt(p, u).actionCount, InfoAt(p, u).matchedRules + p[k].matchedRules)]
               [k := TrackedInfo(p[k].actionCount, [])];
    var rhs := PartialTransfer(m, tabId, done + {e});
    assert u in UnknownKeysFor(m, tabId, done + {e});
    assert UnknownKeysFor(m, tabId, done + {e}) == UnknownKeysFor(m, tabId, done) + {u};
    assert lhs.Keys == rhs.Keys;
    forall x | x in lhs.Keys ensures lhs[x] == rhs[x] {
    }
  }

  lemma ExtensionsOnTabCovered(m: Tracked, tabId: int, done: set<ExtensionId>)
    requires tabId != UnknownTabId
    requires forall k :: k in m && k.secondaryId == tabId ==> k.extensionId in done
    ensures PartialTransfer(m, tabId, done) == TransferRules(m, tabId)
  {
    var all := ExtensionsOnTab(m, tabId);
    assert UnknownKeysFor(m, tabId, done) == UnknownKeysFor(m, tabId, all);
    var a := PartialTransfer(m, tabId, done);
    var b := PartialTransfer(m, tabId, all);
    forall x | x in a.Keys ensures a[x] == b[x] {
    }
  }
}
