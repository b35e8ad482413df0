/** The process-swap decision for a navigation: a first-match-wins chain that keeps the
    source process, hands the choice to domain-based selection, or names a process to use. */
module NavigationPolicy {
  import opened Wrappers
  import opened PoolTypes

  datatype Decision =
    | KeepSourceProcess(reason: Reason)
    | SelectByDomain(reason: Reason)
    | UseProcess(process: ProcessId, suspendedPage: Option<SuspendedPage>, reason: Reason)

  /** The URL the same-site test compares against: the requester's origin for a page opened
      by the DOM still showing its initial empty document, otherwise the page's URL; an empty
      result falls back to the related page's URL. */
  function EffectiveSourceURL(navigation: Navigation, page: PageContext, pageSourceURL: URL): (u: URL)
    // the requester's origin, for a page opened by the DOM showing its initial empty document
    ensures page.isPageOpenedByDOMShowingInitialEmptyDocument && navigation.requesterOrigin.Some? ==>
              var origin := navigation.requesterOrigin.value;
              if !origin.isEmpty || page.relatedPageURL.None? then u == origin
              else Some(u) == page.relatedPageURL
    // otherwise the page's own URL
    ensures !(page.isPageOpenedByDOMShowingInitialEmptyDocument && navigation.requesterOrigin.Some?) ==>
              if !pageSourceURL.isEmpty || page.relatedPageURL.None? then u == pageSourceURL
              else Some(u) == page.relatedPageURL
    // so an empty source URL is replaced by the related page's URL whenever there is one
    ensures u.isEmpty ==> page.relatedPageURL.None? || page.relatedPageURL == Some(u)
  {
    var url := if page.isPageOpenedByDOMShowingInitialEmptyDocument && navigation.requesterOrigin.Some?
               then navigation.requesterOrigin.value
               else pageSourceURL;
    if url.isEmpty && page.relatedPageURL.Some? then page.relatedPageURL.value else url
  }

  /** The navigation stays in its process as same-site when either URL is invalid, the source
      is empty or about:, or the target's registrable domain matches the source. */
  predicate IsSameSite(sourceURL: URL, targetURL: URL)
    // between two valid URLs, the source neither empty nor about:, only the domains decide
    ensures sourceURL.isValid && targetURL.isValid && !sourceURL.isEmpty && !sourceURL.protocolIsAbout ==>
              (IsSameSite(sourceURL, targetURL) <==> targetURL.registrableDomain == sourceURL.registrableDomain)
  {
    || !sourceURL.isValid
    || !targetURL.isValid
    || sourceURL.isEmpty
    || sourceURL.protocolIsAbout
    || targetURL.registrableDomain == sourceURL.registrableDomain
  }

  /** processForIdentifier followed by the not-Terminated test: the item's last process,
      when the pool still knows it and it is alive. */
  function LiveLastProcess(records: map<ProcessId, WebProcess>, item: BackForwardItem): (r: Option<ProcessId>)
    ensures r.Some? <==> item.lastProcessIdentifier.Some? && item.lastProcessIdentifier.value in records
                         && !records[item.lastProcessIdentifier.value].terminated
    ensures r.Some? ==> r == item.lastProcessIdentifier
  {
    match item.lastProcessIdentifier
    case Some(p) => if p in records && !records[p].terminated then Some(p) else None
    case None => None
  }

  /** In keep-and-reuse mode, the process swapped away from the target's domain, when it
      uses the navigation's data store. */
  function ReusableSwappedProcess(
    configuration: Configuration, records: map<ProcessId, WebProcess>,
    swapped: map<Domain, ProcessId>, domain: Domain, dataStore: DataStore): (r: Option<ProcessId>)
    requires forall d :: d in swapped ==> swapped[d] in records
    ensures r.Some? <==> configuration.alwaysKeepAndReuseSwappedProcesses && domain in swapped
                         && records[swapped[domain]].dataStore == Some(dataStore)
    ensures r.Some? ==> r.value == swapped[domain]
  {
    if configuration.alwaysKeepAndReuseSwappedProcesses && domain in swapped
       && records[swapped[domain]].dataStore == Some(dataStore)
    then Some(swapped[domain])
    else None
  }

  /** None of the exits that look only at the pool and the source process applies: the
      decision goes on to the navigation's own opener and frames. */
  predicate ReachesOpenerChecks(
    configuration: Configuration, automationSessionActive: bool, sourceHasCommitted: bool,
    requestedByClient: bool)
  {
    && !configuration.usesSingleWebProcess
    && !requestedByClient
    && configuration.processSwapsOnNavigation
    && !automationSessionActive
    && sourceHasCommitted
  }

  /** No early exit applies: the decision goes on to the back/forward target item. */
  predicate ReachesTargetItem(
    configuration: Configuration, automationSessionActive: bool, sourceHasCommitted: bool,
    navigation: Navigation, requestedByClient: bool)
  {
    && ReachesOpenerChecks(configuration, automationSessionActive, sourceHasCommitted, requestedByClient)
    && !(navigation.openedByDOMWithOpener && !configuration.processSwapsOnWindowOpenWithOpener)
    && !navigation.hasOpenedFrames
  }

  /** Neither the target item's suspended page nor its last process decides: the decision
      goes on to the site comparison. */
  predicate ReachesSiteComparison(
    configuration: Configuration, automationSessionActive: bool, records: map<ProcessId, WebProcess>,
    source: ProcessId, navigation: Navigation, requestedByClient: bool)
    requires source in records
  {
    && ReachesTargetItem(configuration, automationSessionActive, records[source].hasCommittedAnyProvisionalLoads,
                         navigation, requestedByClient)
    && (navigation.targetItem.Some? ==>
          navigation.targetItem.value.suspendedPage.None?
          && LiveLastProcess(records, navigation.targetItem.value).None?)
  }

  predicate KeepReason(reason: Reason)
  {
    reason in {SingleWebProcessMode, FeatureDisabled, AutomationSessionActive, NoCommittedProvisionalLoads,
               OpenedByDOMWithOpener, HasOpenedOtherWindows, TreatAsSameOrigin, SameSite}
  }

  /** processForNavigationInternal's chain. `suspendedPageReusable` is what the target
      item's suspended page reports once it is ready to unsuspend. */
  function Decide(
    configuration: Configuration, automationSessionActive: bool,
    records: map<ProcessId, WebProcess>, swapped: map<Domain, ProcessId>,
    source: ProcessId, navigation: Navigation, page: PageContext, pageSourceURL: URL,
    requestedByClient: bool, dataStore: DataStore, suspendedPageReusable: bool): (r: Decision)
    requires source in records
    requires forall d :: d in swapped ==> swapped[d] in records
    // early exits, in order
    ensures configuration.usesSingleWebProcess ==> r == KeepSourceProcess(SingleWebProcessMode)
    ensures r.reason == SingleWebProcessMode <==> configuration.usesSingleWebProcess
    ensures r.reason == RequestedByClient <==> !configuration.usesSingleWebProcess && requestedByClient
    ensures r.reason == RequestedByClient ==> r.SelectByDomain?
    ensures r.reason == FeatureDisabled <==>
              !configuration.usesSingleWebProcess && !requestedByClient && !configuration.processSwapsOnNavigation
    ensures r.reason == AutomationSessionActive <==>
              !configuration.usesSingleWebProcess && !requestedByClient && configuration.processSwapsOnNavigation
              && automationSessionActive
    ensures r.reason == NoCommittedProvisionalLoads <==>
              !configuration.usesSingleWebProcess && !requestedByClient && configuration.processSwapsOnNavigation
              && !automationSessionActive && !records[source].hasCommittedAnyProvisionalLoads
    ensures r.reason == OpenedByDOMWithOpener <==>
              ReachesOpenerChecks(configuration, automationSessionActive, records[source].hasCommittedAnyProvisionalLoads,
                                  requestedByClient)
              && navigation.openedByDOMWithOpener && !configuration.processSwapsOnWindowOpenWithOpener
    ensures r.reason == HasOpenedOtherWindows <==>
              ReachesOpenerChecks(configuration, automationSessionActive, records[source].hasCommittedAnyProvisionalLoads,
                                  requestedByClient)
              && !(navigation.openedByDOMWithOpener && !configuration.processSwapsOnWindowOpenWithOpener)
              && navigation.hasOpenedFrames
    ensures !ReachesTargetItem(configuration, automationSessionActive, records[source].hasCommittedAnyProvisionalLoads,
                               navigation, requestedByClient) ==>
              r.KeepSourceProcess? || r == SelectByDomain(RequestedByClient)
    // the back/forward target item
    ensures ReachesTargetItem(configuration, automationSessionActive, records[source].hasCommittedAnyProvisionalLoads,
                              navigation, requestedByClient)
            && navigation.targetItem.Some? && navigation.targetItem.value.suspendedPage.Some? ==>
              var suspendedPage := navigation.targetItem.value.suspendedPage.value;
              r == (if suspendedPageReusable then UseProcess(suspendedPage.process, Some(suspendedPage), UsingSuspendedPage)
                    else SelectByDomain(SuspendedPageNotReusable))
    ensures ReachesTargetItem(configuration, automationSessionActive, records[source].hasCommittedAnyProvisionalLoads,
                              navigation, requestedByClient)
            && navigation.targetItem.Some? && navigation.targetItem.value.suspendedPage.None?
            && LiveLastProcess(records, navigation.targetItem.value).Some? ==>
              r == UseProcess(LiveLastProcess(records, navigation.targetItem.value).value, None, UsingBackForwardItemProcess)
    ensures r.reason == UsingBackForwardItemProcess ==>
              r.UseProcess? && r.suspendedPage.None? && r.process in records && !records[r.process].terminated
              && navigation.targetItem.Some? && Some(r.process) == navigation.targetItem.value.lastProcessIdentifier
    // the site comparison
    ensures ReachesSiteComparison(configuration, automationSessionActive, records, source, navigation, requestedByClient) ==>
              if navigation.treatAsSameOriginNavigation then r == KeepSourceProcess(TreatAsSameOrigin)
              else if IsSameSite(EffectiveSourceURL(navigation, page, pageSourceURL), navigation.targetURL)
              then r == KeepSourceProcess(SameSite)
              else r.reason == CrossSite
    ensures r.reason == CrossSite ==>
              (r.UseProcess? <==> ReusableSwappedProcess(configuration, records, swapped,
                                                         navigation.targetURL.registrableDomain, dataStore).Some?)
    ensures r.reason == CrossSite && r.UseProcess? ==>
              r.process == swapped[navigation.targetURL.registrableDomain]
              && records[r.process].dataStore == Some(dataStore) && r.suspendedPage.None?
    // what each kind of decision can carry
    ensures r.KeepSourceProcess? ==> KeepReason(r.reason)
    ensures r.SelectByDomain? ==> r.reason in {RequestedByClient, SuspendedPageNotReusable, CrossSite}
    ensures r.UseProcess? ==> r.reason in {UsingSuspendedPage, UsingBackForwardItemProcess, CrossSite}
  {
    if configuration.usesSingleWebProcess then KeepSourceProcess(SingleWebProcessMode)
    else if requestedByClient then SelectByDomain(RequestedByClient)
    else if !configuration.processSwapsOnNavigation then KeepSourceProcess(FeatureDisabled)
    else if automationSessionActive then KeepSourceProcess(AutomationSessionActive)
    else if !records[source].hasCommittedAnyProvisionalLoads then KeepSourceProcess(NoCommittedProvisionalLoads)
    else if navigation.openedByDOMWithOpener && !configuration.processSwapsOnWindowOpenWithOpener then
      KeepSourceProcess(OpenedByDOMWithOpener)
    else if navigation.hasOpenedFrames then KeepSourceProcess(HasOpenedOtherWindows)
    else if navigation.targetItem.Some? && navigation.targetItem.value.suspendedPage.Some? then
      var suspendedPage := navigation.targetItem.value.suspendedPage.value;
      if suspendedPageReusable then UseProcess(suspendedPage.process, Some(suspendedPage), UsingSuspendedPage)
      else SelectByDomain(SuspendedPageNotReusable)
    else if navigation.targetItem.Some? && LiveLastProcess(records, navigation.targetItem.value).Some? then
      UseProcess(LiveLastProcess(records, navigation.targetItem.value).value, None, UsingBackForwardItemProcess)
    else if navigation.treatAsSameOriginNavigation then KeepSourceProcess(TreatAsSameOrigin)
    else if IsSameSite(EffectiveSourceURL(navigation, page, pageSourceURL), navigation.targetURL) then
      KeepSourceProcess(SameSite)
    else
      match ReusableSwappedProcess(configuration, records, swapped, navigation.targetURL.registrableDomain, dataStore)
      case Some(p) => UseProcess(p, None, CrossSite)
      case None => SelectByDomain(CrossSite)
  }

  /** A navigation to a page of the source's own site, with no back/forward item and no
      early exit, always stays in the source process. */
  lemma SameSiteStaysInSourceProcess(
    configuration: Configuration, automationSessionActive: bool,
    records: map<ProcessId, WebProcess>, swapped: map<Domain, ProcessId>,
    source: ProcessId, navigation: Navigation, page: PageContext, pageSourceURL: URL,
    dataStore: DataStore, suspendedPageReusable: bool)
    requires source in records
    requires forall d :: d in swapped ==> swapped[d] in records
    requires ReachesTargetItem(configuration, automationSessionActive, records[source].hasCommittedAnyProvisionalLoads,
                               navigation, false)
    requires navigation.targetItem.None?
    requires page.relatedPageURL.None? && !page.isPageOpenedByDOMShowingInitialEmptyDocument
    requires pageSourceURL.registrableDomain == navigation.targetURL.registrableDomain
    ensures Decide(configuration, automationSessionActive, records, swapped, source, navigation, page,
                   pageSourceURL, false, dataStore, suspendedPageReusable).KeepSourceProcess?
  {
    assert EffectiveSourceURL(navigation, page, pageSourceURL) == pageSourceURL;
  }

  /** A navigation between two valid, non-empty, non-about: URLs of different sites, with no
      back/forward item and no early exit, never stays in the source process unless the
      source is the process remembered for the target's domain. */
  lemma CrossSiteLeavesSourceProcess(
    configuration: Configuration, automationSessionActive: bool,
    records: map<ProcessId, WebProcess>, swapped: map<Domain, ProcessId>,
    source: ProcessId, navigation: Navigation, page: PageContext, pageSourceURL: URL,
    dataStore: DataStore, suspendedPageReusable: bool)
    requires source in records
    requires forall d :: d in swapped ==> swapped[d] in records
    requires ReachesTargetItem(configuration, automationSessionActive, records[source].hasCommittedAnyProvisionalLoads,
                               navigation, false)
    requires navigation.targetItem.None? && !navigation.treatAsSameOriginNavigation
    requires page.relatedPageURL.None? && !page.isPageOpenedByDOMShowingInitialEmptyDocument
    requires pageSourceURL.isValid && !pageSourceURL.isEmpty && !pageSourceURL.protocolIsAbout
    requires navigation.targetURL.isValid
    requires pageSourceURL.registrableDomain != navigation.targetURL.registrableDomain
    ensures var r := Decide(configuration, automationSessionActive, records, swapped, source, navigation, page,
                            pageSourceURL, false, dataStore, suspendedPageReusable);
            r.reason == CrossSite && !r.KeepSourceProcess?
            && (r.UseProcess? ==> swapped[navigation.targetURL.registrableDomain] == r.process)
  {
    assert EffectiveSourceURL(navigation, page, pageSourceURL) == pageSourceURL;
  }

  /** The outcome of waiting on a suspended page only matters when the target item holds one. */
  lemma UnsuspendOutcomeMattersOnlyForSuspendedPages(
    configuration: Configuration, automationSessionActive: bool,
    records: map<ProcessId, WebProcess>, swapped: map<Domain, ProcessId>,
    source: ProcessId, navigation: Navigation, page: PageContext, pageSourceURL: URL,
    requestedByClient: bool, dataStore: DataStore)
    requires source in records
    requires forall d :: d in swapped ==> swapped[d] in records
    requires navigation.targetItem.None? || navigation.targetItem.value.suspendedPage.None?
    ensures Decide(configuration, automationSessionActive, records, swapped, source, navigation, page,
                   pageSourceURL, requestedByClient, dataStore, true)
         == Decide(configuration, automationSessionActive, records, swapped, source, navigation, page,
                   pageSourceURL, requestedByClient, dataStore, false)
  {
  }
}
