/** The entities the process pool works over, as values: sessions, data stores, the pool's
    records of its content processes, URLs reduced to the facts the pool consults, and the
    navigation being decided. */
module PoolTypes {
  import opened Wrappers

  type ProcessId = nat
  type PageID = nat

  /** A registrable domain (site); the empty string is the empty domain. */
  type Domain = string

  datatype SessionID = SessionID(id: nat, isEphemeral: bool)

  datatype DataStore = DataStore(id: nat, sessionID: SessionID)

  /** What the pool knows of one WebProcessProxy. */
  datatype WebProcess = WebProcess(
    dataStore: Option<DataStore>,
    terminated: bool,
    hasCommittedAnyProvisionalLoads: bool,
    isPrewarmed: bool,
    isDummy: bool,
    runsServiceWorkers: bool,
    inProcessCache: bool)

  /** A URL, reduced to its validity, emptiness, whether its protocol is about:, and its
      registrable domain (the public-suffix computation is outside this model). */
  datatype URL = URL(isValid: bool, isEmpty: bool, protocolIsAbout: bool, registrableDomain: Domain)

  datatype SuspendedPage = SuspendedPage(id: nat, process: ProcessId)

  /** A back/forward list item: the suspended page it may hold, and the identifier of the
      process that last showed it. */
  datatype BackForwardItem = BackForwardItem(suspendedPage: Option<SuspendedPage>, lastProcessIdentifier: Option<ProcessId>)

  datatype Navigation = Navigation(
    targetURL: URL,
    openedByDOMWithOpener: bool,
    hasOpenedFrames: bool,
    targetItem: Option<BackForwardItem>,
    treatAsSameOriginNavigation: bool,
    /** The requester's security origin as a URL; None when the origin is empty. */
    requesterOrigin: Option<URL>)

  /** The facts about the navigating page that the decision consults. */
  datatype PageContext = PageContext(
    isPageOpenedByDOMShowingInitialEmptyDocument: bool,
    /** The current URL of the page's related page, when it has one. */
    relatedPageURL: Option<URL>)

  datatype Configuration = Configuration(
    usesSingleWebProcess: bool,
    processSwapsOnNavigation: bool,
    processSwapsOnWindowOpenWithOpener: bool,
    alwaysKeepAndReuseSwappedProcesses: bool,
    wasAutomaticProcessWarmingSetByClient: bool,
    /** The default data store, when one exists and the platform compares against it
        (Cocoa); None where data stores never have to match. */
    defaultDataStore: Option<DataStore>)

  /** The reason string handed to the completion handler. */
  datatype Reason =
    | SingleWebProcessMode
    | RequestedByClient
    | FeatureDisabled
    | AutomationSessionActive
    | NoCommittedProvisionalLoads
    | OpenedByDOMWithOpener
    | HasOpenedOtherWindows
    | SuspendedPageNotReusable
    | UsingSuspendedPage
    | UsingBackForwardItemProcess
    | TreatAsSameOrigin
    | SameSite
    | CrossSite

  datatype PrewarmInformation = PrewarmInformation(id: nat)

  /** A PrewarmWithDomainInformation message sent to a process. */
  datatype PrewarmHint = PrewarmHint(process: ProcessId, information: PrewarmInformation)

  /** Calls the pool makes into collaborators whose code is not part of this model. */
  datatype CollaboratorCall =
    | ClearBackForwardCache
    | ClearWebProcessCache
    | ClearAllProcessesForSession(session: SessionID)
}
