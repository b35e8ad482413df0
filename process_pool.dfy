/** The web process pool: its live content processes, the single prewarmed-process slot, the
    dummy processes of pages whose launch is delayed, the processes kept per registrable
    domain after a swap, the pages using each session, the prewarm information gathered per
    domain, and the GPU process crash window; and the choice of a process for a navigation. */
module ProcessPool {
  import opened Wrappers
  import opened Sequences
  import opened PoolTypes
  import NavigationPolicy
  import GpuCrashPolicy

  /** maximumSizeToPreventUnlimitedGrowth of the prewarm information map. */
  const MaximumPrewarmInformationEntries: nat := 100

  /** A record for a process the pool has just created. */
  function NewProcess(dataStore: Option<DataStore>, isPrewarmed: bool, isDummy: bool): (r: WebProcess)
    ensures !r.terminated && !r.hasCommittedAnyProvisionalLoads && !r.runsServiceWorkers && !r.inProcessCache
    ensures r.dataStore == dataStore && r.isPrewarmed == isPrewarmed && r.isDummy == isDummy
  {
    WebProcess(dataStore, false, false, isPrewarmed, isDummy, false, false)
  }

  /** The pages of each session after pageBeginUsingWebsiteDataStore. */
  function WithPage(m: map<SessionID, set<PageID>>, session: SessionID, page: PageID): (r: map<SessionID, set<PageID>>)
    ensures r.Keys == m.Keys + {session}
    ensures r[session] == (if session in m then m[session] else {}) + {page}
    ensures forall s :: s in m && s != session ==> r[s] == m[s]
  {
    m[session := (if session in m then m[session] else {}) + {page}]
  }

  /** The pages of each session after pageEndUsingWebsiteDataStore: a session left with no
      page loses its entry. */
  function WithoutPage(m: map<SessionID, set<PageID>>, session: SessionID, page: PageID): (r: map<SessionID, set<PageID>>)
    requires session in m
    ensures session in r <==> m[session] - {page} != {}
    ensures session in r ==> r[session] == m[session] - {page}
    ensures forall s :: s != session ==> (s in r <==> s in m) && (s in m ==> r[s] == m[s])
  {
    var remaining := m[session] - {page};
    if remaining == {} then map s | s in m && s != session :: m[s] else m[session := remaining]
  }

  predicate NoEmptySession(m: map<SessionID, set<PageID>>)
  {
    forall s :: s in m ==> m[s] != {}
  }

  /** Ending the use of a page undoes beginning it. */
  lemma {:induction false} EndUndoesBegin(m: map<SessionID, set<PageID>>, session: SessionID, page: PageID)
    requires NoEmptySession(m)
    requires session in m ==> page !in m[session]
    ensures WithoutPage(WithPage(m, session, page), session, page) == m
  {
    var r := WithoutPage(WithPage(m, session, page), session, page);
    if session in m {
      assert WithPage(m, session, page)[session] - {page} == m[session];
    } else {
      assert WithPage(m, session, page)[session] - {page} == {};
    }
    assert r.Keys == m.Keys;
  }

  /** Beginning and ending keep every session's page set non-empty. */
  lemma PageMapsKeepNoEmptySession(m: map<SessionID, set<PageID>>, session: SessionID, page: PageID)
    requires NoEmptySession(m)
    ensures NoEmptySession(WithPage(m, session, page))
    ensures session in m ==> NoEmptySession(WithoutPage(m, session, page))
  {
  }

  /** `after` is `before` with exactly the processes of `ps` terminated. */
  ghost predicate TerminatedExactly(before: map<ProcessId, WebProcess>, after: map<ProcessId, WebProcess>, ps: seq<ProcessId>)
  {
    && after.Keys == before.Keys
    && forall q :: q in before ==> after[q] == if q in ps then before[q].(terminated := true) else before[q]
  }

  /** The fields that track processes: the live list, the records, the prewarm slot, the
      dummy map and the origin cache set. */
  datatype ProcessTable = ProcessTable(
    processes: seq<ProcessId>,
    records: map<ProcessId, WebProcess>,
    nextProcessId: ProcessId,
    prewarmedProcess: Option<ProcessId>,
    dummyProcessProxies: map<SessionID, ProcessId>,
    swappedProcessesPerRegistrableDomain: map<Domain, ProcessId>)

  /** Live processes have records, and identifiers are never reused. */
  ghost predicate ListFits(t: ProcessTable)
  {
    && Distinct(t.processes)
    && (forall p :: p in t.processes ==> p in t.records)
    && (forall p :: p in t.records ==> p < t.nextProcessId)
  }

  /** The prewarm slot holds at most one live, prewarmed, non-dummy process. */
  ghost predicate SlotFits(t: ProcessTable)
  {
    t.prewarmedProcess.Some? ==>
      var p := t.prewarmedProcess.value;
      p in t.processes && p in t.records && t.records[p].isPrewarmed && !t.records[p].isDummy
  }

  /** The dummy-map entry of `session` names a live dummy process of that session. */
  ghost predicate DummyEntry(t: ProcessTable, session: SessionID)
    requires session in t.dummyProcessProxies
  {
    var p := t.dummyProcessProxies[session];
    p in t.processes && p in t.records && t.records[p].isDummy
    && t.records[p].dataStore.Some? && t.records[p].dataStore.value.sessionID == session
  }

  /** Each dummy-map entry names a live dummy process of that session, and each live dummy
      process is named by its session's entry. */
  ghost predicate DummiesFit(t: ProcessTable)
  {
    && (forall s :: s in t.dummyProcessProxies ==> DummyEntry(t, s))
    && (forall p :: p in t.processes && p in t.records && t.records[p].isDummy ==>
          t.records[p].dataStore.Some? && t.records[p].dataStore.value.sessionID in t.dummyProcessProxies
          && t.dummyProcessProxies[t.records[p].dataStore.value.sessionID] == p)
  }

  /** Every remembered swapped process is live. */
  ghost predicate OriginCacheSetFits(t: ProcessTable)
  {
    forall d :: d in t.swappedProcessesPerRegistrableDomain ==> t.swappedProcessesPerRegistrableDomain[d] in t.processes
  }

  /** A process that has left the live list has exited: its record says it is terminated. */
  ghost predicate ExitedAreTerminated(t: ProcessTable)
  {
    forall p :: p in t.records && p !in t.processes ==> t.records[p].terminated
  }

  ghost predicate TableValid(t: ProcessTable)
  {
    ListFits(t) && SlotFits(t) && DummiesFit(t) && OriginCacheSetFits(t) && ExitedAreTerminated(t)
  }

  /** `after` has the same processes as `before`, each with the same data store, dummy and
      prewarmed flags: only provisional loads, service workers or the cache flag may differ,
      and a terminated process stays terminated. */
  ghost predicate SameShape(before: map<ProcessId, WebProcess>, after: map<ProcessId, WebProcess>)
  {
    && after.Keys == before.Keys
    && forall p :: p in before ==>
         (after[p].isDummy == before[p].isDummy && after[p].isPrewarmed == before[p].isPrewarmed
          && after[p].dataStore == before[p].dataStore
          && (before[p].terminated ==> after[p].terminated))
  }

  /** Changing records without changing their shape keeps the table valid: the invariant
      looks at nothing else in them. */
  lemma SameShapeKeepsTableValid(t: ProcessTable, u: ProcessTable)
    requires TableValid(t)
    requires u == t.(records := u.records)
    requires SameShape(t.records, u.records)
    ensures TableValid(u)
  {
    assert SlotFits(u);
    assert forall s :: s in u.dummyProcessProxies ==> DummyEntry(u, s);
  }

  /** Terminating processes changes nothing the invariant looks at. */
  lemma TerminationKeepsShape(before: map<ProcessId, WebProcess>, after: map<ProcessId, WebProcess>, ps: seq<ProcessId>)
    requires TerminatedExactly(before, after, ps)
    ensures SameShape(before, after)
  {
  }

  /** The map without the entry for `k`. */
  function RemoveKey<K, V>(m: map<K, V>, k: K): (r: map<K, V>)
    ensures r.Keys == m.Keys - {k}
    ensures forall j :: j in r ==> r[j] == m[j]
  {
    map j | j in m && j != k :: m[j]
  }

  /** The origin cache set without the entries naming `p`. */
  function WithoutProcess(m: map<Domain, ProcessId>, p: ProcessId): (r: map<Domain, ProcessId>)
    ensures forall d :: d in r <==> d in m && m[d] != p
    ensures forall d :: d in r ==> r[d] == m[d]
  {
    map d | d in m && m[d] != p :: m[d]
  }

  /** The table after disconnectProcess(p), which the pool runs once the process has exited:
      its record is marked terminated. */
  function Disconnected(t: ProcessTable, p: ProcessId): (r: ProcessTable)
    requires p in t.processes && p in t.records
    requires t.records[p].isDummy ==> t.records[p].dataStore.Some?
  {
    var slot := if t.prewarmedProcess == Some(p) then None else t.prewarmedProcess;
    var dummies := if t.prewarmedProcess != Some(p) && t.records[p].isDummy
                   then RemoveKey(t.dummyProcessProxies, t.records[p].dataStore.value.sessionID)
                   else t.dummyProcessProxies;
    t.(processes := RemoveFirst(t.processes, p), records := t.records[p := t.records[p].(terminated := true)],
       prewarmedProcess := slot, dummyProcessProxies := dummies,
       swappedProcessesPerRegistrableDomain := WithoutProcess(t.swappedProcessesPerRegistrableDomain, p))
  }

  /** Disconnecting a live process keeps the table valid and leaves no trace of the process
      in the live list, the slot, the dummy map or the origin cache set. */
  lemma DisconnectKeepsTableValid(t: ProcessTable, p: ProcessId, r: ProcessTable)
    requires TableValid(t) && p in t.processes
    requires r == Disconnected(t, p)
    ensures TableValid(r)
    ensures && p !in r.processes
            && r.prewarmedProcess != Some(p)
            && (forall s :: s in r.dummyProcessProxies ==> r.dummyProcessProxies[s] != p)
            && (forall d :: d in r.swappedProcessesPerRegistrableDomain ==> r.swappedProcessesPerRegistrableDomain[d] != p)
  {
    RemoveFirstOfDistinct(t.processes, p);
    assert forall q :: q in r.processes <==> q in t.processes && q != p;
    assert ListFits(r);
    assert SlotFits(r);
    forall s | s in r.dummyProcessProxies ensures DummyEntry(r, s) {
      assert DummyEntry(t, s);
    }
    forall q | q in r.processes && q in r.records && r.records[q].isDummy
      ensures r.records[q].dataStore.Some? && r.records[q].dataStore.value.sessionID in r.dummyProcessProxies
              && r.dummyProcessProxies[r.records[q].dataStore.value.sessionID] == q
    {
      assert q in t.processes;
    }
    assert DummiesFit(r);
    assert OriginCacheSetFits(r);
  }

  /** The table after a new process with record `r` joins the end of the live list. */
  function WithNewProcess(t: ProcessTable, r: WebProcess): (u: ProcessTable)
    ensures u.processes == t.processes + [t.nextProcessId]
    ensures u.records == t.records[t.nextProcessId := r]
  {
    t.(processes := t.processes + [t.nextProcessId], records := t.records[t.nextProcessId := r],
       nextProcessId := t.nextProcessId + 1)
  }

  /** A new dummy process for a session that has none keeps the table valid once it is
      entered in the dummy map. */
  lemma NewDummyKeepsTableValid(t: ProcessTable, dataStore: DataStore, v: ProcessTable)
    requires TableValid(t) && dataStore.sessionID !in t.dummyProcessProxies
    requires var u := WithNewProcess(t, NewProcess(Some(dataStore), false, true));
             v == u.(dummyProcessProxies := t.dummyProcessProxies[dataStore.sessionID := t.nextProcessId])
    ensures TableValid(v)
  {
    var p := t.nextProcessId;
    AppendFreshKeepsDistinct(t.processes, p);
    assert ListFits(v);
    assert SlotFits(v);
    forall s | s in v.dummyProcessProxies ensures DummyEntry(v, s) {
      if s != dataStore.sessionID { assert DummyEntry(t, s); }
    }
    assert DummiesFit(v);
  }

  /** A new non-dummy process keeps the table valid; a prewarmed one may fill the empty slot. */
  lemma NewProcessKeepsTableValid(t: ProcessTable, dataStore: Option<DataStore>, isPrewarmed: bool, v: ProcessTable)
    requires TableValid(t)
    requires isPrewarmed ==> t.prewarmedProcess.None?
    requires var u := WithNewProcess(t, NewProcess(dataStore, isPrewarmed, false));
             v == if isPrewarmed then u.(prewarmedProcess := Some(t.nextProcessId)) else u
    ensures TableValid(v)
  {
    AppendFreshKeepsDistinct(t.processes, t.nextProcessId);
    assert ListFits(v);
    forall s | s in v.dummyProcessProxies ensures DummyEntry(v, s) {
      assert DummyEntry(t, s);
    }
  }

  /** What the live-process scan of processForRegistrableDomain accepts: not the prewarmed
      process, not a dummy, not running service workers, and on the right data store when
      data stores must match. */
  predicate Reusable(records: map<ProcessId, WebProcess>, prewarmed: Option<ProcessId>, p: ProcessId,
                     mustMatchDataStore: bool, dataStore: DataStore)
    requires p in records
  {
    && prewarmed != Some(p)
    && !records[p].isDummy
    && !records[p].runsServiceWorkers
    && (mustMatchDataStore ==> records[p].dataStore == Some(dataStore))
  }

  /** The position of the first process of `ps` the scan accepts, or |ps| when none is. */
  function FirstReusableIndex(ps: seq<ProcessId>, records: map<ProcessId, WebProcess>, prewarmed: Option<ProcessId>,
                              mustMatchDataStore: bool, dataStore: DataStore): (i: nat)
    requires forall p :: p in ps ==> p in records
    ensures i <= |ps|
    ensures forall j :: 0 <= j < i ==> !Reusable(records, prewarmed, ps[j], mustMatchDataStore, dataStore)
    ensures i < |ps| ==> Reusable(records, prewarmed, ps[i], mustMatchDataStore, dataStore)
  {
    if ps == [] then 0
    else if Reusable(records, prewarmed, ps[0], mustMatchDataStore, dataStore) then 0
    else 1 + FirstReusableIndex(ps[1..], records, prewarmed, mustMatchDataStore, dataStore)
  }

  /** Where processForRegistrableDomain found its process. */
  datatype DomainSource = FromProcessCache | FromSuspendedPage | FromPrewarmedSlot | FromNewProcess | FromLiveProcess

  class WebProcessPool {
    const configuration: Configuration

    var clientWouldBenefitFromAutomaticProcessPrewarming: bool
    var automationSessionActive: bool
    var processTerminationEnabled: bool

    /** m_processes, in order, by identifier. */
    var processes: seq<ProcessId>
    /** Every process record the pool has made; a disconnected process keeps its record. */
    var records: map<ProcessId, WebProcess>
    var nextProcessId: ProcessId

    var prewarmedProcess: Option<ProcessId>
    var dummyProcessProxies: map<SessionID, ProcessId>
    var swappedProcessesPerRegistrableDomain: map<Domain, ProcessId>
    var sessionToPageIDs: map<SessionID, set<PageID>>
    var prewarmInformationPerRegistrableDomain: map<Domain, PrewarmInformation>

    var hasGPUProcess: bool
    var recentGPUProcessCrashCount: nat
    var resetGPUProcessCrashCountTimerActive: bool

    function CrashWindow(): GpuCrashPolicy.CrashWindow
      reads this
    {
      GpuCrashPolicy.CrashWindow(recentGPUProcessCrashCount, resetGPUProcessCrashCountTimerActive)
    }

    /** The process-tracking fields as one value. */
    function Table(): ProcessTable
      reads this
    {
      ProcessTable(processes, records, nextProcessId, prewarmedProcess, dummyProcessProxies,
                   swappedProcessesPerRegistrableDomain)
    }

    ghost predicate Valid()
      reads this
    {
      && TableValid(Table())
      && NoEmptySession(sessionToPageIDs)
      && |prewarmInformationPerRegistrableDomain| <= MaximumPrewarmInformationEntries
      && GpuCrashPolicy.WindowValid(CrashWindow())
    }

    constructor (configuration: Configuration)
      ensures Valid()
      ensures this.configuration == configuration
      ensures processes == [] && prewarmedProcess.None? && dummyProcessProxies == map[]
      ensures swappedProcessesPerRegistrableDomain == map[] && sessionToPageIDs == map[]
      ensures prewarmInformationPerRegistrableDomain == map[]
      ensures CrashWindow() == GpuCrashPolicy.InitialWindow && !hasGPUProcess
      ensures !automationSessionActive && !clientWouldBenefitFromAutomaticProcessPrewarming
      ensures processTerminationEnabled && records == map[]
    {
      this.configuration := configuration;
      clientWouldBenefitFromAutomaticProcessPrewarming := false;
      automationSessionActive := false;
      processTerminationEnabled := true;
      processes := [];
      records := map[];
      nextProcessId := 0;
      prewarmedProcess := None;
      dummyProcessProxies := map[];
      swappedProcessesPerRegistrableDomain := map[];
      sessionToPageIDs := map[];
      prewarmInformationPerRegistrableDomain := map[];
      hasGPUProcess := false;
      recentGPUProcessCrashCount := 0;
      resetGPUProcessCrashCountTimerActive := false;
    }

    method SetAutomationSession(active: bool)
      modifies this`automationSessionActive
      ensures automationSessionActive == active
    {
      automationSessionActive := active;
    }

    // ---------------------------------------------------------------- process list

    /** createNewWebProcess: a new process on `dataStore` joins the end of the live list; a
        prewarmed one takes the (empty) prewarm slot. */
    method CreateNewWebProcess(dataStore: Option<DataStore>, isPrewarmed: bool) returns (p: ProcessId)
      requires Valid()
      requires isPrewarmed ==> prewarmedProcess.None?
      modifies this`processes, this`records, this`nextProcessId, this`prewarmedProcess
      ensures Valid()
      ensures p !in old(records) && p !in old(processes)
      ensures processes == old(processes) + [p]
      ensures records == old(records)[p := NewProcess(dataStore, isPrewarmed, false)]
      ensures prewarmedProcess == if isPrewarmed then Some(p) else old(prewarmedProcess)
    {
      p := nextProcessId;
      nextProcessId := nextProcessId + 1;
      records := records[p := NewProcess(dataStore, isPrewarmed, false)];
      processes := processes + [p];
      if isPrewarmed {
        prewarmedProcess := Some(p);
      }
      NewProcessKeepsTableValid(old(Table()), dataStore, isPrewarmed, Table());
    }

    /** The delayed-launch branch of createWebPage: the session's dummy process, made and
        registered when there is none yet. */
    method DummyProcessProxyFor(dataStore: DataStore) returns (p: ProcessId)
      requires Valid()
      modifies this`processes, this`records, this`nextProcessId, this`dummyProcessProxies
      ensures Valid()
      ensures dataStore.sessionID in old(dummyProcessProxies) ==>
                p == old(dummyProcessProxies)[dataStore.sessionID]
                && processes == old(processes) && records == old(records)
                && dummyProcessProxies == old(dummyProcessProxies)
      ensures dataStore.sessionID !in old(dummyProcessProxies) ==>
                p !in old(records)
                && processes == old(processes) + [p]
                && records == old(records)[p := NewProcess(Some(dataStore), false, true)]
                && dummyProcessProxies == old(dummyProcessProxies)[dataStore.sessionID := p]
      ensures p in processes && records[p].isDummy
    {
      if dataStore.sessionID in dummyProcessProxies {
        p := dummyProcessProxies[dataStore.sessionID];
        assert DummyEntry(Table(), dataStore.sessionID);
        return;
      }
      p := nextProcessId;
      nextProcessId := nextProcessId + 1;
      records := records[p := NewProcess(Some(dataStore), false, true)];
      dummyProcessProxies := dummyProcessProxies[dataStore.sessionID := p];
      processes := processes + [p];
      NewDummyKeepsTableValid(old(Table()), dataStore, Table());
    }

    /** disconnectProcess, which the pool runs when the process has exited, cleanly or not:
        the process leaves the live list, the prewarm slot if it held it (otherwise, for a
        dummy, the dummy map), and every origin-cache-set entry, and its record says it is
        terminated. */
    method DisconnectProcess(p: ProcessId)
      requires Valid()
      requires p in processes
      modifies this`processes, this`records, this`prewarmedProcess, this`dummyProcessProxies,
               this`swappedProcessesPerRegistrableDomain
      ensures Valid()
      ensures Table() == Disconnected(old(Table()), p)
      ensures processes == RemoveFirst(old(processes), p)
      ensures records == old(records)[p := old(records)[p].(terminated := true)]
      ensures p !in processes && |processes| == |old(processes)| - 1
      ensures prewarmedProcess == if old(prewarmedProcess) == Some(p) then None else old(prewarmedProcess)
      ensures forall s :: s in dummyProcessProxies ==> dummyProcessProxies[s] != p
      ensures forall d :: d in swappedProcessesPerRegistrableDomain ==> swappedProcessesPerRegistrableDomain[d] != p
    {
      assert p in records;
      if prewarmedProcess == Some(p) {
        prewarmedProcess := None;
      } else if records[p].isDummy {
        dummyProcessProxies := RemoveKey(dummyProcessProxies, records[p].dataStore.value.sessionID);
      }

      processes := RemoveFirst(processes, p);
      records := records[p := records[p].(terminated := true)];

      RemoveProcessFromOriginCacheSet(p);
      DisconnectKeepsTableValid(old(Table()), p, Table());
    }

    // ---------------------------------------------------------------- prewarm slot

    /** prewarmProcess: fills the empty slot with a new prewarmed process on no data store. */
    method PrewarmProcess()
      requires Valid()
      modifies this`processes, this`records, this`nextProcessId, this`prewarmedProcess
      ensures Valid()
      ensures old(prewarmedProcess).Some? ==>
                prewarmedProcess == old(prewarmedProcess) && processes == old(processes) && records == old(records)
      ensures old(prewarmedProcess).None? ==>
                prewarmedProcess.Some? && prewarmedProcess.value !in old(records)
                && processes == old(processes) + [prewarmedProcess.value]
                && records == old(records)[prewarmedProcess.value := NewProcess(None, true, false)]
    {
      if prewarmedProcess.Some? {
        return;
      }
      var _ := CreateNewWebProcess(None, true);
    }

    /** tryTakePrewarmedProcess: nothing from an empty slot; a terminated prewarmed process is
        dropped from the slot and not used; otherwise the process leaves the slot, is no
        longer prewarmed, and now uses `dataStore`. */
    method TryTakePrewarmedProcess(dataStore: DataStore) returns (taken: Option<ProcessId>)
      requires Valid()
      modifies this`records, this`prewarmedProcess
      ensures Valid()
      ensures prewarmedProcess.None?
      ensures old(prewarmedProcess).None? ==> taken.None? && records == old(records)
      ensures old(prewarmedProcess).Some? && old(records)[old(prewarmedProcess).value].terminated ==>
                taken.None? && records == old(records)
      ensures old(prewarmedProcess).Some? && !old(records)[old(prewarmedProcess).value].terminated ==>
                var q := old(prewarmedProcess).value;
                taken == Some(q)
                && records == old(records)[q := old(records)[q].(isPrewarmed := false, dataStore := Some(dataStore))]
      ensures taken.Some? ==> taken.value in processes && !records[taken.value].isPrewarmed
    {
      if prewarmedProcess.None? {
        return None;
      }
      var q := prewarmedProcess.value;
      if records[q].terminated {
        prewarmedProcess := None;
        return None;
      }
      records := records[q := records[q].(isPrewarmed := false, dataStore := Some(dataStore))];
      taken := prewarmedProcess;
      prewarmedProcess := None;
    }

    /** tryPrewarmWithDomainInformation: the prewarm message for `p`, when information about
        `domain` has been collected. */
    function PrewarmHintFor(p: ProcessId, domain: Domain): (hint: Option<PrewarmHint>)
      reads this
      ensures hint.Some? <==> domain in prewarmInformationPerRegistrableDomain
      ensures hint.Some? ==> hint.value.process == p
                             && hint.value.information == prewarmInformationPerRegistrableDomain[domain]
    {
      if domain in prewarmInformationPerRegistrableDomain
      then Some(PrewarmHint(p, prewarmInformationPerRegistrableDomain[domain]))
      else None
    }

    /** didCollectPrewarmInformation: records `information` for `domain`; when the map is
        full, one arbitrary entry is evicted first, so the map never passes its bound. */
    method DidCollectPrewarmInformation(domain: Domain, information: PrewarmInformation)
      requires Valid()
      modifies this`prewarmInformationPerRegistrableDomain
      ensures Valid()
      ensures domain in prewarmInformationPerRegistrableDomain
      ensures prewarmInformationPerRegistrableDomain[domain] == information
      ensures |old(prewarmInformationPerRegistrableDomain)| < MaximumPrewarmInformationEntries ==>
                prewarmInformationPerRegistrableDomain == old(prewarmInformationPerRegistrableDomain)[domain := information]
      ensures |old(prewarmInformationPerRegistrableDomain)| == MaximumPrewarmInformationEntries ==>
                exists evicted :: evicted in old(prewarmInformationPerRegistrableDomain)
                  && prewarmInformationPerRegistrableDomain ==
                     (map d | d in old(prewarmInformationPerRegistrableDomain) && d != evicted
                            :: old(prewarmInformationPerRegistrableDomain)[d])[domain := information]
    {
      if |prewarmInformationPerRegistrableDomain| == MaximumPrewarmInformationEntries {
        var evicted :| evicted in prewarmInformationPerRegistrableDomain;
        var rest := map d | d in prewarmInformationPerRegistrableDomain && d != evicted
                          :: prewarmInformationPerRegistrableDomain[d];
        assert rest.Keys == prewarmInformationPerRegistrableDomain.Keys - {evicted};
        prewarmInformationPerRegistrableDomain := rest;
      }
      prewarmInformationPerRegistrableDomain := prewarmInformationPerRegistrableDomain[domain := information];
    }

    // ---------------------------------------------------------------- termination

    /** shouldTerminate: a process may be terminated once termination is enabled, unless
        swapped processes are always kept. */
    method ShouldTerminate(p: ProcessId) returns (b: bool)
      requires p in processes
      ensures b <==> processTerminationEnabled && !configuration.alwaysKeepAndReuseSwappedProcesses
    {
      if !processTerminationEnabled || configuration.alwaysKeepAndReuseSwappedProcesses {
        return false;
      }
      return true;
    }

    /** enableProcessTermination: turns termination on and terminates each live process that
        may now be terminated. */
    method EnableProcessTermination()
      requires Valid()
      modifies this`processTerminationEnabled, this`records
      ensures Valid()
      ensures processTerminationEnabled
      ensures TerminatedExactly(old(records), records,
                                if configuration.alwaysKeepAndReuseSwappedProcesses then [] else processes)
    {
      processTerminationEnabled := true;
      TerminateEachTerminable(processes);
      TerminationKeepsShape(old(records), records, if configuration.alwaysKeepAndReuseSwappedProcesses then [] else processes);
      SameShapeKeepsTableValid(old(Table()), Table());
    }

    /** The loop of enableProcessTermination over a copy of the live list. */
    method TerminateEachTerminable(snapshot: seq<ProcessId>)
      requires processTerminationEnabled
      requires forall q :: q in snapshot ==> q in processes && q in records
      modifies this`records
      ensures TerminatedExactly(old(records), records,
                                if configuration.alwaysKeepAndReuseSwappedProcesses then [] else snapshot)
    {
      var i := 0;
      while i < |snapshot|
        invariant 0 <= i <= |snapshot|
        invariant TerminatedExactly(old(records), records,
                                    if configuration.alwaysKeepAndReuseSwappedProcesses then [] else snapshot[..i])
      {
        var b := ShouldTerminate(snapshot[i]);
        if b {
          records := records[snapshot[i] := records[snapshot[i]].(terminated := true)];
        }
        assert snapshot[..i + 1] == snapshot[..i] + [snapshot[i]];
        i := i + 1;
      }
      assert snapshot[..i] == snapshot;
    }

    /** terminateAllWebContentProcesses: every live process is terminated. */
    method TerminateAllWebContentProcesses()
      requires Valid()
      modifies this`records
      ensures Valid()
      ensures TerminatedExactly(old(records), records, processes)
    {
      TerminateEach(processes);
      TerminationKeepsShape(old(records), records, processes);
      SameShapeKeepsTableValid(old(Table()), Table());
    }

    /** The loop of terminateAllWebContentProcesses over a copy of the live list. */
    method TerminateEach(snapshot: seq<ProcessId>)
      requires forall q :: q in snapshot ==> q in records
      modifies this`records
      ensures TerminatedExactly(old(records), records, snapshot)
    {
      var i := 0;
      while i < |snapshot|
        invariant 0 <= i <= |snapshot|
        invariant TerminatedExactly(old(records), records, snapshot[..i])
      {
        records := records[snapshot[i] := records[snapshot[i]].(terminated := true)];
        assert snapshot[..i + 1] == snapshot[..i] + [snapshot[i]];
        i := i + 1;
      }
      assert snapshot[..i] == snapshot;
    }

    /** handleMemoryPressureWarning: clears the back/forward cache, then the process cache,
        then shuts the prewarmed process down; the process exits and is disconnected, which
        leaves the slot empty. */
    method HandleMemoryPressureWarning() returns (calls: seq<CollaboratorCall>)
      requires Valid()
      modifies this`processes, this`records, this`prewarmedProcess, this`dummyProcessProxies,
               this`swappedProcessesPerRegistrableDomain
      ensures Valid()
      ensures calls == [ClearBackForwardCache, ClearWebProcessCache]
      ensures Table() == if old(prewarmedProcess).Some? then Disconnected(old(Table()), old(prewarmedProcess).value)
                         else old(Table())
      ensures prewarmedProcess.None?
      ensures old(prewarmedProcess).None? ==> processes == old(processes) && records == old(records)
      ensures old(prewarmedProcess).Some? ==>
                var q := old(prewarmedProcess).value;
                processes == RemoveFirst(old(processes), q)
                && records == old(records)[q := old(records)[q].(terminated := true)]
    {
      calls := [ClearBackForwardCache, ClearWebProcessCache];
      if prewarmedProcess.Some? {
        DisconnectProcess(prewarmedProcess.value);
      }
    }

    // ---------------------------------------------------------------- GPU process

    method EnsureGPUProcess()
      modifies this`hasGPUProcess
      ensures hasGPUProcess
    {
      if !hasGPUProcess {
        hasGPUProcess := true;
      }
    }

    /** gpuProcessCrashed: the crash window advances as the crash policy says; a crash that
        ends the window terminates every content process. */
    method GpuProcessCrashed()
      requires Valid()
      modifies this`hasGPUProcess, this`recentGPUProcessCrashCount, this`resetGPUProcessCrashCountTimerActive, this`records
      ensures Valid()
      ensures !hasGPUProcess
      ensures CrashWindow() == GpuCrashPolicy.AfterCrash(old(CrashWindow())).window
      ensures TerminatedExactly(old(records), records,
                                if GpuCrashPolicy.AfterCrash(old(CrashWindow())).terminatesAllWebContentProcesses
                                then processes else [])
    {
      hasGPUProcess := false;
      recentGPUProcessCrashCount := recentGPUProcessCrashCount + 1;
      if recentGPUProcessCrashCount > GpuCrashPolicy.MaximumGPUProcessRelaunchAttemptsBeforeKillingWebProcesses {
        resetGPUProcessCrashCountTimerActive := false;
        recentGPUProcessCrashCount := 0;
        TerminateAllWebContentProcesses();
      } else if !resetGPUProcessCrashCountTimerActive {
        resetGPUProcessCrashCountTimerActive := true;
      }
    }

    /** The reset timer fires: the one-shot timer is spent and the count starts over. */
    method ResetGPUProcessCrashCountTimerFired()
      requires Valid()
      requires resetGPUProcessCrashCountTimerActive
      modifies this`recentGPUProcessCrashCount, this`resetGPUProcessCrashCountTimerActive
      ensures Valid()
      ensures CrashWindow() == GpuCrashPolicy.AfterResetTimerFired(old(CrashWindow()))
    {
      resetGPUProcessCrashCountTimerActive := false;
      recentGPUProcessCrashCount := 0;
    }

    // ---------------------------------------------------------------- sessions

    /** pageBeginUsingWebsiteDataStore: the page, which must not be counted yet, joins the
        pages of its data store's session. */
    method PageBeginUsingWebsiteDataStore(page: PageID, dataStore: DataStore)
      requires Valid()
      requires dataStore.sessionID in sessionToPageIDs ==> page !in sessionToPageIDs[dataStore.sessionID]
      modifies this`sessionToPageIDs
      ensures Valid()
      ensures sessionToPageIDs == WithPage(old(sessionToPageIDs), dataStore.sessionID, page)
    {
      PageMapsKeepNoEmptySession(sessionToPageIDs, dataStore.sessionID, page);
      var pages := if dataStore.sessionID in sessionToPageIDs then sessionToPageIDs[dataStore.sessionID] else {};
      sessionToPageIDs := sessionToPageIDs[dataStore.sessionID := pages + {page}];
    }

    /** pageEndUsingWebsiteDataStore: the page, which must be counted, leaves its session;
        the last page of an ephemeral session also clears that session's cached processes. */
    method PageEndUsingWebsiteDataStore(page: PageID, dataStore: DataStore) returns (calls: seq<CollaboratorCall>)
      requires Valid()
      requires dataStore.sessionID in sessionToPageIDs && page in sessionToPageIDs[dataStore.sessionID]
      modifies this`sessionToPageIDs
      ensures Valid()
      ensures sessionToPageIDs == WithoutPage(old(sessionToPageIDs), dataStore.sessionID, page)
      ensures calls == if dataStore.sessionID !in sessionToPageIDs && dataStore.sessionID.isEphemeral
                       then [ClearAllProcessesForSession(dataStore.sessionID)] else []
    {
      PageMapsKeepNoEmptySession(sessionToPageIDs, dataStore.sessionID, page);
      var sessionID := dataStore.sessionID;
      var remaining := sessionToPageIDs[sessionID] - {page};
      calls := [];
      if remaining == {} {
        sessionToPageIDs := map s | s in sessionToPageIDs && s != sessionID :: sessionToPageIDs[s];
        if sessionID.isEphemeral {
          calls := [ClearAllProcessesForSession(sessionID)];
        }
      } else {
        sessionToPageIDs := sessionToPageIDs[sessionID := remaining];
      }
    }

    /** hasPagesUsingWebsiteDataStore: exactly when the session has an entry, that is, some
        page still uses it. */
    method HasPagesUsingWebsiteDataStore(dataStore: DataStore) returns (b: bool)
      requires Valid()
      ensures b <==> dataStore.sessionID in sessionToPageIDs
      ensures b <==> exists page :: dataStore.sessionID in sessionToPageIDs && page in sessionToPageIDs[dataStore.sessionID]
    {
      b := dataStore.sessionID in sessionToPageIDs;
    }

    // ---------------------------------------------------------------- origin cache set

    /** addProcessToOriginCacheSet: the URL's domain now names `p`, replacing any earlier entry. */
    method AddProcessToOriginCacheSet(p: ProcessId, url: URL)
      requires Valid()
      requires p in processes
      modifies this`swappedProcessesPerRegistrableDomain
      ensures Valid()
      ensures swappedProcessesPerRegistrableDomain == old(swappedProcessesPerRegistrableDomain)[url.registrableDomain := p]
    {
      swappedProcessesPerRegistrableDomain := swappedProcessesPerRegistrableDomain[url.registrableDomain := p];
    }

    /** The first loop of removeProcessFromOriginCacheSet: the domains whose entry is `p`. */
    method RegistrableDomainsMappedTo(p: ProcessId) returns (domains: set<Domain>)
      ensures domains == set d | d in swappedProcessesPerRegistrableDomain && swappedProcessesPerRegistrableDomain[d] == p
    {
      domains := {};
      var unvisited := swappedProcessesPerRegistrableDomain.Keys;
      while unvisited != {}
        invariant unvisited <= swappedProcessesPerRegistrableDomain.Keys
        invariant domains == set d | d in swappedProcessesPerRegistrableDomain && d !in unvisited
                                     && swappedProcessesPerRegistrableDomain[d] == p
        decreases |unvisited|
      {
        var d :| d in unvisited;
        if swappedProcessesPerRegistrableDomain[d] == p {
          domains := domains + {d};
        }
        unvisited := unvisited - {d};
      }
    }

    /** removeProcessFromOriginCacheSet: drops every entry naming `p` and no other. */
    method RemoveProcessFromOriginCacheSet(p: ProcessId)
      modifies this`swappedProcessesPerRegistrableDomain
      ensures swappedProcessesPerRegistrableDomain == WithoutProcess(old(swappedProcessesPerRegistrableDomain), p)
    {
      var registrableDomainsToRemove := RegistrableDomainsMappedTo(p);
      var toRemove := registrableDomainsToRemove;
      while toRemove != {}
        invariant toRemove <= registrableDomainsToRemove
        invariant swappedProcessesPerRegistrableDomain ==
                    map d | d in old(swappedProcessesPerRegistrableDomain)
                            && (d !in registrableDomainsToRemove || d in toRemove)
                          :: old(swappedProcessesPerRegistrableDomain)[d]
        decreases |toRemove|
      {
        var d :| d in toRemove;
        swappedProcessesPerRegistrableDomain := map e | e in swappedProcessesPerRegistrableDomain && e != d
                                                      :: swappedProcessesPerRegistrableDomain[e];
        toRemove := toRemove - {d};
      }
    }

    // ---------------------------------------------------------------- choosing a process

    /** Whether the scan must find a process on the requested data store: only when a default
        data store exists and the request is for another one. */
    function MustMatchDataStore(dataStore: DataStore): bool
    {
      configuration.defaultDataStore.Some? && configuration.defaultDataStore.value != dataStore
    }

    /** The live-process scan of processForRegistrableDomain. */
    method FirstReusableProcess(dataStore: DataStore) returns (i: nat)
      requires forall p :: p in processes ==> p in records
      ensures i == FirstReusableIndex(processes, records, prewarmedProcess, MustMatchDataStore(dataStore), dataStore)
    {
      var mustMatchDataStore := MustMatchDataStore(dataStore);
      i := 0;
      while i < |processes|
        invariant i <= |processes|
        invariant forall j :: 0 <= j < i ==> !Reusable(records, prewarmedProcess, processes[j], mustMatchDataStore, dataStore)
      {
        var process := processes[i];
        if prewarmedProcess == Some(process) || records[process].isDummy {
          i := i + 1;
          continue;
        }
        if records[process].runsServiceWorkers {
          i := i + 1;
          continue;
        }
        if mustMatchDataStore && records[process].dataStore != Some(dataStore) {
          i := i + 1;
          continue;
        }
        return;
      }
    }

    /** What processForRegistrableDomain promises, from `old` to now: the process cache and
        a suspended page first (for a non-empty domain), and otherwise what PoolSelected says. */
    twostate predicate DomainSelected(dataStore: DataStore, domain: Domain, cacheHit: Option<ProcessId>,
                                      suspendedHit: Option<ProcessId>, p: ProcessId, source: DomainSource,
                                      new hint: Option<PrewarmHint>)
      reads this
    {
      && (source == FromProcessCache <==> domain != "" && cacheHit.Some?)
      && (source == FromSuspendedPage <==> domain != "" && cacheHit.None? && suspendedHit.Some?)
      && (source == FromProcessCache ==>
            p == cacheHit.value && p in processes && processes == old(processes)
            && prewarmedProcess == old(prewarmedProcess) && hint.None?
            && p in old(records) && records == old(records)[p := old(records)[p].(inProcessCache := false)])
      && (source == FromSuspendedPage ==>
            p == suspendedHit.value && p in processes && processes == old(processes)
            && prewarmedProcess == old(prewarmedProcess) && hint.None? && records == old(records))
      && (source != FromProcessCache && source != FromSuspendedPage ==>
            PoolSelected(dataStore, domain, p, source, hint))
    }

    /** The rest of processForRegistrableDomain, from `old` to now: the prewarmed slot, then
        a new process unless all pages share one process, then the first live process the
        scan accepts, and a new process when there is none. The slot is empty afterwards. */
    twostate predicate PoolSelected(dataStore: DataStore, domain: Domain, p: ProcessId, source: DomainSource,
                                    new hint: Option<PrewarmHint>)
      reads this
    {
      && p in processes
      && (forall q :: q in old(processes) ==> q in processes)
      && prewarmedProcess.None?
      && (source == FromPrewarmedSlot <==>
            old(prewarmedProcess).Some? && old(prewarmedProcess).value in old(records)
            && !old(records)[old(prewarmedProcess).value].terminated)
      && (source == FromPrewarmedSlot ==>
            p == old(prewarmedProcess).value && processes == old(processes) && p in old(records)
            && records == old(records)[p := old(records)[p].(isPrewarmed := false, dataStore := Some(dataStore))])
      && (hint.Some? ==> source == FromPrewarmedSlot && domain != "")
      && (source == FromPrewarmedSlot && domain != "" ==> hint == PrewarmHintFor(p, domain))
      && (source == FromLiveProcess ==>
            configuration.usesSingleWebProcess && records == old(records) && processes == old(processes)
            && (forall q :: q in processes ==> q in records)
            && var i := FirstReusableIndex(processes, records, None, MustMatchDataStore(dataStore), dataStore);
               i < |processes| && p == processes[i])
      && (source == FromNewProcess ==>
            p !in old(records) && processes == old(processes) + [p]
            && records == old(records)[p := NewProcess(Some(dataStore), false, false)])
      && (source == FromNewProcess && configuration.usesSingleWebProcess ==>
            (forall q :: q in old(processes) ==> q in old(records))
            && FirstReusableIndex(old(processes), old(records), None, MustMatchDataStore(dataStore), dataStore)
               == |old(processes)|)
      && (source == FromPrewarmedSlot || source == FromLiveProcess || source == FromNewProcess)
    }

    /** processForRegistrableDomain. `cacheHit` is what the process cache hands over for the
        domain and data store, `suspendedHit` the process of a reusable suspended page. */
    method ProcessForRegistrableDomain(dataStore: DataStore, domain: Domain, cacheHit: Option<ProcessId>,
                                       suspendedHit: Option<ProcessId>)
      returns (p: ProcessId, source: DomainSource, hint: Option<PrewarmHint>)
      requires Valid()
      requires cacheHit.Some? ==> cacheHit.value in processes
      requires suspendedHit.Some? ==> suspendedHit.value in processes
      modifies this`processes, this`records, this`nextProcessId, this`prewarmedProcess
      ensures Valid()
      ensures DomainSelected(dataStore, domain, cacheHit, suspendedHit, p, source, hint)
    {
      if domain != "" {
        if cacheHit.Some? {
          p := cacheHit.value;
          records := records[p := records[p].(inProcessCache := false)];
          SameShapeKeepsTableValid(old(Table()), Table());
          return p, FromProcessCache, None;
        }
        if suspendedHit.Some? {
          return suspendedHit.value, FromSuspendedPage, None;
        }
      }
      p, source, hint := ProcessFromPool(dataStore, domain);
    }

    /** The part of processForRegistrableDomain after the process cache and the suspended
        pages: the prewarmed process, a new process, or a live process. */
    method ProcessFromPool(dataStore: DataStore, domain: Domain) returns (p: ProcessId, source: DomainSource, hint: Option<PrewarmHint>)
      requires Valid()
      modifies this`processes, this`records, this`nextProcessId, this`prewarmedProcess
      ensures Valid()
      ensures PoolSelected(dataStore, domain, p, source, hint)
    {
      hint := None;
      var taken := TryTakePrewarmedProcess(dataStore);
      if taken.Some? {
        p := taken.value;
        if domain != "" {
          hint := PrewarmHintFor(p, domain);
        }
        source := FromPrewarmedSlot;
        return;
      }

      if !configuration.usesSingleWebProcess {
        p := CreateNewWebProcess(Some(dataStore), false);
        source := FromNewProcess;
        return;
      }

      var i := FirstReusableProcess(dataStore);
      if i < |processes| {
        p := processes[i];
        source := FromLiveProcess;
        return;
      }
      p := CreateNewWebProcess(Some(dataStore), false);
      source := FromNewProcess;
    }

    /** processForNavigationInternal: the decision chain, carried out. Keeping the source
        changes nothing (a source that has committed no load gets the target domain's prewarm
        information); domain-based selection goes through processForRegistrableDomain; using
        the back/forward item's process first takes that process out of the process cache.
        `suspendedPageReusable`, `cacheHit` and `suspendedHit` are the answers of the
        suspended page, the process cache and the suspended-page lookup. */
    method ProcessForNavigationInternal(
      navigation: Navigation, page: PageContext, sourceProcess: ProcessId, pageSourceURL: URL,
      requestedByClient: bool, dataStore: DataStore, suspendedPageReusable: bool,
      cacheHit: Option<ProcessId>, suspendedHit: Option<ProcessId>)
      returns (p: ProcessId, suspendedPage: Option<SuspendedPage>, reason: Reason, hint: Option<PrewarmHint>,
               ghost source: DomainSource)
      requires Valid()
      requires sourceProcess in processes
      requires navigation.targetItem.Some? && navigation.targetItem.value.suspendedPage.Some? ==>
                 navigation.targetItem.value.suspendedPage.value.process in processes
      requires cacheHit.Some? ==> cacheHit.value in processes
      requires suspendedHit.Some? ==> suspendedHit.value in processes
      modifies this`processes, this`records, this`nextProcessId, this`prewarmedProcess
      ensures Valid()
      ensures p in processes && p in records && sourceProcess in processes
      ensures var d := NavigationPolicy.Decide(configuration, old(automationSessionActive), old(records),
                                                old(swappedProcessesPerRegistrableDomain), sourceProcess, navigation, page,
                                                pageSourceURL, requestedByClient, dataStore, suspendedPageReusable);
              && reason == d.reason
              && (d.KeepSourceProcess? ==>
                    p == sourceProcess && suspendedPage.None? && Table() == old(Table())
                    && hint == (if reason == NoCommittedProvisionalLoads
                                then PrewarmHintFor(sourceProcess, navigation.targetURL.registrableDomain) else None))
              && (d.UseProcess? ==>
                    p == d.process && suspendedPage == d.suspendedPage && hint.None?
                    && processes == old(processes) && prewarmedProcess == old(prewarmedProcess)
                    && records == (if reason == UsingBackForwardItemProcess && old(records)[p].inProcessCache
                                   then old(records)[p := old(records)[p].(inProcessCache := false)]
                                   else old(records)))
              && (d.SelectByDomain? ==>
                    suspendedPage.None?
                    && DomainSelected(dataStore, navigation.targetURL.registrableDomain,
                                      cacheHit, suspendedHit, p, source, hint))
    {
      var d := NavigationPolicy.Decide(configuration, automationSessionActive, records,
                                       swappedProcessesPerRegistrableDomain, sourceProcess, navigation, page,
                                       pageSourceURL, requestedByClient, dataStore, suspendedPageReusable);
      assert d.UseProcess? ==> d.process in processes by {
        // a back/forward item's live process has not exited, a remembered swapped process is live
        assert ExitedAreTerminated(Table()) && OriginCacheSetFits(Table());
      }
      p, suspendedPage, hint, source := CarryOutDecision(d, sourceProcess, navigation.targetURL.registrableDomain,
                                                 dataStore, cacheHit, suspendedHit);
      reason := d.reason;
    }

    /** Carries out a decision of the chain: keeping the source changes nothing (a source that
        has committed no load gets the target domain's prewarm information); domain-based
        selection goes through processForRegistrableDomain; using the back/forward item's
        process first takes that process out of the process cache. The ghost `source` says
        where a domain-based selection found its process; a kept or reused process is live. */
    method CarryOutDecision(d: NavigationPolicy.Decision, sourceProcess: ProcessId, domain: Domain, dataStore: DataStore,
                            cacheHit: Option<ProcessId>, suspendedHit: Option<ProcessId>)
      returns (p: ProcessId, suspendedPage: Option<SuspendedPage>, hint: Option<PrewarmHint>, ghost source: DomainSource)
      requires Valid()
      requires sourceProcess in processes
      requires d.UseProcess? ==> d.process in processes
      requires cacheHit.Some? ==> cacheHit.value in processes
      requires suspendedHit.Some? ==> suspendedHit.value in processes
      modifies this`processes, this`records, this`nextProcessId, this`prewarmedProcess
      ensures Valid()
      ensures p in processes && p in records
      ensures d.KeepSourceProcess? ==>
                p == sourceProcess && suspendedPage.None? && Table() == old(Table())
                && hint == (if d.reason == NoCommittedProvisionalLoads then PrewarmHintFor(sourceProcess, domain) else None)
      ensures d.UseProcess? ==>
                p == d.process && suspendedPage == d.suspendedPage && hint.None?
                && processes == old(processes) && prewarmedProcess == old(prewarmedProcess)
                && records == (if d.reason == UsingBackForwardItemProcess && old(records)[p].inProcessCache
                               then old(records)[p := old(records)[p].(inProcessCache := false)]
                               else old(records))
      ensures d.SelectByDomain? ==>
                suspendedPage.None? && DomainSelected(dataStore, domain, cacheHit, suspendedHit, p, source, hint)
    {
      suspendedPage := None;
      hint := None;
      match d
      case KeepSourceProcess(reason) =>
        p, source := sourceProcess, FromLiveProcess;
        if reason == NoCommittedProvisionalLoads {
          hint := PrewarmHintFor(sourceProcess, domain);
        }
      case SelectByDomain(_) =>
        p, source, hint := ProcessForRegistrableDomain(dataStore, domain, cacheHit, suspendedHit);
      case UseProcess(process, page, reason) =>
        p, source := process, FromLiveProcess;
        suspendedPage := page;
        if reason == UsingBackForwardItemProcess {
          TakeOutOfProcessCache(p);
        }
    }

    /** Using a back/forward item's process takes that process out of the process cache,
        if it is there; nothing else changes. */
    method TakeOutOfProcessCache(p: ProcessId)
      requires Valid()
      requires p in records
      modifies this`records
      ensures Valid()
      ensures records == if old(records)[p].inProcessCache
                         then old(records)[p := old(records)[p].(inProcessCache := false)]
                         else old(records)
    {
      if records[p].inProcessCache {
        records := records[p := records[p].(inProcessCache := false)];
        SameShapeKeepsTableValid(old(Table()), Table());
      }
    }

    /** processForNavigation: chooses as processForNavigationInternal does, then turns on
        automatic prewarming for a swap the client did not ask for (unless the client set
        prewarming itself), and in keep-and-reuse mode remembers the source process for the
        source URL's domain whenever the navigation leaves it. */
    method ProcessForNavigation(
      navigation: Navigation, page: PageContext, sourceProcess: ProcessId, pageSourceURL: URL,
      requestedByClient: bool, dataStore: DataStore, suspendedPageReusable: bool,
      cacheHit: Option<ProcessId>, suspendedHit: Option<ProcessId>)
      returns (p: ProcessId, suspendedPage: Option<SuspendedPage>, reason: Reason, hint: Option<PrewarmHint>)
      requires Valid()
      requires sourceProcess in processes
      requires navigation.targetItem.Some? && navigation.targetItem.value.suspendedPage.Some? ==>
                 navigation.targetItem.value.suspendedPage.value.process in processes
      requires cacheHit.Some? ==> cacheHit.value in processes
      requires suspendedHit.Some? ==> suspendedHit.value in processes
      modifies this`processes, this`records, this`nextProcessId, this`prewarmedProcess,
               this`clientWouldBenefitFromAutomaticProcessPrewarming, this`swappedProcessesPerRegistrableDomain
      ensures Valid()
      ensures p in processes && p in records
      ensures var d := NavigationPolicy.Decide(configuration, old(automationSessionActive), old(records),
                                                old(swappedProcessesPerRegistrableDomain), sourceProcess, navigation,
                                                page, pageSourceURL, requestedByClient, dataStore, suspendedPageReusable);
              reason == d.reason && (d.KeepSourceProcess? ==> p == sourceProcess) && (d.UseProcess? ==> p == d.process)
      ensures clientWouldBenefitFromAutomaticProcessPrewarming ==
                (old(clientWouldBenefitFromAutomaticProcessPrewarming)
                 || (!requestedByClient && p != sourceProcess && !configuration.wasAutomaticProcessWarmingSetByClient))
      ensures swappedProcessesPerRegistrableDomain ==
                if configuration.alwaysKeepAndReuseSwappedProcesses && p != sourceProcess
                then old(swappedProcessesPerRegistrableDomain)[pageSourceURL.registrableDomain := sourceProcess]
                else old(swappedProcessesPerRegistrableDomain)
    {
      ghost var source;
      p, suspendedPage, reason, hint, source := ProcessForNavigationInternal(
        navigation, page, sourceProcess, pageSourceURL, requestedByClient, dataStore, suspendedPageReusable,
        cacheHit, suspendedHit);

      DidChooseProcessForNavigation(p, sourceProcess, requestedByClient, pageSourceURL);
    }

    /** The completion step of processForNavigation, once the process `p` is chosen. */
    method DidChooseProcessForNavigation(p: ProcessId, sourceProcess: ProcessId, requestedByClient: bool, pageSourceURL: URL)
      requires Valid()
      requires sourceProcess in processes
      modifies this`clientWouldBenefitFromAutomaticProcessPrewarming, this`swappedProcessesPerRegistrableDomain
      ensures Valid()
      ensures clientWouldBenefitFromAutomaticProcessPrewarming ==
                (old(clientWouldBenefitFromAutomaticProcessPrewarming)
                 || (!requestedByClient && p != sourceProcess && !configuration.wasAutomaticProcessWarmingSetByClient))
      ensures swappedProcessesPerRegistrableDomain ==
                if configuration.alwaysKeepAndReuseSwappedProcesses && p != sourceProcess
                then old(swappedProcessesPerRegistrableDomain)[pageSourceURL.registrableDomain := sourceProcess]
                else old(swappedProcessesPerRegistrableDomain)
    {
      var doingAnAutomaticProcessSwap := !requestedByClient && p != sourceProcess;
      if doingAnAutomaticProcessSwap && !configuration.wasAutomaticProcessWarmingSetByClient
         && !clientWouldBenefitFromAutomaticProcessPrewarming {
        clientWouldBenefitFromAutomaticProcessPrewarming := true;
      }

      if configuration.alwaysKeepAndReuseSwappedProcesses && p != sourceProcess {
        AddProcessToOriginCacheSet(sourceProcess, pageSourceURL);
      }
    }
  }
}
