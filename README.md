# WebKit process pool, WPE scroll gestures and plug-in process bookkeeping, in Dafny

This project models three self-contained parts of WebKit's multi-process architecture and
proves properties of each.

* ProcessPool: the UI process's **WebProcessPool**.
  - How a content process is chosen for a navigation. A first-match-wins chain keeps the
    source process, reuses a back/forward item's process or suspended page, or falls back
    to domain-based selection. Domain-based selection tries, in order: the process cache,
    a suspended page, the prewarmed process, a new process, and a scan of the live processes.
  - The containers around that choice:
    - the live process list and disconnectProcess;
    - the single prewarmed-process slot;
    - the dummy processes of pages whose launch is delayed;
    - the processes kept per registrable domain after a swap (the "origin cache set");
    - the pages using each session;
    - the bounded prewarm-information map;
    - the GPU process crash window with its reset timer.
  - Processes are records in an arena keyed by identifier (`records`); `processes` is the
    ordered live list. `Valid()` ties them together: the live list has no repeats, the
    slot holds a live prewarmed process, each dummy-map entry and each live dummy name each
    other, every origin-cache-set entry is live, a record outside the live list is
    terminated, no session has an empty page set, the prewarm map holds at most 100
    entries, and the crash window is consistent.
  - disconnectProcess runs once a process has exited, cleanly or by a crash (the pool's own
    callers shut the process down first). The model therefore marks the disconnected
    process's record terminated, so a back/forward item never leads back to it.
* NavigationPolicy and GpuCrashPolicy hold the pure parts of the pool. `Decide` is
  processForNavigationInternal's decision chain as a function. `AfterCrash` is the crash
  window's bookkeeping. The pool's methods are proved against both.
* ScrollGesture: the WPE **ScrollGestureController** (the WPE >= 1.5 two-dimensional axis
  event variant). It turns down/motion/up touch events into smooth-scroll deltas, with axis
  locking. `Step` specifies one event. The class's `HandleEvent` is proved to update the
  fields exactly as `Step` says. Lemmas about `Run` (a sequence of events) state what holds
  across a whole gesture.
* PluginHost: the **PluginProcess** of the Netscape plug-in host. It keeps the list of web
  process connections, the lazily obtained plug-in module, the module load count (taken for
  the first connection, given back with the last), and the termination counter that
  connections and the minimum-lifetime timer hold up. The load count is kept as the code
  keeps it. The comments at PluginProcess/PluginProcess.cpp:83 and :176 promise that the
  decrement balances the increment, but the code does not always keep that promise (see
  "## Findings"). Suppose getOrCreate fails for the first
  connection and a later call obtains the module while that connection still exists. Then
  no load count was taken, but one is still given back when the last connection goes, and
  the count ends one short (`LoadCountGoesNegative`). The ghost flag `loadCountMissed`
  records this, and the invariant states the count exactly in both cases.

Collaborators whose code is not part of this model become inputs:

* An answer of the process cache (`cacheHit`), of the suspended-page lookup
  (`suspendedHit`) or of a suspended page's wait-until-ready-to-unsuspend
  (`suspendedPageReusable`) is an `Option` or `bool` parameter.
* The process cache's takeProcess and removeProcess are modelled by clearing the process's
  `inProcessCache` flag. The clears of the back/forward cache, of the process cache and of
  a session's cached processes are returned as a log of `CollaboratorCall`s.
* The plug-in module's getOrCreate answer is a parameter, `moduleLoads`, of each operation
  that may ask for the module; it can differ from one call to the next.
* The module's site list is a parameter, and so is the current time.

## Model

| member | source | states |
|---|---|---|
| ProcessPool.NewProcess | UIProcess/WebProcessPool.cpp:646 | a newly created process is not terminated, has committed no load, runs no service worker, is not in the process cache, and has the given data store and prewarmed/dummy flags |
| ProcessPool.WithPage | UIProcess/WebProcessPool.cpp:1101-1105 | beginning a page adds its session's key if absent and adds the page to that session's set; other sessions are untouched |
| ProcessPool.WithoutPage | UIProcess/WebProcessPool.cpp:1107-1122 | ending a page removes it from its session; the session keeps its key exactly when pages remain; other sessions are untouched |
| ProcessPool.EndUndoesBegin | UIProcess/WebProcessPool.cpp:1101-1122 | ending a page that was just begun (and was new) restores the session map exactly |
| ProcessPool.PageMapsKeepNoEmptySession | UIProcess/WebProcessPool.cpp:1101-1122 | begin and end both keep every session's page set non-empty, so the key is present exactly while some page uses the session |
| ProcessPool.SameShapeKeepsTableValid | UIProcess/WebProcessPool.cpp:889-897 | changing process records without changing their data stores or dummy/prewarmed flags and without reviving a terminated one (terminating, leaving the cache) keeps the pool's invariant |
| ProcessPool.TerminationKeepsShape | UIProcess/WebProcessPool.cpp:1470-1476 | terminating processes changes only their terminated flag |
| ProcessPool.RemoveKey | UIProcess/WebProcessPool.cpp:946 | taking a key out of a map removes exactly that key and keeps every other value |
| ProcessPool.WithoutProcess | UIProcess/WebProcessPool.cpp:1768-1781 | a domain stays in the origin cache set exactly when its entry does not name the process, with its value unchanged |
| ProcessPool.Disconnected | UIProcess/WebProcessPool.cpp:938-971 | the table after disconnectProcess; what it means is stated by DisconnectKeepsTableValid and DisconnectProcess |
| ProcessPool.DisconnectKeepsTableValid | UIProcess/WebProcessPool.cpp:938-971 | disconnecting a live process keeps the invariant (its record, now terminated, is outside the live list) and leaves it in neither the live list, the prewarm slot, the dummy map nor the origin cache set |
| ProcessPool.WithNewProcess | UIProcess/WebProcessPool.cpp:649 | a new process is appended to the live list with a fresh identifier and its record |
| ProcessPool.NewDummyKeepsTableValid | UIProcess/WebProcessPool.cpp:1051-1056 | a new dummy process for a session that has none, entered in the dummy map, keeps the invariant |
| ProcessPool.NewProcessKeepsTableValid | UIProcess/WebProcessPool.cpp:638-652 | a new non-dummy process keeps the invariant; a prewarmed one may take the slot only when it is empty |
| ProcessPool.Reusable | UIProcess/WebProcessPool.cpp:1002-1010 | the scan's acceptance test: not the prewarmed process, not a dummy, running no service worker, and on the requested data store when data stores must match |
| ProcessPool.FirstReusableIndex | UIProcess/WebProcessPool.cpp:1002-1012 | the scan's result is the first live process that is not prewarmed, not a dummy, runs no service worker and (when required) has the data store; every earlier one is rejected |
| ProcessPool.WebProcessPool.constructor | UIProcess/WebProcessPool.cpp:251-275 | a new pool is valid, with no process and no record, an empty slot, empty maps, count 0, the reset timer off and process termination enabled |
| ProcessPool.WebProcessPool.SetAutomationSession | UIProcess/WebProcessPool.cpp:1494-1499 | the pool records whether an automation session is set |
| ProcessPool.WebProcessPool.CreateNewWebProcess | UIProcess/WebProcessPool.cpp:638-652 | a fresh process joins the end of the live list with a new record; a prewarmed one fills the empty slot; the invariant is kept |
| ProcessPool.WebProcessPool.DummyProcessProxyFor | UIProcess/WebProcessPool.cpp:1049-1056 | the session's existing dummy process is returned unchanged, or a fresh dummy is created, appended and entered in the dummy map |
| ProcessPool.WebProcessPool.DisconnectProcess | UIProcess/WebProcessPool.cpp:938-971 | the process, which must be live, is removed from the list exactly once; the slot is cleared if it held it, otherwise a dummy's entry is dropped; every origin-cache-set entry naming it is gone; its record, and only its record, is marked terminated, the process having exited |
| ProcessPool.WebProcessPool.PrewarmProcess | UIProcess/WebProcessPool.cpp:880-887 | a full slot changes nothing; an empty slot receives a new prewarmed process on no data store |
| ProcessPool.WebProcessPool.TryTakePrewarmedProcess | UIProcess/WebProcessPool.cpp:654-679 | an empty slot yields nothing; a terminated prewarmed process is dropped from the slot and not returned; otherwise it is returned, no longer prewarmed, on the requested data store; the slot is empty afterwards |
| ProcessPool.WebProcessPool.PrewarmHintFor | UIProcess/WebProcessPool.cpp:1957-1962 | a prewarm message is sent exactly when information for the domain exists, and it carries that information |
| ProcessPool.WebProcessPool.DidCollectPrewarmInformation | UIProcess/WebProcessPool.cpp:1944-1955 | the domain maps to the new information; below 100 entries nothing else changes; at 100 one existing entry is evicted first, so the map never exceeds 100 |
| ProcessPool.WebProcessPool.ShouldTerminate | UIProcess/WebProcessPool.cpp:899-907 | a process may be terminated exactly when termination is enabled and swapped processes are not always kept |
| ProcessPool.WebProcessPool.EnableProcessTermination | UIProcess/WebProcessPool.cpp:889-897 | termination is enabled; every live process is terminated unless swapped processes are always kept, and nothing else in the records changes |
| ProcessPool.WebProcessPool.TerminateEachTerminable | UIProcess/WebProcessPool.cpp:892-896 | the loop terminates exactly the snapshot's processes that shouldTerminate accepts |
| ProcessPool.WebProcessPool.TerminateAllWebContentProcesses | UIProcess/WebProcessPool.cpp:1470-1476 | exactly the live processes are terminated; the invariant is kept |
| ProcessPool.WebProcessPool.TerminateEach | UIProcess/WebProcessPool.cpp:1473-1475 | the loop terminates exactly the snapshot's processes |
| ProcessPool.WebProcessPool.HandleMemoryPressureWarning | UIProcess/WebProcessPool.cpp:1208-1220 | the back/forward cache is cleared, then the process cache; the prewarmed process, if any, is shut down: it exits and is disconnected, so it leaves the live list and its record is terminated; the whole table afterwards is Disconnected of the old table for that process, or the old table when the slot was empty, so the dummy map is unchanged and the process's origin-cache entries are gone; the slot is empty afterwards |
| ProcessPool.WebProcessPool.EnsureGPUProcess | UIProcess/WebProcessPool.cpp:488-493 | a GPU process exists afterwards |
| ProcessPool.WebProcessPool.GpuProcessCrashed | UIProcess/WebProcessPool.cpp:495-512 | the GPU process is gone; the crash window advances as AfterCrash says; exactly the live processes are terminated when the crash ends the window, none otherwise |
| ProcessPool.WebProcessPool.ResetGPUProcessCrashCountTimerFired | UIProcess/WebProcessPool.cpp:269 | the armed timer firing resets the count to 0 and leaves the timer off |
| ProcessPool.WebProcessPool.PageBeginUsingWebsiteDataStore | UIProcess/WebProcessPool.cpp:1101-1105 | the page, which must be new for its session, is added as WithPage says; the invariant is kept |
| ProcessPool.WebProcessPool.PageEndUsingWebsiteDataStore | UIProcess/WebProcessPool.cpp:1107-1122 | the page, which must be present, is removed as WithoutPage says; the ephemeral session's cached processes are cleared exactly when its last page ends |
| ProcessPool.WebProcessPool.HasPagesUsingWebsiteDataStore | UIProcess/WebProcessPool.cpp:1124-1127 | true exactly when the session has a key, which is exactly when some page uses it |
| ProcessPool.WebProcessPool.AddProcessToOriginCacheSet | UIProcess/WebProcessPool.cpp:1756-1766 | the URL's domain now names the process, overwriting any earlier entry |
| ProcessPool.WebProcessPool.RegistrableDomainsMappedTo | UIProcess/WebProcessPool.cpp:1773-1777 | the first loop collects exactly the domains whose entry names the process |
| ProcessPool.WebProcessPool.RemoveProcessFromOriginCacheSet | UIProcess/WebProcessPool.cpp:1768-1781 | every entry naming the process is removed and no other |
| ProcessPool.WebProcessPool.MustMatchDataStore | UIProcess/WebProcessPool.cpp:996-1000 | the scan must match data stores exactly when a default data store exists and the request is for another one |
| ProcessPool.WebProcessPool.FirstReusableProcess | UIProcess/WebProcessPool.cpp:1002-1012 | the scan loop stops at FirstReusableIndex |
| ProcessPool.WebProcessPool.ProcessForRegistrableDomain | UIProcess/WebProcessPool.cpp:973-1014 | for a non-empty domain, the cache's process is used if there is one (and leaves the cache), else a suspended page's process; otherwise as ProcessFromPool says; the invariant is kept |
| ProcessPool.WebProcessPool.ProcessFromPool | UIProcess/WebProcessPool.cpp:986-1013 | the live prewarmed process is taken (with the domain's prewarm information sent for a non-empty domain); else a new process is made outside single-process mode; else the first reusable live process; else a new process; the slot is empty afterwards |
| ProcessPool.WebProcessPool.ProcessForNavigationInternal | UIProcess/WebProcessPool.cpp:1808-1898 | the reason and process follow Decide; keeping the source changes nothing, and without committed loads it sends the target domain's prewarm information; reusing a back/forward item's process takes it out of the process cache; domain-based selection behaves as ProcessForRegistrableDomain; the chosen process is always live |
| ProcessPool.WebProcessPool.CarryOutDecision | UIProcess/WebProcessPool.cpp:1813-1898 | each kind of decision is carried out as ProcessForNavigationInternal states, with the invariant kept and the chosen process live |
| ProcessPool.WebProcessPool.TakeOutOfProcessCache | UIProcess/WebProcessPool.cpp:1856-1859 | a process in the cache leaves it without being shut down; nothing else changes |
| ProcessPool.WebProcessPool.ProcessForNavigation | UIProcess/WebProcessPool.cpp:1783-1806 | as ProcessForNavigationInternal for the reason and process, which is live; an automatic swap turns on prewarming unless the client set it; in keep-and-reuse mode a swap remembers the source process for the source URL's domain |
| ProcessPool.WebProcessPool.DidChooseProcessForNavigation | UIProcess/WebProcessPool.cpp:1785-1804 | the completion step's two updates, each exactly when its condition holds |
| NavigationPolicy.EffectiveSourceURL | UIProcess/WebProcessPool.cpp:1869-1878 | for a DOM-opened page showing its initial empty document with a requester origin, the compared URL is that origin, else the page URL; when the URL so chosen is empty and a related page exists, the related page's URL is compared instead, and otherwise the chosen URL is kept |
| NavigationPolicy.IsSameSite | UIProcess/WebProcessPool.cpp:1880 | a navigation is same-site when either URL is invalid or the source is empty or about:; between two URLs to which none of that applies, exactly when the registrable domains match |
| NavigationPolicy.LiveLastProcess | UIProcess/WebProcessPool.cpp:1853-1854 | the item's last process is used exactly when the pool knows it and it is not terminated |
| NavigationPolicy.ReusableSwappedProcess | UIProcess/WebProcessPool.cpp:1885-1895 | the remembered process for the target domain is reused exactly in keep-and-reuse mode and when it uses the navigation's data store |
| NavigationPolicy.Decide | UIProcess/WebProcessPool.cpp:1817-1897 | every reason holds exactly under its condition. The seven early exits come in their fixed order (the client's request goes to domain-based selection, the others keep the source). Then the item's suspended page is used with its process, or, when not reusable, domain-based selection runs. Then the item's live last process is used. Then same-origin and same-site keep the source process. Cross-site reuses the remembered process or goes to domain-based selection |
| NavigationPolicy.SameSiteStaysInSourceProcess | UIProcess/WebProcessPool.cpp:1880-1881 | with no early exit and no back/forward item, a target on the source's own domain keeps the source process |
| NavigationPolicy.CrossSiteLeavesSourceProcess | UIProcess/WebProcessPool.cpp:1880-1897 | between valid, non-empty, non-about: URLs of different domains, the decision is cross-site and the decision is never to keep the source; it reuses the remembered process or goes to domain-based selection, which may still pick the source process through the process cache or the single-process scan |
| NavigationPolicy.UnsuspendOutcomeMattersOnlyForSuspendedPages | UIProcess/WebProcessPool.cpp:1843-1851 | the suspended page's readiness changes the decision only when the target item has a suspended page |
| GpuCrashPolicy.AfterCrash | UIProcess/WebProcessPool.cpp:505-511 | the crash terminates everything exactly when the incremented count exceeds 2, then the window resets; otherwise the count goes up and the timer is armed; the window invariant is kept |
| GpuCrashPolicy.AfterResetTimerFired | UIProcess/WebProcessPool.cpp:269 | the timer firing returns the window to its initial state |
| GpuCrashPolicy.Run | UIProcess/WebProcessPool.cpp:495-512 | any sequence of crashes and timer firings keeps the window invariant and terminates at most once per three events, counting the crashes already in the window |
| GpuCrashPolicy.CrashBurst | UIProcess/WebProcessPool.cpp:505-509 | k crashes with no timer firing terminate everything once per third counted crash and leave the remainder counted |
| GpuCrashPolicy.ThirdCrashTerminates | UIProcess/WebProcessPool.cpp:163-164 | from a fresh window two crashes terminate nothing and the third terminates once and resets the window |
| GpuCrashPolicy.ResetBreaksTheStreak | UIProcess/WebProcessPool.cpp:269 | after the reset timer fires, the next two crashes terminate nothing |
| PluginHost.PluginProcess.constructor | PluginProcess/PluginProcess.cpp:57-63 | a new plug-in process has no connection, no module, load count 0, no termination hold and no timer |
| PluginHost.PluginProcess.NetscapePluginModule | PluginProcess/PluginProcess.cpp:90-105 | the module is asked for only while none is held, and then held exactly when getOrCreate yields one on this call; a held module is kept |
| PluginHost.PluginProcess.ShouldTerminate | PluginProcess/PluginProcess.cpp:107-110 | true exactly when no connection exists, in which case the load count is 0, or -1 once an increment was missed |
| PluginHost.PluginProcess.LowMemoryHandler | PluginProcess/PluginProcess.cpp:133-136 | the handler terminates exactly when shouldTerminate holds |
| PluginHost.PluginProcess.DisableTermination | PluginProcess/PluginProcess.cpp:182 | one more hold on termination |
| PluginHost.PluginProcess.EnableTermination | PluginProcess/PluginProcess.cpp:87 | one hold on termination fewer |
| PluginHost.PluginProcess.CreateWebProcessConnection | PluginProcess/PluginProcess.cpp:146-183 | exactly one new connection is appended; the load count goes up only when the list was empty and the module is available; a module first obtained while other connections exist is a missed increment; termination is held once more; the proxy is told |
| PluginHost.PluginProcess.RemoveWebProcessConnection | PluginProcess/PluginProcess.cpp:75-88 | the connection, which must be present, is removed at its index and no other; the load count goes down only when the list becomes empty and a module exists; one termination hold is released |
| PluginHost.PluginProcess.SetMinimumLifetime | PluginProcess/PluginProcess.cpp:219-227 | a lifetime of at most 0 changes nothing; a positive one holds termination and arms the timer |
| PluginHost.PluginProcess.MinimumLifetimeTimerFired | PluginProcess/PluginProcess.cpp:229-232 | the timer firing releases its hold on termination |
| PluginHost.PluginProcess.InitializePluginProcess | PluginProcess/PluginProcess.cpp:124-144 | the low-memory handler is installed, the parameters are recorded, and the minimum lifetime is applied as SetMinimumLifetime says |
| PluginHost.PluginProcess.GetSitesWithData | PluginProcess/PluginProcess.cpp:185-192 | the reply carries the module's sites, or none without a module, and the callback ID; a module first obtained here while connections exist is a missed increment |
| PluginHost.PluginProcess.DeleteWebsiteData | PluginProcess/PluginProcess.cpp:194-207 | all sites' data is cleared up to the elapsed age only when a module exists and the current time is after modifiedSince; exactly one reply carries the callback ID |
| PluginHost.PluginProcess.DeleteWebsiteDataForHostNames | PluginProcess/PluginProcess.cpp:209-217 | with a module, every host is cleared in order with the maximum age, otherwise none; exactly one reply carries the callback ID |
| PluginHost.LoadCountGoesNegative | PluginProcess/PluginProcess.cpp:75-192 | a first connection while getOrCreate fails, then getSitesWithData obtaining the module, then removing the connection leaves the load count at -1 |
| PluginHost.ClearAllHosts | PluginProcess/PluginProcess.cpp:212-213 | one clearSiteData call per host name, in order, with the largest uint64 age |
| ScrollGesture.Elapsed | UIProcess/API/wpe/ScrollGestureController.cpp:58 | the uint32 time difference: the plain difference when time has not wrapped, the difference plus 2^32 otherwise, so that adding it to the start time modulo 2^32 gives the current time |
| ScrollGesture.StartsScrolling | UIProcess/API/wpe/ScrollGestureController.cpp:60-63 | a press becomes a scroll once it has moved a line step on either axis or has been held 200 ms |
| ScrollGesture.InDiagonalBand | UIProcess/API/wpe/ScrollGestureController.cpp:81 | both axes moved at least 8 and less than 15 |
| ScrollGesture.Motion | UIProcess/API/wpe/ScrollGestureController.cpp:54-100 | the motion case of handleEvent; its properties are stated on Step |
| ScrollGesture.Step | UIProcess/API/wpe/ScrollGestureController.cpp:41-126 | down records the press and re-arms both locks; motion starts handling only for an active press moved a line step or held 200 ms, and handles only when handling; a handled motion breaks a lock exactly when it was broken, its axis moved 30, or the movement is diagonal within [8, 15), and nothing but down re-arms one; the 2D smooth axis event carries the touch time, the start position and the deltas with a locked axis suppressed; up ends a handled gesture, stamps the event with the touch time and zero deltas, keeps the locks and the start point, and otherwise changes nothing; other events change nothing; only motion returns true |
| ScrollGesture.Run | UIProcess/API/wpe/ScrollGestureController.cpp:41-126 | one handled answer per event, and only motion events are ever handled |
| ScrollGesture.VerticalDragScrollsVerticallyOnly | UIProcess/API/wpe/ScrollGestureController.cpp:86-87 | with the horizontal lock unbroken, a handled motion of at least 15 vertically and less than 15 horizontally scrolls by the vertical movement only |
| ScrollGesture.HorizontalDragScrollsHorizontallyOnly | UIProcess/API/wpe/ScrollGestureController.cpp:86-87 | with the vertical lock unbroken, a handled motion of at least 15 horizontally and less than 15 vertically scrolls by the horizontal movement only |
| ScrollGesture.HandlingPersistsUntilUp | UIProcess/API/wpe/ScrollGestureController.cpp:55-64 | once handling, the gesture stays handled through any events without an up |
| ScrollGesture.AxisLocksResetOnlyByDown | UIProcess/API/wpe/ScrollGestureController.cpp:73-84 | a broken axis lock stays broken through any events without a down |
| ScrollGesture.RunKeepsInvariant | UIProcess/API/wpe/ScrollGestureController.cpp:41-126 | in every reachable state, handling implies an active press |
| ScrollGesture.IdleIgnoresAllButDown | UIProcess/API/wpe/ScrollGestureController.cpp:54-124 | with no active press, events other than down change nothing and are never handled |
| ScrollGesture.ScrollGestureController.constructor | UIProcess/API/wpe/ScrollGestureController.h:53-70 | a new controller is not handling, its phase is PhaseNone, and its start and offset are all 0 |
| ScrollGesture.ScrollGestureController.IsHandling | UIProcess/API/wpe/ScrollGestureController.h:49 | the handling flag, read without change |
| ScrollGesture.ScrollGestureController.CurrentPhase | UIProcess/API/wpe/ScrollGestureController.h:47 | the phase, read without change |
| ScrollGesture.ScrollGestureController.CurrentAxisEvent | UIProcess/API/wpe/ScrollGestureController.h:38-45 | the axis event, read without change |
| ScrollGesture.ScrollGestureController.HandleEvent | UIProcess/API/wpe/ScrollGestureController.cpp:41-126 | the fields and the answer are exactly what Step gives for the old state |
| ScrollGesture.ScrollGestureController.HandleMotion | UIProcess/API/wpe/ScrollGestureController.cpp:54-100 | the motion case updates the fields exactly as Step's motion case |
| ScrollGesture.ScrollGestureController.UpdateHandling | UIProcess/API/wpe/ScrollGestureController.cpp:55-64 | handling starts for an active press moved a line step on an axis or held 200 ms, and otherwise is left as it was |
| ScrollGesture.ScrollGestureController.UpdateAxisLocks | UIProcess/API/wpe/ScrollGestureController.cpp:73-84 | each lock is broken by a movement of 30 on its axis or by a diagonal movement in [8, 15) on both axes, and never re-armed |
| Sequences.IndexOf | PluginProcess/PluginProcess.cpp:77 | the first position holding the element |
| Sequences.RemoveFirst | UIProcess/WebProcessPool.cpp:963 | removeFirst drops the first occurrence and keeps the rest in order |
| Sequences.RemoveFirstOfDistinct | UIProcess/WebProcessPool.cpp:963 | on a list without repeats, removeFirst removes exactly that element and keeps the list repeat-free |
| Sequences.AppendFreshKeepsDistinct | UIProcess/WebProcessPool.cpp:649 | appending a new process keeps the live list repeat-free |

## Findings

| source | as written | input that shows it | evidently intended | confidence | as-written member | corrected member |
|---|---|---|---|---|---|---|
| PluginProcess/PluginProcess.cpp:75-192 | createWebProcessConnection takes the load count only when its own netscapePluginModule() call yields a module, while removeWebProcessConnection gives one back whenever a module is held | createWebProcessConnection with getOrCreate failing, then getSitesWithData with getOrCreate succeeding, then removeWebProcessConnection: the count goes 0, 0, -1 | the decrement balances an increment (PluginProcess.cpp:83 and :176), so the count is 0 once no connection exists | low; not executed | PluginHost.LoadCountGoesNegative | PluginHost.PluginProcess.ShouldTerminate |

The corrected member states the balance that was meant, to the extent the code keeps it. With `Valid()`, and as long as no increment was missed (`!loadCountMissed`), the count is exactly `BalancedLoadCount()`. So ShouldTerminate proves that the count is 0 whenever no connection remains. The flag `loadCountMissed` singles out the one sequence above, which breaks the balance.

## Left out

- IPC: every message send is left out. The replies and notifications that stand for a
  protocol outcome are modelled as returned values: the plug-in proxy messages, the prewarm
  message, and the cache-clear calls.
- The process cache, the back/forward cache and the suspended-page lookup: their code is not
  part of this model, so their answers are inputs and no cache policy is assumed.
  processForIdentifier is the pool's own record map.
- ProcessPool.WebProcessPool.HandleMemoryPressureWarning: the two cache clears are recorded
  as calls and do not change the records' inProcessCache flags.
- URLs are reduced to validity, emptiness, about:-ness and a registrable domain.
  RegistrableDomain::matches is modelled as equality of registrable domains, and the
  public-suffix computation is left out.
- TryTakePrewarmedProcess: the GTK/WPE sandbox guard and its early return are left out.
  CreateNewWebProcess: the Cocoa TCC branch is left out. The Cocoa data store comparison of
  the live-process scan is the configuration's `defaultDataStore`.
- initializeNewWebProcess's parameter assembly is left out. Only its prewarm-slot
  assignment is kept.
- DisconnectProcess: the back/forward cache's removeEntriesForProcess and the service
  worker, geolocation and gamepad side channels are left out.
- ProcessPool.WebProcessPool.GpuProcessCrashed: the client's gpuProcessDidCrash callback
  and the per-process gpuProcessCrashed notifications are left out.
- ProcessPool.WebProcessPool.DidCollectPrewarmInformation: random() eviction is an
  arbitrary choice of one existing entry. Only the size bound and the new value are stated.
- ProcessPool.WebProcessPool.ProcessForNavigation: its contract states only the decision's
  reason and process, plus the two completion-step updates. The full effect on the pool is
  stated on ProcessForNavigationInternal.
- ProcessPool.WebProcessPool.ProcessFromPool: the live-process scan compares against the
  prewarm slot after tryTakePrewarmedProcess has emptied it. The model follows the code, so
  the scan's prewarmed test never rejects a process.
- In processForNavigationInternal, an empty requester origin is represented by `None`.
- Timers are an `active` flag plus a fire method, and durations are integers. The
  delays of the crash window (30 s) and of the plug-in minimum lifetime are not modelled
  further.
- PluginHost.PluginProcess.DeleteWebsiteData: the system clock is a parameter and the
  maximum age is the difference in whole seconds.
- PluginHost.PluginProcess.NetscapePluginModule: NetscapePluginModule::getOrCreate is the
  per-call answer `moduleLoads`. The module's own load count object and its
  PrognameShouldBeWebKitPluginHost quirk (Mac) are left out; the process's increments and
  decrements of it are `moduleLoadCount`.
- PluginHost.PluginProcess.CreateWebProcessConnection: the socket or mach port creation
  and the notImplemented platform branch are left out. The connection is a fresh
  identifier.
- The base class's enableTermination/disableTermination are modelled as a counter.
  terminate() is a returned flag of the low-memory handler.
- ScrollGesture.Step: coordinate differences are computed exactly. The int32 wrap-around
  of `touchPoint->x - m_start.x` for points more than 2^31 apart is not modelled. Time
  differences do wrap modulo 2^32, as uint32_t does.
- ScrollGesture.ScrollGestureController.constructor: the header gives m_axisEvent no
  initializer. The model starts it as an all-zero event.
- Followed the code over the header: the header's m_start has no `active` field and the
  header declares no m_xAxisLockBroken/m_yAxisLockBroken. The code uses all three, so the
  model has them, starting false.
- ProcessPool.WebProcessPool.constructor: WebProcessPool.h, which gives
  m_processTerminationEnabled its initial value, is not part of this model. The model
  starts it as `true`, the value enableProcessTermination (WebProcessPool.cpp:891) sets;
  nothing in WebProcessPool.cpp turns it off.
- Only the WPE >= 1.5 branch of the scroll controller is modelled.
  Scrollbar::pixelsPerLineStep is a positive constructor parameter.
