/** The plug-in host process: the connections web content processes hold to it, the lazily
    obtained plug-in module whose load count keeps the module from shutting down while any
    connection exists, and the termination bookkeeping (connections and a minimum lifetime
    keep the process alive). */
module PluginHost {
  import opened Sequences

  type ConnectionId = nat

  /** The largest uint64_t, the maximum age passed when clearing one host's data. */
  const UInt64Max: int := 0xFFFF_FFFF_FFFF_FFFF

  /** Messages the plug-in process sends to its proxy in the UI process. */
  datatype ProxyMessage =
    | DidCreateWebProcessConnection(connection: ConnectionId, supportsAsynchronousPluginInitialization: bool)
    | DidGetSitesWithData(sites: seq<string>, callbackID: nat)
    | DidDeleteWebsiteData(callbackID: nat)
    | DidDeleteWebsiteDataForHostNames(callbackID: nat)

  /** One call of the module's clearSiteData with NP_CLEAR_ALL: the site (empty for all
      sites) and the maximum age in seconds. */
  datatype ClearSiteDataCall = ClearSiteData(site: string, maximumAge: nat)

  datatype PluginProcessCreationParameters = PluginProcessCreationParameters(
    supportsAsynchronousPluginInitialization: bool,
    minimumLifetime: int,
    terminationTimeout: int)

  class PluginProcess {
    var webProcessConnections: seq<ConnectionId>
    var nextConnectionId: ConnectionId
    var hasPluginModule: bool
    /** Increments minus decrements of the module's load count made by this process. */
    var moduleLoadCount: int
    /** The base class's termination counter: disableTermination adds one,
        enableTermination takes one away. */
    var terminationDisabledCount: nat
    var minimumLifetimeTimerActive: bool
    var supportsAsynchronousPluginInitialization: bool
    var lowMemoryHandlerInstalled: bool
    var terminationTimeout: int
    /** How often getOrCreate has been asked for the module. */
    ghost var moduleLookups: nat
    /** The module was first obtained while connections already existed, so the load count
        of that run of connections was never taken, though it is still given back when the
        last connection goes. */
    ghost var loadCountMissed: bool

    /** The load count a balanced process holds: one while any connection exists and the
        module is held. */
    ghost function BalancedLoadCount(): int
      reads this
    {
      if hasPluginModule && webProcessConnections != [] then 1 else 0
    }

    ghost predicate Valid()
      reads this
    {
      && Distinct(webProcessConnections)
      && (forall i :: 0 <= i < |webProcessConnections| ==> webProcessConnections[i] < nextConnectionId)
      // the load count taken for the first connection is given back with the last one, and
      // one missed increment leaves the count one short for good
      && (loadCountMissed ==> hasPluginModule)
      && moduleLoadCount == BalancedLoadCount() - (if loadCountMissed then 1 else 0)
      // every connection, and an armed minimum-lifetime timer, holds off termination
      && terminationDisabledCount >= |webProcessConnections| + (if minimumLifetimeTimerActive then 1 else 0)
    }

    constructor ()
      ensures Valid()
      ensures webProcessConnections == [] && !hasPluginModule && moduleLoadCount == 0 && !loadCountMissed
      ensures terminationDisabledCount == 0 && !minimumLifetimeTimerActive
      ensures !supportsAsynchronousPluginInitialization && !lowMemoryHandlerInstalled
    {
      webProcessConnections := [];
      nextConnectionId := 0;
      hasPluginModule := false;
      moduleLoadCount := 0;
      terminationDisabledCount := 0;
      minimumLifetimeTimerActive := false;
      supportsAsynchronousPluginInitialization := false;
      lowMemoryHandlerInstalled := false;
      terminationTimeout := 0;
      moduleLookups := 0;
      loadCountMissed := false;
    }

    /** netscapePluginModule: asks for the module only while none is held, and keeps the
        first module obtained. `moduleLoads` is what getOrCreate would yield on this call. */
    method NetscapePluginModule(moduleLoads: bool) returns (available: bool)
      modifies this`hasPluginModule, this`moduleLookups
      ensures available == hasPluginModule
      ensures hasPluginModule == (old(hasPluginModule) || moduleLoads)
      ensures old(hasPluginModule) ==> moduleLookups == old(moduleLookups)
      ensures !old(hasPluginModule) ==> moduleLookups == old(moduleLookups) + 1
    {
      if !hasPluginModule {
        hasPluginModule := moduleLoads;
        moduleLookups := moduleLookups + 1;
      }
      available := hasPluginModule;
    }

    /** Notes a missed increment when the module has just been obtained while connections
        already existed. */
    ghost method MissIfObtainedWhileConnected(hadPluginModule: bool, hadConnections: bool)
      modifies this`loadCountMissed
      ensures loadCountMissed == (old(loadCountMissed) || (hadConnections && !hadPluginModule && hasPluginModule))
    {
      if hadConnections && !hadPluginModule && hasPluginModule {
        loadCountMissed := true;
      }
    }

    /** shouldTerminate: the process may go away exactly when no web process is connected. */
    method ShouldTerminate() returns (b: bool)
      requires Valid()
      ensures b <==> webProcessConnections == []
      ensures b ==> moduleLoadCount == (if loadCountMissed then -1 else 0)
    {
      b := |webProcessConnections| == 0;
    }

    /** The low-memory handler installed by initializePluginProcess: it terminates the
        process only when shouldTerminate holds. */
    method LowMemoryHandler() returns (callsTerminate: bool)
      requires Valid()
      ensures callsTerminate <==> webProcessConnections == []
    {
      callsTerminate := ShouldTerminate();
    }

    method DisableTermination()
      modifies this`terminationDisabledCount
      ensures terminationDisabledCount == old(terminationDisabledCount) + 1
    {
      terminationDisabledCount := terminationDisabledCount + 1;
    }

    method EnableTermination()
      requires terminationDisabledCount > 0
      modifies this`terminationDisabledCount
      ensures terminationDisabledCount == old(terminationDisabledCount) - 1
    {
      terminationDisabledCount := terminationDisabledCount - 1;
    }

    /** createWebProcessConnection: appends one new connection, takes a load count on the
        module for the first connection, holds off termination, and tells the proxy. */
    method CreateWebProcessConnection(moduleLoads: bool) returns (connection: ConnectionId, message: ProxyMessage)
      requires Valid()
      modifies this
      ensures Valid()
      ensures connection !in old(webProcessConnections)
      ensures webProcessConnections == old(webProcessConnections) + [connection]
      ensures message == DidCreateWebProcessConnection(connection, supportsAsynchronousPluginInitialization)
      ensures hasPluginModule == (old(hasPluginModule) || moduleLoads)
      ensures moduleLoadCount == old(moduleLoadCount)
                + (if old(webProcessConnections) == [] && hasPluginModule then 1 else 0)
      ensures loadCountMissed == (old(loadCountMissed) || (old(webProcessConnections) != [] && !old(hasPluginModule) && hasPluginModule))
      ensures terminationDisabledCount == old(terminationDisabledCount) + 1
      ensures minimumLifetimeTimerActive == old(minimumLifetimeTimerActive)
      ensures supportsAsynchronousPluginInitialization == old(supportsAsynchronousPluginInitialization)
      ensures lowMemoryHandlerInstalled == old(lowMemoryHandlerInstalled)
      ensures terminationTimeout == old(terminationTimeout)
    {
      var didHaveAnyWebProcessConnections := |webProcessConnections| != 0;

      connection := nextConnectionId;
      nextConnectionId := nextConnectionId + 1;
      webProcessConnections := webProcessConnections + [connection];
      message := DidCreateWebProcessConnection(connection, supportsAsynchronousPluginInitialization);

      ghost var hadPluginModule := hasPluginModule;
      var pluginModule := NetscapePluginModule(moduleLoads);
      if pluginModule {
        if !didHaveAnyWebProcessConnections {
          moduleLoadCount := moduleLoadCount + 1;
        }
      }
      MissIfObtainedWhileConnected(hadPluginModule, didHaveAnyWebProcessConnections);

      DisableTermination();
    }

    /** removeWebProcessConnection: removes exactly that connection, gives the load count
        back when the last connection goes, and lets termination proceed again. */
    method RemoveWebProcessConnection(connection: ConnectionId)
      requires Valid()
      requires connection in webProcessConnections
      modifies this
      ensures Valid()
      ensures var i := IndexOf(old(webProcessConnections), connection);
        webProcessConnections == old(webProcessConnections)[..i] + old(webProcessConnections)[i + 1..]
      ensures connection !in webProcessConnections
      ensures |webProcessConnections| == |old(webProcessConnections)| - 1
      ensures hasPluginModule == old(hasPluginModule) && loadCountMissed == old(loadCountMissed)
      ensures moduleLoadCount == old(moduleLoadCount)
                - (if webProcessConnections == [] && hasPluginModule then 1 else 0)
      ensures terminationDisabledCount == old(terminationDisabledCount) - 1
      ensures minimumLifetimeTimerActive == old(minimumLifetimeTimerActive)
      ensures supportsAsynchronousPluginInitialization == old(supportsAsynchronousPluginInitialization)
      ensures lowMemoryHandlerInstalled == old(lowMemoryHandlerInstalled)
      ensures terminationTimeout == old(terminationTimeout)
      ensures nextConnectionId == old(nextConnectionId)
    {
      var vectorIndex := IndexOf(webProcessConnections, connection);
      ghost var before := webProcessConnections;
      webProcessConnections := webProcessConnections[..vectorIndex] + webProcessConnections[vectorIndex + 1..];
      assert forall j :: 0 <= j < |webProcessConnections| ==>
        webProcessConnections[j] == (if j < vectorIndex then before[j] else before[j + 1]);

      if |webProcessConnections| == 0 && hasPluginModule {
        moduleLoadCount := moduleLoadCount - 1;
      }

      EnableTermination();
    }

    /** setMinimumLifetime: a positive lifetime holds off termination until the timer fires;
        any other lifetime is ignored. */
    method SetMinimumLifetime(lifetime: int)
      requires Valid()
      modifies this`terminationDisabledCount, this`minimumLifetimeTimerActive
      ensures Valid()
      ensures lifetime <= 0 ==> terminationDisabledCount == old(terminationDisabledCount)
                                && minimumLifetimeTimerActive == old(minimumLifetimeTimerActive)
      ensures lifetime > 0 ==> terminationDisabledCount == old(terminationDisabledCount) + 1
                               && minimumLifetimeTimerActive
    {
      if lifetime <= 0 {
        return;
      }
      DisableTermination();
      minimumLifetimeTimerActive := true;
    }

    /** minimumLifetimeTimerFired: the armed timer fires once and lets termination proceed. */
    method MinimumLifetimeTimerFired()
      requires Valid()
      requires minimumLifetimeTimerActive
      modifies this`terminationDisabledCount, this`minimumLifetimeTimerActive
      ensures Valid()
      ensures !minimumLifetimeTimerActive
      ensures terminationDisabledCount == old(terminationDisabledCount) - 1
    {
      minimumLifetimeTimerActive := false;
      EnableTermination();
    }

    /** initializePluginProcess, before the module has been obtained: installs the
        low-memory handler, records the parameters and applies the minimum lifetime. */
    method InitializePluginProcess(parameters: PluginProcessCreationParameters)
      requires Valid()
      requires !hasPluginModule
      modifies this`lowMemoryHandlerInstalled, this`supportsAsynchronousPluginInitialization,
               this`terminationTimeout, this`terminationDisabledCount, this`minimumLifetimeTimerActive
      ensures Valid()
      ensures lowMemoryHandlerInstalled
      ensures supportsAsynchronousPluginInitialization == parameters.supportsAsynchronousPluginInitialization
      ensures terminationTimeout == parameters.terminationTimeout
      ensures parameters.minimumLifetime <= 0 ==>
        terminationDisabledCount == old(terminationDisabledCount) && minimumLifetimeTimerActive == old(minimumLifetimeTimerActive)
      ensures parameters.minimumLifetime > 0 ==>
        terminationDisabledCount == old(terminationDisabledCount) + 1 && minimumLifetimeTimerActive
    {
      lowMemoryHandlerInstalled := true;
      supportsAsynchronousPluginInitialization := parameters.supportsAsynchronousPluginInitialization;
      SetMinimumLifetime(parameters.minimumLifetime);
      terminationTimeout := parameters.terminationTimeout;
    }

    /** getSitesWithData: the module's sites (given as `moduleSites`), or none without a
        module; always answered with the callback ID. */
    method GetSitesWithData(moduleLoads: bool, moduleSites: seq<string>, callbackID: nat) returns (reply: ProxyMessage)
      requires Valid()
      modifies this`hasPluginModule, this`moduleLookups, this`loadCountMissed
      ensures Valid()
      ensures hasPluginModule == (old(hasPluginModule) || moduleLoads)
      ensures loadCountMissed == (old(loadCountMissed) || (webProcessConnections != [] && !old(hasPluginModule) && hasPluginModule))
      ensures reply == DidGetSitesWithData(if hasPluginModule then moduleSites else [], callbackID)
    {
      var sites: seq<string> := [];
      ghost var hadPluginModule := hasPluginModule;
      var pluginModule := NetscapePluginModule(moduleLoads);
      MissIfObtainedWhileConnected(hadPluginModule, webProcessConnections != []);
      if pluginModule {
        sites := moduleSites;
      }
      reply := DidGetSitesWithData(sites, callbackID);
    }

    /** deleteWebsiteData: with a module, and only when `currentTime` is after
        `modifiedSince`, clears all sites' data younger than the difference in whole
        seconds; always answers exactly once with the callback ID. */
    method DeleteWebsiteData(moduleLoads: bool, modifiedSince: int, currentTime: int, callbackID: nat)
      returns (cleared: seq<ClearSiteDataCall>, reply: ProxyMessage)
      requires Valid()
      modifies this`hasPluginModule, this`moduleLookups, this`loadCountMissed
      ensures Valid()
      ensures hasPluginModule == (old(hasPluginModule) || moduleLoads)
      ensures loadCountMissed == (old(loadCountMissed) || (webProcessConnections != [] && !old(hasPluginModule) && hasPluginModule))
      ensures cleared == (if hasPluginModule && currentTime > modifiedSince
                          then [ClearSiteData("", currentTime - modifiedSince)] else [])
      ensures reply == DidDeleteWebsiteData(callbackID)
    {
      cleared := [];
      ghost var hadPluginModule := hasPluginModule;
      var pluginModule := NetscapePluginModule(moduleLoads);
      MissIfObtainedWhileConnected(hadPluginModule, webProcessConnections != []);
      if pluginModule {
        if currentTime > modifiedSince {
          var maximumAge := currentTime - modifiedSince;
          cleared := [ClearSiteData("", maximumAge)];
        }
      }
      reply := DidDeleteWebsiteData(callbackID);
    }

    /** deleteWebsiteDataForHostNames: with a module, clears every given host's data
        regardless of age, in order; always answers exactly once with the callback ID. */
    method DeleteWebsiteDataForHostNames(moduleLoads: bool, hostNames: seq<string>, callbackID: nat)
      returns (cleared: seq<ClearSiteDataCall>, reply: ProxyMessage)
      requires Valid()
      modifies this`hasPluginModule, this`moduleLookups, this`loadCountMissed
      ensures Valid()
      ensures hasPluginModule == (old(hasPluginModule) || moduleLoads)
      ensures loadCountMissed == (old(loadCountMissed) || (webProcessConnections != [] && !old(hasPluginModule) && hasPluginModule))
      ensures !hasPluginModule ==> cleared == []
      ensures hasPluginModule ==> |cleared| == |hostNames|
      ensures hasPluginModule ==>
                forall i :: 0 <= i < |hostNames| ==> cleared[i] == ClearSiteData(hostNames[i], UInt64Max)
      ensures reply == DidDeleteWebsiteDataForHostNames(callbackID)
    {
      cleared := [];
      ghost var hadPluginModule := hasPluginModule;
      var pluginModule := NetscapePluginModule(moduleLoads);
      MissIfObtainedWhileConnected(hadPluginModule, webProcessConnections != []);
      if pluginModule {
        cleared := ClearAllHosts(hostNames);
      }
      reply := DidDeleteWebsiteDataForHostNames(callbackID);
    }
  }

  /** The load count is not balanced as written: a first connection made while getOrCreate
      fails takes no load count, a later getSitesWithData obtains the module, and removing
      the connection then gives back a load count that was never taken. */
  method LoadCountGoesNegative() returns (count: int)
    ensures count == -1
  {
    var process := new PluginProcess();
    var connection, _ := process.CreateWebProcessConnection(false);
    var _ := process.GetSitesWithData(true, [], 0);
    process.RemoveWebProcessConnection(connection);
    count := process.moduleLoadCount;
  }

  /** The loop of deleteWebsiteDataForHostNames: one clearSiteData call per host name,
      with the largest maximum age. */
  method ClearAllHosts(hostNames: seq<string>) returns (cleared: seq<ClearSiteDataCall>)
    ensures |cleared| == |hostNames|
    ensures forall i :: 0 <= i < |hostNames| ==> cleared[i] == ClearSiteData(hostNames[i], UInt64Max)
  {
    cleared := [];
    var i := 0;
    while i < |hostNames|
      invariant 0 <= i <= |hostNames|
      invariant |cleared| == i
      invariant forall k :: 0 <= k < i ==> cleared[k] == ClearSiteData(hostNames[k], UInt64Max)
    {
      cleared := cleared + [ClearSiteData(hostNames[i], UInt64Max)];
      i := i + 1;
    }
  }
}
