/**
 * `RouterDebugger`: the shared debug state — the floating-button and dashboard flags and
 * the navigation log, newest first and capped at 1000 entries — and the step of the
 * floating button that makes sure the debug router is registered.
 */
module Debugging {
  import opened Optional
  import opened Routes
  import opened CappedLog
  import opened AppRouting

  /** The kinds of navigation event the log records. */
  datatype NavigationLogType = Navigation | Presentation | Dismissal | Registration | Error | Warning | Info

  /**
   * One log entry. The entry's own random identity is not modelled; the timestamp is a
   * number supplied by the caller instead of the clock.
   */
  datatype NavigationLogEntry = NavigationLogEntry(timestamp: int, logType: NavigationLogType, message: string, routerId: string)

  /** The most entries the navigation log keeps. */
  const MaxNavigationLogs: nat := 1000

  /** The id under which the floating button registers its debug router. */
  const FloatingDebugRouterId: string := "routerDebug"

  class RouterDebugger {
    var showingDebugView: bool
    var showFloatingButton: bool
    var navigationLogs: seq<NavigationLogEntry>

    constructor ()
      ensures !showingDebugView && !showFloatingButton
      ensures navigationLogs == []
    {
      showingDebugView := false;
      showFloatingButton := false;
      navigationLogs := [];
    }

    /** `enableDebug`: shows the floating button; the dashboard flag is left alone. */
    method EnableDebug()
      modifies this`showFloatingButton
      ensures showFloatingButton
    {
      showFloatingButton := true;
    }

    /** `disableDebug`: hides the floating button and the dashboard. */
    method DisableDebug()
      modifies this`showFloatingButton, this`showingDebugView
      ensures !showFloatingButton && !showingDebugView
    {
      showFloatingButton := false;
      showingDebugView := false;
    }

    /**
     * `addNavigationLog`: the new entry goes to the front; past 1000 entries the log is
     * cut back to its first 1000, so the oldest entry is the one that goes.
     */
    method AddNavigationLog(logType: NavigationLogType, message: string, routerId: string, timestamp: int)
      modifies this`navigationLogs
      ensures navigationLogs == Prepend(old(navigationLogs), NavigationLogEntry(timestamp, logType, message, routerId), MaxNavigationLogs)
      ensures |navigationLogs| == Min(|old(navigationLogs)| + 1, MaxNavigationLogs)
      ensures navigationLogs[0] == NavigationLogEntry(timestamp, logType, message, routerId)
      ensures navigationLogs[1..] == old(navigationLogs)[..|navigationLogs| - 1]
    {
      navigationLogs := [NavigationLogEntry(timestamp, logType, message, routerId)] + navigationLogs;
      if |navigationLogs| > MaxNavigationLogs {
        navigationLogs := navigationLogs[..MaxNavigationLogs];
      }
    }

    /** `clearNavigationLogs`: the log is emptied. */
    method ClearNavigationLogs()
      modifies this`navigationLogs
      ensures navigationLogs == []
    {
      navigationLogs := [];
    }

    /**
     * The action of the floating button that `RouterDebugModifier` draws over the app:
     * register the debug router if needed, then open this debugger's dashboard. It is
     * kept here because the button only touches this debugger and the registry.
     */
    method FloatingButtonTapped(app: AppRouter) returns (created: Router?)
      modifies this`showingDebugView, app`routers
      ensures showingDebugView
      ensures old(app.RouterFor(StackOf(DebugRouteKey), Some(FloatingDebugRouterId))).Some? ==>
        created == null && app.routers == old(app.routers)
      ensures old(app.RouterFor(StackOf(DebugRouteKey), Some(FloatingDebugRouterId))).None? ==>
        created != null && fresh(created) && app.routers == old(app.routers)[FloatingDebugRouterId := Stack(created)]
      ensures app.RouterFor(StackOf(DebugRouteKey), Some(FloatingDebugRouterId)).Some?
      ensures old(app.Valid()) ==> app.Valid()
    {
      created := RegisterRouterDebugIfNeeded(app);
      showingDebugView := true;
    }
  }

  /**
   * `registerRouterDebugIfNeeded`: a debug-route stack router under `"routerDebug"` is
   * kept; otherwise a new one is registered there, replacing whatever other router
   * held that key.
   */
  method RegisterRouterDebugIfNeeded(app: AppRouter) returns (created: Router?)
    modifies app`routers
    ensures old(app.RouterFor(StackOf(DebugRouteKey), Some(FloatingDebugRouterId))).Some? ==>
      created == null && app.routers == old(app.routers)
    ensures old(app.RouterFor(StackOf(DebugRouteKey), Some(FloatingDebugRouterId))).None? ==>
      created != null && fresh(created) && created.id == FloatingDebugRouterId &&
      app.routers == old(app.routers)[FloatingDebugRouterId := Stack(created)] &&
      created.dismissCallback == app && created.appRouter == app && !created.IsPresenting()
    ensures app.RouterFor(StackOf(DebugRouteKey), Some(FloatingDebugRouterId)).Some?
    ensures old(app.Valid()) ==> app.Valid()
  {
    if app.RouterFor(StackOf(DebugRouteKey), Some(FloatingDebugRouterId)).Some? {
      created := null;
    } else {
      created := new Router(DebugRouteKey, Some(FloatingDebugRouterId));
      app.Register(Stack(created));
    }
  }

  /**
   * A log that receives any number of entries never holds more than 1000, keeps the
   * newest entries first and loses only the oldest: from an empty log, the result is
   * the last (at most) 1000 entries, newest first.
   */
  lemma NavigationLogKeepsNewest(entries: seq<NavigationLogEntry>)
    ensures var log := PrependAll([], entries, MaxNavigationLogs);
      |log| == Min(|entries|, MaxNavigationLogs) &&
      forall k :: 0 <= k < |log| ==> log[k] == entries[|entries| - 1 - k]
  {
    PrependAllNewestFirst([], entries, MaxNavigationLogs);
    assert Reversed(entries) + [] == Reversed(entries);
  }
}
