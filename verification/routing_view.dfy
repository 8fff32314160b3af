/**
 * `RoutingView`: the view that binds a stack router's three navigation fields to the
 * screen, and closes the loop back to the registry when a modal is dismissed from the
 * screen (a swipe down, the system close button).
 */
module RoutingViews {
  import opened Optional
  import opened Routes
  import opened AppRouting

  /**
   * The dismissal rule of both `onChange` handlers: a modal slot that goes from a
   * route to nothing names that route's id; any other change names nothing.
   */
  function DismissedRouteId(oldValue: Option<Route>, newValue: Option<Route>): (id: Option<string>)
    ensures id.Some? <==> oldValue.Some? && newValue.None?
    ensures id.Some? ==> id.value == oldValue.value.id
  {
    if newValue.None? && oldValue.Some? then Some(oldValue.value.id) else None
  }

  /** The registry after the callback has run, if at all, with `DismissedRouteId`. */
  function AfterDismissal(routers: map<string, ManagedRouter>, dismissed: Option<string>): (r: map<string, ManagedRouter>)
    ensures dismissed.None? ==> r == routers
    ensures dismissed.Some? ==> dismissed.value !in r && forall k :: k in routers && k != dismissed.value ==> k in r && r[k] == routers[k]
    ensures r.Keys <= routers.Keys
  {
    if dismissed.Some? then routers - {dismissed.value} else routers
  }

  /**
   * Dismissing a debug-route sheet from the screen unregisters the router that the
   * sheet's own view looks up, since both use the route's first component.
   */
  lemma DebugSheetDismissalUnregistersChild(routers: map<string, ManagedRouter>, childId: string,
                                            previousId: string, level: int, isFeatureA: bool)
    requires childId in routers
    ensures var sheet := if isFeatureA then FeatureA(childId, previousId, level) else FeatureB(childId, previousId, level);
      childId !in AfterDismissal(routers, DismissedRouteId(Some(sheet), None))
  {
  }

  class RoutingView {
    const router: Router

    constructor (router: Router)
      ensures this.router == router
    {
      this.router := router;
    }

    /** Writing the `routes` binding writes `router.stack` and nothing else. */
    method SetRoutes(routes: seq<Route>)
      requires forall i :: 0 <= i < |routes| ==> routes[i].Family() == router.family
      modifies router`stack
      ensures router.stack == routes
    {
      router.stack := routes;
    }

    /**
     * The `onChange(of: presentingSheet)` handler: when the sheet went from a route to
     * nothing, the router's callback, if any, is called with that route's id.
     */
    method SheetChanged(oldValue: Option<Route>, newValue: Option<Route>)
      modifies router.CallbackTarget()`routers
      ensures router.dismissCallback != null ==>
        router.dismissCallback.routers == AfterDismissal(old(router.dismissCallback.routers), DismissedRouteId(oldValue, newValue))
    {
      if newValue == None {
        if oldValue.Some? {
          if router.dismissCallback != null {
            router.dismissCallback.Unregister(oldValue.value.id);
          }
        }
      }
    }

    /** The `onChange(of: presentingFullScreen)` handler: the same rule, for the full-screen slot. */
    method FullScreenChanged(oldValue: Option<Route>, newValue: Option<Route>)
      modifies router.CallbackTarget()`routers
      ensures router.dismissCallback != null ==>
        router.dismissCallback.routers == AfterDismissal(old(router.dismissCallback.routers), DismissedRouteId(oldValue, newValue))
    {
      if newValue == None {
        if oldValue.Some? {
          if router.dismissCallback != null {
            router.dismissCallback.Unregister(oldValue.value.id);
          }
        }
      }
    }

    /**
     * `router.dismissPresented()` called by code while this view is on screen: both
     * slots are cleared, and each `onChange` handler then sees its slot go from its
     * old value to nothing, so the callback receives the id of each closed modal.
     */
    method DismissPresented()
      modifies router`presentingSheet, router`presentingFullScreen, router.CallbackTarget()`routers
      ensures router.presentingSheet == None && router.presentingFullScreen == None
      ensures router.dismissCallback != null ==>
        router.dismissCallback.routers ==
          AfterDismissal(AfterDismissal(old(router.dismissCallback.routers), DismissedRouteId(old(router.presentingSheet), None)),
                         DismissedRouteId(old(router.presentingFullScreen), None))
    {
      var oldSheet, oldFullScreen := router.presentingSheet, router.presentingFullScreen;
      router.DismissPresented();
      SheetChanged(oldSheet, None);
      FullScreenChanged(oldFullScreen, None);
    }

    /**
     * Writing the `presentingSheet` binding: the router's sheet slot takes the value,
     * then the `onChange` handler sees the old and the new value.
     */
    method SetPresentingSheet(newValue: Option<Route>)
      requires newValue.Some? ==> newValue.value.Family() == router.family
      modifies router`presentingSheet, router.CallbackTarget()`routers
      ensures router.presentingSheet == newValue
      ensures router.stack == old(router.stack) && router.presentingFullScreen == old(router.presentingFullScreen)
      ensures router.dismissCallback != null ==>
        router.dismissCallback.routers ==
          AfterDismissal(old(router.dismissCallback.routers), DismissedRouteId(old(router.presentingSheet), newValue))
    {
      var oldValue := router.presentingSheet;
      router.presentingSheet := newValue;
      SheetChanged(oldValue, newValue);
    }

    /** Writing the `presentingFullScreen` binding, with the same rule. */
    method SetPresentingFullScreen(newValue: Option<Route>)
      requires newValue.Some? ==> newValue.value.Family() == router.family
      modifies router`presentingFullScreen, router.CallbackTarget()`routers
      ensures router.presentingFullScreen == newValue
      ensures router.stack == old(router.stack) && router.presentingSheet == old(router.presentingSheet)
      ensures router.dismissCallback != null ==>
        router.dismissCallback.routers ==
          AfterDismissal(old(router.dismissCallback.routers), DismissedRouteId(old(router.presentingFullScreen), newValue))
    {
      var oldValue := router.presentingFullScreen;
      router.presentingFullScreen := newValue;
      FullScreenChanged(oldValue, newValue);
    }
  }
}
