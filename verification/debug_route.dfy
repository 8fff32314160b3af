/**
 * The debug route family `RouterDebugRoute` and the button actions of the feature
 * screen it shows (`InlineFeatureView`): navigation inside the feature's own router,
 * and presenting the other feature on a router registered for it.
 */
module FeatureActions {
  import opened Optional
  import opened Routes
  import opened Strings
  import opened AppRouting
  import opened RoutingViews

  /** `InlineFeatureType`: which of the two debug features a screen shows. */
  datatype FeatureKind = KindA | KindB {
    function Other(): FeatureKind {
      if KindA? then KindB else KindA
    }

    /** The letter of the feature in router ids. */
    function Letter(): string {
      if KindA? then "A" else "B"
    }
  }

  /** The route of kind `kind` with the three components. */
  function FeatureRoute(kind: FeatureKind, id: string, previousId: string, level: int): (r: Route)
    ensures r.Family() == DebugRouteKey
    ensures r.id == id
    ensures r == FeatureA(id, previousId, level) || r == FeatureB(id, previousId, level)
  {
    match kind
    case KindA => FeatureA(id, previousId, level)
    case KindB => FeatureB(id, previousId, level)
  }

  /** The kind of a debug route, and no kind for a route of another family. */
  function KindOf(r: Route): (k: Option<FeatureKind>)
    ensures k.None? <==> r.Screen?
  {
    match r
    case FeatureA(_, _, _) => Some(KindA)
    case FeatureB(_, _, _) => Some(KindB)
    case Screen(_, _) => None
  }

  /** A route rebuilt from its kind and components is the route itself. */
  lemma FeatureRouteRoundTrip(r: Route)
    requires !r.Screen?
    ensures FeatureRoute(KindOf(r).value, r.id, r.previousId, r.level) == r
  {
  }

  /** The id of a router made for a feature: `routerFeature<letter>-<suffix>`. */
  function FeatureRouterId(kind: FeatureKind, suffix: string): string {
    "routerFeature" + kind.Letter() + "-" + suffix
  }

  /** A feature router id names its feature and its suffix: no two pairs share an id. */
  lemma FeatureRouterIdInjective(kind: FeatureKind, suffix: string, kind': FeatureKind, suffix': string)
    requires FeatureRouterId(kind, suffix) == FeatureRouterId(kind', suffix')
    ensures kind == kind' && suffix == suffix'
  {
    var id, id' := FeatureRouterId(kind, suffix), FeatureRouterId(kind', suffix');
    assert id[13] == kind.Letter()[0] && id'[13] == kind'.Letter()[0];
    assert id[15..] == suffix && id'[15..] == suffix';
  }

  /** Routers made for different features never share an id, whatever the suffixes. */
  lemma FeatureRouterIdsOfKindsDiffer(suffixA: string, suffixB: string)
    ensures FeatureRouterId(KindA, suffixA) != FeatureRouterId(KindB, suffixB)
  {
    var a, b := FeatureRouterId(KindA, suffixA), FeatureRouterId(KindB, suffixB);
    assert a[13] == 'A' && b[13] == 'B';
  }

  /** Every character of a string that `s` contains occurs in `s`. */
  lemma {:induction false} ContainedCharsOccur(s: string, sub: string, c: char)
    requires Contains(s, sub) && c in sub
    ensures c in s
    decreases |s|
  {
    if sub <= s {
      var i :| 0 <= i < |sub| && sub[i] == c;
      assert s[i] == c;
    } else {
      ContainedCharsOccur(s[1..], sub, c);
      var i :| 0 <= i < |s[1..]| && s[1..][i] == c;
      assert s[i + 1] == c;
    }
  }

  /**
   * A feature router id names a feature router and, when its suffix has no 'g' (an
   * upper-case hexadecimal UUID prefix has none), does not contain "Debug"; so the
   * router analyser reports it as a potential orphan.
   */
  lemma FeatureRouterIdIsFeatureNotDebug(kind: FeatureKind, suffix: string)
    requires 'g' !in suffix
    ensures Contains(FeatureRouterId(kind, suffix), "routerFeature")
    ensures !Contains(FeatureRouterId(kind, suffix), "Debug")
  {
    var id := FeatureRouterId(kind, suffix);
    assert id == "routerFeature" + (kind.Letter() + "-" + suffix);
    if Contains(id, "Debug") {
      assert "Debug"[4] == 'g';
      ContainedCharsOccur(id, "Debug", 'g');
      assert false;
    }
  }

  /**
   * The stack router of the debug family registered under `key`, or none: the
   * typed lookup `router(forKey:)` as `Router<RouterDebugRoute>`.
   */
  function DebugRouterUnder(app: AppRouter, key: string): (r: Option<Router>)
    reads app
    ensures r.Some? <==> key in app.routers && app.routers[key].StaticType() == StackOf(DebugRouteKey)
    ensures r.Some? ==> app.routers[key] == Stack(r.value) && r.value.family == DebugRouteKey
  {
    var found := app.RouterFor(StackOf(DebugRouteKey), Some(key));
    if found.Some? then Some(found.value.router) else None
  }

  function RouterSet(r: Option<Router>): set<Router> {
    if r.Some? then {r.value} else {}
  }

  /** The registry that the router's dismissal callback updates, if any. */
  function CallbackTargetOf(r: Option<Router>): set<AppRouter>
    reads RouterSet(r)
  {
    if r.Some? then r.value.CallbackTarget() else {}
  }

  /**
   * The previous router, if any, has no modal up and the same stack, and its
   * callback's registry has lost the id of each modal that was up before.
   */
  twostate predicate ClosedModals(previous: Option<Router>)
    reads RouterSet(previous), CallbackTargetOf(previous)
  {
    previous.Some? ==>
      var p := previous.value;
      p.presentingSheet == None && p.presentingFullScreen == None && p.stack == old(p.stack) &&
      p.dismissCallback == old(p.dismissCallback) &&
      (p.dismissCallback != null ==>
        p.dismissCallback.routers ==
          AfterDismissal(AfterDismissal(old(p.dismissCallback.routers), DismissedRouteId(old(p.presentingSheet), None)),
                         DismissedRouteId(old(p.presentingFullScreen), None)))
  }

  /** `dismissPresented()` on the previous router, if any, seen by its mounted `RoutingView`. */
  method CloseModalsOf(previous: Option<Router>)
    modifies RouterSet(previous)`presentingSheet, RouterSet(previous)`presentingFullScreen, CallbackTargetOf(previous)`routers
    ensures ClosedModals(previous)
  {
    if previous.Some? {
      var view := new RoutingView(previous.value);
      view.DismissPresented();
    }
  }

  /**
   * The feature screen of one debug route. It shows its content, and so its buttons,
   * only while a debug-family stack router is registered under its `id`; every
   * action below does nothing otherwise.
   */
  class InlineFeatureView {
    const kind: FeatureKind
    const id: string
    const previousId: string
    const level: int
    const appRouter: AppRouter

    constructor (kind: FeatureKind, id: string, previousId: string, level: int, appRouter: AppRouter)
      ensures this.kind == kind && this.id == id && this.previousId == previousId
      ensures this.level == level && this.appRouter == appRouter
    {
      this.kind := kind;
      this.id := id;
      this.previousId := previousId;
      this.level := level;
      this.appRouter := appRouter;
    }

    /** The screen's own router, looked up by its id. */
    function Own(): Option<Router>
      reads appRouter
    {
      DebugRouterUnder(appRouter, id)
    }

    /** The content is drawn only when the screen's router is registered. */
    predicate RendersContent()
      reads appRouter
    {
      Own().Some?
    }

    /**
     * "Push to Next Level": the own router gets a route of the same kind, id and
     * previous id, one level deeper. The button is disabled from level 5 on.
     */
    method PushToNextLevel()
      modifies RouterSet(Own())`stack
      ensures !RendersContent() || level >= 5 ==> unchanged(RouterSet(Own()))
      ensures RendersContent() && level < 5 ==>
        Own().value.stack == old(Own().value.stack) + [FeatureRoute(kind, id, previousId, level + 1)]
    {
      var own := Own();
      if own.Some? && level < 5 {
        own.value.Navigate(FeatureRoute(kind, id, previousId, level + 1));
      }
    }

    /**
     * "Pop to Previous Level" and the toolbar's "Back": shown only above level 1, they
     * take the own router one route back.
     */
    method PopToPreviousLevel()
      modifies RouterSet(Own())`stack
      ensures !RendersContent() || level <= 1 ==> unchanged(RouterSet(Own()))
      ensures RendersContent() && level > 1 ==>
        var s := old(Own().value.stack);
        Own().value.stack == if s == [] then [] else s[..|s| - 1]
    {
      var own := Own();
      if own.Some? && level > 1 {
        own.value.NavigateBack();
      }
    }

    /**
     * "Pop to Root": disabled at level 1 and below; otherwise the debug-family router
     * registered under the previous id, if any, closes its modals. That router's
     * screen is the one showing this screen as its sheet, so its `RoutingView` is on
     * screen and passes the id of each closed modal to the router's callback.
     */
    method PopToRoot()
      modifies RouterSet(DebugRouterUnder(appRouter, previousId))`presentingSheet,
        RouterSet(DebugRouterUnder(appRouter, previousId))`presentingFullScreen,
        CallbackTargetOf(DebugRouterUnder(appRouter, previousId))`routers
      ensures !old(RendersContent()) || level <= 1 ==>
        unchanged(RouterSet(old(DebugRouterUnder(appRouter, previousId)))) &&
        unchanged(CallbackTargetOf(old(DebugRouterUnder(appRouter, previousId))))
      ensures old(RendersContent()) && level > 1 ==> ClosedModals(old(DebugRouterUnder(appRouter, previousId)))
      ensures var previous := old(DebugRouterUnder(appRouter, previousId));
        old(RendersContent()) && level > 1 && previous.Some? && previous.value.dismissCallback == appRouter &&
        old(previous.value.presentingSheet).Some? && old(previous.value.presentingSheet).value.id == id ==>
          !RendersContent()
    {
      if RendersContent() && level > 1 {
        CloseModalsOf(DebugRouterUnder(appRouter, previousId));
      }
    }

    /**
     * "Dismiss Current Sheet": at any level, the debug-family router under the
     * previous id, if any, closes its modals, with the same callback as "Pop to Root".
     */
    method DismissCurrentSheet()
      modifies RouterSet(DebugRouterUnder(appRouter, previousId))`presentingSheet,
        RouterSet(DebugRouterUnder(appRouter, previousId))`presentingFullScreen,
        CallbackTargetOf(DebugRouterUnder(appRouter, previousId))`routers
      ensures !old(RendersContent()) ==>
        unchanged(RouterSet(old(DebugRouterUnder(appRouter, previousId)))) &&
        unchanged(CallbackTargetOf(old(DebugRouterUnder(appRouter, previousId))))
      ensures old(RendersContent()) ==> ClosedModals(old(DebugRouterUnder(appRouter, previousId)))
      ensures var previous := old(DebugRouterUnder(appRouter, previousId));
        old(RendersContent()) && previous.Some? && previous.value.dismissCallback == appRouter &&
        old(previous.value.presentingSheet).Some? && old(previous.value.presentingSheet).value.id == id ==>
          !RendersContent()
    {
      if RendersContent() {
        CloseModalsOf(DebugRouterUnder(appRouter, previousId));
      }
    }

    /**
     * "Present Feature B/A as Sheet": a new debug-family router is registered under
     * `routerFeature<other letter>-<suffix>`, then the own router's sheet becomes the
     * other feature's route with that id, this screen's id as previous id, level 1.
     */
    method PresentOtherFeature(suffix: string) returns (child: Router?)
      modifies appRouter`routers, RouterSet(Own())`presentingSheet
      ensures !old(RendersContent()) ==> child == null && appRouter.routers == old(appRouter.routers)
      ensures old(RendersContent()) ==>
        var featureId := FeatureRouterId(kind.Other(), suffix);
        var own := old(Own()).value;
        child != null && fresh(child) && child.id == featureId && child.family == DebugRouteKey &&
        appRouter.routers == old(appRouter.routers)[featureId := Stack(child)] &&
        own.presentingSheet == Some(FeatureRoute(kind.Other(), featureId, id, 1)) &&
        own.stack == old(own.stack) && own.presentingFullScreen == old(own.presentingFullScreen)
      ensures old(RendersContent()) ==>
        var featureId := FeatureRouterId(kind.Other(), suffix);
        var found := DebugRouterUnder(appRouter, featureId);
        found.Some? && found.value == child && !child.IsPresenting()
      ensures old(appRouter.Valid()) ==> appRouter.Valid()
    {
      var own := Own();
      if own.None? {
        return null;
      }
      var featureId := FeatureRouterId(kind.Other(), suffix);
      child := new Router(DebugRouteKey, Some(featureId));
      appRouter.Register(Stack(child));
      own.value.PresentSheet(FeatureRoute(kind.Other(), featureId, id, 1));
    }
  }
}
