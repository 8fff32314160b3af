/**
 * The router registry (`AppRouter`) and the two kinds of router it manages: the stack
 * router (`Router`) and the tab router (`TabRouter`). They share one module because a
 * router's dismiss callback points back at the registry that registered it.
 */
module AppRouting {
  import opened Optional
  import opened Routes

  /**
   * The type a typed lookup asks for: `Router<R>` or `TabRouter<T>`, named by the key
   * of its route family. A router type's own `key` is its family's key.
   */
  datatype RouterType = StackOf(family: string) | TabOf(family: string)

  /**
   * A value of the registry's map (`any ManagedRouter`): one of the two router kinds.
   * `as? T` becomes `Is(T)`.
   */
  datatype ManagedRouter = Stack(router: Router) | Tab(tabRouter: TabRouter) {

    function Id(): string {
      match this
      case Stack(r) => r.id
      case Tab(t) => t.id
    }

    function StaticType(): RouterType {
      match this
      case Stack(r) => StackOf(r.family)
      case Tab(t) => TabOf(t.family)
    }

    predicate Is(t: RouterType) {
      StaticType() == t
    }

    function Obj(): object {
      match this
      case Stack(r) => r
      case Tab(t) => t
    }

    function Routers(): set<Router> {
      if Stack? then {router} else {}
    }

    function Tabs(): set<TabRouter> {
      if Tab? then {tabRouter} else {}
    }

    predicate IsPresenting()
      reads Obj()
    {
      match this
      case Stack(r) => r.IsPresenting()
      case Tab(t) => t.IsPresenting()
    }

    function Callback(): AppRouter?
      reads Obj()
    {
      match this
      case Stack(r) => r.dismissCallback
      case Tab(t) => t.dismissCallback
    }
  }

  /** The stack routers among `rs`. */
  function StackRouters(rs: seq<ManagedRouter>): set<Router>
    decreases |rs|
  {
    if rs == [] then {} else StackRouters(rs[..|rs| - 1]) + rs[|rs| - 1].Routers()
  }

  /** The tab routers among `rs`. */
  function TabRouters(rs: seq<ManagedRouter>): set<TabRouter>
    decreases |rs|
  {
    if rs == [] then {} else TabRouters(rs[..|rs| - 1]) + rs[|rs| - 1].Tabs()
  }

  lemma {:induction false} RoutersOfMember(rs: seq<ManagedRouter>, i: nat)
    requires i < |rs|
    ensures rs[i].Routers() <= StackRouters(rs) && rs[i].Tabs() <= TabRouters(rs)
    decreases |rs|
  {
    if i < |rs| - 1 {
      RoutersOfMember(rs[..|rs| - 1], i);
    }
  }

  /**
   * A stack router: a navigation stack, one sheet slot and one full-screen slot, for
   * the route family `family`. Its id never changes.
   */
  class Router {
    const id: string
    const family: string
    var stack: seq<Route>
    var presentingSheet: Option<Route>
    var presentingFullScreen: Option<Route>
    /** The registry whose `unregister` the dismiss callback calls, or none. */
    var dismissCallback: AppRouter?
    /**
     * The registry's back-reference. `Router.swift` does not declare it; registration
     * sets it, and a new router is assumed to start without one.
     */
    var appRouter: AppRouter?

    constructor (family: string, customId: Option<string>)
      ensures this.family == family
      ensures id == (if customId.Some? then customId.value else family)
      ensures stack == [] && presentingSheet == None && presentingFullScreen == None
      ensures dismissCallback == null && appRouter == null
      ensures !IsPresenting()
    {
      this.family := family;
      id := customId.GetOr(family);
      stack := [];
      presentingSheet := None;
      presentingFullScreen := None;
      dismissCallback := null;
      appRouter := null;
    }

    /** `isPresenting`: a modal is up or the stack is not at its root. */
    predicate IsPresenting()
      reads this
    {
      presentingSheet != None || presentingFullScreen != None || stack != []
    }

    function CallbackTarget(): set<AppRouter>
      reads this
    {
      if dismissCallback == null then {} else {dismissCallback}
    }

    // The six operations below belong to a `RoutableObject` extension that is not
    // part of this model. Their contracts are ASSUMED from their names and from how
    // the modelled code calls them.

    /** Assumed: `navigate(to:)` appends to the stack. */
    method Navigate(to: Route)
      requires to.Family() == family
      modifies this`stack
      ensures stack == old(stack) + [to]
    {
      stack := stack + [to];
    }

    /** Assumed: `navigateBack()` drops the last route, and does nothing on an empty stack. */
    method NavigateBack()
      modifies this`stack
      ensures old(stack) == [] ==> stack == []
      ensures old(stack) != [] ==> stack == old(stack)[..|old(stack)| - 1]
    {
      if stack != [] {
        stack := stack[..|stack| - 1];
      }
    }

    /** Assumed: `navigateToRoot()` empties the stack. */
    method NavigateToRoot()
      modifies this`stack
      ensures stack == []
    {
      stack := [];
    }

    /** Assumed: `present(sheet:)` fills the sheet slot, replacing what was there. */
    method PresentSheet(sheet: Route)
      requires sheet.Family() == family
      modifies this`presentingSheet
      ensures presentingSheet == Some(sheet)
    {
      presentingSheet := Some(sheet);
    }

    /** Assumed: `present(fullScreen:)` fills the full-screen slot, replacing what was there. */
    method PresentFullScreen(fullScreen: Route)
      requires fullScreen.Family() == family
      modifies this`presentingFullScreen
      ensures presentingFullScreen == Some(fullScreen)
    {
      presentingFullScreen := Some(fullScreen);
    }

    /** Assumed: `dismissPresented()` clears both modal slots. */
    method DismissPresented()
      modifies this`presentingSheet, this`presentingFullScreen
      ensures presentingSheet == None && presentingFullScreen == None
      ensures IsPresenting() == (stack != [])
    {
      presentingSheet := None;
      presentingFullScreen := None;
    }

    /** `reset()`: back to the root, then close both modals; the registry is not told. */
    method Reset()
      modifies this`stack, this`presentingSheet, this`presentingFullScreen
      ensures stack == [] && presentingSheet == None && presentingFullScreen == None
      ensures !IsPresenting()
    {
      NavigateToRoot();
      DismissPresented();
    }

    /**
     * `dismiss()`: back to the root, then the callback with the router's own id, which
     * removes that id from the registry. The modal slots are left as they were.
     */
    method Dismiss()
      modifies this`stack, CallbackTarget()`routers
      ensures stack == []
      ensures presentingSheet == old(presentingSheet) && presentingFullScreen == old(presentingFullScreen)
      ensures IsPresenting() == (presentingSheet != None || presentingFullScreen != None)
      ensures dismissCallback != null ==>
        dismissCallback.routers == old(dismissCallback.routers) - {id}
    {
      NavigateToRoot();
      if dismissCallback != null {
        dismissCallback.Unregister(id);
      }
    }
  }

  /** A tab router: the selected tab of the route family `family`. */
  class TabRouter {
    const id: string
    const family: string
    var selectedTab: string
    var dismissCallback: AppRouter?

    constructor (selectedTab: string, family: string, customId: Option<string>)
      ensures this.selectedTab == selectedTab && this.family == family
      ensures id == (if customId.Some? then customId.value else family)
      ensures dismissCallback == null
    {
      this.selectedTab := selectedTab;
      this.family := family;
      id := customId.GetOr(family);
      dismissCallback := null;
    }

    /** Assigning `selectedTab` replaces it and touches nothing else. */
    method Select(tab: string)
      modifies this`selectedTab
      ensures selectedTab == tab
    {
      selectedTab := tab;
    }

    /** A tab router always counts as presenting (its selected tab). */
    predicate IsPresenting() {
      true
    }

    /** `reset()` is not implemented: it changes nothing and calls no callback. */
    method Reset()
      ensures unchanged(this)
    {
    }

    /** `dismiss()` is not implemented: it changes nothing and calls no callback. */
    method Dismiss()
      ensures unchanged(this)
    {
    }
  }

  /** The map after registering `rs` one after another: a later duplicate id overwrites. */
  function RegisterAll(m: map<string, ManagedRouter>, rs: seq<ManagedRouter>): map<string, ManagedRouter>
    decreases |rs|
  {
    if rs == [] then m
    else
      var last := rs[|rs| - 1];
      RegisterAll(m, rs[..|rs| - 1])[last.Id() := last]
  }

  /** Registering one more router updates the map at that router's id. */
  lemma RegisterAllSnoc(m: map<string, ManagedRouter>, rs: seq<ManagedRouter>, r: ManagedRouter)
    ensures RegisterAll(m, rs + [r]) == RegisterAll(m, rs)[r.Id() := r]
  {
    assert (rs + [r])[..|rs|] == rs;
  }

  /** Index of the last router in `rs` with id `key`, or -1 when there is none. */
  function LastWithId(rs: seq<ManagedRouter>, key: string): (i: int)
    ensures -1 <= i < |rs|
    ensures i >= 0 ==> rs[i].Id() == key
    ensures forall j :: i < j < |rs| ==> rs[j].Id() != key
    decreases |rs|
  {
    if rs == [] then -1
    else if rs[|rs| - 1].Id() == key then |rs| - 1
    else LastWithId(rs[..|rs| - 1], key)
  }

  /**
   * After registering `rs` in order, a key holds the LAST router registered under it;
   * a key none of them uses keeps its old entry, or stays absent.
   */
  lemma {:induction false} RegisterAllLastWins(m: map<string, ManagedRouter>, rs: seq<ManagedRouter>, key: string)
    ensures var i := LastWithId(rs, key);
      if i >= 0 then key in RegisterAll(m, rs) && RegisterAll(m, rs)[key] == rs[i]
      else (key in RegisterAll(m, rs) <==> key in m) && (key in m ==> RegisterAll(m, rs)[key] == m[key])
    decreases |rs|
  {
    if rs != [] {
      RegisterAllLastWins(m, rs[..|rs| - 1], key);
    }
  }

  /** `first(where: { $0.id == key })`, as an index: |bs| when no router has that id. */
  function FirstWithId(bs: seq<ManagedRouter>, key: string): (i: nat)
    ensures i <= |bs|
    ensures i < |bs| ==> bs[i].Id() == key
    ensures forall j :: 0 <= j < i ==> bs[j].Id() != key
    decreases |bs|
  {
    if bs == [] then 0
    else if bs[0].Id() == key then 0
    else 1 + FirstWithId(bs[1..], key)
  }

  /** The first router in `bs` with id `key` exists and is a stack router of `family`. */
  predicate FirstIdIsStack(bs: seq<ManagedRouter>, key: string, family: string) {
    exists i :: 0 <= i < |bs| && bs[i].Id() == key && bs[i].StaticType() == StackOf(family) &&
      (forall j :: 0 <= j < i ==> bs[j].Id() != key)
  }

  /** `compactMap { $0 as? Router<R> }`: the stack routers of family `family`, in order. */
  function StacksOf(bs: seq<ManagedRouter>, family: string): (rs: seq<Router>)
    ensures |rs| <= |bs|
    ensures forall i :: 0 <= i < |rs| ==> Stack(rs[i]) in bs && rs[i].family == family
    ensures forall i :: 0 <= i < |bs| && bs[i].StaticType() == StackOf(family) ==> bs[i].router in rs
    decreases |bs|
  {
    if bs == [] then []
    else
      var rest := StacksOf(bs[1..], family);
      assert forall i :: 1 <= i < |bs| ==> bs[i] == bs[1..][i - 1];
      if bs[0].Is(StackOf(family)) then [bs[0].router] + rest else rest
  }

  lemma {:induction false} StacksOfConcat(a: seq<ManagedRouter>, b: seq<ManagedRouter>, family: string)
    ensures StacksOf(a + b, family) == StacksOf(a, family) + StacksOf(b, family)
    decreases |a|
  {
    if a == [] {
      assert a + b == b;
    } else {
      assert (a + b)[0] == a[0] && (a + b)[1..] == a[1..] + b;
      StacksOfConcat(a[1..], b, family);
    }
  }

  /** The map after `resetAllNavigation`: only the keys in `ids` survive, untouched. */
  function Retain(m: map<string, ManagedRouter>, ids: set<string>): (r: map<string, ManagedRouter>)
    ensures r.Keys == m.Keys * ids
    ensures forall k :: k in r ==> r[k] == m[k]
  {
    map k | k in m && k in ids :: m[k]
  }

  /** The registry: routers by id, plus the distinguished tab router and base routers. */
  class AppRouter {
    var routers: map<string, ManagedRouter>
    const mainTabRouter: ManagedRouter
    const mainBaseRouters: seq<ManagedRouter>
    var presentedRouters: seq<Router>

    /** Every router is stored under its own id. */
    predicate Valid()
      reads this
    {
      forall k :: k in routers ==> routers[k].Id() == k
    }

    /** `r` carries this registry's dismiss callback and, if a stack router, its back-reference. */
    predicate Wired(r: ManagedRouter)
      reads r.Obj()
    {
      r.Callback() == this && (r.Stack? ==> r.router.appRouter == this)
    }

    /**
     * Registers the tab router, then every base router in order: each of them ends up
     * wired to this registry, and the map is the result of those registrations.
     */
    constructor (tabRouter: ManagedRouter, baseRouters: seq<ManagedRouter>)
      modifies StackRouters([tabRouter] + baseRouters)`appRouter,
        StackRouters([tabRouter] + baseRouters)`dismissCallback,
        TabRouters([tabRouter] + baseRouters)`dismissCallback
      ensures mainTabRouter == tabRouter && mainBaseRouters == baseRouters
      ensures presentedRouters == []
      ensures routers == RegisterAll(map[], [tabRouter] + baseRouters)
      ensures Valid()
      ensures Wired(tabRouter)
      ensures forall j :: 0 <= j < |baseRouters| ==> Wired(baseRouters[j])
    {
      mainTabRouter := tabRouter;
      mainBaseRouters := baseRouters;
      routers := map[];
      presentedRouters := [];
      new;
      var all := [tabRouter] + baseRouters;
      assert Valid();
      RegisterEach(all);
      assert all[0] == tabRouter;
      forall j | 0 <= j < |baseRouters|
        ensures Wired(baseRouters[j])
      {
        assert all[j + 1] == baseRouters[j];
      }
    }

    /** Registers the routers of `rs` one after another, in order. */
    method RegisterEach(rs: seq<ManagedRouter>)
      modifies this`routers, StackRouters(rs)`appRouter, StackRouters(rs)`dismissCallback, TabRouters(rs)`dismissCallback
      ensures routers == RegisterAll(old(routers), rs)
      ensures old(Valid()) ==> Valid()
      ensures forall j :: 0 <= j < |rs| ==> Wired(rs[j])
    {
      ghost var start := routers;
      for i := 0 to |rs|
        invariant routers == RegisterAll(start, rs[..i])
        invariant old(Valid()) ==> Valid()
        invariant forall j :: 0 <= j < i ==>
          (rs[j].Stack? ==> rs[j].router.dismissCallback == this && rs[j].router.appRouter == this) &&
          (rs[j].Tab? ==> rs[j].tabRouter.dismissCallback == this)
      {
        RoutersOfMember(rs, i);
        Register(rs[i]);
        assert routers == RegisterAll(start, rs[..i + 1]) by {
          RegisterAllSnoc(start, rs[..i], rs[i]);
          assert rs[..i] + [rs[i]] == rs[..i + 1];
        }
      }
      assert rs[..|rs|] == rs;
    }

    /**
     * `register`: stack routers get this registry as their back-reference, every
     * router gets the callback that unregisters by key, and the router is stored under
     * its id, replacing any router already there.
     */
    method Register(r: ManagedRouter)
      modifies this`routers, r.Routers()`appRouter, r.Routers()`dismissCallback, r.Tabs()`dismissCallback
      ensures routers == old(routers)[r.Id() := r]
      ensures RouterFor(r.StaticType(), Some(r.Id())) == Some(r)
      ensures Wired(r)
      ensures old(Valid()) ==> Valid()
    {
      match r {
        case Stack(s) =>
          s.appRouter := this;
          s.dismissCallback := this;
        case Tab(t) =>
          t.dismissCallback := this;
      }
      routers := routers[r.Id() := r];
    }

    /** `unregister(key:)`, reached only through a router's dismiss callback. */
    method Unregister(key: string)
      modifies this`routers
      ensures routers == old(routers) - {key}
      ensures forall t :: RouterFor(t, Some(key)) == None
      ensures old(Valid()) ==> Valid()
    {
      routers := routers - {key};
    }

    /** `router(forKey:)`: the entry under `customKey ?? T.key` if it has type `t`. */
    function RouterFor(t: RouterType, customKey: Option<string>): (r: Option<ManagedRouter>)
      reads this
      ensures var key := if customKey.Some? then customKey.value else t.family;
        (r != None <==> key in routers && routers[key].StaticType() == t) &&
        (r != None ==> r.value == routers[key])
    {
      var key := customKey.GetOr(t.family);
      if key in routers && routers[key].Is(t) then Some(routers[key]) else None
    }

    /** `tabRouter()`: a force cast, so the main tab router must have the asked type. */
    function TabRouterOf(family: string): (t: TabRouter)
      requires mainTabRouter.Is(TabOf(family))
      ensures mainTabRouter == Tab(t) && t.family == family
    {
      mainTabRouter.tabRouter
    }

    /** `baseRouter(at:)`: absent out of range or when that base router is of another type. */
    function BaseRouterAt(index: int, family: string): (r: Option<Router>)
      ensures r != None <==>
        0 <= index < |mainBaseRouters| && mainBaseRouters[index].StaticType() == StackOf(family)
      ensures r != None ==> mainBaseRouters[index] == Stack(r.value)
    {
      if index < 0 || index >= |mainBaseRouters| then None
      else if mainBaseRouters[index].Is(StackOf(family)) then Some(mainBaseRouters[index].router)
      else None
    }

    /**
     * `baseRouter(forKey:)`: the FIRST base router whose id is the key, if that one is a
     * stack router of the family; a later match is never considered.
     */
    function BaseRouterFor(family: string, customKey: Option<string>): (r: Option<Router>)
      ensures var key := if customKey.Some? then customKey.value else family;
        r != None <==> FirstIdIsStack(mainBaseRouters, key, family)
      ensures r != None ==> Stack(r.value) in mainBaseRouters && r.value.family == family
      ensures var key := if customKey.Some? then customKey.value else family;
        r != None ==>
          r.value.id == key &&
          exists i :: 0 <= i < |mainBaseRouters| && mainBaseRouters[i] == Stack(r.value) &&
            forall j :: 0 <= j < i ==> mainBaseRouters[j].Id() != key
    {
      var key := customKey.GetOr(family);
      var i := FirstWithId(mainBaseRouters, key);
      if i < |mainBaseRouters| && mainBaseRouters[i].Is(StackOf(family)) then
        Some(mainBaseRouters[i].router)
      else None
    }

    /** `baseRouters()`: the base routers that are stack routers of the family, in order. */
    function BaseRoutersOf(family: string): (rs: seq<Router>)
      ensures forall i :: 0 <= i < |rs| ==> Stack(rs[i]) in mainBaseRouters && rs[i].family == family
      ensures forall i :: 0 <= i < |mainBaseRouters| && mainBaseRouters[i].StaticType() == StackOf(family) ==>
        mainBaseRouters[i].router in rs
      ensures |rs| <= |mainBaseRouters|
    {
      StacksOf(mainBaseRouters, family)
    }

    function BaseIds(): set<string> {
      set r | r in mainBaseRouters :: r.Id()
    }

    /**
     * `resetAllNavigation`: every key that is not the id of a base router is removed.
     * The main tab router is not exempt, and no router's `reset` is called.
     */
    method ResetAllNavigation()
      modifies this`routers
      ensures routers == Retain(old(routers), BaseIds())
      ensures mainTabRouter.Id() !in BaseIds() ==> mainTabRouter.Id() !in routers
      ensures old(Valid()) ==> Valid()
    {
      var localRouters := routers;
      var pending := localRouters.Keys;
      while pending != {}
        invariant pending <= localRouters.Keys
        invariant routers == map k | k in localRouters && (k in pending || k in BaseIds()) :: localRouters[k]
        decreases pending
      {
        var key :| key in pending;
        if key !in BaseIds() {
          routers := routers - {key};
        }
        pending := pending - {key};
      }
    }

    function StackRouterAt(key: string): set<Router>
      reads this
    {
      if key in routers then routers[key].Routers() else {}
    }

    /** `resetNavigation(forKey:)`: `reset` on that key's router only; absent key, no-op. */
    method ResetNavigation(key: string)
      modifies StackRouterAt(key)`stack, StackRouterAt(key)`presentingSheet,
        StackRouterAt(key)`presentingFullScreen
      ensures key in routers && routers[key].Stack? ==>
        var r := routers[key].router;
        r.stack == [] && r.presentingSheet == None && r.presentingFullScreen == None
    {
      if key in routers {
        match routers[key] {
          case Stack(r) => r.Reset();
          case Tab(t) => t.Reset();
        }
      }
    }

    /** `isPresenting(forKey:)`: false for an absent key, always true for a tab router. */
    function IsPresentingFor(key: string): (b: bool)
      reads this, if key in routers then {routers[key].Obj()} else {}
      ensures key !in routers ==> !b
      ensures key in routers && routers[key].Tab? ==> b
      ensures key in routers && routers[key].Stack? ==> b == routers[key].router.IsPresenting()
    {
      if key in routers then routers[key].IsPresenting() else false
    }

    function Footprint(): set<object>
      reads this
    {
      (set r | r in mainBaseRouters :: r.Obj()) + (set r | r in routers.Values :: r.Obj())
    }

    /** Some base router or some registered router is presenting. */
    predicate AnyPresenting()
      reads this, Footprint()
    {
      (exists r :: r in mainBaseRouters && r.IsPresenting()) ||
      (exists r :: r in routers.Values && r.IsPresenting())
    }

    /**
     * The global `isPresenting`: a loop over the base routers that accumulates into a
     * local, then `||` a search of the registered routers.
     */
    method IsPresentingNow() returns (presenting: bool)
      ensures presenting == AnyPresenting()
    {
      presenting := false;
      var i := 0;
      while i < |mainBaseRouters|
        invariant 0 <= i <= |mainBaseRouters|
        invariant presenting <==> exists j :: 0 <= j < i && mainBaseRouters[j].IsPresenting()
      {
        var routerIsBeingPresented := mainBaseRouters[i].IsPresenting();
        if routerIsBeingPresented {
          presenting := routerIsBeingPresented;
        }
        i := i + 1;
      }
      assert presenting <==> exists r :: r in mainBaseRouters && r.IsPresenting();
      if !presenting {
        var pending := routers.Values;
        while pending != {} && !presenting
          invariant pending <= routers.Values
          invariant !(exists r :: r in mainBaseRouters && r.IsPresenting())
          invariant presenting <==> exists r :: r in routers.Values && r !in pending && r.IsPresenting()
          invariant !presenting ==> forall r :: r in routers.Values && r !in pending ==> !r.IsPresenting()
          decreases pending
        {
          var r :| r in pending;
          presenting := r.IsPresenting();
          pending := pending - {r};
        }
      }
    }

    /** While a tab router is registered, the registry as a whole is presenting. */
    lemma RegisteredTabKeepsPresenting(key: string)
      requires key in routers && routers[key].Tab?
      ensures AnyPresenting()
    {
      assert routers[key] in routers.Values;
    }

    function TopPresented(): set<Router>
      reads this
    {
      if presentedRouters == [] then {} else {presentedRouters[|presentedRouters| - 1]}
    }

    /**
     * `dismissTop`: the last presented router closes its modals. The shortened copy
     * from `dropLast()` is discarded, so `presentedRouters` keeps its length.
     */
    method DismissTop()
      modifies TopPresented()`presentingSheet, TopPresented()`presentingFullScreen
      ensures presentedRouters == old(presentedRouters)
      ensures presentedRouters != [] ==>
        var top := presentedRouters[|presentedRouters| - 1];
        top.presentingSheet == None && top.presentingFullScreen == None && top.stack == old(top.stack)
    {
      if presentedRouters != [] {
        presentedRouters[|presentedRouters| - 1].DismissPresented();
      }
    }

    /**
     * `dismissTop` as its name and the discarded `dropLast()` call intend: the last
     * presented router closes its modals and leaves the sequence, so the next call
     * reaches the router below it.
     */
    method DismissTopAndPop()
      modifies this`presentedRouters, TopPresented()`presentingSheet, TopPresented()`presentingFullScreen
      ensures old(presentedRouters) == [] ==> presentedRouters == []
      ensures old(presentedRouters) != [] ==>
        var top := old(presentedRouters)[|old(presentedRouters)| - 1];
        presentedRouters == old(presentedRouters)[..|old(presentedRouters)| - 1] &&
        top.presentingSheet == None && top.presentingFullScreen == None && top.stack == old(top.stack)
      ensures |presentedRouters| == if old(presentedRouters) == [] then 0 else |old(presentedRouters)| - 1
    {
      if presentedRouters != [] {
        presentedRouters[|presentedRouters| - 1].DismissPresented();
        presentedRouters := presentedRouters[..|presentedRouters| - 1];
      }
    }
  }
}
