/**
 * `ValidatingRouterView`: the debug screen that exercises the registry with several
 * routers — feature sheets on dedicated routers, a fixed multi-router flow, a listing
 * of the registered keys and a reset — and keeps an operations log, newest first and
 * capped at 100 messages.
 */
module Validating {
  import opened Optional
  import opened Routes
  import opened Strings
  import opened CappedLog
  import opened AppRouting
  import opened FeatureActions
  import Visualizer

  /** The most messages the operations log keeps. */
  const MaxLogMessages: nat := 100

  const ListingFooter: string := "==================================="

  /** The first line of a listing: the number of registered keys in decimal. */
  function ListingHeader(count: nat): string {
    "=== Registered Routers (" + NatToString(count) + ") ==="
  }

  /** The count in a listing header sits between its fixed parts and reads back as the number it was made from. */
  lemma ListingHeaderCount(count: nat)
    ensures var h := ListingHeader(count);
      |h| == 29 + |NatToString(count)| &&
      h[24..|h| - 5] == NatToString(count) &&
      DecimalValue(h[24..|h| - 5]) == count
  {
    var h, digits := ListingHeader(count), NatToString(count);
    assert h[24..|h| - 5] == digits;
    NatToStringRoundTrip(count);
  }

  /**
   * The messages `listRegisteredRouters` logs, in order: the header, one line per
   * key in ascending order, the footer.
   */
  function ListingLines(keys: set<string>): seq<string> {
    var sorted := SortedOf(keys);
    [ListingHeader(|keys|)] + seq(|sorted|, i requires 0 <= i < |sorted| => "- " + sorted[i]) + [ListingFooter]
  }

  /** A listing is the header, one line per key, then the footer. */
  lemma ListingLinesShape(keys: set<string>)
    ensures |ListingLines(keys)| == |keys| + 2
    ensures ListingLines(keys)[0] == ListingHeader(|keys|)
    ensures ListingLines(keys)[|keys| + 1] == ListingFooter
  {
  }

  /** The line after the header that names the `i`-th key in ascending order is `- <key>`. */
  lemma ListingKeyLine(keys: set<string>, i: nat)
    requires i < |keys|
    ensures ListingLines(keys)[i + 1] == "- " + SortedOf(keys)[i]
  {
    var sorted := SortedOf(keys);
    var keyLines := seq(|sorted|, i requires 0 <= i < |sorted| => "- " + sorted[i]);
    var front := [ListingHeader(|keys|)] + keyLines;
    assert ListingLines(keys) == front + [ListingFooter];
    assert front[i + 1] == keyLines[i];
  }

  /** A listing names every registered key, and each of its key lines names a registered key. */
  lemma ListingNamesEveryKey(keys: set<string>)
    ensures forall k :: k in keys ==> "- " + k in ListingLines(keys)
    ensures forall i :: 1 <= i < |keys| + 1 ==> ListingLines(keys)[i][2..] in keys
  {
    var lines, sorted := ListingLines(keys), SortedOf(keys);
    ListingLinesShape(keys);
    SortedOfSorted(keys);
    forall k | k in keys
      ensures "- " + k in lines
    {
      var i :| 0 <= i < |sorted| && sorted[i] == k;
      ListingKeyLine(keys, i);
      assert lines[i + 1] == "- " + k;
    }
    forall i | 1 <= i < |keys| + 1
      ensures lines[i][2..] in keys
    {
      ListingKeyLine(keys, i - 1);
      assert lines[i][2..] == sorted[i - 1];
    }
  }

  /** One action of the complex flow, naming the router it acts on by its id. */
  datatype Step =
    | RegisterRouter(routerId: string)
    | PresentSheetOn(routerId: string, sheet: Route)
    | NavigateOn(routerId: string, to: Route)

  /** The actions of `executeComplexFlowWithMultipleRouters`, in the order they run. */
  function ComplexFlowScript(debugId: string, aId: string, bId: string): seq<Step> {
    FeatureASteps(debugId, aId) + FeatureBSteps(aId, bId)
  }

  /** Steps 1 to 4: feature A's router is registered, presented on the debug router, pushed twice. */
  function FeatureASteps(debugId: string, aId: string): seq<Step> {
    [ RegisterRouter(aId),
      PresentSheetOn(debugId, FeatureA(aId, debugId, 1)),
      NavigateOn(aId, FeatureA(aId, debugId, 2)),
      NavigateOn(aId, FeatureA(aId, debugId, 3)) ]
  }

  /** Steps 5 to 8: feature B's router is registered, presented on A's router, pushed twice. */
  function FeatureBSteps(aId: string, bId: string): seq<Step> {
    [ RegisterRouter(bId),
      PresentSheetOn(aId, FeatureB(bId, aId, 1)),
      NavigateOn(bId, FeatureB(bId, aId, 2)),
      NavigateOn(bId, FeatureB(bId, aId, 3)) ]
  }

  /** `id` is registered at the start or by a step before `i`. */
  predicate RegisteredBefore(script: seq<Step>, i: nat, initially: set<string>, id: string)
    requires i <= |script|
  {
    id in initially || exists j :: 0 <= j < i && script[j] == RegisterRouter(id)
  }

  /**
   * Every step acts on a router that is registered by then, and every sheet it
   * presents names a router registered by then, whose own view therefore renders.
   */
  predicate RegistersBeforeUse(script: seq<Step>, initially: set<string>) {
    forall i :: 0 <= i < |script| && !script[i].RegisterRouter? ==>
      RegisteredBefore(script, i, initially, script[i].routerId) &&
      (script[i].PresentSheetOn? ==> RegisteredBefore(script, i, initially, script[i].sheet.id))
  }

  lemma ComplexFlowRegistersBeforeUse(debugId: string, aId: string, bId: string)
    ensures RegistersBeforeUse(ComplexFlowScript(debugId, aId, bId), {debugId})
  {
    var s := ComplexFlowScript(debugId, aId, bId);
    assert s[0] == RegisterRouter(aId) && s[4] == RegisterRouter(bId);
    forall i | 0 <= i < |s| && !s[i].RegisterRouter?
      ensures RegisteredBefore(s, i, {debugId}, s[i].routerId)
      ensures s[i].PresentSheetOn? ==> RegisteredBefore(s, i, {debugId}, s[i].sheet.id)
    {
      if s[i].routerId == aId { assert s[0] == RegisterRouter(aId); }
      if i >= 5 { assert s[4] == RegisterRouter(bId); }
    }
  }

  /** The messages the complex flow logs before its closing listing. */
  function FlowMessages(aId: string, bId: string): (messages: seq<string>)
    ensures |messages| == 9
  {
    [ "Flow: Step 1 - Router for Feature A created (" + aId + ")",
      "Flow: Step 2 - Feature A presented as sheet",
      "Flow: Step 3 - Navigation within Feature A (Level 2)",
      "Flow: Step 4 - Navigation within Feature A (Level 3)",
      "Flow: Step 5 - Router for Feature B created (" + bId + ")",
      "Flow: Step 6 - Feature B presented as sheet",
      "Flow: Step 7 - Navigation within Feature B (Level 2)",
      "Flow: Step 8 - Navigation within Feature B (Level 3)",
      "✅ Fluxo complexo com múltiplos routers concluído!" ]
  }

  /** The two router ids of the flow, from its base id. */
  function FlowRouterIds(baseId: string): (ids: (string, string))
    ensures ids.0 != ids.1
    ensures ids.0 != DebugRouteKey && ids.1 != DebugRouteKey
  {
    FeatureRouterIdsOfKindsDiffer(baseId + "-1", baseId + "-1");
    assert FeatureRouterId(KindA, baseId + "-1")[0] == 'r' && FeatureRouterId(KindB, baseId + "-1")[0] == 'r';
    (FeatureRouterId(KindA, baseId + "-1"), FeatureRouterId(KindB, baseId + "-1"))
  }

  /** The flow's routers, with a base id without 'g' (a UUID prefix), are reported as potential orphans. */
  lemma FlowRoutersReportedAsOrphans(baseId: string)
    requires 'g' !in baseId
    ensures Visualizer.IsOrphanCandidate(FlowRouterIds(baseId).0)
    ensures Visualizer.IsOrphanCandidate(FlowRouterIds(baseId).1)
  {
    assert 'g' !in baseId + "-1";
    FeatureRouterIdIsFeatureNotDebug(KindA, baseId + "-1");
    FeatureRouterIdIsFeatureNotDebug(KindB, baseId + "-1");
  }

  class ValidatingRouterView {
    const appRouter: AppRouter
    /** The key of the debug route family, under which the screen's router is registered. */
    const id: string := DebugRouteKey
    var logMessages: seq<string>
    var showRoutersList: bool

    constructor (appRouter: AppRouter)
      ensures this.appRouter == appRouter && id == DebugRouteKey
      ensures logMessages == [] && !showRoutersList
    {
      this.appRouter := appRouter;
      logMessages := [];
      showRoutersList := false;
    }

    /** The screen's debug router; the screen shows its buttons only while there is one. */
    function DebugRouter(): Option<Router>
      reads appRouter
    {
      DebugRouterUnder(appRouter, id)
    }

    /** `addLog`: the message goes first; past 100 messages the oldest goes. */
    method AddLog(message: string)
      modifies this`logMessages
      ensures logMessages == Prepend(old(logMessages), message, MaxLogMessages)
      ensures logMessages[0] == message && |logMessages| == Min(|old(logMessages)| + 1, MaxLogMessages)
    {
      logMessages := [message] + logMessages;
      if |logMessages| > MaxLogMessages {
        logMessages := logMessages[..MaxLogMessages];
      }
    }

    /** `listRegisteredRouters`: the header, each key in ascending order, the footer. */
    method ListRegisteredRouters()
      modifies this`logMessages
      ensures logMessages == PrependAll(old(logMessages), ListingLines(appRouter.routers.Keys), MaxLogMessages)
    {
      ghost var start := logMessages;
      ghost var lines := ListingLines(appRouter.routers.Keys);
      var routerKeys := SortedOf(appRouter.routers.Keys);
      ListingLinesShape(appRouter.routers.Keys);
      assert logMessages == PrependAll(start, lines[..0], MaxLogMessages);
      LogNext(ListingHeader(|routerKeys|), start, lines, 0);
      for i := 0 to |routerKeys|
        invariant logMessages == PrependAll(start, lines[..i + 1], MaxLogMessages)
      {
        ListingKeyLine(appRouter.routers.Keys, i);
        LogNext("- " + routerKeys[i], start, lines, i + 1);
      }
      LogNext(ListingFooter, start, lines, |routerKeys| + 1);
      assert lines[..|lines|] == lines;
    }

    /**
     * `resetNavigation`: the registry drops every key that is not a base router id,
     * the routers list is hidden, and the remaining keys are listed.
     */
    method ResetNavigation()
      modifies appRouter`routers, this`showRoutersList, this`logMessages
      ensures appRouter.routers == Retain(old(appRouter.routers), appRouter.BaseIds())
      ensures !showRoutersList
      ensures logMessages == PrependAll(old(logMessages), ListingLines(appRouter.routers.Keys), MaxLogMessages)
      ensures old(appRouter.Valid()) ==> appRouter.Valid()
    {
      appRouter.ResetAllNavigation();
      showRoutersList := false;
      ListRegisteredRouters();
    }

    /** "List Registered Routers": toggles the list, logging when it is shown. */
    method ToggleRoutersList()
      modifies this`showRoutersList, this`logMessages
      ensures DebugRouter().None? ==> showRoutersList == old(showRoutersList) && logMessages == old(logMessages)
      ensures DebugRouter().Some? ==> showRoutersList == !old(showRoutersList)
      ensures DebugRouter().Some? && showRoutersList ==>
        logMessages == Prepend(old(logMessages), "Showing list of registered routers", MaxLogMessages)
      ensures DebugRouter().Some? && !showRoutersList ==> logMessages == old(logMessages)
    {
      if DebugRouter().Some? {
        showRoutersList := !showRoutersList;
        if showRoutersList {
          AddLog("Showing list of registered routers");
        }
      }
    }

    /**
     * "Present Feature A/B Sheet": a debug-family router is registered under
     * `routerFeature<letter>-<suffix>`, then the debug router's sheet becomes that
     * feature with the new id, this screen's id as previous id, and level 1.
     */
    method PresentFeatureSheet(kind: FeatureKind, suffix: string) returns (child: Router?)
      modifies appRouter`routers, RouterSet(DebugRouter())`presentingSheet, this`logMessages
      ensures old(DebugRouter()).None? ==>
        child == null && appRouter.routers == old(appRouter.routers) && logMessages == old(logMessages)
      ensures old(DebugRouter()).Some? ==>
        var featureId := FeatureRouterId(kind, suffix);
        var debug := old(DebugRouter()).value;
        child != null && fresh(child) && child.id == featureId && child.family == DebugRouteKey &&
        appRouter.routers == old(appRouter.routers)[featureId := Stack(child)] &&
        debug.presentingSheet == Some(FeatureRoute(kind, featureId, id, 1)) &&
        logMessages == Prepend(old(logMessages), "Presenting Feature " + kind.Letter() + " as Sheet with dedicated router", MaxLogMessages)
      ensures old(appRouter.Valid()) ==> appRouter.Valid()
    {
      var debug := DebugRouter();
      if debug.None? {
        return null;
      }
      var featureId := FeatureRouterId(kind, suffix);
      child := new Router(DebugRouteKey, Some(featureId));
      appRouter.Register(Stack(child));
      debug.value.PresentSheet(FeatureRoute(kind, featureId, id, 1));
      AddLog("Presenting Feature " + kind.Letter() + " as Sheet with dedicated router");
    }

    /** "Registrar Router Debug": shown only while there is no debug router; registers one under `id`. */
    method RegisterDebugRouter() returns (created: Router?)
      modifies appRouter`routers
      ensures old(DebugRouter()).Some? ==> created == null && appRouter.routers == old(appRouter.routers)
      ensures old(DebugRouter()).None? ==>
        created != null && fresh(created) && appRouter.routers == old(appRouter.routers)[id := Stack(created)]
      ensures DebugRouter().Some?
      ensures old(appRouter.Valid()) ==> appRouter.Valid()
    {
      if DebugRouter().Some? {
        return null;
      }
      created := new Router(DebugRouteKey, Some(id));
      appRouter.Register(Stack(created));
    }

    /**
     * `executeComplexFlowWithMultipleRouters`, its delayed steps run one after the
     * other. Without a debug router it only logs an error. Otherwise it registers a
     * router for feature A, presents A on the debug router, goes two levels down in A,
     * registers a router for feature B, presents B on A's router, goes two levels down
     * in B, logs each step and the completion, and lists the registered routers.
     */
    method ExecuteComplexFlow(baseId: string) returns (featureA: Router?, featureB: Router?, ghost trace: seq<Step>)
      modifies this`logMessages, appRouter`routers, RouterSet(DebugRouter())`presentingSheet
      ensures old(DebugRouter()).None? ==>
        featureA == null && featureB == null && trace == [] &&
        appRouter.routers == old(appRouter.routers) &&
        logMessages == Prepend(old(logMessages), "❌ Debug router not found", MaxLogMessages)
      ensures old(DebugRouter()).Some? ==>
        var ids := FlowRouterIds(baseId);
        var debug := old(DebugRouter()).value;
        featureA != null && featureB != null && fresh(featureA) && fresh(featureB) &&
        trace == ComplexFlowScript(id, ids.0, ids.1) &&
        appRouter.routers == old(appRouter.routers)[ids.0 := Stack(featureA)][ids.1 := Stack(featureB)] &&
        debug.presentingSheet == Some(FeatureA(ids.0, id, 1)) &&
        featureA.stack == [FeatureA(ids.0, id, 2), FeatureA(ids.0, id, 3)] &&
        featureA.presentingSheet == Some(FeatureB(ids.1, ids.0, 1)) &&
        featureB.stack == [FeatureB(ids.1, ids.0, 2), FeatureB(ids.1, ids.0, 3)] &&
        featureB.presentingSheet == None && featureB.presentingFullScreen == None &&
        logMessages == PrependAll(old(logMessages), FlowMessages(ids.0, ids.1) + ListingLines(appRouter.routers.Keys), MaxLogMessages)
      ensures old(appRouter.Valid()) ==> appRouter.Valid()
    {
      var found := DebugRouter();
      if found.None? {
        AddLog("❌ Debug router not found");
        return null, null, [];
      }
      var ids := FlowRouterIds(baseId);
      var a, b;
      var messages := FlowMessages(ids.0, ids.1);
      ghost var start := logMessages;
      a, b, trace := RunComplexFlow(found.value, ids.0, ids.1, messages);
      FinishFlow(messages, start);
      featureA, featureB := a, b;
    }

    /**
     * The complex flow on the debug router `debug`, with the routers of the two features
     * under `aId` and `bId`, up to its last message; `messages` are the nine messages it
     * logs before the listing.
     */
    method RunComplexFlow(debug: Router, aId: string, bId: string, messages: seq<string>) returns (featureA: Router, featureB: Router, ghost trace: seq<Step>)
      requires debug.family == DebugRouteKey && aId != bId && aId != id && bId != id && |messages| == 9
      requires id in appRouter.routers && appRouter.routers[id] == Stack(debug)
      modifies this`logMessages, appRouter`routers, debug`presentingSheet
      ensures fresh(featureA) && fresh(featureB)
      ensures trace == ComplexFlowScript(id, aId, bId)
      ensures appRouter.routers == old(appRouter.routers)[aId := Stack(featureA)][bId := Stack(featureB)]
      ensures debug.presentingSheet == Some(FeatureA(aId, id, 1))
      ensures featureA.stack == [FeatureA(aId, id, 2), FeatureA(aId, id, 3)]
      ensures featureA.presentingSheet == Some(FeatureB(bId, aId, 1))
      ensures featureB.stack == [FeatureB(bId, aId, 2), FeatureB(bId, aId, 3)]
      ensures featureB.presentingSheet == None && featureB.presentingFullScreen == None
      ensures logMessages == PrependAll(old(logMessages), messages[..8], MaxLogMessages)
      ensures old(appRouter.Valid()) ==> appRouter.Valid()
    {
      ghost var start := logMessages;
      assert messages[..0] == [];
      ghost var traceA;
      featureA, traceA := FlowFeatureA(debug, aId, bId, messages, start);
      featureB, trace := FlowFeatureB(featureA, aId, bId, messages, start, traceA);
    }

    /** The flow's last message, then the listing of the registered routers. */
    method FinishFlow(messages: seq<string>, ghost start: seq<string>)
      requires |messages| == 9
      requires logMessages == PrependAll(start, messages[..8], MaxLogMessages)
      modifies this`logMessages
      ensures logMessages == PrependAll(start, messages + ListingLines(appRouter.routers.Keys), MaxLogMessages)
    {
      LogNext(messages[8], start, messages, 8);
      assert messages[..9] == messages;
      ListRegisteredRouters();
      PrependAllConcat(start, messages, ListingLines(appRouter.routers.Keys), MaxLogMessages);
    }

    /** `addLog` of the next message of a run `messages` whose first `i` are logged since `start`. */
    method LogNext(message: string, ghost start: seq<string>, ghost messages: seq<string>, ghost i: nat)
      requires i < |messages| && messages[i] == message
      requires logMessages == PrependAll(start, messages[..i], MaxLogMessages)
      modifies this`logMessages
      ensures logMessages == PrependAll(start, messages[..i + 1], MaxLogMessages)
    {
      AddLog(message);
      PrependAllPrefix(start, messages, i, MaxLogMessages);
    }

    /**
     * A flow step that registers a new debug-family router under `routerId` and logs
     * `message`; the trace of the steps done so far grows by that registration.
     */
    method RegisterFlowRouter(routerId: string, message: string, ghost start: seq<string>, ghost messages: seq<string>, ghost i: nat,
                              ghost before: seq<Step>)
      returns (r: Router, ghost trace: seq<Step>)
      requires i < |messages| && messages[i] == message
      requires logMessages == PrependAll(start, messages[..i], MaxLogMessages)
      modifies this`logMessages, appRouter`routers
      ensures fresh(r) && r.id == routerId && r.family == DebugRouteKey
      ensures r.stack == [] && r.presentingSheet == None && r.presentingFullScreen == None
      ensures appRouter.routers == old(appRouter.routers)[routerId := Stack(r)]
      ensures logMessages == PrependAll(start, messages[..i + 1], MaxLogMessages)
      ensures trace == before + [RegisterRouter(routerId)]
      ensures old(appRouter.Valid()) ==> appRouter.Valid()
    {
      r := new Router(DebugRouteKey, Some(routerId));
      appRouter.Register(Stack(r));
      LogNext(message, start, messages, i);
      trace := before + [RegisterRouter(routerId)];
    }

    /**
     * A flow step that pushes `to` on the stack of `r`, the router registered under
     * `routerId`, and logs `message`; the trace grows by that navigation.
     */
    method NavigateAndLog(r: Router, ghost routerId: string, to: Route, message: string,
                          ghost start: seq<string>, ghost messages: seq<string>, ghost i: nat, ghost before: seq<Step>)
      returns (ghost trace: seq<Step>)
      requires routerId in appRouter.routers && appRouter.routers[routerId] == Stack(r)
      requires to.Family() == r.family
      requires i < |messages| && messages[i] == message
      requires logMessages == PrependAll(start, messages[..i], MaxLogMessages)
      modifies r`stack, this`logMessages
      ensures r.stack == old(r.stack) + [to]
      ensures logMessages == PrependAll(start, messages[..i + 1], MaxLogMessages)
      ensures trace == before + [NavigateOn(routerId, to)]
    {
      r.Navigate(to);
      LogNext(message, start, messages, i);
      trace := before + [NavigateOn(routerId, to)];
    }

    /**
     * A flow step that presents `sheet` on `r`, the router registered under `routerId`,
     * and logs `message`; the sheet's own router is registered already, and the trace
     * grows by that presentation.
     */
    method PresentAndLog(r: Router, ghost routerId: string, sheet: Route, message: string,
                         ghost start: seq<string>, ghost messages: seq<string>, ghost i: nat, ghost before: seq<Step>)
      returns (ghost trace: seq<Step>)
      requires routerId in appRouter.routers && appRouter.routers[routerId] == Stack(r)
      requires sheet.id in appRouter.routers
      requires sheet.Family() == r.family
      requires i < |messages| && messages[i] == message
      requires logMessages == PrependAll(start, messages[..i], MaxLogMessages)
      modifies r`presentingSheet, this`logMessages
      ensures r.presentingSheet == Some(sheet)
      ensures logMessages == PrependAll(start, messages[..i + 1], MaxLogMessages)
      ensures trace == before + [PresentSheetOn(routerId, sheet)]
    {
      r.PresentSheet(sheet);
      LogNext(message, start, messages, i);
      trace := before + [PresentSheetOn(routerId, sheet)];
    }

    /**
     * Steps 1 to 4 of the complex flow: feature A's router, its sheet, two levels in it.
     * The log and the trace grow from nothing done yet to the first four steps.
     */
    method FlowFeatureA(debug: Router, aId: string, bId: string, messages: seq<string>, ghost start: seq<string>) returns (featureA: Router, ghost trace: seq<Step>)
      requires debug.family == DebugRouteKey && |messages| == 9 && aId != id
      requires id in appRouter.routers && appRouter.routers[id] == Stack(debug)
      requires logMessages == PrependAll(start, messages[..0], MaxLogMessages)
      modifies this`logMessages, appRouter`routers, debug`presentingSheet
      ensures fresh(featureA) && featureA.id == aId && featureA.family == DebugRouteKey
      ensures appRouter.routers == old(appRouter.routers)[aId := Stack(featureA)]
      ensures debug.presentingSheet == Some(FeatureA(aId, id, 1))
      ensures featureA.stack == [FeatureA(aId, id, 2), FeatureA(aId, id, 3)]
      ensures featureA.presentingSheet == None && featureA.presentingFullScreen == None
      ensures trace == FeatureASteps(id, aId)
      ensures logMessages == PrependAll(start, messages[..4], MaxLogMessages)
      ensures old(appRouter.Valid()) ==> appRouter.Valid()
    {
      featureA, trace := RegisterFlowRouter(aId, messages[0], start, messages, 0, []);
      trace := PresentAndLog(debug, id, FeatureA(aId, id, 1), messages[1], start, messages, 1, trace);
      trace := NavigateAndLog(featureA, aId, FeatureA(aId, id, 2), messages[2], start, messages, 2, trace);
      trace := NavigateAndLog(featureA, aId, FeatureA(aId, id, 3), messages[3], start, messages, 3, trace);
    }

    /**
     * Steps 5 to 8 of the complex flow: feature B's router, its sheet on A's router, two
     * levels in it. The log and the trace grow from the first four steps to all eight.
     */
    method FlowFeatureB(featureA: Router, aId: string, bId: string, messages: seq<string>, ghost start: seq<string>, ghost before: seq<Step>)
      returns (featureB: Router, ghost trace: seq<Step>)
      requires featureA.family == DebugRouteKey && |messages| == 9 && aId != bId
      requires aId in appRouter.routers && appRouter.routers[aId] == Stack(featureA)
      requires logMessages == PrependAll(start, messages[..4], MaxLogMessages)
      requires before == FeatureASteps(id, aId)
      modifies this`logMessages, appRouter`routers, featureA`presentingSheet
      ensures fresh(featureB) && featureB.id == bId && featureB.family == DebugRouteKey
      ensures appRouter.routers == old(appRouter.routers)[bId := Stack(featureB)]
      ensures featureA.presentingSheet == Some(FeatureB(bId, aId, 1))
      ensures featureB.stack == [FeatureB(bId, aId, 2), FeatureB(bId, aId, 3)]
      ensures featureB.presentingSheet == None && featureB.presentingFullScreen == None
      ensures trace == ComplexFlowScript(id, aId, bId)
      ensures logMessages == PrependAll(start, messages[..8], MaxLogMessages)
      ensures old(appRouter.Valid()) ==> appRouter.Valid()
    {
      featureB, trace := RegisterFlowRouter(bId, messages[4], start, messages, 4, before);
      trace := PresentAndLog(featureA, aId, FeatureB(bId, aId, 1), messages[5], start, messages, 5, trace);
      trace := NavigateAndLog(featureB, bId, FeatureB(bId, aId, 2), messages[6], start, messages, 6, trace);
      trace := NavigateAndLog(featureB, bId, FeatureB(bId, aId, 3), messages[7], start, messages, 7, trace);
    }
  }
}
