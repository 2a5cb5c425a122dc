/**
 * The interactive overlay (InfillionAdManager): renderer events fold into
 * one credit flag and a completion report to its owner. The renderer
 * itself, its options beyond the cancel-stream switch, and the random
 * fallback advertising id are outside the model.
 */
module Infillion {
  import opened Wrappers
  import opened AdTypes

  /**
   * The renderer's events. OTHER stands for every event the general handler
   * falls through to its default branch for.
   */
  datatype TruexAdEvent =
    | AD_STARTED | SKIP_CARD_SHOWN | AD_DISPLAYED | USER_CANCEL_STREAM
    | AD_ERROR | AD_COMPLETED | NO_ADS_AVAILABLE | AD_FREE_POD
    | OPT_IN | OPT_OUT | USER_CANCEL | OTHER

  /** The renderer is started as soon as it is initialised, so it is never started again on AD_DISPLAYED. */
  const SHOW_AD_IMMEDIATELY: bool := true
  const SHOW_AD_AFTER_LOAD: bool := !SHOW_AD_IMMEDIATELY

  /** The events on which the general handler reports completion. */
  predicate IsCompletionEvent(event: TruexAdEvent) {
    event == AD_ERROR || event == AD_COMPLETED || event == NO_ADS_AVAILABLE
  }

  datatype AdOptions = AdOptions(supportsUserCancelStream: bool)

  /** What startAd hands the renderer: the VAST config URL and the options. */
  datatype RendererInit = RendererInit(vastConfigUrl: Option<string>, options: AdOptions)

  /** Only true[X] ads may offer to cancel the stream, and only while the static switch is on. */
  function OptionsFor(adType: AdType, supportUserCancelStream: bool): (o: AdOptions)
    ensures o.supportsUserCancelStream <==> adType == TRUEX && supportUserCancelStream
  {
    AdOptions(adType == TRUEX && supportUserCancelStream)
  }

  /**
   * callbackLive: completionCallback is non-null. generalListener: the
   * renderer is held and the all-events handler is registered with it.
   * cancelListener: the USER_CANCEL_STREAM handler was registered (it is
   * never removed). reports: the values passed to onAdComplete, in order.
   */
  datatype OverlayState = OverlayState(
    callbackLive: bool,
    generalListener: bool,
    cancelListener: bool,
    didReceiveCredit: bool,
    init: Option<RendererInit>,
    reports: seq<bool>)

  /** A new manager, with the static cancel-stream switch as it was at construction. */
  function Created(supportUserCancelStream: bool): OverlayState {
    OverlayState(true, true, supportUserCancelStream, false, None, [])
  }

  function StartAd(s: OverlayState, vastConfigUrl: Option<string>, adType: AdType, supportUserCancelStream: bool): OverlayState {
    s.(init := Some(RendererInit(vastConfigUrl, OptionsFor(adType, supportUserCancelStream))))
  }

  /** destroy: unregister the general handler, drop the renderer and the callback. */
  function Destroy(s: OverlayState): OverlayState {
    s.(generalListener := false, callbackLive := false)
  }

  /** adEventHandler. The completion events dereference the callback without a null check. */
  function AdEventHandler(s: OverlayState, event: TruexAdEvent): OverlayState
    requires IsCompletionEvent(event) ==> s.callbackLive
  {
    if IsCompletionEvent(event) then s.(reports := s.reports + [s.didReceiveCredit])
    else if event == AD_FREE_POD then s.(didReceiveCredit := true)
    else s
  }

  /** onCancelStream: report no credit, whatever was earned; nothing once the callback is gone. */
  function OnCancelStream(s: OverlayState): OverlayState {
    if !s.callbackLive then s else s.(reports := s.reports + [false])
  }

  /**
   * Between events the general handler is registered only while the callback
   * is live, and once a report is made the owner has destroyed the manager.
   */
  predicate Valid(s: OverlayState) {
    && (s.generalListener ==> s.callbackLive)
    && (s.reports != [] ==> !s.callbackLive && !s.generalListener)
  }

  /**
   * The renderer delivers an event to every handler registered for it: the
   * general handler if it is still registered, and the cancel-stream
   * handler for USER_CANCEL_STREAM. The owner's callback tears the manager
   * down (both sequencers destroy it in onInfillionAdComplete), so a report
   * is followed by destroy.
   */
  function Deliver(s: OverlayState, event: TruexAdEvent): OverlayState
    requires Valid(s)
  {
    var general := if s.generalListener then AdEventHandler(s, event) else s;
    var cancelled := if event == USER_CANCEL_STREAM && s.cancelListener then OnCancelStream(general) else general;
    if |cancelled.reports| > |s.reports| then Destroy(cancelled) else cancelled
  }

  /**
   * The manager's life under a sequence of renderer events. Whatever the
   * renderer sends, it reports to its owner at most once.
   */
  function Run(s: OverlayState, events: seq<TruexAdEvent>): (r: OverlayState)
    requires Valid(s)
    ensures Valid(r)
    ensures s.reports <= r.reports && |r.reports| <= |s.reports| + 1
    ensures s.reports != [] ==> r.reports == s.reports
    decreases |events|
  {
    if events == [] then s else Run(Deliver(s, events[0]), events[1..])
  }

  /** A new manager holds no credit, has reported nothing and is not yet started. */
  lemma CreatedIsFresh(supportUserCancelStream: bool)
    ensures var s := Created(supportUserCancelStream);
            Valid(s) && !s.didReceiveCredit && s.reports == [] && s.callbackLive && s.init.None?
  {
  }

  /** AD_FREE_POD records credit and reports nothing. */
  lemma AdFreePodOnlyRecordsCredit(s: OverlayState)
    ensures AdEventHandler(s, AD_FREE_POD) == s.(didReceiveCredit := true)
  {
  }

  /** AD_ERROR, AD_COMPLETED and NO_ADS_AVAILABLE each report the credit earned so far and change nothing else. */
  lemma CompletionReportsCredit(s: OverlayState, event: TruexAdEvent)
    requires IsCompletionEvent(event) && s.callbackLive
    ensures AdEventHandler(s, event) == s.(reports := s.reports + [s.didReceiveCredit])
  {
  }

  /** Every other event, USER_CANCEL_STREAM included, leaves the general handler's state as it was. */
  lemma QuietEventsChangeNothing(s: OverlayState, event: TruexAdEvent)
    requires !IsCompletionEvent(event) && event != AD_FREE_POD
    ensures AdEventHandler(s, event) == s
  {
  }

  /** Cancelling the stream reports no credit even after AD_FREE_POD, and is a no-op once destroyed. */
  lemma CancelReportsNoCredit(s: OverlayState)
    ensures s.callbackLive ==> OnCancelStream(s).reports == s.reports + [false]
    ensures OnCancelStream(Destroy(s)) == Destroy(s)
  {
  }

  /**
   * Once destroyed, the manager ignores whatever the renderer still sends:
   * the general handler is gone and the cancel-stream handler finds no
   * callback. So nothing reaches the unchecked callback after teardown.
   */
  lemma {:induction false} DestroyedManagerIgnoresEvents(s: OverlayState, events: seq<TruexAdEvent>)
    requires Valid(s) && !s.callbackLive
    ensures Run(s, events) == s
    decreases |events|
  {
    if events != [] {
      assert Deliver(s, events[0]) == s;
      DestroyedManagerIgnoresEvents(s, events[1..]);
    }
  }

  /**
   * The events on which a registered handler reports to the owner: a
   * completion event, or USER_CANCEL_STREAM when its handler is registered.
   */
  predicate Reports(event: TruexAdEvent, cancelListener: bool) {
    IsCompletionEvent(event) || (event == USER_CANCEL_STREAM && cancelListener)
  }

  /**
   * A live manager that has not reported yet makes exactly one report, at
   * the first reporting event, and the report carries credit exactly when
   * that event is a completion event and AD_FREE_POD had been seen by then
   * (or before the run). Cancelling the stream first reports false.
   */
  lemma {:induction false} FirstReportCarriesEarnedCredit(s: OverlayState, events: seq<TruexAdEvent>, i: nat)
    requires s.callbackLive && s.generalListener && s.reports == []
    requires i < |events| && Reports(events[i], s.cancelListener)
    requires forall j :: 0 <= j < i ==> !Reports(events[j], s.cancelListener)
    ensures Run(s, events).reports == [IsCompletionEvent(events[i]) && (s.didReceiveCredit || AD_FREE_POD in events[..i])]
    ensures !Run(s, events).callbackLive
    decreases i
  {
    var d := Deliver(s, events[0]);
    if i == 0 {
      assert d.reports == [IsCompletionEvent(events[0]) && s.didReceiveCredit];
      DestroyedManagerIgnoresEvents(d, events[1..]);
    } else {
      assert d == AdEventHandler(s, events[0]);
      forall j | 0 <= j < i - 1
        ensures !Reports(events[1..][j], d.cancelListener)
      {
        assert events[1..][j] == events[j + 1];
      }
      FirstReportCarriesEarnedCredit(d, events[1..], i - 1);
      assert events[..i] == [events[0]] + events[1..][..i - 1];
    }
  }

  /**
   * While no reporting event arrives, a live manager stays live, reports
   * nothing, and holds credit exactly when AD_FREE_POD was seen.
   */
  lemma {:induction false} SilentRunKeepsListening(s: OverlayState, events: seq<TruexAdEvent>)
    requires s.callbackLive && s.generalListener && s.reports == []
    requires forall j :: 0 <= j < |events| ==> !Reports(events[j], s.cancelListener)
    ensures var r := Run(s, events);
            && r.reports == [] && r.callbackLive && r.generalListener
            && r.didReceiveCredit == (s.didReceiveCredit || AD_FREE_POD in events)
    decreases |events|
  {
    if events != [] {
      var d := Deliver(s, events[0]);
      assert d == AdEventHandler(s, events[0]);
      forall j | 0 <= j < |events| - 1
        ensures !Reports(events[1..][j], d.cancelListener)
      {
        assert events[1..][j] == events[j + 1];
      }
      SilentRunKeepsListening(d, events[1..]);
      assert events == [events[0]] + events[1..];
    }
  }

  /** An interaction that earns credit and then completes reports credit, once. */
  lemma CreditedEngagementReportsTrue(supportUserCancelStream: bool)
    ensures Run(Created(supportUserCancelStream), [AD_STARTED, OPT_IN, AD_FREE_POD, AD_COMPLETED]).reports == [true]
  {
    var s0 := Created(supportUserCancelStream);
    var s1 := Deliver(s0, AD_STARTED);
    var s2 := Deliver(s1, OPT_IN);
    var s3 := Deliver(s2, AD_FREE_POD);
    var s4 := Deliver(s3, AD_COMPLETED);
    assert Run(s4, []) == s4;
    assert Run(s0, [AD_STARTED, OPT_IN, AD_FREE_POD, AD_COMPLETED]) == Run(s1, [OPT_IN, AD_FREE_POD, AD_COMPLETED]);
    assert Run(s1, [OPT_IN, AD_FREE_POD, AD_COMPLETED]) == Run(s2, [AD_FREE_POD, AD_COMPLETED]);
    assert Run(s2, [AD_FREE_POD, AD_COMPLETED]) == Run(s3, [AD_COMPLETED]);
  }

  /**
   * Backing out of the choice card after earning credit reports no credit
   * when the cancel-stream handler is registered, and nothing at all when
   * it is not.
   */
  lemma CancelAfterCreditReportsFalse(supportUserCancelStream: bool)
    ensures Run(Created(supportUserCancelStream), [AD_FREE_POD, USER_CANCEL_STREAM]).reports ==
              (if supportUserCancelStream then [false] else [])
  {
    var s0 := Created(supportUserCancelStream);
    var s1 := Deliver(s0, AD_FREE_POD);
    var s2 := Deliver(s1, USER_CANCEL_STREAM);
    assert Run(s2, []) == s2;
    assert Run(s0, [AD_FREE_POD, USER_CANCEL_STREAM]) == Run(s1, [USER_CANCEL_STREAM]);
  }
}

/** InfillionAdManager as an object whose handlers update its fields in place. */
module InfillionManager {
  import opened Wrappers
  import opened AdTypes
  import opened Infillion

  class InfillionAdManager {
    var completionCallbackLive: bool
    var generalListenerRegistered: bool
    const cancelListenerRegistered: bool
    var didReceiveCredit: bool
    var rendererInit: Option<RendererInit>
    var reports: seq<bool>

    function State(): OverlayState
      reads this
    {
      OverlayState(completionCallbackLive, generalListenerRegistered, cancelListenerRegistered,
                   didReceiveCredit, rendererInit, reports)
    }

    /** Registers the general handler, and the cancel-stream handler when the static switch is on. */
    constructor(supportUserCancelStream: bool)
      ensures State() == Created(supportUserCancelStream)
    {
      completionCallbackLive := true;
      didReceiveCredit := false;
      generalListenerRegistered := true;
      cancelListenerRegistered := supportUserCancelStream;
      rendererInit := None;
      reports := [];
    }

    method StartAd(vastConfigUrl: Option<string>, adType: AdType, supportUserCancelStream: bool)
      modifies this
      ensures State() == Infillion.StartAd(old(State()), vastConfigUrl, adType, supportUserCancelStream)
    {
      var options := AdOptions(adType == TRUEX && supportUserCancelStream);
      rendererInit := Some(RendererInit(vastConfigUrl, options));
    }

    method Destroy()
      modifies this
      ensures State() == Infillion.Destroy(old(State()))
    {
      if generalListenerRegistered {
        generalListenerRegistered := false;
      }
      completionCallbackLive := false;
    }

    method AdEventHandler(event: TruexAdEvent)
      requires IsCompletionEvent(event) ==> completionCallbackLive
      modifies this
      ensures State() == Infillion.AdEventHandler(old(State()), event)
    {
      match event {
        case AD_STARTED =>
        case SKIP_CARD_SHOWN =>
        case AD_DISPLAYED =>
        case USER_CANCEL_STREAM =>
          return;
        case AD_ERROR =>
          reports := reports + [didReceiveCredit];
        case AD_COMPLETED =>
          reports := reports + [didReceiveCredit];
        case NO_ADS_AVAILABLE =>
          reports := reports + [didReceiveCredit];
        case AD_FREE_POD =>
          didReceiveCredit := true;
        case OPT_IN =>
        case OPT_OUT =>
        case USER_CANCEL =>
        case OTHER =>
      }
    }

    method OnCancelStream()
      modifies this
      ensures State() == Infillion.OnCancelStream(old(State()))
    {
      if !completionCallbackLive {
        return;
      }
      reports := reports + [false];
    }
  }
}
