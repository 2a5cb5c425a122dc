/**
 * The player event listener of the sample player: it turns the player's
 * state changes into start, resume and pause notifications, remembering
 * only whether playback has started, and cancels the stream on any error.
 */
module PlayerEvents {
  /** The player's "ready" playback state; the other states are idle (1), buffering (2) and ended (4). */
  const STATE_READY: int := 3

  /** Calls on the playback-state listener and the playback handler. */
  datatype Notification = PlayerDidStart | PlayerDidResume | PlayerDidPause | CancelStream

  datatype PlayerEvent =
    | StateChanged(playWhenReady: bool, playbackState: int)
    | PlayerError

  datatype ListenerState = ListenerState(playbackDidStart: bool, calls: seq<Notification>)

  const Initial: ListenerState := ListenerState(false, [])

  /** An event that makes the player play: asked to play while ready. */
  predicate StartsPlaying(event: PlayerEvent) {
    event.StateChanged? && event.playWhenReady && event.playbackState == STATE_READY
  }

  function OnPlayerError(s: ListenerState): ListenerState {
    s.(calls := s.calls + [CancelStream])
  }

  function OnPlayerStateChanged(s: ListenerState, playWhenReady: bool, playbackState: int): ListenerState {
    if playWhenReady && playbackState == STATE_READY then
      if !s.playbackDidStart then ListenerState(true, s.calls + [PlayerDidStart])
      else s.(calls := s.calls + [PlayerDidResume])
    else if !playWhenReady then
      s.(calls := s.calls + [PlayerDidPause])
    else
      s
  }

  function Step(s: ListenerState, event: PlayerEvent): ListenerState {
    match event
    case PlayerError => OnPlayerError(s)
    case StateChanged(playWhenReady, playbackState) => OnPlayerStateChanged(s, playWhenReady, playbackState)
  }

  /** The listener after a sequence of events, oldest first. */
  function Run(s: ListenerState, events: seq<PlayerEvent>): ListenerState
    decreases |events|
  {
    if events == [] then s else Step(Run(s, events[..|events| - 1]), events[|events| - 1])
  }

  function CountStarts(calls: seq<Notification>): nat {
    if calls == [] then 0 else CountStarts(calls[..|calls| - 1]) + (if calls[|calls| - 1] == PlayerDidStart then 1 else 0)
  }

  lemma CountStartsAppend(calls: seq<Notification>, n: Notification)
    ensures CountStarts(calls + [n]) == CountStarts(calls) + (if n == PlayerDidStart then 1 else 0)
  {
    assert (calls + [n])[..|calls|] == calls;
  }

  /** Each event makes at most one call, and a call only ever appends. */
  lemma StepAppendsAtMostOne(s: ListenerState, event: PlayerEvent)
    ensures var r := Step(s, event);
            s.calls <= r.calls && |r.calls| <= |s.calls| + 1
  {
  }

  /**
   * The first play-while-ready event announces a start and sets the flag;
   * later ones announce a resume; asking not to play announces a pause
   * whatever the state and leaves the flag alone; asking to play while not
   * ready does nothing.
   */
  lemma StateChangeRules(s: ListenerState, playWhenReady: bool, playbackState: int)
    ensures var r := OnPlayerStateChanged(s, playWhenReady, playbackState);
            && (playWhenReady && playbackState == STATE_READY && !s.playbackDidStart ==>
                  r == ListenerState(true, s.calls + [PlayerDidStart]))
            && (playWhenReady && playbackState == STATE_READY && s.playbackDidStart ==>
                  r == s.(calls := s.calls + [PlayerDidResume]))
            && (!playWhenReady ==> r == s.(calls := s.calls + [PlayerDidPause]))
            && (playWhenReady && playbackState != STATE_READY ==> r == s)
  {
  }

  /** A player error always cancels the stream and never touches the flag. */
  lemma ErrorCancelsStream(s: ListenerState)
    ensures Step(s, PlayerError) == ListenerState(s.playbackDidStart, s.calls + [CancelStream])
  {
  }

  /** Some event of the sequence made the player play. */
  predicate AnyStartsPlaying(events: seq<PlayerEvent>) {
    exists i :: 0 <= i < |events| && StartsPlaying(events[i])
  }

  /** One event sets the flag exactly when it makes the player play, and announces a start exactly when it sets it. */
  lemma StepStartRule(s: ListenerState, event: PlayerEvent)
    ensures Step(s, event).playbackDidStart == (s.playbackDidStart || StartsPlaying(event))
    ensures CountStarts(Step(s, event).calls) ==
              CountStarts(s.calls) + (if StartsPlaying(event) && !s.playbackDidStart then 1 else 0)
  {
    match event {
      case PlayerError =>
        CountStartsAppend(s.calls, CancelStream);
      case StateChanged(playWhenReady, playbackState) =>
        if playWhenReady && playbackState == STATE_READY {
          CountStartsAppend(s.calls, if s.playbackDidStart then PlayerDidResume else PlayerDidStart);
        } else if !playWhenReady {
          CountStartsAppend(s.calls, PlayerDidPause);
        }
    }
  }

  lemma AnyStartsPlayingSnoc(events: seq<PlayerEvent>)
    requires events != []
    ensures AnyStartsPlaying(events) <==>
              AnyStartsPlaying(events[..|events| - 1]) || StartsPlaying(events[|events| - 1])
  {
    var prefix := events[..|events| - 1];
    if AnyStartsPlaying(prefix) {
      var i :| 0 <= i < |prefix| && StartsPlaying(prefix[i]);
      assert events[i] == prefix[i];
    }
    if AnyStartsPlaying(events) {
      var i :| 0 <= i < |events| && StartsPlaying(events[i]);
      if i < |prefix| {
        assert prefix[i] == events[i];
      }
    }
  }

  /**
   * From a new listener, playback has started exactly when some event made
   * the player play, and the start is announced exactly that often: once,
   * or never.
   */
  lemma {:induction false} StartAnnouncedOnce(events: seq<PlayerEvent>)
    ensures Run(Initial, events).playbackDidStart <==> AnyStartsPlaying(events)
    ensures CountStarts(Run(Initial, events).calls) == (if Run(Initial, events).playbackDidStart then 1 else 0)
    decreases |events|
  {
    if events != [] {
      var prefix := events[..|events| - 1];
      StartAnnouncedOnce(prefix);
      StepStartRule(Run(Initial, prefix), events[|events| - 1]);
      AnyStartsPlayingSnoc(events);
    }
  }

  /** How often x occurs in s. */
  function Occurrences<T(==)>(s: seq<T>, x: T): nat {
    if s == [] then 0 else Occurrences(s[..|s| - 1], x) + (if s[|s| - 1] == x then 1 else 0)
  }

  lemma OccurrencesAppend<T>(s: seq<T>, y: T, x: T)
    ensures Occurrences(s + [y], x) == Occurrences(s, x) + (if y == x then 1 else 0)
  {
    assert (s + [y])[..|s|] == s;
  }

  /** One event cancels the stream exactly when it is a player error. */
  lemma StepCancelRule(s: ListenerState, event: PlayerEvent)
    ensures Occurrences(Step(s, event).calls, CancelStream) ==
              Occurrences(s.calls, CancelStream) + (if event == PlayerError then 1 else 0)
  {
    match event {
      case PlayerError =>
        OccurrencesAppend(s.calls, CancelStream, CancelStream);
      case StateChanged(playWhenReady, playbackState) =>
        if playWhenReady && playbackState == STATE_READY {
          OccurrencesAppend(s.calls, if s.playbackDidStart then PlayerDidResume else PlayerDidStart, CancelStream);
        } else if !playWhenReady {
          OccurrencesAppend(s.calls, PlayerDidPause, CancelStream);
        }
    }
  }

  /** From a new listener, every player error cancels the stream once, and nothing else does. */
  lemma {:induction false} EveryErrorCancelsOnce(events: seq<PlayerEvent>)
    ensures Occurrences(Run(Initial, events).calls, CancelStream) == Occurrences(events, PlayerError)
    decreases |events|
  {
    if events != [] {
      var prefix := events[..|events| - 1];
      var e := events[|events| - 1];
      EveryErrorCancelsOnce(prefix);
      StepCancelRule(Run(Initial, prefix), e);
      OccurrencesAppend(prefix, e, PlayerError);
      assert prefix + [e] == events;
    }
  }

  /**
   * From a new listener, playback counts as started exactly when a start
   * has been announced, and every resume is announced after a start.
   */
  lemma {:induction false} ResumeOnlyAfterStart(events: seq<PlayerEvent>)
    ensures var r := Run(Initial, events);
            && (r.playbackDidStart <==> PlayerDidStart in r.calls)
            && forall i :: 0 <= i < |r.calls| && r.calls[i] == PlayerDidResume ==> PlayerDidStart in r.calls[..i]
    decreases |events|
  {
    if events != [] {
      var prefix := events[..|events| - 1];
      ResumeOnlyAfterStart(prefix);
      var s := Run(Initial, prefix);
      var r := Step(s, events[|events| - 1]);
      assert r == Run(Initial, events);
      forall i | 0 <= i < |r.calls| && r.calls[i] == PlayerDidResume
        ensures PlayerDidStart in r.calls[..i]
      {
        if i < |s.calls| {
          assert r.calls[..i] == s.calls[..i];
        } else {
          assert s.playbackDidStart;
          assert r.calls[..i] == s.calls;
        }
      }
    }
  }
}

/** The listener as an object whose single flag its handlers read and flip. */
module PlayerListener {
  import opened PlayerEvents

  class PlayerEventListener {
    var playbackDidStart: bool
    var calls: seq<Notification>

    function State(): ListenerState
      reads this
    {
      ListenerState(playbackDidStart, calls)
    }

    constructor()
      ensures State() == Initial
    {
      playbackDidStart := false;
      calls := [];
    }

    method OnPlayerError()
      modifies this
      ensures State() == PlayerEvents.OnPlayerError(old(State()))
    {
      calls := calls + [CancelStream];
    }

    method OnPlayerStateChanged(playWhenReady: bool, playbackState: int)
      modifies this
      ensures State() == PlayerEvents.OnPlayerStateChanged(old(State()), playWhenReady, playbackState)
    {
      if playWhenReady && playbackState == STATE_READY {
        if !playbackDidStart {
          calls := calls + [PlayerDidStart];
          playbackDidStart := true;
        } else {
          calls := calls + [PlayerDidResume];
        }
      } else if !playWhenReady {
        calls := calls + [PlayerDidPause];
      }
    }
  }
}
