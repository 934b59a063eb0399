/** The embedded-iframe snippet player: a hidden Spotify embed driven by posted commands. It becomes ready on a
    `ready` or `playback_update` message from a Spotify origin, on a 5000 ms watchdog, or when a click forces it;
    play is the chain `initialize`? -> `ready_check` -> (300 ms) `play` -> (`duration` ms) `pause`. Messages,
    iframe loads and timer expiries are event methods; posted commands and page callbacks are output sequences. */
module SnippetPlayer {
  import opened Wrappers
  import opened Text
  import opened Signals

  /** A command posted to the embed's window. */
  datatype Command = Initialize | ReadyCheck | Play | Pause

  /** The payload of a window message. `kind` is its `type` and `message` its `message` when those are strings,
      `isPlaying` its `isPlaying` when that is a boolean, and `innerIsPlaying` the boolean `data.isPlaying` of a
      truthy nested `data`. */
  datatype MessageData =
    | NotObject
    | Obj(kind: Option<string>, message: Option<string>, isPlaying: Option<bool>, innerIsPlaying: Option<bool>)

  const EmbedPrefix: string := "https://open.spotify.com/embed/track/"
  const EmbedSuffix: string := "?utm_source=generator&theme=0"

  /** `trackUri.split(':')[2]`, `None` when the URI has fewer than three fields. */
  function TrackIdOf(uri: string): (r: Option<string>)
    ensures r.Some? ==> ':' !in r.value
  {
    var parts := Split(uri, ':');
    SplitPiecesFree(uri, ':');
    if |parts| > 2 then Some(parts[2]) else None
  }

  /** For a `spotify:track:<id>` URI the parsed id is exactly `<id>`. */
  lemma TrackIdOfSpotifyUri(id: string)
    requires ':' !in id
    ensures TrackIdOf("spotify:track:" + id) == Some(id)
  {
    SplitPlain(id, ':');
    SplitPiece("track", ':', id);
    SplitPiece("spotify", ':', "track:" + id);
    assert "spotify:track:" + id == "spotify" + [':'] + ("track:" + id);
    assert "track:" + id == "track" + [':'] + id;
  }

  /** The iframe source: the embed URL of the parsed id, with "undefined" in its place when there is none. */
  function EmbedUrl(uri: string): (r: string)
    ensures TrackIdOf(uri).Some? ==>
              var id := TrackIdOf(uri).value;
              |r| == |EmbedPrefix| + |id| + |EmbedSuffix|
              && r[..|EmbedPrefix|] == EmbedPrefix && r[|EmbedPrefix|..|EmbedPrefix| + |id|] == id
              && r[|EmbedPrefix| + |id|..] == EmbedSuffix
    ensures TrackIdOf(uri).None? ==> r == EmbedPrefix + "undefined" + EmbedSuffix
  {
    var id := match TrackIdOf(uri) case Some(x) => x case None => "undefined";
    var r := EmbedPrefix + id + EmbedSuffix;
    assert r[..|EmbedPrefix|] == EmbedPrefix;
    assert r[|EmbedPrefix|..|EmbedPrefix| + |id|] == id;
    assert r[|EmbedPrefix| + |id|..] == EmbedSuffix;
    r
  }

  /** Messages are accepted only from an origin containing "spotify.com". */
  predicate FromSpotify(origin: string)
  {
    Contains(origin, "spotify.com")
  }

  /** A `ready` message: its type or its message is "ready". */
  predicate IsReadyMessage(data: MessageData)
  {
    data.Obj? && (data.kind == Some("ready") || data.message == Some("ready"))
  }

  /** The playing state after a `playback_update`: the nested boolean if any, else the top-level one, else the
      current state. */
  function UpdatedPlaying(data: MessageData, current: bool): (r: bool)
    requires data.Obj?
    ensures data.innerIsPlaying.Some? ==> r == data.innerIsPlaying.value
    ensures data.innerIsPlaying.None? && data.isPlaying.Some? ==> r == data.isPlaying.value
    ensures data.innerIsPlaying.None? && data.isPlaying.None? ==> r == current
  {
    match data.innerIsPlaying
    case Some(b) => b
    case None => data.isPlaying.GetOr(current)
  }

  /** A `playback_update` message. */
  predicate IsPlaybackUpdate(data: MessageData)
  {
    data.Obj? && data.kind == Some("playback_update")
  }

  /** The armed timers once a cleanup has cleared the referenced one, if there is one. */
  function Cleared(timers: map<nat, nat>, ref: Option<nat>): map<nat, nat>
  {
    if ref.Some? then timers - {ref.value} else timers
  }

  /** How many times `c` was posted. */
  function Count(posted: seq<Command>, c: Command): nat
  {
    if posted == [] then 0 else (if posted[0] == c then 1 else 0) + Count(posted[1..], c)
  }

  /** Posting one more command adds one to its own count and leaves the others. */
  lemma {:induction false} CountPost(posted: seq<Command>, c: Command, d: Command)
    ensures Count(posted + [c], d) == Count(posted, d) + (if c == d then 1 else 0)
  {
    if posted != [] {
      assert (posted + [c])[1..] == posted[1..] + [c];
      CountPost(posted[1..], c, d);
    }
  }

  /** The counts the invariant keeps, after one more command is posted. */
  lemma PostCounts(posted: seq<Command>, c: Command)
    ensures Count(posted + [c], ReadyCheck) == Count(posted, ReadyCheck) + (if c == ReadyCheck then 1 else 0)
    ensures Count(posted + [c], Play) == Count(posted, Play) + (if c == Play then 1 else 0)
  {
    CountPost(posted, c, ReadyCheck);
    CountPost(posted, c, Play);
  }

  /** Every `play` answers its own earlier `ready_check`, with `steps` play steps still to come; an init attempt
      was posted; every timer id is below the next one. */
  ghost predicate Balanced(posted: seq<Command>, steps: nat, initAttempt: bool, timers: map<nat, nat>, nextTimer: nat)
  {
    && Count(posted, ReadyCheck) == Count(posted, Play) + steps
    && (initAttempt ==> Initialize in posted)
    && (forall t :: t in timers ==> t < nextTimer)
  }

  class EmbedPlayer {
    var trackUri: string
    var src: string
    const duration: nat
    var live: bool
    var playerReady: bool
    var isPlaying: bool
    /** `initAttemptRef.current`. */
    var initAttempt: bool
    /** Set once the reload handler (a 500 ms re-initialisation on each iframe load) has been installed. */
    var reloadHandler: bool
    /** A readiness watchdog that will force readiness (one armed while ready does nothing and is not kept). */
    var watchdogArmed: bool
    /** The 1000 ms init timer of the message effect. */
    var initTimerArmed: bool
    /** Initialisations scheduled by iframe loads (1000 ms after each load, plus 500 ms with the reload handler). */
    var pendingLoadInits: nat
    /** `checkAndPlay` calls scheduled 500 ms after an `initialize`. */
    var pendingChecks: nat
    /** Play steps scheduled 300 ms after a `ready_check`. */
    var pendingPlaySteps: nat
    /** 500 ms click callbacks not yet run. */
    var pendingClicks: nat
    /** Armed auto-pause timers: id to delay in ms. */
    var timers: map<nat, nat>
    /** `playbackTimeout.current`. */
    var timerRef: Option<nat>
    var nextTimer: nat
    var posted: seq<Command>
    var signals: seq<Signal>

    /** Every `play` answers its own earlier `ready_check`; an init attempt was always posted; a kept watchdog
        only exists while not ready; timer ids are fresh. */
    ghost predicate Valid()
      reads this
    {
      Bookkeeping() && (watchdogArmed ==> !playerReady)
    }

    /** The part of `Valid` that a readiness flip does not touch. */
    ghost predicate Bookkeeping()
      reads this
    {
      Balanced(posted, pendingPlaySteps, initAttempt, timers, nextTimer)
    }

    /** Mount: the track effect resets and reloads the embed; the message effect arms the watchdog and the
        init timer. */
    constructor (trackUri: string, duration: nat)
      ensures Valid() && live && this.trackUri == trackUri && src == EmbedUrl(trackUri) && this.duration == duration
      ensures !playerReady && !isPlaying && !initAttempt && reloadHandler == (trackUri != "")
      ensures watchdogArmed && initTimerArmed && timers == map[] && timerRef.None?
      ensures pendingLoadInits == 0 && pendingChecks == 0 && pendingPlaySteps == 0 && pendingClicks == 0
      ensures posted == [] && signals == []
    {
      this.trackUri := trackUri;
      src := EmbedUrl(trackUri);
      this.duration := duration;
      live := true;
      playerReady := false;
      isPlaying := false;
      initAttempt := false;
      reloadHandler := trackUri != "";
      watchdogArmed := true;
      initTimerArmed := true;
      pendingLoadInits := 0;
      pendingChecks := 0;
      pendingPlaySteps := 0;
      pendingClicks := 0;
      timers := map[];
      timerRef := None;
      nextTimer := 0;
      posted := [];
      signals := [];
    }

    /** The message effect re-runs after readiness flipped: its cleanup clears the watchdog, the init timer and
        the referenced auto-pause timer; it then arms a watchdog (forcing only if not ready) and the init timer. */
    method ReadinessChanged()
      requires Bookkeeping()
      modifies this`watchdogArmed, this`initTimerArmed, this`timers
      ensures Valid() && watchdogArmed == !playerReady && initTimerArmed && timers == Cleared(old(timers), timerRef)
    {
      watchdogArmed := !playerReady;
      initTimerArmed := true;
      if timerRef.Some? {
        timers := timers - {timerRef.value};
      }
    }

    /** A new track URI: the embed source follows it and, for a non-empty URI, readiness, playing state and the
        init attempt are reset and the reload handler installed. */
    method ChangeTrackUri(uri: string)
      requires Valid() && live
      modifies this`trackUri, this`src, this`playerReady, this`isPlaying, this`initAttempt, this`reloadHandler
      modifies this`watchdogArmed, this`initTimerArmed, this`timers
      ensures Valid() && live && trackUri == uri
      ensures src == if uri != old(trackUri) then EmbedUrl(uri) else old(src)
      ensures uri != old(trackUri) && uri != "" ==>
                !playerReady && !isPlaying && !initAttempt && reloadHandler
                && (old(playerReady) ==> watchdogArmed && initTimerArmed && timers == Cleared(old(timers), timerRef))
      ensures uri == old(trackUri) || uri == "" || !old(playerReady) ==>
                watchdogArmed == old(watchdogArmed) && initTimerArmed == old(initTimerArmed) && timers == old(timers)
      ensures uri == old(trackUri) || uri == "" ==>
                playerReady == old(playerReady) && isPlaying == old(isPlaying) && initAttempt == old(initAttempt)
                && reloadHandler == old(reloadHandler)
    {
      if uri != trackUri {
        trackUri := uri;
        src := EmbedUrl(uri);
        if uri != "" {
          ResetForTrack();
        }
      }
    }

    /** The reset of the track effect for a non-empty URI: not ready, not playing, no init attempt, and the
        reload handler installed; leaving readiness re-runs the message effect. */
    method ResetForTrack()
      requires Bookkeeping() && (watchdogArmed ==> !playerReady)
      modifies this`playerReady, this`isPlaying, this`initAttempt, this`reloadHandler
      modifies this`watchdogArmed, this`initTimerArmed, this`timers
      ensures Valid() && !playerReady && !isPlaying && !initAttempt && reloadHandler
      ensures old(playerReady) ==> watchdogArmed && initTimerArmed && timers == Cleared(old(timers), timerRef)
      ensures !old(playerReady) ==>
                watchdogArmed == old(watchdogArmed) && initTimerArmed == old(initTimerArmed) && timers == old(timers)
    {
      var wasReady := playerReady;
      playerReady := false;
      isPlaying := false;
      initAttempt := false;
      reloadHandler := true;
      if wasReady {
        ReadinessChanged();
      }
    }

    /** The iframe finished loading: the 1000 ms load initialisation, and the 500 ms re-initialisation of the
        reload handler if installed, are scheduled. */
    method IframeLoaded()
      requires Valid() && live
      modifies this`pendingLoadInits
      ensures Valid() && live
      ensures pendingLoadInits == old(pendingLoadInits) + (if reloadHandler then 2 else 1)
    {
      pendingLoadInits := pendingLoadInits + if reloadHandler then 2 else 1;
    }

    /** A scheduled load initialisation posts `initialize` and records the attempt. */
    method LoadInitFires()
      requires Valid() && live && pendingLoadInits > 0
      modifies this`pendingLoadInits, this`posted, this`initAttempt
      ensures Valid() && live && pendingLoadInits == old(pendingLoadInits) - 1
      ensures initAttempt && posted == old(posted) + [Initialize]
    {
      pendingLoadInits := pendingLoadInits - 1;
      PostCounts(posted, Initialize);
      posted := posted + [Initialize];
      initAttempt := true;
    }

    /** The 1000 ms init timer posts `initialize` only if no attempt was made yet, and then records one. */
    method InitTimerFires()
      requires Valid() && live && initTimerArmed
      modifies this`initTimerArmed, this`posted, this`initAttempt
      ensures Valid() && live && !initTimerArmed && initAttempt
      ensures !old(initAttempt) ==> posted == old(posted) + [Initialize]
      ensures old(initAttempt) ==> posted == old(posted)
    {
      initTimerArmed := false;
      if !initAttempt {
        PostCounts(posted, Initialize);
        posted := posted + [Initialize];
        initAttempt := true;
      }
    }

    /** The 5000 ms watchdog forces readiness. */
    method WatchdogFires()
      requires Valid() && live && watchdogArmed
      modifies this`playerReady, this`signals, this`watchdogArmed, this`initTimerArmed, this`timers
      ensures Valid() && live && playerReady && !watchdogArmed && initTimerArmed
      ensures signals == old(signals) + [Ready] && timers == Cleared(old(timers), timerRef)
    {
      playerReady := true;
      signals := signals + [Ready];
      ReadinessChanged();
    }

    /** A window message. Only Spotify origins count: a `ready` message makes the player ready and cancels the
        watchdog; a `playback_update` takes the reported playing state and makes the player ready; an `error`
        message is only logged. */
    method HandleMessage(origin: string, data: MessageData)
      requires Valid() && live
      modifies this`playerReady, this`isPlaying, this`signals, this`watchdogArmed, this`initTimerArmed, this`timers
      ensures Valid() && live
      ensures var ready := FromSpotify(origin) && IsReadyMessage(data);
              var update := FromSpotify(origin) && IsPlaybackUpdate(data);
              && playerReady == (old(playerReady) || ready || update)
              && signals == old(signals) + (if ready then [Ready] else [])
                                         + (if update && !old(playerReady) then [Ready] else [])
              && isPlaying == (if update then UpdatedPlaying(data, old(isPlaying)) else old(isPlaying))
              && watchdogArmed == (old(watchdogArmed) && !ready && !update)
      ensures playerReady != old(playerReady) ==> initTimerArmed && timers == Cleared(old(timers), timerRef)
      ensures playerReady == old(playerReady) ==> initTimerArmed == old(initTimerArmed) && timers == old(timers)
    {
      if !FromSpotify(origin) || data.NotObject? {
        return;
      }
      var wasReady := playerReady;
      if IsReadyMessage(data) {
        playerReady := true;
        signals := signals + [Ready];
        watchdogArmed := false;
      }
      if data.kind == Some("playback_update") {
        isPlaying := UpdatedPlaying(data, isPlaying);
        if !wasReady {
          playerReady := true;
          signals := signals + [Ready];
        }
      }
      if playerReady != wasReady {
        ReadinessChanged();
      }
    }

    /** `togglePlayback`. Not ready: nothing. Playing: the referenced timer is cleared, `pause` posted and the
        page told playback ended. Otherwise: without an init attempt `initialize` is posted and the check is
        scheduled in 500 ms; with one, `ready_check` is posted now and the play step scheduled. */
    method Toggle()
      requires Valid() && live
      modifies this`timers, this`posted, this`isPlaying, this`signals, this`pendingChecks, this`pendingPlaySteps
      ensures Valid() && live && playerReady == old(playerReady) && initAttempt == old(initAttempt)
      ensures !old(playerReady) ==>
                posted == old(posted) && signals == old(signals) && isPlaying == old(isPlaying)
                && pendingChecks == old(pendingChecks) && pendingPlaySteps == old(pendingPlaySteps)
                && timers == old(timers)
      ensures old(playerReady) && old(isPlaying) ==>
                !isPlaying && posted == old(posted) + [Pause] && signals == old(signals) + [Ended]
                && timers == Cleared(old(timers), timerRef)
                && pendingChecks == old(pendingChecks) && pendingPlaySteps == old(pendingPlaySteps)
      ensures old(playerReady) && !old(isPlaying) && !old(initAttempt) ==>
                !isPlaying && posted == old(posted) + [Initialize] && pendingChecks == old(pendingChecks) + 1
                && pendingPlaySteps == old(pendingPlaySteps) && signals == old(signals) && timers == old(timers)
      ensures old(playerReady) && !old(isPlaying) && old(initAttempt) ==>
                !isPlaying && posted == old(posted) + [ReadyCheck] && pendingChecks == old(pendingChecks)
                && pendingPlaySteps == old(pendingPlaySteps) + 1 && signals == old(signals) && timers == old(timers)
    {
      if playerReady {
        ToggleReady();
      }
    }

    /** The part of `togglePlayback` past its readiness guard. */
    method ToggleReady()
      requires Valid() && playerReady
      modifies this`timers, this`posted, this`isPlaying, this`signals, this`pendingChecks, this`pendingPlaySteps
      ensures Valid() && !isPlaying
      ensures posted == old(posted) + [if old(isPlaying) then Pause else if initAttempt then ReadyCheck else Initialize]
      ensures signals == old(signals) + (if old(isPlaying) then [Ended] else [])
      ensures pendingChecks == old(pendingChecks) + (if !old(isPlaying) && !initAttempt then 1 else 0)
      ensures pendingPlaySteps == old(pendingPlaySteps) + (if !old(isPlaying) && initAttempt then 1 else 0)
      ensures timers == if old(isPlaying) then Cleared(old(timers), timerRef) else old(timers)
    {
      if isPlaying {
        if timerRef.Some? {
          timers := timers - {timerRef.value};
        }
        PostCounts(posted, Pause);
        posted := posted + [Pause];
        isPlaying := false;
        signals := signals + [Ended];
      } else if !initAttempt {
        PostCounts(posted, Initialize);
        posted := posted + [Initialize];
        pendingChecks := pendingChecks + 1;
      } else {
        PostCounts(posted, ReadyCheck);
        posted := posted + [ReadyCheck];
        pendingPlaySteps := pendingPlaySteps + 1;
      }
    }

    /** `checkAndPlay` after its 500 ms delay: `ready_check` now, the play step in 300 ms. */
    method CheckFires()
      requires Valid() && live && pendingChecks > 0
      modifies this`pendingChecks, this`posted, this`pendingPlaySteps
      ensures Valid() && live && pendingChecks == old(pendingChecks) - 1
      ensures posted == old(posted) + [ReadyCheck] && pendingPlaySteps == old(pendingPlaySteps) + 1
    {
      pendingChecks := pendingChecks - 1;
      PostCounts(posted, ReadyCheck);
      posted := posted + [ReadyCheck];
      pendingPlaySteps := pendingPlaySteps + 1;
    }

    /** The play step: `play` is posted, the player is playing, the page is told, and one auto-pause timer of
        `duration` ms is armed and referenced. */
    method PlayStepFires() returns (t: nat)
      requires Valid() && live && pendingPlaySteps > 0
      modifies this`pendingPlaySteps, this`posted, this`isPlaying, this`signals, this`timers, this`timerRef, this`nextTimer
      ensures Valid() && live && isPlaying && pendingPlaySteps == old(pendingPlaySteps) - 1
      ensures posted == old(posted) + [Play] && signals == old(signals) + [Started]
      ensures t !in old(timers) && timers == old(timers)[t := duration] && timerRef == Some(t)
      ensures playerReady == old(playerReady)
    {
      pendingPlaySteps := pendingPlaySteps - 1;
      PostCounts(posted, Play);
      posted := posted + [Play];
      isPlaying := true;
      signals := signals + [Started];
      t := nextTimer;
      timers := timers[t := duration];
      timerRef := Some(t);
      nextTimer := nextTimer + 1;
    }

    /** An auto-pause timer expired: `pause` is posted and the page told playback ended. */
    method AutoPauseFires(t: nat)
      requires Valid() && live && t in timers
      modifies this`timers, this`posted, this`isPlaying, this`signals
      ensures Valid() && live && !isPlaying && timers == old(timers) - {t}
      ensures posted == old(posted) + [Pause] && signals == old(signals) + [Ended]
    {
      timers := timers - {t};
      PostCounts(posted, Pause);
      posted := posted + [Pause];
      isPlaying := false;
      signals := signals + [Ended];
    }

    /** `handleClick`: toggles when ready; otherwise posts `initialize` and arms the 500 ms forced-ready callback. */
    method Click()
      requires Valid() && live
      modifies this`posted, this`pendingClicks
      modifies this`timers, this`isPlaying, this`signals, this`pendingChecks, this`pendingPlaySteps
      ensures Valid() && live
      ensures !old(playerReady) ==>
                posted == old(posted) + [Initialize] && pendingClicks == old(pendingClicks) + 1
                && signals == old(signals) && isPlaying == old(isPlaying) && timers == old(timers)
                && pendingChecks == old(pendingChecks) && pendingPlaySteps == old(pendingPlaySteps)
      ensures old(playerReady) ==>
                !isPlaying && pendingClicks == old(pendingClicks)
                && posted == old(posted) + [if old(isPlaying) then Pause else if initAttempt then ReadyCheck else Initialize]
                && signals == old(signals) + (if old(isPlaying) then [Ended] else [])
                && pendingChecks == old(pendingChecks) + (if !old(isPlaying) && !initAttempt then 1 else 0)
                && pendingPlaySteps == old(pendingPlaySteps) + (if !old(isPlaying) && initAttempt then 1 else 0)
                && timers == if old(isPlaying) then Cleared(old(timers), timerRef) else old(timers)
    {
      if !playerReady {
        PostCounts(posted, Initialize);
        posted := posted + [Initialize];
        pendingClicks := pendingClicks + 1;
      } else {
        Toggle();
      }
    }

    /** The 500 ms callback of a click made while not ready, as written: readiness is forced, but the toggle it
        calls sees the click's render, in which the player was not ready, so no play chain starts. */
    method ClickTimerFires()
      requires Valid() && live && pendingClicks > 0
      modifies this`pendingClicks, this`playerReady, this`signals, this`watchdogArmed, this`initTimerArmed, this`timers
      ensures Valid() && live && playerReady && pendingClicks == old(pendingClicks) - 1
      ensures signals == old(signals) + [Ready]
      ensures !old(playerReady) ==> !watchdogArmed && initTimerArmed && timers == Cleared(old(timers), timerRef)
      ensures old(playerReady) ==>
                watchdogArmed == old(watchdogArmed) && initTimerArmed == old(initTimerArmed) && timers == old(timers)
    {
      pendingClicks := pendingClicks - 1;
      ForceReady();
    }

    /** The same callback as evidently intended: force readiness, then toggle with the player now ready. */
    method ClickTimerFiresIntended()
      requires Valid() && live && pendingClicks > 0
      modifies this`pendingClicks, this`playerReady, this`signals, this`watchdogArmed, this`initTimerArmed, this`timers
      modifies this`posted, this`isPlaying, this`pendingChecks, this`pendingPlaySteps
      ensures Valid() && live && playerReady && pendingClicks == old(pendingClicks) - 1
      ensures !isPlaying
      ensures !old(isPlaying) ==> signals == old(signals) + [Ready]
      ensures old(isPlaying) ==> signals == old(signals) + [Ready, Ended] && posted == old(posted) + [Pause]
      ensures !old(isPlaying) && !old(initAttempt) ==>
                posted == old(posted) + [Initialize] && pendingChecks == old(pendingChecks) + 1
      ensures !old(isPlaying) && old(initAttempt) ==>
                posted == old(posted) + [ReadyCheck] && pendingPlaySteps == old(pendingPlaySteps) + 1
    {
      pendingClicks := pendingClicks - 1;
      ForceReady();
      ToggleReady();
    }

    /** The forced readiness of the click callback: ready, the page told so, and the message effect re-run if
        readiness changed. */
    method ForceReady()
      requires Valid()
      modifies this`playerReady, this`signals, this`watchdogArmed, this`initTimerArmed, this`timers
      ensures Valid() && playerReady && signals == old(signals) + [Ready]
      ensures !old(playerReady) ==> !watchdogArmed && initTimerArmed && timers == Cleared(old(timers), timerRef)
      ensures old(playerReady) ==>
                watchdogArmed == old(watchdogArmed) && initTimerArmed == old(initTimerArmed) && timers == old(timers)
    {
      var wasReady := playerReady;
      playerReady := true;
      signals := signals + [Ready];
      if !wasReady {
        ReadinessChanged();
      }
    }

    /** Unmount: the message listener is removed and the watchdog, init timer and referenced auto-pause timer
        cleared. */
    method Unmount()
      requires Valid() && live
      modifies this`live, this`watchdogArmed, this`initTimerArmed, this`timers
      ensures Valid() && !live && !watchdogArmed && !initTimerArmed && timers == Cleared(old(timers), timerRef)
    {
      live := false;
      watchdogArmed := false;
      initTimerArmed := false;
      if timerRef.Some? {
        timers := timers - {timerRef.value};
      }
    }
  }

  /** A click before the embed is ready, followed by its 500 ms callback, makes the player ready but starts no
      play chain: nothing but `initialize` is ever posted. */
  method ClickWhileLoadingScenario(uri: string, duration: nat) returns (p: EmbedPlayer)
    ensures p.playerReady && p.posted == [Initialize] && p.pendingChecks == 0 && p.pendingPlaySteps == 0
  {
    p := new EmbedPlayer(uri, duration);
    p.Click();
    p.ClickTimerFires();
  }

  /** With the intended callback the same click goes on to the play chain: a second `initialize` is posted and
      the 500 ms check, which posts `ready_check` and then `play`, is scheduled. */
  method ClickWhileLoadingIntendedScenario(uri: string, duration: nat) returns (p: EmbedPlayer)
    ensures p.Valid() && p.live && p.playerReady && !p.isPlaying
    ensures p.posted == [Initialize, Initialize] && p.pendingChecks == 1 && p.signals == [Ready]
  {
    p := new EmbedPlayer(uri, duration);
    p.Click();
    assert p.posted == [Initialize] && p.signals == [] && !p.isPlaying && !p.initAttempt;
    p.ClickTimerFiresIntended();
  }
}
