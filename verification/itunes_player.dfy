/** The direct-audio snippet player: an audio element that becomes ready on `canplaythrough`, on a media error or
    after a 5000 ms watchdog, and plays `duration` ms from a random start before an auto-stop timer pauses it.
    Media events, timer expiries and the settlement of the play promise are event methods; what the player does
    to the audio element and the callbacks it makes to the page are recorded as output sequences. */
module ITunesPlayer {
  import opened Wrappers
  import opened Text
  import opened Rotation
  import opened Signals

  /** An operation on the audio element. `Seek(ms)` sets `currentTime` to ms / 1000 seconds. */
  datatype AudioCommand = SetSource(url: string) | Load | Seek(ms: nat) | Play | Pause

  /** Start offsets are drawn below 25 seconds, leaving 5 seconds of a 30-second preview. */
  const MaxStartMs: nat := 25000

  /** The preview URL with a cache-busting `_=<timestamp>` parameter, joined with `&` when the URL already has a
      query string and with `?` otherwise. */
  function CacheBusted(url: string, now: nat): (r: string)
    ensures |r| > |url| + 3 && r[..|url|] == url
    ensures r[|url|] == (if '?' in url then '&' else '?')
    ensures r[|url| + 1..|url| + 3] == "_="
    ensures forall i :: |url| + 3 <= i < |r| ==> '0' <= r[i] <= '9'
    ensures ParseDigits(r[|url| + 3..]) == now
    ensures '?' in r
  {
    var r := url + [if '?' in url then '&' else '?'] + "_=" + NatToString(now);
    assert r[|url| + 3..] == NatToString(now);
    NatToStringRoundTrip(now);
    assert r[|url|] in r;
    r
  }

  /** `Math.floor(Math.random() * 25000)`: the start position in milliseconds. */
  function StartOffsetMs(r: real): (ms: nat)
    requires IsRandom(r)
    ensures ms < MaxStartMs
    ensures r == 0.0 ==> ms == 0
  {
    Pick(r, MaxStartMs)
  }

  /** Every `play()` is issued right after a seek to a start position below 25 seconds. */
  predicate PlaysFollowSeeks(cmds: seq<AudioCommand>)
  {
    forall i :: 0 <= i < |cmds| && cmds[i].Play? ==> i > 0 && cmds[i - 1].Seek? && cmds[i - 1].ms < MaxStartMs
  }

  lemma PlaysFollowSeeksAppend(cmds: seq<AudioCommand>, more: seq<AudioCommand>)
    requires PlaysFollowSeeks(cmds) && PlaysFollowSeeks(more) && (|more| > 0 ==> !more[0].Play?)
    ensures PlaysFollowSeeks(cmds + more)
  {
    forall i | 0 <= i < |cmds + more| && (cmds + more)[i].Play?
      ensures i > 0 && (cmds + more)[i - 1].Seek? && (cmds + more)[i - 1].ms < MaxStartMs
    {
      if i >= |cmds| {
        assert more[i - |cmds|].Play?;
        assert i - |cmds| > 0;
        assert (cmds + more)[i - 1] == more[i - |cmds| - 1];
      }
    }
  }

  class DirectPlayer {
    var previewUrl: string
    const duration: nat
    var live: bool
    var playerReady: bool
    var isPlaying: bool
    /** The 5000 ms readiness watchdog armed at mount. */
    var watchdogArmed: bool
    /** `play()` promises not yet settled. */
    var pendingPlays: nat
    /** 500 ms click callbacks not yet run. */
    var pendingClicks: nat
    /** Armed auto-stop timers: id to delay in ms. */
    var timers: map<nat, nat>
    /** `playbackTimeout.current`: the id of the last auto-stop timer armed. */
    var timerRef: Option<nat>
    var nextTimer: nat
    var audio: seq<AudioCommand>
    var signals: seq<Signal>

    /** While mounted, playing implies an armed auto-stop timer is referenced; timer ids are fresh; plays follow
        seeks. */
    ghost predicate Valid()
      reads this
    {
      && (live && isPlaying ==> timerRef.Some? && timerRef.value in timers)
      && (forall t :: t in timers ==> t < nextTimer)
      && PlaysFollowSeeks(audio)
    }

    /** Mount: the audio element is created, the watchdog armed, and the preview URL loaded. */
    constructor (previewUrl: string, duration: nat, now: nat)
      ensures Valid() && live && this.previewUrl == previewUrl && this.duration == duration
      ensures !playerReady && !isPlaying && watchdogArmed && timers == map[] && timerRef.None?
      ensures pendingPlays == 0 && pendingClicks == 0 && signals == []
      ensures audio == if previewUrl != "" then [SetSource(CacheBusted(previewUrl, now)), Load] else []
    {
      this.previewUrl := previewUrl;
      this.duration := duration;
      live := true;
      playerReady := false;
      isPlaying := false;
      watchdogArmed := true;
      pendingPlays := 0;
      pendingClicks := 0;
      timers := map[];
      timerRef := None;
      nextTimer := 0;
      audio := if previewUrl != "" then [SetSource(CacheBusted(previewUrl, now)), Load] else [];
      signals := [];
    }

    /** A re-render with another preview URL: the player is no longer ready and the new source is loaded. */
    method ChangePreviewUrl(url: string, now: nat)
      requires Valid() && live
      modifies this`previewUrl, this`playerReady, this`audio
      ensures Valid() && previewUrl == url && live
      ensures url != old(previewUrl) && url != "" ==>
                !playerReady && audio == old(audio) + [SetSource(CacheBusted(url, now)), Load]
      ensures url == old(previewUrl) || url == "" ==> playerReady == old(playerReady) && audio == old(audio)
      ensures isPlaying == old(isPlaying) && timers == old(timers) && signals == old(signals)
    {
      if url != previewUrl && url != "" {
        playerReady := false;
        audio := audio + [SetSource(CacheBusted(url, now)), Load];
      }
      previewUrl := url;
    }

    method SetReady()
      requires Valid()
      modifies this`playerReady, this`signals
      ensures Valid() && playerReady && signals == old(signals) + [Ready]
    {
      playerReady := true;
      signals := signals + [Ready];
    }

    /** `canplaythrough`: the player becomes ready; playback is not affected. */
    method CanPlayThrough()
      requires Valid() && live
      modifies this`playerReady, this`signals
      ensures Valid() && live && playerReady && signals == old(signals) + [Ready]
      ensures isPlaying == old(isPlaying) && audio == old(audio) && timers == old(timers)
      ensures watchdogArmed == old(watchdogArmed) && pendingPlays == old(pendingPlays)
    {
      SetReady();
    }

    /** A media error also makes the player ready, so that the user can try to play. */
    method MediaError()
      requires Valid() && live
      modifies this`playerReady, this`signals
      ensures Valid() && live && playerReady && signals == old(signals) + [Ready]
      ensures isPlaying == old(isPlaying) && audio == old(audio) && timers == old(timers)
      ensures watchdogArmed == old(watchdogArmed) && pendingPlays == old(pendingPlays)
    {
      SetReady();
    }

    /** The 5000 ms watchdog: its callback sees the readiness of the mount render, which is false, so it always
        forces readiness. */
    method WatchdogFires()
      requires Valid() && live && watchdogArmed
      modifies this`watchdogArmed, this`playerReady, this`signals
      ensures Valid() && live && !watchdogArmed && playerReady && signals == old(signals) + [Ready]
      ensures isPlaying == old(isPlaying) && audio == old(audio) && timers == old(timers)
    {
      watchdogArmed := false;
      SetReady();
    }

    /** The audio reached its end. */
    method AudioEnded()
      requires Valid() && live
      modifies this`isPlaying, this`signals
      ensures Valid() && live && !isPlaying && signals == old(signals) + [Ended]
      ensures playerReady == old(playerReady) && audio == old(audio) && timers == old(timers)
    {
      isPlaying := false;
      signals := signals + [Ended];
    }

    /** `togglePlayback`. Not ready: nothing happens. Playing: the referenced auto-stop timer is cleared, the audio
        paused and the page told playback ended. Otherwise: a seek to a random start below 25 s and a `play()`
        whose promise is now pending. */
    method Toggle(r: real)
      requires Valid() && live && IsRandom(r)
      modifies this`timers, this`audio, this`isPlaying, this`signals, this`pendingPlays
      ensures Valid() && playerReady == old(playerReady) && live
      ensures !old(playerReady) ==>
                audio == old(audio) && signals == old(signals) && isPlaying == old(isPlaying)
                && timers == old(timers) && pendingPlays == old(pendingPlays)
      ensures old(playerReady) && old(isPlaying) ==>
                !isPlaying && audio == old(audio) + [Pause] && signals == old(signals) + [Ended]
                && timers == old(timers) - {old(timerRef).value} && pendingPlays == old(pendingPlays)
      ensures old(playerReady) && !old(isPlaying) ==>
                !isPlaying && audio == old(audio) + [Seek(StartOffsetMs(r)), Play] && signals == old(signals)
                && timers == old(timers) && pendingPlays == old(pendingPlays) + 1
      ensures pendingClicks == old(pendingClicks) && watchdogArmed == old(watchdogArmed)
    {
      if !playerReady {
        return;
      }
      if isPlaying {
        timers := timers - {timerRef.value};
        audio := audio + [Pause];
        isPlaying := false;
        signals := signals + [Ended];
      } else {
        var ms := StartOffsetMs(r);
        PlaysFollowSeeksAppend(audio, [Seek(ms), Play]);
        audio := audio + [Seek(ms), Play];
        pendingPlays := pendingPlays + 1;
      }
    }

    /** A `play()` promise resolved: playing, the page told so, and one auto-stop timer of `duration` ms armed
        and referenced. */
    method PlayResolved() returns (t: nat)
      requires Valid() && live && pendingPlays > 0
      modifies this`pendingPlays, this`isPlaying, this`signals, this`timers, this`timerRef, this`nextTimer
      ensures Valid() && live && isPlaying && pendingPlays == old(pendingPlays) - 1
      ensures t !in old(timers) && timers == old(timers)[t := duration] && timerRef == Some(t)
      ensures signals == old(signals) + [Started] && audio == old(audio) && playerReady == old(playerReady)
    {
      pendingPlays := pendingPlays - 1;
      isPlaying := true;
      signals := signals + [Started];
      t := nextTimer;
      timers := timers[t := duration];
      timerRef := Some(t);
      nextTimer := nextTimer + 1;
    }

    /** A `play()` promise rejected: not playing and no timer armed. */
    method PlayRejected()
      requires Valid() && live && pendingPlays > 0
      modifies this`pendingPlays, this`isPlaying
      ensures Valid() && live && !isPlaying && pendingPlays == old(pendingPlays) - 1
      ensures timers == old(timers) && signals == old(signals) && audio == old(audio)
    {
      pendingPlays := pendingPlays - 1;
      isPlaying := false;
    }

    /** An auto-stop timer expired: the audio is paused and the page told playback ended. */
    method AutoStopFires(t: nat)
      requires Valid() && live && t in timers
      modifies this`timers, this`audio, this`isPlaying, this`signals
      ensures Valid() && live && !isPlaying && timers == old(timers) - {t}
      ensures audio == old(audio) + [Pause] && signals == old(signals) + [Ended]
      ensures playerReady == old(playerReady) && pendingPlays == old(pendingPlays)
    {
      timers := timers - {t};
      audio := audio + [Pause];
      isPlaying := false;
      signals := signals + [Ended];
    }

    /** `handleClick`: toggles when ready; otherwise arms the 500 ms forced-ready callback. */
    method Click(r: real)
      requires Valid() && live && IsRandom(r)
      modifies this`pendingClicks, this`timers, this`audio, this`isPlaying, this`signals, this`pendingPlays
      ensures Valid() && live
      ensures !old(playerReady) ==>
                pendingClicks == old(pendingClicks) + 1 && audio == old(audio) && signals == old(signals)
                && isPlaying == old(isPlaying) && timers == old(timers) && !playerReady
                && pendingPlays == old(pendingPlays)
      ensures old(playerReady) && old(isPlaying) ==>
                !isPlaying && pendingClicks == old(pendingClicks) && audio == old(audio) + [Pause]
                && signals == old(signals) + [Ended] && timers == old(timers) - {old(timerRef).value}
                && pendingPlays == old(pendingPlays)
      ensures old(playerReady) && !old(isPlaying) ==>
                !isPlaying && pendingClicks == old(pendingClicks) && audio == old(audio) + [Seek(StartOffsetMs(r)), Play]
                && signals == old(signals) && timers == old(timers) && pendingPlays == old(pendingPlays) + 1
    {
      if !playerReady {
        pendingClicks := pendingClicks + 1;
      } else {
        Toggle(r);
      }
    }

    /** The 500 ms callback of a click made while loading, as written: readiness is forced, but the toggle it
        calls is the one of the click's render, which still sees the player as not ready, so nothing plays. */
    method ClickTimerFires()
      requires Valid() && live && pendingClicks > 0
      modifies this`pendingClicks, this`playerReady, this`signals
      ensures Valid() && live && playerReady && pendingClicks == old(pendingClicks) - 1
      ensures signals == old(signals) + [Ready]
      ensures audio == old(audio) && isPlaying == old(isPlaying) && pendingPlays == old(pendingPlays)
    {
      pendingClicks := pendingClicks - 1;
      SetReady();
    }

    /** The same callback as evidently intended: force readiness, then toggle with the player now ready. */
    method ClickTimerFiresIntended(r: real)
      requires Valid() && live && pendingClicks > 0 && IsRandom(r)
      modifies this`pendingClicks, this`playerReady, this`signals
      modifies this`timers, this`audio, this`isPlaying, this`pendingPlays
      ensures Valid() && live && playerReady && pendingClicks == old(pendingClicks) - 1
      ensures !old(isPlaying) ==>
                audio == old(audio) + [Seek(StartOffsetMs(r)), Play] && pendingPlays == old(pendingPlays) + 1
                && signals == old(signals) + [Ready]
      ensures old(isPlaying) ==> !isPlaying && audio == old(audio) + [Pause]
                                 && signals == old(signals) + [Ready, Ended]
    {
      pendingClicks := pendingClicks - 1;
      SetReady();
      Toggle(r);
    }

    /** Unmount: the audio is paused and emptied, the watchdog and the referenced auto-stop timer cleared. */
    method Unmount()
      requires Valid() && live
      modifies this`audio, this`watchdogArmed, this`timers, this`live
      ensures Valid() && !live && !watchdogArmed
      ensures audio == old(audio) + [Pause, SetSource("")]
      ensures timerRef.Some? ==> timers == old(timers) - {timerRef.value}
      ensures timerRef.None? ==> timers == old(timers)
    {
      audio := audio + [Pause, SetSource("")];
      watchdogArmed := false;
      if timerRef.Some? {
        timers := timers - {timerRef.value};
      }
      live := false;
    }
  }

  /** A click while the preview is loading, followed by its 500 ms callback, leaves the player ready but never
      issues `play()`. */
  method ClickWhileLoadingScenario(url: string, duration: nat, now: nat) returns (p: DirectPlayer)
    ensures p.playerReady && p.pendingPlays == 0 && p.signals == [Ready]
    ensures forall i :: 0 <= i < |p.audio| ==> !p.audio[i].Play?
  {
    p := new DirectPlayer(url, duration, now);
    p.Click(0.0);
    p.ClickTimerFires();
  }

  /** With the intended callback the same click starts playback from the start position the random value picks. */
  method ClickWhileLoadingIntendedScenario(url: string, duration: nat, now: nat, r: real) returns (p: DirectPlayer)
    requires IsRandom(r)
    ensures p.playerReady && p.pendingPlays == 1 && p.signals == [Ready]
    ensures |p.audio| >= 2 && p.audio[|p.audio| - 2..] == [Seek(StartOffsetMs(r)), Play]
  {
    p := new DirectPlayer(url, duration, now);
    p.Click(0.0);
    p.ClickTimerFiresIntended(r);
  }

  /** Two clicks before the first `play()` settles arm two auto-stop timers and only the second is referenced:
      pausing clears that one, and the first still fires later. */
  method DoubleStartScenario(url: string, duration: nat, now: nat) returns (p: DirectPlayer, orphan: nat)
    ensures !p.isPlaying && orphan in p.timers
  {
    p := new DirectPlayer(url, duration, now);
    p.CanPlayThrough();
    p.Toggle(0.0);
    p.Toggle(0.0);
    orphan := p.PlayResolved();
    var second := p.PlayResolved();
    p.Toggle(0.0);
  }
}
