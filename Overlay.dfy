/** The full-screen intervention shown over Instagram: a ten-second countdown
    gates the Skip button, and each way out of the overlay records one
    intervention. The companion object's `lastSkipTime` is the clock the
    monitor consults before showing the overlay again. */
module Overlay {
  import opened Lang

  /** `COOLDOWN_PERIOD`: after a Skip, the overlay stays away this long (ms). */
  const COOLDOWN_PERIOD := 15000
  /** The countdown runs `CountDownTimer(10000, 1000)`. */
  const COUNTDOWN_MILLIS := 10000
  /** The watch time credited once the countdown has finished. */
  const FULL_WATCH_MILLIS := 10000

  const INTERVENTION_APP := "Instagram"
  const INTERVENTION_TYPE := "video_delay"
  const REQUIRED_WATCH_SECONDS := 10

  const CLOSE_LABEL := "Close app"
  const SKIP_LABEL := "Skip to app"
  const COMPLETED_LABEL := "Video completed"
  const ERROR_LABEL := "Video error"

  /** The arguments of one `recordInterventionStatic` call. */
  datatype InterventionCall = InterventionCall(
    appName: string,
    interventionType: string,
    videoDuration: int,
    requiredWatchTime: int,
    buttonClicked: string,
    interventionStartTime: int)

  /** The call `recordIntervention(button)` makes, given the player's
      duration in ms and the time the overlay was created. */
  function InterventionFor(buttonClicked: string, videoDurationMillis: int, interventionStartTime: int): (c: InterventionCall)
    ensures c.appName == INTERVENTION_APP && c.interventionType == INTERVENTION_TYPE
    ensures c.requiredWatchTime == REQUIRED_WATCH_SECONDS
    ensures c.buttonClicked == buttonClicked && c.interventionStartTime == interventionStartTime
  {
    InterventionCall(INTERVENTION_APP, INTERVENTION_TYPE, ToInt32(TruncDiv(videoDurationMillis, 1000)),
                     REQUIRED_WATCH_SECONDS, buttonClicked, interventionStartTime)
  }

  /** For any duration a player can report without overflowing an `Int`, the
      recorded duration is the number of whole seconds in it. */
  lemma RecordedDurationIsWholeSeconds(buttonClicked: string, videoDurationMillis: int, interventionStartTime: int)
    requires 0 <= videoDurationMillis <= INT_MAX
    ensures var s := InterventionFor(buttonClicked, videoDurationMillis, interventionStartTime).videoDuration;
            s * 1000 <= videoDurationMillis < s * 1000 + 1000
  {
  }

  /** The watch time `recordIntervention` computes (it is only logged). */
  function WatchTime(wasVideoWatched: bool, now: int, videoStartTime: int): (w: int)
    ensures w >= 0
    ensures wasVideoWatched ==> w == FULL_WATCH_MILLIS
    ensures !wasVideoWatched && now >= videoStartTime ==> w == now - videoStartTime
    ensures !wasVideoWatched && now < videoStartTime ==> w == 0
  {
    if wasVideoWatched then FULL_WATCH_MILLIS
    else if now - videoStartTime < 0 then 0 else now - videoStartTime
  }

  /** The Skip button's text during the countdown. */
  function CountdownText(millisUntilFinished: int): string
  {
    "Skip (" + IntToString(TruncDiv(millisUntilFinished, 1000)) + ")"
  }

  /** During the ten-second countdown the button shows the whole seconds
      left, a number from 0 to 10. */
  lemma CountdownTextShowsSecondsLeft(millisUntilFinished: int)
    requires 0 <= millisUntilFinished <= COUNTDOWN_MILLIS
    ensures exists k: nat :: k <= 10 && k * 1000 <= millisUntilFinished < k * 1000 + 1000
                             && CountdownText(millisUntilFinished) == "Skip (" + NatToString(k) + ")"
  {
    var k: nat := TruncDiv(millisUntilFinished, 1000);
    assert k <= 10;
    assert CountdownText(millisUntilFinished) == "Skip (" + NatToString(k) + ")";
  }

  /** The companion object: `lastSkipTime`, shared by every overlay. */
  class SkipClock {
    var lastSkipTime: int

    constructor ()
      ensures lastSkipTime == 0
    {
      lastSkipTime := 0;
    }

    /** `updateLastSkipTime`. */
    method UpdateLastSkipTime(now: int)
      modifies this
      ensures lastSkipTime == now
    {
      lastSkipTime := now;
    }
  }

  /** One overlay, from `onCreate` until it stops itself. Player, window and
      timer callbacks become methods; `stopped` records `stopSelf`, after
      which the view, the timer and the player are gone and no callback runs. */
  class OverlayService {
    const clock: SkipClock
    var interventionStartTime: int
    var videoStartTime: int
    var videoDuration: int
    var wasVideoWatched: bool
    var skipEnabled: bool
    var skipText: string
    var stopped: bool
    /** The interventions recorded so far, in order. */
    var recorded: seq<InterventionCall>

    /** `onCreate` at time `now`. When the window manager refuses the view
        (`viewAdded` false) the service stops at once, without buttons or
        player. */
    constructor (clock: SkipClock, now: int, viewAdded: bool)
      ensures this.clock == clock
      ensures interventionStartTime == now && videoDuration == 0 && !wasVideoWatched
      ensures !skipEnabled && skipText == "" && recorded == []
      ensures stopped == !viewAdded
      ensures videoStartTime == if viewAdded then now else 0
    {
      this.clock := clock;
      interventionStartTime := now;
      videoDuration := 0;
      wasVideoWatched := false;
      skipEnabled := false;
      skipText := "";
      recorded := [];
      if viewAdded {
        stopped := false;
        videoStartTime := now;
      } else {
        stopped := true;
        videoStartTime := 0;
      }
    }

    /** `recordIntervention(button)` followed by `stopSelf`. */
    method Finish(buttonClicked: string)
      modifies this
      ensures recorded == old(recorded) + [InterventionFor(buttonClicked, old(videoDuration), old(interventionStartTime))]
      ensures stopped
      ensures skipEnabled == old(skipEnabled) && wasVideoWatched == old(wasVideoWatched) && skipText == old(skipText)
      ensures videoDuration == old(videoDuration) && videoStartTime == old(videoStartTime)
      ensures interventionStartTime == old(interventionStartTime)
    {
      recorded := recorded + [InterventionFor(buttonClicked, videoDuration, interventionStartTime)];
      stopped := true;
    }

    /** Countdown `onTick`: shows the seconds left and keeps Skip disabled. */
    method OnTick(millisUntilFinished: int)
      modifies this
      ensures old(stopped) ==> unchanged(this)
      ensures !old(stopped) ==> skipText == CountdownText(millisUntilFinished) && !skipEnabled
      ensures !old(stopped) ==> wasVideoWatched == old(wasVideoWatched) && recorded == old(recorded) && !stopped
      ensures videoDuration == old(videoDuration) && videoStartTime == old(videoStartTime)
      ensures interventionStartTime == old(interventionStartTime)
    {
      if !stopped {
        skipText := CountdownText(millisUntilFinished);
        skipEnabled := false;
      }
    }

    /** Countdown `onFinish`: the only place Skip becomes enabled; the video
        now counts as watched. */
    method OnFinish()
      modifies this
      ensures old(stopped) ==> unchanged(this)
      ensures !old(stopped) ==> skipText == "Skip video" && skipEnabled && wasVideoWatched
      ensures !old(stopped) ==> recorded == old(recorded) && !stopped
      ensures videoDuration == old(videoDuration) && videoStartTime == old(videoStartTime)
      ensures interventionStartTime == old(interventionStartTime)
    {
      if !stopped {
        skipText := "Skip video";
        skipEnabled := true;
        wasVideoWatched := true;
      }
    }

    /** Close: records "Close app" and stops; the skip clock is untouched. */
    method ClickClose()
      modifies this
      ensures old(stopped) ==> unchanged(this)
      ensures !old(stopped) ==>
                recorded == old(recorded) + [InterventionFor(CLOSE_LABEL, old(videoDuration), old(interventionStartTime))]
      ensures stopped
      ensures skipEnabled == old(skipEnabled) && wasVideoWatched == old(wasVideoWatched) && skipText == old(skipText)
      ensures videoDuration == old(videoDuration) && videoStartTime == old(videoStartTime)
      ensures interventionStartTime == old(interventionStartTime)
    {
      if !stopped {
        Finish(CLOSE_LABEL);
      }
    }

    /** Skip: a disabled button takes no click; otherwise records "Skip to
        app", restarts the cooldown from `now` and stops. */
    method ClickSkip(now: int)
      modifies this, clock
      ensures old(stopped) || !old(skipEnabled) ==> unchanged(this) && unchanged(clock)
      ensures !old(stopped) && old(skipEnabled) ==>
                recorded == old(recorded) + [InterventionFor(SKIP_LABEL, old(videoDuration), old(interventionStartTime))]
                && clock.lastSkipTime == now && stopped
      ensures skipEnabled == old(skipEnabled) && wasVideoWatched == old(wasVideoWatched) && skipText == old(skipText)
      ensures videoDuration == old(videoDuration) && videoStartTime == old(videoStartTime)
      ensures interventionStartTime == old(interventionStartTime)
    {
      if !stopped && skipEnabled {
        Finish(SKIP_LABEL);
        clock.UpdateLastSkipTime(now);
      }
    }

    /** Player `STATE_READY`: remembers the reported duration (ms). */
    method PlayerReady(duration: int)
      modifies this
      ensures old(stopped) ==> unchanged(this)
      ensures !old(stopped) ==> videoDuration == duration
      ensures recorded == old(recorded) && stopped == old(stopped) && skipEnabled == old(skipEnabled)
      ensures wasVideoWatched == old(wasVideoWatched) && skipText == old(skipText)
      ensures videoStartTime == old(videoStartTime) && interventionStartTime == old(interventionStartTime)
    {
      if !stopped {
        videoDuration := duration;
      }
    }

    /** Player `STATE_ENDED`: records "Video completed" and stops. */
    method PlayerEnded()
      modifies this
      ensures old(stopped) ==> unchanged(this)
      ensures !old(stopped) ==>
                recorded == old(recorded) + [InterventionFor(COMPLETED_LABEL, old(videoDuration), old(interventionStartTime))]
      ensures stopped
      ensures skipEnabled == old(skipEnabled) && wasVideoWatched == old(wasVideoWatched) && skipText == old(skipText)
      ensures videoDuration == old(videoDuration) && videoStartTime == old(videoStartTime)
      ensures interventionStartTime == old(interventionStartTime)
    {
      if !stopped {
        Finish(COMPLETED_LABEL);
      }
    }

    /** `onPlayerError`: records "Video error" and stops. */
    method PlayerError()
      modifies this
      ensures old(stopped) ==> unchanged(this)
      ensures !old(stopped) ==>
                recorded == old(recorded) + [InterventionFor(ERROR_LABEL, old(videoDuration), old(interventionStartTime))]
      ensures stopped
      ensures skipEnabled == old(skipEnabled) && wasVideoWatched == old(wasVideoWatched) && skipText == old(skipText)
      ensures videoDuration == old(videoDuration) && videoStartTime == old(videoStartTime)
      ensures interventionStartTime == old(interventionStartTime)
    {
      if !stopped {
        Finish(ERROR_LABEL);
      }
    }
  }
}
