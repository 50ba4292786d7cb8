/**
 * `refresh_callback` and the script's global animation state: the
 * per-frame clock, pulse and progress update, the particle update, and
 * the canvas calls in their fixed layering order.
 */
module Frame {
  import opened Wrappers
  import opened Palette
  import opened Canvas
  import opened Particles
  import opened ProgressBar
  import opened Stager

  /** The nominal frame time added to `time` and `message_timer` each frame. */
  const FrameStep: real := 0.05
  /** Added to `pulse_phase` each frame. */
  const PhaseStep: real := 0.1
  /** Progress per second of `time` when the host reports none. */
  const FallbackRate: real := 0.1

  const BarHeight: real := 20.0
  /** The dark purple of the text at 0.9 opacity. */
  const TextColor: Rgba := Rgba(Dark.r, Dark.g, Dark.b, 0.9)

  function MinReal(a: real, b: real): real
  {
    if a <= b then a else b
  }

  /**
   * The frame's progress from the host's mode and value and the advanced
   * clock: 1 outside boot mode; in boot mode the host's value, or
   * `time * 0.1` when that value is exactly 0; then capped at 1. There is
   * no lower clamp, so it is non-negative only when the host value is.
   */
  function FrameProgress(mode: string, host: real, time: real): (p: real)
    ensures p <= 1.0
    ensures mode != "boot" ==> p == 1.0
    ensures mode == "boot" && host != 0.0 ==> p == MinReal(host, 1.0)
    ensures mode == "boot" && host == 0.0 ==> p == MinReal(time * FallbackRate, 1.0)
    ensures (mode != "boot" || 0.0 <= host) && 0.0 <= time ==> 0.0 <= p
  {
    var raw := if mode == "boot" then host else 1.0;
    var p1 := if raw == 0.0 then time * FallbackRate else raw;
    if p1 > 1.0 then 1.0 else p1
  }

  /** `time` after `k` frames from the start. */
  function ClockAfter(k: nat): real
  {
    if k == 0 then 0.0 else ClockAfter(k - 1) + FrameStep
  }

  lemma {:induction false} ClockAfterIsLinear(k: nat)
    ensures ClockAfter(k) == k as real * FrameStep
  {
    if k > 0 {
      ClockAfterIsLinear(k - 1);
    }
  }

  /** The progress of frame `k` when the host stays in boot mode and reports 0. */
  function FallbackProgress(k: nat): real
  {
    FrameProgress("boot", 0.0, ClockAfter(k))
  }

  /** In the fallback, frame `k` shows progress `k / 200`, capped at 1. */
  lemma FallbackProgressValue(k: nat)
    ensures FallbackProgress(k) == MinReal(k as real * 0.005, 1.0)
  {
    ClockAfterIsLinear(k);
  }

  /** Fallback progress never goes down, and it is 1 exactly from frame 200 on. */
  lemma FallbackProgressRises(j: nat, k: nat)
    requires j <= k
    ensures FallbackProgress(j) <= FallbackProgress(k)
    ensures FallbackProgress(k) <= 1.0
    ensures FallbackProgress(k) == 1.0 <==> k >= 200
  {
    FallbackProgressValue(j);
    FallbackProgressValue(k);
  }

  /**
   * With a host progress that is not negative, the frame's progress lies
   * in [0, 1] and always selects one of the boot messages.
   */
  lemma FrameAlwaysHasMessage(mode: string, host: real, time: real)
    requires 0.0 <= host && 0.0 <= time
    ensures 0.0 <= FrameProgress(mode, host, time) <= 1.0
    ensures BootMessage(FrameProgress(mode, host, time), BootMessages).Some?
  {
  }

  /** The background image centred, or, without one, the screen filled in opaque white. */
  function BackgroundEvents(background: Option<Image>, screen: Screen): seq<Event>
  {
    match background
    case Some(img) => [Blit(img, (screen.width - img.width) / 2.0, (screen.height - img.height) / 2.0)]
    case None => [SetSource(Rgba(White.r, White.g, White.b, 1.0)), FillRect(0.0, 0.0, screen.width, screen.height)]
  }

  /** The logo centred across, 30% down; nothing without one. */
  function LogoEvents(logo: Option<Image>, screen: Screen): seq<Event>
  {
    match logo
    case Some(img) => [Blit(img, (screen.width - img.width) / 2.0, screen.height * 0.3)]
    case None => []
  }

  /** The mascot at 85% across and 70% down, bobbing by `bob`; nothing without one. */
  function MascotEvents(mascot: Option<Image>, screen: Screen, bob: real): seq<Event>
  {
    match mascot
    case Some(img) => [Blit(img, screen.width * 0.85, screen.height * 0.7 + bob)]
    case None => []
  }

  /** The mascot's vertical bob, `sin(time * 2) * 5`. */
  function BobOffset(sin: real -> real, time: real): real
  {
    sin(time * 2.0) * 5.0
  }

  /** The image layer: background, logo, mascot. */
  function PictureEvents(assets: Assets, screen: Screen, bob: real): seq<Event>
  {
    BackgroundEvents(assets.background, screen) + LogoEvents(assets.logo, screen) +
    MascotEvents(assets.mascot, screen, bob)
  }

  function BarWidth(screen: Screen): real { screen.width * 0.6 }
  function BarX(screen: Screen): real { (screen.width - BarWidth(screen)) / 2.0 }
  function BarY(screen: Screen): real { screen.height * 0.75 }

  /** `draw_kawaii_text`: the dark palette colour at opacity 0.9, then the text at (x, y). */
  function TextEvents(content: Label, x: real, y: real): (r: seq<Event>)
    ensures |r| == 2 && r[1] == Text(content, x, y)
    ensures r[0].SetSource? && r[0].color.InUnitRange() && r[0].color.a == 0.9
    ensures r[0].color.r == Dark.r && r[0].color.g == Dark.g && r[0].color.b == Dark.b
  {
    [SetSource(TextColor), Text(content, x, y)]
  }

  /** `Math.Floor(progress * 100)`: a whole percentage in [0, 100] for progress in [0, 1]. */
  function PercentShown(progress: real): (k: int)
    ensures 0.0 <= progress <= 1.0 ==> 0 <= k <= 100
    ensures progress == 1.0 ==> k == 100
    ensures k as real <= progress * 100.0 < k as real + 1.0
  {
    (progress * 100.0).Floor
  }

  /** The text layer: the boot message under the bar, then the percentage above it. */
  function CaptionEvents(progress: real, messages: seq<string>, screen: Screen): seq<Event>
  {
    TextEvents(Message(BootMessage(progress, messages)), screen.width * 0.5 - 100.0, BarY(screen) + 40.0) +
    TextEvents(Percent(PercentShown(progress)), screen.width * 0.5 - 20.0, BarY(screen) - 25.0)
  }

  /**
   * The text layer writes exactly two texts, the boot message and then
   * the percentage, each right after the text colour is set.
   */
  lemma CaptionTexts(progress: real, messages: seq<string>, screen: Screen)
    ensures var c := CaptionEvents(progress, messages, screen);
      c[1] == Text(Message(BootMessage(progress, messages)), screen.width * 0.5 - 100.0, BarY(screen) + 40.0) &&
      c[3] == Text(Percent(PercentShown(progress)), screen.width * 0.5 - 20.0, BarY(screen) - 25.0) &&
      (forall i :: 0 <= i < |c| && c[i].Text? ==> i == 1 || i == 3) &&
      (forall i :: 0 <= i < |c| && c[i].Text? ==> 0 < i && c[i - 1] == SetSource(TextColor))
  {
  }

  /**
   * Everything a frame draws beneath the sparkles, in order: clear, the
   * image layer, the progress bar, the text layer.
   */
  function SceneEvents(primary: Rgba, assets: Assets, screen: Screen, sin: real -> real,
                       time: real, pulsePhase: real, progress: real, messages: seq<string>): (r: seq<Event>)
    ensures |r| >= 10 && r[0] == Clear
  {
    [Clear] +
    PictureEvents(assets, screen, BobOffset(sin, time)) +
    BarEvents(primary, BarX(screen), BarY(screen), BarWidth(screen), BarHeight, progress, Pulse(sin(pulsePhase))) +
    CaptionEvents(progress, messages, screen)
  }

  /** None of the events draws a line. */
  predicate NoLines(events: seq<Event>)
  {
    forall e :: e in events ==> !e.Line?
  }

  /** Every image the events draw is one of the loaded images. */
  predicate BlitsLoaded(events: seq<Event>, assets: Assets)
  {
    forall e :: e in events && e.Blit? ==>
      Some(e.image) == assets.background || Some(e.image) == assets.logo || Some(e.image) == assets.mascot
  }

  /** A frame's scene clears the screen exactly once, as its first call. */
  lemma SceneClearsOnce(primary: Rgba, assets: Assets, screen: Screen, sin: real -> real,
                        time: real, pulsePhase: real, progress: real, messages: seq<string>)
    ensures var r := SceneEvents(primary, assets, screen, sin, time, pulsePhase, progress, messages);
      r[0] == Clear && multiset(r)[Clear] == 1
  {
    var bar := BarEvents(primary, BarX(screen), BarY(screen), BarWidth(screen), BarHeight, progress, Pulse(sin(pulsePhase)));
    PicturesLayering(assets, screen, BobOffset(sin, time));
    assert Clear !in bar;
    assert Clear !in CaptionEvents(progress, messages, screen);
  }

  /**
   * A frame's scene draws no line, so the sparkles drawn after it are the
   * frame's only lines, and it draws only images that were loaded.
   */
  lemma SceneLayering(primary: Rgba, assets: Assets, screen: Screen, sin: real -> real,
                      time: real, pulsePhase: real, progress: real, messages: seq<string>)
    ensures var r := SceneEvents(primary, assets, screen, sin, time, pulsePhase, progress, messages);
      NoLines(r) && BlitsLoaded(r, assets)
  {
    var bar := BarEvents(primary, BarX(screen), BarY(screen), BarWidth(screen), BarHeight, progress, Pulse(sin(pulsePhase)));
    var captions := CaptionEvents(progress, messages, screen);
    PicturesLayering(assets, screen, BobOffset(sin, time));
    assert NoLines(bar) && BlitsLoaded(bar, assets);
    assert NoLines(captions) && BlitsLoaded(captions, assets);
  }

  /**
   * Without a background image the frame fills the screen in opaque
   * white right after clearing it; with or without images, the boot
   * message and the percentage are the scene's last draws.
   */
  lemma SceneFallbackAndCaptions(primary: Rgba, assets: Assets, screen: Screen, sin: real -> real,
                                 time: real, pulsePhase: real, progress: real, messages: seq<string>)
    ensures var r := SceneEvents(primary, assets, screen, sin, time, pulsePhase, progress, messages);
      (assets.background.None? ==>
        r[1..3] == [SetSource(Rgba(1.0, 1.0, 1.0, 1.0)), FillRect(0.0, 0.0, screen.width, screen.height)]) &&
      r[|r| - 4..] == CaptionEvents(progress, messages, screen)
  {
    var pictures := PictureEvents(assets, screen, BobOffset(sin, time));
    var bar := BarEvents(primary, BarX(screen), BarY(screen), BarWidth(screen), BarHeight, progress, Pulse(sin(pulsePhase)));
    var captions := CaptionEvents(progress, messages, screen);
    var r := [Clear] + pictures + bar + captions;
    assert r[|r| - 4..] == captions;
    if assets.background.None? {
      assert pictures[..2] == BackgroundEvents(assets.background, screen);
      assert r[1..3] == pictures[..2];
    }
  }

  /** The image layer draws no line, never clears, and draws only loaded images. */
  lemma PicturesLayering(assets: Assets, screen: Screen, bob: real)
    ensures var pictures := PictureEvents(assets, screen, bob);
      NoLines(pictures) && BlitsLoaded(pictures, assets) && Clear !in pictures
  {
  }

  /** The script's globals: the animation clock, pulse, progress, particles and loaded images. */
  class Splash {
    var time: real
    var pulsePhase: real
    var messageTimer: real
    var progress: real
    const pool: ParticlePool
    const primary: Rgba
    const assets: Assets
    const messages: seq<string>

    ghost predicate Valid()
      reads this, pool
    {
      pool.Valid()
    }

    /** The script's start-up: images loaded, state at zero, no particles, the scheme's primary colour. */
    constructor (scheme: string, assets: Assets)
      ensures Valid() && fresh(pool)
      ensures time == 0.0 && pulsePhase == 0.0 && messageTimer == 0.0 && progress == 0.0
      ensures pool.slots == [] && primary == Lookup(scheme)
      ensures this.assets == assets && messages == BootMessages
    {
      time, pulsePhase, messageTimer, progress := 0.0, 0.0, 0.0, 0.0;
      pool := new ParticlePool();
      primary := Lookup(scheme);
      this.assets := assets;
      messages := BootMessages;
    }

    /**
     * The image layer of a frame: the background (or a solid fill without
     * one), the logo and the bobbing mascot, each skipped when its image
     * is missing.
     */
    method DrawScenery(screen: Screen, sin: real -> real) returns (events: seq<Event>)
      ensures events == PictureEvents(assets, screen, BobOffset(sin, time))
    {
      events := [];
      match assets.background {
        case Some(img) =>
          events := events + [Blit(img, (screen.width - img.width) / 2.0, (screen.height - img.height) / 2.0)];
        case None =>
          events := events + [SetSource(Rgba(White.r, White.g, White.b, 1.0)), FillRect(0.0, 0.0, screen.width, screen.height)];
      }
      assert events == BackgroundEvents(assets.background, screen);
      match assets.logo {
        case Some(img) =>
          events := events + [Blit(img, (screen.width - img.width) / 2.0, screen.height * 0.3)];
        case None =>
      }
      assert events == BackgroundEvents(assets.background, screen) + LogoEvents(assets.logo, screen);
      match assets.mascot {
        case Some(img) =>
          var bobOffset := sin(time * 2.0) * 5.0;
          events := events + [Blit(img, screen.width * 0.85, screen.height * 0.7 + bobOffset)];
        case None =>
      }
    }

    /** `draw_kawaii_progress_bar(x, y, width, height, progressVal)`. */
    method DrawProgressBar(x: real, y: real, width: real, height: real, progressVal: real,
                           sin: real -> real, chance: real, j: Jitter) returns (events: seq<Event>)
      requires Valid()
      modifies pool
      ensures Valid()
      ensures events == BarEvents(primary, x, y, width, height, progressVal, Pulse(sin(pulsePhase)))
      ensures pool.slots == BarSpawn(old(pool.slots), x, y, width, height, progressVal, chance, j)
    {
      events := [SetSource(TrackColor), FillRect(x, y, width, height)];
      var pulse := sin(pulsePhase) * 0.2 + 0.8;
      var fillWidth := width * progressVal;
      if fillWidth > 0.0 {
        events := events + [SetSource(FillColor(primary, pulse)), FillRect(x, y, fillWidth, height)];
        pool.TrySpawn(chance, x + fillWidth, y + height / 2.0, j);
      }
      events := events + [SetSource(BorderColor), OutlineRect(x - 1.0, y - 1.0, width + 2.0, height + 2.0, 2.0)];
    }

    /**
     * The first half of `refresh_callback()`: advances the clock and the
     * pulse, derives the frame's progress, and updates the particles by
     * one frame step.
     */
    method Tick(mode: string, hostProgress: real)
      requires Valid()
      modifies this, pool
      ensures Valid()
      ensures time == old(time) + FrameStep && messageTimer == old(messageTimer) + FrameStep
      ensures pulsePhase == old(pulsePhase) + PhaseStep
      ensures progress == FrameProgress(mode, hostProgress, time)
      ensures pool.slots == Updated(old(pool.slots), FrameStep)
    {
      time := time + FrameStep;
      pulsePhase := pulsePhase + PhaseStep;
      messageTimer := messageTimer + FrameStep;

      progress := if mode == "boot" then hostProgress else 1.0;
      if progress == 0.0 {
        progress := time * FallbackRate;
      }
      if progress > 1.0 {
        progress := 1.0;
      }

      pool.Update(FrameStep);
    }

    /**
     * The second half of `refresh_callback()`: draws the scene, which may
     * spawn a sparkle at the progress bar's edge, and then every live
     * sparkle on top.
     */
    method Render(screen: Screen, sin: real -> real, chance: real, j: Jitter) returns (events: seq<Event>)
      requires Valid()
      modifies pool
      ensures Valid()
      ensures pool.slots ==
        BarSpawn(old(pool.slots), BarX(screen), BarY(screen), BarWidth(screen), BarHeight, progress, chance, j)
      ensures events ==
        SceneEvents(primary, assets, screen, sin, time, pulsePhase, progress, messages) +
        LiveEvents(pool.slots, primary)
    {
      events := [Clear];
      var pictures := DrawScenery(screen, sin);
      events := events + pictures;

      var barWidth := screen.width * 0.6;
      var barX := (screen.width - barWidth) / 2.0;
      var barY := screen.height * 0.75;
      assert barWidth == BarWidth(screen) && barX == BarX(screen) && barY == BarY(screen);
      var bar := DrawProgressBar(barX, barY, barWidth, BarHeight, progress, sin, chance, j);
      events := events + bar;

      var message := BootMessage(progress, messages);
      var percent := (progress * 100.0).Floor;
      var captions := TextEvents(Message(message), screen.width * 0.5 - 100.0, barY + 40.0) +
        TextEvents(Percent(percent), screen.width * 0.5 - 20.0, barY - 25.0);
      assert captions == CaptionEvents(progress, messages, screen);
      events := events + captions;
      assert events == SceneEvents(primary, assets, screen, sin, time, pulsePhase, progress, messages);

      var sparkles := pool.Draw(primary);
      events := events + sparkles;
    }

    /**
     * `refresh_callback()`: advances the clock and pulse, derives the
     * progress, updates the particles by one frame step before anything
     * is drawn, then draws the scene and finally the surviving and new
     * sparkles.
     */
    method Refresh(mode: string, hostProgress: real, screen: Screen, sin: real -> real,
                   chance: real, j: Jitter) returns (events: seq<Event>)
      requires Valid()
      modifies this, pool
      ensures Valid()
      ensures time == old(time) + FrameStep && messageTimer == old(messageTimer) + FrameStep
      ensures pulsePhase == old(pulsePhase) + PhaseStep
      ensures progress == FrameProgress(mode, hostProgress, time)
      ensures pool.slots ==
        BarSpawn(Updated(old(pool.slots), FrameStep), BarX(screen), BarY(screen), BarWidth(screen), BarHeight,
                 progress, chance, j)
      ensures events ==
        SceneEvents(primary, assets, screen, sin, time, pulsePhase, progress, messages) +
        LiveEvents(pool.slots, primary)
    {
      Tick(mode, hostProgress);
      events := Render(screen, sin, chance, j);
    }
  }

  /**
   * The host's side: the script's own first call of `refresh_callback`
   * followed by one call per redraw, here with the host in boot mode
   * always reporting 0. The progress of successive frames is `k / 200`
   * capped at 1: it never decreases and is 1 exactly from frame 200 on.
   */
  method FallbackBoot(scheme: string, assets: Assets, screen: Screen, sin: real -> real, draws: seq<Attempt>)
    returns (trajectory: seq<real>)
    ensures |trajectory| == |draws|
    ensures forall i :: 0 <= i < |trajectory| ==> trajectory[i] == MinReal((i + 1) as real * 0.005, 1.0)
    ensures forall i, k :: 0 <= i <= k < |trajectory| ==> trajectory[i] <= trajectory[k]
    ensures forall i :: 0 <= i < |trajectory| ==> (trajectory[i] == 1.0 <==> i >= 199)
  {
    var splash := new Splash(scheme, assets);
    trajectory := [];
    var n := 0;
    while n < |draws|
      invariant 0 <= n <= |draws| && |trajectory| == n
      invariant fresh(splash) && fresh(splash.pool) && splash.Valid()
      invariant splash.time == ClockAfter(n)
      invariant forall i :: 0 <= i < n ==> trajectory[i] == MinReal((i + 1) as real * 0.005, 1.0)
    {
      var _ := splash.Refresh("boot", 0.0, screen, sin, draws[n].chance, draws[n].jitter);
      FallbackProgressValue(n + 1);
      trajectory := trajectory + [splash.progress];
      n := n + 1;
    }
    FallbackTrajectoryShape(trajectory);
  }

  /** A trajectory of fallback progress values rises and is 1 exactly from its 200th frame on. */
  lemma FallbackTrajectoryShape(t: seq<real>)
    requires forall i :: 0 <= i < |t| ==> t[i] == MinReal((i + 1) as real * 0.005, 1.0)
    ensures forall i, k :: 0 <= i <= k < |t| ==> t[i] <= t[k]
    ensures forall i :: 0 <= i < |t| ==> (t[i] == 1.0 <==> i >= 199)
  {
  }
}
