/**
 * `draw_kawaii_progress_bar`: the translucent track, the pulsing fill,
 * the sparkle spawned at the fill's edge, and the border.
 */
module ProgressBar {
  import opened Wrappers
  import opened Palette
  import opened Canvas
  import opened Particles

  /** The translucent white of the track. */
  const TrackColor: Rgba := White
  /** The dark purple of the border at half opacity. */
  const BorderColor: Rgba := Rgba(Dark.r, Dark.g, Dark.b, 0.5)

  /** The breathing factor `sin(pulse_phase) * 0.2 + 0.8`: within [0.6, 1] for any sine value. */
  function Pulse(sine: real): (f: real)
    ensures -1.0 <= sine <= 1.0 ==> 0.6 <= f <= 1.0
    ensures sine == 1.0 ==> f == 1.0
    ensures sine == -1.0 ==> f == 0.6
  {
    sine * 0.2 + 0.8
  }

  /** The filled width `width * progress`: nothing at no progress, the whole bar at full progress. */
  function FillWidth(width: real, progress: real): (w: real)
    ensures progress == 0.0 ==> w == 0.0
    ensures progress == 1.0 ==> w == width
    ensures 0.0 <= width && 0.0 <= progress <= 1.0 ==> 0.0 <= w <= width
  {
    ScaledStaysWithin(width, progress);
    width * progress
  }

  /** A fraction in [0, 1] of a non-negative width lies between 0 and that width. */
  lemma ScaledStaysWithin(width: real, fraction: real)
    ensures 0.0 <= width && 0.0 <= fraction <= 1.0 ==> 0.0 <= width * fraction <= width
  {
    if 0.0 <= width && 0.0 <= fraction <= 1.0 {
      assert width * (1.0 - fraction) >= 0.0;
    }
  }

  /** For a bar of non-negative width, more progress never fills less. */
  lemma FillWidthMonotone(width: real, p: real, q: real)
    requires 0.0 <= width && p <= q
    ensures FillWidth(width, p) <= FillWidth(width, q)
  {
    assert width * (q - p) >= 0.0;
  }

  /** A quarter of a 100-unit bar is 25 units. */
  lemma FillWidthExample()
    ensures FillWidth(100.0, 0.25) == 25.0
  {
  }

  /** The primary colour with its colour channels scaled by the pulse and its alpha kept. */
  function FillColor(primary: Rgba, pulse: real): (c: Rgba)
    ensures c.a == primary.a
    ensures primary.InUnitRange() && 0.6 <= pulse <= 1.0 ==> c.InUnitRange()
  {
    ScaledStaysInUnit(primary.r, pulse);
    ScaledStaysInUnit(primary.g, pulse);
    ScaledStaysInUnit(primary.b, pulse);
    Rgba(primary.r * pulse, primary.g * pulse, primary.b * pulse, primary.a)
  }

  lemma ScaledStaysInUnit(channel: real, factor: real)
    ensures 0.0 <= channel <= 1.0 && 0.0 <= factor <= 1.0 ==> 0.0 <= channel * factor <= 1.0
  {
    if 0.0 <= channel <= 1.0 && 0.0 <= factor <= 1.0 {
      assert channel * (1.0 - factor) >= 0.0;
    }
  }

  /**
   * The bar's canvas calls: the track first, then the fill only when the
   * filled width is positive, and the border last, 1 unit outside the
   * track on every side with line width 2.
   */
  function BarEvents(primary: Rgba, x: real, y: real, width: real, height: real, progress: real, pulse: real)
    : (r: seq<Event>)
    ensures |r| == (if FillWidth(width, progress) > 0.0 then 6 else 4)
    ensures r[..2] == [SetSource(TrackColor), FillRect(x, y, width, height)]
    ensures r[|r| - 2..] == [SetSource(BorderColor), OutlineRect(x - 1.0, y - 1.0, width + 2.0, height + 2.0, 2.0)]
    ensures |r| == 6 ==>
      r[2..4] == [SetSource(FillColor(primary, pulse)), FillRect(x, y, FillWidth(width, progress), height)]
    ensures forall e :: e in r ==> !e.Line? && !e.Text? && !e.Blit? && e != Clear
  {
    var fill := FillWidth(width, progress);
    [SetSource(TrackColor), FillRect(x, y, width, height)] +
    (if fill > 0.0 then [SetSource(FillColor(primary, pulse)), FillRect(x, y, fill, height)] else []) +
    [SetSource(BorderColor), OutlineRect(x - 1.0, y - 1.0, width + 2.0, height + 2.0, 2.0)]
  }

  /**
   * The particle array after drawing the bar: a sparkle is appended at the
   * fill's right edge, half-way down, if and only if the filled width is
   * positive, the spawn draw passes and a slot is still free; otherwise
   * the array is unchanged.
   */
  function BarSpawn(s: seq<Slot>, x: real, y: real, width: real, height: real, progress: real,
                    chance: real, j: Jitter): (r: seq<Slot>)
    ensures |r| > |s| <==>
      FillWidth(width, progress) > 0.0 && chance < SpawnChance && |s| < MaxParticles
    ensures |r| > |s| ==>
      r == s + [Some(CreateParticle(x + FillWidth(width, progress), y + height / 2.0, j))]
    ensures |r| <= |s| ==> r == s
    ensures |s| <= MaxParticles ==> |r| <= MaxParticles
    ensures AllLive(s) ==> AllLive(r)
  {
    var fill := FillWidth(width, progress);
    if fill > 0.0 then SpawnStep(s, chance, x + fill, y + height / 2.0, j) else s
  }
}
