# KawaiiSec Plymouth boot splash — a Dafny model

KawaiiSec OS ships a boot splash for Plymouth. A Python generator
(`assets/scripts/system/kawaii-plymouth.py`) fills in a Plymouth script
template. The template takes its colour constants from the generator's
`KAWAII_COLORS` palette. This project models what the generated script
does:

- **Palette** (`palette.dfy`): the seven named RGBA colours. The scheme
  lookup falls back to pink for an unknown name.
- **Particle pool** (`particles.dfy`): the append-only `particles` array
  of sparkles, capped at `max_particles = 20`. `create_particle` builds a
  sparkle from its random draws. `update_particles` moves every live
  sparkle in place, decays its life and nulls the slot once life reaches
  0. `draw_particles` draws a small cross for each live sparkle. The pool
  is a class whose `slots` field holds `Option<Particle>` values, with
  `None` for a null slot. It never shrinks.
- **Progress bar** (`progress_bar.dfy`): `draw_kawaii_progress_bar`. It
  draws the track, then the pulsing fill and a possible sparkle spawn at
  the bar's edge when the fill width is positive, then the border.
- **Message stager** (`stager.dfy`): `get_boot_message`, the stage index
  `floor(progress * N)` capped at `N - 1`.
- **Frame controller** (`frame.dfy`): the script's globals and
  `refresh_callback`. It advances the clock, the pulse and the message
  timer by fixed steps, derives the progress, updates the particles, and
  draws the frame in a fixed layering order. `FallbackBoot` models the
  host calling the refresh function frame after frame while reporting no
  progress.

Canvas calls (`Window.Clear`, `SetSourceRGBA`, `FillRectangle`,
`DrawRectangle`, `DrawLine`, `WriteText` and `Image.Draw`) become an
abstract trace of `Canvas.Event` values. Each draw method returns its
trace. Its contract ties the trace to a specification function, and
lemmas state the draw order about that function. `Math.Sin` is a
parameter `sin: real -> real`. Each `Math.Random()` call is an explicit
number in [0, 1): `chance` for the spawn test and a `Jitter` for the
particle's five draws. The screen size is a `Screen` value, and the loaded
images are an `Assets` value whose missing images are `None`.

Behaviour of the script that is easy to misread:

- Outside boot mode the progress is 1.0; it is not the fallback animation.
- The fallback `time * 0.1` replaces the host's value only when that value
  is exactly 0.
- Progress is clamped above at 1.0, but it has no lower clamp.
- The fill and the spawn are guarded by `fill_width > 0`, not by
  `progress > 0`.
- A particle's size lies in [1, 4), with 4 excluded.
- `create_particle` calls `Math.Random()` five times: four offsets and
  velocities, plus the size.
- `pulse_phase` grows without bound; it never wraps.
- Dead slots are never reused. Once 20 sparkles have been spawned, no
  spawn ever happens again.

## Model

| member | source | states |
|---|---|---|
| Palette.Lookup | assets/scripts/system/kawaii-plymouth.py:59 | a known scheme name gives its palette entry, any other name gives pink; every result has all channels in [0, 1] |
| Palette.PaletteTable | assets/scripts/system/kawaii-plymouth.py:17-25 | the palette has exactly the seven names pink, purple, blue, mint, peach, white and dark, with their listed RGBA values |
| Particles.CreateParticle | assets/scripts/system/kawaii-plymouth.py:94-103 | a new sparkle has life 1.0; with draws in [0, 1) its size is in [1, 4), its x offset in [-50, 50), its y offset in [-25, 25) and each velocity component in [-1, 1) |
| Particles.Updated | assets/scripts/system/kawaii-plymouth.py:105-118 | a particle update keeps the pool's length, and afterwards every non-null slot has life > 0 |
| Particles.UpdateSlotwise | assets/scripts/system/kawaii-plymouth.py:105-118 | a null slot stays null; a live slot becomes null exactly when its decayed life is <= 0; a surviving slot has moved by velocity times dt, lost dt * 0.5 of its life, and kept its velocity and size |
| Particles.UpdateByZeroIsIdentity | assets/scripts/system/kawaii-plymouth.py:100-118 | on a pool whose non-null slots all have positive life, an update by 0 changes nothing |
| Particles.ParticlePool.Update | assets/scripts/system/kawaii-plymouth.py:105-118 | the in-place loop over the slots leaves the pool equal to `Updated` of the old pool, and keeps the pool's bound and live-slot invariant |
| Particles.SpawnStep | assets/scripts/system/kawaii-plymouth.py:155-156 | a spawn keeps every existing slot and appends at most one; it appends exactly when the draw is < 0.3 and fewer than 20 slots exist; the appended slot is the created particle; the bound of 20 and the live-slot invariant are kept |
| Particles.ParticlePool.TrySpawn | assets/scripts/system/kawaii-plymouth.py:155-156 | the pool after a spawn attempt is `SpawnStep` of the old pool, so the class invariant still holds |
| Particles.SpawnSeriesSaturates | assets/scripts/system/kawaii-plymouth.py:155-156 | a series of successful draws grows the pool to min(old length + draws, 20), keeps the old slots, and fills the new slots with fresh particles of life 1.0 |
| Particles.SpawnSaturationFromEmpty | assets/scripts/system/kawaii-plymouth.py:155-156 | from the empty pool, 25 successful draws give exactly 20 slots, all live with life 1.0 |
| Particles.FullArrayNeverGrows | assets/scripts/system/kawaii-plymouth.py:155-156 | once the pool holds 20 slots, no spawn changes it whatever the draw, and a slot nulled by the update stays null because it is never reused |
| Particles.LiveEvents | assets/scripts/system/kawaii-plymouth.py:120-134 | the sparkle trace holds three events (colour, two lines) per drawn slot and nothing else |
| Particles.OnlyLiveParticlesDrawn | assets/scripts/system/kawaii-plymouth.py:121-123 | every event in the sparkle trace comes from a non-null slot with life > 0 |
| Particles.EveryLiveParticleDrawn | assets/scripts/system/kawaii-plymouth.py:121-131 | every non-null slot with life > 0 contributes its colour and both lines, with alpha equal to its life and half-length size * life, to the sparkle trace |
| Particles.AllLiveAllDrawn | assets/scripts/system/kawaii-plymouth.py:113-123 | in a pool kept by the update, the number of sparkles drawn equals the number of non-null slots |
| Particles.ParticlePool.Draw | assets/scripts/system/kawaii-plymouth.py:120-134 | the loop over the slots returns exactly the `LiveEvents` trace of the pool |
| Particles.ParticlePool.constructor | assets/scripts/system/kawaii-plymouth.py:91-92 | the pool starts empty, inside its bound |
| ProgressBar.Pulse | assets/scripts/system/kawaii-plymouth.py:142 | for a sine in [-1, 1] the pulse factor lies in [0.6, 1.0]; it is 1.0 at sine 1 and 0.6 at sine -1 |
| ProgressBar.FillWidth | assets/scripts/system/kawaii-plymouth.py:143 | the fill is 0 at progress 0 and the full width at progress 1, and lies within [0, width] for progress in [0, 1] |
| ProgressBar.FillWidthMonotone | assets/scripts/system/kawaii-plymouth.py:143 | for a non-negative width, the fill width never decreases as progress grows |
| ProgressBar.FillWidthExample | assets/scripts/system/kawaii-plymouth.py:143 | a 100-wide bar at progress 0.25 is filled 25 wide |
| ProgressBar.FillColor | assets/scripts/system/kawaii-plymouth.py:146-151 | the fill colour keeps the primary colour's alpha; with a pulse in [0.6, 1] and a primary colour in range, every channel stays in [0, 1] |
| ProgressBar.BarEvents | assets/scripts/system/kawaii-plymouth.py:136-163 | the bar draws the track first and the border (offset 1, width 2) last; it draws the fill rectangle between them exactly when the fill width is > 0; it draws no line, text or image and never clears |
| ProgressBar.BarSpawn | assets/scripts/system/kawaii-plymouth.py:145-157 | the bar appends a sparkle exactly when the fill width is > 0, the draw is < 0.3 and fewer than 20 slots exist; the sparkle is created at the fill's edge, half-way down the bar; otherwise the pool is unchanged |
| Stager.StageIndex | assets/scripts/system/kawaii-plymouth.py:172-176 | the stage is at most N - 1 and not negative for non-negative progress; it is N - 1 exactly when progress * N >= N - 1, and otherwise it is floor(progress * N) |
| Stager.BootMessage | assets/scripts/system/kawaii-plymouth.py:172-178 | a returned message is one of the messages; with non-negative progress and at least one message it is the message at the stage index; there is no message only for negative progress or an empty list |
| Stager.StageMonotone | assets/scripts/system/kawaii-plymouth.py:172-176 | the stage never decreases as progress grows |
| Stager.BootStageExamples | assets/scripts/system/kawaii-plymouth.py:77-85 | with the seven boot messages, progress 0, 0.5 and 1.0 select stages 0, 3 and 6, and progress 1.0 shows the welcome message |
| Frame.FrameProgress | assets/scripts/system/kawaii-plymouth.py:187-189 | progress is at most 1; it is 1.0 outside boot mode; in boot mode it is min(host, 1) when the host value is not 0 and min(time * 0.1, 1) when it is; it is non-negative when the host value and the clock are |
| Frame.ClockAfterIsLinear | assets/scripts/system/kawaii-plymouth.py:182 | after k frames the clock reads k * 0.05 |
| Frame.FallbackProgressValue | assets/scripts/system/kawaii-plymouth.py:182-189 | when the host stays in boot mode and reports 0, frame k shows progress min(k * 0.005, 1) |
| Frame.FallbackProgressRises | assets/scripts/system/kawaii-plymouth.py:182-189 | fallback progress never decreases from frame to frame, never exceeds 1, and is 1 exactly from frame 200 on |
| Frame.FallbackTrajectoryShape | assets/scripts/system/kawaii-plymouth.py:182-189 | a trajectory following the fallback closed form never decreases and is 1 exactly from its 200th frame on |
| Frame.FrameAlwaysHasMessage | assets/scripts/system/kawaii-plymouth.py:172-189 | for a non-negative host value the frame's progress lies in [0, 1] and always selects a boot message |
| Frame.PercentShown | assets/scripts/system/kawaii-plymouth.py:242 | the percentage is floor(progress * 100), in [0, 100] for progress in [0, 1], and 100 at progress 1 |
| Frame.TextEvents | assets/scripts/system/kawaii-plymouth.py:165-170 | a caption sets the palette's dark colour at opacity 0.9, an in-range colour, and then writes the text at (x, y) |
| Frame.CaptionTexts | assets/scripts/system/kawaii-plymouth.py:235-245 | the text layer writes exactly two texts, the boot message below the bar and then the percentage above it, each right after the text colour is set |
| Frame.SceneEvents | assets/scripts/system/kawaii-plymouth.py:194-245 | the scene beneath the sparkles starts with the clear and draws at least ten events |
| Frame.SceneClearsOnce | assets/scripts/system/kawaii-plymouth.py:195-245 | the scene clears the screen exactly once, as its first call |
| Frame.SceneLayering | assets/scripts/system/kawaii-plymouth.py:201-245 | the scene draws no line, so the sparkles drawn after it are the frame's only lines, and it draws only images that were loaded |
| Frame.SceneFallbackAndCaptions | assets/scripts/system/kawaii-plymouth.py:201-245 | without a background image the screen is filled in opaque white right after the clear; the boot message and the percentage are always the scene's last four events |
| Frame.PicturesLayering | assets/scripts/system/kawaii-plymouth.py:201-225 | the image layer draws no line, never clears, and draws only loaded images, so missing images are skipped |
| Frame.Splash.constructor | assets/scripts/system/kawaii-plymouth.py:66-92 | the script starts with clock, pulse, timer and progress at 0, no particles, the given images, the seven boot messages and the scheme's primary colour |
| Frame.Splash.DrawScenery | assets/scripts/system/kawaii-plymouth.py:201-225 | the background, logo and mascot branches produce exactly the image layer, with the mascot bobbing by sin(time * 2) * 5 |
| Frame.Splash.DrawProgressBar | assets/scripts/system/kawaii-plymouth.py:136-163 | the bar's calls are `BarEvents` at the current pulse, and the pool afterwards is `BarSpawn` of the old pool |
| Frame.Splash.Tick | assets/scripts/system/kawaii-plymouth.py:181-192 | the clock and the message timer gain 0.05 and the pulse 0.1; progress becomes `FrameProgress` of the mode, host value and new clock; the particles are updated by 0.05 |
| Frame.Splash.Render | assets/scripts/system/kawaii-plymouth.py:194-248 | the frame's calls are the scene followed by the sparkles of the pool after the bar's spawn attempt |
| Frame.Splash.Refresh | assets/scripts/system/kawaii-plymouth.py:180-249 | one refresh advances the timers, sets the progress, updates the particles before anything is drawn, lets the bar spawn at most one sparkle, and draws the scene with every live sparkle last |
| Frame.FallbackBoot | assets/scripts/system/kawaii-plymouth.py:252-263 | over successive refreshes with the host in boot mode reporting 0, frame i shows progress min((i + 1) * 0.005, 1); the progress never decreases and is 1 exactly from the 200th refresh on |

## Left out

- All quantities are exact `real` numbers, while Plymouth computes in floating point. Accumulated 0.05 steps, the `progress == 0` test and `life <= 0` can come out differently in doubles.
- `Math.Sin` and `Math.Random` are host calls. They become a function parameter and explicit draws; properties that need a range assume sin in [-1, 1] and draws in [0, 1).
- Pixel rendering is abstracted to an event trace. `Window.GetWidth`/`GetHeight` and the image sizes become `Screen` and `Image` values.
- The `size` argument of `draw_kawaii_text` is never used by the script, so it is not modelled. The text is kept as a `Label` (message or percentage) with no string formatting.
- `current_message` is assigned once and never read, so it is not modelled. `message_timer` is advanced but never read.
- The password-prompt callback (lines 255-260) only sets the text colour at full opacity and writes the prompt and its bullets, so it is not modelled.
- Plymouth's dynamic semantics are modelled only as far as the script uses them. The local `p` in `update_particles` aliases the array slot; the model writes the slot back. A missing image or null slot is `None`. A negative stage index, which only negative progress produces, yields no message where Plymouth would index with it.
- The generator's plumbing is not part of this model: file writes, installation and the command line. The same holds for the PIL background scripts, `demo-plymouth.py` and the documentation site.
