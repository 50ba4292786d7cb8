/** `get_boot_message`: picks one of the staged boot messages from the progress. */
module Stager {
  import opened Wrappers

  /** `boot_messages`, in stage order. */
  const BootMessages: seq<string> := [
    "🌸 Starting KawaiiSec OS...",
    "💖 Loading kawaii components...",
    "✨ Initializing security systems...",
    "🎵 Setting up audio...",
    "🛡️ Activating protection...",
    "🌟 Almost ready nyaa~",
    "🎉 Welcome to KawaiiSec OS!"]

  /**
   * The stage for `progress` among `n` messages: `floor(progress * n)`,
   * lowered to `n - 1` when it reaches `n`. There is no lower clamp.
   * The result is the last stage exactly when `progress * n` reaches
   * `n - 1`, and otherwise the whole part of `progress * n`.
   */
  function StageIndex(progress: real, n: nat): (k: int)
    ensures k <= n - 1
    ensures n >= 1 && 0.0 <= progress ==> 0 <= k
    ensures k == n - 1 <==> progress * n as real >= (n - 1) as real
    ensures k < n - 1 ==> k as real <= progress * n as real < k as real + 1.0
  {
    var stage := (progress * n as real).Floor;
    if stage >= n then n - 1 else stage
  }

  /**
   * `boot_messages[stage]`: a message for every progress in [0, 1] and
   * beyond; missing only for a negative stage (negative progress) or no
   * messages at all.
   */
  function BootMessage(progress: real, messages: seq<string>): (m: Option<string>)
    ensures m.Some? ==> m.value in messages
    ensures m.None? <==> StageIndex(progress, |messages|) < 0
    ensures m.None? ==> progress < 0.0 || messages == []
    ensures 0.0 <= progress && messages != [] ==> m == Some(messages[StageIndex(progress, |messages|)])
  {
    var k := StageIndex(progress, |messages|);
    if 0 <= k < |messages| then Some(messages[k]) else None
  }

  /** More progress never moves back to an earlier message. */
  lemma StageMonotone(p: real, q: real, n: nat)
    requires p <= q
    ensures StageIndex(p, n) <= StageIndex(q, n)
  {
    ScaleMonotone(p, q, n as real);
    FloorMonotone(p * n as real, q * n as real);
  }

  lemma ScaleMonotone(p: real, q: real, r: real)
    requires p <= q && 0.0 <= r
    ensures p * r <= q * r
  {
    assert q * r - p * r == (q - p) * r;
  }

  lemma FloorMonotone(a: real, b: real)
    requires a <= b
    ensures a.Floor <= b.Floor
  {
  }

  /** The seven boot messages at no, half and full progress. */
  lemma BootStageExamples()
    ensures StageIndex(0.0, |BootMessages|) == 0
    ensures StageIndex(0.5, |BootMessages|) == 3
    ensures StageIndex(1.0, |BootMessages|) == 6
    ensures BootMessage(1.0, BootMessages) == Some("🎉 Welcome to KawaiiSec OS!")
  {
  }
}
