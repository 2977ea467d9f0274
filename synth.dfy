/**
 * The synth around the compiler: the installed program, the control
 * targets the console sets, the smoothed tempo and pitch, and the render
 * step that turns one audio buffer's worth of samples into 16-bit PCM.
 * Locking and the audio queue are not modelled: every operation here is
 * one sequential state update.
 */
module Synth {
  import opened Wrappers
  import opened Ast
  import opened Int32
  import opened Evaluator
  import opened Grammar
  import opened Normalize
  import opened Parsing

  /** Frames written per audio buffer (`BUFFER_FRAMES`). */
  const BufferFrames: nat := 512

  /** Fraction of the gap to the target closed per sample (`SMOOTHING_COEFF`). */
  const SmoothingCoeff: real := 0.0008

  /** The smoothed tempo and pitch never fall below these. */
  const MinTempo: real := 0.05
  const MinPitch: real := 0.125

  /** Output gain applied to the quantised sample. */
  const Gain: real := 0.6

  // ---------------------------------------------------------------------
  // Presets
  // ---------------------------------------------------------------------

  datatype Preset = Preset(name: string, js: string)

  /** The built-in programs, in menu order. */
  const Presets: seq<Preset> := [
    Preset("Viznut Classic 1", "(t*(t>>a|t>>b))>>(t>>d)"),
    Preset("Viznut Classic 2", "t*(((t>>(a+d))|(t>>b))&((a*b)&(t>>c)))"),
    Preset("Viznut Classic 3", "(t*a&t>>b)|(t*c&t>>d)"),
    Preset("Crowd Pleaser 1", "(t>>a|t|t>>(t>>d))*b+((t>>c)&a)"),
    Preset("Crowd Pleaser 2", "t*(t>>a&t>>b&(a*c+d)&t>>c)"),
    Preset("Crowd Pleaser 3", "(t*(a+d)&t>>c|t*a&t>>b|t*c&t/(128*d))-1"),
    Preset("Bit Groove 1", "((t>>b)|(t>>c))*a+d*(t&t>>(a+d)|t>>c)"),
    Preset("Bit Groove 2", "t*(((t>>a)|(t>>(b+d)))&((a*5)&(t>>c)))"),
    Preset("Bit Groove 3", "t*(((t>>(a+2))&(t>>b))&((a*b*c)&(t>>d)))"),
    Preset("Drone Shift", "((t>>a)|(t>>b))*(t>>d)"),
    Preset("Chiptune Pulse", "(t>>c)|(t*a&(t>>d))"),
    Preset("Xor Bells", "((t>>d)^(t>>(d+1)))*(t&(a*b*c*d))"),
    Preset("Dual Arp", "((t*a)&(t>>(b+2)))|((t*c)&(t>>d))"),
    Preset("Modulo Melody", "((t>>(b+d))|(t%(a*c+d)))*(t%(a+b+c+d))"),
    Preset("Harsh Lead", "((t*(a+b+d))&(t>>b))^((t*c)&(t>>d))"),
    Preset("Sub Octaves", "((t>>a)*(t>>a)|(t>>c)|(t>>b))"),
    Preset("Detuned Saw", "((t*(a+b+d))&(t>>b))|((t*(c+d+a))&(t>>d))"),
    Preset("Clock Crunch", "((t>>b)&(t>>c))*t*a"),
    Preset("Stacked Bits", "((t*c)&(t>>d))|((t*a)&(t>>b))|((t*(a+b))&(t>>(b+d)))"),
    Preset("Riser Noise", "(t>>b)*(t>>a|t>>(c+d))"),
    Preset("Mask Jam", "(t*((t>>a)|(t>>(b+d))))&(a*b*c*d)"),
    Preset("Metal Ping", "(t*((a*b)&(t>>d)))^(t>>(b+d))"),
    Preset("Tri-Xor", "((t>>a)^(t>>b)^(t>>d))*t*c"),
    Preset("Macro Stack", "((t*a)&(t>>c))|((t*b)&(t>>d))"),
    Preset("Macro Shift Gate", "(t*(a&(t>>c)))|((t>>d)&b)"),
    Preset("Macro Cross", "((t>>a)|(t>>b))*(c+(t>>d))"),
    Preset("Macro Ternary", "(t>>a)?((t*b)&(t>>c)):((t*d)&(t>>b))"),
    Preset("Macro Xor Arp", "((t*a)^(t>>b))|((t*c)&(t>>d))"),
    Preset("Macro Bitsaw", "((t*(a+b))&(t>>(c+1)))|((t*(d+1))&(t>>a))"),
    Preset("Macro Finale", "((t*a&t>>b)|(t*c&t>>d))+(sin(t/(20+d))*32)")
  ]

  const PresetCount: nat := |Presets|

  /**
   * The preset the console's `pn` command selects: the one after the
   * current one, wrapping at the end, counting from the first when no
   * preset is selected (`-1`).
   */
  function NextPreset(current: int): (idx: int)
    requires -1 <= current < PresetCount
    ensures 0 <= idx < PresetCount
  {
    var i := if current < 0 then 0 else current;
    (i + 1) % PresetCount
  }

  /** The preset the console's `pp` command selects: the one before, wrapping at the start. */
  function PrevPreset(current: int): (idx: int)
    requires -1 <= current < PresetCount
    ensures 0 <= idx < PresetCount
  {
    var i := if current < 0 then 0 else current;
    (i - 1 + PresetCount) % PresetCount
  }

  /** `pp` undoes `pn` and `pn` undoes `pp` on a selected preset. */
  lemma PresetStepsInverse(i: int)
    requires 0 <= i < PresetCount
    ensures PrevPreset(NextPreset(i)) == i
    ensures NextPreset(PrevPreset(i)) == i
  {
    assert PresetCount == 30;
    if i == PresetCount - 1 {
      assert NextPreset(i) == 0;
    } else {
      assert NextPreset(i) == i + 1;
    }
    if i == 0 {
      assert PrevPreset(i) == PresetCount - 1;
    } else {
      assert PrevPreset(i) == i - 1;
    }
  }

  /** `pn` from the last preset returns to the first, `pp` from the first goes to the last. */
  lemma PresetStepsWrap()
    ensures NextPreset(PresetCount - 1) == 0
    ensures PrevPreset(0) == PresetCount - 1
    ensures NextPreset(-1) == 1 && PrevPreset(-1) == PresetCount - 1
  {
  }

  /** The tempo target the console's `tm` command stores: clamped to [0.05, 8]. */
  function ClampTempo(tm: real): (r: real)
    ensures MinTempo <= r <= 8.0
    ensures MinTempo <= tm <= 8.0 ==> r == tm
    ensures tm < MinTempo ==> r == MinTempo
    ensures tm > 8.0 ==> r == 8.0
  {
    if tm < MinTempo then MinTempo
    else if tm > 8.0 then 8.0
    else tm
  }

  // ---------------------------------------------------------------------
  // One sample
  // ---------------------------------------------------------------------

  /** The smoothed tempo and pitch and the running sample clock. */
  datatype VoiceState = VoiceState(tempo: real, pitch: real, timeline: real)

  /** The values the console sets: targets and macros. */
  datatype Controls = Controls(
    targetTempo: real, targetPitch: real,
    a: real, b: real, c: real, d: real, shift: real, mask: real)

  /** One smoothing step towards `target`, never below `low`. */
  function Smooth(current: real, target: real, low: real): (r: real)
    ensures r >= low
  {
    var x := current + (target - current) * SmoothingCoeff;
    if x < low then low else x
  }

  function Abs(x: real): real {
    if x < 0.0 then -x else x
  }

  /**
   * Above the floor the smoothing is a one-pole filter: it moves towards
   * the target without overshooting it, closing a fixed fraction of the gap.
   */
  lemma SmoothApproaches(current: real, target: real, low: real)
    requires current >= low && target >= low
    ensures var r := Smooth(current, target, low);
      (current <= target ==> current <= r <= target) &&
      (target <= current ==> target <= r <= current) &&
      Abs(target - r) == (1.0 - SmoothingCoeff) * Abs(target - current)
  {
    var x := current + (target - current) * SmoothingCoeff;
    assert x == (1.0 - SmoothingCoeff) * current + SmoothingCoeff * target;
    assert target - x == (1.0 - SmoothingCoeff) * (target - current);
  }

  /** A smoothed value sitting on its target stays there. */
  lemma SmoothSettled(target: real, low: real)
    requires target >= low
    ensures Smooth(target, target, low) == target
  {
  }

  /**
   * The state after one sample: tempo and pitch smoothed and floored,
   * then the timeline advanced by the new tempo.
   */
  function Tick(v: VoiceState, k: Controls): (w: VoiceState)
    ensures w.tempo >= MinTempo && w.pitch >= MinPitch
    ensures w.timeline >= v.timeline + MinTempo
  {
    var tempo := Smooth(v.tempo, k.targetTempo, MinTempo);
    var pitch := Smooth(v.pitch, k.targetPitch, MinPitch);
    VoiceState(tempo, pitch, v.timeline + tempo)
  }

  /** Round half up: `floor(x + 0.5)`. */
  function RoundHalfUp(x: real): (r: real)
    ensures r.Floor as real == r
    ensures x - 0.5 < r <= x + 0.5
  {
    (x + 0.5).Floor as real
  }

  /** The variables one sample is evaluated with, after the state has ticked. */
  function ContextOf(w: VoiceState, k: Controls): (ctx: Context)
    ensures ctx.t.Floor as real == ctx.t && ctx.t <= w.timeline * w.pitch < ctx.t + 1.0
    ensures (ctx.a, ctx.b, ctx.c, ctx.d) == (k.a, k.b, k.c, k.d)
    ensures ctx.sh == RoundHalfUp(k.shift) && ctx.mask == RoundHalfUp(k.mask)
  {
    Context((w.timeline * w.pitch).Floor as real, k.a, k.b, k.c, k.d,
            RoundHalfUp(k.shift), RoundHalfUp(k.mask))
  }

  /** The low eight bits of a 32-bit value (`& 0xFF`), read as unsigned. */
  function LowByte(x: int): (b: nat)
    requires InRange(x)
    ensures b < 256
  {
    x % 256
  }

  /**
   * `bytebeat_to_float`: the low byte of `to_i32(v)` mapped linearly
   * onto [-1, 1), with byte 128 as silence.
   */
  function BytebeatToFloat(v: real): (f: real)
    ensures -1.0 <= f < 1.0
    ensures f * 128.0 + 128.0 == LowByte(ToI32(v)) as real
  {
    (LowByte(ToI32(v)) as real - 128.0) / 128.0
  }

  /** Adding `256 * j` does not change the low byte. */
  lemma ByteOfShift(x: int, j: int)
    ensures (x + 256 * j) % 256 == x % 256
  {
  }

  /**
   * The 32-bit wrap never changes the low byte: the output byte is the
   * low byte of the floored value itself.
   */
  lemma LowByteOfFloor(v: real)
    ensures LowByte(ToI32(v)) == v.Floor % 256
  {
    var r := ToI32(v);
    var f := v.Floor;
    var q := (r - f) / Two32;
    assert r - f == Two32 * q;
    assert r == f + 256 * (0x100_0000 * q);
    ByteOfShift(f, 0x100_0000 * q);
  }

  /** Programs whose values differ by a multiple of 256 sound the same. */
  lemma BytebeatPeriodic(v: real, j: int)
    ensures BytebeatToFloat(v + 256.0 * j as real) == BytebeatToFloat(v)
  {
    var u := v + 256.0 * j as real;
    assert u.Floor == v.Floor + 256 * j;
    LowByteOfFloor(u);
    LowByteOfFloor(v);
    ByteOfShift(v.Floor, j);
  }

  /** The C cast of a float to an integer type: truncation towards zero. */
  function TruncToInt(x: real): (r: int)
    ensures 0.0 <= x ==> r as real <= x < r as real + 1.0
    ensures x < 0.0 ==> r as real - 1.0 < x <= r as real
  {
    if x >= 0.0 then x.Floor else -((-x).Floor)
  }

  /** `(int16_t)fmaxf(-32768, fminf(32767, x))`. */
  function ClampToInt16(x: real): (s: int)
    ensures -32768 <= s <= 32767
  {
    var c := if x > 32767.0 then 32767.0 else if x < -32768.0 then -32768.0 else x;
    TruncToInt(c)
  }

  /** The PCM value written for an evaluated sample `y`. */
  function Quantize(y: real): (s: int)
    ensures -32768 <= s <= 32767
  {
    ClampToInt16(BytebeatToFloat(y) * Gain * 32767.0)
  }

  /**
   * With the 0.6 gain the scaled sample lies in [-19660.2, 19506.61], so
   * the int16 clamp never takes effect: every PCM value is the truncation
   * of `(byte - 128) * 0.6 * 32767 / 128`.
   */
  lemma QuantizeRange(y: real)
    ensures -19660 <= Quantize(y) <= 19506
    ensures Quantize(y) == TruncToInt((LowByte(ToI32(y)) as real - 128.0) * Gain * 32767.0 / 128.0)
  {
    var b := LowByte(ToI32(y)) as real;
    var x := BytebeatToFloat(y) * Gain * 32767.0;
    assert x == (b - 128.0) * Gain * 32767.0 / 128.0;
    assert -19660.2 <= x <= 19506.6046875;
  }

  /** A value whose low byte is 128 is silence. */
  lemma QuantizeSilence(y: real)
    requires LowByte(ToI32(y)) == 128
    ensures Quantize(y) == 0
  {
  }

  /**
   * With no program installed every sample evaluates to 0, whose byte is
   * 0: the output is the constant -19660, not silence.
   */
  lemma QuantizeZero()
    ensures Quantize(0.0) == -19660
  {
    assert ToI32(0.0) == 0;
    assert BytebeatToFloat(0.0) == -1.0;
  }

  /** The PCM value of one sample taken from the ticked state `w`. */
  function SampleAt(p: Option<Expr>, m: Libm, w: VoiceState, k: Controls): int {
    Quantize(if p.Some? then Eval(p.value, ContextOf(w, k), m) else 0.0)
  }

  // ---------------------------------------------------------------------
  // One buffer
  // ---------------------------------------------------------------------

  /** The state after `n` samples. */
  function Run(v: VoiceState, k: Controls, n: nat): VoiceState
    decreases n
  {
    if n == 0 then v else Tick(Run(v, k, n - 1), k)
  }

  /** The first `n` PCM values rendered from state `v`. */
  function Render(p: Option<Expr>, m: Libm, v: VoiceState, k: Controls, n: nat): (pcm: seq<int>)
    ensures |pcm| == n
    decreases n
  {
    if n == 0 then [] else Render(p, m, v, k, n - 1) + [SampleAt(p, m, Run(v, k, n), k)]
  }

  /** Appending the next sample to a rendered prefix renders one sample more. */
  lemma RenderStep(p: Option<Expr>, m: Libm, v: VoiceState, k: Controls, i: nat, out: seq<int>)
    requires |out| == i + 1 && out[..i] == Render(p, m, v, k, i)
    requires out[i] == SampleAt(p, m, Run(v, k, i + 1), k)
    ensures out == Render(p, m, v, k, i + 1)
  {
    assert out == out[..i] + [out[i]];
  }

  /** Sample `i` is evaluated on the state after `i + 1` ticks. */
  lemma {:induction false} RenderAt(p: Option<Expr>, m: Libm, v: VoiceState, k: Controls, n: nat, i: nat)
    requires i < n
    ensures Render(p, m, v, k, n)[i] == SampleAt(p, m, Run(v, k, i + 1), k)
    decreases n
  {
    if i < n - 1 {
      RenderAt(p, m, v, k, n - 1, i);
    }
  }

  /** Every PCM value of a buffer is a 16-bit value, in fact within [-19660, 19506]. */
  lemma RenderInRange(p: Option<Expr>, m: Libm, v: VoiceState, k: Controls, n: nat)
    ensures forall i :: 0 <= i < n ==> -19660 <= Render(p, m, v, k, n)[i] <= 19506
  {
    forall i | 0 <= i < n
      ensures -19660 <= Render(p, m, v, k, n)[i] <= 19506
    {
      RenderAt(p, m, v, k, n, i);
      var w := Run(v, k, i + 1);
      QuantizeRange(if p.Some? then Eval(p.value, ContextOf(w, k), m) else 0.0);
    }
  }

  /** Without a program the buffer is the constant -19660. */
  lemma RenderWithoutProgram(m: Libm, v: VoiceState, k: Controls, n: nat)
    ensures forall i :: 0 <= i < n ==> Render(None, m, v, k, n)[i] == -19660
  {
    forall i | 0 <= i < n
      ensures Render(None, m, v, k, n)[i] == -19660
    {
      RenderAt(None, m, v, k, n, i);
      QuantizeZero();
    }
  }

  /**
   * After `n >= 1` samples tempo and pitch sit at or above their floors,
   * and the timeline has advanced by at least `0.05` per sample.
   */
  lemma {:induction false} RunAdvances(v: VoiceState, k: Controls, n: nat)
    ensures Run(v, k, n).timeline >= v.timeline + n as real * MinTempo
    ensures n > 0 ==> Run(v, k, n).tempo >= MinTempo && Run(v, k, n).pitch >= MinPitch
    decreases n
  {
    if n > 0 {
      RunAdvances(v, k, n - 1);
    }
  }

  /** The timeline strictly increases from one sample to the next. */
  lemma {:induction false} TimelineIncreases(v: VoiceState, k: Controls, i: nat, j: nat)
    requires i < j
    ensures Run(v, k, i).timeline < Run(v, k, j).timeline
    decreases j
  {
    if i < j - 1 {
      TimelineIncreases(v, k, i, j - 1);
    }
  }

  // ---------------------------------------------------------------------
  // The synth
  // ---------------------------------------------------------------------

  class Synth {
    /** The installed program; none until the first successful install. */
    var expr: Option<Expr>
    var targetTempo: real
    var targetPitch: real
    var macroA: real
    var macroB: real
    var macroC: real
    var macroD: real
    var macroShift: real
    var macroMask: real
    var smoothTempo: real
    var smoothPitch: real
    var timeline: real
    /** The selected preset, or -1 after a program typed at the console. */
    var currentPreset: int

    ghost predicate Valid()
      reads this
    {
      -1 <= currentPreset < PresetCount
    }

    function Knobs(): Controls
      reads this
    {
      Controls(targetTempo, targetPitch, macroA, macroB, macroC, macroD, macroShift, macroMask)
    }

    function Voice(): VoiceState
      reads this
    {
      VoiceState(smoothTempo, smoothPitch, timeline)
    }

    /** The start-up state: unit tempo and pitch, the default macros, preset 0, no program. */
    constructor ()
      ensures Valid()
      ensures expr == None && currentPreset == 0
      ensures Knobs() == Controls(1.0, 1.0, 5.0, 3.0, 7.0, 10.0, 8.0, 127.0)
      ensures Voice() == VoiceState(1.0, 1.0, 0.0)
    {
      expr := None;
      targetTempo, targetPitch := 1.0, 1.0;
      macroA, macroB, macroC, macroD := 5.0, 3.0, 7.0, 10.0;
      macroShift, macroMask := 8.0, 127.0;
      smoothTempo, smoothPitch, timeline := 1.0, 1.0, 0.0;
      currentPreset := 0;
    }

    /**
     * `set_expr`: transpile and compile `js`; install the tree only when
     * that succeeds, otherwise keep the program already playing.
     */
    method SetExpr(js: string) returns (ok: bool)
      modifies this
      ensures ok <==> Compile(JsToC(js)).Ok?
      ensures ok ==> expr == Some(Compile(JsToC(js)).value)
      ensures !ok ==> expr == old(expr)
      ensures currentPreset == old(currentPreset)
      ensures Knobs() == old(Knobs()) && Voice() == old(Voice())
    {
      var src := TranspileJsToC(js);
      var r := CompileExpr(src);
      if r.Err? {
        return false;
      }
      expr := Some(r.value);
      return true;
    }

    /**
     * `set_preset`: ignore an index outside the table; otherwise install
     * the preset's program and select the preset only if that succeeds.
     */
    method SetPreset(idx: int)
      requires Valid()
      modifies this
      ensures Valid()
      ensures !(0 <= idx < PresetCount) ==> expr == old(expr) && currentPreset == old(currentPreset)
      ensures 0 <= idx < PresetCount ==>
        var r := Compile(JsToC(Presets[idx].js));
        if r.Ok? then expr == Some(r.value) && currentPreset == idx
        else expr == old(expr) && currentPreset == old(currentPreset)
      ensures Knobs() == old(Knobs()) && Voice() == old(Voice())
    {
      if idx < 0 || idx >= PresetCount {
        return;
      }
      var ok := SetExpr(Presets[idx].js);
      if ok {
        currentPreset := idx;
      }
    }

    /**
     * One iteration of `fill_buffer`'s loop: smooth tempo and pitch towards
     * their targets, floor them, advance the timeline, evaluate the program
     * (or take 0 without one) in the new context and quantise the result.
     */
    method NextSample(program: Option<Expr>, m: Libm) returns (sample: int)
      modifies this
      ensures Voice() == Tick(old(Voice()), Knobs())
      ensures sample == SampleAt(program, m, Voice(), Knobs())
      ensures expr == old(expr) && Knobs() == old(Knobs()) && currentPreset == old(currentPreset)
    {
      var tempoTarget, pitchTarget := targetTempo, targetPitch;
      smoothTempo := smoothTempo + (tempoTarget - smoothTempo) * SmoothingCoeff;
      smoothPitch := smoothPitch + (pitchTarget - smoothPitch) * SmoothingCoeff;
      if smoothTempo < MinTempo {
        smoothTempo := MinTempo;
      }
      if smoothPitch < MinPitch {
        smoothPitch := MinPitch;
      }
      timeline := timeline + smoothTempo;
      var ctx := Context((timeline * smoothPitch).Floor as real, macroA, macroB, macroC, macroD,
                         (macroShift + 0.5).Floor as real, (macroMask + 0.5).Floor as real);
      var y := if program.Some? then Eval(program.value, ctx, m) else 0.0;
      sample := Quantize(y);
    }

    /**
     * `fill_buffer` without its lock: write one sample per frame of the
     * buffer, each from the state the previous one left.  `m` supplies the
     * math library's results.
     */
    method FillBuffer(pcm: array<int>, m: Libm)
      requires pcm.Length == BufferFrames
      modifies this, pcm
      ensures pcm[..] == Render(expr, m, old(Voice()), Knobs(), BufferFrames)
      ensures Voice() == Run(old(Voice()), Knobs(), BufferFrames)
      ensures expr == old(expr) && Knobs() == old(Knobs()) && currentPreset == old(currentPreset)
    {
      ghost var v0 := Voice();
      ghost var k := Knobs();
      var program := expr;
      var i := 0;
      while i < BufferFrames
        invariant 0 <= i <= BufferFrames
        invariant pcm[..i] == Render(program, m, v0, k, i)
        invariant Voice() == Run(v0, k, i)
        invariant expr == program && Knobs() == k && currentPreset == old(currentPreset)
      {
        var sample := NextSample(program, m);
        pcm[i] := sample;
        RenderStep(program, m, v0, k, i, pcm[..i + 1]);
        i := i + 1;
      }
      assert pcm[..] == pcm[..BufferFrames];
    }
  }

  /** Selecting the next or previous preset never hits the out-of-range path. */
  lemma PresetStepsAccepted(current: int)
    requires -1 <= current < PresetCount
    ensures 0 <= NextPreset(current) < PresetCount && 0 <= PrevPreset(current) < PresetCount
  {
  }
}
