/**
 * The local text-to-speech plugin of the voice agent (voice-agent/aura_tts.py).
 *
 * AuraTts owns one lazily loaded speech model and serialises every inference
 * on it. Two stream kinds drive it: ChunkedStream synthesises one complete
 * text and pushes one PCM buffer; SynthesizeStream feeds its input channel
 * into a sentence tokenizer and pushes one PCM buffer per non-blank sentence.
 *
 * The model loader, the model's inference and the tokenizer's segmentation
 * are foreign code: they appear as function-valued constants. The two locks
 * become a sequential flag and counters: `loads` counts assignments to the
 * model field and `generating` is true exactly while an inference holds the
 * generation lock.
 */
module AuraTts {
  import opened Base

  const SAMPLE_RATE: int := 24000
  const NUM_CHANNELS: int := 1
  const INT16_MIN: int := -32768
  const INT16_MAX: int := 32767

  type Byte = b: int | 0 <= b < 256

  /** Constructor options of the plugin (`_TTSOptions`); the dtype is kept by name. */
  datatype TtsOptions = TtsOptions(
    modelName: string,
    refAudio: string,
    refText: string,
    language: string,
    dtype: string)

  /** A loaded model; what it computes is given by `AuraTts.infer`. */
  datatype ModelHandle = ModelHandle(name: string)

  /** The arguments of `output_emitter.initialize` other than the random request id. */
  datatype EmitterConfig = EmitterConfig(sampleRate: int, numChannels: int, mimeType: string, stream: bool)

  /** Both stream kinds initialise the emitter with this configuration. */
  const PCM_CONFIG := EmitterConfig(SAMPLE_RATE, NUM_CHANNELS, "audio/pcm", false)

  // ---------------------------------------------------------------------
  // Samples to int16 PCM bytes
  // ---------------------------------------------------------------------

  predicate InInt16(x: int) {
    INT16_MIN <= x <= INT16_MAX
  }

  /** `clip(-32768, 32767)` of one (already scaled) sample. */
  function Clamp(x: int): (r: int)
    ensures InInt16(r)
    ensures InInt16(x) ==> r == x
    ensures x < INT16_MIN ==> r == INT16_MIN
    ensures x > INT16_MAX ==> r == INT16_MAX
  {
    if x < INT16_MIN then INT16_MIN else if x > INT16_MAX then INT16_MAX else x
  }

  lemma {:induction false} ClampIdempotent(x: int)
    ensures Clamp(Clamp(x)) == Clamp(x)
  {
  }

  function ClampAll(xs: seq<int>): (r: seq<int>)
    ensures |r| == |xs|
    ensures forall i :: 0 <= i < |r| ==> InInt16(r[i]) && r[i] == Clamp(xs[i])
  {
    seq(|xs|, i requires 0 <= i < |xs| => Clamp(xs[i]))
  }

  predicate AllInt16(xs: seq<int>) {
    forall i :: 0 <= i < |xs| ==> InInt16(xs[i])
  }

  /** One int16 as two little-endian two's-complement bytes (numpy `tobytes` on x86). */
  function Int16Bytes(v: int): (r: seq<Byte>)
    requires InInt16(v)
    ensures |r| == 2
  {
    var u := if v < 0 then v + 65536 else v;
    [u % 256, u / 256]
  }

  function Int16Value(lo: Byte, hi: Byte): (v: int)
    ensures InInt16(v)
  {
    var u := lo + 256 * hi;
    if u >= 32768 then u - 65536 else u
  }

  lemma {:induction false} Int16RoundTrip(v: int)
    requires InInt16(v)
    ensures Int16Value(Int16Bytes(v)[0], Int16Bytes(v)[1]) == v
  {
  }

  /** `tobytes()` of an int16 array. */
  function PcmBytes(samples: seq<int>): (r: seq<Byte>)
    requires AllInt16(samples)
  {
    if samples == [] then [] else Int16Bytes(samples[0]) + PcmBytes(samples[1..])
  }

  /** Reads PCM bytes back into samples. */
  function PcmSamples(bytes: seq<Byte>): (r: seq<int>)
    requires |bytes| % 2 == 0
  {
    if bytes == [] then [] else [Int16Value(bytes[0], bytes[1])] + PcmSamples(bytes[2..])
  }

  /** The byte buffer is exactly two bytes per sample. */
  lemma {:induction false} PcmLength(samples: seq<int>)
    requires AllInt16(samples)
    ensures |PcmBytes(samples)| == 2 * |samples|
  {
    if samples != [] {
      PcmLength(samples[1..]);
    }
  }

  /** Serialising and reading back gives the same samples. */
  lemma {:induction false} PcmRoundTrip(samples: seq<int>)
    requires AllInt16(samples)
    ensures |PcmBytes(samples)| % 2 == 0
    ensures PcmSamples(PcmBytes(samples)) == samples
  {
    PcmLength(samples);
    if samples != [] {
      var b := PcmBytes(samples);
      Int16RoundTrip(samples[0]);
      assert b[2..] == PcmBytes(samples[1..]);
      PcmRoundTrip(samples[1..]);
    }
  }

  /**
   * What one `_generate_audio` call returns given the inference outcome:
   * nothing if inference raised or returned no rows (`audio_np[0]` raises),
   * otherwise the first row clamped and serialised.
   */
  function AudioFor(rows: Option<seq<seq<int>>>): (r: Option<seq<Byte>>)
    ensures r.Some? <==> rows.Some? && |rows.value| > 0
    ensures r.Some? ==> |r.value| == 2 * |rows.value[0]|
    ensures r.Some? ==> PcmSamples(r.value) == ClampAll(rows.value[0])
  {
    if rows.None? || |rows.value| == 0 then None
    else
      var samples := ClampAll(rows.value[0]);
      PcmRoundTrip(samples);
      PcmLength(samples);
      Some(PcmBytes(samples))
  }

  // ---------------------------------------------------------------------
  // The plugin
  // ---------------------------------------------------------------------

  class AuraTts {
    const opts: TtsOptions
    /** `FasterQwen3TTS.from_pretrained(name, dtype)`; None when it raises. */
    const load: (string, string) -> Option<ModelHandle>
    /** Scaled, truncated sample rows of `generate_voice_clone`; None when it raises. */
    const infer: (ModelHandle, string, TtsOptions) -> Option<seq<seq<int>>>

    var model: Option<ModelHandle>
    /** How many times a loaded model was stored into `model`. */
    var loads: nat
    /** True exactly while an inference holds the generation lock. */
    var generating: bool
    /** How many inferences have been started. */
    var generations: nat

    /** Between calls: no generation in progress, and the model was stored at most once. */
    ghost predicate Valid()
      reads this
    {
      && !generating
      && loads <= 1
      && (model.Some? <==> loads == 1)
    }

    constructor(opts: TtsOptions,
                load: (string, string) -> Option<ModelHandle>,
                infer: (ModelHandle, string, TtsOptions) -> Option<seq<seq<int>>>)
      ensures Valid()
      ensures this.opts == opts && this.load == load && this.infer == infer
      ensures model == None && loads == 0 && generations == 0
    {
      this.opts := opts;
      this.load := load;
      this.infer := infer;
      model := None;
      loads := 0;
      generating := false;
      generations := 0;
    }

    /** The outcome of a generation for `text` with the loaded model. */
    function AudioOf(text: string): Option<seq<Byte>>
      reads this`model
      requires model.Some?
    {
      AudioFor(infer(model.value, text, opts))
    }

    /** Generation with the loaded model, as a function of the text. */
    function Gen(): string -> Option<seq<Byte>>
      reads this`model
      requires model.Some?
    {
      var m := model.value;
      t => AudioFor(infer(m, t, opts))
    }

    /**
     * `_ensure_model`: loads the model on the first successful call and is a
     * no-op afterwards. A failing load leaves the model unset so that a
     * later call can retry.
     */
    method EnsureModel() returns (ok: bool)
      requires Valid()
      modifies this
      ensures Valid()
      ensures ok <==> model.Some?
      ensures old(model).Some? ==> model == old(model) && loads == old(loads)
      ensures old(model).None? ==> model == load(opts.modelName, opts.dtype)
      ensures generations == old(generations)
    {
      if model.Some? {
        return true;
      }
      // `with self._model_lock:` re-tests the field; sequentially it is still unset here
      if model.Some? {
        return true;
      }
      var loaded := load(opts.modelName, opts.dtype);
      if loaded.None? {
        return false;
      }
      model := loaded;
      loads := loads + 1;
      ok := true;
    }

    /**
     * `_generate_audio`: one inference under the generation lock. It may be
     * entered only when no other generation is in progress, and the lock is
     * released on every exit, including when inference fails.
     */
    method GenerateAudio(text: string) returns (pcm: Option<seq<Byte>>)
      requires Valid() && model.Some?
      modifies this
      ensures Valid()
      ensures model == old(model) && loads == old(loads)
      ensures generations == old(generations) + 1
      ensures pcm == AudioOf(text)
    {
      generating := true;
      generations := generations + 1;
      var rows := infer(model.value, text, opts);
      if rows.None? || |rows.value| == 0 {
        generating := false;
        return None;
      }
      var samples := ClampAll(rows.value[0]);
      pcm := Some(PcmBytes(samples));
      generating := false;
    }
  }

  // ---------------------------------------------------------------------
  // The audio emitter
  // ---------------------------------------------------------------------

  /** The output emitter a stream writes to: its configuration and the buffers pushed so far. */
  class Emitter {
    var config: Option<EmitterConfig>
    var pushed: seq<seq<Byte>>

    constructor()
      ensures config == None && pushed == []
    {
      config := None;
      pushed := [];
    }

    method Initialize(c: EmitterConfig)
      modifies this
      ensures config == Some(c) && pushed == old(pushed)
    {
      config := Some(c);
    }

    method Push(data: seq<Byte>)
      requires config.Some?
      modifies this
      ensures config == old(config) && pushed == old(pushed) + [data]
    {
      pushed := pushed + [data];
    }
  }

  /** The buffers a generation outcome contributes to the emitter. */
  function PushesOf(pcm: Option<seq<Byte>>): (r: seq<seq<Byte>>)
    ensures pcm.None? ==> r == []
    ensures pcm.Some? ==> r == [pcm.value]
  {
    if pcm.Some? then [pcm.value] else []
  }

  // ---------------------------------------------------------------------
  // Whole-text mode
  // ---------------------------------------------------------------------

  /** `_AuraChunkedStream`: synthesise one complete text. */
  class ChunkedStream {
    const tts: AuraTts
    const text: string

    constructor(tts: AuraTts, text: string)
      ensures this.tts == tts && this.text == text
    {
      this.tts := tts;
      this.text := text;
    }

    /**
     * `_run`: ensure the model, initialise the emitter, generate once from
     * the whole text (blank or not) and push the result. If the model cannot
     * be loaded nothing is initialised or generated; if generation fails
     * nothing is pushed.
     */
    method Run(emitter: Emitter) returns (ok: bool)
      requires tts.Valid()
      modifies tts, emitter
      ensures tts.Valid()
      ensures old(tts.model).Some? ==> tts.model == old(tts.model) && tts.loads == old(tts.loads)
      ensures old(tts.model).None? ==> tts.model == tts.load(tts.opts.modelName, tts.opts.dtype)
      ensures tts.model.None? ==>
        && !ok && tts.generations == old(tts.generations)
        && emitter.config == old(emitter.config) && emitter.pushed == old(emitter.pushed)
      ensures tts.model.Some? ==>
        && tts.generations == old(tts.generations) + 1
        && emitter.config == Some(PCM_CONFIG)
        && emitter.pushed == old(emitter.pushed) + PushesOf(tts.AudioOf(text))
        && ok == tts.AudioOf(text).Some?
    {
      ok := tts.EnsureModel();
      if !ok {
        return;
      }
      emitter.Initialize(PCM_CONFIG);
      var pcm := tts.GenerateAudio(text);
      if pcm.None? {
        return false;
      }
      emitter.Push(pcm.value);
    }
  }

  // ---------------------------------------------------------------------
  // Streaming mode
  // ---------------------------------------------------------------------

  /** One item of the input channel: a text fragment or the flush sentinel. */
  datatype InputItem = TextItem(text: string) | FlushSentinel

  /** One call made on the tokenizer's stream. */
  datatype TokenCall = PushText(text: string) | Flush | EndInput

  /** The tokenizer stream: the calls it has received, and its foreign segmentation. */
  class TokenStream {
    var calls: seq<TokenCall>
    /** The sentences the tokenizer yields for a whole call history. */
    const segment: seq<TokenCall> -> seq<string>

    constructor(segment: seq<TokenCall> -> seq<string>)
      ensures calls == [] && this.segment == segment
    {
      calls := [];
      this.segment := segment;
    }

    method PushText(t: string)
      modifies this
      ensures calls == old(calls) + [TokenCall.PushText(t)]
    {
      calls := calls + [TokenCall.PushText(t)];
    }

    method Flush()
      modifies this
      ensures calls == old(calls) + [TokenCall.Flush]
    {
      calls := calls + [TokenCall.Flush];
    }

    method EndInput()
      modifies this
      ensures calls == old(calls) + [TokenCall.EndInput]
    {
      calls := calls + [TokenCall.EndInput];
    }
  }

  function DispatchOne(item: InputItem): TokenCall {
    match item
    case FlushSentinel => Flush
    case TextItem(t) => PushText(t)
  }

  /** The tokenizer calls `_process_input` makes for the items, before `end_input`. */
  function Dispatch(items: seq<InputItem>): (calls: seq<TokenCall>)
    ensures |calls| == |items|
  {
    if items == [] then [] else Dispatch(items[..|items| - 1]) + [DispatchOne(items[|items| - 1])]
  }

  /** Each flush sentinel becomes `flush()` and each fragment `push_text(fragment)`, position by position. */
  lemma {:induction false} DispatchAt(items: seq<InputItem>, i: nat)
    requires i < |items|
    ensures Dispatch(items)[i] == (if items[i].FlushSentinel? then Flush else PushText(items[i].text))
    ensures Dispatch(items)[i] != EndInput
    decreases |items|
  {
    if i < |items| - 1 {
      DispatchAt(items[..|items| - 1], i);
    }
  }

  /** What the synthesis loop did for a sentence list: the buffers pushed, and whether a generation raised. */
  datatype StreamOutcome = StreamOutcome(pushed: seq<seq<Byte>>, failed: bool)

  /**
   * The synthesis loop over `sentences` with generator `gen`: blank
   * sentences are skipped; each other sentence is generated and pushed, in
   * order, until a generation raises, which ends the loop.
   */
  function SynthesisOf(gen: string -> Option<seq<Byte>>, sentences: seq<string>): StreamOutcome
    decreases |sentences|
  {
    if sentences == [] then StreamOutcome([], false)
    else if IsBlank(sentences[0]) then SynthesisOf(gen, sentences[1..])
    else match gen(sentences[0])
      case None => StreamOutcome([], true)
      case Some(p) =>
        var rest := SynthesisOf(gen, sentences[1..]);
        StreamOutcome([p] + rest.pushed, rest.failed)
  }

  /** The non-blank sentences, in order. */
  function NonBlank(sentences: seq<string>): (r: seq<string>)
    ensures |r| <= |sentences|
    ensures forall i :: 0 <= i < |r| ==> !IsBlank(r[i])
  {
    if sentences == [] then []
    else if IsBlank(sentences[0]) then NonBlank(sentences[1..])
    else [sentences[0]] + NonBlank(sentences[1..])
  }

  /**
   * The loop's outcome exactly: without a failure there is one buffer per
   * non-blank sentence, each that sentence's audio, in tokenizer order; with
   * a failure the buffers are those of the non-blank sentences before the
   * first one whose generation raised.
   */
  lemma {:induction false} SynthesisPushesNonBlank(gen: string -> Option<seq<Byte>>, sentences: seq<string>)
    ensures var o := SynthesisOf(gen, sentences); var nb := NonBlank(sentences);
      && (if o.failed then |o.pushed| < |nb| && gen(nb[|o.pushed|]).None? else |o.pushed| == |nb|)
      && forall i :: 0 <= i < |o.pushed| ==> gen(nb[i]) == Some(o.pushed[i])
    decreases |sentences|
  {
    if sentences != [] {
      SynthesisPushesNonBlank(gen, sentences[1..]);
    }
  }

  /** Blank sentences never produce a push: only the non-blank ones matter. */
  lemma {:induction false} SynthesisIgnoresBlank(gen: string -> Option<seq<Byte>>, sentences: seq<string>)
    ensures SynthesisOf(gen, sentences) == SynthesisOf(gen, NonBlank(sentences))
    decreases |sentences|
  {
    if sentences != [] {
      SynthesisIgnoresBlank(gen, sentences[1..]);
    }
  }

  /** A sentence is kept exactly when it occurs in the input and is not blank. */
  lemma {:induction false} NonBlankMembers(sentences: seq<string>)
    ensures forall x :: x in NonBlank(sentences) <==> x in sentences && !IsBlank(x)
    decreases |sentences|
  {
    if sentences != [] {
      NonBlankMembers(sentences[1..]);
      assert sentences == [sentences[0]] + sentences[1..];
    }
  }

  /** Filtering works sentence by sentence, so the kept sentences stay in tokenizer order. */
  lemma {:induction false} NonBlankAppend(a: seq<string>, b: seq<string>)
    ensures NonBlank(a + b) == NonBlank(a) + NonBlank(b)
    decreases |a|
  {
    if a == [] {
      assert a + b == b;
    } else {
      assert (a + b)[0] == a[0];
      assert (a + b)[1..] == a[1..] + b;
      NonBlankAppend(a[1..], b);
    }
  }

  /** Number of generations the loop starts: one per push, plus the one that raised. */
  function Attempts(o: StreamOutcome): nat {
    |o.pushed| + if o.failed then 1 else 0
  }

  /** `_AuraSynthesizeStream`: synthesise text that arrives on an input channel. */
  class SynthesizeStream {
    const tts: AuraTts
    /** The items of the input channel, in arrival order. */
    const input: seq<InputItem>
    /** The sentence tokenizer's segmentation. */
    const segment: seq<TokenCall> -> seq<string>

    constructor(tts: AuraTts, input: seq<InputItem>, segment: seq<TokenCall> -> seq<string>)
      ensures this.tts == tts && this.input == input && this.segment == segment
    {
      this.tts := tts;
      this.input := input;
      this.segment := segment;
    }

    /** `_process_input`: forward every item in order, then `end_input()` once. */
    method ProcessInput(tokens: TokenStream)
      modifies tokens
      ensures tokens.calls == old(tokens.calls) + Dispatch(input) + [EndInput]
    {
      ghost var start := tokens.calls;
      var i := 0;
      while i < |input|
        invariant 0 <= i <= |input|
        invariant tokens.calls == start + Dispatch(input[..i])
      {
        assert input[..i + 1][..i] == input[..i];
        if input[i].FlushSentinel? {
          tokens.Flush();
        } else {
          tokens.PushText(input[i].text);
        }
        i := i + 1;
      }
      assert input[..i] == input;
      tokens.EndInput();
    }

    /** `_synthesize`: generate and push every non-blank sentence in order; a failing generation ends it. */
    method Synthesize(sentences: seq<string>, emitter: Emitter) returns (ok: bool)
      requires tts.Valid() && tts.model.Some? && emitter.config.Some?
      modifies tts, emitter
      ensures tts.Valid() && tts.model == old(tts.model) && tts.loads == old(tts.loads)
      ensures emitter.config == old(emitter.config)
      ensures var o := SynthesisOf(tts.Gen(), sentences);
        && emitter.pushed == old(emitter.pushed) + o.pushed
        && ok == !o.failed
        && tts.generations == old(tts.generations) + Attempts(o)
    {
      ghost var gen := tts.Gen();
      ghost var whole := SynthesisOf(gen, sentences);
      ghost var done: seq<seq<Byte>> := [];
      var i := 0;
      while i < |sentences|
        invariant 0 <= i <= |sentences|
        invariant tts.Valid() && tts.model == old(tts.model) && tts.loads == old(tts.loads)
        invariant emitter.config == old(emitter.config)
        invariant emitter.pushed == old(emitter.pushed) + done
        invariant tts.generations == old(tts.generations) + |done|
        invariant whole.pushed == done + SynthesisOf(gen, sentences[i..]).pushed
        invariant whole.failed == SynthesisOf(gen, sentences[i..]).failed
      {
        var sentence := sentences[i];
        assert sentences[i..][1..] == sentences[i + 1..];
        if IsBlank(sentence) {
          i := i + 1;
          continue;
        }
        var pcm := tts.GenerateAudio(sentence);
        if pcm.None? {
          return false;
        }
        emitter.Push(pcm.value);
        done := done + [pcm.value];
        i := i + 1;
      }
      ok := true;
    }

    /**
     * `_run`: ensure the model, initialise the emitter, forward the input to
     * a fresh tokenizer stream and synthesise the sentences it yields.
     */
    method Run(emitter: Emitter) returns (ok: bool)
      requires tts.Valid()
      modifies tts, emitter
      ensures tts.Valid()
      ensures old(tts.model).Some? ==> tts.model == old(tts.model) && tts.loads == old(tts.loads)
      ensures old(tts.model).None? ==> tts.model == tts.load(tts.opts.modelName, tts.opts.dtype)
      ensures tts.model.None? ==>
        && !ok && tts.generations == old(tts.generations)
        && emitter.config == old(emitter.config) && emitter.pushed == old(emitter.pushed)
      ensures tts.model.Some? ==>
        var o := SynthesisOf(tts.Gen(), segment(Dispatch(input) + [EndInput]));
        && emitter.config == Some(PCM_CONFIG)
        && emitter.pushed == old(emitter.pushed) + o.pushed
        && ok == !o.failed
        && tts.generations == old(tts.generations) + Attempts(o)
    {
      ok := tts.EnsureModel();
      if !ok {
        return;
      }
      emitter.Initialize(PCM_CONFIG);
      var tokens := new TokenStream(segment);
      ProcessInput(tokens);
      assert tokens.calls == Dispatch(input) + [EndInput];
      ok := Synthesize(segment(tokens.calls), emitter);
    }
  }
}
