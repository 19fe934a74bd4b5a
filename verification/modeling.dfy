/** The cache and hidden-state bookkeeping of `LSWTModel.forward`,
    `LSWTForCausalLM.forward` and `prepare_inputs_for_generation`. The
    transformer itself (embeddings, projections, norms, blocks with rotary
    position encoding) is a record of uninterpreted functions. */
module Modeling {
  import opened Py
  import opened KVCache

  /** The one input a forward pass runs on: token ids or ready embeddings. */
  datatype ModelInput<I, H> = Ids(ids: I) | Embeds(embeds: H)

  /** The external layers the backbone composes. `embed` is the shared input
      embedding followed by `input_proj`; `rope(h0, past)` is
      `rope_embedding`, computed once from the normalised embeddings and the
      whole past, its result (`rope_pos, rope_scale`) given to every block;
      `block(i, h, past, rope)` is block `i` returning the new hidden state
      and that layer's untrimmed key/value tensors. */
  datatype Backbone<!I, !H, !T, !R> = Backbone(
    nLayers: nat,
    embed: I -> H,
    inputNorm: H -> H,
    rope: (H, Option<Cache<T>>) -> R,
    block: (nat, H, Option<LayerCache<T>>, R) -> (H, LayerCache<T>),
    outputNorm: H -> H)

  datatype BaseOutput<H, T> = BaseOutput(
    lastHiddenState: H,
    pastKeyValues: Cache<T>,
    hiddenStates: seq<H>)

  datatype CausalOutput<L, H, T> = CausalOutput(
    logits: L,
    pastKeyValues: Option<Cache<T>>,
    hiddenStates: Option<seq<H>>)

  /** The input check at the top of `LSWTModel.forward`: exactly one of
      `input_ids` and `inputs_embeds` must be given. */
  function SelectInput<I, H>(inputIds: Option<I>, inputsEmbeds: Option<H>): (r: Result<ModelInput<I, H>>)
    ensures r.Ok? <==> inputIds.Some? != inputsEmbeds.Some?
    ensures inputIds.Some? && inputsEmbeds.Some? ==> r == Err(BothInputs)
    ensures inputIds.None? && inputsEmbeds.None? ==> r == Err(NoInputs)
    ensures r.Ok? ==> (r.value.Ids? <==> inputIds.Some?)
    ensures r.Ok? && r.value.Ids? ==> r.value.ids == inputIds.value
    ensures r.Ok? && r.value.Embeds? ==> r.value.embeds == inputsEmbeds.value
  {
    if inputIds.Some? && inputsEmbeds.Some? then Err(BothInputs)
    else if inputIds.None? && inputsEmbeds.None? then Err(NoInputs)
    else if inputIds.Some? then Ok(Ids(inputIds.value))
    else Ok(Embeds(inputsEmbeds.value))
  }

  /** `past_key_values[i] if past_key_values is not None else None`. */
  function PastAt<T>(past: Option<Cache<T>>, i: nat): (r: Option<LayerCache<T>>)
    requires past.Some? ==> i < |past.value|
    ensures r.Some? <==> past.Some?
    ensures r.Some? ==> r.value == past.value[i]
  {
    if past.Some? then Some(past.value[i]) else None
  }

  /** Whether a run of hidden states is the chain the blocks produce: entry
      `i + 1` is block `i` applied to entry `i`, that layer's past and the
      shared rotary encoding `rp`. */
  ghost predicate IsBlockChain<I, H, T, R>(m: Backbone<I, H, T, R>, past: Option<Cache<T>>, rp: R, hs: seq<H>)
    requires past.Some? ==> |past.value| >= |hs| - 1
  {
    forall i :: 0 <= i < |hs| - 1 ==> hs[i + 1] == m.block(i, hs[i], PastAt(past, i), rp).0
  }

  /** The loop over `range(n_layers)` for its first `n` iterations, starting
      from the normalised embeddings `h0` with rotary encoding `rp`: the
      hidden-state list and the list of per-layer caches, each layer's cache
      trimmed by `maxKeyValues`. */
  function RunBlocks<I, H, T, R>(m: Backbone<I, H, T, R>, past: Option<Cache<T>>, maxKeyValues: Option<int>,
                                 h0: H, rp: R, n: nat): (r: (seq<H>, Cache<T>))
    requires past.Some? ==> n <= |past.value|
    ensures |r.0| == n + 1 && |r.1| == n
    ensures r.0[0] == h0
    ensures IsBlockChain(m, past, rp, r.0)
    ensures forall i :: 0 <= i < n ==>
      r.1[i] == TrimCache(m.block(i, r.0[i], PastAt(past, i), rp).1, maxKeyValues)
  {
    if n == 0 then ([h0], [])
    else
      var (hs, caches) := RunBlocks(m, past, maxKeyValues, h0, rp, n - 1);
      var (h, kv) := m.block(n - 1, hs[n - 1], PastAt(past, n - 1), rp);
      (hs + [h], caches + [TrimCache(kv, maxKeyValues)])
  }

  /** `LSWTModel.forward`. Rejects both or neither input, raises IndexError
      when a given past has fewer layers than the model, and otherwise
      returns one trimmed cache per layer and `n_layers + 1` hidden states
      (the normalised embeddings and every block's output). Whatever the
      blocks return, a positive `max_key_values` bounds every cached tensor. */
  function ModelForward<I, H, T, R>(m: Backbone<I, H, T, R>, inputIds: Option<I>, inputsEmbeds: Option<H>,
                                    past: Option<Cache<T>>, maxKeyValues: Option<int>): (r: Result<BaseOutput<H, T>>)
    ensures r.Err? <==>
      inputIds.Some? == inputsEmbeds.Some? || (past.Some? && |past.value| < m.nLayers)
    ensures inputIds.Some? && inputsEmbeds.Some? ==> r == Err(BothInputs)
    ensures inputIds.None? && inputsEmbeds.None? ==> r == Err(NoInputs)
    ensures r.Err? && inputIds.Some? != inputsEmbeds.Some? ==> r.error == IndexOutOfRange
    ensures r.Ok? ==>
      && |r.value.hiddenStates| == m.nLayers + 1
      && |r.value.pastKeyValues| == m.nLayers
      && r.value.hiddenStates[0] ==
           m.inputNorm(if inputIds.Some? then m.embed(inputIds.value) else inputsEmbeds.value)
      && IsBlockChain(m, past, m.rope(r.value.hiddenStates[0], past), r.value.hiddenStates)
      && (forall i :: 0 <= i < m.nLayers ==>
            r.value.pastKeyValues[i] ==
              TrimCache(m.block(i, r.value.hiddenStates[i], PastAt(past, i),
                                m.rope(r.value.hiddenStates[0], past)).1, maxKeyValues))
      && r.value.lastHiddenState == m.outputNorm(r.value.hiddenStates[m.nLayers])
    ensures r.Ok? && maxKeyValues.Some? && maxKeyValues.value > 0 ==>
      Bounded(r.value.pastKeyValues, maxKeyValues.value)
  {
    var input :- SelectInput(inputIds, inputsEmbeds);
    var embeddings := match input
      case Ids(ids) => m.embed(ids)
      case Embeds(e) => e;
    var h0 := m.inputNorm(embeddings);
    if past.Some? && |past.value| < m.nLayers then Err(IndexOutOfRange)
    else
      var (hs, caches) := RunBlocks(m, past, maxKeyValues, h0, m.rope(h0, past), m.nLayers);
      Ok(BaseOutput(m.outputNorm(hs[m.nLayers]), caches, hs))
  }

  /** `LSWTForCausalLM.forward`: asserts `return_dict` and not
      `output_attentions`, runs the backbone, projects the final state to
      logits with `head`, returns the cache only when `use_cache` is set and
      the backbone's hidden states with the final normalised state appended
      only when `output_hidden_states` is set. */
  function CausalForward<I, H, T, R, L>(m: Backbone<I, H, T, R>, head: H -> L,
                                        inputIds: Option<I>, inputsEmbeds: Option<H>, past: Option<Cache<T>>,
                                        useCache: bool, returnDict: bool, outputAttentions: bool,
                                        outputHiddenStates: bool, maxKeyValues: Option<int>): (r: Result<CausalOutput<L, H, T>>)
    ensures !returnDict ==> r == Err(MustReturnDict)
    ensures returnDict && outputAttentions ==> r == Err(MustNotOutputAttentions)
    ensures returnDict && !outputAttentions ==>
      var base := ModelForward(m, inputIds, inputsEmbeds, past, maxKeyValues);
      && (r.Ok? <==> base.Ok?)
      && (base.Err? ==> r.error == base.error)
      && (r.Ok? ==>
            && r.value.logits == head(base.value.lastHiddenState)
            && (r.value.pastKeyValues.Some? <==> useCache)
            && (useCache ==> r.value.pastKeyValues.value == base.value.pastKeyValues)
            && (r.value.hiddenStates.Some? <==> outputHiddenStates)
            && (outputHiddenStates ==>
                  && |r.value.hiddenStates.value| == m.nLayers + 2
                  && r.value.hiddenStates.value[..m.nLayers + 1] == base.value.hiddenStates
                  && r.value.hiddenStates.value[m.nLayers + 1] == base.value.lastHiddenState))
  {
    if !returnDict then Err(MustReturnDict)
    else if outputAttentions then Err(MustNotOutputAttentions)
    else
      var base :- ModelForward(m, inputIds, inputsEmbeds, past, maxKeyValues);
      Ok(CausalOutput(
        head(base.lastHiddenState),
        if useCache then Some(base.pastKeyValues) else None,
        if outputHiddenStates then Some(base.hiddenStates + [base.lastHiddenState]) else None))
  }

  datatype GenerationInputs<C, H, T> = GenerationInputs(
    input: ModelInput<seq<C>, H>,
    pastKeyValues: Option<Cache<T>>)

  /** `prepare_inputs_for_generation`. Token ids are modelled as their list
      of columns along the sequence axis. With a cache present the cache is
      re-trimmed by the `max_key_values` keyword (absent or `None` meaning
      0) and the ids are cut to their last column (`[:, -1:]`); reading the
      cache's past length raises IndexError on an empty cache or first layer.
      Embeddings are passed on only when given and no cache is present. */
  function PrepareInputsForGeneration<C, H, T>(inputIds: seq<C>, past: Option<Cache<T>>,
                                              inputsEmbeds: Option<H>, maxKeyValues: Option<int>)
    : (r: Result<GenerationInputs<C, H, T>>)
    ensures r.Err? <==> past.Some? && (|past.value| == 0 || |past.value[0]| == 0)
    ensures r.Err? ==> r.error == IndexOutOfRange
    ensures r.Ok? ==> (r.value.input.Embeds? <==> inputsEmbeds.Some? && past.None?)
    ensures r.Ok? && r.value.input.Embeds? ==> r.value.input.embeds == inputsEmbeds.value
    ensures r.Ok? && past.Some? ==>
      && r.value.pastKeyValues == CacheTo(past, maxKeyValues.GetOr(0))
      && |r.value.input.ids| == Min(1, |inputIds|)
      && r.value.input.ids == inputIds[|inputIds| - |r.value.input.ids|..]
    ensures r.Ok? && past.None? ==>
      r.value.pastKeyValues.None? && (inputsEmbeds.None? ==> r.value.input == Ids(inputIds))
  {
    if past.Some? && (|past.value| == 0 || |past.value[0]| == 0) then Err(IndexOutOfRange)
    else
      var past' := if past.Some? then CacheTo(past, maxKeyValues.GetOr(0)) else past;
      var ids := if past.Some? then Suffix(inputIds, -1) else inputIds;
      var input := if inputsEmbeds.Some? && past'.None? then Embeds(inputsEmbeds.value) else Ids(ids);
      Ok(GenerationInputs(input, past'))
  }
}
