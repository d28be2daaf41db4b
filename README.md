# Evaluation output of the grammar-correction transformer, modelled in Dafny

This project models the output side of the evaluation script
`transformer/transformer_pred.py`, which runs a trained transformer over a
test corpus and writes three line-aligned files: source, reference (target)
and hypothesis (prediction). For each batch the script does the following:

- It takes example 0 of the batch: column 0 of the `[position, example]` id tensors.
- It renders the source row as one line. Position 0, the start symbol, is skipped. Each further id is looked up in `itos`. The scan stops at the first `"</s>"`. Every kept token is written followed by one space, and the line ends with `'\n'`.
- It drops the example when the line contains `"<unk>"`.
- It renders and filters the target row the same way.
- It builds the pad mask `src != stoi["<blank>"]`.
- It calls `greedy_decode` with `max_len = 60` and `start_symbol = stoi["<s>"]`.
- It renders the decoded row by the same rule.
- It appends the three lines to the three files.

The model files:

- `render.dfy` (module `Rendering`): the rendering rule. The three copies of the loop in the script become one method, `RenderLine`. It is proved equal to the recursive specification `Render`, and the lemmas characterise `Render`: where it stops, what it writes, when it fails, and when the `"<unk>"` test fires.
- `driver.dfy` (module `Driver`): the batch loop. The three files are three `seq<string>` fields of the class `Evaluator`. `ProcessBatch` is the loop body and `Run` is the loop. Both are proved against the specification functions `ExampleOutcome` and `RunSpec`.
  - `greedy_decode` is a parameter of type `Decoder`. It is a total function that returns either a row of non-negative ids or `Err(DecodeFailed)`. `Err(DecodeFailed)` stands for a call that raises, which ends the run once the call has been recorded.
  - A ghost field `decodeCalls` records every call made to the decoder, so that the model can say when the decoder is not called.
- `properties.dfy` (module `RunProperties`): what the loop promises across batches. It covers the filter, line alignment, the origin and order of lines, stopping at the first failure, the shape of decoder calls, and the pad mask.

Four behaviours of the code worth noting:

- **Trailing space.** The code writes a space after every token, the last one included, so `[<s>, hi, there, </s>, </s>]` renders as `"hi there \n"`, not `"hi there\n"` (`ToyHypothesisRender`).
- **One example per batch.** The code reads only example 0 of each batch, not every example.
- **Failed lookups.** An id outside `itos` raises `IndexError` in Python and ends the run. The model returns an `Error` naming the position and the id. `Run` then stops, and the streams keep the lines already written.
- **Decoder failure.** `greedy_decode` is neither defined in `transformer_pred.py` nor imported by it, so as written the call at line 124 raises `NameError`. A real decoder can also raise. The model covers both with a decoder that may return `Err(DecodeFailed)`. The call is recorded, nothing is written, and the run ends with that error. With the decoder as the script binds it, every call fails, so no line is ever written to any of the three files (`UnboundDecoderWritesNothing`).

## Model

| member | source | states |
|---|---|---|
| `Rendering.RenderLine` | transformer/transformer_pred.py:105-110 | The loop's result is exactly `Render(itos, ids)`. That is the kept tokens, each followed by `" "`, then one `"\n"`; or the error of the first id it could not look up. |
| `Rendering.JoinedAppend` | transformer/transformer_pred.py:109 | One `+= sym + " "` step adds that token and one space to the end of the line. |
| `Rendering.KeptFromScanned` | transformer/transformer_pred.py:106-109 | A stretch of positions holding known ids other than `"</s>"` contributes exactly its tokens, in order. |
| `Rendering.RenderStopsAtFirstEos` | transformer/transformer_pred.py:106-110 | If the first `"</s>"` after position 0 is at position e, the line is the tokens of positions 1..e-1, each followed by a space, then a newline. |
| `Rendering.RenderWithoutEos` | transformer/transformer_pred.py:106-110 | If there is no `"</s>"` after position 0, every token from position 1 to the end is written, in order. |
| `Rendering.RenderIgnoresAfterEos` | transformer/transformer_pred.py:108 | Replacing everything after the first `"</s>"` with any other ids leaves the line unchanged. |
| `Rendering.RenderIgnoresStart` | transformer/transformer_pred.py:106 | The id at position 0 is never looked up. Any id there gives the same result, including an id outside `itos`. |
| `Rendering.RenderBlankIff` | transformer/transformer_pred.py:106-110 | The line is `"\n"` alone exactly when the row has length at most 1, or holds `"</s>"` at position 1. Both directions are proved. |
| `Rendering.RenderFailsIff` | transformer/transformer_pred.py:107 | Rendering fails with (p, id) exactly when position p ≥ 1 holds an id outside `itos` and every position from 1 to p-1 holds a known token other than `"</s>"`. Both directions are proved. |
| `Rendering.ContainsAroundSeparator` | transformer/transformer_pred.py:109-111 | A pattern without the separator occurs in `a + sep + b` exactly when it occurs in `a` or in `b`. |
| `Rendering.JoinedContains` | transformer/transformer_pred.py:111 | A pattern with no space and no newline occurs in a rendered line exactly when it occurs in some kept token. |
| `Rendering.RenderContainsUnkIff` | transformer/transformer_pred.py:120 | The `'<unk>' in line` test holds exactly when one of the row's kept tokens contains `"<unk>"`. |
| `Driver.Column0` | transformer/transformer_pred.py:104-107 | The row read from a batch tensor is example 0 at every position, one id per position. |
| `Driver.SourceMask` | transformer/transformer_pred.py:123 | The mask has the source's length. It is true at a position exactly when the id there differs from `stoi["<blank>"]`. |
| `Driver.Evaluator.constructor` | transformer/transformer_pred.py:98-100 | The three output streams start empty, and no decoder call has been made. |
| `Driver.Evaluator.ProcessBatch` | transformer/transformer_pred.py:103-138 | Each stream grows by exactly the line `ExampleOutcome` gives it: one line each when the example is written, nothing when it is skipped or fails. The error is returned, whether it comes from a lookup or from the decoder. A decoder call is recorded only for an example that passed the `"<unk>"` filter. |
| `Driver.Evaluator.Run` | transformer/transformer_pred.py:102-138 | Over a sequence of batches, the three streams, the decoder calls and the error are those of `RunSpec`. The streams keep equal length. |
| `Driver.ErrorSticks` | transformer/transformer_pred.py:102 | Once a batch has failed, the later batches change nothing: the run has ended. |
| `RunProperties.FilterDropIff` | transformer/transformer_pred.py:111-120 | If both rows render, the example is dropped exactly when a kept token of the source or the target contains `"<unk>"`. Otherwise it goes on to decoding. |
| `RunProperties.UnkSourceSkipped` | transformer/transformer_pred.py:111 | A rendered source containing `"<unk>"` skips the example: no line is written and the decoder is not called, whatever the target holds. |
| `RunProperties.UnkTargetSkipped` | transformer/transformer_pred.py:120 | A rendered target containing `"<unk>"` skips the example: no line, no decoder call. |
| `RunProperties.KeptExampleDecoded` | transformer/transformer_pred.py:123-131 | An example with neither rendering containing `"<unk>"` makes one decoder call with its source, its pad mask, `max_len` 60 and `stoi["<s>"]`. If the decoder fails, the outcome is that failure. Otherwise the hypothesis is the decoder output rendered by the same rule. |
| `RunProperties.OnlyColumn0Read` | transformer/transformer_pred.py:104-116 | Two batches that agree on example 0 of source and target have the same outcome and the same decoder calls. |
| `RunProperties.RunAligned` | transformer/transformer_pred.py:136-138 | The three streams always have the same number of lines, and there are at most as many lines as batches. |
| `RunProperties.RunNoError` | transformer/transformer_pred.py:102-138 | A run over batches none of which fails ends without an error. |
| `RunProperties.WrittenIndicesOrdered` | transformer/transformer_pred.py:102 | The batches whose own outcome is `Written` are listed in strictly increasing order, each exactly once. In a run without failure these are exactly the batches that wrote lines (`RunLinesFromWritten`). The list also includes batches after a failure, which the run never reaches. |
| `RunProperties.RunLinesFromWritten` | transformer/transformer_pred.py:136-138 | With no failure, line k of every stream and decoder call k all come from the k-th batch that writes. |
| `RunProperties.RunWithoutFailure` | transformer/transformer_pred.py:102-138 | With no failure, line k of the three streams comes from one batch that renders to exactly those lines. The batches appear in iteration order, every batch that writes appears, and the decoder calls are those batches' requests. |
| `RunProperties.RunStopsAtFirstFailure` | transformer/transformer_pred.py:102-131 | The first failing batch's error is the run's error. The streams hold exactly what the batches before it wrote. |
| `RunProperties.RunCallsShape` | transformer/transformer_pred.py:123-125 | Every decoder call passes `max_len` 60, the start symbol `stoi["<s>"]`, and the pad mask of the source it is given. |
| `RunProperties.MaskOfPaddedRow` | transformer/transformer_pred.py:123 | On a source row of tokens followed by k pad ids, the mask is all true over the tokens and all false over the padding. |
| `RunProperties.ToyHypothesisRender` | transformer/transformer_pred.py:126-131 | With the vocabulary `<s> </s> <blank> <unk> hi there`, the ids `[0, 4, 5, 1, 1]` render as `"hi there \n"`. |
| `RunProperties.UnboundDecoderWritesNothing` | transformer/transformer_pred.py:124-125 | When every decoder call fails, as the unbound name `greedy_decode` makes it fail, the run writes no source, target or hypothesis line, over any batches. |

## Left out

- `greedy_decode`: it is not defined in `transformer_pred.py`, and the file does not import it. The model takes it as a parameter that returns ids or fails. Its internals are not modelled: neither arg-max selection nor an output of exactly `max_len` ids. The kind of exception it raises is also collapsed into one `DecodeFailed` error.
- Negative ids: the decoder returns `nat` ids. A negative id, which Python would use to index `itos` from the end, is not modelled, because token ids produced by `argmax` over the vocabulary are never negative.
- Model construction, loading of weights and vocabulary, and device selection (`make_model`, `torch.load`, `load_state_dict`, `torch.device`) are left out. They are opaque artifacts of PyTorch.
- `MyIterator` and `batch_size_fn` come from the `Model` module, which is not part of this model. Batches are a given sequence, and the token budget of a batch is not modelled.
- spaCy tokenisation and the construction of torchtext's `Field` and `TranslationDataset` are left out.
- The embedding choice (`EMB`, glove vectors) and the printing of a random test example are configuration and diagnostics, so they are left out.
- Directory creation, opening and closing files, and the `print` echo of each example are I/O. The three files are in-memory sequences of lines, and `write` is an append.
- Tensor shapes: the transposed `[1, L]` source tensor, the `[1, 1, L]` mask from `unsqueeze(-2)` and the `[1, n]` decoder output are modelled as flat sequences.
- `Driver.HasSpecials`: the vocabulary is required to hold `"<s>"` and `"<blank>"`, which the text field declares as its start and pad tokens. A missing key is not modelled: with torchtext's default dictionary it would silently map to the unknown id.
- `Driver.WellFormed`: every position of a batch tensor needs an example 0, so a batch is non-empty. The model does not cover the `IndexError` that an empty batch would raise.
