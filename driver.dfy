/**
 * The per-batch loop of the evaluation script: it renders column 0 of each
 * batch's source and target, drops the example when either rendering holds
 * "<unk>", otherwise decodes the source with the decoder it is given, renders
 * the hypothesis and appends the three lines to three output streams.
 */
module Driver {
  import opened Rendering

  /** The decoder is invoked with this `max_len`. */
  const MaxLen: nat := 60
  const Bos: string := "<s>"
  const Blank: string := "<blank>"

  /** The loaded vocabulary: ids to tokens and tokens to ids. */
  datatype Vocab = Vocab(itos: seq<string>, stoi: map<string, nat>)

  /** The start and pad tokens are specials of the text field, so `stoi` has them. */
  predicate HasSpecials(v: Vocab)
  {
    Bos in v.stoi && Blank in v.stoi
  }

  /** A padded id tensor indexed [position][example]. */
  type Matrix = seq<seq<nat>>

  datatype Batch = Batch(src: Matrix, trg: Matrix)

  /** Every position has an example 0 (a batch holds at least one example). */
  predicate HasColumn0(m: Matrix)
  {
    forall i | 0 <= i < |m| :: |m[i]| > 0
  }

  predicate WellFormed(b: Batch)
  {
    HasColumn0(b.src) && HasColumn0(b.trg)
  }

  /**
   * `greedy_decode(model, src, src_mask, max_len, start_symbol)`: row 0 of its
   * output, or `Err(DecodeFailed)` when the call raises.
   */
  type Decoder = (seq<nat>, seq<bool>, nat, nat) -> Result<seq<nat>>

  /** The arguments of one call of the decoder. */
  datatype DecodeCall = DecodeCall(src: seq<nat>, mask: seq<bool>, maxLen: nat, startSymbol: nat)

  datatype Option<T> = None | Some(value: T)

  /** What the loop does with one batch. */
  datatype Outcome =
    | Skipped
    | Written(source: string, target: string, pred: string)
    | Failed(error: Error)

  /** The outcome of the two renderings that come before decoding. */
  datatype Filtered =
    | Drop
    | Keep(source: string, target: string)
    | Abort(error: Error)

  /** Example 0 of a batch tensor, position by position. */
  function Column0(m: Matrix): (c: seq<nat>)
    requires HasColumn0(m)
    ensures |c| == |m|
    ensures forall i | 0 <= i < |m| :: c[i] == m[i][0]
  {
    seq(|m|, i requires 0 <= i < |m| => m[i][0])
  }

  /** `src != stoi["<blank>"]`: true where the source holds a real token. */
  function SourceMask(src: seq<nat>, pad: nat): (mask: seq<bool>)
    ensures |mask| == |src|
    ensures forall i | 0 <= i < |src| :: mask[i] <==> src[i] != pad
  {
    seq(|src|, i requires 0 <= i < |src| => src[i] != pad)
  }

  /** Renders source then target; each is checked for "<unk>" before the next step. */
  function Filter(v: Vocab, b: Batch): Filtered
    requires WellFormed(b)
  {
    match Render(v.itos, Column0(b.src))
    case Err(e) => Abort(e)
    case Ok(source) =>
      if Contains(source, Unk) then Drop
      else
        match Render(v.itos, Column0(b.trg))
        case Err(e) => Abort(e)
        case Ok(target) =>
          if Contains(target, Unk) then Drop else Keep(source, target)
  }

  /** The call the loop makes for a batch that passes the filter. */
  function Request(v: Vocab, b: Batch): DecodeCall
    requires WellFormed(b) && HasSpecials(v)
  {
    var src := Column0(b.src);
    DecodeCall(src, SourceMask(src, v.stoi[Blank]), MaxLen, v.stoi[Bos])
  }

  /** The decoder calls the loop makes for a batch: none unless it passes the filter. */
  function CallsFor(v: Vocab, b: Batch): seq<DecodeCall>
    requires WellFormed(b) && HasSpecials(v)
  {
    if Filter(v, b).Keep? then [Request(v, b)] else []
  }

  function Apply(decode: Decoder, c: DecodeCall): Result<seq<nat>>
  {
    decode(c.src, c.mask, c.maxLen, c.startSymbol)
  }

  /** What happens to one batch. */
  function ExampleOutcome(v: Vocab, b: Batch, decode: Decoder): Outcome
    requires WellFormed(b) && HasSpecials(v)
  {
    match Filter(v, b)
    case Abort(e) => Failed(e)
    case Drop => Skipped
    case Keep(source, target) =>
      match Apply(decode, Request(v, b))
      case Err(e) => Failed(e)
      case Ok(out) =>
        match Render(v.itos, out)
        case Err(e) => Failed(e)
        case Ok(pred) => Written(source, target, pred)
  }

  function SourceLines(o: Outcome): seq<string>
  {
    if o.Written? then [o.source] else []
  }

  function TargetLines(o: Outcome): seq<string>
  {
    if o.Written? then [o.target] else []
  }

  function PredLines(o: Outcome): seq<string>
  {
    if o.Written? then [o.pred] else []
  }

  function ErrorOf(o: Outcome): Option<Error>
  {
    if o.Failed? then Some(o.error) else None
  }

  predicate AllWellFormed(bs: seq<Batch>)
  {
    forall j | 0 <= j < |bs| :: WellFormed(bs[j])
  }

  /** The three streams, the decoder calls and the error after a run over some batches. */
  datatype Streams = Streams(
    src: seq<string>, trg: seq<string>, pred: seq<string>,
    calls: seq<DecodeCall>, error: Option<Error>)

  /** One more batch, unless an earlier one aborted the run. */
  function Step(s: Streams, v: Vocab, b: Batch, decode: Decoder): Streams
    requires WellFormed(b) && HasSpecials(v)
  {
    if s.error.Some? then s
    else
      var o := ExampleOutcome(v, b, decode);
      Streams(s.src + SourceLines(o), s.trg + TargetLines(o), s.pred + PredLines(o),
              s.calls + CallsFor(v, b), ErrorOf(o))
  }

  /** The run over the batches in iteration order. */
  function RunSpec(v: Vocab, bs: seq<Batch>, decode: Decoder): Streams
    requires AllWellFormed(bs) && HasSpecials(v)
    decreases |bs|
  {
    if bs == [] then Streams([], [], [], [], None)
    else Step(RunSpec(v, bs[..|bs| - 1], decode), v, bs[|bs| - 1], decode)
  }

  /**
   * The positions of the batches whose own outcome is `Written`, in order. In a
   * run without failure these are the batches that wrote lines.
   */
  function WrittenIndices(v: Vocab, bs: seq<Batch>, decode: Decoder): seq<nat>
    requires AllWellFormed(bs) && HasSpecials(v)
    decreases |bs|
  {
    if bs == [] then []
    else
      WrittenIndices(v, bs[..|bs| - 1], decode)
      + (if ExampleOutcome(v, bs[|bs| - 1], decode).Written? then [|bs| - 1] else [])
  }

  /** The three output files, held in memory, and the decoder calls made so far. */
  class Evaluator {
    var srcLines: seq<string>
    var trgLines: seq<string>
    var predLines: seq<string>
    ghost var decodeCalls: seq<DecodeCall>

    /** The three streams have the same number of lines. */
    ghost predicate Valid()
      reads this
    {
      |srcLines| == |trgLines| == |predLines|
    }

    constructor ()
      ensures Valid()
      ensures srcLines == [] && trgLines == [] && predLines == [] && decodeCalls == []
    {
      srcLines, trgLines, predLines := [], [], [];
      decodeCalls := [];
    }

    /** The body of the batch loop for one batch; an error ends the run. */
    method ProcessBatch(v: Vocab, b: Batch, decode: Decoder) returns (err: Option<Error>)
      requires Valid() && WellFormed(b) && HasSpecials(v)
      modifies this
      ensures Valid()
      ensures var o := ExampleOutcome(v, b, decode);
        && srcLines == old(srcLines) + SourceLines(o)
        && trgLines == old(trgLines) + TargetLines(o)
        && predLines == old(predLines) + PredLines(o)
        && err == ErrorOf(o)
      ensures decodeCalls == old(decodeCalls) + CallsFor(v, b)
    {
      var src := Column0(b.src);
      var source := RenderLine(v.itos, src);
      if source.Err? {
        return Some(source.error);
      }
      if Contains(source.value, Unk) {
        return None;
      }
      var target := RenderLine(v.itos, Column0(b.trg));
      if target.Err? {
        return Some(target.error);
      }
      if Contains(target.value, Unk) {
        return None;
      }
      var srcMask := SourceMask(src, v.stoi[Blank]);
      var out := decode(src, srcMask, MaxLen, v.stoi[Bos]);
      decodeCalls := decodeCalls + [DecodeCall(src, srcMask, MaxLen, v.stoi[Bos])];
      if out.Err? {
        return Some(out.error);
      }
      var pred := RenderLine(v.itos, out.value);
      if pred.Err? {
        return Some(pred.error);
      }
      srcLines := srcLines + [source.value];
      trgLines := trgLines + [target.value];
      predLines := predLines + [pred.value];
      return None;
    }

    /** One iteration of the batch loop: the streams go from the run over `batches[..i]` to the run over `batches[..i + 1]`. */
    method Advance(v: Vocab, batches: seq<Batch>, decode: Decoder, i: nat,
                   ghost src0: seq<string>, ghost trg0: seq<string>, ghost pred0: seq<string>,
                   ghost calls0: seq<DecodeCall>)
      returns (err: Option<Error>)
      requires Valid() && AllWellFormed(batches) && HasSpecials(v) && i < |batches|
      requires var r := RunSpec(v, batches[..i], decode);
        && r.error == None
        && srcLines == src0 + r.src && trgLines == trg0 + r.trg
        && predLines == pred0 + r.pred && decodeCalls == calls0 + r.calls
      modifies this
      ensures Valid()
      ensures var r := RunSpec(v, batches[..i + 1], decode);
        && srcLines == src0 + r.src && trgLines == trg0 + r.trg
        && predLines == pred0 + r.pred && decodeCalls == calls0 + r.calls
        && err == r.error
    {
      RunStep(v, batches, decode, i);
      err := ProcessBatch(v, batches[i], decode);
    }

    /** The batch loop of `main`: batches in order, stopping at the first error. */
    method Run(v: Vocab, batches: seq<Batch>, decode: Decoder) returns (err: Option<Error>)
      requires Valid() && AllWellFormed(batches) && HasSpecials(v)
      modifies this
      ensures Valid()
      ensures var r := RunSpec(v, batches, decode);
        && srcLines == old(srcLines) + r.src
        && trgLines == old(trgLines) + r.trg
        && predLines == old(predLines) + r.pred
        && decodeCalls == old(decodeCalls) + r.calls
        && err == r.error
    {
      var i := 0;
      err := None;
      while i < |batches| && err == None
        invariant 0 <= i <= |batches|
        invariant Valid()
        invariant var r := RunSpec(v, batches[..i], decode);
          && srcLines == old(srcLines) + r.src
          && trgLines == old(trgLines) + r.trg
          && predLines == old(predLines) + r.pred
          && decodeCalls == old(decodeCalls) + r.calls
          && err == r.error
      {
        err := Advance(v, batches, decode, i, old(srcLines), old(trgLines), old(predLines), old(decodeCalls));
        i := i + 1;
      }
      if err.Some? {
        ErrorSticks(v, batches, decode, i);
      } else {
        assert batches[..i] == batches;
      }
    }
  }

  /** While no batch has failed, one more batch extends each stream by its outcome. */
  lemma RunStep(v: Vocab, bs: seq<Batch>, decode: Decoder, i: nat)
    requires AllWellFormed(bs) && HasSpecials(v) && i < |bs|
    requires RunSpec(v, bs[..i], decode).error == None
    ensures var r0, r1, o := RunSpec(v, bs[..i], decode), RunSpec(v, bs[..i + 1], decode), ExampleOutcome(v, bs[i], decode);
      && r1.src == r0.src + SourceLines(o)
      && r1.trg == r0.trg + TargetLines(o)
      && r1.pred == r0.pred + PredLines(o)
      && r1.calls == r0.calls + CallsFor(v, bs[i])
      && r1.error == ErrorOf(o)
  {
    assert bs[..i + 1][..i] == bs[..i];
  }

  /** Once a batch has aborted the run, later batches change nothing. */
  lemma {:induction false} ErrorSticks(v: Vocab, bs: seq<Batch>, decode: Decoder, n: nat)
    requires AllWellFormed(bs) && HasSpecials(v) && n <= |bs|
    requires RunSpec(v, bs[..n], decode).error.Some?
    ensures RunSpec(v, bs, decode) == RunSpec(v, bs[..n], decode)
    decreases |bs|
  {
    if n < |bs| {
      var init := bs[..|bs| - 1];
      assert init[..n] == bs[..n];
      ErrorSticks(v, init, decode, n);
    } else {
      assert bs[..n] == bs;
    }
  }
}
