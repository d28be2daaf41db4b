/**
 * What the batch loop promises about its three output streams and about the
 * calls it makes to the decoder, stated over `RunSpec` and `ExampleOutcome`.
 */
module RunProperties {
  import opened Rendering
  import opened Driver

  /** Some kept token contains "<unk>". */
  predicate HasUnkToken(toks: seq<string>)
  {
    exists k | 0 <= k < |toks| :: Contains(toks[k], Unk)
  }

  /**
   * An example is dropped exactly when a kept token of its source or of its
   * target contains "<unk>"; otherwise it goes on to decoding.
   */
  lemma FilterDropIff(v: Vocab, b: Batch)
    requires WellFormed(b)
    requires Render(v.itos, Column0(b.src)).Ok? && Render(v.itos, Column0(b.trg)).Ok?
    ensures KeptTokens(v.itos, Column0(b.src)).Ok? && KeptTokens(v.itos, Column0(b.trg)).Ok?
    ensures Filter(v, b).Drop?
        <==> HasUnkToken(KeptTokens(v.itos, Column0(b.src)).value)
             || HasUnkToken(KeptTokens(v.itos, Column0(b.trg)).value)
    ensures Filter(v, b).Keep? <==> !Filter(v, b).Drop?
  {
    RenderContainsUnkIff(v.itos, Column0(b.src), Render(v.itos, Column0(b.src)).value);
    RenderContainsUnkIff(v.itos, Column0(b.trg), Render(v.itos, Column0(b.trg)).value);
  }

  /**
   * A source rendering that contains "<unk>" drops the example before the
   * target is even rendered: no line is written and the decoder is not called.
   */
  lemma UnkSourceSkipped(v: Vocab, b: Batch, decode: Decoder, source: string)
    requires WellFormed(b) && HasSpecials(v)
    requires Render(v.itos, Column0(b.src)) == Ok(source) && Contains(source, Unk)
    ensures ExampleOutcome(v, b, decode) == Skipped
    ensures CallsFor(v, b) == []
  {
  }

  /** A target rendering that contains "<unk>" drops the example: no line, no decoder call. */
  lemma UnkTargetSkipped(v: Vocab, b: Batch, decode: Decoder, source: string, target: string)
    requires WellFormed(b) && HasSpecials(v)
    requires Render(v.itos, Column0(b.src)) == Ok(source) && !Contains(source, Unk)
    requires Render(v.itos, Column0(b.trg)) == Ok(target) && Contains(target, Unk)
    ensures ExampleOutcome(v, b, decode) == Skipped
    ensures CallsFor(v, b) == []
  {
  }

  /**
   * An example without "<unk>" is decoded once, with max_len 60, start symbol
   * stoi["<s>"] and the pad mask of its source; it writes its three
   * renderings when the decoder returns and the hypothesis renders, and
   * fails otherwise.
   */
  lemma KeptExampleDecoded(v: Vocab, b: Batch, decode: Decoder, source: string, target: string)
    requires WellFormed(b) && HasSpecials(v)
    requires Render(v.itos, Column0(b.src)) == Ok(source) && !Contains(source, Unk)
    requires Render(v.itos, Column0(b.trg)) == Ok(target) && !Contains(target, Unk)
    ensures var src := Column0(b.src);
      CallsFor(v, b) == [DecodeCall(src, SourceMask(src, v.stoi[Blank]), MaxLen, v.stoi[Bos])]
    ensures var out := decode(Column0(b.src), SourceMask(Column0(b.src), v.stoi[Blank]), MaxLen, v.stoi[Bos]);
      ExampleOutcome(v, b, decode) == match out
        case Err(e) => Failed(e)
        case Ok(ids) =>
          match Render(v.itos, ids)
          case Ok(pred) => Written(source, target, pred)
          case Err(e) => Failed(e)
  {
  }

  /** Only example 0 of a batch is read: batches that agree on it are treated alike. */
  lemma OnlyColumn0Read(v: Vocab, b1: Batch, b2: Batch, decode: Decoder)
    requires WellFormed(b1) && WellFormed(b2) && HasSpecials(v)
    requires Column0(b1.src) == Column0(b2.src) && Column0(b1.trg) == Column0(b2.trg)
    ensures ExampleOutcome(v, b1, decode) == ExampleOutcome(v, b2, decode)
    ensures CallsFor(v, b1) == CallsFor(v, b2)
  {
  }

  /**
   * The three streams always have the same number of lines, and each batch
   * adds at most one line to each.
   */
  lemma {:induction false} RunAligned(v: Vocab, bs: seq<Batch>, decode: Decoder)
    requires AllWellFormed(bs) && HasSpecials(v)
    ensures var r := RunSpec(v, bs, decode);
      |r.src| == |r.trg| == |r.pred| <= |bs|
  {
    if bs != [] {
      RunAligned(v, bs[..|bs| - 1], decode);
    }
  }

  /** A run in which no batch fails ends without an error. */
  lemma {:induction false} RunNoError(v: Vocab, bs: seq<Batch>, decode: Decoder)
    requires AllWellFormed(bs) && HasSpecials(v)
    requires forall j | 0 <= j < |bs| :: !ExampleOutcome(v, bs[j], decode).Failed?
    ensures RunSpec(v, bs, decode).error == None
    decreases |bs|
  {
    if bs != [] {
      var init := bs[..|bs| - 1];
      assert forall j | 0 <= j < |init| :: init[j] == bs[j];
      RunNoError(v, init, decode);
    }
  }

  /**
   * The batches whose own outcome is `Written`, in increasing order, each once.
   * In a run without failure these are exactly the batches that wrote lines
   * (`RunLinesFromWritten`); batches after a failure are listed too, though the run never reaches them.
   */
  lemma {:induction false} WrittenIndicesOrdered(v: Vocab, bs: seq<Batch>, decode: Decoder)
    requires AllWellFormed(bs) && HasSpecials(v)
    ensures var w := WrittenIndices(v, bs, decode);
      && (forall k | 0 <= k < |w| :: w[k] < |bs|)
      && (forall k1, k2 | 0 <= k1 < k2 < |w| :: w[k1] < w[k2])
      && (forall j | 0 <= j < |bs| :: ExampleOutcome(v, bs[j], decode).Written? <==> j in w)
    decreases |bs|
  {
    if bs != [] {
      var init := bs[..|bs| - 1];
      assert forall j | 0 <= j < |init| :: init[j] == bs[j];
      WrittenIndicesOrdered(v, init, decode);
    }
  }

  /**
   * In a run where no batch fails, line k of each stream is the matching
   * rendering of written batch k, and decoder call k is that batch's request.
   */
  lemma {:induction false} RunLinesFromWritten(v: Vocab, bs: seq<Batch>, decode: Decoder)
    requires AllWellFormed(bs) && HasSpecials(v)
    requires forall j | 0 <= j < |bs| :: !ExampleOutcome(v, bs[j], decode).Failed?
    ensures var r, w := RunSpec(v, bs, decode), WrittenIndices(v, bs, decode);
      && |w| == |r.src| == |r.trg| == |r.pred| == |r.calls|
      && (forall k | 0 <= k < |w| ::
            && w[k] < |bs|
            && ExampleOutcome(v, bs[w[k]], decode) == Written(r.src[k], r.trg[k], r.pred[k])
            && r.calls[k] == Request(v, bs[w[k]]))
    decreases |bs|
  {
    if bs != [] {
      var init := bs[..|bs| - 1];
      var last := bs[|bs| - 1];
      assert forall j | 0 <= j < |init| :: init[j] == bs[j];
      RunLinesFromWritten(v, init, decode);
      RunNoError(v, init, decode);
      var r0, w0 := RunSpec(v, init, decode), WrittenIndices(v, init, decode);
      var o := ExampleOutcome(v, last, decode);
      assert o.Written? <==> Filter(v, last).Keep?;
      var r, w := RunSpec(v, bs, decode), WrittenIndices(v, bs, decode);
      assert r.src == r0.src + SourceLines(o) && r.calls == r0.calls + CallsFor(v, last);
      assert w == w0 + (if o.Written? then [|bs| - 1] else []);
      forall k | 0 <= k < |w|
        ensures w[k] < |bs|
        ensures ExampleOutcome(v, bs[w[k]], decode) == Written(r.src[k], r.trg[k], r.pred[k])
        ensures r.calls[k] == Request(v, bs[w[k]])
      {
        if k < |w0| {
          assert w[k] == w0[k] && bs[w[k]] == init[w0[k]];
        }
      }
    }
  }

  /**
   * In a run where no batch fails, line k of the three streams comes from
   * batch w[k] (w the written batches in iteration order), which renders to
   * exactly those three lines; every batch that writes appears in w; and the
   * decoder calls are those of the same batches.
   */
  lemma RunWithoutFailure(v: Vocab, bs: seq<Batch>, decode: Decoder)
    requires AllWellFormed(bs) && HasSpecials(v)
    requires forall j | 0 <= j < |bs| :: !ExampleOutcome(v, bs[j], decode).Failed?
    ensures var r, w := RunSpec(v, bs, decode), WrittenIndices(v, bs, decode);
      && r.error == None
      && |w| == |r.src| == |r.trg| == |r.pred| == |r.calls|
      && (forall k | 0 <= k < |w| ::
            && w[k] < |bs|
            && ExampleOutcome(v, bs[w[k]], decode) == Written(r.src[k], r.trg[k], r.pred[k])
            && r.calls[k] == Request(v, bs[w[k]]))
      && (forall k1, k2 | 0 <= k1 < k2 < |w| :: w[k1] < w[k2])
      && (forall j | 0 <= j < |bs| :: ExampleOutcome(v, bs[j], decode).Written? <==> j in w)
  {
    RunNoError(v, bs, decode);
    WrittenIndicesOrdered(v, bs, decode);
    RunLinesFromWritten(v, bs, decode);
  }

  /**
   * The first failing batch ends the run: its error is the run's error, the
   * streams hold what the batches before it wrote, and the decoder calls are
   * those before it plus its own (a hypothesis that fails to render was decoded).
   */
  lemma RunStopsAtFirstFailure(v: Vocab, bs: seq<Batch>, decode: Decoder, f: nat)
    requires AllWellFormed(bs) && HasSpecials(v)
    requires f < |bs| && ExampleOutcome(v, bs[f], decode).Failed?
    requires forall j | 0 <= j < f :: !ExampleOutcome(v, bs[j], decode).Failed?
    ensures var r, before := RunSpec(v, bs, decode), RunSpec(v, bs[..f], decode);
      && r.error == Some(ExampleOutcome(v, bs[f], decode).error)
      && r.src == before.src && r.trg == before.trg && r.pred == before.pred
      && r.calls == before.calls + CallsFor(v, bs[f])
  {
    var pre := bs[..f];
    assert forall j | 0 <= j < f :: pre[j] == bs[j];
    RunWithoutFailure(v, pre, decode);
    assert bs[..f + 1][..f] == pre;
    assert bs[..f + 1][f] == bs[f];
    assert RunSpec(v, bs[..f + 1], decode) == Step(RunSpec(v, pre, decode), v, bs[f], decode);
    ErrorSticks(v, bs, decode, f + 1);
  }

  /** A decoder call made with max_len 60, start symbol stoi["<s>"] and the pad mask of its source. */
  predicate ShapedCall(v: Vocab, c: DecodeCall)
    requires HasSpecials(v)
  {
    c.maxLen == MaxLen && c.startSymbol == v.stoi[Bos] && c.mask == SourceMask(c.src, v.stoi[Blank])
  }

  /** Every decoder call of a run is shaped so. */
  lemma {:induction false} RunCallsShape(v: Vocab, bs: seq<Batch>, decode: Decoder)
    requires AllWellFormed(bs) && HasSpecials(v)
    ensures forall c | c in RunSpec(v, bs, decode).calls :: ShapedCall(v, c)
    decreases |bs|
  {
    if bs != [] {
      var init := bs[..|bs| - 1];
      RunCallsShape(v, init, decode);
      var r0 := RunSpec(v, init, decode);
      var extra := if r0.error.Some? then [] else CallsFor(v, bs[|bs| - 1]);
      assert RunSpec(v, bs, decode).calls == r0.calls + extra;
      assert forall c | c in extra :: c == Request(v, bs[|bs| - 1]);
    }
  }

  /** `k` copies of `x`. */
  function Repeat<T>(x: T, k: nat): (r: seq<T>)
    ensures |r| == k && forall i | 0 <= i < k :: r[i] == x
  {
    if k == 0 then [] else [x] + Repeat(x, k - 1)
  }

  /**
   * On a right-padded source row the mask is true over the tokens and false
   * over the padding.
   */
  lemma MaskOfPaddedRow(s: seq<nat>, pad: nat, k: nat)
    requires forall i | 0 <= i < |s| :: s[i] != pad
    ensures SourceMask(s + Repeat(pad, k), pad) == Repeat(true, |s|) + Repeat(false, k)
  {
    var row := s + Repeat(pad, k);
    var want := Repeat(true, |s|) + Repeat(false, k);
    var mask := SourceMask(row, pad);
    assert |mask| == |want|;
    forall i | 0 <= i < |row|
      ensures mask[i] == want[i]
    {
      if i < |s| {
        assert row[i] == s[i] && want[i];
      } else {
        assert row[i] == pad && !want[i];
      }
    }
    assert mask == want;
  }

  /** A toy vocabulary: <s> 0, </s> 1, <blank> 2, <unk> 3, hi 4, there 5. */
  const ToyItos: seq<string> := ["<s>", "</s>", "<blank>", "<unk>", "hi", "there"]

  /** A decoded row that says "hi there" and then repeats </s>. */
  const ToyHypothesis: seq<nat> := [0, 4, 5, 1, 1]

  /**
   * The row <s> hi there </s> </s> renders as "hi there \n": every kept
   * token is followed by a space, the last one included.
   */
  lemma ToyHypothesisRender()
    ensures Render(ToyItos, ToyHypothesis) == Ok("hi there \n")
  {
    assert Scanned(ToyItos, ToyHypothesis, 1, 3);
    RenderStopsAtFirstEos(ToyItos, ToyHypothesis, 3);
    assert Lookup(ToyItos, ToyHypothesis, 1, 3) == ["hi", "there"];
    assert Joined(["there"]) == "there ";
    assert Joined(["hi", "there"]) == "hi " + Joined(["there"]);
    assert Render(ToyItos, ToyHypothesis) == Ok(Joined(["hi", "there"]) + "\n");
    assert "hi " + "there " + "\n" == "hi there \n";
  }

  /** The decoder as the script binds it: `greedy_decode` is never imported, so every call raises. */
  function UnboundDecoder(src: seq<nat>, mask: seq<bool>, maxLen: nat, start: nat): Result<seq<nat>>
  {
    Err(DecodeFailed)
  }

  /** With every decoder call failing, no line is ever written to any of the three files. */
  lemma {:induction false} UnboundDecoderWritesNothing(v: Vocab, bs: seq<Batch>)
    requires AllWellFormed(bs) && HasSpecials(v)
    ensures var r := RunSpec(v, bs, UnboundDecoder);
      r.src == [] && r.trg == [] && r.pred == []
    decreases |bs|
  {
    if bs != [] {
      var init := bs[..|bs| - 1];
      assert forall j | 0 <= j < |init| :: init[j] == bs[j];
      UnboundDecoderWritesNothing(v, init);
    }
  }
}
