/**
 * Rendering of one row of token ids as one line of text, as the evaluation
 * loop does it for the source, the reference and the hypothesis: skip
 * position 0 (the start symbol), look every further id up in `itos`, stop at
 * the first "</s>", write each kept token followed by one space, then one
 * newline.  Also the substring test that the unknown-token filter applies to
 * a rendered line.
 */
module Rendering {

  const Eos: string := "</s>"
  const Unk: string := "<unk>"

  /**
   * Looking an id up in `itos` fails when the id is not an index of it; the
   * decoder the loop calls may raise as well.
   */
  datatype Error = IndexOutOfRange(position: nat, id: nat) | DecodeFailed

  datatype Result<T> = Ok(value: T) | Err(error: Error)

  /** The text written for the kept tokens: every token followed by one space. */
  function Joined(toks: seq<string>): string
  {
    if toks == [] then "" else toks[0] + " " + Joined(toks[1..])
  }

  function Prefixed(acc: seq<string>, r: Result<seq<string>>): Result<seq<string>>
  {
    match r
    case Ok(ts) => Ok(acc + ts)
    case Err(e) => Err(e)
  }

  /**
   * The tokens kept from position `i` on: each id is looked up before it is
   * compared with "</s>", so an id outside `itos` is an error at its own
   * position, unless a "</s>" came before it.
   */
  function KeptFrom(itos: seq<string>, ids: seq<nat>, i: nat): Result<seq<string>>
    decreases |ids| - i
  {
    if i >= |ids| then Ok([])
    else if ids[i] >= |itos| then Err(IndexOutOfRange(i, ids[i]))
    else if itos[ids[i]] == Eos then Ok([])
    else Prefixed([itos[ids[i]]], KeptFrom(itos, ids, i + 1))
  }

  /** The tokens a row contributes to its line (the scan starts at position 1). */
  function KeptTokens(itos: seq<string>, ids: seq<nat>): Result<seq<string>>
  {
    KeptFrom(itos, ids, 1)
  }

  /** The line a row renders to, newline included. */
  function Render(itos: seq<string>, ids: seq<nat>): Result<string>
  {
    match KeptTokens(itos, ids)
    case Ok(ts) => Ok(Joined(ts) + "\n")
    case Err(e) => Err(e)
  }

  /** Positions lo..hi-1 hold ids of `itos` none of which is "</s>". */
  predicate Scanned(itos: seq<string>, ids: seq<nat>, lo: nat, hi: nat)
  {
    hi <= |ids| && forall k | lo <= k < hi :: ids[k] < |itos| && itos[ids[k]] != Eos
  }

  /** The tokens of positions lo..hi-1, in order. */
  function Lookup(itos: seq<string>, ids: seq<nat>, lo: nat, hi: nat): (toks: seq<string>)
    requires lo <= hi <= |ids|
    requires forall k | lo <= k < hi :: ids[k] < |itos|
    ensures |toks| == hi - lo
    ensures forall j | 0 <= j < hi - lo :: toks[j] == itos[ids[lo + j]]
  {
    seq(hi - lo, j requires 0 <= j < hi - lo => itos[ids[lo + j]])
  }

  /** Python's `pat in s` on strings: `pat` occurs in `s` at some offset. */
  predicate Contains(s: string, pat: string)
  {
    exists i | 0 <= i <= |s| - |pat| :: OccursAt(s, pat, i)
  }

  predicate OccursAt(s: string, pat: string, i: int)
  {
    0 <= i <= |s| - |pat| && s[i..i + |pat|] == pat
  }

  /**
   * The render loop of transformer_pred.py, written once for all three
   * streams.  It returns the error of the first id it cannot look up.
   */
  method RenderLine(itos: seq<string>, ids: seq<nat>) returns (r: Result<string>)
    ensures r == Render(itos, ids)
  {
    var line := "";
    ghost var kept: seq<string> := [];
    var i := 1;
    PrefixedEmpty(KeptFrom(itos, ids, i));
    while i < |ids|
      invariant 1 <= i
      invariant line == Joined(kept)
      invariant KeptTokens(itos, ids) == Prefixed(kept, KeptFrom(itos, ids, i))
    {
      if ids[i] >= |itos| {
        return Err(IndexOutOfRange(i, ids[i]));
      }
      var sym := itos[ids[i]];
      if sym == Eos {
        break;
      }
      PrefixedAppend(kept, sym, KeptFrom(itos, ids, i + 1));
      JoinedAppend(kept, sym);
      line := line + sym + " ";
      kept := kept + [sym];
      i := i + 1;
    }
    assert KeptFrom(itos, ids, i) == Ok([]);
    assert kept + [] == kept;
    line := line + "\n";
    return Ok(line);
  }

  lemma PrefixedEmpty(r: Result<seq<string>>)
    ensures Prefixed([], r) == r
  {
    if r.Ok? {
      assert [] + r.value == r.value;
    }
  }

  lemma PrefixedAppend(acc: seq<string>, t: string, r: Result<seq<string>>)
    ensures Prefixed(acc, Prefixed([t], r)) == Prefixed(acc + [t], r)
  {
    if r.Ok? {
      assert acc + ([t] + r.value) == (acc + [t]) + r.value;
    }
  }

  /** Appending a token to the kept ones appends that token and a space to the line. */
  lemma {:induction false} JoinedAppend(toks: seq<string>, t: string)
    ensures Joined(toks + [t]) == Joined(toks) + t + " "
  {
    if toks != [] {
      assert (toks + [t])[1..] == toks[1..] + [t];
      JoinedAppend(toks[1..], t);
    }
  }

  /** A scanned stretch of positions contributes exactly its tokens, in order. */
  lemma {:induction false} KeptFromScanned(itos: seq<string>, ids: seq<nat>, i: nat, e: nat)
    requires i <= e && Scanned(itos, ids, i, e)
    ensures KeptFrom(itos, ids, i) == Prefixed(Lookup(itos, ids, i, e), KeptFrom(itos, ids, e))
    decreases e - i
  {
    if i < e {
      KeptFromScanned(itos, ids, i + 1, e);
      var rest := KeptFrom(itos, ids, e);
      assert Lookup(itos, ids, i, e) == [itos[ids[i]]] + Lookup(itos, ids, i + 1, e);
      if rest.Ok? {
        assert [itos[ids[i]]] + (Lookup(itos, ids, i + 1, e) + rest.value)
            == ([itos[ids[i]]] + Lookup(itos, ids, i + 1, e)) + rest.value;
      }
    } else {
      assert Lookup(itos, ids, i, e) == [];
      if KeptFrom(itos, ids, e).Ok? {
        assert [] + KeptFrom(itos, ids, e).value == KeptFrom(itos, ids, e).value;
      }
    }
  }

  /**
   * With the first "</s>" after the start symbol at position `e`, the line
   * is the tokens of positions 1..e-1, each followed by a space, and a newline.
   */
  lemma RenderStopsAtFirstEos(itos: seq<string>, ids: seq<nat>, e: nat)
    requires 1 <= e < |ids| && Scanned(itos, ids, 1, e)
    requires ids[e] < |itos| && itos[ids[e]] == Eos
    ensures Render(itos, ids) == Ok(Joined(Lookup(itos, ids, 1, e)) + "\n")
  {
    KeptFromScanned(itos, ids, 1, e);
    assert Lookup(itos, ids, 1, e) + [] == Lookup(itos, ids, 1, e);
  }

  /** Without a "</s>" after the start symbol, every token from position 1 to the end is written. */
  lemma RenderWithoutEos(itos: seq<string>, ids: seq<nat>)
    requires 1 <= |ids| && Scanned(itos, ids, 1, |ids|)
    ensures Render(itos, ids) == Ok(Joined(Lookup(itos, ids, 1, |ids|)) + "\n")
  {
    KeptFromScanned(itos, ids, 1, |ids|);
    assert Lookup(itos, ids, 1, |ids|) + [] == Lookup(itos, ids, 1, |ids|);
  }

  /** Nothing at or after the first "</s>" (after the start symbol) affects the line. */
  lemma RenderIgnoresAfterEos(itos: seq<string>, ids: seq<nat>, e: nat, tail: seq<nat>)
    requires 1 <= e < |ids| && Scanned(itos, ids, 1, e)
    requires ids[e] < |itos| && itos[ids[e]] == Eos
    ensures Render(itos, ids[..e + 1] + tail) == Render(itos, ids)
  {
    var cut := ids[..e + 1] + tail;
    assert forall k | 0 <= k <= e :: cut[k] == ids[k];
    assert Scanned(itos, cut, 1, e);
    RenderStopsAtFirstEos(itos, ids, e);
    RenderStopsAtFirstEos(itos, cut, e);
    assert Lookup(itos, cut, 1, e) == Lookup(itos, ids, 1, e);
  }

  lemma {:induction false} KeptFromSameTail(itos: seq<string>, a: seq<nat>, b: seq<nat>, i: nat)
    requires |a| == |b| && forall k | i <= k < |a| :: a[k] == b[k]
    ensures KeptFrom(itos, a, i) == KeptFrom(itos, b, i)
    decreases |a| - i
  {
    if i < |a| {
      KeptFromSameTail(itos, a, b, i + 1);
    }
  }

  /** The id at position 0 (the start symbol) is never looked up: any id there gives the same line. */
  lemma RenderIgnoresStart(itos: seq<string>, ids: seq<nat>, x: nat)
    requires 1 <= |ids|
    ensures Render(itos, [x] + ids[1..]) == Render(itos, ids)
  {
    KeptFromSameTail(itos, [x] + ids[1..], ids, 1);
  }

  lemma {:induction false} KeptFromErr(itos: seq<string>, ids: seq<nat>, i: nat, p: nat, id: nat)
    requires KeptFrom(itos, ids, i) == Err(IndexOutOfRange(p, id))
    ensures i <= p < |ids| && Scanned(itos, ids, i, p) && ids[p] >= |itos| && id == ids[p]
    decreases |ids| - i
  {
    if ids[i] < |itos| {
      KeptFromErr(itos, ids, i + 1, p, id);
    }
  }

  /**
   * Rendering fails exactly when some position p >= 1 holds an id outside
   * `itos` and every position between the start symbol and p held a known
   * token other than "</s>"; the error names p and its id.
   */
  lemma RenderFailsIff(itos: seq<string>, ids: seq<nat>, p: nat, id: nat)
    ensures Render(itos, ids) == Err(IndexOutOfRange(p, id))
        <==> 1 <= p < |ids| && Scanned(itos, ids, 1, p) && ids[p] >= |itos| && id == ids[p]
  {
    if Render(itos, ids) == Err(IndexOutOfRange(p, id)) {
      KeptFromErr(itos, ids, 1, p, id);
    }
    if 1 <= p < |ids| && Scanned(itos, ids, 1, p) && ids[p] >= |itos| && id == ids[p] {
      KeptFromScanned(itos, ids, 1, p);
    }
  }

  /** The kept tokens, one space each, make the line longer than the newline alone. */
  lemma {:induction false} JoinedEmpty(toks: seq<string>)
    ensures Joined(toks) == "" <==> toks == []
  {
    if toks != [] {
      assert |Joined(toks)| >= 1;
    }
  }

  /** A line is the newline alone exactly when the row has no position 1 or holds "</s>" there. */
  lemma RenderBlankIff(itos: seq<string>, ids: seq<nat>)
    ensures Render(itos, ids) == Ok("\n")
        <==> |ids| <= 1 || (ids[1] < |itos| && itos[ids[1]] == Eos)
  {
    var r := KeptTokens(itos, ids);
    if r.Ok? {
      JoinedEmpty(r.value);
      assert Joined(r.value) + "\n" == "\n" ==> Joined(r.value) == "";
      assert Joined(r.value) == "" ==> Joined(r.value) + "\n" == "\n";
    }
  }

  /**
   * An occurrence of a pattern without `sep` in `a + [sep] + b` lies wholly in
   * `a` or wholly in `b`.
   */
  lemma ContainsAroundSeparator(a: string, b: string, sep: char, pat: string)
    requires |pat| > 0 && sep !in pat
    ensures Contains(a + [sep] + b, pat) <==> Contains(a, pat) || Contains(b, pat)
  {
    var s := a + [sep] + b;
    if Contains(s, pat) {
      var i: int :| OccursAt(s, pat, i);
      assert OccursAt(s, pat, i);
      if i + |pat| <= |a| {
        SliceOfLeft(a, b, sep, i, |pat|);
        assert OccursAt(a, pat, i);
      } else if i > |a| {
        var j := i - |a| - 1;
        SliceOfRight(a, b, sep, j, |pat|);
        assert OccursAt(b, pat, j);
      } else {
        SeparatorInOccurrence(s, pat, i, |a|);
      }
    }
    if Contains(a, pat) {
      var i: int :| OccursAt(a, pat, i);
      assert OccursAt(a, pat, i);
      assert 0 <= i <= |a| - |pat|;
      SliceOfLeft(a, b, sep, i, |pat|);
      assert OccursAt(s, pat, i);
    }
    if Contains(b, pat) {
      var j: int :| OccursAt(b, pat, j);
      assert OccursAt(b, pat, j);
      assert 0 <= j <= |b| - |pat|;
      var i := j + |a| + 1;
      SliceOfRight(a, b, sep, j, |pat|);
      assert OccursAt(s, pat, i);
    }
  }

  lemma SliceOfLeft(a: string, b: string, sep: char, i: nat, n: nat)
    requires i + n <= |a|
    ensures (a + [sep] + b)[i..i + n] == a[i..i + n]
  {
    var s := a + [sep] + b;
    assert s[..|a|] == a;
    assert s[i..i + n] == s[..|a|][i..i + n];
  }

  lemma SliceOfRight(a: string, b: string, sep: char, j: nat, n: nat)
    requires j + n <= |b|
    ensures (a + [sep] + b)[|a| + 1 + j..|a| + 1 + j + n] == b[j..j + n]
  {
    var s := a + [sep] + b;
    assert s[|a| + 1..] == b;
    assert s[|a| + 1 + j..|a| + 1 + j + n] == s[|a| + 1..][j..j + n];
  }

  lemma SeparatorInOccurrence(s: string, pat: string, i: int, pos: int)
    requires OccursAt(s, pat, i) && i <= pos < i + |pat|
    ensures s[pos] in pat
  {
    assert pat[pos - i] == s[pos];
  }

  lemma NoPatternInNewline(pat: string)
    requires |pat| > 0 && '\n' !in pat
    ensures !Contains("\n", pat)
  {
    if |pat| == 1 {
      assert pat[0] in pat;
      assert "\n"[0..1][0] == '\n';
      assert !OccursAt("\n", pat, 0);
    }
  }

  /**
   * A pattern with no space and no newline occurs in a rendered line exactly
   * when it occurs in one of the kept tokens.
   */
  lemma {:induction false} JoinedContains(toks: seq<string>, pat: string)
    requires |pat| > 0 && ' ' !in pat && '\n' !in pat
    ensures Contains(Joined(toks) + "\n", pat) <==> exists k | 0 <= k < |toks| :: Contains(toks[k], pat)
  {
    if toks == [] {
      assert Joined(toks) + "\n" == "\n";
      NoPatternInNewline(pat);
    } else {
      JoinedContains(toks[1..], pat);
      assert Joined(toks) + "\n" == toks[0] + [' '] + (Joined(toks[1..]) + "\n");
      ContainsAroundSeparator(toks[0], Joined(toks[1..]) + "\n", ' ', pat);
      if exists k | 0 <= k < |toks| :: Contains(toks[k], pat) {
        var k :| 0 <= k < |toks| && Contains(toks[k], pat);
        if k > 0 {
          assert toks[1..][k - 1] == toks[k];
        }
      }
      if exists k | 0 <= k < |toks| - 1 :: Contains(toks[1..][k], pat) {
        var k :| 0 <= k < |toks| - 1 && Contains(toks[1..][k], pat);
        assert toks[k + 1] == toks[1..][k];
      }
    }
  }

  /**
   * The unknown-token test on a rendered line holds exactly when one of the
   * kept tokens contains "<unk>": separators never create an occurrence.
   */
  lemma RenderContainsUnkIff(itos: seq<string>, ids: seq<nat>, line: string)
    requires Render(itos, ids) == Ok(line)
    ensures KeptTokens(itos, ids).Ok?
    ensures var toks := KeptTokens(itos, ids).value;
      Contains(line, Unk) <==> exists k | 0 <= k < |toks| :: Contains(toks[k], Unk)
  {
    JoinedContains(KeptTokens(itos, ids).value, Unk);
  }
}
