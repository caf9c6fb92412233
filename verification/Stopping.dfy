/** What a generation is, read off its tokens: what each one was drawn from, where it had to stop, and why. */
module Stopping {
  import opened Types
  import opened KvSpec
  import opened Generation

  // ---- one position ----

  /** Tokens that end a generation by themselves. */
  predicate IsStopToken(env: Env, p: Params, t: Token) {
    (env.isEog(t) && !p.ignoreEos) || t in p.stopTokenIds
  }

  /** The text state after the first k of the tokens `out` that follow g. */
  function TextAt(env: Env, p: Params, nPrompt: nat, g: Gen, out: seq<Token>, k: nat): (x: Text)
    requires nPrompt <= |g.tokens| && k <= |out|
  {
    if k == 0 then g.text
    else env.detok(TextAt(env, p, nPrompt, g, out, k - 1), out[k - 1], IsStopToken(env, p, out[k - 1]), |g.tokens| + k - nPrompt).0
  }

  /** The k-th of the tokens ends the generation: by itself, or because the text state reports a stop string. */
  predicate Stops(env: Env, p: Params, nPrompt: nat, g: Gen, out: seq<Token>, k: nat)
    requires nPrompt <= |g.tokens| && k < |out|
  {
    || IsStopToken(env, p, out[k])
    || env.detok(TextAt(env, p, nPrompt, g, out, k), out[k], IsStopToken(env, p, out[k]), |g.tokens| + k + 1 - nPrompt).1
  }

  /** With the k-th token the output is as long as asked for, or the context is full. */
  predicate Fills(env: Env, p: Params, nPrompt: nat, g: Gen, k: nat)
    requires nPrompt <= |g.tokens|
  {
    (p.maxTokens > 0 && |g.tokens| + k + 1 - nPrompt >= p.maxTokens) || |g.tokens| + k + 1 >= env.maxLen
  }

  /** The sampler state before the k-th token, and what it draws from the k-th row: end-of-generation tokens are masked
      exactly while fewer than minTokens tokens are out. */
  function SamplerAt(env: Env, p: Params, nPrompt: nat, g: Gen, out: seq<Token>, rows: seq<seq<KV>>, k: nat): (x: Sampler)
    requires nPrompt <= |g.tokens| && k <= |out| && k <= |rows|
    decreases k, 0
  {
    if k == 0 then g.sampler else DrawAt(env, p, nPrompt, g, out, rows, k - 1).1
  }

  function DrawAt(env: Env, p: Params, nPrompt: nat, g: Gen, out: seq<Token>, rows: seq<seq<KV>>, k: nat): (d: (Token, Sampler))
    requires nPrompt <= |g.tokens| && k < |out| && k < |rows|
    decreases k, 1
  {
    env.sample(SamplerAt(env, p, nPrompt, g, out, rows, k), rows[k], |g.tokens| + k - nPrompt < p.minTokens, g.tokens + out[..k], nPrompt)
  }

  // ---- a whole stretch ----

  /** From g, the tokens `out` were drawn one after the other from the given rows. No token but the last ended the
      generation, and none came after it was full; the last one tells why it is over, if it is. */
  ghost predicate Emits(env: Env, p: Params, nPrompt: nat, g: Gen, rows: seq<seq<KV>>, out: seq<Token>, r: Gen) {
    && nPrompt <= |g.tokens| && g.reason == NONE && |rows| == |out| && r.tokens == g.tokens + out
    && (forall k :: 0 <= k < |out| ==> out[k] == DrawAt(env, p, nPrompt, g, out, rows, k).0)
    && (forall k :: 0 <= k < |out| - 1 ==> !Stops(env, p, nPrompt, g, out, k) && !Fills(env, p, nPrompt, g, k))
    && r.sampler == SamplerAt(env, p, nPrompt, g, out, rows, |out|) && r.text == TextAt(env, p, nPrompt, g, out, |out|)
    && r.reason == Verdict(env, p, nPrompt, g, out)
  }

  function Verdict(env: Env, p: Params, nPrompt: nat, g: Gen, out: seq<Token>): (why: FinishReason)
    requires nPrompt <= |g.tokens|
  {
    if out == [] then NONE
    else if Stops(env, p, nPrompt, g, out, |out| - 1) then STOP
    else if Fills(env, p, nPrompt, g, |out| - 1) then LENGTH
    else NONE
  }

  lemma {:induction false} TextPrefix(env: Env, p: Params, nPrompt: nat, g: Gen, out: seq<Token>, t: Token, k: nat)
    requires nPrompt <= |g.tokens| && k <= |out|
    ensures TextAt(env, p, nPrompt, g, out + [t], k) == TextAt(env, p, nPrompt, g, out, k)
    ensures k < |out| ==> (Stops(env, p, nPrompt, g, out + [t], k) <==> Stops(env, p, nPrompt, g, out, k))
  {
    if k > 0 { TextPrefix(env, p, nPrompt, g, out, t, k - 1); }
  }

  lemma {:induction false} DrawPrefix(env: Env, p: Params, nPrompt: nat, g: Gen, out: seq<Token>, rows: seq<seq<KV>>, t: Token, row: seq<KV>, k: nat)
    requires nPrompt <= |g.tokens| && k <= |out| == |rows|
    ensures SamplerAt(env, p, nPrompt, g, out + [t], rows + [row], k) == SamplerAt(env, p, nPrompt, g, out, rows, k)
    ensures k < |out| ==> DrawAt(env, p, nPrompt, g, out + [t], rows + [row], k) == DrawAt(env, p, nPrompt, g, out, rows, k)
  {
    if k > 0 { DrawPrefix(env, p, nPrompt, g, out, rows, t, row, k - 1); }
    assert (out + [t])[..k] == out[..k];
  }

  /** One more token at the end: what it is drawn from, what it does to the text, and the verdict. */
  lemma EmitIs(env: Env, p: Params, nPrompt: nat, g: Gen, rows: seq<seq<KV>>, out: seq<Token>, r: Gen, row: seq<KV>, t: Token)
    requires nPrompt <= |g.tokens| && |rows| == |out| && r.tokens == g.tokens + out
    requires r.sampler == SamplerAt(env, p, nPrompt, g, out, rows, |out|) && r.text == TextAt(env, p, nPrompt, g, out, |out|)
    requires t == env.sample(r.sampler, row, |r.tokens| - nPrompt < p.minTokens, r.tokens, nPrompt).0
    ensures var r', out', rows' := Emit(env, p, nPrompt, r, row), out + [t], rows + [row];
      && r'.tokens == g.tokens + out' && t == DrawAt(env, p, nPrompt, g, out', rows', |out|).0
      && r'.sampler == SamplerAt(env, p, nPrompt, g, out', rows', |out'|) && r'.text == TextAt(env, p, nPrompt, g, out', |out'|)
      && r'.reason == Verdict(env, p, nPrompt, g, out')
  {
    var out', rows' := out + [t], rows + [row];
    TextPrefix(env, p, nPrompt, g, out, t, |out|);
    DrawPrefix(env, p, nPrompt, g, out, rows, t, row, |out|);
    assert out'[..|out|] == out && out'[|out|] == t && rows'[|out|] == row;
    assert r.tokens + [t] == g.tokens + out';
  }

  lemma EarlierSame(env: Env, p: Params, nPrompt: nat, g: Gen, rows: seq<seq<KV>>, out: seq<Token>, r: Gen, row: seq<KV>, t: Token)
    requires Emits(env, p, nPrompt, g, rows, out, r) && r.reason == NONE
    ensures var out', rows' := out + [t], rows + [row];
      && (forall k :: 0 <= k < |out| ==> out'[k] == DrawAt(env, p, nPrompt, g, out', rows', k).0)
      && (forall k :: 0 <= k < |out| ==> !Stops(env, p, nPrompt, g, out', k) && !Fills(env, p, nPrompt, g, k))
  {
    var out', rows' := out + [t], rows + [row];
    forall k | 0 <= k < |out|
      ensures out'[k] == DrawAt(env, p, nPrompt, g, out', rows', k).0
      ensures !Stops(env, p, nPrompt, g, out', k) && !Fills(env, p, nPrompt, g, k)
    {
      TextPrefix(env, p, nPrompt, g, out, t, k);
      DrawPrefix(env, p, nPrompt, g, out, rows, t, row, k);
      assert out'[k] == out[k];
    }
  }

  lemma EmitsNext(env: Env, p: Params, nPrompt: nat, g: Gen, rows: seq<seq<KV>>, out: seq<Token>, r: Gen, row: seq<KV>)
    requires Emits(env, p, nPrompt, g, rows, out, r) && r.reason == NONE
    ensures var r' := Emit(env, p, nPrompt, r, row);
      |r'.tokens| == |r.tokens| + 1 && Emits(env, p, nPrompt, g, rows + [row], out + [r'.tokens[|r.tokens|]], r')
  {
    var r' := Emit(env, p, nPrompt, r, row);
    var t := r'.tokens[|r.tokens|];
    EmitIs(env, p, nPrompt, g, rows, out, r, row, t);
    EarlierSame(env, p, nPrompt, g, rows, out, r, row, t);
  }

  ghost predicate WrapEmits(env: Env, p: Params, nPrompt: nat, g: Gen, rows: seq<seq<KV>>, out: seq<Token>, r: Gen, n: Layers)
    decreases n
  {
    match n case Bare => Emits(env, p, nPrompt, g, rows, out, r) case Over(m) => WrapEmits(env, p, nPrompt, g, rows, out, r, m)
  }

  /** Emits, closed. */
  ghost predicate Emitted(env: Env, p: Params, nPrompt: nat, g: Gen, rows: seq<seq<KV>>, out: seq<Token>, r: Gen) {
    WrapEmits(env, p, nPrompt, g, rows, out, r, Depth())
  }

  lemma {:induction false} UnwrapEmits(env: Env, p: Params, nPrompt: nat, g: Gen, rows: seq<seq<KV>>, out: seq<Token>, r: Gen, n: Layers)
    ensures WrapEmits(env, p, nPrompt, g, rows, out, r, n) <==> Emits(env, p, nPrompt, g, rows, out, r)
  {
    if n.Over? { UnwrapEmits(env, p, nPrompt, g, rows, out, r, n.under); }
  }

  lemma OpenEmitted(env: Env, p: Params, nPrompt: nat, g: Gen, rows: seq<seq<KV>>, out: seq<Token>, r: Gen)
    ensures Emitted(env, p, nPrompt, g, rows, out, r) <==> Emits(env, p, nPrompt, g, rows, out, r)
  {
    UnwrapEmits(env, p, nPrompt, g, rows, out, r, Depth());
  }

  lemma EmittedNone(env: Env, p: Params, nPrompt: nat, g: Gen)
    requires nPrompt <= |g.tokens| && g.reason == NONE
    ensures Emitted(env, p, nPrompt, g, [], [], g)
  {
    OpenEmitted(env, p, nPrompt, g, [], [], g);
  }

  /** What the engine does with one more row. */
  lemma EmittedNext(env: Env, p: Params, nPrompt: nat, g: Gen, rows: seq<seq<KV>>, out: seq<Token>, r: Gen, row: seq<KV>)
    requires Emitted(env, p, nPrompt, g, rows, out, r) && r.reason == NONE && nPrompt <= |r.tokens|
    ensures var r' := Emit(env, p, nPrompt, r, row);
      && r'.tokens == r.tokens + [r'.tokens[|r.tokens|]]
      && Emitted(env, p, nPrompt, g, rows + [row], out + [r'.tokens[|r.tokens|]], r')
  {
    var r' := Emit(env, p, nPrompt, r, row);
    OpenEmitted(env, p, nPrompt, g, rows, out, r);
    EmitsNext(env, p, nPrompt, g, rows, out, r, row);
    OpenEmitted(env, p, nPrompt, g, rows + [row], out + [r'.tokens[|r.tokens|]], r');
  }

  /** And nothing else has these tokens: the stretch without its last token, and the engine's own step. */
  lemma EmitsLast(env: Env, p: Params, nPrompt: nat, g: Gen, rows: seq<seq<KV>>, out: seq<Token>, row: seq<KV>, t: Token, r': Gen) returns (r: Gen)
    requires Emitted(env, p, nPrompt, g, rows + [row], out + [t], r') && |rows| == |out|
    ensures nPrompt <= |r.tokens| && r.tokens == g.tokens + out && r.reason == NONE
    ensures Emitted(env, p, nPrompt, g, rows, out, r) && r' == Emit(env, p, nPrompt, r, row)
  {
    var out', rows' := out + [t], rows + [row];
    OpenEmitted(env, p, nPrompt, g, rows', out', r');
    r := Gen(g.tokens + out, SamplerAt(env, p, nPrompt, g, out, rows, |out|), TextAt(env, p, nPrompt, g, out, |out|), NONE);
    forall k | 0 <= k < |out|
      ensures out[k] == DrawAt(env, p, nPrompt, g, out, rows, k).0
      ensures !Stops(env, p, nPrompt, g, out, k) && !Fills(env, p, nPrompt, g, k)
    {
      TextPrefix(env, p, nPrompt, g, out, t, k);
      DrawPrefix(env, p, nPrompt, g, out, rows, t, row, k);
      assert out'[k] == out[k];
    }
    assert t == DrawAt(env, p, nPrompt, g, out', rows', |out|).0 by { assert out'[|out|] == t; }
    DrawPrefix(env, p, nPrompt, g, out, rows, t, row, |out|);
    assert out'[..|out|] == out && rows'[|out|] == row;
    EmitIs(env, p, nPrompt, g, rows, out, r, row, t);
    OpenEmitted(env, p, nPrompt, g, rows, out, r);
  }

  // ---- a request's whole generation ----

  /** What the model says after each prefix: the rows of a run in isolation. */
  ghost function OwnRows(toks: seq<Token>, n: nat): (rows: seq<seq<KV>>)
    requires n <= |toks|
    ensures |rows| == |toks| - n
    decreases |toks|
  {
    if |toks| == n then [] else OwnRows(toks[..|toks| - 1], n) + [Ctx(toks[..|toks| - 1])]
  }

  lemma {:induction false} OwnRowAt(toks: seq<Token>, n: nat, k: nat)
    requires n <= |toks| && k < |toks| - n
    ensures OwnRows(toks, n)[k] == Ctx(toks[..n + k])
    decreases |toks|
  {
    var a := toks[..|toks| - 1];
    if k < |a| - n {
      OwnRowAt(a, n, k);
      assert a[..n + k] == toks[..n + k];
    }
  }

  /** g is what the submission g0 generates, each token drawn from the model's answer to exactly the tokens before it. */
  ghost predicate Decoded(env: Env, p: Params, g0: Gen, g: Gen) {
    var n := |g0.tokens|;
    n <= |g.tokens| && Emitted(env, p, n, g0, OwnRows(g.tokens, n), g.tokens[n..], g)
  }

  /** A stretch of the isolated run is exactly such a generation. */
  lemma TracedIsDecoded(env: Env, p: Params, g0: Gen, g: Gen)
    ensures Traced(env, p, g0, g) <==> Decoded(env, p, g0, g)
  {
    if Traced(env, p, g0, g) { RunDecodes(env, p, g0, |g.tokens| - |g0.tokens|, g); }
    if Decoded(env, p, g0, g) { DecodedRuns(env, p, g0, g); }
  }

  lemma {:induction false} RunDecodes(env: Env, p: Params, g0: Gen, n: nat, g: Gen)
    requires g0.reason == NONE && g == Isolated(env, p, |g0.tokens|, g0, n)
    ensures Decoded(env, p, g0, g)
    decreases n
  {
    if n == 0 {
      DecodedStart(env, p, g0);
    } else {
      var g1 := Isolated(env, p, |g0.tokens|, g0, n - 1);
      RunDecodes(env, p, g0, n - 1, g1);
      assert g == (if g1.reason == NONE then Emit(env, p, |g0.tokens|, g1, Ctx(g1.tokens)) else g1) by {
        IsolatedNext(env, p, |g0.tokens|, g0, n - 1);
      }
      if g1.reason == NONE { DecodedNext(env, p, g0, g1); }
    }
  }

  lemma DecodedStart(env: Env, p: Params, g0: Gen)
    requires g0.reason == NONE
    ensures Decoded(env, p, g0, g0)
  {
    assert g0.tokens[|g0.tokens|..] == [];
    EmittedNone(env, p, |g0.tokens|, g0);
  }

  lemma DecodedNext(env: Env, p: Params, g0: Gen, g: Gen)
    requires Decoded(env, p, g0, g) && g.reason == NONE
    ensures Decoded(env, p, g0, Emit(env, p, |g0.tokens|, g, Ctx(g.tokens)))
  {
    var b, row := |g0.tokens|, Ctx(g.tokens);
    var r := Emit(env, p, b, g, row);
    EmittedNext(env, p, b, g0, OwnRows(g.tokens, b), g.tokens[b..], g, row);
    assert r.tokens[..|r.tokens| - 1] == g.tokens;
    assert r.tokens[b..] == g.tokens[b..] + [r.tokens[|g.tokens|]];
  }

  lemma {:induction false} DecodedRuns(env: Env, p: Params, g0: Gen, g: Gen)
    requires Decoded(env, p, g0, g)
    ensures Traced(env, p, g0, g)
    decreases |g.tokens|
  {
    var b := |g0.tokens|;
    if |g.tokens| > b {
      var r := DecodedLast(env, p, g0, g);
      DecodedRuns(env, p, g0, r);
      IsolatedNext(env, p, b, g0, |r.tokens| - b);
    } else {
      OpenEmitted(env, p, b, g0, OwnRows(g.tokens, b), g.tokens[b..], g);
      assert g.tokens == g0.tokens + g.tokens[b..];
    }
  }

  lemma DecodedLast(env: Env, p: Params, g0: Gen, g: Gen) returns (r: Gen)
    requires Decoded(env, p, g0, g) && |g.tokens| > |g0.tokens|
    ensures Decoded(env, p, g0, r) && r.reason == NONE && |r.tokens| == |g.tokens| - 1
    ensures g == Emit(env, p, |g0.tokens|, r, Ctx(r.tokens))
  {
    var b, a, t := |g0.tokens|, g.tokens[..|g.tokens| - 1], g.tokens[|g.tokens| - 1];
    var rows, out, row := OwnRows(a, b), a[b..], Ctx(a);
    LastRow(env, p, g0, g, a, t);
    r := EmitsLast(env, p, b, g0, rows, out, row, t, g);
    SameTokens(env, p, g0, g, a, r);
  }

  lemma LastRow(env: Env, p: Params, g0: Gen, g: Gen, a: seq<Token>, t: Token)
    requires Decoded(env, p, g0, g) && |g0.tokens| <= |a| && g.tokens == a + [t]
    ensures Emitted(env, p, |g0.tokens|, g0, OwnRows(a, |g0.tokens|) + [Ctx(a)], a[|g0.tokens|..] + [t], g)
  {
    assert g.tokens[..|g.tokens| - 1] == a;
    LastAfter(g.tokens, |g0.tokens|);
  }

  lemma LastAfter(toks: seq<Token>, b: nat)
    requires b < |toks|
    ensures toks[b..] == toks[..|toks| - 1][b..] + [toks[|toks| - 1]]
  {
  }

  lemma SameTokens(env: Env, p: Params, g0: Gen, g: Gen, a: seq<Token>, r: Gen)
    requires Decoded(env, p, g0, g) && |g0.tokens| <= |a| == |g.tokens| - 1 && a == g.tokens[..|g.tokens| - 1]
    requires r.tokens == g0.tokens + a[|g0.tokens|..]
    ensures r.tokens == a && g0.reason == NONE
  {
    var b := |g0.tokens|;
    OpenEmitted(env, p, b, g0, OwnRows(g.tokens, b), g.tokens[b..], g);
    assert a[..b] == g.tokens[..b] == g0.tokens;
  }

  // ---- whatever the rows were ----

  /** Every request's generation, whether or not its rows were right: each token was drawn in turn, from some row. */
  ghost predicate Logs(env: Env, p: Params, g0: Gen, g: Gen) {
    |g0.tokens| <= |g.tokens| && exists rows :: Emitted(env, p, |g0.tokens|, g0, rows, g.tokens[|g0.tokens|..], g)
  }

  ghost predicate WrapLogs(env: Env, p: Params, g0: Gen, g: Gen, n: Layers)
    decreases n
  {
    match n case Bare => Logs(env, p, g0, g) case Over(m) => WrapLogs(env, p, g0, g, m)
  }

  /** Logs, closed. */
  ghost predicate Logged(env: Env, p: Params, g0: Gen, g: Gen) {
    WrapLogs(env, p, g0, g, Depth())
  }

  lemma {:induction false} UnwrapLogs(env: Env, p: Params, g0: Gen, g: Gen, n: Layers)
    ensures WrapLogs(env, p, g0, g, n) <==> Logs(env, p, g0, g)
  {
    if n.Over? { UnwrapLogs(env, p, g0, g, n.under); }
  }

  lemma OpenLogged(env: Env, p: Params, g0: Gen, g: Gen)
    ensures Logged(env, p, g0, g) <==> Logs(env, p, g0, g)
  {
    UnwrapLogs(env, p, g0, g, Depth());
  }

  lemma LoggedStart(env: Env, p: Params, g0: Gen)
    requires g0.reason == NONE
    ensures Logged(env, p, g0, g0)
  {
    OpenLogged(env, p, g0, g0);
    assert g0.tokens[|g0.tokens|..] == [];
    EmittedNone(env, p, |g0.tokens|, g0);
  }

  lemma LoggedNext(env: Env, p: Params, g0: Gen, g: Gen, row: seq<KV>)
    requires Logged(env, p, g0, g) && g.reason == NONE && |g0.tokens| <= |g.tokens|
    ensures Logged(env, p, g0, Emit(env, p, |g0.tokens|, g, row))
  {
    var b, r := |g0.tokens|, Emit(env, p, |g0.tokens|, g, row);
    OpenLogged(env, p, g0, g);
    var rows :| Emitted(env, p, b, g0, rows, g.tokens[b..], g);
    EmittedNext(env, p, b, g0, rows, g.tokens[b..], g, row);
    assert r.tokens[b..] == g.tokens[b..] + [r.tokens[|g.tokens|]];
    OpenLogged(env, p, g0, r);
  }

  /** Where a generation ends and why, by its tokens alone. It stops at the first token that ends it by itself or
      completes a stop string, else when there are maxTokens of them, else when the context is full. */
  ghost predicate EndsRight(env: Env, p: Params, g0: Gen, g: Gen) {
    && g0.tokens <= g.tokens && (g.reason == NONE || g.reason == STOP || g.reason == LENGTH)
    && var n, out := |g0.tokens|, g.tokens[|g0.tokens|..];
    && (p.maxTokens > 0 ==> |out| <= p.maxTokens) && (n < env.maxLen ==> |g.tokens| <= env.maxLen)
    && (forall k :: 0 <= k < |out| - 1 ==> GoesOnAfter(env, p, g0, out, k))
    && (g.reason == STOP <==> out != [] && Stops(env, p, n, g0, out, |out| - 1))
    && (g.reason == LENGTH <==>
         && out != [] && !Stops(env, p, n, g0, out, |out| - 1)
         && ((p.maxTokens > 0 && |out| == p.maxTokens) || |g.tokens| >= env.maxLen))
  }

  ghost predicate GoesOnAfter(env: Env, p: Params, g0: Gen, out: seq<Token>, k: nat)
    requires k < |out|
  {
    && !Stops(env, p, |g0.tokens|, g0, out, k)
    && (p.maxTokens > 0 ==> k + 1 < p.maxTokens) && |g0.tokens| + k + 1 < env.maxLen
  }

  lemma LoggedEnds(env: Env, p: Params, g0: Gen, g: Gen)
    requires Logged(env, p, g0, g)
    ensures EndsRight(env, p, g0, g)
  {
    OpenLogged(env, p, g0, g);
    var n, out := |g0.tokens|, g.tokens[|g0.tokens|..];
    var rows :| Emitted(env, p, n, g0, rows, out, g);
    OpenEmitted(env, p, n, g0, rows, out, g);
    forall k | 0 <= k < |out| - 1 ensures GoesOnAfter(env, p, g0, out, k) {
      assert !Stops(env, p, n, g0, out, k) && !Fills(env, p, n, g0, k);
    }
    if |out| > 1 { assert GoesOnAfter(env, p, g0, out, |out| - 2); }
  }
}
