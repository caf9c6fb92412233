/** One request's decode: what a sampled token does to it, and its isolated one-token-at-a-time run. */
module Generation {
  import opened Types
  import opened KvSpec

  datatype FinishReason = NONE | STOP | LENGTH | ABORT | ERROR

  /** The sampling parameters the step loop itself consults; maxTokens is -1 when unlimited. */
  datatype Params = Params(minTokens: int, maxTokens: int, ignoreEos: bool, stopTokenIds: seq<Token>)

  type Sampler = nat   // an encoding of the RNG and grammar state
  type Text = nat      // an encoding of the detokenizer and stop-string state

  /** The deterministic parts the engine calls: `sample` picks a token from a logits row (a function of the KV
      entries attended), told whether end-of-generation tokens are masked; `detok` feeds a token to the text
      state and reports a stop-string match. */
  datatype Env = Env(
    maxLen: nat,
    isEog: Token -> bool,
    sample: (Sampler, seq<KV>, bool, seq<Token>, nat) -> (Token, Sampler),
    detok: (Text, Token, bool, nat) -> (Text, bool))

  datatype Gen = Gen(tokens: seq<Token>, sampler: Sampler, text: Text, reason: FinishReason)

  /** Samples one token from `row` and runs the stop checks in the engine's order. */
  function Emit(env: Env, p: Params, nPrompt: nat, g: Gen, row: seq<KV>): (r: Gen)
    requires nPrompt <= |g.tokens|
    ensures r.reason == NONE || r.reason == STOP || r.reason == LENGTH
  {
    var (tok, sampler) := env.sample(g.sampler, row, |g.tokens| - nPrompt < p.minTokens, g.tokens, nPrompt);
    var tokens := g.tokens + [tok];
    var nOutput := |tokens| - nPrompt;
    var stopTok := (env.isEog(tok) && !p.ignoreEos) || tok in p.stopTokenIds;
    var (text, stopStr) := env.detok(g.text, tok, stopTok, nOutput);
    Gen(tokens, sampler, text,
        if stopTok || stopStr then STOP
        else if p.maxTokens > 0 && nOutput >= p.maxTokens then LENGTH
        else if |tokens| >= env.maxLen then LENGTH
        else NONE)
  }

  /** The reference: decode alone, one token per step, each from the full prefix, until a stop decision or for
      n steps. */
  function Isolated(env: Env, p: Params, nPrompt: nat, g: Gen, n: nat): (r: Gen)
    requires nPrompt <= |g.tokens|
    ensures nPrompt <= |r.tokens|
    decreases n
  {
    if n == 0 || g.reason != NONE then g
    else Isolated(env, p, nPrompt, Emit(env, p, nPrompt, g, Ctx(g.tokens)), n - 1)
  }

  lemma {:induction false} IsolatedNext(env: Env, p: Params, nPrompt: nat, g: Gen, n: nat)
    requires nPrompt <= |g.tokens|
    ensures var r := Isolated(env, p, nPrompt, g, n);
      Isolated(env, p, nPrompt, g, n + 1) == if r.reason == NONE then Emit(env, p, nPrompt, r, Ctx(r.tokens)) else r
    decreases n
  {
    if n > 0 && g.reason == NONE {
      IsolatedNext(env, p, nPrompt, Emit(env, p, nPrompt, g, Ctx(g.tokens)), n - 1);
    }
  }

  lemma {:induction false} IsolatedAdd(env: Env, p: Params, nPrompt: nat, g: Gen, n: nat, m: nat)
    requires nPrompt <= |g.tokens|
    ensures Isolated(env, p, nPrompt, Isolated(env, p, nPrompt, g, n), m) == Isolated(env, p, nPrompt, g, n + m)
    decreases n
  {
    if n > 0 && g.reason == NONE {
      var g1 := Emit(env, p, nPrompt, g, Ctx(g.tokens));
      assert Isolated(env, p, nPrompt, g, n + m) == Isolated(env, p, nPrompt, g1, n - 1 + m);
      IsolatedAdd(env, p, nPrompt, g1, n - 1, m);
    }
  }

  /** A finished isolated run is final: more steps change nothing. */
  lemma {:induction false} IsolatedFinal(env: Env, p: Params, nPrompt: nat, g: Gen, n: nat, m: nat)
    requires nPrompt <= |g.tokens| && n <= m && Isolated(env, p, nPrompt, g, n).reason != NONE
    ensures Isolated(env, p, nPrompt, g, m) == Isolated(env, p, nPrompt, g, n)
    decreases m - n
  {
    if n < m {
      IsolatedNext(env, p, nPrompt, g, n);
      IsolatedFinal(env, p, nPrompt, g, n + 1, m);
    }
  }

  /** g is where the isolated run from g0 stands after emitting as many tokens as g has. */
  ghost predicate Traced(env: Env, p: Params, g0: Gen, g: Gen) {
    && |g0.tokens| <= |g.tokens| && g0.reason == NONE
    && g == Isolated(env, p, |g0.tokens|, g0, |g.tokens| - |g0.tokens|)
  }

  lemma TracedOn(env: Env, p: Params, g0: Gen, g: Gen, g': Gen)
    requires Traced(env, p, g0, g) && |g.tokens| <= |g'.tokens|
    requires g' == Isolated(env, p, |g0.tokens|, g, |g'.tokens| - |g.tokens|)
    ensures Traced(env, p, g0, g')
  {
    var n, m := |g.tokens| - |g0.tokens|, |g'.tokens| - |g.tokens|;
    IsolatedChain(env, p, |g0.tokens|, g0, g, g', n, m);
    assert n + m == |g'.tokens| - |g0.tokens|;
  }

  lemma IsolatedChain(env: Env, p: Params, nPrompt: nat, g0: Gen, g: Gen, g': Gen, n: nat, m: nat)
    requires nPrompt <= |g0.tokens| && nPrompt <= |g.tokens|
    requires g == Isolated(env, p, nPrompt, g0, n) && g' == Isolated(env, p, nPrompt, g, m)
    ensures g' == Isolated(env, p, nPrompt, g0, n + m)
  {
    IsolatedAdd(env, p, nPrompt, g0, n, m);
  }

  /** Two runs of the same submission that both stopped stopped at the same point, whatever came in between. */
  lemma TracedUnique(env: Env, p: Params, g0: Gen, g: Gen, g': Gen)
    requires Traced(env, p, g0, g) && Traced(env, p, g0, g') && g.reason != NONE && g'.reason != NONE
    ensures g == g'
  {
    var n, m := |g.tokens| - |g0.tokens|, |g'.tokens| - |g0.tokens|;
    if n <= m { IsolatedFinal(env, p, |g0.tokens|, g0, n, m); } else { IsolatedFinal(env, p, |g0.tokens|, g0, m, n); }
  }

  /** Of two points on the same run, the one with more tokens continues the other. */
  lemma TracedAhead(env: Env, p: Params, g0: Gen, g: Gen, g': Gen)
    requires Traced(env, p, g0, g) && Traced(env, p, g0, g') && |g.tokens| <= |g'.tokens|
    ensures g.tokens <= g'.tokens
  {
    var n, m := |g.tokens| - |g0.tokens|, |g'.tokens| - |g.tokens|;
    IsolatedAdd(env, p, |g0.tokens|, g0, n, m);
    IsolatedGrows(env, p, |g0.tokens|, g, m);
  }

  lemma {:induction false} IsolatedGrows(env: Env, p: Params, nPrompt: nat, g: Gen, n: nat)
    requires nPrompt <= |g.tokens|
    ensures g.tokens <= Isolated(env, p, nPrompt, g, n).tokens
    decreases n
  {
    if n > 0 && g.reason == NONE { IsolatedGrows(env, p, nPrompt, Emit(env, p, nPrompt, g, Ctx(g.tokens)), n - 1); }
  }
}
