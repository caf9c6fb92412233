/** Answering one scheduled request: sampling a row per draft position and keeping what the samples confirm. */
module Speculation {
  import opened Types
  import opened KvSpec
  import opened Generation
  import opened Stopping

  /** Row j was computed from the real tokens and the first j drafts. */
  ghost predicate RowsExact(tokens: seq<Token>, drafts: seq<Token>, rows: seq<seq<KV>>) {
    |rows| <= |drafts| + 1 && forall j :: 0 <= j < |rows| ==> rows[j] == Ctx(tokens + drafts)[..|tokens| + j]
  }

  /** As long as every draft was confirmed, the next row is the isolated run's own. */
  lemma RowIsOwn(tokens: seq<Token>, drafts: seq<Token>, rows: seq<seq<KV>>, k: nat, now: seq<Token>)
    requires k < |rows| == |drafts| + 1 && RowsExact(tokens, drafts, rows) && now == tokens + drafts[..k]
    ensures rows[k] == Ctx(now)
  {
    CtxPrefix(tokens + drafts, |tokens| + k);
    assert (tokens + drafts)[..|tokens| + k] == now;
  }

  lemma EmitFacts(env: Env, p: Params, nPrompt: nat, g: Gen, row: seq<KV>)
    requires nPrompt <= |g.tokens|
    ensures var r := Emit(env, p, nPrompt, g, row);
      |r.tokens| == |g.tokens| + 1 && g.tokens <= r.tokens && (r.reason == NONE ==> |r.tokens| < env.maxLen)
  {
  }

  /** One more sample while every draft so far was confirmed. */
  lemma NextSample(env: Env, p: Params, nPrompt: nat, g: Gen, drafts: seq<Token>, rows: seq<seq<KV>>, k: nat, now: Gen)
    requires nPrompt <= |g.tokens| && k <= |drafts| && |rows| == |drafts| + 1 && now.reason == NONE
    requires now.tokens == g.tokens + drafts[..k] && (RowsExact(g.tokens, drafts, rows) ==> now == Isolated(env, p, nPrompt, g, k))
    ensures var r := Emit(env, p, nPrompt, now, rows[k]);
      && |r.tokens| == |g.tokens| + k + 1 && r.tokens[..|g.tokens| + k] == g.tokens + drafts[..k]
      && (r.reason == NONE ==> |r.tokens| < env.maxLen)
      && (RowsExact(g.tokens, drafts, rows) ==> r == Isolated(env, p, nPrompt, g, k + 1))
      && (k < |drafts| && r.tokens[|g.tokens| + k] == drafts[k] ==> r.tokens == g.tokens + drafts[..k + 1])
  {
    EmitFacts(env, p, nPrompt, now, rows[k]);
    IsolatedNext(env, p, nPrompt, g, k);
    if RowsExact(g.tokens, drafts, rows) { RowIsOwn(g.tokens, drafts, rows, k, now.tokens); }
    if k < |drafts| { assert drafts[..k + 1] == drafts[..k] + [drafts[k]]; }
  }

  /** The token sampled from row k extends what has been emitted since g, and the request's whole record. */
  lemma SampleLogged(env: Env, p: Params, g0: Gen, g: Gen, rows: seq<seq<KV>>, k: nat, now: Gen)
    requires |g0.tokens| <= |g.tokens| && k < |rows| && now.reason == NONE && Logged(env, p, g0, now)
    requires |now.tokens| == |g.tokens| + k && Emitted(env, p, |g0.tokens|, g, rows[..k], now.tokens[|g.tokens|..], now)
    ensures var r := Emit(env, p, |g0.tokens|, now, rows[k]);
      && |r.tokens| == |g.tokens| + k + 1 && Logged(env, p, g0, r)
      && Emitted(env, p, |g0.tokens|, g, rows[..k + 1], r.tokens[|g.tokens|..], r)
  {
    var r := Emit(env, p, |g0.tokens|, now, rows[k]);
    EmittedNext(env, p, |g0.tokens|, g, rows[..k], now.tokens[|g.tokens|..], now, rows[k]);
    LoggedNext(env, p, g0, now, rows[k]);
    assert rows[..k + 1] == rows[..k] + [rows[k]];
    assert r.tokens[|g.tokens|..] == now.tokens[|g.tokens|..] + [r.tokens[|now.tokens|]];
  }

  /** Speculative verification. The drafts only decide how many tokens come out of one step: whatever they are, the
      result is where the isolated run stands after that many tokens; a rejected draft is never kept and an accepted
      one never recomputed. Whatever the rows are, each new token was drawn from its own row, and the request goes on,
      stops or is full as its tokens say. */
  method Answer(env: Env, p: Params, nPrompt: nat, g: Gen, drafts: seq<Token>, rows: seq<seq<KV>>, ghost g0: Gen)
    returns (g': Gen, accepted: nat)
    requires |g0.tokens| == nPrompt <= |g.tokens| && g.reason == NONE && |rows| == |drafts| + 1 && Logged(env, p, g0, g)
    ensures g.tokens <= g'.tokens && accepted <= |drafts|
    ensures |g.tokens| + Max(1, accepted) <= |g'.tokens| <= |g.tokens| + accepted + 1
    ensures g'.tokens[..|g.tokens| + accepted] == g.tokens + drafts[..accepted]
    ensures g'.reason == NONE || g'.reason == STOP || g'.reason == LENGTH
    ensures g'.reason == NONE ==> |g'.tokens| == |g.tokens| + accepted + 1 < env.maxLen
    ensures g'.reason == NONE && accepted < |drafts| ==> g'.tokens[|g.tokens| + accepted] != drafts[accepted]
    ensures RowsExact(g.tokens, drafts, rows) ==> g' == Isolated(env, p, nPrompt, g, |g'.tokens| - |g.tokens|)
    ensures Emitted(env, p, nPrompt, g, rows[..|g'.tokens| - |g.tokens|], g'.tokens[|g.tokens|..], g')
    ensures Logged(env, p, g0, g')
  {
    EmittedNone(env, p, nPrompt, g);
    assert g.tokens[|g.tokens|..] == [] && rows[..0] == [];
    var k := 0;
    g', accepted := g, 0;
    ghost var exact := RowsExact(g.tokens, drafts, rows);
    while k < |drafts|
      invariant k <= |drafts| && accepted == k && g'.reason == NONE && g'.tokens == g.tokens + drafts[..k]
      invariant k > 0 ==> |g'.tokens| < env.maxLen
      invariant exact ==> g' == Isolated(env, p, nPrompt, g, k)
      invariant Logged(env, p, g0, g') && Emitted(env, p, nPrompt, g, rows[..k], g'.tokens[|g.tokens|..], g')
    {
      SampleLogged(env, p, g0, g, rows, k, g');
      NextSample(env, p, nPrompt, g, drafts, rows, k, g');
      g' := Emit(env, p, nPrompt, g', rows[k]);
      if g'.tokens[|g.tokens| + k] != drafts[k] { return; }
      accepted := accepted + 1;
      if g'.reason != NONE { return; }
      k := k + 1;
    }
    SampleLogged(env, p, g0, g, rows, k, g');
    NextSample(env, p, nPrompt, g, drafts, rows, k, g');
    g' := Emit(env, p, nPrompt, g', rows[k]);
  }
}
