/** Stop strings over streamed text: the incremental search, the held-back tail, and what the client receives. */
module StopStrings {
  import opened Types

  type Byte = b: int | 0 <= b < 256
  type Text = seq<Byte>

  datatype Config = Config(stops: seq<Text>, minTokens: int, keepStop: bool)

  // ---- occurrences ----

  predicate Occurs(t: Text, s: Text, p: nat) { p + |s| <= |t| && t[p..p + |s|] == s }

  const NPOS := -1

  /** find: the first occurrence at or after p. */
  function FirstFrom(t: Text, s: Text, p: nat): (r: int)
    ensures r == NPOS || (p <= r && Occurs(t, s, r))
    ensures forall k :: p <= k < (if r == NPOS then |t| + 1 else r) ==> !Occurs(t, s, k)
    decreases |t| - p
  {
    if p + |s| > |t| then NPOS else if t[p..p + |s|] == s then p else FirstFrom(t, s, p + 1)
  }

  method Find(t: Text, s: Text, from: nat) returns (r: int)
    ensures r == FirstFrom(t, s, from)
  {
    var p := from;
    while p + |s| <= |t|
      invariant FirstFrom(t, s, p) == FirstFrom(t, s, from)
      decreases |t| - p
    {
      if t[p..p + |s|] == s { return p; }
      p := p + 1;
    }
    return NPOS;
  }

  /** A match: which stop string, and where. */
  datatype Match = NoMatch | Match(k: nat, start: nat, end: nat)

  /** Stop string k occurs at p, and is not the empty string, which never counts. */
  predicate Hit(stops: seq<Text>, t: Text, k: nat, p: nat) {
    k < |stops| && stops[k] != [] && Occurs(t, stops[k], p)
  }

  ghost predicate AnyHit(stops: seq<Text>, t: Text) { exists k: nat, p: nat :: Hit(stops, t, k, p) }

  /** The match that ends first, in the whole text; of several with the same end the one listed first. */
  ghost predicate IsBest(stops: seq<Text>, n: nat, t: Text, m: Match) {
    match m
    case NoMatch => forall k: nat, p: nat :: k < n ==> !Hit(stops, t, k, p)
    case Match(k, start, end) =>
      && k < n && Hit(stops, t, k, start) && end == start + |stops[k]|
      && forall j: nat, p: nat :: j < n && Hit(stops, t, j, p) ==> NotBefore(stops, j, p, k, end)
  }

  ghost predicate NotBefore(stops: seq<Text>, j: nat, p: nat, k: nat, end: nat) {
    j < |stops| && end <= p + |stops[j]| && (end == p + |stops[j]| ==> k <= j)
  }

  lemma BestUnique(stops: seq<Text>, n: nat, t: Text, a: Match, b: Match)
    requires IsBest(stops, n, t, a) && IsBest(stops, n, t, b)
    ensures a == b
  {
    if a.Match? && b.Match? {
      assert NotBefore(stops, a.k, a.start, b.k, b.end);
      assert NotBefore(stops, b.k, b.start, a.k, a.end);
    }
  }

  /** Every occurrence in the text ends after offset: the text up to there has been searched. */
  ghost predicate SearchedTo(stops: seq<Text>, t: Text, offset: nat) {
    forall k: nat, p: nat :: Hit(stops, t, k, p) ==> p + |stops[k]| > offset
  }

  lemma FromIsEnough(stops: seq<Text>, t: Text, offset: nat, k: nat)
    requires SearchedTo(stops, t, offset) && k < |stops| && stops[k] != []
    ensures FirstFrom(t, stops[k], if offset > |stops[k]| then offset - |stops[k]| else 0) == FirstFrom(t, stops[k], 0)
  {
    var s := stops[k];
    var from := if offset > |s| then offset - |s| else 0;
    var a, b := FirstFrom(t, s, from), FirstFrom(t, s, 0);
    if b != NPOS { assert Hit(stops, t, k, b); }
  }

  /** The incremental search: only what can be new is looked at, and the best match of the whole text is found. */
  method Search(stops: seq<Text>, t: Text, offset: nat) returns (m: Match)
    requires SearchedTo(stops, t, offset)
    ensures IsBest(stops, |stops|, t, m)
  {
    m := NoMatch;
    for k := 0 to |stops|
      invariant IsBest(stops, k, t, m)
    {
      if stops[k] != [] {
        var from := if offset > |stops[k]| then offset - |stops[k]| else 0;
        FromIsEnough(stops, t, offset, k);
        var pos := Find(t, stops[k], from);
        BestMore(stops, k, t, m, pos);
        if pos != NPOS && (m.NoMatch? || pos + |stops[k]| < m.end) {
          m := Match(k, pos, pos + |stops[k]|);
        }
      }
    }
  }

  lemma BestMore(stops: seq<Text>, k: nat, t: Text, m: Match, pos: int)
    requires IsBest(stops, k, t, m) && k < |stops| && stops[k] != [] && pos == FirstFrom(t, stops[k], 0)
    ensures IsBest(stops, k + 1, t,
      if pos != NPOS && (m.NoMatch? || pos + |stops[k]| < m.end) then Match(k, pos, pos + |stops[k]|) else m)
  {
    assert forall p: nat :: Hit(stops, t, k, p) ==> pos != NPOS && pos <= p;
  }

  // ---- the stream of one request, step by step ----

  /** The text so far, how much of it has been sent, and everything the client has received. */
  datatype State = State(text: Text, sent: nat, nOutput: nat, received: Text, stopped: bool)

  const START := State([], 0, 0, [], false)

  /** One generated token's text, possibly a token that ends the request; or the end of a step, which delivers. */
  datatype Event = Piece(bytes: Text, last: bool) | Flush

  function HoldbackOf(stops: seq<Text>): (h: nat)
    ensures forall k :: 0 <= k < |stops| && stops[k] != [] ==> |stops[k]| - 1 <= h
  {
    if stops == [] then 0
    else
      var s := stops[|stops| - 1];
      Max(HoldbackOf(stops[..|stops| - 1]), if |s| > 0 then |s| - 1 else 0)
  }

  ghost function Best(stops: seq<Text>, t: Text): (m: Match)
    ensures IsBest(stops, |stops|, t, m)
  {
    BestExists(stops, |stops|, t);
    var m :| IsBest(stops, |stops|, t, m); m
  }

  lemma {:induction false} BestExists(stops: seq<Text>, n: nat, t: Text)
    requires n <= |stops|
    ensures exists m :: IsBest(stops, n, t, m)
    decreases n
  {
    if n == 0 {
      assert IsBest(stops, 0, t, NoMatch);
    } else {
      BestExists(stops, n - 1, t);
      var m :| IsBest(stops, n - 1, t, m);
      if stops[n - 1] != [] {
        BestMore(stops, n - 1, t, m, FirstFrom(t, stops[n - 1], 0));
      } else {
        assert IsBest(stops, n, t, m);
      }
    }
  }

  function CutOf(c: Config, m: Match): (n: nat)
    requires m.Match?
  {
    if c.keepStop then m.end else m.start
  }

  /** A token's text is added; once there are enough tokens, the whole text is searched, and cut at the best match. */
  ghost function Add(c: Config, st: State, bytes: Text, last: bool): (r: State) {
    var t, n := st.text + bytes, st.nOutput + 1;
    var m := Best(c.stops, t);
    if last || n < c.minTokens || m.NoMatch? then st.(text := t, nOutput := n, stopped := last)
    else st.(text := if CutOf(c, m) <= |t| then t[..CutOf(c, m)] else t, nOutput := n, stopped := true)
  }

  /** All but the held-back tail is sent. */
  ghost function Deliver(c: Config, st: State): (r: State) {
    var to := if |st.text| > HoldbackOf(c.stops) then |st.text| - HoldbackOf(c.stops) else 0;
    if to > st.sent then st.(sent := to, received := st.received + st.text[st.sent..to]) else st
  }

  /** The end of the request: what is left is sent. */
  ghost function Finish(st: State, tail: Text): (r: State) {
    var t := st.text + tail;
    st.(text := t, sent := Max(st.sent, |t|), received := st.received + if st.sent < |t| then t[st.sent..] else [])
  }

  /** What happens after the request has stopped is no longer part of it. */
  ghost function React(c: Config, st: State, e: Event): (r: State) {
    if st.stopped then st
    else match e case Piece(bytes, last) => Add(c, st, bytes, last) case Flush => Deliver(c, st)
  }

  ghost function Run(c: Config, events: seq<Event>): (st: State) {
    if events == [] then START else React(c, Run(c, events[..|events| - 1]), events[|events| - 1])
  }

  /** The client has received the final text, no more and no less. */
  ghost predicate Lossless(c: Config, events: seq<Event>, tail: Text) {
    var st := Finish(Run(c, events), tail);
    st.received == st.text
  }

  /** What has been sent is the beginning of the text and, as long as the request runs, ends before anything a stop
      string could still take back. */
  ghost predicate Safe(c: Config, st: State) {
    && st.sent <= |st.text| && st.received == st.text[..st.sent]
    && (!st.stopped ==> (st.sent > 0 ==> st.sent + HoldbackOf(c.stops) <= |st.text|) && !AnyHit(c.stops, st.text))
  }

  /** A match in text that had none before reaches into what is new, so it starts in what has been held back. */
  lemma NewMatchIsHeldBack(c: Config, t: Text, bytes: Text, m: Match, sent: nat)
    requires !AnyHit(c.stops, t) && IsBest(c.stops, |c.stops|, t + bytes, m) && m.Match?
    requires sent > 0 ==> sent + HoldbackOf(c.stops) <= |t|
    ensures sent <= m.start < m.end <= |t + bytes|
  {
    if m.end <= |t| {
      assert (t + bytes)[m.start..m.end] == t[m.start..m.end];
      assert Hit(c.stops, t, m.k, m.start);
    }
  }

  lemma NoHitAtAll(c: Config, t: Text)
    requires Best(c.stops, t).NoMatch?
    ensures !AnyHit(c.stops, t)
  {
  }

  lemma ReactSafe(c: Config, st: State, e: Event)
    requires c.minTokens <= 1 && Safe(c, st)
    ensures Safe(c, React(c, st, e))
  {
    if !st.stopped {
      match e
      case Flush =>
      case Piece(bytes, last) =>
        var t := st.text + bytes;
        var m := Best(c.stops, t);
        assert t[..st.sent] == st.text[..st.sent];
        if !last {
          if m.NoMatch? {
            NoHitAtAll(c, t);
          } else {
            NewMatchIsHeldBack(c, st.text, bytes, m, st.sent);
            assert t[..CutOf(c, m)][..st.sent] == t[..st.sent];
          }
        }
    }
  }

  lemma {:induction false} RunSafe(c: Config, events: seq<Event>)
    requires c.minTokens <= 1
    ensures Safe(c, Run(c, events))
    decreases |events|
  {
    if events == [] {
      assert !AnyHit(c.stops, []);
    } else {
      RunSafe(c, events[..|events| - 1]);
      ReactSafe(c, Run(c, events[..|events| - 1]), events[|events| - 1]);
    }
  }

  lemma SafeIsLossless(c: Config, events: seq<Event>, tail: Text)
    requires Safe(c, Run(c, events))
    ensures Lossless(c, events, tail)
  {
    var st := Run(c, events);
    var t := st.text + tail;
    assert t[..st.sent] + t[st.sent..] == t;
    assert t[..st.sent] == st.text[..st.sent];
  }

  // ---- where the text is cut ----

  /** r is t up to its first match m: without the stop string, or with it. */
  ghost predicate CutAt(c: Config, t: Text, r: Text, m: Match) {
    m.Match? && IsBest(c.stops, |c.stops|, t, m) && m.end <= |t| && m.start <= m.end && r == (if c.keepStop then t[..m.end] else t[..m.start])
  }

  /** A token's text ends the request if the token does, or if there are enough tokens and the text holds a stop string;
      then the text is cut at the first one. */
  ghost predicate AddsRight(c: Config, st: State, bytes: Text, last: bool, r: State) {
    var t, n := st.text + bytes, st.nOutput + 1;
    && r.nOutput == n && r.sent == st.sent && r.received == st.received
    && (if !last && n >= c.minTokens && AnyHit(c.stops, t) then r.stopped && exists m :: CutAt(c, t, r.text, m)
        else r.stopped == last && r.text == t)
  }

  lemma AddIsRight(c: Config, st: State, bytes: Text, last: bool)
    ensures AddsRight(c, st, bytes, last, Add(c, st, bytes, last))
  {
    var t := st.text + bytes;
    var m := Best(c.stops, t);
    if m.Match? {
      assert Hit(c.stops, t, m.k, m.start);
      if !last && st.nOutput + 1 >= c.minTokens { assert CutAt(c, t, Add(c, st, bytes, last).text, m); }
    } else {
      NoHitAtAll(c, t);
    }
  }

  /** What is left of a text cut off before its first stop string holds no stop string. */
  lemma CutIsClean(c: Config, t: Text, r: Text, m: Match)
    requires CutAt(c, t, r, m) && !c.keepStop
    ensures !AnyHit(c.stops, r)
  {
    if k: nat, p: nat :| Hit(c.stops, r, k, p) {
      HitBeforeCut(c, t, r, m, k, p);
      assert false;
    }
  }

  /** A stop string in the cut text stands in the whole text too, so it does not end before the one cut at. */
  lemma HitBeforeCut(c: Config, t: Text, r: Text, m: Match, k: nat, p: nat)
    requires CutAt(c, t, r, m) && Hit(c.stops, r, k, p)
    ensures m.end <= p + |c.stops[k]| <= |r| && (m.end == p + |c.stops[k]| ==> m.k <= k)
  {
    assert t[p..p + |c.stops[k]|] == r[p..p + |c.stops[k]|];
    assert Hit(c.stops, t, k, p);
    assert NotBefore(c.stops, k, p, m.k, m.end);
  }

  /** The text ends with stop string k, none ends earlier, and of those that end there k is the first listed. */
  ghost predicate EndsWith(stops: seq<Text>, r: Text, k: nat) {
    && k < |stops| && |stops[k]| <= |r| && Hit(stops, r, k, |r| - |stops[k]|)
    && forall j: nat, p: nat :: Hit(stops, r, j, p) ==> p + |stops[j]| == |r| && k <= j
  }

  lemma CutEndsWith(c: Config, t: Text, r: Text, m: Match)
    requires CutAt(c, t, r, m) && c.keepStop
    ensures EndsWith(c.stops, r, m.k)
  {
    assert r[m.start..m.end] == t[m.start..m.end];
    forall j: nat, p: nat | Hit(c.stops, r, j, p) ensures p + |c.stops[j]| == |r| && m.k <= j {
      HitBeforeCut(c, t, r, m, j, p);
    }
  }

  /** Some token of the stream ended the request by itself. */
  ghost predicate EndedByToken(c: Config, events: seq<Event>) {
    exists i :: 0 <= i < |events| && EndsBy(c, events, i)
  }

  ghost predicate EndsBy(c: Config, events: seq<Event>, i: nat)
    requires i < |events|
  {
    events[i].Piece? && events[i].last && !Run(c, events[..i]).stopped
  }

  /** The text of a request that was stopped, by no token of its own: it holds no stop string if those are not to be kept,
      and otherwise ends with the only one it holds. */
  ghost predicate StoppedText(c: Config, r: Text) {
    if c.keepStop then exists k :: EndsWith(c.stops, r, k) else !AnyHit(c.stops, r)
  }

  lemma {:induction false} StoppedRight(c: Config, events: seq<Event>)
    requires Run(c, events).stopped && !EndedByToken(c, events)
    ensures StoppedText(c, Run(c, events).text)
    decreases |events|
  {
    var es, e := events[..|events| - 1], events[|events| - 1];
    var st := Run(c, es);
    if st.stopped {
      if i :| 0 <= i < |es| && EndsBy(c, es, i) {
        assert events[..i] == es[..i];
        assert EndsBy(c, events, i);
      }
      StoppedRight(c, es);
    } else {
      assert EndsBy(c, events, |events| - 1) <==> e.Piece? && e.last;
      AddIsRight(c, st, e.bytes, e.last);
      var t, r := st.text + e.bytes, Run(c, events);
      var m :| CutAt(c, t, r.text, m);
      if c.keepStop { CutEndsWith(c, t, r.text, m); } else { CutIsClean(c, t, r.text, m); }
    }
  }

  // ---- what is held back ----

  /** No more is held back than a stop string may still need. */
  lemma {:induction false} HoldbackExact(stops: seq<Text>)
    ensures HoldbackOf(stops) == 0 || exists k :: 0 <= k < |stops| && HoldbackOf(stops) == |stops[k]| - 1
  {
    if stops != [] {
      var init := stops[..|stops| - 1];
      HoldbackExact(init);
      if HoldbackOf(init) != 0 {
        var k :| 0 <= k < |init| && HoldbackOf(init) == |init[k]| - 1;
        assert stops[k] == init[k];
      }
    }
  }

  /** After a delivery everything has been sent but that, or what was sent before. */
  lemma DeliverIsRight(c: Config, st: State)
    requires st.sent <= |st.text| && st.received == st.text[..st.sent]
    ensures var r := Deliver(c, st);
      && r.text == st.text && r.sent == Max(st.sent, |st.text| - HoldbackOf(c.stops)) && r.received == r.text[..r.sent]
      && r.nOutput == st.nOutput && r.stopped == st.stopped
  {
    var to := if |st.text| > HoldbackOf(c.stops) then |st.text| - HoldbackOf(c.stops) else 0;
    if to > st.sent { assert st.text[..st.sent] + st.text[st.sent..to] == st.text[..to]; }
  }

  // ---- exactly when nothing is lost ----

  function Fill(n: nat): (t: Text)
    ensures |t| == n
  {
    if n == 0 then [] else [0] + Fill(n - 1)
  }

  function Quiet(n: nat): (es: seq<Event>)
    ensures |es| == n && forall i :: 0 <= i < n ==> es[i] == Piece([], false)
  {
    if n == 0 then [] else Quiet(n - 1) + [Piece([], false)]
  }

  function Opening(c: Config, k: nat): (t: Text)
    requires k < |c.stops|
  {
    c.stops[k] + Fill(HoldbackOf(c.stops) + 1)
  }

  /** Before there are enough tokens, a stop string passes, and so much text after it that it is sent. */
  lemma {:induction false} PassedBy(c: Config, k: nat, n: nat)
    requires k < |c.stops| && c.stops[k] != [] && n + 1 < c.minTokens
    ensures var t := Opening(c, k);
      Run(c, [Piece(t, false), Flush] + Quiet(n)) == State(t, |c.stops[k]| + 1, n + 1, t[..|c.stops[k]| + 1], false)
    decreases n
  {
    var t := Opening(c, k);
    var first := [Piece(t, false)];
    var two := [Piece(t, false), Flush];
    if n == 0 {
      assert first[..0] == [] && two[..1] == first && two + Quiet(0) == two;
      assert [] + t == t;
      assert Run(c, first) == State(t, 0, 1, [], false);
      assert t[0..|c.stops[k]| + 1] == t[..|c.stops[k]| + 1];
      assert [] + t[..|c.stops[k]| + 1] == t[..|c.stops[k]| + 1];
    } else {
      var es := two + Quiet(n);
      assert es[..|es| - 1] == two + Quiet(n - 1) && es[|es| - 1] == Piece([], false);
      PassedBy(c, k, n - 1);
      assert t + [] == t;
    }
  }

  lemma TakenBack(c: Config, k: nat)
    requires k < |c.stops| && c.stops[k] != [] && c.minTokens > 1
    ensures exists events :: !Lossless(c, events, [])
  {
    var t, n := Opening(c, k), c.minTokens - 2;
    var es := [Piece(t, false), Flush] + Quiet(n);
    PassedBy(c, k, n);
    var events := es + [Piece([], false)];
    assert events[..|events| - 1] == es;
    assert t + [] == t;
    var m := Best(c.stops, t);
    assert Hit(c.stops, t, k, 0);
    assert NotBefore(c.stops, k, 0, m.k, m.end);
    assert !Lossless(c, events, []);
  }

  /** Whatever is generated and however it is cut into steps, the client receives exactly the final text - if and only if
      no minimum number of tokens above one holds the search back. */
  lemma LosslessIff(c: Config)
    requires exists k :: 0 <= k < |c.stops| && c.stops[k] != []
    ensures (forall events, tail :: Lossless(c, events, tail)) <==> c.minTokens <= 1
  {
    if c.minTokens <= 1 {
      forall events, tail ensures Lossless(c, events, tail) {
        RunSafe(c, events);
        SafeIsLossless(c, events, tail);
      }
    } else {
      var k :| 0 <= k < |c.stops| && c.stops[k] != [];
      TakenBack(c, k);
    }
  }

  lemma {:induction false} ReceivedGrows(c: Config, events: seq<Event>, more: seq<Event>)
    ensures Run(c, events).received <= Run(c, events + more).received
    decreases |more|
  {
    if more == [] {
      assert events + more == events;
    } else {
      var es := events + more;
      assert es[..|es| - 1] == events + more[..|more| - 1];
      ReceivedGrows(c, events, more[..|more| - 1]);
    }
  }

  /** Nothing that was ever sent is missing from the final text. */
  lemma NeverTakenBack(c: Config, events: seq<Event>, more: seq<Event>, tail: Text)
    requires c.minTokens <= 1
    ensures Run(c, events).received <= Finish(Run(c, events + more), tail).text
  {
    ReceivedGrows(c, events, more);
    RunSafe(c, events + more);
    SafeIsLossless(c, events + more, tail);
  }

  // ---- the request's fields ----

  class TextStream {
    const c: Config
    var text: Text
    var textSent: nat
    var stopCheckOffset: nat
    var nOutput: nat
    var stopped: bool
    ghost var received: Text

    ghost function Now(): State
      reads this
    {
      State(text, textSent, nOutput, received, stopped)
    }

    /** As long as the request runs, the text up to the offset has been searched in vain. */
    ghost predicate Valid()
      reads this
    {
      !stopped ==> textSent <= |text| && stopCheckOffset <= |text| && SearchedTo(c.stops, text, stopCheckOffset)
    }

    constructor (c: Config)
      ensures Valid() && this.c == c && Now() == START
    {
      this.c, text, textSent, stopCheckOffset, nOutput, stopped, received := c, [], 0, 0, 0, false, [];
    }

    /** One token's text: the incremental search does what searching the whole text would do. */
    method Take(bytes: Text, last: bool)
      requires Valid() && !stopped
      modifies this
      ensures Valid() && Now() == Add(c, old(Now()), bytes, last) && AddsRight(c, old(Now()), bytes, last, Now())
    {
      AddIsRight(c, Now(), bytes, last);
      GrownText(c.stops, text, bytes, stopCheckOffset);
      text := text + bytes;
      nOutput := nOutput + 1;
      stopped := last;
      if !last && c.stops != [] && nOutput >= c.minTokens {
        var m := Search(c.stops, text, stopCheckOffset);
        BestUnique(c.stops, |c.stops|, text, m, Best(c.stops, text));
        if m.Match? {
          stopped := true;
          text := text[..CutOf(c, m)];
        }
        stopCheckOffset := |text|;
      } else if c.stops == [] {
        BestUnique(c.stops, |c.stops|, text, NoMatch, Best(c.stops, text));
      }
    }

    method HoldBack() returns (h: nat)
      ensures h == HoldbackOf(c.stops)
    {
      h := 0;
      for i := 0 to |c.stops|
        invariant h == HoldbackOf(c.stops[..i])
      {
        assert c.stops[..i + 1][..i] == c.stops[..i];
        h := Max(h, if |c.stops[i]| > 0 then |c.stops[i]| - 1 else 0);
      }
      assert c.stops[..|c.stops|] == c.stops;
    }

    /** deliver */
    method DeliverText() returns (chunk: Text)
      requires Valid() && !stopped
      modifies this
      ensures Valid() && Now() == Deliver(c, old(Now())) && received == old(received) + chunk
    {
      var holdback := HoldBack();
      var sendTo := if |text| > holdback then |text| - holdback else 0;
      chunk := [];
      if sendTo > textSent {
        chunk := text[textSent..sendTo];
        textSent := sendTo;
        received := received + chunk;
      }
    }

    /** finish: the detokenizer's rest is added, and what has not been sent goes out. */
    method FinishText(tail: Text) returns (chunk: Text)
      requires Valid()
      modifies this
      ensures Now() == Finish(old(Now()), tail) && received == old(received) + chunk
    {
      text := text + tail;
      chunk := [];
      if textSent < |text| {
        chunk := text[textSent..];
        textSent := |text|;
        received := received + chunk;
      }
    }
  }

  lemma GrownText(stops: seq<Text>, t: Text, bytes: Text, offset: nat)
    requires offset <= |t| && SearchedTo(stops, t, offset)
    ensures SearchedTo(stops, t + bytes, offset)
  {
    forall k: nat, p: nat | Hit(stops, t + bytes, k, p) ensures p + |stops[k]| > offset {
      if p + |stops[k]| <= offset {
        assert (t + bytes)[p..p + |stops[k]|] == t[p..p + |stops[k]|];
        assert Hit(stops, t, k, p);
      }
    }
  }
}
