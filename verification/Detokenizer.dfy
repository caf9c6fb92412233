/** Streaming detokenization: only complete UTF-8 sequences are emitted, however the bytes are split into tokens. */
module Detokenizer {
  type Byte = bv8
  type Bytes = seq<bv8>

  /** The length a lead byte announces; zero for a continuation byte and for bytes that cannot lead. */
  function SeqLen(c: Byte): (n: nat)
    ensures n <= 4 && (IsCont(c) ==> n == 0)
  {
    if c < 0x80 then 1
    else if c & 0xE0 == 0xC0 then (if c >= 0xC2 then 2 else 0)
    else if c & 0xF0 == 0xE0 then 3
    else if c & 0xF8 == 0xF0 then (if c <= 0xF4 then 4 else 0)
    else 0
  }

  predicate IsCont(c: Byte) { c & 0xC0 == 0x80 }

  /** The lead bytes of RFC 3629, section 4. */
  lemma LeadBytes(c: Byte)
    ensures SeqLen(c) == (if c <= 0x7F then 1 else if 0xC2 <= c <= 0xDF then 2 else if 0xE0 <= c <= 0xEF then 3
                          else if 0xF0 <= c <= 0xF4 then 4 else 0)
  {
  }

  // ---- what is held back ----

  /** s[i..] is the beginning of a sequence that is not complete yet. */
  predicate Begun(s: Bytes, i: nat) {
    i < |s| && SeqLen(s[i]) > |s| - i && forall j :: i < j < |s| ==> IsCont(s[j])
  }

  /** The text is complete up to n: there the incomplete sequence at its end begins, or there is none. */
  ghost predicate CompleteTo(s: Bytes, n: nat) {
    n <= |s| && (n < |s| ==> Begun(s, n)) && (n == |s| ==> forall i :: !Begun(s, i))
  }

  lemma BegunOnce(s: Bytes, i: nat, j: nat)
    requires Begun(s, i) && Begun(s, j)
    ensures i == j
  {
  }

  lemma CompleteOnce(s: Bytes, m: nat, n: nat)
    requires CompleteTo(s, m) && CompleteTo(s, n)
    ensures m == n
  {
    if m < |s| && n < |s| { BegunOnce(s, m, n); }
  }

  /** utf8_complete_prefix: one pass that skips whole sequences and single stray bytes. */
  method CompletePrefix(s: Bytes) returns (n: nat)
    ensures CompleteTo(s, n) && |s| - n <= 3
  {
    var i := 0;
    while i < |s|
      invariant i <= |s| && forall k :: 0 <= k < i ==> !Begun(s, k)
    {
      var len := SeqLen(s[i]);
      if len == 0 {
        i := i + 1;
      } else if i + len > |s| {
        var plausible := AllCont(s, i + 1, |s|);
        if plausible { return i; }
        i := i + 1;
      } else {
        var valid := AllCont(s, i + 1, i + len);
        if valid { Skips(s, i, len); }
        i := if valid then i + len else i + 1;
      }
    }
    return |s|;
  }

  method AllCont(s: Bytes, from: nat, to: nat) returns (ok: bool)
    requires from <= to <= |s|
    ensures ok <==> forall j :: from <= j < to ==> IsCont(s[j])
  {
    for j := from to to
      invariant forall k :: from <= k < j ==> IsCont(s[k])
    {
      if !IsCont(s[j]) { return false; }
    }
    return true;
  }

  lemma Skips(s: Bytes, i: nat, len: nat)
    requires 0 < len && i + len <= |s| && SeqLen(s[i]) == len && forall j :: i < j < i + len ==> IsCont(s[j])
    ensures forall k :: i <= k < i + len ==> !Begun(s, k)
  {
  }

  // ---- chunks ----

  /** Emitting a complete prefix early does not move any later boundary. */
  lemma PrefixStays(s: Bytes, n: nat, x: Bytes, k: nat)
    requires CompleteTo(s, n) && CompleteTo(s[n..] + x, k)
    ensures CompleteTo(s + x, n + k)
  {
    var t, u := s + x, s[n..] + x;
    assert t[n..] == u;
    forall i | n <= i < |t| ensures Begun(t, i) <==> Begun(u, i - n) { ShiftBegun(t, n, i); }
    forall i | 0 <= i < n ensures !Begun(t, i) { NotBegun(s, n, x, i); }
    if k == |u| {
      forall i: nat ensures !Begun(t, i) {
        if n <= i < |t| { assert !Begun(u, i - n); }
      }
    }
  }

  lemma ShiftBegun(t: Bytes, n: nat, i: nat)
    requires n <= i < |t|
    ensures Begun(t, i) <==> Begun(t[n..], i - n)
  {
    var u := t[n..];
    assert u[i - n] == t[i];
    if Begun(u, i - n) {
      forall j | i < j < |t| ensures IsCont(t[j]) { assert u[j - n] == t[j]; }
    }
    if Begun(t, i) {
      forall j | i - n < j < |u| ensures IsCont(u[j]) { assert u[j] == t[j + n]; }
    }
  }

  lemma NotBegun(s: Bytes, n: nat, x: Bytes, i: nat)
    requires CompleteTo(s, n) && i < n
    ensures !Begun(s + x, i)
  {
    var t := s + x;
    if Begun(t, i) {
      assert t[i] == s[i];
      assert forall j :: i < j < |s| ==> t[j] == s[j];
      assert Begun(s, i);
      if n < |s| { BegunOnce(s, i, n); }
    }
  }

  class IncrementalDetokenizer {
    var pending: Bytes
    var out: Bytes
    ghost var stream: Bytes      // all bytes pushed

    /** The output is exactly the complete part of the stream, whatever the pieces were. */
    ghost predicate Valid()
      reads this
    {
      out + pending == stream && CompleteTo(stream, |out|) && |pending| <= 3
    }

    constructor ()
      ensures Valid() && stream == []
    {
      pending, out, stream := [], [], [];
    }

    method Push(piece: Bytes) returns (chunk: Bytes)
      requires Valid()
      modifies this
      ensures Valid() && stream == old(stream) + piece && out == old(out) + chunk
    {
      ghost var was := stream;
      assert was[|out|..] == pending;
      pending := pending + piece;
      stream := stream + piece;
      var n := CompletePrefix(pending);
      PrefixStays(was, |out|, piece, n);
      chunk := [];
      assert pending == pending[..n] + pending[n..];
      if n > 0 {
        chunk := pending[..n];
        pending := pending[n..];
        out := out + chunk;
      }
    }

    /** What is left is emitted as it is. */
    method Finish() returns (chunk: Bytes)
      requires Valid()
      modifies this
      ensures out == old(stream) == old(out) + chunk && stream == old(stream) && pending == []
    {
      chunk := pending;
      pending := [];
      out := out + chunk;
    }
  }

  function Joined(pieces: seq<Bytes>): (s: Bytes) {
    if pieces == [] then [] else Joined(pieces[..|pieces| - 1]) + pieces[|pieces| - 1]
  }

  /** Any two ways to cut the same bytes into pieces emit the same text, and hold the same bytes back. */
  method PushAll(pieces: seq<Bytes>) returns (out: Bytes, pending: Bytes)
    ensures out + pending == Joined(pieces) && CompleteTo(Joined(pieces), |out|)
  {
    var d := new IncrementalDetokenizer();
    for i := 0 to |pieces|
      invariant fresh(d) && d.Valid() && d.stream == Joined(pieces[..i])
    {
      assert pieces[..i + 1][..i] == pieces[..i];
      var chunk := d.Push(pieces[i]);
    }
    assert pieces[..|pieces|] == pieces;
    return d.out, d.pending;
  }

  lemma SplitDoesNotMatter(s: Bytes, out: Bytes, pending: Bytes, out': Bytes, pending': Bytes)
    requires out + pending == s == out' + pending' && CompleteTo(s, |out|) && CompleteTo(s, |out'|)
    ensures out == out' && pending == pending'
  {
    CompleteOnce(s, |out|, |out'|);
    assert s[..|out|] == out && s[..|out'|] == out' && s[|out|..] == pending && s[|out'|..] == pending';
  }
}
