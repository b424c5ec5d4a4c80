/** For which secrets the stream emits what one pass over the whole input would, whatever the lines and the
    writes (redactWriter.Write in internal/executor/runner.go): exactly when no secret occurs inside another
    one other than at its end. Otherwise a flush of an over-long line can mask the inner secret before the
    outer one is complete, and what follows is let through. */
module RedactionExact {
  import opened Redaction

  ghost predicate AllClean(secrets: seq<Bytes>) {
    forall s :: s in secrets && s != [] ==> CleanSecret(s)
  }

  ghost predicate NotNested(secrets: seq<Bytes>) {
    forall s, t, k :: s in secrets && t in secrets && t != [] && OccursAt(t, s, k) ==> k + |t| == |s|
  }

  ghost predicate Bounded(secrets: seq<Bytes>, maxLen: nat) {
    forall s :: s in secrets ==> |s| <= maxLen
  }

  lemma ConcatTwo(a: Bytes, b: Bytes)
    ensures Concat([a, b]) == a + b
  {
    assert [a, b][..1] == [a] && [a][..0] == [];
    assert Concat([a]) == Concat([]) + a == a;
  }

  lemma AfterTwoWrites(a: Bytes, b: Bytes, secrets: seq<Bytes>, maxLen: nat)
    ensures AfterWrites([a, b], secrets, maxLen)
         == WriteStep(WriteStep(Stream([], []), a, secrets, maxLen), b, secrets, maxLen)
  {
    assert [a, b][..1] == [a] && [a][..0] == [];
    assert AfterWrites([a], secrets, maxLen) == WriteStep(AfterWrites([], secrets, maxLen), a, secrets, maxLen);
  }

  lemma {:induction false} NoLineEnd(b: Bytes)
    requires NEWLINE !in b
    ensures LineEnd(b) == |b|
  {
    assert forall i :: 0 <= i < |b| ==> b[i] in b;
  }

  function Stars(n: nat): (b: Bytes)
    ensures |b| == n && forall i :: 0 <= i < n ==> b[i] == STAR
  {
    seq(n, _ => STAR)
  }

  lemma ScanByte(b: Bytes, more: Bytes, secrets: seq<Bytes>)
    requires b != [] && MatchLen(b + more, secrets) == 0
    ensures Scan(b + more, secrets) == [b[0]] + Scan(b[1..] + more, secrets)
  {
    assert (b + more)[1..] == b[1..] + more;
  }

  /** No clean secret begins with a star. */
  lemma StarNeverMatches(b: Bytes, secrets: seq<Bytes>)
    requires AllClean(secrets) && b != [] && b[0] == STAR
    ensures MatchLen(b, secrets) == 0
  {
    forall s | s in secrets && s != [] ensures s[0] != STAR {
      assert s[0] in s;
    }
    MatchLenIsASecret(b, secrets);
  }

  lemma {:induction false} StarsPass(n: nat, rest: Bytes, secrets: seq<Bytes>)
    requires AllClean(secrets)
    ensures Scan(Stars(n) + rest, secrets) == Stars(n) + Scan(rest, secrets)
    decreases n
  {
    if n == 0 {
      assert Stars(0) + rest == rest;
    } else {
      StarNeverMatches(Stars(n) + rest, secrets);
      ScanByte(Stars(n), rest, secrets);
      assert Stars(n)[1..] == Stars(n - 1) && [STAR] + Stars(n - 1) == Stars(n);
      StarsPass(n - 1, rest, secrets);
      Associates([STAR], Stars(n - 1), Scan(rest, secrets));
    }
  }

  // ---- a flush in the middle of a line changes nothing ----

  /** More bytes do not change a match. */
  lemma MatchIsFinal(b: Bytes, more: Bytes, secrets: seq<Bytes>)
    requires NotNested(secrets) && MatchLen(b, secrets) > 0
    ensures MatchLen(b + more, secrets) == MatchLen(b, secrets)
  {
    var m, n := MatchLen(b, secrets), MatchLen(b + more, secrets);
    MatchLenIsASecret(b, secrets);
    var t := b[..m];
    assert (b + more)[..m] == t;
    MatchLenFinds(b + more, secrets, t);
    MatchLenIsASecret(b + more, secrets);
    var s := (b + more)[..n];
    assert m <= n ==> OccursAt(t, s, 0) by {
      if m <= n { assert s[..m] == t; }
    }
    assert n <= m ==> OccursAt(s, t, 0) by {
      if n <= m { assert t[..n] == s; }
    }
  }

  lemma {:induction false} NoMatchIsRaw(b: Bytes, secrets: seq<Bytes>)
    requires forall j :: 0 <= j < |b| ==> MatchLen(b[j..], secrets) == 0
    ensures Scan(b, secrets) == b
    decreases |b|
  {
    if b != [] {
      assert b[0..] == b;
      forall j | 0 <= j < |b[1..]| ensures MatchLen(b[1..][j..], secrets) == 0 {
        assert b[1..][j..] == b[j + 1..];
      }
      NoMatchIsRaw(b[1..], secrets);
    }
  }

  lemma OccursInLonger(b: Bytes, s: Bytes, j: nat, m: nat)
    requires b <= s && j + m <= |b|
    ensures OccursAt(b[j..][..m], s, j)
  {
    assert s[..|b|] == b;
    assert s[j..j + m] == b[j..][..m];
  }

  lemma NothingInside(b: Bytes, s: Bytes, secrets: seq<Bytes>, j: nat)
    requires NotNested(secrets) && s in secrets && b <= s && |b| < |s| && j < |b|
    ensures MatchLen(b[j..], secrets) == 0
  {
    var m := MatchLen(b[j..], secrets);
    MatchLenIsASecret(b[j..], secrets);
    OccursInLonger(b, s, j, m);
  }

  /** A secret still being assembled stays raw. */
  lemma PendingIsRaw(b: Bytes, s: Bytes, secrets: seq<Bytes>)
    requires NotNested(secrets) && s in secrets && b <= s && |b| < |s|
    ensures Scan(b, secrets) == b
  {
    forall j | 0 <= j < |b| ensures MatchLen(b[j..], secrets) == 0 {
      NothingInside(b, s, secrets, j);
    }
    NoMatchIsRaw(b, secrets);
  }

  lemma PendingSecret(b: Bytes, more: Bytes, secrets: seq<Bytes>) returns (s: Bytes)
    requires MatchLen(b, secrets) == 0 && MatchLen(b + more, secrets) > 0
    ensures s in secrets && b <= s && |b| < |s|
  {
    var n := MatchLen(b + more, secrets);
    MatchLenIsASecret(b + more, secrets);
    s := (b + more)[..n];
    ShorterWouldMatch(b, more, secrets, s);
    assert n > |b| ==> s[..|b|] == b;
  }

  lemma ShorterWouldMatch(b: Bytes, more: Bytes, secrets: seq<Bytes>, s: Bytes)
    requires s in secrets && s != [] && s <= b + more
    ensures |s| <= |b| ==> MatchLen(b, secrets) > 0
  {
    if |s| <= |b| {
      assert s == (b + more)[..|s|] == b[..|s|];
      MatchLenFinds(b, secrets, s);
    }
  }

  /** Redacting the end of a redacted stretch again, with what follows, completes the pass. */
  ghost predicate Completes(b: Bytes, more: Bytes, secrets: seq<Bytes>, p: nat) {
    var red := Scan(b, secrets);
    p <= |red| && Scan(b + more, secrets) == red[..p] + Scan(red[p..] + more, secrets)
  }

  lemma CutAfter(head: Bytes, rest: Bytes, p: nat, tail: Bytes)
    requires p <= |rest|
    ensures (head + rest)[|head| + p..] == rest[p..]
    ensures (head + rest)[..|head| + p] + tail == head + (rest[..p] + tail)
  {
  }

  lemma ScanMatch(b: Bytes, more: Bytes, secrets: seq<Bytes>)
    requires 0 < MatchLen(b + more, secrets) <= |b|
    ensures Scan(b + more, secrets) == MASK + Scan(b[MatchLen(b + more, secrets)..] + more, secrets)
  {
    var m := MatchLen(b + more, secrets);
    assert (b + more)[m..] == b[m..] + more;
  }

  lemma CompletesPast(b: Bytes, more: Bytes, secrets: seq<Bytes>, head: Bytes, n: nat, p: nat)
    requires n <= |b| && Completes(b[n..], more, secrets, p)
    requires Scan(b, secrets) == head + Scan(b[n..], secrets)
    requires Scan(b + more, secrets) == head + Scan(b[n..] + more, secrets)
    ensures Completes(b, more, secrets, |head| + p)
  {
    var rest := Scan(b[n..], secrets);
    CutAfter(head, rest, p, Scan(rest[p..] + more, secrets));
  }

  lemma StarsAfter(rest: Bytes, p: nat)
    requires p <= |MASK|
    ensures (MASK + rest)[..p] + Stars(|MASK| - p) == MASK
    ensures (MASK + rest)[p..] == Stars(|MASK| - p) + rest
  {
  }

  lemma CompletesInMask(b: Bytes, more: Bytes, secrets: seq<Bytes>, n: nat, p: nat)
    requires AllClean(secrets) && n <= |b| && Completes(b[n..], more, secrets, 0) && p <= |MASK|
    requires Scan(b, secrets) == MASK + Scan(b[n..], secrets)
    requires Scan(b + more, secrets) == MASK + Scan(b[n..] + more, secrets)
    ensures Completes(b, more, secrets, p)
  {
    var rest, stars := Scan(b[n..], secrets), Stars(|MASK| - p);
    CompletesAll(b[n..], more, secrets);
    StarsAfter(rest, p);
    Associates(stars, rest, more);
    StarsPass(|MASK| - p, rest + more, secrets);
    Associates((MASK + rest)[..p], stars, Scan(rest + more, secrets));
  }

  lemma CompletesAll(b: Bytes, more: Bytes, secrets: seq<Bytes>)
    ensures Completes(b, more, secrets, 0) <==> Scan(b + more, secrets) == Scan(Scan(b, secrets) + more, secrets)
  {
    var red := Scan(b, secrets);
    assert red[0..] == red && red[..0] == [];
    assert [] + Scan(red + more, secrets) == Scan(red + more, secrets);
  }

  lemma CompletesFromByte(b: Bytes, more: Bytes, secrets: seq<Bytes>)
    requires AllClean(secrets) && b != [] && MatchLen(b, secrets) == 0 && MatchLen(b + more, secrets) == 0
    requires Completes(b[1..], more, secrets, 0)
    ensures Completes(b, more, secrets, 0)
  {
    var rest, red := Scan(b[1..], secrets), Scan(b, secrets);
    assert red == [b[0]] + rest;
    CompletesAll(b[1..], more, secrets);
    NothingNewMatches(b, more, secrets);
    ScanByte(b, more, secrets);
    ScanByte(red, more, secrets);
    assert red[1..] == rest;
    CompletesAll(b, more, secrets);
  }

  lemma CompletesByte(b: Bytes, more: Bytes, secrets: seq<Bytes>, p: nat)
    requires b != [] && MatchLen(b, secrets) == 0 && MatchLen(b + more, secrets) == 0
    requires Completes(b[1..], more, secrets, p)
    ensures Completes(b, more, secrets, 1 + p)
  {
    ScanByte(b, more, secrets);
    CompletesPast(b, more, secrets, [b[0]], 1, p);
  }

  lemma CompletesMatch(b: Bytes, more: Bytes, secrets: seq<Bytes>, p: nat)
    requires AllClean(secrets) && NotNested(secrets) && MatchLen(b, secrets) > 0
    requires Completes(b[MatchLen(b, secrets)..], more, secrets, if p >= |MASK| then p - |MASK| else 0)
    ensures Completes(b, more, secrets, p)
  {
    var m := MatchLen(b, secrets);
    MatchIsFinal(b, more, secrets);
    ScanMatch(b, more, secrets);
    if p >= |MASK| {
      CompletesPast(b, more, secrets, MASK, m, p - |MASK|);
    } else {
      CompletesInMask(b, more, secrets, m, p);
    }
  }

  /** At `p`, a secret's length less one is left to the end. */
  predicate Room(b: Bytes, secrets: seq<Bytes>, maxLen: nat, p: nat) {
    p <= |Scan(b, secrets)| && (p == 0 || p + maxLen <= |Scan(b, secrets)| + 1)
  }

  /** Nothing has been masked yet, and too little is there to be passed on. */
  lemma CompletesPending(b: Bytes, more: Bytes, secrets: seq<Bytes>, maxLen: nat, p: nat)
    requires NotNested(secrets) && Bounded(secrets, maxLen)
    requires MatchLen(b, secrets) == 0 && MatchLen(b + more, secrets) > 0 && Room(b, secrets, maxLen, p)
    ensures Completes(b, more, secrets, p)
  {
    var s := PendingSecret(b, more, secrets);
    PendingIsRaw(b, s, secrets);
    CompletesAll(b, more, secrets);
  }

  lemma RoomAfterMatch(b: Bytes, secrets: seq<Bytes>, maxLen: nat, p: nat)
    requires Room(b, secrets, maxLen, p) && MatchLen(b, secrets) > 0
    ensures Room(b[MatchLen(b, secrets)..], secrets, maxLen, if p >= |MASK| then p - |MASK| else 0)
  {
  }

  lemma RoomAfterByte(b: Bytes, secrets: seq<Bytes>, maxLen: nat, p: nat)
    requires Room(b, secrets, maxLen, p) && b != [] && MatchLen(b, secrets) == 0
    ensures Room(b[1..], secrets, maxLen, if p >= 1 then p - 1 else 0)
  {
  }

  /** It completes it from its beginning, and from anywhere that leaves room for a secret that is still being
      assembled. */
  lemma {:induction false} RescanCompletes(b: Bytes, more: Bytes, secrets: seq<Bytes>, maxLen: nat, p: nat)
    requires AllClean(secrets) && NotNested(secrets) && Bounded(secrets, maxLen) && Room(b, secrets, maxLen, p)
    ensures Completes(b, more, secrets, p)
    decreases |b|
  {
    if b == [] {
      CompletesAll(b, more, secrets);
    } else if MatchLen(b, secrets) > 0 {
      RoomAfterMatch(b, secrets, maxLen, p);
      RescanCompletes(b[MatchLen(b, secrets)..], more, secrets, maxLen, if p >= |MASK| then p - |MASK| else 0);
      CompletesMatch(b, more, secrets, p);
    } else if MatchLen(b + more, secrets) > 0 {
      CompletesPending(b, more, secrets, maxLen, p);
    } else {
      RoomAfterByte(b, secrets, maxLen, p);
      RescanCompletes(b[1..], more, secrets, maxLen, if p >= 1 then p - 1 else 0);
      if p >= 1 {
        CompletesByte(b, more, secrets, p - 1);
      } else {
        CompletesFromByte(b, more, secrets);
      }
    }
  }

  /** What a scan leaves raw at its beginning does not come to match by the masks behind it. */
  lemma NothingNewMatches(b: Bytes, more: Bytes, secrets: seq<Bytes>)
    requires AllClean(secrets) && MatchLen(b + more, secrets) == 0
    ensures MatchLen(Scan(b, secrets) + more, secrets) == 0
  {
    var red := Scan(b, secrets);
    var n := MatchLen(red + more, secrets);
    MatchLenIsASecret(red + more, secrets);
    if n > 0 {
      var s := (red + more)[..n];
      StarFreePrefixIsRaw(b, secrets, more, s);
      MatchLenFinds(b + more, secrets, s);
    }
  }

  /** The total output if the first `p` redacted bytes are passed on and the others redacted again. */
  function Resumed(st: Stream, more: Bytes, secrets: seq<Bytes>, p: nat): Bytes
    requires p <= |Scan(st.buf, secrets)|
  {
    var red := Scan(st.buf, secrets);
    st.out + red[..p] + Scan(red[p..] + more, secrets)
  }

  lemma ResumedIsBatch(st: Stream, more: Bytes, secrets: seq<Bytes>, p: nat)
    requires Completes(st.buf, more, secrets, p)
    ensures Resumed(st, more, secrets, p) == Batch(st, more, secrets)
  {
    var red := Scan(st.buf, secrets);
    Associates(st.out, red[..p], Scan(red[p..] + more, secrets));
  }

  function CutOf(b: Bytes, secrets: seq<Bytes>, maxLen: nat): (cut: nat)
    ensures Room(b, secrets, maxLen, cut)
  {
    var red := Scan(b, secrets);
    |red| - Held(red, maxLen)
  }

  lemma FlushResumes(st: Stream, more: Bytes, secrets: seq<Bytes>, maxLen: nat)
    requires |st.buf| > REDACT_BUF_CAP
    ensures Batch(CapBuffer(st, secrets, maxLen), more, secrets) ==
            Resumed(st, more, secrets, CutOf(st.buf, secrets, maxLen))
  {
  }

  lemma FlushKeepsBatch(st: Stream, more: Bytes, secrets: seq<Bytes>, maxLen: nat)
    requires AllClean(secrets) && NotNested(secrets) && Bounded(secrets, maxLen)
    ensures Batch(CapBuffer(st, secrets, maxLen), more, secrets) == Batch(st, more, secrets)
  {
    if |st.buf| > REDACT_BUF_CAP {
      var cut := CutOf(st.buf, secrets, maxLen);
      RescanCompletes(st.buf, more, secrets, maxLen, cut);
      FlushResumes(st, more, secrets, maxLen);
      ResumedIsBatch(st, more, secrets, cut);
    }
  }

  lemma {:induction false} AlwaysTracksBatch(chunks: seq<Bytes>, secrets: seq<Bytes>, maxLen: nat, more: Bytes)
    requires AllClean(secrets) && NotNested(secrets) && Bounded(secrets, maxLen)
    ensures Batch(AfterWrites(chunks, secrets, maxLen), more, secrets) == Scan(Concat(chunks) + more, secrets)
    decreases |chunks|
  {
    if chunks == [] {
      assert [] + more == more;
      assert [] + Scan(more, secrets) == Scan(more, secrets);
    } else {
      var front, p := chunks[..|chunks| - 1], chunks[|chunks| - 1];
      AlwaysTracksBatch(front, secrets, maxLen, p + more);
      var st := AfterWrites(front, secrets, maxLen);
      var grown := Stream(st.out, st.buf + p);
      DrainKeepsBatch(grown, more, secrets);
      FlushKeepsBatch(DrainLines(grown, secrets), more, secrets, maxLen);
      Associates(st.buf, p, more);
      Associates(Concat(front), p, more);
    }
  }

  lemma UnnestedIsExact(chunks: seq<Bytes>, secrets: seq<Bytes>, maxLen: nat)
    requires AllClean(secrets) && NotNested(secrets) && Bounded(secrets, maxLen)
    ensures Emitted(chunks, secrets, maxLen) == Scan(Concat(chunks), secrets)
  {
    AlwaysTracksBatch(chunks, secrets, maxLen, []);
    var st := AfterWrites(chunks, secrets, maxLen);
    assert st.buf + [] == st.buf && Concat(chunks) + [] == Concat(chunks);
  }

  // ---- nested secrets are let through in part ----

  /** Bytes that no secret can start in, whatever follows: they pass every scan as they are. */
  ghost predicate Settled(b: Bytes, secrets: seq<Bytes>) {
    b != [] ==> b[|b| - 1] == STAR && forall j :: 0 <= j < |b| ==> MatchLen(b[j..], secrets) == 0
  }

  lemma SettledNeverMatches(b: Bytes, more: Bytes, secrets: seq<Bytes>)
    requires AllClean(secrets) && Settled(b, secrets) && b != []
    ensures MatchLen(b + more, secrets) == 0
  {
    var m := MatchLen(b + more, secrets);
    MatchLenIsASecret(b + more, secrets);
    if m > 0 {
      var s := (b + more)[..m];
      assert b[0..] == b;
      ShorterWouldMatch(b, more, secrets, s);
      PrefixCovers(s, b + more, |b| - 1);
    }
  }

  lemma SettledTail(b: Bytes, secrets: seq<Bytes>, n: nat)
    requires Settled(b, secrets) && n <= |b|
    ensures Settled(b[n..], secrets)
  {
    var t := b[n..];
    forall j | 0 <= j < |t| ensures MatchLen(t[j..], secrets) == 0 {
      assert t[j..] == b[n + j..];
    }
  }

  lemma {:induction false} SettledPasses(b: Bytes, more: Bytes, secrets: seq<Bytes>)
    requires AllClean(secrets) && Settled(b, secrets)
    ensures Scan(b + more, secrets) == b + Scan(more, secrets)
    decreases |b|
  {
    if b == [] {
      assert b + more == more;
    } else {
      SettledNeverMatches(b, more, secrets);
      SettledTail(b, secrets, 1);
      SettledPasses(b[1..], more, secrets);
      ScanByte(b, more, secrets);
      assert [b[0]] + b[1..] == b;
      Associates([b[0]], b[1..], Scan(more, secrets));
    }
  }

  /** The stream holds `b`, settled, and more. */
  ghost predicate Beyond(st: Stream, b: Bytes) {
    b <= st.out + st.buf && |st.out| + |st.buf| > |b|
  }

  lemma ScanStaysBeyond(st: Stream, b: Bytes, secrets: seq<Bytes>)
    requires AllClean(secrets) && Settled(b, secrets) && Beyond(st, b)
    ensures Beyond(Stream(st.out, Scan(st.buf, secrets)), b)
  {
    var whole := st.out + st.buf;
    if |st.out| <= |b| {
      var head, rest := b[|st.out|..], whole[|b|..];
      assert st.out == b[..|st.out|] by { assert st.out == whole[..|st.out|]; assert b == whole[..|b|]; }
      assert st.buf == head + rest by {
        assert st.buf == whole[|st.out|..];
        assert b == whole[..|b|];
      }
      SettledTail(b, secrets, |st.out|);
      SettledPasses(head, rest, secrets);
      assert st.out + head == b;
      Associates(st.out, head, Scan(rest, secrets));
    } else {
      assert b == whole[..|b|] == st.out[..|b|];
    }
  }

  /** A flush moves the scanned bytes on without changing them. */
  lemma CapKeepsScan(st: Stream, secrets: seq<Bytes>, maxLen: nat)
    requires |st.buf| > REDACT_BUF_CAP
    ensures var flushed := CapBuffer(st, secrets, maxLen);
            flushed.out + flushed.buf == st.out + Scan(st.buf, secrets) &&
            forall x :: x in flushed.buf ==> x in Scan(st.buf, secrets)
  {
    var red := Scan(st.buf, secrets);
    var cut := |red| - Held(red, maxLen);
    Associates(st.out, red[..cut], red[cut..]);
    assert red[..cut] + red[cut..] == red;
  }

  lemma CapStaysBeyond(st: Stream, b: Bytes, secrets: seq<Bytes>, maxLen: nat)
    requires AllClean(secrets) && Settled(b, secrets) && Beyond(st, b)
    ensures Beyond(CapBuffer(st, secrets, maxLen), b)
  {
    if |st.buf| > REDACT_BUF_CAP {
      ScanStaysBeyond(st, b, secrets);
      CapKeepsScan(st, secrets, maxLen);
    }
  }

  lemma {:induction false} RawMeansNoMatch(b: Bytes, secrets: seq<Bytes>, j: nat)
    requires j < RawLen(b, secrets)
    ensures j < |b| && MatchLen(b[j..], secrets) == 0
    decreases j
  {
    if j == 0 {
      assert b[0..] == b;
    } else {
      RawMeansNoMatch(b[1..], secrets, j - 1);
      assert b[1..][j - 1..] == b[j..];
    }
  }

  lemma {:induction false} ScanFromRaw(b: Bytes, secrets: seq<Bytes>)
    ensures var q := RawLen(b, secrets); q <= |b| && Scan(b, secrets) == b[..q] + Scan(b[q..], secrets)
    decreases |b|
  {
    if b == [] || MatchLen(b, secrets) > 0 {
      assert b[..0] == [] && b[0..] == b;
      assert [] + Scan(b, secrets) == Scan(b, secrets);
    } else {
      var q := RawLen(b[1..], secrets);
      ScanFromRaw(b[1..], secrets);
      assert b[1..][q..] == b[q + 1..] && b[..q + 1] == [b[0]] + b[1..][..q];
      Associates([b[0]], b[1..][..q], Scan(b[q + 1..], secrets));
    }
  }

  /** An over-long line: stars, what a scan of `b` leaves raw before its first mask, and that mask. */
  function Opening(b: Bytes, secrets: seq<Bytes>): Bytes {
    Stars(REDACT_BUF_CAP) + b[..RawLen(b, secrets)] + MASK
  }

  lemma OpeningIsSettled(b: Bytes, secrets: seq<Bytes>)
    requires AllClean(secrets)
    ensures Settled(Opening(b, secrets), secrets)
  {
    var open, q := Opening(b, secrets), RawLen(b, secrets);
    forall j | 0 <= j < |open| ensures MatchLen(open[j..], secrets) == 0 {
      var m := MatchLen(open[j..], secrets);
      MatchLenIsASecret(open[j..], secrets);
      if m > 0 {
        var s := open[j..][..m];
        assert s[0] == open[j] && s[0] in s;
        var i := j - REDACT_BUF_CAP;
        assert 0 <= i < q;
        RawMeansNoMatch(b, secrets, i);
        MatchInsideRaw(b, secrets, s, i);
      }
    }
  }

  lemma MatchInsideRaw(b: Bytes, secrets: seq<Bytes>, s: Bytes, i: nat)
    requires i < RawLen(b, secrets) <= |b| && s in secrets && s != [] && STAR !in s
    requires s <= b[i..RawLen(b, secrets)] + MASK
    ensures MatchLen(b[i..], secrets) > 0
  {
    var raw := b[i..RawLen(b, secrets)];
    if |s| > |raw| {
      PrefixCovers(s, raw + MASK, |raw|);
    }
    assert s == (raw + MASK)[..|s|] == b[i..][..|s|];
    MatchLenFinds(b[i..], secrets, s);
  }

  lemma {:induction false} ScanBreaksNoLine(b: Bytes, secrets: seq<Bytes>)
    requires NEWLINE !in b
    ensures NEWLINE !in Scan(b, secrets)
    decreases |b|
  {
    if b != [] {
      ScanBreaksNoLine(if MatchLen(b, secrets) > 0 then b[MatchLen(b, secrets)..] else b[1..], secrets);
    }
  }

  lemma OpenLineStays(st: Stream, secrets: seq<Bytes>)
    requires NEWLINE !in st.buf
    ensures DrainLines(st, secrets) == st
  {
    NoLineEnd(st.buf);
  }

  lemma {:induction false} RawEndsInMatch(b: Bytes, secrets: seq<Bytes>)
    requires RawLen(b, secrets) < |b|
    ensures MatchLen(b[RawLen(b, secrets)..], secrets) > 0
    decreases |b|
  {
    if MatchLen(b, secrets) > 0 {
      assert b[0..] == b;
    } else {
      RawEndsInMatch(b[1..], secrets);
      assert b[1..][RawLen(b[1..], secrets)..] == b[RawLen(b, secrets)..];
    }
  }

  /** A scan of stars and then `b` begins with the opening. */
  lemma OpeningIsScanned(b: Bytes, secrets: seq<Bytes>)
    requires AllClean(secrets) && RawLen(b, secrets) < |b|
    ensures Opening(b, secrets) <= Scan(Stars(REDACT_BUF_CAP) + b, secrets)
  {
    var q := RawLen(b, secrets);
    StarsPass(REDACT_BUF_CAP, b, secrets);
    ScanFromRaw(b, secrets);
    RawEndsInMatch(b, secrets);
    var rest := Scan(b[q..][MatchLen(b[q..], secrets)..], secrets);
    assert Scan(b[q..], secrets) == MASK + rest;
    Associates(b[..q], MASK, rest);
    Associates(Stars(REDACT_BUF_CAP), b[..q] + MASK, rest);
    Associates(Stars(REDACT_BUF_CAP), b[..q], MASK);
  }

  lemma FirstWrite(b: Bytes, secrets: seq<Bytes>, maxLen: nat)
    requires AllClean(secrets) && RawLen(b, secrets) < |b| && NEWLINE !in b
    ensures var st := WriteStep(Stream([], []), Stars(REDACT_BUF_CAP) + b, secrets, maxLen);
            Opening(b, secrets) <= st.out + st.buf && NEWLINE !in st.buf
  {
    var line := Stars(REDACT_BUF_CAP) + b;
    assert [] + line == line;
    OpenLineStays(Stream([], line), secrets);
    OpeningIsScanned(b, secrets);
    ScanBreaksNoLine(line, secrets);
    CapKeepsScan(Stream([], line), secrets, maxLen);
    assert [] + Scan(line, secrets) == Scan(line, secrets);
  }

  lemma SecondWrite(st: Stream, v: Bytes, b: Bytes, secrets: seq<Bytes>, maxLen: nat)
    requires AllClean(secrets) && Settled(b, secrets) && b <= st.out + st.buf && v != []
    requires NEWLINE !in st.buf && NEWLINE !in v
    ensures |CloseStep(WriteStep(st, v, secrets, maxLen), secrets)| > |b|
  {
    var grown := Stream(st.out, st.buf + v);
    OpenLineStays(grown, secrets);
    Associates(st.out, st.buf, v);
    CapStaysBeyond(grown, b, secrets, maxLen);
    ScanStaysBeyond(CapBuffer(grown, secrets, maxLen), b, secrets);
  }

  lemma TwoWrites(u: Bytes, v: Bytes, secrets: seq<Bytes>, maxLen: nat)
    requires AllClean(secrets) && RawLen(u, secrets) < |u| && NEWLINE !in u && NEWLINE !in v && v != []
    ensures |Emitted([Stars(REDACT_BUF_CAP) + u, v], secrets, maxLen)| > REDACT_BUF_CAP + |MASK|
  {
    var first := Stars(REDACT_BUF_CAP) + u;
    FirstWrite(u, secrets, maxLen);
    OpeningIsSettled(u, secrets);
    SecondWrite(WriteStep(Stream([], []), first, secrets, maxLen), v, Opening(u, secrets), secrets, maxLen);
    AfterTwoWrites(first, v, secrets, maxLen);
  }

  /** An over-long line that ends in the outer secret, cut where the inner one ends. */
  lemma NestedDiffers(secrets: seq<Bytes>, maxLen: nat, s: Bytes, t: Bytes, k: nat) returns (chunks: seq<Bytes>)
    requires AllClean(secrets) && LongestFirst(secrets) && s in secrets && t in secrets && t != []
    requires OccursAt(t, s, k) && k + |t| < |s|
    ensures |Emitted(chunks, secrets, maxLen)| > |Scan(Concat(chunks), secrets)|
  {
    var u, v := s[..k + |t|], s[k + |t|..];
    var first := Stars(REDACT_BUF_CAP) + u;
    chunks := [first, v];
    assert u[k..k + |t|] == t;
    InnerIsMasked(u, secrets, t, k);
    TwoWrites(u, v, secrets, maxLen);
    ConcatTwo(first, v);
    Associates(Stars(REDACT_BUF_CAP), u, v);
    assert u + v == s;
    WholeSecretScan(s, secrets);
  }

  lemma InnerIsMasked(u: Bytes, secrets: seq<Bytes>, t: Bytes, k: nat)
    requires t in secrets && t != [] && OccursAt(t, u, k)
    ensures RawLen(u, secrets) < |u|
  {
    assert t <= u[k..] by { assert u[k..][..|t|] == u[k..k + |t|]; }
    MatchLenFinds(u[k..], secrets, t);
    if k < RawLen(u, secrets) {
      RawMeansNoMatch(u, secrets, k);
    }
  }

  lemma WholeSecretScan(s: Bytes, secrets: seq<Bytes>)
    requires AllClean(secrets) && LongestFirst(secrets) && s in secrets && s != []
    ensures |Scan(Stars(REDACT_BUF_CAP) + s, secrets)| == REDACT_BUF_CAP + |MASK|
  {
    StarsPass(REDACT_BUF_CAP, s, secrets);
    LongestMatchWins(s, secrets, s);
    assert MatchLen(s, secrets) == |s|;
    assert Scan(s, secrets) == MASK + Scan([], secrets);
  }

  ghost predicate AlwaysExact(secrets: seq<Bytes>, maxLen: nat) {
    forall chunks :: Emitted(chunks, secrets, maxLen) == Scan(Concat(chunks), secrets)
  }

  /** The stream emits the one-pass redaction of every input, over-long lines included, however it is cut into
      writes, if and only if no secret occurs inside another other than at its end. */
  lemma AlwaysExactIff(secrets: seq<Bytes>, maxLen: nat)
    requires AllClean(secrets) && LongestFirst(secrets) && Bounded(secrets, maxLen)
    ensures AlwaysExact(secrets, maxLen) <==> NotNested(secrets)
  {
    if NotNested(secrets) {
      forall chunks ensures Emitted(chunks, secrets, maxLen) == Scan(Concat(chunks), secrets) {
        UnnestedIsExact(chunks, secrets, maxLen);
      }
    } else {
      var s, t, k :| s in secrets && t in secrets && t != [] && OccursAt(t, s, k) && k + |t| != |s|;
      var chunks := NestedDiffers(secrets, maxLen, s, t, k);
    }
  }
}
