/** The streaming log redactor (internal/executor/runner.go), as functions on byte sequences.

    `Scan` is redactBytes: one left-to-right pass, the first matching secret of the list masked.
    `Write` and `Close` are redactWriter's steps on (bytes emitted, bytes held back). The two main
    results are that no clean secret is ever emitted, whatever the chunking and the length of the
    lines, and that on lines up to the buffer cap the stream equals the batch pass; module
    RedactionExact says for which secrets it does on all lines. */
module Redaction {

  newtype Byte = x: int | 0 <= x < 256
  type Bytes = seq<Byte>

  const NEWLINE: Byte := 10
  const STAR: Byte := 42
  const MASK: Bytes := [42, 42, 42, 42]
  const REDACT_BUF_CAP: nat := 0x10_0000

  predicate OccursAt(s: Bytes, b: Bytes, i: int) {
    0 <= i && i + |s| <= |b| && b[i..i + |s|] == s
  }

  predicate Contains(b: Bytes, s: Bytes) {
    exists i :: 0 <= i <= |b| && OccursAt(s, b, i)
  }

  /** Length of the first non-empty secret that `b` starts with, 0 when there is none. */
  function MatchLen(b: Bytes, secrets: seq<Bytes>): (n: nat)
    ensures n <= |b|
  {
    if secrets == [] then 0
    else if secrets[0] != [] && secrets[0] <= b then |secrets[0]|
    else MatchLen(b, secrets[1..])
  }

  function Scan(b: Bytes, secrets: seq<Bytes>): Bytes
    decreases |b|
  {
    if b == [] then []
    else
      var m := MatchLen(b, secrets);
      if m > 0 then MASK + Scan(b[m..], secrets) else [b[0]] + Scan(b[1..], secrets)
  }

  lemma {:induction false} MatchLenFinds(b: Bytes, secrets: seq<Bytes>, s: Bytes)
    requires s in secrets && s != [] && s <= b
    ensures MatchLen(b, secrets) > 0
    decreases |secrets|
  {
    if !(secrets[0] != [] && secrets[0] <= b) {
      MatchLenFinds(b, secrets[1..], s);
    }
  }

  lemma {:induction false} MatchLenIsASecret(b: Bytes, secrets: seq<Bytes>)
    ensures MatchLen(b, secrets) > 0 ==> b[..MatchLen(b, secrets)] in secrets
    decreases |secrets|
  {
    if secrets != [] {
      if secrets[0] != [] && secrets[0] <= b {
        assert b[..|secrets[0]|] == secrets[0];
      } else {
        MatchLenIsASecret(b, secrets[1..]);
      }
    }
  }

  lemma PrefixCovers(s: Bytes, b: Bytes, j: int)
    requires s <= b && 0 <= j < |s|
    ensures b[j] in s
  {
    assert s[j] == b[j];
  }

  lemma OccurrenceCovers(s: Bytes, b: Bytes, i: int, j: int)
    requires OccursAt(s, b, i) && i <= j < i + |s|
    ensures b[j] in s
  {
    assert b[i..i + |s|][j - i] == b[j];
    assert s[j - i] == b[j];
  }

  ghost predicate LongestFirst(secrets: seq<Bytes>) {
    forall i, j :: 0 <= i < j < |secrets| ==> |secrets[i]| >= |secrets[j]|
  }

  /** With the secrets sorted as newLogSink sorts them, the longest match wins. */
  lemma {:induction false} LongestMatchWins(b: Bytes, secrets: seq<Bytes>, s: Bytes)
    requires LongestFirst(secrets) && s in secrets && s <= b
    ensures |s| <= MatchLen(b, secrets)
    decreases |secrets|
  {
    if !(secrets[0] != [] && secrets[0] <= b) && s != [] {
      LongestMatchWins(b, secrets[1..], s);
    }
  }

  /** How many bytes pass unmasked before the first mask. */
  function RawLen(b: Bytes, secrets: seq<Bytes>): (n: nat)
    ensures n <= |b|
    decreases |b|
  {
    if b == [] || MatchLen(b, secrets) > 0 then 0 else 1 + RawLen(b[1..], secrets)
  }

  lemma {:induction false} RawThenStar(b: Bytes, secrets: seq<Bytes>)
    ensures var q, out := RawLen(b, secrets), Scan(b, secrets);
            && q <= |b| && q <= |out| && out[..q] == b[..q]
            && (q < |b| ==> q < |out| && out[q] == STAR)
            && (q == |b| ==> out == b)
    decreases |b|
  {
    if b != [] && MatchLen(b, secrets) == 0 {
      RawThenStar(b[1..], secrets);
      var q := RawLen(b[1..], secrets);
      assert Scan(b, secrets)[..q + 1] == [b[0]] + Scan(b[1..], secrets)[..q];
      assert b[..q + 1] == [b[0]] + b[1..][..q];
      assert b == [b[0]] + b[1..];
    }
  }

  /** What survives a scan unmasked was there before: a star-free beginning of the scanned bytes,
      with anything following them, is a beginning of the raw bytes. */
  lemma StarFreePrefixIsRaw(b: Bytes, secrets: seq<Bytes>, ext: Bytes, y: Bytes)
    requires STAR !in y && y <= Scan(b, secrets) + ext
    ensures y <= b + ext
  {
    RawThenStar(b, secrets);
    var q, whole := RawLen(b, secrets), Scan(b, secrets) + ext;
    if q < |b| {
      assert |y| <= q by {
        if q < |y| { PrefixCovers(y, whole, q); }
      }
      assert y == whole[..|y|] == Scan(b, secrets)[..q][..|y|] == b[..q][..|y|] == (b + ext)[..|y|];
    }
  }

  /** A secret that the mask cannot spell and a line break cannot split. */
  predicate CleanSecret(s: Bytes) {
    s != [] && STAR !in s && NEWLINE !in s
  }

  /** One pass leaves no star-free secret behind, and cannot build one either. */
  lemma {:induction false} ScanLeavesNoSecret(b: Bytes, secrets: seq<Bytes>, s: Bytes, i: int)
    requires s in secrets && s != [] && STAR !in s
    ensures !OccursAt(s, Scan(b, secrets), i)
    decreases |b|
  {
    var out, m := Scan(b, secrets), MatchLen(b, secrets);
    if b != [] && OccursAt(s, out, i) {
      if m > 0 {
        if i >= |MASK| {
          OccurrenceInTail(s, MASK, Scan(b[m..], secrets), i);
        }
        ScanLeavesNoSecret(b[m..], secrets, s, i - |MASK|);
        OccurrenceCovers(s, out, i, i);
      } else if i == 0 {
        SurvivorWouldMatch(b, secrets, s);
      } else {
        OccurrenceInTail(s, [b[0]], Scan(b[1..], secrets), i);
        ScanLeavesNoSecret(b[1..], secrets, s, i - 1);
      }
    }
  }

  lemma OccurrenceInTail(s: Bytes, head: Bytes, tail: Bytes, i: int)
    requires OccursAt(s, head + tail, i) && i >= |head|
    ensures OccursAt(s, tail, i - |head|)
  {
    var j := i - |head|;
    assert (head + tail)[i..i + |s|] == tail[j..j + |s|];
  }

  lemma OccurrenceInHead(s: Bytes, head: Bytes, tail: Bytes, i: int)
    requires OccursAt(s, head + tail, i) && i + |s| <= |head|
    ensures OccursAt(s, head, i)
  {
    assert (head + tail)[i..i + |s|] == head[i..i + |s|];
  }

  lemma SurvivorWouldMatch(b: Bytes, secrets: seq<Bytes>, s: Bytes)
    requires s in secrets && s != [] && STAR !in s && OccursAt(s, Scan(b, secrets), 0)
    ensures MatchLen(b, secrets) > 0
  {
    var out := Scan(b, secrets);
    assert s == out[..|s|] && out + [] == out && b + [] == b;
    StarFreePrefixIsRaw(b, secrets, [], s);
    MatchLenFinds(b, secrets, s);
  }

  // ---- the stream ----

  /** Bytes already passed on, and bytes held back in `buf`. */
  datatype Stream = Stream(out: Bytes, buf: Bytes)

  /** Position of the first newline, |b| when there is none. */
  function LineEnd(b: Bytes): (i: nat)
    ensures i <= |b| && NEWLINE !in b[..i] && (i < |b| ==> b[i] == NEWLINE)
  {
    if b == [] || b[0] == NEWLINE then 0
    else
      var k := LineEnd(b[1..]);
      assert b[..k + 1] == [b[0]] + b[1..][..k];
      k + 1
  }

  /** Passes on the line that ends at `i`, redacted. */
  function PassLine(st: Stream, i: nat, secrets: seq<Bytes>): Stream
    requires i < |st.buf|
  {
    Stream(st.out + Scan(st.buf[..i + 1], secrets), st.buf[i + 1..])
  }

  /** Passes on every complete line. */
  function DrainLines(st: Stream, secrets: seq<Bytes>): Stream
    decreases |st.buf|
  {
    var i := LineEnd(st.buf);
    if i == |st.buf| then st else DrainLines(PassLine(st, i, secrets), secrets)
  }

  function Held(red: Bytes, maxLen: nat): (keep: nat)
    ensures keep <= |red|
  {
    var keep := maxLen - 1;
    if keep > |red| then |red| else if keep < 0 then 0 else keep
  }

  /** Bounds an over-long line: redact everything, hold back the last maxLen-1 bytes. */
  function CapBuffer(st: Stream, secrets: seq<Bytes>, maxLen: nat): Stream {
    if |st.buf| <= REDACT_BUF_CAP then st
    else
      var red := Scan(st.buf, secrets);
      var cut := |red| - Held(red, maxLen);
      Stream(st.out + red[..cut], red[cut..])
  }

  function WriteStep(st: Stream, p: Bytes, secrets: seq<Bytes>, maxLen: nat): Stream {
    CapBuffer(DrainLines(Stream(st.out, st.buf + p), secrets), secrets, maxLen)
  }

  function CloseStep(st: Stream, secrets: seq<Bytes>): Bytes {
    st.out + Scan(st.buf, secrets)
  }

  function AfterWrites(chunks: seq<Bytes>, secrets: seq<Bytes>, maxLen: nat): Stream {
    if chunks == [] then Stream([], [])
    else WriteStep(AfterWrites(chunks[..|chunks| - 1], secrets, maxLen), chunks[|chunks| - 1], secrets, maxLen)
  }

  /** Everything emitted for a sequence of writes followed by Close. */
  function Emitted(chunks: seq<Bytes>, secrets: seq<Bytes>, maxLen: nat): Bytes {
    CloseStep(AfterWrites(chunks, secrets, maxLen), secrets)
  }

  // ---- no secret leaks ----

  /** No occurrence of `s` starts in the emitted bytes, however the held-back bytes continue. */
  ghost predicate Sealed(st: Stream, s: Bytes) {
    forall ext, i :: 0 <= i < |st.out| ==> !OccursAt(s, st.out + st.buf + ext, i)
  }

  /** An occurrence that starts before a scanned stretch was already there before the scan. */
  lemma OccurrenceWasRaw(out: Bytes, raw: Bytes, rest: Bytes, secrets: seq<Bytes>, s: Bytes, i: int)
    requires STAR !in s && 0 <= i < |out| && OccursAt(s, out + (Scan(raw, secrets) + rest), i)
    ensures OccursAt(s, out + (raw + rest), i)
  {
    var before, after := out + (raw + rest), out + (Scan(raw, secrets) + rest);
    if i + |s| <= |out| {
      assert before[i..i + |s|] == out[i..i + |s|] == after[i..i + |s|];
    } else {
      var n := i + |s| - |out|;
      var y := s[|out| - i..];
      assert after[i..i + |s|] == out[i..] + (Scan(raw, secrets) + rest)[..n];
      assert y == (Scan(raw, secrets) + rest)[..n];
      StarFreePrefixIsRaw(raw, secrets, rest, y);
      assert y == (raw + rest)[..n];
      assert before[i..i + |s|] == out[i..] + (raw + rest)[..n];
    }
  }

  /** Replacing raw held bytes by their scan creates no occurrence that starts before them. */
  lemma NoOccurrenceAcross(st: Stream, raw: Bytes, rest: Bytes, secrets: seq<Bytes>, s: Bytes, i: int, ext: Bytes)
    requires STAR !in s && Sealed(st, s) && st.buf == raw + rest
    requires 0 <= i < |st.out|
    ensures !OccursAt(s, st.out + Scan(raw, secrets) + rest + ext, i)
  {
    assert st.out + Scan(raw, secrets) + rest + ext == st.out + (Scan(raw, secrets) + (rest + ext));
    assert st.out + st.buf + ext == st.out + (raw + (rest + ext));
    assert !OccursAt(s, st.out + st.buf + ext, i);
    if OccursAt(s, st.out + (Scan(raw, secrets) + (rest + ext)), i) {
      OccurrenceWasRaw(st.out, raw, rest + ext, secrets, s, i);
    }
  }

  /** Nor does an occurrence start inside a scanned stretch and fit there. */
  lemma NoOccurrenceInside(out: Bytes, raw: Bytes, rest: Bytes, secrets: seq<Bytes>, s: Bytes, i: int)
    requires s in secrets && s != [] && STAR !in s
    requires |out| <= i && i + |s| <= |out| + |Scan(raw, secrets)|
    ensures !OccursAt(s, out + Scan(raw, secrets) + rest, i)
  {
    var red := Scan(raw, secrets);
    ScanLeavesNoSecret(raw, secrets, s, i - |out|);
    assert out + red + rest == out + (red + rest);
    if OccursAt(s, out + (red + rest), i) {
      OccurrenceInTail(s, out, red + rest, i);
      OccurrenceInHead(s, red, rest, i - |out|);
    }
  }

  /** A scanned line ends in a byte no clean secret contains. */
  lemma {:induction false} ScannedLineEnd(line: Bytes, secrets: seq<Bytes>)
    requires line != [] && line[|line| - 1] == NEWLINE
    ensures var out := Scan(line, secrets); out != [] && out[|out| - 1] in {NEWLINE, STAR}
    decreases |line|
  {
    var m := MatchLen(line, secrets);
    if m > 0 {
      if m < |line| { ScannedLineEnd(line[m..], secrets); }
    } else if |line| > 1 {
      ScannedLineEnd(line[1..], secrets);
    }
  }

  lemma SealedAfterLine(st: Stream, i: nat, secrets: seq<Bytes>, s: Bytes)
    requires CleanSecret(s) && s in secrets && Sealed(st, s)
    requires i < |st.buf| && st.buf[i] == NEWLINE
    ensures Sealed(PassLine(st, i, secrets), s)
  {
    var line, rest := st.buf[..i + 1], st.buf[i + 1..];
    var red := Scan(line, secrets);
    var out := st.out + red;
    ScannedLineEnd(line, secrets);
    forall ext, k | 0 <= k < |out| ensures !OccursAt(s, out + rest + ext, k) {
      if k < |st.out| {
        assert st.buf == line + rest;
        NoOccurrenceAcross(st, line, rest, secrets, s, k, ext);
      } else if k + |s| <= |out| {
        assert out + rest + ext == st.out + red + (rest + ext);
        NoOccurrenceInside(st.out, line, rest + ext, secrets, s, k);
      } else if OccursAt(s, out + rest + ext, k) {
        OccurrenceCovers(s, out + rest + ext, k, |out| - 1);
      }
    }
  }

  lemma {:induction false} SealedAfterDrain(st: Stream, secrets: seq<Bytes>, s: Bytes)
    requires CleanSecret(s) && s in secrets && Sealed(st, s)
    ensures Sealed(DrainLines(st, secrets), s)
    decreases |st.buf|
  {
    var i := LineEnd(st.buf);
    if i < |st.buf| {
      SealedAfterLine(st, i, secrets, s);
      SealedAfterDrain(PassLine(st, i, secrets), secrets, s);
    }
  }

  /** Holding back maxLen-1 bytes is enough: an occurrence starting in the emitted part would
      lie inside the scanned buffer. */
  lemma SealedAfterCap(st: Stream, secrets: seq<Bytes>, maxLen: nat, s: Bytes)
    requires CleanSecret(s) && s in secrets && |s| <= maxLen && Sealed(st, s)
    ensures Sealed(CapBuffer(st, secrets, maxLen), s)
  {
    if |st.buf| > REDACT_BUF_CAP {
      var red := Scan(st.buf, secrets);
      var next := CapBuffer(st, secrets, maxLen);
      forall ext, k | 0 <= k < |next.out| ensures !OccursAt(s, next.out + next.buf + ext, k) {
        var all := next.out + next.buf + ext;
        assert all == st.out + red + [] + ext;
        if k < |st.out| {
          assert st.buf == st.buf + [];
          NoOccurrenceAcross(st, st.buf, [], secrets, s, k, ext);
        } else {
          assert all == st.out + red + ext;
          NoOccurrenceInside(st.out, st.buf, ext, secrets, s, k);
        }
      }
    }
  }

  lemma SealedAfterWrite(st: Stream, p: Bytes, secrets: seq<Bytes>, maxLen: nat, s: Bytes)
    requires CleanSecret(s) && s in secrets && |s| <= maxLen && Sealed(st, s)
    ensures Sealed(WriteStep(st, p, secrets, maxLen), s)
  {
    var grown := Stream(st.out, st.buf + p);
    forall ext, i | 0 <= i < |grown.out| ensures !OccursAt(s, grown.out + grown.buf + ext, i) {
      assert grown.out + grown.buf + ext == st.out + st.buf + (p + ext);
    }
    SealedAfterDrain(grown, secrets, s);
    SealedAfterCap(DrainLines(grown, secrets), secrets, maxLen, s);
  }

  lemma {:induction false} SealedAlways(chunks: seq<Bytes>, secrets: seq<Bytes>, maxLen: nat, s: Bytes)
    requires CleanSecret(s) && s in secrets && |s| <= maxLen
    ensures Sealed(AfterWrites(chunks, secrets, maxLen), s)
    decreases |chunks|
  {
    if chunks != [] {
      var front := chunks[..|chunks| - 1];
      SealedAlways(front, secrets, maxLen, s);
      SealedAfterWrite(AfterWrites(front, secrets, maxLen), chunks[|chunks| - 1], secrets, maxLen, s);
    }
  }

  /** For any writes in any chunking followed by Close, no clean secret is among the emitted bytes,
      on lines of any length and whatever the other secrets are. */
  lemma NoSecretEmitted(chunks: seq<Bytes>, secrets: seq<Bytes>, maxLen: nat, s: Bytes)
    requires CleanSecret(s) && s in secrets && |s| <= maxLen
    ensures !Contains(Emitted(chunks, secrets, maxLen), s)
  {
    var st := AfterWrites(chunks, secrets, maxLen);
    var all := Emitted(chunks, secrets, maxLen);
    SealedAlways(chunks, secrets, maxLen, s);
    forall i | 0 <= i <= |all| ensures !OccursAt(s, all, i) {
      if i < |st.out| {
        assert st.buf == st.buf + [] && all == all + [] + [];
        NoOccurrenceAcross(st, st.buf, [], secrets, s, i, []);
      } else if i + |s| <= |all| {
        assert all == st.out + Scan(st.buf, secrets) + [];
        NoOccurrenceInside(st.out, st.buf, [], secrets, s, i);
      }
    }
  }

  // ---- streaming equals batch ----

  ghost predicate NewlineFree(secrets: seq<Bytes>) {
    forall s :: s in secrets ==> NEWLINE !in s
  }

  lemma {:induction false} MatchStopsAtNewline(a: Bytes, b: Bytes, secrets: seq<Bytes>)
    requires NewlineFree(secrets) && a != [] && a[|a| - 1] == NEWLINE
    ensures MatchLen(a + b, secrets) == MatchLen(a, secrets) < |a|
    decreases |secrets|
  {
    if secrets != [] {
      var s := secrets[0];
      assert s in secrets;
      if s <= a + b && |s| >= |a| {
        PrefixCovers(s, a + b, |a| - 1);
      }
      assert s <= a + b <==> s <= a && |s| < |a|;
      MatchStopsAtNewline(a, b, secrets[1..]);
    }
  }

  /** A line break is a safe place to cut. */
  lemma {:induction false} ScanSplitsAtNewline(a: Bytes, b: Bytes, secrets: seq<Bytes>)
    requires NewlineFree(secrets) && a != [] && a[|a| - 1] == NEWLINE
    ensures Scan(a + b, secrets) == Scan(a, secrets) + Scan(b, secrets)
    decreases |a|
  {
    MatchStopsAtNewline(a, b, secrets);
    var m := MatchLen(a, secrets);
    if m > 0 {
      assert (a + b)[m..] == a[m..] + b;
      ScanSplitsAtNewline(a[m..], b, secrets);
      assert MASK + (Scan(a[m..], secrets) + Scan(b, secrets)) == Scan(a, secrets) + Scan(b, secrets);
    } else {
      assert (a + b)[1..] == a[1..] + b;
      if |a| > 1 {
        ScanSplitsAtNewline(a[1..], b, secrets);
      } else {
        assert a[1..] + b == b;
      }
      assert [a[0]] + (Scan(a[1..], secrets) + Scan(b, secrets)) == Scan(a, secrets) + Scan(b, secrets);
    }
  }

  /** The total output if `more` came next and the stream were then closed with no cap. */
  function Batch(st: Stream, more: Bytes, secrets: seq<Bytes>): Bytes {
    st.out + Scan(st.buf + more, secrets)
  }

  lemma PassLineKeepsBatch(st: Stream, i: nat, more: Bytes, secrets: seq<Bytes>)
    requires NewlineFree(secrets) && i < |st.buf| && st.buf[i] == NEWLINE
    ensures Batch(PassLine(st, i, secrets), more, secrets) == Batch(st, more, secrets)
  {
    var line, rest := st.buf[..i + 1], st.buf[i + 1..];
    assert st.buf + more == line + (rest + more);
    ScanSplitsAtNewline(line, rest + more, secrets);
    assert st.out + (Scan(line, secrets) + Scan(rest + more, secrets))
        == (st.out + Scan(line, secrets)) + Scan(rest + more, secrets);
  }

  lemma {:induction false} DrainKeepsBatch(st: Stream, more: Bytes, secrets: seq<Bytes>)
    requires NewlineFree(secrets)
    ensures Batch(DrainLines(st, secrets), more, secrets) == Batch(st, more, secrets)
    decreases |st.buf|
  {
    var i := LineEnd(st.buf);
    if i < |st.buf| {
      PassLineKeepsBatch(st, i, more, secrets);
      DrainKeepsBatch(PassLine(st, i, secrets), more, secrets);
    }
  }

  ghost predicate SuffixOf(t: Bytes, b: Bytes) {
    |t| <= |b| && t == b[|b| - |t|..]
  }

  lemma {:induction false} DrainHoldsAnOpenLine(st: Stream, secrets: seq<Bytes>)
    ensures NEWLINE !in DrainLines(st, secrets).buf
    ensures SuffixOf(DrainLines(st, secrets).buf, st.buf)
    decreases |st.buf|
  {
    var i := LineEnd(st.buf);
    if i < |st.buf| {
      var next := PassLine(st, i, secrets);
      DrainHoldsAnOpenLine(next, secrets);
      var t := DrainLines(next, secrets).buf;
      assert t == next.buf[|next.buf| - |t|..] == st.buf[|st.buf| - |t|..];
    } else {
      assert st.buf[..i] == st.buf;
    }
  }

  function Concat(chunks: seq<Bytes>): Bytes {
    if chunks == [] then [] else Concat(chunks[..|chunks| - 1]) + chunks[|chunks| - 1]
  }

  /** No line (newline-free stretch) is longer than the buffer cap. */
  ghost predicate ShortLines(input: Bytes) {
    forall i, j :: 0 <= i <= j <= |input| && NEWLINE !in input[i..j] ==> j - i <= REDACT_BUF_CAP
  }

  lemma ShortLinesPrefix(input: Bytes, n: nat)
    requires ShortLines(input) && n <= |input|
    ensures ShortLines(input[..n])
  {
    forall i, j | 0 <= i <= j <= n && NEWLINE !in input[..n][i..j] ensures j - i <= REDACT_BUF_CAP {
      assert input[..n][i..j] == input[i..j];
    }
  }

  /** The writer's held-back bytes are the unfinished end of what was written, and whatever comes
      next, redacting them with it completes the batch result. */
  lemma {:induction false} StreamTracksBatch(chunks: seq<Bytes>, secrets: seq<Bytes>, maxLen: nat, more: Bytes)
    requires NewlineFree(secrets) && ShortLines(Concat(chunks))
    ensures SuffixOf(AfterWrites(chunks, secrets, maxLen).buf, Concat(chunks))
    ensures Batch(AfterWrites(chunks, secrets, maxLen), more, secrets) == Scan(Concat(chunks) + more, secrets)
    decreases |chunks|
  {
    if chunks == [] {
      assert [] + more == more;
      assert [] + Scan(more, secrets) == Scan(more, secrets);
    } else {
      var front, p := chunks[..|chunks| - 1], chunks[|chunks| - 1];
      var input := Concat(chunks);
      assert input[..|Concat(front)|] == Concat(front);
      ShortLinesPrefix(input, |Concat(front)|);
      var st := AfterWrites(front, secrets, maxLen);
      StreamTracksBatch(front, secrets, maxLen, p + more);
      WriteTracksBatch(st, Concat(front), p, secrets, maxLen, more);
    }
  }

  lemma WriteTracksBatch(st: Stream, input: Bytes, p: Bytes, secrets: seq<Bytes>, maxLen: nat, more: Bytes)
    requires NewlineFree(secrets) && ShortLines(input + p) && SuffixOf(st.buf, input)
    requires Batch(st, p + more, secrets) == Scan(input + (p + more), secrets)
    ensures SuffixOf(WriteStep(st, p, secrets, maxLen).buf, input + p)
    ensures Batch(WriteStep(st, p, secrets, maxLen), more, secrets) == Scan(input + p + more, secrets)
  {
    var grown := Stream(st.out, st.buf + p);
    var drained := DrainLines(grown, secrets);
    DrainHoldsAnOpenLine(grown, secrets);
    SuffixGrows(st.buf, input, p);
    SuffixTransitive(drained.buf, grown.buf, input + p);
    OpenLineIsShort(drained.buf, input + p);
    assert WriteStep(st, p, secrets, maxLen) == drained;
    DrainKeepsBatch(grown, more, secrets);
    Associates(st.buf, p, more);
    Associates(input, p, more);
  }

  lemma OpenLineIsShort(t: Bytes, input: Bytes)
    requires ShortLines(input) && SuffixOf(t, input) && NEWLINE !in t
    ensures |t| <= REDACT_BUF_CAP
  {
    assert input[|input| - |t|..|input|] == t;
  }

  lemma Associates(a: Bytes, b: Bytes, c: Bytes)
    ensures a + b + c == a + (b + c)
  {
  }

  lemma SuffixGrows(t: Bytes, b: Bytes, p: Bytes)
    requires SuffixOf(t, b)
    ensures SuffixOf(t + p, b + p)
  {
  }

  lemma SuffixTransitive(t: Bytes, b: Bytes, c: Bytes)
    requires SuffixOf(t, b) && SuffixOf(b, c)
    ensures SuffixOf(t, c)
  {
  }

  /** With no over-long line, the total output is the one-pass redaction of the whole input,
      however the input was cut into writes. */
  lemma StreamEqualsBatch(chunks: seq<Bytes>, secrets: seq<Bytes>, maxLen: nat)
    requires NewlineFree(secrets) && ShortLines(Concat(chunks))
    ensures Emitted(chunks, secrets, maxLen) == Scan(Concat(chunks), secrets)
  {
    StreamTracksBatch(chunks, secrets, maxLen, []);
    var st := AfterWrites(chunks, secrets, maxLen);
    assert st.buf + [] == st.buf && Concat(chunks) + [] == Concat(chunks);
  }
}
