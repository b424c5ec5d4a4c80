/** The log writers of internal/executor/runner.go: redactBytes, redactWriter and cappedLogSink.

    Each class is proved against the functions of module Redaction, so the results there hold for
    every sequence of Write calls. `received` is what a sink has been handed so far. */
module LogSinks {
  import opened Decimal
  import opened Redaction
  import opened StableSort

  function Ascii(s: string): Bytes {
    seq(|s|, i requires 0 <= i < |s| => (s[i] as int % 256) as Byte)
  }

  /** The line that says the log was cut. */
  function Marker(maxBytes: nat): Bytes {
    [NEWLINE] + Ascii("=== log truncated after " + Itoa(maxBytes) + " bytes ===") + [NEWLINE]
  }

  /** The first maxBytes bytes, followed by one marker if and only if there were more. */
  function CappedFile(received: Bytes, maxBytes: nat): Bytes {
    if |received| <= maxBytes then received else received[..maxBytes] + Marker(maxBytes)
  }

  /** A log within the limit is kept as it is. A longer one keeps exactly its first maxBytes bytes, and what follows
      them does not depend on what was cut. */
  lemma CapKeepsBeginning(received: Bytes, other: Bytes, maxBytes: nat)
    ensures |received| <= maxBytes ==> CappedFile(received, maxBytes) == received
    ensures |received| > maxBytes ==> CappedFile(received, maxBytes)[..maxBytes] == received[..maxBytes]
    ensures |received| > maxBytes && |other| > maxBytes ==>
              CappedFile(received, maxBytes)[maxBytes..] == CappedFile(other, maxBytes)[maxBytes..]
    ensures |received| > maxBytes ==> |CappedFile(received, maxBytes)| > maxBytes
  {
    if |received| > maxBytes {
      assert CappedFile(received, maxBytes)[maxBytes..] == Marker(maxBytes);
    }
    if |other| > maxBytes {
      assert CappedFile(other, maxBytes)[maxBytes..] == Marker(maxBytes);
    }
  }

  class CappedLogSink {
    const maxBytes: nat
    var file: Bytes
    var remaining: int
    var truncated: bool
    ghost var received: Bytes

    constructor (maxBytes: nat)
      ensures Valid() && received == [] && this.maxBytes == maxBytes
    {
      this.maxBytes := maxBytes;
      file, remaining, truncated, received := [], maxBytes, false, [];
    }

    ghost predicate Valid()
      reads this
    {
      && file == CappedFile(received, maxBytes)
      && remaining == (if |received| <= maxBytes then maxBytes - |received| else 0)
      && (truncated <==> |received| > maxBytes)
    }

    method Write(p: Bytes)
      requires Valid()
      modifies this
      ensures Valid() && received == old(received) + p
    {
      var want := |p|;
      if want == 0 {
        assert received == received + p;
        return;
      }
      var allowed := want;
      if allowed > remaining {
        allowed := remaining;
      }
      ghost var all := received + p;
      if allowed > 0 {
        file := file + p[..allowed];
        remaining := remaining - allowed;
      }
      if want > allowed && !truncated {
        truncated := true;
        file := file + Marker(maxBytes);
        assert all[..maxBytes] == received + p[..allowed];
      }
      if |received| > maxBytes {
        assert all[..maxBytes] == received[..maxBytes];
      }
      received := all;
    }
  }

  /** bytes.Contains */
  method ContainsBytes(b: Bytes, s: Bytes) returns (found: bool)
    ensures found <==> Contains(b, s)
  {
    found := exists i :: 0 <= i <= |b| && OccursAt(s, b, i);
  }

  lemma {:induction false} NothingToMask(b: Bytes, secrets: seq<Bytes>)
    requires forall s :: s in secrets && s != [] ==> !Contains(b, s)
    ensures Scan(b, secrets) == b
    decreases |b|
  {
    if b != [] {
      MatchLenIsASecret(b, secrets);
      var m := MatchLen(b, secrets);
      assert m > 0 ==> OccursAt(b[..m], b, 0);
      forall s | s in secrets && s != [] ensures !Contains(b[1..], s) {
        forall i | 0 <= i <= |b[1..]| ensures !OccursAt(s, b[1..], i) {
          assert !OccursAt(s, b, i + 1);
          assert i + |s| <= |b[1..]| ==> b[1..][i..i + |s|] == b[i + 1..i + 1 + |s|];
        }
      }
      NothingToMask(b[1..], secrets);
      assert b == [b[0]] + b[1..];
    }
  }

  method RedactBytes(b: Bytes, secrets: seq<Bytes>) returns (out: Bytes)
    ensures out == Scan(b, secrets)
  {
    var found := false;
    for k := 0 to |secrets|
      invariant !found
      invariant forall j :: 0 <= j < k && secrets[j] != [] ==> !Contains(b, secrets[j])
    {
      if secrets[k] != [] {
        var c := ContainsBytes(b, secrets[k]);
        if c {
          found := true;
          break;
        }
      }
    }
    if !found {
      NothingToMask(b, secrets);
      return b;
    }
    out := MaskAll(b, secrets);
  }

  /** `out` is the redaction of the first `i` bytes. */
  ghost predicate Masked(b: Bytes, secrets: seq<Bytes>, out: Bytes, i: nat) {
    i <= |b| && out + Scan(b[i..], secrets) == Scan(b, secrets)
  }

  lemma MaskSecret(b: Bytes, secrets: seq<Bytes>, out: Bytes, i: nat, m: nat)
    requires Masked(b, secrets, out, i) && i < |b| && m == MatchLen(b[i..], secrets) > 0
    ensures i + m <= |b| && Masked(b, secrets, out + MASK, i + m)
  {
    assert b[i..][m..] == b[i + m..];
    Associates(out, MASK, Scan(b[i + m..], secrets));
  }

  lemma KeepByte(b: Bytes, secrets: seq<Bytes>, out: Bytes, i: nat)
    requires Masked(b, secrets, out, i) && i < |b| && MatchLen(b[i..], secrets) == 0
    ensures Masked(b, secrets, out + [b[i]], i + 1)
  {
    assert b[i..][1..] == b[i + 1..];
    Associates(out, [b[i]], Scan(b[i + 1..], secrets));
  }

  /** The single left-to-right pass of redactBytes. */
  method MaskAll(b: Bytes, secrets: seq<Bytes>) returns (out: Bytes)
    ensures out == Scan(b, secrets)
  {
    out := [];
    var i := 0;
    assert b[0..] == b;
    while i < |b|
      invariant Masked(b, secrets, out, i)
      decreases |b| - i
    {
      var m := MatchLen(b[i..], secrets);
      if m > 0 {
        MaskSecret(b, secrets, out, i, m);
        out := out + MASK;
        i := i + m;
      } else {
        KeepByte(b, secrets, out, i);
        out := out + [b[i]];
        i := i + 1;
      }
    }
  }

  class RedactWriter {
    const w: CappedLogSink
    const secrets: seq<Bytes>
    const maxLen: nat
    var buf: Bytes

    /** newLogSink with something to redact */
    constructor (w: CappedLogSink, redact: seq<Bytes>)
      ensures this.w == w && buf == []
      ensures multiset(secrets) == multiset(redact) && LongestFirst(secrets)
      ensures forall s :: s in redact ==> s in secrets && |s| <= maxLen
    {
      var sorted := Sort(redact, (a: Bytes, b: Bytes) => |a| > |b|);
      SortIsPermutation(redact, (a: Bytes, b: Bytes) => |a| > |b|);
      SortIsSorted(redact, (a: Bytes, b: Bytes) => |a| > |b|);
      var longest: nat := 0;
      for k := 0 to |sorted|
        invariant forall j :: 0 <= j < k ==> |sorted[j]| <= longest
      {
        if |sorted[k]| > longest {
          longest := |sorted[k]|;
        }
      }
      forall s | s in redact ensures s in sorted {
        assert s in multiset(redact);
      }
      this.w := w;
      secrets := sorted;
      maxLen := longest;
      buf := [];
    }

    ghost predicate Valid()
      reads this, w
    {
      w.Valid()
    }

    ghost function Stream(): Stream
      reads this, w
    {
      Redaction.Stream(w.received, buf)
    }

    /** Redacts and passes on the line that ends at `i`. */
    method PassOn(i: nat)
      requires Valid() && i < |buf|
      modifies this, w
      ensures Valid() && Stream() == PassLine(old(Stream()), i, secrets)
    {
      var line := RedactBytes(buf[..i + 1], secrets);
      w.Write(line);
      buf := buf[i + 1..];
    }

    /** Bounds the open line. */
    method Cap()
      requires Valid()
      modifies this, w
      ensures Valid() && Stream() == CapBuffer(old(Stream()), secrets, maxLen)
    {
      if |buf| > REDACT_BUF_CAP {
        var red := RedactBytes(buf, secrets);
        var keep := maxLen - 1;
        if keep > |red| {
          keep := |red|;
        }
        if keep < 0 {
          keep := 0;
        }
        w.Write(red[..|red| - keep]);
        buf := red[|red| - keep..];
      }
    }

    method Write(p: Bytes)
      requires Valid()
      modifies this, w
      ensures Valid()
      ensures Stream() == WriteStep(old(Stream()), p, secrets, maxLen)
    {
      buf := buf + p;
      ghost var start := Redaction.Stream(w.received, buf);
      var i := LineEnd(buf);
      while i < |buf|
        invariant Valid() && i == LineEnd(buf)
        invariant DrainLines(Stream(), secrets) == DrainLines(start, secrets)
        decreases |buf|
      {
        PassOn(i);
        i := LineEnd(buf);
      }
      Cap();
    }

    method Close()
      requires Valid()
      modifies this, w
      ensures Valid() && buf == []
      ensures w.received == CloseStep(old(Stream()), secrets)
    {
      if |buf| > 0 {
        var red := RedactBytes(buf, secrets);
        w.Write(red);
        buf := [];
      } else {
        assert w.received + [] == w.received;
      }
    }
  }

  /** What is on disk after a sequence of writes and Close. */
  function LogFile(chunks: seq<Bytes>, secrets: seq<Bytes>, maxLen: nat, maxBytes: nat): Bytes {
    CappedFile(Emitted(chunks, secrets, maxLen), maxBytes)
  }

  lemma OccurrenceSplitsAtNewline(a: Bytes, marker: Bytes, s: Bytes, i: int)
    requires CleanSecret(s) && marker != [] && marker[0] == NEWLINE
    requires OccursAt(s, a + marker, i)
    ensures OccursAt(s, a, i) || OccursAt(s, marker, i - |a|)
  {
    if i + |s| <= |a| {
      OccurrenceInHead(s, a, marker, i);
    } else if i >= |a| {
      OccurrenceInTail(s, a, marker, i);
    } else {
      OccurrenceCovers(s, a + marker, i, |a|);
    }
  }

  lemma OccurrenceInWhole(s: Bytes, b: Bytes, n: nat, i: int)
    requires n <= |b| && OccursAt(s, b[..n], i)
    ensures OccursAt(s, b, i)
  {
    assert b[..n][i..i + |s|] == b[i..i + |s|];
  }

  /** The only way a clean secret reaches the file is the sink's own truncation marker, which is
      written past the redactor: it happens exactly when the log overflowed and the marker's fixed
      text contains the secret. */
  lemma SecretOnDiskIff(chunks: seq<Bytes>, secrets: seq<Bytes>, maxLen: nat, maxBytes: nat, s: Bytes)
    requires CleanSecret(s) && s in secrets && |s| <= maxLen
    ensures Contains(LogFile(chunks, secrets, maxLen, maxBytes), s)
        <==> |Emitted(chunks, secrets, maxLen)| > maxBytes && Contains(Marker(maxBytes), s)
  {
    var all, marker := Emitted(chunks, secrets, maxLen), Marker(maxBytes);
    NoSecretEmitted(chunks, secrets, maxLen, s);
    if |all| > maxBytes {
      var kept := all[..maxBytes];
      if i :| 0 <= i <= |kept + marker| && OccursAt(s, kept + marker, i) {
        OccurrenceSplitsAtNewline(kept, marker, s, i);
        if OccursAt(s, kept, i) {
          OccurrenceInWhole(s, all, maxBytes, i);
        }
        assert OccursAt(s, marker, i - |kept|);
      }
      if i :| 0 <= i <= |marker| && OccursAt(s, marker, i) {
        assert (kept + marker)[i + |kept|..i + |kept| + |s|] == marker[i..i + |s|];
        assert OccursAt(s, kept + marker, i + |kept|);
      }
    }
  }

  /** On lines up to the cap the file is the capped one-pass redaction of everything written. */
  lemma LogFileIsCappedBatch(chunks: seq<Bytes>, secrets: seq<Bytes>, maxLen: nat, maxBytes: nat)
    requires NewlineFree(secrets) && ShortLines(Concat(chunks))
    ensures LogFile(chunks, secrets, maxLen, maxBytes) == CappedFile(Scan(Concat(chunks), secrets), maxBytes)
  {
    StreamEqualsBatch(chunks, secrets, maxLen);
  }
}
