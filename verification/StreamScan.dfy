/**
 * The canary scan of `deploy/g02/gate_probe.py`: a file read in chunks, with one overlap window
 * per token, against `scan_tokens` over the whole content. Bytes are characters here.
 */
module StreamScan {
  import opened Prelude

  type Bytes = string

  // ---------------------------------------------------------------------------------------------
  // Counting.

  /** `bytes.count`: occurrences from left to right, none overlapping the one before; an empty token stands everywhere. */
  function Count(s: Bytes, t: Bytes): nat
    decreases |s|
  {
    if t == "" then |s| + 1
    else if |s| < |t| then 0
    else if s[..|t|] == t then 1 + Count(s[|t|..], t)
    else Count(s[1..], t)
  }

  ghost predicate OccursAt(s: Bytes, t: Bytes, i: int) {
    0 <= i && i + |t| <= |s| && s[i..i + |t|] == t
  }

  ghost predicate Occurs(s: Bytes, t: Bytes) {
    exists i :: OccursAt(s, t, i)
  }

  /** The number of positions where `t` stands, overlapping or not. */
  ghost function Positions(s: Bytes, t: Bytes): nat
    requires t != ""
    decreases |s|
  {
    if |s| < |t| then 0 else (if s[..|t|] == t then 1 else 0) + Positions(s[1..], t)
  }

  /** `t` has a border of length `b`: it begins with its own last `b` bytes. */
  ghost predicate HasBorder(t: Bytes, b: nat) {
    0 < b < |t| && t[..b] == t[|t| - b..]
  }

  ghost predicate Borderless(t: Bytes) {
    forall b: nat :: !HasBorder(t, b)
  }

  lemma {:induction false} PositionsOccur(s: Bytes, t: Bytes)
    requires t != ""
    ensures Positions(s, t) > 0 <==> Occurs(s, t)
    decreases |s|
  {
    if |s| >= |t| {
      PositionsOccur(s[1..], t);
      if s[..|t|] == t {
        assert OccursAt(s, t, 0);
      } else if Occurs(s[1..], t) {
        var i :| OccursAt(s[1..], t, i);
        assert OccursAt(s, t, i + 1);
      } else if Occurs(s, t) {
        var i :| OccursAt(s, t, i);
        assert OccursAt(s[1..], t, i - 1);
      }
    }
  }

  lemma {:induction false} CountSeesSome(s: Bytes, t: Bytes)
    requires t != ""
    ensures Count(s, t) > 0 <==> Positions(s, t) > 0
    decreases |s|
  {
    if |s| >= |t| && s[..|t|] != t {
      CountSeesSome(s[1..], t);
    }
  }

  lemma {:induction false} OverlapMakesBorder(s: Bytes, t: Bytes, k: nat)
    requires 0 < k < |t| && OccursAt(s, t, 0) && OccursAt(s, t, k)
    ensures HasBorder(t, |t| - k)
  {
    assert t[..|t| - k] == s[k..k + |t|][..|t| - k] == s[..|t|][k..] == t[k..];
  }

  lemma {:induction false} NoSecondStart(s: Bytes, t: Bytes, k: nat)
    requires Borderless(t) && 0 < k < |t| && OccursAt(s, t, 0)
    ensures !OccursAt(s, t, k)
  {
    if OccursAt(s, t, k) {
      OverlapMakesBorder(s, t, k);
    }
  }

  /** Inside an occurrence of a borderless token no other occurrence begins. */
  lemma {:induction false} NoOverlap(s: Bytes, t: Bytes, k: nat)
    requires Borderless(t) && 1 <= k <= |t| && OccursAt(s, t, 0)
    ensures Positions(s, t) == 1 + Positions(s[k..], t)
    decreases k
  {
    if k > 1 {
      NoOverlap(s, t, k - 1);
      NoSecondStart(s, t, k - 1);
      var r := s[k - 1..];
      assert |r| >= |t| ==> r[..|t|] == s[k - 1..k - 1 + |t|];
      assert r[1..] == s[k..];
    }
  }

  /** For a borderless token `bytes.count` finds every position. */
  lemma {:induction false} CountIsPositions(s: Bytes, t: Bytes)
    requires t != "" && Borderless(t)
    ensures Count(s, t) == Positions(s, t)
    decreases |s|
  {
    if |s| >= |t| {
      if s[..|t|] == t {
        NoOverlap(s, t, |t|);
        CountIsPositions(s[|t|..], t);
      } else {
        CountIsPositions(s[1..], t);
      }
    }
  }

  // ---------------------------------------------------------------------------------------------
  // Streaming.

  /** Python's `window[-len(token) + 1:]`, where `-0` is the start of the window and `+1` the place after it. */
  function Overlap(window: Bytes, t: Bytes): Bytes {
    if t == "" then if window == "" then "" else window[1..]
    else if |t| == 1 || |window| < |t| - 1 then window else window[|window| - (|t| - 1)..]
  }

  /** What the first `n` chunks hold. */
  function Read(chunks: seq<Bytes>, n: nat): Bytes
    requires n <= |chunks|
  {
    if n == 0 then "" else Read(chunks, n - 1) + chunks[n - 1]
  }

  function Content(chunks: seq<Bytes>): Bytes {
    Read(chunks, |chunks|)
  }

  function OverlapAfter(chunks: seq<Bytes>, n: nat, t: Bytes): Bytes
    requires n <= |chunks|
    decreases n, 0
  {
    if n == 0 then "" else Overlap(Window(chunks, n - 1, t), t)
  }

  /** The window in which the chunk at `n` is scanned. */
  function Window(chunks: seq<Bytes>, n: nat, t: Bytes): Bytes
    requires n < |chunks|
    decreases n, 1
  {
    OverlapAfter(chunks, n, t) + chunks[n]
  }

  /** The hits the first `n` chunks of one file contribute for one token. */
  function HitsUpTo(chunks: seq<Bytes>, n: nat, t: Bytes): nat
    requires n <= |chunks|
  {
    if n == 0 then 0 else HitsUpTo(chunks, n - 1, t) + Count(Window(chunks, n - 1, t), t)
  }

  function StreamHits(chunks: seq<Bytes>, t: Bytes): nat {
    HitsUpTo(chunks, |chunks|, t)
  }

  /** `o` is the end of what has been read: all of it, or its last `|t| - 1` bytes. */
  ghost predicate KeptEnd(before: Bytes, o: Bytes, t: Bytes) {
    |o| + 1 == |t| || (before == "" && |o| + 1 < |t|)
  }

  lemma {:induction false} OverlapStep(earlier: Bytes, window: Bytes, t: Bytes) returns (before: Bytes)
    requires |t| >= 2
    requires |window| + 1 < |t| ==> earlier == ""
    ensures earlier + window == before + Overlap(window, t)
    ensures KeptEnd(before, Overlap(window, t), t)
  {
    var cut := |window| - |Overlap(window, t)|;
    before := earlier + window[..cut];
    assert window == window[..cut] + Overlap(window, t);
  }

  lemma {:induction false} OverlapIsSuffix(chunks: seq<Bytes>, n: nat, t: Bytes) returns (before: Bytes)
    requires |t| >= 2 && n <= |chunks|
    ensures Read(chunks, n) == before + OverlapAfter(chunks, n, t)
    ensures KeptEnd(before, OverlapAfter(chunks, n, t), t)
    decreases n
  {
    if n == 0 {
      before := "";
    } else {
      var earlier := OverlapIsSuffix(chunks, n - 1, t);
      before := OverlapStep(earlier, Window(chunks, n - 1, t), t);
      assert earlier + OverlapAfter(chunks, n - 1, t) + chunks[n - 1] == earlier + Window(chunks, n - 1, t);
    }
  }

  /** Positions are those of the part read before, plus those of the window. */
  lemma {:induction false} PositionsSplit(p: Bytes, o: Bytes, c: Bytes, t: Bytes)
    requires t != ""
    requires KeptEnd(p, o, t)
    ensures Positions(p + o + c, t) == Positions(p + o, t) + Positions(o + c, t)
    decreases |p|
  {
    if p == "" {
      assert p + o + c == o + c && p + o == o;
    } else {
      PositionsSplit(p[1..], o, c, t);
      assert (p + o + c)[1..] == p[1..] + o + c;
      assert (p + o)[1..] == p[1..] + o;
      assert (p + o + c)[..|t|] == (p + o)[..|t|];
    }
  }

  /** The positions the first `n` windows of a stream hold, one window after the other. */
  ghost function WindowPositions(chunks: seq<Bytes>, n: nat, t: Bytes): nat
    requires t != "" && n <= |chunks|
  {
    if n == 0 then 0 else WindowPositions(chunks, n - 1, t) + Positions(Window(chunks, n - 1, t), t)
  }

  /** No position is lost or counted twice at a chunk boundary. */
  lemma {:induction false} WindowsCoverOnce(chunks: seq<Bytes>, n: nat, t: Bytes)
    requires |t| >= 2 && n <= |chunks|
    ensures WindowPositions(chunks, n, t) == Positions(Read(chunks, n), t)
    decreases n
  {
    if n > 0 {
      WindowsCoverOnce(chunks, n - 1, t);
      var before := OverlapIsSuffix(chunks, n - 1, t);
      PositionsSplit(before, OverlapAfter(chunks, n - 1, t), chunks[n - 1], t);
    }
  }

  lemma {:induction false} HitsAgainstWindows(chunks: seq<Bytes>, n: nat, t: Bytes)
    requires t != "" && n <= |chunks|
    ensures HitsUpTo(chunks, n, t) > 0 <==> WindowPositions(chunks, n, t) > 0
    ensures Borderless(t) ==> HitsUpTo(chunks, n, t) == WindowPositions(chunks, n, t)
    decreases n
  {
    if n > 0 {
      HitsAgainstWindows(chunks, n - 1, t);
      CountSeesSome(Window(chunks, n - 1, t), t);
      if Borderless(t) {
        CountIsPositions(Window(chunks, n - 1, t), t);
      }
    }
  }

  /** A one-byte token keeps its whole window, so no hit is lost there either. */
  lemma {:induction false} SingleByteKeepsAll(chunks: seq<Bytes>, n: nat, t: Bytes)
    requires |t| == 1 && n <= |chunks|
    ensures OverlapAfter(chunks, n, t) == Read(chunks, n)
    ensures WindowPositions(chunks, n, t) > 0 <==> Positions(Read(chunks, n), t) > 0
    decreases n
  {
    if n > 0 {
      SingleByteKeepsAll(chunks, n - 1, t);
      PositionsOccur(Read(chunks, n - 1), t);
      PositionsOccur(Read(chunks, n), t);
      if Occurs(Read(chunks, n - 1), t) {
        var i :| OccursAt(Read(chunks, n - 1), t, i);
        assert OccursAt(Read(chunks, n), t, i);
      }
    }
  }

  /** An empty token is found in every file that is not empty, and only there. */
  lemma {:induction false} EmptyTokenIsFound(chunks: seq<Bytes>)
    ensures StreamHits(chunks, "") > 0 <==> chunks != []
  {
    if chunks != [] {
      assert Count(Window(chunks, |chunks| - 1, ""), "") > 0;
    }
  }

  /**
   * Detection is exact for every token and every way of cutting the content into chunks, but for an
   * empty token in an empty file.
   */
  lemma {:induction false} StreamDetectsExactly(chunks: seq<Bytes>, t: Bytes)
    ensures StreamHits(chunks, t) > 0 <==> Occurs(Content(chunks), t) && (t != "" || chunks != [])
  {
    if t == "" {
      EmptyTokenIsFound(chunks);
      assert OccursAt(Content(chunks), t, 0);
    } else {
      HitsAgainstWindows(chunks, |chunks|, t);
      if |t| == 1 {
        SingleByteKeepsAll(chunks, |chunks|, t);
      } else {
        WindowsCoverOnce(chunks, |chunks|, t);
      }
      PositionsOccur(Content(chunks), t);
    }
  }

  lemma {:induction false} TwoChunks(a: Bytes, b: Bytes, t: Bytes)
    requires t != ""
    ensures Content([a, b]) == a + b
    ensures StreamHits([a, b], t) == Count(a, t) + Count(Overlap(a, t) + b, t)
  {
    var chunks := [a, b];
    assert "" + a == a;
    assert Read(chunks, 1) == Read(chunks, 0) + a;
    assert Window(chunks, 0, t) == OverlapAfter(chunks, 0, t) + a;
    assert HitsUpTo(chunks, 1, t) == HitsUpTo(chunks, 0, t) + Count(a, t);
    assert Window(chunks, 1, t) == Overlap(a, t) + b;
  }

  lemma {:induction false} CountOnce(t: Bytes, rest: Bytes)
    requires |rest| < |t|
    ensures Count(t + rest, t) == 1 && Count(t, t) == 1
  {
    assert (t + rest)[..|t|] == t && (t + rest)[|t|..] == rest;
    assert t[..|t|] == t;
  }

  lemma {:induction false} SuffixOccurs(x: Bytes, y: Bytes, at: nat, t: Bytes)
    requires at <= |x| && x[at..] + y == t
    ensures OccursAt(x + y, t, at)
  {
    assert (x + y)[at..] == x[at..] + y;
    assert (x + y)[at..at + |t|] == (x + y)[at..];
  }

  /** The count survives every cut of a borderless token of at least two bytes. */
  lemma {:induction false} CountSurvivesCuts(chunks: seq<Bytes>, t: Bytes)
    requires |t| >= 2 && Borderless(t)
    ensures StreamHits(chunks, t) == Count(Content(chunks), t)
  {
    HitsAgainstWindows(chunks, |chunks|, t);
    WindowsCoverOnce(chunks, |chunks|, t);
    CountIsPositions(Content(chunks), t);
  }

  // ---------------------------------------------------------------------------------------------
  // Reading a file `size` bytes at a time.

  /** The chunks `stream.read(size)` returns until the file ends: full ones, but for the last. */
  function Chunked(content: Bytes, size: nat): seq<Bytes>
    requires size > 0
    decreases |content|
  {
    if content == "" then []
    else if |content| <= size then [content]
    else [content[..size]] + Chunked(content[size..], size)
  }

  lemma {:induction false} ReadFront(first: Bytes, chunks: seq<Bytes>, n: nat)
    requires n <= |chunks|
    ensures Read([first] + chunks, n + 1) == first + Read(chunks, n)
    decreases n
  {
    if n == 0 {
      assert Read([first] + chunks, 1) == Read([first] + chunks, 0) + first == first;
    } else {
      ReadFront(first, chunks, n - 1);
      assert first + Read(chunks, n) == first + Read(chunks, n - 1) + chunks[n - 1];
    }
  }

  lemma {:induction false} ChunkedIsContent(content: Bytes, size: nat)
    requires size > 0
    ensures Content(Chunked(content, size)) == content
    decreases |content|
  {
    if content != "" {
      if |content| <= size {
        ReadFront(content, [], 0);
        assert [content] + [] == [content];
      } else {
        ChunkedIsContent(content[size..], size);
        ReadFront(content[..size], Chunked(content[size..], size), |Chunked(content[size..], size)|);
      }
    }
  }

  lemma {:induction false} FullFirst(content: Bytes, size: nat)
    requires 0 < size <= |content|
    ensures Chunked(content, size) == [content[..size]] + Chunked(content[size..], size)
  {
    if |content| == size {
      assert content[..size] == content && content[size..] == "";
    }
  }

  /** After a whole number of full chunks, reading goes on as from the start. */
  lemma {:induction false} ChunkedSplits(front: Bytes, back: Bytes, size: nat, full: nat)
    requires size > 0 && |front| == full * size
    ensures Chunked(front + back, size) == Chunked(front, size) + Chunked(back, size)
    decreases full
  {
    if full == 0 {
      assert front == "" && front + back == back;
    } else {
      assert |front| == (full - 1) * size + size && (full - 1) * size >= 0;
      ChunkedSplits(front[size..], back, size, full - 1);
      FullFirst(front + back, size);
      FullFirst(front, size);
      assert (front + back)[..size] == front[..size] && (front + back)[size..] == front[size..] + back;
    }
  }

  /** For files read this many bytes at a time, the streamed number of hits is the count over the content. */
  ghost predicate ReadInvariant(t: Bytes, size: nat)
    requires size > 0
  {
    forall content: Bytes :: StreamHits(Chunked(content, size), t) == Count(content, t)
  }

  function Pad(c: char, n: nat): Bytes {
    seq(n, _ => c)
  }

  /** No occurrence begins in a padding of another byte. */
  lemma {:induction false} PadHoldsNone(c: char, n: nat, s: Bytes, t: Bytes)
    requires t != "" && c != t[0] && |s| >= |t|
    ensures Count(Pad(c, n) + s, t) == Count(s, t)
    decreases n
  {
    if n == 0 {
      assert Pad(c, n) + s == s;
    } else {
      PadHoldsNone(c, n - 1, s, t);
      assert (Pad(c, n) + s)[..|t|][0] == c;
      assert (Pad(c, n) + s)[1..] == Pad(c, n - 1) + s;
    }
  }

  /** An occurrence that ends beyond a part is none of the part's. */
  lemma {:induction false} PositionBeyond(x: Bytes, y: Bytes, t: Bytes, at: nat)
    requires t != "" && OccursAt(x + y, t, at) && at + |t| > |x| && at <= |x|
    ensures Positions(x + y, t) > Positions(x, t)
    decreases |x|
  {
    if at == 0 {
      assert Positions(x, t) == 0 && (x + y)[..|t|] == t;
    } else {
      assert (x + y)[1..] == x[1..] + y;
      assert OccursAt(x[1..] + y, t, at - 1);
      PositionBeyond(x[1..], y, t, at - 1);
      assert |x| >= |t| ==> (x + y)[..|t|] == x[..|t|];
    }
  }

  lemma {:induction false} LaterWindowsHit(chunks: seq<Bytes>, k: nat, n: nat, t: Bytes)
    requires t != "" && k <= n <= |chunks| && WindowPositions(chunks, n, t) > WindowPositions(chunks, k, t)
    ensures HitsUpTo(chunks, n, t) > HitsUpTo(chunks, k, t)
    decreases n
  {
    CountSeesSome(Window(chunks, n - 1, t), t);
    if WindowPositions(chunks, n - 1, t) > WindowPositions(chunks, k, t) {
      LaterWindowsHit(chunks, k, n - 1, t);
    } else {
      HitsGrow(chunks, k, n - 1, t);
    }
  }

  lemma {:induction false} HitsGrow(chunks: seq<Bytes>, k: nat, n: nat, t: Bytes)
    requires t != "" && k <= n <= |chunks|
    ensures HitsUpTo(chunks, k, t) <= HitsUpTo(chunks, n, t)
    ensures WindowPositions(chunks, k, t) <= WindowPositions(chunks, n, t)
    decreases n
  {
    if k < n {
      HitsGrow(chunks, k, n - 1, t);
    }
  }

  lemma {:induction false} ReadsAlike(p: seq<Bytes>, q: seq<Bytes>, n: nat)
    requires n <= |p|
    ensures Read(p + q, n) == Read(p, n)
    decreases n
  {
    if n > 0 {
      ReadsAlike(p, q, n - 1);
    }
  }

  /** Where one occurrence ends a chunk and another, overlapping one goes beyond it, both are counted. */
  lemma {:induction false} BothAreCounted(p: seq<Bytes>, q: seq<Bytes>, t: Bytes, at: nat)
    requires |t| >= 2 && Occurs(Content(p), t)
    requires OccursAt(Content(p + q), t, at) && at <= |Content(p)| < at + |t|
    requires Content(p) <= Content(p + q)
    ensures StreamHits(p + q, t) >= 2
  {
    var chunks := p + q;
    StreamDetectsExactly(p, t);
    HitsPrefix(p, chunks, |p|, t);
    ReadsAlike(p, q, |p|);
    WindowsCoverOnce(chunks, |p|, t);
    WindowsCoverOnce(chunks, |chunks|, t);
    assert Content(chunks) == Content(p) + Content(chunks)[|Content(p)|..];
    PositionBeyond(Content(p), Content(chunks)[|Content(p)|..], t, at);
    LaterWindowsHit(chunks, |p|, |chunks|, t);
  }

  /** The token after a padding, its border going on as another copy. */
  function Bordered(t: Bytes, b: nat, n: nat, c: char): Bytes
    requires b <= |t|
  {
    Pad(c, n) + t + t[b..]
  }

  lemma {:induction false} BorderGoesOn(front: Bytes, t: Bytes, b: nat)
    requires HasBorder(t, b) && |front| >= |t| && front[|front| - |t|..] == t
    ensures OccursAt(front + t[b..], t, |front| - b)
  {
    var x := front[|front| - |t|..];
    assert front[|front| - b..] == x[|t| - b..] == t[..b];
    assert t[..b] + t[b..] == t;
    SuffixOccurs(front, t[b..], |front| - b, t);
  }

  lemma {:induction false} BorderedCountsOne(t: Bytes, b: nat, n: nat, c: char)
    requires HasBorder(t, b) && c != t[0]
    ensures Count(Bordered(t, b, n, c), t) == 1
  {
    assert Bordered(t, b, n, c) == Pad(c, n) + (t + t[b..]);
    PadHoldsNone(c, n, t + t[b..], t);
    CountOnce(t, t[b..]);
  }

  lemma {:induction false} EndOccurs(front: Bytes, t: Bytes)
    requires |front| >= |t| && front[|front| - |t|..] == t
    ensures Occurs(front, t)
  {
    assert OccursAt(front, t, |front| - |t|);
  }

  /** So much padding puts the end of the token at the end of a full chunk. */
  function PaddingFor(t: Bytes, size: nat): (n: nat)
    requires size > 0
    ensures n + |t| == |t| * size
  {
    |t| * (size - 1)
  }

  lemma {:induction false} CountedTwiceInReads(front: Bytes, rest: Bytes, t: Bytes, b: nat, size: nat, full: nat)
    requires size > 0 && |front| == full * size && Occurs(front, t)
    requires 0 < b < |t| <= |front| && OccursAt(front + rest, t, |front| - b)
    ensures StreamHits(Chunked(front + rest, size), t) >= 2
  {
    var p, q := Chunked(front, size), Chunked(rest, size);
    ChunkedSplits(front, rest, size, full);
    ChunkedIsContent(front, size);
    ChunkedIsContent(front + rest, size);
    assert Content(p) == front && Content(p + q) == front + rest;
    BothAreCounted(p, q, t, |front| - b);
  }

  lemma {:induction false} BorderBreaksPadded(t: Bytes, b: nat, size: nat, c: char, n: nat, full: nat)
    requires HasBorder(t, b) && size > 0 && c != t[0] && n + |t| == full * size
    ensures StreamHits(Chunked(Bordered(t, b, n, c), size), t) >= 2
  {
    var front := Pad(c, n) + t;
    assert front[|front| - |t|..] == t;
    EndOccurs(front, t);
    BorderGoesOn(front, t, b);
    CountedTwiceInReads(front, t[b..], t, b, size, full);
  }

  /** Any border is counted twice in some file, whatever the size of the reads. */
  lemma {:induction false} BorderBreaksCount(t: Bytes, b: nat, size: nat, c: char)
    requires HasBorder(t, b) && size > 0 && c != t[0]
    ensures StreamHits(Chunked(Bordered(t, b, PaddingFor(t, size), c), size), t) > Count(Bordered(t, b, PaddingFor(t, size), c), t)
  {
    BorderBreaksPadded(t, b, size, c, PaddingFor(t, size), |t|);
    BorderedCountsOne(t, b, PaddingFor(t, size), c);
  }

  /** A one-byte token at the end of a full chunk is counted again in the next window. */
  lemma {:induction false} SingleByteCountsTwice(t: Bytes, size: nat, c: char)
    requires |t| == 1 && size > 0 && c != t[0]
    ensures Chunked(Pad(c, size - 1) + t + t, size) == [Pad(c, size - 1) + t, t]
    ensures StreamHits([Pad(c, size - 1) + t, t], t) == 3 && Count(Pad(c, size - 1) + t + t, t) == 2
  {
    var first := Pad(c, size - 1) + t;
    assert (first + t)[..size] == first && (first + t)[size..] == t;
    TwoChunks(first, t, t);
    assert first + t == Pad(c, size - 1) + (t + t);
    PadHoldsNone(c, size - 1, t, t);
    PadHoldsNone(c, size - 1, t + t, t);
    CountOnce(t, "");
    assert (t + t)[..1] == t && (t + t)[1..] == t;
  }

  lemma {:induction false} OtherByte(c: char) returns (other: char)
    ensures other != c
  {
    other := if c == 'a' then 'b' else 'a';
  }

  /** For every size of reads, exactly the borderless tokens of at least two bytes are counted as in the whole content. */
  lemma {:induction false} CountSurvivesReadsIff(t: Bytes, size: nat)
    requires size > 0
    ensures ReadInvariant(t, size) <==> |t| >= 2 && Borderless(t)
  {
    if t == "" {
      assert StreamHits(Chunked("", size), t) == 0 && Count("", t) == 1;
    } else if |t| == 1 {
      var c := OtherByte(t[0]);
      SingleByteCountsTwice(t, size, c);
    } else if Borderless(t) {
      forall content: Bytes ensures StreamHits(Chunked(content, size), t) == Count(content, t) {
        CountSurvivesCuts(Chunked(content, size), t);
        ChunkedIsContent(content, size);
      }
    } else {
      var b: nat :| HasBorder(t, b);
      var c := OtherByte(t[0]);
      BorderBreaksCount(t, b, size, c);
    }
  }

  // ---------------------------------------------------------------------------------------------
  // The scan of a volume.

  /** `scan_tokens` over a whole content, up to the `m`-th token. */
  function ScanUpTo(content: Bytes, tokens: seq<Bytes>, m: nat): nat
    requires m <= |tokens|
  {
    if m == 0 then 0 else ScanUpTo(content, tokens, m - 1) + Count(content, tokens[m - 1])
  }

  function ScanTokens(content: Bytes, tokens: seq<Bytes>): nat {
    ScanUpTo(content, tokens, |tokens|)
  }

  /** How often `t` is listed among the first `j` tokens. */
  function Copies(tokens: seq<Bytes>, j: nat, t: Bytes): nat
    requires j <= |tokens|
  {
    if j == 0 then 0 else Copies(tokens, j - 1, t) + if tokens[j - 1] == t then 1 else 0
  }

  function Times(chunk: Bytes, copies: nat): seq<Bytes> {
    seq(copies, _ => chunk)
  }

  /** The first `n` chunks, each `copies` times over. */
  function Repeated(chunks: seq<Bytes>, n: nat, copies: nat): seq<Bytes>
    requires n <= |chunks|
  {
    if n == 0 then [] else Repeated(chunks, n - 1, copies) + Times(chunks[n - 1], copies)
  }

  /**
   * The chunks a token has been held against when `n` chunks are done for all tokens and the next one
   * for the first `j`: its one overlap window passes each chunk as often as the token is listed.
   */
  function Fed(chunks: seq<Bytes>, n: nat, tokens: seq<Bytes>, j: nat, t: Bytes): seq<Bytes>
    requires n <= |chunks| && j <= |tokens| && (j == 0 || n < |chunks|)
  {
    if j == 0 then Repeated(chunks, n, Copies(tokens, |tokens|, t))
    else Repeated(chunks, n, Copies(tokens, |tokens|, t)) + Times(chunks[n], Copies(tokens, j, t))
  }

  /** The sum over the different tokens among the first `m`. */
  function SumOver(hits: Bytes -> nat, tokens: seq<Bytes>, m: nat): nat
    requires m <= |tokens|
  {
    if m == 0 then 0 else
      SumOver(hits, tokens, m - 1) + if tokens[m - 1] in tokens[..m - 1] then 0 else hits(tokens[m - 1])
  }

  /** The hits of each token over what it has been held against. */
  function HitsOf(chunks: seq<Bytes>, n: nat, tokens: seq<Bytes>, j: nat): Bytes -> nat
    requires n <= |chunks| && j <= |tokens| && (j == 0 || n < |chunks|)
  {
    t => StreamHits(Fed(chunks, n, tokens, j, t), t)
  }

  function TotalHits(chunks: seq<Bytes>, n: nat, tokens: seq<Bytes>, j: nat): nat
    requires n <= |chunks| && j <= |tokens| && (j == 0 || n < |chunks|)
  {
    SumOver(HitsOf(chunks, n, tokens, j), tokens, |tokens|)
  }

  function FileHits(chunks: seq<Bytes>, tokens: seq<Bytes>): nat {
    TotalHits(chunks, |chunks|, tokens, 0)
  }

  function VolumeHits(files: seq<seq<Bytes>>, n: nat, tokens: seq<Bytes>): nat
    requires n <= |files|
  {
    if n == 0 then 0 else VolumeHits(files, n - 1, tokens) + FileHits(files[n - 1], tokens)
  }

  lemma {:induction false} OverlapPrefix(s: seq<Bytes>, longer: seq<Bytes>, n: nat, t: Bytes)
    requires n <= |s| && n <= |longer| && forall k | 0 <= k < n :: longer[k] == s[k]
    ensures OverlapAfter(longer, n, t) == OverlapAfter(s, n, t)
    ensures n < |s| && n < |longer| && longer[n] == s[n] ==> Window(longer, n, t) == Window(s, n, t)
    decreases n
  {
    if n > 0 {
      OverlapPrefix(s, longer, n - 1, t);
    }
  }

  lemma {:induction false} HitsPrefix(s: seq<Bytes>, longer: seq<Bytes>, n: nat, t: Bytes)
    requires n <= |s| && n <= |longer| && forall k | 0 <= k < n :: longer[k] == s[k]
    ensures HitsUpTo(longer, n, t) == HitsUpTo(s, n, t)
    decreases n
  {
    if n > 0 {
      HitsPrefix(s, longer, n - 1, t);
      OverlapPrefix(s, longer, n - 1, t);
    }
  }

  /** One more chunk of a stream is counted, and moves the window, as the loop body does it. */
  lemma {:induction false} StreamGrows(s: seq<Bytes>, chunk: Bytes, t: Bytes)
    ensures
      var window := OverlapAfter(s, |s|, t) + chunk;
      && OverlapAfter(s + [chunk], |s| + 1, t) == Overlap(window, t)
      && StreamHits(s + [chunk], t) == StreamHits(s, t) + Count(window, t)
  {
    OverlapPrefix(s, s + [chunk], |s|, t);
    HitsPrefix(s, s + [chunk], |s|, t);
    assert Window(s + [chunk], |s|, t) == OverlapAfter(s, |s|, t) + chunk;
  }

  /** Moving one window past the chunk feeds its token, and no other one. */
  lemma {:induction false} FedStep(chunks: seq<Bytes>, n: nat, tokens: seq<Bytes>, j: nat, t: Bytes)
    requires n < |chunks| && j < |tokens|
    ensures Fed(chunks, n, tokens, j + 1, t) ==
            if tokens[j] == t then Fed(chunks, n, tokens, j, t) + [chunks[n]] else Fed(chunks, n, tokens, j, t)
  {
    var before := Repeated(chunks, n, Copies(tokens, |tokens|, t));
    assert before + Times(chunks[n], Copies(tokens, 0, t)) == before;
    if tokens[j] == t {
      assert Times(chunks[n], Copies(tokens, j + 1, t)) == Times(chunks[n], Copies(tokens, j, t)) + [chunks[n]];
    }
  }

  lemma {:induction false} FedNext(chunks: seq<Bytes>, n: nat, tokens: seq<Bytes>, t: Bytes)
    requires n < |chunks|
    ensures Fed(chunks, n, tokens, |tokens|, t) == Fed(chunks, n + 1, tokens, 0, t)
  {
    var before := Repeated(chunks, n, Copies(tokens, |tokens|, t));
    assert before + Times(chunks[n], Copies(tokens, 0, t)) == before;
  }

  lemma {:induction false} SumsAlike(f: Bytes -> nat, g: Bytes -> nat, tokens: seq<Bytes>, m: nat)
    requires m <= |tokens| && forall t | t in tokens :: f(t) == g(t)
    ensures SumOver(f, tokens, m) == SumOver(g, tokens, m)
    decreases m
  {
    if m > 0 {
      SumsAlike(f, g, tokens, m - 1);
    }
  }

  /** What one token gains, the sum over the different tokens gains. */
  lemma {:induction false} SumGains(f: Bytes -> nat, g: Bytes -> nat, tokens: seq<Bytes>, m: nat, t: Bytes, gain: nat)
    requires m <= |tokens| && g(t) == f(t) + gain && forall other | other in tokens && other != t :: g(other) == f(other)
    ensures SumOver(g, tokens, m) == SumOver(f, tokens, m) + if t in tokens[..m] then gain else 0
    decreases m
  {
    if m > 0 {
      SumGains(f, g, tokens, m - 1, t, gain);
      assert tokens[..m] == tokens[..m - 1] + [tokens[m - 1]];
    }
  }

  /** The chunk at `n` held against the token at `j`: its stream grows by one chunk, no other one does. */
  lemma {:induction false} HitsStep(chunks: seq<Bytes>, n: nat, tokens: seq<Bytes>, j: nat, window: Bytes)
    requires n < |chunks| && j < |tokens|
    requires
      var fed := Fed(chunks, n, tokens, j, tokens[j]);
      window == OverlapAfter(fed, |fed|, tokens[j]) + chunks[n]
    ensures TotalHits(chunks, n, tokens, j + 1) == TotalHits(chunks, n, tokens, j) + Count(window, tokens[j])
  {
    var f, g := HitsOf(chunks, n, tokens, j), HitsOf(chunks, n, tokens, j + 1);
    var gain := Count(window, tokens[j]);
    FedStep(chunks, n, tokens, j, tokens[j]);
    StreamGrows(Fed(chunks, n, tokens, j, tokens[j]), chunks[n], tokens[j]);
    forall other | other in tokens && other != tokens[j] ensures g(other) == f(other) {
      FedStep(chunks, n, tokens, j, other);
    }
    SumGains(f, g, tokens, |tokens|, tokens[j], gain);
    assert tokens[..|tokens|] == tokens;
  }

  lemma {:induction false} HitsNext(chunks: seq<Bytes>, n: nat, tokens: seq<Bytes>)
    requires n < |chunks|
    ensures TotalHits(chunks, n, tokens, |tokens|) == TotalHits(chunks, n + 1, tokens, 0)
  {
    var f, g := HitsOf(chunks, n, tokens, |tokens|), HitsOf(chunks, n + 1, tokens, 0);
    forall t | t in tokens ensures f(t) == g(t) {
      FedNext(chunks, n, tokens, t);
    }
    SumsAlike(f, g, tokens, |tokens|);
  }

  lemma {:induction false} NothingFed(chunks: seq<Bytes>, tokens: seq<Bytes>, m: nat)
    requires m <= |tokens|
    ensures SumOver(HitsOf(chunks, 0, tokens, 0), tokens, m) == 0
    decreases m
  {
    if m > 0 {
      NothingFed(chunks, tokens, m - 1);
    }
  }

  ghost predicate OverlapsHeld(overlaps: map<Bytes, Bytes>, chunks: seq<Bytes>, n: nat, tokens: seq<Bytes>, j: nat)
    requires n <= |chunks| && j <= |tokens| && (j == 0 || n < |chunks|)
  {
    forall t | t in tokens :: t in overlaps && HeldAt(overlaps[t], Fed(chunks, n, tokens, j, t), t)
  }

  ghost predicate HeldAt(overlap: Bytes, fed: seq<Bytes>, t: Bytes) {
    overlap == OverlapAfter(fed, |fed|, t)
  }

  lemma {:induction false} HeldStep(before: map<Bytes, Bytes>, chunks: seq<Bytes>, n: nat, tokens: seq<Bytes>, j: nat, window: Bytes)
    requires n < |chunks| && j < |tokens| && OverlapsHeld(before, chunks, n, tokens, j)
    requires window == before[tokens[j]] + chunks[n]
    ensures OverlapsHeld(before[tokens[j] := Overlap(window, tokens[j])], chunks, n, tokens, j + 1)
  {
    StreamGrows(Fed(chunks, n, tokens, j, tokens[j]), chunks[n], tokens[j]);
    forall t | t in tokens
      ensures HeldAt(before[tokens[j] := Overlap(window, tokens[j])][t], Fed(chunks, n, tokens, j + 1, t), t)
    {
      FedStep(chunks, n, tokens, j, t);
    }
  }

  /** The loop body for the token at `j`: count in its window, then move the window past the chunk. */
  method ScanToken(chunks: seq<Bytes>, n: nat, tokens: seq<Bytes>, j: nat, before: map<Bytes, Bytes>, hits: nat)
    returns (total: nat, overlaps: map<Bytes, Bytes>)
    requires n < |chunks| && j < |tokens|
    requires OverlapsHeld(before, chunks, n, tokens, j) && hits == TotalHits(chunks, n, tokens, j)
    ensures total == TotalHits(chunks, n, tokens, j + 1)
    ensures OverlapsHeld(overlaps, chunks, n, tokens, j + 1)
  {
    var window := before[tokens[j]] + chunks[n];
    HeldStep(before, chunks, n, tokens, j, window);
    HitsStep(chunks, n, tokens, j, window);
    total := hits + Count(window, tokens[j]);
    overlaps := before[tokens[j] := Overlap(window, tokens[j])];
  }

  lemma {:induction false} HeldNext(overlaps: map<Bytes, Bytes>, chunks: seq<Bytes>, n: nat, tokens: seq<Bytes>)
    requires n < |chunks| && OverlapsHeld(overlaps, chunks, n, tokens, |tokens|)
    ensures OverlapsHeld(overlaps, chunks, n + 1, tokens, 0)
  {
    forall t | t in tokens ensures HeldAt(overlaps[t], Fed(chunks, n + 1, tokens, 0, t), t) {
      FedNext(chunks, n, tokens, t);
    }
  }

  /** The loop over the tokens for one chunk read. */
  method ScanChunk(chunks: seq<Bytes>, n: nat, tokens: seq<Bytes>, before: map<Bytes, Bytes>, hits: nat)
    returns (total: nat, overlaps: map<Bytes, Bytes>)
    requires n < |chunks| && OverlapsHeld(before, chunks, n, tokens, 0) && hits == TotalHits(chunks, n, tokens, 0)
    ensures total == TotalHits(chunks, n + 1, tokens, 0)
    ensures OverlapsHeld(overlaps, chunks, n + 1, tokens, 0)
  {
    total, overlaps := hits, before;
    for j := 0 to |tokens|
      invariant OverlapsHeld(overlaps, chunks, n, tokens, j)
      invariant total == TotalHits(chunks, n, tokens, j)
    {
      total, overlaps := ScanToken(chunks, n, tokens, j, overlaps, total);
    }
    HitsNext(chunks, n, tokens);
    HeldNext(overlaps, chunks, n, tokens);
  }

  /** The reading loop for one file, with the overlap kept per token. */
  method ScanFile(chunks: seq<Bytes>, tokens: seq<Bytes>) returns (hits: nat)
    ensures hits == FileHits(chunks, tokens)
  {
    hits := 0;
    var overlaps: map<Bytes, Bytes> := map t | t in tokens :: "";
    NothingFed(chunks, tokens, |tokens|);
    for n := 0 to |chunks|
      invariant OverlapsHeld(overlaps, chunks, n, tokens, 0)
      invariant hits == TotalHits(chunks, n, tokens, 0)
    {
      hits, overlaps := ScanChunk(chunks, n, tokens, overlaps, hits);
    }
  }

  /** The loop over the files of a volume, each read as its own stream. */
  method PersistentVolumeHits(files: seq<seq<Bytes>>, tokens: seq<Bytes>) returns (hits: nat)
    ensures hits == VolumeHits(files, |files|, tokens)
  {
    hits := 0;
    for i := 0 to |files|
      invariant hits == VolumeHits(files, i, tokens)
    {
      var found := ScanFile(files[i], tokens);
      hits := hits + found;
    }
  }

  lemma {:induction false} RepeatedOnce(chunks: seq<Bytes>, n: nat)
    requires n <= |chunks|
    ensures Repeated(chunks, n, 1) == chunks[..n]
    decreases n
  {
    if n > 0 {
      RepeatedOnce(chunks, n - 1);
      assert chunks[..n] == chunks[..n - 1] + [chunks[n - 1]];
      assert Times(chunks[n - 1], 1) == [chunks[n - 1]];
    }
  }

  lemma {:induction false} ListedOnce(tokens: seq<Bytes>, j: nat, k: nat)
    requires Distinct(tokens) && j <= |tokens| && k < |tokens|
    ensures Copies(tokens, j, tokens[k]) == if k < j then 1 else 0
    decreases j
  {
    if j > 0 {
      ListedOnce(tokens, j - 1, k);
    }
  }

  /** A token listed once is streamed over the file as it is. */
  lemma {:induction false} DistinctAreFedOnce(chunks: seq<Bytes>, tokens: seq<Bytes>, k: nat)
    requires Distinct(tokens) && k < |tokens|
    ensures Fed(chunks, |chunks|, tokens, 0, tokens[k]) == chunks && tokens[k] !in tokens[..k]
  {
    ListedOnce(tokens, |tokens|, k);
    RepeatedOnce(chunks, |chunks|);
    assert chunks[..|chunks|] == chunks;
  }

  /** The counts of the whole content, token by token. */
  function CountsOf(content: Bytes): Bytes -> nat {
    t => Count(content, t)
  }

  lemma {:induction false} ScanIsSum(content: Bytes, tokens: seq<Bytes>, m: nat)
    requires Distinct(tokens) && m <= |tokens|
    ensures ScanUpTo(content, tokens, m) == SumOver(CountsOf(content), tokens, m)
    decreases m
  {
    if m > 0 {
      ScanIsSum(content, tokens, m - 1);
      assert tokens[m - 1] !in tokens[..m - 1];
    }
  }

  /** For different tokens that survive cuts, the stream of a file finds what `scan_tokens` finds in its content. */
  lemma {:induction false} FileScanIsWhole(chunks: seq<Bytes>, tokens: seq<Bytes>)
    requires Distinct(tokens) && forall t | t in tokens :: |t| >= 2 && Borderless(t)
    ensures FileHits(chunks, tokens) == ScanTokens(Content(chunks), tokens)
  {
    forall t | t in tokens
      ensures HitsOf(chunks, |chunks|, tokens, 0)(t) == CountsOf(Content(chunks))(t)
    {
      var k :| 0 <= k < |tokens| && tokens[k] == t;
      DistinctAreFedOnce(chunks, tokens, k);
      CountSurvivesCuts(chunks, t);
    }
    SumsAlike(HitsOf(chunks, |chunks|, tokens, 0), CountsOf(Content(chunks)), tokens, |tokens|);
    ScanIsSum(Content(chunks), tokens, |tokens|);
  }

  lemma {:induction false} SumIsPositive(hits: Bytes -> nat, tokens: seq<Bytes>, m: nat)
    requires m <= |tokens|
    ensures SumOver(hits, tokens, m) > 0 <==> exists t | t in tokens[..m] :: hits(t) > 0
    decreases m
  {
    if m > 0 {
      SumIsPositive(hits, tokens, m - 1);
      assert tokens[..m] == tokens[..m - 1] + [tokens[m - 1]];
    }
  }

  /** The token stands in the file, each chunk taken as often as the token is listed. */
  ghost predicate Found(chunks: seq<Bytes>, tokens: seq<Bytes>, t: Bytes) {
    Occurs(Content(Fed(chunks, |chunks|, tokens, 0, t)), t) && (t != "" || chunks != [])
  }

  lemma {:induction false} SomeFed(chunks: seq<Bytes>, n: nat, copies: nat)
    requires n <= |chunks| && copies > 0
    ensures Repeated(chunks, n, copies) != [] <==> n > 0
  {
    if n > 0 {
      assert |Times(chunks[n - 1], copies)| == copies;
    }
  }

  lemma {:induction false} ListedSometime(tokens: seq<Bytes>, j: nat, t: Bytes)
    requires j <= |tokens|
    ensures Copies(tokens, j, t) > 0 <==> t in tokens[..j]
    decreases j
  {
    if j > 0 {
      ListedSometime(tokens, j - 1, t);
      assert tokens[..j] == tokens[..j - 1] + [tokens[j - 1]];
    }
  }

  /** For any list of tokens, repeated and empty ones included, there are hits exactly when one is found. */
  lemma {:induction false} FileDetectsIff(chunks: seq<Bytes>, tokens: seq<Bytes>)
    ensures FileHits(chunks, tokens) > 0 <==> exists t | t in tokens :: Found(chunks, tokens, t)
  {
    var hits := HitsOf(chunks, |chunks|, tokens, 0);
    assert tokens[..|tokens|] == tokens;
    SumIsPositive(hits, tokens, |tokens|);
    forall t | t in tokens ensures hits(t) > 0 <==> Found(chunks, tokens, t) {
      ListedSometime(tokens, |tokens|, t);
      SomeFed(chunks, |chunks|, Copies(tokens, |tokens|, t));
      StreamDetectsExactly(Fed(chunks, |chunks|, tokens, 0, t), t);
    }
  }

  /** A token that is its own rotation by one byte ends as it begins. */
  lemma {:induction false} RotationMakesBorder(t: Bytes)
    requires |t| >= 2 && t[1..] + t[..1] == t
    ensures HasBorder(t, 1)
  {
    assert t[|t| - 1] == (t[1..] + t[..1])[|t| - 1] == t[0];
  }

  lemma {:induction false} RotationHoldsNone(t: Bytes)
    requires |t| >= 2 && Borderless(t)
    ensures !Occurs(Content([t[1..] + t[..1]]), t)
  {
    var rotated := t[1..] + t[..1];
    assert Content([rotated]) == Read([rotated], 0) + rotated == rotated;
    if Occurs(rotated, t) {
      var i :| OccursAt(rotated, t, i);
      assert i == 0 && rotated[0..|t|] == rotated;
      RotationMakesBorder(t);
    }
  }

  lemma {:induction false} RotationTwiceHolds(t: Bytes)
    requires |t| >= 2
    ensures Occurs(Content([t[1..] + t[..1], t[1..] + t[..1]]), t)
  {
    var rotated := t[1..] + t[..1];
    TwoChunks(rotated, rotated, t);
    assert t[..1] + t[1..] == t;
    assert rotated + rotated == t[1..] + t + t[..1];
    assert OccursAt(rotated + rotated, t, |t| - 1);
  }

  lemma {:induction false} FedTwice(chunk: Bytes, t: Bytes)
    ensures Fed([chunk], 1, [t, t], 0, t) == [chunk, chunk]
  {
    var tokens := [t, t];
    assert Copies(tokens, 1, t) == Copies(tokens, 0, t) + 1;
    assert Copies(tokens, 2, t) == Copies(tokens, 1, t) + 1;
    assert Repeated([chunk], 1, 2) == Repeated([chunk], 0, 2) + Times(chunk, 2);
  }

  /**
   * The failing input: a token listed twice. Its window passes each chunk twice, and finds the token
   * across the seam of the two passes where the file does not hold it.
   */
  lemma {:induction false} RepeatedTokenIsFoundAtTheSeam(t: Bytes)
    requires |t| >= 2 && Borderless(t)
    ensures FileHits([t[1..] + t[..1]], [t, t]) > 0 && !Occurs(Content([t[1..] + t[..1]]), t)
  {
    RotationHoldsNone(t);
    RotationTwiceHolds(t);
    FedTwice(t[1..] + t[..1], t);
    FileDetectsIff([t[1..] + t[..1]], [t, t]);
    assert Found([t[1..] + t[..1]], [t, t], t);
  }

  // ---------------------------------------------------------------------------------------------
  // The two canaries.

  predicate LowerHex(seed: Bytes) {
    forall i | 0 <= i < |seed| :: '0' <= seed[i] <= '9' || 'a' <= seed[i] <= 'f'
  }

  const SECRET_PREFIX := "FW_SECRET_CANARY_"
  const PII_PREFIX := "fw_pii_canary_"
  const PII_SUFFIX := "@example.invalid"

  lemma {:induction false} SecretCanaryBorderless(seed: Bytes)
    requires LowerHex(seed)
    ensures Borderless(SECRET_PREFIX + seed)
  {
    var t := SECRET_PREFIX + seed;
    forall b: nat | 0 < b < |t|
      ensures t[..b] != t[|t| - b..]
    {
      assert t[..b][0] == 'F';
      assert t[|t| - b..][0] == t[|t| - b] != 'F';
    }
  }

  lemma PrefixHasOneF(i: nat)
    requires 0 < i < |PII_PREFIX|
    ensures PII_PREFIX[i] != 'f'
  {
  }

  lemma SuffixHasNoF(i: nat)
    requires i < |PII_SUFFIX|
    ensures PII_SUFFIX[i] != 'f'
  {
  }

  /** After its first byte the token never continues with the two bytes it starts with. */
  lemma {:induction false} NoSecondFw(seed: Bytes, t: Bytes, at: nat)
    requires LowerHex(seed) && t == PII_PREFIX + seed + PII_SUFFIX && 0 < at < |t| - 1
    ensures t[at] != 'f' || t[at + 1] != 'w'
  {
    if at < |PII_PREFIX| {
      PrefixHasOneF(at);
    } else if at < |PII_PREFIX| + |seed| {
      assert t[at + 1] == if at + 1 < |PII_PREFIX| + |seed| then seed[at + 1 - |PII_PREFIX|] else '@';
    } else {
      SuffixHasNoF(at - |PII_PREFIX| - |seed|);
    }
  }

  lemma {:induction false} PiiCanaryBorderless(seed: Bytes)
    requires LowerHex(seed)
    ensures Borderless(PII_PREFIX + seed + PII_SUFFIX)
  {
    var t := PII_PREFIX + seed + PII_SUFFIX;
    assert t[0] == 'f' && t[1] == 'w' && t[|t| - 1] == 'd';
    forall b: nat | 0 < b < |t|
      ensures t[..b] != t[|t| - b..]
    {
      var at := |t| - b;
      assert t[..b][0] == t[0] && t[at..][0] == t[at];
      if b > 1 {
        NoSecondFw(seed, t, at);
        assert t[..b][1] == t[1] && t[at..][1] == t[at + 1];
      }
    }
  }

  /**
   * The streamed scan of any file for the two canaries of any seed equals `scan_tokens` on its
   * whole content, wherever the chunk boundaries fall.
   */
  lemma {:induction false} CanaryScanIsWhole(seed: Bytes, chunks: seq<Bytes>)
    requires LowerHex(seed)
    ensures
      var canaries := ["FW_SECRET_CANARY_" + seed, "fw_pii_canary_" + seed + "@example.invalid"];
      FileHits(chunks, canaries) == ScanTokens(Content(chunks), canaries)
  {
    SecretCanaryBorderless(seed);
    PiiCanaryBorderless(seed);
    assert (SECRET_PREFIX + seed)[0] == 'F';
    assert (PII_PREFIX + seed + PII_SUFFIX)[0] == 'f';
    FileScanIsWhole(chunks, [SECRET_PREFIX + seed, PII_PREFIX + seed + PII_SUFFIX]);
  }
}
