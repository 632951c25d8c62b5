/** Overlapping character windows over a document. */
module Chunking {
  import opened Text
  import opened Discipline

  /** How far one window starts after the one before. */
  function Stride(size: int, overlap: int): (step: nat)
    ensures step >= 1 && (size >= 1 ==> step <= size)
  {
    Max(1, size - Max(0, overlap))
  }

  /** Where the k-th window starts. */
  function StartOf(k: nat, step: nat): nat { k * step }

  /** `t[start : start + size]`. */
  function Slice(t: string, start: nat, size: nat): (s: string)
    requires start <= |t|
    ensures |s| <= size && start + |s| <= |t|
  {
    t[start..if start + size < |t| then start + size else |t|]
  }

  /** The k-th window of a text. */
  function Window(t: string, size: nat, step: nat, k: nat): string
    requires StartOf(k, step) <= |t|
  {
    Slice(t, StartOf(k, step), size)
  }

  function CeilDiv(a: nat, b: nat): nat
    requires b >= 1
  {
    (a + b - 1) / b
  }

  /** The number of windows: one, and one more per stride that the first leaves uncovered. */
  function WindowCount(n: nat, size: nat, step: nat): nat
    requires step >= 1
  {
    1 + CeilDiv(Max(0, n - size), step)
  }

  lemma CeilDivIs(a: nat, b: nat)
    requires b >= 1
    ensures var q := CeilDiv(a, b); a <= q * b && (q >= 1 ==> (q - 1) * b < a)
  {
    var q := CeilDiv(a, b);
    var m := (a + b - 1) % b;
    assert a + b - 1 == q * b + m && 0 <= m < b;
    assert (q - 1) * b == q * b - b;
  }

  /** Every window starts inside the text, all but the last end before it does, and the last reaches it. */
  lemma WindowEnds(n: nat, size: nat, step: nat, k: nat)
    requires 1 <= step <= size && n >= 1 && k < WindowCount(n, size, step)
    ensures StartOf(k, step) < n
    ensures StartOf(k, step) + size < n <==> k < WindowCount(n, size, step) - 1
  {
    var a := Max(0, n - size);
    var q := CeilDiv(a, step);
    CeilDivIs(a, step);
    if k < q {
      assert k * step <= (q - 1) * step by { Monotone(k, q - 1, step); }
    } else {
      assert k == q;
    }
  }

  lemma Monotone(a: nat, b: int, c: nat)
    requires a <= b
    ensures a * c <= b * c
  {
  }

  /** The chunks of the first `w` windows: stripped, and dropped when blank. */
  function Chunks(t: string, size: nat, step: nat, w: nat): seq<string>
    requires 1 <= step <= size && t != "" && w <= WindowCount(|t|, size, step)
  {
    if w == 0 then []
    else
      WindowEnds(|t|, size, step, w - 1);
      var c := Strip(Window(t, size, step, w - 1));
      Chunks(t, size, step, w - 1) + if c == "" then [] else [c]
  }

  /** `chunk_text`. */
  function Chunked(text: string, size: int, overlap: int): seq<string> {
    var t := Strip(text);
    if t == "" then []
    else if size <= 0 then [t]
    else Chunks(t, size, Stride(size, overlap), WindowCount(|t|, size, Stride(size, overlap)))
  }

  method ChunkText(text: string, size: int, overlap: int) returns (chunks: seq<string>)
    ensures chunks == Chunked(text, size, overlap)
  {
    var t := Strip(text);
    if t == "" {
      return [];
    }
    if size <= 0 {
      return [t];
    }
    hide WindowCount, Strip, Slice, StartOf, IsSpace, Chunks, Window, Stride;
    var step := Stride(size, overlap);
    chunks := [];
    var start := 0;
    ghost var k: nat := 0;
    FirstWindow(|t|, size, step);
    NoChunks(t, size, step);
    while start < |t|
      invariant start == StartOf(k, step) && k < WindowCount(|t|, size, step) && start < |t|
      invariant chunks == Chunks(t, size, step, k)
      decreases |t| - start
    {
      var chunk := Strip(Slice(t, start, size));
      if chunk != "" {
        chunks := chunks + [chunk];
      }
      NextChunk(t, size, step, k);
      WindowEnds(|t|, size, step, k);
      if start + size >= |t| {
        assert k + 1 == WindowCount(|t|, size, step);
        return;
      }
      NextStart(k, step);
      start, k := start + step, k + 1;
      WindowEnds(|t|, size, step, k);
    }
    assert false;
  }

  lemma NextChunk(t: string, size: nat, step: nat, k: nat)
    requires 1 <= step <= size && t != "" && k < WindowCount(|t|, size, step)
    ensures StartOf(k, step) <= |t|
    ensures var c := Strip(Slice(t, StartOf(k, step), size));
      Chunks(t, size, step, k + 1) == if c == "" then Chunks(t, size, step, k) else Chunks(t, size, step, k) + [c]
  {
    hide WindowCount, Strip, Slice, StartOf, IsSpace;
    WindowEnds(|t|, size, step, k);
  }

  lemma NoChunks(t: string, size: nat, step: nat)
    requires 1 <= step <= size && t != ""
    ensures Chunks(t, size, step, 0) == []
  {
  }

  lemma FirstWindow(n: nat, size: nat, step: nat)
    requires 1 <= step <= size && n >= 1
    ensures 0 < WindowCount(n, size, step) && StartOf(0, step) == 0
  {
  }

  lemma NextStart(k: nat, step: nat)
    ensures StartOf(k + 1, step) == StartOf(k, step) + step
  {
  }

  // ---------------------------------------------------------------- what the chunks are

  /** Every chunk is a non-empty stripped window, so no longer than the size. */
  lemma {:induction false} ChunksAreWindows(t: string, size: nat, step: nat, w: nat, c: string)
    requires 1 <= step <= size && t != "" && w <= WindowCount(|t|, size, step) && c in Chunks(t, size, step, w)
    ensures 1 <= |c| <= size
    ensures exists k :: 0 <= k < w && StartOf(k, step) <= |t| && c == Strip(Window(t, size, step, k))
  {
    hide WindowCount, Strip, Slice, StartOf;
    WindowEnds(|t|, size, step, w - 1);
    if c in Chunks(t, size, step, w - 1) {
      ChunksAreWindows(t, size, step, w - 1, c);
    } else {
      assert c == Strip(Window(t, size, step, w - 1));
      var lo, hi := StripIsWindow(Window(t, size, step, w - 1));
    }
  }

  lemma {:induction false} ChunkOfWindow(t: string, size: nat, step: nat, w: nat, k: nat)
    requires 1 <= step <= size && t != "" && k < w <= WindowCount(|t|, size, step)
    requires StartOf(k, step) <= |t| && Strip(Window(t, size, step, k)) != ""
    ensures Strip(Window(t, size, step, k)) in Chunks(t, size, step, w)
  {
    if k < w - 1 { ChunkOfWindow(t, size, step, w - 1, k); }
  }

  /** The chunks come in the order of their windows: that of window `k`, if it is not blank, right after those of the
      windows before. */
  lemma {:induction false} ChunksInOrder(t: string, size: nat, step: nat, k: nat, w: nat)
    requires 1 <= step <= size && t != "" && k < w <= WindowCount(|t|, size, step)
    ensures StartOf(k, step) <= |t|
    ensures var before, all, c := Chunks(t, size, step, k), Chunks(t, size, step, w), Strip(Window(t, size, step, k));
      before <= all && (c != "" ==> before + [c] <= all)
  {
    hide WindowCount, Strip, Slice, StartOf;
    WindowEnds(|t|, size, step, k);
    if k < w - 1 { ChunksInOrder(t, size, step, k, w - 1); }
  }

  /** The window a position falls into. */
  lemma WindowAt(n: nat, size: nat, step: nat, p: nat) returns (k: nat)
    requires 1 <= step <= size && p < n
    ensures k < WindowCount(n, size, step) && StartOf(k, step) <= p < StartOf(k, step) + size
  {
    var last := WindowCount(n, size, step) - 1;
    k := p / step;
    assert p == k * step + p % step;
    if k > last {
      WindowEnds(n, size, step, last);
      Monotone(last, k, step);
      k := last;
    }
  }

  /** `c` is the piece of the text from `lo` on, and that covers `p`. */
  ghost predicate PieceAt(text: string, c: string, lo: nat, p: nat) {
    lo <= p < lo + |c| <= |text| && c == text[lo..lo + |c|]
  }

  /** `c` shows character `p` of the text. */
  ghost predicate Shows(text: string, c: string, p: nat) { exists lo: nat :: PieceAt(text, c, lo, p) }

  lemma ShowsWithin(text: string, t: string, at: nat, c: string, p: nat)
    requires at + |t| <= |text| && t == text[at..at + |t|] && at <= p && Shows(t, c, p - at)
    ensures Shows(text, c, p)
  {
    var lo: nat :| PieceAt(t, c, lo, p - at);
    assert forall i :: 0 <= i < |c| ==> c[i] == t[lo + i] && t[lo + i] == text[at + lo + i];
    assert c == text[at + lo..at + lo + |c|];
    assert PieceAt(text, c, at + lo, p);
  }

  lemma StripShows(s: string, p: nat)
    requires p < |s| && !IsSpace(s[p])
    ensures Shows(s, Strip(s), p)
  {
    var lo, hi := StripIsWindow(s);
    assert PieceAt(s, Strip(s), lo, p);
  }

  /** A position of the stripped text shows up in the chunk of its window. */
  lemma ShownInWindow(t: string, size: nat, step: nat, p: nat) returns (c: string)
    requires 1 <= step <= size && t != "" && p < |t| && !IsSpace(t[p])
    ensures c in Chunks(t, size, step, WindowCount(|t|, size, step)) && Shows(t, c, p)
  {
    hide WindowCount, Strip, Chunks, Shows, IsSpace, StartOf, Window;
    var k := WindowAt(|t|, size, step, p);
    WindowEnds(|t|, size, step, k);
    var win := Window(t, size, step, k);
    c := Strip(win);
    var at := StartOf(k, step);
    WindowIs(t, size, step, k, p);
    StripShows(win, p - at);
    ShowsWithin(t, win, at, c, p);
    ShowsSome(t, c, p);
    ChunkOfWindow(t, size, step, WindowCount(|t|, size, step), k);
  }

  lemma WindowIs(t: string, size: nat, step: nat, k: nat, p: nat)
    requires StartOf(k, step) <= p < |t| && p < StartOf(k, step) + size
    ensures var win, at := Window(t, size, step, k), StartOf(k, step);
      at + |win| <= |t| && win == t[at..at + |win|] && p - at < |win| && win[p - at] == t[p]
  {
    hide StartOf;
  }

  lemma ShowsSome(t: string, c: string, p: nat)
    requires Shows(t, c, p)
    ensures c != ""
  {
  }

  /** Nothing but whitespace is lost: every other character of the document is shown by some chunk, for every
      size and overlap. */
  lemma EveryCharacterIsShown(text: string, size: int, overlap: int, p: nat)
    requires p < |text| && !IsSpace(text[p])
    ensures exists c :: c in Chunked(text, size, overlap) && Shows(text, c, p)
  {
    hide WindowCount, Strip, Chunks, Shows, IsSpace;
    var t := Strip(text);
    var lo, hi := StripIsWindow(text);
    StripShows(text, p);
    ShowsSome(text, t, p);
    if size <= 0 {
      assert t in Chunked(text, size, overlap);
    } else {
      var c := ShownInWindow(t, size, Stride(size, overlap), p - lo);
      ShowsWithin(text, t, lo, c, p);
    }
  }

  /** How many chunks there can be, and how long they are. */
  lemma ChunkBounds(text: string, size: int, overlap: int)
    requires size >= 1
    ensures var t := Strip(text); var n := |Chunked(text, size, overlap)|;
      && (n == 0 <==> t == "")
      && (t != "" ==> n <= WindowCount(|t|, size, Stride(size, overlap)))
    ensures forall c :: c in Chunked(text, size, overlap) ==> 1 <= |c| <= size
  {
    var t := Strip(text);
    if t != "" {
      var step := Stride(size, overlap);
      var w := WindowCount(|t|, size, step);
      ChunksCount(t, size, step, w);
      forall c | c in Chunked(text, size, overlap) ensures 1 <= |c| <= size { ChunksAreWindows(t, size, step, w, c); }
      var lo, hi := StripIsWindow(text);
      EveryCharacterIsShown(text, size, overlap, lo);
    }
  }

  lemma {:induction false} ChunksCount(t: string, size: nat, step: nat, w: nat)
    requires 1 <= step <= size && t != "" && w <= WindowCount(|t|, size, step)
    ensures |Chunks(t, size, step, w)| <= w
  {
    if w > 0 { ChunksCount(t, size, step, w - 1); }
  }

  /** Neighbouring windows share the overlap: the last so many characters of a window are the first of the next, if
      the overlap is smaller than the size. An overlap that is not moves on by one character, a negative one by the
      whole size. */
  lemma NeighboursOverlap(t: string, size: int, overlap: int, k: nat)
    requires size >= 1 && t != "" && k + 1 < WindowCount(|t|, size, Stride(size, overlap))
    ensures var step := Stride(size, overlap);
      && StartOf(k + 1, step) <= |t| && StartOf(k, step) <= |t|
      && var shared := if overlap <= 0 then 0 else if overlap < size then overlap else size - 1;
         var one, two := Window(t, size, step, k), Window(t, size, step, k + 1);
         && |one| == size && StartOf(k + 1, step) == StartOf(k, step) + size - shared
         && (shared <= |two| ==> one[size - shared..] == two[..shared])
         && (|two| < shared ==> two <= one[size - shared..])
  {
    var step := Stride(size, overlap);
    WindowEnds(|t|, size, step, k);
    WindowEnds(|t|, size, step, k + 1);
    NextStart(k, step);
  }
}
