/** The chunk store behind retrieval: ingesting replaces a document, and a list and a keyed store agree. */
module Retrieval {
  import opened Text
  import opened Ordering
  import opened Chunking

  type Vector = seq<real>

  datatype Chunk = Chunk(source: string, index: nat, text: string, vector: Option<Vector>)

  // ---------------------------------------------------------------- the list store

  function Without(cs: seq<Chunk>, source: string): (r: seq<Chunk>)
    ensures forall c :: c in r <==> c in cs && c.source != source
  {
    if cs == [] then []
    else
      var last := cs[|cs| - 1];
      Without(cs[..|cs| - 1], source) + if last.source == source then [] else [last]
  }

  class InMemoryVectorStore {
    var chunks: seq<Chunk>

    constructor ()
      ensures chunks == []
    {
      chunks := [];
    }

    method DeleteBySource(source: string) returns (removed: nat)
      modifies this
      ensures chunks == Without(old(chunks), source) && removed == |old(chunks)| - |chunks|
    {
      var kept: seq<Chunk> := [];
      for i := 0 to |chunks|
        invariant chunks == old(chunks) && kept == Without(chunks[..i], source) && |kept| <= i
      {
        assert chunks[..i + 1][..i] == chunks[..i];
        if chunks[i].source != source { kept := kept + [chunks[i]]; }
      }
      assert chunks[..|chunks|] == chunks;
      removed := |chunks| - |kept|;
      chunks := kept;
    }

    method Upsert(more: seq<Chunk>) returns (n: nat)
      modifies this
      ensures chunks == old(chunks) + more && n == |more|
    {
      chunks := chunks + more;
      n := |more|;
    }
  }

  // ---------------------------------------------------------------- the keyed store

  /** The text whose hash is the point id; the hash itself is taken to be injective. */
  function PointKey(source: string, index: nat): string { source + "::" + Digits(index) }

  lemma {:induction false} DigitsHasNoColon(n: nat)
    ensures ':' !in Digits(n)
  {
    if n >= 10 { DigitsHasNoColon(n / 10); }
  }

  /** A point id belongs to one source and one index. */
  lemma PointKeyInjective(a: string, i: nat, b: string, j: nat)
    requires PointKey(a, i) == PointKey(b, j)
    ensures a == b && i == j
  {
    DigitsHasNoColon(i);
    DigitsHasNoColon(j);
    assert a + "::" + Digits(i) == (a + ":") + [':'] + Digits(i);
    assert b + "::" + Digits(j) == (b + ":") + [':'] + Digits(j);
    SplitAtLast(a + ":", Digits(i), b + ":", Digits(j), ':');
    assert (a + ":")[..|a|] == a && (b + ":")[..|b|] == b;
    DigitsInjective(i, j);
  }

  type Points = map<string, Chunk>

  function Dropped(ps: Points, source: string): Points { map k | k in ps && ps[k].source != source :: ps[k] }

  function Put(ps: Points, cs: seq<Chunk>): Points {
    if cs == [] then ps
    else
      var c := cs[|cs| - 1];
      Put(ps, cs[..|cs| - 1])[PointKey(c.source, c.index) := c]
  }

  function Width(c: Chunk): nat { if c.vector.None? then 0 else |c.vector.value| }

  /** What an upsert accepts: every chunk embedded, all to the same non-zero width. */
  predicate Embedded(cs: seq<Chunk>) { forall i :: 0 <= i < |cs| ==> Width(cs[i]) > 0 && Width(cs[i]) == Width(cs[0]) }

  predicate HasWidth(cs: seq<Chunk>, w: nat) { w > 0 && forall c :: c in cs ==> c.vector.Some? && |c.vector.value| == w }

  /** That is: there is one positive width that all the vectors have. */
  lemma EmbeddedIff(cs: seq<Chunk>)
    ensures Embedded(cs) <==> exists w: nat :: HasWidth(cs, w)
  {
    if Embedded(cs) { assert HasWidth(cs, if cs == [] then 1 else Width(cs[0])); }
    if w: nat :| HasWidth(cs, w) { assert forall i :: 0 <= i < |cs| ==> Width(cs[i]) == w; }
  }

  class QdrantVectorStore {
    var points: Points

    constructor ()
      ensures points == map[]
    {
      points := map[];
    }

    method DeleteBySource(source: string)
      modifies this
      ensures points == Dropped(old(points), source)
    {
      points := map k | k in points && points[k].source != source :: points[k];
    }

    /** The whole batch is validated before anything is written; false: it raised. */
    method Upsert(cs: seq<Chunk>) returns (ok: bool)
      modifies this
      ensures ok == Embedded(cs) && points == if ok then Put(old(points), cs) else old(points)
    {
      for i := 0 to |cs|
        invariant points == old(points)
        invariant forall j :: 0 <= j < i ==> Width(cs[j]) > 0 && Width(cs[j]) == Width(cs[0])
      {
        if cs[i].vector.None? || cs[i].vector.value == [] || Width(cs[i]) != Width(cs[0]) {
          return false;
        }
      }
      for i := 0 to |cs|
        invariant points == Put(old(points), cs[..i])
      {
        assert cs[..i + 1][..i] == cs[..i];
        points := points[PointKey(cs[i].source, cs[i].index) := cs[i]];
      }
      assert cs[..|cs|] == cs;
      ok := true;
    }
  }

  // ---------------------------------------------------------------- ingest

  datatype Config = Config(size: int, overlap: int)

  datatype File = File(source: string, text: string)

  /** An embedder: one vector per text, if it keeps its promise. */
  type Embedder = seq<string> -> seq<Vector>

  function ChunksOf(source: string, texts: seq<string>, vectors: seq<Vector>): (cs: seq<Chunk>)
    requires |vectors| == |texts|
    ensures |cs| == |texts| && forall i :: 0 <= i < |cs| ==> cs[i] == Chunk(source, i, texts[i], Some(vectors[i]))
  {
    seq(|texts|, i requires 0 <= i < |texts| => Chunk(source, i, texts[i], Some(vectors[i])))
  }

  /** What one file comes to: nothing (blank), a count mismatch that raises, or its chunks. */
  datatype Prepared = Blank | Mismatch | Ready(chunks: seq<Chunk>)

  function Prepare(f: File, cfg: Config, embed: Embedder): Prepared {
    var texts := Chunked(f.text, cfg.size, cfg.overlap);
    if texts == [] then Blank
    else
      var vectors := embed(texts);
      if |vectors| != |texts| then Mismatch else Ready(ChunksOf(f.source, texts, vectors))
  }

  /** A blank file is passed over before its old chunks would be deleted. */
  function ListIngest(cs: seq<Chunk>, f: File, cfg: Config, embed: Embedder): Option<seq<Chunk>> {
    match Prepare(f, cfg, embed)
    case Blank => Some(cs)
    case Mismatch => None
    case Ready(more) => Some(Without(cs, f.source) + more)
  }

  /** The points afterwards, and whether the call raised: a refused batch has already lost the old chunks. */
  function KeyedIngest(ps: Points, f: File, cfg: Config, embed: Embedder): (Points, bool) {
    match Prepare(f, cfg, embed)
    case Blank => (ps, false)
    case Mismatch => (ps, true)
    case Ready(more) =>
      if Embedded(more) then (Put(Dropped(ps, f.source), more), false) else (Dropped(ps, f.source), true)
  }

  /** All files in order, until one raises. */
  function ListIngestAll(cs: seq<Chunk>, files: seq<File>, cfg: Config, embed: Embedder): (seq<Chunk>, bool) {
    if files == [] then (cs, false)
    else
      var before := ListIngestAll(cs, files[..|files| - 1], cfg, embed);
      if before.1 then before
      else
        var r := ListIngest(before.0, files[|files| - 1], cfg, embed);
        if r.None? then (before.0, true) else (r.value, false)
  }

  function KeyedIngestAll(ps: Points, files: seq<File>, cfg: Config, embed: Embedder): (Points, bool) {
    if files == [] then (ps, false)
    else
      var before := KeyedIngestAll(ps, files[..|files| - 1], cfg, embed);
      if before.1 then before else KeyedIngest(before.0, files[|files| - 1], cfg, embed)
  }

  /** One file of `RagService.ingest` over the list store; false: it raised. */
  method IngestFile(store: InMemoryVectorStore, f: File, cfg: Config, embed: Embedder) returns (ok: bool, n: nat)
    modifies store
    ensures var r := ListIngest(old(store.chunks), f, cfg, embed);
      ok == r.Some? && store.chunks == (if ok then r.value else old(store.chunks))
    ensures ok ==> n == |Chunked(f.text, cfg.size, cfg.overlap)|
  {
    hide Chunked, Without;
    var texts := ChunkText(f.text, cfg.size, cfg.overlap);
    if texts == [] {
      return true, 0;
    }
    var vectors := embed(texts);
    if |vectors| != |texts| {
      return false, 0;
    }
    var chunks := ChunksOf(f.source, texts, vectors);
    var _ := store.DeleteBySource(f.source);
    n := store.Upsert(chunks);
    ok := true;
  }

  /** `RagService.ingest` over the list store, past its health gate and path check. */
  method IngestInMemory(store: InMemoryVectorStore, files: seq<File>, cfg: Config, embed: Embedder)
    returns (ok: bool, total: nat, sources: seq<string>)
    modifies store
    ensures (store.chunks, !ok) == ListIngestAll(old(store.chunks), files, cfg, embed)
    ensures ok ==> sources == Sources(files, cfg) && total == ChunkTotal(files, cfg)
  {
    hide Chunked, ListIngest;
    total, sources := 0, [];
    for i := 0 to |files|
      invariant ListIngestAll(old(store.chunks), files[..i], cfg, embed) == (store.chunks, false)
      invariant sources == Sources(files[..i], cfg) && total == ChunkTotal(files[..i], cfg)
    {
      assert files[..i + 1][..i] == files[..i];
      var n;
      ok, n := IngestFile(store, files[i], cfg, embed);
      if !ok {
        ListIngestStops(old(store.chunks), files, i + 1, cfg, embed);
        return;
      }
      total := total + n;
      if n > 0 { sources := sources + [files[i].source]; }
    }
    assert files[..|files|] == files;
    ok := true;
  }

  /** The same over the keyed store. */
  method IngestFileKeyed(store: QdrantVectorStore, f: File, cfg: Config, embed: Embedder) returns (ok: bool)
    modifies store
    ensures (store.points, !ok) == KeyedIngest(old(store.points), f, cfg, embed)
  {
    hide Chunked, Dropped, Put, Embedded;
    var texts := ChunkText(f.text, cfg.size, cfg.overlap);
    if texts == [] {
      return true;
    }
    var vectors := embed(texts);
    if |vectors| != |texts| {
      return false;
    }
    store.DeleteBySource(f.source);
    ok := store.Upsert(ChunksOf(f.source, texts, vectors));
  }

  method IngestKeyed(store: QdrantVectorStore, files: seq<File>, cfg: Config, embed: Embedder) returns (ok: bool)
    modifies store
    ensures (store.points, !ok) == KeyedIngestAll(old(store.points), files, cfg, embed)
  {
    hide KeyedIngest;
    for i := 0 to |files|
      invariant KeyedIngestAll(old(store.points), files[..i], cfg, embed) == (store.points, false)
    {
      assert files[..i + 1][..i] == files[..i];
      ok := IngestFileKeyed(store, files[i], cfg, embed);
      if !ok {
        KeyedIngestStops(old(store.points), files, i + 1, cfg, embed);
        return;
      }
    }
    assert files[..|files|] == files;
    ok := true;
  }

  lemma {:induction false} ListIngestStops(cs: seq<Chunk>, files: seq<File>, k: nat, cfg: Config, embed: Embedder)
    requires k <= |files| && ListIngestAll(cs, files[..k], cfg, embed).1
    ensures ListIngestAll(cs, files, cfg, embed) == ListIngestAll(cs, files[..k], cfg, embed)
  {
    if k < |files| {
      assert files[..|files| - 1][..k] == files[..k];
      ListIngestStops(cs, files[..|files| - 1], k, cfg, embed);
    } else {
      assert files[..k] == files;
    }
  }

  lemma {:induction false} KeyedIngestStops(ps: Points, files: seq<File>, k: nat, cfg: Config, embed: Embedder)
    requires k <= |files| && KeyedIngestAll(ps, files[..k], cfg, embed).1
    ensures KeyedIngestAll(ps, files, cfg, embed) == KeyedIngestAll(ps, files[..k], cfg, embed)
  {
    if k < |files| {
      assert files[..|files| - 1][..k] == files[..k];
      KeyedIngestStops(ps, files[..|files| - 1], k, cfg, embed);
    } else {
      assert files[..k] == files;
    }
  }

  function Sources(files: seq<File>, cfg: Config): seq<string> {
    if files == [] then []
    else
      var f := files[|files| - 1];
      Sources(files[..|files| - 1], cfg) + if Chunked(f.text, cfg.size, cfg.overlap) == [] then [] else [f.source]
  }

  function ChunkTotal(files: seq<File>, cfg: Config): nat {
    if files == [] then 0
    else ChunkTotal(files[..|files| - 1], cfg) + |Chunked(files[|files| - 1].text, cfg.size, cfg.overlap)|
  }

  // ---------------------------------------------------------------- each source holds its latest document

  /** The chunks of the last non-blank document of a source. */
  function Latest(files: seq<File>, source: string, cfg: Config, embed: Embedder): seq<Chunk> {
    if files == [] then []
    else
      var f := files[|files| - 1];
      var p := Prepare(f, cfg, embed);
      if f.source == source && p.Ready? then p.chunks else Latest(files[..|files| - 1], source, cfg, embed)
  }

  /** One more file: a blank one, one of another document, and one with too few or too many vectors change nothing;
      any other is what its document comes to, chunk by chunk with its own text and vector, numbered from zero. */
  lemma LatestIs(files: seq<File>, f: File, source: string, cfg: Config, embed: Embedder)
    ensures var texts := Chunked(f.text, cfg.size, cfg.overlap); var vectors := embed(texts);
      var before, after := Latest(files, source, cfg, embed), Latest(files + [f], source, cfg, embed);
      if f.source == source && texts != [] && |vectors| == |texts|
      then |after| == |texts| && forall i :: 0 <= i < |texts| ==> after[i] == Chunk(source, i, texts[i], Some(vectors[i]))
      else after == before
  {
    hide Chunked;
    assert (files + [f])[..|files|] == files;
  }

  /** What an ingest reports, file by file: the sources of the files that are not blank, and how many chunks they are. */
  lemma {:induction false} ReportConcat(a: seq<File>, b: seq<File>, cfg: Config)
    ensures Sources(a + b, cfg) == Sources(a, cfg) + Sources(b, cfg)
    ensures ChunkTotal(a + b, cfg) == ChunkTotal(a, cfg) + ChunkTotal(b, cfg)
    ensures |b| == 1 ==> Sources(b, cfg) == if Strip(b[0].text) == "" then [] else [b[0].source]
    ensures |b| == 1 ==> ChunkTotal(b, cfg) == |Chunked(b[0].text, cfg.size, cfg.overlap)|
  {
    hide Chunked, Strip;
    if b == [] {
      assert a + b == a;
    } else {
      assert (a + b)[..|a + b| - 1] == a + b[..|b| - 1];
      ReportConcat(a, b[..|b| - 1], cfg);
      BlankIff(b[|b| - 1].text, cfg);
    }
  }

  lemma BlankIff(text: string, cfg: Config)
    ensures Chunked(text, cfg.size, cfg.overlap) == [] <==> Strip(text) == ""
  {
    hide Chunks, WindowCount, Stride, Strip;
    if cfg.size >= 1 { ChunkBounds(text, cfg.size, cfg.overlap); }
  }

  /** The chunks of one source, in the order the list holds them. */
  function Only(cs: seq<Chunk>, source: string): (r: seq<Chunk>)
    ensures forall c :: c in r <==> c in cs && c.source == source
  {
    if cs == [] then []
    else
      var last := cs[|cs| - 1];
      Only(cs[..|cs| - 1], source) + if last.source == source then [last] else []
  }

  lemma {:induction false} OnlyConcat(a: seq<Chunk>, b: seq<Chunk>, source: string)
    ensures Only(a + b, source) == Only(a, source) + Only(b, source)
  {
    if b == [] {
      assert a + b == a;
    } else {
      assert (a + b)[..|a + b| - 1] == a + b[..|b| - 1];
      OnlyConcat(a, b[..|b| - 1], source);
    }
  }

  lemma {:induction false} OnlyWithout(cs: seq<Chunk>, gone: string, source: string)
    ensures Only(Without(cs, gone), source) == if source == gone then [] else Only(cs, source)
  {
    if cs != [] {
      var last := cs[|cs| - 1];
      OnlyWithout(cs[..|cs| - 1], gone, source);
      OnlyConcat(Without(cs[..|cs| - 1], gone), if last.source == gone then [] else [last], source);
      assert [last][..0] == [];
    }
  }

  lemma {:induction false} OnlyOwn(cs: seq<Chunk>, owner: string, source: string)
    requires forall i :: 0 <= i < |cs| ==> cs[i].source == owner
    ensures Only(cs, source) == if source == owner then cs else []
  {
    if cs != [] {
      OnlyOwn(cs[..|cs| - 1], owner, source);
      assert cs == cs[..|cs| - 1] + [cs[|cs| - 1]];
    }
  }

  /** Chunks of one source, numbered from zero. */
  ghost predicate Numbered(cs: seq<Chunk>, source: string) {
    forall i :: 0 <= i < |cs| ==> cs[i].source == source && cs[i].index == i && cs[i].vector.Some?
  }

  lemma {:induction false} LatestNumbered(files: seq<File>, source: string, cfg: Config, embed: Embedder)
    ensures Numbered(Latest(files, source, cfg, embed), source)
  {
    hide Chunked;
    if files != [] { LatestNumbered(files[..|files| - 1], source, cfg, embed); }
  }

  /** After any successful ingests each source holds exactly the chunks of its latest non-blank document, in
      order and numbered from zero. */
  lemma {:induction false} ListHoldsLatest(files: seq<File>, source: string, cfg: Config, embed: Embedder)
    requires !ListIngestAll([], files, cfg, embed).1
    ensures Only(ListIngestAll([], files, cfg, embed).0, source) == Latest(files, source, cfg, embed)
    ensures Numbered(Latest(files, source, cfg, embed), source)
  {
    hide Chunked;
    LatestNumbered(files, source, cfg, embed);
    if files != [] {
      var front, f := files[..|files| - 1], files[|files| - 1];
      ListHoldsLatest(front, source, cfg, embed);
      var p := Prepare(f, cfg, embed);
      if p.Ready? {
        var cs := ListIngestAll([], front, cfg, embed).0;
        OnlyConcat(Without(cs, f.source), p.chunks, source);
        OnlyWithout(cs, f.source, source);
        OnlyOwn(p.chunks, f.source, source);
      }
    }
  }

  /** The point under `k` is one of its source's latest chunks, under that chunk's key. */
  ghost predicate Rightful(ps: Points, k: string, files: seq<File>, cfg: Config, embed: Embedder)
    requires k in ps
  {
    var latest := Latest(files, ps[k].source, cfg, embed);
    k == PointKey(ps[k].source, ps[k].index) && ps[k].index < |latest| && ps[k] == latest[ps[k].index]
  }

  /** The keyed store holds exactly the latest chunks of every source, each under its own key. */
  ghost predicate KeyedLatest(ps: Points, files: seq<File>, cfg: Config, embed: Embedder) {
    && (forall k :: k in ps ==> Rightful(ps, k, files, cfg, embed))
    && (forall s: string, i: nat :: i < |Latest(files, s, cfg, embed)| ==>
          PointKey(s, i) in ps && ps[PointKey(s, i)] == Latest(files, s, cfg, embed)[i])
  }

  /** Putting numbered chunks of one source: they are there, and nothing else has changed. */
  lemma {:induction false} PutNumbered(ps: Points, cs: seq<Chunk>, source: string)
    requires Numbered(cs, source)
    ensures var qs := Put(ps, cs);
      && (forall i: nat :: i < |cs| ==> PointKey(source, i) in qs && qs[PointKey(source, i)] == cs[i])
      && (forall k :: k in ps && (forall i: nat :: i < |cs| ==> k != PointKey(source, i)) ==> k in qs && qs[k] == ps[k])
      && (forall k :: k in qs && (forall i: nat :: i < |cs| ==> k != PointKey(source, i)) ==> k in ps)
  {
    hide PointKey;
    if cs != [] {
      var n := |cs| - 1;
      PutNumbered(ps, cs[..n], source);
      forall i: nat | i < n ensures PointKey(source, i) != PointKey(source, n) {
        if PointKey(source, i) == PointKey(source, n) { PointKeyInjective(source, i, source, n); }
      }
    }
  }

  lemma LatestPush(files: seq<File>, f: File, source: string, cfg: Config, embed: Embedder)
    ensures var p := Prepare(f, cfg, embed);
      Latest(files + [f], source, cfg, embed) == if f.source == source && p.Ready? then p.chunks else Latest(files, source, cfg, embed)
  {
    assert (files + [f])[..|files|] == files;
  }

  lemma KeyedStep(ps: Points, files: seq<File>, f: File, cfg: Config, embed: Embedder)
    requires KeyedLatest(ps, files, cfg, embed) && !KeyedIngest(ps, f, cfg, embed).1
    ensures KeyedLatest(KeyedIngest(ps, f, cfg, embed).0, files + [f], cfg, embed)
  {
    hide Chunked, PointKey, Put, Latest, Embedded, Prepare, Dropped;
    forall s: string { LatestPush(files, f, s, cfg, embed); }
    var p := Prepare(f, cfg, embed);
    if p.Ready? {
      PreparedNumbered(f, cfg, embed);
      var qs := Put(Dropped(ps, f.source), p.chunks);
      forall k | k in qs ensures Rightful(qs, k, files + [f], cfg, embed) { KeptRightful(ps, files, f, cfg, embed, k); }
      forall s: string, i: nat | i < |Latest(files + [f], s, cfg, embed)|
        ensures PointKey(s, i) in qs && qs[PointKey(s, i)] == Latest(files + [f], s, cfg, embed)[i]
      {
        LatestIsKept(ps, files, f, cfg, embed, s, i);
      }
    }
  }

  lemma KeptRightful(ps: Points, files: seq<File>, f: File, cfg: Config, embed: Embedder, k: string)
    requires KeyedLatest(ps, files, cfg, embed) && Prepare(f, cfg, embed).Ready?
    requires k in Put(Dropped(ps, f.source), Prepare(f, cfg, embed).chunks)
    ensures Rightful(Put(Dropped(ps, f.source), Prepare(f, cfg, embed).chunks), k, files + [f], cfg, embed)
  {
    hide Chunked, PointKey, Put, Latest, Prepare;
    var cs := Prepare(f, cfg, embed).chunks;
    var qs := Put(Dropped(ps, f.source), cs);
    PreparedNumbered(f, cfg, embed);
    PutNumbered(Dropped(ps, f.source), cs, f.source);
    LatestPush(files, f, qs[k].source, cfg, embed);
    if i: nat :| i < |cs| && k == PointKey(f.source, i) {
      assert qs[k] == cs[i];
    } else {
      assert k in Dropped(ps, f.source) && qs[k] == ps[k];
    }
  }

  lemma LatestIsKept(ps: Points, files: seq<File>, f: File, cfg: Config, embed: Embedder, s: string, i: nat)
    requires KeyedLatest(ps, files, cfg, embed) && Prepare(f, cfg, embed).Ready? && i < |Latest(files + [f], s, cfg, embed)|
    ensures var qs := Put(Dropped(ps, f.source), Prepare(f, cfg, embed).chunks);
      PointKey(s, i) in qs && qs[PointKey(s, i)] == Latest(files + [f], s, cfg, embed)[i]
  {
    hide Chunked, PointKey, Put, Latest, Prepare;
    var cs := Prepare(f, cfg, embed).chunks;
    PreparedNumbered(f, cfg, embed);
    PutNumbered(Dropped(ps, f.source), cs, f.source);
    LatestPush(files, f, s, cfg, embed);
    if s != f.source {
      LatestNumbered(files, s, cfg, embed);
      forall j: nat | j < |cs| ensures PointKey(s, i) != PointKey(f.source, j) {
        if PointKey(s, i) == PointKey(f.source, j) { PointKeyInjective(s, i, f.source, j); }
      }
    }
  }

  lemma PreparedNumbered(f: File, cfg: Config, embed: Embedder)
    ensures Prepare(f, cfg, embed).Ready? ==> Numbered(Prepare(f, cfg, embed).chunks, f.source)
  {
    hide Chunked;
  }

  /** After any successful ingests the keyed store holds the same: under each key one chunk, and exactly the
      latest documents' chunks. */
  lemma {:induction false} KeyedHoldsLatest(files: seq<File>, cfg: Config, embed: Embedder)
    requires !KeyedIngestAll(map[], files, cfg, embed).1
    ensures KeyedLatest(KeyedIngestAll(map[], files, cfg, embed).0, files, cfg, embed)
  {
    hide KeyedIngest, KeyedLatest;
    if files == [] {
      NothingKeyed(cfg, embed);
    } else {
      KeyedHoldsLatest(files[..|files| - 1], cfg, embed);
      KeyedStep(KeyedIngestAll(map[], files[..|files| - 1], cfg, embed).0, files[..|files| - 1], files[|files| - 1], cfg, embed);
      assert files[..|files| - 1] + [files[|files| - 1]] == files;
    }
  }

  lemma NothingKeyed(cfg: Config, embed: Embedder)
    ensures KeyedLatest(map[], [], cfg, embed)
  {
  }

  /** Whatever has been ingested, both stores hold the same chunks. */
  lemma StoresAgree(files: seq<File>, cfg: Config, embed: Embedder, c: Chunk)
    requires !ListIngestAll([], files, cfg, embed).1 && !KeyedIngestAll(map[], files, cfg, embed).1
    ensures c in ListIngestAll([], files, cfg, embed).0 <==> c in KeyedIngestAll(map[], files, cfg, embed).0.Values
  {
    hide Chunked, PointKey, Latest, KeyedIngestAll, ListIngestAll;
    var cs, ps := ListIngestAll([], files, cfg, embed).0, KeyedIngestAll(map[], files, cfg, embed).0;
    ListHoldsLatest(files, c.source, cfg, embed);
    KeyedHoldsLatest(files, cfg, embed);
    var latest := Latest(files, c.source, cfg, embed);
    assert c in cs <==> c in latest;
    if c in latest {
      var i: nat :| i < |latest| && latest[i] == c;
      assert PointKey(c.source, i) in ps && ps[PointKey(c.source, i)] == c;
    }
  }

  /** The list ingest raises exactly on a count mismatch; the keyed one also on vectors it refuses. */
  lemma {:induction false} IngestRaisesIff(cs: seq<Chunk>, ps: Points, files: seq<File>, cfg: Config, embed: Embedder)
    ensures ListIngestAll(cs, files, cfg, embed).1 <==> exists i :: 0 <= i < |files| && Prepare(files[i], cfg, embed).Mismatch?
    ensures KeyedIngestAll(ps, files, cfg, embed).1 <==> exists i :: 0 <= i < |files| && Unacceptable(files[i], cfg, embed)
  {
    hide Prepare, Embedded, Put, Dropped;
    if files != [] {
      var front := files[..|files| - 1];
      IngestRaisesIff(cs, ps, front, cfg, embed);
      assert forall i :: 0 <= i < |front| ==> front[i] == files[i];
      if Prepare(files[|front|], cfg, embed).Mismatch? { assert Unacceptable(files[|front|], cfg, embed); }
    }
  }

  predicate Unacceptable(f: File, cfg: Config, embed: Embedder) {
    var p := Prepare(f, cfg, embed);
    p.Mismatch? || (p.Ready? && !Embedded(p.chunks))
  }

  /** What a file costs the keyed store when its ingest raises, point by point: a point is gone if and only if it
      is of that document and every chunk had been given a vector, so that the upsert, coming after the
      deletion, was what refused. Every other point is kept as it was. */
  lemma RefusedBatchLosesSource(ps: Points, f: File, cfg: Config, embed: Embedder, k: string)
    requires KeyedIngest(ps, f, cfg, embed).1 && k in ps
    ensures var r, texts := KeyedIngest(ps, f, cfg, embed), Chunked(f.text, cfg.size, cfg.overlap);
      && (k !in r.0 <==> ps[k].source == f.source && |embed(texts)| == |texts|)
      && (k in r.0 ==> r.0[k] == ps[k]) && r.0.Keys <= ps.Keys
  {
    hide Chunked, Embedded, ChunksOf;
  }

  /** The first file that raises is the last one that is looked at: the list store is left as the files before it
      left it. */
  lemma ListStopsAtMismatch(cs: seq<Chunk>, files: seq<File>, j: nat, cfg: Config, embed: Embedder)
    requires j < |files| && Prepare(files[j], cfg, embed).Mismatch?
    requires forall i :: 0 <= i < j ==> !Prepare(files[i], cfg, embed).Mismatch?
    ensures !ListIngestAll(cs, files[..j], cfg, embed).1
    ensures ListIngestAll(cs, files, cfg, embed) == (ListIngestAll(cs, files[..j], cfg, embed).0, true)
  {
    hide Prepare;
    IngestRaisesIff(cs, map[], files[..j], cfg, embed);
    assert files[..j + 1][..j] == files[..j];
    ListIngestStops(cs, files, j + 1, cfg, embed);
  }

  /** The keyed store besides has lost the points of that file, if every chunk had been given a vector. */
  lemma KeyedStopsAtRefusal(ps: Points, files: seq<File>, j: nat, cfg: Config, embed: Embedder)
    requires j < |files| && Unacceptable(files[j], cfg, embed)
    requires forall i :: 0 <= i < j ==> !Unacceptable(files[i], cfg, embed)
    ensures !KeyedIngestAll(ps, files[..j], cfg, embed).1
    ensures var before := KeyedIngestAll(ps, files[..j], cfg, embed).0;
      KeyedIngestAll(ps, files, cfg, embed) ==
        (if Prepare(files[j], cfg, embed).Ready? then Dropped(before, files[j].source) else before, true)
  {
    hide Prepare, Embedded, Put, Dropped;
    IngestRaisesIff([], ps, files[..j], cfg, embed);
    assert files[..j + 1][..j] == files[..j];
    KeyedIngestStops(ps, files, j + 1, cfg, embed);
  }

  /** A document of this source with chunks and as many vectors is among the files. */
  ghost predicate Replaced(files: seq<File>, source: string, cfg: Config, embed: Embedder) {
    exists i :: 0 <= i < |files| && files[i].source == source && Prepare(files[i], cfg, embed).Ready?
  }

  lemma ReplacedPush(files: seq<File>, f: File, source: string, cfg: Config, embed: Embedder)
    ensures Replaced(files + [f], source, cfg, embed)
      <==> Replaced(files, source, cfg, embed) || (f.source == source && Prepare(f, cfg, embed).Ready?)
  {
    hide Prepare;
    var all := files + [f];
    if Replaced(files, source, cfg, embed) {
      var i :| 0 <= i < |files| && files[i].source == source && Prepare(files[i], cfg, embed).Ready?;
      assert all[i] == files[i];
    }
    assert all[|files|] == f;
  }

  /** The chunks of the sources that the files leave alone. */
  ghost function Outside(cs: seq<Chunk>, files: seq<File>, cfg: Config, embed: Embedder): seq<Chunk> {
    if cs == [] then []
    else
      var last := cs[|cs| - 1];
      Outside(cs[..|cs| - 1], files, cfg, embed) + if Replaced(files, last.source, cfg, embed) then [] else [last]
  }

  lemma {:induction false} WithoutConcat(a: seq<Chunk>, b: seq<Chunk>, source: string)
    ensures Without(a + b, source) == Without(a, source) + Without(b, source)
  {
    if b == [] {
      assert a + b == a;
    } else {
      assert (a + b)[..|a + b| - 1] == a + b[..|b| - 1];
      WithoutConcat(a, b[..|b| - 1], source);
    }
  }

  lemma {:induction false} OutsidePush(cs: seq<Chunk>, files: seq<File>, f: File, cfg: Config, embed: Embedder)
    ensures Outside(cs, files + [f], cfg, embed) == if Prepare(f, cfg, embed).Ready?
      then Without(Outside(cs, files, cfg, embed), f.source) else Outside(cs, files, cfg, embed)
  {
    hide Prepare, Replaced;
    if cs != [] {
      var last := cs[|cs| - 1];
      OutsidePush(cs[..|cs| - 1], files, f, cfg, embed);
      ReplacedPush(files, f, last.source, cfg, embed);
      var kept := if Replaced(files, last.source, cfg, embed) then [] else [last];
      WithoutConcat(Outside(cs[..|cs| - 1], files, cfg, embed), kept, f.source);
      assert [last][..0] == [];
    }
  }

  lemma {:induction false} OutsideNothing(cs: seq<Chunk>, cfg: Config, embed: Embedder)
    ensures Outside(cs, [], cfg, embed) == cs
  {
    if cs != [] { OutsideNothing(cs[..|cs| - 1], cfg, embed); }
  }

  lemma Associative(a: seq<Chunk>, b: seq<Chunk>, c: seq<Chunk>)
    ensures (a + b) + c == a + (b + c)
  {
  }

  /** What an ingest makes of a list that is not empty: the chunks of other sources, and after them what it makes
      of the empty list. */
  lemma {:induction false} ListIngestIs(cs: seq<Chunk>, files: seq<File>, cfg: Config, embed: Embedder)
    requires forall i :: 0 <= i < |files| ==> !Prepare(files[i], cfg, embed).Mismatch?
    ensures ListIngestAll(cs, files, cfg, embed) == (Outside(cs, files, cfg, embed) + ListIngestAll([], files, cfg, embed).0, false)
    ensures !ListIngestAll([], files, cfg, embed).1
  {
    hide Prepare, Replaced, Outside, Without;
    if files == [] {
      OutsideNothing(cs, cfg, embed);
      assert cs + [] == cs;
    } else {
      var front, f := files[..|files| - 1], files[|files| - 1];
      ListIngestIs(cs, front, cfg, embed);
      OutsidePush(cs, front, f, cfg, embed);
      assert front + [f] == files;
      var rest, own := Outside(cs, front, cfg, embed), ListIngestAll([], front, cfg, embed).0;
      var p := Prepare(f, cfg, embed);
      assert !p.Mismatch?;
      if p.Ready? {
        WithoutConcat(rest, own, f.source);
        Associative(Without(rest, f.source), Without(own, f.source), p.chunks);
      }
    }
  }

  /** A raising ingest has changed nothing of the list if and only if the list ended, in order, with exactly the
      chunks that the files before the raising one come to, and held none of their sources before that. */
  lemma ListUnchangedIff(cs: seq<Chunk>, files: seq<File>, j: nat, cfg: Config, embed: Embedder)
    requires j < |files| && Prepare(files[j], cfg, embed).Mismatch?
    requires forall i :: 0 <= i < j ==> !Prepare(files[i], cfg, embed).Mismatch?
    ensures ListIngestAll(cs, files, cfg, embed).0 == cs
      <==> cs == Outside(cs, files[..j], cfg, embed) + ListIngestAll([], files[..j], cfg, embed).0
  {
    hide Prepare, ListIngestAll, Outside;
    ListStopsAtMismatch(cs, files, j, cfg, embed);
    ListIngestIs(cs, files[..j], cfg, embed);
  }

  /** Every point is under the id of its own source and index. */
  ghost predicate WellKeyed(ps: Points) {
    forall k :: k in ps ==> k == PointKey(ps[k].source, ps[k].index)
  }

  /** Writing and deleting keep the ids right, whatever is written and whether or not the ingest raises. */
  lemma {:induction false} PutWellKeyed(ps: Points, cs: seq<Chunk>)
    requires WellKeyed(ps)
    ensures WellKeyed(Put(ps, cs))
  {
    hide PointKey;
    if cs != [] { PutWellKeyed(ps, cs[..|cs| - 1]); }
  }

  lemma {:induction false} IngestWellKeyed(ps: Points, files: seq<File>, cfg: Config, embed: Embedder)
    requires WellKeyed(ps)
    ensures WellKeyed(KeyedIngestAll(ps, files, cfg, embed).0)
  {
    hide Prepare, Embedded, Put, PointKey;
    if files != [] {
      var front, f := files[..|files| - 1], files[|files| - 1];
      IngestWellKeyed(ps, front, cfg, embed);
      var p := Prepare(f, cfg, embed);
      if p.Ready? { PutWellKeyed(Dropped(KeyedIngestAll(ps, front, cfg, embed).0, f.source), p.chunks); }
    }
  }

  /** Of this source the store holds exactly these chunks. */
  ghost predicate Exactly(ps: Points, source: string, cs: seq<Chunk>) {
    && (forall k :: k in ps && ps[k].source == source ==> ps[k].index < |cs| && ps[k] == cs[ps[k].index])
    && (forall i: nat :: i < |cs| ==> PointKey(source, i) in ps && ps[PointKey(source, i)] == cs[i])
  }

  /** Of this source both stores hold the same. */
  ghost predicate SameOf(ps: Points, qs: Points, source: string) {
    && (forall k :: k in ps && ps[k].source == source ==> k in qs && qs[k] == ps[k])
    && (forall k :: k in qs && qs[k].source == source ==> k in ps && qs[k] == ps[k])
  }

  lemma PutBySource(ps: Points, f: File, cs: seq<Chunk>, s: string)
    requires WellKeyed(ps) && Numbered(cs, f.source)
    ensures s == f.source ==> Exactly(Put(Dropped(ps, f.source), cs), s, cs)
    ensures s != f.source ==> SameOf(ps, Put(Dropped(ps, f.source), cs), s)
  {
    hide PointKey, Put;
    var qs := Put(Dropped(ps, f.source), cs);
    PutNumbered(Dropped(ps, f.source), cs, f.source);
    forall k | k in qs && qs[k].source == s && s == f.source ensures qs[k].index < |cs| && qs[k] == cs[qs[k].index] {
      var i: nat :| i < |cs| && k == PointKey(f.source, i);
    }
    forall k | k in ps && ps[k].source == s && s != f.source ensures k in qs && qs[k] == ps[k] {
      forall i: nat | i < |cs| ensures k != PointKey(f.source, i) {
        if k == PointKey(f.source, i) { PointKeyInjective(s, ps[k].index, f.source, i); }
      }
    }
    forall k | k in qs && qs[k].source == s && s != f.source ensures k in ps && qs[k] == ps[k] {
      if i: nat :| i < |cs| && k == PointKey(f.source, i) { assert false; }
    }
  }

  /** Source by source, what a completed ingest leaves in any store: the latest chunks of the documents it
      replaced, and the points of every other source as they were. */
  lemma {:induction false} KeyedIngestIs(ps: Points, files: seq<File>, s: string, cfg: Config, embed: Embedder)
    requires WellKeyed(ps) && !KeyedIngestAll(ps, files, cfg, embed).1
    ensures var qs := KeyedIngestAll(ps, files, cfg, embed).0;
      if Replaced(files, s, cfg, embed) then Exactly(qs, s, Latest(files, s, cfg, embed)) else SameOf(ps, qs, s)
  {
    hide Prepare, Embedded, Put, PointKey, Replaced, Exactly, SameOf, Dropped, WellKeyed, Latest;
    if files == [] {
      NothingReplaced(ps, s, cfg, embed);
    } else {
      var front, f := files[..|files| - 1], files[|files| - 1];
      KeyedIngestIs(ps, front, s, cfg, embed);
      assert front + [f] == files;
      ReplacedPush(front, f, s, cfg, embed);
      LatestPush(front, f, s, cfg, embed);
      var p, qs := Prepare(f, cfg, embed), KeyedIngestAll(ps, front, cfg, embed).0;
      if p.Ready? {
        IngestWellKeyed(ps, front, cfg, embed);
        PreparedNumbered(f, cfg, embed);
        PutBySource(qs, f, p.chunks, s);
        LatestNumbered(front, s, cfg, embed);
        if s != f.source { SameIsPassedOn(ps, qs, Put(Dropped(qs, f.source), p.chunks), s, Latest(front, s, cfg, embed)); }
      }
    }
  }

  lemma NothingReplaced(ps: Points, s: string, cfg: Config, embed: Embedder)
    ensures !Replaced([], s, cfg, embed) && SameOf(ps, ps, s)
  {
  }

  lemma SameIsPassedOn(ps: Points, qs: Points, rs: Points, s: string, cs: seq<Chunk>)
    requires SameOf(qs, rs, s)
    ensures SameOf(ps, qs, s) ==> SameOf(ps, rs, s)
    ensures Exactly(qs, s, cs) && Numbered(cs, s) ==> Exactly(rs, s, cs)
  {
    hide PointKey;
  }

  /** What a source has to hold for an ingest that is refused at file `j` to leave it alone. */
  ghost predicate Undisturbed(ps: Points, files: seq<File>, j: nat, s: string, cfg: Config, embed: Embedder)
    requires j < |files|
  {
    if Prepare(files[j], cfg, embed).Ready? && files[j].source == s then Exactly(ps, s, [])
    else Replaced(files[..j], s, cfg, embed) ==> Exactly(ps, s, Latest(files[..j], s, cfg, embed))
  }

  /** A raising ingest has changed nothing of the keyed store if and only if the store held no point of the
      document whose batch was refused and, of every document that came before it in the call, exactly the
      chunks it comes to now. */
  lemma KeyedUnchangedIff(ps: Points, files: seq<File>, j: nat, cfg: Config, embed: Embedder)
    requires WellKeyed(ps) && j < |files| && Unacceptable(files[j], cfg, embed)
    requires forall i :: 0 <= i < j ==> !Unacceptable(files[i], cfg, embed)
    ensures KeyedIngestAll(ps, files, cfg, embed).0 == ps <==> forall s: string :: Undisturbed(ps, files, j, s, cfg, embed)
  {
    hide KeyedIngestAll, Undisturbed, Unacceptable, SameOf, WellKeyed;
    KeyedStopsAtRefusal(ps, files, j, cfg, embed);
    var rs := KeyedIngestAll(ps, files, cfg, embed).0;
    forall s: string ensures Undisturbed(ps, files, j, s, cfg, embed) <==> SameOf(ps, rs, s) {
      SameOfIff(ps, files, j, s, cfg, embed);
    }
    SameEverywhere(ps, rs);
  }

  lemma SameEverywhere(ps: Points, rs: Points)
    ensures rs == ps <==> forall s: string :: SameOf(ps, rs, s)
  {
    if forall s: string :: SameOf(ps, rs, s) {
      forall k ensures k in ps ==> k in rs && rs[k] == ps[k] {
        if k in ps { assert SameOf(ps, rs, ps[k].source); }
      }
      forall k ensures k in rs ==> k in ps {
        if k in rs { assert SameOf(ps, rs, rs[k].source); }
      }
    }
  }

  lemma SameOfIff(ps: Points, files: seq<File>, j: nat, s: string, cfg: Config, embed: Embedder)
    requires WellKeyed(ps) && j < |files| && Unacceptable(files[j], cfg, embed)
    requires forall i :: 0 <= i < j ==> !Unacceptable(files[i], cfg, embed)
    ensures Undisturbed(ps, files, j, s, cfg, embed) <==> SameOf(ps, KeyedIngestAll(ps, files, cfg, embed).0, s)
  {
    hide KeyedIngestAll, Unacceptable, SameOf, Exactly, Replaced, Latest, Prepare, Dropped, WellKeyed;
    KeyedStopsAtRefusal(ps, files, j, cfg, embed);
    KeyedIngestIs(ps, files[..j], s, cfg, embed);
    var qs := KeyedIngestAll(ps, files[..j], cfg, embed).0;
    IngestWellKeyed(ps, files, cfg, embed);
    LatestNumbered(files[..j], s, cfg, embed);
    DroppedOf(qs, files[j].source, s);
    var rs := KeyedIngestAll(ps, files, cfg, embed).0;
    if Prepare(files[j], cfg, embed).Ready? && files[j].source == s {
      ExactlyIff(ps, rs, s, []);
    } else {
      if Prepare(files[j], cfg, embed).Ready? { SameIsPassedOn(ps, qs, rs, s, Latest(files[..j], s, cfg, embed)); }
      if Replaced(files[..j], s, cfg, embed) { ExactlyIff(ps, rs, s, Latest(files[..j], s, cfg, embed)); }
    }
  }

  lemma DroppedOf(qs: Points, source: string, s: string)
    ensures s == source ==> Exactly(Dropped(qs, source), s, [])
    ensures s != source ==> SameOf(qs, Dropped(qs, source), s)
  {
    hide PointKey;
  }

  lemma ExactlyIff(ps: Points, rs: Points, s: string, cs: seq<Chunk>)
    requires Exactly(rs, s, cs) && Numbered(cs, s) && WellKeyed(ps) && WellKeyed(rs)
    ensures Exactly(ps, s, cs) <==> SameOf(ps, rs, s)
  {
    hide PointKey;
  }

  /** An embedder that knows one text only. */
  function KnowsA(texts: seq<string>): seq<Vector> { if texts == ["a"] then [[1.0]] else [] }

  /** An embedder that gives every text this vector. */
  function Always(v: Vector): Embedder { (texts: seq<string>) => seq(|texts|, _ => v) }

  /** The default chunk size and overlap. */
  const DEFAULTS := Config(800, 100)

  /** One character that is no whitespace is one chunk. */
  lemma OneLetter(c: char)
    requires !IsSpace(c)
    ensures Chunked([c], 800, 100) == [[c]]
  {
    hide Window;
    assert Strip([c]) == [c] && WindowCount(1, 800, 700) == 1;
    FirstOfOne(c);
    assert Chunks([c], 800, 700, 0) == [];
  }

  lemma FirstOfOne(c: char)
    ensures StartOf(0, 700) == 0 && Window([c], 800, 700, 0) == [c]
  {
  }

  lemma LetterIsReady(source: string, v: Vector, embed: Embedder)
    requires embed(["a"]) == [v]
    ensures Prepare(File(source, "a"), DEFAULTS, embed) == Ready([Chunk(source, 0, "a", Some(v))])
  {
    hide Chunked;
    OneLetter('a');
  }

  /** The list ingest of two files where the second raises: the first one is in. */
  lemma RaisingIngestChangesList()
    ensures ListIngestAll([], [File("d", "a"), File("e", "b")], DEFAULTS, KnowsA) == ([Chunk("d", 0, "a", Some([1.0]))], true)
  {
    hide Chunked, Prepare;
    var f, g := File("d", "a"), File("e", "b");
    LetterIsReady("d", [1.0], KnowsA);
    assert Prepare(g, DEFAULTS, KnowsA) == Mismatch by { LetterMismatches("e"); }
    ListStopsAtMismatch([], [f, g], 1, DEFAULTS, KnowsA);
    assert [f, g][..1] == [f] && [f][..0] == [];
    assert ListIngestAll([], [], DEFAULTS, KnowsA) == ([], false);
    var c := Chunk("d", 0, "a", Some([1.0]));
    assert Without([], "d") + [c] == [c];
    assert ListIngestAll([], [f], DEFAULTS, KnowsA) == ([c], false);
  }

  lemma LetterMismatches(source: string)
    ensures Prepare(File(source, "b"), DEFAULTS, KnowsA) == Mismatch
  {
    hide Chunked;
    OneLetter('b');
  }

  /** A document is ingested, and again with an embedder that has come to return empty vectors: the call raises
      and the store has lost the document. */
  lemma RefusedReingestHappens()
    ensures var f := File("d", "a"); var ps := KeyedIngestAll(map[], [f], DEFAULTS, Always([1.0])).0;
      && ps == map[PointKey("d", 0) := Chunk("d", 0, "a", Some([1.0]))]
      && KeyedIngestAll(ps, [f], DEFAULTS, Always([])) == (map[], true)
  {
    hide Chunked, Prepare, Put, PointKey, KeyedIngestAll, KeyedIngest;
    var f, good := File("d", "a"), Chunk("d", 0, "a", Some([1.0]));
    OneFile(map[], f, Always([1.0]));
    OneFile(map[PointKey("d", 0) := good], f, Always([]));
    LetterIngested([1.0], map[]);
    LetterIngested([], map[PointKey("d", 0) := good]);
    PutOne(map[], good);
  }

  lemma OneFile(ps: Points, f: File, embed: Embedder)
    ensures KeyedIngestAll(ps, [f], DEFAULTS, embed) == KeyedIngest(ps, f, DEFAULTS, embed)
  {
    hide KeyedIngest;
    assert [f][..0] == [];
  }

  lemma LetterIngested(v: Vector, ps: Points)
    requires forall k :: k in ps ==> ps[k].source == "d"
    ensures KeyedIngest(ps, File("d", "a"), DEFAULTS, Always(v))
      == if v == [] then (map[], true) else (Put(map[], [Chunk("d", 0, "a", Some(v))]), false)
  {
    hide Prepare, Put, Always;
    AlwaysOnce(v);
    LetterIsReady("d", v, Always(v));
    assert Dropped(ps, "d") == map[];
    assert Width([Chunk("d", 0, "a", Some(v))][0]) == |v|;
  }

  lemma AlwaysOnce(v: Vector)
    ensures Always(v)(["a"]) == [v]
  {
    assert |Always(v)(["a"])| == 1;
  }

  lemma PutOne(ps: Points, c: Chunk)
    ensures Put(ps, [c]) == ps[PointKey(c.source, c.index) := c]
  {
    assert [c][..0] == [];
  }

  // ---------------------------------------------------------------- search

  datatype Hit = Hit(source: string, index: nat, text: string, score: real)

  /** Best score first, then source, then position. */
  predicate RankLe(a: Hit, b: Hit) {
    a.score > b.score ||
    (a.score == b.score && ((a.source != b.source && StrLe(a.source, b.source)) || (a.source == b.source && a.index <= b.index)))
  }

  lemma RankIsTotal()
    ensures Total(RankLe)
  {
    StrOrder();
    forall x, y ensures RankLe(x, y) || RankLe(y, x) { assert StrLe(x.source, y.source) || StrLe(y.source, x.source); }
    forall x, y, z | RankLe(x, y) && RankLe(y, z) ensures RankLe(x, z) {
      RankTransitive(x, y, z);
    }
  }

  lemma RankTransitive(x: Hit, y: Hit, z: Hit)
    requires RankLe(x, y) && RankLe(y, z)
    ensures RankLe(x, z)
  {
    if x.score == y.score == z.score && x.source != y.source && y.source != z.source {
      StrLeTransitive(x.source, y.source, z.source);
      if x.source == z.source { StrLeAntisymmetric(x.source, y.source); }
    }
  }

  /** Which of two hits comes first: the better score, then the source, then the position. */
  lemma RankIs(a: Hit, b: Hit)
    ensures a.score > b.score ==> RankLe(a, b) && !RankLe(b, a)
    ensures a.score == b.score && a.source != b.source && StrLe(a.source, b.source) ==> RankLe(a, b) && !RankLe(b, a)
    ensures a.score == b.score && a.source == b.source && a.index < b.index ==> RankLe(a, b) && !RankLe(b, a)
  {
    if a.source != b.source && StrLe(a.source, b.source) && StrLe(b.source, a.source) { StrLeAntisymmetric(a.source, b.source); }
  }

  type Scoring = (Vector, Vector) -> real

  /** The chunks at or above the threshold, in stored order. */
  function Hits(cs: seq<Chunk>, query: Vector, threshold: real, score: Scoring): (hs: seq<Hit>) {
    if cs == [] then []
    else
      var c := cs[|cs| - 1];
      Hits(cs[..|cs| - 1], query, threshold, score) +
      if c.vector.Some? && score(query, c.vector.value) >= threshold
      then [Hit(c.source, c.index, c.text, score(query, c.vector.value))]
      else []
  }

  function Ranked(cs: seq<Chunk>, query: Vector, threshold: real, score: Scoring): seq<Hit> {
    Sort(Hits(cs, query, threshold, score), RankLe)
  }

  function FirstOf(hs: seq<Hit>, k: nat): (r: seq<Hit>)
    ensures |r| == if k < |hs| then k else |hs|
  {
    if k < |hs| then hs[..k] else hs
  }

  /** `InMemoryVectorStore.search`. */
  method SearchStore(store: InMemoryVectorStore, query: Vector, k: nat, threshold: real, score: Scoring) returns (hits: seq<Hit>)
    ensures hits == FirstOf(Ranked(store.chunks, query, threshold, score), k)
  {
    hits := [];
    for i := 0 to |store.chunks|
      invariant hits == Hits(store.chunks[..i], query, threshold, score)
    {
      assert store.chunks[..i + 1][..i] == store.chunks[..i];
      var c := store.chunks[i];
      if c.vector.Some? {
        var s := score(query, c.vector.value);
        if s >= threshold { hits := hits + [Hit(c.source, c.index, c.text, s)]; }
      }
    }
    assert store.chunks[..|store.chunks|] == store.chunks;
    hits := Sort(hits, RankLe);
    if k < |hits| { hits := hits[..k]; }
  }

  datatype Answer = Unhealthy | Invalid | Found(hits: seq<Hit>)

  /** `RagService.search`: gate, then the caller's inputs, then the store. */
  method Search(store: InMemoryVectorStore, healthy: bool, query: string, topK: Option<int>, scoreThreshold: Option<real>,
    defaultK: int, defaultThreshold: real, embed: string -> Vector, score: Scoring) returns (a: Answer)
    ensures var k := if topK.Some? then topK.value else defaultK;
      var th := if scoreThreshold.Some? then scoreThreshold.value else defaultThreshold;
      && (a.Unhealthy? <==> !healthy)
      && (a.Invalid? <==> healthy && (Strip(query) == "" || k < 1 || th < 0.0 || th > 1.0))
      && (a.Found? ==> k >= 1 && a.hits == FirstOf(Ranked(store.chunks, embed(query), th, score), k))
  {
    if !healthy {
      return Unhealthy;
    }
    var k := if topK.Some? then topK.value else defaultK;
    var threshold := if scoreThreshold.Some? then scoreThreshold.value else defaultThreshold;
    if query == "" || Strip(query) == "" {
      return Invalid;
    }
    if k < 1 {
      return Invalid;
    }
    if !(0.0 <= threshold <= 1.0) {
      return Invalid;
    }
    var hits := SearchStore(store, embed(query), k, threshold, score);
    a := Found(hits);
  }

  /** No two chunks share source and index. */
  ghost predicate UniqueKeys(cs: seq<Chunk>) {
    forall i, j :: 0 <= i < j < |cs| ==> cs[i].source != cs[j].source || cs[i].index != cs[j].index
  }

  lemma {:induction false} WithoutUnique(cs: seq<Chunk>, source: string)
    requires UniqueKeys(cs)
    ensures UniqueKeys(Without(cs, source))
  {
    if cs != [] {
      WithoutUnique(cs[..|cs| - 1], source);
      var r := Without(cs[..|cs| - 1], source);
      forall i | 0 <= i < |r| ensures r[i].source != cs[|cs| - 1].source || r[i].index != cs[|cs| - 1].index {
        assert r[i] in cs[..|cs| - 1];
      }
    }
  }

  /** Source and index identify a chunk in the list store too. */
  lemma {:induction false} ListKeysUnique(files: seq<File>, cfg: Config, embed: Embedder)
    ensures UniqueKeys(ListIngestAll([], files, cfg, embed).0)
  {
    hide Chunked;
    if files != [] {
      ListKeysUnique(files[..|files| - 1], cfg, embed);
      var cs, f := ListIngestAll([], files[..|files| - 1], cfg, embed).0, files[|files| - 1];
      WithoutUnique(cs, f.source);
      PreparedNumbered(f, cfg, embed);
      forall i | 0 <= i < |Without(cs, f.source)| ensures Without(cs, f.source)[i].source != f.source {
        assert Without(cs, f.source)[i] in Without(cs, f.source);
      }
    }
  }

  ghost predicate NoTwins(hs: seq<Hit>) {
    forall i, j :: 0 <= i < j < |hs| ==> hs[i].source != hs[j].source || hs[i].index != hs[j].index
  }

  /** `h` is what the search makes of chunk `c`. */
  ghost predicate HitOf(h: Hit, c: Chunk, query: Vector, threshold: real, score: Scoring) {
    c.vector.Some? && score(query, c.vector.value) >= threshold && h == Hit(c.source, c.index, c.text, score(query, c.vector.value))
  }

  ghost predicate HitAmong(h: Hit, cs: seq<Chunk>, query: Vector, threshold: real, score: Scoring) {
    exists c :: c in cs && HitOf(h, c, query, threshold, score)
  }

  lemma AmongPush(h: Hit, front: seq<Chunk>, last: Chunk, query: Vector, threshold: real, score: Scoring)
    ensures HitAmong(h, front + [last], query, threshold, score)
      <==> HitAmong(h, front, query, threshold, score) || HitOf(h, last, query, threshold, score)
  {
    hide HitOf;
    if HitAmong(h, front, query, threshold, score) {
      var c :| c in front && HitOf(h, c, query, threshold, score);
      assert c in front + [last];
    }
    if HitOf(h, last, query, threshold, score) { assert last in front + [last]; }
  }

  lemma {:induction false} HitsAreChunks(cs: seq<Chunk>, query: Vector, threshold: real, score: Scoring, h: Hit)
    ensures h in Hits(cs, query, threshold, score) <==> HitAmong(h, cs, query, threshold, score)
  {
    hide HitAmong;
    if cs == [] {
      assert !HitAmong(h, [], query, threshold, score) by { NoneAmong(h, query, threshold, score); }
    } else {
      var front, last := cs[..|cs| - 1], cs[|cs| - 1];
      HitsAreChunks(front, query, threshold, score, h);
      AmongPush(h, front, last, query, threshold, score);
      assert cs == front + [last];
    }
  }

  lemma NoneAmong(h: Hit, query: Vector, threshold: real, score: Scoring)
    ensures !HitAmong(h, [], query, threshold, score)
  {
  }

  lemma {:induction false} HitsHaveNoTwins(cs: seq<Chunk>, query: Vector, threshold: real, score: Scoring)
    requires UniqueKeys(cs)
    ensures NoTwins(Hits(cs, query, threshold, score))
  {
    if cs != [] {
      var front, last := cs[..|cs| - 1], cs[|cs| - 1];
      HitsHaveNoTwins(front, query, threshold, score);
      var hs := Hits(front, query, threshold, score);
      forall i | 0 <= i < |hs| ensures hs[i].source != last.source || hs[i].index != last.index {
        HitsAreChunks(front, query, threshold, score, hs[i]);
        var c :| c in front && HitOf(hs[i], c, query, threshold, score);
      }
    }
  }

  lemma TwinsSurviveSorting(d: seq<Hit>, s: seq<Hit>)
    requires multiset(s) == multiset(d) && NoTwins(d)
    ensures NoTwins(s)
  {
    PermutationKeepsDistinct(d, s);
    forall i, j | 0 <= i < j < |s| ensures s[i].source != s[j].source || s[i].index != s[j].index {
      assert s[i] in multiset(d) && s[j] in multiset(d);
      var p :| 0 <= p < |d| && d[p] == s[i];
      var q :| 0 <= q < |d| && d[q] == s[j];
      assert p != q;
    }
  }

  /** `a` ranks strictly before `b`. */
  predicate Before(a: Hit, b: Hit) { RankLe(a, b) && !RankLe(b, a) }

  /** A search returns the first k of a strict order over exactly the chunks at or above the threshold, and
      every such chunk it leaves out ranks after all it returns. */
  lemma SearchIsExact(files: seq<File>, cfg: Config, embed: Embedder, query: Vector, k: nat, threshold: real, score: Scoring)
    ensures var cs := ListIngestAll([], files, cfg, embed).0;
      var all, r := Hits(cs, query, threshold, score), FirstOf(Ranked(cs, query, threshold, score), k);
      && |r| == (if k < |all| then k else |all|)
      && (forall h :: h in r ==> h in all)
      && (forall h :: h in all <==> HitAmong(h, cs, query, threshold, score))
      && (forall i, j :: 0 <= i < j < |r| ==> Before(r[i], r[j]))
      && (forall h, i :: h in all && h !in r && 0 <= i < |r| ==> Before(r[i], h))
  {
    hide ListIngestAll, Hits, HitAmong, RankLe;
    var cs := ListIngestAll([], files, cfg, embed).0;
    ListKeysUnique(files, cfg, embed);
    HitsHaveNoTwins(cs, query, threshold, score);
    forall h { HitsAreChunks(cs, query, threshold, score, h); }
    RankingIsExact(Hits(cs, query, threshold, score), k);
  }

  lemma RankingIsExact(all: seq<Hit>, k: nat)
    requires NoTwins(all)
    ensures var r := FirstOf(Sort(all, RankLe), k);
      && |r| == (if k < |all| then k else |all|)
      && (forall h :: h in r ==> h in all)
      && (forall i, j :: 0 <= i < j < |r| ==> Before(r[i], r[j]))
      && (forall h, i :: h in all && h !in r && 0 <= i < |r| ==> Before(r[i], h))
  {
    hide RankLe;
    var s := Sort(all, RankLe);
    RankIsTotal();
    SortSorts(all, RankLe);
    TwinsSurviveSorting(all, s);
    assert |s| == |multiset(s)| == |multiset(all)| == |all|;
    forall i, j | 0 <= i < j < |s| ensures Before(s[i], s[j]) { StrictRank(s[i], s[j]); }
    var r := FirstOf(s, k);
    forall h | h in r ensures h in all { assert h in multiset(s); }
    forall h, i | h in all && h !in r && 0 <= i < |r| ensures Before(r[i], h) {
      assert h in multiset(s);
      var j :| 0 <= j < |s| && s[j] == h;
      assert j >= |r|;
    }
  }

  lemma StrictRank(a: Hit, b: Hit)
    requires RankLe(a, b) && (a.source != b.source || a.index != b.index)
    ensures Before(a, b)
  {
    if RankLe(b, a) && a.source != b.source { StrLeAntisymmetric(a.source, b.source); }
  }
}
