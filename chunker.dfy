// The code chunker: turns one source file into the chunks that are embedded
// and stored. Units found by the extractor are kept whole, dropped when tiny
// or cut into fixed line windows when large; a file without units is cut
// into 50-line windows instead.
//
// The chunker's two settings (`max_chunk_tokens`, default 1500, and
// `min_chunk_tokens`, default 50) are parameters of the operations here.

module Chunker {
  import opened Common
  import opened Hashing
  import opened CodeParser

  const DefaultMaxTokens: nat := 1500
  const DefaultMinTokens: nat := 50
  const LinesPerChunk: nat := 50

  datatype Settings = Settings(maxTokens: nat, minTokens: nat)

  /** What a chunk's `metadata` records about where it came from. */
  datatype Origin =
    | UnitName(name: string)
    | SplitPiece
    | WindowIndex(index: nat)

  /** The fields every chunk of one file shares. */
  datatype FileContext = FileContext(repoId: string, filePath: string, language: string, fileHash: Digest)

  datatype Chunk = Chunk(
    repoId: string,
    filePath: string,
    language: string,
    startLine: int,
    endLine: int,
    text: string,
    astNodeType: Option<string>,
    fileHash: Digest,
    chunkHash: Digest,
    metadata: Origin)

  /** A chunk belongs to the file of `ctx` and is addressed by the hash of its own text. */
  predicate CarriesContext(c: Chunk, ctx: FileContext) {
    c.repoId == ctx.repoId && c.filePath == ctx.filePath && c.language == ctx.language
    && c.fileHash == ctx.fileHash && c.chunkHash == Sha256Text(c.text)
  }

  predicate AllCarry(cs: seq<Chunk>, ctx: FileContext) {
    forall k :: 0 <= k < |cs| ==> CarriesContext(cs[k], ctx)
  }

  /** `estimate_tokens`: a quarter of the character count, rounded down. */
  function EstimateTokens(text: string): (n: nat)
    ensures 4 * n <= |text| < 4 * n + 4
  {
    |text| / 4
  }

  function Min(a: int, b: int): int {
    if a <= b then a else b
  }

  // -------------------------------------------------------- large units

  function SplitChunk(piece: seq<string>, startLine: int, ctx: FileContext): (c: Chunk)
    ensures CarriesContext(c, ctx) && c.text == Join(piece, "\n")
    ensures c.startLine == startLine && c.endLine == startLine + |piece|
  {
    var text := Join(piece, "\n");
    Chunk(ctx.repoId, ctx.filePath, ctx.language, startLine, startLine + |piece|, text,
          None, ctx.fileHash, Sha256Text(text), SplitPiece)
  }

  /** Consecutive pieces of at most `step` lines each, each ending where the next starts. */
  predicate Tiled(cs: seq<Chunk>, step: nat) {
    && (forall k :: 0 <= k < |cs| ==> cs[k].startLine < cs[k].endLine <= cs[k].startLine + step)
    && (forall k :: 0 <= k < |cs| - 1 ==> cs[k].endLine == cs[k + 1].startLine)
  }

  /** The pieces of `lines` from offset `i` on, `step` lines at a time. */
  function SplitFrom(lines: seq<string>, step: nat, i: nat, startLine: int, ctx: FileContext): seq<Chunk>
    requires step > 0
    decreases |lines| - i
  {
    if i >= |lines| then []
    else [SplitChunk(lines[i..Min(i + step, |lines|)], startLine + i, ctx)] + SplitFrom(lines, step, i + step, startLine, ctx)
  }

  lemma {:induction false} SplitFromCarries(lines: seq<string>, step: nat, i: nat, startLine: int, ctx: FileContext)
    requires step > 0
    ensures AllCarry(SplitFrom(lines, step, i, startLine, ctx), ctx)
    decreases |lines| - i
  {
    if i < |lines| {
      SplitFromCarries(lines, step, i + step, startLine, ctx);
      var cs := SplitFrom(lines, step, i, startLine, ctx);
      assert forall k :: 1 <= k < |cs| ==> cs[k] == SplitFrom(lines, step, i + step, startLine, ctx)[k - 1];
    }
  }

  /** The pieces from offset `i` tile lines `i` to the end. */
  lemma {:induction false} SplitFromTiles(lines: seq<string>, step: nat, i: nat, startLine: int, ctx: FileContext)
    requires step > 0 && i < |lines|
    ensures var cs := SplitFrom(lines, step, i, startLine, ctx);
      && |cs| > 0 && cs[0].startLine == startLine + i
      && cs[|cs| - 1].endLine == startLine + |lines|
      && Tiled(cs, step)
    decreases |lines| - i
  {
    var c := SplitChunk(lines[i..Min(i + step, |lines|)], startLine + i, ctx);
    var rest := SplitFrom(lines, step, i + step, startLine, ctx);
    assert SplitFrom(lines, step, i, startLine, ctx) == [c] + rest;
    if i + step < |lines| {
      SplitFromTiles(lines, step, i + step, startLine, ctx);
    }
    TiledCons(c, rest, step);
  }

  /** A piece that ends where a tiling starts extends it. */
  lemma TiledCons(c: Chunk, rest: seq<Chunk>, step: nat)
    requires c.startLine < c.endLine <= c.startLine + step
    requires Tiled(rest, step) && (|rest| > 0 ==> c.endLine == rest[0].startLine)
    ensures var cs := [c] + rest;
      && Tiled(cs, step) && cs[0] == c
      && cs[|cs| - 1] == if rest == [] then c else rest[|rest| - 1]
  {
    var cs := [c] + rest;
    forall k | 1 <= k < |cs|
      ensures cs[k] == rest[k - 1]
    {
    }
  }

  /** `_split_large_chunk`: pieces of `max_tokens // 4` lines; a zero step is
      the `ValueError` that `range` raises. */
  function SplitLarge(text: string, startLine: int, maxTokens: nat, ctx: FileContext): (r: Result<seq<Chunk>>)
    ensures r.Err? <==> maxTokens < 4
    ensures r.Ok? ==> AllCarry(r.value, ctx)
  {
    var step := maxTokens / 4;
    if step == 0 then Err(ValueError("range() arg 3 must not be zero"))
    else
      SplitFromCarries(Split(text, "\n"), step, 0, startLine, ctx);
      Ok(SplitFrom(Split(text, "\n"), step, 0, startLine, ctx))
  }

  function Texts(cs: seq<Chunk>): seq<string>
  {
    if cs == [] then [] else [cs[0].text] + Texts(cs[1..])
  }

  /** The line groups that `SplitFrom` turns into chunks. */
  function Pieces(lines: seq<string>, step: nat, i: nat): seq<seq<string>>
    requires step > 0
    decreases |lines| - i
  {
    if i >= |lines| then [] else [lines[i..Min(i + step, |lines|)]] + Pieces(lines, step, i + step)
  }

  lemma {:induction false} SplitTexts(lines: seq<string>, step: nat, i: nat, startLine: int, ctx: FileContext)
    requires step > 0
    ensures Texts(SplitFrom(lines, step, i, startLine, ctx)) == JoinEach(Pieces(lines, step, i), "\n")
    decreases |lines| - i
  {
    if i < |lines| {
      SplitTexts(lines, step, i + step, startLine, ctx);
      var cs := SplitFrom(lines, step, i, startLine, ctx);
      assert cs[1..] == SplitFrom(lines, step, i + step, startLine, ctx);
      var ps := Pieces(lines, step, i);
      assert ps[1..] == Pieces(lines, step, i + step);
    }
  }

  lemma {:induction false} PiecesJoin(lines: seq<string>, step: nat, i: nat)
    requires step > 0 && i < |lines|
    ensures Join(JoinEach(Pieces(lines, step, i), "\n"), "\n") == Join(lines[i..], "\n")
    decreases |lines| - i
  {
    var ps := Pieces(lines, step, i);
    var head := lines[i..Min(i + step, |lines|)];
    assert ps[0] == head;
    if i + step >= |lines| {
      assert Pieces(lines, step, i + step) == [];
      assert ps == [head];
      assert JoinEach(ps, "\n") == [Join(head, "\n")];
      assert head == lines[i..];
    } else {
      var rest := Pieces(lines, step, i + step);
      PiecesJoin(lines, step, i + step);
      assert ps[1..] == rest;
      assert JoinEach(ps, "\n") == [Join(head, "\n")] + JoinEach(rest, "\n");
      JoinCons(Join(head, "\n"), JoinEach(rest, "\n"), "\n");
      JoinAppend(head, lines[i + step..], "\n");
      assert head + lines[i + step..] == lines[i..];
    }
  }

  /** Joining the pieces of a split unit with newlines gives back its text. */
  lemma SplitLargeJoins(text: string, startLine: int, maxTokens: nat, ctx: FileContext)
    requires maxTokens >= 4
    ensures Join(Texts(SplitLarge(text, startLine, maxTokens, ctx).value), "\n") == text
  {
    var lines := Split(text, "\n");
    SplitTexts(lines, maxTokens / 4, 0, startLine, ctx);
    PiecesJoin(lines, maxTokens / 4, 0);
    assert lines[0..] == lines;
    JoinSplit(text, "\n");
  }

  /** The pieces of a split unit tile its lines: the first starts at the
      unit's line, each ends where the next starts, the last ends after the
      unit's last line, and none is longer than `max_tokens // 4` lines. */
  lemma SplitLargeTiles(text: string, startLine: int, maxTokens: nat, ctx: FileContext)
    requires maxTokens >= 4
    ensures var cs := SplitLarge(text, startLine, maxTokens, ctx).value;
      && |cs| > 0 && cs[0].startLine == startLine
      && cs[|cs| - 1].endLine == startLine + |Split(text, "\n")|
      && Tiled(cs, maxTokens / 4)
  {
    SplitFromTiles(Split(text, "\n"), maxTokens / 4, 0, startLine, ctx);
  }

  /** The loop of `_split_large_chunk`. */
  method SplitLargeChunk(text: string, startLine: int, maxTokens: nat, ctx: FileContext)
    returns (r: Result<seq<Chunk>>)
    ensures r == SplitLarge(text, startLine, maxTokens, ctx)
  {
    var lines := Split(text, "\n");
    var step := maxTokens / 4;
    if step == 0 {
      return Err(ValueError("range() arg 3 must not be zero"));
    }
    var sub: seq<Chunk> := [];
    var i := 0;
    while i < |lines|
      invariant sub + SplitFrom(lines, step, i, startLine, ctx) == SplitFrom(lines, step, 0, startLine, ctx)
      decreases |lines| - i
    {
      var piece := lines[i..Min(i + step, |lines|)];
      var c := SplitChunk(piece, startLine + i, ctx);
      assert SplitFrom(lines, step, i, startLine, ctx) == [c] + SplitFrom(lines, step, i + step, startLine, ctx);
      AppendAssoc(sub, [c], SplitFrom(lines, step, i + step, startLine, ctx));
      sub := sub + [c];
      i := i + step;
    }
    assert SplitFrom(lines, step, i, startLine, ctx) == [];
    r := Ok(sub);
    assert sub == SplitFrom(lines, step, 0, startLine, ctx);
    assert SplitLarge(text, startLine, maxTokens, ctx) == Ok(SplitFrom(lines, step, 0, startLine, ctx));
  }

  // -------------------------------------------------------- line windows

  /** A window kept by `_chunk_by_lines`: 1-based first and last line and its text. */
  datatype Window = Window(startLine: nat, endLine: nat, text: string)

  /** `w` is the window of `lines` it claims to be: a 1-based range of at
      most 50 lines and the text of exactly those lines. */
  predicate WindowOf(lines: seq<string>, w: Window) {
    1 <= w.startLine <= w.endLine <= |lines|
    && w.endLine - w.startLine < LinesPerChunk
    && w.text == Join(lines[w.startLine - 1..w.endLine], "\n")
  }

  /** Windows in increasing, non-overlapping line order. */
  predicate Increasing(ws: seq<Window>) {
    forall a, b :: 0 <= a < b < |ws| ==> ws[a].endLine < ws[b].startLine
  }

  /** The windows from 0-based offset `i` on that hold at least `minTokens` tokens. */
  function WindowsFrom(lines: seq<string>, i: nat, minTokens: nat): seq<Window>
    decreases |lines| - i
  {
    if i >= |lines| then []
    else
      var w := WindowAt(lines, i);
      var rest := WindowsFrom(lines, i + LinesPerChunk, minTokens);
      if EstimateTokens(w.text) >= minTokens then [w] + rest else rest
  }

  /** The 50-line window at 0-based offset `i`, cut short by the end of the
      file. */
  function WindowAt(lines: seq<string>, i: nat): (w: Window)
    requires i < |lines|
    ensures WindowOf(lines, w) && w.startLine == i + 1 && w.endLine == Min(i + LinesPerChunk, |lines|)
  {
    var chunkLines := lines[i..Min(i + LinesPerChunk, |lines|)];
    Window(i + 1, i + |chunkLines|, Join(chunkLines, "\n"))
  }

  /** A window of the file that starts a whole number of 50-line steps after
      offset `i` and holds at least `minTokens` tokens. */
  predicate Placed(lines: seq<string>, i: nat, minTokens: nat, w: Window) {
    WindowOf(lines, w) && i < w.startLine && (w.startLine - 1 - i) % LinesPerChunk == 0
    && EstimateTokens(w.text) >= minTokens
  }

  /** A window placed after the next offset is placed after this one. */
  lemma PlacedEarlier(lines: seq<string>, i: nat, minTokens: nat, w: Window)
    requires Placed(lines, i + LinesPerChunk, minTokens, w)
    ensures Placed(lines, i, minTokens, w)
  {
    var x := w.startLine - 1 - (i + LinesPerChunk);
    assert w.startLine - 1 - i == x + LinesPerChunk;
  }

  /** Every kept window is a window of the file with enough tokens, at a
      50-line step from `i`, and the windows come in file order. */
  lemma {:induction false} WindowsFromSound(lines: seq<string>, i: nat, minTokens: nat)
    ensures forall k :: 0 <= k < |WindowsFrom(lines, i, minTokens)| ==>
      Placed(lines, i, minTokens, WindowsFrom(lines, i, minTokens)[k])
    ensures Increasing(WindowsFrom(lines, i, minTokens))
    decreases |lines| - i
  {
    if i < |lines| {
      var w := WindowAt(lines, i);
      var rest := WindowsFrom(lines, i + LinesPerChunk, minTokens);
      WindowsFromSound(lines, i + LinesPerChunk, minTokens);
      forall k | 0 <= k < |rest|
        ensures Placed(lines, i, minTokens, rest[k]) && i + LinesPerChunk < rest[k].startLine
      {
        PlacedEarlier(lines, i, minTokens, rest[k]);
      }
      if EstimateTokens(w.text) >= minTokens {
        var ws := [w] + rest;
        assert WindowsFrom(lines, i, minTokens) == ws;
        assert forall k :: 1 <= k < |ws| ==> ws[k] == rest[k - 1];
      }
    }
  }

  /** `_chunk_by_lines` with its default of 50 lines per window. */
  function ChunkByLines(content: string, minTokens: nat): seq<Window>
  {
    WindowsFrom(Split(content, "\n"), 0, minTokens)
  }

  /** A window is dropped only for being under `minTokens`: every 50-line
      window with enough tokens is among the kept ones. */
  lemma {:induction false} WindowKept(lines: seq<string>, i: nat, j: nat, minTokens: nat) returns (k: nat)
    requires i <= j < |lines| && (j - i) % LinesPerChunk == 0
    requires EstimateTokens(Join(lines[j..Min(j + LinesPerChunk, |lines|)], "\n")) >= minTokens
    ensures k < |WindowsFrom(lines, i, minTokens)|
    ensures WindowsFrom(lines, i, minTokens)[k].startLine == j + 1
    decreases |lines| - i
  {
    var ws := WindowsFrom(lines, i, minTokens);
    var chunkLines := lines[i..Min(i + LinesPerChunk, |lines|)];
    var kept := EstimateTokens(Join(chunkLines, "\n")) >= minTokens;
    if j == i {
      k := 0;
    } else {
      var m := WindowKept(lines, i + LinesPerChunk, j, minTokens);
      k := if kept then m + 1 else m;
    }
  }

  /** The loop of `_chunk_by_lines`. */
  method ChunkLines(content: string, minTokens: nat) returns (ws: seq<Window>)
    ensures ws == ChunkByLines(content, minTokens)
  {
    var lines := Split(content, "\n");
    ws := [];
    var i := 0;
    while i < |lines|
      invariant ws + WindowsFrom(lines, i, minTokens) == WindowsFrom(lines, 0, minTokens)
      decreases |lines| - i
    {
      var w := WindowAt(lines, i);
      ghost var rest := WindowsFrom(lines, i + LinesPerChunk, minTokens);
      if EstimateTokens(w.text) >= minTokens {
        assert WindowsFrom(lines, i, minTokens) == [w] + rest;
        assert ws + [w] + rest == ws + ([w] + rest);
        ws := ws + [w];
      }
      i := i + LinesPerChunk;
    }
  }

  function WindowChunk(w: Window, index: nat, ctx: FileContext): (c: Chunk)
    ensures CarriesContext(c, ctx)
    ensures c.startLine == w.startLine && c.endLine == w.endLine && c.text == w.text
  {
    Chunk(ctx.repoId, ctx.filePath, ctx.language, w.startLine, w.endLine, w.text,
          None, ctx.fileHash, Sha256Text(w.text), WindowIndex(index))
  }

  /** The window chunks, numbered in order from 0. */
  function WindowChunks(ws: seq<Window>, ctx: FileContext): (cs: seq<Chunk>)
    ensures |cs| == |ws| && AllCarry(cs, ctx)
    ensures forall k :: 0 <= k < |ws| ==> cs[k] == WindowChunk(ws[k], k, ctx)
  {
    seq(|ws|, k requires 0 <= k < |ws| => WindowChunk(ws[k], k, ctx))
  }

  // -------------------------------------------------------- chunk_file

  function UnitChunk(u: Unit, ctx: FileContext): (c: Chunk)
    ensures CarriesContext(c, ctx)
    ensures c.startLine == u.startLine && c.endLine == u.endLine && c.text == u.text
  {
    Chunk(ctx.repoId, ctx.filePath, ctx.language, u.startLine, u.endLine, u.text,
          Some(u.kind), ctx.fileHash, Sha256Text(u.text), UnitName(u.name))
  }

  /** The chunks made from units before a split raised, and whether one did. */
  datatype Partial = Partial(chunks: seq<Chunk>, failed: bool)

  /** One unit of `chunk_file`: skipped when tiny, split when large, kept
      whole otherwise. */
  function UnitStep(u: Unit, s: Settings, ctx: FileContext): (r: Result<seq<Chunk>>)
    ensures r.Ok? ==> AllCarry(r.value, ctx)
    ensures r.Err? <==> s.minTokens <= EstimateTokens(u.text) && s.maxTokens < EstimateTokens(u.text) && s.maxTokens < 4
  {
    var tokens := EstimateTokens(u.text);
    if tokens < s.minTokens then Ok([])
    else if tokens > s.maxTokens then SplitLarge(u.text, u.startLine, s.maxTokens, ctx)
    else Ok([UnitChunk(u, ctx)])
  }

  /** The unit loop of `chunk_file`; a failing split ends the loop. */
  function FromUnits(units: seq<Unit>, s: Settings, ctx: FileContext): (p: Partial)
    ensures AllCarry(p.chunks, ctx)
  {
    if units == [] then Partial([], false)
    else
      match UnitStep(units[0], s, ctx)
      case Err(_) => Partial([], true)
      case Ok(cs) =>
        var rest := FromUnits(units[1..], s, ctx);
        Partial(cs + rest.chunks, rest.failed)
  }

  function Context(path: string, content: string, repoId: string, language: string): FileContext {
    FileContext(repoId, path, language, Sha256Text(content))
  }

  /** `chunk_file`: no chunks for an unmapped extension; the unit chunks
      when the extractor found units (followed by the window chunks if a
      split raised); the window chunks when it found none. */
  function ChunkFile(path: string, content: string, repoId: string, s: Settings): (cs: seq<Chunk>)
    ensures LanguageFromExtension(path).None? ==> cs == []
    ensures LanguageFromExtension(path).Some? ==>
      AllCarry(cs, Context(path, content, repoId, LanguageFromExtension(path).value))
  {
    match LanguageFromExtension(path)
    case None => []
    case Some(language) => ChunkIn(language, path, content, repoId, s)
  }

  function ChunkIn(language: string, path: string, content: string, repoId: string, s: Settings): (cs: seq<Chunk>)
    ensures AllCarry(cs, Context(path, content, repoId, language))
  {
    var ctx := Context(path, content, repoId, language);
    var units := Units(content, language);
    var fallback := WindowChunks(ChunkByLines(content, s.minTokens), ctx);
    if units == [] then fallback
    else
      var p := FromUnits(units, s, ctx);
      if p.failed then p.chunks + fallback else p.chunks
  }

  /** Units that are all below the minimum give no chunks at all: the
      window fallback does not run when units were found. */
  lemma {:induction false} AllTinyNoChunks(units: seq<Unit>, s: Settings, ctx: FileContext)
    requires forall k :: 0 <= k < |units| ==> EstimateTokens(units[k].text) < s.minTokens
    ensures FromUnits(units, s, ctx) == Partial([], false)
  {
    if units != [] {
      AllTinyNoChunks(units[1..], s, ctx);
    }
  }

  /** Units that all fit between the bounds are kept whole, one chunk each,
      with their own line range and text. */
  lemma {:induction false} FittingUnitsKept(units: seq<Unit>, s: Settings, ctx: FileContext)
    requires forall k :: 0 <= k < |units| ==>
      s.minTokens <= EstimateTokens(units[k].text) <= s.maxTokens
    ensures !FromUnits(units, s, ctx).failed
    ensures |FromUnits(units, s, ctx).chunks| == |units|
    ensures forall k :: 0 <= k < |units| ==> FromUnits(units, s, ctx).chunks[k] == UnitChunk(units[k], ctx)
  {
    if units != [] {
      FittingUnitsKept(units[1..], s, ctx);
    }
  }

  /** A split fails only when the settings allow fewer than 4 tokens. */
  lemma {:induction false} NoFailureWithRoom(units: seq<Unit>, s: Settings, ctx: FileContext)
    requires s.maxTokens >= 4
    ensures !FromUnits(units, s, ctx).failed
  {
    if units != [] {
      NoFailureWithRoom(units[1..], s, ctx);
    }
  }

  /** With room to split, a file whose extractor found units is chunked
      from those units alone. */
  lemma UnitsOnly(language: string, path: string, content: string, repoId: string, s: Settings)
    requires s.maxTokens >= 4 && Units(content, language) != []
    ensures ChunkIn(language, path, content, repoId, s)
      == FromUnits(Units(content, language), s, Context(path, content, repoId, language)).chunks
  {
    NoFailureWithRoom(Units(content, language), s, Context(path, content, repoId, language));
  }

  /** Equal texts give equal chunk hashes, across files and chunks. */
  lemma SameTextSameHash(c: Chunk, d: Chunk, ctx: FileContext, ctx2: FileContext)
    requires CarriesContext(c, ctx) && CarriesContext(d, ctx2)
    ensures c.text == d.text <==> c.chunkHash == d.chunkHash
  {
    if c.chunkHash == d.chunkHash {
      Utf8Injective(c.text, d.text);
    }
  }

  /** One pass of the unit loop body. */
  method ChunkUnit(u: Unit, s: Settings, ctx: FileContext) returns (r: Result<seq<Chunk>>)
    ensures r == UnitStep(u, s, ctx)
  {
    var tokens := EstimateTokens(u.text);
    if tokens < s.minTokens {
      return Ok([]);
    }
    if tokens > s.maxTokens {
      r := SplitLargeChunk(u.text, u.startLine, s.maxTokens, ctx);
    } else {
      r := Ok([UnitChunk(u, ctx)]);
    }
  }

  /** The unit loop of `chunk_file`, ending at the first split that raises. */
  method ChunkUnits(units: seq<Unit>, s: Settings, ctx: FileContext) returns (p: Partial)
    ensures p == FromUnits(units, s, ctx)
  {
    var chunks: seq<Chunk> := [];
    var i := 0;
    while i < |units|
      invariant 0 <= i <= |units|
      invariant FromUnits(units, s, ctx)
        == Partial(chunks + FromUnits(units[i..], s, ctx).chunks, FromUnits(units[i..], s, ctx).failed)
    {
      assert units[i..][1..] == units[i + 1..];
      var r := ChunkUnit(units[i], s, ctx);
      if r.Err? {
        return Partial(chunks, true);
      }
      chunks := chunks + r.value;
      i := i + 1;
    }
    p := Partial(chunks, false);
  }

  /** `chunk_file` as the source runs it. */
  method ChunkFileMethod(path: string, content: string, repoId: string, s: Settings) returns (cs: seq<Chunk>)
    ensures cs == ChunkFile(path, content, repoId, s)
  {
    var language := LanguageFromExtension(path);
    if language.None? {
      return [];
    }
    var ctx := Context(path, content, repoId, language.value);
    var units := ExtractFunctionsFallback(content, language.value);
    cs := [];
    if units != [] {
      var p := ChunkUnits(units, s, ctx);
      if !p.failed {
        return p.chunks;
      }
      cs := p.chunks;
    }
    var windows := ChunkLines(content, s.minTokens);
    cs := cs + WindowChunks(windows, ctx);
  }
}
