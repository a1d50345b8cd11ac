// Structuring of regulation text extracted from a PDF: numbered headings
// open sections, and each section is packed into chunks of whole
// paragraphs. Reading the PDF itself is outside the model; the extracted
// text is the input.

module PdfProcessor {
  import opened Common

  // ------------------------------------------------------------ headings

  /** A section heading: its number (`1`, `2.1`, `3.1.4`) and its title. */
  datatype Heading = Heading(number: string, title: string)

  /** The length of the run of ASCII digits at the start of `s`. */
  function DigitRun(s: string): (n: nat)
    ensures n <= |s|
    ensures forall i :: 0 <= i < n ==> IsDigit(s[i])
    ensures n < |s| ==> !IsDigit(s[n])
  {
    if s == [] || !IsDigit(s[0]) then 0 else 1 + DigitRun(s[1..])
  }

  /** Past an optional `.` at position `p`. */
  function SkipDot(s: string, p: nat): (q: nat)
    requires p <= |s|
    ensures p <= q <= |s|
  {
    if p < |s| && s[p] == '.' then p + 1 else p
  }

  /** The length of the greedy match of `\d+\.?\d*\.?\d*`, none without a
      leading digit. Backtracking cannot give another match of the whole
      heading pattern, because every shorter number ends before a digit or
      a dot, where `\s+` cannot start. */
  function NumberEnd(line: string): (r: Option<nat>)
    ensures r.Some? ==> 0 < r.value <= |line|
    ensures r.Some? <==> |line| > 0 && IsDigit(line[0])
  {
    var a := DigitRun(line);
    if a == 0 then None
    else
      var p := SkipDot(line, a);
      var b := p + DigitRun(line[p..]);
      var q := SkipDot(line, b);
      Some(q + DigitRun(line[q..]))
  }

  /** `re.match(r'^(\d+\.?\d*\.?\d*)\s+([A-Z][^\n]+)', line)` on a line
      without newlines: a number, whitespace, then a capitalised title of at
      least two characters running to the end of the line. */
  function HeadingOf(line: string): (h: Option<Heading>)
    ensures h.Some? ==> |h.value.number| > 0 && |h.value.title| >= 2 && IsUpper(h.value.title[0])
    ensures h.Some? ==> EndsWith(line, h.value.title) && StartsWith(line, h.value.number)
  {
    match NumberEnd(line)
    case None => None
    case Some(c) =>
      if c < |line| && IsSpace(line[c]) then
        var m := c + LeadingSpace(line[c..]);
        if m + 2 <= |line| && IsUpper(line[m]) then Some(Heading(line[..c], line[m..])) else None
      else None
  }

  // ------------------------------------------------------------ sections

  datatype Section = Section(number: string, title: string, content: string)

  /** The state of the line loop of `structure_sections`: the sections saved
      so far, the open heading and the lines collected under it. */
  datatype Scan = Scan(sections: seq<Section>, current: Option<Heading>, text: seq<string>)

  /** The section the open heading makes of its collected lines, if one is open. */
  function Close(st: Scan): (r: seq<Section>)
    ensures |r| == (if st.current.Some? then 1 else 0)
  {
    match st.current
    case None => []
    case Some(h) => [Section(h.number, h.title, Strip(Join(st.text, "\n")))]
  }

  /** One line: blank lines are skipped, a heading saves the open section
      and opens a new one, any other line is collected. */
  function Step(st: Scan, raw: string): Scan
  {
    var line := Strip(raw);
    if line == [] then st
    else match HeadingOf(line)
      case Some(h) => Scan(st.sections + Close(st), Some(h), [])
      case None => Scan(st.sections, st.current, st.text + [line])
  }

  function ScanAll(lines: seq<string>): Scan
  {
    if lines == [] then Scan([], None, []) else Step(ScanAll(lines[..|lines| - 1]), lines[|lines| - 1])
  }

  /** `structure_sections` */
  function StructureSections(text: string): seq<Section>
  {
    var st := ScanAll(Split(text, "\n"));
    st.sections + Close(st)
  }

  /** The headings among the lines, in order. */
  function Headings(lines: seq<string>): seq<Heading>
  {
    if lines == [] then []
    else
      var line := Strip(lines[|lines| - 1]);
      Headings(lines[..|lines| - 1]) + (if line != [] && HeadingOf(line).Some? then [HeadingOf(line).value] else [])
  }

  /** The non-blank lines, stripped, of a block without headings. */
  function BodyLines(lines: seq<string>): seq<string>
  {
    if lines == [] then []
    else
      var line := Strip(lines[|lines| - 1]);
      BodyLines(lines[..|lines| - 1]) + (if line != [] then [line] else [])
  }

  function HeadingsOf(sections: seq<Section>): (hs: seq<Heading>)
    ensures |hs| == |sections|
    ensures forall k :: 0 <= k < |hs| ==> hs[k] == Heading(sections[k].number, sections[k].title)
  {
    seq(|sections|, k requires 0 <= k < |sections| => Heading(sections[k].number, sections[k].title))
  }

  function OpenHeading(st: Scan): seq<Heading> {
    if st.current.Some? then [st.current.value] else []
  }

  /** The saved sections and the open one are the headings seen so far, in order. */
  lemma {:induction false} ScanHeadings(lines: seq<string>)
    ensures HeadingsOf(ScanAll(lines).sections) + OpenHeading(ScanAll(lines)) == Headings(lines)
  {
    if lines != [] {
      var init := lines[..|lines| - 1];
      var raw := lines[|lines| - 1];
      ScanHeadings(init);
      var st := ScanAll(init);
      var line := Strip(raw);
      assert ScanAll(lines) == Step(st, raw);
      if line != [] && HeadingOf(line).Some? {
        var h := HeadingOf(line).value;
        assert Headings(lines) == Headings(init) + [h];
        assert ScanAll(lines) == Scan(st.sections + Close(st), Some(h), []);
        HeadingsOfAppend(st.sections, Close(st));
        HeadingsOfClose(st);
      } else {
        assert Headings(lines) == Headings(init) + [];
        assert ScanAll(lines).sections == st.sections && ScanAll(lines).current == st.current;
      }
    }
  }

  lemma HeadingsOfAppend(a: seq<Section>, b: seq<Section>)
    ensures HeadingsOf(a + b) == HeadingsOf(a) + HeadingsOf(b)
  {
  }

  lemma HeadingsOfClose(st: Scan)
    ensures HeadingsOf(Close(st)) == OpenHeading(st)
  {
  }

  /** One section per heading line, in the order of the headings: lines
      before the first heading never form a section. */
  lemma SectionsAreHeadings(text: string)
    ensures HeadingsOf(StructureSections(text)) == Headings(Split(text, "\n"))
  {
    var lines := Split(text, "\n");
    var st := ScanAll(lines);
    ScanHeadings(lines);
    HeadingsOfAppend(st.sections, Close(st));
    HeadingsOfClose(st);
  }

  /** Text without a heading line gives no sections. */
  lemma NoHeadingNoSections(text: string)
    requires Headings(Split(text, "\n")) == []
    ensures StructureSections(text) == []
  {
    SectionsAreHeadings(text);
  }

  /** A line that is not a heading is collected when non-blank. */
  lemma StepBody(st: Scan, raw: string)
    requires Strip(raw) == [] || HeadingOf(Strip(raw)).None?
    ensures Step(st, raw) == Scan(st.sections, st.current, st.text + (if Strip(raw) != [] then [Strip(raw)] else []))
  {
  }

  lemma ScanAllSnoc(lines: seq<string>, raw: string)
    ensures ScanAll(lines + [raw]) == Step(ScanAll(lines), raw)
  {
    assert (lines + [raw])[..|lines|] == lines;
  }

  lemma BodyLinesSnoc(lines: seq<string>, raw: string)
    ensures BodyLines(lines + [raw]) == BodyLines(lines) + (if Strip(raw) != [] then [Strip(raw)] else [])
  {
    assert (lines + [raw])[..|lines|] == lines;
  }

  /** After a block without headings, the open section has collected the
      block's non-blank lines and nothing else has changed. */
  lemma {:induction false} ScanBody(pre: seq<string>, body: seq<string>)
    requires forall k :: 0 <= k < |body| ==> Strip(body[k]) == [] || HeadingOf(Strip(body[k])).None?
    ensures var st := ScanAll(pre);
      ScanAll(pre + body) == Scan(st.sections, st.current, st.text + BodyLines(body))
  {
    if body == [] {
      assert pre + body == pre;
    } else {
      var init := body[..|body| - 1];
      var raw := body[|body| - 1];
      assert body == init + [raw];
      assert forall k :: 0 <= k < |init| ==> init[k] == body[k];
      ScanBody(pre, init);
      ScanBodyStep(pre, init, raw);
    }
  }

  /** One more line without a heading is collected by the open section. */
  lemma ScanBodyStep(pre: seq<string>, init: seq<string>, raw: string)
    requires Strip(raw) == [] || HeadingOf(Strip(raw)).None?
    requires var st := ScanAll(pre);
      ScanAll(pre + init) == Scan(st.sections, st.current, st.text + BodyLines(init))
    ensures var st := ScanAll(pre);
      ScanAll(pre + (init + [raw])) == Scan(st.sections, st.current, st.text + BodyLines(init + [raw]))
  {
    var st := ScanAll(pre);
    var mid := ScanAll(pre + init);
    var extra := if Strip(raw) != [] then [Strip(raw)] else [];
    calc {
      ScanAll(pre + (init + [raw]));
      { AppendAssoc(pre, init, [raw]); }
      ScanAll((pre + init) + [raw]);
      { ScanSnocBody(pre + init, raw); }
      Scan(mid.sections, mid.current, mid.text + extra);
      Scan(st.sections, st.current, (st.text + BodyLines(init)) + extra);
      { AppendAssoc(st.text, BodyLines(init), extra); BodyLinesSnoc(init, raw); }
      Scan(st.sections, st.current, st.text + BodyLines(init + [raw]));
    }
  }

  /** A line without a heading is collected at the end of any scan. */
  lemma ScanSnocBody(lines: seq<string>, raw: string)
    requires Strip(raw) == [] || HeadingOf(Strip(raw)).None?
    ensures var st := ScanAll(lines);
      ScanAll(lines + [raw]) == Scan(st.sections, st.current, st.text + (if Strip(raw) != [] then [Strip(raw)] else []))
  {
    ScanAllSnoc(lines, raw);
    StepBody(ScanAll(lines), raw);
  }


  /** A heading line followed by a block without headings becomes the last
      section, whose content is the block's non-blank lines joined by
      newlines; the sections before it are those of the text before it. */
  lemma LastSection(pre: seq<string>, heading: string, body: seq<string>)
    requires Strip(heading) != [] && HeadingOf(Strip(heading)).Some?
    requires forall k :: 0 <= k < |body| ==> Strip(body[k]) == [] || HeadingOf(Strip(body[k])).None?
    ensures var st := ScanAll(pre + [heading] + body);
      var h := HeadingOf(Strip(heading)).value;
      st.sections + Close(st)
        == ScanAll(pre).sections + Close(ScanAll(pre)) + [Section(h.number, h.title, Strip(Join(BodyLines(body), "\n")))]
  {
    ScanBody(pre + [heading], body);
    ScanAllSnoc(pre, heading);
    var h := HeadingOf(Strip(heading)).value;
    var st0 := ScanAll(pre);
    assert ScanAll(pre + [heading]) == Scan(st0.sections + Close(st0), Some(h), []);
    assert [] + BodyLines(body) == BodyLines(body);
  }

  /** A stripped piece of a newline-free line is newline-free. */
  lemma StripNoNewline(s: string)
    requires !Contains(s, "\n")
    ensures !Contains(Strip(s), "\n")
  {
    var t := Strip(s);
    var lo := LeadingSpace(s);
    var u := s[lo..];
    assert t == s[lo..][..|u| - TrailingSpace(u)];
    assert t == s[lo..lo + |t|];
    SliceKeepsAbsent(s, "\n", lo, lo + |t|);
  }

  /** Every collected line is non-empty and newline-free. */
  lemma {:induction false} ScanLinesClean(lines: seq<string>)
    requires forall k :: 0 <= k < |lines| ==> !Contains(lines[k], "\n")
    ensures forall p :: p in ScanAll(lines).text ==> |p| > 0 && !Contains(p, "\n")
  {
    if lines != [] {
      ScanLinesClean(lines[..|lines| - 1]);
      StripNoNewline(lines[|lines| - 1]);
    }
  }

  /** Section content never holds a blank line, so it is one paragraph. */
  lemma {:induction false} ContentOneParagraph(text: string)
    ensures forall sec :: sec in StructureSections(text) ==> !Contains(sec.content, "\n\n")
  {
    var lines := Split(text, "\n");
    SplitPiecesFree(text, "\n");
    ScanLinesClean(lines);
    CloseOneParagraph(ScanAll(lines));
    SavedOneParagraph(lines);
  }

  lemma StripSliceFree(s: string)
    requires !Contains(s, "\n\n")
    ensures !Contains(Strip(s), "\n\n")
  {
    var lo := LeadingSpace(s);
    var u := s[lo..];
    var t := Strip(s);
    assert t == s[lo..lo + |t|];
    SliceKeepsAbsent(s, "\n\n", lo, lo + |t|);
  }

  /** Every saved section's content holds no blank line. */
  lemma {:induction false} SavedOneParagraph(lines: seq<string>)
    requires forall k :: 0 <= k < |lines| ==> !Contains(lines[k], "\n")
    ensures forall sec :: sec in ScanAll(lines).sections ==> !Contains(sec.content, "\n\n")
  {
    if lines != [] {
      var init := lines[..|lines| - 1];
      assert forall k :: 0 <= k < |init| ==> init[k] == lines[k];
      SavedOneParagraph(init);
      ScanLinesClean(init);
      var st := ScanAll(init);
      assert ScanAll(lines) == Step(st, lines[|lines| - 1]);
      CloseOneParagraph(st);
      assert forall sec :: sec in ScanAll(lines).sections ==> sec in st.sections || sec in Close(st);
    }
  }

  /** The section an open heading closes holds no blank line when its
      collected lines are non-empty and newline-free. */
  lemma CloseOneParagraph(st: Scan)
    requires forall p :: p in st.text ==> |p| > 0 && !Contains(p, "\n")
    ensures forall sec :: sec in Close(st) ==> !Contains(sec.content, "\n\n")
  {
    if st.current.Some? {
      JoinNoDoubleNewline(st.text);
      StripSliceFree(Join(st.text, "\n"));
    }
  }

  /** The body of the line loop of `structure_sections`. */
  method ScanLine(sections: seq<Section>, current: Option<Heading>, currentText: seq<string>, raw: string)
    returns (sections': seq<Section>, current': Option<Heading>, currentText': seq<string>)
    ensures Scan(sections', current', currentText') == Step(Scan(sections, current, currentText), raw)
  {
    sections', current', currentText' := sections, current, currentText;
    var line := Strip(raw);
    if line != [] {
      var heading := HeadingOf(line);
      if heading.Some? {
        sections' := sections + Close(Scan(sections, current, currentText));
        current' := heading;
        currentText' := [];
      } else {
        currentText' := currentText + [line];
      }
    }
  }

  /** The line loop of `structure_sections`. */
  method StructureSectionsMethod(text: string) returns (sections: seq<Section>)
    ensures sections == StructureSections(text)
  {
    var lines := Split(text, "\n");
    sections := [];
    var current: Option<Heading> := None;
    var currentText: seq<string> := [];
    var i := 0;
    while i < |lines|
      invariant 0 <= i <= |lines|
      invariant ScanAll(lines[..i]) == Scan(sections, current, currentText)
    {
      ScanAllSnoc(lines[..i], lines[i]);
      assert lines[..i] + [lines[i]] == lines[..i + 1];
      sections, current, currentText := ScanLine(sections, current, currentText, lines[i]);
      i := i + 1;
    }
    assert lines[..i] == lines;
    sections := sections + Close(Scan(sections, current, currentText));
  }

  // ------------------------------------------------------------ chunks

  datatype RegulationChunk = RegulationChunk(sectionNumber: string, sectionTitle: string, text: string, chunkIndex: nat)

  function Sum(ps: seq<string>): nat
  {
    if ps == [] then 0 else Sum(ps[..|ps| - 1]) + |ps[|ps| - 1]|
  }

  /** The packing loop's state: the closed groups, the open group and its size. */
  datatype Pack = Pack(done: seq<seq<string>>, current: seq<string>, size: nat)

  /** One paragraph: it closes the open group when it would overflow a
      non-empty one, and joins the open group otherwise. */
  function PackStep(p: Pack, para: string, maxSize: int): Pack
  {
    if p.size + |para| > maxSize && p.current != [] then Pack(p.done + [p.current], [para], |para|)
    else Pack(p.done, p.current + [para], p.size + |para|)
  }

  function PackAll(paras: seq<string>, maxSize: int): Pack
  {
    if paras == [] then Pack([], [], 0) else PackStep(PackAll(paras[..|paras| - 1], maxSize), paras[|paras| - 1], maxSize)
  }

  /** The groups of paragraphs that become chunks, in order. */
  function Groups(paras: seq<string>, maxSize: int): seq<seq<string>>
  {
    var p := PackAll(paras, maxSize);
    p.done + (if p.current != [] then [p.current] else [])
  }

  /** A group fits when its paragraphs' lengths add up to at most the
      limit (separators not counted) or when it is a single paragraph. */
  predicate Fits(group: seq<string>, maxSize: int) {
    |group| > 0 && (Sum(group) <= maxSize || |group| == 1)
  }

  /** The packing loop's invariant after the paragraphs `paras`: the groups
      and the open group are the paragraphs in order, the size is the open
      group's, and every group fits. */
  predicate Packed(p: Pack, paras: seq<string>, maxSize: int) {
    && Concat(p.done) + p.current == paras
    && p.size == Sum(p.current)
    && (p.current != [] ==> Fits(p.current, maxSize))
    && (paras != [] ==> p.current != [])
    && forall k :: 0 <= k < |p.done| ==> Fits(p.done[k], maxSize)
  }

  /** One paragraph keeps the packing invariant. */
  lemma PackStepKeeps(p: Pack, paras: seq<string>, para: string, maxSize: int)
    requires Packed(p, paras, maxSize)
    ensures Packed(PackStep(p, para, maxSize), paras + [para], maxSize)
  {
    var q := PackStep(p, para, maxSize);
    if p.size + |para| > maxSize && p.current != [] {
      ConcatAppend(p.done, [p.current]);
      assert Concat([p.current]) == p.current + Concat([p.current][1..]);
      assert Concat(q.done) + q.current == Concat(p.done) + p.current + [para];
      assert Sum([para]) == Sum([para][..0]) + |para|;
    } else {
      assert (p.current + [para])[..|p.current|] == p.current;
      AppendAssoc(Concat(p.done), p.current, [para]);
    }
  }

  lemma {:induction false} PackInvariant(paras: seq<string>, maxSize: int)
    ensures Packed(PackAll(paras, maxSize), paras, maxSize)
  {
    if paras != [] {
      var init := paras[..|paras| - 1];
      var para := paras[|paras| - 1];
      PackInvariant(init, maxSize);
      PackStepKeeps(PackAll(init, maxSize), init, para, maxSize);
      assert init + [para] == paras;
    }
  }

  /** The groups concatenate back to the paragraphs, and each fits. */
  lemma GroupsCover(paras: seq<string>, maxSize: int)
    ensures Concat(Groups(paras, maxSize)) == paras
    ensures forall k :: 0 <= k < |Groups(paras, maxSize)| ==> Fits(Groups(paras, maxSize)[k], maxSize)
  {
    PackInvariant(paras, maxSize);
    var p := PackAll(paras, maxSize);
    ConcatAppend(p.done, if p.current != [] then [p.current] else []);
    assert Concat([p.current]) == p.current + Concat([p.current][1..]);
  }

  /** The chunks of one section: the whole content when it fits, otherwise
      one chunk per group of `"\n\n"`-separated paragraphs, numbered from 0. */
  function ChunkSection(sec: Section, maxSize: int): (cs: seq<RegulationChunk>)
    ensures forall k :: 0 <= k < |cs| ==>
      cs[k].sectionNumber == sec.number && cs[k].sectionTitle == sec.title && cs[k].chunkIndex == k
  {
    if |sec.content| <= maxSize then [RegulationChunk(sec.number, sec.title, sec.content, 0)]
    else Numbered(sec, Groups(Split(sec.content, "\n\n"), maxSize))
  }

  /** One chunk per group, the group's paragraphs joined by `"\n\n"`, numbered from 0. */
  function Numbered(sec: Section, groups: seq<seq<string>>): (cs: seq<RegulationChunk>)
    ensures |cs| == |groups|
    ensures forall k :: 0 <= k < |cs| ==>
      cs[k] == RegulationChunk(sec.number, sec.title, Join(groups[k], "\n\n"), k)
  {
    seq(|groups|, k requires 0 <= k < |groups| => RegulationChunk(sec.number, sec.title, Join(groups[k], "\n\n"), k))
  }

  function ChunkTexts(cs: seq<RegulationChunk>): (ts: seq<string>)
    ensures |ts| == |cs| && forall k :: 0 <= k < |cs| ==> ts[k] == cs[k].text
  {
    seq(|cs|, k requires 0 <= k < |cs| => cs[k].text)
  }

  /** A section that fits is one chunk with index 0 and the content as text. */
  lemma SmallSectionOneChunk(sec: Section, maxSize: int)
    requires |sec.content| <= maxSize
    ensures ChunkSection(sec, maxSize) == [RegulationChunk(sec.number, sec.title, sec.content, 0)]
  {
  }

  /** The chunks of an oversized section joined with `"\n\n"` give back its
      content. */
  lemma LargeSectionJoins(sec: Section, maxSize: int)
    requires |sec.content| > maxSize
    ensures Join(ChunkTexts(ChunkSection(sec, maxSize)), "\n\n") == sec.content
  {
    var paras := Split(sec.content, "\n\n");
    var groups := Groups(paras, maxSize);
    GroupsCover(paras, maxSize);
    JoinEachIndexed(groups, "\n\n");
    assert ChunkTexts(ChunkSection(sec, maxSize)) == JoinEach(groups, "\n\n");
    JoinConcat(groups, "\n\n");
    JoinSplit(sec.content, "\n\n");
  }

  /** An oversized section from `structure_sections` has no paragraph break,
      so it stays one oversized chunk. */
  lemma OversizedSectionOneChunk(sec: Section, maxSize: int)
    requires |sec.content| > maxSize && !Contains(sec.content, "\n\n")
    ensures ChunkSection(sec, maxSize) == [RegulationChunk(sec.number, sec.title, sec.content, 0)]
  {
    SplitWithout(sec.content, "\n\n");
    var paras := [sec.content];
    assert paras[..0] == [];
    assert PackAll(paras, maxSize) == Pack([], [sec.content], |sec.content|);
  }

  /** `chunk_sections`: the chunks of each section, sections in input order. */
  function ChunkSections(sections: seq<Section>, maxSize: int): seq<RegulationChunk>
  {
    if sections == [] then []
    else ChunkSections(sections[..|sections| - 1], maxSize) + ChunkSection(sections[|sections| - 1], maxSize)
  }

  /** Every chunk carries the number and title of a section of the input. */
  lemma {:induction false} ChunksFromSections(sections: seq<Section>, maxSize: int)
    ensures forall c :: c in ChunkSections(sections, maxSize) ==>
      exists sec :: sec in sections && c.sectionNumber == sec.number && c.sectionTitle == sec.title
  {
    if sections != [] {
      var init := sections[..|sections| - 1];
      ChunksFromSections(init, maxSize);
      var last := sections[|sections| - 1];
      forall c | c in ChunkSection(last, maxSize)
        ensures c.sectionNumber == last.number && c.sectionTitle == last.title
      {
        var k :| 0 <= k < |ChunkSection(last, maxSize)| && ChunkSection(last, maxSize)[k] == c;
      }
      assert forall sec :: sec in init ==> sec in sections;
    }
  }

  /** The paragraph loop of `chunk_sections` for one oversized section. */
  method PackSection(sec: Section, maxSize: int) returns (cs: seq<RegulationChunk>)
    requires |sec.content| > maxSize
    ensures cs == ChunkSection(sec, maxSize)
  {
    var paras := Split(sec.content, "\n\n");
    cs := [];
    var current: seq<string> := [];
    var size: nat := 0;
    var chunkIndex := 0;
    var i := 0;
    while i < |paras|
      invariant 0 <= i <= |paras|
      invariant PackAll(paras[..i], maxSize).current == current
      invariant PackAll(paras[..i], maxSize).size == size
      invariant cs == Numbered(sec, PackAll(paras[..i], maxSize).done) && chunkIndex == |cs|
    {
      assert paras[..i + 1][..i] == paras[..i];
      ghost var done := PackAll(paras[..i], maxSize).done;
      var para := paras[i];
      if size + |para| > maxSize && current != [] {
        cs := cs + [RegulationChunk(sec.number, sec.title, Join(current, "\n\n"), chunkIndex)];
        assert Numbered(sec, done + [current]) == Numbered(sec, done) + [RegulationChunk(sec.number, sec.title, Join(current, "\n\n"), chunkIndex)];
        current := [para];
        size := |para|;
        chunkIndex := chunkIndex + 1;
      } else {
        current := current + [para];
        size := size + |para|;
      }
      i := i + 1;
    }
    assert paras[..i] == paras;
    if current != [] {
      ghost var done := PackAll(paras, maxSize).done;
      assert Numbered(sec, done + [current]) == Numbered(sec, done) + [RegulationChunk(sec.number, sec.title, Join(current, "\n\n"), chunkIndex)];
      cs := cs + [RegulationChunk(sec.number, sec.title, Join(current, "\n\n"), chunkIndex)];
    }
  }

  /** The section loop of `chunk_sections`. */
  method ChunkSectionsMethod(sections: seq<Section>, maxSize: int) returns (chunks: seq<RegulationChunk>)
    ensures chunks == ChunkSections(sections, maxSize)
  {
    chunks := [];
    var i := 0;
    while i < |sections|
      invariant 0 <= i <= |sections|
      invariant chunks == ChunkSections(sections[..i], maxSize)
    {
      assert sections[..i + 1][..i] == sections[..i];
      var sec := sections[i];
      if |sec.content| <= maxSize {
        chunks := chunks + [RegulationChunk(sec.number, sec.title, sec.content, 0)];
      } else {
        var mine := PackSection(sec, maxSize);
        chunks := chunks + mine;
      }
      i := i + 1;
    }
    assert sections[..i] == sections;
  }
}
