// The regex/indentation/brace-based code unit extractor of the code parser,
// the language table, the change classifier used for incremental updates,
// the constant/override helpers and the flow graph container.
//
// The Python `ast` helpers that fill a unit's call links, variables and
// config keys are not part of this model; a unit carries the fields the
// chunker and the change classifier read.

module CodeParser {
  import opened Common
  import opened Hashing

  // ------------------------------------------------------------ languages

  /** The final path component: the text after the last '/'. */
  function FileName(path: string): (name: string)
    ensures |name| <= |path| && name == path[|path| - |name|..]
    ensures forall k :: 0 <= k < |name| ==> name[k] != '/'
    decreases |path|
  {
    if path == [] then []
    else if path[|path| - 1] == '/' then []
    else FileName(path[..|path| - 1]) + [path[|path| - 1]]
  }

  /** The index of the last '.' in `name`, if any. */
  function LastDot(name: string): (r: Option<nat>)
    ensures r.Some? ==> r.value < |name| && name[r.value] == '.'
    ensures forall k :: (if r.Some? then r.value + 1 else 0) <= k < |name| ==> name[k] != '.'
    decreases |name|
  {
    if name == [] then None
    else if name[|name| - 1] == '.' then Some(|name| - 1)
    else LastDot(name[..|name| - 1])
  }

  /** `Path(path).suffix`: from the last '.' of the file name, provided that
      dot is neither the first nor the last character of the name. */
  function Suffix(path: string): (ext: string)
    ensures ext != [] ==> ext[0] == '.' && |ext| >= 2
  {
    var name := FileName(path);
    match LastDot(name)
    case Some(i) => if 0 < i < |name| - 1 then name[i..] else []
    case None => []
  }

  const ExtensionLanguages: map<string, string> := map[
    ".py" := "python", ".js" := "javascript", ".jsx" := "javascript",
    ".ts" := "typescript", ".tsx" := "typescript", ".java" := "java",
    ".go" := "go", ".rs" := "rust", ".cpp" := "cpp", ".cc" := "cpp",
    ".c" := "c", ".h" := "c"
  ]

  /** `get_language_from_extension`: the language of the lower-cased suffix. */
  function LanguageFromExtension(path: string): (lang: Option<string>)
    ensures lang.Some? <==> Lower(Suffix(path)) in ExtensionLanguages
    ensures lang.Some? ==> lang.value == ExtensionLanguages[Lower(Suffix(path))]
  {
    var ext := Lower(Suffix(path));
    if ext in ExtensionLanguages then Some(ExtensionLanguages[ext]) else None
  }

  /** A file with no dot after its first character, or ending in a dot,
      has no language. */
  lemma NoSuffixNoLanguage(path: string)
    requires Suffix(path) == []
    ensures LanguageFromExtension(path).None?
  {
    assert Lower(Suffix(path)) == [];
  }

  datatype ParsedFile = ParsedFile(language: string, nodeType: string, content: string)

  /** `parse_file`: the placeholder module node, or None for an unknown language. */
  function ParseFile(path: string, content: string): (r: Option<ParsedFile>)
    ensures r.None? <==> LanguageFromExtension(path).None?
    ensures r.Some? ==> (r.value.language == LanguageFromExtension(path).value
                         && r.value.nodeType == "module" && r.value.content == content)
  {
    match LanguageFromExtension(path)
    case None => None
    case Some(lang) => Some(ParsedFile(lang, "module", content))
  }

  // ------------------------------------------------------ unit headers

  const PythonKeywords: seq<string> := ["class", "def", "async def"]
  const ScriptKeywords: seq<string> := ["function", "class", "const", "let", "var"]
  const TagKeywords: seq<string> := ["kyc", "storage", "upi", "auth", "payment", "compliance"]

  datatype Header = Header(keyword: string, name: string)

  /** `keyword\s+(\w+)` at the start of `line`: the captured name. */
  function MatchKeyword(line: string, keyword: string): (name: Option<string>)
    ensures name.Some? ==> |name.value| > 0 && StartsWith(line, keyword)
    ensures name.Some? ==> forall i :: 0 <= i < |name.value| ==> IsWordChar(name.value[i])
  {
    if !StartsWith(line, keyword) then None
    else
      var rest := line[|keyword|..];
      var gap := LeadingSpace(rest);
      if gap == 0 then None
      else
        var n := WordRun(rest[gap..]);
        if n == 0 then None else Some(rest[gap..][..n])
  }

  /** `re.match(r"^(k1|k2|...)\s+(\w+)", line)`: the first alternative that
      leads to a match, with the keyword and the captured name. */
  function MatchHeader(line: string, keywords: seq<string>): (h: Option<Header>)
    ensures h.Some? ==> h.value.keyword in keywords && |h.value.name| > 0
    ensures h.Some? ==> MatchKeyword(line, h.value.keyword) == Some(h.value.name)
    ensures h.None? ==> forall k :: k in keywords ==> MatchKeyword(line, k).None?
  {
    if keywords == [] then None
    else match MatchKeyword(line, keywords[0])
      case Some(name) => Some(Header(keywords[0], name))
      case None => MatchHeader(line, keywords[1..])
  }

  function KeywordsOf(language: string): seq<string>
  {
    if language == "python" then PythonKeywords else ScriptKeywords
  }

  predicate Extracts(language: string) {
    language == "python" || language == "javascript" || language == "typescript"
  }

  /** The unit type the source records for a header keyword. */
  function KindOf(language: string, keyword: string): string
  {
    if language == "python" then (if Contains(keyword, "def") then "function" else "class")
    else (if keyword == "function" then "function" else "declaration")
  }

  // ---------------------------------------------------------- unit ends

  /** A Python line that closes a unit opened at indentation `base`: not
      blank, not a comment, and indented no deeper than `base`. */
  predicate Closes(line: string, base: nat) {
    var t := Strip(line);
    t != [] && !StartsWith(t, "#") && LeadingSpace(line) <= base
  }

  /** The first closing line at or after `j`, or the number of lines. */
  function PyEndFrom(lines: seq<string>, j: nat, base: nat): (e: nat)
    requires j <= |lines|
    ensures j <= e <= |lines|
    ensures forall k {:trigger Closes(lines[k], base)} :: j <= k < e ==> !Closes(lines[k], base)
    ensures e < |lines| ==> Closes(lines[e], base)
    decreases |lines| - j
  {
    if j == |lines| then |lines|
    else if Closes(lines[j], base) then j
    else PyEndFrom(lines, j + 1, base)
  }

  function CountChar(s: string, c: char): (n: nat)
    ensures n <= |s|
  {
    if s == [] then 0 else (if s[|s| - 1] == c then 1 else 0) + CountChar(s[..|s| - 1], c)
  }

  /** `line.count("{") - line.count("}")` */
  function BraceDelta(line: string): int
  {
    CountChar(line, '{') as int - CountChar(line, '}') as int
  }

  /** The brace balance of lines `i` up to (not including) `j`. */
  function Balance(lines: seq<string>, i: nat, j: nat): int
    requires i <= j <= |lines|
    decreases j - i
  {
    if j == i then 0 else Balance(lines, i, j - 1) + BraceDelta(lines[j - 1])
  }

  /** The 1-based last line of a script unit opened at line `i`, scanning
      from line `j`: the first line where the balance drops to 0 or
      below, or the end of the file. */
  function JsEndFrom(lines: seq<string>, i: nat, j: nat): (e: nat)
    requires i < j <= |lines|
    ensures j <= e <= |lines|
    ensures forall k {:trigger Balance(lines, i, k)} :: j < k < e ==> Balance(lines, i, k) > 0
    ensures e < |lines| ==> j < e && Balance(lines, i, e) <= 0
    decreases |lines| - j
  {
    if j == |lines| then |lines|
    else if Balance(lines, i, j + 1) <= 0 then j + 1
    else JsEndFrom(lines, i, j + 1)
  }

  function EndOf(lines: seq<string>, i: nat, language: string): (e: nat)
    requires i < |lines|
    ensures i + 1 <= e <= |lines|
  {
    if language == "python" then PyEndFrom(lines, i + 1, LeadingSpace(lines[i]))
    else JsEndFrom(lines, i, i + 1)
  }

  // --------------------------------------------------------------- units

  datatype Unit = Unit(
    kind: string,
    name: string,
    startLine: nat,
    endLine: nat,
    text: string,
    semanticTags: seq<string>)

  /** The tag keywords that occur in the lower-cased content, in order. */
  function TagsAmong(content: string, keywords: seq<string>): (tags: seq<string>)
    ensures forall t :: t in tags <==> t in keywords && Contains(Lower(content), t)
  {
    if keywords == [] then []
    else
      var rest := TagsAmong(content, keywords[..|keywords| - 1]);
      var t := keywords[|keywords| - 1];
      if Contains(Lower(content), t) then rest + [t] else rest
  }

  function SemanticTags(content: string): seq<string>
  {
    TagsAmong(content, TagKeywords)
  }

  /** The unit opened at 0-based line `i`, if that line is a header. */
  function UnitAt(lines: seq<string>, i: nat, language: string, tags: seq<string>): (r: Option<Unit>)
    requires i < |lines|
    ensures r.Some? <==> MatchHeader(Strip(lines[i]), KeywordsOf(language)).Some?
    ensures r.Some? ==> (r.value.startLine == i + 1 && i + 1 <= r.value.endLine <= |lines|
                         && r.value.text == Join(lines[i..r.value.endLine], "\n")
                         && r.value.semanticTags == tags)
  {
    match MatchHeader(Strip(lines[i]), KeywordsOf(language))
    case None => None
    case Some(h) =>
      var end := EndOf(lines, i, language);
      Some(Unit(KindOf(language, h.keyword), h.name, i + 1, end, Join(lines[i..end], "\n"), tags))
  }

  /** What each line of the file opens, line by line. */
  function Opened(lines: seq<string>, language: string, tags: seq<string>): (os: seq<Option<Unit>>)
    ensures |os| == |lines|
    ensures forall i :: 0 <= i < |lines| ==> os[i] == UnitAt(lines, i, language, tags)
  {
    seq(|lines|, i requires 0 <= i < |lines| => UnitAt(lines, i, language, tags))
  }

  /** The present values, in order, as the scan appends them. */
  function Somes<T>(os: seq<Option<T>>): seq<T>
  {
    if os == [] then []
    else Somes(os[..|os| - 1]) + (if os[|os| - 1].Some? then [os[|os| - 1].value] else [])
  }

  /** `extract_functions_fallback` as a function of its inputs. */
  function Units(content: string, language: string): seq<Unit>
  {
    if Extracts(language) then
      var lines := Split(content, "\n");
      Somes(Opened(lines, language, SemanticTags(content)))
    else []
  }

  /** Every collected value comes from some position. */
  lemma {:induction false} SomesFrom<T>(os: seq<Option<T>>, x: T) returns (k: nat)
    requires x in Somes(os)
    ensures k < |os| && os[k] == Some(x)
  {
    var init := os[..|os| - 1];
    if x in Somes(init) {
      k := SomesFrom(init, x);
      assert os[k] == init[k];
    } else {
      k := |os| - 1;
    }
  }

  /** Every present value is collected, at a position no later than its own. */
  lemma {:induction false} SomesHas<T>(os: seq<Option<T>>, k: nat) returns (m: nat)
    requires k < |os| && os[k].Some?
    ensures m <= k && m < |Somes(os)| && Somes(os)[m] == os[k].value
  {
    var init := os[..|os| - 1];
    if k < |os| - 1 {
      assert init[k] == os[k];
      m := SomesHas(init, k);
      assert Somes(os)[m] == Somes(init)[m];
    } else {
      m := |Somes(init)|;
      SomesLength(init);
    }
  }

  lemma {:induction false} SomesLength<T>(os: seq<Option<T>>)
    ensures |Somes(os)| <= |os|
  {
    if os != [] {
      SomesLength(os[..|os| - 1]);
    }
  }

  predicate StartsIncrease(us: seq<Unit>) {
    forall a, b :: 0 <= a < b < |us| ==> us[a].startLine < us[b].startLine
  }

  /** If the value at each position starts on the line after it, the
      collected values start on strictly increasing lines. */
  lemma {:induction false} SomesIncrease(os: seq<Option<Unit>>)
    requires forall i :: 0 <= i < |os| && os[i].Some? ==> os[i].value.startLine == i + 1
    ensures StartsIncrease(Somes(os))
    ensures forall u :: u in Somes(os) ==> 1 <= u.startLine <= |os|
  {
    if os != [] {
      var init := os[..|os| - 1];
      assert forall i :: 0 <= i < |init| ==> init[i] == os[i];
      SomesIncrease(init);
      var last := os[|os| - 1];
      if last.Some? {
        var all := Somes(init) + [last.value];
        forall a, b | 0 <= a < b < |all| ensures all[a].startLine < all[b].startLine {
          assert all[a] == Somes(init)[a];
          if b < |Somes(init)| {
            assert all[b] == Somes(init)[b];
          } else {
            assert Somes(init)[a] in Somes(init);
          }
        }
      }
    }
  }

  /** What every extracted unit satisfies: it starts at a header line, its
      1-based range lies inside the file and its text is exactly its lines. */
  predicate UnitInFile(lines: seq<string>, u: Unit, language: string)
  {
    1 <= u.startLine <= u.endLine <= |lines|
    && MatchHeader(Strip(lines[u.startLine - 1]), KeywordsOf(language)).Some?
    && u.text == Join(lines[u.startLine - 1..u.endLine], "\n")
  }

  /** Each unit of a file starts on a header line and covers exactly the
      lines of its range; the units come in increasing line order and all
      carry the file's semantic tags. */
  lemma UnitsInFile(lines: seq<string>, language: string, tags: seq<string>, u: Unit)
    requires u in Somes(Opened(lines, language, tags))
    ensures UnitInFile(lines, u, language) && u.semanticTags == tags
    ensures StartsIncrease(Somes(Opened(lines, language, tags)))
  {
    var os := Opened(lines, language, tags);
    var k := SomesFrom(os, u);
    assert os[k] == UnitAt(lines, k, language, tags);
    SomesIncrease(os);
  }

  /** Every header line opens a unit: the returned position holds a unit
      starting on that line. */
  lemma HeaderOpensUnit(lines: seq<string>, language: string, tags: seq<string>, k: nat) returns (m: nat)
    requires k < |lines|
    requires MatchHeader(Strip(lines[k]), KeywordsOf(language)).Some?
    ensures m < |Somes(Opened(lines, language, tags))|
    ensures Somes(Opened(lines, language, tags))[m].startLine == k + 1
  {
    var os := Opened(lines, language, tags);
    assert os[k] == UnitAt(lines, k, language, tags);
    m := SomesHas(os, k);
  }

  /** Languages other than Python, JavaScript and TypeScript yield no units. */
  lemma OtherLanguagesNoUnits(content: string, language: string)
    requires !Extracts(language)
    ensures Units(content, language) == []
  {
  }

  /** The tag scan over the fixed keyword list. */
  method CollectTags(content: string) returns (tags: seq<string>)
    ensures tags == SemanticTags(content)
  {
    var lowered := Lower(content);
    tags := [];
    var t := 0;
    while t < |TagKeywords|
      invariant 0 <= t <= |TagKeywords|
      invariant tags == TagsAmong(content, TagKeywords[..t])
    {
      assert TagKeywords[..t + 1][..t] == TagKeywords[..t];
      if Contains(lowered, TagKeywords[t]) {
        tags := tags + [TagKeywords[t]];
      }
      t := t + 1;
    }
    assert TagKeywords[..t] == TagKeywords;
  }

  /** The forward search for the end of a Python unit opened at line `i`. */
  method PythonUnitEnd(lines: seq<string>, i: nat) returns (end: nat)
    requires i < |lines|
    ensures end == EndOf(lines, i, "python")
  {
    var base := LeadingSpace(lines[i]);
    var j := i + 1;
    while j < |lines| && !Closes(lines[j], base)
      invariant i + 1 <= j <= |lines|
      invariant PyEndFrom(lines, j, base) == PyEndFrom(lines, i + 1, base)
    {
      j := j + 1;
    }
    end := j;
  }

  /** The brace-counting search for the end of a script unit opened at line `i`. */
  method ScriptUnitEnd(lines: seq<string>, i: nat, language: string) returns (end: nat)
    requires i < |lines| && language != "python"
    ensures end == EndOf(lines, i, language)
  {
    var balance := BraceDelta(lines[i]);
    var j := i + 1;
    assert Balance(lines, i, i + 1) == balance;
    while j < |lines| && balance + BraceDelta(lines[j]) > 0
      invariant i + 1 <= j <= |lines|
      invariant balance == Balance(lines, i, j)
      invariant JsEndFrom(lines, i, j) == JsEndFrom(lines, i, i + 1)
    {
      balance := balance + BraceDelta(lines[j]);
      j := j + 1;
    }
    end := if j < |lines| then j + 1 else |lines|;
  }

  /** What line `i` opens, computed as the scan computes it. */
  method ScanLine(lines: seq<string>, i: nat, language: string, tags: seq<string>)
    returns (o: Option<Unit>)
    requires i < |lines|
    ensures o == UnitAt(lines, i, language, tags)
  {
    var header := MatchHeader(Strip(lines[i]), KeywordsOf(language));
    if header.None? {
      return None;
    }
    var h := header.value;
    var end: nat;
    if language == "python" {
      end := PythonUnitEnd(lines, i);
    } else {
      end := ScriptUnitEnd(lines, i, language);
    }
    o := Some(Unit(KindOf(language, h.keyword), h.name, i + 1, end, Join(lines[i..end], "\n"), tags));
  }

  /** The scan of the lines, appending a unit at each header. */
  method ScanLines(lines: seq<string>, language: string, tags: seq<string>) returns (units: seq<Unit>)
    ensures units == Somes(Opened(lines, language, tags))
  {
    ghost var os := Opened(lines, language, tags);
    units := [];
    var i := 0;
    while i < |lines|
      invariant 0 <= i <= |lines|
      invariant units == Somes(os[..i])
    {
      assert os[..i + 1][..i] == os[..i];
      var o := ScanLine(lines, i, language, tags);
      if o.Some? {
        units := units + [o.value];
      }
      i := i + 1;
    }
    assert os[..i] == os;
  }

  /** `extract_functions_fallback`: the tag scan, then a scan of the lines
      that opens a unit at each header and searches forward for its end. */
  method ExtractFunctionsFallback(content: string, language: string) returns (units: seq<Unit>)
    ensures units == Units(content, language)
  {
    var tags := CollectTags(content);
    units := [];
    if Extracts(language) {
      units := ScanLines(Split(content, "\n"), language, tags);
    }
  }

  // ------------------------------------------------------- change deltas

  datatype DeltaType = Added | Modified | Unchanged | Unknown

  /** The `previous_hash` key of a chunk: never written, written as None,
      or written with the hash of the old text. */
  datatype PreviousHash = NotSet | Null | HashOf(digest: Digest)

  datatype ChangedUnit = ChangedUnit(unit: Unit, delta: DeltaType, previousHash: PreviousHash)

  datatype FileChanges = FileChanges(delta: DeltaType, chunks: seq<ChangedUnit>, language: Option<string>)

  /** `{c["name"]: c for c in units}`: a later unit with the same name wins. */
  function ByName(units: seq<Unit>): (m: map<string, Unit>)
    ensures forall n :: n in m <==> exists k :: 0 <= k < |units| && units[k].name == n
  {
    if units == [] then map[]
    else
      var last := units[|units| - 1];
      var before := ByName(units[..|units| - 1]);
      assert forall k :: 0 <= k < |units| - 1 ==> units[..|units| - 1][k] == units[k];
      before[last.name := last]
  }

  /** The unit stored under a name is the last unit with that name. */
  lemma {:induction false} ByNameLastWins(units: seq<Unit>, k: nat)
    requires k < |units|
    requires forall k' :: k < k' < |units| ==> units[k'].name != units[k].name
    ensures ByName(units)[units[k].name] == units[k]
  {
    if k < |units| - 1 {
      var prefix := units[..|units| - 1];
      assert prefix[k] == units[k];
      ByNameLastWins(prefix, k);
    }
  }

  /** The classification of one new unit against the old units by name. */
  function Classify(u: Unit, previous: map<string, Unit>): (c: ChangedUnit)
    ensures c.unit == u
    ensures c.delta == Unchanged <==> u.name in previous && previous[u.name].text == u.text
    ensures c.delta == Modified <==> u.name in previous && previous[u.name].text != u.text
    ensures c.delta == Added <==> u.name !in previous
    ensures c.delta == Modified ==> c.previousHash == HashOf(Sha256Text(previous[u.name].text))
    ensures c.delta == Added ==> c.previousHash == Null
    ensures c.delta == Unchanged ==> c.previousHash == NotSet
  {
    if u.name in previous then
      if previous[u.name].text == u.text then ChangedUnit(u, Unchanged, NotSet)
      else ChangedUnit(u, Modified, HashOf(Sha256Text(previous[u.name].text)))
    else ChangedUnit(u, Added, Null)
  }

  /** Every unit marked with the same delta and previous-hash slot. */
  function MarkAll(units: seq<Unit>, delta: DeltaType, previous: PreviousHash): (cs: seq<ChangedUnit>)
  {
    seq(|units|, k requires 0 <= k < |units| => ChangedUnit(units[k], delta, previous))
  }

  function ClassifyAll(units: seq<Unit>, previous: map<string, Unit>): (cs: seq<ChangedUnit>)
  {
    seq(|units|, k requires 0 <= k < |units| => Classify(units[k], previous))
  }

  /** What `parse_file_changes` returns once the language is known. */
  function ChangesFor(language: Option<string>, oldContent: Option<string>, newContent: string): FileChanges
  {
    match language
    case None => FileChanges(Unknown, [], None)
    case Some(lang) =>
      var units := Units(newContent, lang);
      if oldContent.None? then FileChanges(Added, MarkAll(units, Added, Null), language)
      else if oldContent.value == newContent then FileChanges(Unchanged, MarkAll(units, Unchanged, NotSet), language)
      else FileChanges(Modified, ClassifyAll(units, ByName(Units(oldContent.value, lang))), language)
  }

  /** The change report covers the new units one for one, in order: all
      added for a new file, all unchanged for identical content, and
      otherwise classified by name against the old units. */
  lemma ChangesCases(lang: string, oldContent: Option<string>, newContent: string)
    ensures ChangesFor(None, oldContent, newContent) == FileChanges(Unknown, [], None)
    ensures
      var units := Units(newContent, lang);
      var r := ChangesFor(Some(lang), oldContent, newContent);
      && r.language == Some(lang)
      && |r.chunks| == |units|
      && (forall k :: 0 <= k < |units| ==> r.chunks[k].unit == units[k])
      && (oldContent.None? ==>
            r.delta == Added && forall k :: 0 <= k < |units| ==> r.chunks[k].delta == Added && r.chunks[k].previousHash == Null)
      && (oldContent == Some(newContent) ==>
            r.delta == Unchanged && forall k :: 0 <= k < |units| ==> r.chunks[k].delta == Unchanged)
      && (oldContent.Some? && oldContent.value != newContent ==> r.delta == Modified)
  {
  }

  /** The loop that writes the same delta into every chunk. */
  method MarkEach(units: seq<Unit>, delta: DeltaType, previous: PreviousHash) returns (chunks: seq<ChangedUnit>)
    ensures chunks == MarkAll(units, delta, previous)
  {
    chunks := [];
    var k := 0;
    while k < |units|
      invariant 0 <= k <= |units| && |chunks| == k
      invariant forall m :: 0 <= m < k ==> chunks[m] == ChangedUnit(units[m], delta, previous)
    {
      chunks := chunks + [ChangedUnit(units[k], delta, previous)];
      k := k + 1;
    }
  }

  /** The loop that looks each new unit up among the old units by name. */
  method ClassifyEach(units: seq<Unit>, previous: map<string, Unit>) returns (chunks: seq<ChangedUnit>)
    ensures chunks == ClassifyAll(units, previous)
  {
    chunks := [];
    var k := 0;
    while k < |units|
      invariant 0 <= k <= |units| && |chunks| == k
      invariant forall m :: 0 <= m < k ==> chunks[m] == Classify(units[m], previous)
    {
      var u := units[k];
      var c: ChangedUnit;
      if u.name in previous {
        if previous[u.name].text == u.text {
          c := ChangedUnit(u, Unchanged, NotSet);
        } else {
          c := ChangedUnit(u, Modified, HashOf(Sha256Text(previous[u.name].text)));
        }
      } else {
        c := ChangedUnit(u, Added, Null);
      }
      chunks := chunks + [c];
      k := k + 1;
    }
  }

  /** `parse_file_changes`: extract the new units and write each one's
      delta (and previous hash). */
  method ParseFileChanges(path: string, oldContent: Option<string>, newContent: string)
    returns (r: FileChanges)
    ensures r == ChangesFor(LanguageFromExtension(path), oldContent, newContent)
  {
    var language := LanguageFromExtension(path);
    if language.None? {
      return FileChanges(Unknown, [], None);
    }
    var units := ExtractFunctionsFallback(newContent, language.value);
    if oldContent.None? {
      var chunks := MarkEach(units, Added, Null);
      r := FileChanges(Added, chunks, language);
    } else if oldContent.value == newContent {
      var chunks := MarkEach(units, Unchanged, NotSet);
      r := FileChanges(Unchanged, chunks, language);
    } else {
      var oldUnits := ExtractFunctionsFallback(oldContent.value, language.value);
      var chunks := ClassifyEach(units, ByName(oldUnits));
      r := FileChanges(Modified, chunks, language);
    }
  }

  // ------------------------------------------------- constants and calls

  /** `re.search(r"(limit|max|min|threshold)", key, re.I)` */
  predicate IsThresholdKey(key: string) {
    var k := Lower(key);
    Contains(k, "limit") || Contains(k, "max") || Contains(k, "min") || Contains(k, "threshold")
  }

  /** `find_hardcoded_thresholds`: the constants whose name mentions a limit. */
  function FindHardcodedThresholds<V>(constants: map<string, V>): (thresholds: map<string, V>)
    ensures forall k :: k in thresholds <==> k in constants && IsThresholdKey(k)
    ensures forall k :: k in thresholds ==> thresholds[k] == constants[k]
  {
    map k | k in constants && IsThresholdKey(k) :: constants[k]
  }

  /** Filtering twice keeps the same constants as filtering once. */
  lemma ThresholdsIdempotent<V>(constants: map<string, V>)
    ensures FindHardcodedThresholds(FindHardcodedThresholds(constants))
         == FindHardcodedThresholds(constants)
  {
  }

  /** The calls recorded for one file: function name and the names it calls. */
  datatype FileCalls = FileCalls(fileName: string, calls: seq<(string, seq<string>)>)

  /** Every (file, called name) pair in iteration order. */
  function CallSites(files: seq<FileCalls>): seq<(string, string)>
  {
    if files == [] then []
    else CallSites(files[..|files| - 1]) + FileSites(files[|files| - 1].fileName, files[|files| - 1].calls)
  }

  function FileSites(fileName: string, calls: seq<(string, seq<string>)>): seq<(string, string)>
  {
    if calls == [] then []
    else FileSites(fileName, calls[..|calls| - 1]) + Pairs(fileName, calls[|calls| - 1].1)
  }

  function Pairs(fileName: string, callees: seq<string>): (ps: seq<(string, string)>)
    ensures |ps| == |callees|
    ensures forall k :: 0 <= k < |ps| ==> ps[k] == (fileName, callees[k])
  {
    if callees == [] then [] else Pairs(fileName, callees[..|callees| - 1]) + [(fileName, callees[|callees| - 1])]
  }

  /** `overrides.setdefault(call, []).append(fname)` over the call sites. */
  function Overrides(functions: set<string>, sites: seq<(string, string)>): map<string, seq<string>>
  {
    if sites == [] then map[]
    else
      var m := Overrides(functions, sites[..|sites| - 1]);
      var (fname, call) := sites[|sites| - 1];
      if call in functions then m[call := (if call in m then m[call] else []) + [fname]] else m
  }

  /** The files that call `name`, once per call, in iteration order. */
  function CallersOf(name: string, sites: seq<(string, string)>): seq<string>
  {
    if sites == [] then []
    else CallersOf(name, sites[..|sites| - 1])
         + (if sites[|sites| - 1].1 == name then [sites[|sites| - 1].0] else [])
  }

  /** `detect_overrides_across_files`: a known function is reported exactly
      when some file calls it, with one file entry per call. */
  lemma {:induction false} OverridesAreCallers(functions: set<string>, sites: seq<(string, string)>, name: string)
    ensures name in Overrides(functions, sites) <==> name in functions && CallersOf(name, sites) != []
    ensures name in Overrides(functions, sites) ==> Overrides(functions, sites)[name] == CallersOf(name, sites)
  {
    if sites != [] {
      OverridesAreCallers(functions, sites[..|sites| - 1], name);
    }
  }

  function DetectOverridesAcrossFiles(functions: set<string>, files: seq<FileCalls>): map<string, seq<string>>
  {
    Overrides(functions, CallSites(files))
  }

  // ----------------------------------------------------------- flow graph

  /** The flow graph: nodes and imports are sets, edges a list in insertion order. */
  class FlowGraph {
    var nodes: set<string>
    var edges: seq<(string, string)>
    var imports: set<string>

    constructor ()
      ensures nodes == {} && edges == [] && imports == {}
    {
      nodes := {};
      edges := [];
      imports := {};
    }

    method AddNode(name: string)
      modifies this
      ensures nodes == old(nodes) + {name}
      ensures name in old(nodes) ==> nodes == old(nodes)
      ensures edges == old(edges) && imports == old(imports)
    {
      nodes := nodes + {name};
    }

    method AddEdge(caller: string, callee: string)
      modifies this
      ensures edges == old(edges) + [(caller, callee)]
      ensures nodes == old(nodes) && imports == old(imports)
    {
      edges := edges + [(caller, callee)];
    }

    method AddImport(name: string)
      modifies this
      ensures imports == old(imports) + {name}
      ensures name in old(imports) ==> imports == old(imports)
      ensures nodes == old(nodes) && edges == old(edges)
    {
      imports := imports + {name};
    }
  }
}
