/**
 * The HLS playlist engine of internal/service/m3u8/info.go: a line-oriented parser for
 * the playlist grammar of RFC 8216 (section 4.1), and the renderings built from a parsed
 * playlist (absolute links, the local proxy form, and the variant playlist of RFC 8216 section 4.3.4).
 */
module M3u8 {
  import opened Wrappers
  import Strs
  import Urls

  /** One media segment: its URI relative to the playlist base, and the directives that precede it. */
  datatype TsInfo = TsInfo(url: string, comments: seq<string>)

  /** A subtitle track reported by the storage listing (only its language is used here). */
  datatype SubtitleInfo = SubtitleInfo(lang: string)

  /**
   * The closed tag vocabularies ParentHeadComments and ParentTailComments, which are defined
   * outside info.go: tags filed at the head and at the tail of the playlist.
   */
  datatype TagSets = TagSets(head: set<string>, tail: set<string>)

  /** Where NewByContent files one trimmed line. */
  datatype LineKind = Blank | SegmentLine | HeadLine | TailLine | AttachedLine

  /** strings.HasPrefix(line, "#"). */
  predicate IsDirective(line: string) {
    line != [] && line[0] == '#'
  }

  /** The tag of a directive: its text before the first ':', all of it when there is none. */
  function TagOf(line: string): (tag: string)
    ensures tag <= line && ':' !in tag
    ensures |tag| < |line| ==> line[|tag|] == ':'
    decreases |line|
  {
    if line == [] || line[0] == ':' then [] else [line[0]] + TagOf(line[1..])
  }

  /** TagOf is the first piece strings.Split cuts from the line at ':'. */
  lemma TagOfSplit(line: string)
    ensures TagOf(line) == Strs.Split(line, ":")[0]
  {
    var t := TagOf(line);
    forall j: nat | j < |t| ensures !Strs.OccursAt(line, ":", j) {
      assert line[j..j + 1] == [t[j]];
    }
    if |t| < |line| {
      assert Strs.OccursAt(line, ":", |t|) by {
        assert line[|t|..|t| + 1] == [line[|t|]];
      }
      assert Strs.Index(line, ":") == Some(|t|);
    } else {
      assert Strs.Index(line, ":") == None;
    }
  }

  /** The classification of NewByContent, head vocabulary first, then tail, then attached. */
  function Classify(tags: TagSets, line: string): LineKind {
    if line == "" then Blank
    else if !IsDirective(line) then SegmentLine
    else if TagOf(line) in tags.head then HeadLine
    else if TagOf(line) in tags.tail then TailLine
    else AttachedLine
  }

  /** `s` without its leading '/' characters. */
  function TrimSlashes(s: string): (r: string)
    ensures |r| <= |s| && r == s[|s| - |r|..]
    ensures r == [] || r[0] != '/'
    ensures forall i :: 0 <= i < |s| - |r| ==> s[i] == '/'
    decreases |s|
  {
    if s != [] && s[0] == '/' then TrimSlashes(s[1..]) else s
  }

  /**
   * How a segment line is stored: a line that starts with `base` loses that prefix and every
   * '/' after it; any other line is stored as it is.
   */
  function SegmentUrl(base: string, line: string): (r: string)
    ensures base <= line ==> r == TrimSlashes(line[|base|..])
    ensures !(base <= line) ==> r == line
  {
    if base <= line then
      Strs.ReplacePrefix(line, base);
      TrimSlashes(Strs.ReplaceFirst(line, base, ""))
    else line
  }

  /** A segment address resolved against the base is stored as that address again. */
  lemma SegmentUrlOfResolved(base: string, url: string)
    requires url == [] || url[0] != '/'
    ensures SegmentUrl(base, base + url) == url
  {
    assert (base + url)[|base|..] == url;
  }

  /** The state of the parser: the three buckets and the directives waiting for the next segment. */
  datatype Scan = Scan(head: seq<string>, tail: seq<string>, segments: seq<TsInfo>, pending: seq<string>)

  const EmptyScan := Scan([], [], [], [])

  /** One iteration of the scanner loop of NewByContent. */
  function Step(tags: TagSets, base: string, st: Scan, raw: string): Scan {
    var line := Strs.TrimSpace(raw);
    match Classify(tags, line)
    case Blank => st
    case SegmentLine => st.(segments := st.segments + [TsInfo(SegmentUrl(base, line), st.pending)], pending := [])
    case HeadLine => st.(head := st.head + [line])
    case TailLine => st.(tail := st.tail + [line])
    case AttachedLine => st.(pending := st.pending + [line])
  }

  /** The scanner loop run over `lines` from state `st`. */
  function Run(tags: TagSets, base: string, st: Scan, lines: seq<string>): Scan
    decreases |lines|
  {
    if lines == [] then st
    else Step(tags, base, Run(tags, base, st, lines[..|lines| - 1]), lines[|lines| - 1])
  }

  /** What NewByContent builds from a playlist text. */
  function Parse(tags: TagSets, base: string, content: string): Scan {
    Run(tags, base, EmptyScan, Strs.Lines(content))
  }

  /** The trimmed lines of one kind, in input order. */
  function Texts(tags: TagSets, lines: seq<string>, kind: LineKind): seq<string>
    decreases |lines|
  {
    if lines == [] then []
    else
      var line := Strs.TrimSpace(lines[|lines| - 1]);
      Texts(tags, lines[..|lines| - 1], kind) + (if Classify(tags, line) == kind then [line] else [])
  }

  /** All directives attached to segments, segment by segment. */
  function AllComments(segs: seq<TsInfo>): seq<string>
    decreases |segs|
  {
    if segs == [] then [] else AllComments(segs[..|segs| - 1]) + segs[|segs| - 1].comments
  }

  lemma {:induction false} RunAppend(tags: TagSets, base: string, st: Scan, a: seq<string>, b: seq<string>)
    ensures Run(tags, base, st, a + b) == Run(tags, base, Run(tags, base, st, a), b)
    decreases |b|
  {
    if b == [] {
      assert a + b == a;
    } else {
      var b' := b[..|b| - 1];
      assert (a + b)[..|a + b| - 1] == a + b';
      assert (a + b)[|a + b| - 1] == b[|b| - 1];
      RunAppend(tags, base, st, a, b');
    }
  }

  /**
   * What the parser keeps of its input: the head and tail buckets are the head and tail
   * directives in order; there is one segment per segment line, in order, holding that line
   * made relative to the base; and the attached directives, segment by segment, followed by
   * those still waiting at the end (which NewByContent drops), are the attached directives
   * of the input in order.
   */
  predicate Accounts(tags: TagSets, base: string, lines: seq<string>, sc: Scan) {
    && sc.head == Texts(tags, lines, HeadLine)
    && sc.tail == Texts(tags, lines, TailLine)
    && UrlsOf(base, sc.segments, Texts(tags, lines, SegmentLine))
    && AllComments(sc.segments) + sc.pending == Texts(tags, lines, AttachedLine)
  }

  /** One segment per segment line, in order, holding that line made relative to the base. */
  predicate UrlsOf(base: string, segs: seq<TsInfo>, texts: seq<string>) {
    |segs| == |texts| && forall k :: 0 <= k < |segs| ==> segs[k].url == SegmentUrl(base, texts[k])
  }

  lemma {:induction false} ParseAccounts(tags: TagSets, base: string, lines: seq<string>)
    ensures Accounts(tags, base, lines, Run(tags, base, EmptyScan, lines))
    decreases |lines|
  {
    if lines != [] {
      var n := |lines| - 1;
      var init := lines[..n];
      assert init + [lines[n]] == lines;
      ParseAccounts(tags, base, init);
      RunSnoc(tags, base, EmptyScan, lines, n);
      AccountsStep(tags, base, init, lines[n], Run(tags, base, EmptyScan, init));
    }
  }

  lemma TextsSnoc(tags: TagSets, init: seq<string>, raw: string, kind: LineKind)
    ensures var line := Strs.TrimSpace(raw);
      Texts(tags, init + [raw], kind) == Texts(tags, init, kind) + (if Classify(tags, line) == kind then [line] else [])
  {
    var lines := init + [raw];
    assert lines[..|lines| - 1] == init;
  }

  lemma AllCommentsSnoc(segs: seq<TsInfo>, s: TsInfo)
    ensures AllComments(segs + [s]) == AllComments(segs) + s.comments
  {
    var all := segs + [s];
    assert all[..|all| - 1] == segs;
  }

  lemma AppendAssoc(a: seq<string>, b: seq<string>, c: seq<string>)
    ensures a + (b + c) == a + b + c
  {
  }

  /** One more line keeps the account of what the scanner kept. */
  lemma AccountsStep(tags: TagSets, base: string, init: seq<string>, raw: string, prev: Scan)
    requires Accounts(tags, base, init, prev)
    ensures Accounts(tags, base, init + [raw], Step(tags, base, prev, raw))
  {
    if Classify(tags, Strs.TrimSpace(raw)) == SegmentLine {
      AccountsStepSegment(tags, base, init, raw, prev);
    } else {
      AccountsStepOther(tags, base, init, raw, prev);
    }
  }

  lemma AccountsStepSegment(tags: TagSets, base: string, init: seq<string>, raw: string, prev: Scan)
    requires Classify(tags, Strs.TrimSpace(raw)) == SegmentLine
    requires Accounts(tags, base, init, prev)
    ensures Accounts(tags, base, init + [raw], Step(tags, base, prev, raw))
  {
    var line := Strs.TrimSpace(raw);
    var seg := TsInfo(SegmentUrl(base, line), prev.pending);
    assert Step(tags, base, prev, raw) == prev.(segments := prev.segments + [seg], pending := []);
    TextsSnoc(tags, init, raw, HeadLine);
    TextsSnoc(tags, init, raw, TailLine);
    TextsSnoc(tags, init, raw, SegmentLine);
    TextsSnoc(tags, init, raw, AttachedLine);
    UrlsSnoc(base, prev.segments, Texts(tags, init, SegmentLine), seg, line);
    AllCommentsSnoc(prev.segments, seg);
  }

  lemma UrlsSnoc(base: string, segs: seq<TsInfo>, texts: seq<string>, seg: TsInfo, line: string)
    requires UrlsOf(base, segs, texts) && seg.url == SegmentUrl(base, line)
    ensures UrlsOf(base, segs + [seg], texts + [line])
  {
    forall k | 0 <= k < |segs| + 1 ensures (segs + [seg])[k].url == SegmentUrl(base, (texts + [line])[k]) {
      if k < |segs| {
        assert (segs + [seg])[k] == segs[k] && (texts + [line])[k] == texts[k];
      }
    }
  }

  lemma AccountsStepOther(tags: TagSets, base: string, init: seq<string>, raw: string, prev: Scan)
    requires Classify(tags, Strs.TrimSpace(raw)) != SegmentLine
    requires Accounts(tags, base, init, prev)
    ensures Accounts(tags, base, init + [raw], Step(tags, base, prev, raw))
  {
    var line := Strs.TrimSpace(raw);
    TextsSnoc(tags, init, raw, HeadLine);
    TextsSnoc(tags, init, raw, TailLine);
    TextsSnoc(tags, init, raw, SegmentLine);
    TextsSnoc(tags, init, raw, AttachedLine);
    if Classify(tags, line) == AttachedLine {
      assert Step(tags, base, prev, raw) == prev.(pending := prev.pending + [line]);
      AppendAssoc(AllComments(prev.segments), prev.pending, [line]);
    }
  }

  /** Every line followed by "\n": what the string builders of ContentFunc and MasterFunc accumulate. */
  function Terminated(lines: seq<string>): string
    decreases |lines|
  {
    if lines == [] then "" else Terminated(lines[..|lines| - 1]) + lines[|lines| - 1] + "\n"
  }

  lemma TerminatedSnoc(lines: seq<string>, line: string)
    ensures Terminated(lines + [line]) == Terminated(lines) + line + "\n"
  {
    assert (lines + [line])[..|lines|] == lines;
  }

  lemma {:induction false} TerminatedAppend(a: seq<string>, b: seq<string>)
    ensures Terminated(a + b) == Terminated(a) + Terminated(b)
    decreases |b|
  {
    if b == [] {
      assert a + b == a;
    } else {
      var b' := b[..|b| - 1];
      var last := b[|b| - 1];
      assert b == b' + [last];
      assert a + b == (a + b') + [last];
      TerminatedSnoc(a + b', last);
      TerminatedSnoc(b', last);
      TerminatedAppend(a, b');
    }
  }

  /** Terminated lines followed by one more unterminated text are all of them joined by "\n". */
  lemma TerminatedCons(first: string, rest: seq<string>)
    ensures Terminated([first] + rest) == first + "\n" + Terminated(rest)
  {
    TerminatedAppend([first], rest);
    TerminatedSnoc([], first);
    assert [] + [first] == [first];
  }

  /** Terminated lines followed by one more unterminated text are all of them joined by "\n". */
  lemma {:induction false} TerminatedThen(lines: seq<string>, last: string)
    ensures Terminated(lines) + last == Strs.Join(lines + [last], "\n")
    decreases |lines|
  {
    if lines == [] {
      assert lines + [last] == [last];
    } else {
      var first, rest := lines[0], lines[1..];
      assert lines == [first] + rest;
      assert lines + [last] == [first] + (rest + [last]);
      TerminatedCons(first, rest);
      Strs.JoinCons(first, rest + [last], "\n");
      TerminatedThen(rest, last);
    }
  }

  /** The builder text with its one trailing newline removed is the lines joined by "\n". */
  lemma RenderJoin(lines: seq<string>)
    ensures Strs.TrimSuffix(Terminated(lines), "\n") == Strs.Join(lines, "\n")
  {
    if lines != [] {
      var init := lines[..|lines| - 1];
      TerminatedThen(init, lines[|lines| - 1]);
      assert init + [lines[|lines| - 1]] == lines;
      var j := Strs.Join(lines, "\n");
      assert Terminated(lines) == j + "\n";
      var r := Strs.TrimSuffix(Terminated(lines), "\n");
      assert r + "\n" == j + "\n";
      assert r == (r + "\n")[..|r|] == (j + "\n")[..|j|] == j;
    }
  }

  /** The lines ContentFunc writes for `segs`: the directives of each segment, then its mapped address. */
  function SegLines(segs: seq<TsInfo>, tsMapper: (int, string) -> string): seq<string>
    decreases |segs|
  {
    if segs == [] then []
    else
      var n := |segs| - 1;
      SegLines(segs[..n], tsMapper) + segs[n].comments + [tsMapper(n, segs[n].url)]
  }

  /** All lines ContentFunc writes: head directives, the segments, tail directives. */
  function ContentLines(head: seq<string>, segs: seq<TsInfo>, tail: seq<string>, tsMapper: (int, string) -> string): seq<string> {
    head + SegLines(segs, tsMapper) + tail
  }

  /** The mapper of Content: every segment address resolved against the base. */
  function AbsoluteMapper(base: string): (int, string) -> string {
    (_, url) => base + url
  }

  /** There is one line per attached directive and one per segment. */
  lemma {:induction false} SegLinesLength(segs: seq<TsInfo>, tsMapper: (int, string) -> string)
    ensures |SegLines(segs, tsMapper)| == |AllComments(segs)| + |segs|
    decreases |segs|
  {
    if segs != [] {
      SegLinesLength(segs[..|segs| - 1], tsMapper);
    }
  }

  /** Rendering a prefix of the segments writes a prefix of the lines. */
  lemma {:induction false} SegLinesPrefix(segs: seq<TsInfo>, tsMapper: (int, string) -> string, k: nat)
    requires k <= |segs|
    ensures SegLines(segs[..k], tsMapper) <= SegLines(segs, tsMapper)
    decreases |segs|
  {
    if k < |segs| {
      var init := segs[..|segs| - 1];
      assert segs[..k] == init[..k];
      SegLinesPrefix(init, tsMapper, k);
    } else {
      assert segs[..k] == segs;
    }
  }

  /**
   * The mapper is applied once per segment, in order: the line of segment `k` comes after the
   * directives of segments 0..k and the `k` earlier segment lines, and is `tsMapper(k, url)`.
   */
  lemma SegLineAt(segs: seq<TsInfo>, tsMapper: (int, string) -> string, k: nat)
    requires k < |segs|
    ensures var pos := |AllComments(segs[..k + 1])| + k;
      pos < |SegLines(segs, tsMapper)| && SegLines(segs, tsMapper)[pos] == tsMapper(k, segs[k].url)
  {
    var pre := segs[..k + 1];
    SegLinesPrefix(segs, tsMapper, k + 1);
    SegLinesLength(pre, tsMapper);
    assert pre[..k] == segs[..k];
  }

  /** The lines of a rendering that are not directives. */
  function NonDirectives(lines: seq<string>): seq<string>
    decreases |lines|
  {
    if lines == [] then []
    else
      var n := |lines| - 1;
      NonDirectives(lines[..n]) + (if IsDirective(lines[n]) then [] else [lines[n]])
  }

  lemma {:induction false} NonDirectivesAppend(a: seq<string>, b: seq<string>)
    ensures NonDirectives(a + b) == NonDirectives(a) + NonDirectives(b)
    decreases |b|
  {
    if b == [] {
      assert a + b == a;
    } else {
      var b' := b[..|b| - 1];
      assert (a + b)[..|a + b| - 1] == a + b';
      NonDirectivesAppend(a, b');
    }
  }

  predicate AllDirectives(lines: seq<string>) {
    forall i :: 0 <= i < |lines| ==> IsDirective(lines[i])
  }

  lemma {:induction false} NonDirectivesOfDirectives(lines: seq<string>)
    requires AllDirectives(lines)
    ensures NonDirectives(lines) == []
    decreases |lines|
  {
    if lines != [] {
      NonDirectivesOfDirectives(lines[..|lines| - 1]);
    }
  }

  /** The segment addresses as the mapper gives them, segment by segment. */
  function Mapped(segs: seq<TsInfo>, tsMapper: (int, string) -> string): (r: seq<string>)
    ensures |r| == |segs|
  {
    seq(|segs|, k requires 0 <= k < |segs| => tsMapper(k, segs[k].url))
  }

  /** Every attached directive of the segments is a directive. */
  predicate CommentsAreDirectives(segs: seq<TsInfo>) {
    forall k :: 0 <= k < |segs| ==> AllDirectives(segs[k].comments)
  }

  /**
   * When the directives are directives and the mapper never yields one, the lines of a rendering
   * that are not directives are exactly the mapped segment addresses, in segment order.
   */
  lemma {:induction false} SegmentOnlyLines(head: seq<string>, segs: seq<TsInfo>, tail: seq<string>, tsMapper: (int, string) -> string)
    requires AllDirectives(head) && AllDirectives(tail) && CommentsAreDirectives(segs)
    requires forall k :: 0 <= k < |segs| ==> !IsDirective(tsMapper(k, segs[k].url))
    ensures NonDirectives(ContentLines(head, segs, tail, tsMapper)) == Mapped(segs, tsMapper)
    decreases |segs|
  {
    NonDirectivesAppend(head + SegLines(segs, tsMapper), tail);
    NonDirectivesAppend(head, SegLines(segs, tsMapper));
    NonDirectivesOfDirectives(head);
    NonDirectivesOfDirectives(tail);
    SegsOnlyLines(segs, tsMapper);
  }

  lemma {:induction false} SegsOnlyLines(segs: seq<TsInfo>, tsMapper: (int, string) -> string)
    requires CommentsAreDirectives(segs)
    requires forall k :: 0 <= k < |segs| ==> !IsDirective(tsMapper(k, segs[k].url))
    ensures NonDirectives(SegLines(segs, tsMapper)) == Mapped(segs, tsMapper)
    decreases |segs|
  {
    if segs != [] {
      var n := |segs| - 1;
      var line := tsMapper(n, segs[n].url);
      SegsOnlyLines(segs[..n], tsMapper);
      NonDirectivesAppend(SegLines(segs[..n], tsMapper) + segs[n].comments, [line]);
      NonDirectivesAppend(SegLines(segs[..n], tsMapper), segs[n].comments);
      NonDirectivesOfDirectives(segs[n].comments);
      assert NonDirectives([line]) == [line] by {
        assert [line][..0] == [];
      }
      MappedSnoc(segs, tsMapper);
    }
  }

  lemma MappedSnoc(segs: seq<TsInfo>, tsMapper: (int, string) -> string)
    requires segs != []
    ensures Mapped(segs, tsMapper) == Mapped(segs[..|segs| - 1], tsMapper) + [tsMapper(|segs| - 1, segs[|segs| - 1].url)]
  {
  }

  /** A line the scanner reads back as itself, of kind `kind`: trimmed, on one line, and so classified. */
  predicate Filed(tags: TagSets, line: string, kind: LineKind) {
    '\n' !in line && Strs.IsTrimmed(line) && Classify(tags, line) == kind
  }

  predicate AllFiled(tags: TagSets, lines: seq<string>, kind: LineKind) {
    forall i :: 0 <= i < |lines| ==> Filed(tags, lines[i], kind)
  }

  /** A segment whose directives are filed as attached ones and whose absolute line reads back as its address. */
  predicate SegFiled(tags: TagSets, base: string, s: TsInfo) {
    && AllFiled(tags, s.comments, AttachedLine)
    && Filed(tags, base + s.url, SegmentLine)
    && (s.url == [] || s.url[0] != '/')
  }

  predicate SegsFiled(tags: TagSets, base: string, segs: seq<TsInfo>) {
    forall k :: 0 <= k < |segs| ==> SegFiled(tags, base, segs[k])
  }

  /**
   * The parsed fields of an Info whose absolute rendering reads back as the same fields: every
   * line is filed where it was kept, and no segment address starts with '/'.
   */
  predicate Reparses(tags: TagSets, base: string, head: seq<string>, segs: seq<TsInfo>, tail: seq<string>) {
    AllFiled(tags, head, HeadLine) && AllFiled(tags, tail, TailLine) && SegsFiled(tags, base, segs)
  }

  /** `st` with `lines` added to the bucket of directive kind `kind`. */
  function File(st: Scan, lines: seq<string>, kind: LineKind): Scan {
    match kind
    case HeadLine => st.(head := st.head + lines)
    case TailLine => st.(tail := st.tail + lines)
    case _ => st.(pending := st.pending + lines)
  }

  lemma FileAppend(st: Scan, a: seq<string>, b: seq<string>, kind: LineKind)
    ensures File(File(st, a, kind), b, kind) == File(st, a + b, kind)
  {
    match kind
    case HeadLine => assert st.head + a + b == st.head + (a + b);
    case TailLine => assert st.tail + a + b == st.tail + (a + b);
    case _ => assert st.pending + a + b == st.pending + (a + b);
  }

  lemma StepFiled(tags: TagSets, base: string, st: Scan, line: string, kind: LineKind)
    requires kind == HeadLine || kind == TailLine || kind == AttachedLine
    requires Filed(tags, line, kind)
    ensures Step(tags, base, st, line) == File(st, [line], kind)
  {
    Strs.TrimSpaceOfTrimmed(line);
    StepCases(tags, base, st, line, line);
  }

  /** Lines of one directive kind go, in order, to the bucket of that kind. */
  lemma {:induction false} RunFiled(tags: TagSets, base: string, st: Scan, lines: seq<string>, kind: LineKind)
    requires kind == HeadLine || kind == TailLine || kind == AttachedLine
    requires AllFiled(tags, lines, kind)
    ensures Run(tags, base, st, lines) == File(st, lines, kind)
    decreases |lines|
  {
    if lines == [] {
      assert st.head + lines == st.head && st.tail + lines == st.tail && st.pending + lines == st.pending;
    } else {
      var n := |lines| - 1;
      var init, line := lines[..n], lines[n];
      assert init + [line] == lines;
      assert AllFiled(tags, init, kind) by {
        forall i | 0 <= i < |init| ensures Filed(tags, init[i], kind) {
          assert init[i] == lines[i];
        }
      }
      RunFiled(tags, base, st, init, kind);
      assert Filed(tags, line, kind);
      RunFiledNext(tags, base, st, init, line, kind);
    }
  }

  lemma RunFiledNext(tags: TagSets, base: string, st: Scan, init: seq<string>, line: string, kind: LineKind)
    requires kind == HeadLine || kind == TailLine || kind == AttachedLine
    requires Filed(tags, line, kind)
    requires Run(tags, base, st, init) == File(st, init, kind)
    ensures Run(tags, base, st, init + [line]) == File(st, init + [line], kind)
  {
    var lines := init + [line];
    assert lines[..|lines| - 1] == init;
    StepFiled(tags, base, File(st, init, kind), line, kind);
    FileAppend(st, init, [line], kind);
  }

  /** The segment lines of an absolute rendering read back as the segments themselves. */
  lemma {:induction false} RunSegments(tags: TagSets, base: string, head: seq<string>, segs: seq<TsInfo>)
    requires SegsFiled(tags, base, segs)
    ensures Run(tags, base, Scan(head, [], [], []), SegLines(segs, AbsoluteMapper(base))) == Scan(head, [], segs, [])
    decreases |segs|
  {
    if segs != [] {
      var n := |segs| - 1;
      var init, last := segs[..n], segs[n];
      assert init + [last] == segs;
      assert SegsFiled(tags, base, init) by {
        forall k | 0 <= k < |init| ensures init[k] == segs[k] { }
      }
      RunSegments(tags, base, head, init);
      RunSegmentNext(tags, base, head, init, last);
    }
  }

  lemma RunSegmentNext(tags: TagSets, base: string, head: seq<string>, init: seq<TsInfo>, last: TsInfo)
    requires SegFiled(tags, base, last)
    requires Run(tags, base, Scan(head, [], [], []), SegLines(init, AbsoluteMapper(base))) == Scan(head, [], init, [])
    ensures Run(tags, base, Scan(head, [], [], []), SegLines(init + [last], AbsoluteMapper(base))) == Scan(head, [], init + [last], [])
  {
    var st2 := Scan(head, [], init, last.comments);
    RunSegmentComments(tags, base, head, init, last);
    RunSegmentLine(tags, base, st2, last);
    RunSegLinesSnoc(tags, base, Scan(head, [], [], []), init, last, AbsoluteMapper(base));
  }

  lemma RunSegmentComments(tags: TagSets, base: string, head: seq<string>, init: seq<TsInfo>, last: TsInfo)
    requires AllFiled(tags, last.comments, AttachedLine)
    ensures Run(tags, base, Scan(head, [], init, []), last.comments) == Scan(head, [], init, last.comments)
  {
    RunFiled(tags, base, Scan(head, [], init, []), last.comments, AttachedLine);
    assert [] + last.comments == last.comments;
  }

  /** Scanning the lines of one more segment: first its directives, then its address line. */
  lemma RunSegLinesSnoc(tags: TagSets, base: string, st: Scan, init: seq<TsInfo>, last: TsInfo, tsMapper: (int, string) -> string)
    ensures Run(tags, base, st, SegLines(init + [last], tsMapper)) ==
      Run(tags, base, Run(tags, base, Run(tags, base, st, SegLines(init, tsMapper)), last.comments), [tsMapper(|init|, last.url)])
  {
    var before := SegLines(init, tsMapper);
    SegLinesSnoc(init, last, tsMapper);
    RunAppend(tags, base, st, before + last.comments, [tsMapper(|init|, last.url)]);
    RunAppend(tags, base, st, before, last.comments);
  }

  lemma SegLinesSnoc(init: seq<TsInfo>, last: TsInfo, tsMapper: (int, string) -> string)
    ensures SegLines(init + [last], tsMapper) == SegLines(init, tsMapper) + last.comments + [tsMapper(|init|, last.url)]
  {
    var segs := init + [last];
    assert segs[..|segs| - 1] == init;
  }

  /** The absolute line of a segment, read with the segment's directives waiting, stores the segment. */
  lemma RunSegmentLine(tags: TagSets, base: string, st: Scan, s: TsInfo)
    requires st.pending == s.comments
    requires Filed(tags, base + s.url, SegmentLine) && (s.url == [] || s.url[0] != '/')
    ensures Run(tags, base, st, [base + s.url]) == st.(segments := st.segments + [s], pending := [])
  {
    var line := base + s.url;
    var one: seq<string> := [line];
    assert one[..0] == [];
    assert Run(tags, base, st, one) == Step(tags, base, st, line);
    Strs.TrimSpaceOfTrimmed(line);
    StepCases(tags, base, st, line, line);
    SegmentUrlOfResolved(base, s.url);
  }

  /** No line holds a line break. */
  predicate SingleLines(lines: seq<string>) {
    forall k :: 0 <= k < |lines| ==> '\n' !in lines[k]
  }

  /** Lines without a newline character do not contain the newline separator. */
  lemma NewlineFree(lines: seq<string>)
    requires SingleLines(lines)
    ensures forall k :: 0 <= k < |lines| ==> !Strs.Contains(lines[k], "\n")
  {
    forall k | 0 <= k < |lines| ensures !Strs.Contains(lines[k], "\n") {
      Strs.ContainsChar(lines[k], '\n');
    }
  }

  lemma SingleLinesAppend(a: seq<string>, b: seq<string>)
    requires SingleLines(a) && SingleLines(b)
    ensures SingleLines(a + b)
  {
    forall k | 0 <= k < |a + b| ensures '\n' !in (a + b)[k] {
      if k >= |a| {
        assert (a + b)[k] == b[k - |a|];
      }
    }
  }

  lemma FiledSingle(tags: TagSets, lines: seq<string>, kind: LineKind)
    requires AllFiled(tags, lines, kind)
    ensures SingleLines(lines)
  {
    forall k | 0 <= k < |lines| ensures '\n' !in lines[k] {
      assert Filed(tags, lines[k], kind);
    }
  }

  lemma {:induction false} SegLinesSingle(tags: TagSets, base: string, segs: seq<TsInfo>)
    requires SegsFiled(tags, base, segs)
    ensures SingleLines(SegLines(segs, AbsoluteMapper(base)))
    decreases |segs|
  {
    if segs != [] {
      var n := |segs| - 1;
      var init, last := segs[..n], segs[n];
      var m := AbsoluteMapper(base);
      assert init + [last] == segs;
      assert SegsFiled(tags, base, init) by {
        forall k | 0 <= k < |init| ensures init[k] == segs[k] { }
      }
      SegLinesSingle(tags, base, init);
      SegLinesSnoc(init, last, m);
      assert SingleLines(last.comments) by {
        FiledSingle(tags, last.comments, AttachedLine);
      }
      assert SingleLines([m(n, last.url)]) by {
        assert m(n, last.url) == base + last.url;
        assert Filed(tags, base + last.url, SegmentLine);
      }
      SingleLinesAppend(SegLines(init, m), last.comments);
      SingleLinesAppend(SegLines(init, m) + last.comments, [m(n, last.url)]);
    }
  }

  /** The scanner, run over the lines of an absolute rendering, files every line where it was kept. */
  lemma RunContentLines(tags: TagSets, base: string, head: seq<string>, segs: seq<TsInfo>, tail: seq<string>)
    requires Reparses(tags, base, head, segs, tail)
    ensures Run(tags, base, EmptyScan, ContentLines(head, segs, tail, AbsoluteMapper(base))) == Scan(head, tail, segs, [])
  {
    var body := SegLines(segs, AbsoluteMapper(base));
    RunHeadLines(tags, base, head);
    RunSegments(tags, base, head, segs);
    RunThen(tags, base, EmptyScan, head, body, Scan(head, [], [], []), Scan(head, [], segs, []));
    RunTailLines(tags, base, head, segs, tail);
    RunThen(tags, base, EmptyScan, head + body, tail, Scan(head, [], segs, []), Scan(head, tail, segs, []));
  }

  lemma RunThen(tags: TagSets, base: string, st: Scan, a: seq<string>, b: seq<string>, mid: Scan, last: Scan)
    requires Run(tags, base, st, a) == mid && Run(tags, base, mid, b) == last
    ensures Run(tags, base, st, a + b) == last
  {
    RunAppend(tags, base, st, a, b);
  }

  lemma RunHeadLines(tags: TagSets, base: string, head: seq<string>)
    requires AllFiled(tags, head, HeadLine)
    ensures Run(tags, base, EmptyScan, head) == Scan(head, [], [], [])
  {
    RunFiled(tags, base, EmptyScan, head, HeadLine);
    assert [] + head == head;
  }

  lemma RunTailLines(tags: TagSets, base: string, head: seq<string>, segs: seq<TsInfo>, tail: seq<string>)
    requires AllFiled(tags, tail, TailLine)
    ensures Run(tags, base, Scan(head, [], segs, []), tail) == Scan(head, tail, segs, [])
  {
    RunFiled(tags, base, Scan(head, [], segs, []), tail, TailLine);
    assert [] + tail == tail;
  }

  /** The lines of an absolute rendering are the pieces its text splits into. */
  lemma ContentLinesSplit(tags: TagSets, base: string, head: seq<string>, segs: seq<TsInfo>, tail: seq<string>)
    requires Reparses(tags, base, head, segs, tail)
    requires ContentLines(head, segs, tail, AbsoluteMapper(base)) != []
    ensures Strs.Lines(Strs.Join(ContentLines(head, segs, tail, AbsoluteMapper(base)), "\n")) == ContentLines(head, segs, tail, AbsoluteMapper(base))
  {
    var body := SegLines(segs, AbsoluteMapper(base));
    FiledSingle(tags, head, HeadLine);
    FiledSingle(tags, tail, TailLine);
    SegLinesSingle(tags, base, segs);
    SingleLinesAppend(head, body);
    SingleLinesAppend(head + body, tail);
    NewlineFree(head + body + tail);
    Strs.SplitJoin(head + body + tail, "\n");
  }

  /** An empty playlist text is one blank line, which the scanner skips. */
  lemma ParseEmpty(tags: TagSets, base: string)
    ensures Parse(tags, base, "") == EmptyScan
  {
    assert Strs.Lines("") == [""];
    var blank: seq<string> := [""];
    assert blank[..0] == [];
  }

  /**
   * Round trip: the absolute rendering of Content, parsed again against the same base, gives back
   * the head directives, the tail directives and the segments with their directives.
   */
  lemma ContentReparses(tags: TagSets, base: string, head: seq<string>, segs: seq<TsInfo>, tail: seq<string>)
    requires Reparses(tags, base, head, segs, tail)
    ensures Parse(tags, base, Strs.Join(ContentLines(head, segs, tail, AbsoluteMapper(base)), "\n")) == Scan(head, tail, segs, [])
  {
    var m := AbsoluteMapper(base);
    if ContentLines(head, segs, tail, m) == [] {
      assert head == [] && tail == [] && segs == [] by {
        SegLinesLength(segs, m);
      }
      ParseEmpty(tags, base);
    } else {
      ContentLinesSplit(tags, base, head, segs, tail);
      RunContentLines(tags, base, head, segs, tail);
    }
  }

  /**
   * Reparses is needed: a segment line that does not start with the base is stored as it is, so
   * it may keep a leading '/' (`/x.ts` against `http://h/a/`). Its absolute line then starts with
   * the base, and parsing that line strips the base and the '/', storing a different address.
   */
  lemma LeadingSlashNotReparsed(tags: TagSets, base: string, url: string)
    requires base != [] && base[0] != '/' && base[0] != '#' && !Strs.IsSpace(base[0])
    requires url != [] && url[0] != '/' && !Strs.IsSpace(url[|url| - 1])
    ensures Run(tags, base, EmptyScan, ["/" + url]).segments == [TsInfo("/" + url, [])]
    ensures ContentLines([], [TsInfo("/" + url, [])], [], AbsoluteMapper(base)) == [base + ("/" + url)]
    ensures Run(tags, base, EmptyScan, [base + ("/" + url)]).segments == [TsInfo(url, [])]
  {
    var line := "/" + url;
    assert line[|line| - 1] == url[|url| - 1];
    RunOneSegment(tags, base, line);
    assert !(base <= line) by {
      assert base[0] != line[0];
    }
    var segs := [TsInfo(line, [])];
    assert SegLines(segs, AbsoluteMapper(base)) == SegLines(segs[..0], AbsoluteMapper(base)) + [] + [base + line];
    var abs := base + line;
    assert abs[0] == base[0] && abs[|abs| - 1] == url[|url| - 1];
    RunOneSegment(tags, base, abs);
    SegmentUrlSlash(base, url);
  }

  /** A single trimmed line that is not a directive parses as one segment without directives. */
  lemma RunOneSegment(tags: TagSets, base: string, line: string)
    requires Strs.IsTrimmed(line) && line != [] && line[0] != '#'
    ensures Run(tags, base, EmptyScan, [line]).segments == [TsInfo(SegmentUrl(base, line), [])]
  {
    Strs.TrimSpaceOfTrimmed(line);
    assert [line][..0] == [];
  }

  /** The base followed by `/` and an address: the parser strips both. */
  lemma SegmentUrlSlash(base: string, url: string)
    requires url == [] || url[0] != '/'
    ensures SegmentUrl(base, base + ("/" + url)) == url
  {
    var line := base + ("/" + url);
    assert line[..|base|] == base && line[|base|..] == "/" + url;
    assert ("/" + url)[1..] == url;
  }

  /** Terminated lines, extended by the next line of `xs` after the prefix `pre`. */
  lemma TerminatedNext(pre: seq<string>, xs: seq<string>, j: nat)
    requires j < |xs|
    ensures Terminated(pre + xs[..j + 1]) == Terminated(pre + xs[..j]) + xs[j] + "\n"
  {
    assert pre + xs[..j + 1] == (pre + xs[..j]) + [xs[j]];
    TerminatedSnoc(pre + xs[..j], xs[j]);
  }

  /** The loop `for _, cmt := range lines { sb.WriteString(cmt + "\n") }` on a builder holding `written`. */
  method WriteLines(sb: string, ghost written: seq<string>, lines: seq<string>) returns (r: string)
    requires sb == Terminated(written)
    ensures r == Terminated(written + lines)
  {
    r := sb;
    assert written + lines[..0] == written;
    for j := 0 to |lines|
      invariant r == Terminated(written + lines[..j])
    {
      TerminatedNext(written, lines, j);
      r := r + lines[j] + "\n";
    }
    assert lines[..|lines|] == lines;
  }

  lemma SegLinesNext(head: seq<string>, segs: seq<TsInfo>, idx: nat, tsMapper: (int, string) -> string)
    requires idx < |segs|
    ensures head + SegLines(segs[..idx + 1], tsMapper) ==
      head + SegLines(segs[..idx], tsMapper) + segs[idx].comments + [tsMapper(idx, segs[idx].url)]
  {
    assert segs[..idx + 1] == segs[..idx] + [segs[idx]];
    SegLinesSnoc(segs[..idx], segs[idx], tsMapper);
  }

  /** The subtitle loop of MasterFunc, on a builder holding the header lines. */
  method WriteMedia(sb: string, subs: seq<SubtitleInfo>, alistPath: string, templateId: string, apiKey: string) returns (r: string)
    requires sb == Terminated(Header)
    ensures r == Terminated(Header + MediaLines(subs, alistPath, templateId, apiKey))
  {
    ghost var media := MediaLines(subs, alistPath, templateId, apiKey);
    r := sb;
    assert Header + media[..0] == Header;
    for idx := 0 to |subs|
      invariant r == Terminated(Header + media[..idx])
    {
      var u := SubtitleUri(alistPath, templateId, apiKey, idx);
      var cmt := MediaLine(subs[idx].lang, u);
      MediaLinesAt(subs, alistPath, templateId, apiKey, idx);
      TerminatedNext(Header, media, idx);
      r := r + cmt + "\n";
    }
    assert media[..|subs|] == media;
  }

  /** The tags of sections 4.3.4.1 and 4.3.4.2 of RFC 8216. */
  const MediaTag: string := "#EXT-X-MEDIA:"
  const StreamTag: string := "#EXT-X-STREAM-INF:"

  /** The stream line MasterFunc writes after the subtitle renditions. */
  const StreamInf: string := StreamTag + "SUBTITLES=\"subs\""

  /** The address of the local subtitle proxy for subtitle `idx`; url.Values.Encode sorts the keys. */
  function SubtitleUri(alistPath: string, templateId: string, apiKey: string, idx: int): string {
    Urls.RelativeUrl("proxy_subtitle", [("alist_path", alistPath), ("api_key", apiKey), ("idx", Urls.Itoa(idx)), ("template_id", templateId)])
  }

  /** One subtitle rendition, in the subtitle group "subs". */
  function MediaLine(lang: string, uri: string): string {
    MediaTag + ("TYPE=SUBTITLES,GROUP-ID=\"subs\",NAME=\"" + lang + "\",LANGUAGE=\"" + lang + "\",URI=\"" + uri + "\"")
  }

  function MediaLines(subs: seq<SubtitleInfo>, alistPath: string, templateId: string, apiKey: string): (r: seq<string>)
    ensures |r| == |subs|
  {
    seq(|subs|, k requires 0 <= k < |subs| => MediaLine(subs[k].lang, SubtitleUri(alistPath, templateId, apiKey, k)))
  }

  /** The header tag and the version tag (sections 4.3.1.1 and 4.3.1.2 of RFC 8216). */
  const Header: seq<string> := ["#EXTM3U", "#EXT-X-VERSION:3"]

  lemma MediaLinesAt(subs: seq<SubtitleInfo>, alistPath: string, templateId: string, apiKey: string, j: int)
    requires 0 <= j < |subs|
    ensures MediaLines(subs, alistPath, templateId, apiKey)[j] == MediaLine(subs[j].lang, SubtitleUri(alistPath, templateId, apiKey, j))
  {
  }

  /** The lines MasterFunc writes before the address of the media playlist. */
  function MasterLines(subs: seq<SubtitleInfo>, alistPath: string, templateId: string, apiKey: string): seq<string> {
    Header + MediaLines(subs, alistPath, templateId, apiKey) + [StreamInf]
  }

  lemma HeaderText()
    ensures Terminated(Header) == "#EXTM3U\n" + "#EXT-X-VERSION:3\n"
  {
    TerminatedSnoc([], "#EXTM3U");
    TerminatedSnoc(["#EXTM3U"], "#EXT-X-VERSION:3");
    assert [] + ["#EXTM3U"] == ["#EXTM3U"];
    assert ["#EXTM3U"] + ["#EXT-X-VERSION:3"] == Header;
  }

  lemma IndexMiddle(a: seq<string>, b: seq<string>, c: seq<string>, k: int)
    requires |a| <= k < |a| + |b|
    ensures (a + b + c)[k] == b[k - |a|]
  {
  }

  /** The address of the local proxy for the media playlist, which ProxyContent gives MasterFunc. */
  function PlaylistUri(alistPath: string, templateId: string, apiKey: string): string {
    Urls.RelativeUrl("proxy_playlist", [("alist_path", alistPath), ("api_key", apiKey), ("template_id", templateId), ("type", "main")])
  }

  /** The mapper of ProxyContent: segment `idx` is served by the local proxy, whatever its address. */
  function ProxyTsMapper(alistPath: string, templateId: string, apiKey: string): (int, string) -> string {
    (idx, _) => Urls.RelativeUrl("proxy_ts", [("alist_path", alistPath), ("api_key", apiKey), ("idx", Urls.Itoa(idx)), ("template_id", templateId)])
  }

  predicate IsMediaLine(line: string) {
    MediaTag <= line
  }

  predicate IsStreamInf(line: string) {
    StreamTag <= line
  }

  lemma MediaLineKind(lang: string, uri: string)
    ensures IsMediaLine(MediaLine(lang, uri)) && !IsStreamInf(MediaLine(lang, uri))
  {
    var l := MediaLine(lang, uri);
    assert l[..|MediaTag|] == MediaTag;
    assert l[7] == MediaTag[7] == 'M' && StreamTag[7] == 'S';
  }

  lemma StreamInfKind()
    ensures IsStreamInf(StreamInf) && !IsMediaLine(StreamInf)
  {
    assert StreamInf[..|StreamTag|] == StreamTag;
    assert StreamInf[7] == StreamTag[7] == 'S' && MediaTag[7] == 'M';
  }

  lemma HeaderKinds()
    ensures !IsMediaLine("#EXTM3U") && !IsStreamInf("#EXTM3U")
    ensures !IsMediaLine("#EXT-X-VERSION:3") && !IsStreamInf("#EXT-X-VERSION:3")
  {
    assert "#EXT-X-VERSION:3"[7] == 'V' && MediaTag[7] == 'M';
  }

  /**
   * The variant playlist: the header tag and the version tag, then exactly one rendition per
   * subtitle in subtitle order, each pointing at the subtitle proxy with its own index, then
   * exactly one stream line, last.
   */
  lemma MasterLayout(subs: seq<SubtitleInfo>, alistPath: string, templateId: string, apiKey: string)
    ensures var ls := MasterLines(subs, alistPath, templateId, apiKey);
      && |ls| == |subs| + 3 && ls[0] == "#EXTM3U" && ls[1] == "#EXT-X-VERSION:3"
      && (forall k :: 0 <= k < |subs| ==> ls[k + 2] == MediaLine(subs[k].lang, SubtitleUri(alistPath, templateId, apiKey, k)))
      && (forall k :: 0 <= k < |ls| ==> (IsMediaLine(ls[k]) <==> 2 <= k < |ls| - 1))
      && (forall k :: 0 <= k < |ls| ==> (IsStreamInf(ls[k]) <==> k == |ls| - 1))
  {
    var ls := MasterLines(subs, alistPath, templateId, apiKey);
    forall k | 0 <= k < |ls| ensures (IsMediaLine(ls[k]) <==> 2 <= k < |ls| - 1) && (IsStreamInf(ls[k]) <==> k == |ls| - 1) {
      MasterLineKind(subs, alistPath, templateId, apiKey, k);
    }
  }

  lemma MasterLineKind(subs: seq<SubtitleInfo>, alistPath: string, templateId: string, apiKey: string, k: int)
    requires 0 <= k < |subs| + 3
    ensures var ls := MasterLines(subs, alistPath, templateId, apiKey);
      (IsMediaLine(ls[k]) <==> 2 <= k < |ls| - 1) && (IsStreamInf(ls[k]) <==> k == |ls| - 1)
  {
    if k < 2 {
      HeaderLineKind(MediaLines(subs, alistPath, templateId, apiKey), k);
    } else if k < |subs| + 2 {
      MediaLineAtKind(subs, alistPath, templateId, apiKey, k);
    } else {
      StreamLineKind(MediaLines(subs, alistPath, templateId, apiKey), k);
    }
  }

  lemma MediaLineAtKind(subs: seq<SubtitleInfo>, alistPath: string, templateId: string, apiKey: string, k: int)
    requires 2 <= k < |subs| + 2
    ensures var ls := MasterLines(subs, alistPath, templateId, apiKey);
      (IsMediaLine(ls[k]) <==> 2 <= k < |ls| - 1) && (IsStreamInf(ls[k]) <==> k == |ls| - 1)
  {
    var media := MediaLines(subs, alistPath, templateId, apiKey);
    IndexMiddle(Header, media, [StreamInf], k);
    MediaLinesAt(subs, alistPath, templateId, apiKey, k - 2);
    MediaLineKind(subs[k - 2].lang, SubtitleUri(alistPath, templateId, apiKey, k - 2));
  }

  lemma HeaderLineKind(media: seq<string>, k: int)
    requires 0 <= k < 2
    ensures var line := (Header + media + [StreamInf])[k]; !IsMediaLine(line) && !IsStreamInf(line)
  {
    assert (Header + media + [StreamInf])[k] == Header[k];
    HeaderKinds();
  }

  lemma StreamLineKind(media: seq<string>, k: int)
    requires k == |media| + 2
    ensures var line := (Header + media + [StreamInf])[k]; !IsMediaLine(line) && IsStreamInf(line)
  {
    assert (Header + media + [StreamInf])[k] == StreamInf;
    StreamInfKind();
  }

  /** A proxy address is one line: its path is, and url.Values.Encode escapes every control character. */
  lemma RelativeUrlOneLine(path: string, pairs: seq<(string, string)>)
    requires '\n' !in path
    ensures '\n' !in Urls.RelativeUrl(path, pairs)
  {
    var r := Urls.RelativeUrl(path, pairs);
    forall i | 0 <= i < |r| ensures r[i] != '\n' {
      if i > |path| {
        assert Urls.QueryChar(r[i]);
      } else if i < |path| {
        assert r[i] == path[i];
      }
    }
  }

  lemma FixedLinesSingle()
    ensures SingleLines(Header) && SingleLines([StreamInf])
  {
    assert '\n' !in StreamTag && '\n' !in "SUBTITLES=\"subs\"";
  }

  lemma SubtitleUriSingle(alistPath: string, templateId: string, apiKey: string, idx: int)
    ensures '\n' !in SubtitleUri(alistPath, templateId, apiKey, idx)
  {
    assert '\n' !in "proxy_subtitle";
    RelativeUrlOneLine("proxy_subtitle", [("alist_path", alistPath), ("api_key", apiKey), ("idx", Urls.Itoa(idx)), ("template_id", templateId)]);
  }

  lemma MediaLineSingle(lang: string, uri: string)
    requires '\n' !in lang && '\n' !in uri
    ensures '\n' !in MediaLine(lang, uri)
  {
    assert '\n' !in MediaTag && '\n' !in "TYPE=SUBTITLES,GROUP-ID=\"subs\",NAME=\"";
    assert '\n' !in "\",LANGUAGE=\"" && '\n' !in "\",URI=\"" && '\n' !in "\"";
  }

  lemma MediaLinesSingle(subs: seq<SubtitleInfo>, alistPath: string, templateId: string, apiKey: string)
    requires forall k :: 0 <= k < |subs| ==> '\n' !in subs[k].lang
    ensures SingleLines(MediaLines(subs, alistPath, templateId, apiKey))
  {
    var media := MediaLines(subs, alistPath, templateId, apiKey);
    forall k | 0 <= k < |media| ensures '\n' !in media[k] {
      SubtitleUriSingle(alistPath, templateId, apiKey, k);
      MediaLineSingle(subs[k].lang, SubtitleUri(alistPath, templateId, apiKey, k));
    }
  }

  /**
   * When no subtitle language and not the playlist address holds a line break, the text of
   * MasterFunc reads back, line by line, as the master lines followed by that address.
   */
  lemma MasterReads(subs: seq<SubtitleInfo>, alistPath: string, templateId: string, apiKey: string, cnt: string)
    requires forall k :: 0 <= k < |subs| ==> '\n' !in subs[k].lang
    requires '\n' !in cnt
    ensures Strs.Lines(Terminated(MasterLines(subs, alistPath, templateId, apiKey)) + cnt) == MasterLines(subs, alistPath, templateId, apiKey) + [cnt]
  {
    var ls := MasterLines(subs, alistPath, templateId, apiKey);
    var media := MediaLines(subs, alistPath, templateId, apiKey);
    FixedLinesSingle();
    MediaLinesSingle(subs, alistPath, templateId, apiKey);
    SingleLinesAppend(Header, media);
    SingleLinesAppend(Header + media, [StreamInf]);
    assert SingleLines([cnt]);
    SingleLinesAppend(ls, [cnt]);
    TerminatedThen(ls, cnt);
    NewlineFree(ls + [cnt]);
    Strs.SplitJoin(ls + [cnt], "\n");
  }

  /**
   * When every kept directive is a directive, the lines of the proxy form that are not
   * directives are exactly one proxy address per segment, in segment order, each carrying the
   * index of its segment and none of its address.
   */
  lemma ProxyTsLines(head: seq<string>, segs: seq<TsInfo>, tail: seq<string>, alistPath: string, templateId: string, apiKey: string)
    requires AllDirectives(head) && AllDirectives(tail) && CommentsAreDirectives(segs)
    ensures var r := NonDirectives(ContentLines(head, segs, tail, ProxyTsMapper(alistPath, templateId, apiKey)));
      |r| == |segs| && forall k :: 0 <= k < |segs| ==>
        r[k] == Urls.RelativeUrl("proxy_ts", [("alist_path", alistPath), ("api_key", apiKey), ("idx", Urls.Itoa(k)), ("template_id", templateId)])
  {
    var m := ProxyTsMapper(alistPath, templateId, apiKey);
    forall k | 0 <= k < |segs| ensures !IsDirective(m(k, segs[k].url)) {
      assert m(k, segs[k].url)[0] == 'p';
    }
    SegmentOnlyLines(head, segs, tail, m);
  }

  /** Every line a Texts collects is of the kind it was collected for. */
  lemma {:induction false} TextsClassified(tags: TagSets, lines: seq<string>, kind: LineKind)
    ensures forall i :: 0 <= i < |Texts(tags, lines, kind)| ==> Classify(tags, Texts(tags, lines, kind)[i]) == kind
    decreases |lines|
  {
    if lines != [] {
      TextsClassified(tags, lines[..|lines| - 1], kind);
    }
  }

  /** A directive-kind Texts holds directives only. */
  lemma TextsDirectives(tags: TagSets, lines: seq<string>, kind: LineKind)
    requires kind == HeadLine || kind == TailLine || kind == AttachedLine
    ensures AllDirectives(Texts(tags, lines, kind))
  {
    TextsClassified(tags, lines, kind);
  }

  /** When all the attached directives are directives, so is every segment's own share. */
  lemma {:induction false} CommentsOfAll(segs: seq<TsInfo>)
    requires AllDirectives(AllComments(segs))
    ensures CommentsAreDirectives(segs)
    decreases |segs|
  {
    if segs != [] {
      var init, last := segs[..|segs| - 1], segs[|segs| - 1];
      var before := AllComments(init);
      assert AllComments(segs) == before + last.comments;
      forall i | 0 <= i < |before| ensures IsDirective(before[i]) {
        assert before[i] == AllComments(segs)[i];
      }
      CommentsOfAll(init);
      forall i | 0 <= i < |last.comments| ensures IsDirective(last.comments[i]) {
        assert last.comments[i] == AllComments(segs)[|before| + i];
      }
      forall k | 0 <= k < |segs| ensures AllDirectives(segs[k].comments) {
        if k < |init| {
          assert segs[k] == init[k];
        }
      }
    }
  }

  /** NewByContent keeps directives only in the head, the tail and the segments' comments. */
  lemma ParsedDirectives(tags: TagSets, base: string, content: string)
    ensures var sc := Parse(tags, base, content);
      AllDirectives(sc.head) && AllDirectives(sc.tail) && CommentsAreDirectives(sc.segments)
  {
    var lines := Strs.Lines(content);
    var sc := Parse(tags, base, content);
    ParseAccounts(tags, base, lines);
    TextsDirectives(tags, lines, HeadLine);
    TextsDirectives(tags, lines, TailLine);
    TextsDirectives(tags, lines, AttachedLine);
    var all := Texts(tags, lines, AttachedLine);
    forall i | 0 <= i < |AllComments(sc.segments)| ensures IsDirective(AllComments(sc.segments)[i]) {
      assert AllComments(sc.segments)[i] == all[i];
    }
    CommentsOfAll(sc.segments);
  }

  /**
   * The proxied media playlist of any parsed playlist: apart from the directives, its lines are
   * one proxy_ts address per segment, numbered from 0 in segment order.
   */
  lemma ParsedProxyLines(tags: TagSets, base: string, content: string, alistPath: string, templateId: string, apiKey: string)
    ensures var sc := Parse(tags, base, content);
      var r := NonDirectives(ContentLines(sc.head, sc.segments, sc.tail, ProxyTsMapper(alistPath, templateId, apiKey)));
      |r| == |sc.segments| && forall k :: 0 <= k < |sc.segments| ==>
        r[k] == Urls.RelativeUrl("proxy_ts", [("alist_path", alistPath), ("api_key", apiKey), ("idx", Urls.Itoa(k)), ("template_id", templateId)])
  {
    var sc := Parse(tags, base, content);
    ParsedDirectives(tags, base, content);
    ProxyTsLines(sc.head, sc.segments, sc.tail, alistPath, templateId, apiKey);
  }

  /** The Info object of info.go. */
  class Info {
    var remoteBase: string
    var headComments: seq<string>
    var tailComments: seq<string>
    var remoteTsInfos: seq<TsInfo>
    var subtitles: seq<SubtitleInfo>
    var alistPath: string
    var templateId: string
    /** A playlist address known to be fresh, used once by the next UpdateContent. */
    var remote: string
    var lastUpdate: int

    /** An Info holding only parsed playlist data: no storage path, template, subtitles or one-shot address. */
    constructor (base: string, head: seq<string>, tail: seq<string>, segs: seq<TsInfo>)
      ensures remoteBase == base && headComments == head && tailComments == tail && remoteTsInfos == segs
      ensures subtitles == [] && alistPath == "" && templateId == "" && remote == "" && lastUpdate == 0
    {
      remoteBase := base;
      headComments, tailComments, remoteTsInfos := head, tail, segs;
      subtitles := [];
      alistPath, templateId, remote := "", "", "";
      lastUpdate := 0;
    }

    /** The parsed part of this object is `sc`, with base `base`. */
    predicate Holds(base: string, sc: Scan)
      reads this
    {
      remoteBase == base && headComments == sc.head && tailComments == sc.tail && remoteTsInfos == sc.segments
    }

    /** GetTsLink: the absolute address of segment `idx`, or nothing when there is no such segment. */
    function GetTsLink(idx: int): (r: Option<string>)
      reads this
      ensures r.None? <==> idx < 0 || idx >= |remoteTsInfos|
      ensures r.Some? ==> r.value == remoteBase + remoteTsInfos[idx].url
    {
      if idx < 0 || idx >= |remoteTsInfos| then None else Some(remoteBase + remoteTsInfos[idx].url)
    }

    /**
     * The link GetTsLink gives for segment `k` is the line Content writes for that segment: it
     * follows the head directives, the directives of segments 0..k and the `k` earlier segments.
     */
    lemma TsLinkInContent(k: int)
      requires 0 <= k < |remoteTsInfos|
      ensures var lines := ContentLines(headComments, remoteTsInfos, tailComments, AbsoluteMapper(remoteBase));
        var pos := |headComments| + |AllComments(remoteTsInfos[..k + 1])| + k;
        pos < |lines| && GetTsLink(k) == Some(lines[pos])
    {
      SegLineAt(remoteTsInfos, AbsoluteMapper(remoteBase), k);
    }

    /**
     * ContentFunc: the head directives, then for each segment in order its directives and its
     * address as `tsMapper` maps it, then the tail directives, one line each; the builder's one
     * trailing newline is removed.
     */
    method ContentFunc(tsMapper: (int, string) -> string) returns (s: string)
      ensures s == Strs.Join(ContentLines(headComments, remoteTsInfos, tailComments, tsMapper), "\n")
    {
      var head, segs, tail := headComments, remoteTsInfos, tailComments;
      // 1 the head directives
      var sb := WriteLines("", [], head);
      assert [] + head == head + SegLines(segs[..0], tsMapper);

      // 2 each segment: its directives, then its mapped address
      for idx := 0 to |segs|
        invariant sb == Terminated(head + SegLines(segs[..idx], tsMapper))
      {
        var ti := segs[idx];
        ghost var before := head + SegLines(segs[..idx], tsMapper);
        sb := WriteLines(sb, before, ti.comments);
        TerminatedSnoc(before + ti.comments, tsMapper(idx, ti.url));
        sb := sb + tsMapper(idx, ti.url) + "\n";
        SegLinesNext(head, segs, idx, tsMapper);
      }
      assert segs[..|segs|] == segs;

      // 3 the tail directives
      sb := WriteLines(sb, head + SegLines(segs, tsMapper), tail);
      RenderJoin(ContentLines(head, segs, tail, tsMapper));
      s := Strs.TrimSuffix(sb, "\n");
    }

    /**
     * Content: the playlist with every segment address resolved against the base. Its text,
     * parsed again against the same base, gives back these fields when Reparses holds: every kept
     * line and absolute segment line is trimmed, on one line and classified as the same kind, and
     * no segment address starts with '/' (LeadingSlashNotReparsed shows a parsed playlist without
     * that property).
     */
    method Content() returns (s: string)
      ensures s == Strs.Join(ContentLines(headComments, remoteTsInfos, tailComments, AbsoluteMapper(remoteBase)), "\n")
      ensures forall tags :: Reparses(tags, remoteBase, headComments, remoteTsInfos, tailComments) ==>
        Parse(tags, remoteBase, s) == Scan(headComments, tailComments, remoteTsInfos, [])
    {
      s := ContentFunc(AbsoluteMapper(remoteBase));
      forall tags | Reparses(tags, remoteBase, headComments, remoteTsInfos, tailComments)
        ensures Parse(tags, remoteBase, s) == Scan(headComments, tailComments, remoteTsInfos, [])
      {
        ContentReparses(tags, remoteBase, headComments, remoteTsInfos, tailComments);
      }
    }

    /**
     * MasterFunc: the variant playlist, whose media playlist is the address `cntMapper` gives;
     * `apiKey` is the configured Emby API key.
     */
    method MasterFunc(cntMapper: () -> string, apiKey: string) returns (s: string)
      ensures s == Terminated(MasterLines(subtitles, alistPath, templateId, apiKey)) + cntMapper()
    {
      var sb := "#EXTM3U\n";
      sb := sb + "#EXT-X-VERSION:3\n";
      HeaderText();
      // one rendition per subtitle
      sb := WriteMedia(sb, subtitles, alistPath, templateId, apiKey);
      TerminatedSnoc(Header + MediaLines(subtitles, alistPath, templateId, apiKey), StreamInf);
      sb := sb + StreamInf + "\n";
      s := sb + cntMapper();
    }

    /**
     * ProxyContent: the variant playlist pointing at the proxied media playlist when a
     * non-main playlist is asked for and there are subtitles; otherwise the playlist with
     * every segment served by the local segment proxy under its index.
     */
    method ProxyContent(main: bool, apiKey: string) returns (s: string)
      ensures !main && |subtitles| > 0 ==>
        s == Terminated(MasterLines(subtitles, alistPath, templateId, apiKey)) + PlaylistUri(alistPath, templateId, apiKey)
      ensures main || |subtitles| == 0 ==>
        s == Strs.Join(ContentLines(headComments, remoteTsInfos, tailComments, ProxyTsMapper(alistPath, templateId, apiKey)), "\n")
    {
      var ap, tid := alistPath, templateId;
      if !main && |subtitles| > 0 {
        s := MasterFunc(() => Urls.RelativeUrl("proxy_playlist", [("alist_path", ap), ("api_key", apiKey), ("template_id", tid), ("type", "main")]), apiKey);
        return;
      }
      s := ContentFunc((idx, _) => Urls.RelativeUrl("proxy_ts", [("alist_path", ap), ("api_key", apiKey), ("idx", Urls.Itoa(idx)), ("template_id", tid)]));
    }

    /** Adopt: copy the base, the three buckets and the given subtitles of `other`, stamped `now`. */
    method Adopt(other: Info, subs: seq<SubtitleInfo>, now: int)
      requires other != this
      modifies this
      ensures Holds(other.remoteBase, Scan(other.headComments, other.tailComments, other.remoteTsInfos, []))
      ensures subtitles == subs && lastUpdate == now
      ensures unchanged(this`alistPath, this`templateId, this`remote)
    {
      remoteBase := other.remoteBase;
      headComments := other.headComments;
      tailComments := other.tailComments;
      remoteTsInfos := other.remoteTsInfos;
      subtitles := subs;
      lastUpdate := now;
    }

    /**
     * UpdateContent: reload the playlist of the storage path and template. The one-shot address
     * is consumed whenever the object is configured; on success the base, the three buckets, the
     * subtitles and the update time are replaced together, and on failure none of them changes.
     * `now` is the current time in milliseconds.
     */
    method UpdateContent(tags: TagSets, valid: set<string>, fetch: string -> Reply, fetchResource: (string, string) -> ResourceReply, now: int)
      returns (err: Option<UpdateError>)
      modifies this
      ensures err.None? <==> Refresh(tags, valid, fetch, fetchResource, old(alistPath), old(templateId), old(remote)).Success?
      ensures err.Some? ==> err.value == Refresh(tags, valid, fetch, fetchResource, old(alistPath), old(templateId), old(remote)).error
      ensures err.Some? ==> unchanged(this`remoteBase, this`headComments, this`tailComments, this`remoteTsInfos, this`subtitles, this`lastUpdate)
      ensures err.None? ==> var out := Refresh(tags, valid, fetch, fetchResource, old(alistPath), old(templateId), old(remote)).value;
        Holds(out.0, out.1) && subtitles == out.2 && lastUpdate == now
      ensures alistPath == old(alistPath) && templateId == old(templateId)
      ensures old(alistPath) == "" || old(templateId) == "" ==> remote == old(remote)
      ensures old(alistPath) != "" && old(templateId) != "" ==> remote == ""
    {
      ghost var out := Refresh(tags, valid, fetch, fetchResource, alistPath, templateId, remote);
      if alistPath == "" || templateId == "" {
        return Some(NotConfigured);
      }

      // 1 the one-shot address, used once
      var newInfo: Info? := null;
      ghost var base: string, sc: Scan;
      if remote != "" {
        var r := NewByRemote(tags, valid, remote, fetch);
        if r.Success? {
          newInfo := r.value;
          base, sc := Remote(tags, valid, fetch, remote).value.0, Remote(tags, valid, fetch, remote).value.1;
        }
        remote := "";
      }
      assert remote == "";

      var subs: seq<SubtitleInfo> := [];
      if newInfo == null {
        // 2 the storage service's resource
        var res := fetchResource(alistPath, templateId);
        if res.code != 200 {
          return Some(FetchFailed(res.msg));
        }

        // 3 its playlist
        var r := NewByRemote(tags, valid, res.data.url, fetch);
        if r.Failure? {
          return Some(ParseFailed(res.data.url, r.error));
        }
        newInfo := r.value;
        subs := res.data.subtitles;
        base, sc := Remote(tags, valid, fetch, res.data.url).value.0, Remote(tags, valid, fetch, res.data.url).value.1;
      }
      assert newInfo != this && newInfo.Holds(base, sc) && out == Success((base, sc, subs));

      // 4 copy the new data
      Adopt(newInfo, subs, now);
      err := None;
    }
  }

  lemma RunSnoc(tags: TagSets, base: string, st: Scan, lines: seq<string>, i: nat)
    requires i < |lines|
    ensures Run(tags, base, st, lines[..i + 1]) == Step(tags, base, Run(tags, base, st, lines[..i]), lines[i])
  {
    assert lines[..i + 1][..i] == lines[..i];
  }

  /** The effect of one line on the scanner state, branch by branch as NewByContent tests them. */
  lemma StepCases(tags: TagSets, base: string, st: Scan, raw: string, line: string)
    requires line == Strs.TrimSpace(raw)
    ensures line == "" ==> Step(tags, base, st, raw) == st
    ensures line != "" && !IsDirective(line) ==>
      Step(tags, base, st, raw) == st.(segments := st.segments + [TsInfo(SegmentUrl(base, line), st.pending)], pending := [])
    ensures IsDirective(line) && TagOf(line) in tags.head ==>
      Step(tags, base, st, raw) == st.(head := st.head + [line])
    ensures IsDirective(line) && TagOf(line) !in tags.head && TagOf(line) in tags.tail ==>
      Step(tags, base, st, raw) == st.(tail := st.tail + [line])
    ensures IsDirective(line) && TagOf(line) !in tags.head && TagOf(line) !in tags.tail ==>
      Step(tags, base, st, raw) == st.(pending := st.pending + [line])
  {
  }

  /** The address a segment line is stored under: `baseUrl` and the '/' characters after it removed. */
  method StripBase(baseUrl: string, raw: string) returns (line: string)
    ensures line == SegmentUrl(baseUrl, raw)
  {
    line := raw;
    if baseUrl <= line {
      line := Strs.ReplaceFirst(line, baseUrl, "");
      while line != [] && line[0] == '/'
        invariant TrimSlashes(line) == SegmentUrl(baseUrl, raw)
        decreases |line|
      {
        line := line[1..];
      }
    }
  }

  /**
   * NewByContent: parse a playlist text whose relative segment addresses are resolved against
   * `baseUrl`. Directives still waiting for a segment when the text ends are dropped.
   */
  method NewByContent(tags: TagSets, baseUrl: string, content: string) returns (info: Info)
    ensures fresh(info)
    ensures info.Holds(baseUrl, Parse(tags, baseUrl, content))
    ensures info.subtitles == [] && info.alistPath == "" && info.templateId == "" && info.remote == ""
  {
    var lines := Strs.Lines(content);
    // the three buckets of the Info under construction, and the directives waiting for a segment
    var head, tail, segs, lineComments := [], [], [], [];
    for i := 0 to |lines|
      invariant Run(tags, baseUrl, EmptyScan, lines[..i]) == Scan(head, tail, segs, lineComments)
    {
      RunSnoc(tags, baseUrl, EmptyScan, lines, i);
      ghost var st := Scan(head, tail, segs, lineComments);
      var line := Strs.TrimSpace(lines[i]);
      if line == "" {
        assert Step(tags, baseUrl, st, lines[i]) == st by {
          StepCases(tags, baseUrl, st, lines[i], line);
        }
        continue;
      }

      // a segment line
      if !IsDirective(line) {
        assert Step(tags, baseUrl, st, lines[i]) == Scan(head, tail, segs + [TsInfo(SegmentUrl(baseUrl, line), lineComments)], []) by {
          StepCases(tags, baseUrl, st, lines[i], line);
        }
        line := StripBase(baseUrl, line);
        segs := segs + [TsInfo(line, lineComments)];
        lineComments := [];
        continue;
      }

      // a directive, filed by its tag
      var prefix := TagOf(line);
      if prefix in tags.head {
        assert Step(tags, baseUrl, st, lines[i]) == Scan(head + [line], tail, segs, lineComments) by {
          StepCases(tags, baseUrl, st, lines[i], line);
        }
        head := head + [line];
        continue;
      }
      if prefix in tags.tail {
        assert Step(tags, baseUrl, st, lines[i]) == Scan(head, tail + [line], segs, lineComments) by {
          StepCases(tags, baseUrl, st, lines[i], line);
        }
        tail := tail + [line];
        continue;
      }
      assert Step(tags, baseUrl, st, lines[i]) == Scan(head, tail, segs, lineComments + [line]) by {
        StepCases(tags, baseUrl, st, lines[i], line);
      }
      lineComments := lineComments + [line];
    }
    assert lines[..|lines|] == lines;
    info := new Info(baseUrl, head, tail, segs);
  }

  /** Where the query of an address starts: its first '?', or its end when it has none. */
  function QueryPos(url: string): (q: nat)
    ensures q <= |url| && '?' !in url[..q]
    ensures q < |url| ==> url[q] == '?'
  {
    match Strs.Index(url, "?")
    case None =>
      assert '?' !in url by {
        forall j | 0 <= j < |url| ensures url[j] != '?' {
          assert url[j..j + 1] == [url[j]] && !Strs.OccursAt(url, "?", j);
        }
      }
      assert url[..|url|] == url;
      |url|
    case Some(i) =>
      assert '?' !in url[..i] by {
        forall j | 0 <= j < i ensures url[j] != '?' {
          assert url[j..j + 1] == [url[j]] && !Strs.OccursAt(url, "?", j);
        }
      }
      assert url[i..i + 1] == "?";
      i
  }

  /**
   * The base address of a playlist address (step 1 of NewByRemote): the prefix up to and
   * including the last '/' before the query; there is none when no '/' precedes the query.
   */
  function BaseUrl(url: string): (r: Option<string>)
    ensures r.None? <==> '/' !in url[..QueryPos(url)]
    ensures r.Some? ==> var q := QueryPos(url);
      && r.value <= url[..q] && r.value != [] && r.value[|r.value| - 1] == '/'
      && '/' !in url[|r.value|..q]
  {
    var q := QueryPos(url);
    match Strs.LastIndexOf(url[..q], '/')
    case None => None
    case Some(p) =>
      assert url[p + 1..q] == url[..q][p + 1..];
      Some(url[..p + 1])
  }

  /** A base address is its own base address. */
  lemma BaseUrlIdempotent(url: string)
    requires BaseUrl(url).Some?
    ensures BaseUrl(BaseUrl(url).value) == BaseUrl(url)
  {
    var b := BaseUrl(url).value;
    var q := QueryPos(url);
    assert '?' !in b by {
      forall j | 0 <= j < |b| ensures b[j] != '?' {
        assert b[j] == url[..q][j];
      }
    }
    assert QueryPos(b) == |b|;
    assert b[..|b|] == b;
    assert b[|b|..|b|] == [];
  }

  /** What one GET of an address gives: nothing when the request fails, else the Content-Type header and the body, which may fail to read. */
  datatype Reply = Unreachable | Reply(contentType: string, body: Option<string>)

  datatype RemoteError = BadAddress | RequestFailed | NotPlaylist(contentType: string) | ReadFailed

  /**
   * NewByRemote as a value: the base address and what NewByContent parses from the body, or the
   * first step that failed. `fetch` stands for the HTTP GET, `valid` for ValidM3U8Contents.
   */
  function Remote(tags: TagSets, valid: set<string>, fetch: string -> Reply, url: string): Result<(string, Scan), RemoteError> {
    match BaseUrl(url)
    case None => Failure(BadAddress)
    case Some(base) =>
      match fetch(url)
      case Unreachable => Failure(RequestFailed)
      case Reply(contentType, body) =>
        if contentType !in valid then Failure(NotPlaylist(contentType))
        else if body.None? then Failure(ReadFailed)
        else Success((base, Parse(tags, base, body.value)))
  }

  /** NewByRemote: derive the base address, fetch the playlist, check its type and parse it. */
  method NewByRemote(tags: TagSets, valid: set<string>, url: string, fetch: string -> Reply) returns (r: Result<Info, RemoteError>)
    ensures r.Failure? <==> Remote(tags, valid, fetch, url).Failure?
    ensures r.Failure? ==> r.error == Remote(tags, valid, fetch, url).error
    ensures r.Success? ==> fresh(r.value) && r.value.Holds(Remote(tags, valid, fetch, url).value.0, Remote(tags, valid, fetch, url).value.1)
    ensures r.Success? ==> r.value.subtitles == [] && r.value.alistPath == "" && r.value.templateId == "" && r.value.remote == ""
  {
    // 1 the base address
    var q := QueryPos(url);
    var lastSep := Strs.LastIndexOf(url[..q], '/');
    if lastSep.None? {
      return Failure(BadAddress);
    }
    var baseUrl := url[..lastSep.value + 1];
    assert BaseUrl(url) == Some(baseUrl);

    // 2 the request
    var resp := fetch(url);
    if resp.Unreachable? {
      return Failure(RequestFailed);
    }

    // 3 a playlist reply
    if resp.contentType !in valid {
      return Failure(NotPlaylist(resp.contentType));
    }
    if resp.body.None? {
      return Failure(ReadFailed);
    }

    // 4 the playlist itself
    var info := NewByContent(tags, baseUrl, resp.body.value);
    assert Remote(tags, valid, fetch, url) == Success((baseUrl, Parse(tags, baseUrl, resp.body.value)));
    return Success(info);
  }

  /** The transcoding resource the storage service lists for a file: the playlist address and the subtitles. */
  datatype Resource = Resource(url: string, subtitles: seq<SubtitleInfo>)

  /** The storage service's reply: a status code, a message, and the resource. */
  datatype ResourceReply = ResourceReply(code: int, msg: string, data: Resource)

  datatype UpdateError = NotConfigured | FetchFailed(msg: string) | ParseFailed(url: string, cause: RemoteError)

  /**
   * What UpdateContent loads: the one-shot address first when there is one and it parses, with
   * no subtitles; otherwise the storage service's resource (`fetchResource` of the path and the
   * template) and its subtitles. The base, the parsed fields and the subtitles come as one value.
   */
  function Refresh(tags: TagSets, valid: set<string>, fetch: string -> Reply, fetchResource: (string, string) -> ResourceReply,
                   alistPath: string, templateId: string, remote: string): Result<(string, Scan, seq<SubtitleInfo>), UpdateError>
  {
    if alistPath == "" || templateId == "" then Failure(NotConfigured)
    else if remote != "" && Remote(tags, valid, fetch, remote).Success? then
      var (base, sc) := Remote(tags, valid, fetch, remote).value;
      Success((base, sc, []))
    else
      var res := fetchResource(alistPath, templateId);
      if res.code != 200 then Failure(FetchFailed(res.msg))
      else match Remote(tags, valid, fetch, res.data.url)
        case Failure(e) => Failure(ParseFailed(res.data.url, e))
        case Success((base, sc)) => Success((base, sc, res.data.subtitles))
  }

  /** A configured object whose one-shot address parses loads it, with no subtitles, whatever the storage service would say. */
  lemma RefreshPrefersRemote(tags: TagSets, valid: set<string>, fetch: string -> Reply, fetchResource: (string, string) -> ResourceReply,
                             alistPath: string, templateId: string, remote: string)
    requires alistPath != "" && templateId != "" && remote != "" && Remote(tags, valid, fetch, remote).Success?
    ensures Refresh(tags, valid, fetch, fetchResource, alistPath, templateId, remote)
      == Success((Remote(tags, valid, fetch, remote).value.0, Remote(tags, valid, fetch, remote).value.1, []))
  {
  }

  /** Subtitles are only ever loaded from the storage service's resource, together with its playlist. */
  lemma RefreshSubtitlesFromResource(tags: TagSets, valid: set<string>, fetch: string -> Reply, fetchResource: (string, string) -> ResourceReply,
                                     alistPath: string, templateId: string, remote: string)
    requires Refresh(tags, valid, fetch, fetchResource, alistPath, templateId, remote).Success?
    requires Refresh(tags, valid, fetch, fetchResource, alistPath, templateId, remote).value.2 != []
    ensures var res := fetchResource(alistPath, templateId);
      && res.code == 200
      && Refresh(tags, valid, fetch, fetchResource, alistPath, templateId, remote)
         == Success((Remote(tags, valid, fetch, res.data.url).value.0, Remote(tags, valid, fetch, res.data.url).value.1, res.data.subtitles))
  {
  }
}
