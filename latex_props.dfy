/**
 * Properties of the emitted document as a whole. Four kinds of line identify
 * its structure: the `\label{dplot:...}` line that closes each plot, the
 * `\addlegendimage{...}` line of each legend entry, the `\begin{axis}% <slot>-axis`
 * line that opens each layer block, and the `% legend %` banner. `Tags` picks
 * out these lines, and the lemmas below say exactly which of them every part
 * of the document contributes, ending with the whole document.
 */
module LatexProps {
  import opened Wrappers
  import opened Text
  import opened Axes
  import opened Setup
  import opened LatexOutput

  const LabelTag: string := LabelPrefix
  const EntryTag: string := EntryPrefix
  const BlockTag: string := BlockPrefix
  const LegendTag: string := "% legend %"

  /** The lines of each kind, in document order. */
  datatype Tally = Tally(labels: seq<string>, entries: seq<string>, blocks: seq<string>, legends: seq<string>)

  const NoTags: Tally := Tally([], [], [], [])

  function Plus(a: Tally, b: Tally): Tally
  {
    Tally(a.labels + b.labels, a.entries + b.entries, a.blocks + b.blocks, a.legends + b.legends)
  }

  function Tags(lines: seq<string>): Tally
  {
    Tally(Select(lines, LabelTag), Select(lines, EntryTag), Select(lines, BlockTag), Select(lines, LegendTag))
  }

  lemma TagsAppend(a: seq<string>, b: seq<string>)
    ensures Tags(a + b) == Plus(Tags(a), Tags(b))
  {
    SelectAppend(a, b, LabelTag);
    SelectAppend(a, b, EntryTag);
    SelectAppend(a, b, BlockTag);
    SelectAppend(a, b, LegendTag);
  }

  predicate Tagless(line: string)
  {
    !StartsWith(line, LabelTag) && !StartsWith(line, EntryTag)
    && !StartsWith(line, BlockTag) && !StartsWith(line, LegendTag)
  }

  lemma TagsNone(lines: seq<string>)
    requires forall i :: 0 <= i < |lines| ==> Tagless(lines[i])
    ensures Tags(lines) == NoTags
  {
    SelectNone(lines, LabelTag);
    SelectNone(lines, EntryTag);
    SelectNone(lines, BlockTag);
    SelectNone(lines, LegendTag);
  }

  /** Lines whose first characters rule out all four kinds. */
  predicate Plain(line: string)
  {
    || |line| == 0
    || (line[0] != '\\' && line[0] != '%')
    || (line[0] == '\\' && |line| >= 2 && line[1] != 'l' && line[1] != 'a' && line[1] != 'b')
    || (line[0] == '%' && |line| >= 3 && line[2] != 'l')
  }

  lemma PlainTagless(line: string)
    requires Plain(line)
    ensures Tagless(line)
  {
    if |line| > 0 {
      if line[0] != '\\' && line[0] != '%' {
        NotPrefixAt(line, LabelTag, 0);
        NotPrefixAt(line, EntryTag, 0);
        NotPrefixAt(line, BlockTag, 0);
        NotPrefixAt(line, LegendTag, 0);
      } else if line[0] == '\\' {
        NotPrefixAt(line, LabelTag, 1);
        NotPrefixAt(line, EntryTag, 1);
        NotPrefixAt(line, BlockTag, 1);
        NotPrefixAt(line, LegendTag, 0);
      } else {
        NotPrefixAt(line, LabelTag, 0);
        NotPrefixAt(line, EntryTag, 0);
        NotPrefixAt(line, BlockTag, 0);
        NotPrefixAt(line, LegendTag, 2);
      }
    }
  }

  lemma PlainLines(lines: seq<string>)
    requires forall i :: 0 <= i < |lines| ==> Plain(lines[i])
    ensures Tags(lines) == NoTags
  {
    forall i | 0 <= i < |lines| ensures Tagless(lines[i]) {
      PlainTagless(lines[i]);
    }
    TagsNone(lines);
  }

  /** Option lines start with a blank and are never selected. */
  lemma ParamLinesTags(ps: seq<string>)
    ensures Tags(ParamLines(ps)) == NoTags
  {
    var lines := ParamLines(ps);
    assert forall i :: 0 <= i < |lines| ==> lines[i][0] == ' ';
    PlainLines(lines);
  }

  /** A banner whose title does not start with `l` holds no selected line. */
  lemma BannerTags(title: string)
    requires |title| > 0 && title[0] != 'l'
    ensures Tags(Banner(title)) == NoTags
  {
    var lines := Banner(title);
    assert lines[0][2] == '%' && lines[1][2] == title[0] && lines[2][2] == '%';
    PlainLines(lines);
  }

  /** A section header whose title does not start with `l` holds no selected line. */
  lemma SectionTags(title: string)
    requires |title| > 0 && title[0] != 'l'
    ensures Tags(Section(title)) == NoTags
  {
    BannerTags(title);
    PlainLines([""]);
    TagsAppend([""], Banner(title));
  }

  /** Of a section header, only its middle line `% title %` can be selected. */
  lemma SectionLineTags(title: string)
    ensures Tags(Section(title)) == Tags(["% " + title + " %"])
  {
    var bar := Bar(|title| + 4);
    var line := "% " + title + " %";
    assert bar[2] == '%';
    PlainLines([""]);
    PlainLines([bar]);
    TagsAppend([""], [bar]);
    TagsAppend([""] + [bar], [line]);
    TagsAppend([""] + [bar] + [line], [bar]);
    assert Section(title) == [""] + [bar] + [line] + [bar];
  }

  /** The legend banner line is selected as a legend line only. */
  lemma LegendLineTags()
    ensures Tags([LegendTag]) == Tally([], [], [], [LegendTag])
  {
    NotPrefixAt(LegendTag, LabelTag, 0);
    NotPrefixAt(LegendTag, EntryTag, 0);
    NotPrefixAt(LegendTag, BlockTag, 0);
    SelectOne(LegendTag, LabelTag);
    SelectOne(LegendTag, EntryTag);
    SelectOne(LegendTag, BlockTag);
    SelectOne(LegendTag, LegendTag);
  }

  /** The legend's section header holds the legend banner and nothing else. */
  lemma LegendSectionTags()
    ensures Tags(Section("legend")) == Tally([], [], [], [LegendTag])
  {
    SectionLineTags("legend");
    assert "% " + "legend" + " %" == LegendTag;
    LegendLineTags();
  }

  /** A line that opens with a backslash command other than `\l…`, `\a…` or `\b…`. */
  lemma CommandPlain(head: string, rest: string)
    requires |head| >= 2 && head[0] == '\\' && head[1] != 'l' && head[1] != 'a' && head[1] != 'b'
    ensures Plain(head + rest)
  {
    assert (head + rest)[0] == head[0] && (head + rest)[1] == head[1];
  }

  /** A `\begin{...}` line for an environment other than `axis`. */
  lemma BeginTagless(env: string)
    requires |env| > 0 && env[0] != 'a'
    ensures Tagless(@"\begin{" + env)
  {
    var line := @"\begin{" + env;
    assert line[1] == 'b' && line[7] == env[0];
    NotPrefixAt(line, LabelTag, 1);
    NotPrefixAt(line, EntryTag, 1);
    NotPrefixAt(line, BlockTag, 7);
    NotPrefixAt(line, LegendTag, 0);
  }

  /** A command line whose name does not start with `l`, `a` or `b`. */
  lemma NamedCommandPlain(name: string, args: string)
    requires |name| > 0 && name[0] != 'l' && name[0] != 'a' && name[0] != 'b'
    ensures Plain(Command(name, args))
  {
    var line := Command(name, args);
    assert line == @"\" + name + args;
    assert line[0] == '\\' && line[1] == name[0];
  }

  lemma PreambleTags()
    ensures Tags(DocClassLines + AfterDocClassLines) == NoTags
  {
    var L := AfterDocClassLines;
    forall i | 0 <= i < |L| ensures Plain(L[i]) {
      if i == 0 || i == 3 || i == 4 {
        NamedCommandPlain("usepackage", L[i][11..]);
      } else if i == 1 {
        NamedCommandPlain("sisetup", L[i][8..]);
      } else if i == 2 || i == 6 {
        NamedCommandPlain("usetikzlibrary", L[i][15..]);
      } else if i == 5 {
        NamedCommandPlain("pgfplotsset", L[i][12..]);
      } else if i == 7 || i == 8 || i == 9 {
        NamedCommandPlain("PreviewEnvironment", L[i][19..]);
      } else {
        NamedCommandPlain("newlength", L[i][10..]);
      }
    }
    PlainLines(L);
    NamedCommandPlain("documentclass", "[class=IEEEtran]{standalone}");
    PlainLines(DocClassLines);
    TagsAppend(DocClassLines, L);
  }

  lemma PictureBeginTags(v: FigureState)
    ensures Tags(PictureBegin(v)) == NoTags
  {
    var lines := PictureBegin(v);
    BeginTagless("document}");
    BeginTagless(@"tikzpicture}[font=\normalsize]");
    CommandPlain(@"\setlength", @"\figurewidth{" + v.width + "}");
    CommandPlain(@"\setlength", @"\figureheight{" + v.height + "}");
    CommandPlain(@"\pgfplotsset", "{every axis/.append style={" + v.basicThickness + "},compat=1.18},");
    PlainTagless(lines[1]);
    PlainTagless(lines[2]);
    PlainTagless(lines[4]);
    TagsNone(lines);
  }

  /** The lines before the first section: banner, preamble, sizes and the picture's start. */
  lemma DocBeginTags(v: FigureState)
    ensures Tags(DocBegin(v)) == NoTags
  {
    var banner := Banner("auto-generated using dplot");
    BannerTags("auto-generated using dplot");
    PreambleTags();
    PictureBeginTags(v);
    TagsAppend(banner + DocClassLines + AfterDocClassLines, PictureBegin(v));
    TagsAppend(banner, DocClassLines + AfterDocClassLines);
    assert banner + DocClassLines + AfterDocClassLines == banner + (DocClassLines + AfterDocClassLines);
  }

  lemma DocEndTags()
    ensures Tags(DocEnd) == NoTags
  {
    CommandPlain(@"\end", "{tikzpicture}");
    CommandPlain(@"\end", "{document}");
    PlainLines(DocEnd);
  }

  /** A line that is none of the four kinds contributes nothing. */
  lemma PlainLine(line: string)
    requires Plain(line)
    ensures Tags([line]) == NoTags
  {
    PlainLines([line]);
  }

  /** The opening line of a plot group's or the legend's `axis` environment. */
  lemma BeginAxisTags()
    ensures Tags([@"\begin{axis}"]) == NoTags
  {
    var line := @"\begin{axis}";
    assert line[1] == 'b';
    NotPrefixAt(line, LabelTag, 1);
    NotPrefixAt(line, EntryTag, 1);
    NotPrefixAt(line, LegendTag, 0);
    TagsNone([line]);
  }

  lemma EndAxisTags()
    ensures Tags([@"\end{axis}"]) == NoTags
  {
    CommandPlain(@"\end", "{axis}");
    assert @"\end" + "{axis}" == @"\end{axis}";
    PlainLine(@"\end{axis}");
  }

  /** The first line of a layer block is a block line and nothing else. */
  lemma BlockLineTags(s: Slot)
    ensures Tags([BlockLine(s)]) == Tally([], [], [BlockLine(s)], [])
  {
    var line := BlockLine(s);
    assert line == BlockPrefix + (Key(s) + "-axis");
    PrefixStarts(BlockPrefix, Key(s) + "-axis");
    assert line[0] == '\\' && line[1] == 'b';
    NotPrefixAt(line, LabelTag, 1);
    NotPrefixAt(line, EntryTag, 1);
    NotPrefixAt(line, LegendTag, 0);
    SelectOne(line, LabelTag);
    SelectOne(line, EntryTag);
    SelectOne(line, BlockTag);
    SelectOne(line, LegendTag);
  }

  /** A layer block contributes exactly its first line. */
  lemma BlockOpenTags(s: Slot)
    ensures Tags([BlockLine(s), "["]) == Tally([], [], [BlockLine(s)], [])
  {
    BlockLineTags(s);
    PlainLine("[");
    TagsAppend([BlockLine(s)], ["["]);
    assert [BlockLine(s)] + ["["] == [BlockLine(s), "["];
  }

  lemma BlockCloseTags()
    ensures Tags(["]", @"\end{axis}"]) == NoTags
  {
    PlainLine("]");
    EndAxisTags();
    TagsAppend(["]"], [@"\end{axis}"]);
    assert ["]"] + [@"\end{axis}"] == ["]", @"\end{axis}"];
  }

  lemma AxisBlockTags(s: Slot, ps: seq<string>)
    ensures Tags(AxisBlock(s, ps)) == Tally([], [], [BlockLine(s)], [])
  {
    var head := [BlockLine(s), "["];
    var tail := ["]", @"\end{axis}"];
    BlockOpenTags(s);
    BlockCloseTags();
    ParamLinesTags(ps);
    TagsAppend(head, ParamLines(ps));
    TagsAppend(head + ParamLines(ps), tail);
  }

  /** The configured slots among the first `n` slots of `Figure.axes`, in key order. */
  function ConfiguredSlots(v: FigureState, n: nat): seq<Slot>
    requires n <= |AllSlots|
  {
    if n == 0 then []
    else ConfiguredSlots(v, n - 1) + (if AllSlots[n - 1] in v.axes then [AllSlots[n - 1]] else [])
  }

  /** The first line of each block of a layer. */
  function BlockLines(ss: seq<Slot>): seq<string>
  {
    if ss == [] then [] else BlockLines(ss[..|ss| - 1]) + [BlockLine(ss[|ss| - 1])]
  }

  lemma {:induction false} BlockLinesAppend(a: seq<Slot>, b: seq<Slot>)
    ensures BlockLines(a + b) == BlockLines(a) + BlockLines(b)
    decreases |b|
  {
    if b != [] {
      assert (a + b)[..|a + b| - 1] == a + b[..|b| - 1];
      BlockLinesAppend(a, b[..|b| - 1]);
    } else {
      assert a + b == a;
    }
  }

  /** Every slot of the figure has its block, in key order, and no slot has two. */
  lemma {:induction false} ConfiguredSlotsMeaning(v: FigureState, n: nat)
    requires n <= |AllSlots|
    ensures forall s :: s in ConfiguredSlots(v, n) <==> s in v.axes && s in AllSlots[..n]
    ensures forall i, j :: 0 <= i < j < |ConfiguredSlots(v, n)| ==> ConfiguredSlots(v, n)[i] != ConfiguredSlots(v, n)[j]
  {
    if n > 0 {
      ConfiguredSlotsMeaning(v, n - 1);
      assert AllSlots[..n] == AllSlots[..n - 1] + [AllSlots[n - 1]];
    }
  }

  /**
   * A layer whose block for each configured slot holds just that slot's block
   * line holds the block lines of the configured slots, in key order.
   */
  lemma {:induction false} LayerTags(v: FigureState, n: nat, block: (Slot, bool) --> seq<string>)
    requires n <= |AllSlots|
    requires forall s, first :: s in v.axes ==> block.requires(s, first)
    requires forall s, first :: s in v.axes ==> Tags(block(s, first)) == Tally([], [], [BlockLine(s)], [])
    ensures Tags(LayerBlocks(v, n, block)) == Tally([], [], BlockLines(ConfiguredSlots(v, n)), [])
  {
    if n > 0 {
      var s := AllSlots[n - 1];
      LayerTags(v, n - 1, block);
      if s in v.axes {
        TagsAppend(LayerBlocks(v, n - 1, block), block(s, NoneConfigured(v, n - 1)));
        BlockLinesAppend(ConfiguredSlots(v, n - 1), [s]);
        assert BlockLines([s]) == [BlockLine(s)];
      } else {
        assert ConfiguredSlots(v, n) == ConfiguredSlots(v, n - 1);
        assert LayerBlocks(v, n, block) == LayerBlocks(v, n - 1, block);
      }
    }
  }

  /** The padding layer: one block line per configured slot, in key order. */
  lemma PaddingTags(v: FigureState, fmt: real -> string)
    ensures Tags(Padding(v, fmt)) == Tally([], [], BlockLines(ConfiguredSlots(v, |AllSlots|)), [])
  {
    var block := PaddingBlock(v, fmt);
    forall s, first | s in v.axes ensures Tags(block(s, first)) == Tally([], [], [BlockLine(s)], []) {
      AxisBlockTags(s, PaddingParams(v, s, v.axes[s], fmt));
    }
    LayerTags(v, |AllSlots|, block);
    SectionTags("padding");
    TagsAppend(Section("padding"), LayerBlocks(v, |AllSlots|, block));
  }

  /** The background layer: one block line per configured slot, in key order. */
  lemma BackgroundTags(v: FigureState, fmt: real -> string)
    requires Ready(v)
    ensures Tags(Background(v, fmt)) == Tally([], [], BlockLines(ConfiguredSlots(v, |AllSlots|)), [])
  {
    var block := BackgroundBlock(v, fmt);
    forall s, first | s in v.axes ensures Tags(block(s, first)) == Tally([], [], [BlockLine(s)], []) {
      AxisBlockTags(s, BackgroundParams(v, s, v.axes[s], v.axes[s].limits.value, first, fmt));
    }
    LayerTags(v, |AllSlots|, block);
    SectionTags("background");
    TagsAppend(Section("background"), LayerBlocks(v, |AllSlots|, block));
  }

  /** The overlay layer: one block line per configured slot, in key order. */
  lemma OverlayTags(v: FigureState, fmt: real -> string)
    requires Ready(v)
    ensures Tags(Overlay(v, fmt)) == Tally([], [], BlockLines(ConfiguredSlots(v, |AllSlots|)), [])
  {
    var block := OverlayBlock(v, fmt);
    forall s, first | s in v.axes ensures Tags(block(s, first)) == Tally([], [], [BlockLine(s)], []) {
      AxisBlockTags(s, OverlayParams(v, s, v.axes[s], v.axes[s].limits.value, fmt));
    }
    LayerTags(v, |AllSlots|, block);
    SectionTags("overlay");
    TagsAppend(Section("overlay"), LayerBlocks(v, |AllSlots|, block));
  }

  /** The label line of each series. */
  const LabelOf: Series -> seq<string> := (d: Series) => [LabelLine(d.id)]

  /** The label lines of the series `ds`, in order. */
  function LabelLines(ds: seq<Series>): seq<string>
  {
    Concat(ds, |ds|, LabelOf)
  }

  /** The lines of a `Concat` over the first `n` elements, when there are at least `n`. */
  lemma {:induction false} ConcatPrefix<T>(a: seq<T>, b: seq<T>, n: nat, f: T -> seq<string>)
    requires n <= |a|
    ensures Concat(a + b, n, f) == Concat(a, n, f)
  {
    if n > 0 {
      ConcatPrefix(a, b, n - 1, f);
      assert (a + b)[n - 1] == a[n - 1];
    }
  }

  lemma {:induction false} ConcatAppend<T>(a: seq<T>, b: seq<T>, n: nat, f: T -> seq<string>)
    requires n <= |b|
    ensures Concat(a + b, |a| + n, f) == Concat(a, |a|, f) + Concat(b, n, f)
  {
    if n == 0 {
      ConcatPrefix(a, b, |a|, f);
    } else {
      ConcatAppend(a, b, n - 1, f);
      assert (a + b)[|a| + n - 1] == b[n - 1];
    }
  }

  lemma LabelLinesAppend(a: seq<Series>, b: seq<Series>)
    ensures LabelLines(a + b) == LabelLines(a) + LabelLines(b)
  {
    ConcatAppend(a, b, |b|, LabelOf);
  }

  /** The `i`-th label line is that of the `i`-th series. */
  lemma {:induction false} LabelLinesMeaning(ds: seq<Series>, n: nat)
    requires n <= |ds|
    ensures |Concat(ds, n, LabelOf)| == n
    ensures forall i :: 0 <= i < n ==> Concat(ds, n, LabelOf)[i] == LabelLine(ds[i].id)
  {
    if n > 0 {
      LabelLinesMeaning(ds, n - 1);
    }
  }

  /**
   * A concatenation whose every part holds only label lines holds the parts'
   * label lines, in order.
   */
  lemma {:induction false} ConcatLabelTags<T>(xs: seq<T>, n: nat, f: T --> seq<string>, g: T -> seq<string>)
    requires n <= |xs| && forall i :: 0 <= i < n ==> f.requires(xs[i])
    requires forall i :: 0 <= i < n ==> Tags(f(xs[i])) == Tally(g(xs[i]), [], [], [])
    ensures Tags(Concat(xs, n, f)) == Tally(Concat(xs, n, g), [], [], [])
  {
    if n > 0 {
      ConcatLabelTags(xs, n - 1, f, g);
      TagsAppend(Concat(xs, n - 1, f), f(xs[n - 1]));
    }
  }

  /** The label line that closes a plot is a label line and nothing else. */
  lemma LabelLineTags(id: Option<nat>)
    ensures Tags([LabelLine(id)]) == Tally([LabelLine(id)], [], [], [])
  {
    var line := LabelLine(id);
    PrefixStarts(LabelPrefix, IdString(id));
    StartsWithAppend(LabelPrefix + IdString(id), "}", LabelPrefix);
    assert line[0] == '\\' && line[1] == 'l';
    NotPrefixAt(line, EntryTag, 1);
    NotPrefixAt(line, BlockTag, 1);
    NotPrefixAt(line, LegendTag, 0);
    SelectOne(line, LabelTag);
    SelectOne(line, EntryTag);
    SelectOne(line, BlockTag);
    SelectOne(line, LegendTag);
  }

  /** The opening of an `axis` environment with options, as plot groups and the legend write it. */
  lemma AxisOpenTags(ps: seq<string>)
    ensures Tags([@"\begin{axis}", "["] + ParamLines(ps) + ["]"]) == NoTags
  {
    BeginAxisTags();
    PlainLine("[");
    TagsAppend([@"\begin{axis}"], ["["]);
    assert [@"\begin{axis}"] + ["["] == [@"\begin{axis}", "["];
    ParamLinesTags(ps);
    TagsAppend([@"\begin{axis}", "["], ParamLines(ps));
    PlainLine("]");
    TagsAppend([@"\begin{axis}", "["] + ParamLines(ps), ["]"]);
  }

  /** The table rows of a plot start with a blank. */
  lemma RowsTags(dx: seq<real>, dy: seq<real>, n: nat, fmt: real -> string)
    requires n <= |dx| && n <= |dy|
    ensures Tags(Rows(dx, dy, n, fmt)) == NoTags
  {
    var rows := Rows(dx, dy, n, fmt);
    forall i | 0 <= i < |rows| ensures Plain(rows[i]) {
      assert rows[i] == Row(dx[i], dy[i], fmt);
      assert rows[i][0] == ' ';
    }
    PlainLines(rows);
  }

  /** The lines of one `\addplot` other than its label line. */
  lemma PlotBodyTags(d: Series, asx: AxisSetup, asy: AxisSetup, fmt: real -> string)
    ensures Tags([@"\addplot ["] + ParamLines(PlotParams(d, asy, fmt))
      + ["] table ["] + ParamLines(TableParams(asx, asy, fmt))
      + ["]{"] + Rows(d.dx, d.dy, ZipLength(d.dx, d.dy), fmt) + ["};"]) == NoTags
  {
    var line := @"\addplot [";
    assert line[1] == 'a' && line[4] == 'p';
    NotPrefixAt(line, LabelTag, 1);
    NotPrefixAt(line, EntryTag, 4);
    NotPrefixAt(line, BlockTag, 1);
    NotPrefixAt(line, LegendTag, 0);
    TagsNone([line]);
    var p1 := ParamLines(PlotParams(d, asy, fmt));
    var p2 := ParamLines(TableParams(asx, asy, fmt));
    var rows := Rows(d.dx, d.dy, ZipLength(d.dx, d.dy), fmt);
    ParamLinesTags(PlotParams(d, asy, fmt));
    ParamLinesTags(TableParams(asx, asy, fmt));
    RowsTags(d.dx, d.dy, ZipLength(d.dx, d.dy), fmt);
    PlainLine("] table [");
    PlainLine("]{");
    PlainLine("};");
    TagsAppend([line], p1);
    TagsAppend([line] + p1, ["] table ["]);
    TagsAppend([line] + p1 + ["] table ["], p2);
    TagsAppend([line] + p1 + ["] table ["] + p2, ["]{"]);
    TagsAppend([line] + p1 + ["] table ["] + p2 + ["]{"], rows);
    TagsAppend([line] + p1 + ["] table ["] + p2 + ["]{"] + rows, ["};"]);
  }

  /** A plot holds exactly one label line: its own, at its end. */
  lemma PlotContentTags(d: Series, asx: AxisSetup, asy: AxisSetup, fmt: real -> string)
    ensures Tags(PlotContent(d, asx, asy, fmt)) == Tally([LabelLine(d.id)], [], [], [])
  {
    var body := [@"\addplot ["] + ParamLines(PlotParams(d, asy, fmt))
      + ["] table ["] + ParamLines(TableParams(asx, asy, fmt))
      + ["]{"] + Rows(d.dx, d.dy, ZipLength(d.dx, d.dy), fmt) + ["};"];
    PlotBodyTags(d, asx, asy, fmt);
    LabelLineTags(d.id);
    TagsAppend(body, [LabelLine(d.id)]);
    assert PlotContent(d, asx, asy, fmt) == body + [LabelLine(d.id)];
  }

  lemma PlotBeginTags(v: FigureState, asx: AxisSetup, asy: AxisSetup, fmt: real -> string)
    requires asx.limits.Some? && asy.limits.Some?
    ensures Tags(PlotBegin(v, asx, asy, fmt)) == NoTags
  {
    AxisOpenTags(PlotBeginParams(v, asx, asy, fmt));
  }

  /** The plots of the series `sel` hold their label lines, in order. */
  lemma ContentsTags(sel: seq<Series>, asx: AxisSetup, asy: AxisSetup, fmt: real -> string)
    ensures Tags(Concat(sel, |sel|, ContentOf(asx, asy, fmt))) == Tally(LabelLines(sel), [], [], [])
  {
    var f := ContentOf(asx, asy, fmt);
    forall i | 0 <= i < |sel| ensures Tags(f(sel[i])) == Tally(LabelOf(sel[i]), [], [], []) {
      PlotContentTags(sel[i], asx, asy, fmt);
    }
    ConcatLabelTags(sel, |sel|, f, LabelOf);
  }

  /** An `axis` environment opened by tagless lines and closed by `\end{axis}` holds the labels of its body. */
  lemma AxisCloseTags(begin: seq<string>, body: seq<string>, labels: seq<string>)
    requires Tags(begin) == NoTags && Tags(body) == Tally(labels, [], [], [])
    ensures Tags(begin + body + [@"\end{axis}"]) == Tally(labels, [], [], [])
  {
    EndAxisTags();
    TagsAppend(begin, body);
    TagsAppend(begin + body, [@"\end{axis}"]);
  }

  /** The `axis` environment of a group holds the label lines of its series, in the order of `sel`. */
  lemma GroupAxisTags(v: FigureState, sel: seq<Series>, asx: AxisSetup, asy: AxisSetup, fmt: real -> string)
    requires asx.limits.Some? && asy.limits.Some?
    ensures Tags(GroupAxis(v, sel, asx, asy, fmt)) == Tally(LabelLines(sel), [], [], [])
  {
    PlotBeginTags(v, asx, asy, fmt);
    ContentsTags(sel, asx, asy, fmt);
    AxisCloseTags(PlotBegin(v, asx, asy, fmt), Concat(sel, |sel|, ContentOf(asx, asy, fmt)), LabelLines(sel));
  }

  lemma FilledGroupTags(v: FigureState, ax: XAxis, ay: YAxis, fmt: real -> string)
    requires Ready(v) && |Selected(v.series, ax, ay)| > 0
    ensures Tags(PlotGroup(v, ax, ay, fmt)) == Tally(LabelLines(Selected(v.series, ax, ay)), [], [], [])
  {
    var sel := Selected(v.series, ax, ay);
    assert sel[0] in sel;
    var axis := GroupAxis(v, sel, v.axes[ax], v.axes[ay], fmt);
    assert PlotGroup(v, ax, ay, fmt) == Section(GroupTitle(ax, ay)) + axis;
    assert GroupTitle(ax, ay)[0] == 'p';
    SectionTags(GroupTitle(ax, ay));
    GroupAxisTags(v, sel, v.axes[ax], v.axes[ay], fmt);
    TagsAppend(Section(GroupTitle(ax, ay)), axis);
  }

  lemma EmptyGroupTags(v: FigureState, ax: XAxis, ay: YAxis, fmt: real -> string)
    requires Ready(v) && |Selected(v.series, ax, ay)| == 0
    ensures Tags(PlotGroup(v, ax, ay, fmt)) == Tally(LabelLines(Selected(v.series, ax, ay)), [], [], [])
  {
    assert PlotGroup(v, ax, ay, fmt) == Section(GroupTitle(ax, ay));
    assert LabelLines(Selected(v.series, ax, ay)) == [];
    assert GroupTitle(ax, ay)[0] == 'p';
    SectionTags(GroupTitle(ax, ay));
  }

  /** A plot group holds the label lines of the series it selects, in the order they were added. */
  lemma PlotGroupTags(v: FigureState, ax: XAxis, ay: YAxis, fmt: real -> string)
    requires Ready(v)
    ensures Tags(PlotGroup(v, ax, ay, fmt)) == Tally(LabelLines(Selected(v.series, ax, ay)), [], [], [])
  {
    if |Selected(v.series, ax, ay)| > 0 {
      FilledGroupTags(v, ax, ay, fmt);
    } else {
      EmptyGroupTags(v, ax, ay, fmt);
    }
  }

  /** The series of the plot groups of x slot `ax`, as its row writes them: first with `l`, then with `r`. */
  function RowSeries(ss: seq<Series>, ax: XAxis): seq<Series>
  {
    Selected(ss, ax, L) + Selected(ss, ax, R)
  }

  /** The series in the order the document plots them: the groups t/l, t/r, b/l, b/r. */
  function PlotOrder(ss: seq<Series>): seq<Series>
  {
    RowSeries(ss, T) + RowSeries(ss, B)
  }

  function GroupLabels(ss: seq<Series>, ax: XAxis): YAxis -> seq<string>
  {
    (ay: YAxis) => LabelLines(Selected(ss, ax, ay))
  }

  function RowLabels(ss: seq<Series>): XAxis -> seq<string>
  {
    (ax: XAxis) => LabelLines(RowSeries(ss, ax))
  }

  lemma GroupLabelsRow(ss: seq<Series>, ax: XAxis)
    ensures Concat(YSlots, |YSlots|, GroupLabels(ss, ax)) == LabelLines(RowSeries(ss, ax))
  {
    var g := GroupLabels(ss, ax);
    assert YSlots[0] == L && YSlots[1] == R;
    assert Concat(YSlots, 1, g) == g(L);
    assert Concat(YSlots, 2, g) == g(L) + g(R);
    LabelLinesAppend(Selected(ss, ax, L), Selected(ss, ax, R));
  }

  lemma RowLabelsOrder(ss: seq<Series>)
    ensures Concat(XSlots, |XSlots|, RowLabels(ss)) == LabelLines(PlotOrder(ss))
  {
    var g := RowLabels(ss);
    assert XSlots[0] == T && XSlots[1] == B;
    assert Concat(XSlots, 1, g) == g(T);
    assert Concat(XSlots, 2, g) == g(T) + g(B);
    LabelLinesAppend(RowSeries(ss, T), RowSeries(ss, B));
  }

  /** The groups of one x slot hold the labels of its series, `l` group first. */
  lemma RowTags(v: FigureState, ax: XAxis, fmt: real -> string)
    requires Ready(v)
    ensures Tags(RowOf(v, fmt)(ax)) == Tally(LabelLines(RowSeries(v.series, ax)), [], [], [])
  {
    var f := GroupOf(v, ax, fmt);
    var g := GroupLabels(v.series, ax);
    forall i | 0 <= i < |YSlots| ensures Tags(f(YSlots[i])) == Tally(g(YSlots[i]), [], [], []) {
      PlotGroupTags(v, ax, YSlots[i], fmt);
    }
    ConcatLabelTags(YSlots, |YSlots|, f, g);
    GroupLabelsRow(v.series, ax);
  }

  /** All plot groups together hold one label line per series, in plot order. */
  lemma GroupsTags(v: FigureState, fmt: real -> string)
    requires Ready(v)
    ensures Tags(Concat(XSlots, |XSlots|, RowOf(v, fmt))) == Tally(LabelLines(PlotOrder(v.series)), [], [], [])
  {
    var f := RowOf(v, fmt);
    var g := RowLabels(v.series);
    forall i | 0 <= i < |XSlots| ensures Tags(f(XSlots[i])) == Tally(g(XSlots[i]), [], [], []) {
      RowTags(v, XSlots[i], fmt);
    }
    ConcatLabelTags(XSlots, |XSlots|, f, g);
    RowLabelsOrder(v.series);
  }

  /** A legend entry is an entry line and nothing else. */
  lemma EntryTags(d: Series)
    ensures Tags([Entry(d)]) == Tally([], [Entry(d)], [], [])
  {
    var a := "/pgfplots/refstyle=dplot:";
    var b := IdString(d.id);
    var c := @"}\addlegendentry{";
    var e := (if |d.labelText| > 0 then d.labelText else IdString(d.id)) + "}";
    var line := Entry(d);
    PrefixStarts(EntryPrefix, a);
    StartsWithAppend(EntryPrefix + a, b, EntryPrefix);
    StartsWithAppend(EntryPrefix + a + b, c, EntryPrefix);
    StartsWithAppend(EntryPrefix + a + b + c, e, EntryPrefix);
    assert line == EntryPrefix + a + b + c + e;
    assert line[0] == '\\' && line[1] == 'a';
    NotPrefixAt(line, LabelTag, 1);
    NotPrefixAt(line, BlockTag, 1);
    NotPrefixAt(line, LegendTag, 0);
    SelectOne(line, LabelTag);
    SelectOne(line, EntryTag);
    SelectOne(line, BlockTag);
    SelectOne(line, LegendTag);
  }

  /** The legend entries are entry lines, one per series, in the order the series were added. */
  lemma {:induction false} EntriesTags(ss: seq<Series>)
    ensures Tags(Entries(ss)) == Tally([], Entries(ss), [], [])
  {
    if ss != [] {
      var init := ss[..|ss| - 1];
      EntriesTags(init);
      EntryTags(ss[|ss| - 1]);
      TagsAppend(Entries(init), [Entry(ss[|ss| - 1])]);
    }
  }

  lemma LegendShape(head: seq<string>, open: seq<string>, body: seq<string>, t: Tally)
    requires Tags(open) == NoTags && Tags(head) == Tally([], [], [], t.legends)
    requires Tags(body) == Tally([], t.entries, [], [])
    ensures Tags(head + open + body + [@"\end{axis}"]) == Tally([], t.entries, [], t.legends)
  {
    EndAxisTags();
    TagsAppend(head, open);
    TagsAppend(head + open, body);
    TagsAppend(head + open + body, [@"\end{axis}"]);
  }

  /** The legend holds its banner and one entry per series, in the order the series were added. */
  lemma LegendTags(v: FigureState, fmt: real -> string)
    ensures Tags(Legend(v, fmt)) == Tally([], Entries(v.series), [], [LegendTag])
  {
    var open := [@"\begin{axis}", "["] + ParamLines(LegendParams(v, fmt)) + ["]"];
    assert Legend(v, fmt) == Section("legend") + open + Entries(v.series) + [@"\end{axis}"];
    LegendSectionTags();
    AxisOpenTags(LegendParams(v, fmt));
    EntriesTags(v.series);
    LegendShape(Section("legend"), open, Entries(v.series), Tally([], Entries(v.series), [], [LegendTag]));
  }

  /** How the tags of the seven parts of a document add up. */
  lemma DocumentShape(begin: seq<string>, pad: seq<string>, bg: seq<string>, groups: seq<string>,
                      over: seq<string>, legend: seq<string>, end: seq<string>,
                      blocks: seq<string>, labels: seq<string>, t: Tally)
    requires Tags(begin) == NoTags && Tags(end) == NoTags
    requires Tags(pad) == Tally([], [], blocks, []) && Tags(bg) == Tally([], [], blocks, [])
    requires Tags(over) == Tally([], [], blocks, [])
    requires Tags(groups) == Tally(labels, [], [], [])
    requires Tags(legend) == Tally([], t.entries, [], t.legends)
    ensures Tags(begin + pad + bg + groups + over + legend + end)
         == Tally(labels, t.entries, blocks + blocks + blocks, t.legends)
  {
    TagsAppend(begin, pad);
    TagsAppend(begin + pad, bg);
    TagsAppend(begin + pad + bg, groups);
    TagsAppend(begin + pad + bg + groups, over);
    TagsAppend(begin + pad + bg + groups + over, legend);
    TagsAppend(begin + pad + bg + groups + over + legend, end);
  }

  /** The tally of the legend when it is enabled, and of nothing otherwise. */
  function LegendTally(v: FigureState): Tally
  {
    if v.legend.enable then Tally([], Entries(v.series), [], [LegendTag]) else NoTags
  }

  lemma LegendPartTags(v: FigureState, fmt: real -> string)
    ensures Tags(if v.legend.enable then Legend(v, fmt) else []) == LegendTally(v)
  {
    if v.legend.enable {
      LegendTags(v, fmt);
    } else {
      TagsNone([]);
    }
  }

  lemma FramedByDocEnd(begin: seq<string>, a: seq<string>, b: seq<string>, c: seq<string>, d: seq<string>,
                        e: seq<string>)
    ensures var doc := begin + a + b + c + d + e + DocEnd;
      && |doc| >= |begin| + 2
      && doc[..|begin|] == begin
      && doc[|doc| - 2] == @"\end{tikzpicture}"
      && doc[|doc| - 1] == @"\end{document}"
  {
    var doc := begin + a + b + c + d + e + DocEnd;
    assert doc == begin + (a + b + c + d + e) + DocEnd;
    assert doc[..|begin|] == begin;
    assert doc[|doc| - 2..] == DocEnd;
    assert @"\end" + "{tikzpicture}" == @"\end{tikzpicture}";
    assert @"\end" + "{document}" == @"\end{document}";
  }

  /**
   * The document opens with the preamble and the `tikzpicture` header and
   * closes with the two `\end` lines, whatever lies between.
   */
  lemma DocumentBounds(v: FigureState, fmt: real -> string)
    requires Ready(v)
    ensures var doc := Document(v, fmt);
      && |doc| >= |DocBegin(v)| + 2
      && doc[..|DocBegin(v)|] == DocBegin(v)
      && doc[|doc| - 2] == @"\end{tikzpicture}"
      && doc[|doc| - 1] == @"\end{document}"
  {
    var begin, pad, bg := DocBegin(v), Padding(v, fmt), Background(v, fmt);
    var groups, over := Concat(XSlots, |XSlots|, RowOf(v, fmt)), Overlay(v, fmt);
    var legend := if v.legend.enable then Legend(v, fmt) else [];
    assert Document(v, fmt) == begin + pad + bg + groups + over + legend + DocEnd;
    FramedByDocEnd(begin, pad, bg, groups, over, legend);
  }

  /**
   * The structure of the whole document: one label line per series in plot
   * order, the same block line sequence in each of the three layers, and the
   * legend banner and one entry per series exactly when the legend is enabled.
   */
  lemma DocumentTags(v: FigureState, fmt: real -> string)
    requires Ready(v)
    ensures Tags(Document(v, fmt)) == Tally(
      LabelLines(PlotOrder(v.series)),
      LegendTally(v).entries,
      BlockLines(ConfiguredSlots(v, |AllSlots|)) + BlockLines(ConfiguredSlots(v, |AllSlots|))
        + BlockLines(ConfiguredSlots(v, |AllSlots|)),
      LegendTally(v).legends)
  {
    var begin, pad, bg := DocBegin(v), Padding(v, fmt), Background(v, fmt);
    var groups, over := Concat(XSlots, |XSlots|, RowOf(v, fmt)), Overlay(v, fmt);
    var legend := if v.legend.enable then Legend(v, fmt) else [];
    assert Document(v, fmt) == begin + pad + bg + groups + over + legend + DocEnd;
    DocBeginTags(v);
    PaddingTags(v, fmt);
    BackgroundTags(v, fmt);
    GroupsTags(v, fmt);
    OverlayTags(v, fmt);
    LegendPartTags(v, fmt);
    DocEndTags();
    DocumentShape(begin, pad, bg, groups, over, legend, DocEnd,
                  BlockLines(ConfiguredSlots(v, |AllSlots|)), LabelLines(PlotOrder(v.series)), LegendTally(v));
  }
}
