# dplot in Dafny

`dplot` turns an in-memory figure into the lines of a LaTeX/pgfplots document.
A figure has four axis slots (`t`, `b` for x axes, `l`, `r` for y axes), each
either unset or configured by an `AxisSetup`. It also has series (`Data`)
bound to one x slot and one y slot, a legend setup and a few layout strings.
This project models, and proves properties of:

- **The figure objects.** `Dplot.Data` and `Dplot.Figure` are classes.
  - `Figure.add` hands out sequential ids and appends to `plot_data`.
  - `Data.__init__` checks the sample lengths.
  - `Data.cfg_marker` derives the marker repeat and phase.
- **The validator and auto-range resolver `Figure._validate`.**
  - `Ranges` specifies it as functions on values: `CheckSeries`, `Resolve` and `Validated`.
  - `Figure.Validate` runs its two loops in place on the `axes` map and is proved to agree with `Validated`.
  - The scan keeps the source's seeds: `mn = float_info.max` and `mx = -float_info.min`, both written out as exact reals.
- **The axis helpers** `get_axis_pos`, `get_axis_kind`, `get_opposite_axis_kind` and `get_opposite_axis` (module `Axes`).
- **The emitter `_LatexOutput`.**
  - `LatexOutput` defines each part of the document as a function of a read-only figure snapshot `FigureState` and of a number formatter `fmt`. `fmt` stands for `__fmt_flt`, `f'{x:.20e}'`.
  - It has one method per `__create_*` loop, each proved to build exactly its part. `Exec` builds the whole `Document`.
  - `LatexProps`, `PlotProps` and `DocumentProps` prove what the document contains:
    - the parts in order;
    - one block per configured slot in key order in each layer, with the background fill on the first;
    - one `\label{dplot:<id>}` per series, in plot-group order, which is a permutation of the series;
    - pairwise distinct labels when ids are distinct;
    - legend entries that match the plots, present exactly when the legend is enabled;
    - the style flags `only marks`, `no markers` and `restrict y to domain` exactly under their conditions.
- **The pure part of `Figure.export`** (module `Export`):
  - the type closure SVG ⇒ PDF ⇒ LATEX;
  - the order of the conversion steps;
  - the error for no types;
  - the returned paths, one per requested type, in request order;
  - which output files remain afterwards.

Two behaviours of the automatic limits are worth knowing; the model states both:

- An axis that is configured, has no limits and is used by no series still
  gets limits: the seeds `(float_info.max, -float_info.min)`, which are
  inverted (`Ranges.UnusedAxisInverted`). Being unused is not a failure of
  `_validate`; such an axis still fails on a grid without ticks, like any
  other auto axis (`Ranges.UnusedAxisValidated`).
- The maximum is seeded with `-float_info.min`, a tiny negative number, not
  with `-float_info.max`. So when every scaled sample of an axis is below that
  seed, the upper limit is the seed, not the largest sample
  (`Ranges.NegativeDataMaxIsSeed`).

Errors that the source raises as exceptions are values of `Setup.Error`:

- `AssertionError` for an unset axis, empty data and a length mismatch;
- `RuntimeError` for a grid without ticks and for an export without types;
- `ZeroDivisionError` for zero markers.

Operations that can raise return `Result` or `Outcome` (module `Wrappers`).

## Model

| member | source | states |
|---|---|---|
| Axes.Rank | dplot/dplot.py:215 | every slot has one position in the key order t, b, l, r of `Figure.axes` |
| Axes.AxisPos | dplot/dplot.py:333-342 | the position word of a slot is one of top, bottom, left, right |
| Axes.AxisKind | dplot/dplot.py:345-346 | a slot is of kind x exactly when it is an x slot, and of kind y exactly when it is a y slot |
| Axes.OppositeKind | dplot/dplot.py:349-350 | the opposite kind differs from the kind |
| Axes.OppositeAxis | dplot/dplot.py:353-362 | the opposite slot is another slot of the same kind |
| Axes.HelpersConsistent | dplot/dplot.py:333-362 | both opposites are involutions, and positions and keys tell slots apart; a slot and its opposite have different positions |
| Text.NatToString | dplot/dplot.py:598 | `str` of a natural number is a non-empty run of decimal digits with no leading zero |
| Text.ParseNatToString | dplot/dplot.py:598 | reading the digits back gives the number again |
| Text.NatToStringInjective | dplot/dplot.py:598 | different ids are written as different strings |
| Text.ParamLineIn | dplot/dplot.py:591 | an option line `  p,` is in a block exactly when `p` is among its parameters |
| Setup.LineStyleName | dplot/dplot.py:569 | a dash pattern is written as the empty word exactly for the empty style |
| Setup.Trunc | dplot/dplot.py:161-162 | `int(x)` truncates toward zero |
| Setup.RoundHalfEven | dplot/dplot.py:199 | `round` gives the nearest integer, with ties to the even one |
| Setup.Frac | dplot/dplot.py:199 | `x % 1` lies in [0, 1) |
| Setup.Repeat | dplot/dplot.py:198 | the marker repeat is the floor quotient: `q * m <= n < (q + 1) * m` |
| Setup.Phase | dplot/dplot.py:199 | the marker phase lies between 0 and one past the repeat |
| Setup.PhaseBounds | dplot/dplot.py:199 | the rounded phase of a fraction of the spacing lies between 0 and one past the floor of the spacing |
| Setup.MarkerSetup | dplot/dplot.py:195-200 | fails exactly for zero markers; otherwise changes only repeat and phase, with repeat the floor of samples over markers; zero samples means the series length |
| Ranges.FloatBounds | dplot/dplot.py:382-383 | the seeds: `float_info.min` is a positive fraction and `float_info.max` is large |
| Ranges.SeqMax | dplot/dplot.py:386 | `np.max` of a non-empty sequence is one of its samples and bounds them all |
| Ranges.SeqMin | dplot/dplot.py:387 | `np.min` of a non-empty sequence is one of its samples and is below them all |
| Ranges.ScanLimits | dplot/dplot.py:382-390 | the running min/max loop over the series computes `Scan` |
| Ranges.StepBounds | dplot/dplot.py:385-390 | one loop iteration keeps the running value or replaces it by the bound series' scaled extreme, never loosening it |
| Ranges.ScanMin | dplot/dplot.py:383-390 | the auto minimum is at most `float_info.max` and every bound series' scaled minimum is at least it; it is the seed or one of those minima |
| Ranges.ScanMax | dplot/dplot.py:382-390 | the auto maximum is at least `-float_info.min` and every bound series' scaled maximum is at most it; it is the seed or one of those maxima |
| Ranges.SeriesError | dplot/dplot.py:366-373 | a series passes exactly when both its axes are configured and both its sequences are non-empty |
| Ranges.CheckSeries | dplot/dplot.py:366-373 | the first loop passes exactly when every series passes; a failure is the error of one of the series |
| Ranges.Resolve | dplot/dplot.py:375-394 | the second loop keeps the set of keys of the axes |
| Ranges.Validated | dplot/dplot.py:365-394 | `_validate` keeps the set of keys of the axes |
| Ranges.ResolveFrame | dplot/dplot.py:380-391 | the resolver writes only `limits`, and axes with explicit limits or outside the scanned slots are untouched |
| Ranges.ResolveLimits | dplot/dplot.py:381-391 | after a successful pass every auto axis holds the limits of its scan |
| Ranges.ResolveOutcome | dplot/dplot.py:381-394 | the resolver passes exactly when no auto axis has a major grid without ticks; a failure names such an axis; explicit-limit axes are never checked |
| Ranges.ValidatedFrame | dplot/dplot.py:380-391 | `_validate` writes only limits and never overwrites explicit limits, whether it passes or fails |
| Ranges.ValidatedOutcome | dplot/dplot.py:365-394 | `_validate` passes exactly when every series uses configured axes and is non-empty and no auto axis has a grid without ticks; each failure names its cause |
| Ranges.ValidatedLimits | dplot/dplot.py:365-394 | after a successful `_validate` every configured axis has limits, the auto ones exactly their scan, and every series uses configured axes |
| Ranges.ValidatedIdempotent | dplot/dplot.py:380-381 | running `_validate` again after it passed passes and leaves the axes unchanged |
| Ranges.UnusedAxisInverted | dplot/dplot.py:382-391 | the scan of an axis no series uses ends at the seeds `(float_info.max, -float_info.min)`, whose lower end exceeds the upper |
| Ranges.UnusedAxisValidated | dplot/dplot.py:365-394 | when `_validate` passes, an unused auto axis has the inverted seeds as its limits; a grid without ticks on it still fails, and a grid-without-ticks failure naming it means it has one |
| Ranges.NegativeDataMaxIsSeed | dplot/dplot.py:382 | when every bound scaled maximum is below `-float_info.min`, the auto maximum is that seed |
| Ranges.ScaledRangeExample | dplot/dplot.py:384-391 | two series with samples in [0, 10] and [5, 20] on one axis of scale 2 get limits (0, 40) |
| LatexOutput.YDomain | dplot/dplot.py:421-434 | no domain exactly for unset limits or a log axis; otherwise the domain contains the axis window and keeps the signs of the limits |
| LatexOutput.Selected | dplot/dplot.py:538 | a series is in a plot group exactly when it is a series of the figure on those two axes |
| LatexOutput.Rows | dplot/dplot.py:595-596 | row `i` of the table is the formatted pair `dx[i] dy[i]` |
| LatexOutput.ZipLength | dplot/dplot.py:595 | `zip` stops at the shorter sequence |
| LatexOutput.Entries | dplot/dplot.py:657-659 | one legend entry per series, in `plot_data` order |
| LatexOutput.CreatePadding | dplot/dplot.py:464-490 | the padding loop builds `Padding` |
| LatexOutput.CreateBackground | dplot/dplot.py:492-531 | the background loop with its fill flag builds `Background` |
| LatexOutput.CreateOverlay | dplot/dplot.py:604-627 | the overlay loop builds `Overlay` |
| LatexOutput.CreatePlotContent | dplot/dplot.py:564-599 | the row loop of one plot builds `PlotContent` |
| LatexOutput.CreatePlotContents | dplot/dplot.py:541-542 | the loop over the selected series builds their plots in order |
| LatexOutput.CreateGroupAxis | dplot/dplot.py:539-543 | the body of a non-empty plot group is its begin, its plots and its end |
| LatexOutput.CreatePlotGroup | dplot/dplot.py:533-544 | `__create_plot_group` builds `PlotGroup` |
| LatexOutput.CreateLegend | dplot/dplot.py:629-661 | the entry loop builds `Legend` |
| LatexOutput.CreateGroups | dplot/dplot.py:412-414 | the nested loop builds the plot groups in the order t/l, t/r, b/l, b/r |
| LatexOutput.Exec | dplot/dplot.py:408-419 | `exec` builds `Document` |
| LatexProps.PreambleTags | dplot/dplot.py:443-444 | the fixed preamble holds no structural line |
| LatexProps.DocBeginTags | dplot/dplot.py:439-450 | the document header holds no structural line |
| LatexProps.DocEndTags | dplot/dplot.py:663-667 | the footer holds no structural line |
| LatexProps.AxisBlockTags | dplot/dplot.py:489 | a layer block contributes exactly its opening line |
| LatexProps.LayerTags | dplot/dplot.py:469-489 | a layer holds the opening lines of the blocks of the configured slots, in key order |
| LatexProps.PaddingTags | dplot/dplot.py:464-490 | the padding layer holds one block line per configured slot, in key order |
| LatexProps.BackgroundTags | dplot/dplot.py:492-531 | the background layer holds one block line per configured slot, in key order |
| LatexProps.OverlayTags | dplot/dplot.py:604-627 | the overlay layer holds one block line per configured slot, in key order |
| LatexProps.PlotBeginTags | dplot/dplot.py:546-562 | the opening of a plot group's axis holds no structural line |
| LatexProps.PlotContentTags | dplot/dplot.py:564-599 | a plot holds exactly one label line, its own |
| LatexProps.ContentsTags | dplot/dplot.py:541-542 | the plots of a group hold the labels of its series, in order |
| LatexProps.GroupAxisTags | dplot/dplot.py:539-543 | the axis environment of a group holds the labels of its series, in order |
| LatexProps.PlotGroupTags | dplot/dplot.py:533-544 | a plot group holds the labels of the series it selects, in `plot_data` order |
| LatexProps.RowTags | dplot/dplot.py:413-414 | the groups of one x slot hold its series' labels, the `l` group first |
| LatexProps.GroupsTags | dplot/dplot.py:412-414 | all plot groups hold one label per series, in plot order |
| LatexProps.EntryTags | dplot/dplot.py:659 | a legend entry is an entry line and nothing else |
| LatexProps.EntriesTags | dplot/dplot.py:657-659 | the entries are one entry line per series, in order |
| LatexProps.LegendTags | dplot/dplot.py:629-661 | the legend holds its banner and one entry per series, in order |
| LatexProps.DocumentBounds | dplot/dplot.py:408-419 | the document starts with the whole preamble of `__create_doc_begin` and its last two lines are `\end{tikzpicture}` and `\end{document}` |
| LatexProps.DocumentTags | dplot/dplot.py:408-419 | the whole document: labels in plot order; the same block lines in each of the three layers; legend banner and entries exactly when the legend is enabled |
| PlotProps.FlagsIn | dplot/dplot.py:567-579 | `only marks` is an option exactly for the empty line style, and `no markers` exactly for the empty marker |
| PlotProps.OnlyMarksIff | dplot/dplot.py:576-577 | the line `  only marks,` is written exactly when the line style is empty |
| PlotProps.NoMarkersIff | dplot/dplot.py:578-579 | the line `  no markers,` is written exactly when the marker is empty |
| PlotProps.RestrictIff | dplot/dplot.py:580-581 | the restriction line is written exactly when there is a y domain; it names that domain, which contains the axis window |
| PlotProps.TableRows | dplot/dplot.py:595-596 | a series of equal-length samples gets `len(dx)` table rows, row `i` holding sample `i` |
| PlotProps.IdStringInjective | dplot/dplot.py:598 | `str(_id)` tells ids apart, and an id never reads as `None` |
| PlotProps.LabelLineInjective | dplot/dplot.py:598 | two label lines agree exactly when their ids do |
| PlotProps.PlotGroupShape | dplot/dplot.py:533-544 | a group always opens with its header; an axis environment follows exactly when some series is selected, and then closes the group |
| DocumentProps.RowSeriesSnoc | dplot/dplot.py:538 | an added series joins the row of its x slot and no other |
| DocumentProps.PlotOrderPermutation | dplot/dplot.py:412-414 | every series lies in exactly one plot group: plot order is a permutation of `plot_data` |
| DocumentProps.LabelLinesPermutation | dplot/dplot.py:598 | reordering the series reorders their labels |
| DocumentProps.SeriesLabelsDistinct | dplot/dplot.py:598 | series with distinct ids have distinct label lines |
| DocumentProps.DocumentLabelsArePlots | dplot/dplot.py:408-419 | the document holds one label line per series: the series' labels, as a multiset |
| DocumentProps.EveryPlotLabelled | dplot/dplot.py:598 | every series has its label line in the document |
| DocumentProps.DistinctLabels | dplot/dplot.py:598 | with distinct ids, the document's label lines are pairwise distinct |
| DocumentProps.LegendMatchesPlots | dplot/dplot.py:657-659 | with the legend on, entry `i` is that of series `i` and refers to a label line in the document; with it off, no entry and no banner |
| DocumentProps.LabelsBelongToSeries | dplot/dplot.py:598 | every label line of the document names one of the series |
| DocumentProps.ConfiguredSlotsOrdered | dplot/dplot.py:469 | the configured slots come in strictly increasing key order |
| DocumentProps.NoneConfiguredMeaning | dplot/dplot.py:497-508 | no slot before `n` is configured exactly when the list of configured slots before `n` is empty |
| DocumentProps.FillGoesFirst | dplot/dplot.py:497-508 | the background fill goes to a configured slot exactly when it is the first configured slot |
| DocumentProps.ParamLinesCount | dplot/dplot.py:591 | each option contributes one option line: a line occurs as often as its option |
| DocumentProps.ParamLineCount | dplot/dplot.py:530 | an option line occurs in an `axis` environment as often as its option among the options |
| DocumentProps.FillLineInParams | dplot/dplot.py:504-529 | the options of a background block hold the fill option once when given the fill flag, and otherwise not at all |
| DocumentProps.FillLineInBlock | dplot/dplot.py:504-530 | the block of a configured slot holds the line `  axis background/.style={fill=<color>},` once when handed the fill flag, otherwise not at all |
| DocumentProps.FillLineInLayer | dplot/dplot.py:497-508 | over the first `n` slots the background blocks hold the fill line once if any of them is configured, otherwise not at all |
| DocumentProps.SomeConfigured | dplot/dplot.py:498-500 | some slot is configured exactly when some axis is set |
| DocumentProps.BackgroundFillOnce | dplot/dplot.py:492-531 | the background layer holds the fill line exactly once when any axis is set, and not at all otherwise |
| DocumentProps.BackgroundFillFirst | dplot/dplot.py:497-508 | the block of a configured slot in the background layer holds the fill line exactly when the slot is the first configured one |
| DocumentProps.LayersFollowSlots | dplot/dplot.py:469-489 | each layer has one block per configured slot, none twice; block `i` belongs to configured slot `i`, in key order |
| Dplot.Data.constructor | dplot/dplot.py:185-193 | the fields are the arguments; no setup means the default one; no id yet |
| Dplot.Data.New | dplot/dplot.py:184-193 | construction fails exactly on a length mismatch, and otherwise yields a fresh series with those fields |
| Dplot.Data.CfgMarker | dplot/dplot.py:195-200 | the new line setup is that of `MarkerSetup`; zero markers fail and change nothing |
| Dplot.Views | dplot/dplot.py:216 | the snapshot of `plot_data` has one view per series, in order |
| Dplot.Figure.constructor | dplot/dplot.py:205-217 | every axis unset, no series, counter zero, ids equal to indices |
| Dplot.Figure.SetAxis | dplot/dplot.py:215 | configuring an axis updates that key of `axes` only |
| Dplot.Figure.Add | dplot/dplot.py:219-222 | the series gets the counter as its id; the counter grows by one; the series is appended; nothing else changes; ids stay equal to indices |
| Dplot.Figure.Plot | dplot/dplot.py:224-235 | fails exactly on a length mismatch, changing nothing; otherwise appends a fresh series with the next id |
| Dplot.Figure.CheckPlotData | dplot/dplot.py:366-373 | the first loop of `_validate` computes `CheckSeries` |
| Dplot.Figure.ResolveAxes | dplot/dplot.py:375-394 | the second loop of `_validate` leaves the outcome and axes of `Resolve` |
| Dplot.Figure.Validate | dplot/dplot.py:365-394 | `_validate` leaves the outcome and axes of `Validated`, and no series changes |
| Dplot.Figure.GetLatexCode | dplot/dplot.py:237-239 | fails exactly when validation fails; otherwise returns `Document` of the validated figure, whose labels are distinct when ids equal indices |
| Dplot.ValidatedReady | dplot/dplot.py:365-394 | a figure that passed `_validate` is one the emitter can run on |
| Export.RequiredExactly | dplot/dplot.py:247-251 | SVG is required exactly when requested; PDF when PDF or SVG is; LATEX whenever anything is |
| Export.RequiredLeast | dplot/dplot.py:247-251 | the required types hold the requested ones, are closed under SVG ⇒ PDF ⇒ LATEX, and are the least such set |
| Export.Steps | dplot/dplot.py:259-265 | the conversions run on exactly the required types, each after the one whose output it reads |
| Export.ExportPaths | dplot/dplot.py:242-246 | fails exactly when no type is given; otherwise one path per requested type, in request order |
| Export.OutputPathSuffix | dplot/dplot.py:254-256 | each output path ends in the extension of its type |
| Export.OutputPathInjective | dplot/dplot.py:274-279 | two returned paths agree exactly when their types do |
| Export.FilesAfterAreRequested | dplot/dplot.py:259-272 | after an export exactly the requested outputs remain, whatever was there before |

## Left out

- The external toolchain: `_cvt_latex_to_pdf` and `_cvt_pdf_to_svg` run `pdflatex`, `pdf2svg` and `scour` in subprocesses and temporary directories (dplot/dplot.py:284-330). `Export.Steps` and `Export.FilesAfter` model only which files the steps produce and remove.
- The file system side of `export`: `os.path.abspath`, `makedirs`, the write of the `.tex` file and the existence checks. `Export.PathJoin` takes the output directory as given.
- `Figure.show` and `_MatplotlibView`, an interactive matplotlib window.
- The digits of `__fmt_flt`: every number is written through the formatter parameter `fmt`, so properties are about structure, not digits.
- Floating-point arithmetic: samples, scales and limits are exact reals. The `round` and `%` of `cfg_marker` are modelled on reals with Python's semantics, not on doubles.
- The `AxisMode` enum (dplot/dplot.py:399-402): it is declared but nothing uses it.
- Illegal axis keys: the slots are a datatype, so the `assert axis in ...` of `_validate` always holds.
- Arbitrary objects where `export` expects an `ExportType`: the types are a datatype, so its `isinstance` assert always holds.
- Ranges.Resolve and Dplot.Figure.ResolveAxes: axis setups are values in the `axes` map, one per slot and figure. The source writes the detected limits into the `AxisSetup` object itself (dplot/dplot.py:391). When one object is shared by two figures, or by two slots such as `l` and `r`, the limits written for one are seen by the other. The model does not capture that sharing: it resolves each slot of each figure from its own value.
- Aliasing of line setups: `Data.ls` is a value, so two series sharing one `LineSetup` object and `cfg_marker` on one of them changing both is not captured.
- Aliasing of series: `Figure.Add` keeps ids equal to indices only for a series not yet in the figure. Adding the same object twice is allowed, as in the source, but then the invariant is not claimed.
- Dplot.Figure.GetLatexCode: it returns the lines as the function `Document`, which `LatexOutput.Exec` is proved to build, rather than calling `Exec`.
- `Data.cfg_marker` returning `self` for chaining, and `Figure.plot` returning the new series object: the model returns the series or an outcome value instead.
- The tests and `setup.py`: the tests compare rendered images with external tools and call a method `create_latex` that `dplot.py` does not define.
