/**
 * The pure part of `Figure.export`: which output types have to be produced
 * for the requested ones, the order of the conversion steps, the returned
 * paths, and which of the three output files remain afterwards.
 */
module Export {
  import opened Wrappers
  import opened Setup

  datatype ExportType = Latex | Pdf | Svg

  const AllTypes: set<ExportType> := {Latex, Pdf, Svg}

  /** The file name of the output of type `t` for a figure called `name`. */
  function FileName(name: string, t: ExportType): string
  {
    name + match t
      case Latex => ".tex"
      case Pdf => ".pdf"
      case Svg => ".svg"
  }

  /** `os.path.join(dir, file)`: an absolute `file` replaces `dir`; otherwise one `/` separates them. */
  function PathJoin(dir: string, file: string): string
  {
    if |file| > 0 && file[0] == '/' then file
    else if dir == [] || dir[|dir| - 1] == '/' then dir + file
    else dir + "/" + file
  }

  /** `path_latex`, `path_pdf`, `path_svg`. */
  function OutputPath(dir: string, name: string, t: ExportType): string
  {
    PathJoin(dir, FileName(name, t))
  }

  /**
   * `required_types`: the requested types, then PDF when SVG is among them,
   * then LATEX when PDF is among them by now.
   */
  function Required(types: seq<ExportType>): set<ExportType>
  {
    var requested := set t | t in types;
    var withPdf := if Svg in requested then requested + {Pdf} else requested;
    if Pdf in withPdf then withPdf + {Latex} else withPdf
  }

  /**
   * Exactly what the conversion chain LATEX ⇒ PDF ⇒ SVG needs: SVG only when
   * asked for, PDF when PDF or SVG is asked for, LATEX whenever anything is.
   */
  lemma RequiredExactly(types: seq<ExportType>)
    ensures Svg in Required(types) <==> Svg in types
    ensures Pdf in Required(types) <==> Pdf in types || Svg in types
    ensures Latex in Required(types) <==> |types| > 0
  {
    if |types| > 0 {
      var t := types[0];
      assert t in types;
      match t
      case Latex =>
      case Pdf =>
      case Svg =>
    }
  }

  /** The required types are the least set holding the requested ones and closed under SVG ⇒ PDF ⇒ LATEX. */
  lemma RequiredLeast(types: seq<ExportType>, s: set<ExportType>)
    requires forall t :: t in types ==> t in s
    requires Svg in s ==> Pdf in s
    requires Pdf in s ==> Latex in s
    ensures (forall t :: t in types ==> t in Required(types))
    ensures Svg in Required(types) ==> Pdf in Required(types)
    ensures Pdf in Required(types) ==> Latex in Required(types)
    ensures Required(types) <= s
  {
  }

  /** The conversions in the order `export` runs them: write LATEX, then convert to PDF, then to SVG. */
  function Steps(types: seq<ExportType>): (r: seq<ExportType>)
    ensures forall t :: t in r <==> t in Required(types)
    ensures forall i :: 0 <= i < |r| && r[i] == Pdf ==> Latex in r[..i]
    ensures forall i :: 0 <= i < |r| && r[i] == Svg ==> Pdf in r[..i]
  {
    var req := Required(types);
    RequiredExactly(types);
    assert forall t :: t in req ==> t == Latex || t == Pdf || t == Svg;
    (if Latex in req then [Latex] else [])
    + (if Pdf in req then [Pdf] else [])
    + (if Svg in req then [Svg] else [])
  }

  /**
   * The returned tuple of `export`: one path per requested type, in request
   * order, repeats included; no types raise.
   */
  function ExportPaths(dir: string, name: string, types: seq<ExportType>): (r: Result<seq<string>, Error>)
    ensures r.Failure? <==> |types| == 0
    ensures r.Failure? ==> r.error == NoExportType
    ensures r.Success? ==> |r.value| == |types| && forall i :: 0 <= i < |types| ==> r.value[i] == OutputPath(dir, name, types[i])
  {
    if |types| == 0 then Failure(NoExportType)
    else Success(seq(|types|, i requires 0 <= i < |types| => OutputPath(dir, name, types[i])))
  }

  /** The last four characters of each output path name its type. */
  lemma OutputPathSuffix(dir: string, name: string, t: ExportType)
    ensures var p := OutputPath(dir, name, t);
      |p| >= 4 && p[|p| - 4..] == match t case Latex => ".tex" case Pdf => ".pdf" case Svg => ".svg"
  {
    var f := FileName(name, t);
    var p := OutputPath(dir, name, t);
    assert f[|f| - 4..] == match t case Latex => ".tex" case Pdf => ".pdf" case Svg => ".svg";
    assert p[|p| - 4..] == f[|f| - 4..];
  }

  /** Two returned paths agree exactly when they are for the same type. */
  lemma OutputPathInjective(dir: string, name: string, a: ExportType, b: ExportType)
    ensures OutputPath(dir, name, a) == OutputPath(dir, name, b) <==> a == b
  {
    OutputPathSuffix(dir, name, a);
    OutputPathSuffix(dir, name, b);
  }

  /**
   * The output files present after a successful `export`, given those present
   * before: the required ones are produced, then every type not requested is
   * removed if present.
   */
  function FilesAfter(before: set<ExportType>, types: seq<ExportType>): set<ExportType>
  {
    (before + Required(types)) - (AllTypes - set t | t in types)
  }

  /** Whatever was there before, exactly the requested outputs remain; intermediates are cleaned up. */
  lemma FilesAfterAreRequested(before: set<ExportType>, types: seq<ExportType>)
    ensures FilesAfter(before, types) == set t | t in types
  {
    RequiredExactly(types);
    var requested := set t | t in types;
    forall t ensures t in FilesAfter(before, types) <==> t in requested {
      assert t == Latex || t == Pdf || t == Svg;
    }
  }
}
