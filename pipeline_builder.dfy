/** The `PipelineBuilder` page's own rules around the editor: saving a
    pipeline name, the export file name and document, the import shape
    check, the Run button, and the keyboard and wheel dispatch. Files,
    downloads, `confirm` and `JSON.parse` are outside; an import arrives
    here already parsed, or as a parse failure. */
module PipelineBuilder {
  import opened Wrappers
  import opened Seqs
  import opened JsText
  import opened PipelineGraph
  import opened PipelineEditor

  const DefaultPipelineName: string := "My DevOps Pipeline"
  const InitialSaved: seq<string> := ["Production Deployment", "CI/CD Pipeline", "Test Environment"]

  // ---------------------------------------------------------------------
  // Saving (lines 1093-1105)

  datatype SaveOutcome = BlankName | Saved(names: seq<string>)

  /** `handleSavePipeline`: a name that trims to "" is refused; otherwise it
      is added (untrimmed) to the saved list unless already there. */
  function SavePipeline(name: string, saved: seq<string>): (r: SaveOutcome)
    ensures r == BlankName <==> AllWhiteSpace(name)
    ensures r.Saved? ==> name in r.names && saved <= r.names && |r.names| <= |saved| + 1
    ensures r.Saved? && name in saved ==> r.names == saved
  {
    TrimEmptyIff(name);
    if Trim(name) == [] then BlankName
    else if name in saved then Saved(saved)
    else Saved(saved + [name])
  }

  predicate NoDuplicates(names: seq<string>)
  {
    forall i, j :: 0 <= i < j < |names| ==> names[i] != names[j]
  }

  /** Saving the same name again changes nothing. */
  lemma SaveIdempotent(name: string, saved: seq<string>)
    requires SavePipeline(name, saved).Saved?
    ensures SavePipeline(name, SavePipeline(name, saved).names) == SavePipeline(name, saved)
  {
  }

  /** The saved list never holds a name twice. */
  lemma SaveKeepsNoDuplicates(name: string, saved: seq<string>)
    requires NoDuplicates(saved)
    ensures SavePipeline(name, saved).Saved? ==> NoDuplicates(SavePipeline(name, saved).names)
  {
    if SavePipeline(name, saved).Saved? && name !in saved {
      var names := saved + [name];
      forall i, j | 0 <= i < j < |names| ensures names[i] != names[j] {
        if j == |saved| {
          assert names[i] == saved[i];
        } else {
          assert names[i] == saved[i] && names[j] == saved[j];
        }
      }
    }
  }

  /** The initial list has no duplicates... */
  lemma InitialSavedDistinct()
    ensures NoDuplicates(InitialSaved)
  {
  }

  /** ...and the default name is not blank and not yet saved. */
  lemma DefaultNameSaves()
    ensures SavePipeline(DefaultPipelineName, InitialSaved) == Saved(InitialSaved + [DefaultPipelineName])
  {
    assert DefaultPipelineName[0] == 'M';
    assert !AllWhiteSpace(DefaultPipelineName);
    assert DefaultPipelineName !in InitialSaved by {
      assert |DefaultPipelineName| == 18;
      assert |InitialSaved[0]| == 21 && |InitialSaved[1]| == 14 && |InitialSaved[2]| == 16;
    }
  }

  // ---------------------------------------------------------------------
  // Export (lines 1108-1125)

  const JsonExtension: string := ".json"

  /** A file-name part: no white space, no upper-case letter. */
  predicate Clean(s: string)
  {
    forall i :: 0 <= i < |s| ==> !IsWhiteSpace(s[i]) && !('A' <= s[i] <= 'Z')
  }

  lemma JsonExtensionClean()
    ensures Clean(JsonExtension)
  {
  }

  lemma CleanJoin(a: string, b: string)
    requires Clean(a) && Clean(b)
    ensures Clean(a + b)
  {
    forall i | 0 <= i < |a + b| ensures !IsWhiteSpace((a + b)[i]) && !('A' <= (a + b)[i] <= 'Z') {
      if i < |a| { assert (a + b)[i] == a[i]; } else { assert (a + b)[i] == b[i - |a|]; }
    }
  }

  /** `${pipelineName.replace(/\s+/g, "-").toLowerCase()}.json`. */
  function ExportFileName(name: string): (f: string)
    ensures f == ToLower(HyphenateWhiteSpace(name)) + JsonExtension
    ensures 5 <= |f| <= |name| + 5
    ensures f[|f| - 5..] == JsonExtension
    ensures forall i :: 0 <= i < |f| ==> !IsWhiteSpace(f[i]) && !('A' <= f[i] <= 'Z')
  {
    var hyphenated := HyphenateWhiteSpace(name);
    var stem := ToLower(hyphenated);
    LowerHasNoUpper(hyphenated);
    JsonExtensionClean();
    CleanJoin(stem, JsonExtension);
    var f := stem + JsonExtension;
    assert f[|f| - 5..] == JsonExtension;
    f
  }

  /** A two-word name exports as the two words in lower case joined by one
      hyphen, whatever white space separates them. */
  lemma ExportFileNameOfTwoWords(w1: string, ws: string, w2: string)
    requires forall i :: 0 <= i < |w1| ==> !IsWhiteSpace(w1[i])
    requires forall i :: 0 <= i < |w2| ==> !IsWhiteSpace(w2[i])
    requires ws != [] && AllWhiteSpace(ws)
    ensures ExportFileName(w1 + (ws + w2)) == ToLower(w1) + ("-" + ToLower(w2)) + JsonExtension
  {
    HyphenateJoinsWords(w1, ws, w2);
    LowerAppend(w1, "-" + w2);
    LowerAppend("-", w2);
    assert ToLower("-") == "-";
  }

  /** The parsed form of a pipeline file: each field may be missing. */
  datatype Document = Document(
    name: Option<string>,
    description: Option<string>,
    components: Option<seq<Component>>,
    connections: Option<seq<Connection>>)

  /** The object `exportPipeline` serialises. */
  function ExportDocument(name: string, description: string, cs: seq<Component>, es: seq<Connection>): Document
  {
    Document(Some(name), Some(description), Some(cs), Some(es))
  }

  // ---------------------------------------------------------------------
  // Import (lines 1128-1154)

  datatype ImportOutcome =
    | ParseFailed
    | InvalidFormat
    | Imported(name: string, description: string, components: seq<Component>, connections: seq<Connection>)

  /** `reader.onload`: a file that does not parse, or lacks `components` or
      `connections`, is refused; otherwise the name defaults to "Imported
      Pipeline" and the description to "". `None` is a parse failure. */
  function CheckImport(parsed: Option<Document>): (r: ImportOutcome)
    ensures r == ParseFailed <==> parsed.None?
    ensures r == InvalidFormat <==>
      parsed.Some? && (parsed.value.components.None? || parsed.value.connections.None?)
    ensures r.Imported? ==>
      r.components == parsed.value.components.value && r.connections == parsed.value.connections.value &&
      r.name == OrDefault(parsed.value.name, "Imported Pipeline") &&
      r.description == OrDefault(parsed.value.description, "") && r.name != ""
  {
    match parsed
    case None => ParseFailed
    case Some(d) =>
      if d.components.Some? && d.connections.Some? then
        Imported(OrDefault(d.name, "Imported Pipeline"), OrDefault(d.description, ""),
                 d.components.value, d.connections.value)
      else InvalidFormat
  }

  /** Exporting and importing again gives back the graph, the description
      and the name, except that a blank name comes back as "Imported
      Pipeline". */
  lemma ExportImportRoundTrip(name: string, description: string, cs: seq<Component>, es: seq<Connection>)
    ensures CheckImport(Some(ExportDocument(name, description, cs, es))) ==
      Imported(if name == "" then "Imported Pipeline" else name, description, cs, es)
  {
  }

  // ---------------------------------------------------------------------
  // Run button (line 1286), keyboard (lines 1176-1204) and wheel (1520-1531)

  datatype RunAction = StartRun | StopRun

  /** The Run button calls `stopSimulation` while a run is shown and
      `simulatePipeline` otherwise. */
  function RunButton(isSimulating: bool): (a: RunAction)
    ensures a == StartRun <==> !isSimulating
  {
    if isSimulating then StopRun else StartRun
  }

  datatype KeyAction = DeleteSelected(id: Id) | ZoomIn | ZoomOut | ResetZoom | SavePipelineKey

  /** `handleKeyDown`: the five independent tests, in order. */
  function KeyActions(key: string, ctrl: bool, selected: Option<Id>): (r: seq<KeyAction>)
    ensures |r| <= 1
    ensures r == [] <==> !(key == "Delete" && selected.Some?) && !(ctrl && key in ["=", "-", "0", "s"])
    ensures key == "Delete" && selected.Some? ==> r == [DeleteSelected(selected.value)]
    ensures ctrl && key == "=" ==> r == [ZoomIn]
    ensures ctrl && key == "-" ==> r == [ZoomOut]
    ensures ctrl && key == "0" ==> r == [ResetZoom]
    ensures ctrl && key == "s" ==> r == [SavePipelineKey]
  {
    (if key == "Delete" && selected.Some? then [DeleteSelected(selected.value)] else []) +
    (if ctrl && key == "=" then [ZoomIn] else []) +
    (if ctrl && key == "-" then [ZoomOut] else []) +
    (if ctrl && key == "0" then [ResetZoom] else []) +
    (if ctrl && key == "s" then [SavePipelineKey] else [])
  }

  datatype WheelAction = ZoomBy(delta: int) | PanBy(dx: real, dy: real)

  /** The canvas `onWheel`: with Ctrl, zoom out on a downward scroll and in
      otherwise; with Shift, pan horizontally; else pan both ways, always
      against the scroll direction. */
  function Wheel(ctrl: bool, shift: bool, deltaX: real, deltaY: real): (w: WheelAction)
    ensures w.ZoomBy? <==> ctrl
    ensures w.ZoomBy? ==> (w.delta == -1 <==> deltaY > 0.0) && (w.delta == 1 <==> deltaY <= 0.0)
    ensures w.PanBy? ==> w.dx == -deltaX && w.dy == (if shift then 0.0 else -deltaY)
  {
    if ctrl then ZoomBy(if deltaY > 0.0 then -1 else 1)
    else if shift then PanBy(deltaX * -1.0, 0.0)
    else PanBy(deltaX * -1.0, deltaY * -1.0)
  }
}
