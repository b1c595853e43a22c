/** The live pilot's checkpoint and its JSON form (`apps/worker/src/adk-live-pilot-resume.ts`).
    `isTime` stands for "`Date.parse` accepts this text". */
module LivePilotCheckpoint {
  import opened Common

  /** The property names the checkpoint uses, and every other name. */
  datatype Property =
    | PProtocolVersion | PObjectType | PPilotId | PApprovalRef | PRunId | PStartedAt | PAssignmentIds | PProviders | PCells | PInFlight | PUpdatedAt
    | PStatus | PAssignmentId | PProvider | PSubmissionId | PDistilledArtifactId | PRawProviderArtifactId | PMarkdownRawArtifactId | PRawProviderReceiptId | PMarkdownReceiptId | PBytesPrepared | PRecordedAt
    | POther(name: string)

  datatype Json =
    | JNull
    | JBool(bool)
    | JNumber(number: int)
    | JText(text: string)
    | JArray(items: seq<Json>)
    | JObject(fields: map<Property, Json>)
  {
    /** A property access: absent properties and non-objects give `undefined`. */
    function At(name: Property): Option<Json> {
      if JObject? && name in fields then Some(fields[name]) else None
    }
  }

  datatype Provider = DEEPSEEK | OPENAI
  {
    function Name(): string {
      if DEEPSEEK? then "DEEPSEEK" else "OPENAI"
    }
  }

  datatype Lineage = Lineage(
    assignmentId: string, provider: Provider, submissionId: string, distilledArtifactId: string,
    rawProviderArtifactId: string, markdownRawArtifactId: string)

  datatype DurableCell = DurableCell(
    lineage: Lineage, rawProviderReceiptId: string, markdownReceiptId: string, bytesPrepared: int, recordedAt: string)

  datatype InFlight = InFlight(assignmentId: string, provider: Provider, startedAt: string)

  datatype Checkpoint = Checkpoint(
    pilotId: string, approvalRef: string, runId: string, startedAt: string, assignmentIds: seq<string>,
    cells: seq<DurableCell>, inFlight: Option<InFlight>, updatedAt: string)

  function CellKey(assignmentId: string, provider: Provider): string {
    assignmentId + ":" + provider.Name()
  }

  /** A cell key determines its assignment and provider. */
  lemma CellKeyInjective(a: string, p: Provider, b: string, q: Provider)
    ensures CellKey(a, p) == CellKey(b, q) <==> a == b && p == q
  {
    var x, y := CellKey(a, p), CellKey(b, q);
    if x == y {
      assert x[|x| - 1] == p.Name()[|p.Name()| - 1] && y[|y| - 1] == q.Name()[|q.Name()| - 1];
      assert p == q;
      assert a == x[..|x| - |p.Name()| - 1] && b == y[..|y| - |q.Name()| - 1];
    }
  }

  predicate NonBlank(s: string) {
    Trim(JsSpace, s) != ""
  }

  // ---------------------------------------------------------------- writing

  function RenderCell(cell: DurableCell): Json {
    JObject(map[
      PStatus := JText("DURABLE"),
      PAssignmentId := JText(cell.lineage.assignmentId),
      PProvider := JText(cell.lineage.provider.Name()),
      PSubmissionId := JText(cell.lineage.submissionId),
      PDistilledArtifactId := JText(cell.lineage.distilledArtifactId),
      PRawProviderArtifactId := JText(cell.lineage.rawProviderArtifactId),
      PMarkdownRawArtifactId := JText(cell.lineage.markdownRawArtifactId),
      PRawProviderReceiptId := JText(cell.rawProviderReceiptId),
      PMarkdownReceiptId := JText(cell.markdownReceiptId),
      PBytesPrepared := JNumber(cell.bytesPrepared),
      PRecordedAt := JText(cell.recordedAt)])
  }

  function RenderInFlight(inFlight: InFlight): Json {
    JObject(map[
      PAssignmentId := JText(inFlight.assignmentId),
      PProvider := JText(inFlight.provider.Name()),
      PStartedAt := JText(inFlight.startedAt)])
  }

  function RenderCells(cells: seq<DurableCell>): seq<Json> {
    seq(|cells|, i requires 0 <= i < |cells| => RenderCell(cells[i]))
  }

  function RenderIds(ids: seq<string>): seq<Json> {
    seq(|ids|, i requires 0 <= i < |ids| => JText(ids[i]))
  }

  /** `JSON.stringify`, as a value: an absent in-flight record leaves no property behind. */
  function Render(c: Checkpoint): Json {
    var fields := map[
      PProtocolVersion := JText("1.0"),
      PObjectType := JText("AI_PRODUCTION_PILOT_LIVE_CHECKPOINT"),
      PPilotId := JText(c.pilotId),
      PApprovalRef := JText(c.approvalRef),
      PRunId := JText(c.runId),
      PStartedAt := JText(c.startedAt),
      PAssignmentIds := JArray(RenderIds(c.assignmentIds)),
      PProviders := JArray([JText("DEEPSEEK"), JText("OPENAI")]),
      PCells := JArray(RenderCells(c.cells)),
      PUpdatedAt := JText(c.updatedAt)];
    JObject(if c.inFlight.Some? then fields[PInFlight := RenderInFlight(c.inFlight.value)] else fields)
  }

  // ---------------------------------------------------------------- parsing

  predicate IsText(value: Option<Json>, good: string -> bool) {
    value.Some? && value.value.JText? && good(value.value.text)
  }

  function TextOf(value: Option<Json>): string
    requires value.Some? && value.value.JText?
  {
    value.value.text
  }

  predicate IsProvider(s: string) {
    s == "DEEPSEEK" || s == "OPENAI"
  }

  function ProviderOf(s: string): Provider {
    if s == "DEEPSEEK" then DEEPSEEK else OPENAI
  }

  function ParseCell(isTime: string -> bool, item: Json): Result<DurableCell> {
    var bytes := item.At(PBytesPrepared);
    if item.At(PStatus) != Some(JText("DURABLE"))
       || !IsText(item.At(PAssignmentId), NonBlank)
       || !IsText(item.At(PProvider), IsProvider)
       || !IsText(item.At(PSubmissionId), NonBlank)
       || !IsText(item.At(PDistilledArtifactId), NonBlank)
       || !IsText(item.At(PRawProviderArtifactId), NonBlank)
       || !IsText(item.At(PMarkdownRawArtifactId), NonBlank)
       || !IsText(item.At(PRawProviderReceiptId), NonBlank)
       || !IsText(item.At(PMarkdownReceiptId), NonBlank)
       || bytes.None? || !bytes.value.JNumber? || !(0 <= bytes.value.number <= MAX_SAFE_INTEGER)
       || !IsText(item.At(PRecordedAt), isTime)
    then Err("Invalid durable ADK live pilot checkpoint cell")
    else Ok(DurableCell(
      Lineage(TextOf(item.At(PAssignmentId)), ProviderOf(TextOf(item.At(PProvider))),
              TextOf(item.At(PSubmissionId)), TextOf(item.At(PDistilledArtifactId)),
              TextOf(item.At(PRawProviderArtifactId)), TextOf(item.At(PMarkdownRawArtifactId))),
      TextOf(item.At(PRawProviderReceiptId)), TextOf(item.At(PMarkdownReceiptId)),
      bytes.value.number, TextOf(item.At(PRecordedAt))))
  }

  function ParseCells(isTime: string -> bool, items: seq<Json>): Result<seq<DurableCell>> {
    if items == [] then Ok([])
    else
      var cell := ParseCell(isTime, items[0]);
      if cell.Err? then Err(cell.code)
      else
        var rest := ParseCells(isTime, items[1..]);
        if rest.Err? then Err(rest.code) else Ok([cell.value] + rest.value)
  }

  function ParseInFlight(isTime: string -> bool, value: Option<Json>): Result<Option<InFlight>> {
    if value.None? then Ok(None)
    else if !IsText(value.value.At(PAssignmentId), NonBlank)
         || !IsText(value.value.At(PProvider), IsProvider)
         || !IsText(value.value.At(PStartedAt), isTime)
    then Err("Invalid in-flight ADK live pilot checkpoint cell")
    else Ok(Some(InFlight(TextOf(value.value.At(PAssignmentId)), ProviderOf(TextOf(value.value.At(PProvider))),
                          TextOf(value.value.At(PStartedAt)))))
  }

  ghost predicate DistinctCells(cells: seq<DurableCell>) {
    forall i, j | 0 <= i < j < |cells| ::
      CellKey(cells[i].lineage.assignmentId, cells[i].lineage.provider)
      != CellKey(cells[j].lineage.assignmentId, cells[j].lineage.provider)
  }

  predicate ThreeIds(value: Option<Json>) {
    && value.Some? && value.value.JArray? && |value.value.items| == 3
    && forall entry <- value.value.items :: IsText(Some(entry), NonBlank)
  }

  ghost function Parse(isTime: string -> bool, item: Json): Result<Checkpoint> {
    if item.At(PProtocolVersion) != Some(JText("1.0"))
       || item.At(PObjectType) != Some(JText("AI_PRODUCTION_PILOT_LIVE_CHECKPOINT"))
       || !IsText(item.At(PPilotId), NonBlank)
       || !IsText(item.At(PApprovalRef), NonBlank)
       || !IsText(item.At(PRunId), NonBlank)
       || !IsText(item.At(PStartedAt), isTime)
       || !ThreeIds(item.At(PAssignmentIds))
       || item.At(PProviders) != Some(JArray([JText("DEEPSEEK"), JText("OPENAI")]))
       || item.At(PCells).None? || !item.At(PCells).value.JArray?
       || !IsText(item.At(PUpdatedAt), isTime)
    then Err("Invalid ADK live pilot checkpoint")
    else
      var cells := ParseCells(isTime, item.At(PCells).value.items);
      if cells.Err? then Err(cells.code)
      else if !DistinctCells(cells.value) then Err("ADK live pilot checkpoint contains duplicate durable cells")
      else
        var inFlight := ParseInFlight(isTime, item.At(PInFlight));
        if inFlight.Err? then Err(inFlight.code)
        else
          var ids := item.At(PAssignmentIds).value.items;
          Ok(Checkpoint(TextOf(item.At(PPilotId)), TextOf(item.At(PApprovalRef)), TextOf(item.At(PRunId)),
                        TextOf(item.At(PStartedAt)), [TextOf(Some(ids[0])), TextOf(Some(ids[1])), TextOf(Some(ids[2]))],
                        cells.value, inFlight.value, TextOf(item.At(PUpdatedAt))))
  }

  // ---------------------------------------------------------------- round trip

  predicate CellWellFormed(isTime: string -> bool, cell: DurableCell) {
    && NonBlank(cell.lineage.assignmentId) && NonBlank(cell.lineage.submissionId)
    && NonBlank(cell.lineage.distilledArtifactId) && NonBlank(cell.lineage.rawProviderArtifactId)
    && NonBlank(cell.lineage.markdownRawArtifactId) && NonBlank(cell.rawProviderReceiptId)
    && NonBlank(cell.markdownReceiptId) && 0 <= cell.bytesPrepared <= MAX_SAFE_INTEGER
    && isTime(cell.recordedAt)
  }

  ghost predicate WellFormed(isTime: string -> bool, c: Checkpoint) {
    && NonBlank(c.pilotId) && NonBlank(c.approvalRef) && NonBlank(c.runId)
    && isTime(c.startedAt) && isTime(c.updatedAt)
    && |c.assignmentIds| == 3 && (forall id <- c.assignmentIds :: NonBlank(id))
    && (forall cell <- c.cells :: CellWellFormed(isTime, cell))
    && DistinctCells(c.cells)
    && (c.inFlight.Some? ==> NonBlank(c.inFlight.value.assignmentId) && isTime(c.inFlight.value.startedAt))
  }

  lemma RenderedCell(cell: DurableCell)
    ensures var item := RenderCell(cell);
            && item.At(PStatus) == Some(JText("DURABLE"))
            && item.At(PAssignmentId) == Some(JText(cell.lineage.assignmentId))
            && item.At(PProvider) == Some(JText(cell.lineage.provider.Name()))
            && item.At(PSubmissionId) == Some(JText(cell.lineage.submissionId))
            && item.At(PDistilledArtifactId) == Some(JText(cell.lineage.distilledArtifactId))
            && item.At(PRawProviderArtifactId) == Some(JText(cell.lineage.rawProviderArtifactId))
            && item.At(PMarkdownRawArtifactId) == Some(JText(cell.lineage.markdownRawArtifactId))
            && item.At(PRawProviderReceiptId) == Some(JText(cell.rawProviderReceiptId))
            && item.At(PMarkdownReceiptId) == Some(JText(cell.markdownReceiptId))
            && item.At(PBytesPrepared) == Some(JNumber(cell.bytesPrepared))
            && item.At(PRecordedAt) == Some(JText(cell.recordedAt))
  {
  }

  lemma ProviderNames(p: Provider)
    ensures IsProvider(p.Name()) && ProviderOf(p.Name()) == p
  {
  }

  lemma CellRoundTrip(isTime: string -> bool, cell: DurableCell)
    ensures ParseCell(isTime, RenderCell(cell)).Ok? <==> CellWellFormed(isTime, cell)
    ensures CellWellFormed(isTime, cell) ==> ParseCell(isTime, RenderCell(cell)) == Ok(cell)
  {
    RenderedCell(cell);
    ProviderNames(cell.lineage.provider);
    hide RenderCell, Trim, TrimEnd, TrimStart, Provider.Name, Json.At;
  }

  lemma {:induction false} CellsRoundTrip(isTime: string -> bool, cells: seq<DurableCell>)
    ensures ParseCells(isTime, RenderCells(cells)).Ok? <==> forall cell <- cells :: CellWellFormed(isTime, cell)
    ensures ParseCells(isTime, RenderCells(cells)).Ok? ==> ParseCells(isTime, RenderCells(cells)).value == cells
  {
    hide RenderCell, ParseCell, CellWellFormed;
    if cells != [] {
      CellRoundTrip(isTime, cells[0]);
      CellsRoundTrip(isTime, cells[1..]);
      assert RenderCells(cells)[0] == RenderCell(cells[0]) && RenderCells(cells)[1..] == RenderCells(cells[1..]);
      assert cells == [cells[0]] + cells[1..];
    }
  }

  lemma RenderedCheckpoint(c: Checkpoint)
    ensures var item := Render(c);
            && item.At(PProtocolVersion) == Some(JText("1.0"))
            && item.At(PObjectType) == Some(JText("AI_PRODUCTION_PILOT_LIVE_CHECKPOINT"))
            && item.At(PPilotId) == Some(JText(c.pilotId))
            && item.At(PApprovalRef) == Some(JText(c.approvalRef))
            && item.At(PRunId) == Some(JText(c.runId))
            && item.At(PStartedAt) == Some(JText(c.startedAt))
            && item.At(PAssignmentIds) == Some(JArray(RenderIds(c.assignmentIds)))
            && item.At(PProviders) == Some(JArray([JText("DEEPSEEK"), JText("OPENAI")]))
            && item.At(PCells) == Some(JArray(RenderCells(c.cells)))
            && item.At(PUpdatedAt) == Some(JText(c.updatedAt))
            && item.At(PInFlight) == (if c.inFlight.Some? then Some(RenderInFlight(c.inFlight.value)) else None)
  {
  }

  lemma InFlightRoundTrip(isTime: string -> bool, flight: Option<InFlight>)
    ensures var json := if flight.Some? then Some(RenderInFlight(flight.value)) else None;
            && (ParseInFlight(isTime, json).Ok? <==>
                 (flight.Some? ==> NonBlank(flight.value.assignmentId) && isTime(flight.value.startedAt)))
            && (ParseInFlight(isTime, json).Ok? ==> ParseInFlight(isTime, json) == Ok(flight))
  {
    if flight.Some? {
      var item := RenderInFlight(flight.value);
      assert item.At(PAssignmentId) == Some(JText(flight.value.assignmentId));
      assert item.At(PProvider) == Some(JText(flight.value.provider.Name()));
      assert item.At(PStartedAt) == Some(JText(flight.value.startedAt));
      ProviderNames(flight.value.provider);
      hide RenderInFlight, Trim, TrimEnd, TrimStart, Provider.Name, Json.At;
    }
  }

  lemma IdsRoundTrip(ids: seq<string>)
    ensures ThreeIds(Some(JArray(RenderIds(ids)))) <==> |ids| == 3 && forall id <- ids :: NonBlank(id)
    ensures |ids| == 3 ==> ids == [TextOf(Some(RenderIds(ids)[0])), TextOf(Some(RenderIds(ids)[1])), TextOf(Some(RenderIds(ids)[2]))]
  {
    var items := RenderIds(ids);
    if forall id <- ids :: NonBlank(id) {
      forall entry <- items ensures IsText(Some(entry), NonBlank) {
        var i :| 0 <= i < |items| && items[i] == entry;
        assert ids[i] in ids;
      }
    }
    if forall entry <- items :: IsText(Some(entry), NonBlank) {
      forall id <- ids ensures NonBlank(id) {
        var i :| 0 <= i < |ids| && ids[i] == id;
        assert items[i] in items;
      }
    }
  }

  /** A written checkpoint reads back as itself exactly when it is well formed; otherwise it is
      refused. In particular no checkpoint is ever read back as a different one. */
  lemma RoundTrip(isTime: string -> bool, c: Checkpoint)
    ensures Parse(isTime, Render(c)).Ok? <==> WellFormed(isTime, c)
    ensures Parse(isTime, Render(c)).Ok? ==> Parse(isTime, Render(c)).value == c
  {
    RenderedCheckpoint(c);
    CellsRoundTrip(isTime, c.cells);
    InFlightRoundTrip(isTime, c.inFlight);
    IdsRoundTrip(c.assignmentIds);
    hide Render, RenderCells, RenderIds, RenderInFlight, ParseCells, ParseInFlight, ThreeIds, DistinctCells, CellWellFormed,
      Trim, TrimEnd, TrimStart, Json.At;
  }

  /** Different checkpoints are written differently. */
  lemma RenderInjective(c: Checkpoint, d: Checkpoint)
    requires Render(c) == Render(d)
    ensures c == d
  {
    RenderedCheckpoint(c);
    RenderedCheckpoint(d);
    hide Render, Json.At;
    forall i | 0 <= i < |c.assignmentIds| ensures i < |d.assignmentIds| && c.assignmentIds[i] == d.assignmentIds[i] {
      assert |RenderIds(c.assignmentIds)| == |RenderIds(d.assignmentIds)|;
      assert RenderIds(c.assignmentIds)[i] == RenderIds(d.assignmentIds)[i];
    }
    assert |RenderIds(c.assignmentIds)| == |RenderIds(d.assignmentIds)|;
    assert |RenderCells(c.cells)| == |RenderCells(d.cells)|;
    forall i | 0 <= i < |c.cells| ensures c.cells[i] == d.cells[i] {
      assert RenderCells(c.cells)[i] == RenderCells(d.cells)[i];
      RenderCellInjective(c.cells[i], d.cells[i]);
    }
    if c.inFlight.Some? && d.inFlight.Some? {
      RenderInFlightInjective(c.inFlight.value, d.inFlight.value);
    }
  }

  lemma RenderCellInjective(a: DurableCell, b: DurableCell)
    requires RenderCell(a) == RenderCell(b)
    ensures a == b
  {
    RenderedCell(a);
    RenderedCell(b);
    ProviderNames(a.lineage.provider);
    ProviderNames(b.lineage.provider);
    hide RenderCell, Json.At, Provider.Name;
  }

  lemma RenderInFlightInjective(a: InFlight, b: InFlight)
    requires RenderInFlight(a) == RenderInFlight(b)
    ensures a == b
  {
    ProviderNames(a.provider);
    ProviderNames(b.provider);
    var x, y := RenderInFlight(a), RenderInFlight(b);
    assert x.At(PAssignmentId) == y.At(PAssignmentId) && x.At(PProvider) == y.At(PProvider) && x.At(PStartedAt) == y.At(PStartedAt);
  }
}
