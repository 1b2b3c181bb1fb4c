/**
 Status patches. The controllers send `client.MergeFrom(base)`: the fields in which the modified
 object differs from its base, which the API server merges into the stored object.
 */
module MergePatch {
  import opened Wrappers
  import opened Objects

  function Change<T(==)>(base: T, modified: T): Option<T> {
    if base == modified then None else Some(modified)
  }

  function Merge<T>(change: Option<T>, current: T): T {
    match change
    case None => current
    case Some(v) => v
  }

  datatype PipelinePatch = PipelinePatch(
    phase: Option<PipelinePhase>, checkRunID: Option<nat>, buildRunRef: Option<string>,
    image: Option<string>, startedAt: Option<Option<nat>>, finishedAt: Option<Option<nat>>)

  function DiffPipeline(base: PipelineStatus, modified: PipelineStatus): PipelinePatch {
    PipelinePatch(
      Change(base.phase, modified.phase), Change(base.checkRunID, modified.checkRunID),
      Change(base.buildRunRef, modified.buildRunRef), Change(base.image, modified.image),
      Change(base.startedAt, modified.startedAt), Change(base.finishedAt, modified.finishedAt))
  }

  function ApplyPipeline(patch: PipelinePatch, s: PipelineStatus): PipelineStatus {
    PipelineStatus(
      Merge(patch.phase, s.phase), Merge(patch.checkRunID, s.checkRunID),
      Merge(patch.buildRunRef, s.buildRunRef), Merge(patch.image, s.image),
      Merge(patch.startedAt, s.startedAt), Merge(patch.finishedAt, s.finishedAt))
  }

  datatype BuildPatch = BuildPatch(
    phase: Option<BuildPhase>, image: Option<string>,
    startedAt: Option<Option<nat>>, finishedAt: Option<Option<nat>>)

  function DiffBuild(base: BuildRunStatus, modified: BuildRunStatus): BuildPatch {
    BuildPatch(
      Change(base.phase, modified.phase), Change(base.image, modified.image),
      Change(base.startedAt, modified.startedAt), Change(base.finishedAt, modified.finishedAt))
  }

  function ApplyBuild(patch: BuildPatch, s: BuildRunStatus): BuildRunStatus {
    BuildRunStatus(
      Merge(patch.phase, s.phase), Merge(patch.image, s.image),
      Merge(patch.startedAt, s.startedAt), Merge(patch.finishedAt, s.finishedAt))
  }

  // ---------- The same patches as JSON documents ----------

  datatype FieldName = PhaseField | CheckRunField | BuildRunField | ImageField | StartedField | FinishedField

  datatype Json = Text(text: string) | Number(number: nat)

  /** A flat JSON object; a field that Go's `omitempty` drops is absent. */
  type Document = map<FieldName, Json>

  /** A flat merge patch; `None` is JSON null and removes the field. */
  type PatchDocument = map<FieldName, Option<Json>>

  /** MergePatch of section 2 of RFC 7396, for documents without nested objects. */
  function MergeDocument(target: Document, patch: PatchDocument): Document {
    map f | f in target.Keys + patch.Keys && (f in patch ==> patch[f].Some?) ::
      if f in patch then patch[f].value else target[f]
  }

  /** The patch that turns `base` into `modified`. */
  function DiffDocument(base: Document, modified: Document): PatchDocument {
    map f | f in base.Keys + modified.Keys && !(f in base && f in modified && base[f] == modified[f]) ::
      if f in modified then Some(modified[f]) else None
  }

  function PhaseText(phase: PipelinePhase): string {
    match phase
    case Unset => ""
    case Queued => "Queued"
    case Building => "Building"
    case Deploying => "Deploying"
    case Succeeded => "Succeeded"
    case Failed => "Failed"
  }

  function OmitEmpty(s: string): Option<Json> {
    if s == "" then None else Some(Text(s))
  }

  function OmitZero(n: nat): Option<Json> {
    if n == 0 then None else Some(Number(n))
  }

  function OmitNil(t: Option<nat>): Option<Json> {
    match t
    case None => None
    case Some(v) => Some(Number(v))
  }

  function FieldOf(s: PipelineStatus, f: FieldName): Option<Json> {
    match f
    case PhaseField => OmitEmpty(PhaseText(s.phase))
    case CheckRunField => OmitZero(s.checkRunID)
    case BuildRunField => OmitEmpty(s.buildRunRef)
    case ImageField => OmitEmpty(s.image)
    case StartedField => OmitNil(s.startedAt)
    case FinishedField => OmitNil(s.finishedAt)
  }

  function Encode(s: PipelineStatus): Document {
    map f: FieldName | FieldOf(s, f).Some? :: FieldOf(s, f).value
  }

  /** The status with this field at its zero value. */
  function Zeroed(s: PipelineStatus, f: FieldName): PipelineStatus {
    match f
    case PhaseField => s.(phase := PipelinePhase.Unset)
    case CheckRunField => s.(checkRunID := 0)
    case BuildRunField => s.(buildRunRef := "")
    case ImageField => s.(image := "")
    case StartedField => s.(startedAt := None)
    case FinishedField => s.(finishedAt := None)
  }

  /** A document has exactly the fields that are not zero, and a patch removes exactly those that become so. */
  lemma PatchRemovesExactly(base: PipelineStatus, modified: PipelineStatus, f: FieldName)
    ensures f in Encode(modified) <==> Zeroed(modified, f) != modified
    ensures var patch := DiffDocument(Encode(base), Encode(modified));
            f in patch && patch[f].None? <==> Zeroed(base, f) != base && Zeroed(modified, f) == modified
  {
  }

  /** How a stored phase reads. */
  lemma PhaseReads(s: PipelineStatus, text: string)
    ensures PhaseField in Encode(s) && Encode(s)[PhaseField] == Text(text) <==>
              || (s.phase.Queued? && text == "Queued") || (s.phase.Building? && text == "Building")
              || (s.phase.Deploying? && text == "Deploying") || (s.phase.Succeeded? && text == "Succeeded")
              || (s.phase.Failed? && text == "Failed")
  {
    assert PhaseField in Encode(s) <==> FieldOf(s, PhaseField).Some?;
  }

  /** A patch made against `base` brings `base` to `modified`. */
  lemma DiffThenMerge(base: Document, modified: Document)
    ensures MergeDocument(base, DiffDocument(base, modified)) == modified
  {
  }

  lemma PhaseTextInjective(a: PipelinePhase, b: PipelinePhase)
    requires PhaseText(a) == PhaseText(b)
    ensures a == b
  {
    if a.Building? || a.Succeeded? {
      assert PhaseText(a)[0] == PhaseText(b)[0];
    }
  }

  /** The encoding decides the status: no two statuses are stored as the same document. */
  lemma EncodeInjective(a: PipelineStatus, b: PipelineStatus)
    requires Encode(a) == Encode(b)
    ensures a == b
  {
    forall f: FieldName
      ensures FieldOf(a, f) == FieldOf(b, f)
    {
      assert f in Encode(a) <==> f in Encode(b);
    }
    assert FieldOf(a, PhaseField) == FieldOf(b, PhaseField);
    PhaseTextInjective(a.phase, b.phase);
    assert FieldOf(a, CheckRunField) == FieldOf(b, CheckRunField);
    assert FieldOf(a, BuildRunField) == FieldOf(b, BuildRunField);
    assert FieldOf(a, ImageField) == FieldOf(b, ImageField);
    assert FieldOf(a, StartedField) == FieldOf(b, StartedField);
    assert FieldOf(a, FinishedField) == FieldOf(b, FinishedField);
  }

  /** A field of the merged status comes from the client exactly when the client changed it. */
  lemma MergedField(base: PipelineStatus, modified: PipelineStatus, stored: PipelineStatus, f: FieldName)
    ensures FieldOf(ApplyPipeline(DiffPipeline(base, modified), stored), f)
         == if FieldOf(base, f) == FieldOf(modified, f) then FieldOf(stored, f) else FieldOf(modified, f)
  {
    if f.PhaseField? && PhaseText(base.phase) == PhaseText(modified.phase) {
      PhaseTextInjective(base.phase, modified.phase);
    }
  }

  /** The record-level patch of this model is the JSON merge patch the API server applies. */
  lemma RecordPatchIsMergePatch(base: PipelineStatus, modified: PipelineStatus, stored: PipelineStatus)
    ensures Encode(ApplyPipeline(DiffPipeline(base, modified), stored))
         == MergeDocument(Encode(stored), DiffDocument(Encode(base), Encode(modified)))
  {
    var result := Encode(ApplyPipeline(DiffPipeline(base, modified), stored));
    var merged := MergeDocument(Encode(stored), DiffDocument(Encode(base), Encode(modified)));
    forall f: FieldName
      ensures f in result <==> f in merged
      ensures f in merged ==> result[f] == merged[f]
    {
      MergedField(base, modified, stored, f);
    }
  }
}
