// Typed immutable artifacts and the append-only bounded store (workflow/artifact.rs),
// with the size accounting of workflow/executor.rs.
module WorkflowArtifacts {
  import opened Common
  import opened TaskGraph
  import opened ArtifactFlow

  // Text as its UTF-8 bytes.
  type Text = seq<nat>

  datatype Location = Location(path: Option<Text>, line: Option<u32>, column: Option<u32>)

  datatype Finding = Finding(severity: nat, code: Option<Text>, message: Text, location: Option<Location>)

  datatype Verdict = Passed | Rejected

  datatype Report = Report(verdict: Verdict, diagnostics: seq<Finding>)

  datatype Content =
    | SpecificationText(text: Text)
    | DraftText(text: Text)
    | RawValidation(report: Report)
    | NormalizedDiagnostics(report: Report)
    | ReviewText(text: Text)
    | RevisionText(text: Text)
    | FinalValidation(report: Report)

  datatype Artifact = Artifact(reference: Reference, content: Content)

  datatype StoreError =
    | ArtifactContentMismatch(reference: Reference)
    | DuplicateArtifact(artifact: ArtifactId)
    | ArtifactCapacityExceeded(required: nat, available: nat)

  // validate_content.
  predicate ContentMatches(reference: Reference, content: Content) {
    match content
    case SpecificationText(_) => reference.kind == TextKind && reference.role == SpecificationRole
    case DraftText(_) => reference.kind == TextKind && reference.role == DraftRole
    case RawValidation(_) => reference.kind == DiagnosticsKind && reference.role == RawDiagnosticsRole
    case NormalizedDiagnostics(_) => reference.kind == DiagnosticsKind && reference.role == NormalizedDiagnosticsRole
    case ReviewText(_) => reference.kind == TextKind && reference.role == ReviewRole
    case RevisionText(_) => reference.kind == TextKind && reference.role == RevisionRole
    case FinalValidation(_) => reference.kind == DiagnosticsKind && reference.role == FinalValidationRole
  }

  // ----- Sizes -----

  function TextBytes(text: Option<Text>): nat {
    if text.None? then 1 else 1 + |text.value|
  }

  function NumberBytes(value: Option<u32>): nat {
    if value.None? then 1 else 5
  }

  function LocationBytes(location: Option<Location>): nat {
    if location.None? then 1
    else 1 + TextBytes(location.value.path) + NumberBytes(location.value.line) + NumberBytes(location.value.column)
  }

  function FindingBytes(finding: Finding): nat {
    1 + TextBytes(finding.code) + |finding.message| + LocationBytes(finding.location)
  }

  function FindingsBytes(findings: seq<Finding>): nat {
    if findings == [] then 0 else FindingsBytes(findings[..|findings| - 1]) + FindingBytes(findings[|findings| - 1])
  }

  // The exact persisted size of a payload.
  function ContentBytes(content: Content): nat {
    match content
    case SpecificationText(text) => |text|
    case DraftText(text) => |text|
    case ReviewText(text) => |text|
    case RevisionText(text) => |text|
    case RawValidation(report) => 1 + FindingsBytes(report.diagnostics)
    case NormalizedDiagnostics(report) => 1 + FindingsBytes(report.diagnostics)
    case FinalValidation(report) => 1 + FindingsBytes(report.diagnostics)
  }

  // ----- What is counted: one byte for every choice, four for a number, texts as they are -----

  function OptionalText(text: Option<Text>): Text {
    match text
    case None => [0]
    case Some(value) => [1] + value
  }

  function OptionalNumber(value: Option<u32>): Text {
    match value
    case None => [0]
    case Some(n) => [1, n % 256, n / 256 % 256, n / 256 / 256 % 256, n / 256 / 256 / 256]
  }

  function OptionalLocation(location: Option<Location>): Text {
    match location
    case None => [0]
    case Some(place) => [1] + OptionalText(place.path) + OptionalNumber(place.line) + OptionalNumber(place.column)
  }

  function FindingPayload(finding: Finding): Text {
    [finding.severity] + OptionalText(finding.code) + finding.message + OptionalLocation(finding.location)
  }

  function FindingsPayload(findings: seq<Finding>): Text {
    if findings == [] then [] else FindingPayload(findings[0]) + FindingsPayload(findings[1..])
  }

  function ReportPayload(report: Report): Text {
    [if report.verdict.Passed? then 0 else 1] + FindingsPayload(report.diagnostics)
  }

  function Payload(content: Content): Text {
    match content
    case SpecificationText(text) => text
    case DraftText(text) => text
    case ReviewText(text) => text
    case RevisionText(text) => text
    case RawValidation(report) => ReportPayload(report)
    case NormalizedDiagnostics(report) => ReportPayload(report)
    case FinalValidation(report) => ReportPayload(report)
  }

  lemma FindingPayloadSize(finding: Finding)
    ensures |FindingPayload(finding)| == FindingBytes(finding)
  {
    hide OptionalNumber, NumberBytes;
    if finding.location.Some? {
      NumberPayloadSize(finding.location.value.line);
      NumberPayloadSize(finding.location.value.column);
    }
  }

  lemma NumberPayloadSize(value: Option<u32>)
    ensures |OptionalNumber(value)| == NumberBytes(value)
  {
  }

  lemma {:induction false} FindingsPayloadSize(findings: seq<Finding>)
    ensures |FindingsPayload(findings)| == FindingsBytes(findings)
    decreases |findings|
  {
    hide FindingPayload, FindingBytes;
    if findings != [] {
      FindingPayloadSize(findings[0]);
      FindingsPayloadSize(findings[1..]);
      FindingsSplit(findings);
    }
  }

  lemma {:induction false} FindingsSplit(findings: seq<Finding>)
    requires findings != []
    ensures FindingsBytes(findings) == FindingBytes(findings[0]) + FindingsBytes(findings[1..])
    decreases |findings|
  {
    var n := |findings| - 1;
    if n > 0 {
      FindingsSplit(findings[..n]);
      assert findings[1..][..n - 1] == findings[..n][1..];
    }
  }

  // The size of an artifact is the length of its payload.
  lemma PayloadSize(content: Content)
    ensures ContentBytes(content) == |Payload(content)|
  {
    match content
    case RawValidation(report) => FindingsPayloadSize(report.diagnostics);
    case NormalizedDiagnostics(report) => FindingsPayloadSize(report.diagnostics);
    case FinalValidation(report) => FindingsPayloadSize(report.diagnostics);
    case _ =>
  }

  function CheckedBytes(a: nat, b: nat): Option<nat> {
    if a + b <= U64_MAX then Some(a + b) else None
  }

  // The report sizes, added one finding at a time in u64: the exact size, or nothing
  // exactly when it does not fit.
  method ReportSize(report: Report) returns (r: Option<nat>)
    ensures r == if 1 + FindingsBytes(report.diagnostics) <= U64_MAX then Some(1 + FindingsBytes(report.diagnostics)) else None
  {
    var findings := report.diagnostics;
    var total := 1;
    for i := 0 to |findings|
      invariant total == 1 + FindingsBytes(findings[..i]) <= U64_MAX
    {
      assert findings[..i + 1][..i] == findings[..i];
      FindingsGrow(findings, i + 1);
      var next := CheckedBytes(total, FindingBytes(findings[i]));
      if next.None? {
        return None;
      }
      total := next.value;
    }
    assert findings[..|findings|] == findings;
    return Some(total);
  }

  lemma {:induction false} FindingsGrow(findings: seq<Finding>, i: nat)
    requires i <= |findings|
    ensures FindingsBytes(findings[..i]) <= FindingsBytes(findings)
    decreases |findings|
  {
    if i < |findings| {
      FindingsGrow(findings[..|findings| - 1], i);
      assert findings[..|findings| - 1][..i] == findings[..i];
    } else {
      assert findings[..i] == findings;
    }
  }

  // artifact_content_size.
  method ContentSize(content: Content) returns (r: Option<nat>)
    ensures r == if ContentBytes(content) <= U64_MAX then Some(ContentBytes(content)) else None
  {
    match content {
      case RawValidation(report) => r := ReportSize(report);
      case NormalizedDiagnostics(report) => r := ReportSize(report);
      case FinalValidation(report) => r := ReportSize(report);
      case _ => r := if |content.text| <= U64_MAX then Some(|content.text|) else None;
    }
  }

  // ----- The store -----

  type Artifacts = map<ArtifactId, Artifact>

  ghost predicate WellTyped(artifacts: Artifacts) {
    forall id :: id in artifacts ==> artifacts[id].reference.id == id && ContentMatches(artifacts[id].reference, artifacts[id].content)
  }

  class ArtifactStore {
    const maximum: nat
    var artifacts: Artifacts

    ghost predicate Valid()
      reads this
    {
      |artifacts| <= maximum && WellTyped(artifacts)
    }

    constructor (maximum: nat)
      ensures Valid() && artifacts == map[] && this.maximum == maximum
    {
      this.maximum := maximum;
      artifacts := map[];
    }

    function RemainingCapacity(): nat
      reads this
    {
      SaturatingSub(maximum, |artifacts|)
    }

    // insert: never replaces anything and never exceeds the bound.
    method Insert(artifact: Artifact) returns (r: Result<(), StoreError>)
      requires Valid()
      modifies this
      ensures Valid()
      ensures r.Ok? <==>
        ContentMatches(artifact.reference, artifact.content) && artifact.reference.id !in old(artifacts) && |old(artifacts)| < maximum
      ensures r.Ok? ==> artifacts == old(artifacts)[artifact.reference.id := artifact] && |artifacts| == |old(artifacts)| + 1
      ensures r.Err? ==> artifacts == old(artifacts)
      ensures r.Err? ==>
        r.error == if !ContentMatches(artifact.reference, artifact.content) then ArtifactContentMismatch(artifact.reference)
                   else if artifact.reference.id in artifacts then DuplicateArtifact(artifact.reference.id)
                   else ArtifactCapacityExceeded(1, 0)
    {
      if !ContentMatches(artifact.reference, artifact.content) {
        return Err(ArtifactContentMismatch(artifact.reference));
      }
      var id := artifact.reference.id;
      if id in artifacts {
        return Err(DuplicateArtifact(id));
      }
      var available := RemainingCapacity();
      if available == 0 {
        return Err(ArtifactCapacityExceeded(1, available));
      }
      artifacts := artifacts[id := artifact];
      return Ok(());
    }
  }
}
