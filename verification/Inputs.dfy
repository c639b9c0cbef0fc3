// The inputs that generation requests freeze. A snapshot stores its input together with the
// input's hash; hashing is injective, so the hash is represented by what it was taken of.
module Inputs {
  import opened Common
  import RoundStatus
  import Scoring

  // SHA-256 of a text.
  datatype TextHash = TextHash(of: string)

  datatype SegmentRef = SegmentRef(segmentId: Id, segmentNo: nat, textHash: TextHash)

  // ---------- coverage ----------

  datatype GapReason =
    | CancelledRound
    | EndedAbnormally
    | NotCompleted
    | WithoutTranscript
    | TranscriptUnconfirmed
    | AnalysisNone
    | AnalysisStale

  datatype CoverageGap = CoverageGap(roundId: Id, sequenceNo: nat, reason: GapReason, status: RoundStatus.Status)

  datatype IncludedRound = IncludedRound(roundId: Id, sequenceNo: nat, versionId: Id, overall: Option<real>)

  datatype CoverageReport = CoverageReport(
    eligible: nat, total: nat, included: seq<IncludedRound>, gaps: seq<CoverageGap>,
    insufficient: bool, singleOnly: bool, missing: nat)

  datatype DimensionRef = DimensionRef(key: string, name: string, weight: real, score: Option<int>, insufficient: bool)

  datatype EvidencePointer = EvidencePointer(key: string, segmentNo: int, segmentId: Id)

  datatype RoundRef = RoundRef(
    roundId: Id, sequenceNo: nat, versionId: Id, versionNo: nat, overall: Option<real>,
    dimensions: seq<DimensionRef>, evidence: seq<EvidencePointer>)

  // ---------- hashed inputs ----------

  datatype Input =
    | QuestionInput(roundId: Id, jobVersionId: Id, resumeVersionId: Id, dimensions: seq<Scoring.Dimension>)
    | AnalysisInput(roundId: Id, jobVersionId: Id, transcriptId: Id, transcriptVersionId: Id,
                    dimensions: seq<Scoring.Dimension>, refs: seq<SegmentRef>)
    | ComprehensiveInput(applicationId: Id, roundRefs: seq<RoundRef>, coverage: CoverageReport)
}
