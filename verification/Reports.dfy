/** Task states (app/reports/state.py) and the persisted task record
    (app/reports/models.py). */
module Reports {
  import opened Wrappers
  import Identity
  import ArtifactStore
  import Submissions

  datatype ReportState = Accepted | Queued | Processing | Completed | Failed | Retrying | Cancelled

  function AllowedTransitions(s: ReportState): set<ReportState> {
    match s
    case Accepted => {Queued}
    case Queued => {Processing}
    case Processing => {Completed, Failed, Retrying}
    case Retrying => {Queued}
    case Completed => {}
    case Failed => {Retrying}
    case Cancelled => {}
  }

  /** A transition to the same state is always allowed. */
  predicate CanTransition(current: ReportState, target: ReportState) {
    current == target || target in AllowedTransitions(current)
  }

  predicate Terminal(s: ReportState) { s.Completed? || s.Failed? }

  datatype FilingIdentity = FilingIdentity(
    cik: string, accessionNumber: string, primaryDocument: string, filingDate: Submissions.Date)

  datatype ReportTask = ReportTask(
    identity: Identity.ReportIdentity, state: ReportState, includeAmended: bool,
    filing: Option<FilingIdentity>, artifactPath: Option<ArtifactStore.FileKey>, attempts: nat)

  function NewTask(identity: Identity.ReportIdentity, includeAmended: bool): ReportTask {
    ReportTask(identity, Accepted, includeAmended, None, None, 0)
  }
}
