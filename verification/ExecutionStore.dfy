/**
 The durable tables the dispatch protocol shares between processes: journalled admissions,
 dispatch fences and receipts.  Each operation is one committed SQLite transaction.
 */
module ExecutionStore {
  import opened DexIdentity
  import opened DexAdmission

  datatype FenceState = Reserved | Dispatched | Fenced | Retired

  datatype Fence = Fence(bindingDigest: string, state: FenceState)

  datatype Disposition = Accepted | Quarantined

  datatype Receipt = Receipt(
    key: ReceiptKey,
    claimGeneration: nat,
    authoritySha: string,
    executionSha: string,
    disposition: Disposition,
    evidenceRef: string)

  datatype Store = Store(
    executions: set<string>,
    journal: map<Id, AdmissionRecord>,
    fences: map<Id, Fence>,
    receipts: map<string, Receipt>,
    recorded: seq<string>)              // receipt identifiers in the order they were recorded

  predicate Allowed(before: FenceState, after: FenceState) {
    match before
    case Reserved => after != Reserved
    case Dispatched => after == Fenced || after == Retired
    case Fenced => false
    case Retired => false
  }

  /** Journalling is write-once and idempotent for an identical row. */
  predicate CanJournal(s: Store, r: AdmissionRecord) {
    r.id in s.journal ==> s.journal[r.id] == r
  }

  function Journal(s: Store, r: AdmissionRecord): Store {
    if r.id in s.journal then s else s.(journal := s.journal[r.id := r])
  }

  /** The write-ahead reservation inserts a row only when the identity has none. */
  function Reserve(s: Store, id: Id, digest: string): Store {
    if id in s.fences then s else s.(fences := s.fences[id := Fence(digest, Reserved)])
  }

  predicate CanTransition(s: Store, id: Id, to: FenceState) {
    id in s.fences && Allowed(s.fences[id].state, to)
  }

  function Transition(s: Store, id: Id, to: FenceState): Store {
    if CanTransition(s, id, to) then s.(fences := s.fences[id := s.fences[id].(state := to)]) else s
  }

  /** Everything but the identity columns, which the identifier stands for. */
  predicate SameFacts(a: Receipt, b: Receipt) {
    && a.claimGeneration == b.claimGeneration
    && a.authoritySha == b.authoritySha
    && a.executionSha == b.executionSha
    && a.disposition == b.disposition
    && a.evidenceRef == b.evidenceRef
  }

  predicate CanRecord(s: Store, id: string, r: Receipt) {
    && r.key.executionId in s.executions
    && (id in s.receipts ==> SameFacts(r, s.receipts[id]))
  }

  function Record(s: Store, id: string, r: Receipt): Store {
    if !CanRecord(s, id, r) || id in s.receipts then s
    else s.(receipts := s.receipts[id := r], recorded := s.recorded + [id])
  }

  /** First recorded receipt of an execution, whatever its attempt; empty when there is none. */
  function FirstReceipt(s: Store, executionId: string, ids: seq<string>): string {
    if ids == [] then ""
    else if ids[0] in s.receipts && s.receipts[ids[0]].key.executionId == executionId then ids[0]
    else FirstReceipt(s, executionId, ids[1..])
  }
}
