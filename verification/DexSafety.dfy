/**
 Safety of the dispatch protocol over every run.  Each attempt step is shown to keep the durable
 invariant and its own control-point assertion, and to change the shared state only in ways
 (`Guarantee`) that every other attempt's assertion survives.
 */
module DexSafety {
  import opened DexIdentity
  import opened DexAdmission
  import opened ExecutionStore
  import opened DexWire

  /** What the protocol needs of the foreign computations: collision-free digests and a decoder
      that only accepts evidence about the expected identity. */
  ghost predicate Sound(cfg: Config) {
    && (forall a, b :: cfg.digest(a) == cfg.digest(b) ==> a == b)
    && (forall a, b :: cfg.receiptId(a) == cfg.receiptId(b) ==> a == b)
    && (forall raw, b, d :: cfg.decode(raw, b, d).Some? ==> AboutBinding(cfg.decode(raw, b, d).value, b, d))
  }

  predicate AboutBinding(e: Evidence, b: Binding, digest: string) {
    && Id(e.executionId, e.attemptId) == IdOf(b)
    && e.bindingDigest == digest
    && e.authoritySha == b.authoritySha
    && e.executionSha == b.executionSha
  }

  ghost predicate Submap<K(!new), V>(m: map<K, V>, m': map<K, V>) {
    forall k :: k in m ==> k in m' && m'[k] == m[k]
  }

  // ---------------------------------------------------------------- the durable invariant, table by table

  type Journals = map<Id, AdmissionRecord>
  type Requests = map<Id, Request>
  type Owners = map<Id, Tid>
  type Receipts = map<string, Receipt>

  /** Each journalled decision is the one its first request called for. */
  ghost predicate JournalOk(cfg: Config, journal: Journals, asked: Requests) {
    && asked.Keys == journal.Keys
    && forall id :: id in journal ==> DecidedFor(cfg, id, journal[id], asked[id])
  }

  predicate DecidedFor(cfg: Config, id: Id, r: AdmissionRecord, q: Request) {
    IdOf(q.binding) == id && r == DecideFresh(q.binding, q.view, cfg.digest(q.binding))
  }

  /** Each fence belongs to an admitted identity, carries its digest, and is retired only with a receipt. */
  ghost predicate FencesOk(journal: Journals, fences: map<Id, Fence>, owner: Owners, settled: map<Id, string>,
                           receipts: Receipts)
  {
    && owner.Keys == fences.Keys
    && forall id :: id in fences ==> FenceOk(journal, id, fences[id]) && RetiredOk(id, fences[id], settled, receipts)
  }

  predicate FenceOk(journal: Journals, id: Id, f: Fence) {
    id in journal && journal[id].ruling.Admitted? && f.bindingDigest == journal[id].bindingDigest
  }

  predicate RetiredOk(id: Id, f: Fence, settled: map<Id, string>, receipts: Receipts) {
    f.state.Retired? ==> HasReceipt(id, settled, receipts)
  }

  predicate HasReceipt(id: Id, settled: map<Id, string>, receipts: Receipts) {
    id in settled && settled[id] in receipts && ReceiptFor(receipts[settled[id]], id)
  }

  predicate ReceiptFor(r: Receipt, id: Id) {
    r.key.executionId == id.executionId && r.key.attemptId == id.attemptId
  }

  /** The identity was admitted, for exactly this binding, by a live claim of the same generation. */
  predicate AdmittedFor(cfg: Config, journal: Journals, asked: Requests, b: Binding) {
    var id := IdOf(b);
    && id in journal
    && journal[id].ruling.Admitted?
    && journal[id].bindingDigest == cfg.digest(b)
    && journal[id].claimGeneration == b.claimGeneration
    && id in asked && asked[id] == Request(b, ClaimView(b.claimRef, b.claimGeneration, true))
  }

  /** No identity is dispatched twice, and only the attempt that created the fence row dispatches. */
  ghost predicate CallsOk(cfg: Config, journal: Journals, asked: Requests, owner: Owners, calls: seq<Call>) {
    && Once(calls)
    && forall i :: 0 <= i < |calls| ==> CallOk(cfg, journal, asked, owner, calls[i])
  }

  ghost predicate Once(calls: seq<Call>) {
    forall i, j :: 0 <= i < j < |calls| ==> IdOf(calls[i].binding) != IdOf(calls[j].binding)
  }

  predicate CallOk(cfg: Config, journal: Journals, asked: Requests, owner: Owners, c: Call) {
    && AdmittedFor(cfg, journal, asked, c.binding)
    && IdOf(c.binding) in owner && owner[IdOf(c.binding)] == c.tid
  }

  /** A receipt states what was admitted and dispatched for `b`, and nothing else. */
  predicate Agrees(cfg: Config, r: Receipt, b: Binding) {
    && ReceiptFor(r, IdOf(b))
    && r.key.bindingDigest == cfg.digest(b)
    && r.claimGeneration == b.claimGeneration
    && r.claimGeneration >= 1
    && r.authoritySha == b.authoritySha
    && r.executionSha == b.executionSha
  }

  /** A stored receipt agrees with the binding that was admitted and dispatched under its identity,
      and is quarantined exactly when its evidence drifted. */
  ghost predicate ReceiptsOk(cfg: Config, receipts: Receipts, origin: map<string, Evidence>, settled: map<Id, string>,
                             asked: Requests, owner: Owners, calls: seq<Call>)
  {
    forall rid :: rid in receipts ==>
      && rid in origin
      && ReceiptOk(cfg, rid, receipts[rid], origin[rid])
      && WasDispatched(cfg, receipts[rid], settled, asked, owner, calls)
  }

  predicate ReceiptOk(cfg: Config, rid: string, r: Receipt, e: Evidence) {
    rid == cfg.receiptId(r.key) && r == ReceiptOf(e)
  }

  function ReceiptIdentity(r: Receipt): Id {
    Id(r.key.executionId, r.key.attemptId)
  }

  predicate WasDispatched(cfg: Config, r: Receipt, settled: map<Id, string>, asked: Requests, owner: Owners,
                       calls: seq<Call>)
  {
    var id := ReceiptIdentity(r);
    && id in settled && id in asked && id in owner
    && Call(owner[id], asked[id].binding) in calls
    && Agrees(cfg, r, asked[id].binding)
  }

  ghost predicate SettledOk(receipts: Receipts, origin: map<string, Evidence>, settled: map<Id, string>) {
    origin.Keys == receipts.Keys && forall id :: id in settled ==> HasReceipt(id, settled, receipts)
  }

  ghost predicate SharedOk(cfg: Config, sh: Shared) {
    && SettledOk(sh.store.receipts, sh.origin, sh.settled)
    && JournalOk(cfg, sh.store.journal, sh.asked)
    && FencesOk(sh.store.journal, sh.store.fences, sh.owner, sh.settled, sh.store.receipts)
    && CallsOk(cfg, sh.store.journal, sh.asked, sh.owner, sh.dispatched)
    && ReceiptsOk(cfg, sh.store.receipts, sh.origin, sh.settled, sh.asked, sh.owner, sh.dispatched)
  }

  // ---------------------------------------------------------------- what one process and one attempt know

  ghost predicate WireOk(journal: Journals, w: Wire) {
    Submap(w.records, journal)
  }

  function Asked(th: Thread): Request {
    Request(th.binding, th.view)
  }

  /** The identity is journalled as admitted for this very request. */
  predicate Granted(cfg: Config, sh: Shared, q: Request) {
    && AdmittedFor(cfg, sh.store.journal, sh.asked, q.binding)
    && Matches(sh.store.journal[IdOf(q.binding)], q.binding, q.view, cfg.digest(q.binding))
  }

  /** The attempt holds the journalled admission of its own request. */
  predicate Holds(cfg: Config, sh: Shared, q: Request, adm: AdmissionRecord) {
    Granted(cfg, sh, q) && adm == sh.store.journal[IdOf(q.binding)]
  }

  predicate Called(calls: seq<Call>, tid: Tid, b: Binding) {
    Call(tid, b) in calls
  }

  ghost predicate Uncalled(calls: seq<Call>, id: Id) {
    forall i :: 0 <= i < |calls| ==> IdOf(calls[i].binding) != id
  }

  predicate Stored(cfg: Config, receipts: Receipts, rid: string, b: Binding) {
    rid in receipts && Agrees(cfg, receipts[rid], b)
  }

  /** What an outcome tells the caller about the durable state. */
  predicate OutcomeOk(cfg: Config, sh: Shared, q: Request, o: Outcome) {
    match o
    case Denial(code, detail) =>
      IdOf(q.binding) in sh.store.journal
      && Replay(sh.store.journal[IdOf(q.binding)], q.binding, q.view, cfg.digest(q.binding)) == Denied(code, detail)
    case Ambiguous => Granted(cfg, sh, q)
    case EvidenceRejected => Granted(cfg, sh, q)
    case Completed(rid) => Granted(cfg, sh, q) && Stored(cfg, sh.store.receipts, rid, q.binding)
    case Duplicate(rid, raced) =>
      && Granted(cfg, sh, q)
      && rid in sh.store.receipts && sh.store.receipts[rid].key.executionId == q.binding.executionId
      && (raced ==> Stored(cfg, sh.store.receipts, rid, q.binding))
    case Raised(_) => true
    case Untyped => Granted(cfg, sh, q) && q.binding.claimGeneration == 0
  }

  /** The assertion at each control point. */
  ghost predicate ThreadOk(cfg: Config, sh: Shared, tid: Tid, th: Thread) {
    match th.pc
    case Deciding => true
    case Loading => true
    case Journaling(r) => r == DecideFresh(th.binding, th.view, cfg.digest(th.binding))
    case Locking(adm) => Holds(cfg, sh, Asked(th), adm)
    case Checking(adm) => Holds(cfg, sh, Asked(th), adm)
    case Probing(adm) => Holds(cfg, sh, Asked(th), adm)
    case Duplicates(adm) => Holds(cfg, sh, Asked(th), adm)
    case Reserving(adm) => Holds(cfg, sh, Asked(th), adm)
    case Dispatching(adm) => Holds(cfg, sh, Asked(th), adm) && Window(sh, tid, IdOf(th.binding))
    case MarkingDispatched(adm) => Holds(cfg, sh, Asked(th), adm) && Called(sh.dispatched, tid, th.binding)
    case Collecting(adm) => Holds(cfg, sh, Asked(th), adm) && Called(sh.dispatched, tid, th.binding)
    case Recording(adm, r, e) =>
      Holds(cfg, sh, Asked(th), adm) && Called(sh.dispatched, tid, th.binding) && r == ReceiptOf(e) && Agrees(cfg, r, th.binding)
    case Comparing(adm, r) =>
      Holds(cfg, sh, Asked(th), adm) && Called(sh.dispatched, tid, th.binding) && Agrees(cfg, r, th.binding)
    case Retiring(adm, o) =>
      && Holds(cfg, sh, Asked(th), adm) && Called(sh.dispatched, tid, th.binding) && OutcomeOk(cfg, sh, Asked(th), o)
      && HasReceipt(IdOf(th.binding), sh.settled, sh.store.receipts)
    case Fencing(adm, o) =>
      Holds(cfg, sh, Asked(th), adm) && Called(sh.dispatched, tid, th.binding) && OutcomeOk(cfg, sh, Asked(th), o)
    case Finished(o) => OutcomeOk(cfg, sh, Asked(th), o)
  }

  /** The attempt owns the dispatch window of `id` and has not used it. */
  ghost predicate Window(sh: Shared, tid: Tid, id: Id) {
    id in sh.owner && sh.owner[id] == tid && Uncalled(sh.dispatched, id)
  }

  predicate Forward(before: Fence, after: Fence) {
    after.bindingDigest == before.bindingDigest
    && (after.state == before.state || Allowed(before.state, after.state))
  }

  ghost predicate FencesForward(fences: map<Id, Fence>, fences': map<Id, Fence>) {
    forall id :: id in fences ==> id in fences' && Forward(fences[id], fences'[id])
  }

  /** Rows are only added, and a fence only moves forward. */
  ghost predicate Grows(sh: Shared, sh': Shared) {
    && sh.store.executions <= sh'.store.executions
    && Submap(sh.store.journal, sh'.store.journal)
    && Submap(sh.asked, sh'.asked)
    && Submap(sh.owner, sh'.owner)
    && Submap(sh.store.receipts, sh'.store.receipts)
    && Submap(sh.origin, sh'.origin)
    && Submap(sh.settled, sh'.settled)
    && FencesForward(sh.store.fences, sh'.store.fences)
    && sh.dispatched <= sh'.dispatched
  }

  /** How one attempt may change the shared state; a dispatch is only ever logged under its own name. */
  ghost predicate Guarantee(sh: Shared, sh': Shared, tid: Tid) {
    && Grows(sh, sh')
    && forall i :: |sh.dispatched| <= i < |sh'.dispatched| ==> sh'.dispatched[i].tid == tid
  }

  ghost predicate SystemOk(cfg: Config, s: System) {
    && SharedOk(cfg, s.shared)
    && (forall w :: w in s.wires ==> WireOk(s.shared.store.journal, s.wires[w]))
    && (forall t :: t in s.threads ==> t < s.spawned && ThreadOk(cfg, s.shared, t, s.threads[t]))
  }

  // ---------------------------------------------------------------- each table's invariant survives growth of the others

  lemma FencesSurvive(journal: Journals, journal': Journals, fences: map<Id, Fence>, owner: Owners,
                      settled: map<Id, string>, settled': map<Id, string>, receipts: Receipts, receipts': Receipts)
    requires FencesOk(journal, fences, owner, settled, receipts)
    requires Submap(journal, journal') && Submap(settled, settled') && Submap(receipts, receipts')
    ensures FencesOk(journal', fences, owner, settled', receipts')
  {
  }

  lemma CallsSurvive(cfg: Config, journal: Journals, journal': Journals, asked: Requests, asked': Requests,
                     owner: Owners, owner': Owners, calls: seq<Call>)
    requires CallsOk(cfg, journal, asked, owner, calls)
    requires Submap(journal, journal') && Submap(asked, asked') && Submap(owner, owner')
    ensures CallsOk(cfg, journal', asked', owner', calls)
  {
  }

  lemma ReceiptsSurvive(cfg: Config, receipts: Receipts, origin: map<string, Evidence>, settled: map<Id, string>,
                        asked: Requests, asked': Requests, owner: Owners, owner': Owners,
                        calls: seq<Call>, calls': seq<Call>)
    requires ReceiptsOk(cfg, receipts, origin, settled, asked, owner, calls)
    requires Submap(asked, asked') && Submap(owner, owner') && calls <= calls'
    ensures ReceiptsOk(cfg, receipts, origin, settled, asked', owner', calls')
  {
    forall rid | rid in receipts
      ensures WasDispatched(cfg, receipts[rid], settled, asked', owner', calls')
    {
      var id := ReceiptIdentity(receipts[rid]);
      var c := Call(owner[id], asked[id].binding);
      assert c in calls' by {
        var i :| 0 <= i < |calls| && calls[i] == c;
        assert calls'[i] == c;
      }
    }
  }

  // ---------------------------------------------------------------- assertions survive other attempts

  lemma OutcomeSurvives(cfg: Config, sh: Shared, sh': Shared, q: Request, o: Outcome)
    requires Grows(sh, sh') && OutcomeOk(cfg, sh, q, o)
    ensures OutcomeOk(cfg, sh', q, o)
  {
  }

  lemma HoldingSurvives(cfg: Config, sh: Shared, sh': Shared, q: Request, adm: AdmissionRecord)
    requires Grows(sh, sh') && Holds(cfg, sh, q, adm)
    ensures Holds(cfg, sh', q, adm)
  {
  }

  lemma CalledSurvives(sh: Shared, sh': Shared, tid: Tid, b: Binding)
    requires Grows(sh, sh') && Called(sh.dispatched, tid, b)
    ensures Called(sh'.dispatched, tid, b)
  {
    var i :| 0 <= i < |sh.dispatched| && sh.dispatched[i] == Call(tid, b);
    assert sh'.dispatched[i] == Call(tid, b);
  }

  /** Another attempt cannot use, or hand out again, a dispatch window that is already owned. */
  lemma WindowSurvives(cfg: Config, sh: Shared, sh': Shared, tid: Tid, other: Tid, id: Id)
    requires CallsOk(cfg, sh'.store.journal, sh'.asked, sh'.owner, sh'.dispatched)
    requires Guarantee(sh, sh', tid) && other != tid && Window(sh, other, id)
    ensures Window(sh', other, id)
  {
    forall i | 0 <= i < |sh'.dispatched| ensures IdOf(sh'.dispatched[i].binding) != id {
      if i < |sh.dispatched| {
        assert sh'.dispatched[i] == sh.dispatched[i];
      } else {
        assert CallOk(cfg, sh'.store.journal, sh'.asked, sh'.owner, sh'.dispatched[i]);
      }
    }
  }

  lemma Interference(cfg: Config, sh: Shared, sh': Shared, tid: Tid, other: Tid, th: Thread)
    requires CallsOk(cfg, sh'.store.journal, sh'.asked, sh'.owner, sh'.dispatched)
    requires Guarantee(sh, sh', tid) && other != tid && ThreadOk(cfg, sh, other, th)
    ensures ThreadOk(cfg, sh', other, th)
  {
    match th.pc
    case Deciding =>
    case Loading =>
    case Journaling(_) =>
    case Finished(o) => OutcomeSurvives(cfg, sh, sh', Asked(th), o);
    case Dispatching(adm) =>
      HoldingSurvives(cfg, sh, sh', Asked(th), adm);
      WindowSurvives(cfg, sh, sh', tid, other, IdOf(th.binding));
    case Retiring(adm, o) =>
      HoldingSurvives(cfg, sh, sh', Asked(th), adm);
      CalledSurvives(sh, sh', other, th.binding);
      OutcomeSurvives(cfg, sh, sh', Asked(th), o);
    case Fencing(adm, o) =>
      HoldingSurvives(cfg, sh, sh', Asked(th), adm);
      CalledSurvives(sh, sh', other, th.binding);
      OutcomeSurvives(cfg, sh, sh', Asked(th), o);
    case _ =>
      HoldingSurvives(cfg, sh, sh', Asked(th), th.pc.adm);
      if Called(sh.dispatched, other, th.binding) {
        CalledSurvives(sh, sh', other, th.binding);
      }
  }

  // ---------------------------------------------------------------- each step keeps the invariant

  /** What every step owes, stated once. */
  ghost predicate StepOk(cfg: Config, sh: Shared, tid: Tid, th: Thread, l: Local) {
    && SharedOk(cfg, l.shared)
    && WireOk(l.shared.store.journal, l.wire)
    && ThreadOk(cfg, l.shared, tid, th.(pc := l.pc))
    && Guarantee(sh, l.shared, tid)
  }

  lemma ReplayHolds(cfg: Config, sh: Shared, q: Request, r: AdmissionRecord)
    requires Sound(cfg) && JournalOk(cfg, sh.store.journal, sh.asked)
    requires IdOf(q.binding) in sh.store.journal && r == sh.store.journal[IdOf(q.binding)]
    ensures var ruling := Replay(r, q.binding, q.view, cfg.digest(q.binding));
            if ruling.Admitted? then Holds(cfg, sh, q, r)
            else OutcomeOk(cfg, sh, q, Denial(ruling.code, ruling.detail))
  {
    if Replay(r, q.binding, q.view, cfg.digest(q.binding)).Admitted? {
      var first := sh.asked[IdOf(q.binding)];
      assert DecidedFor(cfg, IdOf(q.binding), r, first);
      assert cfg.digest(first.binding) == cfg.digest(q.binding);
    }
  }

  lemma GrowsRefl(sh: Shared)
    ensures Grows(sh, sh)
  {
  }

  lemma SharedJournal(cfg: Config, sh: Shared)
    requires SharedOk(cfg, sh)
    ensures JournalOk(cfg, sh.store.journal, sh.asked)
  {
  }

  /** Answering from the journalled decision leaves the attempt with a true assertion. */
  lemma AnswerOk(cfg: Config, sh: Shared, tid: Tid, th: Thread)
    requires Sound(cfg) && JournalOk(cfg, sh.store.journal, sh.asked) && IdOf(th.binding) in sh.store.journal
    ensures var r := sh.store.journal[IdOf(th.binding)];
            ThreadOk(cfg, sh, tid, th.(pc := After(Replay(r, th.binding, th.view, cfg.digest(th.binding)), r)))
  {
    hide Sound, JournalOk, Replay, Holds, OutcomeOk;
    ReplayHolds(cfg, sh, Asked(th), sh.store.journal[IdOf(th.binding)]);
  }

  lemma RecordCached(journal: Journals, w: Wire, id: Id)
    requires WireOk(journal, w) && id in journal
    ensures WireOk(journal, w.(records := w.records[id := journal[id]]))
  {
  }

  lemma DecidingOk(cfg: Config, sh: Shared, w: Wire, tid: Tid, th: Thread)
    requires Sound(cfg) && SharedOk(cfg, sh) && WireOk(sh.store.journal, w) && th.pc.Deciding?
    ensures StepOk(cfg, sh, tid, th, StepDeciding(cfg, sh, w, th))
  {
    hide Sound, SharedOk, Grows, Replay, ThreadOk, After;
    GrowsRefl(sh);
    SharedJournal(cfg, sh);
    PlainOk(cfg, sh, tid, th);
    if IdOf(th.binding) in w.records {
      AnswerOk(cfg, sh, tid, th);
    }
  }

  /** Control points that assert nothing, or that the decision is the one the request calls for. */
  lemma PlainOk(cfg: Config, sh: Shared, tid: Tid, th: Thread)
    ensures ThreadOk(cfg, sh, tid, th.(pc := Loading))
    ensures ThreadOk(cfg, sh, tid, th.(pc := Finished(Raised(StateUnavailable))))
    ensures ThreadOk(cfg, sh, tid, th.(pc := Journaling(DecideFresh(th.binding, th.view, cfg.digest(th.binding)))))
  {
  }

  lemma LoadingOk(cfg: Config, sh: Shared, w: Wire, tid: Tid, th: Thread, fault: Fault)
    requires Sound(cfg) && SharedOk(cfg, sh) && WireOk(sh.store.journal, w) && th.pc.Loading?
    ensures StepOk(cfg, sh, tid, th, StepLoading(cfg, sh, w, th, fault))
  {
    hide Sound, SharedOk, Grows, Replay, ThreadOk, After, WireOk, DecideFresh;
    GrowsRefl(sh);
    SharedJournal(cfg, sh);
    PlainOk(cfg, sh, tid, th);
    if IdOf(th.binding) in sh.store.journal {
      AnswerOk(cfg, sh, tid, th);
      RecordCached(sh.store.journal, w, IdOf(th.binding));
    }
  }

  lemma FreshIdentity(cfg: Config, q: Request)
    ensures var digest := cfg.digest(q.binding);
            var r := DecideFresh(q.binding, q.view, digest);
            r.id == IdOf(q.binding) && Replay(r, q.binding, q.view, digest) == r.ruling
  {
  }

  /** The state after journalling a decision made for the attempt's request. */
  function Journalled(sh: Shared, th: Thread, r: AdmissionRecord): Shared {
    sh.(store := Journal(sh.store, r), asked := sh.asked[r.id := Asked(th)])
  }

  lemma JournalAdded(cfg: Config, journal: Journals, asked: Requests, r: AdmissionRecord, q: Request)
    requires JournalOk(cfg, journal, asked) && r.id !in journal && DecidedFor(cfg, r.id, r, q)
    ensures JournalOk(cfg, journal[r.id := r], asked[r.id := q])
    ensures Submap(journal, journal[r.id := r]) && Submap(asked, asked[r.id := q])
  {
    hide DecidedFor;
  }

  /** Adding a journal row keeps everything that was already true. */
  lemma JournalGrows(cfg: Config, sh: Shared, th: Thread, r: AdmissionRecord)
    requires SharedOk(cfg, sh) && r == DecideFresh(th.binding, th.view, cfg.digest(th.binding))
    requires r.id !in sh.store.journal
    ensures SharedOk(cfg, Journalled(sh, th, r)) && Grows(sh, Journalled(sh, th, r))
  {
    FreshIdentity(cfg, Asked(th));
    assert DecidedFor(cfg, r.id, r, Asked(th));
    hide JournalOk, FencesOk, CallsOk, ReceiptsOk, SettledOk, DecideFresh, DecidedFor, Submap, FencesForward;
    var journal', asked' := sh.store.journal[r.id := r], sh.asked[r.id := Asked(th)];
    GrowsRefl(sh);
    JournalAdded(cfg, sh.store.journal, sh.asked, r, Asked(th));
    FencesSurvive(sh.store.journal, journal', sh.store.fences, sh.owner, sh.settled, sh.settled,
                  sh.store.receipts, sh.store.receipts);
    CallsSurvive(cfg, sh.store.journal, journal', sh.asked, asked', sh.owner, sh.owner, sh.dispatched);
    ReceiptsSurvive(cfg, sh.store.receipts, sh.origin, sh.settled, sh.asked, asked', sh.owner, sh.owner,
                    sh.dispatched, sh.dispatched);
  }

  lemma JournalingShared(cfg: Config, sh: Shared, w: Wire, th: Thread, r: AdmissionRecord, fault: Fault)
    requires Sound(cfg) && SharedOk(cfg, sh) && WireOk(sh.store.journal, w)
    requires r == DecideFresh(th.binding, th.view, cfg.digest(th.binding))
    ensures var l := StepJournaling(sh, w, th, r, fault);
            SharedOk(cfg, l.shared) && Grows(sh, l.shared) && WireOk(l.shared.store.journal, w)
  {
    hide Sound, SharedOk, Grows, Replay, After, WireOk, DecideFresh;
    GrowsRefl(sh);
    if r.id !in sh.store.journal {
      JournalGrows(cfg, sh, th, r);
      WireSurvives(sh, Journalled(sh, th, r), w);
    }
  }

  /** The two ways out of journalling: the store refused or failed, or the row is there and is answered from. */
  lemma JournalingWays(sh: Shared, w: Wire, th: Thread, r: AdmissionRecord, fault: Fault)
    ensures var l := StepJournaling(sh, w, th, r, fault);
            && l.shared.dispatched == sh.dispatched
            && ((l.pc == Finished(Raised(StateUnavailable)) && l.wire == w)
                || (&& r.id in l.shared.store.journal && l.shared.store.journal[r.id] == r
                    && l.wire == w.(records := w.records[r.id := l.shared.store.journal[r.id]])
                    && l.pc == After(r.ruling, r)))
  {
    hide After;
  }

  lemma JournalingOk(cfg: Config, sh: Shared, w: Wire, tid: Tid, th: Thread, fault: Fault)
    requires Sound(cfg) && SharedOk(cfg, sh) && WireOk(sh.store.journal, w)
    requires th.pc.Journaling? && ThreadOk(cfg, sh, tid, th)
    ensures StepOk(cfg, sh, tid, th, StepJournaling(sh, w, th, th.pc.decision, fault))
  {
    var r := th.pc.decision;
    assert r == DecideFresh(th.binding, th.view, cfg.digest(th.binding));
    hide Sound, SharedOk, Grows, Replay, ThreadOk, After, WireOk, DecideFresh, StepJournaling;
    var l := StepJournaling(sh, w, th, r, fault);
    JournalingWays(sh, w, th, r, fault);
    JournalingShared(cfg, sh, w, th, r, fault);
    PlainOk(cfg, l.shared, tid, th);
    FreshIdentity(cfg, Asked(th));
    if r.id in l.shared.store.journal && l.shared.store.journal[r.id] == r {
      SharedJournal(cfg, l.shared);
      AnswerOk(cfg, l.shared, tid, th);
      RecordCached(l.shared.store.journal, w, r.id);
    }
  }

  lemma {:induction false} FirstReceiptStored(s: Store, x: string, ids: seq<string>)
    ensures var rid := FirstReceipt(s, x, ids);
            rid != "" ==> rid in s.receipts && s.receipts[rid].key.executionId == x
  {
    if ids != [] {
      FirstReceiptStored(s, x, ids[1..]);
    }
  }

  lemma BeforeReserveOk(cfg: Config, sh: Shared, w: Wire, tid: Tid, th: Thread, env: Env)
    requires Sound(cfg) && SharedOk(cfg, sh) && WireOk(sh.store.journal, w) && ThreadOk(cfg, sh, tid, th)
    requires th.pc.Locking? || th.pc.Checking? || th.pc.Probing? || th.pc.Duplicates?
    ensures StepOk(cfg, sh, tid, th, Step(cfg, sh, w, tid, th, env))
  {
    hide SharedOk, Grows, AdmittedFor;
    GrowsRefl(sh);
    FirstReceiptStored(sh.store, th.binding.executionId, sh.store.recorded);
  }

  /** The state after the fence row of `id` was created by attempt `tid`. */
  function Reserved1(sh: Shared, tid: Tid, id: Id, digest: string): Shared {
    sh.(store := Reserve(sh.store, id, digest), owner := sh.owner[id := tid])
  }

  lemma FenceAdded(journal: Journals, fences: map<Id, Fence>, owner: Owners, settled: map<Id, string>,
                   receipts: Receipts, id: Id, f: Fence, tid: Tid)
    requires FencesOk(journal, fences, owner, settled, receipts)
    requires id !in fences && FenceOk(journal, id, f) && !f.state.Retired?
    ensures FencesOk(journal, fences[id := f], owner[id := tid], settled, receipts)
    ensures Submap(owner, owner[id := tid]) && FencesForward(fences, fences[id := f])
  {
  }

  /** The step that creates the fence row opens the dispatch window for its own attempt. */
  lemma ReserveGrows(cfg: Config, sh: Shared, tid: Tid, b: Binding, digest: string)
    requires SharedOk(cfg, sh) && IdOf(b) !in sh.store.fences
    requires FenceOk(sh.store.journal, IdOf(b), Fence(digest, Reserved))
    ensures var sh' := Reserved1(sh, tid, IdOf(b), digest);
            SharedOk(cfg, sh') && Grows(sh, sh') && Window(sh', tid, IdOf(b))
  {
    hide JournalOk, FencesOk, CallsOk, ReceiptsOk, SettledOk;
    var id := IdOf(b);
    var owner' := sh.owner[id := tid];
    FenceAdded(sh.store.journal, sh.store.fences, sh.owner, sh.settled, sh.store.receipts, id,
               Fence(digest, Reserved), tid);
    CallsSurvive(cfg, sh.store.journal, sh.store.journal, sh.asked, sh.asked, sh.owner, owner', sh.dispatched);
    ReceiptsSurvive(cfg, sh.store.receipts, sh.origin, sh.settled, sh.asked, sh.asked, sh.owner, owner',
                    sh.dispatched, sh.dispatched);
    NoCallWithoutFence(cfg, sh, id);
  }

  lemma NoCallWithoutFence(cfg: Config, sh: Shared, id: Id)
    requires SharedOk(cfg, sh) && id !in sh.store.fences
    ensures Uncalled(sh.dispatched, id)
  {
    hide JournalOk, ReceiptsOk;
    forall i | 0 <= i < |sh.dispatched| ensures IdOf(sh.dispatched[i].binding) != id {
      assert CallOk(cfg, sh.store.journal, sh.asked, sh.owner, sh.dispatched[i]);
    }
  }

  lemma ReservingOk(cfg: Config, sh: Shared, w: Wire, tid: Tid, th: Thread, fault: Fault)
    requires SharedOk(cfg, sh) && WireOk(sh.store.journal, w) && th.pc.Reserving? && ThreadOk(cfg, sh, tid, th)
    ensures StepOk(cfg, sh, tid, th, StepReserving(sh, w, tid, th, th.pc.adm, fault))
  {
    hide SharedOk, Grows, Window;
    var id := IdOf(th.binding);
    var l := StepReserving(sh, w, tid, th, th.pc.adm, fault);
    GrowsRefl(sh);
    if id !in sh.store.fences {
      ReserveGrows(cfg, sh, tid, th.binding, th.pc.adm.bindingDigest);
      assert l.shared == sh || l.shared == Reserved1(sh, tid, id, th.pc.adm.bindingDigest);
    } else {
      assert l.shared == sh;
    }
  }

  /** Using the window logs the only dispatch of its identity. */
  lemma DispatchGrows(cfg: Config, sh: Shared, tid: Tid, b: Binding)
    requires SharedOk(cfg, sh) && AdmittedFor(cfg, sh.store.journal, sh.asked, b) && Window(sh, tid, IdOf(b))
    ensures var sh' := sh.(dispatched := sh.dispatched + [Call(tid, b)]);
            SharedOk(cfg, sh') && Grows(sh, sh')
  {
    hide JournalOk, FencesOk, ReceiptsOk, SettledOk, AdmittedFor;
    var calls' := sh.dispatched + [Call(tid, b)];
    assert calls'[|sh.dispatched|] == Call(tid, b);
    assert Once(calls');
    ReceiptsSurvive(cfg, sh.store.receipts, sh.origin, sh.settled, sh.asked, sh.asked, sh.owner, sh.owner,
                    sh.dispatched, calls');
  }

  lemma DispatchingOk(cfg: Config, sh: Shared, w: Wire, tid: Tid, th: Thread, accepted: bool)
    requires SharedOk(cfg, sh) && WireOk(sh.store.journal, w) && th.pc.Dispatching? && ThreadOk(cfg, sh, tid, th)
    ensures StepOk(cfg, sh, tid, th, StepDispatching(sh, w, tid, th, th.pc.adm, accepted))
  {
    hide SharedOk, Grows, Window, AdmittedFor;
    DispatchGrows(cfg, sh, tid, th.binding);
    assert (sh.dispatched + [Call(tid, th.binding)])[|sh.dispatched|] == Call(tid, th.binding);
  }

  lemma FenceMoved(journal: Journals, fences: map<Id, Fence>, owner: Owners, settled: map<Id, string>,
                   receipts: Receipts, id: Id, to: FenceState)
    requires FencesOk(journal, fences, owner, settled, receipts)
    requires id in fences && Allowed(fences[id].state, to) && (to.Retired? ==> HasReceipt(id, settled, receipts))
    ensures var fences' := fences[id := fences[id].(state := to)];
            FencesOk(journal, fences', owner, settled, receipts) && FencesForward(fences, fences')
  {
    assert fences[id := fences[id].(state := to)].Keys == fences.Keys;
  }

  /** Moving a fence forward keeps the invariant, provided a retired fence has its receipt. */
  lemma TransitionOk(cfg: Config, sh: Shared, id: Id, to: FenceState, fault: Fault)
    requires SharedOk(cfg, sh) && (to.Retired? ==> HasReceipt(id, sh.settled, sh.store.receipts))
    ensures var sh' := Landed(sh, fault, Transition(sh.store, id, to));
            SharedOk(cfg, sh') && Grows(sh, sh')
            && sh' == sh.(store := sh.store.(fences := sh'.store.fences))
  {
    hide JournalOk, FencesOk, CallsOk, ReceiptsOk, SettledOk, FencesForward;
    GrowsRefl(sh);
    if CanTransition(sh.store, id, to) {
      FenceMoved(sh.store.journal, sh.store.fences, sh.owner, sh.settled, sh.store.receipts, id, to);
    }
  }

  lemma MarkingOk(cfg: Config, sh: Shared, w: Wire, tid: Tid, th: Thread, fault: Fault)
    requires SharedOk(cfg, sh) && WireOk(sh.store.journal, w)
    requires th.pc.MarkingDispatched? && ThreadOk(cfg, sh, tid, th)
    ensures StepOk(cfg, sh, tid, th, StepMarking(sh, w, th, th.pc.adm, fault))
  {
    hide SharedOk, Grows, Granted;
    TransitionOk(cfg, sh, IdOf(th.binding), FenceState.Dispatched, fault);
    HoldingSurvives(cfg, sh, StepMarking(sh, w, th, th.pc.adm, fault).shared, Asked(th), th.pc.adm);
  }

  lemma CollectingOk(cfg: Config, sh: Shared, w: Wire, tid: Tid, th: Thread, collected: Option<string>)
    requires Sound(cfg) && SharedOk(cfg, sh) && WireOk(sh.store.journal, w)
    requires th.pc.Collecting? && ThreadOk(cfg, sh, tid, th)
    ensures StepOk(cfg, sh, tid, th, StepCollecting(cfg, sh, w, th, th.pc.adm, collected))
  {
    hide SharedOk, Grows;
    GrowsRefl(sh);
    if collected.Some? {
      var decoded := cfg.decode(collected.value, th.binding, th.pc.adm.bindingDigest);
      assert decoded.Some? ==> AboutBinding(decoded.value, th.binding, th.pc.adm.bindingDigest);
    }
  }

  /** Only the attempt that owns the fence row has called `dispatch`. */
  lemma CallerOwns(cfg: Config, sh: Shared, tid: Tid, b: Binding)
    requires CallsOk(cfg, sh.store.journal, sh.asked, sh.owner, sh.dispatched) && Called(sh.dispatched, tid, b)
    ensures CallOk(cfg, sh.store.journal, sh.asked, sh.owner, Call(tid, b))
  {
    var i :| 0 <= i < |sh.dispatched| && sh.dispatched[i] == Call(tid, b);
    assert CallOk(cfg, sh.store.journal, sh.asked, sh.owner, sh.dispatched[i]);
  }

  lemma ReceiptSettled(sh: Shared, rid: string, r: Receipt, e: Evidence)
    requires SettledOk(sh.store.receipts, sh.origin, sh.settled)
    requires rid !in sh.store.receipts && CanRecord(sh.store, rid, r)
    ensures var sh' := Insert(sh, rid, r, e);
            && sh'.store.receipts == sh.store.receipts[rid := r]
            && SettledOk(sh'.store.receipts, sh'.origin, sh'.settled)
            && HasReceipt(ReceiptIdentity(r), sh'.settled, sh'.store.receipts)
            && Submap(sh.store.receipts, sh'.store.receipts) && Submap(sh.origin, sh'.origin)
            && Submap(sh.settled, sh'.settled)
  {
  }

  lemma ReceiptAdded(cfg: Config, receipts: Receipts, origin: map<string, Evidence>,
                     settled: map<Id, string>, settled': map<Id, string>, asked: Requests, owner: Owners,
                     calls: seq<Call>, rid: string, r: Receipt, e: Evidence)
    requires ReceiptsOk(cfg, receipts, origin, settled, asked, owner, calls) && Submap(settled, settled')
    requires rid !in receipts && ReceiptOk(cfg, rid, r, e) && WasDispatched(cfg, r, settled', asked, owner, calls)
    ensures ReceiptsOk(cfg, receipts[rid := r], origin[rid := e], settled', asked, owner, calls)
  {
  }

  /** Storing a receipt that agrees with its dispatched binding keeps the invariant. */
  lemma InsertOk(cfg: Config, sh: Shared, tid: Tid, b: Binding, r: Receipt, e: Evidence)
    requires SharedOk(cfg, sh) && Called(sh.dispatched, tid, b) && r == ReceiptOf(e) && Agrees(cfg, r, b)
    requires CanRecord(sh.store, cfg.receiptId(r.key), r) && cfg.receiptId(r.key) !in sh.store.receipts
    ensures var sh' := Insert(sh, cfg.receiptId(r.key), r, e);
            SharedOk(cfg, sh') && Grows(sh, sh') && HasReceipt(IdOf(b), sh'.settled, sh'.store.receipts)
  {
    hide JournalOk, FencesOk, CallsOk, ReceiptsOk, SettledOk, FencesForward;
    var rid := cfg.receiptId(r.key);
    var sh' := Insert(sh, rid, r, e);
    CallerOwns(cfg, sh, tid, b);
    assert ReceiptIdentity(r) == IdOf(b);
    ReceiptSettled(sh, rid, r, e);
    ReceiptAdded(cfg, sh.store.receipts, sh.origin, sh.settled, sh'.settled, sh.asked, sh.owner, sh.dispatched,
                 rid, r, e);
    FencesSurvive(sh.store.journal, sh.store.journal, sh.store.fences, sh.owner, sh.settled, sh'.settled,
                  sh.store.receipts, sh'.store.receipts);
    GrowsRefl(sh);
  }

  /** An identifier already in use stands for a receipt of the same identity. */
  lemma StoredReceipt(cfg: Config, sh: Shared, r: Receipt)
    requires Sound(cfg) && SharedOk(cfg, sh) && cfg.receiptId(r.key) in sh.store.receipts
    ensures sh.store.receipts[cfg.receiptId(r.key)].key == r.key
    ensures HasReceipt(ReceiptIdentity(r), sh.settled, sh.store.receipts)
  {
    hide JournalOk, FencesOk, CallsOk;
    var rid := cfg.receiptId(r.key);
    assert ReceiptOk(cfg, rid, sh.store.receipts[rid], sh.origin[rid]);
  }

  lemma RecordingOk(cfg: Config, sh: Shared, w: Wire, tid: Tid, th: Thread, fault: Fault)
    requires Sound(cfg) && SharedOk(cfg, sh) && WireOk(sh.store.journal, w)
    requires th.pc.Recording? && ThreadOk(cfg, sh, tid, th)
    ensures StepOk(cfg, sh, tid, th, StepRecording(cfg, sh, w, th, th.pc, fault))
  {
    hide SharedOk, Grows, Sound, AdmittedFor, HasReceipt;
    var r, rid := th.pc.receipt, cfg.receiptId(th.pc.receipt.key);
    assert ReceiptIdentity(r) == IdOf(th.binding);
    GrowsRefl(sh);
    if rid in sh.store.receipts {
      StoredReceipt(cfg, sh, r);
    } else if CanRecord(sh.store, rid, r) {
      InsertOk(cfg, sh, tid, th.binding, r, th.pc.evidence);
    }
  }

  lemma ComparingOk(cfg: Config, sh: Shared, w: Wire, tid: Tid, th: Thread, fault: Fault)
    requires Sound(cfg) && SharedOk(cfg, sh) && WireOk(sh.store.journal, w)
    requires th.pc.Comparing? && ThreadOk(cfg, sh, tid, th)
    ensures StepOk(cfg, sh, tid, th, StepComparing(cfg, sh, w, th, th.pc, fault))
  {
    hide SharedOk, Grows, Sound, AdmittedFor, HasReceipt;
    var r := th.pc.receipt;
    assert ReceiptIdentity(r) == IdOf(th.binding);
    GrowsRefl(sh);
    if cfg.receiptId(r.key) in sh.store.receipts {
      StoredReceipt(cfg, sh, r);
    }
  }

  lemma ClosingOk(cfg: Config, sh: Shared, w: Wire, tid: Tid, th: Thread, env: Env)
    requires SharedOk(cfg, sh) && WireOk(sh.store.journal, w) && ThreadOk(cfg, sh, tid, th)
    requires th.pc.Retiring? || th.pc.Fencing?
    ensures StepOk(cfg, sh, tid, th, Step(cfg, sh, w, tid, th, env))
  {
    hide SharedOk, Grows, OutcomeOk, HasReceipt, Holds;
    var to := if th.pc.Retiring? then Retired else Fenced;
    TransitionOk(cfg, sh, IdOf(th.binding), to, env.fault);
    var sh' := Landed(sh, env.fault, Transition(sh.store, IdOf(th.binding), to));
    OutcomeSurvives(cfg, sh, sh', Asked(th), th.pc.outcome);
    RaisedOk(cfg, sh', Asked(th));
  }

  lemma RaisedOk(cfg: Config, sh: Shared, q: Request)
    ensures OutcomeOk(cfg, sh, q, Raised(StateUnavailable)) && OutcomeOk(cfg, sh, q, Raised(WireCode.FenceConflict))
  {
  }

  lemma AttemptStepOk(cfg: Config, sh: Shared, w: Wire, tid: Tid, th: Thread, env: Env)
    requires Sound(cfg) && SharedOk(cfg, sh) && WireOk(sh.store.journal, w) && ThreadOk(cfg, sh, tid, th)
    ensures StepOk(cfg, sh, tid, th, Step(cfg, sh, w, tid, th, env))
  {
    hide Sound, SharedOk, WireOk, StepOk;
    match th.pc
    case Deciding => DecidingOk(cfg, sh, w, tid, th);
    case Loading => LoadingOk(cfg, sh, w, tid, th, env.fault);
    case Journaling(_) => JournalingOk(cfg, sh, w, tid, th, env.fault);
    case Reserving(_) => ReservingOk(cfg, sh, w, tid, th, env.fault);
    case Dispatching(_) => DispatchingOk(cfg, sh, w, tid, th, env.accepted);
    case MarkingDispatched(_) => MarkingOk(cfg, sh, w, tid, th, env.fault);
    case Collecting(_) => CollectingOk(cfg, sh, w, tid, th, env.collected);
    case Recording(_, _, _) => RecordingOk(cfg, sh, w, tid, th, env.fault);
    case Comparing(_, _) => ComparingOk(cfg, sh, w, tid, th, env.fault);
    case Retiring(_, _) => ClosingOk(cfg, sh, w, tid, th, env);
    case Fencing(_, _) => ClosingOk(cfg, sh, w, tid, th, env);
    case Finished(_) => StutterOk(cfg, sh, w, tid, th);
    case _ => BeforeReserveOk(cfg, sh, w, tid, th, env);
  }

  lemma StutterOk(cfg: Config, sh: Shared, w: Wire, tid: Tid, th: Thread)
    requires SharedOk(cfg, sh) && WireOk(sh.store.journal, w) && ThreadOk(cfg, sh, tid, th)
    ensures StepOk(cfg, sh, tid, th, Local(sh, w, th.pc))
  {
    hide SharedOk, Grows;
    GrowsRefl(sh);
    assert th.(pc := th.pc) == th;
  }

  // ---------------------------------------------------------------- every run

  /** One event keeps the invariant of the whole system, and shared rows only grow. */
  lemma ApplyOk(cfg: Config, s: System, e: Event)
    requires Sound(cfg) && SystemOk(cfg, s)
    ensures SystemOk(cfg, Apply(cfg, s, e)) && Grows(s.shared, Apply(cfg, s, e).shared)
  {
    hide Sound, SharedOk, Grows, WireOk, ThreadOk, Guarantee, Step;
    GrowsRefl(s.shared);
    match e
    case Boot(_) => EmptyWireOk(s.shared.store.journal);
    case Crash(_) =>
    case CreateExecution(x) => ExecutionAdded(cfg, s, x);
    case Spawn(wire, binding, view) => FreshThreadOk(cfg, s, wire, binding, view);
    case Run(tid, env) =>
      if tid in s.threads && s.threads[tid].wire in s.wires {
        RunOk(cfg, s, tid, env);
      }
  }

  lemma EmptyWireOk(journal: Journals)
    ensures WireOk(journal, Wire({}, map[], map[]))
  {
  }

  lemma FreshThreadOk(cfg: Config, s: System, wire: nat, b: Binding, view: ClaimView)
    ensures ThreadOk(cfg, s.shared, s.spawned, Thread(wire, b, view, Deciding))
  {
  }

  lemma ExecutionAdded(cfg: Config, s: System, x: string)
    requires SystemOk(cfg, s)
    ensures var s' := Apply(cfg, s, CreateExecution(x)); SystemOk(cfg, s') && Grows(s.shared, s'.shared)
  {
    hide JournalOk, FencesOk, CallsOk, ReceiptsOk, SettledOk, ThreadOk, WireOk;
    var s' := Apply(cfg, s, CreateExecution(x));
    assert Grows(s.shared, s'.shared);
    forall t | t in s'.threads ensures ThreadOk(cfg, s'.shared, t, s'.threads[t]) {
      Interference(cfg, s.shared, s'.shared, t + 1, t, s.threads[t]);
    }
  }

  lemma RunOk(cfg: Config, s: System, tid: Tid, env: Env)
    requires Sound(cfg) && SystemOk(cfg, s) && tid in s.threads && s.threads[tid].wire in s.wires
    ensures var s' := Apply(cfg, s, Run(tid, env)); SystemOk(cfg, s') && Grows(s.shared, s'.shared)
  {
    hide Sound, SharedOk, Grows, ThreadOk, Step, WireOk;
    var s' := Apply(cfg, s, Run(tid, env));
    var th := s.threads[tid];
    var l := Step(cfg, s.shared, s.wires[th.wire], tid, th, env);
    AttemptStepOk(cfg, s.shared, s.wires[th.wire], tid, th, env);
    SharedCalls(cfg, l.shared);
    forall t | t in s'.threads ensures t < s'.spawned && ThreadOk(cfg, s'.shared, t, s'.threads[t]) {
      if t != tid {
        Interference(cfg, s.shared, l.shared, tid, t, s.threads[t]);
      }
    }
    forall w | w in s'.wires ensures WireOk(s'.shared.store.journal, s'.wires[w]) {
      if w == th.wire {
        UnlockOk(l.shared.store.journal, l.wire, tid, th, l.pc);
      } else {
        WireSurvives(s.shared, l.shared, s.wires[w]);
      }
    }
  }

  lemma SharedCalls(cfg: Config, sh: Shared)
    requires SharedOk(cfg, sh)
    ensures CallsOk(cfg, sh.store.journal, sh.asked, sh.owner, sh.dispatched)
  {
  }

  lemma UnlockOk(journal: Journals, w: Wire, tid: Tid, th: Thread, pc: Pc)
    requires WireOk(journal, w)
    ensures WireOk(journal, Unlock(w, tid, th, pc))
  {
  }

  lemma WireSurvives(sh: Shared, sh': Shared, w: Wire)
    requires Grows(sh, sh') && WireOk(sh.store.journal, w)
    ensures WireOk(sh'.store.journal, w)
  {
  }
}
