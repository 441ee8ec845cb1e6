/** Admission decisions: decided once per attempt identity, replayed ever after. */
module DexAdmission {
  import opened Json
  import opened DexIdentity

  /** Claim state presented by the claim authority. */
  datatype ClaimView = ClaimView(claimRef: string, claimGeneration: nat, live: bool)

  datatype DenialCode = StaleClaim | IdentityMismatch | NotLive

  datatype Ruling = Admitted | Denied(code: DenialCode, detail: string)

  datatype AdmissionRecord = AdmissionRecord(
    id: Id,
    bindingDigest: string,
    claimRef: string,
    claimGeneration: nat,
    ruling: Ruling)

  function DecideFresh(b: Binding, view: ClaimView, digest: string): AdmissionRecord {
    AdmissionRecord(IdOf(b), digest, b.claimRef, view.claimGeneration,
      if !view.live then Denied(NotLive, "claim " + view.claimRef + " is not live")
      else if view.claimRef != b.claimRef then
        Denied(IdentityMismatch, "claim view does not match the binding claim_ref")
      else if view.claimGeneration != b.claimGeneration then
        Denied(StaleClaim, "binding generation " + PrintInt(b.claimGeneration)
                           + " != live generation " + PrintInt(view.claimGeneration))
      else Admitted)
  }

  /** Does a request present exactly the binding and claim a recorded decision was made for? */
  predicate Matches(r: AdmissionRecord, b: Binding, view: ClaimView, digest: string) {
    && r.bindingDigest == digest
    && r.claimRef == b.claimRef
    && r.claimGeneration == view.claimGeneration
  }

  /** Replaying a recorded decision for a later request. */
  function Replay(r: AdmissionRecord, b: Binding, view: ClaimView, digest: string): Ruling {
    if r.bindingDigest != digest || r.claimRef != b.claimRef then
      Denied(IdentityMismatch, "admission replay binding does not match the frozen decision")
    else if r.claimGeneration != view.claimGeneration then
      Denied(IdentityMismatch, "admission replay claim generation differs from the frozen decision")
    else r.ruling
  }

  /** A decision is admitted exactly for a live claim of the same reference and generation, and replays as made. */
  lemma FreshDecision(b: Binding, view: ClaimView, digest: string)
    ensures var r := DecideFresh(b, view, digest);
            && (r.ruling.Admitted? <==>
                view.live && view.claimRef == b.claimRef && view.claimGeneration == b.claimGeneration)
            && Replay(r, b, view, digest) == r.ruling
  {
  }
}
