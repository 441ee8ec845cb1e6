/** The digests and the evidence decoder the protocol is run with meet what its safety proof asks for. */
module DexConfig {
  import opened DexIdentity
  import opened DexWire
  import opened DexSafety
  import opened DexAdmission
  import DexAnswers
  import CanonicalJson
  import DexEvidence

  function Summary(e: DexEvidence.Collected): Evidence {
    Evidence(e.executionId, e.attemptId, e.bindingDigest, e.claimGeneration, e.authoritySha, e.executionSha,
             e.resultSha, e.evidenceSha, e.drift)
  }

  function Accepts(sha: string -> string, raw: string, b: Binding, digest: string): Option<Evidence> {
    var want := DexEvidence.Expected(b.executionId, b.attemptId, digest, b.authoritySha, b.executionSha);
    match DexEvidence.Decode(sha, CanonicalJson.Present(raw), want)
    case Pass(e) => Some(Summary(e))
    case Fail(_) => None
  }

  function Concrete(sha: string -> string): Config {
    Config(b => sha(BindingPayload(b)),
           k => sha(ReceiptPayload(k)),
           (raw, b, digest) => Accepts(sha, raw, b, digest))
  }

  lemma AcceptsAbout(sha: string -> string, raw: string, b: Binding, digest: string)
    ensures var r := Accepts(sha, raw, b, digest); r.Some? ==> AboutBinding(r.value, b, digest)
  {
    hide DexEvidence.Decode;
    var want := DexEvidence.Expected(b.executionId, b.attemptId, digest, b.authoritySha, b.executionSha);
    if DexEvidence.Decode(sha, CanonicalJson.Present(raw), want).Pass? {
      DexEvidence.AcceptedEvidence(sha, CanonicalJson.Present(raw), want);
    }
  }

  /** With a collision-free hash the protocol's own digests and decoder are sound. */
  lemma ConcreteIsSound(sha: string -> string)
    requires forall s, t :: sha(s) == sha(t) ==> s == t
    ensures Sound(Concrete(sha))
  {
    hide Accepts, BindingPayload, ReceiptPayload;
    var cfg := Concrete(sha);
    forall a, b | cfg.digest(a) == cfg.digest(b) ensures a == b {
      assert sha(BindingPayload(a)) == sha(BindingPayload(b));
      BindingPayloadInjective(a, b);
    }
    forall a, b | cfg.receiptId(a) == cfg.receiptId(b) ensures a == b {
      assert sha(ReceiptPayload(a)) == sha(ReceiptPayload(b));
      ReceiptPayloadInjective(a, b);
    }
    forall raw, b, d ensures cfg.decode(raw, b, d).Some? ==> AboutBinding(cfg.decode(raw, b, d).value, b, d) {
      AcceptsAbout(sha, raw, b, d);
      assert cfg.decode(raw, b, d) == Accepts(sha, raw, b, d);
    }
  }

  /** Its digests are texts of their own, never the empty one. */
  lemma ConcreteIsNamed(sha: string -> string)
    requires forall s :: sha(s) != ""
    ensures DexAnswers.Named(Concrete(sha))
  {
    hide ReceiptPayload;
    assert forall k :: Concrete(sha).receiptId(k) == sha(ReceiptPayload(k));
  }
}
