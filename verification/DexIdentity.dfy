/** The immutable identity of one dispatch attempt and the two digests derived from it. */
module DexIdentity {
  import opened Json

  datatype Binding = Binding(
    executionId: string,
    attemptId: string,
    taskRef: string,
    laneRef: string,
    claimRef: string,
    claimGeneration: nat,
    authorityRepo: string,
    executionRepo: string,
    authoritySha: string,
    executionSha: string,
    hostId: string,
    bootId: string,
    executablePath: string,
    executableSha: string,
    argvShape: seq<string>)

  /** The attempt identity every durable table is keyed by. */
  datatype Id = Id(executionId: string, attemptId: string)

  function IdOf(b: Binding): Id {
    Id(b.executionId, b.attemptId)
  }

  function Strings(items: seq<string>): (r: seq<Json>)
    ensures |r| == |items|
    ensures forall i :: 0 <= i < |items| ==> r[i] == Str(items[i])
  {
    if items == [] then [] else [Str(items[0])] + Strings(items[1..])
  }

  /** Members in the ascending key order the canonical writer emits. */
  function BindingFields(b: Binding): seq<Field> {
    [ Field("argv_shape", Arr(Strings(b.argvShape))),
      Field("attempt_id", Str(b.attemptId)),
      Field("authority_repo_identity", Str(b.authorityRepo)),
      Field("authority_sha", Str(b.authoritySha)),
      Field("boot_id", Str(b.bootId)),
      Field("claim_generation", Int(b.claimGeneration)),
      Field("claim_ref", Str(b.claimRef)),
      Field("executable_path", Str(b.executablePath)),
      Field("executable_sha256", Str(b.executableSha)),
      Field("execution_id", Str(b.executionId)),
      Field("execution_repo_identity", Str(b.executionRepo)),
      Field("execution_sha", Str(b.executionSha)),
      Field("host_id", Str(b.hostId)),
      Field("lane_ref", Str(b.laneRef)),
      Field("schema", Str("dex.binding.v1")),
      Field("task_ref", Str(b.taskRef)) ]
  }

  function BindingPayload(b: Binding): string {
    Dumps(Obj(BindingFields(b)))
  }

  /** What a receipt identifier is derived from. */
  datatype ReceiptKey = ReceiptKey(executionId: string, attemptId: string, resultDigest: string, bindingDigest: string)

  function ReceiptFields(k: ReceiptKey): seq<Field> {
    [ Field("attempt_id", Str(k.attemptId)),
      Field("binding_digest", Str(k.bindingDigest)),
      Field("execution_id", Str(k.executionId)),
      Field("result_digest", Str(k.resultDigest)),
      Field("schema", Str("execution.receipt.v1")) ]
  }

  function ReceiptPayload(k: ReceiptKey): string {
    Dumps(Obj(ReceiptFields(k)))
  }

  /** Member lists that print alike are alike. */
  lemma FieldsInjective(f: seq<Field>, g: seq<Field>)
    requires f != [] && g != []
    requires forall i :: 0 <= i < |f| ==> WellFormed(f[i].value)
    requires forall i :: 0 <= i < |g| ==> WellFormed(g[i].value)
    requires Dumps(Obj(f)) == Dumps(Obj(g))
    ensures f == g
  {
    assert Dumps(Obj(f))[1..] == DumpsFields(f) + "}" + "";
    assert Dumps(Obj(g))[1..] == DumpsFields(g) + "}" + "";
    ReadDumpsFields(f, "");
    ReadDumpsFields(g, "");
  }

  lemma {:induction false} StringsInjective(a: seq<string>, b: seq<string>)
    requires Strings(a) == Strings(b)
    ensures a == b
  {
    assert |a| == |Strings(a)| == |Strings(b)| == |b|;
    forall i | 0 <= i < |a| ensures a[i] == b[i] {
      assert Strings(a)[i] == Str(a[i]) && Strings(b)[i] == Str(b[i]);
    }
  }

  lemma BindingFieldsWellFormed(b: Binding)
    ensures forall i :: 0 <= i < |BindingFields(b)| ==> WellFormed(BindingFields(b)[i].value)
  {
    var f := BindingFields(b);
    forall i | 0 <= i < |f| ensures WellFormed(f[i].value) {
      if i == 0 {
        assert f[0].value == Arr(Strings(b.argvShape));
      } else {
        assert f[i].value.Str? || f[i].value.Int?;
      }
    }
  }

  lemma BindingFieldsInjective(a: Binding, b: Binding)
    requires BindingFields(a) == BindingFields(b)
    ensures a == b
  {
    var f, g := BindingFields(a), BindingFields(b);
    assert f[0].value == g[0].value;
    StringsInjective(a.argvShape, b.argvShape);
    assert f[1].value == g[1].value && f[2].value == g[2].value && f[3].value == g[3].value;
    assert f[4].value == g[4].value && f[5].value == g[5].value && f[6].value == g[6].value;
    assert f[7].value == g[7].value && f[8].value == g[8].value && f[9].value == g[9].value;
    assert f[10].value == g[10].value && f[11].value == g[11].value && f[12].value == g[12].value;
    assert f[13].value == g[13].value && f[15].value == g[15].value;
  }

  /** The hashed text determines every field of the binding. */
  lemma BindingPayloadInjective(a: Binding, b: Binding)
    requires BindingPayload(a) == BindingPayload(b)
    ensures a == b
  {
    BindingFieldsWellFormed(a);
    BindingFieldsWellFormed(b);
    FieldsInjective(BindingFields(a), BindingFields(b));
    BindingFieldsInjective(a, b);
  }

  lemma ReceiptPayloadInjective(a: ReceiptKey, b: ReceiptKey)
    requires ReceiptPayload(a) == ReceiptPayload(b)
    ensures a == b
  {
    var f, g := ReceiptFields(a), ReceiptFields(b);
    FieldsInjective(f, g);
    assert f[0] == g[0] && f[1] == g[1] && f[2] == g[2] && f[3] == g[3];
  }
}
