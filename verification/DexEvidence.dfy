/**
 Collected evidence: the strict decoder, the producer side of the format, and the proof that
 whatever a valid producer emits decodes to exactly what it reported.
 */
module DexEvidence {
  import Chars
  import opened Json
  import opened CanonicalJson
  import opened StringOrder
  import opened JsonSize
  import Decimal

  const MAX_BYTES := 262144
  const SCHEMA := "dex.srm.collection.v1"

  datatype Code =
    | BytesInvalid | DuplicateMember | JsonInvalid | RootInvalid | KeysInvalid | SchemaMismatch
    | ExecutionInvalid | AttemptInvalid | BindingInvalid | GenerationInvalid | ShaSetInvalid
    | ProcessInvalid | ArtifactsInvalid | ResultInvalid | ResultDigestMismatch | DigestInvalid
    | DriftInvalid | IdentityMismatch | BindingMismatch | ShaSetMismatch | DigestMismatch

  datatype Check<+T> = Pass(value: T) | Fail(code: Code) {
    predicate IsFailure() { Fail? }

    function PropagateFailure<U>(): Check<U>
      requires Fail?
    {
      Fail(code)
    }

    function Extract(): T
      requires Pass?
    {
      value
    }
  }

  datatype Artifact = Artifact(ref: string, sha256: string, size: nat)

  datatype Process = Process(hostId: string, bootId: string, pid: nat, creationId: string, exitCode: int)

  datatype Collected = Collected(
    executionId: string,
    attemptId: string,
    bindingDigest: string,
    claimGeneration: nat,
    authoritySha: string,
    executionSha: string,
    process: Process,
    artifacts: seq<Artifact>,
    resultRef: string,
    resultSha: string,
    drift: bool,
    evidenceSha: string)

  datatype Expected = Expected(
    executionId: string, attemptId: string, bindingDigest: string, authoritySha: string, executionSha: string)

  // ---------------------------------------------------------------- decoder

  predicate IsText(s: string) {
    0 < |s| <= 1024 && forall i :: 0 <= i < |s| ==> s[i] != '\0' && s[i] != '\r' && s[i] != '\n'
  }

  predicate IsHex(s: string, n: nat) {
    |s| == n && forall i :: 0 <= i < |s| ==> Chars.IsLowerHex(s[i])
  }

  function Text(v: Json, code: Code): Check<string> {
    if v.Str? && IsText(v.s) then Pass(v.s) else Fail(code)
  }

  function Hex(v: Json, n: nat, code: Code): Check<string> {
    if v.Str? && IsHex(v.s, n) then Pass(v.s) else Fail(code)
  }

  function Uint(v: Json, code: Code): Check<nat> {
    if v.Int? && v.i >= 0 then Pass(v.i) else Fail(code)
  }

  /** Value of a member, null when there is none. */
  function Get(fields: seq<Field>, key: string): Json {
    match Lookup(fields, key)
    case Present(v) => v
    case Absent => Null
  }

  function Members(v: Json, names: seq<string>, code: Code): Check<seq<Field>> {
    if v.Obj? && HasExactly(v.fields, names) then Pass(v.fields) else Fail(code)
  }

  const TOP := ["artifacts", "attempt_id", "binding_digest", "claim_generation", "collected_under_drift",
                "evidence_sha256", "execution_id", "process", "result", "schema", "sha_set"]

  function DecodeProcess(v: Json): Check<Process> {
    var f :- Members(v, ["boot_id", "creation_id", "exit_code", "host_id", "pid"], ProcessInvalid);
    var host :- Text(Get(f, "host_id"), ProcessInvalid);
    var boot :- Text(Get(f, "boot_id"), ProcessInvalid);
    var pid :- Uint(Get(f, "pid"), ProcessInvalid);
    var creation :- Text(Get(f, "creation_id"), ProcessInvalid);
    var exit := Get(f, "exit_code");
    if pid < 1 || !exit.Int? then Fail(ProcessInvalid) else Pass(Process(host, boot, pid, creation, exit.i))
  }

  function DecodeArtifact(v: Json, refs: set<string>): Check<Artifact> {
    var f :- Members(v, ["ref", "sha256", "size_bytes"], ArtifactsInvalid);
    var ref :- Text(Get(f, "ref"), ArtifactsInvalid);
    if ref in refs then Fail(ArtifactsInvalid)
    else
      var sha :- Hex(Get(f, "sha256"), 64, ArtifactsInvalid);
      var size :- Uint(Get(f, "size_bytes"), ArtifactsInvalid);
      Pass(Artifact(ref, sha, size))
  }

  function DecodeArtifacts(items: seq<Json>, refs: set<string>): Check<seq<Artifact>> {
    if items == [] then Pass([])
    else
      var a :- DecodeArtifact(items[0], refs);
      var rest :- DecodeArtifacts(items[1..], refs + {a.ref});
      Pass([a] + rest)
  }

  /** The decoder's loop over the artifact list. */
  method CollectArtifacts(items: seq<Json>) returns (r: Check<seq<Artifact>>)
    ensures r == DecodeArtifacts(items, {})
    ensures r.Pass? ==> |r.value| == |items| && DistinctRefs(r.value)
  {
    var artifacts: seq<Artifact> := [];
    var refs: set<string> := {};
    var i := 0;
    assert items[0..] == items;
    assert forall rest: seq<Artifact> :: [] + rest == rest;
    while i < |items|
      invariant 0 <= i <= |items| && |artifacts| == i
      invariant DistinctRefs(artifacts)
      invariant refs == set a | a in artifacts :: a.ref
      invariant DecodeArtifacts(items, {})
             == match DecodeArtifacts(items[i..], refs)
                case Pass(rest) => Pass(artifacts + rest)
                case Fail(code) => Fail(code)
    {
      assert items[i..][1..] == items[i + 1..];
      var d := DecodeArtifact(items[i], refs);
      if d.Fail? {
        return Fail(d.code);
      }
      ghost var before := artifacts;
      artifacts := artifacts + [d.value];
      refs := refs + {d.value.ref};
      assert forall rest: seq<Artifact> :: before + ([d.value] + rest) == artifacts + rest;
      assert artifacts[i] == d.value;
      i := i + 1;
    }
    assert items[i..] == [];
    assert artifacts + [] == artifacts;
    r := Pass(artifacts);
  }

  predicate DistinctRefs(artifacts: seq<Artifact>) {
    forall i, j :: 0 <= i < j < |artifacts| ==> artifacts[i].ref != artifacts[j].ref
  }

  predicate Lists(artifacts: seq<Artifact>, ref: string, sha: string) {
    exists i :: 0 <= i < |artifacts| && artifacts[i].ref == ref && artifacts[i].sha256 == sha
  }

  function Without(fields: seq<Field>, key: string): seq<Field> {
    if fields == [] then []
    else if fields[0].key == key then Without(fields[1..], key)
    else [fields[0]] + Without(fields[1..], key)
  }

  /** UTF-8 length of a text. */
  function Utf8Length(s: string): nat {
    if s == "" then 0
    else (if s[0] as int < 0x80 then 1 else if s[0] as int < 0x800 then 2
          else if s[0] as int < 0x1_0000 then 3 else 4) + Utf8Length(s[1..])
  }

  function DecodeFields(sha: string -> string, f: seq<Field>, want: Expected): Check<Collected> {
    if Get(f, "schema") != Str(SCHEMA) then Fail(SchemaMismatch)
    else
      var execution :- Text(Get(f, "execution_id"), ExecutionInvalid);
      var attempt :- Text(Get(f, "attempt_id"), AttemptInvalid);
      var binding :- Hex(Get(f, "binding_digest"), 64, BindingInvalid);
      var generation :- Uint(Get(f, "claim_generation"), GenerationInvalid);
      var shas :- Members(Get(f, "sha_set"), ["authority", "execution"], ShaSetInvalid);
      var authoritySha :- Hex(Get(shas, "authority"), 40, ShaSetInvalid);
      var executionSha :- Hex(Get(shas, "execution"), 40, ShaSetInvalid);
      var process :- DecodeProcess(Get(f, "process"));
      var items := Get(f, "artifacts");
      if !items.Arr? || !(0 < |items.items| <= 16) then Fail(ArtifactsInvalid)
      else
        var artifacts :- DecodeArtifacts(items.items, {});
        var result :- Members(Get(f, "result"), ["ref", "sha256"], ResultInvalid);
        var resultRef :- Text(Get(result, "ref"), ResultInvalid);
        var resultSha :- Hex(Get(result, "sha256"), 64, ResultInvalid);
        if !Lists(artifacts, resultRef, resultSha) then Fail(ResultDigestMismatch)
        else
          var evidenceSha :- Hex(Get(f, "evidence_sha256"), 64, DigestInvalid);
          var drift := Get(f, "collected_under_drift");
          if !drift.Bool? then Fail(DriftInvalid)
          else if execution != want.executionId || attempt != want.attemptId then Fail(IdentityMismatch)
          else if binding != want.bindingDigest then Fail(BindingMismatch)
          else if authoritySha != want.authoritySha || executionSha != want.executionSha then Fail(ShaSetMismatch)
          else if sha(Canonical(Obj(Without(f, "evidence_sha256")))) != evidenceSha then Fail(DigestMismatch)
          else
            Pass(Collected(execution, attempt, binding, generation, authoritySha, executionSha, process,
                           artifacts, resultRef, resultSha, drift.b, evidenceSha))
  }

  /** Decode collected bytes; `raw` is their text, absent when they are not UTF-8. */
  function Decode(sha: string -> string, raw: Maybe<string>, want: Expected): Check<Collected> {
    if raw.Present? && (raw.value == "" || Utf8Length(raw.value) > MAX_BYTES) then Fail(BytesInvalid)
    else if raw.Absent? then Fail(JsonInvalid)
    else
      match Loads(raw.value)
      case DuplicateKey => Fail(DuplicateMember)
      case Malformed => Fail(JsonInvalid)
      case Ok(v, _) =>
        if !v.Obj? then Fail(RootInvalid)
        else if !HasExactly(v.fields, TOP) then Fail(KeysInvalid)
        else DecodeFields(sha, v.fields, want)
  }

  /** Accepted evidence is about the expected attempt, lists its result, and is bound by its digest. */
  lemma AcceptedEvidence(sha: string -> string, raw: Maybe<string>, want: Expected)
    requires Decode(sha, raw, want).Pass?
    ensures var e := Decode(sha, raw, want).value;
            && e.executionId == want.executionId && e.attemptId == want.attemptId
            && e.bindingDigest == want.bindingDigest
            && e.authoritySha == want.authoritySha && e.executionSha == want.executionSha
            && Lists(e.artifacts, e.resultRef, e.resultSha)
            && raw.Present? && Loads(raw.value).Ok? && Loads(raw.value).value.Obj?
            && e.evidenceSha == sha(Canonical(Obj(Without(Loads(raw.value).value.fields, "evidence_sha256"))))
  {
    hide Loads, Canonical, Without, DecodeProcess, DecodeArtifacts, Text, Hex, Uint, Members, Lists, Utf8Length, HasExactly, Get;
  }

  // ---------------------------------------------------------------- producer

  /** Identity fields of one producer. */
  datatype Producer = Producer(
    executionId: string, attemptId: string, bindingDigest: string, claimGeneration: nat,
    authoritySha: string, executionSha: string, hostId: string, bootId: string, pid: nat, creationId: string)

  /** What its constructor accepts. */
  predicate ValidProducer(p: Producer) {
    && IsText(p.executionId) && IsText(p.attemptId) && IsText(p.hostId) && IsText(p.bootId) && IsText(p.creationId)
    && IsHex(p.bindingDigest, 64) && IsHex(p.authoritySha, 40) && IsHex(p.executionSha, 40)
    && p.pid >= 1
  }

  /** What one collection observed: digest and size of each stream, and the exit code. */
  datatype Observation = Observation(result: Artifact, stdout: Artifact, stderr: Artifact, exitCode: int)

  function ArtifactJson(a: Artifact): Json {
    Obj([Field("ref", Str(a.ref)), Field("sha256", Str(a.sha256)), Field("size_bytes", Int(a.size))])
  }

  function ProcessJson(p: Process): Json {
    Obj([Field("boot_id", Str(p.bootId)), Field("creation_id", Str(p.creationId)), Field("exit_code", Int(p.exitCode)),
         Field("host_id", Str(p.hostId)), Field("pid", Int(p.pid))])
  }

  function ShaSetJson(e: Collected): Json {
    Obj([Field("authority", Str(e.authoritySha)), Field("execution", Str(e.executionSha))])
  }

  function ResultJson(e: Collected): Json {
    Obj([Field("ref", Str(e.resultRef)), Field("sha256", Str(e.resultSha))])
  }

  function ArtifactItems(artifacts: seq<Artifact>): seq<Json> {
    if artifacts == [] then [] else [ArtifactJson(artifacts[0])] + ArtifactItems(artifacts[1..])
  }

  function HeadFields(e: Collected): seq<Field> {
    [ Field("artifacts", Arr(ArtifactItems(e.artifacts))),
      Field("attempt_id", Str(e.attemptId)),
      Field("binding_digest", Str(e.bindingDigest)),
      Field("claim_generation", Int(e.claimGeneration)),
      Field("collected_under_drift", Bool(e.drift)) ]
  }

  function TailFields(e: Collected): seq<Field> {
    [ Field("execution_id", Str(e.executionId)),
      Field("process", ProcessJson(e.process)),
      Field("result", ResultJson(e)),
      Field("schema", Str(SCHEMA)),
      Field("sha_set", ShaSetJson(e)) ]
  }

  function BodyFields(e: Collected): seq<Field> {
    HeadFields(e) + TailFields(e)
  }

  function PayloadFields(e: Collected): seq<Field> {
    HeadFields(e) + [Field("evidence_sha256", Str(e.evidenceSha))] + TailFields(e)
  }

  /** The text of one body of evidence. */
  function Encode(e: Collected): string {
    Canonical(Obj(PayloadFields(e)))
  }

  /** The digest over everything but itself. */
  function EvidenceSha(sha: string -> string, e: Collected): string {
    sha(Canonical(Obj(BodyFields(e))))
  }

  /** The evidence a producer reports, with its digest. */
  function Reported(sha: string -> string, p: Producer, o: Observation): Collected {
    var e := Collected(p.executionId, p.attemptId, p.bindingDigest, p.claimGeneration, p.authoritySha, p.executionSha,
                       Process(p.hostId, p.bootId, p.pid, p.creationId, o.exitCode),
                       [o.result, o.stdout, o.stderr], "result", o.result.sha256, false, "");
    e.(evidenceSha := EvidenceSha(sha, e))
  }

  /** The bytes one collection emits. */
  function Emit(sha: string -> string, p: Producer, o: Observation): string {
    Encode(Reported(sha, p, o))
  }

  // ---------------------------------------------------------------- what is encoded is canonical

  lemma ObjectSorted(fields: seq<Field>)
    requires Ascending(fields) && forall i :: 0 <= i < |fields| ==> Sorted(fields[i].value) && WellFormed(fields[i].value)
    ensures Sorted(Obj(fields)) && WellFormed(Obj(fields)) && DistinctKeys(fields)
  {
    AscendingDistinct(fields);
  }

  lemma ArtifactSorted(a: Artifact)
    ensures Sorted(ArtifactJson(a)) && WellFormed(ArtifactJson(a))
  {
    LessAt("ref", "sha256", 0);
    LessAt("sha256", "size_bytes", 1);
    ObjectSorted(ArtifactJson(a).fields);
  }

  lemma ProcessSorted(p: Process)
    ensures Sorted(ProcessJson(p)) && WellFormed(ProcessJson(p))
  {
    LessAt("boot_id", "creation_id", 0);
    LessAt("creation_id", "exit_code", 0);
    LessAt("exit_code", "host_id", 0);
    LessAt("host_id", "pid", 0);
    ObjectSorted(ProcessJson(p).fields);
  }

  lemma PairsSorted(e: Collected)
    ensures Sorted(ShaSetJson(e)) && WellFormed(ShaSetJson(e))
    ensures Sorted(ResultJson(e)) && WellFormed(ResultJson(e))
  {
    LessAt("authority", "execution", 0);
    LessAt("ref", "sha256", 0);
    ObjectSorted(ShaSetJson(e).fields);
    ObjectSorted(ResultJson(e).fields);
  }

  lemma {:induction false} ItemsSorted(artifacts: seq<Artifact>)
    ensures Sorted(Arr(ArtifactItems(artifacts))) && WellFormed(Arr(ArtifactItems(artifacts)))
    ensures |ArtifactItems(artifacts)| == |artifacts|
  {
    hide ArtifactJson;
    if artifacts != [] {
      var rest := ArtifactItems(artifacts[1..]);
      ItemsSorted(artifacts[1..]);
      ArtifactSorted(artifacts[0]);
      forall i | 0 <= i < |artifacts| ensures Sorted(ArtifactItems(artifacts)[i]) && WellFormed(ArtifactItems(artifacts)[i]) {
        assert i > 0 ==> ArtifactItems(artifacts)[i] == rest[i - 1];
      }
    }
  }

  lemma HeadSorted(e: Collected)
    ensures Ascending(HeadFields(e))
    ensures forall i :: 0 <= i < 5 ==> Sorted(HeadFields(e)[i].value) && WellFormed(HeadFields(e)[i].value)
  {
    hide ArtifactItems;
    LessAt("artifacts", "attempt_id", 1);
    LessAt("attempt_id", "binding_digest", 0);
    LessAt("binding_digest", "claim_generation", 0);
    LessAt("claim_generation", "collected_under_drift", 1);
    ItemsSorted(e.artifacts);
  }

  lemma TailSorted(e: Collected)
    ensures Ascending(TailFields(e))
    ensures forall i :: 0 <= i < 5 ==> Sorted(TailFields(e)[i].value) && WellFormed(TailFields(e)[i].value)
  {
    LessAt("execution_id", "process", 0);
    LessAt("process", "result", 0);
    LessAt("result", "schema", 0);
    LessAt("schema", "sha_set", 1);
    ProcessSorted(e.process);
    PairsSorted(e);
  }

  lemma PayloadSorted(e: Collected)
    ensures Sorted(Obj(PayloadFields(e))) && WellFormed(Obj(PayloadFields(e)))
    ensures DistinctKeys(PayloadFields(e))
  {
    HeadSorted(e);
    TailSorted(e);
    LessAt("collected_under_drift", "evidence_sha256", 0);
    LessAt("evidence_sha256", "execution_id", 1);
    ObjectSorted(PayloadFields(e));
  }

  // ---------------------------------------------------------------- decoding what was encoded

  /** Members of an object whose keys are distinct are found by name. */
  lemma GetAt(fields: seq<Field>, i: nat)
    requires DistinctKeys(fields) && i < |fields|
    ensures Get(fields, fields[i].key) == fields[i].value && Lookup(fields, fields[i].key).Present?
  {
    LookupAt(fields, i);
  }

  lemma NamesFound(fields: seq<Field>, names: seq<string>)
    requires DistinctKeys(fields) && |fields| == |names|
    requires forall i :: 0 <= i < |names| ==> fields[i].key == names[i]
    ensures HasExactly(fields, names)
    ensures forall i :: 0 <= i < |names| ==> Get(fields, names[i]) == fields[i].value
  {
    forall i | 0 <= i < |names|
      ensures Lookup(fields, names[i]).Present? && Get(fields, names[i]) == fields[i].value
    {
      GetAt(fields, i);
    }
  }

  lemma ProcessDecodes(p: Process)
    requires IsText(p.hostId) && IsText(p.bootId) && IsText(p.creationId) && p.pid >= 1
    ensures DecodeProcess(ProcessJson(p)) == Pass(p)
  {
    hide Lookup, HasExactly, IsText, IsHex, Get;
    ProcessSorted(p);
    var f := ProcessJson(p).fields;
    var names := ["boot_id", "creation_id", "exit_code", "host_id", "pid"];
    NamesFound(f, names);
    assert Get(f, names[0]) == f[0].value && Get(f, names[1]) == f[1].value && Get(f, names[2]) == f[2].value;
    assert Get(f, names[3]) == f[3].value && Get(f, names[4]) == f[4].value;
  }

  lemma ArtifactDecodes(a: Artifact, refs: set<string>)
    requires IsText(a.ref) && IsHex(a.sha256, 64) && a.ref !in refs
    ensures DecodeArtifact(ArtifactJson(a), refs) == Pass(a)
  {
    hide Lookup, HasExactly, IsText, IsHex, Get;
    ArtifactSorted(a);
    var f := ArtifactJson(a).fields;
    var names := ["ref", "sha256", "size_bytes"];
    NamesFound(f, names);
    assert Get(f, names[0]) == f[0].value && Get(f, names[1]) == f[1].value && Get(f, names[2]) == f[2].value;
  }

  predicate ValidArtifacts(artifacts: seq<Artifact>) {
    forall i :: 0 <= i < |artifacts| ==> IsText(artifacts[i].ref) && IsHex(artifacts[i].sha256, 64)
  }

  lemma RestOfArtifacts(artifacts: seq<Artifact>, refs: set<string>)
    requires artifacts != [] && ValidArtifacts(artifacts) && DistinctRefs(artifacts)
    requires forall i :: 0 <= i < |artifacts| ==> artifacts[i].ref !in refs
    ensures var rest := artifacts[1..];
            && ValidArtifacts(rest) && DistinctRefs(rest)
            && (forall i :: 0 <= i < |rest| ==> rest[i].ref !in refs + {artifacts[0].ref})
            && IsText(artifacts[0].ref) && IsHex(artifacts[0].sha256, 64)
  {
    hide IsText, IsHex;
    assert forall i :: 0 <= i < |artifacts[1..]| ==> artifacts[1..][i] == artifacts[i + 1];
  }

  lemma {:induction false} ItemsDecode(artifacts: seq<Artifact>, refs: set<string>)
    requires ValidArtifacts(artifacts) && DistinctRefs(artifacts)
    requires forall i :: 0 <= i < |artifacts| ==> artifacts[i].ref !in refs
    ensures DecodeArtifacts(ArtifactItems(artifacts), refs) == Pass(artifacts)
  {
    hide DecodeArtifact, IsText, IsHex, ArtifactJson;
    if artifacts != [] {
      var rest := artifacts[1..];
      RestOfArtifacts(artifacts, refs);
      hide ValidArtifacts, DistinctRefs;
      ArtifactDecodes(artifacts[0], refs);
      ItemsDecode(rest, refs + {artifacts[0].ref});
      assert ArtifactItems(artifacts)[1..] == ArtifactItems(rest);
      assert artifacts == [artifacts[0]] + rest;
    }
  }

  lemma {:induction false} WithoutAbsent(fields: seq<Field>, key: string)
    requires forall i :: 0 <= i < |fields| ==> fields[i].key != key
    ensures Without(fields, key) == fields
  {
    if fields != [] {
      WithoutAbsent(fields[1..], key);
    }
  }

  lemma {:induction false} WithoutMiddle(head: seq<Field>, f: Field, tail: seq<Field>)
    requires DistinctKeys(head + [f] + tail)
    ensures Without(head + [f] + tail, f.key) == head + tail
  {
    var all := head + [f] + tail;
    if head == [] {
      assert all[0] == f && all[1..] == tail;
      forall i | 0 <= i < |tail| ensures tail[i].key != f.key {
        assert all[0].key != all[i + 1].key && all[i + 1] == tail[i];
      }
      WithoutAbsent(tail, f.key);
      assert [] + tail == tail;
    } else {
      assert all[0] == head[0] && all[|head|] == f;
      assert all[0].key != all[|head|].key;
      assert all[1..] == head[1..] + [f] + tail;
      forall i, j | 0 <= i < j < |all[1..]| ensures all[1..][i].key != all[1..][j].key {
        assert all[i + 1].key != all[j + 1].key;
      }
      WithoutMiddle(head[1..], f, tail);
      assert [head[0]] + (head[1..] + tail) == head + tail;
    }
  }

  lemma PairsDecode(e: Collected)
    ensures Members(ShaSetJson(e), ["authority", "execution"], ShaSetInvalid) == Pass(ShaSetJson(e).fields)
    ensures Get(ShaSetJson(e).fields, "authority") == Str(e.authoritySha)
    ensures Get(ShaSetJson(e).fields, "execution") == Str(e.executionSha)
    ensures Members(ResultJson(e), ["ref", "sha256"], ResultInvalid) == Pass(ResultJson(e).fields)
    ensures Get(ResultJson(e).fields, "ref") == Str(e.resultRef)
    ensures Get(ResultJson(e).fields, "sha256") == Str(e.resultSha)
  {
    hide Lookup, HasExactly, Get;
    PairsSorted(e);
    var names, pair := ["authority", "execution"], ["ref", "sha256"];
    NamesFound(ShaSetJson(e).fields, names);
    NamesFound(ResultJson(e).fields, pair);
    assert Get(ShaSetJson(e).fields, names[0]) == ShaSetJson(e).fields[0].value;
    assert Get(ShaSetJson(e).fields, names[1]) == ShaSetJson(e).fields[1].value;
    assert Get(ResultJson(e).fields, pair[0]) == ResultJson(e).fields[0].value;
    assert Get(ResultJson(e).fields, pair[1]) == ResultJson(e).fields[1].value;
  }

  function Own(p: Producer): Expected {
    Expected(p.executionId, p.attemptId, p.bindingDigest, p.authoritySha, p.executionSha)
  }

  function About(e: Collected): Expected {
    Expected(e.executionId, e.attemptId, e.bindingDigest, e.authoritySha, e.executionSha)
  }

  /** All top-level members are found where the encoder put them. */
  lemma PayloadMembers(e: Collected)
    ensures var f := PayloadFields(e);
            && HasExactly(f, TOP)
            && Get(f, "artifacts") == Arr(ArtifactItems(e.artifacts))
            && Get(f, "attempt_id") == Str(e.attemptId)
            && Get(f, "binding_digest") == Str(e.bindingDigest)
            && Get(f, "claim_generation") == Int(e.claimGeneration)
            && Get(f, "collected_under_drift") == Bool(e.drift)
            && Get(f, "evidence_sha256") == Str(e.evidenceSha)
            && Get(f, "execution_id") == Str(e.executionId)
            && Get(f, "process") == ProcessJson(e.process)
            && Get(f, "result") == ResultJson(e)
            && Get(f, "schema") == Str(SCHEMA)
            && Get(f, "sha_set") == ShaSetJson(e)
            && Without(f, "evidence_sha256") == BodyFields(e)
  {
    hide Lookup, HasExactly, Get, ArtifactItems, ProcessJson, ResultJson, ShaSetJson, Without;
    var f := PayloadFields(e);
    PayloadSorted(e);
    NamesFound(f, TOP);
    assert Get(f, TOP[0]) == f[0].value && Get(f, TOP[1]) == f[1].value && Get(f, TOP[2]) == f[2].value;
    assert Get(f, TOP[3]) == f[3].value && Get(f, TOP[4]) == f[4].value && Get(f, TOP[5]) == f[5].value;
    assert Get(f, TOP[6]) == f[6].value && Get(f, TOP[7]) == f[7].value && Get(f, TOP[8]) == f[8].value;
    assert Get(f, TOP[9]) == f[9].value && Get(f, TOP[10]) == f[10].value;
    WithoutMiddle(HeadFields(e), Field("evidence_sha256", Str(e.evidenceSha)), TailFields(e));
  }

  /** Evidence that the format can carry: bounded texts, digests of the right length, one to sixteen
      artifacts under references of their own, the result among them, drift or not. */
  predicate ValidEvidence(e: Collected) {
    && IsText(e.executionId) && IsText(e.attemptId) && IsHex(e.bindingDigest, 64)
    && IsHex(e.authoritySha, 40) && IsHex(e.executionSha, 40)
    && IsText(e.process.hostId) && IsText(e.process.bootId) && IsText(e.process.creationId) && e.process.pid >= 1
    && 0 < |e.artifacts| <= 16 && ValidArtifacts(e.artifacts) && DistinctRefs(e.artifacts)
    && IsText(e.resultRef) && IsHex(e.resultSha, 64) && Lists(e.artifacts, e.resultRef, e.resultSha)
    && IsHex(e.evidenceSha, 64)
  }

  lemma {:induction false} DecodedArtifacts(items: seq<Json>, refs: set<string>)
    requires DecodeArtifacts(items, refs).Pass?
    ensures var artifacts := DecodeArtifacts(items, refs).value;
            && |artifacts| == |items| && ValidArtifacts(artifacts) && DistinctRefs(artifacts)
            && forall i :: 0 <= i < |artifacts| ==> artifacts[i].ref !in refs
  {
    hide IsText, IsHex, HasExactly, Get;
    if items != [] {
      var a := DecodeArtifact(items[0], refs).value;
      DecodedArtifacts(items[1..], refs + {a.ref});
      var rest := DecodeArtifacts(items[1..], refs + {a.ref}).value;
      assert DecodeArtifacts(items, refs).value == [a] + rest;
      forall i, j | 0 <= i < j < |[a] + rest| ensures ([a] + rest)[i].ref != ([a] + rest)[j].ref {
        assert ([a] + rest)[j] == rest[j - 1];
      }
    }
  }

  lemma DecodedProcess(v: Json)
    requires DecodeProcess(v).Pass?
    ensures var p := DecodeProcess(v).value; IsText(p.hostId) && IsText(p.bootId) && IsText(p.creationId) && p.pid >= 1
  {
    hide IsText, HasExactly, Get;
  }

  /** And nothing else is ever accepted. */
  lemma AcceptedIsValid(sha: string -> string, raw: Maybe<string>, want: Expected)
    requires Decode(sha, raw, want).Pass?
    ensures ValidEvidence(Decode(sha, raw, want).value) && About(Decode(sha, raw, want).value) == want
  {
    hide Loads, Canonical, Without, DecodeProcess, DecodeArtifacts, Members, Lists, Utf8Length, HasExactly, Get, IsText, IsHex,
         ValidArtifacts, DistinctRefs;
    var f := Loads(raw.value).value.fields;
    DecodedProcess(Get(f, "process"));
    DecodedArtifacts(Get(f, "artifacts").items, {});
  }

  lemma PayloadDecodes(sha: string -> string, e: Collected)
    requires ValidEvidence(e) && e.evidenceSha == EvidenceSha(sha, e)
    ensures DecodeFields(sha, PayloadFields(e), About(e)) == Pass(e)
  {
    hide Lookup, HasExactly, Get, ArtifactItems, ProcessJson, ResultJson, ShaSetJson, PayloadFields, BodyFields,
         Without, IsHex, IsText, DecodeProcess, DecodeArtifacts, Members, Canonical, Lists, ValidArtifacts, DistinctRefs;
    PayloadMembers(e);
    ProcessDecodes(e.process);
    ItemsDecode(e.artifacts, {});
    ItemsSorted(e.artifacts);
    PairsDecode(e);
  }

  /** The codec is exact: whatever valid evidence is encoded under its own digest decodes, against its own
      identity, to exactly itself; the one exception is a text over the size limit, which is refused as such. */
  lemma EncodedDecodes(sha: string -> string, e: Collected)
    requires ValidEvidence(e) && e.evidenceSha == EvidenceSha(sha, e)
    ensures Decode(sha, Present(Encode(e)), About(e)) == if Utf8Length(Encode(e)) > MAX_BYTES then Fail(BytesInvalid) else Pass(e)
  {
    hide IsHex, HasExactly, DecodeFields, PayloadFields, Loads, Utf8Length, ValidEvidence, EvidenceSha;
    var v := Obj(PayloadFields(e));
    PayloadSorted(e);
    SortSorted(v);
    RoundTrip(v);
    assert Encode(e) == Dumps(v) && Dumps(v) != "";
    PayloadMembers(e);
    PayloadDecodes(sha, e);
  }

  /** What an observation of a collection looks like. */
  predicate ValidObservation(o: Observation) {
    && o.result.ref == "result" && o.stdout.ref == "stdout" && o.stderr.ref == "stderr"
    && IsHex(o.result.sha256, 64) && IsHex(o.stdout.sha256, 64) && IsHex(o.stderr.sha256, 64)
  }

  lemma ReportIsValid(sha: string -> string, p: Producer, o: Observation)
    requires ValidProducer(p) && ValidObservation(o)
    requires forall s :: IsHex(sha(s), 64)
    ensures var e := Reported(sha, p, o); ValidEvidence(e) && e.evidenceSha == EvidenceSha(sha, e) && About(e) == Own(p)
  {
    hide IsHex, Canonical;
    var e := Reported(sha, p, o);
    assert "result"[0] == 'r' && "stdout"[0] == 's' && "stderr"[3] == 'e' && "stdout"[3] == 'o';
    assert IsText("result") && IsText("stdout") && IsText("stderr");
    assert e.artifacts[0] == o.result && Lists(e.artifacts, "result", o.result.sha256);
    assert BodyFields(e) == BodyFields(e.(evidenceSha := ""));
  }

  /** Whatever a valid producer emits decodes, against the producer's own identity, to exactly what it
      reported; the one exception is a text over the size limit, which is refused as such. */
  lemma EmittedDecodes(sha: string -> string, p: Producer, o: Observation)
    requires ValidProducer(p) && ValidObservation(o)
    requires forall s :: IsHex(sha(s), 64)
    ensures Decode(sha, Present(Emit(sha, p, o)), Own(p))
         == if Utf8Length(Emit(sha, p, o)) > MAX_BYTES then Fail(BytesInvalid) else Pass(Reported(sha, p, o))
  {
    hide IsHex, Decode, Encode, Reported, ValidEvidence, EvidenceSha, ValidProducer, ValidObservation;
    ReportIsValid(sha, p, o);
    EncodedDecodes(sha, Reported(sha, p, o));
  }

  // ---------------------------------------------------------------- bounded integers always fit

  /** No longer than the numerals that CPython converts to text by default. */
  predicate Printable(i: int) {
    |PrintInt(i)| <= 4300
  }

  predicate PrintableSizes(o: Observation) {
    Printable(o.result.size) && Printable(o.stdout.size) && Printable(o.stderr.size)
  }

  lemma {:induction false} AsciiLength(s: string)
    requires Ascii(s)
    ensures Utf8Length(s) == |s|
  {
    if s != "" {
      AsciiLength(s[1..]);
    }
  }

  lemma ArtifactWeight(a: Artifact)
    requires IsText(a.ref) && |a.ref| <= 6 && IsHex(a.sha256, 64) && Printable(a.size)
    ensures Weight(ArtifactJson(a)) <= 5400
  {
    hide PrintInt;
    var f := ArtifactJson(a).fields;
    ThreeFields(f[0], f[1], f[2]);
    assert f == [f[0], f[1], f[2]];
  }

  lemma ProcessWeight(p: Producer, exitCode: int)
    requires ValidProducer(p) && Printable(p.pid) && Printable(exitCode)
    ensures Weight(ProcessJson(Process(p.hostId, p.bootId, p.pid, p.creationId, exitCode))) <= 46000
  {
    hide PrintInt;
    var f := ProcessJson(Process(p.hostId, p.bootId, p.pid, p.creationId, exitCode)).fields;
    FiveFields(f[0], f[1], f[2], f[3], f[4]);
    assert f == [f[0], f[1], f[2], f[3], f[4]];
  }

  lemma PairsWeight(e: Collected)
    requires IsHex(e.authoritySha, 40) && IsHex(e.executionSha, 40) && |e.resultRef| <= 6 && IsHex(e.resultSha, 64)
    ensures Weight(ShaSetJson(e)) <= 1300 && Weight(ResultJson(e)) <= 1000
  {
    var f, g := ShaSetJson(e).fields, ResultJson(e).fields;
    TwoFields(f[0], f[1]);
    TwoFields(g[0], g[1]);
    assert f == [f[0], f[1]] && g == [g[0], g[1]];
  }

  lemma ThreeArtifacts(a: Artifact, b: Artifact, c: Artifact)
    ensures ArtifactItems([a, b, c]) == [ArtifactJson(a), ArtifactJson(b), ArtifactJson(c)]
  {
    assert [a, b, c][1..] == [b, c] && [b, c][1..] == [c] && [c][1..] == [];
    assert ArtifactItems([c]) == [ArtifactJson(c)];
    assert ArtifactItems([b, c]) == [ArtifactJson(b), ArtifactJson(c)];
  }

  lemma ArtifactsWeight(o: Observation)
    requires ValidObservation(o) && PrintableSizes(o)
    ensures Weight(Arr(ArtifactItems([o.result, o.stdout, o.stderr]))) <= 16300
  {
    hide PrintInt, IsHex, ArtifactJson, Printable;
    ArtifactWeight(o.result);
    ArtifactWeight(o.stdout);
    ArtifactWeight(o.stderr);
    ThreeArtifacts(o.result, o.stdout, o.stderr);
    ThreeItems(ArtifactJson(o.result), ArtifactJson(o.stdout), ArtifactJson(o.stderr));
    hide ArtifactItems;
  }

  lemma HeadWeight(sha: string -> string, p: Producer, o: Observation)
    requires ValidProducer(p) && ValidObservation(o) && Printable(p.claimGeneration) && PrintableSizes(o)
    ensures FieldsWeight(HeadFields(Reported(sha, p, o))) <= 35000
  {
    hide PrintInt, IsHex, ArtifactItems, EvidenceSha, ValidObservation, PrintableSizes;
    ArtifactsWeight(o);
    HexLength(p.bindingDigest, 64);
    var e := Reported(sha, p, o);
    var f := HeadFields(e);
    FiveFields(f[0], f[1], f[2], f[3], f[4]);
    assert f == [f[0], f[1], f[2], f[3], f[4]];
  }

  lemma HexLength(s: string, n: nat)
    requires IsHex(s, n)
    ensures |s| == n
  {
  }

  lemma TailWeight(sha: string -> string, p: Producer, o: Observation)
    requires ValidProducer(p) && ValidObservation(o) && Printable(p.pid) && Printable(o.exitCode)
    ensures FieldsWeight(TailFields(Reported(sha, p, o))) <= 62000
  {
    hide PrintInt, IsHex, ProcessJson, ShaSetJson, ResultJson, EvidenceSha;
    var e := Reported(sha, p, o);
    ProcessWeight(p, o.exitCode);
    PairsWeight(e);
    var f := TailFields(e);
    FiveFields(f[0], f[1], f[2], f[3], f[4]);
    assert f == [f[0], f[1], f[2], f[3], f[4]];
  }

  /** With integers that can be printed at all, what a valid producer emits is within the size limit. */
  lemma EmittedFits(sha: string -> string, p: Producer, o: Observation)
    requires ValidProducer(p) && ValidObservation(o) && forall s :: IsHex(sha(s), 64)
    requires Printable(p.claimGeneration) && Printable(p.pid) && Printable(o.exitCode) && PrintableSizes(o)
    ensures Utf8Length(Emit(sha, p, o)) <= MAX_BYTES
  {
    hide PrintInt, IsHex, HeadFields, TailFields, Weight, Dumps, EvidenceSha, Printable, Utf8Length, ValidEvidence;
    var e := Reported(sha, p, o);
    ReportIsValid(sha, p, o);
    DigestOf(e);
    hide Reported;
    var digest := Field("evidence_sha256", Str(e.evidenceSha));
    var v := Obj(PayloadFields(e));
    PayloadSorted(e);
    SortSorted(v);
    DumpsAscii(v);
    DumpsWeight(v);
    AsciiLength(Dumps(v));
    HeadWeight(sha, p, o);
    TailWeight(sha, p, o);
    FieldsWeightConcat(HeadFields(e) + [digest], TailFields(e));
    FieldsWeightConcat(HeadFields(e), [digest]);
    DigestWeight(e.evidenceSha);
    ObjectWeight(PayloadFields(e));
  }

  lemma DigestOf(e: Collected)
    requires ValidEvidence(e)
    ensures IsHex(e.evidenceSha, 64)
  {
  }

  lemma DigestWeight(s: string)
    requires IsHex(s, 64)
    ensures FieldsWeight([Field("evidence_sha256", Str(s))]) <= 1000
  {
    MoreFields(Field("evidence_sha256", Str(s)), []);
    assert [Field("evidence_sha256", Str(s))] + [] == [Field("evidence_sha256", Str(s))];
  }

  lemma ObjectWeight(fields: seq<Field>)
    ensures Weight(Obj(fields)) == 2 + FieldsWeight(fields)
  {
  }

  /** Whatever a valid producer with bounded integers emits decodes, against its own identity, to exactly
      what it reported. */
  lemma BoundedDecodes(sha: string -> string, p: Producer, o: Observation)
    requires ValidProducer(p) && ValidObservation(o) && forall s :: IsHex(sha(s), 64)
    requires Printable(p.claimGeneration) && Printable(p.pid) && Printable(o.exitCode) && PrintableSizes(o)
    ensures Decode(sha, Present(Emit(sha, p, o)), Own(p)) == Pass(Reported(sha, p, o))
  {
    hide IsHex, Decode, Emit, Utf8Length, Reported, ValidProducer, ValidObservation, Printable;
    EmittedFits(sha, p, o);
    EmittedDecodes(sha, p, o);
  }

  // ---------------------------------------------------------------- the one-attempt producer object

  datatype CollectError = ArtifactTooLarge | Immutable

  datatype Collection = Emitted(raw: string) | Refused(error: CollectError)

  const MAX_ARTIFACT_BYTES := 1048576

  /** Digests of the canonical text and of raw stream bytes. */
  datatype Digests = Digests(text: string -> string, bytes: seq<bv8> -> string)

  function Observe(d: Digests, result: seq<bv8>, stdout: seq<bv8>, stderr: seq<bv8>, exitCode: int): Observation {
    Observation(Artifact("result", d.bytes(result), |result|), Artifact("stdout", d.bytes(stdout), |stdout|),
                Artifact("stderr", d.bytes(stderr), |stderr|), exitCode)
  }

  class CollectionProducer {
    const identity: Producer
    const digests: Digests
    var signature: Maybe<Observation>
    var raw: string

    /** A producer that has collected replays the bytes of that first observation. */
    ghost predicate Valid()
      reads this
    {
      signature.Present? ==> raw == Emit(digests.text, identity, signature.value)
    }

    constructor (identity: Producer, digests: Digests)
      ensures Valid() && signature == Absent && this.identity == identity && this.digests == digests
    {
      this.identity, this.digests := identity, digests;
      signature, raw := Absent, "";
    }

    /** The first collection fixes the evidence; a later one replays it byte for byte when it observed
        the same, and is refused otherwise. */
    method Collect(result: seq<bv8>, stdout: seq<bv8>, stderr: seq<bv8>, exitCode: int) returns (c: Collection)
      requires Valid()
      modifies this
      ensures Valid()
      ensures var large := |result| > MAX_ARTIFACT_BYTES || |stdout| > MAX_ARTIFACT_BYTES || |stderr| > MAX_ARTIFACT_BYTES;
              var seen := Observe(digests, result, stdout, stderr, exitCode);
              && (large ==> c == Refused(ArtifactTooLarge) && signature == old(signature))
              && (!large && old(signature).Absent? ==> signature == Present(seen) && c == Emitted(raw))
              && (old(signature).Present? ==> signature == old(signature) && raw == old(raw))
              && (!large && old(signature) == Present(seen) ==> c == Emitted(raw))
              && (!large && old(signature).Present? && old(signature).value != seen ==> c == Refused(Immutable))
    {
      if |result| > MAX_ARTIFACT_BYTES || |stdout| > MAX_ARTIFACT_BYTES || |stderr| > MAX_ARTIFACT_BYTES {
        return Refused(ArtifactTooLarge);
      }
      var seen := Observe(digests, result, stdout, stderr, exitCode);
      if signature.Present? {
        if signature.value != seen {
          return Refused(Immutable);
        }
        return Emitted(raw);
      }
      signature := Present(seen);
      raw := Emit(digests.text, identity, seen);
      return Emitted(raw);
    }
  }

  lemma StreamSize(n: nat)
    requires n <= MAX_ARTIFACT_BYTES
    ensures Printable(n)
  {
    assert Pow10(7) == 10 * Pow10(6) && Pow10(6) == 10 * Pow10(5) && Pow10(5) == 10 * Pow10(4);
    assert Pow10(4) == 10 * Pow10(3) && Pow10(3) == 10 * Pow10(2) && Pow10(2) == 10 * Pow10(1);
    PrintLength(n, 7);
  }

  /** Over any series of collections one producer emits a single byte string; and when its own numbers and
      the exit codes are bounded, that string decodes to exactly what the producer saw first. */
  method CollectAll(p: CollectionProducer, series: seq<(seq<bv8>, seq<bv8>, seq<bv8>, int)>)
    returns (out: seq<Collection>)
    requires p.Valid() && p.signature == Absent && ValidProducer(p.identity)
    requires forall s :: IsHex(p.digests.text(s), 64)
    requires forall s :: IsHex(p.digests.bytes(s), 64)
    modifies p
    ensures |out| == |series|
    ensures forall i, j :: 0 <= i < j < |out| && out[i].Emitted? && out[j].Emitted? ==> out[i] == out[j]
    ensures (exists i :: 0 <= i < |out| && out[i].Emitted?) ==> p.signature.Present?
    ensures Printable(p.identity.claimGeneration) && Printable(p.identity.pid)
            && (forall k :: 0 <= k < |series| ==> Printable(series[k].3)) ==>
              forall i :: 0 <= i < |out| && out[i].Emitted? ==>
                Decode(p.digests.text, Present(out[i].raw), Own(p.identity))
                == Pass(Reported(p.digests.text, p.identity, p.signature.value))
  {
    hide Decode, Emit, Utf8Length, Reported, ValidProducer, IsHex, Printable;
    out := [];
    var i := 0;
    while i < |series|
      invariant 0 <= i <= |series| && |out| == i && p.Valid()
      invariant p.signature.Present? ==> ValidObservation(p.signature.value) && PrintableSizes(p.signature.value)
      invariant p.signature.Present? ==> exists k :: 0 <= k < i && series[k].3 == p.signature.value.exitCode
      invariant forall k :: 0 <= k < |out| && out[k].Emitted? ==> p.signature.Present? && out[k].raw == p.raw
    {
      if |series[i].0| <= MAX_ARTIFACT_BYTES && |series[i].1| <= MAX_ARTIFACT_BYTES && |series[i].2| <= MAX_ARTIFACT_BYTES {
        StreamSize(|series[i].0|);
        StreamSize(|series[i].1|);
        StreamSize(|series[i].2|);
      }
      var c := p.Collect(series[i].0, series[i].1, series[i].2, series[i].3);
      out := out + [c];
      i := i + 1;
    }
    if p.signature.Present? && Printable(p.identity.claimGeneration) && Printable(p.identity.pid)
       && Printable(p.signature.value.exitCode)
    {
      BoundedDecodes(p.digests.text, p.identity, p.signature.value);
    }
  }
}
