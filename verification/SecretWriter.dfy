/**
 Writing the env file: owned temporary, drift fence, atomic replace, read-back and rollback, over every
 pattern of failing calls and with other programs writing the target at any step.  A failing call may
 have had its effect all the same.
 */
module SecretWriter {
  import opened Chars
  import opened EnvFile
  import opened EnvEdit

  datatype Option<T> = None | Some(value: T)

  /** File bytes: the text they decode to, or bytes that are not UTF-8. */
  datatype Bytes = Utf8(text: string) | NotUtf8(raw: seq<bv8>)

  datatype File = File(data: Bytes, mode: nat)

  datatype WriteError =
    | KeyInvalid | KeyNotAllowed | ValueInvalid
    | TargetUnusable | TargetInspectionFailed | TargetReadFailed | TargetDrifted | TargetParseFailed
    | LineBoundaryUnsupported | PlanRejected(reason: PlanError)
    | WriteFailed | WriteVerificationFailed | ReplaceFailed | WriteRolledBack | RecoveryRequired

  datatype Outcome = Done | Refused(error: WriteError)

  datatype TempResult = Temp(name: nat) | NoTemp(error: WriteError)

  datatype Cleared = Writable | Gone | Stuck

  datatype Resolved = Value(value: string) | NotFound | Unavailable

  // ---------------------------------------------------------------- what the reader makes of a file

  function ParseBytes(data: Bytes): Parsed {
    if data.Utf8? then Parse(data.text) else Parsed.Failed
  }

  function ResolveIn(data: Bytes, key: string): Resolved {
    match ParseBytes(data)
    case Failed => Resolved.Unavailable
    case Ok(values) => if key !in values || values[key] == "" then Resolved.NotFound else Value(values[key])
  }

  /** The read-back answer that confirms an operation. */
  predicate Confirms(r: Resolved, op: Op, value: string) {
    if op.Delete? then r.NotFound? else r == Value(value)
  }

  function Edit(text: string, op: Op, key: string, value: string): Plan {
    MakePlan(FileUnits(text), op, key, value)
  }

  /** `after` is `before` with exactly the requested edit: planned bytes, same mode, and the reader's
      whole map changed at `key` alone. */
  predicate Achieves(before: File, after: File, op: Op, key: string, value: string) {
    && before.data.Utf8? && Editable(before.data.text)
    && var plan := Edit(before.data.text, op, key, value);
       && plan.Edited?
       && after == File(Utf8(RenderFile(plan.units, HasBom(before.data.text))), before.mode)
       && Parse(after.data.text) == Ok(Wanted(Parse(before.data.text).values, op, key, value))
  }

  /** The planned bytes of a readable file, and the map they have to read as. */
  predicate Prepared(before: File, desired: Bytes, expected: map<string, string>, op: Op, key: string, value: string) {
    && before.data.Utf8? && Editable(before.data.text)
    && Edit(before.data.text, op, key, value).Edited?
    && desired == Utf8(RenderFile(Edit(before.data.text, op, key, value).units, HasBom(before.data.text)))
    && expected == Wanted(Parse(before.data.text).values, op, key, value)
  }

  lemma PreparedAchieves(before: File, desired: Bytes, expected: map<string, string>, op: Op, key: string, value: string)
    requires Prepared(before, desired, expected, op, key, value) && ParseBytes(desired) == Ok(expected)
    ensures Achieves(before, File(desired, before.mode), op, key, value)
  {
    hide Edit, Parse, RenderFile, Editable, Wanted;
  }

  /** An achieved edit is never one of those that bare a hidden line: the read-back of the temporary
      turns each of them into a failure before the target is touched. */
  lemma AchievedNeverMisreads(before: File, after: File, op: Op, key: string, value: string)
    requires Achieves(before, after, op, key, value) && IsKey(key) && (op.Delete? || ValueAccepted(value))
    ensures !Misreads(before.data.text, op, key)
  {
    hide Parse, RenderFile, Misreads, Editable, IsKey, IsValue, ValueAccepted, Wanted, MakePlan;
    AcceptedValues(value);
    PlanReads(before.data.text, op, key, value);
  }

  /** Planned bytes read as they must exactly when the edit bares no hidden line. */
  lemma PreparedReads(before: File, desired: Bytes, expected: map<string, string>, op: Op, key: string, value: string)
    requires Prepared(before, desired, expected, op, key, value) && IsKey(key) && (op.Delete? || ValueAccepted(value))
    ensures ParseBytes(desired) == Ok(expected) <==> !Misreads(before.data.text, op, key)
  {
    hide Parse, RenderFile, Misreads, Editable, IsKey, IsValue, ValueAccepted, Wanted, MakePlan;
    AcceptedValues(value);
    PlanReads(before.data.text, op, key, value);
  }

  /** The file with the requested edit reads back as asked. */
  lemma AchievedConfirms(before: File, after: File, op: Op, key: string, value: string)
    requires Achieves(before, after, op, key, value) && (op.Delete? || ValueAccepted(value))
    ensures Confirms(ResolveIn(after.data, key), op, value)
  {
    hide Parse, Edit, RenderFile, Editable;
  }

  lemma PreparedFlawless(before: File, desired: Bytes, expected: map<string, string>, op: Op, key: string, value: string)
    requires Prepared(before, desired, expected, op, key, value)
    ensures Flaw(before.data, op, key, value).None?
  {
    hide Parse, Edit, RenderFile, Supported;
  }

  predicate ValueAccepted(value: string) {
    && value != "" && value == Strip(value)
    && !(|value| >= 2 && value[0] == value[|value| - 1] && (value[0] == '\'' || value[0] == '\"'))
    && forall i :: 0 <= i < |value| ==> value[i] != '\0' && !IsBoundary(value[i])
  }

  lemma {:induction false} TrimRightShrinks(s: string)
    ensures |TrimRight(s)| <= |s|
    ensures TrimRight(s) != "" ==> !IsSpace(TrimRight(s)[|TrimRight(s)| - 1])
  {
    if s != "" && IsSpace(s[|s| - 1]) {
      TrimRightShrinks(s[..|s| - 1]);
    }
  }

  lemma {:induction false} TrimLeftShrinks(s: string)
    ensures |TrimLeft(s)| <= |s| && (s != "" && IsSpace(s[0]) ==> |TrimLeft(s)| < |s|)
  {
    if s != "" && IsSpace(s[0]) {
      TrimLeftShrinks(s[1..]);
    }
  }

  /** The values accepted are exactly those that the reader gives back unchanged. */
  lemma AcceptedValues(value: string)
    ensures ValueAccepted(value) <==> IsValue(value)
  {
    TrimLeftShrinks(value);
    TrimRightShrinks(TrimLeft(value));
    if value != "" && !IsSpace(value[0]) && !IsSpace(value[|value| - 1]) {
      TrimmedKeeps(value);
    }
  }

  // ---------------------------------------------------------------- the writer

  class Writer {
    const allowed: set<string>
    /** The env file, the stamp its identity carries, and the owned temporaries beside it. */
    var target: File
    var stamp: nat
    var temps: map<nat, File>
    /** Whether the target is a plain file inside its plain directory. */
    var usable: bool
    /** Files this writer has put in place, in order, the number of writes by others, and of failed calls. */
    ghost var own: seq<File>
    ghost var outside: nat
    ghost var faults: nat

    /** Every write of the target changes its identity. */
    ghost predicate Valid()
      reads this
    {
      stamp == |own| + outside
    }

    constructor (keys: set<string>, file: File, usable: bool)
      ensures Valid() && allowed == keys && target == file && temps == map[] && own == [] && this.usable == usable
      ensures outside == 0 && faults == 0
    {
      allowed, target, stamp, temps, own, this.usable := keys, file, 0, map[], [], usable;
      outside, faults := 0, 0;
    }

    /** The writer has left the target alone; others may have written it. */
    twostate predicate Idle()
      reads this
    {
      && own == old(own) && outside >= old(outside)
      && (outside == old(outside) ==> target == old(target) && usable == old(usable))
    }

    /** No call has failed since, and nobody else has written. */
    twostate predicate Quiet()
      reads this
    {
      faults == old(faults) && outside == old(outside)
    }

    /** `file` is what this writer last put in place, and nobody has written since. */
    twostate predicate Put(file: File)
      reads this
    {
      && own == old(own) + [file] && outside >= old(outside)
      && (outside == old(outside) ==> target == file)
    }

    // ------------------------------------------------------------ single calls

    method Others()
      requires Valid()
      modifies this`target, this`stamp, this`usable, this`outside, this`faults
      ensures Valid() && Idle() && faults == old(faults)
    {
      var write: bool := *;
      if write {
        target, usable := *, *;
        stamp := stamp + 1;
        outside := outside + 1;
      }
    }

    method Identity() returns (id: Option<nat>)
      requires Valid()
      modifies this`target, this`stamp, this`usable, this`outside, this`faults
      ensures Valid() && Idle() && faults == old(faults) + if id.None? then 1 else 0
      ensures id.Some? ==> id.value == stamp
    {
      Others();
      var fails: bool := *;
      faults := faults + if fails then 1 else 0;
      id := if fails then None else Some(stamp);
    }

    method ReadTarget() returns (data: Option<Bytes>)
      requires Valid()
      modifies this`target, this`stamp, this`usable, this`outside, this`faults
      ensures Valid() && Idle() && faults == old(faults) + if data.None? then 1 else 0
      ensures data.Some? ==> data.value == target.data
    {
      Others();
      var fails: bool := *;
      faults := faults + if fails then 1 else 0;
      data := if fails then None else Some(target.data);
    }

    method Resolve(key: string) returns (r: Resolved)
      requires Valid()
      modifies this`target, this`stamp, this`usable, this`outside, this`faults
      ensures Valid() && Idle() && old(faults) <= faults <= old(faults) + 1
      ensures r == ResolveIn(target.data, key) || (r == Unavailable && faults > old(faults))
    {
      Others();
      var fails: bool := *;
      faults := faults + if fails then 1 else 0;
      r := if fails then Unavailable else ResolveIn(target.data, key);
    }

    method MakeTemp() returns (name: Option<nat>)
      requires Valid()
      modifies this
      ensures Valid() && Idle() && faults == old(faults) + if name.None? then 1 else 0
      ensures name.None? ==> temps == old(temps)
      ensures name.Some? ==> name.value !in old(temps) && temps.Keys == old(temps.Keys) + {name.value}
      ensures name.Some? ==> temps == old(temps)[name.value := temps[name.value]]
    {
      Others();
      var fails: bool := *;
      faults := faults + if fails then 1 else 0;
      if fails {
        name := None;
      } else {
        var n := UnusedName(temps.Keys);
        var mode: nat := *;
        temps := temps[n := File(Utf8(""), mode)];
        name := Some(n);
      }
    }

    static method UnusedName(names: set<nat>) returns (n: nat)
      ensures n !in names
    {
      n := 0;
      var below := names;
      while n in names
        invariant forall k :: k in names <==> k in below || (k < n && k in names)
        invariant forall k :: k in below ==> k >= n
        decreases |below|
      {
        below := below - {n};
        n := n + 1;
      }
    }

    method FillTemp(name: nat, data: Bytes) returns (ok: bool)
      requires Valid() && name in temps
      modifies this
      ensures Valid() && Idle() && name in temps && faults == old(faults) + if ok then 0 else 1
      ensures temps == old(temps)[name := temps[name]] && temps[name].mode == old(temps)[name].mode
      ensures ok ==> temps[name].data == data
    {
      Others();
      ok := *;
      faults := faults + if ok then 0 else 1;
      var written: Bytes := *;
      temps := temps[name := File(if ok then data else written, temps[name].mode)];
    }

    method ChmodTemp(name: nat, mode: nat) returns (ok: bool)
      requires Valid() && name in temps
      modifies this
      ensures Valid() && Idle() && name in temps && faults == old(faults) + if ok then 0 else 1
      ensures temps == old(temps)[name := temps[name]] && temps[name].data == old(temps)[name].data
      ensures ok ==> temps[name].mode == mode
    {
      Others();
      ok := *;
      faults := faults + if ok then 0 else 1;
      var left: nat := *;
      if ok {
        left := mode;
      }
      temps := temps[name := File(temps[name].data, left)];
    }

    method ReadTemp(name: nat) returns (data: Option<Bytes>)
      requires Valid() && name in temps
      modifies this`target, this`stamp, this`usable, this`outside, this`faults
      ensures Valid() && Idle() && faults == old(faults) + if data.None? then 1 else 0
      ensures data.Some? ==> data.value == temps[name].data
    {
      Others();
      var fails: bool := *;
      faults := faults + if fails then 1 else 0;
      data := if fails then None else Some(temps[name].data);
    }

    method Unlink(name: nat) returns (ok: bool)
      requires Valid()
      modifies this
      ensures Valid() && Idle() && faults == old(faults) + if ok then 0 else 1
      ensures temps == old(temps) || temps == old(temps) - {name}
      ensures ok ==> name !in temps
    {
      Others();
      ok := *;
      faults := faults + if ok then 0 else 1;
      var effect: bool := *;
      if ok || effect {
        temps := temps - {name};
      }
    }

    method ClearReadOnly(name: nat) returns (c: Cleared)
      requires Valid()
      modifies this
      ensures Valid() && Idle() && faults == old(faults) + if c.Stuck? then 1 else 0
      ensures c.Gone? ==> name !in temps
      ensures temps == old(temps) || (name in temps && temps == old(temps)[name := temps[name]])
      ensures temps.Keys == old(temps.Keys)
    {
      Others();
      var fails: bool := *;
      if name !in temps {
        c := Gone;
      } else if fails {
        c, faults := Stuck, faults + 1;
      } else {
        var mode: nat := *;
        temps := temps[name := File(temps[name].data, mode)];
        c := Writable;
      }
    }

    /** Moving a temporary over the target is atomic: it happens or it does not, whatever is reported. */
    method Replace(name: nat) returns (ok: bool)
      requires Valid() && name in temps
      modifies this
      ensures Valid() && outside >= old(outside) && faults == old(faults) + if ok then 0 else 1
      ensures (Put(old(temps)[name]) && temps == old(temps) - {name}) || (!ok && Idle() && temps == old(temps))
    {
      Others();
      ok := *;
      faults := faults + if ok then 0 else 1;
      var effect: bool := *;
      if ok || effect {
        target, stamp, own := temps[name], stamp + 1, own + [temps[name]];
        temps := temps - {name};
      }
    }

    // ------------------------------------------------------------ the owned temporary

    /** Removes the owned temporary, or says that it could not be proved removed. */
    method CleanupOwnedTemp(name: nat) returns (ok: bool)
      requires Valid()
      modifies this
      ensures Valid() && Idle() && faults >= old(faults) + if ok then 0 else 2
      ensures temps - {name} == old(temps) - {name}
      ensures ok ==> temps == old(temps) - {name}
    {
      ok := Unlink(name);
      if ok {
        return;
      }
      var c := ClearReadOnly(name);
      match c {
        case Gone => return true;
        case Stuck => return false;
        case Writable => ok := Unlink(name);
      }
    }

    method WriteOwnedTemp(data: Bytes, mode: nat) returns (r: TempResult)
      requires Valid()
      modifies this
      ensures Valid() && Idle() && faults >= old(faults)
      ensures r.NoTemp? ==> faults > old(faults) && r.error in {WriteFailed, TargetInspectionFailed, RecoveryRequired}
      ensures r.NoTemp? && r.error.RecoveryRequired? ==> faults >= old(faults) + 2
      ensures r.Temp? ==> r.name !in old(temps) && temps == old(temps)[r.name := File(data, mode)]
      ensures r.NoTemp? && !r.error.RecoveryRequired? ==> temps == old(temps)
      ensures Extends(old(temps), temps)
    {
      var name := MakeTemp();
      if name.None? {
        return NoTemp(WriteFailed);
      }
      var n := name.value;
      var filled := FillTemp(n, data);
      var moded := false;
      if filled {
        moded := ChmodTemp(n, mode);
      }
      if filled && moded {
        return Temp(n);
      }
      var clean := CleanupOwnedTemp(n);
      assert Extends(old(temps), temps - {n});
      if !clean {
        return NoTemp(RecoveryRequired);
      }
      assert temps == old(temps);
      return NoTemp(if filled then TargetInspectionFailed else WriteFailed);
    }

    // ------------------------------------------------------------ rollback

    /** Puts the captured bytes and mode back, or says that this is not proved. */
    method Rollback(captured: Bytes, mode: nat) returns (ok: bool)
      requires Valid()
      modifies this
      ensures Valid() && outside >= old(outside) && Extends(old(temps), temps)
      ensures Idle() || (exists m: nat :: Put(File(captured, m)))
      ensures ok ==> Put(File(captured, mode)) && temps == old(temps)
      // It succeeds unless a call fails or somebody else writes.
      ensures faults >= old(faults) && (Quiet() ==> ok)
    {
      var name := MakeTemp();
      if name.None? {
        return false;
      }
      var n := name.value;
      var filled := FillTemp(n, captured);
      if !filled {
        var _ := CleanupOwnedTemp(n);
        assert Extends(old(temps), temps - {n});
        return false;
      }
      var moded := ChmodTemp(n, mode);
      ghost var staged := temps[n];
      var swapped := Replace(n);
      if !swapped {
        assert Idle() || Put(File(captured, staged.mode));
        var _ := CleanupOwnedTemp(n);
        assert Extends(old(temps), temps - {n});
        assert Idle() || Put(File(captured, staged.mode));
        return false;
      }
      assert temps == old(temps);
      var restored := ReadTarget();
      assert Put(File(captured, staged.mode));
      ok := restored == Some(captured) && moded;
    }

    // ------------------------------------------------------------ the replacement

    /** The checks before the swap: the temporary reads as expected, and the target is still the captured one. */
    method Fence(name: nat, captured: Bytes, identity: nat, expected: map<string, string>) returns (e: Option<WriteError>)
      requires Valid() && name in temps && identity <= stamp
      modifies this`target, this`stamp, this`usable, this`outside, this`faults
      ensures Valid() && Idle()
      ensures e.None? ==> ParseBytes(temps[name].data) == Ok(expected)
      ensures e.None? ==> stamp == identity && old(stamp) == identity && target.data == captured
      ensures faults >= old(faults) && (e.Some? ==> Harmless(e.value))
      // Each refusal is true of something, and an undisturbed target passes.
      ensures e == Some(WriteVerificationFailed) ==> faults > old(faults) || ParseBytes(temps[name].data) != Ok(expected)
      ensures e == Some(TargetInspectionFailed) || e == Some(TargetReadFailed) ==> faults > old(faults)
      ensures e == Some(TargetDrifted) ==>
                outside > old(outside) || old(target).data != captured || old(stamp) != identity
      ensures Quiet() && old(target).data == captured && old(stamp) == identity ==>
                e == if ParseBytes(temps[name].data) == Ok(expected) then None else Some(WriteVerificationFailed)
    {
      var observed := ReadTemp(name);
      if observed.None? || ParseBytes(observed.value) != Ok(expected) {
        return Some(WriteVerificationFailed);
      }
      var before := Identity();
      if before.None? {
        return Some(TargetInspectionFailed);
      }
      var reobserved := ReadTarget();
      if reobserved.None? {
        return Some(TargetReadFailed);
      }
      var after := Identity();
      if after.None? {
        return Some(TargetInspectionFailed);
      }
      if reobserved.value != captured || before.value != identity || after.value != identity {
        return Some(TargetDrifted);
      }
      e := None;
    }

    /** The swap itself, and what is said of one that was reported as failed. */
    method Swap(name: nat, captured: File) returns (e: Option<WriteError>)
      requires Valid() && name in temps && temps[name].mode == captured.mode
      modifies this
      ensures Valid() && outside >= old(outside) && Extends(old(temps) - {name}, temps)
      ensures faults >= old(faults) && (e.Some? ==> faults > old(faults))
      ensures e == Some(RecoveryRequired) ==>
                faults >= old(faults) + 2 || outside > old(outside) || old(target).data != captured.data
      ensures e.None? ==> Put(old(temps)[name]) && temps == old(temps) - {name}
      ensures e.Some? ==> e.value in {RecoveryRequired, ReplaceFailed, WriteRolledBack}
      ensures e.Some? && !e.value.RecoveryRequired? ==>
                && temps - {name} == old(temps) - {name}
                && (outside == old(outside) && old(target) == captured ==> target == captured)
      ensures outside == old(outside) ==> target.data in {old(target).data, old(temps)[name].data, captured.data}
    {
      var bytes := temps[name].data;
      var ok := Replace(name);
      if ok {
        return None;
      }
      var current := ReadTarget();
      if current.None? {
        return Some(RecoveryRequired);
      }
      if current.value == captured.data {
        return Some(ReplaceFailed);
      }
      if current.value == bytes {
        var rolled := Rollback(captured.data, captured.mode);
        return Some(if rolled then WriteRolledBack else RecoveryRequired);
      }
      e := Some(RecoveryRequired);
    }

    /** Temporary, fence and swap; the temporary is gone again unless recovery is required. */
    method AtomicReplace(desired: Bytes, captured: File, identity: nat, expected: map<string, string>)
        returns (e: Option<WriteError>)
      requires Valid() && identity <= stamp
      modifies this
      ensures Valid() && outside >= old(outside) && Extends(old(temps), temps)
      ensures e.None? ==> Put(File(desired, captured.mode)) && ParseBytes(desired) == Ok(expected)
      ensures e.None? || !e.value.RecoveryRequired? ==> temps == old(temps)
      ensures e.Some? && !e.value.RecoveryRequired? && outside == old(outside) && old(target) == captured
              ==> target == captured
      ensures outside == old(outside) ==> target.data in {old(target).data, desired, captured.data}
      ensures Idle() || ParseBytes(desired) == Ok(expected)
      ensures old(stamp) != identity ==> e.Some? && Idle()
      // Undisturbed it succeeds exactly when the desired bytes read as expected; every other refusal is true.
      ensures faults >= old(faults)
      ensures Quiet() && old(target) == captured && old(stamp) == identity ==>
                e == if ParseBytes(desired) == Ok(expected) then None else Some(WriteVerificationFailed)
      ensures e == Some(TargetDrifted) ==> outside > old(outside) || old(target) != captured || old(stamp) != identity
      ensures e == Some(RecoveryRequired) ==>
                faults >= old(faults) + 2 || outside > old(outside) || old(target) != captured
      ensures e.Some? ==> faults > old(faults) || e.value.WriteVerificationFailed? || e.value.TargetDrifted?
      ensures e.Some? ==> e.value in {WriteFailed, ReplaceFailed, WriteRolledBack, RecoveryRequired} || Harmless(e.value)
    {
      var temp := WriteOwnedTemp(desired, captured.mode);
      if temp.NoTemp? {
        return Some(temp.error);
      }
      var n := temp.name;
      e := Fence(n, captured.data, identity, expected);
      if e.None? {
        e := Swap(n, captured);
        if e.None? {
          assert temps == old(temps);
          return;
        }
      }
      assert Extends(old(temps), temps - {n});
      var clean := CleanupOwnedTemp(n);
      assert Extends(old(temps), temps);
      if !clean {
        return Some(RecoveryRequired);
      }
      if !e.value.RecoveryRequired? {
        assert temps == old(temps);
      }
    }

    // ------------------------------------------------------------ the operation

    /** The checks on the path of the target. */
    method PrepareTarget() returns (e: Option<WriteError>)
      modifies this`faults
      ensures faults == old(faults) ==> e == if usable then None else Some(TargetUnusable)
      ensures faults >= old(faults)
      ensures faults > old(faults) ==> e == Some(TargetInspectionFailed) && faults == old(faults) + 1
    {
      var fails: bool := *;
      if fails {
        faults := faults + 1;
        return Some(TargetInspectionFailed);
      }
      e := if usable then None else Some(TargetUnusable);
    }

    predicate MayWrite(op: Op, key: string, value: string) {
      IsKey(key) && key in allowed && (op.Delete? || ValueAccepted(value))
    }

    /** The answer of an operation in which nothing fails and nobody interferes. */
    function Owed(op: Op, key: string, value: string, usable: bool, data: Bytes): Outcome {
      if !IsKey(key) then Refused(KeyInvalid)
      else if key !in allowed then Refused(KeyNotAllowed)
      else if !op.Delete? && !ValueAccepted(value) then Refused(ValueInvalid)
      else if !usable then Refused(TargetUnusable)
      else if Flaw(data, op, key, value).Some? then Refused(Flaw(data, op, key, value).value)
      else if Misreads(data.text, op, key) then Refused(WriteVerificationFailed)
      else Done
    }

    method Validate(op: Op, key: string, value: string) returns (e: Option<WriteError>)
      ensures e.None? <==> MayWrite(op, key, value)
      ensures e == Some(KeyInvalid) <==> !IsKey(key)
      ensures e == Some(KeyNotAllowed) <==> IsKey(key) && key !in allowed
      ensures e == Some(ValueInvalid) <==> IsKey(key) && key in allowed && !op.Delete? && !ValueAccepted(value)
      ensures e.Some? ==> e.value in {KeyInvalid, KeyNotAllowed, ValueInvalid}
    {
      e := if !IsKey(key) then Some(KeyInvalid)
           else if key !in allowed then Some(KeyNotAllowed)
           else if !op.Delete? && !ValueAccepted(value) then Some(ValueInvalid)
           else None;
    }

    /** Reads the target between two equal identities. */
    method Capture() returns (e: Option<WriteError>, captured: File, identity: nat)
      requires Valid()
      modifies this`target, this`stamp, this`usable, this`outside, this`faults
      ensures Valid() && Idle()
      ensures e.None? ==> captured == target && identity == stamp
      ensures identity <= stamp
      ensures e.Some? ==> e.value in {TargetInspectionFailed, TargetReadFailed, TargetDrifted}
      ensures faults == old(faults) + if e.Some? && !e.value.TargetDrifted? then 1 else 0
      ensures e == Some(TargetDrifted) ==> outside > old(outside)
    {
      captured, identity := File(Utf8(""), 0), 0;
      var before := Identity();
      if before.None? {
        return Some(TargetInspectionFailed), captured, identity;
      }
      var data := ReadTarget();
      if data.None? {
        return Some(TargetReadFailed), captured, identity;
      }
      ghost var readAt := stamp;
      var after := Identity();
      if after.None? {
        return Some(TargetInspectionFailed), captured, identity;
      }
      if before.value != after.value {
        return Some(TargetDrifted), captured, identity;
      }
      captured, identity := File(data.value, target.mode), after.value;
      e := None;
    }

    /** Captures the target and plans the new bytes and the map they must read as. */
    method Prepare(op: Op, key: string, value: string)
        returns (e: Option<WriteError>, captured: File, identity: nat, desired: Bytes, expected: map<string, string>)
      requires Valid()
      modifies this`target, this`stamp, this`usable, this`outside, this`faults
      ensures Valid() && Idle() && identity <= stamp
      ensures e.Some? ==> !e.value.RecoveryRequired?
      ensures e.None? && outside == old(outside) ==>
                && captured == old(target) && identity == old(stamp)
                && Prepared(captured, desired, expected, op, key, value)
      ensures faults >= old(faults)
      ensures e == Some(TargetDrifted) ==> outside > old(outside)
      ensures e.Some? ==> faults > old(faults) || e.value.TargetDrifted? || Defect(e.value)
      ensures Quiet() ==> e == Flaw(old(target).data, op, key, value)
    {
      desired, expected := Utf8(""), map[];
      e, captured, identity := Capture();
      if e.Some? {
        return;
      }
      var projected := ReadTarget();
      if projected.None? || ParseBytes(projected.value).Failed? || captured.data.NotUtf8? {
        e := Some(TargetParseFailed);
        return;
      }
      var text := captured.data.text;
      if !Supported(Text(text)) {
        e := Some(LineBoundaryUnsupported);
        return;
      }
      var plan := Edit(text, op, key, value);
      if plan.Rejected? {
        e := Some(PlanRejected(plan.error));
        return;
      }
      desired := Utf8(RenderFile(plan.units, HasBom(text)));
      expected := Wanted(ParseBytes(projected.value).values, op, key, value);
    }

    /** One insert, rotate or delete. */
    method Execute(op: Op, key: string, value: string) returns (r: Outcome)
      requires Valid()
      modifies this
      ensures Valid() && Extends(old(temps), temps)
      // A confirmed edit: nothing owned is left behind, and the key reads as asked, whoever else writes.
      ensures r.Done? ==> MayWrite(op, key, value) && temps == old(temps)
      ensures r.Done? ==> Confirms(ResolveIn(target.data, key), op, value)
      // With no outside writer it is exactly the requested edit of the file that was there.
      ensures r.Done? && outside == old(outside) ==> Achieves(old(target), target, op, key, value)
      // A typed failure leaves the original file and no owned temporary, unless it asks for recovery.
      ensures r.Refused? && !r.error.RecoveryRequired? ==> temps == old(temps)
      ensures r.Refused? && !r.error.RecoveryRequired? && outside == old(outside) ==> target == old(target)
      // Even then the file is one of the two, never a mixture.
      ensures outside == old(outside) && target.data != old(target).data
              ==> Achieves(old(target), File(target.data, old(target).mode), op, key, value)
      // Undisturbed, the inputs decide.
      ensures Quiet() ==> r == Owed(op, key, value, old(usable), old(target).data)
      // A drift is somebody else's write, and recovery takes one or two failing calls.
      ensures r == Refused(TargetDrifted) ==> outside > old(outside)
      ensures r == Refused(RecoveryRequired) ==> outside > old(outside) || faults >= old(faults) + 2
      ensures r.Refused? && r.error in {WriteFailed, ReplaceFailed, TargetInspectionFailed, TargetReadFailed}
              ==> faults > old(faults)
      ensures r == Refused(WriteRolledBack) ==> outside > old(outside) || faults > old(faults)
    {
      hide Achieves, Prepared, ParseBytes, ResolveIn, IsKey, ValueAccepted, Flaw, Misreads;
      var invalid := Validate(op, key, value);
      if invalid.Some? {
        return Refused(invalid.value);
      }
      var unusable := PrepareTarget();
      if unusable.Some? {
        return Refused(unusable.value);
      }
      var e, captured, identity, desired, expected := Prepare(op, key, value);
      if e.Some? {
        return Refused(e.value);
      }
      e := AtomicReplace(desired, captured, identity, expected);
      if outside == old(outside) && ParseBytes(desired) == Ok(expected) {
        PreparedAchieves(captured, desired, expected, op, key, value);
        AchievedConfirms(captured, File(desired, captured.mode), op, key, value);
      }
      if outside == old(outside) {
        PreparedReads(captured, desired, expected, op, key, value);
        PreparedFlawless(captured, desired, expected, op, key, value);
      }
      if e.Some? {
        return Refused(e.value);
      }
      var observed := Resolve(key);
      if !Confirms(observed, op, value) {
        assert faults > old(faults) || outside > old(outside);
        var rolled := Rollback(captured.data, captured.mode);
        return Refused(if rolled then WriteRolledBack else RecoveryRequired);
      }
      r := Done;
    }
  }

  /** Why a file cannot be edited as asked. */
  predicate Defect(e: WriteError) {
    e.TargetParseFailed? || e.LineBoundaryUnsupported? || e.PlanRejected?
  }

  /** The first thing that speaks against the edit, if anything does. */
  function Flaw(data: Bytes, op: Op, key: string, value: string): (e: Option<WriteError>)
    ensures e.None? ==> data.Utf8?
  {
    if ParseBytes(data).Failed? then Some(TargetParseFailed)
    else if !Supported(Text(data.text)) then Some(LineBoundaryUnsupported)
    else
      match Edit(data.text, op, key, value)
      case Rejected(reason) => Some(PlanRejected(reason))
      case Edited(_) => None
  }

  /** When an undisturbed operation succeeds: the key and value may be written, the path is usable, the file
      is readable text with only LF and CRLF line ends, the key is assigned nowhere (insertion) or once,
      plainly, and the edit bares no hidden line. */
  lemma SuccessIsDue(w: Writer, op: Op, key: string, value: string, usable: bool, data: Bytes)
    ensures w.Owed(op, key, value, usable, data) == Done <==>
              && IsKey(key) && key in w.allowed && (op.Delete? || IsValue(value)) && usable
              && data.Utf8? && Parse(data.text).Ok? && Supported(Text(data.text))
              && (var units := FileUnits(data.text);
                  if op.Insert? then forall i :: 0 <= i < |units| ==> !Sets(ParseLine(units[i].content), key)
                  else |Owners(units, key, false)| == 1 && Owners(units, key, true) == [])
              && !Misreads(data.text, op, key)
  {
    hide IsKey, IsValue, ValueAccepted, Parse, Supported, FileUnits, Owners, ParseLine, Misreads, MakePlan;
    AcceptedValues(value);
    if data.Utf8? {
      PlanAccepts(data.text, op, key, value);
    }
  }

  predicate Harmless(e: WriteError) {
    e in {WriteVerificationFailed, TargetInspectionFailed, TargetReadFailed, TargetDrifted}
  }

  /** Nothing that was there has been touched. */
  predicate Extends(before: map<nat, File>, after: map<nat, File>) {
    forall t :: t in before ==> t in after && after[t] == before[t]
  }
}
