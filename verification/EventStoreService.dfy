// The event log in place: DatabaseService and DurableRuntimeService over one run_events
// table, and their two verification loops.

module EventStoreService {
  import opened Json
  import opened CanonicalJson
  import opened AuditEnvelope
  import opened AuditChain
  import opened EventStore

  /** Why verifyRunChain complains about event i. */
  datatype Fault =
    | WrongSequence(i: nat)
    | PreviousHashMismatch(i: nat)
    | InvalidJson(i: nat)
    | NotCanonical(i: nat)
    | PayloadHashMismatch(i: nat)
    | UnknownVersion(i: nat)
    | EventHashMismatch(i: nat)

  /** How many of the rows carry a version. */
  function VersionCount(rows: seq<Row>, version: Str): nat {
    if rows == [] then 0
    else
      VersionCount(rows[..|rows| - 1], version) + if Version(rows[|rows| - 1]) == version then 1 else 0
  }

  function CountOf(counts: map<Str, nat>, version: Str): nat { if version in counts then counts[version] else 0 }

  class RunEvents {
    const hash: Hash
    var rows: seq<Row>
    var versioned: bool

    constructor (hash: Hash, versioned: bool)
      ensures this.hash == hash && rows == [] && this.versioned == versioned
    {
      this.hash := hash;
      rows := [];
      this.versioned := versioned;
    }

    function Contents(): Store
      reads this
    {
      Store(rows, versioned)
    }

    method InsertRow(r: Row) returns (threw: bool)
      modifies this`rows
      ensures Outcome(Contents(), threw) == Insert(old(Contents()), r)
    {
      threw := false;
      for i := 0 to |rows|
        invariant rows == old(rows) && !threw
        invariant forall k :: 0 <= k < i ==> !Clash(rows[k], r)
      {
        if Clash(rows[i], r) {
          threw := true;
          return;
        }
      }
      rows := rows + [r];
    }

    method AppendRunEventInTransaction(e: Entry) returns (threw: bool)
      modifies this`rows
      ensures Outcome(Contents(), threw) == DatabaseAppend(hash, old(Contents()), e)
    {
      var chain := Chain(rows, e.runId);
      var seqNo := LastSequence(chain) + 1;
      var previousHash := LastHash(chain);
      var text := CanonicalJSON(e.payload);
      var payloadHash := hash(text);
      var version, eventHash := None, [];
      if versioned {
        version := Some(V2);
        eventHash := hash(V2Input(Row(e.id, e.runId, e.workspaceId, seqNo, e.eventType, text, Some(payloadHash),
          previousHash, [], version, e.policyVersionHash, e.redactionRuleVersion, e.createdAt)));
      } else {
        eventHash := hash(V1Input(text, previousHash));
      }
      var r := Row(e.id, e.runId, e.workspaceId, seqNo, e.eventType, text, Some(payloadHash), previousHash, eventHash,
        version, NullIfEmpty(e.policyVersionHash), NullIfEmpty(e.redactionRuleVersion), e.createdAt);
      assert V1 != V2 by {
        assert V1[1] != V2[1];
      }
      hide V2Input, V1Input, Chain, CanonicalJSON;
      assert r == DatabaseRow(hash, Contents(), e);
      hide DatabaseRow;
      threw := InsertRow(r);
    }

    method AppendLegacyV1Event(e: Entry) returns (threw: bool)
      modifies this`rows
      ensures Outcome(Contents(), threw) == LegacyAppend(hash, old(Contents()), e)
    {
      var chain := Chain(rows, e.runId);
      var previousHash := LastHash(chain);
      var text := CanonicalJSON(e.payload);
      var eventHash := hash(V1Input(text, previousHash));
      if !versioned {
        return true;
      }
      var r := Row(e.id, e.runId, e.workspaceId, LastSequence(chain) + 1, e.eventType, text, Some(hash(text)),
        previousHash, eventHash, Some(V1), e.policyVersionHash, e.redactionRuleVersion, e.createdAt);
      assert V1 != V2 by {
        assert V1[1] != V2[1];
      }
      hide V2Input, V1Input, Chain, CanonicalJSON;
      assert r == LegacyRow(hash, Contents(), e);
      hide LegacyRow;
      threw := InsertRow(r);
    }

    /** The event, then the body, in one transaction or savepoint. */
    method TransactionalAppend(e: Entry, body: Script) returns (threw: bool)
      modifies this
      ensures Outcome(Contents(), threw) == Perform(hash, old(Contents()), Audited(e, body))
      decreases body, 2
    {
      AuditedIs(hash, Contents(), e, body);
      hide AuditedAppend, Perform;
      var savedRows, savedVersioned := rows, versioned;
      threw := InsertAudited(e);
      if !threw {
        threw := Execute(body);
      }
      if threw {
        rows, versioned := savedRows, savedVersioned;
      }
    }

    method InsertAudited(e: Entry) returns (threw: bool)
      modifies this`rows
      ensures Outcome(Contents(), threw) == AuditedAppend(hash, old(Contents()), e)
    {
      if !versioned {
        return true;
      }
      var run := RunKey(e);
      var chain := Chain(rows, run);
      var previousHash := LastHash(chain);
      var seqNo := LastSequence(chain) + 1;
      var text := CanonicalJSON(e.payload);
      hide V2Input, V1Input, Chain, CanonicalJSON, RunKey;
      var r := Row(e.id, run, e.workspaceId, seqNo, e.eventType, text, Some(hash(text)), previousHash, [], Some(V2),
        e.policyVersionHash, e.redactionRuleVersion, e.createdAt);
      r := r.(eventHash := hash(V2Input(r)));
      assert r == AuditedRow(hash, Contents(), e);
      hide AuditedRow;
      threw := InsertRow(r);
    }

    /** Runs a program against the table. */
    method Execute(s: Script) returns (threw: bool)
      modifies this
      ensures Outcome(Contents(), threw) == Perform(hash, old(Contents()), s)
      decreases s, 1
    {
      hide DatabaseAppend, LegacyAppend, AuditedAppend;
      match s
      case Skip => threw := false;
      case Throw => threw := true;
      case Migrate =>
        versioned := true;
        threw := false;
      case Append(e) => threw := AppendRunEventInTransaction(e);
      case AppendLegacy(e) => threw := AppendLegacyV1Event(e);
      case Then(a, b) =>
        threw := Execute(a);
        if !threw {
          threw := Execute(b);
        }
      case Transaction(body) =>
        var savedRows, savedVersioned := rows, versioned;
        threw := Execute(body);
        if threw {
          rows, versioned := savedRows, savedVersioned;
        }
      case Audited(e, body) => threw := TransactionalAppend(e, body);
      case Caught(body) =>
        threw := Execute(body);
        threw := false;
    }

    /** Valid exactly if the chain is numbered and every row checks out; otherwise
        brokenAt is the first row that fails for another reason than its number. */
    method VerifyRunChain(runId: Str) returns (valid: bool, brokenAt: Option<nat>, errors: seq<Fault>)
      ensures valid <==> RunOk(hash, Chain(rows, runId))
      ensures valid <==> errors == []
      ensures brokenAt == None ==>
        forall i :: 0 <= i < |Chain(rows, runId)| ==> RunRowOk(hash, Chain(rows, runId), i)
      ensures brokenAt.Some? ==>
        && brokenAt.value < |Chain(rows, runId)| && !RunRowOk(hash, Chain(rows, runId), brokenAt.value)
        && forall i :: 0 <= i < brokenAt.value ==> RunRowOk(hash, Chain(rows, runId), i)
    {
      var events := Chain(rows, runId);
      hide Chain, Input, Canonical;
      errors := [];
      for i := 0 to |events|
        invariant forall k :: 0 <= k < i ==> RunRowOk(hash, events, k)
        invariant errors == [] <==> forall k :: 0 <= k < i ==> events[k].sequence == k + 1
      {
        if events[i].sequence != i + 1 {
          errors := errors + [WrongSequence(i)];
        }
        var fault := CheckRow(events, i);
        if fault.Some? {
          return false, Some(i), errors + [fault.value];
        }
      }
      return errors == [], None, errors;
    }

    /** The checks on one event, in the order of the source. */
    method CheckRow(events: seq<Row>, i: nat) returns (fault: Option<Fault>)
      requires i < |events|
      ensures fault == None <==> RunRowOk(hash, events, i)
    {
      var evt := events[i];
      hide Input, V1Input, V2Input;
      if evt.previousHash != Previous(events, i) {
        return Some(PreviousHashMismatch(i));
      }
      var version := Version(evt);
      var payloadJson := Canonical(evt.payloadJson);
      if payloadJson == None {
        return Some(InvalidJson(i));
      }
      if version == V2 && evt.payloadJson != payloadJson.value {
        return Some(NotCanonical(i));
      }
      if evt.payloadHash != Some(hash(payloadJson.value)) {
        return Some(PayloadHashMismatch(i));
      }
      if version != V2 && version != V1 {
        return Some(UnknownVersion(i));
      }
      if evt.eventHash != hash(Input(WithText(evt, payloadJson.value))) {
        return Some(EventHashMismatch(i));
      }
      return None;
    }

    /** Ok exactly if there are events and every one is accepted, each version counted;
        otherwise brokenAt is the first event that is not. */
    method VerifyAuditChain(runId: Str) returns (ok: bool, versions: map<Str, nat>, brokenAt: Option<nat>)
      ensures ok <==> AuditOk(hash, runId, Chain(rows, runId))
      ensures ok ==> forall v: Str :: CountOf(versions, v) == VersionCount(Chain(rows, runId), v)
      ensures brokenAt.Some? ==>
        && brokenAt.value < |Chain(rows, runId)| && !AuditRowOk(hash, runId, Chain(rows, runId), brokenAt.value)
        && forall i :: 0 <= i < brokenAt.value ==> AuditRowOk(hash, runId, Chain(rows, runId), i)
      ensures brokenAt == None ==> ok || Chain(rows, runId) == []
    {
      var events := Chain(rows, runId);
      hide Chain, Input, Canonical, AuditRowOk;
      versions := map[];
      if |events| == 0 {
        return false, versions, None;
      }
      var prevHash := GENESIS;
      for i := 0 to |events|
        invariant prevHash == LastHash(events[..i])
        invariant forall k :: 0 <= k < i ==> AuditRowOk(hash, runId, events, k)
        invariant forall v: Str :: CountOf(versions, v) == VersionCount(events[..i], v)
      {
        var r := events[i];
        var accepted := CheckAuditRow(events, i, runId, prevHash);
        var version := Version(r);
        assert events[..i + 1][..i] == events[..i];
        if r.runId == runId {
          versions := versions[version := CountOf(versions, version) + 1];
        }
        if !accepted {
          return false, versions, Some(i);
        }
        prevHash := r.eventHash;
      }
      assert events[..|events|] == events;
      return true, versions, None;
    }

    method CheckAuditRow(events: seq<Row>, i: nat, runId: Str, prevHash: Str) returns (accepted: bool)
      requires i < |events| && prevHash == LastHash(events[..i])
      ensures accepted <==> AuditRowOk(hash, runId, events, i)
      ensures accepted ==> events[i].runId == runId
    {
      var r := events[i];
      hide Input;
      assert prevHash == Previous(events, i);
      if r.runId != runId {
        return false;
      }
      var version := Version(r);
      if r.previousHash != prevHash {
        return false;
      }
      if version == V2 {
        var canonicalPayload := Canonical(r.payloadJson);
        if canonicalPayload == None {
          return false;
        }
        if canonicalPayload.value != r.payloadJson {
          return false;
        }
        if r.payloadHash != Some(hash(canonicalPayload.value)) {
          return false;
        }
        return r.eventHash == hash(Input(r));
      } else if version == V1 {
        return r.eventHash == hash(Input(r));
      }
      return false;
    }
  }
}
