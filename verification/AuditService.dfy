// AuditService without a database: events in an array, sequence numbers in a map, and
// the verifier of its own v1 chain.

module AuditService {
  import opened Json
  import opened Serializers
  import opened AuditEnvelope
  import opened EventOrder

  datatype Record = Record(
    id: Str,
    runId: Str,
    workspaceId: Str,
    sequence: int,
    eventType: Str,
    eventPayload: Value,
    payloadHash: Str,
    previousHash: Str,
    eventHash: Str,
    createdAt: Str
  )

  function RunIdOf(r: Record): Str { r.runId }

  function SequenceOf(r: Record): int { r.sequence }

  /** this.events.filter(e => e.runId === runId), in insertion order. */
  function EventsOf(events: seq<Record>, run: Str): seq<Record> { Where(events, RunIdOf, run) }

  function RunEvents(events: seq<Record>, run: Str): seq<Record> { OrderBy(EventsOf(events, run), SequenceOf) }

  function Previous(rows: seq<Record>, i: nat): Str
    requires i < |rows|
  {
    if i == 0 then GENESIS else rows[i - 1].eventHash
  }

  /** What verifyChain asks of an event besides its number. */
  predicate EventOk(h: Hash, rows: seq<Record>, i: nat)
    requires i < |rows|
  {
    && rows[i].previousHash == Previous(rows, i)
    && rows[i].eventHash == h(AuditJSON(rows[i].eventPayload) + rows[i].previousHash)
  }

  predicate ChainOk(h: Hash, rows: seq<Record>) {
    forall i :: 0 <= i < |rows| ==> rows[i].sequence == i + 1 && EventOk(h, rows, i)
  }

  function LastHash(rows: seq<Record>): Str { if rows == [] then GENESIS else rows[|rows| - 1].eventHash }

  lemma PushKeepsChain(h: Hash, rows: seq<Record>, r: Record)
    requires ChainOk(h, rows) && r.sequence == |rows| + 1 && r.previousHash == LastHash(rows)
    requires r.eventHash == h(AuditJSON(r.eventPayload) + r.previousHash)
    ensures ChainOk(h, rows + [r])
  {
    hide AuditJSON;
    var longer := rows + [r];
    forall i | 0 <= i < |longer| ensures longer[i].sequence == i + 1 && EventOk(h, longer, i) {
      if i < |rows| {
        assert EventOk(h, rows, i);
      }
    }
  }

  /** The record appendEvent chains to the run's last event. */
  function NextRecord(h: Hash, events: seq<Record>, id: Str, runId: Str, workspaceId: Str, eventType: Str,
    eventPayload: Value, createdAt: Str): Record
  {
    var rows := EventsOf(events, runId);
    Record(id, runId, workspaceId, |rows| + 1, eventType, eventPayload, h(AuditJSON(eventPayload)), LastHash(rows),
           h(AuditJSON(eventPayload) + LastHash(rows)), createdAt)
  }

  function CountOf(sequences: map<Str, nat>, run: Str): nat { if run in sequences then sequences[run] else 0 }

  /** Every run's events form a sound chain, and the map holds its length. */
  ghost predicate LogOk(h: Hash, events: seq<Record>, sequences: map<Str, nat>) {
    forall run: Str :: RunLogOk(h, EventsOf(events, run), CountOf(sequences, run))
  }

  ghost predicate RunLogOk(h: Hash, rows: seq<Record>, count: nat) { ChainOk(h, rows) && count == |rows| }

  lemma EventsOfPush(events: seq<Record>, r: Record, run: Str)
    ensures EventsOf(events + [r], run) == if r.runId == run then EventsOf(events, run) + [r] else EventsOf(events, run)
  {
    WherePush(events, r, RunIdOf, run);
  }

  lemma AppendKeepsRun(h: Hash, events: seq<Record>, sequences: map<Str, nat>, r: Record, run: Str)
    requires RunLogOk(h, EventsOf(events, run), CountOf(sequences, run))
    requires r == NextRecord(h, events, r.id, r.runId, r.workspaceId, r.eventType, r.eventPayload, r.createdAt)
    ensures RunLogOk(h, EventsOf(events + [r], run), CountOf(sequences[r.runId := |EventsOf(events, r.runId)| + 1], run))
  {
    EventsOfPush(events, r, run);
    hide AuditJSON, ChainOk, EventsOf;
    if run == r.runId {
      PushKeepsChain(h, EventsOf(events, run), r);
    }
  }

  lemma AppendKeepsLog(h: Hash, events: seq<Record>, sequences: map<Str, nat>, r: Record)
    requires LogOk(h, events, sequences)
    requires r == NextRecord(h, events, r.id, r.runId, r.workspaceId, r.eventType, r.eventPayload, r.createdAt)
    ensures LogOk(h, events + [r], sequences[r.runId := |EventsOf(events, r.runId)| + 1])
  {
    hide RunLogOk, EventsOf, CountOf, NextRecord;
    forall run: Str
      ensures RunLogOk(h, EventsOf(events + [r], run), CountOf(sequences[r.runId := |EventsOf(events, r.runId)| + 1], run))
    {
      AppendKeepsRun(h, events, sequences, r, run);
    }
  }

  datatype Fault = WrongSequence(i: nat) | PreviousHashMismatch(i: nat) | EventHashMismatch(i: nat)

  class AuditLog {
    const hash: Hash
    var events: seq<Record>
    var sequences: map<Str, nat>

    ghost predicate Valid()
      reads this
    {
      LogOk(hash, events, sequences)
    }

    constructor (hash: Hash)
      ensures Valid() && events == [] && this.hash == hash
    {
      this.hash := hash;
      events := [];
      sequences := map[];
    }

    /** [...this.events].reverse().find(e => e.runId === runId) */
    method FindLast(runId: Str) returns (found: Option<Record>)
      ensures found == if EventsOf(events, runId) == [] then None
        else Some(EventsOf(events, runId)[|EventsOf(events, runId)| - 1])
    {
      assert events[..|events|] == events;
      for i := |events| downto 0
        invariant EventsOf(events, runId) == EventsOf(events[..i], runId)
      {
        assert events[..i + 1] == events[..i] + [events[i]];
        WherePush(events[..i], events[i], RunIdOf, runId);
        if events[i].runId == runId {
          return Some(events[i]);
        }
      }
      return None;
    }

    /** Appends the next event of the run, chained to its last one; nothing before it
        changes. */
    method AppendEvent(id: Str, runId: Str, workspaceId: Str, eventType: Str, eventPayload: Value, createdAt: Str)
      returns (r: Record)
      requires Valid()
      modifies this`events, this`sequences
      ensures Valid()
      ensures r == NextRecord(hash, old(events), id, runId, workspaceId, eventType, eventPayload, createdAt)
      ensures r.id == id && r.runId == runId && r.workspaceId == workspaceId && r.eventType == eventType
      ensures r.eventPayload == eventPayload && r.createdAt == createdAt && r.payloadHash == hash(AuditJSON(eventPayload))
      ensures events == old(events) + [r] && sequences == old(sequences)[runId := |EventsOf(old(events), runId)| + 1]
    {
      assert RunLogOk(hash, EventsOf(events, runId), CountOf(sequences, runId));
      hide AuditJSON, ChainOk, EventsOf, LogOk;
      var seqNo := CountOf(sequences, runId) + 1;
      var prevEvent := FindLast(runId);
      var payloadHash := hash(AuditJSON(eventPayload));
      var previousHash := if prevEvent.Some? then prevEvent.value.eventHash else GENESIS;
      var eventHash := hash(AuditJSON(eventPayload) + previousHash);
      r := Record(id, runId, workspaceId, seqNo, eventType, eventPayload, payloadHash, previousHash, eventHash, createdAt);
      AppendKeepsLog(hash, events, sequences, r);
      sequences := sequences[runId := seqNo];
      events := events + [r];
    }

    /** Valid exactly if the events, in sequence order, are numbered and chained; brokenAt
        is the first event that is not chained. */
    method VerifyChain(runId: Str) returns (valid: bool, brokenAt: Option<nat>, errors: seq<Fault>)
      ensures valid <==> ChainOk(hash, RunEvents(events, runId))
      ensures valid <==> errors == []
      ensures brokenAt == None ==>
        forall i :: 0 <= i < |RunEvents(events, runId)| ==> EventOk(hash, RunEvents(events, runId), i)
      ensures brokenAt.Some? ==>
        && brokenAt.value < |RunEvents(events, runId)| && !EventOk(hash, RunEvents(events, runId), brokenAt.value)
        && forall i :: 0 <= i < brokenAt.value ==> EventOk(hash, RunEvents(events, runId), i)
    {
      var runEvents := RunEvents(events, runId);
      hide RunEvents, AuditJSON;
      errors := [];
      for i := 0 to |runEvents|
        invariant forall k :: 0 <= k < i ==> EventOk(hash, runEvents, k)
        invariant errors == [] <==> forall k :: 0 <= k < i ==> runEvents[k].sequence == k + 1
      {
        var evt := runEvents[i];
        if evt.sequence != i + 1 {
          errors := errors + [WrongSequence(i)];
        }
        if evt.previousHash != Previous(runEvents, i) {
          return false, Some(i), errors + [PreviousHashMismatch(i)];
        }
        if evt.eventHash != hash(AuditJSON(evt.eventPayload) + evt.previousHash) {
          return false, Some(i), errors + [EventHashMismatch(i)];
        }
      }
      return errors == [], None, errors;
    }

    /** A log built by AppendEvent always passes its own verifier, for every run. */
    lemma AlwaysVerifies(runId: Str)
      requires Valid()
      ensures ChainOk(hash, RunEvents(events, runId))
    {
      assert RunLogOk(hash, EventsOf(events, runId), CountOf(sequences, runId));
      NumberedIsOrdered(EventsOf(events, runId), SequenceOf);
    }
  }

  function WithPayload(rows: seq<Record>, i: nat, payload: Value): seq<Record>
    requires i < |rows|
  {
    rows[i := rows[i].(eventPayload := payload)]
  }

  lemma CancelSuffix(a: Str, b: Str, suffix: Str)
    requires a + suffix == b + suffix
    ensures a == b
  {
    assert a == (a + suffix)[..|a + suffix| - |suffix|];
    assert b == (b + suffix)[..|b + suffix| - |suffix|];
  }

  /** What the verifier of an in-memory chain can see of a payload: rewriting the payload
      of event i passes exactly if it prints alike, as long as the two inputs do not
      collide. */
  lemma PayloadRewriteIff(h: Hash, rows: seq<Record>, i: nat, payload: Value)
    requires ChainOk(h, rows) && i < |rows|
    requires NoCollision(h, {AuditJSON(rows[i].eventPayload) + rows[i].previousHash,
                             AuditJSON(payload) + rows[i].previousHash})
    ensures ChainOk(h, WithPayload(rows, i, payload)) <==> AuditJSON(payload) == AuditJSON(rows[i].eventPayload)
  {
    hide AuditJSON;
    assert EventOk(h, rows, i);
    if ChainOk(h, WithPayload(rows, i, payload)) {
      assert EventOk(h, WithPayload(rows, i, payload), i);
      CancelSuffix(AuditJSON(payload), AuditJSON(rows[i].eventPayload), rows[i].previousHash);
    }
    if AuditJSON(payload) == AuditJSON(rows[i].eventPayload) {
      RewriteAlike(h, rows, i, payload);
    }
  }

  lemma PreviousUnchanged(rows: seq<Record>, i: nat, payload: Value, k: nat)
    requires i < |rows| && k < |rows|
    ensures Previous(WithPayload(rows, i, payload), k) == Previous(rows, k)
  {
  }

  lemma RewriteAlike(h: Hash, rows: seq<Record>, i: nat, payload: Value)
    requires ChainOk(h, rows) && i < |rows| && AuditJSON(payload) == AuditJSON(rows[i].eventPayload)
    ensures ChainOk(h, WithPayload(rows, i, payload))
  {
    hide AuditJSON, Previous;
    var after := WithPayload(rows, i, payload);
    forall k | 0 <= k < |after| ensures after[k].sequence == k + 1 && EventOk(h, after, k) {
      assert EventOk(h, rows, k);
      PreviousUnchanged(rows, i, payload, k);
    }
  }
}
