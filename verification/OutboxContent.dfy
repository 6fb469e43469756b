/** What the rows and messages of the outbox say, column by column: that of the call of audit_and_emit (audit.py) they
    come from. */
module OutboxContent {
  import opened Prelude
  import opened Channels
  import opened Outbox

  /* ---------- the columns of one call ---------- */

  /** The audit row records the call. */
  predicate AuditSays(row: AuditRow, m: Emission) {
    && row.org == m.org && row.action == m.action && row.entityType == m.entityType
    && row.entityId == m.entityId && row.diff == m.diff
  }

  /** The type of an event: the one given, unless that is empty, else the entity and the action. */
  predicate IsTypeOf(text: string, m: Emission) {
    match m.eventType
    case Some(given) => if given == "" then text == m.entityType + ['.'] + m.action else text == given
    case None => text == m.entityType + ['.'] + m.action
  }

  /** Its payload: the one given, unless that is empty, else the entity's identifier and the diff. */
  predicate IsPayloadOf(p: Payload, m: Emission) {
    if |m.payload| > 0 then p.Given? && p.fields == m.payload
    else p.Entity? && p.entityId == m.entityId && p.diff == m.diff
  }

  /** The event row is of the call's organization, type, payload and time, whether published or not. */
  predicate EventSays(row: OutboxRow, m: Emission) {
    && row.org == m.org && row.createdAt == m.createdAt
    && IsTypeOf(row.eventType, m) && IsPayloadOf(row.payload, m)
  }

  /** This step of a run wrote the audit row, and the event row it names, if it was to write one. */
  ghost predicate Wrote(e: Step, a: Id, row: AuditRow, events: map<Id, OutboxRow>) {
    && e.Emit? && e.audit == a && AuditSays(row, e.emission)
    && if e.emission.emitOutbox
       then row.event == Some(e.event) && e.event in events && EventSays(events[e.event], e.emission)
       else row.event == None
  }

  ghost predicate Explains(history: seq<Step>, audits: map<Id, AuditRow>, events: map<Id, OutboxRow>) {
    forall a :: a in audits ==> exists i :: 0 <= i < |history| && Wrote(history[i], a, audits[a], events)
  }

  ghost predicate Explained(history: seq<Step>, s: State) {
    && Explains(history, s.audits, s.outbox)
    && forall t :: t in s.txs ==> Explains(history, s.txs[t].audits, s.txs[t].events)
  }

  lemma MoreHistory(history: seq<Step>, e: Step, audits: map<Id, AuditRow>, events: map<Id, OutboxRow>)
    requires Explains(history, audits, events)
    ensures Explains(history + [e], audits, events)
  {
    hide Wrote;
    forall a | a in audits
      ensures exists i :: 0 <= i < |history + [e]| && Wrote((history + [e])[i], a, audits[a], events)
    {
      var i :| 0 <= i < |history| && Wrote(history[i], a, audits[a], events);
      assert (history + [e])[i] == history[i];
    }
  }

  /** Event rows may be added and marked as published. */
  ghost predicate Continues(events: map<Id, OutboxRow>, events': map<Id, OutboxRow>) {
    forall v :: v in events ==>
      v in events' && events'[v] == events[v].(publishedAt := events'[v].publishedAt)
  }

  lemma StillExplains(history: seq<Step>, audits: map<Id, AuditRow>, events: map<Id, OutboxRow>,
                      events': map<Id, OutboxRow>)
    requires Explains(history, audits, events) && Continues(events, events')
    ensures Explains(history, audits, events')
  {
    forall a | a in audits
      ensures exists i :: 0 <= i < |history| && Wrote(history[i], a, audits[a], events')
    {
      var i :| 0 <= i < |history| && Wrote(history[i], a, audits[a], events);
      assert Wrote(history[i], a, audits[a], events');
    }
  }

  lemma EmitExplained(history: seq<Step>, t: AppTx, e: Step)
    requires e.Emit? && Explains(history, t.audits, t.events) && e.event !in t.events && e.audit !in t.audits
    ensures var t' := Emitted(t, e.emission, e.audit, e.event); Explains(history + [e], t'.audits, t'.events)
  {
    var t', all := Emitted(t, e.emission, e.audit, e.event), history + [e];
    StillExplains(history, t.audits, t.events, t'.events);
    MoreHistory(history, e, t.audits, t'.events);
    assert all[|history|] == e;
    assert Wrote(e, e.audit, t'.audits[e.audit], t'.events);
  }

  lemma CommitExplained(history: seq<Step>, audits: map<Id, AuditRow>, events: map<Id, OutboxRow>, t: AppTx)
    requires Explains(history, audits, events) && Explains(history, t.audits, t.events) && Apart(audits, events, t)
    ensures Explains(history, audits + t.audits, events + t.events)
  {
    hide Wrote;
    var both := events + t.events;
    StillExplains(history, audits, events, both);
    StillExplains(history, t.audits, t.events, both);
    forall a | a in audits + t.audits
      ensures exists i :: 0 <= i < |history| && Wrote(history[i], a, (audits + t.audits)[a], both)
    {
    }
  }

  lemma StepExplained(history: seq<Step>, s: State, e: Step)
    requires Enabled(s, e) && PairsOk(s) && Explained(history, s)
    ensures Explained(history + [e], Apply(s, e))
  {
    hide Explains, Paired, IsBatch;
    var s' := Apply(s, e);
    MoreHistory(history, e, s.audits, s.outbox);
    match e {
      case CommitTx(t) =>
        assert TxOk(s, s.txs[t]);
        CommitExplained(history, s.audits, s.outbox, s.txs[t]);
        MoreHistory(history, e, s'.audits, s'.outbox);
      case CommitPoll(now) =>
        StillExplains(history, s.audits, s.outbox, s'.outbox);
        MoreHistory(history, e, s'.audits, s'.outbox);
      case _ =>
    }
    forall t | t in s'.txs
      ensures Explains(history + [e], s'.txs[t].audits, s'.txs[t].events)
    {
      TxExplained(history, s, e, t);
    }
  }

  lemma TxExplained(history: seq<Step>, s: State, e: Step, t: Id)
    requires Enabled(s, e) && PairsOk(s) && Explained(history, s) && t in Apply(s, e).txs
    ensures var s' := Apply(s, e); Explains(history + [e], s'.txs[t].audits, s'.txs[t].events)
  {
    hide Paired, IsBatch;
    if t in s.txs {
      assert Explains(history, s.txs[t].audits, s.txs[t].events) && TxOk(s, s.txs[t]);
      hide Explains;
      MoreHistory(history, e, s.txs[t].audits, s.txs[t].events);
      if e.Emit? && e.tx == t {
        EmitExplained(history, s.txs[t], e);
      }
    }
  }

  lemma {:induction false} RunExplained(history: seq<Step>, s: State, steps: seq<Step>, s': State)
    requires IsRun(s, steps, s') && PairsOk(s) && Explained(history, s)
    ensures Explained(history + steps, s')
    decreases |steps|
  {
    hide PairsOk, Explained, Apply, Enabled;
    if steps == [] {
      assert history + steps == history;
    } else {
      StepKeepsPairs(s, steps[0]);
      StepExplained(history, s, steps[0]);
      RunExplained(history + [steps[0]], Apply(s, steps[0]), steps[1..], s');
      assert history + [steps[0]] + steps[1..] == history + steps;
    }
  }

  /** Over every run: a committed audit row was written by one call of the run, whose columns it has; and it names an
      event row of the same call exactly if the call was to write one. */
  lemma RowsSayTheirCall(steps: seq<Step>, s: State, a: Id) returns (i: nat)
    requires IsRun(Start, steps, s) && a in s.audits
    ensures i < |steps| && Wrote(steps[i], a, s.audits[a], s.outbox)
  {
    RunExplained([], Start, steps, s);
    hide IsRun, Wrote;
    assert [] + steps == steps;
    i :| 0 <= i < |steps| && Wrote(steps[i], a, s.audits[a], s.outbox);
  }

  /** A committed event row and the audit row that names it agree. */
  lemma EventAgreesWithAudit(steps: seq<Step>, s: State, a: Id, v: Id)
    requires IsRun(Start, steps, s) && a in s.audits && s.audits[a].event == Some(v)
    ensures v in s.outbox && s.outbox[v].org == s.audits[a].org
    ensures s.outbox[v].payload.Entity? ==>
              s.outbox[v].payload == Entity(s.audits[a].entityId, s.audits[a].diff)
    ensures exists i :: 0 <= i < |steps| && Wrote(steps[i], a, s.audits[a], s.outbox)
  {
    var i := RowsSayTheirCall(steps, s, a);
  }

  /* ---------- identifiers are drawn once ---------- */

  lemma {:induction false} UsedStaysUsed(s: State, steps: seq<Step>, s': State, k: nat)
    requires IsRun(s, steps, s') && k < |steps| && steps[k].Emit?
    ensures steps[k].event !in s.used && steps[k].audit !in s.used
    decreases |steps|
  {
    if k > 0 {
      var s1 := Apply(s, steps[0]);
      assert s.used <= s1.used;
      hide Apply, Enabled;
      UsedStaysUsed(s1, steps[1..], s', k - 1);
    }
  }

  lemma {:induction false} EmittedOnce(s: State, steps: seq<Step>, s': State, i: nat, j: nat)
    requires IsRun(s, steps, s') && i < j < |steps| && steps[i].Emit? && steps[j].Emit?
    ensures steps[i].event != steps[j].event
    decreases |steps|
  {
    var s1 := Apply(s, steps[0]);
    if i == 0 {
      assert steps[0].event in s1.used;
      hide Apply, Enabled;
      UsedStaysUsed(s1, steps[1..], s', j - 1);
    } else {
      hide Apply, Enabled;
      EmittedOnce(s1, steps[1..], s', i - 1, j - 1);
    }
  }

  /** The event row with the identifier of a call is that call's. */
  lemma EventIsOfItsCall(steps: seq<Step>, s: State, i: nat)
    requires IsRun(Start, steps, s) && i < |steps| && steps[i].Emit? && steps[i].event in s.outbox
    ensures steps[i].emission.emitOutbox && EventSays(s.outbox[steps[i].event], steps[i].emission)
  {
    var v := steps[i].event;
    EventCommitsWithAudit(steps, s, v);
    var a :| a in s.audits && s.audits[a].event == Some(v);
    var j := RowsSayTheirCall(steps, s, a);
    hide IsRun, EventSays;
    if i < j {
      EmittedOnce(Start, steps, s, i, j);
    } else if j < i {
      EmittedOnce(Start, steps, s, j, i);
    }
  }

  /** And every event row comes of a call. */
  lemma EventHasCall(steps: seq<Step>, s: State, v: Id) returns (i: nat)
    requires IsRun(Start, steps, s) && v in s.outbox
    ensures i < |steps| && steps[i].Emit? && steps[i].event == v && steps[i].emission.emitOutbox
    ensures EventSays(s.outbox[v], steps[i].emission)
  {
    EventCommitsWithAudit(steps, s, v);
    var a :| a in s.audits && s.audits[a].event == Some(v);
    i := RowsSayTheirCall(steps, s, a);
  }

  /* ---------- the messages ---------- */

  /** The message of an event says what the call said. */
  predicate MessageSays(x: Message, v: Id, m: Emission) {
    && x.event == v && x.org == m.org && x.createdAt == m.createdAt
    && IsTypeOf(x.eventType, m) && IsPayloadOf(x.payload, m)
    && x.channel == match m.org case Some(o) => "adhkar.events." + Print(o) case None => "adhkar.events.global"
  }

  /** Every message of every run says what one call of the run said, on that call's channel. */
  lemma MessageHasCall(steps: seq<Step>, s: State, k: nat) returns (i: nat)
    requires IsRun(Start, steps, s) && k < |s.log|
    ensures i < |steps| && steps[i].Emit? && steps[i].emission.emitOutbox
    ensures MessageSays(s.log[k], steps[i].event, steps[i].emission)
  {
    RunKeepsSent(Start, steps, s);
    hide IsRun, Print;
    i := EventHasCall(steps, s, s.log[k].event);
    assert SameEvent(s.log[k], s.outbox[s.log[k].event]);
  }

  lemma {:induction false} SentSomewhere(log: seq<Message>, v: Id) returns (k: nat)
    requires Sends(log, v) >= 1
    ensures k < |log| && log[k].event == v
  {
    var n := |log| - 1;
    if log[n].event == v {
      k := n;
    } else {
      k := SentSomewhere(log[..n], v);
    }
  }

  /** A call whose event row is committed and published has been sent, and the message says what the call said. */
  lemma PublishedCallWasSent(steps: seq<Step>, s: State, i: nat) returns (k: nat)
    requires IsRun(Start, steps, s) && i < |steps| && steps[i].Emit? && steps[i].event in s.outbox
    requires s.outbox[steps[i].event].publishedAt.Some?
    ensures k < |s.log| && MessageSays(s.log[k], steps[i].event, steps[i].emission)
  {
    var v := steps[i].event;
    PublishedWasSent(steps, s, v);
    k := SentSomewhere(s.log, v);
    EventIsOfItsCall(steps, s, i);
    RunKeepsSent(Start, steps, s);
    hide IsRun, Print;
    assert SameEvent(s.log[k], s.outbox[v]);
  }
}
