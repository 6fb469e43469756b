/** The transactional outbox: rows written beside the audit log (audit.py) and the worker that publishes them
    (workers/outbox_publisher.py), with application transactions, polls and crashes in any interleaving. */
module Outbox {
  import opened Prelude
  import opened Channels

  const BATCH_SIZE := 100

  type Id = nat

  /** The payload given by the caller, or the default one made of the entity and the diff. */
  datatype Payload = Given(fields: map<string, string>) | Entity(entityId: Option<string>, diff: map<string, string>)

  datatype OutboxRow = OutboxRow(org: Option<Uuid>, eventType: string, payload: Payload, createdAt: int,
                                 publishedAt: Option<int>)

  /** A row of the audit log. It has no column `event`: that names the outbox row written with it, if any. */
  datatype AuditRow = AuditRow(org: Option<Uuid>, action: string, entityType: string, entityId: Option<string>,
                               diff: map<string, string>, event: Option<Id>)

  datatype Message = Message(channel: string, event: Id, org: Option<Uuid>, eventType: string, payload: Payload,
                             createdAt: int)

  /** The rows an open application transaction has added. */
  datatype AppTx = AppTx(audits: map<Id, AuditRow>, events: map<Id, OutboxRow>)

  /** A running poll: the rows selected and how many of them have been sent. */
  datatype Poll = Poll(batch: seq<Id>, sent: nat)

  datatype State = State(audits: map<Id, AuditRow>, outbox: map<Id, OutboxRow>, txs: map<Id, AppTx>, used: set<Id>,
                         poll: Option<Poll>, log: seq<Message>, crashes: nat)

  const Start := State(map[], map[], map[], {}, None, [], 0)

  /* ---------- audit_and_emit ---------- */

  datatype Emission = Emission(
    org: Option<Uuid>, action: string, entityType: string, entityId: Option<string>, diff: map<string, string>,
    eventType: Option<string>, payload: map<string, string>, emitOutbox: bool, createdAt: int)

  function AuditOf(e: Emission, event: Id): AuditRow {
    AuditRow(e.org, e.action, e.entityType, e.entityId, e.diff, if e.emitOutbox then Some(event) else None)
  }

  function EventOf(e: Emission): OutboxRow {
    OutboxRow(e.org,
              if e.eventType.Some? && e.eventType.value != "" then e.eventType.value else e.entityType + "." + e.action,
              if e.payload != map[] then Given(e.payload) else Entity(e.entityId, e.diff),
              e.createdAt, None)
  }

  function Emitted(t: AppTx, e: Emission, audit: Id, event: Id): AppTx {
    AppTx(t.audits[audit := AuditOf(e, event)], if e.emitOutbox then t.events[event := EventOf(e)] else t.events)
  }

  /* ---------- polling ---------- */

  function Pending(outbox: map<Id, OutboxRow>): set<Id> { set e | e in outbox && outbox[e].publishedAt.None? }

  ghost predicate AllPending(outbox: map<Id, OutboxRow>, batch: seq<Id>) {
    forall i :: 0 <= i < |batch| ==> batch[i] in outbox && outbox[batch[i]].publishedAt.None?
  }

  /** What the SELECT may return: unpublished rows, oldest first, at most a batch; the order among equal times is
      open. */
  ghost predicate IsBatch(outbox: map<Id, OutboxRow>, batch: seq<Id>) {
    && Distinct(batch) && AllPending(outbox, batch)
    && |batch| == Min(BATCH_SIZE, |Pending(outbox)|)
    && (forall i, j :: 0 <= i < j < |batch| ==> outbox[batch[i]].createdAt <= outbox[batch[j]].createdAt)
    && (forall i, e :: 0 <= i < |batch| && e in Pending(outbox) && e !in batch
          ==> outbox[batch[i]].createdAt <= outbox[e].createdAt)
  }

  function MessageOf(e: Id, row: OutboxRow): Message {
    Message(Channel(row.org), e, row.org, row.eventType, row.payload, row.createdAt)
  }

  function Messages(outbox: map<Id, OutboxRow>, batch: seq<Id>): seq<Message>
    requires forall i :: 0 <= i < |batch| ==> batch[i] in outbox
  {
    if batch == [] then []
    else
      var n := |batch| - 1;
      Messages(outbox, batch[..n]) + [MessageOf(batch[n], outbox[batch[n]])]
  }

  function MarkedAt(outbox: map<Id, OutboxRow>, sent: seq<Id>, now: int): map<Id, OutboxRow> {
    map e | e in outbox :: if e in sent then outbox[e].(publishedAt := Some(now)) else outbox[e]
  }

  /* ---------- runs ---------- */

  datatype Step =
    | OpenTx(tx: Id)
    | Emit(tx: Id, emission: Emission, audit: Id, event: Id)
    | CommitTx(tx: Id)
    | RollbackTx(tx: Id)
    | BeginPoll(batch: seq<Id>)
    | SendNext
    | CommitPoll(now: int)
    | Crash

  ghost predicate Enabled(s: State, e: Step) {
    match e
    case OpenTx(t) => t !in s.txs
    case Emit(t, _, a, v) => t in s.txs && a !in s.used && v !in s.used && a != v
    case CommitTx(t) => t in s.txs
    case RollbackTx(t) => t in s.txs
    case BeginPoll(batch) => s.poll.None? && IsBatch(s.outbox, batch)
    case SendNext =>
      && s.poll.Some? && s.poll.value.sent < |s.poll.value.batch|
      && s.poll.value.batch[s.poll.value.sent] in s.outbox
    case CommitPoll(_) => s.poll.Some? && s.poll.value.sent == |s.poll.value.batch|
    case Crash => true
  }

  ghost function Apply(s: State, e: Step): State
    requires Enabled(s, e)
  {
    match e
    case OpenTx(t) => s.(txs := s.txs[t := AppTx(map[], map[])])
    case Emit(t, m, a, v) => s.(txs := s.txs[t := Emitted(s.txs[t], m, a, v)], used := s.used + {a, v})
    case CommitTx(t) =>
      s.(audits := s.audits + s.txs[t].audits, outbox := s.outbox + s.txs[t].events, txs := s.txs - {t})
    case RollbackTx(t) => s.(txs := s.txs - {t})
    case BeginPoll(batch) => s.(poll := Some(Poll(batch, 0)))
    case SendNext =>
      var p := s.poll.value;
      s.(poll := Some(p.(sent := p.sent + 1)), log := s.log + [MessageOf(p.batch[p.sent], s.outbox[p.batch[p.sent]])])
    case CommitPoll(now) => s.(poll := None, outbox := MarkedAt(s.outbox, s.poll.value.batch, now))
    case Crash => s.(poll := None, crashes := s.crashes + 1)
  }

  ghost predicate IsRun(s: State, steps: seq<Step>, s': State)
    decreases |steps|
  {
    if steps == [] then s' == s
    else Enabled(s, steps[0]) && IsRun(Apply(s, steps[0]), steps[1..], s')
  }

  /* ---------- audit rows and event rows go together ---------- */

  ghost predicate Paired(audits: map<Id, AuditRow>, events: map<Id, OutboxRow>) {
    && (forall a :: a in audits && audits[a].event.Some? ==> audits[a].event.value in events)
    && (forall e :: e in events ==> exists a :: a in audits && audits[a].event == Some(e))
  }

  ghost predicate Fresh(used: set<Id>, audits: map<Id, AuditRow>, events: map<Id, OutboxRow>) {
    audits.Keys <= used && events.Keys <= used
  }

  ghost predicate Apart(audits: map<Id, AuditRow>, events: map<Id, OutboxRow>, t: AppTx) {
    audits.Keys !! t.audits.Keys && events.Keys !! t.events.Keys
  }

  ghost predicate TxOk(s: State, t: AppTx) {
    Paired(t.audits, t.events) && Fresh(s.used, t.audits, t.events) && Apart(s.audits, s.outbox, t)
  }

  ghost predicate Separate(t: AppTx, u: AppTx) { Apart(t.audits, t.events, u) }

  ghost predicate PairsOk(s: State) {
    && Paired(s.audits, s.outbox) && Fresh(s.used, s.audits, s.outbox)
    && (forall t :: t in s.txs ==> TxOk(s, s.txs[t]))
    && (forall t, u :: t in s.txs && u in s.txs && t != u ==> Separate(s.txs[t], s.txs[u]))
  }

  lemma EmittedStaysPaired(t: AppTx, e: Emission, a: Id, v: Id)
    requires Paired(t.audits, t.events) && a !in t.audits && v !in t.events
    ensures Paired(Emitted(t, e, a, v).audits, Emitted(t, e, a, v).events)
  {
    var t' := Emitted(t, e, a, v);
    forall x | x in t'.events
      ensures exists b :: b in t'.audits && t'.audits[b].event == Some(x)
    {
      if x in t.events {
        var b :| b in t.audits && t.audits[b].event == Some(x);
        assert b in t'.audits && t'.audits[b].event == Some(x);
      } else {
        assert t'.audits[a].event == Some(x);
      }
    }
  }

  lemma UnionStaysPaired(audits: map<Id, AuditRow>, events: map<Id, OutboxRow>, t: AppTx)
    requires Paired(audits, events) && Paired(t.audits, t.events) && Apart(audits, events, t)
    ensures Paired(audits + t.audits, events + t.events)
  {
    forall x | x in events + t.events
      ensures exists b :: b in audits + t.audits && (audits + t.audits)[b].event == Some(x)
    {
      if x in events {
        var b :| b in audits && audits[b].event == Some(x);
        assert b in audits + t.audits;
      } else {
        var b :| b in t.audits && t.audits[b].event == Some(x);
        assert b in audits + t.audits;
      }
    }
  }

  lemma ReplaceTx(s: State, tx: Id, t: AppTx)
    requires PairsOk(s) && TxOk(s, t)
    requires forall u :: u in s.txs && u != tx ==> Separate(t, s.txs[u]) && Separate(s.txs[u], t)
    ensures PairsOk(s.(txs := s.txs[tx := t]))
  {
    hide Paired, Fresh, Apart, Separate;
    var s' := s.(txs := s.txs[tx := t]);
    forall u | u in s'.txs
      ensures TxOk(s', s'.txs[u])
    {
      assert TxOk(s, s'.txs[u]);
    }
  }

  lemma MoreUsed(s: State, used: set<Id>)
    requires PairsOk(s) && s.used <= used
    ensures PairsOk(s.(used := used))
  {
    hide Paired, Apart, Separate;
    forall u | u in s.txs
      ensures TxOk(s.(used := used), s.txs[u])
    {
      assert TxOk(s, s.txs[u]);
    }
  }

  lemma EmitKeepsPairs(s: State, tx: Id, m: Emission, a: Id, v: Id)
    requires PairsOk(s) && tx in s.txs && a !in s.used && v !in s.used && a != v
    ensures PairsOk(s.(txs := s.txs[tx := Emitted(s.txs[tx], m, a, v)], used := s.used + {a, v}))
  {
    hide Paired;
    assert TxOk(s, s.txs[tx]);
    EmittedStaysPaired(s.txs[tx], m, a, v);
    var t' := Emitted(s.txs[tx], m, a, v);
    assert t'.audits.Keys == s.txs[tx].audits.Keys + {a} && t'.events.Keys <= s.txs[tx].events.Keys + {v};
    forall u | u in s.txs && u != tx
      ensures Separate(t', s.txs[u]) && Separate(s.txs[u], t')
    {
      assert Separate(s.txs[tx], s.txs[u]) && TxOk(s, s.txs[u]);
    }
    MoreUsed(s, s.used + {a, v});
    ReplaceTx(s.(used := s.used + {a, v}), tx, t');
  }

  lemma CommitKeepsPairs(s: State, t: Id)
    requires PairsOk(s) && t in s.txs
    ensures PairsOk(s.(audits := s.audits + s.txs[t].audits, outbox := s.outbox + s.txs[t].events, txs := s.txs - {t}))
  {
    hide Paired;
    var s' := s.(audits := s.audits + s.txs[t].audits, outbox := s.outbox + s.txs[t].events, txs := s.txs - {t});
    assert TxOk(s, s.txs[t]);
    UnionStaysPaired(s.audits, s.outbox, s.txs[t]);
    forall u | u in s'.txs
      ensures TxOk(s', s'.txs[u])
    {
      assert TxOk(s, s.txs[u]) && Separate(s.txs[t], s.txs[u]);
    }
  }

  lemma MarkKeepsPairs(s: State, outbox: map<Id, OutboxRow>)
    requires PairsOk(s) && outbox.Keys == s.outbox.Keys
    ensures PairsOk(s.(outbox := outbox, poll := None))
  {
    var s' := s.(outbox := outbox, poll := None);
    forall u | u in s.txs
      ensures TxOk(s', s.txs[u])
    {
      assert TxOk(s, s.txs[u]);
    }
  }

  lemma StepKeepsPairs(s: State, e: Step)
    requires Enabled(s, e) && PairsOk(s)
    ensures PairsOk(Apply(s, e))
  {
    hide Paired, IsBatch;
    match e {
      case Emit(t, m, a, v) => EmitKeepsPairs(s, t, m, a, v);
      case CommitTx(t) => CommitKeepsPairs(s, t);
      case CommitPoll(now) => MarkKeepsPairs(s, MarkedAt(s.outbox, s.poll.value.batch, now));
      case OpenTx(t) => OpenKeepsPairs(s, t);
      case _ => OtherKeepsPairs(s, Apply(s, e));
    }
  }

  lemma OtherKeepsPairs(s: State, s': State)
    requires PairsOk(s) && s'.audits == s.audits && s'.outbox == s.outbox && s'.used == s.used
    requires s'.txs.Keys <= s.txs.Keys && forall u :: u in s'.txs ==> s'.txs[u] == s.txs[u]
    ensures PairsOk(s')
  {
    forall u | u in s'.txs
      ensures TxOk(s', s'.txs[u])
    {
      assert TxOk(s, s.txs[u]);
    }
  }

  lemma OpenKeepsPairs(s: State, t: Id)
    requires PairsOk(s) && t !in s.txs
    ensures PairsOk(s.(txs := s.txs[t := AppTx(map[], map[])]))
  {
    ReplaceTx(s, t, AppTx(map[], map[]));
  }

  lemma {:induction false} RunKeepsPairs(s: State, steps: seq<Step>, s': State)
    requires IsRun(s, steps, s') && PairsOk(s)
    ensures PairsOk(s')
    decreases |steps|
  {
    hide Paired;
    if steps != [] {
      StepKeepsPairs(s, steps[0]);
      RunKeepsPairs(Apply(s, steps[0]), steps[1..], s');
    }
  }

  /** In every reachable state an event row is committed exactly when the audit row written with it is. */
  lemma EventCommitsWithAudit(steps: seq<Step>, s: State, event: Id)
    requires IsRun(Start, steps, s)
    ensures event in s.outbox <==> exists a :: a in s.audits && s.audits[a].event == Some(event)
  {
    RunKeepsPairs(Start, steps, s);
  }

  /* ---------- what has been sent ---------- */

  function Sends(log: seq<Message>, e: Id): nat {
    if log == [] then 0 else Sends(log[..|log| - 1], e) + if log[|log| - 1].event == e then 1 else 0
  }

  /** Published, or sent by the poll in progress. */
  ghost predicate Settled(s: State, e: Id) {
    && e in s.outbox
    && (s.outbox[e].publishedAt.Some?
        || (s.poll.Some? && s.poll.value.sent <= |s.poll.value.batch| && e in s.poll.value.batch[..s.poll.value.sent]))
  }

  ghost predicate PollOk(s: State) {
    s.poll.Some? ==>
      var p := s.poll.value;
      p.sent <= |p.batch| && Distinct(p.batch) && AllPending(s.outbox, p.batch)
  }

  /** Everything settled has been sent; a message is sent again only after a crash. */
  ghost predicate SentOk(s: State) {
    && PollOk(s)
    && (forall e :: Settled(s, e) ==> Sends(s.log, e) >= 1)
    && (forall e :: Sends(s.log, e) <= s.crashes + if Settled(s, e) then 1 else 0)
    && (forall i :: 0 <= i < |s.log| ==> s.log[i].event in s.outbox && SameEvent(s.log[i], s.outbox[s.log[i].event]))
  }

  ghost predicate SameEvent(m: Message, row: OutboxRow) { m == MessageOf(m.event, row) }

  lemma SendsOne(log: seq<Message>, m: Message)
    ensures forall e :: Sends(log + [m], e) == Sends(log, e) + if e == m.event then 1 else 0
  {
    assert (log + [m])[..|log|] == log;
  }

  lemma SendKeepsSent(s: State, s': State)
    requires SentOk(s) && Enabled(s, SendNext) && s' == Apply(s, SendNext)
    ensures SentOk(s')
  {
    var p := s.poll.value;
    var m := s'.log[|s.log|];
    SendsOne(s.log, m);
    assert p.batch[..p.sent + 1] == p.batch[..p.sent] + [p.batch[p.sent]];
    assert !Settled(s, m.event);
    assert forall e :: Settled(s', e) <==> Settled(s, e) || e == m.event;
  }

  lemma CommitPollKeepsSent(s: State, now: int)
    requires SentOk(s) && Enabled(s, CommitPoll(now))
    ensures SentOk(Apply(s, CommitPoll(now)))
  {
    var s', p := Apply(s, CommitPoll(now)), s.poll.value;
    assert p.batch[..p.sent] == p.batch;
    assert forall e :: Settled(s', e) <==> Settled(s, e);
  }

  /** Rows that commits add are new, so none of them has been sent. */
  lemma CommitTxKeepsSent(s: State, t: Id)
    requires SentOk(s) && PairsOk(s) && t in s.txs
    requires forall e :: e in s.txs[t].events ==> s.txs[t].events[e].publishedAt.None?
    ensures SentOk(Apply(s, CommitTx(t)))
  {
    hide Paired;
    var s' := Apply(s, CommitTx(t));
    assert TxOk(s, s.txs[t]);
    assert forall e :: e in s.outbox ==> e in s'.outbox && s'.outbox[e] == s.outbox[e];
    assert forall e :: Settled(s', e) <==> Settled(s, e);
  }

  ghost predicate NewRowsPending(s: State) {
    forall t, e :: t in s.txs && e in s.txs[t].events ==> s.txs[t].events[e].publishedAt.None?
  }

  lemma StepKeepsSent(s: State, e: Step)
    requires Enabled(s, e) && PairsOk(s) && SentOk(s) && NewRowsPending(s)
    ensures SentOk(Apply(s, e)) && NewRowsPending(Apply(s, e))
  {
    hide PairsOk;
    match e {
      case SendNext => SendKeepsSent(s, Apply(s, e));
      case CommitPoll(now) => CommitPollKeepsSent(s, now);
      case CommitTx(t) => CommitTxKeepsSent(s, t);
      case BeginPoll(batch) => BeginKeepsSent(s, batch);
      case Crash => CrashKeepsSent(s);
      case _ => assert forall x :: Settled(Apply(s, e), x) <==> Settled(s, x);
    }
  }

  lemma BeginKeepsSent(s: State, batch: seq<Id>)
    requires SentOk(s) && Enabled(s, BeginPoll(batch))
    ensures SentOk(Apply(s, BeginPoll(batch)))
  {
    assert batch[..0] == [];
    assert forall x :: Settled(Apply(s, BeginPoll(batch)), x) <==> Settled(s, x);
  }

  lemma CrashKeepsSent(s: State)
    requires SentOk(s)
    ensures SentOk(Apply(s, Crash))
  {
    assert forall x :: Settled(Apply(s, Crash), x) ==> Settled(s, x);
  }

  lemma {:induction false} RunKeepsSent(s: State, steps: seq<Step>, s': State)
    requires IsRun(s, steps, s') && PairsOk(s) && SentOk(s) && NewRowsPending(s)
    ensures SentOk(s')
    decreases |steps|
  {
    hide PairsOk, SentOk, NewRowsPending;
    if steps != [] {
      StepKeepsPairs(s, steps[0]);
      StepKeepsSent(s, steps[0]);
      RunKeepsSent(Apply(s, steps[0]), steps[1..], s');
    }
  }

  /** Over any run, with any crashes: a row marked published has been sent; a row is sent at most once more than
      there were crashes, and without a crash exactly once if published. */
  lemma PublishedWasSent(steps: seq<Step>, s: State, e: Id)
    requires IsRun(Start, steps, s) && e in s.outbox
    ensures s.outbox[e].publishedAt.Some? ==> Sends(s.log, e) >= 1
    ensures Sends(s.log, e) <= 1 + s.crashes
    ensures s.crashes == 0 && s.outbox[e].publishedAt.Some? ==> Sends(s.log, e) == 1
  {
    RunKeepsSent(Start, steps, s);
  }

  /** Every message on the wire is a committed event, on the channel of its own organization. */
  lemma MessagesAreCommittedEvents(steps: seq<Step>, s: State, i: nat)
    requires IsRun(Start, steps, s) && i < |s.log|
    ensures s.log[i].event in s.outbox
    ensures s.log[i].org == s.outbox[s.log[i].event].org && s.log[i].payload == s.outbox[s.log[i].event].payload
    ensures OrgOfChannel(s.log[i].channel) == s.log[i].org
  {
    RunKeepsSent(Start, steps, s);
    ChannelRoundTrip(s.log[i].org);
  }

  /* ---------- draining the table ---------- */

  /** A poll that runs to its commit. */
  ghost function AfterPoll(s: State, batch: seq<Id>, now: int): State
    requires IsBatch(s.outbox, batch)
  {
    s.(outbox := MarkedAt(s.outbox, batch, now), log := s.log + Messages(s.outbox, batch))
  }

  lemma {:induction false} RunThenStep(s: State, steps: seq<Step>, s': State, e: Step)
    requires IsRun(s, steps, s') && Enabled(s', e)
    ensures IsRun(s, steps + [e], Apply(s', e))
    decreases |steps|
  {
    hide Enabled, Apply;
    if steps == [] {
      assert IsRun(Apply(s, e), [], Apply(s, e));
      assert [e][1..] == [] && steps + [e] == [e];
    } else {
      RunThenStep(Apply(s, steps[0]), steps[1..], s', e);
      assert (steps + [e])[1..] == steps[1..] + [e];
    }
  }

  lemma {:induction false} SendsRun(s0: State, before: seq<Step>, s: State, batch: seq<Id>, k: nat)
    returns (steps: seq<Step>)
    requires s.poll.None? && IsBatch(s.outbox, batch) && k <= |batch| && IsRun(s0, before, s)
    ensures IsRun(s0, steps, s.(poll := Some(Poll(batch, k)), log := s.log + Messages(s.outbox, batch[..k])))
  {
    hide IsRun, Pending;
    if k == 0 {
      RunThenStep(s0, before, s, BeginPoll(batch));
      steps := before + [BeginPoll(batch)];
      assert batch[..0] == [];
      assert s.log + [] == s.log;
    } else {
      steps := SendsRun(s0, before, s, batch, k - 1);
      var mid := s.(poll := Some(Poll(batch, k - 1)), log := s.log + Messages(s.outbox, batch[..k - 1]));
      RunThenStep(s0, steps, mid, SendNext);
      assert batch[..k][..k - 1] == batch[..k - 1];
      assert Apply(mid, SendNext).log == s.log + Messages(s.outbox, batch[..k]);
      steps := steps + [SendNext];
    }
  }

  /** The steps of a poll make up AfterPoll. */
  lemma PollRun(s0: State, before: seq<Step>, s: State, batch: seq<Id>, now: int) returns (steps: seq<Step>)
    requires s.poll.None? && IsBatch(s.outbox, batch) && IsRun(s0, before, s)
    ensures IsRun(s0, steps, AfterPoll(s, batch, now))
  {
    steps := SendsRun(s0, before, s, batch, |batch|);
    var mid := s.(poll := Some(Poll(batch, |batch|)), log := s.log + Messages(s.outbox, batch[..|batch|]));
    assert batch[..|batch|] == batch;
    RunThenStep(s0, steps, mid, CommitPoll(now));
    steps := steps + [CommitPoll(now)];
  }

  /** Polls one after the other, none of them crashing, while no transaction commits. */
  ghost predicate IsDrain(s: State, batches: seq<seq<Id>>, now: int, s': State)
    decreases |batches|
  {
    if batches == [] then s' == s
    else IsBatch(s.outbox, batches[0]) && IsDrain(AfterPoll(s, batches[0], now), batches[1..], now, s')
  }

  lemma PollShrinks(outbox: map<Id, OutboxRow>, batch: seq<Id>, now: int)
    requires IsBatch(outbox, batch)
    ensures Pending(MarkedAt(outbox, batch, now)) == Pending(outbox) - ToSet(batch)
    ensures |Pending(MarkedAt(outbox, batch, now))| == Max(0, |Pending(outbox)| - 100)
  {
    var p, b := Pending(outbox), ToSet(batch);
    DistinctSize(batch);
    assert b <= p;
    assert p == b + (p - b);
    assert Pending(MarkedAt(outbox, batch, now)) == p - b;
  }

  lemma {:induction false} SendsOfBatch(log: seq<Message>, outbox: map<Id, OutboxRow>, batch: seq<Id>, e: Id)
    requires Distinct(batch) && forall i :: 0 <= i < |batch| ==> batch[i] in outbox
    ensures Sends(log + Messages(outbox, batch), e) == Sends(log, e) + if e in batch then 1 else 0
  {
    if batch == [] {
      assert log + [] == log;
    } else {
      var n := |batch| - 1;
      SendsOfBatch(log, outbox, batch[..n], e);
      var m := MessageOf(batch[n], outbox[batch[n]]);
      assert log + Messages(outbox, batch) == (log + Messages(outbox, batch[..n])) + [m];
      SendsOne(log + Messages(outbox, batch[..n]), m);
      assert batch == batch[..n] + [batch[n]];
    }
  }

  /** Each poll of a drain takes a batch off; every row it takes is sent once more, the others not at all. */
  lemma {:induction false} DrainSends(s: State, batches: seq<seq<Id>>, now: int, s': State)
    requires IsDrain(s, batches, now, s')
    ensures |Pending(s'.outbox)| == Max(0, |Pending(s.outbox)| - BATCH_SIZE * |batches|)
    ensures s'.outbox.Keys == s.outbox.Keys && Pending(s'.outbox) <= Pending(s.outbox)
    ensures forall e ::
              Sends(s'.log, e) == Sends(s.log, e) + if e in Pending(s.outbox) - Pending(s'.outbox) then 1 else 0
    decreases |batches|
  {
    if batches != [] {
      var s1 := AfterPoll(s, batches[0], now);
      hide IsBatch;
      PollShrinks(s.outbox, batches[0], now);
      DrainSends(s1, batches[1..], now, s');
      forall e
        ensures Sends(s'.log, e) == Sends(s.log, e) + if e in Pending(s.outbox) - Pending(s'.outbox) then 1 else 0
      {
        BatchIsPending(s.outbox, batches[0]);
        SendsOfBatch(s.log, s.outbox, batches[0], e);
      }
    }
  }

  lemma BatchIsPending(outbox: map<Id, OutboxRow>, batch: seq<Id>)
    requires IsBatch(outbox, batch)
    ensures Distinct(batch) && (forall i :: 0 <= i < |batch| ==> batch[i] in outbox)
    ensures forall e :: e in batch ==> e in Pending(outbox)
  {
  }

  /** From any reachable state with the publisher idle, n pending rows are drained by ceil(n / 100) polls that do not
      crash, each of them sent exactly once on the way; so every committed event gets sent. */
  lemma DrainedInCeilPolls(steps: seq<Step>, s: State, batches: seq<seq<Id>>, now: int, s': State, e: Id)
    requires IsRun(Start, steps, s) && s.poll.None? && IsDrain(s, batches, now, s')
    requires |batches| >= CeilDiv(|Pending(s.outbox)|, 100) && e in s.outbox
    ensures Pending(s'.outbox) == {}
    ensures e in Pending(s.outbox) ==> Sends(s'.log, e) == Sends(s.log, e) + 1
    ensures Sends(s'.log, e) >= 1
  {
    hide IsRun, IsDrain;
    DrainSends(s, batches, now, s');
    RunKeepsSent(Start, steps, s);
    assert Settled(s, e) || e in Pending(s.outbox);
  }

  /* ---------- progress while transactions go on committing ---------- */

  /** How many pending rows are at least as old as this one, itself included. */
  ghost function Rank(outbox: map<Id, OutboxRow>, e: Id): nat { |Ahead(outbox, e)| }

  ghost function Ahead(outbox: map<Id, OutboxRow>, e: Id): set<Id> {
    set p | p in Pending(outbox) && e in outbox && outbox[p].createdAt <= outbox[e].createdAt
  }

  /** The steps of the run commit only rows younger than this one. */
  ghost predicate YoungerRun(s: State, steps: seq<Step>, createdAt: int)
    decreases |steps|
  {
    steps == [] ||
    (&& Enabled(s, steps[0]) && AddsYounger(s, steps[0], createdAt)
     && YoungerRun(Apply(s, steps[0]), steps[1..], createdAt))
  }

  ghost predicate AddsYounger(s: State, e: Step, createdAt: int)
    requires Enabled(s, e)
  {
    e.CommitTx? ==> forall v :: v in s.txs[e.tx].events ==> s.txs[e.tx].events[v].createdAt > createdAt
  }

  function Completed(steps: seq<Step>): nat {
    if steps == [] then 0 else (if steps[0].CommitPoll? then 1 else 0) + Completed(steps[1..])
  }

  /** The running poll, if any, has the row in its batch, or a full batch of rows no younger. */
  ghost predicate Serves(s: State, e: Id) {
    s.poll.Some? ==>
      var b := s.poll.value.batch;
      e in b || (|b| == BATCH_SIZE && forall i :: 0 <= i < |b| ==> b[i] in Ahead(s.outbox, e))
  }

  /** A poll that was running when the row came may have missed it. */
  ghost function Slack(s: State, e: Id): nat { if Serves(s, e) then 0 else BATCH_SIZE }

  lemma CommittedPollAdvances(s: State, now: int, e: Id)
    requires Enabled(s, CommitPoll(now)) && PollOk(s) && e in Pending(s.outbox)
    ensures var s' := Apply(s, CommitPoll(now));
            e in Pending(s'.outbox) ==>
              Rank(s'.outbox, e) + (if Serves(s, e) then BATCH_SIZE else 0) <= Rank(s.outbox, e)
  {
    var s', b := Apply(s, CommitPoll(now)), s.poll.value.batch;
    if e in Pending(s'.outbox) {
      assert e !in b;
      var before, after := Ahead(s.outbox, e), Ahead(s'.outbox, e);
      assert after == before - ToSet(b);
      if Serves(s, e) {
        DistinctSize(b);
        assert ToSet(b) <= before;
        assert before == after + ToSet(b);
      } else {
        assert before == after + (before - after);
      }
    }
  }

  lemma CommitTxKeepsRank(s: State, t: Id, e: Id)
    requires Enabled(s, CommitTx(t)) && PairsOk(s) && e in Pending(s.outbox)
    requires AddsYounger(s, CommitTx(t), s.outbox[e].createdAt)
    ensures Ahead(Apply(s, CommitTx(t)).outbox, e) == Ahead(s.outbox, e)
  {
    hide Paired;
    assert TxOk(s, s.txs[t]);
    var outbox' := Apply(s, CommitTx(t)).outbox;
    assert forall p :: p in s.outbox ==> outbox'[p] == s.outbox[p];
    forall p
      ensures p in Ahead(outbox', e) <==> p in Ahead(s.outbox, e)
    {
    }
  }

  lemma LeftOut(pending: set<Id>, batch: seq<Id>, e: Id)
    requires Distinct(batch) && ToSet(batch) <= pending && e in pending && e !in batch
    ensures |batch| < |pending|
  {
    DistinctSize(batch);
    assert e in pending - ToSet(batch);
    assert pending == ToSet(batch) + (pending - ToSet(batch));
  }

  lemma PendingHasRank(outbox: map<Id, OutboxRow>, e: Id)
    requires e in Pending(outbox)
    ensures Rank(outbox, e) > 0
  {
    assert e in Ahead(outbox, e);
  }

  lemma BatchServes(s: State, batch: seq<Id>, e: Id)
    requires Enabled(s, BeginPoll(batch)) && e in Pending(s.outbox)
    ensures Serves(Apply(s, BeginPoll(batch)), e)
  {
    if e !in batch {
      LeftOut(Pending(s.outbox), batch, e);
      assert forall i :: 0 <= i < |batch| ==> batch[i] in Ahead(s.outbox, e);
    }
  }

  lemma StepAdvances(s: State, e: Step, x: Id)
    requires Enabled(s, e) && PairsOk(s) && PollOk(s) && x in Pending(s.outbox)
    requires AddsYounger(s, e, s.outbox[x].createdAt)
    ensures var s' := Apply(s, e);
            && x in s'.outbox && s'.outbox[x].createdAt == s.outbox[x].createdAt
            && (x in Pending(s'.outbox) ==>
                  Rank(s'.outbox, x) + Slack(s', x) + (if e.CommitPoll? then BATCH_SIZE else 0)
                  <= Rank(s.outbox, x) + Slack(s, x))
  {
    hide Ahead;
    match e {
      case CommitPoll(now) => CommittedPollAdvances(s, now, x);
      case CommitTx(t) =>
        CommitTxKeepsRank(s, t, x);
        hide PairsOk;
        OldRowStays(s, t, x);
      case BeginPoll(batch) => BatchServes(s, batch, x);
      case _ => hide PairsOk;
    }
  }

  lemma OldRowStays(s: State, t: Id, x: Id)
    requires Enabled(s, CommitTx(t)) && PairsOk(s) && x in s.outbox
    ensures Apply(s, CommitTx(t)).outbox[x] == s.outbox[x]
  {
    hide Paired;
    assert TxOk(s, s.txs[t]);
  }

  lemma StepKeepsPublished(s: State, e: Step, x: Id)
    requires Enabled(s, e) && PairsOk(s) && x in s.outbox && s.outbox[x].publishedAt.Some?
    ensures x in Apply(s, e).outbox && Apply(s, e).outbox[x].publishedAt.Some?
  {
    if e.CommitTx? {
      OldRowStays(s, e.tx, x);
    }
    hide PairsOk;
  }

  lemma {:induction false} RunKeepsPublished(s: State, steps: seq<Step>, s': State, x: Id)
    requires IsRun(s, steps, s') && PairsOk(s) && x in s.outbox && s.outbox[x].publishedAt.Some?
    ensures x in s'.outbox && s'.outbox[x].publishedAt.Some?
    decreases |steps|
  {
    hide PairsOk, Enabled, Apply;
    if steps != [] {
      StepKeepsPairs(s, steps[0]);
      StepKeepsPublished(s, steps[0], x);
      RunKeepsPublished(Apply(s, steps[0]), steps[1..], s', x);
    }
  }

  /** A row that is still pending has been moved up by a whole batch for every poll completed. */
  lemma {:induction false} RunAdvances(s: State, steps: seq<Step>, s': State, x: Id)
    requires IsRun(s, steps, s') && PairsOk(s) && SentOk(s) && NewRowsPending(s)
    requires x in Pending(s.outbox) && YoungerRun(s, steps, s.outbox[x].createdAt)
    ensures x in s'.outbox
    ensures x in Pending(s'.outbox) ==>
              Rank(s'.outbox, x) + BATCH_SIZE * Completed(steps) <= Rank(s.outbox, x) + Slack(s, x)
    decreases |steps|
  {
    hide PairsOk, Enabled, Apply, AddsYounger, Rank, Slack, NewRowsPending;
    if steps != [] {
      var t := Apply(s, steps[0]);
      StepKeepsPairs(s, steps[0]);
      StepKeepsSent(s, steps[0]);
      StepAdvances(s, steps[0], x);
      hide SentOk;
      if x in Pending(t.outbox) {
        RunAdvances(t, steps[1..], s', x);
      } else {
        RunKeepsPublished(t, steps[1..], s', x);
      }
    }
  }

  /** In a live system, with transactions committing, polls crashing and messages going out in any interleaving: a row
      with n pending rows no younger is sent and published by the time ceil(n / 100) polls have completed, one more if
      a poll was running to begin with, while only younger rows are committed. */
  lemma LeavesQueueInCeilPolls(before: seq<Step>, s: State, steps: seq<Step>, s': State, x: Id)
    requires IsRun(Start, before, s) && IsRun(s, steps, s')
    requires x in Pending(s.outbox) && YoungerRun(s, steps, s.outbox[x].createdAt)
    requires Completed(steps) >= CeilDiv(Rank(s.outbox, x), 100) + if s.poll.None? then 0 else 1
    ensures x in s'.outbox && s'.outbox[x].publishedAt.Some? && Sends(s'.log, x) >= 1
  {
    RunKeepsSent(Start, before, s);
    RunKeepsPairs(Start, before, s);
    RunKeepsNewRows(Start, before, s);
    RunKeepsSent(s, steps, s');
    hide IsRun, YoungerRun, SentOk, PairsOk, NewRowsPending;
    RunAdvances(s, steps, s', x);
    if x in Pending(s'.outbox) {
      PendingHasRank(s'.outbox, x);
    }
    SettledWasSent(s', x);
  }

  lemma SettledWasSent(s: State, x: Id)
    requires SentOk(s) && x in s.outbox && s.outbox[x].publishedAt.Some?
    ensures Sends(s.log, x) >= 1
  {
    assert Settled(s, x);
  }

  lemma {:induction false} RunKeepsNewRows(s: State, steps: seq<Step>, s': State)
    requires IsRun(s, steps, s') && PairsOk(s) && SentOk(s) && NewRowsPending(s)
    ensures NewRowsPending(s')
    decreases |steps|
  {
    hide PairsOk, SentOk, NewRowsPending;
    if steps != [] {
      StepKeepsPairs(s, steps[0]);
      StepKeepsSent(s, steps[0]);
      RunKeepsNewRows(Apply(s, steps[0]), steps[1..], s');
    }
  }

  /* ---------- one poll, send by send ---------- */

  lemma BatchFacts(outbox: map<Id, OutboxRow>, batch: seq<Id>, now: int)
    requires IsBatch(outbox, batch)
    ensures forall i :: 0 <= i < |batch| ==> batch[i] in outbox
    ensures MarkedAt(outbox, batch[..0], now) == outbox && Messages(outbox, batch[..0]) == []
    ensures Distinct(batch)
  {
  }

  lemma SendOne(outbox: map<Id, OutboxRow>, batch: seq<Id>, k: nat, now: int)
    requires Distinct(batch) && k < |batch| && forall i :: 0 <= i < |batch| ==> batch[i] in outbox
    ensures var e, marked := batch[k], MarkedAt(outbox, batch[..k], now);
            && e in marked && marked[e] == outbox[e]
            && MarkedAt(outbox, batch[..k + 1], now) == marked[e := marked[e].(publishedAt := Some(now))]
            && Messages(outbox, batch[..k + 1]) == Messages(outbox, batch[..k]) + [MessageOf(e, outbox[e])]
  {
    assert batch[..k + 1] == batch[..k] + [batch[k]] && batch[..k + 1][..k] == batch[..k];
    assert batch[k] !in batch[..k];
  }

  /* ---------- the worker and the helper, without interruption ---------- */

  class Database {
    var audits: map<Id, AuditRow>
    var outbox: map<Id, OutboxRow>
    var log: seq<Message>

    constructor ()
      ensures audits == map[] && outbox == map[] && log == []
    {
      audits, outbox, log := map[], map[], [];
    }

    /** One poll. A crash before the k-th message leaves the rows as they were and the first k messages sent. */
    method PublishPending(batch: seq<Id>, now: int, crashBefore: Option<nat>) returns (published: Option<nat>)
      requires IsBatch(outbox, batch)
      modifies this`outbox, this`log
      ensures published.None? <==> crashBefore.Some? && crashBefore.value < |batch|
      ensures published.Some? ==>
                && published.value == |batch| && outbox == MarkedAt(old(outbox), batch, now)
                && log == old(log) + Messages(old(outbox), batch)
      ensures published.None? ==>
                && outbox == old(outbox)
                && log == old(log) + Messages(old(outbox), batch[..crashBefore.value])
    {
      hide IsBatch, MarkedAt, Messages;
      BatchFacts(outbox, batch, now);
      var session := outbox;
      var count := 0;
      while count < |batch|
        invariant 0 <= count <= |batch| && outbox == old(outbox)
        invariant crashBefore.Some? && crashBefore.value < |batch| ==> count <= crashBefore.value
        invariant session == MarkedAt(old(outbox), batch[..count], now)
        invariant log == old(log) + Messages(old(outbox), batch[..count])
      {
        if crashBefore == Some(count) {
          return None;
        }
        var e := batch[count];
        SendOne(old(outbox), batch, count, now);
        log := log + [MessageOf(e, session[e])];
        session := session[e := session[e].(publishedAt := Some(now))];
        count := count + 1;
      }
      assert batch[..|batch|] == batch;
      outbox := session;
      return Some(count);
    }

    /** Both rows, or the audit row alone, join the transaction `t`. */
    method AuditAndEmit(t: AppTx, e: Emission, audit: Id, event: Id) returns (r: AppTx)
      requires Paired(t.audits, t.events) && audit !in t.audits && event !in t.events
      ensures r == Emitted(t, e, audit, event) && Paired(r.audits, r.events)
      ensures |r.events| == |t.events| + if e.emitOutbox then 1 else 0
    {
      var row := AuditRow(e.org, e.action, e.entityType, e.entityId, e.diff,
                          if e.emitOutbox then Some(event) else None);
      var audits, events := t.audits[audit := row], t.events;
      if e.emitOutbox {
        var eventType := if e.eventType.Some? && e.eventType.value != "" then e.eventType.value
                         else e.entityType + "." + e.action;
        var payload := if e.payload != map[] then Given(e.payload) else Entity(e.entityId, e.diff);
        events := events[event := OutboxRow(e.org, eventType, payload, e.createdAt, None)];
      }
      EmittedStaysPaired(t, e, audit, event);
      r := AppTx(audits, events);
    }
  }
}
