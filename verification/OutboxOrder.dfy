/** When messages leave in the order of created_at (workers/outbox_publisher.py): the exact condition on a run. */
module OutboxOrder {
  import opened Prelude
  import opened Channels
  import opened Outbox

  ghost predicate Sorted(log: seq<Message>) {
    forall i, j :: 0 <= i < j < |log| ==> log[i].createdAt <= log[j].createdAt
  }

  ghost predicate NotOlder(log: seq<Message>, row: OutboxRow) {
    forall i :: 0 <= i < |log| ==> log[i].createdAt <= row.createdAt
  }

  ghost predicate PollSorted(s: State) {
    s.poll.Some? ==>
      var b := s.poll.value.batch;
      && AllPending(s.outbox, b)
      && (forall i, j :: 0 <= i < j < |b| ==> s.outbox[b[i]].createdAt <= s.outbox[b[j]].createdAt)
      && (forall i, e :: 0 <= i < |b| && e in Pending(s.outbox) && e !in b ==>
            s.outbox[b[i]].createdAt <= s.outbox[e].createdAt)
  }

  ghost predicate OrderOk(s: State) {
    && Sorted(s.log) && PollSorted(s)
    && forall e :: e in s.outbox && !Settled(s, e) ==> NotOlder(s.log, s.outbox[e])
  }

  /** No crash, and no transaction commits a row older than one already sent or taken into the running poll. */
  ghost predicate Timely(s: State, e: Step)
    requires Enabled(s, e)
  {
    && !e.Crash?
    && (e.CommitTx? ==> forall v :: v in s.txs[e.tx].events ==>
          NotOlder(s.log, s.txs[e.tx].events[v]) && NotOlderThanPoll(s, s.txs[e.tx].events[v]))
  }

  ghost predicate NotOlderThanPoll(s: State, row: OutboxRow) {
    s.poll.Some? ==> forall e :: e in s.poll.value.batch && e in s.outbox ==> s.outbox[e].createdAt <= row.createdAt
  }

  ghost predicate TimelyRun(s: State, steps: seq<Step>)
    decreases |steps|
  {
    steps == [] || (Enabled(s, steps[0]) && Timely(s, steps[0]) && TimelyRun(Apply(s, steps[0]), steps[1..]))
  }

  lemma SendKeepsOrder(s: State)
    requires OrderOk(s) && SentOk(s) && Enabled(s, SendNext)
    ensures OrderOk(Apply(s, SendNext))
  {
    hide SentOk, Sorted, PollSorted, NotOlder, Distinct;
    var s', p := Apply(s, SendNext), s.poll.value;
    var x := p.batch[p.sent];
    NextIsUnsettled(s);
    SortedExtends(s.log, MessageOf(x, s.outbox[x]));
    forall e | e in s'.outbox && !Settled(s', e)
      ensures NotOlder(s'.log, s'.outbox[e])
    {
      UnsentIsYounger(s, s', e);
      NotOlderExtends(s.log, MessageOf(x, s.outbox[x]), s.outbox[e]);
    }
    SamePollSorted(s, s');
  }

  lemma SamePollSorted(s: State, s': State)
    requires PollSorted(s) && s'.outbox == s.outbox
    requires s.poll.Some? && s'.poll.Some? && s'.poll.value.batch == s.poll.value.batch
    ensures PollSorted(s')
  {
  }

  lemma SortedExtends(log: seq<Message>, m: Message)
    requires Sorted(log) && forall i :: 0 <= i < |log| ==> log[i].createdAt <= m.createdAt
    ensures Sorted(log + [m])
  {
  }

  lemma NotOlderExtends(log: seq<Message>, m: Message, row: OutboxRow)
    requires NotOlder(log, row) && m.createdAt <= row.createdAt
    ensures NotOlder(log + [m], row)
  {
  }

  lemma NextIsUnsettled(s: State)
    requires OrderOk(s) && SentOk(s) && Enabled(s, SendNext)
    ensures var x := s.poll.value.batch[s.poll.value.sent];
            !Settled(s, x) && forall i :: 0 <= i < |s.log| ==> s.log[i].createdAt <= s.outbox[x].createdAt
  {
    var x := s.poll.value.batch[s.poll.value.sent];
    assert !Settled(s, x);
    assert NotOlder(s.log, s.outbox[x]);
  }

  lemma UnsentIsYounger(s: State, s': State, e: Id)
    requires OrderOk(s) && SentOk(s) && Enabled(s, SendNext) && s' == Apply(s, SendNext)
    requires e in s.outbox && !Settled(s', e)
    ensures NotOlder(s.log, s.outbox[e])
    ensures s.outbox[s.poll.value.batch[s.poll.value.sent]].createdAt <= s.outbox[e].createdAt
  {
    hide SentOk, NotOlder, Sorted;
    var p := s.poll.value;
    SentPrefix(p.batch, p.sent, e);
    assert !Settled(s, e);
    assert e in Pending(s.outbox);
  }

  lemma SentPrefix(batch: seq<Id>, k: nat, e: Id)
    requires k < |batch| && e !in batch[..k + 1]
    ensures e !in batch[..k]
    ensures e in batch ==> exists j :: k < j < |batch| && batch[j] == e
  {
    assert forall m :: 0 <= m <= k ==> batch[..k + 1][m] == batch[m];
    assert batch[..k + 1] == batch[..k] + [batch[k]];
  }

  lemma CommitTxKeepsOrder(s: State, t: Id)
    requires OrderOk(s) && SentOk(s) && PairsOk(s) && Enabled(s, CommitTx(t)) && Timely(s, CommitTx(t))
    ensures OrderOk(Apply(s, CommitTx(t)))
  {
    hide Paired;
    var s' := Apply(s, CommitTx(t));
    assert TxOk(s, s.txs[t]);
    assert forall e :: e in s.outbox ==> e in s'.outbox && s'.outbox[e] == s.outbox[e];
    assert forall e :: Settled(s, e) ==> Settled(s', e);
  }

  lemma CommitPollKeepsOrder(s: State, now: int)
    requires OrderOk(s) && SentOk(s) && Enabled(s, CommitPoll(now))
    ensures OrderOk(Apply(s, CommitPoll(now)))
  {
    var s', p := Apply(s, CommitPoll(now)), s.poll.value;
    assert p.batch[..p.sent] == p.batch;
    assert forall e :: Settled(s', e) <==> Settled(s, e);
  }

  lemma SameLogKeepsOrder(s: State, s': State)
    requires OrderOk(s) && s'.log == s.log && s'.outbox == s.outbox && PollSorted(s')
    requires s'.poll == s.poll || s.poll.None?
    ensures OrderOk(s')
  {
    assert forall x :: Settled(s, x) ==> Settled(s', x);
  }

  lemma StepKeepsOrder(s: State, e: Step)
    requires OrderOk(s) && SentOk(s) && PairsOk(s) && Enabled(s, e) && Timely(s, e)
    ensures OrderOk(Apply(s, e))
  {
    hide PairsOk, SentOk;
    match e {
      case SendNext => SendKeepsOrder(s);
      case CommitTx(t) => CommitTxKeepsOrder(s, t);
      case CommitPoll(now) => CommitPollKeepsOrder(s, now);
      case BeginPoll(_) => SameLogKeepsOrder(s, Apply(s, e));
      case OpenTx(_) => SameLogKeepsOrder(s, Apply(s, e));
      case Emit(_, _, _, _) => SameLogKeepsOrder(s, Apply(s, e));
      case RollbackTx(_) => SameLogKeepsOrder(s, Apply(s, e));
      case Crash =>
    }
  }

  lemma {:induction false} RunKeepsOrder(s: State, steps: seq<Step>, s': State)
    requires IsRun(s, steps, s') && TimelyRun(s, steps) && OrderOk(s) && SentOk(s) && PairsOk(s) && NewRowsPending(s)
    ensures OrderOk(s')
    decreases |steps|
  {
    hide OrderOk, SentOk, PairsOk, NewRowsPending, Timely;
    if steps != [] {
      StepKeepsPairs(s, steps[0]);
      StepKeepsSent(s, steps[0]);
      StepKeepsOrder(s, steps[0]);
      RunKeepsOrder(Apply(s, steps[0]), steps[1..], s');
    }
  }

  /** Without crashes and late commits, messages go out in the order of created_at over the whole run. */
  lemma SentInOrder(steps: seq<Step>, s: State)
    requires IsRun(Start, steps, s) && TimelyRun(Start, steps)
    ensures Sorted(s.log)
  {
    RunKeepsOrder(Start, steps, s);
  }

  /* ---------- without crashes: the order is kept exactly when every commit is timely ---------- */

  /** A row that waits although something younger has been sent. */
  ghost predicate OvertakenRow(s: State, e: Id) { e in s.outbox && !Settled(s, e) && !NotOlder(s.log, s.outbox[e]) }

  ghost predicate Overtaken(s: State) { exists e :: OvertakenRow(s, e) }

  lemma SendOvertakes(s: State, e: Id)
    requires SentOk(s) && Enabled(s, SendNext) && OvertakenRow(s, e)
    ensures var s' := Apply(s, SendNext); OvertakenRow(s', e) || !Sorted(s'.log)
  {
    hide SentOk;
    var s', p := Apply(s, SendNext), s.poll.value;
    var i :| 0 <= i < |s.log| && s.log[i].createdAt > s.outbox[e].createdAt;
    assert s'.log[i] == s.log[i];
    if p.batch[p.sent] == e {
      assert s'.log[|s.log|].createdAt == s.outbox[e].createdAt;
    } else {
      assert p.batch[..p.sent + 1] == p.batch[..p.sent] + [p.batch[p.sent]];
    }
  }

  /** An overtaken row stays overtaken until it is sent, out of order; and disorder stays. Crashes change nothing
      here. */
  lemma DisorderStays(s: State, e: Step)
    requires Enabled(s, e) && SentOk(s) && PairsOk(s) && (Overtaken(s) || !Sorted(s.log))
    ensures Overtaken(Apply(s, e)) || !Sorted(Apply(s, e).log)
  {
    var s' := Apply(s, e);
    if !Sorted(s.log) {
      var i, j :| 0 <= i < j < |s.log| && s.log[i].createdAt > s.log[j].createdAt;
      assert s'.log[i] == s.log[i] && s'.log[j] == s.log[j];
    } else {
      var x :| OvertakenRow(s, x);
      match e {
        case SendNext => SendOvertakes(s, x);
        case CommitPoll(now) => PollCommitOvertakes(s, now, x);
        case CommitTx(t) => TxCommitOvertakes(s, t, x);
        case _ => assert OvertakenRow(s', x);
      }
    }
  }

  lemma PollCommitOvertakes(s: State, now: int, e: Id)
    requires Enabled(s, CommitPoll(now)) && OvertakenRow(s, e)
    ensures OvertakenRow(Apply(s, CommitPoll(now)), e)
  {
    var p := s.poll.value;
    assert p.batch[..p.sent] == p.batch;
  }

  lemma TxCommitOvertakes(s: State, t: Id, e: Id)
    requires Enabled(s, CommitTx(t)) && PairsOk(s) && OvertakenRow(s, e)
    ensures OvertakenRow(Apply(s, CommitTx(t)), e)
  {
    hide Paired, NotOlder;
    assert TxOk(s, s.txs[t]);
  }

  ghost predicate BatchSorted(s: State) {
    s.poll.Some? ==>
      var b := s.poll.value.batch;
      && AllPending(s.outbox, b)
      && forall i, j :: 0 <= i < j < |b| ==> s.outbox[b[i]].createdAt <= s.outbox[b[j]].createdAt
  }

  lemma StepKeepsBatchSorted(s: State, e: Step)
    requires Enabled(s, e) && PairsOk(s) && BatchSorted(s)
    ensures BatchSorted(Apply(s, e))
  {
    hide Paired;
    if e.CommitTx? {
      assert TxOk(s, s.txs[e.tx]);
    }
  }

  /** A row left out of the running poll that is older than one of its members. */
  ghost predicate PassedOver(s: State, i: nat, e: Id) {
    && s.poll.Some? && i < |s.poll.value.batch| && s.poll.value.batch[i] in s.outbox
    && e in Pending(s.outbox) && e !in s.poll.value.batch
    && s.outbox[e].createdAt < s.outbox[s.poll.value.batch[i]].createdAt
  }

  lemma WhyNotOrderOk(s: State)
    requires BatchSorted(s)
    ensures OrderOk(s) <==> Sorted(s.log) && !Overtaken(s) && forall i, e :: !PassedOver(s, i, e)
  {
    hide Sorted, Settled, NotOlder;
    if Sorted(s.log) && !Overtaken(s) && forall i, e :: !PassedOver(s, i, e) {
      forall e | e in s.outbox && !Settled(s, e)
        ensures NotOlder(s.log, s.outbox[e])
      {
        assert !OvertakenRow(s, e);
      }
      if s.poll.Some? {
        var b := s.poll.value.batch;
        forall i, e | 0 <= i < |b| && e in Pending(s.outbox) && e !in b
          ensures s.outbox[b[i]].createdAt <= s.outbox[e].createdAt
        {
          assert !PassedOver(s, i, e);
        }
      }
    }
  }

  lemma {:induction false} SentHasEntry(log: seq<Message>, e: Id) returns (i: nat)
    requires Sends(log, e) >= 1
    ensures i < |log| && log[i].event == e
  {
    var n := |log| - 1;
    if log[n].event == e {
      i := n;
    } else {
      i := SentHasEntry(log[..n], e);
    }
  }

  /** When the poll commits, all of its members have been sent: a row it passed over is overtaken. */
  lemma PassedOverIsOvertaken(s: State, now: int, i: nat, e: Id)
    requires SentOk(s) && Enabled(s, CommitPoll(now)) && PassedOver(s, i, e)
    ensures OvertakenRow(Apply(s, CommitPoll(now)), e)
  {
    var p := s.poll.value;
    var b := p.batch[i];
    assert p.batch[..p.sent] == p.batch && Settled(s, b);
    var k := SentHasEntry(s.log, b);
    assert SameEvent(s.log[k], s.outbox[b]);
  }

  /** Without a crash, what is out of order stays so, and a commit that is not timely puts something out of order. */
  lemma UntimelyStays(s: State, e: Step)
    requires Enabled(s, e) && SentOk(s) && PairsOk(s) && NewRowsPending(s) && BatchSorted(s) && !e.Crash?
    requires !OrderOk(s) || !Timely(s, e)
    ensures !OrderOk(Apply(s, e))
  {
    var s' := Apply(s, e);
    StepKeepsBatchSorted(s, e);
    WhyNotOrderOk(s);
    WhyNotOrderOk(s');
    hide SentOk, PairsOk, BatchSorted, OrderOk, NewRowsPending, Overtaken, Sorted;
    if Overtaken(s) || !Sorted(s.log) {
      DisorderStays(s, e);
    } else if !OrderOk(s) {
      var i, x :| PassedOver(s, i, x);
      StillPassedOver(s, e, i, x);
    } else {
      UntimelyCommit(s, e.tx);
    }
  }

  lemma StillPassedOver(s: State, e: Step, i: nat, x: Id)
    requires Enabled(s, e) && SentOk(s) && PairsOk(s) && !e.Crash? && PassedOver(s, i, x)
    ensures PassedOver(Apply(s, e), i, x) || OvertakenRow(Apply(s, e), x)
  {
    hide SentOk, Paired;
    match e {
      case CommitPoll(now) => PassedOverIsOvertaken(s, now, i, x);
      case CommitTx(t) => assert TxOk(s, s.txs[t]);
      case _ =>
    }
  }

  lemma UntimelyCommit(s: State, t: Id)
    requires Enabled(s, CommitTx(t)) && PairsOk(s) && NewRowsPending(s) && BatchSorted(s) && !Timely(s, CommitTx(t))
    ensures var s' := Apply(s, CommitTx(t)); Overtaken(s') || exists i, e :: PassedOver(s', i, e)
  {
    hide Paired;
    var s' := Apply(s, CommitTx(t));
    assert TxOk(s, s.txs[t]);
    var v :| v in s.txs[t].events && !(NotOlder(s.log, s.txs[t].events[v]) && NotOlderThanPoll(s, s.txs[t].events[v]));
    if NotOlder(s.log, s.txs[t].events[v]) {
      var b := s.poll.value.batch;
      var x :| x in b && x in s.outbox && s.outbox[x].createdAt > s.txs[t].events[v].createdAt;
      var i :| 0 <= i < |b| && b[i] == x;
      assert PassedOver(s', i, v);
    } else {
      assert OvertakenRow(s', v);
    }
  }

  ghost predicate CrashFree(steps: seq<Step>) { forall i :: 0 <= i < |steps| ==> !steps[i].Crash? }

  lemma {:induction false} RunTimelyExactlyWhen(s: State, steps: seq<Step>, s': State)
    requires IsRun(s, steps, s') && CrashFree(steps)
    requires SentOk(s) && PairsOk(s) && NewRowsPending(s) && BatchSorted(s)
    ensures OrderOk(s') <==> OrderOk(s) && TimelyRun(s, steps)
    decreases |steps|
  {
    hide OrderOk, SentOk, PairsOk, NewRowsPending, Timely, BatchSorted, Enabled, Apply;
    if steps != [] {
      StepKeepsPairs(s, steps[0]);
      StepKeepsSent(s, steps[0]);
      StepKeepsBatchSorted(s, steps[0]);
      RunTimelyExactlyWhen(Apply(s, steps[0]), steps[1..], s');
      if OrderOk(s) && Timely(s, steps[0]) {
        StepKeepsOrder(s, steps[0]);
      } else {
        UntimelyStays(s, steps[0]);
      }
    }
  }

  /** The publisher is idle and has nothing left to do. */
  ghost predicate Drained(s: State) { s.poll.None? && Pending(s.outbox) == {} }

  lemma DrainedIsSettled(s: State)
    requires Drained(s)
    ensures OrderOk(s) <==> Sorted(s.log)
    ensures !Overtaken(s)
  {
    assert forall e :: e in s.outbox ==> e !in Pending(s.outbox);
  }

  /** In a run without crashes that leaves nothing to publish, the messages went out in the order of created_at
      exactly when no transaction committed a row older than one already sent or taken into the running poll. */
  lemma InOrderExactlyWhenTimely(steps: seq<Step>, s: State)
    requires IsRun(Start, steps, s) && CrashFree(steps) && Drained(s)
    ensures Sorted(s.log) <==> TimelyRun(Start, steps)
  {
    hide IsRun, TimelyRun;
    RunTimelyExactlyWhen(Start, steps, s);
    DrainedIsSettled(s);
  }

  /* ---------- with crashes ---------- */

  /** The step lets nothing that waits fall behind: a commit adds no row older than one sent, a message is not sent
      before an older row that waits, and a crash takes back no row older than one sent. */
  ghost predicate InTime(s: State, e: Step)
    requires Enabled(s, e)
  {
    match e
    case CommitTx(t) => forall v :: v in s.txs[t].events ==> NotOlder(s.log, s.txs[t].events[v])
    case SendNext =>
      var x := s.poll.value.batch[s.poll.value.sent];
      forall e :: e in s.outbox && !Settled(s, e) && e != x ==> s.outbox[x].createdAt <= s.outbox[e].createdAt
    case Crash =>
      s.poll.Some? ==>
        var p := s.poll.value;
        forall k :: 0 <= k < p.sent && k < |p.batch| && p.batch[k] in s.outbox ==> NotOlder(s.log, s.outbox[p.batch[k]])
    case _ => true
  }

  ghost predicate InTimeRun(s: State, steps: seq<Step>)
    decreases |steps|
  {
    steps == [] || (Enabled(s, steps[0]) && InTime(s, steps[0]) && InTimeRun(Apply(s, steps[0]), steps[1..]))
  }

  lemma SendInTime(s: State)
    requires Enabled(s, SendNext) && SentOk(s) && Sorted(s.log) && !Overtaken(s)
    ensures var s' := Apply(s, SendNext); Sorted(s'.log) && (InTime(s, SendNext) <==> !Overtaken(s'))
  {
    var s', p := Apply(s, SendNext), s.poll.value;
    var x := p.batch[p.sent];
    var m := MessageOf(x, s.outbox[x]);
    assert p.batch[..p.sent + 1] == p.batch[..p.sent] + [x];
    assert !Settled(s, x) && !OvertakenRow(s, x);
    hide SentOk, Sorted;
    SortedExtends(s.log, m);
    assert forall e :: Settled(s', e) <==> Settled(s, e) || e == x;
    hide Settled;
    forall e | e in s.outbox && !Settled(s, e) && e != x
      ensures OvertakenRow(s', e) <==> s.outbox[x].createdAt > s.outbox[e].createdAt
    {
      assert !OvertakenRow(s, e);
      assert s'.log[|s.log|] == m;
    }
  }

  lemma CrashInTime(s: State)
    requires SentOk(s) && !Overtaken(s)
    ensures InTime(s, Crash) <==> !Overtaken(Apply(s, Crash))
  {
    var s' := Apply(s, Crash);
    if s.poll.Some? {
      var p := s.poll.value;
      forall k | 0 <= k < p.sent
        ensures p.batch[k] in s.outbox && (OvertakenRow(s', p.batch[k]) <==> !NotOlder(s.log, s.outbox[p.batch[k]]))
      {
      }
      hide NotOlder, SentOk;
      forall e | OvertakenRow(s', e)
        ensures exists k :: 0 <= k < p.sent && p.batch[k] == e
      {
        assert !OvertakenRow(s, e);
        assert e in p.batch[..p.sent];
      }
    } else {
      assert forall e :: OvertakenRow(s', e) <==> OvertakenRow(s, e);
    }
  }

  lemma CommitTxInTime(s: State, t: Id)
    requires Enabled(s, CommitTx(t)) && SentOk(s) && PairsOk(s) && NewRowsPending(s) && !Overtaken(s)
    ensures InTime(s, CommitTx(t)) <==> !Overtaken(Apply(s, CommitTx(t)))
  {
    var s' := Apply(s, CommitTx(t));
    assert TxOk(s, s.txs[t]);
    hide Paired, NotOlder;
    forall v | v in s.txs[t].events
      ensures OvertakenRow(s', v) <==> !NotOlder(s.log, s.txs[t].events[v])
    {
    }
    forall e | e in s.outbox
      ensures !OvertakenRow(s', e)
    {
      assert !OvertakenRow(s, e);
    }
  }

  lemma StepInTime(s: State, e: Step)
    requires Enabled(s, e) && SentOk(s) && PairsOk(s) && NewRowsPending(s) && Sorted(s.log) && !Overtaken(s)
    ensures Sorted(Apply(s, e).log) && (InTime(s, e) <==> !Overtaken(Apply(s, e)))
  {
    match e {
      case SendNext => SendInTime(s);
      case Crash => CrashInTime(s);
      case CommitTx(t) => CommitTxInTime(s, t);
      case _ => OtherInTime(s, e);
    }
  }

  lemma OtherInTime(s: State, e: Step)
    requires Enabled(s, e) && !e.SendNext? && !e.Crash? && !e.CommitTx? && !Overtaken(s)
    ensures !Overtaken(Apply(s, e))
  {
    var s' := Apply(s, e);
    if e.CommitPoll? {
      assert s.poll.value.batch[..s.poll.value.sent] == s.poll.value.batch;
    }
    hide NotOlder;
    forall x
      ensures !OvertakenRow(s', x)
    {
      assert !OvertakenRow(s, x);
    }
  }

  /** Over every run, crashes included: all steps were in time exactly when the messages went out in order and no row
      that waits has been overtaken. */
  lemma {:induction false} RunInTimeExactlyWhen(s: State, steps: seq<Step>, s': State)
    requires IsRun(s, steps, s') && SentOk(s) && PairsOk(s) && NewRowsPending(s)
    ensures Sorted(s'.log) && !Overtaken(s') <==> Sorted(s.log) && !Overtaken(s) && InTimeRun(s, steps)
    decreases |steps|
  {
    hide Overtaken, Sorted, SentOk, PairsOk, NewRowsPending, InTime, Enabled, Apply;
    if steps != [] {
      StepKeepsPairs(s, steps[0]);
      StepKeepsSent(s, steps[0]);
      RunInTimeExactlyWhen(Apply(s, steps[0]), steps[1..], s');
      if Sorted(s.log) && !Overtaken(s) {
        StepInTime(s, steps[0]);
      } else {
        DisorderStays(s, steps[0]);
      }
    }
  }

  /** Whatever crashes a run has, once nothing is left to publish: the messages went out in order exactly when every
      step was in time. */
  lemma InOrderExactlyWhenInTime(steps: seq<Step>, s: State)
    requires IsRun(Start, steps, s) && Drained(s)
    ensures Sorted(s.log) <==> InTimeRun(Start, steps)
  {
    hide IsRun, InTimeRun;
    RunInTimeExactlyWhen(Start, steps, s);
    DrainedIsSettled(s);
  }

  /* ---------- the condition can fail ---------- */

  function Note(createdAt: int): Emission {
    Emission(None, "noted", "case", None, map[], None, map[], true, createdAt)
  }

  lemma SingleIsBatch(outbox: map<Id, OutboxRow>, e: Id)
    requires Pending(outbox) == {e}
    ensures IsBatch(outbox, [e])
  {
    assert e in Pending(outbox);
  }

  /** The condition can fail: a transaction that is opened first and commits last puts its row on the wire after a
      younger one, with no crash and no two rows pending at once. */
  lemma LateCommitBreaksOrder() returns (steps: seq<Step>, s: State)
    ensures IsRun(Start, steps, s) && s.crashes == 0 && !Sorted(s.log) && !TimelyRun(Start, steps)
    ensures Drained(s) && |s.log| == 2
  {
    hide IsBatch, IsRun, Sorted, TimelyRun;
    var s1: State;
    steps, s1 := LateCommit();
    SingleIsBatch(s1.outbox, 11);
    steps := PollRun(Start, steps, s1, [11], 4);
    s := AfterPoll(s1, [11], 4);
    OneMessage(s1.outbox, 11);
    Unsorted(s.log);
    PollShrinks(s1.outbox, [11], 4);
    assert ToSet([11]) == {11};
    if TimelyRun(Start, steps) {
      SentInOrder(steps, s);
    }
  }

  lemma LateCommit() returns (steps: seq<Step>, s: State)
    ensures IsRun(Start, steps, s) && s.crashes == 0 && s.poll.None?
    ensures Pending(s.outbox) == {11} && 11 in s.outbox && s.outbox[11] == EventOf(Note(1))
    ensures s.log == [MessageOf(21, EventOf(Note(2)))]
  {
    hide IsBatch, IsRun, Sorted;
    var s0: State;
    steps, s0 := TwoEmissions();
    SingleIsBatch(s0.outbox, 21);
    steps := PollRun(Start, steps, s0, [21], 3);
    var s1 := AfterPoll(s0, [21], 3);
    OneMessage(s0.outbox, 21);
    RunThenStep(Start, steps, s1, CommitTx(1));
    s := Apply(s1, CommitTx(1));
    steps := steps + [CommitTx(1)];
    assert s.outbox == map[21 := EventOf(Note(2)).(publishedAt := Some(3)), 11 := EventOf(Note(1))];
  }

  lemma Unsorted(log: seq<Message>)
    requires |log| == 2 && log[0].createdAt > log[1].createdAt
    ensures !Sorted(log)
  {
  }

  lemma OneEmission() returns (steps: seq<Step>, s: State)
    ensures IsRun(Start, steps, s) && s.crashes == 0 && s.poll.None? && s.log == [] && s.outbox == map[]
    ensures s.used == {10, 11}
    ensures s.txs.Keys == {1} && s.txs[1].events == map[11 := EventOf(Note(1))]
  {
    assert IsRun(Start, [], Start);
    hide IsRun, IsBatch;
    RunThenStep(Start, [], Start, OpenTx(1));
    var s1 := Apply(Start, OpenTx(1));
    RunThenStep(Start, [] + [OpenTx(1)], s1, Emit(1, Note(1), 10, 11));
    s := Apply(s1, Emit(1, Note(1), 10, 11));
    steps := [] + [OpenTx(1)] + [Emit(1, Note(1), 10, 11)];
  }

  lemma TwoEmissions() returns (steps: seq<Step>, s: State)
    ensures IsRun(Start, steps, s) && s.crashes == 0 && s.poll.None? && s.log == []
    ensures s.outbox == map[21 := EventOf(Note(2))] && Pending(s.outbox) == {21}
    ensures 1 in s.txs && s.txs[1].events == map[11 := EventOf(Note(1))]
  {
    hide IsRun, IsBatch;
    var before, s2 := OneEmission();
    RunThenStep(Start, before, s2, OpenTx(2));
    var s3 := Apply(s2, OpenTx(2));
    RunThenStep(Start, before + [OpenTx(2)], s3, Emit(2, Note(2), 20, 21));
    var s4 := Apply(s3, Emit(2, Note(2), 20, 21));
    RunThenStep(Start, before + [OpenTx(2)] + [Emit(2, Note(2), 20, 21)], s4, CommitTx(2));
    s := Apply(s4, CommitTx(2));
    steps := before + [OpenTx(2)] + [Emit(2, Note(2), 20, 21)] + [CommitTx(2)];
    assert s.outbox == map[21 := EventOf(Note(2))];
  }

  lemma OneMessage(outbox: map<Id, OutboxRow>, e: Id)
    requires e in outbox
    ensures Messages(outbox, [e]) == [MessageOf(e, outbox[e])]
  {
    assert [e][..0] == [];
  }
}
