/** What the requests on alerts write (api/v1/alerts.py), column by column and over every run. */
module AlertColumns {
  import opened Prelude
  import opened Alerts

  /** Every row but this one is as it was. */
  ghost predicate OnlyAt(s: Store, s': Store, x: Id) {
    forall a :: a != x ==> (a in s'.alerts <==> a in s.alerts) && (a in s.alerts ==> s'.alerts[a] == s.alerts[a])
  }

  predicate HasKeyOf(row: Alert, org: Org, b: AlertCreate) {
    row.key.org == org && row.key.kind == b.kind && row.key.source == b.source && row.key.sourceRef == b.sourceRef
  }

  /** The columns that a body always overwrites. */
  predicate Overwritten(row: Alert, b: AlertCreate) {
    && row.title == b.title && row.severity == b.severity && row.tlp == b.tlp && row.pap == b.pap
    && row.tags == b.tags && row.customFields == Some(b.customFields)
  }

  predicate IngestedFirst(row: Alert, org: Org, user: Id, b: AlertCreate) {
    && HasKeyOf(row, org, b) && Overwritten(row, b) && row.description == b.description
    && row.rawPayload == b.rawPayload && row.date == b.date && row.createdBy == user && row.status == New
    && row.caseId == None && row.importedAt == None
  }

  predicate IngestedAgain(before: Alert, row: Alert, b: AlertCreate) {
    && row.key == before.key && Overwritten(row, b)
    && row.date == before.date && row.createdBy == before.createdBy
    && row.caseId == before.caseId && row.importedAt == before.importedAt
    && row.description == (match b.description case Some(d) => Some(d) case None => before.description)
    && row.rawPayload == (match b.rawPayload case Some(j) => Some(j) case None => before.rawPayload)
    && row.status == match before.status
                     case New => Updated
                     case Updated => Updated
                     case Ignored => Ignored
                     case Imported => Imported
  }

  /** A column that may not be null, and one that may. */
  predicate Set<T(==)>(f: Field<T>, before: T, after: T) {
    match f case Unset => after == before case To(value) => after == value case Null => false
  }

  predicate SetOrNull<T(==)>(f: Field<T>, before: Option<T>, after: Option<T>) {
    match f case Unset => after == before case To(value) => after == Some(value) case Null => after == None
  }

  predicate PatchedRow(before: Alert, row: Alert, p: AlertPatch) {
    && Set(p.title, before.title, row.title) && SetOrNull(p.description, before.description, row.description)
    && Set(p.severity, before.severity, row.severity) && Set(p.tlp, before.tlp, row.tlp)
    && Set(p.pap, before.pap, row.pap) && Set(p.status, before.status, row.status) && Set(p.tags, before.tags, row.tags)
    && SetOrNull(p.customFields, before.customFields, row.customFields)
    && row.key == before.key && row.date == before.date && row.rawPayload == before.rawPayload
    && row.caseId == before.caseId && row.importedAt == before.importedAt && row.createdBy == before.createdBy
  }

  predicate LinkedRow(before: Alert, row: Alert, caseId: Id, now: int) {
    && row.caseId == Some(caseId) && row.status == Imported && row.importedAt == Some(now)
    && row.key == before.key && row.title == before.title && row.description == before.description
    && row.severity == before.severity && row.tlp == before.tlp && row.pap == before.pap && row.date == before.date
    && row.tags == before.tags && row.customFields == before.customFields && row.rawPayload == before.rawPayload
    && row.createdBy == before.createdBy
  }

  /** The case of a promotion: the alert's columns, but for a title and a severity that are given. */
  ghost predicate PromotedCase(c: Case, a: Alert, org: Org, user: Id, title: Option<string>,
                               severity: Option<Severity>) {
    && c.org == org && c.createdBy == user && c.status == "Open" && c.stage == "open" && !c.deleted
    && c.title == (match title case Some(t) => if t == "" then a.title else t case None => a.title)
    && c.severity == (match severity case Some(v) => v case None => a.severity)
    && c.description == a.description && c.tlp == a.tlp && c.pap == a.pap && c.tags == a.tags
    && Some(c.customFields) == a.customFields
  }

  /** The number is the first after those of the organization's cases. */
  ghost predicate NextAfter(cases: map<Id, Case>, org: Org, n: int) {
    && (forall c :: c in cases && cases[c].org == org ==> cases[c].number < n)
    && (n == 1 || exists c :: c in cases && cases[c].org == org && cases[c].number == n - 1)
  }

  predicate Seen(s: Store, org: Org, a: Id) { a in s.alerts && s.alerts[a].key.org == org }

  ghost predicate IngestWrites(s: Store, org: Org, user: Id, newId: Id, b: AlertCreate, s': Store) {
    && s'.cases == s.cases
    && (forall a :: a in s.alerts && HasKeyOf(s.alerts[a], org, b) ==>
          a in s'.alerts && IngestedAgain(s.alerts[a], s'.alerts[a], b) && OnlyAt(s, s', a))
    && ((forall a :: a in s.alerts ==> !HasKeyOf(s.alerts[a], org, b)) ==>
          && newId !in s.alerts && newId in s'.alerts && IngestedFirst(s'.alerts[newId], org, user, b)
          && OnlyAt(s, s', newId))
  }

  ghost predicate BulkWrites(s: Store, org: Org, ids: set<Id>, p: AlertPatch, s': Store) {
    && s'.cases == s.cases && s'.alerts.Keys == s.alerts.Keys
    && forall a :: a in s.alerts ==>
         if a in ids && s.alerts[a].key.org == org then PatchedRow(s.alerts[a], s'.alerts[a], p)
         else s'.alerts[a] == s.alerts[a]
  }

  ghost predicate PromoteWrites(s: Store, org: Org, user: Id, a: Id, newId: Id, title: Option<string>,
                                severity: Option<Severity>, now: int, s': Store) {
    && Seen(s, org, a) && a in s'.alerts && LinkedRow(s.alerts[a], s'.alerts[a], newId, now) && OnlyAt(s, s', a)
    && newId !in s.cases && newId in s'.cases && s'.cases == s.cases[newId := s'.cases[newId]]
    && PromotedCase(s'.cases[newId], s.alerts[a], org, user, title, severity)
    && NextAfter(s.cases, org, s'.cases[newId].number)
  }

  /** What a request that succeeds writes, and that it touches nothing else. */
  ghost predicate Writes(s: Store, r: Request, s': Store) {
    match r
    case Ingest(org, user, newId, b) => IngestWrites(s, org, user, newId, b, s')
    case Patch(org, a, p) =>
      && s'.cases == s.cases && Seen(s, org, a) && a in s'.alerts && PatchedRow(s.alerts[a], s'.alerts[a], p)
      && OnlyAt(s, s', a)
    case BulkPatch(org, ids, p) => BulkWrites(s, org, ids, p, s')
    case Promote(org, user, a, newId, title, severity, now) =>
      PromoteWrites(s, org, user, a, newId, title, severity, now, s')
    case Merge(org, a, c, now) =>
      && s'.cases == s.cases && Seen(s, org, a) && a in s'.alerts && LinkedRow(s.alerts[a], s'.alerts[a], c, now)
      && OnlyAt(s, s', a) && c in s.cases && s.cases[c].org == org && !s.cases[c].deleted
    case Delete(org, a) => s'.cases == s.cases && Seen(s, org, a) && a !in s'.alerts && OnlyAt(s, s', a)
    case _ => s'.alerts == s.alerts
  }

  /** Which refusal it is; nothing is written then. */
  ghost predicate Refuses(s: Store, r: Request, s': Store, answer: Response) {
    && s' == s
    && match r
       case Patch(org, a, _) => answer.NotFound? <==> !Seen(s, org, a)
       case Delete(org, a) => answer.NotFound? <==> !Seen(s, org, a)
       case Promote(org, _, a, _, _, _, _) =>
         && (answer.NotFound? <==> !Seen(s, org, a))
         && (answer.Conflict? <==> Seen(s, org, a) && s.alerts[a].caseId.Some?)
       case Merge(org, a, _, _) =>
         && (answer == NotFound("alert_not_found") <==> !Seen(s, org, a))
         && (answer.Conflict? <==> Seen(s, org, a) && s.alerts[a].caseId.Some?)
       case _ => answer == ServerError
  }

  lemma ReingestedIs(a: Alert, b: AlertCreate)
    ensures IngestedAgain(a, Reingested(a, b), b)
  {
  }

  lemma NewAlertIs(org: Org, user: Id, b: AlertCreate)
    ensures IngestedFirst(NewAlert(org, user, b), org, user, b)
  {
  }

  lemma KeysAre(s: Store, org: Org, b: AlertCreate)
    ensures forall a :: a in s.alerts ==> (HasKeyOf(s.alerts[a], org, b) <==> s.alerts[a].key == KeyOf(org, b))
  {
  }

  lemma IngestWritesIt(s: Store, org: Org, user: Id, newId: Id, b: AlertCreate, s': Store)
    requires Valid(s) && IsIngest(s, org, user, newId, b, s')
    ensures IngestWrites(s, org, user, newId, b, s')
  {
    KeysAre(s, org, b);
    NewAlertIs(org, user, b);
    hide RowsOk, NumbersUnique, KeyOf, HasKeyOf, NewAlert, IngestedFirst, Reingested, IngestedAgain;
    var k := KeyOf(org, b);
    if HasKey(s, k) {
      var a :| MatchesKey(s, k, a) && s' == WithAlert(s, a, Reingested(s.alerts[a], b));
      ReingestedIs(s.alerts[a], b);
      assert forall x :: x in s.alerts && s.alerts[x].key == k ==> x == a;
    }
  }

  lemma PatchedIs(a: Alert, p: AlertPatch)
    requires !BreaksNotNull(p)
    ensures PatchedRow(a, Patched(a, p), p)
  {
  }

  lemma EmptyIs(a: Alert)
    ensures PatchedRow(a, a, EmptyPatch)
  {
  }

  lemma BulkWritesIt(s: Store, org: Org, ids: set<Id>, p: AlertPatch, s': Store)
    requires (s', Done) == BulkResult(s, org, ids, p)
    ensures BulkWrites(s, org, ids, p, s')
  {
    forall a | a in s.alerts
      ensures && a in s'.alerts
              && if a in ids && s.alerts[a].key.org == org then PatchedRow(s.alerts[a], s'.alerts[a], p)
                 else s'.alerts[a] == s.alerts[a]
    {
      if p == EmptyPatch {
        EmptyIs(s.alerts[a]);
      } else if !BreaksNotNull(p) {
        PatchedIs(s.alerts[a], p);
      }
      hide PatchedRow, Patched;
      assert a in BulkSelected(s, org, ids) <==> a in ids && s.alerts[a].key.org == org;
    }
    hide PatchedRow, Patched;
    assert s'.alerts.Keys == s.alerts.Keys;
  }

  lemma PromoteWritesIt(s: Store, r: Request, s': Store)
    requires r.Promote? && Step(s, r, s', Done) && Valid(s)
    ensures Writes(s, r, s')
  {
  }

  lemma PromoteRefuses(s: Store, r: Request, s': Store, answer: Response)
    requires r.Promote? && Step(s, r, s', answer) && answer != Done
    ensures Refuses(s, r, s', answer)
  {
    hide Linked, CaseFrom, CaseTitle, IsNextNumber;
  }

  lemma IngestStepWrites(s: Store, r: Request, s': Store, answer: Response)
    requires r.Ingest? && Step(s, r, s', answer) && Valid(s)
    ensures answer == Done && Writes(s, r, s')
  {
    hide IsIngest, IngestWrites, Valid;
    IngestWritesIt(s, r.org, r.user, r.newId, r.body, s');
  }

  lemma PatchStepWrites(s: Store, r: Request, s': Store, answer: Response)
    requires r.Patch? && Step(s, r, s', answer)
    ensures if answer == Done then Writes(s, r, s') else Refuses(s, r, s', answer)
  {
    if answer == Done {
      PatchedIs(s.alerts[r.alert], r.patch);
    }
    hide PatchedRow;
  }

  lemma BulkStepWrites(s: Store, r: Request, s': Store, answer: Response)
    requires r.BulkPatch? && Step(s, r, s', answer)
    ensures if answer == Done then Writes(s, r, s') else Refuses(s, r, s', answer)
  {
    if answer == Done {
      BulkWritesIt(s, r.org, r.ids, r.patch, s');
    }
    hide BulkWrites, BulkPatched;
  }

  lemma OtherStepWrites(s: Store, r: Request, s': Store, answer: Response)
    requires (r.Merge? || r.Delete? || r.OpenCase? || r.RemoveCase?) && Step(s, r, s', answer)
    ensures if answer == Done then Writes(s, r, s') else Refuses(s, r, s', answer)
  {
    hide IsNextNumber;
  }

  lemma StepWrites(s: Store, r: Request, s': Store, answer: Response)
    requires Valid(s) && Step(s, r, s', answer)
    ensures if answer == Done then Writes(s, r, s') else Refuses(s, r, s', answer)
  {
    hide *;
    match r {
      case Ingest(_, _, _, _) => IngestStepWrites(s, r, s', answer);
      case Patch(_, _, _) => PatchStepWrites(s, r, s', answer);
      case BulkPatch(_, _, _) => BulkStepWrites(s, r, s', answer);
      case Promote(_, _, _, _, _, _, _) =>
        if answer == Done {
          PromoteWritesIt(s, r, s');
        } else {
          PromoteRefuses(s, r, s', answer);
        }
      case _ => OtherStepWrites(s, r, s', answer);
    }
  }

  /** Over every run: a request that succeeds writes these columns and no others, and a refusal is the right one and
      writes nothing. */
  lemma RequestWrites(trace: seq<Entry>, n: nat)
    requires IsRun(Start, trace) && n < |trace|
    ensures var s, e := StateAt(Start, trace, n), trace[n];
            if e.answer == Done then Writes(s, e.request, e.after) else Refuses(s, e.request, e.after, e.answer)
  {
    hide Writes, Refuses, Step;
    StepAt(Start, trace, n);
    StepWrites(StateAt(Start, trace, n), trace[n].request, trace[n].after, trace[n].answer);
  }
}
