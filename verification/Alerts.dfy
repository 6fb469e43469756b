/** The alert table (api/v1/alerts.py): ingestion, patching, promotion to cases and merging, one request at a time. */
module Alerts {
  import opened Prelude

  /* ---------- rows and request bodies ---------- */

  type Id = nat
  type Org = nat
  type Json = map<string, string>
  type Severity = n: nat | 1 <= n <= 4 witness 1
  type Title = s: string | 1 <= |s| <= 500 witness "t"

  datatype Tlp = TlpWhite | TlpGreen | TlpAmber | TlpAmberStrict | TlpRed
  datatype Pap = PapWhite | PapGreen | PapAmber | PapRed
  datatype Status = New | Updated | Ignored | Imported

  /** What the unique constraint of the table is on. */
  datatype Key = Key(org: Org, kind: string, source: string, sourceRef: string)

  /** `customFields` is None for the JSON value null, which a bulk patch can store in the column. */
  datatype Alert = Alert(
    key: Key, title: Title, description: Option<string>, severity: Severity, tlp: Tlp, pap: Pap, status: Status,
    date: Option<int>, tags: seq<string>, customFields: Option<Json>, rawPayload: Option<Json>,
    caseId: Option<Id>, importedAt: Option<int>, createdBy: Id)

  datatype Case = Case(
    org: Org, number: int, title: Title, description: Option<string>, severity: Severity, tlp: Tlp, pap: Pap,
    status: string, stage: string, tags: seq<string>, customFields: Json, createdBy: Id, deleted: bool)

  datatype AlertCreate = AlertCreate(
    kind: string, source: string, sourceRef: string, title: Title, description: Option<string>, severity: Severity,
    tlp: Tlp, pap: Pap, date: Option<int>, tags: seq<string>, customFields: Json, rawPayload: Option<Json>)

  /** A field of a patch: left out, null, or a value. */
  datatype Field<T> = Unset | Null | To(value: T)

  datatype AlertPatch = AlertPatch(
    title: Field<Title>, description: Field<string>, severity: Field<Severity>, tlp: Field<Tlp>, pap: Field<Pap>,
    status: Field<Status>, tags: Field<seq<string>>, customFields: Field<Json>)

  const EmptyPatch := AlertPatch(Unset, Unset, Unset, Unset, Unset, Unset, Unset, Unset)

  datatype Response = Done | NotFound(detail: string) | Conflict(reason: string) | ServerError

  /** Both tables, and the identifiers given out so far: a new row never takes an old one. */
  datatype Store = Store(alerts: map<Id, Alert>, cases: map<Id, Case>, used: set<Id>)

  /* ---------- the effect of each request on one row ---------- */

  function KeyOf(org: Org, b: AlertCreate): Key { Key(org, b.kind, b.source, b.sourceRef) }

  function NewAlert(org: Org, user: Id, b: AlertCreate): Alert {
    Alert(KeyOf(org, b), b.title, b.description, b.severity, b.tlp, b.pap, New, b.date, b.tags, Some(b.customFields),
          b.rawPayload, None, None, user)
  }

  function Reingested(a: Alert, b: AlertCreate): Alert {
    a.(title := b.title,
       description := if b.description.Some? then b.description else a.description,
       severity := b.severity, tlp := b.tlp, pap := b.pap, tags := b.tags, customFields := Some(b.customFields),
       rawPayload := if b.rawPayload.Some? then b.rawPayload else a.rawPayload,
       status := if a.status.New? || a.status.Updated? then Updated else a.status)
  }

  /** Null in a column that does not take it: the flush fails. */
  predicate BreaksNotNull(p: AlertPatch) {
    p.title.Null? || p.severity.Null? || p.tlp.Null? || p.pap.Null? || p.status.Null? || p.tags.Null?
  }

  function Or<T>(f: Field<T>, current: T): T { if f.To? then f.value else current }

  function OrNull<T>(f: Field<T>, current: Option<T>): Option<T> {
    if f.To? then Some(f.value) else if f.Null? then None else current
  }

  function Patched(a: Alert, p: AlertPatch): Alert
    requires !BreaksNotNull(p)
  {
    a.(title := Or(p.title, a.title), description := OrNull(p.description, a.description),
       severity := Or(p.severity, a.severity), tlp := Or(p.tlp, a.tlp), pap := Or(p.pap, a.pap),
       status := Or(p.status, a.status), tags := Or(p.tags, a.tags),
       customFields := OrNull(p.customFields, a.customFields))
  }

  /** One assignment to a field. */
  datatype Change =
    | SetTitle(title: Title)
    | SetDescription(description: Option<string>)
    | SetSeverity(severity: Severity)
    | SetTlp(tlp: Tlp)
    | SetPap(pap: Pap)
    | SetStatus(status: Status)
    | SetTags(tags: seq<string>)
    | SetCustomFields(customFields: Option<Json>)

  function SetAttr(a: Alert, c: Change): Alert {
    match c
    case SetTitle(t) => a.(title := t)
    case SetDescription(d) => a.(description := d)
    case SetSeverity(s) => a.(severity := s)
    case SetTlp(t) => a.(tlp := t)
    case SetPap(p) => a.(pap := p)
    case SetStatus(s) => a.(status := s)
    case SetTags(t) => a.(tags := t)
    case SetCustomFields(f) => a.(customFields := f)
  }

  function SetAll(a: Alert, changes: seq<Change>): Alert
    decreases |changes|
  {
    if changes == [] then a else SetAll(SetAttr(a, changes[0]), changes[1..])
  }

  function Sent<T>(f: Field<T>, change: T -> Change): seq<Change> { if f.To? then [change(f.value)] else [] }

  function SentOrNull<T>(f: Field<T>, change: Option<T> -> Change): seq<Change> {
    if f.To? then [change(Some(f.value))] else if f.Null? then [change(None)] else []
  }

  /** The fields that were sent, in the order of their declaration. */
  function Items(p: AlertPatch): seq<Change> {
    Sent(p.title, t => SetTitle(t)) + (SentOrNull(p.description, d => SetDescription(d))
    + (Sent(p.severity, s => SetSeverity(s)) + (Sent(p.tlp, t => SetTlp(t)) + LastItems(p))))
  }

  function LastItems(p: AlertPatch): seq<Change> {
    Sent(p.pap, v => SetPap(v)) + (Sent(p.status, s => SetStatus(s)) + (Sent(p.tags, t => SetTags(t))
    + SentOrNull(p.customFields, f => SetCustomFields(f))))
  }

  lemma SetFirst(a: Alert, first: seq<Change>, rest: seq<Change>)
    requires |first| <= 1
    ensures SetAll(a, first + rest) == SetAll(if first == [] then a else SetAttr(a, first[0]), rest)
  {
    assert first == [] ==> first + rest == rest;
    assert first != [] ==> (first + rest)[1..] == rest;
  }

  lemma LastItemsSet(a: Alert, p: AlertPatch)
    ensures SetAll(a, LastItems(p))
            == a.(pap := Or(p.pap, a.pap), status := Or(p.status, a.status), tags := Or(p.tags, a.tags),
                  customFields := OrNull(p.customFields, a.customFields))
  {
    var fields := SentOrNull(p.customFields, f => SetCustomFields(f));
    var tags := Sent(p.tags, t => SetTags(t));
    var status := Sent(p.status, s => SetStatus(s));
    var a1 := a.(pap := Or(p.pap, a.pap));
    var a2 := a1.(status := Or(p.status, a.status));
    var a3 := a2.(tags := Or(p.tags, a.tags));
    hide SetAll;
    SetFirst(a, Sent(p.pap, v => SetPap(v)), status + (tags + fields));
    SetFirst(a1, status, tags + fields);
    SetFirst(a2, tags, fields);
    SetFirst(a3, fields, []);
    assert fields + [] == fields;
    SetNothing(if fields == [] then a3 else SetAttr(a3, fields[0]));
  }

  lemma SetNothing(a: Alert)
    ensures SetAll(a, []) == a
  {
  }

  /** Assigning the fields that were sent one by one, as the code does, patches the row. */
  lemma ItemsPatch(a: Alert, p: AlertPatch)
    requires !BreaksNotNull(p)
    ensures SetAll(a, Items(p)) == Patched(a, p)
  {
    var last := LastItems(p);
    var tlp := Sent(p.tlp, t => SetTlp(t));
    var severity := Sent(p.severity, s => SetSeverity(s));
    var description := SentOrNull(p.description, d => SetDescription(d));
    var a1 := a.(title := Or(p.title, a.title));
    var a2 := a1.(description := OrNull(p.description, a.description));
    var a3 := a2.(severity := Or(p.severity, a.severity));
    hide SetAll, LastItems;
    SetFirst(a, Sent(p.title, t => SetTitle(t)), description + (severity + (tlp + last)));
    SetFirst(a1, description, severity + (tlp + last));
    SetFirst(a2, severity, tlp + last);
    SetFirst(a3, tlp, last);
    LastItemsSet(a3.(tlp := Or(p.tlp, a.tlp)), p);
  }

  function Linked(a: Alert, caseId: Id, now: int): Alert {
    a.(caseId := Some(caseId), status := Imported, importedAt := Some(now))
  }

  function CaseTitle(title: Option<string>, a: Alert): string {
    if title.Some? && title.value != "" then title.value else a.title
  }

  function CaseFrom(a: Alert, number: int, title: Title, severity: Option<Severity>, user: Id): Case
    requires a.customFields.Some?
  {
    Case(a.key.org, number, title, a.description, if severity.Some? then severity.value else a.severity, a.tlp, a.pap,
         "Open", "open", a.tags, a.customFields.value, user, false)
  }

  /* ---------- requests ---------- */

  datatype Request =
    | Ingest(org: Org, user: Id, newId: Id, body: AlertCreate)
    | Patch(org: Org, alert: Id, patch: AlertPatch)
    | BulkPatch(org: Org, ids: set<Id>, patch: AlertPatch)
    | Promote(org: Org, user: Id, alert: Id, newId: Id, title: Option<string>, severity: Option<Severity>, now: int)
    | Merge(org: Org, alert: Id, caseId: Id, now: int)
    | Delete(org: Org, alert: Id)
    | OpenCase(newId: Id, row: Case)
    | RemoveCase(caseId: Id)

  predicate Visible(s: Store, org: Org, alert: Id) { alert in s.alerts && s.alerts[alert].key.org == org }

  predicate MatchesKey(s: Store, k: Key, a: Id) { a in s.alerts && s.alerts[a].key == k }

  predicate HasKey(s: Store, k: Key) { exists a :: a in s.alerts && s.alerts[a].key == k }

  /** One more than the largest number of the organization's cases, deleted ones included; one if there are none. */
  ghost predicate IsNextNumber(cases: map<Id, Case>, org: Org, n: int) {
    && (forall c :: c in cases && cases[c].org == org ==> cases[c].number < n)
    && if exists c :: c in cases && cases[c].org == org
       then exists c :: c in cases && cases[c].org == org && cases[c].number == n - 1
       else n == 1
  }

  function WithAlert(s: Store, id: Id, a: Alert): Store { s.(alerts := s.alerts[id := a], used := s.used + {id}) }

  function WithCase(s: Store, id: Id, c: Case): Store { s.(cases := s.cases[id := c], used := s.used + {id}) }

  function BulkSelected(s: Store, org: Org, ids: set<Id>): set<Id> { set a | a in ids && Visible(s, org, a) }

  function BulkPatched(alerts: map<Id, Alert>, selected: set<Id>, p: AlertPatch): map<Id, Alert>
    requires selected != {} ==> !BreaksNotNull(p)
  {
    map a | a in alerts :: if a in selected then Patched(alerts[a], p) else alerts[a]
  }

  function PatchResult(s: Store, org: Org, alert: Id, p: AlertPatch): (Store, Response) {
    if !Visible(s, org, alert) then (s, NotFound("alert_not_found"))
    else if BreaksNotNull(p) || Patched(s.alerts[alert], p).customFields.None? then (s, ServerError)
    else (WithAlert(s, alert, Patched(s.alerts[alert], p)), Done)
  }

  function BulkResult(s: Store, org: Org, ids: set<Id>, p: AlertPatch): (Store, Response) {
    var selected := BulkSelected(s, org, ids);
    if p == EmptyPatch || selected == {} then (s, Done)
    else if BreaksNotNull(p) then (s, ServerError)
    else (s.(alerts := BulkPatched(s.alerts, selected, p)), Done)
  }

  function PromoteResult(s: Store, org: Org, user: Id, alert: Id, newId: Id, title: Option<string>,
                         severity: Option<Severity>, now: int, number: int): (Store, Response)
  {
    if !Visible(s, org, alert) then (s, NotFound("alert_not_found"))
    else
      var a := s.alerts[alert];
      if a.caseId.Some? then (s, Conflict("alert_already_promoted"))
      else if a.customFields.None? || |CaseTitle(title, a)| > 500 then (s, ServerError)
      else
        var c := CaseFrom(a, number, CaseTitle(title, a), severity, user);
        (WithAlert(WithCase(s, newId, c), alert, Linked(a, newId, now)), Done)
  }

  function MergeResult(s: Store, org: Org, alert: Id, caseId: Id, now: int): (Store, Response) {
    if !Visible(s, org, alert) then (s, NotFound("alert_not_found"))
    else
      var a := s.alerts[alert];
      if a.caseId.Some? then (s, Conflict("alert_already_linked_to_case"))
      else if !(caseId in s.cases && s.cases[caseId].org == org && !s.cases[caseId].deleted)
      then (s, NotFound("case_not_found"))
      else if a.customFields.None? then (s, ServerError)
      else (WithAlert(s, alert, Linked(a, caseId, now)), Done)
  }

  function DeleteResult(s: Store, org: Org, alert: Id): (Store, Response) {
    if !Visible(s, org, alert) then (s, NotFound("alert_not_found")) else (s.(alerts := s.alerts - {alert}), Done)
  }

  ghost predicate IsIngest(s: Store, org: Org, user: Id, newId: Id, b: AlertCreate, s': Store) {
    if HasKey(s, KeyOf(org, b))
    then exists a :: MatchesKey(s, KeyOf(org, b), a) && s' == WithAlert(s, a, Reingested(s.alerts[a], b))
    else newId !in s.used && s' == WithAlert(s, newId, NewAlert(org, user, b))
  }

  /** One request and what it answers. Cases are also opened and soft-deleted by other endpoints. */
  ghost predicate Step(s: Store, r: Request, s': Store, answer: Response) {
    match r
    case Ingest(org, user, newId, b) => IsIngest(s, org, user, newId, b, s') && answer == Done
    case Patch(org, a, p) => (s', answer) == PatchResult(s, org, a, p)
    case BulkPatch(org, ids, p) => (s', answer) == BulkResult(s, org, ids, p)
    case Promote(org, user, a, newId, title, severity, now) =>
      newId !in s.used
      && exists n :: && (answer == Done ==> IsNextNumber(s.cases, org, n))
                     && (s', answer) == PromoteResult(s, org, user, a, newId, title, severity, now, n)
    case Merge(org, a, c, now) => (s', answer) == MergeResult(s, org, a, c, now)
    case Delete(org, a) => (s', answer) == DeleteResult(s, org, a)
    case OpenCase(newId, row) =>
      newId !in s.used && IsNextNumber(s.cases, row.org, row.number) && s' == WithCase(s, newId, row) && answer == Done
    case RemoveCase(c) =>
      c in s.cases && s' == s.(cases := s.cases[c := s.cases[c].(deleted := true)]) && answer == Done
  }

  /* ---------- what every step keeps ---------- */

  ghost predicate RowOk(cases: map<Id, Case>, a: Alert) {
    && (a.importedAt.Some? <==> a.caseId.Some?)
    && (a.caseId.Some? ==> a.caseId.value in cases && cases[a.caseId.value].org == a.key.org)
  }

  ghost predicate RowsOk(s: Store) { forall a :: a in s.alerts ==> RowOk(s.cases, s.alerts[a]) }

  ghost predicate KeysUnique(s: Store) {
    forall a, b :: a in s.alerts && b in s.alerts && s.alerts[a].key == s.alerts[b].key ==> a == b
  }

  ghost predicate NumbersUnique(s: Store) {
    forall c, d ::
      c in s.cases && d in s.cases && s.cases[c].org == s.cases[d].org && s.cases[c].number == s.cases[d].number
      ==> c == d
  }

  ghost predicate IdsUsed(s: Store) { s.alerts.Keys <= s.used && s.cases.Keys <= s.used }

  ghost predicate Valid(s: Store) { RowsOk(s) && KeysUnique(s) && NumbersUnique(s) && IdsUsed(s) }

  /** How a row may change while it exists: its key stays, and so does its case once there is one. */
  predicate Kept(a: Alert, b: Alert) {
    b.key == a.key && (a.caseId.Some? ==> b.caseId == a.caseId && b.importedAt == a.importedAt)
  }

  ghost predicate AlertsKept(s: Store, s': Store) {
    && (forall a :: a in s.alerts && a in s'.alerts ==> Kept(s.alerts[a], s'.alerts[a]))
    && (forall a :: a in s'.alerts && a !in s.alerts ==> a !in s.used)
  }

  ghost predicate CasesKept(s: Store, s': Store) {
    forall c :: c in s.cases ==> c in s'.cases && s'.cases[c] == s.cases[c].(deleted := s'.cases[c].deleted)
  }

  lemma PatchedKeeps(a: Alert, p: AlertPatch)
    requires !BreaksNotNull(p)
    ensures Kept(a, Patched(a, p)) && Patched(a, p).caseId == a.caseId && Patched(a, p).importedAt == a.importedAt
  {
  }

  ghost predicate Follows(s: Store, s': Store) { s.used <= s'.used && AlertsKept(s, s') && CasesKept(s, s') }

  lemma PutAlert(s: Store, id: Id, a: Alert)
    requires RowsOk(s) && KeysUnique(s) && IdsUsed(s) && RowOk(s.cases, a)
    requires if id in s.alerts then Kept(s.alerts[id], a) else id !in s.used && !HasKey(s, a.key)
    ensures var s' := WithAlert(s, id, a); RowsOk(s') && KeysUnique(s') && IdsUsed(s') && Follows(s, s')
  {
    hide RowOk;
  }

  lemma PutCase(s: Store, id: Id, c: Case)
    requires Valid(s) && id !in s.used && IsNextNumber(s.cases, c.org, c.number)
    ensures var s' := WithCase(s, id, c); Valid(s') && Follows(s, s')
  {
  }

  lemma DropCase(s: Store, c: Id)
    requires Valid(s) && c in s.cases
    ensures var s' := s.(cases := s.cases[c := s.cases[c].(deleted := true)]); Valid(s') && Follows(s, s')
  {
  }

  lemma PatchMany(s: Store, selected: set<Id>, p: AlertPatch)
    requires Valid(s) && !BreaksNotNull(p)
    ensures var s' := s.(alerts := BulkPatched(s.alerts, selected, p)); Valid(s') && Follows(s, s')
  {
    forall a | a in s.alerts
      ensures Kept(s.alerts[a], Patched(s.alerts[a], p)) && Patched(s.alerts[a], p).caseId == s.alerts[a].caseId
      ensures Patched(s.alerts[a], p).importedAt == s.alerts[a].importedAt
    {
      PatchedKeeps(s.alerts[a], p);
    }
    hide Patched;
  }

  lemma LinkKeeps(s: Store, alert: Id, caseId: Id, now: int)
    requires Valid(s) && alert in s.alerts && s.alerts[alert].caseId.None?
    requires caseId in s.cases && s.cases[caseId].org == s.alerts[alert].key.org
    ensures var s' := WithAlert(s, alert, Linked(s.alerts[alert], caseId, now)); Valid(s') && Follows(s, s')
  {
    PutAlert(s, alert, Linked(s.alerts[alert], caseId, now));
  }

  lemma IngestKeeps(s: Store, org: Org, user: Id, newId: Id, b: AlertCreate, s': Store)
    requires Valid(s) && IsIngest(s, org, user, newId, b, s')
    ensures Valid(s') && Follows(s, s')
  {
    if HasKey(s, KeyOf(org, b)) {
      var a :| MatchesKey(s, KeyOf(org, b), a) && s' == WithAlert(s, a, Reingested(s.alerts[a], b));
      assert RowOk(s.cases, s.alerts[a]);
      PutAlert(s, a, Reingested(s.alerts[a], b));
    } else {
      assert newId !in s.alerts;
      PutAlert(s, newId, NewAlert(org, user, b));
    }
  }

  lemma PatchKeeps(s: Store, org: Org, alert: Id, p: AlertPatch)
    requires Valid(s)
    ensures Valid(PatchResult(s, org, alert, p).0) && Follows(s, PatchResult(s, org, alert, p).0)
  {
    if PatchResult(s, org, alert, p).1 == Done {
      PatchedKeeps(s.alerts[alert], p);
      assert RowOk(s.cases, s.alerts[alert]);
      PutAlert(s, alert, Patched(s.alerts[alert], p));
    }
  }

  lemma PromoteKeeps(s: Store, org: Org, user: Id, alert: Id, newId: Id, title: Option<string>,
                     severity: Option<Severity>, now: int, n: int)
    requires Valid(s) && newId !in s.used
    requires PromoteResult(s, org, user, alert, newId, title, severity, now, n).1 == Done
             ==> IsNextNumber(s.cases, org, n)
    ensures var s' := PromoteResult(s, org, user, alert, newId, title, severity, now, n).0; Valid(s') && Follows(s, s')
  {
    hide Valid, Follows, IsNextNumber;
    if PromoteResult(s, org, user, alert, newId, title, severity, now, n).1 == Done {
      var c := CaseFrom(s.alerts[alert], n, CaseTitle(title, s.alerts[alert]), severity, user);
      PutCase(s, newId, c);
      LinkKeeps(WithCase(s, newId, c), alert, newId, now);
      FollowsTwice(s, WithCase(s, newId, c),
                   WithAlert(WithCase(s, newId, c), alert, Linked(s.alerts[alert], newId, now)));
    }
    SelfFollows(s);
  }

  lemma SelfFollows(s: Store)
    ensures Follows(s, s)
  {
  }

  lemma FollowsTwice(s: Store, t: Store, u: Store)
    requires Follows(s, t) && Follows(t, u) && s.alerts.Keys == t.alerts.Keys
    ensures Follows(s, u)
  {
  }

  /** Every request keeps the store valid, every row's key and case link, and every case. */
  lemma StepKeeps(s: Store, r: Request, s': Store, answer: Response)
    requires Step(s, r, s', answer) && Valid(s)
    ensures Valid(s') && Follows(s, s')
  {
    hide Valid, Follows, IsNextNumber, IsIngest;
    SelfFollows(s);
    match r
    case Ingest(org, user, newId, b) => IngestKeeps(s, org, user, newId, b, s');
    case Patch(org, a, p) => PatchKeeps(s, org, a, p);
    case BulkPatch(org, ids, p) =>
      if !BreaksNotNull(p) {
        PatchMany(s, BulkSelected(s, org, ids), p);
      }
    case Promote(org, user, a, newId, title, severity, now) =>
      var n :| && (answer == Done ==> IsNextNumber(s.cases, org, n))
               && (s', answer) == PromoteResult(s, org, user, a, newId, title, severity, now, n);
      PromoteKeeps(s, org, user, a, newId, title, severity, now, n);
    case Merge(org, a, c, now) =>
      if answer == Done {
        LinkKeeps(s, a, c, now);
      }
    case Delete(org, a) => DeleteKeeps(s, a);
    case OpenCase(newId, row) => PutCase(s, newId, row);
    case RemoveCase(c) => DropCase(s, c);
  }

  lemma DeleteKeeps(s: Store, alert: Id)
    requires Valid(s)
    ensures var s' := s.(alerts := s.alerts - {alert}); Valid(s') && Follows(s, s')
  {
  }

  /* ---------- runs ---------- */

  const Start := Store(map[], map[], {})

  datatype Entry = Entry(request: Request, after: Store, answer: Response)

  ghost predicate IsRun(s: Store, trace: seq<Entry>)
    decreases |trace|
  {
    trace == [] || (Step(s, trace[0].request, trace[0].after, trace[0].answer) && IsRun(trace[0].after, trace[1..]))
  }

  function Final(s: Store, trace: seq<Entry>): Store { if trace == [] then s else trace[|trace| - 1].after }

  lemma FinalOfRest(s: Store, trace: seq<Entry>)
    requires trace != []
    ensures Final(trace[0].after, trace[1..]) == Final(s, trace)
  {
  }

  lemma {:induction false} RunKeeps(s: Store, trace: seq<Entry>)
    requires Valid(s) && IsRun(s, trace)
    ensures Valid(Final(s, trace)) && s.used <= Final(s, trace).used && CasesKept(s, Final(s, trace))
    decreases |trace|
  {
    hide Valid, Step;
    if trace != [] {
      StepKeeps(s, trace[0].request, trace[0].after, trace[0].answer);
      FinalOfRest(s, trace);
      RunKeeps(trace[0].after, trace[1..]);
    }
  }

  /** Over every run, a row that is there at both ends kept its key and, once it had one, its case and import time; an
      identifier whose row is gone stays without. */
  lemma {:induction false} CaseLinkIsStable(s: Store, trace: seq<Entry>, a: Id)
    requires Valid(s) && IsRun(s, trace)
    ensures a in s.alerts && a in Final(s, trace).alerts ==> Kept(s.alerts[a], Final(s, trace).alerts[a])
    ensures a in s.used && a !in s.alerts ==> a !in Final(s, trace).alerts
    decreases |trace|
  {
    if trace != [] {
      StepKeeps(s, trace[0].request, trace[0].after, trace[0].answer);
      assert a in s.alerts ==> a in s.used;
      hide Valid, Step, CasesKept;
      FinalOfRest(s, trace);
      CaseLinkIsStable(trace[0].after, trace[1..], a);
    }
  }

  /** In every reachable store a row is imported exactly when it has a case, and that is a case of its organization;
      no two rows share a key and no two cases of an organization a number. */
  lemma ReachableStores(trace: seq<Entry>)
    requires IsRun(Start, trace)
    ensures var s := Final(Start, trace);
            && (forall a :: a in s.alerts ==> (s.alerts[a].importedAt.Some? <==> s.alerts[a].caseId.Some?))
            && (forall a :: a in s.alerts && s.alerts[a].caseId.Some?
                  ==> && s.alerts[a].caseId.value in s.cases
                      && s.cases[s.alerts[a].caseId.value].org == s.alerts[a].key.org)
            && (forall a, b :: a in s.alerts && b in s.alerts && s.alerts[a].key == s.alerts[b].key ==> a == b)
            && NumbersUnique(s)
  {
    RunKeeps(Start, trace);
    var s := Final(Start, trace);
    forall a | a in s.alerts
      ensures RowOk(s.cases, s.alerts[a])
    {
    }
  }

  /* ---------- cases created ---------- */

  predicate IsPromotion(e: Entry) { e.request.Promote? && e.answer == Done }

  function Promotions(trace: seq<Entry>): nat {
    if trace == [] then 0 else (if IsPromotion(trace[0]) then 1 else 0) + Promotions(trace[1..])
  }

  function Openings(trace: seq<Entry>): nat {
    if trace == [] then 0 else (if trace[0].request.OpenCase? then 1 else 0) + Openings(trace[1..])
  }

  lemma StepCounts(s: Store, e: Entry)
    requires Step(s, e.request, e.after, e.answer) && IdsUsed(s)
    ensures |e.after.cases| == |s.cases| + (if IsPromotion(e) then 1 else 0) + (if e.request.OpenCase? then 1 else 0)
  {
    hide IsIngest;
    match e.request
    case Ingest(org, user, newId, b) => IngestLeavesCases(s, org, user, newId, b, e.after);
    case _ =>
  }

  lemma IngestLeavesCases(s: Store, org: Org, user: Id, newId: Id, b: AlertCreate, s': Store)
    requires IsIngest(s, org, user, newId, b, s')
    ensures s'.cases == s.cases
  {
  }

  /** Besides those opened elsewhere, one case is created for each successful promotion, and none by anything else. */
  lemma {:induction false} CasesArePromotions(s: Store, trace: seq<Entry>)
    requires Valid(s) && IsRun(s, trace)
    ensures |Final(s, trace).cases| == |s.cases| + Promotions(trace) + Openings(trace)
    decreases |trace|
  {
    if trace != [] {
      StepCounts(s, trace[0]);
      StepKeeps(s, trace[0].request, trace[0].after, trace[0].answer);
      hide Valid, Step;
      FinalOfRest(s, trace);
      CasesArePromotions(trace[0].after, trace[1..]);
    }
  }

  predicate Links(e: Entry, a: Id) {
    e.answer == Done && ((e.request.Promote? && e.request.alert == a) || (e.request.Merge? && e.request.alert == a))
  }

  function TimesLinked(trace: seq<Entry>, a: Id): nat {
    if trace == [] then 0 else (if Links(trace[0], a) then 1 else 0) + TimesLinked(trace[1..], a)
  }

  predicate HasCase(s: Store, a: Id) { a in s.alerts && s.alerts[a].caseId.Some? }

  lemma IngestLeavesLinks(s: Store, org: Org, user: Id, newId: Id, b: AlertCreate, s': Store, a: Id)
    requires IsIngest(s, org, user, newId, b, s') && IdsUsed(s)
    ensures a in s'.alerts ==> HasCase(s', a) == HasCase(s, a)
  {
  }

  lemma StepLinks(s: Store, e: Entry, a: Id)
    requires Step(s, e.request, e.after, e.answer) && IdsUsed(s)
    ensures Links(e, a) ==> a in s.alerts && !HasCase(s, a) && HasCase(e.after, a)
    ensures a in e.after.alerts && !Links(e, a) ==> HasCase(e.after, a) == HasCase(s, a)
  {
    hide Patched, IsIngest, IsNextNumber;
    match e.request
    case Ingest(org, user, newId, b) => IngestLeavesLinks(s, org, user, newId, b, e.after, a);
    case Patch(_, alert, p) =>
      if e.answer == Done {
        PatchedKeeps(s.alerts[alert], p);
      }
    case BulkPatch(_, _, p) =>
      if a in s.alerts && !BreaksNotNull(p) {
        PatchedKeeps(s.alerts[a], p);
      }
    case _ =>
  }

  /** An alert is promoted or merged successfully at most once in its life; a surviving row has a case exactly if it
      was, or had one already. */
  lemma {:induction false} LinkedAtMostOnce(s: Store, trace: seq<Entry>, a: Id)
    requires Valid(s) && IsRun(s, trace)
    ensures TimesLinked(trace, a) <= if HasCase(s, a) || (a in s.used && a !in s.alerts) then 0 else 1
    ensures a in Final(s, trace).alerts ==>
              (HasCase(Final(s, trace), a) <==> HasCase(s, a) || TimesLinked(trace, a) == 1)
    decreases |trace|
  {
    if trace != [] {
      StepLinks(s, trace[0], a);
      StepKeeps(s, trace[0].request, trace[0].after, trace[0].answer);
      assert a in s.alerts ==> a in s.used;
      hide Valid, Step, CasesKept, Links;
      FinalOfRest(s, trace);
      CaseLinkIsStable(trace[0].after, trace[1..], a);
      LinkedAtMostOnce(trace[0].after, trace[1..], a);
    }
  }

  /* ---------- rows whose custom fields are null ---------- */

  /** The state a run is in before its i-th request. */
  function StateAt(s: Store, trace: seq<Entry>, i: nat): Store
    requires i <= |trace|
  {
    if i == 0 then s else trace[i - 1].after
  }

  /** A successful bulk patch with an explicit null selects the row. */
  ghost predicate NullsFields(s: Store, e: Entry, a: Id) {
    var r := e.request;
    e.answer == Done && r.BulkPatch? && r.patch.customFields.Null? && a in BulkSelected(s, r.org, r.ids)
  }

  /** A successful ingestion, patch or bulk patch writes a dictionary to the row. */
  ghost predicate FillsFields(s: Store, e: Entry, a: Id) {
    var r := e.request;
    && e.answer == Done
    && (|| (r.Ingest? &&
            if HasKey(s, KeyOf(r.org, r.body)) then MatchesKey(s, KeyOf(r.org, r.body), a) else a == r.newId)
        || (r.Patch? && r.alert == a && r.patch.customFields.To?)
        || (r.BulkPatch? && r.patch.customFields.To? && a in BulkSelected(s, r.org, r.ids)))
  }

  /** The last request that wrote the row's custom fields wrote null. */
  ghost predicate Nulled(s: Store, trace: seq<Entry>, n: nat, a: Id)
    requires n <= |trace|
  {
    exists i: nat :: i < n && NullsFields(StateAt(s, trace, i), trace[i], a) && !FilledSince(s, trace, i + 1, n, a)
  }

  ghost predicate FilledSince(s: Store, trace: seq<Entry>, from: nat, n: nat, a: Id)
    requires n <= |trace|
  {
    exists j: nat :: from <= j < n && FillsFields(StateAt(s, trace, j), trace[j], a)
  }

  predicate HasNullFields(s: Store, a: Id) { a in s.alerts && s.alerts[a].customFields.None? }

  lemma IngestFields(s: Store, e: Entry, a: Id)
    requires Step(s, e.request, e.after, e.answer) && Valid(s) && e.request.Ingest? && a in e.after.alerts
    ensures HasNullFields(e.after, a) <==> HasNullFields(s, a) && !FillsFields(s, e, a)
  {
    var r := e.request;
    var k := KeyOf(r.org, r.body);
    if HasKey(s, k) {
      var b :| MatchesKey(s, k, b) && e.after == WithAlert(s, b, Reingested(s.alerts[b], r.body));
      assert MatchesKey(s, k, a) ==> a == b;
    }
  }

  lemma BulkFields(s: Store, e: Entry, a: Id)
    requires Step(s, e.request, e.after, e.answer) && e.request.BulkPatch? && a in e.after.alerts
    ensures HasNullFields(e.after, a) <==> NullsFields(s, e, a) || (HasNullFields(s, a) && !FillsFields(s, e, a))
  {
    var p := e.request.patch;
    if a in s.alerts && !BreaksNotNull(p) {
      assert Patched(s.alerts[a], p).customFields == OrNull(p.customFields, s.alerts[a].customFields);
    }
    hide Patched;
  }

  lemma StepFields(s: Store, e: Entry, a: Id)
    requires Step(s, e.request, e.after, e.answer) && Valid(s) && a in e.after.alerts
    ensures HasNullFields(e.after, a) <==> NullsFields(s, e, a) || (HasNullFields(s, a) && !FillsFields(s, e, a))
  {
    hide IsNextNumber, IsIngest, Valid;
    match e.request
    case Ingest(_, _, _, _) => IngestFields(s, e, a);
    case BulkPatch(_, _, _) => BulkFields(s, e, a);
    case _ =>
  }

  lemma {:induction false} StepAt(s: Store, trace: seq<Entry>, n: nat)
    requires IsRun(s, trace) && Valid(s) && n < |trace|
    ensures var t := StateAt(s, trace, n); Valid(t) && Step(t, trace[n].request, trace[n].after, trace[n].answer)
    decreases n
  {
    hide Valid, Step;
    if n > 0 {
      StepKeeps(s, trace[0].request, trace[0].after, trace[0].answer);
      StepAt(trace[0].after, trace[1..], n - 1);
    }
  }

  lemma NulledStep(s: Store, trace: seq<Entry>, n: nat, a: Id)
    requires n < |trace|
    ensures var t := StateAt(s, trace, n);
            Nulled(s, trace, n + 1, a) <==>
            NullsFields(t, trace[n], a) || (Nulled(s, trace, n, a) && !FillsFields(t, trace[n], a))
  {
    hide NullsFields, FillsFields;
    if Nulled(s, trace, n, a) && !FillsFields(StateAt(s, trace, n), trace[n], a) {
      var i: nat :| i < n && NullsFields(StateAt(s, trace, i), trace[i], a) && !FilledSince(s, trace, i + 1, n, a);
      assert !FilledSince(s, trace, i + 1, n + 1, a);
    }
    if NullsFields(StateAt(s, trace, n), trace[n], a) {
      assert !FilledSince(s, trace, n + 1, n + 1, a);
    }
    if Nulled(s, trace, n + 1, a) && !NullsFields(StateAt(s, trace, n), trace[n], a) {
      var i: nat :| i < n + 1 && NullsFields(StateAt(s, trace, i), trace[i], a)
                 && !FilledSince(s, trace, i + 1, n + 1, a);
      assert !FilledSince(s, trace, i + 1, n, a);
    }
  }

  /** Before any request of any run, a row's custom fields are null exactly if the last successful request to write
      them was a bulk patch that wrote null; an ingestion or a patch with a dictionary repairs the row. */
  lemma {:induction false} NullFieldsExactlyWhen(trace: seq<Entry>, n: nat, a: Id)
    requires IsRun(Start, trace) && n <= |trace| && a in StateAt(Start, trace, n).alerts
    ensures HasNullFields(StateAt(Start, trace, n), a) <==> Nulled(Start, trace, n, a)
    decreases n
  {
    hide IsRun, Nulled, NullsFields, FillsFields;
    var m := n - 1;
    var t := StateAt(Start, trace, m);
    StepAt(Start, trace, m);
    StepFields(t, trace[m], a);
    NulledStep(Start, trace, m, a);
    if a in t.alerts {
      NullFieldsExactlyWhen(trace, m, a);
    } else {
      NewRowIsFilled(t, trace[m], a);
    }
  }

  lemma NewRowIsFilled(s: Store, e: Entry, a: Id)
    requires Step(s, e.request, e.after, e.answer) && a in e.after.alerts && a !in s.alerts
    ensures FillsFields(s, e, a)
  {
  }

  /** When a promotion in a run succeeds. */
  lemma PromotesExactlyWhen(trace: seq<Entry>, n: nat)
    requires IsRun(Start, trace) && n < |trace| && trace[n].request.Promote?
    ensures var s, r := StateAt(Start, trace, n), trace[n].request;
            trace[n].answer == Done
            <==> && Visible(s, r.org, r.alert) && !HasCase(s, r.alert) && |CaseTitle(r.title, s.alerts[r.alert])| <= 500
                 && !Nulled(Start, trace, n, r.alert)
  {
    hide IsRun, Nulled;
    StepAt(Start, trace, n);
    if Visible(StateAt(Start, trace, n), trace[n].request.org, trace[n].request.alert) {
      NullFieldsExactlyWhen(trace, n, trace[n].request.alert);
    }
  }

  lemma MergesExactlyWhen(trace: seq<Entry>, n: nat)
    requires IsRun(Start, trace) && n < |trace| && trace[n].request.Merge?
    ensures var s, r := StateAt(Start, trace, n), trace[n].request;
            trace[n].answer == Done
            <==> && Visible(s, r.org, r.alert) && !HasCase(s, r.alert)
                 && r.caseId in s.cases && s.cases[r.caseId].org == r.org && !s.cases[r.caseId].deleted
                 && !Nulled(Start, trace, n, r.alert)
  {
    hide IsRun, Nulled;
    StepAt(Start, trace, n);
    if Visible(StateAt(Start, trace, n), trace[n].request.org, trace[n].request.alert) {
      NullFieldsExactlyWhen(trace, n, trace[n].request.alert);
    }
  }

  lemma PatchesExactlyWhen(trace: seq<Entry>, n: nat)
    requires IsRun(Start, trace) && n < |trace| && trace[n].request.Patch?
    ensures var s, r := StateAt(Start, trace, n), trace[n].request;
            trace[n].answer == Done
            <==> && Visible(s, r.org, r.alert) && !BreaksNotNull(r.patch)
                 && (r.patch.customFields.To? || (r.patch.customFields.Unset? && !Nulled(Start, trace, n, r.alert)))
  {
    hide IsRun, Nulled;
    StepAt(Start, trace, n);
    if Visible(StateAt(Start, trace, n), trace[n].request.org, trace[n].request.alert) {
      NullFieldsExactlyWhen(trace, n, trace[n].request.alert);
    }
  }

  const Sample := AlertCreate("external", "siem", "alert-1", "Suspicious login", None, 3, TlpAmber, PapAmber, None,
                              [], map[], None)

  /** Such a row can be reached: an ingestion and a bulk patch, and then an unlinked alert with a short title cannot be
      promoted. */
  lemma NullFieldsBlockPromotion() returns (trace: seq<Entry>)
    ensures IsRun(Start, trace) && |trace| == 3 && trace[2].request.Promote? && trace[2].answer == ServerError
    ensures var s, r := StateAt(Start, trace, 2), trace[2].request;
            Visible(s, r.org, r.alert) && !HasCase(s, r.alert) && |CaseTitle(r.title, s.alerts[r.alert])| <= 500
  {
    hide IsNextNumber;
    var s1 := WithAlert(Start, 1, NewAlert(7, 8, Sample));
    var patch := EmptyPatch.(customFields := Null);
    assert BulkSelected(s1, 7, {1}) == {1};
    var s2 := BulkResult(s1, 7, {1}, patch).0;
    var e1 := Entry(Ingest(7, 8, 1, Sample), s1, Done);
    var e2 := Entry(BulkPatch(7, {1}, patch), s2, Done);
    var e3 := Entry(Promote(7, 8, 1, 2, None, None, 0), s2, ServerError);
    assert PromoteResult(s2, 7, 8, 1, 2, None, None, 0, 1) == (s2, ServerError);
    assert Step(Start, e1.request, s1, Done);
    assert Step(s1, e2.request, s2, Done);
    assert Step(s2, e3.request, s2, ServerError);
    hide Step;
    trace := [e1, e2, e3];
    assert trace[1..] == [e2, e3] && [e2, e3][1..] == [e3] && [e3][1..] == [];
    assert IsRun(s2, [e3]);
    assert IsRun(s1, [e2, e3]);
  }

  /* ---------- ingestion as a fold ---------- */

  datatype Posted = Posted(user: Id, body: AlertCreate)

  ghost predicate OnlyIngests(trace: seq<Entry>) { forall i :: 0 <= i < |trace| ==> trace[i].request.Ingest? }

  /** What was posted under a key, in order. */
  function PostedTo(trace: seq<Entry>, k: Key): seq<Posted> {
    if trace == [] then []
    else
      var r := trace[0].request;
      (if r.Ingest? && KeyOf(r.org, r.body) == k then [Posted(r.user, r.body)] else []) + PostedTo(trace[1..], k)
  }

  /** The last description that was not null. */
  function LastDescription(posted: seq<Posted>, before: Option<string>): Option<string> {
    if posted == [] then before
    else if posted[|posted| - 1].body.description.Some? then posted[|posted| - 1].body.description
    else LastDescription(posted[..|posted| - 1], before)
  }

  function LastPayload(posted: seq<Posted>, before: Option<Json>): Option<Json> {
    if posted == [] then before
    else if posted[|posted| - 1].body.rawPayload.Some? then posted[|posted| - 1].body.rawPayload
    else LastPayload(posted[..|posted| - 1], before)
  }

  /** What the row of an organization's key becomes: the overwritten fields as posted last, description and payload as
      last given, date and creator as posted first; New when posted once, Updated when more often, Ignored and
      Imported kept. */
  function Merged(org: Org, row: Option<Alert>, posted: seq<Posted>): Option<Alert> {
    if posted == [] then row
    else
      var b := posted[|posted| - 1].body;
      var first := if row.Some? then row.value else NewAlert(org, posted[0].user, posted[0].body);
      Some(first.(
        title := b.title, severity := b.severity, tlp := b.tlp, pap := b.pap, tags := b.tags,
        customFields := Some(b.customFields),
        description := LastDescription(posted, first.description), rawPayload := LastPayload(posted, first.rawPayload),
        status := if first.status.Ignored? || first.status.Imported? then first.status
                  else if row.None? && |posted| == 1 then New else Updated))
  }

  /** The row of a key, if any. */
  ghost predicate RowIs(s: Store, k: Key, row: Option<Alert>) {
    if row.None? then !HasKey(s, k) else exists a :: MatchesKey(s, k, a) && s.alerts[a] == row.value
  }

  lemma {:induction false} LastOfMore(p: Posted, posted: seq<Posted>, d: Option<string>, j: Option<Json>)
    ensures LastDescription([p] + posted, d)
            == LastDescription(posted, if p.body.description.Some? then p.body.description else d)
    ensures LastPayload([p] + posted, j)
            == LastPayload(posted, if p.body.rawPayload.Some? then p.body.rawPayload else j)
  {
    if posted == [] {
      assert [p] + posted == [p] && [p][..0] == [];
    } else {
      assert ([p] + posted)[..|posted|] == [p] + posted[..|posted| - 1];
      LastOfMore(p, posted[..|posted| - 1], d, j);
    }
  }

  function PostOne(org: Org, row: Option<Alert>, p: Posted): Alert {
    if row.Some? then Reingested(row.value, p.body) else NewAlert(org, p.user, p.body)
  }

  /** Posting first one body and then the rest. */
  lemma MergedStep(org: Org, row: Option<Alert>, p: Posted, rest: seq<Posted>)
    ensures Merged(org, row, [p] + rest) == Merged(org, Some(PostOne(org, row, p)), rest)
  {
    var first := if row.Some? then row.value else NewAlert(org, p.user, p.body);
    LastOfMore(p, rest, first.description, first.rawPayload);
    if rest != [] {
      assert ([p] + rest)[|rest|] == rest[|rest| - 1];
    }
  }

  lemma IngestStep(s: Store, org: Org, user: Id, newId: Id, b: AlertCreate, s': Store, k: Key, row: Option<Alert>)
    requires Valid(s) && IsIngest(s, org, user, newId, b, s') && RowIs(s, k, row)
    ensures RowIs(s', k, if KeyOf(org, b) == k then Some(PostOne(org, row, Posted(user, b))) else row)
  {
    if HasKey(s, KeyOf(org, b)) {
      var a :| MatchesKey(s, KeyOf(org, b), a) && s' == WithAlert(s, a, Reingested(s.alerts[a], b));
      assert MatchesKey(s', KeyOf(org, b), a);
      if row.Some? {
        var c :| MatchesKey(s, k, c) && s.alerts[c] == row.value;
        assert MatchesKey(s', k, c);
      }
    } else {
      assert MatchesKey(s', KeyOf(org, b), newId);
      if row.Some? {
        var c :| MatchesKey(s, k, c) && s.alerts[c] == row.value;
        assert MatchesKey(s', k, c);
      }
    }
  }

  /** Any sequence of ingestions leaves, for every key, the one row that what was posted to it merges to. */
  lemma {:induction false} IngestionIsAFold(s: Store, trace: seq<Entry>, k: Key, row: Option<Alert>)
    requires Valid(s) && IsRun(s, trace) && OnlyIngests(trace) && RowIs(s, k, row)
    ensures RowIs(Final(s, trace), k, Merged(k.org, row, PostedTo(trace, k)))
    decreases |trace|
  {
    if trace != [] {
      var r, t := trace[0].request, trace[0].after;
      StepKeeps(s, r, t, trace[0].answer);
      IngestStep(s, r.org, r.user, r.newId, r.body, t, k, row);
      FinalOfRest(s, trace);
      hide Valid, Step, RowIs, Merged, PostOne;
      if KeyOf(r.org, r.body) == k {
        var p := Posted(r.user, r.body);
        IngestionIsAFold(t, trace[1..], k, Some(PostOne(k.org, row, p)));
        MergedStep(k.org, row, p, PostedTo(trace[1..], k));
      } else {
        IngestionIsAFold(t, trace[1..], k, row);
        assert PostedTo(trace, k) == PostedTo(trace[1..], k);
      }
    }
  }

  /* ---------- the endpoints ---------- */

  lemma SetOneMore(a: Alert, changes: seq<Change>, k: nat)
    requires k < |changes|
    ensures SetAll(SetAttr(a, changes[k]), changes[k + 1..]) == SetAll(a, changes[k..])
  {
    assert changes[k..][1..] == changes[k + 1..];
  }

  /** setattr for each item of the patch. */
  method PatchRow(a: Alert, p: AlertPatch) returns (b: Alert)
    requires !BreaksNotNull(p)
    ensures b == Patched(a, p)
  {
    ItemsPatch(a, p);
    hide Patched, Items, SetAll, SetAttr;
    var items := Items(p);
    b := a;
    assert items[0..] == items;
    for k := 0 to |items|
      invariant SetAll(b, items[k..]) == Patched(a, p)
    {
      SetOneMore(b, items, k);
      b := SetAttr(b, items[k]);
    }
    SetNothing(b);
    assert items[|items|..] == [];
  }

  /** The loop over the selected rows, up to the flush: nothing is written if a value breaks a constraint. */
  method PatchRows(alerts: map<Id, Alert>, rows: seq<Id>, p: AlertPatch) returns (r: Option<map<Id, Alert>>)
    requires Distinct(rows) && forall a :: a in rows ==> a in alerts
    ensures r.None? <==> rows != [] && BreaksNotNull(p)
    ensures r.Some? ==> r.value == if rows == [] then alerts else BulkPatched(alerts, ToSet(rows), p)
  {
    hide Patched;
    var session := alerts;
    for k := 0 to |rows|
      invariant k > 0 ==> !BreaksNotNull(p)
      invariant session.Keys == alerts.Keys
      invariant forall a :: a in alerts && a !in rows[..k] ==> session[a] == alerts[a]
      invariant forall a :: a in rows[..k] ==> session[a] == Patched(alerts[a], p)
    {
      if BreaksNotNull(p) {
        return None;
      }
      var a := rows[k];
      assert rows[..k + 1] == rows[..k] + [a] && a !in rows[..k];
      var b := PatchRow(session[a], p);
      session := session[a := b];
    }
    assert rows[..|rows|] == rows;
    if rows != [] {
      assert session == BulkPatched(alerts, ToSet(rows), p);
    }
    return Some(session);
  }

  class Table {
    var alerts: map<Id, Alert>
    var cases: map<Id, Case>
    ghost var used: set<Id>

    constructor ()
      ensures State() == Start
    {
      alerts, cases, used := map[], map[], {};
    }

    ghost function State(): Store
      reads this
    {
      Store(alerts, cases, used)
    }

    method IngestAlert(org: Org, user: Id, newId: Id, b: AlertCreate) returns (answer: Response)
      requires Valid(State()) && newId !in used
      modifies this
      ensures Step(old(State()), Ingest(org, user, newId, b), State(), answer)
    {
      var k := Key(org, b.kind, b.source, b.sourceRef);
      if a: Id :| a in alerts && alerts[a].key == k {
        var row := alerts[a];
        row := row.(title := b.title);
        if b.description.Some? {
          row := row.(description := b.description);
        }
        row := row.(severity := b.severity, tlp := b.tlp, pap := b.pap, tags := b.tags,
                    customFields := Some(b.customFields));
        if b.rawPayload.Some? {
          row := row.(rawPayload := b.rawPayload);
        }
        if row.status == New || row.status == Updated {
          row := row.(status := Updated);
        }
        alerts := alerts[a := row];
        used := used + {a};
        assert MatchesKey(old(State()), k, a);
      } else {
        alerts := alerts[newId := Alert(k, b.title, b.description, b.severity, b.tlp, b.pap, New, b.date, b.tags,
                                        Some(b.customFields), b.rawPayload, None, None, user)];
        used := used + {newId};
      }
      return Done;
    }

    method PatchAlert(org: Org, alert: Id, p: AlertPatch) returns (answer: Response)
      requires Valid(State())
      modifies this
      ensures Step(old(State()), Patch(org, alert, p), State(), answer)
    {
      if !(alert in alerts && alerts[alert].key.org == org) {
        return NotFound("alert_not_found");
      }
      if BreaksNotNull(p) {
        return ServerError;
      }
      var b := PatchRow(alerts[alert], p);
      if b.customFields.None? {
        return ServerError;
      }
      alerts := alerts[alert := b];
      used := used + {alert};
      return Done;
    }

    /** `rows` is the query's answer: the requested alerts of the organization, in any order. */
    method BulkPatchAlerts(org: Org, ids: set<Id>, p: AlertPatch, rows: seq<Id>)
      returns (answer: Response, updated: seq<Id>)
      requires Valid(State()) && Distinct(rows) && ToSet(rows) == BulkSelected(State(), org, ids)
      modifies this
      ensures Step(old(State()), BulkPatch(org, ids, p), State(), answer)
      ensures answer == Done ==> updated == if p == EmptyPatch then [] else rows
    {
      if p == EmptyPatch {
        return Done, [];
      }
      assert rows != [] ==> rows[0] in ToSet(rows);
      assert forall a :: a in rows ==> a in ToSet(rows);
      hide Valid, BulkPatched;
      var patched := PatchRows(alerts, rows, p);
      if patched.None? {
        return ServerError, [];
      }
      alerts := patched.value;
      return Done, rows;
    }

    /** coalesce(max(number), 0) + 1 over the organization's cases. */
    method NextNumber(org: Org) returns (n: int)
      ensures IsNextNumber(cases, org, n)
    {
      var found: Option<Id>, left := None, cases.Keys;
      while left != {}
        invariant left <= cases.Keys
        invariant found.None? ==> forall c :: c in cases && c !in left ==> cases[c].org != org
        invariant found.Some? ==>
                    && found.value in cases && cases[found.value].org == org
                    && forall c :: c in cases && c !in left && cases[c].org == org ==>
                         cases[c].number <= cases[found.value].number
        decreases |left|
      {
        var c :| c in left;
        left := left - {c};
        if cases[c].org == org && (found.None? || cases[c].number > cases[found.value].number) {
          found := Some(c);
        }
      }
      return if found.None? then 1 else cases[found.value].number + 1;
    }

    method PromoteAlert(org: Org, user: Id, alert: Id, newId: Id, title: Option<string>, severity: Option<Severity>,
                        now: int)
      returns (answer: Response)
      requires Valid(State()) && newId !in used
      modifies this
      ensures Step(old(State()), Promote(org, user, alert, newId, title, severity, now), State(), answer)
    {
      hide Valid, IsNextNumber;
      ghost var refused := PromoteResult(State(), org, user, alert, newId, title, severity, now, 0);
      if !(alert in alerts && alerts[alert].key.org == org) {
        return NotFound("alert_not_found");
      }
      var a := alerts[alert];
      if a.caseId.Some? {
        return Conflict("alert_already_promoted");
      }
      var number := NextNumber(org);
      var t := if title.Some? && title.value != "" then title.value else a.title;
      if a.customFields.None? || |t| > 500 {
        return ServerError;
      }
      var s := if severity.Some? then severity.value else a.severity;
      cases := cases[newId := Case(org, number, t, a.description, s, a.tlp, a.pap,
                                   "Open", "open", a.tags, a.customFields.value, user, false)];
      alerts := alerts[alert := a.(caseId := Some(newId), status := Imported, importedAt := Some(now))];
      used := used + {newId} + {alert};
      return Done;
    }

    method MergeAlertIntoCase(org: Org, alert: Id, caseId: Id, now: int) returns (answer: Response)
      requires Valid(State())
      modifies this
      ensures Step(old(State()), Merge(org, alert, caseId, now), State(), answer)
    {
      if !(alert in alerts && alerts[alert].key.org == org) {
        return NotFound("alert_not_found");
      }
      var a := alerts[alert];
      if a.caseId.Some? {
        return Conflict("alert_already_linked_to_case");
      }
      if !(caseId in cases && cases[caseId].org == org && !cases[caseId].deleted) {
        return NotFound("case_not_found");
      }
      if a.customFields.None? {
        return ServerError;
      }
      alerts := alerts[alert := a.(caseId := Some(caseId), status := Imported, importedAt := Some(now))];
      used := used + {alert};
      return Done;
    }

    method DeleteAlert(org: Org, alert: Id) returns (answer: Response)
      requires Valid(State())
      modifies this
      ensures Step(old(State()), Delete(org, alert), State(), answer)
    {
      if !(alert in alerts && alerts[alert].key.org == org) {
        return NotFound("alert_not_found");
      }
      alerts := alerts - {alert};
      return Done;
    }
  }
}
