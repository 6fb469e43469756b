/** Observables on cases (api/v1/case_observables.py): attaching, detaching, and the counts shown beside them. */
module CaseObservables {
  import opened Prelude

  type Id = nat
  type Org = nat

  datatype Observable = Observable(
    org: Org, caseId: Option<Id>, dataType: string, data: string, tlp: string, pap: string, isIoc: bool, createdAt: int,
    deletedAt: Option<int>)

  datatype Case = Case(org: Org, deleted: bool)

  predicate Visible(table: map<Id, Observable>, org: Org, o: Id) {
    o in table && table[o].org == org && table[o].deletedAt.None?
  }

  predicate OnCase(table: map<Id, Observable>, org: Org, caseId: Id, o: Id) {
    Visible(table, org, o) && table[o].caseId == Some(caseId)
  }

  function Attached(table: map<Id, Observable>, org: Org, caseId: Id): set<Id> {
    set o | o in table && OnCase(table, org, caseId, o)
  }

  /* ---------- attaching and detaching ---------- */

  function Found(table: map<Id, Observable>, org: Org, ids: set<Id>): set<Id> {
    set o | o in ids && Visible(table, org, o)
  }

  function AfterAttach(table: map<Id, Observable>, org: Org, caseId: Id, ids: set<Id>): map<Id, Observable> {
    map o | o in table :: if o in ids && Visible(table, org, o) then table[o].(caseId := Some(caseId)) else table[o]
  }

  datatype AttachResult = AttachResult(attached: nat, already: nat, unknown: nat)

  datatype Error = CaseNotFound | NotAttached

  function Moved(table: map<Id, Observable>, rows: seq<Id>, caseId: Id): map<Id, Observable> {
    map o | o in table :: if o in rows then table[o].(caseId := Some(caseId)) else table[o]
  }

  /** The loop over the rows found, on the session's copies. */
  method MoveRows(table: map<Id, Observable>, rows: seq<Id>, caseId: Id, ghost on: set<Id>)
    returns (session: map<Id, Observable>, attached: nat, already: nat)
    requires Distinct(rows) && forall o :: o in rows ==> o in table && (o in on <==> table[o].caseId == Some(caseId))
    ensures session == Moved(table, rows, caseId)
    ensures attached == |ToSet(rows) - on| && already == |ToSet(rows) * on|
  {
    hide ToSet;
    session, attached, already := table, 0, 0;
    NoRows(on);
    for k := 0 to |rows|
      invariant session == Moved(table, rows[..k], caseId)
      invariant attached == |ToSet(rows[..k]) - on| && already == |ToSet(rows[..k]) * on|
    {
      var o := rows[k];
      assert rows[..k + 1] == rows[..k] + [o] && o !in rows[..k];
      OneMoreRow(rows[..k], o, on);
      if session[o].caseId == Some(caseId) {
        already := already + 1;
      } else {
        session := session[o := session[o].(caseId := Some(caseId))];
        attached := attached + 1;
      }
    }
    assert rows[..|rows|] == rows;
  }

  lemma NoRows(on: set<Id>)
    ensures ToSet([]) - on == {} && ToSet([]) * on == {}
  {
  }

  lemma OneMoreRow(rows: seq<Id>, o: Id, on: set<Id>)
    requires o !in rows
    ensures |ToSet(rows + [o]) - on| == |ToSet(rows) - on| + if o in on then 0 else 1
    ensures |ToSet(rows + [o]) * on| == |ToSet(rows) * on| + if o in on then 1 else 0
  {
    assert ToSet(rows + [o]) == ToSet(rows) + {o};
    OneMore(ToSet(rows), o, on);
  }

  lemma OneMore(before: set<Id>, o: Id, on: set<Id>)
    requires o !in before
    ensures |(before + {o}) - on| == |before - on| + if o in on then 0 else 1
    ensures |(before + {o}) * on| == |before * on| + if o in on then 1 else 0
  {
    if o in on {
      assert (before + {o}) - on == before - on && (before + {o}) * on == (before * on) + {o};
    } else {
      assert (before + {o}) - on == (before - on) + {o} && (before + {o}) * on == before * on;
    }
  }

  class Table {
    var observables: map<Id, Observable>
    var cases: map<Id, Case>

    constructor (observables: map<Id, Observable>, cases: map<Id, Case>)
      ensures this.observables == observables && this.cases == cases
    {
      this.observables, this.cases := observables, cases;
    }

    /** `rows` is the query's answer: the requested observables the organization can see, in any order. */
    method Attach(org: Org, caseId: Id, ids: seq<Id>, rows: seq<Id>) returns (r: Result<AttachResult, Error>)
      requires Distinct(rows) && ToSet(rows) == Found(observables, org, ToSet(ids))
      modifies this`observables
      ensures r.Success? <==> caseId in cases && cases[caseId].org == org && !cases[caseId].deleted
      ensures r.Failure? ==> observables == old(observables)
      ensures r.Success? ==>
                var found, on := Found(old(observables), org, ToSet(ids)), Attached(old(observables), org, caseId);
                && observables == AfterAttach(old(observables), org, caseId, ToSet(ids))
                && r.value == AttachResult(|found - on|, |found * on|, |ToSet(ids) - found|)
    {
      if !(caseId in cases && cases[caseId].org == org && !cases[caseId].deleted) {
        return Failure(CaseNotFound);
      }
      var unknown := |ToSet(ids) - ToSet(rows)|;
      FoundRows(observables, org, caseId, ids, rows);
      hide *;
      var session, attached, already := MoveRows(observables, rows, caseId, Attached(observables, org, caseId));
      observables := session;
      return Success(AttachResult(attached, already, unknown));
    }

    method Detach(org: Org, caseId: Id, o: Id) returns (r: Result<(), Error>)
      modifies this`observables
      ensures r == if !(caseId in cases && cases[caseId].org == org && !cases[caseId].deleted)
                   then Failure(CaseNotFound)
                   else if !OnCase(old(observables), org, caseId, o) then Failure(NotAttached)
                   else Success(())
      ensures r.Failure? ==> observables == old(observables)
      ensures r.Success? ==> observables == old(observables)[o := old(observables)[o].(caseId := None)]
    {
      if !(caseId in cases && cases[caseId].org == org && !cases[caseId].deleted) {
        return Failure(CaseNotFound);
      }
      if !(o in observables && observables[o].org == org && observables[o].caseId == Some(caseId)
           && observables[o].deletedAt.None?) {
        return Failure(NotAttached);
      }
      observables := observables[o := observables[o].(caseId := None)];
      return Success(());
    }
  }

  lemma FoundRows(table: map<Id, Observable>, org: Org, caseId: Id, ids: seq<Id>, rows: seq<Id>)
    requires ToSet(rows) == Found(table, org, ToSet(ids))
    ensures forall o :: o in rows ==>
              o in table && (o in Attached(table, org, caseId) <==> table[o].caseId == Some(caseId))
    ensures Moved(table, rows, caseId) == AfterAttach(table, org, caseId, ToSet(ids))
  {
    assert forall o :: o in rows <==> o in ToSet(rows);
  }

  lemma AttachedAfter(table: map<Id, Observable>, org: Org, caseId: Id, ids: set<Id>)
    ensures Attached(AfterAttach(table, org, caseId, ids), org, caseId)
            == Attached(table, org, caseId) + Found(table, org, ids)
    ensures Found(AfterAttach(table, org, caseId, ids), org, ids) == Found(table, org, ids)
  {
    var table' := AfterAttach(table, org, caseId, ids);
    forall o
      ensures o in Attached(table', org, caseId) <==> o in Attached(table, org, caseId) + Found(table, org, ids)
      ensures o in Found(table', org, ids) <==> o in Found(table, org, ids)
    {
    }
  }

  /** Attached, already there and unknown make up the distinct identifiers asked for; all that were found end up on the
      case, which gains as many as were attached; every other row is as it was. */
  lemma AttachConserves(table: map<Id, Observable>, org: Org, caseId: Id, ids: set<Id>)
    ensures var table', found, on := AfterAttach(table, org, caseId, ids), Found(table, org, ids),
                                  Attached(table, org, caseId);
            && |found - on| + |found * on| + |ids - found| == |ids|
            && Attached(table', org, caseId) == on + found
            && |Attached(table', org, caseId)| == |on| + |found - on|
            && table'.Keys == table.Keys
            && (forall o :: o in table && o !in found ==> table'[o] == table[o])
            && (forall o :: o in found ==> table'[o] == table[o].(caseId := Some(caseId)))
    ensures forall o :: o in Found(table, org, ids) <==>
              o in ids && o in table && table[o].org == org && table[o].deletedAt == None
    ensures forall o :: o in Attached(table, org, caseId) <==>
              o in table && table[o].org == org && table[o].deletedAt == None && table[o].caseId == Some(caseId)
  {
    var found, on := Found(table, org, ids), Attached(table, org, caseId);
    assert found <= ids;
    AttachedAfter(table, org, caseId, ids);
    hide Found, Attached;
    assert found == (found - on) + (found * on);
    assert ids == found + (ids - found);
    assert on + found == on + (found - on);
    forall o | o in table && o !in found
      ensures AfterAttach(table, org, caseId, ids)[o] == table[o]
    {
      LeftAlone(table, org, caseId, ids, o);
    }
  }

  lemma LeftAlone(table: map<Id, Observable>, org: Org, caseId: Id, ids: set<Id>, o: Id)
    requires o in table && o !in Found(table, org, ids)
    ensures AfterAttach(table, org, caseId, ids)[o] == table[o]
  {
  }

  /** Attaching the same observables again finds them all on the case and changes nothing. */
  lemma RepeatAttachesNone(table: map<Id, Observable>, org: Org, caseId: Id, ids: set<Id>)
    ensures var table' := AfterAttach(table, org, caseId, ids);
            var found', on' := Found(table', org, ids), Attached(table', org, caseId);
            && found' == Found(table, org, ids) && found' - on' == {} && found' * on' == found'
            && AfterAttach(table', org, caseId, ids) == table'
  {
    AttachedAfter(table, org, caseId, ids);
    AttachTwice(table, org, caseId, ids);
    hide AfterAttach, Found, Attached;
  }

  lemma AttachTwice(table: map<Id, Observable>, org: Org, caseId: Id, ids: set<Id>)
    ensures var table' := AfterAttach(table, org, caseId, ids); AfterAttach(table', org, caseId, ids) == table'
  {
  }

  /** Detaching what was just attached from no case puts the table back. */
  lemma DetachUndoesAttach(table: map<Id, Observable>, org: Org, caseId: Id, o: Id)
    requires Visible(table, org, o) && table[o].caseId.None?
    ensures var table' := AfterAttach(table, org, caseId, {o});
            OnCase(table', org, caseId, o) && table'[o := table'[o].(caseId := None)] == table
  {
  }

  /* ---------- group by ---------- */

  datatype Bucket<K> = Bucket(key: K, count: nat)

  function Group<K(==)>(rows: set<Id>, key: Id -> K, k: K): set<Id> { set o | o in rows && key(o) == k }

  /** An answer to select key, count(*) ... group by key: each key that occurs, once, with its count. */
  ghost predicate IsGroupBy<K(!new)>(rows: set<Id>, key: Id -> K, answer: seq<Bucket<K>>) {
    && (forall i, j :: 0 <= i < j < |answer| ==> answer[i].key != answer[j].key)
    && (forall i :: 0 <= i < |answer| ==> answer[i].count == |Group(rows, key, answer[i].key)|)
    && (forall o :: o in rows ==> exists i :: 0 <= i < |answer| && answer[i].key == key(o))
  }

  function Total<K>(buckets: seq<Bucket<K>>): nat {
    if buckets == [] then 0 else buckets[0].count + Total(buckets[1..])
  }

  function Keys<K>(buckets: seq<Bucket<K>>): seq<K> { Map((b: Bucket<K>) => b.key, buckets) }

  /** Buckets with distinct keys and the right counts add up to the rows with one of those keys. */
  lemma {:induction false} TotalOfGroups<K(!new)>(rows: set<Id>, key: Id -> K, buckets: seq<Bucket<K>>)
    requires forall i, j :: 0 <= i < j < |buckets| ==> buckets[i].key != buckets[j].key
    requires forall i :: 0 <= i < |buckets| ==> buckets[i].count == |Group(rows, key, buckets[i].key)|
    ensures Total(buckets) == |set o | o in rows && key(o) in Keys(buckets)|
  {
    if buckets == [] {
      assert (set o | o in rows && key(o) in Keys(buckets)) == {};
    } else {
      TotalOfGroups(rows, key, buckets[1..]);
      var k := buckets[0].key;
      var some, others := Group(rows, key, k), set o | o in rows && key(o) in Keys(buckets[1..]);
      assert Keys(buckets) == [k] + Keys(buckets[1..]);
      assert (set o | o in rows && key(o) in Keys(buckets)) == some + others;
      assert k !in Keys(buckets[1..]);
      assert some !! others;
    }
  }

  lemma CountsAllWhen<K(!new)>(rows: set<Id>, key: Id -> K, keys: seq<K>)
    ensures |set o | o in rows && key(o) in keys| == |rows| <==> forall o :: o in rows ==> key(o) in keys
  {
    var some := set o | o in rows && key(o) in keys;
    assert rows == some + (rows - some);
    if forall o :: o in rows ==> key(o) in keys {
      assert some == rows;
    }
    if |some| == |rows| {
      assert rows - some == {};
      assert forall o :: o in rows ==> o in some;
    }
  }

  /** Every bucket of a group by, taken together, counts every row once. */
  lemma GroupByCountsAll<K(!new)>(rows: set<Id>, key: Id -> K, answer: seq<Bucket<K>>)
    requires IsGroupBy(rows, key, answer)
    ensures Total(answer) == |rows|
  {
    TotalOfGroups(rows, key, answer);
    forall o | o in rows
      ensures key(o) in Keys(answer)
    {
      var i :| 0 <= i < |answer| && answer[i].key == key(o);
      assert Keys(answer)[i] == key(o);
    }
    CountsAllWhen(rows, key, Keys(answer));
  }

  /* ---------- the TLP and PAP summaries ---------- */

  const PAP_VALUES := ["white", "green", "amber", "red"]
  const TLP_VALUES := ["white", "green", "amber", "amber-strict", "red"]

  function Lookup<K(==)>(answer: seq<Bucket<K>>, k: K): nat {
    if answer == [] then 0 else if answer[0].key == k then answer[0].count else Lookup(answer[1..], k)
  }

  /** The answer's counts for the canonical values, zero where it has none. */
  function Filled(answer: seq<Bucket<string>>, canonical: seq<string>): (r: seq<Bucket<string>>)
    ensures |r| == |canonical|
    ensures forall i :: 0 <= i < |r| ==> r[i] == Bucket(canonical[i], Lookup(answer, canonical[i]))
  {
    Map(k => Bucket(k, Lookup(answer, k)), canonical)
  }

  lemma {:induction false} LookupIs<K(!new)>(answer: seq<Bucket<K>>, i: nat)
    requires i < |answer| && forall a, b :: 0 <= a < b < |answer| ==> answer[a].key != answer[b].key
    ensures Lookup(answer, answer[i].key) == answer[i].count
  {
    if i > 0 {
      assert answer[i] == answer[1..][i - 1];
      LookupIs(answer[1..], i - 1);
    }
  }

  lemma {:induction false} LookupNone<K(!new)>(answer: seq<Bucket<K>>, k: K)
    requires forall i :: 0 <= i < |answer| ==> answer[i].key != k
    ensures Lookup(answer, k) == 0
  {
    if answer != [] {
      LookupNone(answer[1..], k);
    }
  }

  lemma LookupCounts<K(!new)>(rows: set<Id>, key: Id -> K, answer: seq<Bucket<K>>, k: K)
    requires IsGroupBy(rows, key, answer)
    ensures Lookup(answer, k) == |Group(rows, key, k)|
  {
    if i :| 0 <= i < |answer| && answer[i].key == k {
      LookupIs(answer, i);
    } else {
      LookupNone(answer, k);
      forall o | o in rows
        ensures key(o) != k
      {
      }
      assert Group(rows, key, k) == {};
    }
  }

  /** A zero-filled summary counts each canonical value exactly; its total is the number of rows just when all of them
      are canonical. */
  lemma SummaryTotals(rows: set<Id>, key: Id -> string, answer: seq<Bucket<string>>, canonical: seq<string>)
    requires IsGroupBy(rows, key, answer) && Distinct(canonical)
    ensures var buckets := Filled(answer, canonical);
            && (forall i :: 0 <= i < |canonical| ==>
                  buckets[i] == Bucket(canonical[i], |Group(rows, key, canonical[i])|))
            && (Total(buckets) == |rows| <==> forall o :: o in rows ==> key(o) in canonical)
  {
    var buckets := Filled(answer, canonical);
    forall i | 0 <= i < |canonical|
      ensures buckets[i] == Bucket(canonical[i], |Group(rows, key, canonical[i])|)
    {
      LookupCounts(rows, key, answer, canonical[i]);
    }
    TotalOfGroups(rows, key, buckets);
    assert Keys(buckets) == canonical;
    CountsAllWhen(rows, key, canonical);
  }

  function PapOf(table: map<Id, Observable>): Id -> string { o => if o in table then table[o].pap else "" }

  function TlpOf(table: map<Id, Observable>): Id -> string { o => if o in table then table[o].tlp else "" }

  lemma AreOnCase(table: map<Id, Observable>, org: Org, caseId: Id)
    ensures forall o :: o in Attached(table, org, caseId) ==> o in table
  {
  }

  lemma PapTotal(table: map<Id, Observable>, org: Org, caseId: Id, answer: seq<Bucket<string>>)
    requires IsGroupBy(Attached(table, org, caseId), PapOf(table), answer)
    ensures var rows := Attached(table, org, caseId);
            && Keys(Filled(answer, PAP_VALUES)) == ["white", "green", "amber", "red"]
            && (Total(Filled(answer, PAP_VALUES)) == |rows|
                <==> forall o :: o in rows ==> table[o].pap in ["white", "green", "amber", "red"])
            && forall i :: 0 <= i < 4 ==>
                 var value := ["white", "green", "amber", "red"][i];
                 Filled(answer, PAP_VALUES)[i].count == |set o | o in rows && table[o].pap == value|
  {
    hide IsGroupBy, Total, Filled, Attached;
    var rows := Attached(table, org, caseId);
    SummaryTotals(rows, PapOf(table), answer, PAP_VALUES);
    AreOnCase(table, org, caseId);
    forall v: string
      ensures Group(rows, PapOf(table), v) == set o | o in rows && table[o].pap == v
    {
    }
  }

  lemma TlpTotal(table: map<Id, Observable>, org: Org, caseId: Id, answer: seq<Bucket<string>>)
    requires IsGroupBy(Attached(table, org, caseId), TlpOf(table), answer)
    ensures var rows := Attached(table, org, caseId);
            && Keys(Filled(answer, TLP_VALUES)) == ["white", "green", "amber", "amber-strict", "red"]
            && (Total(Filled(answer, TLP_VALUES)) == |rows|
                <==> forall o :: o in rows ==> table[o].tlp in ["white", "green", "amber", "amber-strict", "red"])
            && forall i :: 0 <= i < 5 ==>
                 var value := ["white", "green", "amber", "amber-strict", "red"][i];
                 Filled(answer, TLP_VALUES)[i].count == |set o | o in rows && table[o].tlp == value|
  {
    hide IsGroupBy, Total, Filled, Attached;
    var rows := Attached(table, org, caseId);
    SummaryTotals(rows, TlpOf(table), answer, TLP_VALUES);
    AreOnCase(table, org, caseId);
    forall v: string
      ensures Group(rows, TlpOf(table), v) == set o | o in rows && table[o].tlp == v
    {
    }
  }

  /* ---------- the summary by type ---------- */

  datatype TypeBucket = TypeBucket(dataType: string, count: nat, iocCount: nat)

  function Iocs(table: map<Id, Observable>, rows: set<Id>): set<Id> {
    set o | o in rows && o in table && table[o].isIoc
  }

  function TypeOf(table: map<Id, Observable>): Id -> string { o => if o in table then table[o].dataType else "" }

  function Counts(answer: seq<TypeBucket>): seq<Bucket<string>> {
    Map((b: TypeBucket) => Bucket(b.dataType, b.count), answer)
  }

  function IocCounts(answer: seq<TypeBucket>): seq<Bucket<string>> {
    Map((b: TypeBucket) => Bucket(b.dataType, b.iocCount), answer)
  }

  /** Rows on the case, since a moment if one is given. */
  function Recent(table: map<Id, Observable>, org: Org, caseId: Id, since: Option<int>): set<Id> {
    set o | o in Attached(table, org, caseId) && (since.Some? ==> table[o].createdAt >= since.value)
  }

  /** An answer to the summary's query: a group by on the type, with the sum of the flag beside the count. */
  ghost predicate IsTypeSummary(table: map<Id, Observable>, rows: set<Id>, answer: seq<TypeBucket>) {
    && IsGroupBy(rows, TypeOf(table), Counts(answer))
    && forall i :: 0 <= i < |answer| ==>
         answer[i].iocCount == |Group(Iocs(table, rows), TypeOf(table), answer[i].dataType)|
  }

  /** The sums of the flag are a group by over the indicators, with zeros. */
  lemma IocsAreGrouped(table: map<Id, Observable>, rows: set<Id>, answer: seq<TypeBucket>)
    requires IsTypeSummary(table, rows, answer)
    ensures IsGroupBy(Iocs(table, rows), TypeOf(table), IocCounts(answer))
  {
    var kind, counts, iocCounts := TypeOf(table), Counts(answer), IocCounts(answer);
    hide TypeOf;
    assert forall i :: 0 <= i < |answer| ==>
      counts[i].key == answer[i].dataType && iocCounts[i].key == answer[i].dataType;
    forall o | o in Iocs(table, rows)
      ensures exists i :: 0 <= i < |iocCounts| && iocCounts[i].key == kind(o)
    {
      var i :| 0 <= i < |counts| && counts[i].key == kind(o);
      assert iocCounts[i].key == kind(o);
    }
  }

  lemma FewerIocs(table: map<Id, Observable>, rows: set<Id>, answer: seq<TypeBucket>, i: nat)
    requires IsTypeSummary(table, rows, answer) && i < |answer|
    ensures answer[i].iocCount <= answer[i].count
  {
    hide TypeOf;
    var few, all := Group(Iocs(table, rows), TypeOf(table), answer[i].dataType),
                    Group(rows, TypeOf(table), answer[i].dataType);
    assert Counts(answer)[i].count == |all|;
    assert all == few + (all - few);
  }

  lemma RecentAre(table: map<Id, Observable>, org: Org, caseId: Id, since: Option<int>)
    ensures var rows := Recent(table, org, caseId, since);
            && (forall o :: o in rows <==>
                  && o in Attached(table, org, caseId)
                  && match since case Some(t) => t <= table[o].createdAt case None => true)
            && (forall o :: o in Iocs(table, rows) <==> o in rows && table[o].isIoc)
  {
  }

  /** The two totals of the summary are the numbers of rows and of indicators among them; no type has more indicators
      than rows. */
  lemma TypeSummaryTotals(table: map<Id, Observable>, org: Org, caseId: Id, since: Option<int>, answer: seq<TypeBucket>)
    requires IsTypeSummary(table, Recent(table, org, caseId, since), answer)
    ensures var rows := Recent(table, org, caseId, since);
            && Total(Counts(answer)) == |rows| && Total(IocCounts(answer)) == |Iocs(table, rows)|
            && (forall i :: 0 <= i < |answer| ==> answer[i].iocCount <= answer[i].count)
            && (forall o :: o in rows <==>
                  && o in Attached(table, org, caseId)
                  && match since case Some(t) => t <= table[o].createdAt case None => true)
            && (forall o :: o in Iocs(table, rows) <==> o in rows && table[o].isIoc)
  {
    RecentAre(table, org, caseId, since);
    var rows := Recent(table, org, caseId, since);
    assert IsGroupBy(rows, TypeOf(table), Counts(answer));
    hide IsTypeSummary, IsGroupBy, Recent, Iocs, TypeOf, Total, Counts, IocCounts;
    GroupByCountsAll(rows, TypeOf(table), Counts(answer));
    IocsAreGrouped(table, rows, answer);
    GroupByCountsAll(Iocs(table, rows), TypeOf(table), IocCounts(answer));
    forall i | 0 <= i < |answer|
      ensures answer[i].iocCount <= answer[i].count
    {
      FewerIocs(table, rows, answer, i);
    }
  }

  /* ---------- similarity ---------- */

  type Indicator = (string, string)

  function IndicatorOf(table: map<Id, Observable>): Id -> Indicator {
    o => if o in table then (table[o].dataType, table[o].data) else ("", "")
  }

  function InOrg(table: map<Id, Observable>, org: Org): set<Id> { set o | o in table && Visible(table, org, o) }

  /** The rows the counting query looks at. */
  function Like(table: map<Id, Observable>, org: Org, indicators: set<Indicator>): set<Id> {
    set o | o in InOrg(table, org) && IndicatorOf(table)(o) in indicators
  }

  function Indicators(table: map<Id, Observable>, attached: seq<Id>): set<Indicator> {
    set o | o in attached :: IndicatorOf(table)(o)
  }

  datatype SimilarityCount = SimilarityCount(observable: Id, totalSeen: nat)

  /** How often the indicator of an attached observable is seen in the organization. */
  ghost function TimesSeen(table: map<Id, Observable>, org: Org, o: Id): nat {
    |Group(InOrg(table, org), IndicatorOf(table), IndicatorOf(table)(o))|
  }

  ghost predicate IsSimilarityAnswer(table: map<Id, Observable>, org: Org, attached: seq<Id>,
                                     answer: seq<Bucket<Indicator>>) {
    IsGroupBy(Like(table, org, Indicators(table, attached)), IndicatorOf(table), answer)
  }

  /** The second query has a row for every attached observable's indicator, with the count over the whole
      organization. */
  lemma AnswerCovers(table: map<Id, Observable>, org: Org, caseId: Id, attached: seq<Id>,
                     answer: seq<Bucket<Indicator>>, o: Id)
    returns (i: nat)
    requires ToSet(attached) == Attached(table, org, caseId) && IsSimilarityAnswer(table, org, attached, answer)
    requires o in attached
    ensures i < |answer| && answer[i] == Bucket(IndicatorOf(table)(o), TimesSeen(table, org, o))
    ensures TimesSeen(table, org, o) >= 1
  {
    var indicator := IndicatorOf(table);
    var like := Like(table, org, Indicators(table, attached));
    assert o in ToSet(attached);
    assert o in like;
    i :| 0 <= i < |answer| && answer[i].key == indicator(o);
    assert Group(like, indicator, indicator(o)) == Group(InOrg(table, org), indicator, indicator(o));
    assert o in Group(like, indicator, indicator(o));
  }

  lemma AttachedAreRows(table: map<Id, Observable>, org: Org, caseId: Id, attached: seq<Id>)
    requires ToSet(attached) == Attached(table, org, caseId)
    ensures forall i :: 0 <= i < |attached| ==> attached[i] in table
  {
    assert forall i :: 0 <= i < |attached| ==> attached[i] in ToSet(attached);
  }

  /** The organization's live rows with the same type and data. */
  function SameIndicator(table: map<Id, Observable>, org: Org, like: Observable): set<Id> {
    set x | x in table && table[x].org == org && table[x].deletedAt == None
            && table[x].dataType == like.dataType && table[x].data == like.data
  }

  lemma TimesSeenIs(table: map<Id, Observable>, org: Org, o: Id)
    requires o in table
    ensures TimesSeen(table, org, o) == |SameIndicator(table, org, table[o])|
  {
    assert Group(InOrg(table, org), IndicatorOf(table), IndicatorOf(table)(o)) == SameIndicator(table, org, table[o]);
  }

  method Overwrite<K(==)>(start: map<K, nat>, rows: seq<Bucket<K>>) returns (m: map<K, nat>)
    requires forall i, j :: 0 <= i < j < |rows| ==> rows[i].key != rows[j].key
    ensures forall i :: 0 <= i < |rows| ==> rows[i].key in m && m[rows[i].key] == rows[i].count
  {
    m := start;
    for k := 0 to |rows|
      invariant forall i :: 0 <= i < k ==> rows[i].key in m && m[rows[i].key] == rows[i].count
    {
      m := m[rows[k].key := rows[k].count];
    }
  }

  /** `attached` and `answer` are what the two queries return. Every observable on the case is counted with all of its
      organization's rows for the same indicator, itself included. */
  method SimilarityCounts(table: map<Id, Observable>, org: Org, caseId: Id, attached: seq<Id>,
                          answer: seq<Bucket<Indicator>>)
    returns (counts: seq<SimilarityCount>)
    requires ToSet(attached) == Attached(table, org, caseId) && IsSimilarityAnswer(table, org, attached, answer)
    ensures |counts| == |attached|
    ensures forall i :: 0 <= i < |attached| ==>
              && attached[i] in table && counts[i].observable == attached[i] && counts[i].totalSeen >= 1
              && counts[i].totalSeen == |SameIndicator(table, org, table[attached[i]])|
  {
    AttachedAreRows(table, org, caseId, attached);
    if attached == [] {
      return [];
    }
    var indicators := Indicators(table, attached);
    var zeros := map p | p in indicators :: 0;
    assert forall i, j :: 0 <= i < j < |answer| ==> answer[i].key != answer[j].key;
    var pairCounts := Overwrite(zeros, answer);
    hide ToSet, IsSimilarityAnswer, TimesSeen, Attached, SameIndicator;
    counts := [];
    for k := 0 to |attached|
      invariant |counts| == k
      invariant forall i :: 0 <= i < k ==>
                  && counts[i].observable == attached[i] && counts[i].totalSeen >= 1
                  && counts[i].totalSeen == |SameIndicator(table, org, table[attached[i]])|
    {
      TimesSeenIs(table, org, attached[k]);
      var _ := AnswerCovers(table, org, caseId, attached, answer, attached[k]);
      var p := IndicatorOf(table)(attached[k]);
      counts := counts + [SimilarityCount(attached[k], if p in pairCounts then pairCounts[p] else 1)];
    }
  }
}
