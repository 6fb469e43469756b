/** The embedding indexer (workers/embedding_indexer.py): rounds over the most recently updated closed cases. */
module Indexer {
  import opened Prelude
  import opened HashBag

  type CaseId = nat

  datatype Case = Case(org: nat, stage: string, deletedAt: Option<int>, updatedAt: int, text: string)

  datatype IndexRow = IndexRow(org: nat, model: string, dimension: nat, vector: seq<real>, excerpt: string)

  const BATCH := 25
  const WINDOW := 4 * BATCH

  function Eligible(cases: map<CaseId, Case>): set<CaseId> {
    set c | c in cases && cases[c].stage == "closed" && cases[c].deletedAt.None?
  }

  function Updated(cases: map<CaseId, Case>, c: CaseId): int { if c in cases then cases[c].updatedAt else 0 }

  /** An answer to the query of a round: the newest eligible cases, in an order that ties leave open. */
  ghost predicate IsWindow(cases: map<CaseId, Case>, window: seq<CaseId>) {
    && Distinct(window) && |window| == Min(WINDOW, |Eligible(cases)|)
    && (forall c :: c in window ==> c in Eligible(cases))
    && (forall i, j :: 0 <= i < j < |window| ==> Updated(cases, window[i]) >= Updated(cases, window[j]))
    && (forall c, d :: c in window && d in Eligible(cases) && d !in window ==> Updated(cases, c) >= Updated(cases, d))
  }

  function Remaining(window: seq<CaseId>, already: set<CaseId>): seq<CaseId> { Filter(c => c !in already, window) }

  function Todo(window: seq<CaseId>, already: set<CaseId>): seq<CaseId> {
    var remaining := Remaining(window, already);
    if |remaining| <= BATCH then remaining else remaining[..BATCH]
  }

  function RowOf(c: Case, embed: string -> EmbedResult): IndexRow {
    var r := embed(c.text);
    IndexRow(c.org, r.model, r.dimension, r.vector, if |c.text| <= 1000 then c.text else c.text[..1000])
  }

  function AfterRound(cases: map<CaseId, Case>, rows: map<CaseId, IndexRow>, window: seq<CaseId>,
                      embed: string -> EmbedResult)
    : map<CaseId, IndexRow>
    requires forall c :: c in window ==> c in cases
  {
    rows + RowsOf(cases, Todo(window, rows.Keys), embed)
  }

  function RowsOf(cases: map<CaseId, Case>, todo: seq<CaseId>, embed: string -> EmbedResult): map<CaseId, IndexRow>
    requires forall c :: c in todo ==> c in cases
  {
    map c | c in todo :: RowOf(cases[c], embed)
  }

  /** The rows of some cases, built one at a time. */
  method Rows(cases: map<CaseId, Case>, todo: seq<CaseId>, embed: string -> EmbedResult)
    returns (added: map<CaseId, IndexRow>)
    requires forall c :: c in todo ==> c in cases
    ensures added == RowsOf(cases, todo, embed)
  {
    added := map[];
    for k := 0 to |todo|
      invariant added == RowsOf(cases, todo[..k], embed)
    {
      var c := cases[todo[k]];
      var r := embed(c.text);
      var row := IndexRow(c.org, r.model, r.dimension, r.vector, if |c.text| <= 1000 then c.text else c.text[..1000]);
      assert row == RowOf(c, embed);
      added := added[todo[k] := row];
      assert todo[..k + 1] == todo[..k] + [todo[k]];
    }
    assert todo[..|todo|] == todo;
  }

  class Worker {
    var cases: map<CaseId, Case>
    var rows: map<CaseId, IndexRow>

    constructor (cases: map<CaseId, Case>)
      ensures this.cases == cases && rows == map[]
    {
      this.cases, rows := cases, map[];
    }

    /** One round, given the database's answer. A round that is interrupted before its commit changes nothing. */
    method IndexOneBatch(window: seq<CaseId>, embed: string -> EmbedResult, interrupted: bool) returns (indexed: nat)
      requires IsWindow(cases, window)
      modifies this`rows
      ensures rows == if interrupted then old(rows) else AfterRound(cases, old(rows), window, embed)
      ensures !interrupted ==> indexed == Min(BATCH, |ToSet(window) - old(rows).Keys|)
      ensures !interrupted ==> |rows| == |old(rows)| + indexed
      ensures forall c :: c in old(rows) ==> c in rows && rows[c] == old(rows)[c]
      ensures forall c :: c in rows && c !in old(rows) ==>
                c in cases && IsClosed(cases[c]) && RowSays(rows[c], cases[c], embed)
    {
      hide *;
      RoundCounts(cases, rows, window, embed);
      RoundIs(cases, rows, window, embed);
      RowsSay(cases, rows, window, embed);
      var todo := Todo(window, rows.Keys);
      if todo == [] {
        NothingToDo(cases, rows, window, embed);
        return 0;
      }
      var added := Rows(cases, todo, embed);
      if interrupted {
        return 0;
      }
      rows := rows + added;
      return |todo|;
    }
  }

  /* ---------- one round ---------- */

  lemma RemainingIsDistinct(window: seq<CaseId>, already: set<CaseId>)
    requires Distinct(window)
    ensures Distinct(Remaining(window, already)) && ToSet(Remaining(window, already)) == ToSet(window) - already
  {
    FilterDistinct(c => c !in already, window);
  }

  /** A round takes up new cases only, as many as fit, and none before a newer one that is still waiting. */
  lemma TodoIsNew(window: seq<CaseId>, already: set<CaseId>)
    requires Distinct(window)
    ensures var todo := Todo(window, already);
            && Distinct(todo) && ToSet(todo) <= ToSet(window) - already
            && |todo| == Min(BATCH, |ToSet(window) - already|)
            && todo <= Remaining(window, already)
  {
    RemainingIsDistinct(window, already);
    DistinctSize(Remaining(window, already));
  }

  lemma WindowIsOfCases(cases: map<CaseId, Case>, window: seq<CaseId>)
    requires IsWindow(cases, window)
    ensures Distinct(window) && forall c :: c in window ==> c in cases
  {
  }

  predicate IsClosed(c: Case) { c.stage == "closed" && c.deletedAt == None }

  /** The row is the embedding of the case's text, in its organization, with the first 1000 characters. */
  predicate RowSays(row: IndexRow, c: Case, embed: string -> EmbedResult) {
    && row.org == c.org && row.model == embed(c.text).model && row.dimension == embed(c.text).dimension
    && row.vector == embed(c.text).vector && row.excerpt <= c.text
    && |row.excerpt| == (if |c.text| > 1000 then 1000 else |c.text|)
  }

  lemma RowSaysIt(c: Case, embed: string -> EmbedResult)
    ensures RowSays(RowOf(c, embed), c, embed)
  {
  }

  lemma InTodo(cases: map<CaseId, Case>, window: seq<CaseId>, already: set<CaseId>, c: CaseId)
    requires IsWindow(cases, window) && c in Todo(window, already)
    ensures c in cases && IsClosed(cases[c])
  {
    assert c in Remaining(window, already);
    assert c in window;
    assert c in Eligible(cases);
  }

  /** What a round changes: rows are added and none is replaced. */
  lemma RoundAdds(cases: map<CaseId, Case>, rows: map<CaseId, IndexRow>, window: seq<CaseId>,
                  embed: string -> EmbedResult, c: CaseId)
    requires IsWindow(cases, window)
    ensures forall d :: d in window ==> d in cases
    ensures var rows', todo := AfterRound(cases, rows, window, embed), Todo(window, rows.Keys);
            && (c in rows' <==> c in rows || c in todo) && !(c in rows && c in todo)
            && (c in rows ==> rows'[c] == rows[c])
            && (c in todo ==> IsClosed(cases[c]) && RowSays(rows'[c], cases[c], embed))
  {
    WindowIsOfCases(cases, window);
    hide IsWindow, Todo, RowOf;
    TodoIsNew(window, rows.Keys);
    if c in Todo(window, rows.Keys) {
      assert c in ToSet(Todo(window, rows.Keys));
      InTodo(cases, window, rows.Keys, c);
      RowSaysIt(cases[c], embed);
    }
  }

  lemma RowsSay(cases: map<CaseId, Case>, rows: map<CaseId, IndexRow>, window: seq<CaseId>,
                embed: string -> EmbedResult)
    requires IsWindow(cases, window)
    ensures forall d :: d in window ==> d in cases
    ensures var rows' := AfterRound(cases, rows, window, embed);
            && (forall c :: c in rows ==> c in rows' && rows'[c] == rows[c])
            && (forall c :: c in rows' && c !in rows ==>
                  c in cases && IsClosed(cases[c]) && RowSays(rows'[c], cases[c], embed))
  {
    WindowIsOfCases(cases, window);
    hide IsWindow, AfterRound, IsClosed, RowSays;
    var rows' := AfterRound(cases, rows, window, embed);
    forall c
      ensures c in rows ==> c in rows' && rows'[c] == rows[c]
      ensures c in rows' && c !in rows ==> c in cases && IsClosed(cases[c]) && RowSays(rows'[c], cases[c], embed)
    {
      RoundAdds(cases, rows, window, embed, c);
      if c in Todo(window, rows.Keys) {
        InTodo(cases, window, rows.Keys, c);
      }
    }
  }

  lemma RoundCounts(cases: map<CaseId, Case>, rows: map<CaseId, IndexRow>, window: seq<CaseId>,
                    embed: string -> EmbedResult)
    requires IsWindow(cases, window)
    ensures forall d :: d in window ==> d in cases
    ensures var rows', todo := AfterRound(cases, rows, window, embed), Todo(window, rows.Keys);
            && rows.Keys <= rows'.Keys <= rows.Keys + ToSet(window)
            && |rows'| == |rows| + |todo| && |todo| == Min(BATCH, |ToSet(window) - rows.Keys|)
            && |ToSet(window) - rows'.Keys| == Max(0, |ToSet(window) - rows.Keys| - BATCH)
  {
    WindowIsOfCases(cases, window);
    hide IsWindow, Todo, RowOf;
    TodoIsNew(window, rows.Keys);
    var rows', todo := AfterRound(cases, rows, window, embed), Todo(window, rows.Keys);
    DistinctSize(todo);
    assert forall c :: c in todo ==> c in ToSet(todo);
    assert rows'.Keys == rows.Keys + ToSet(todo);
    CountTaken(ToSet(window), rows.Keys, ToSet(todo));
    assert |rows'| == |rows'.Keys| && |rows| == |rows.Keys|;
  }

  lemma TodoIsOfCases(cases: map<CaseId, Case>, window: seq<CaseId>, already: set<CaseId>)
    requires IsWindow(cases, window)
    ensures forall c :: c in window ==> c in cases
    ensures forall c :: c in Todo(window, already) ==> c in cases
  {
    WindowIsOfCases(cases, window);
    hide IsWindow, Distinct;
    forall c | c in Todo(window, already)
      ensures c in cases
    {
      assert c in Remaining(window, already);
    }
  }

  lemma RoundIs(cases: map<CaseId, Case>, rows: map<CaseId, IndexRow>, window: seq<CaseId>,
                embed: string -> EmbedResult)
    requires IsWindow(cases, window)
    ensures forall c :: c in window ==> c in cases
    ensures forall c :: c in Todo(window, rows.Keys) ==> c in cases
    ensures AfterRound(cases, rows, window, embed) == rows + RowsOf(cases, Todo(window, rows.Keys), embed)
  {
    hide IsWindow, Distinct, Todo, RowsOf;
    TodoIsOfCases(cases, window, rows.Keys);
  }

  lemma CountTaken(window: set<CaseId>, already: set<CaseId>, todo: set<CaseId>)
    requires todo <= window - already && |todo| == Min(BATCH, |window - already|)
    ensures |already + todo| == |already| + |todo|
    ensures |window - (already + todo)| == Max(0, |window - already| - BATCH)
  {
    var waiting := window - already;
    assert window - (already + todo) == waiting - todo;
    assert waiting == (waiting - todo) + todo;
  }

  lemma NothingToDo(cases: map<CaseId, Case>, rows: map<CaseId, IndexRow>, window: seq<CaseId>,
                    embed: string -> EmbedResult)
    requires IsWindow(cases, window) && Todo(window, rows.Keys) == []
    ensures AfterRound(cases, rows, window, embed) == rows
  {
    WindowIsOfCases(cases, window);
    hide IsWindow, Distinct, Todo;
  }

  /* ---------- runs: rounds, interruptions, and edits of the cases by others ---------- */

  datatype Step = Round(window: seq<CaseId>) | Interrupted | Edit(cases: map<CaseId, Case>)

  ghost predicate IsRun(cases: map<CaseId, Case>, rows: map<CaseId, IndexRow>, embed: string -> EmbedResult,
                        steps: seq<Step>, rows': map<CaseId, IndexRow>)
    decreases |steps|
  {
    if steps == [] then rows' == rows
    else
      match steps[0]
      case Round(w) => IsWindow(cases, w) && IsRun(cases, AfterRound(cases, rows, w, embed), embed, steps[1..], rows')
      case Interrupted => IsRun(cases, rows, embed, steps[1..], rows')
      case Edit(cases') => IsRun(cases', rows, embed, steps[1..], rows')
  }

  /** How many times a round of the run embeds the case. */
  ghost function TimesEmbedded(cases: map<CaseId, Case>, rows: map<CaseId, IndexRow>, embed: string -> EmbedResult,
                               steps: seq<Step>, c: CaseId): nat
    decreases |steps|
  {
    if steps == [] then 0
    else
      match steps[0]
      case Round(w) =>
        if IsWindow(cases, w)
        then (if c in Todo(w, rows.Keys) then 1 else 0)
             + TimesEmbedded(cases, AfterRound(cases, rows, w, embed), embed, steps[1..], c)
        else 0
      case Interrupted => TimesEmbedded(cases, rows, embed, steps[1..], c)
      case Edit(cases') => TimesEmbedded(cases', rows, embed, steps[1..], c)
  }

  /** Whatever happens between the rounds, a case is embedded at most once, and its row then stays as it is. */
  lemma {:induction false} EmbeddedAtMostOnce(cases: map<CaseId, Case>, rows: map<CaseId, IndexRow>,
                                              embed: string -> EmbedResult, steps: seq<Step>,
                                              rows': map<CaseId, IndexRow>, c: CaseId)
    requires IsRun(cases, rows, embed, steps, rows')
    ensures TimesEmbedded(cases, rows, embed, steps, c) == if c in rows' && c !in rows then 1 else 0
    ensures c in rows ==> c in rows' && rows'[c] == rows[c]
    decreases |steps|
  {
    hide IsWindow, AfterRound, Todo;
    if steps != [] {
      match steps[0]
      case Round(w) =>
        RoundAdds(cases, rows, w, embed, c);
        EmbeddedAtMostOnce(cases, AfterRound(cases, rows, w, embed), embed, steps[1..], rows', c);
      case Interrupted => EmbeddedAtMostOnce(cases, rows, embed, steps[1..], rows', c);
      case Edit(cases') => EmbeddedAtMostOnce(cases', rows, embed, steps[1..], rows', c);
    }
  }

  /* ---------- convergence on a table that does not change ---------- */

  ghost predicate IsRounds(cases: map<CaseId, Case>, rows: map<CaseId, IndexRow>, embed: string -> EmbedResult,
                           windows: seq<seq<CaseId>>, rows': map<CaseId, IndexRow>)
    decreases |windows|
  {
    if windows == [] then rows' == rows
    else
      && IsWindow(cases, windows[0])
      && IsRounds(cases, AfterRound(cases, rows, windows[0], embed), embed, windows[1..], rows')
  }

  lemma {:induction false} RoundsShrink(cases: map<CaseId, Case>, rows: map<CaseId, IndexRow>,
                                        embed: string -> EmbedResult, windows: seq<seq<CaseId>>,
                                        rows': map<CaseId, IndexRow>, newest: set<CaseId>)
    requires IsRounds(cases, rows, embed, windows, rows')
    requires forall i :: 0 <= i < |windows| ==> ToSet(windows[i]) == newest
    ensures |newest - rows'.Keys| == Max(0, |newest - rows.Keys| - BATCH * |windows|)
    ensures rows.Keys <= rows'.Keys <= rows.Keys + newest
    decreases |windows|
  {
    hide IsWindow, AfterRound, ToSet, Eligible, Todo;
    if windows != [] {
      var w := windows[0];
      RoundCounts(cases, rows, w, embed);
      RoundsShrink(cases, AfterRound(cases, rows, w, embed), embed, windows[1..], rows', newest);
    }
  }

  /** One more round over these cases would add nothing. */
  ghost predicate IsFixed(cases: map<CaseId, Case>, rows: map<CaseId, IndexRow>, embed: string -> EmbedResult,
                          window: seq<CaseId>, newest: set<CaseId>)
  {
    IsWindow(cases, window) && ToSet(window) == newest ==> AfterRound(cases, rows, window, embed) == rows
  }

  /** The rounds have covered the window, on top of what was there, exactly when there were at least as many as the
      waiting cases fill. From then on a round adds nothing. */
  lemma CoveredAfterCeilRounds(cases: map<CaseId, Case>, rows: map<CaseId, IndexRow>, embed: string -> EmbedResult,
                               windows: seq<seq<CaseId>>, rows': map<CaseId, IndexRow>, newest: set<CaseId>)
    requires IsRounds(cases, rows, embed, windows, rows')
    requires forall i :: 0 <= i < |windows| ==> ToSet(windows[i]) == newest
    ensures rows'.Keys == rows.Keys + newest <==> |windows| >= CeilDiv(|newest - rows.Keys|, 25)
    ensures rows'.Keys == rows.Keys + newest ==> forall w: seq<CaseId> :: IsFixed(cases, rows', embed, w, newest)
  {
    hide IsWindow, IsRounds;
    RoundsShrink(cases, rows, embed, windows, rows', newest);
    var waiting := newest - rows'.Keys;
    if waiting == {} {
      assert rows'.Keys == rows.Keys + newest;
    }
    if rows'.Keys == rows.Keys + newest {
      assert waiting == {};
      forall w: seq<CaseId>
        ensures IsFixed(cases, rows', embed, w, newest)
      {
        if IsWindow(cases, w) && ToSet(w) == newest {
          CoveredIsFixed(cases, rows', w, embed);
        }
      }
    }
  }

  lemma CoveredIsFixed(cases: map<CaseId, Case>, rows: map<CaseId, IndexRow>, window: seq<CaseId>,
                       embed: string -> EmbedResult)
    requires IsWindow(cases, window) && ToSet(window) <= rows.Keys
    ensures AfterRound(cases, rows, window, embed) == rows
  {
    RoundCounts(cases, rows, window, embed);
    assert ToSet(window) - rows.Keys == {};
    NothingToDo(cases, rows, window, embed);
  }

  /** When the indexer has caught up with every closed case: enough rounds, and none waiting outside the window. */
  lemma CaughtUpExactlyWhen(cases: map<CaseId, Case>, rows: map<CaseId, IndexRow>, embed: string -> EmbedResult,
                            windows: seq<seq<CaseId>>, rows': map<CaseId, IndexRow>, newest: set<CaseId>)
    requires IsRounds(cases, rows, embed, windows, rows')
    requires forall i :: 0 <= i < |windows| ==> ToSet(windows[i]) == newest
    requires newest <= Eligible(cases)
    ensures Eligible(cases) <= rows'.Keys
            <==> |windows| >= CeilDiv(|newest - rows.Keys|, 25) && Eligible(cases) <= rows.Keys + newest
  {
    hide IsWindow, IsRounds, Eligible, AfterRound;
    RoundsShrink(cases, rows, embed, windows, rows', newest);
    CoveredAfterCeilRounds(cases, rows, embed, windows, rows', newest);
  }

  lemma WindowSize(cases: map<CaseId, Case>, window: seq<CaseId>)
    requires IsWindow(cases, window)
    ensures ToSet(window) <= Eligible(cases) && |ToSet(window)| == Min(WINDOW, |Eligible(cases)|)
  {
    DistinctSize(window);
  }

  lemma SameSize<T>(s: set<T>, t: set<T>)
    requires s <= t && |s| == |t|
    ensures s == t
  {
    assert t == s + (t - s);
  }

  /** Up to 100 closed cases, every window holds them all: the indexer catches up. */
  lemma SmallTableFitsWindow(cases: map<CaseId, Case>, window: seq<CaseId>)
    requires IsWindow(cases, window)
    ensures ToSet(window) == Eligible(cases) <==> |Eligible(cases)| <= 100
  {
    WindowSize(cases, window);
    if |Eligible(cases)| <= WINDOW {
      SameSize(ToSet(window), Eligible(cases));
    }
  }

  /** The windows of an unchanging table hold the same cases unless a tie straddles the cut. */
  lemma WindowIsDetermined(cases: map<CaseId, Case>, v: seq<CaseId>, w: seq<CaseId>)
    requires IsWindow(cases, v) && IsWindow(cases, w)
    requires forall c, d :: c in v && d in Eligible(cases) && d !in v ==> Updated(cases, c) != Updated(cases, d)
    ensures ToSet(v) == ToSet(w)
  {
    WindowSize(cases, v);
    WindowSize(cases, w);
    hide IsWindow, Updated;
    if ToSet(w) <= ToSet(v) {
      SameSize(ToSet(w), ToSet(v));
    } else if ToSet(v) <= ToSet(w) {
      SameSize(ToSet(v), ToSet(w));
    } else {
      var c :| c in ToSet(v) && c !in ToSet(w);
      var d :| d in ToSet(w) && d !in ToSet(v);
      TieAtTheCut(cases, v, w, c, d);
      assert false;
    }
  }

  lemma TieAtTheCut(cases: map<CaseId, Case>, v: seq<CaseId>, w: seq<CaseId>, c: CaseId, d: CaseId)
    requires IsWindow(cases, v) && IsWindow(cases, w) && c in v && c !in w && d in w && d !in v
    ensures Updated(cases, c) == Updated(cases, d) && d in Eligible(cases)
  {
  }

  /* ---------- cases that are never reached ---------- */

  lemma NewerFillWindow(cases: map<CaseId, Case>, window: seq<CaseId>, c: CaseId, newer: set<CaseId>)
    requires IsWindow(cases, window) && newer <= Eligible(cases) && |newer| >= WINDOW
    requires forall d :: d in newer ==> Updated(cases, d) > Updated(cases, c)
    ensures c !in window
  {
    WindowSize(cases, window);
    if c in window {
      forall d | d in newer
        ensures d in ToSet(window)
      {
        assert d in Eligible(cases);
      }
      assert newer + {c} <= ToSet(window);
      SubsetSize(newer + {c}, ToSet(window));
    }
  }

  lemma SubsetSize<T>(s: set<T>, t: set<T>)
    requires s <= t
    ensures |s| <= |t|
  {
    assert t == s + (t - s);
  }

  /** On an unchanging table no number of rounds embeds a case that 100 closed cases were updated after. */
  lemma {:induction false} NeverReached(cases: map<CaseId, Case>, rows: map<CaseId, IndexRow>,
                                        embed: string -> EmbedResult, windows: seq<seq<CaseId>>,
                                        rows': map<CaseId, IndexRow>, c: CaseId, newer: set<CaseId>)
    requires IsRounds(cases, rows, embed, windows, rows') && c !in rows
    requires newer <= Eligible(cases) && |newer| >= 100
    requires forall d :: d in newer ==> Updated(cases, d) > Updated(cases, c)
    ensures c !in rows'
    decreases |windows|
  {
    hide IsWindow, AfterRound, Updated, Eligible, Todo;
    if windows != [] {
      var w := windows[0];
      NewerFillWindow(cases, w, c, newer);
      RoundAdds(cases, rows, w, embed, c);
      TodoInWindow(w, rows.Keys, c);
      NeverReached(cases, AfterRound(cases, rows, w, embed), embed, windows[1..], rows', c, newer);
    }
  }

  lemma TodoInWindow(window: seq<CaseId>, already: set<CaseId>, c: CaseId)
    ensures c in Todo(window, already) ==> c in window
  {
    if c in Todo(window, already) {
      assert c in Remaining(window, already);
    }
  }

  /* ---------- progress while others edit the cases ---------- */

  /** The closed cases that a window takes no later than this one, itself included. */
  function NoOlder(cases: map<CaseId, Case>, c: CaseId): set<CaseId> {
    set d | d in Eligible(cases) && Updated(cases, d) >= Updated(cases, c)
  }

  /** In every edit of the run the case stays closed and as it was updated, and no case comes to stand before it: none
      is closed, and no older one touched. */
  ghost predicate QuietRun(cases: map<CaseId, Case>, steps: seq<Step>, c: CaseId)
    decreases |steps|
  {
    steps == [] ||
    match steps[0]
    case Edit(cases') =>
      c in Eligible(cases') && NoOlder(cases', c) <= NoOlder(cases, c) && QuietRun(cases', steps[1..], c)
    case _ => QuietRun(cases, steps[1..], c)
  }

  function Rounds(steps: seq<Step>): nat {
    if steps == [] then 0 else (if steps[0].Round? then 1 else 0) + Rounds(steps[1..])
  }

  lemma InWindow(cases: map<CaseId, Case>, window: seq<CaseId>, c: CaseId)
    requires IsWindow(cases, window) && c in Eligible(cases) && |NoOlder(cases, c)| <= WINDOW
    ensures c in window
  {
    WindowSize(cases, window);
    if |Eligible(cases)| <= WINDOW {
      SameSize(ToSet(window), Eligible(cases));
    } else if c !in window {
      assert ToSet(window) + {c} <= NoOlder(cases, c);
      SubsetSize(ToSet(window) + {c}, NoOlder(cases, c));
    }
  }

  ghost predicate Descends<T>(key: T -> int, s: seq<T>) {
    forall i, j :: 0 <= i < j < |s| ==> key(s[i]) >= key(s[j])
  }

  lemma {:induction false} FilterDescends<T>(keep: T -> bool, key: T -> int, s: seq<T>)
    requires Descends(key, s)
    ensures Descends(key, Filter(keep, s))
  {
    if s != [] {
      assert forall i :: 0 <= i < |s| - 1 ==> s[1..][i] == s[i + 1];
      FilterDescends(keep, key, s[1..]);
      var r := Filter(keep, s[1..]);
      forall j | 0 <= j < |r|
        ensures key(s[0]) >= key(r[j])
      {
        assert r[j] in s[1..];
      }
      assert Filter(keep, s) == if keep(s[0]) then [s[0]] + r else r;
    }
  }

  lemma RemainingDescends(cases: map<CaseId, Case>, window: seq<CaseId>, already: set<CaseId>)
    requires IsWindow(cases, window)
    ensures Descends((d: CaseId) => Updated(cases, d), Remaining(window, already))
  {
    hide Updated;
    var key := (d: CaseId) => Updated(cases, d);
    assert Descends(key, window);
    FilterDescends(d => d !in already, key, window);
  }

  lemma TodoIsBefore(cases: map<CaseId, Case>, window: seq<CaseId>, already: set<CaseId>, c: CaseId, d: CaseId)
    requires Descends((d: CaseId) => Updated(cases, d), Remaining(window, already))
    requires c in Remaining(window, already) && c !in Todo(window, already) && d in Todo(window, already)
    ensures Updated(cases, d) >= Updated(cases, c) && d in window && d !in already
  {
    hide Updated;
    var r := Remaining(window, already);
    var k :| 0 <= k < |r| && r[k] == c;
    assert |r| > BATCH;
    assert forall i :: 0 <= i < BATCH ==> r[..BATCH][i] == r[i];
    var i :| 0 <= i < BATCH && r[..BATCH][i] == d;
    assert r[i] == d && i < k;
  }

  /** A round that leaves the case out is full of waiting cases no older than it. */
  lemma LeftOutByNewer(cases: map<CaseId, Case>, window: seq<CaseId>, already: set<CaseId>, c: CaseId)
    requires IsWindow(cases, window) && c in window && c !in already && c !in Todo(window, already)
    ensures var todo := ToSet(Todo(window, already)); todo <= NoOlder(cases, c) - already && |todo| == BATCH
  {
    RemainingDescends(cases, window, already);
    TodoIsNew(window, already);
    InEligible(cases, window);
    DistinctSize(Todo(window, already));
    assert c in Remaining(window, already);
    hide Updated, IsWindow, Eligible, Remaining, Todo, Descends;
    assert |Todo(window, already)| == BATCH by {
      IsFull(window, already, c);
    }
    forall d | d in ToSet(Todo(window, already))
      ensures d in NoOlder(cases, c) && d !in already
    {
      TodoIsBefore(cases, window, already, c, d);
    }
  }

  lemma InEligible(cases: map<CaseId, Case>, window: seq<CaseId>)
    requires IsWindow(cases, window)
    ensures Distinct(window) && forall d :: d in window ==> d in Eligible(cases)
  {
  }

  lemma IsFull(window: seq<CaseId>, already: set<CaseId>, c: CaseId)
    requires c in Remaining(window, already) && c !in Todo(window, already)
    ensures |Todo(window, already)| == BATCH
  {
  }

  /** One round: the case is embedded, or a batch of those before it is. */
  lemma RoundAdvances(cases: map<CaseId, Case>, rows: map<CaseId, IndexRow>, window: seq<CaseId>,
                      embed: string -> EmbedResult, c: CaseId)
    requires IsWindow(cases, window) && c in Eligible(cases) && c !in rows && |NoOlder(cases, c)| <= WINDOW
    ensures forall d :: d in window ==> d in cases
    ensures var rows' := AfterRound(cases, rows, window, embed);
            c in rows' || |NoOlder(cases, c) - rows'.Keys| == |NoOlder(cases, c) - rows.Keys| - BATCH
  {
    InWindow(cases, window, c);
    WindowIsOfCases(cases, window);
    RoundIs(cases, rows, window, embed);
    hide IsWindow, AfterRound, NoOlder, Todo;
    var todo := Todo(window, rows.Keys);
    if c !in todo {
      LeftOutByNewer(cases, window, rows.Keys, c);
      TakesBatch(NoOlder(cases, c), rows.Keys, ToSet(todo));
    }
    assert AfterRound(cases, rows, window, embed).Keys == rows.Keys + ToSet(todo);
  }

  lemma TakesBatch(ahead: set<CaseId>, already: set<CaseId>, todo: set<CaseId>)
    requires todo <= ahead - already
    ensures |ahead - (already + todo)| == |ahead - already| - |todo|
  {
    assert ahead - (already + todo) == (ahead - already) - todo;
  }

  lemma {:induction false} RunAdvances(cases: map<CaseId, Case>, rows: map<CaseId, IndexRow>,
                                       embed: string -> EmbedResult, steps: seq<Step>,
                                       rows': map<CaseId, IndexRow>, c: CaseId)
    requires IsRun(cases, rows, embed, steps, rows') && QuietRun(cases, steps, c)
    requires c in Eligible(cases) && |NoOlder(cases, c)| <= WINDOW
    ensures c in rows' || BATCH * Rounds(steps) < |NoOlder(cases, c) - rows.Keys|
    decreases |steps|
  {
    hide IsWindow, AfterRound, NoOlder, Eligible;
    if c in rows {
      EmbeddedAtMostOnce(cases, rows, embed, steps, rows', c);
    } else if steps == [] {
      Waits(cases, rows.Keys, c);
    } else {
      match steps[0]
      case Round(w) =>
        WindowIsOfCases(cases, w);
        var rows1 := AfterRound(cases, rows, w, embed);
        RoundAdvances(cases, rows, w, embed, c);
        if c in rows1 {
          EmbeddedAtMostOnce(cases, rows1, embed, steps[1..], rows', c);
        } else {
          RunAdvances(cases, rows1, embed, steps[1..], rows', c);
        }
      case Interrupted => RunAdvances(cases, rows, embed, steps[1..], rows', c);
      case Edit(cases') =>
        SubsetSize(NoOlder(cases', c), NoOlder(cases, c));
        SubsetSize(NoOlder(cases', c) - rows.Keys, NoOlder(cases, c) - rows.Keys);
        RunAdvances(cases', rows, embed, steps[1..], rows', c);
    }
  }

  lemma Waits(cases: map<CaseId, Case>, already: set<CaseId>, c: CaseId)
    requires c in Eligible(cases) && c !in already
    ensures |NoOlder(cases, c) - already| > 0
  {
    assert c in NoOlder(cases, c) - already;
  }

  /** While others edit the cases and rounds are interrupted: a closed case inside the window, with n waiting cases no
      older, is embedded within ceil(n / 25) rounds, unless a case comes to stand before it. */
  lemma EmbeddedInCeilRounds(cases: map<CaseId, Case>, rows: map<CaseId, IndexRow>, embed: string -> EmbedResult,
                             steps: seq<Step>, rows': map<CaseId, IndexRow>, c: CaseId)
    requires IsRun(cases, rows, embed, steps, rows') && QuietRun(cases, steps, c)
    requires c in Eligible(cases) && |NoOlder(cases, c)| <= 100
    requires Rounds(steps) >= CeilDiv(|NoOlder(cases, c) - rows.Keys|, 25)
    ensures c in rows'
  {
    hide IsRun, QuietRun, NoOlder, Eligible;
    RunAdvances(cases, rows, embed, steps, rows', c);
  }

  /** 101 closed cases, each updated after the one before it. */
  function Crowd(): map<CaseId, Case> { map c: CaseId | 0 <= c < 101 :: Case(0, "closed", None, c, "") }

  function UpTo(n: nat): (s: set<CaseId>)
    ensures |s| == n && forall c: CaseId :: c in s <==> 1 <= c <= n
  {
    if n == 0 then {} else UpTo(n - 1) + {n}
  }

  /** So the indexer does not always catch up: of these, the first is closed and never embedded. */
  lemma CrowdIsNeverCaughtUp(embed: string -> EmbedResult, windows: seq<seq<CaseId>>, rows': map<CaseId, IndexRow>)
    requires IsRounds(Crowd(), map[], embed, windows, rows')
    ensures 0 in Eligible(Crowd()) && 0 !in rows'
  {
    hide IsRounds, IsWindow;
    NeverReached(Crowd(), map[], embed, windows, rows', 0, UpTo(100));
  }
}
