/** From the outbox to its consumers: the notification dispatcher (notifications/dispatcher.py) and the live feed
    (api/v1/live.py). */
module Routing {
  import opened Prelude
  import opened Channels
  import Outbox
  import OutboxContent

  /* ---------- rule filters ---------- */

  datatype Json =
    | Null
    | Bool(b: bool)
    | Number(n: int)
    | Text(s: string)
    | List(items: seq<Json>)
    | Object(fields: map<string, Json>)

  type Event = map<string, Json>

  function Get(event: Event, key: string): Json { if key in event then event[key] else Null }

  predicate FieldMatches(expected: Json, actual: Json) {
    if expected.List? then actual in expected.items else actual == expected
  }

  predicate Matches(filter: map<string, Json>, event: Event) {
    forall k :: k in filter ==> FieldMatches(filter[k], Get(event, k))
  }

  method CheckFilter(filter: map<string, Json>, event: Event) returns (ok: bool)
    ensures ok == Matches(filter, event)
  {
    var keys := filter.Keys;
    while keys != {}
      invariant keys <= filter.Keys
      invariant forall k :: k in filter && k !in keys ==> FieldMatches(filter[k], Get(event, k))
      decreases |keys|
    {
      var k :| k in keys;
      keys := keys - {k};
      var expected, actual := filter[k], Get(event, k);
      if expected.List? {
        if actual !in expected.items {
          return false;
        }
      } else if actual != expected {
        return false;
      }
    }
    return true;
  }

  /** A filter is the conjunction of its entries: more keys, fewer events. */
  lemma MatchesIsAntitone(f: map<string, Json>, g: map<string, Json>, event: Event)
    requires f.Keys !! g.Keys
    ensures Matches(f + g, event) <==> Matches(f, event) && Matches(g, event)
    ensures Matches(map[], event)
  {
    if Matches(f + g, event) {
      forall k | k in f
        ensures FieldMatches(f[k], Get(event, k))
      {
        assert k in f + g && (f + g)[k] == f[k];
      }
      forall k | k in g
        ensures FieldMatches(g[k], Get(event, k))
      {
        assert k in f + g && (f + g)[k] == g[k];
      }
    }
  }

  /* ---------- dispatching one event ---------- */

  type RuleId = nat

  datatype Rule = Rule(id: RuleId, org: Uuid, enabled: bool, filter: map<string, Json>, endpointIds: seq<string>)

  datatype Endpoint = Endpoint(org: Uuid, enabled: bool)

  datatype Post = Delivered | Refused(error: string) | Raised

  datatype Delivery = Delivery(org: Uuid, rule: RuleId, endpoint: Uuid, event: Event, succeeded: bool,
                               error: Option<string>)

  predicate Usable(endpoints: map<Uuid, Endpoint>, org: Uuid, id: Uuid) {
    id in endpoints && endpoints[id].org == org && endpoints[id].enabled
  }

  predicate Fires(rule: Rule, org: Uuid, event: Event) {
    rule.org == org && rule.enabled && Matches(rule.filter, event)
  }

  /** How many of the listed ids name this endpoint. */
  function Listed(ids: seq<string>, e: Uuid): nat {
    if ids == [] then 0 else Listed(ids[..|ids| - 1], e) + if Parse(ids[|ids| - 1]) == Some(e) then 1 else 0
  }

  function Deliveries(rows: seq<Delivery>, rule: RuleId, e: Uuid): nat {
    if rows == [] then 0
    else
      var d := rows[|rows| - 1];
      Deliveries(rows[..|rows| - 1], rule, e) + if d.rule == rule && d.endpoint == e then 1 else 0
  }

  /** What each rule earns each endpoint: one delivery per listed id if the rule fires and the endpoint is usable. */
  function Owed(rules: seq<Rule>, endpoints: map<Uuid, Endpoint>, org: Uuid, event: Event, rule: RuleId, e: Uuid): nat {
    if rules == [] then 0
    else
      var r := rules[|rules| - 1];
      Owed(rules[..|rules| - 1], endpoints, org, event, rule, e)
      + if r.id == rule && Fires(r, org, event) && Usable(endpoints, org, e) then Listed(r.endpointIds, e) else 0
  }

  predicate Records(d: Delivery, org: Uuid, event: Event, answer: Post) {
    && d.org == org && d.event == event && d.succeeded == answer.Delivered?
    && d.error == if answer.Refused? then Some(answer.error) else None
  }

  /** Rows of one event, the i-th recording the answer to the i-th request. */
  ghost predicate Recorded(rows: seq<Delivery>, org: Uuid, event: Event, endpoints: map<Uuid, Endpoint>,
                           post: nat -> Post) {
    forall i :: 0 <= i < |rows| ==> Records(rows[i], org, event, post(i)) && Usable(endpoints, org, rows[i].endpoint)
  }

  /** The rows gained are those the rule owes for these ids. */
  ghost predicate Gained(rows0: seq<Delivery>, rows: seq<Delivery>, rule: RuleId, org: Uuid,
                         endpoints: map<Uuid, Endpoint>, ids: seq<string>)
  {
    forall r, e :: Deliveries(rows, r, e) == Deliveries(rows0, r, e)
                                             + if r == rule && Usable(endpoints, org, e) then Listed(ids, e) else 0
  }

  lemma GainStep(rows0: seq<Delivery>, rows: seq<Delivery>, rule: RuleId, org: Uuid, endpoints: map<Uuid, Endpoint>,
                 ids: seq<string>, k: nat, more: seq<Delivery>)
    requires k < |ids| && Gained(rows0, rows, rule, org, endpoints, ids[..k])
    requires var id := Parse(ids[k]);
             if id.Some? && Usable(endpoints, org, id.value)
             then |more| == 1 && more[0].rule == rule && more[0].endpoint == id.value
             else more == []
    ensures Gained(rows0, rows + more, rule, org, endpoints, ids[..k + 1])
  {
    hide Parse, Usable;
    assert ids[..k + 1][..k] == ids[..k];
    if more == [] {
      assert rows + more == rows;
    } else {
      assert (rows + more)[..|rows|] == rows;
    }
  }

  lemma OwedStep(rules: seq<Rule>, k: nat, endpoints: map<Uuid, Endpoint>, org: Uuid, event: Event)
    requires k < |rules|
    ensures forall r, e :: Owed(rules[..k + 1], endpoints, org, event, r, e)
                           == Owed(rules[..k], endpoints, org, event, r, e)
                              + if rules[k].id == r && Fires(rules[k], org, event) && Usable(endpoints, org, e)
                                then Listed(rules[k].endpointIds, e) else 0
  {
    assert rules[..k + 1][..k] == rules[..k];
  }

  lemma NothingGained(rows: seq<Delivery>, rule: RuleId, org: Uuid, endpoints: map<Uuid, Endpoint>, ids: seq<string>)
    ensures Gained(rows, rows, rule, org, endpoints, ids[..0])
  {
    assert forall e :: Listed(ids[..0], e) == 0;
  }

  lemma NothingOwed(rules: seq<Rule>, endpoints: map<Uuid, Endpoint>, org: Uuid, event: Event)
    ensures forall r, e :: Deliveries([], r, e) == Owed(rules[..0], endpoints, org, event, r, e)
  {
    assert rules[..0] == [];
  }

  /** What a completed dispatch adds: for every rule and endpoint the rows owed, recording the answers. */
  ghost predicate Settles(rules: seq<Rule>, endpoints: map<Uuid, Endpoint>, org: Uuid, event: Event,
                          post: nat -> Post, rows: seq<Delivery>)
  {
    && Recorded(rows, org, event, endpoints, post)
    && (forall r, e :: Deliveries(rows, r, e) == Owed(rules, endpoints, org, event, r, e))
  }

  /** What handling one message adds. */
  ghost predicate Handles(rules: seq<Rule>, endpoints: map<Uuid, Endpoint>, channel: string, data: Option<Event>,
                          post: nat -> Post, rows: seq<Delivery>)
  {
    var org := OrgOfChannel(channel);
    if org.None? || data.None? then rows == []
    else (rows == [] && exists n :: post(n).Raised?) || Settles(rules, endpoints, org.value, data.value, post, rows)
  }

  /* ---------- the messages of the publisher ---------- */

  /** How identifiers and times are printed. */
  datatype Show = Show(id: Outbox.Id -> string, time: int -> string)

  function Texts(fields: map<string, string>): Json { Object(map k | k in fields :: Text(fields[k])) }

  function PayloadOf(p: Outbox.Payload): Json {
    match p
    case Given(fields) => Texts(fields)
    case Entity(id, diff) =>
      Object(map["entity_id" := if id.Some? then Text(id.value) else Null, "diff" := Texts(diff)])
  }

  /** The JSON object that is published, and that a consumer reads back. */
  function EventFor(m: Outbox.Message, show: Show): Event {
    map["id" := Text(show.id(m.event)),
        "organization_id" := if m.org.Some? then Text(Print(m.org.value)) else Null,
        "event_type" := Text(m.eventType),
        "payload" := PayloadOf(m.payload),
        "created_at" := Text(show.time(m.createdAt))]
  }

  /** The configuration a message meets, and the answers to the requests made for it. */
  datatype Moment = Moment(rules: seq<Rule>, endpoints: map<Uuid, Endpoint>, post: nat -> Post)

  ghost predicate HandledAt(m: Outbox.Message, show: Show, t: Moment, rows: seq<Delivery>) {
    Handles(t.rules, t.endpoints, m.channel, Some(EventFor(m, show)), t.post, rows)
  }

  ghost predicate AllHandled(log: seq<Outbox.Message>, show: Show, picks: seq<nat>, moments: seq<Moment>,
                             batches: seq<seq<Delivery>>)
  {
    && |batches| == |picks| == |moments|
    && (forall k :: 0 <= k < |picks| ==> picks[k] < |log|)
    && (forall k :: 0 <= k < |picks| ==> HandledAt(log[picks[k]], show, moments[k], batches[k]))
  }

  function Flatten(batches: seq<seq<Delivery>>): seq<Delivery> {
    if batches == [] then [] else Flatten(batches[..|batches| - 1]) + batches[|batches| - 1]
  }

  class Dispatcher {
    var rules: seq<Rule>
    var endpoints: map<Uuid, Endpoint>
    var deliveries: seq<Delivery>

    constructor (rules: seq<Rule>, endpoints: map<Uuid, Endpoint>)
      ensures this.rules == rules && this.endpoints == endpoints && deliveries == []
    {
      this.rules, this.endpoints, deliveries := rules, endpoints, [];
    }

    /** The deliveries of one rule, after those in `rows0`; none at all when a request raises. `post` answers the n-th
        request made while this event is dispatched. */
    method DispatchRule(rule: Rule, org: Uuid, event: Event, post: nat -> Post, rows0: seq<Delivery>)
      returns (r: Option<seq<Delivery>>)
      requires Recorded(rows0, org, event, endpoints, post)
      ensures r.None? ==> exists n :: post(n).Raised?
      ensures r.Some? ==> && Recorded(r.value, org, event, endpoints, post)
                          && Gained(rows0, r.value, rule.id, org, endpoints, rule.endpointIds)
    {
      hide Parse, Deliveries, Listed;
      var ids, rows := rule.endpointIds, rows0;
      NothingGained(rows0, rule.id, org, endpoints, ids);
      for k := 0 to |ids|
        invariant Recorded(rows, org, event, endpoints, post)
        invariant Gained(rows0, rows, rule.id, org, endpoints, ids[..k])
      {
        var id, more := Parse(ids[k]), [];
        if id.Some? && id.value in endpoints && endpoints[id.value].org == org && endpoints[id.value].enabled {
          var answer := post(|rows|);
          if answer.Raised? {
            return None;
          }
          more := [Delivery(org, rule.id, id.value, event, answer.Delivered?,
                            if answer.Refused? then Some(answer.error) else None)];
        }
        GainStep(rows0, rows, rule.id, org, endpoints, ids, k, more);
        rows := rows + more;
      }
      assert ids[..|ids|] == ids;
      return Some(rows);
    }

    /** A dispatch that is not cut short by an exception commits, for every rule and endpoint, exactly the deliveries
        owed; one that is cut short commits none. */
    method DispatchEvent(org: Uuid, event: Event, post: nat -> Post) returns (committed: bool)
      modifies this`deliveries
      ensures !committed ==> deliveries == old(deliveries)
      ensures (forall n :: !post(n).Raised?) ==> committed
      ensures rules == old(rules) && endpoints == old(endpoints)
      ensures committed ==>
                exists rows: seq<Delivery> ::
                  deliveries == old(deliveries) + rows && Settles(rules, endpoints, org, event, post, rows)
    {
      hide Deliveries, Owed, Listed;
      var rows: seq<Delivery> := [];
      NothingOwed(rules, endpoints, org, event);
      for k := 0 to |rules|
        invariant Recorded(rows, org, event, endpoints, post) && deliveries == old(deliveries)
        invariant forall r, e :: Deliveries(rows, r, e) == Owed(rules[..k], endpoints, org, event, r, e)
      {
        OwedStep(rules, k, endpoints, org, event);
        var rule := rules[k];
        if rule.org == org && rule.enabled {
          var ok := CheckFilter(rule.filter, event);
          if ok {
            var r := DispatchRule(rule, org, event, post, rows);
            if r.None? {
              return false;
            }
            rows := r.value;
          }
        }
      }
      assert rules[..|rules|] == rules;
      deliveries := deliveries + rows;
      assert Settles(rules, endpoints, org, event, post, rows);
      return true;
    }

    /** One message of the pattern subscription. A channel that names no organization delivers nothing; one that does
        gets the event dispatched in that organization, unless a request raises. */
    method HandleMessage(channel: string, data: Option<Event>, post: nat -> Post)
      modifies this`deliveries
      ensures rules == old(rules) && endpoints == old(endpoints)
      ensures exists rows: seq<Delivery> ::
                deliveries == old(deliveries) + rows && Handles(rules, endpoints, channel, data, post, rows)
    {
      hide Deliveries, Owed, Recorded;
      ghost var before := deliveries;
      var org := Parse(LastSegment(channel));
      if org.None? || data.None? {
        assert deliveries == before + [] && Handles(rules, endpoints, channel, data, post, []);
        return;
      }
      var committed := DispatchEvent(org.value, data.value, post);
      if !committed {
        assert deliveries == before + [] && Handles(rules, endpoints, channel, data, post, []);
      }
    }

    /** Any messages of a log, in any order, each handled under the rules and endpoints of its moment. */
    method HandleMessages(log: seq<Outbox.Message>, show: Show, picks: seq<nat>, moments: seq<Moment>)
      requires |moments| == |picks| && forall k :: 0 <= k < |picks| ==> picks[k] < |log|
      modifies this
      ensures exists batches: seq<seq<Delivery>> ::
                deliveries == old(deliveries) + Flatten(batches) && AllHandled(log, show, picks, moments, batches)
    {
      hide Handles, EventFor;
      ghost var batches: seq<seq<Delivery>> := [];
      assert deliveries + [] == deliveries;
      for k := 0 to |picks|
        invariant |batches| == k && deliveries == old(deliveries) + Flatten(batches)
        invariant forall i :: 0 <= i < k ==> HandledAt(log[picks[i]], show, moments[i], batches[i])
      {
        ghost var before := deliveries;
        var m := log[picks[k]];
        rules, endpoints := moments[k].rules, moments[k].endpoints;
        HandleMessage(m.channel, Some(EventFor(m, show)), moments[k].post);
        ghost var rows :| deliveries == before + rows
                          && Handles(rules, endpoints, m.channel, Some(EventFor(m, show)), moments[k].post, rows);
        FlattenOneMore(batches, rows);
        assert before + rows == old(deliveries) + (Flatten(batches) + rows);
        batches := batches + [rows];
      }
    }
  }

  lemma FlattenOneMore(batches: seq<seq<Delivery>>, rows: seq<Delivery>)
    ensures Flatten(batches + [rows]) == Flatten(batches) + rows
  {
    assert (batches + [rows])[..|batches|] == batches;
  }

  /** With distinct rule ids, the count owed is that of the one rule with the id. */
  lemma {:induction false} OwedByRule(rules: seq<Rule>, endpoints: map<Uuid, Endpoint>, org: Uuid, event: Event,
                                      k: nat, e: Uuid)
    requires k < |rules| && forall i, j :: 0 <= i < j < |rules| ==> rules[i].id != rules[j].id
    ensures Owed(rules, endpoints, org, event, rules[k].id, e)
            == if Fires(rules[k], org, event) && Usable(endpoints, org, e) then Listed(rules[k].endpointIds, e) else 0
  {
    var n := |rules| - 1;
    if k < n {
      OwedByRule(rules[..n], endpoints, org, event, k, e);
    } else {
      OwedToNone(rules[..n], endpoints, org, event, rules[k].id, e);
    }
  }

  lemma {:induction false} OwedToNone(rules: seq<Rule>, endpoints: map<Uuid, Endpoint>, org: Uuid, event: Event,
                                      r: RuleId, e: Uuid)
    requires forall i :: 0 <= i < |rules| ==> rules[i].id != r
    ensures Owed(rules, endpoints, org, event, r, e) == 0
  {
    if rules != [] {
      OwedToNone(rules[..|rules| - 1], endpoints, org, event, r, e);
    }
  }

  /* ---------- end to end ---------- */

  /** What a message of the publisher is: a committed row, on the channel of the row's own organization. */
  lemma MessageIsOfRow(steps: seq<Outbox.Step>, s: Outbox.State, i: nat)
    requires Outbox.IsRun(Outbox.Start, steps, s) && i < |s.log|
    ensures var m := s.log[i];
            && m.event in s.outbox && m == Outbox.MessageOf(m.event, s.outbox[m.event])
            && OrgOfChannel(m.channel) == s.outbox[m.event].org
  {
    Outbox.MessagesAreCommittedEvents(steps, s, i);
    Outbox.RunKeepsSent(Outbox.Start, steps, s);
    assert Outbox.SameEvent(s.log[i], s.outbox[s.log[i].event]);
  }

  /** The row carries the event published for outbox row `x`, in the organization of that row. */
  ghost predicate CarriesOwnEvent(d: Delivery, outbox: map<Outbox.Id, Outbox.OutboxRow>, show: Show, x: Outbox.Id) {
    && x in outbox && outbox[x].org == Some(d.org)
    && d.event == EventFor(Outbox.MessageOf(x, outbox[x]), show)
    && d.event["organization_id"] == Text(Print(d.org))
  }

  /** What is owed for a message: nothing for a global event. */
  ghost function OwedFor(m: Outbox.Message, show: Show, t: Moment, r: RuleId, e: Uuid): nat {
    if m.org.Some? then Owed(t.rules, t.endpoints, m.org.value, EventFor(m, show), r, e) else 0
  }

  lemma HandledRows(steps: seq<Outbox.Step>, s: Outbox.State, i: nat, show: Show, t: Moment, rows: seq<Delivery>)
    requires Outbox.IsRun(Outbox.Start, steps, s) && i < |s.log| && HandledAt(s.log[i], show, t, rows)
    ensures forall d :: d in rows ==> CarriesOwnEvent(d, s.outbox, show, s.log[i].event)
    ensures s.log[i].org.None? ==> rows == []
    ensures rows != [] || (forall n :: !t.post(n).Raised?)
            ==> forall r, e :: Deliveries(rows, r, e) == OwedFor(s.log[i], show, t, r, e)
  {
    MessageIsOfRow(steps, s, i);
    hide Outbox.IsRun, Owed, PayloadOf, Channel, OrgOfChannel;
    forall d | d in rows
      ensures CarriesOwnEvent(d, s.outbox, show, s.log[i].event)
    {
      var k :| 0 <= k < |rows| && rows[k] == d;
      assert Records(rows[k], s.outbox[s.log[i].event].org.value, EventFor(s.log[i], show), t.post(k));
    }
  }

  /** Whatever messages of whatever run of the publisher reach the dispatcher, under whatever rules: every delivery row
      carries its own organization's event, and a global event makes none. */
  lemma DeliveriesCarryOwnEvents(steps: seq<Outbox.Step>, s: Outbox.State, show: Show, picks: seq<nat>,
                                 moments: seq<Moment>, batches: seq<seq<Delivery>>, d: Delivery)
    requires Outbox.IsRun(Outbox.Start, steps, s) && AllHandled(s.log, show, picks, moments, batches)
    ensures d in Flatten(batches) ==>
              exists k ::
                && 0 <= k < |picks| && d in batches[k]
                && CarriesOwnEvent(d, s.outbox, show, s.log[picks[k]].event)
    ensures forall k :: 0 <= k < |picks| && s.log[picks[k]].org.None? ==> batches[k] == []
  {
    hide Outbox.IsRun, CarriesOwnEvent, HandledAt, Deliveries;
    forall k | 0 <= k < |picks|
      ensures d in batches[k] ==> CarriesOwnEvent(d, s.outbox, show, s.log[picks[k]].event)
      ensures s.log[picks[k]].org.None? ==> batches[k] == []
    {
      HandledRows(steps, s, picks[k], show, moments[k], batches[k]);
    }
    if d in Flatten(batches) {
      var k := InSomeBatch(batches, d);
    }
  }

  lemma {:induction false} InSomeBatch(batches: seq<seq<Delivery>>, d: Delivery) returns (k: nat)
    requires d in Flatten(batches)
    ensures k < |batches| && d in batches[k]
  {
    var n := |batches| - 1;
    if d in batches[n] {
      k := n;
    } else {
      k := InSomeBatch(batches[..n], d);
    }
  }

  /** What is owed in all for the first n messages. */
  ghost function TotalOwed(log: seq<Outbox.Message>, show: Show, picks: seq<nat>, moments: seq<Moment>, r: RuleId,
                           e: Uuid, n: nat): nat
    requires n <= |picks| == |moments| && forall k :: 0 <= k < |picks| ==> picks[k] < |log|
  {
    if n == 0 then 0
    else TotalOwed(log, show, picks, moments, r, e, n - 1) + OwedFor(log[picks[n - 1]], show, moments[n - 1], r, e)
  }

  lemma {:induction false} DeliveriesOfConcat(s: seq<Delivery>, t: seq<Delivery>, r: RuleId, e: Uuid)
    ensures Deliveries(s + t, r, e) == Deliveries(s, r, e) + Deliveries(t, r, e)
  {
    if t == [] {
      assert s + t == s;
    } else {
      assert (s + t)[..|s + t| - 1] == s + t[..|t| - 1];
      DeliveriesOfConcat(s, t[..|t| - 1], r, e);
    }
  }

  /** If no request raises, every rule and endpoint get, over all the messages, exactly the deliveries owed. */
  lemma {:induction false} DeliveriesAreOwed(steps: seq<Outbox.Step>, s: Outbox.State, show: Show, picks: seq<nat>,
                                             moments: seq<Moment>, batches: seq<seq<Delivery>>, r: RuleId, e: Uuid,
                                             n: nat)
    requires Outbox.IsRun(Outbox.Start, steps, s) && AllHandled(s.log, show, picks, moments, batches) && n <= |picks|
    requires forall k, i :: 0 <= k < |picks| ==> !moments[k].post(i).Raised?
    ensures Deliveries(Flatten(batches[..n]), r, e) == TotalOwed(s.log, show, picks, moments, r, e, n)
  {
    hide Outbox.IsRun, HandledAt, Deliveries, OwedFor, CarriesOwnEvent;
    if n == 0 {
      NoDeliveries(r, e);
    } else {
      DeliveriesAreOwed(steps, s, show, picks, moments, batches, r, e, n - 1);
      assert batches[..n][..n - 1] == batches[..n - 1];
      DeliveriesOfConcat(Flatten(batches[..n - 1]), batches[n - 1], r, e);
      HandledRows(steps, s, picks[n - 1], show, moments[n - 1], batches[n - 1]);
    }
  }

  lemma NoDeliveries(r: RuleId, e: Uuid)
    ensures Deliveries([], r, e) == 0
  {
  }

  /** The messages a live feed forwards: those of the channel it subscribed to. */
  function LiveFeed(log: seq<Outbox.Message>, channel: string): seq<Outbox.Message> {
    if log == [] then []
    else
      var m := log[|log| - 1];
      LiveFeed(log[..|log| - 1], channel) + if m.channel == channel then [m] else []
  }

  /** The messages of one organization. */
  function OfOrganization(log: seq<Outbox.Message>, org: Uuid): seq<Outbox.Message> {
    if log == [] then []
    else
      var m := log[|log| - 1];
      OfOrganization(log[..|log| - 1], org) + if m.org == Some(org) then [m] else []
  }

  lemma {:induction false} FeedOfOwnChannels(log: seq<Outbox.Message>, org: Uuid)
    requires forall i :: 0 <= i < |log| ==> log[i].channel == Channel(log[i].org)
    ensures LiveFeed(log, PREFIX + Print(org)) == OfOrganization(log, org)
  {
    if log != [] {
      FeedOfOwnChannels(log[..|log| - 1], org);
      var m := log[|log| - 1];
      assert Channel(Some(org)) == PREFIX + Print(org);
      if m.channel == Channel(Some(org)) {
        ChannelIsInjective(m.org, Some(org));
      }
    }
  }

  /** A live feed of an organization forwards exactly its own events' messages, in the order they were sent. */
  lemma LiveFeedIsOwnEvents(steps: seq<Outbox.Step>, s: Outbox.State, org: Uuid)
    requires Outbox.IsRun(Outbox.Start, steps, s)
    ensures LiveFeed(s.log, PREFIX + Print(org)) == OfOrganization(s.log, org)
  {
    Outbox.RunKeepsSent(Outbox.Start, steps, s);
    FeedOfOwnChannels(s.log, org);
  }

  /* ---------- who gets a delivery ---------- */

  /** The value passes the filter's entry: it is one of a list, or the value itself. */
  predicate Passes(filter: map<string, Json>, event: Event) {
    forall k :: k in filter ==>
      var actual := if k in event then event[k] else Null;
      if filter[k].List? then actual in filter[k].items else actual == filter[k]
  }

  /** An enabled rule of the organization, with this id, that the event passes and that lists this endpoint, which is
      enabled and of the organization too. */
  ghost predicate Entitles(rule: Rule, endpoints: map<Uuid, Endpoint>, org: Uuid, event: Event, r: RuleId, e: Uuid) {
    && rule.id == r && rule.org == org && rule.enabled && Passes(rule.filter, event)
    && (exists j :: 0 <= j < |rule.endpointIds| && Parse(rule.endpointIds[j]) == Some(e))
    && e in endpoints && endpoints[e].org == org && endpoints[e].enabled
  }

  lemma {:induction false} ListedExactlyWhen(ids: seq<string>, e: Uuid)
    ensures Listed(ids, e) >= 1 <==> exists j :: 0 <= j < |ids| && Parse(ids[j]) == Some(e)
  {
    hide Parse;
    if ids != [] {
      var n := |ids| - 1;
      ListedExactlyWhen(ids[..n], e);
      assert forall j :: 0 <= j < n ==> ids[..n][j] == ids[j];
    }
  }

  lemma {:induction false} OwedExactlyWhen(rules: seq<Rule>, endpoints: map<Uuid, Endpoint>, org: Uuid, event: Event,
                                           r: RuleId, e: Uuid)
    ensures Owed(rules, endpoints, org, event, r, e) >= 1
            <==> exists k :: 0 <= k < |rules| && Entitles(rules[k], endpoints, org, event, r, e)
  {
    if rules != [] {
      var n := |rules| - 1;
      OwedExactlyWhen(rules[..n], endpoints, org, event, r, e);
      EntitlesIs(rules[n], endpoints, org, event, r, e);
      hide Entitles, Fires, Usable, Listed;
      assert forall k :: 0 <= k < n ==> rules[..n][k] == rules[k];
    }
  }

  lemma EntitlesIs(rule: Rule, endpoints: map<Uuid, Endpoint>, org: Uuid, event: Event, r: RuleId, e: Uuid)
    ensures Entitles(rule, endpoints, org, event, r, e)
            <==> && rule.id == r && Fires(rule, org, event) && Usable(endpoints, org, e)
                 && Listed(rule.endpointIds, e) >= 1
  {
    ListedExactlyWhen(rule.endpointIds, e);
    PassesIs(rule.filter, event);
    hide Passes, Matches, Parse;
  }

  lemma PassesIs(filter: map<string, Json>, event: Event)
    ensures Passes(filter, event) <==> Matches(filter, event)
  {
    if Passes(filter, event) {
      forall k | k in filter
        ensures FieldMatches(filter[k], Get(event, k))
      {
      }
    }
  }

  lemma {:induction false} DeliveredExactlyWhen(rows: seq<Delivery>, r: RuleId, e: Uuid)
    ensures Deliveries(rows, r, e) >= 1 <==> exists i :: 0 <= i < |rows| && rows[i].rule == r && rows[i].endpoint == e
  {
    if rows != [] {
      var n := |rows| - 1;
      DeliveredExactlyWhen(rows[..n], r, e);
      assert forall i :: 0 <= i < n ==> rows[..n][i] == rows[i];
    }
  }

  /** A dispatch that commits adds a row for a rule and an endpoint exactly when a rule of the table entitles it. */
  lemma DeliversExactlyWhen(rules: seq<Rule>, endpoints: map<Uuid, Endpoint>, org: Uuid, event: Event,
                            post: nat -> Post, rows: seq<Delivery>, r: RuleId, e: Uuid)
    requires Settles(rules, endpoints, org, event, post, rows)
    ensures (exists i :: 0 <= i < |rows| && rows[i].rule == r && rows[i].endpoint == e)
            <==> exists k :: 0 <= k < |rules| && Entitles(rules[k], endpoints, org, event, r, e)
    ensures forall i :: 0 <= i < |rows| ==>
              && rows[i].org == org && rows[i].event == event && (rows[i].succeeded <==> post(i).Delivered?)
              && rows[i].error == match post(i) case Refused(error) => Some(error) case _ => None
  {
    DeliveredExactlyWhen(rows, r, e);
    OwedExactlyWhen(rules, endpoints, org, event, r, e);
    hide Owed, Deliveries, Entitles;
    forall i | 0 <= i < |rows|
      ensures && rows[i].org == org && rows[i].event == event && (rows[i].succeeded <==> post(i).Delivered?)
              && rows[i].error == match post(i) case Refused(error) => Some(error) case _ => None
    {
      assert Records(rows[i], org, event, post(i));
    }
  }

  /* ---------- from a call of audit_and_emit to its consumers ---------- */

  predicate IsTextObject(j: Json, fields: map<string, string>) {
    j.Object? && j.fields.Keys == fields.Keys && forall k :: k in fields ==> j.fields[k] == Text(fields[k])
  }

  /** The payload given, unless that is empty, else the entity's identifier and the diff. */
  predicate PayloadTells(j: Json, m: Outbox.Emission) {
    if |m.payload| > 0 then IsTextObject(j, m.payload)
    else
      && j.Object? && j.fields.Keys == {"entity_id", "diff"} && IsTextObject(j.fields["diff"], m.diff)
      && j.fields["entity_id"] == match m.entityId case Some(id) => Text(id) case None => Null
  }

  /** The JSON object a consumer reads is the call's event. */
  predicate EventTells(event: Event, v: Outbox.Id, m: Outbox.Emission, show: Show) {
    && event.Keys == {"id", "organization_id", "event_type", "payload", "created_at"}
    && event["id"] == Text(show.id(v)) && event["created_at"] == Text(show.time(m.createdAt))
    && event["organization_id"] == (match m.org case Some(o) => Text(Print(o)) case None => Null)
    && event["event_type"].Text? && OutboxContent.IsTypeOf(event["event_type"].s, m)
    && PayloadTells(event["payload"], m)
  }

  lemma EventOfMessage(x: Outbox.Message, v: Outbox.Id, m: Outbox.Emission, show: Show)
    requires OutboxContent.MessageSays(x, v, m)
    ensures EventTells(EventFor(x, show), v, m, show)
  {
    hide Print;
    PayloadIs(x.payload, m);
    hide PayloadOf, PayloadTells, OutboxContent.IsPayloadOf, OutboxContent.IsTypeOf;
    var event := EventFor(x, show);
    assert event.Keys == {"id", "organization_id", "event_type", "payload", "created_at"};
  }

  lemma PayloadIs(p: Outbox.Payload, m: Outbox.Emission)
    requires OutboxContent.IsPayloadOf(p, m)
    ensures PayloadTells(PayloadOf(p), m)
  {
    if |m.payload| == 0 {
      assert PayloadOf(p).fields.Keys == {"entity_id", "diff"};
    }
  }

  /** Every delivery row, of whatever messages and rules, is for one call of the run: it is of that call's organization
      and carries that call's event. */
  lemma DeliveryHasCall(steps: seq<Outbox.Step>, s: Outbox.State, show: Show, picks: seq<nat>, moments: seq<Moment>,
                        batches: seq<seq<Delivery>>, d: Delivery) returns (i: nat)
    requires Outbox.IsRun(Outbox.Start, steps, s) && AllHandled(s.log, show, picks, moments, batches)
    requires d in Flatten(batches)
    ensures i < |steps| && steps[i].Emit? && steps[i].emission.emitOutbox
    ensures steps[i].emission.org == Some(d.org) && EventTells(d.event, steps[i].event, steps[i].emission, show)
  {
    DeliveriesCarryOwnEvents(steps, s, show, picks, moments, batches, d);
    hide Outbox.IsRun, AllHandled, Print, EventTells;
    var k :| 0 <= k < |picks| && d in batches[k] && CarriesOwnEvent(d, s.outbox, show, s.log[picks[k]].event);
    assert picks[k] < |s.log| by {
      PicksAreMessages(s.log, show, picks, moments, batches);
    }
    MessageIsOfRow(steps, s, picks[k]);
    i := OutboxContent.MessageHasCall(steps, s, picks[k]);
    EventOfMessage(s.log[picks[k]], steps[i].event, steps[i].emission, show);
  }

  lemma PicksAreMessages(log: seq<Outbox.Message>, show: Show, picks: seq<nat>, moments: seq<Moment>,
                         batches: seq<seq<Delivery>>)
    requires AllHandled(log, show, picks, moments, batches)
    ensures forall k :: 0 <= k < |picks| ==> picks[k] < |log|
  {
  }

  lemma {:induction false} InFeed(log: seq<Outbox.Message>, channel: string, k: nat) returns (j: nat)
    requires k < |log| && log[k].channel == channel
    ensures j < |LiveFeed(log, channel)| && LiveFeed(log, channel)[j] == log[k]
  {
    var n := |log| - 1;
    if k == n {
      j := |LiveFeed(log, channel)| - 1;
    } else {
      j := InFeed(log[..n], channel, k);
    }
  }

  /** A call for organization `o` whose event is committed and published is on the live feed of `o`, as the call had
      it. */
  lemma CallReachesFeed(steps: seq<Outbox.Step>, s: Outbox.State, i: nat, o: Uuid) returns (j: nat)
    requires Outbox.IsRun(Outbox.Start, steps, s) && i < |steps| && steps[i].Emit? && steps[i].emission.org == Some(o)
    requires steps[i].event in s.outbox && s.outbox[steps[i].event].publishedAt.Some?
    ensures var feed := LiveFeed(s.log, "adhkar.events." + Print(o));
            j < |feed| && OutboxContent.MessageSays(feed[j], steps[i].event, steps[i].emission)
  {
    hide Outbox.IsRun, Print;
    var k := OutboxContent.PublishedCallWasSent(steps, s, i);
    j := InFeed(s.log, "adhkar.events." + Print(o), k);
  }
}
