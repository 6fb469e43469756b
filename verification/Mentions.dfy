/** Mentions in comments and task logs (services/mentions.py): a greedy scan for @names, and one event for each
    member of the organization so named. */
module Mentions {
  import opened Prelude
  import opened Channels
  import opened Strings
  import Outbox
  import OutboxContent

  /* ---------- the scan ---------- */

  predicate IsName(c: char) { 'A' <= c <= 'Z' || 'a' <= c <= 'z' || '0' <= c <= '9' || c in "_.-" }

  predicate IsSpace(c: char) {
    '\t' <= c <= '\r' || '\U{1c}' <= c <= ' ' || c in "\U{85}\U{a0}\U{1680}\U{2028}\U{2029}\U{202f}\U{205f}\U{3000}"
    || '\U{2000}' <= c <= '\U{200a}'
  }

  /** The characters of names, one by one. */
  lemma NameCharactersAre(c: char)
    ensures IsName(c) <==> IsAlphanumeric(c) || c == '_' || c == '.' || c == '-'
  {
    AlphanumericIs(c);
    hide IsAlphanumeric;
  }

  const LOW_SPACES := "\t\n\U{0b}\U{0c}\r\U{1c}\U{1d}\U{1e}\U{1f} \U{85}\U{a0}"
  const HIGH_SPACES :=
    "\U{1680}\U{2000}\U{2001}\U{2002}\U{2003}\U{2004}\U{2005}\U{2006}\U{2007}\U{2008}\U{2009}\U{200a}"
    + "\U{2028}\U{2029}\U{202f}\U{205f}\U{3000}"

  /** White space, as str.isspace has it, one by one. */
  lemma SpacesAre(c: char)
    ensures IsSpace(c) <==> c in LOW_SPACES || c in HIGH_SPACES
  {
    if '\t' <= c <= '\r' {
      assert LOW_SPACES[c as int - '\t' as int] == c;
    } else if '\U{1c}' <= c <= ' ' {
      assert LOW_SPACES[c as int - '\U{1c}' as int + 5] == c;
    } else if '\U{2000}' <= c <= '\U{200a}' {
      assert HIGH_SPACES[c as int - '\U{2000}' as int + 1] == c;
    }
  }

  /** The end of the run of name characters at i. */
  function NameEnd(s: string, i: nat): (e: nat)
    requires i <= |s|
    ensures i <= e <= |s|
    ensures forall k :: i <= k < e ==> IsName(s[k])
    ensures e < |s| ==> !IsName(s[e])
    decreases |s| - i
  {
    if i < |s| && IsName(s[i]) then NameEnd(s, i + 1) else i
  }

  predicate WordFollows(s: string, i: nat) { i + 1 < |s| && IsSpace(s[i]) && IsName(s[i + 1]) }

  /** The end of a match whose name starts at i: one word, then as many pairs of one space and a word as there are. */
  function MatchEnd(s: string, i: nat): (e: nat)
    requires i < |s| && IsName(s[i])
    ensures i < e <= |s|
    decreases |s| - i
  {
    var e := NameEnd(s, i);
    if WordFollows(s, e) then MatchEnd(s, e + 1) else e
  }

  predicate Starts(s: string, i: nat) { i + 1 < |s| && s[i] == '@' && IsName(s[i + 1]) }

  /** finditer: the first group of each match, from left to right, the search going on where the last match ended. */
  function Found(s: string, i: nat): seq<string>
    requires i <= |s|
    decreases |s| - i
  {
    if i == |s| then []
    else if Starts(s, i) then [s[i + 1..MatchEnd(s, i + 1)]] + Found(s, MatchEnd(s, i + 1))
    else Found(s, i + 1)
  }

  function Strip(s: string): string
    decreases |s|
  {
    if s != "" && IsSpace(s[0]) then Strip(s[1..])
    else if s != "" && IsSpace(s[|s| - 1]) then Strip(s[..|s| - 1])
    else s
  }

  function Candidates(content: string): set<string> { set name | name in Found(content, 0) :: Strip(name) }

  /* ---------- what is a mention ---------- */

  predicate IsAllowed(c: char) { IsName(c) || IsSpace(c) }

  predicate TwoSpaces(w: string, k: nat) { 0 < k < |w| && IsSpace(w[k - 1]) && IsSpace(w[k]) }

  /** Words of name characters with one space between neighbours. */
  ghost predicate IsPhrase(w: string) {
    && w != "" && IsName(w[0]) && IsName(w[|w| - 1])
    && (forall k :: 0 <= k < |w| ==> IsAllowed(w[k]))
    && (forall k: nat :: !TwoSpaces(w, k))
  }

  ghost predicate PhraseAfter(s: string, p: nat, e: int) { p + 1 <= e <= |s| && IsPhrase(s[p + 1..e]) }

  /** The name is the longest phrase after the @ at p. */
  ghost predicate MentionAt(s: string, p: nat, name: string) {
    && p < |s| && s[p] == '@' && IsPhrase(name) && name <= s[p + 1..]
    && (forall e :: PhraseAfter(s, p, e) ==> e <= p + 1 + |name|)
  }

  ghost predicate Mentioned(s: string, name: string) { exists p: nat :: MentionAt(s, p, name) }

  lemma NameIsNoSpace(c: char)
    requires IsName(c)
    ensures !IsSpace(c) && c != '@'
  {
  }

  /** Character by character, a match looks like a phrase that goes on as long as it can. */
  lemma {:induction false} MatchShape(s: string, i: nat)
    requires i < |s| && IsName(s[i])
    ensures var e := MatchEnd(s, i);
            && IsName(s[e - 1]) && (e < |s| ==> !IsName(s[e])) && !WordFollows(s, e)
            && (forall k :: i <= k < e ==> IsAllowed(s[k]))
            && (forall k: nat :: i < k < e ==> !TwoSpaces(s, k))
    decreases |s| - i
  {
    hide IsName, IsSpace;
    var e := NameEnd(s, i);
    forall k: nat | i <= k < e
      ensures !IsSpace(s[k]) && !TwoSpaces(s, k)
    {
      NameIsNoSpace(s[k]);
    }
    if WordFollows(s, e) {
      MatchShape(s, e + 1);
      NameIsNoSpace(s[e + 1]);
    }
  }

  lemma MatchIsPhrase(s: string, i: nat)
    requires i < |s| && IsName(s[i])
    ensures IsPhrase(s[i..MatchEnd(s, i)])
  {
    hide *;
    MatchShape(s, i);
    SliceIsPhrase(s, i, MatchEnd(s, i));
  }

  lemma SliceIsPhrase(s: string, i: nat, e: nat)
    requires i < e <= |s| && IsName(s[i]) && IsName(s[e - 1])
    requires forall k :: i <= k < e ==> IsAllowed(s[k])
    requires forall k: nat :: i < k < e ==> !TwoSpaces(s, k)
    ensures IsPhrase(s[i..e])
  {
    hide IsName, IsAllowed, TwoSpaces;
    var w := s[i..e];
    forall k: nat
      ensures !TwoSpaces(w, k)
    {
      TwoSpacesInSlice(s, i, e, k);
    }
  }

  lemma TwoSpacesInSlice(s: string, i: nat, m: nat, k: nat)
    requires i <= m <= |s|
    ensures TwoSpaces(s[i..m], k) <==> 0 < k < m - i && TwoSpaces(s, i + k)
  {
    hide IsSpace;
  }

  lemma NoLongerPhrase(s: string, i: nat, e: nat)
    requires i < |s| && IsName(s[i]) && MatchEnd(s, i) < e <= |s|
    ensures !IsPhrase(s[i..e])
  {
    hide IsName, IsSpace, MatchEnd;
    MatchShape(s, i);
    var m, v := MatchEnd(s, i), s[i..e];
    assert v[m - i] == s[m] && v[|v| - 1] == s[e - 1];
    if m + 1 < e {
      assert v[m + 1 - i] == s[m + 1];
      assert IsSpace(s[m]) && IsSpace(s[m + 1]) ==> TwoSpaces(v, m + 1 - i);
    }
    if IsName(s[e - 1]) {
      NameIsNoSpace(s[e - 1]);
    }
  }

  lemma PhraseIsStripped(w: string)
    requires IsPhrase(w)
    ensures Strip(w) == w
  {
    NameIsNoSpace(w[0]);
    NameIsNoSpace(w[|w| - 1]);
  }

  /** The match at an @ is the mention there. */
  lemma MatchIsMention(s: string, p: nat, name: string)
    requires p < |s| && s[p] == '@'
    ensures MentionAt(s, p, name) <==> Starts(s, p) && name == s[p + 1..MatchEnd(s, p + 1)]
  {
    hide IsName, IsSpace, MatchEnd;
    if Starts(s, p) {
      var m := MatchEnd(s, p + 1);
      forall e | PhraseAfter(s, p, e)
        ensures e <= m
      {
        if e > m {
          NoLongerPhrase(s, p + 1, e);
        }
      }
      MatchIsPhrase(s, p + 1);
      assert PhraseAfter(s, p, m);
      if MentionAt(s, p, name) {
        assert s[p + 1..p + 1 + |name|] == name;
        assert PhraseAfter(s, p, p + 1 + |name|);
      }
    } else {
      assert name != "" && name <= s[p + 1..] ==> name[0] == s[p + 1];
    }
  }

  /** No match swallows a later @. */
  lemma NoAtInside(s: string, p: nat, q: nat)
    requires Starts(s, p) && p < q < MatchEnd(s, p + 1)
    ensures s[q] != '@'
  {
    MatchShape(s, p + 1);
  }

  /** The scan from i on finds exactly the mentions at i or later. */
  lemma {:induction false} ScanFindsMentions(s: string, i: nat, name: string)
    requires i <= |s|
    ensures name in Found(s, i) <==> exists p: nat :: i <= p && MentionAt(s, p, name)
    decreases |s| - i
  {
    hide IsPhrase, IsName, MatchEnd, MentionAt;
    if i < |s| {
      var next := i + 1;
      if Starts(s, i) {
        next := MatchEnd(s, i + 1);
        forall q: nat | i < q < next
          ensures !MentionAt(s, q, name)
        {
          NoAtInside(s, i, q);
          MentionHasAt(s, q, name);
        }
      }
      ScanFindsMentions(s, next, name);
      FoundStep(s, i, name);
      if MentionAt(s, i, name) {
        MentionHasAt(s, i, name);
        MatchIsMention(s, i, name);
      }
    } else {
      forall p: nat | i <= p
        ensures !MentionAt(s, p, name)
      {
        MentionHasAt(s, p, name);
      }
    }
  }

  lemma MentionHasAt(s: string, p: nat, name: string)
    ensures MentionAt(s, p, name) ==> p < |s| && s[p] == '@'
  {
  }

  lemma FoundStep(s: string, i: nat, name: string)
    requires i < |s|
    ensures name in Found(s, i)
            <==> name in Found(s, if Starts(s, i) then MatchEnd(s, i + 1) else i + 1) || MentionAt(s, i, name)
  {
    if s[i] == '@' {
      MatchIsMention(s, i, name);
    }
  }

  /** The candidates are the mentions of the text: for every @, the longest phrase after it. */
  lemma CandidatesAreMentions(content: string, name: string)
    ensures name in Candidates(content) <==> Mentioned(content, name)
  {
    hide IsPhrase, Found;
    forall w
      ensures w in Found(content, 0) <==> Mentioned(content, w)
      ensures Mentioned(content, w) ==> Strip(w) == w
    {
      ScanFindsMentions(content, 0, w);
      if Mentioned(content, w) {
        PhraseIsStripped(w);
      }
    }
  }

  /* ---------- the events ---------- */

  datatype User = User(displayName: string, deletedAt: Option<int>)

  type Fields = map<string, string>

  /** The call of audit_and_emit for one mentioned user: about that user, in that organization, with the name beside
      the other fields; an event goes out, of the default type and with the default payload. */
  predicate IsMention(e: Outbox.Emission, org: Uuid, u: Uuid, extra: Fields, name: string, now: int) {
    && e.org == Some(org) && e.action == "mentioned" && e.entityType == "user" && e.entityId == Some(Print(u))
    && e.diff.Keys == extra.Keys + {"mentioned_display_name"} && e.diff["mentioned_display_name"] == name
    && (forall k :: k in extra && k != "mentioned_display_name" ==> e.diff[k] == extra[k])
    && e.eventType == None && e.payload == map[] && e.emitOutbox && e.createdAt == now
  }

  /** So the event row is "user.mentioned", of that organization, with the user's identifier and the fields. */
  lemma MentionRow(e: Outbox.Emission, org: Uuid, u: Uuid, extra: Fields, name: string, now: int, row: Outbox.OutboxRow)
    requires IsMention(e, org, u, extra, name, now) && OutboxContent.EventSays(row, e)
    ensures row.org == Some(org) && row.eventType == "user.mentioned"
    ensures row.payload == Outbox.Entity(Some(Print(u)), e.diff)
  {
    assert "user" + ['.'] + "mentioned" == "user.mentioned";
  }

  /** Live members of the organization, other than the author, whose display name the text mentions. */
  ghost function Recipients(users: map<Uuid, User>, members: set<(Uuid, Uuid)>, org: Uuid, actor: Uuid,
                            content: string): set<Uuid> {
    set u | u in users && users[u].deletedAt.None? && (u, org) in members && u != actor
              && Mentioned(content, users[u].displayName)
  }

  predicate Selected(users: map<Uuid, User>, members: set<(Uuid, Uuid)>, org: Uuid, names: set<string>, u: Uuid) {
    u in users && users[u].deletedAt.None? && (u, org) in members && users[u].displayName in names
  }

  /** An answer to the query: a user joins its membership of the organization at most once, as that pair is unique. */
  ghost predicate IsAnswer(users: map<Uuid, User>, members: set<(Uuid, Uuid)>, org: Uuid, names: set<string>,
                           rows: seq<Uuid>) {
    Distinct(rows) && forall u :: u in rows <==> Selected(users, members, org, names, u)
  }

  ghost predicate Announce(emissions: seq<Outbox.Emission>, targets: seq<Uuid>, users: map<Uuid, User>, org: Uuid,
                           extra: Fields, now: int)
  {
    && |emissions| == |targets|
    && forall i :: 0 <= i < |targets| ==>
         targets[i] in users && IsMention(emissions[i], org, targets[i], extra, users[targets[i]].displayName, now)
  }

  function Others(rows: seq<Uuid>, actor: Uuid): seq<Uuid> { Filter(u => u != actor, rows) }

  lemma OthersStep(rows: seq<Uuid>, k: nat, actor: Uuid)
    requires k < |rows|
    ensures Others(rows[..k + 1], actor) == Others(rows[..k], actor) + if rows[k] != actor then [rows[k]] else []
  {
    assert rows[..k + 1] == rows[..k] + [rows[k]];
    FilterConcat(u => u != actor, rows[..k], [rows[k]]);
  }

  /** The selected rows but the author's own are the recipients, each once. */
  lemma OthersAreRecipients(users: map<Uuid, User>, members: set<(Uuid, Uuid)>, org: Uuid, actor: Uuid,
                            content: string, rows: seq<Uuid>)
    requires IsAnswer(users, members, org, Candidates(content), rows)
    ensures Distinct(Others(rows, actor))
    ensures ToSet(Others(rows, actor)) == Recipients(users, members, org, actor, content)
    ensures |Others(rows, actor)| == |Recipients(users, members, org, actor, content)|
  {
    hide Mentioned, Candidates;
    FilterDistinct(u => u != actor, rows);
    DistinctSize(Others(rows, actor));
    forall u
      ensures u in Others(rows, actor) <==> u in Recipients(users, members, org, actor, content)
    {
      assert u in rows <==> Selected(users, members, org, Candidates(content), u);
      if u in users {
        CandidatesAreMentions(content, users[u].displayName);
      }
    }
  }

  /** The loop over the selected rows, which passes over the author. */
  method Announcements(users: map<Uuid, User>, org: Uuid, actor: Uuid, extra: Fields, rows: seq<Uuid>, now: int)
    returns (added: seq<Outbox.Emission>, dispatched: nat)
    requires forall u :: u in rows ==> u in users
    ensures dispatched == |added| && Announce(added, Others(rows, actor), users, org, extra, now)
  {
    hide Others, Print;
    added, dispatched := [], 0;
    NoOthers(actor);
    for k := 0 to |rows|
      invariant dispatched == |added| && Announce(added, Others(rows[..k], actor), users, org, extra, now)
    {
      OthersStep(rows, k, actor);
      var u := rows[k];
      if u != actor {
        var name := users[u].displayName;
        var emission := Outbox.Emission(Some(org), "mentioned", "user", Some(Print(u)),
                                        extra["mentioned_display_name" := name], None, map[], true, now);
        assert IsMention(emission, org, u, extra, name, now);
        added := added + [emission];
        dispatched := dispatched + 1;
      }
    }
    assert rows[..|rows|] == rows;
  }

  lemma NoOthers(actor: Uuid)
    ensures Others([], actor) == []
  {
  }

  class Session {
    var users: map<Uuid, User>
    var members: set<(Uuid, Uuid)>
    var emissions: seq<Outbox.Emission>

    constructor (users: map<Uuid, User>, members: set<(Uuid, Uuid)>)
      ensures this.users == users && this.members == members && emissions == []
    {
      this.users, this.members, emissions := users, members, [];
    }

    /** One audit row and one outbox row for each recipient, and their number. */
    method EmitMentions(org: Uuid, actor: Uuid, content: string, extra: Fields, rows: seq<Uuid>, now: int)
      returns (dispatched: nat)
      requires IsAnswer(users, members, org, Candidates(content), rows)
      modifies this`emissions
      ensures dispatched == |Recipients(users, members, org, actor, content)|
      ensures exists targets: seq<Uuid> ::
                && Distinct(targets) && ToSet(targets) == Recipients(users, members, org, actor, content)
                && |emissions| == |old(emissions)| + |targets| && emissions[..|old(emissions)|] == old(emissions)
                && Announce(emissions[|old(emissions)|..], targets, users, org, extra, now)
    {
      OthersAreRecipients(users, members, org, actor, content, rows);
      assert forall u :: u in rows ==> u in users;
      if rows != [] {
        assert Selected(users, members, org, Candidates(content), rows[0]);
      }
      hide *;
      dispatched := 0;
      var added: seq<Outbox.Emission> := [];
      if Candidates(content) != {} {
        added, dispatched := Announcements(users, org, actor, extra, rows, now);
      } else {
        NoOthers(actor);
        NothingAnnounced(users, org, extra, now);
      }
      emissions := emissions + added;
      assert emissions[|old(emissions)|..] == added;
      SameLength(added, Others(rows, actor), users, org, extra, now);
    }
  }

  lemma NothingAnnounced(users: map<Uuid, User>, org: Uuid, extra: Fields, now: int)
    ensures Announce([], [], users, org, extra, now)
  {
  }

  lemma SameLength(emissions: seq<Outbox.Emission>, targets: seq<Uuid>, users: map<Uuid, User>, org: Uuid,
                   extra: Fields, now: int)
    requires Announce(emissions, targets, users, org, extra, now)
    ensures |emissions| == |targets|
  {
  }
}
