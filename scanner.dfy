/** The scan of `startXboxScan` and `scanGuild` (index.js): the module-level
    `checkedUsers` set and the `totalScanned` and `totalFound` counters, the
    per-guild `scanned` and `found` counters, the member loop, and the paged
    fallback after a failed fetch. Sending a notification (`sendGamertagInfo`)
    is recorded as a `Notice` appended to a log. */
module Scanner {
  import opened Wrappers
  import opened Gamertag
  import opened Roster

  /** What `sendGamertagInfo` is given: the member, the guild's name, the
      classification, and the running totals that its embed shows. */
  datatype Notice = Notice(memberId: MemberId, guildName: string, hit: Hit, totalFound: nat, totalScanned: nat)

  /** The process-wide state: `checkedUsers`, `totalScanned`, `totalFound`, and
      the notices sent so far, oldest first. */
  datatype ScanState = ScanState(checked: set<MemberId>, totalScanned: nat, totalFound: nat, sent: seq<Notice>)

  /** The state when the process starts. */
  const Initial: ScanState := ScanState({}, 0, 0, [])

  /** A classifier of a member's username and display name. The scan is
      stated for any classifier; the `XboxScanner` class uses `Classify`, and
      every lemma about the scan holds whatever the classifier decides. */
  type Classifier = (string, string) -> Option<Hit>

  /** One guild's scan under way: the process-wide state and the guild's own
      `scanned` and `found` counters. */
  datatype Progress = Progress(state: ScanState, scanned: nat, found: nat)

  function SentIds(sent: seq<Notice>): set<MemberId> {
    if sent == [] then {} else SentIds(sent[..|sent| - 1]) + {sent[|sent| - 1].memberId}
  }

  /** No member id was notified twice. */
  predicate DistinctSent(sent: seq<Notice>) {
    forall i, j :: 0 <= i < j < |sent| ==> sent[i].memberId != sent[j].memberId
  }

  /** The invariant of the process-wide state: the ids notified are exactly
      `checkedUsers`, each notified once, `totalFound` counts the notices, each
      notice shows the totals of its moment, and nothing was found without
      being scanned. */
  ghost predicate Inv(s: ScanState) {
    && SentIds(s.sent) == s.checked
    && DistinctSent(s.sent)
    && s.totalFound == |s.sent|
    && s.totalFound <= s.totalScanned
    && forall i :: 0 <= i < |s.sent| ==> s.sent[i].totalFound == i + 1 && s.sent[i].totalScanned <= s.totalScanned
  }

  /** How a scan may change the state: `checkedUsers` and the notice log only
      grow, the guild's counters move together with the global ones, and the
      guild finds no more members than it scans. */
  ghost predicate Advances(p: Progress, q: Progress) {
    && p.state.checked <= q.state.checked
    && p.state.sent <= q.state.sent
    && p.scanned <= q.scanned && p.found <= q.found
    && q.state.totalScanned == p.state.totalScanned + (q.scanned - p.scanned)
    && q.state.totalFound == p.state.totalFound + (q.found - p.found)
    && q.found - p.found <= q.scanned - p.scanned
  }

  /** One pass of the member loop: a bot is skipped without counting; any
      other member is counted; an id already in `checkedUsers` goes no further;
      otherwise the member is classified and, on a hit, counted as found,
      added to `checkedUsers` and notified. */
  function Visit(classify: Classifier, p: Progress, m: Member, guildName: string): Progress {
    if m.bot then p
    else
      var s := p.state;
      var counted := Progress(s.(totalScanned := s.totalScanned + 1), p.scanned + 1, p.found);
      if m.id in s.checked then counted
      else
        match classify(m.username, m.displayName)
        case None => counted
        case Some(hit) =>
          Progress(ScanState(s.checked + {m.id}, s.totalScanned + 1, s.totalFound + 1,
                             s.sent + [Notice(m.id, guildName, hit, s.totalFound + 1, s.totalScanned + 1)]),
                   p.scanned + 1, p.found + 1)
  }

  /** The member loop over a sequence of members, in order. */
  function VisitAll(classify: Classifier, p: Progress, ms: seq<Member>, guildName: string): Progress {
    if ms == [] then p
    else Visit(classify, VisitAll(classify, p, ms[..|ms| - 1], guildName), ms[|ms| - 1], guildName)
  }

  /** The ids of the members of `ms` that are not bots and whose names yield a hit. */
  function MatchedIds(classify: Classifier, ms: seq<Member>): set<MemberId> {
    if ms == [] then {}
    else
      var m := ms[|ms| - 1];
      MatchedIds(classify, ms[..|ms| - 1]) + if !m.bot && classify(m.username, m.displayName).Some? then {m.id} else {}
  }

  /** The number of members of `ms` that are not bots. */
  function Humans(ms: seq<Member>): nat {
    if ms == [] then 0 else Humans(ms[..|ms| - 1]) + if ms[|ms| - 1].bot then 0 else 1
  }

  lemma SentIdsAppend(sent: seq<Notice>, n: Notice)
    ensures SentIds(sent + [n]) == SentIds(sent) + {n.memberId}
  {
    assert (sent + [n])[..|sent|] == sent;
  }

  /** With no repeated id, there are as many notified ids as notices. */
  lemma {:induction false} SentIdsCount(sent: seq<Notice>)
    requires DistinctSent(sent)
    ensures |SentIds(sent)| == |sent|
  {
    if sent != [] {
      var front := sent[..|sent| - 1];
      assert DistinctSent(front);
      SentIdsCount(front);
      if sent[|sent| - 1].memberId in SentIds(front) {
        SentIdsMember(front, sent[|sent| - 1].memberId);
      }
    }
  }

  lemma {:induction false} SentIdsMember(sent: seq<Notice>, id: MemberId)
    requires id in SentIds(sent)
    ensures exists i :: 0 <= i < |sent| && sent[i].memberId == id
  {
    var front := sent[..|sent| - 1];
    if id != sent[|sent| - 1].memberId {
      SentIdsMember(front, id);
      var i :| 0 <= i < |front| && front[i].memberId == id;
      assert sent[i].memberId == id;
    }
  }

  /** One member step keeps the invariant and advances the state; it adds the
      member's id to `checkedUsers` exactly when the member is no bot and its
      names yield a hit, and sends a notice only for an id not checked before. */
  lemma VisitFacts(classify: Classifier, p: Progress, m: Member, guildName: string)
    requires Inv(p.state)
    ensures var q := Visit(classify, p, m, guildName);
      && Inv(q.state)
      && Advances(p, q)
      && q.state.checked == p.state.checked + (if !m.bot && classify(m.username, m.displayName).Some? then {m.id} else {})
      && q.scanned == p.scanned + (if m.bot then 0 else 1)
      && (|q.state.sent| > |p.state.sent| ==> m.id !in p.state.checked)
  {
    var q := Visit(classify, p, m, guildName);
    var s := p.state;
    if !m.bot && m.id !in s.checked && classify(m.username, m.displayName).Some? {
      var n := Notice(m.id, guildName, classify(m.username, m.displayName).value, s.totalFound + 1, s.totalScanned + 1);
      SentIdsAppend(s.sent, n);
      assert q.state.sent == s.sent + [n];
      forall i, j | 0 <= i < j < |q.state.sent|
        ensures q.state.sent[i].memberId != q.state.sent[j].memberId
      {
        if j == |s.sent| {
          assert s.sent[i].memberId in SentIds(s.sent) by {
            SentIdsHas(s.sent, i);
          }
        }
      }
    }
  }

  lemma {:induction false} SentIdsHas(sent: seq<Notice>, i: nat)
    requires i < |sent|
    ensures sent[i].memberId in SentIds(sent)
  {
    if i < |sent| - 1 {
      SentIdsHas(sent[..|sent| - 1], i);
    }
  }

  /** The member loop keeps the invariant and advances the state; afterwards
      `checkedUsers` has gained exactly the matching ids of `ms`, and the
      guild's `scanned` has grown by the number of members that are not bots. */
  lemma {:induction false} VisitAllFacts(classify: Classifier, p: Progress, ms: seq<Member>, guildName: string)
    requires Inv(p.state)
    ensures var q := VisitAll(classify, p, ms, guildName);
      && Inv(q.state)
      && Advances(p, q)
      && q.state.checked == p.state.checked + MatchedIds(classify, ms)
      && q.scanned == p.scanned + Humans(ms)
  {
    if ms != [] {
      var front := ms[..|ms| - 1];
      VisitAllFacts(classify, p, front, guildName);
      VisitFacts(classify, VisitAll(classify, p, front, guildName), ms[|ms| - 1], guildName);
    }
  }

  /** Scanning members whose matching ids were all checked already sends
      nothing and adds nothing to `checkedUsers`: a second scan of the same
      members is silent. */
  lemma {:induction false} RescanIsSilent(classify: Classifier, p: Progress, ms: seq<Member>, guildName: string)
    requires Inv(p.state) && MatchedIds(classify, ms) <= p.state.checked
    ensures VisitAll(classify, p, ms, guildName).state.sent == p.state.sent
    ensures VisitAll(classify, p, ms, guildName).state.checked == p.state.checked
    ensures VisitAll(classify, p, ms, guildName).found == p.found
  {
    if ms != [] {
      var front := ms[..|ms| - 1];
      RescanIsSilent(classify, p, front, guildName);
      VisitAllFacts(classify, p, front, guildName);
    }
  }

  /** After scanning some members, scanning them again sends nothing. */
  lemma SecondScanSendsNothing(classify: Classifier, p: Progress, ms: seq<Member>, guildName: string)
    requires Inv(p.state)
    ensures var q := VisitAll(classify, p, ms, guildName);
      VisitAll(classify, q, ms, guildName).state.sent == q.state.sent
  {
    VisitAllFacts(classify, p, ms, guildName);
    RescanIsSilent(classify, VisitAll(classify, p, ms, guildName), ms, guildName);
  }

  const MaxPages: nat := 10

  /** The outcome of the fallback pager: where the scan got to, every fetch
      call made in the guild's scan, and whether a page fetch threw. */
  datatype Paged = Paged(progress: Progress, calls: seq<FetchRequest>, threw: bool)

  /** The fallback `while (hasMore && pageCount < 10)` loop: fetch a page of
      1000 after the cursor, scan it, move the cursor to its last id, and go on
      only after a full page. */
  function Pager(classify: Classifier, p: Progress, g: Guild, cursor: Option<MemberId>, hasMore: bool, pageCount: nat,
                 calls: seq<FetchRequest>): Paged
    requires pageCount <= MaxPages
    decreases MaxPages - pageCount
  {
    if !(hasMore && pageCount < MaxPages) then Paged(p, calls, false)
    else
      var req := PageRequest(cursor);
      var reply := g.directory(|calls|, req);
      if reply.Failed? then Paged(p, calls + [req], true)
      else
        var page := Collection(reply.members);
        Pager(classify, VisitAll(classify, p, page, g.name), g, LastId(page), |page| == PageSize, pageCount + 1, calls + [req])
  }

  lemma AdvancesTrans(p: Progress, q: Progress, r: Progress)
    requires Advances(p, q) && Advances(q, r)
    ensures Advances(p, r)
  {
  }

  /** One page of the pager: fetched, scanned, and followed by the rest. */
  lemma PagerStep(classify: Classifier, p: Progress, g: Guild, cursor: Option<MemberId>, pageCount: nat, calls: seq<FetchRequest>)
    requires pageCount < MaxPages
    requires g.directory(|calls|, PageRequest(cursor)).Fetched?
    ensures var page := Collection(g.directory(|calls|, PageRequest(cursor)).members);
      Pager(classify, p, g, cursor, true, pageCount, calls)
      == Pager(classify, VisitAll(classify, p, page, g.name), g, LastId(page), |page| == PageSize, pageCount + 1, calls + [PageRequest(cursor)])
  {
  }

  /** When the loop ends or a page throws, the pager's progress is where it stands. */
  lemma PagerStops(classify: Classifier, p: Progress, g: Guild, cursor: Option<MemberId>, hasMore: bool, pageCount: nat, calls: seq<FetchRequest>)
    requires pageCount <= MaxPages
    requires !(hasMore && pageCount < MaxPages && g.directory(|calls|, PageRequest(cursor)).Fetched?)
    ensures Pager(classify, p, g, cursor, hasMore, pageCount, calls).progress == p
  {
  }

  /** The pager keeps the invariant, even when a page throws. */
  lemma {:induction false} PagerKeepsInv(classify: Classifier, p: Progress, g: Guild, cursor: Option<MemberId>, hasMore: bool,
                                         pageCount: nat, calls: seq<FetchRequest>)
    requires pageCount <= MaxPages && Inv(p.state)
    ensures Inv(Pager(classify, p, g, cursor, hasMore, pageCount, calls).progress.state)
    decreases MaxPages - pageCount
  {
    if hasMore && pageCount < MaxPages && g.directory(|calls|, PageRequest(cursor)).Fetched? {
      var page := Collection(g.directory(|calls|, PageRequest(cursor)).members);
      PagerStep(classify, p, g, cursor, pageCount, calls);
      VisitAllFacts(classify, p, page, g.name);
      PagerKeepsInv(classify, VisitAll(classify, p, page, g.name), g, LastId(page), |page| == PageSize, pageCount + 1, calls + [PageRequest(cursor)]);
    } else {
      PagerStops(classify, p, g, cursor, hasMore, pageCount, calls);
    }
  }

  /** The pager advances the state; what it did before a page threw is kept. */
  lemma {:induction false} PagerAdvances(classify: Classifier, p: Progress, g: Guild, cursor: Option<MemberId>, hasMore: bool,
                                         pageCount: nat, calls: seq<FetchRequest>)
    requires pageCount <= MaxPages && Inv(p.state)
    ensures Advances(p, Pager(classify, p, g, cursor, hasMore, pageCount, calls).progress)
    decreases MaxPages - pageCount
  {
    if hasMore && pageCount < MaxPages && g.directory(|calls|, PageRequest(cursor)).Fetched? {
      var page := Collection(g.directory(|calls|, PageRequest(cursor)).members);
      var q := VisitAll(classify, p, page, g.name);
      PagerStep(classify, p, g, cursor, pageCount, calls);
      VisitAllFacts(classify, p, page, g.name);
      PagerAdvances(classify, q, g, LastId(page), |page| == PageSize, pageCount + 1, calls + [PageRequest(cursor)]);
      AdvancesTrans(p, q, Pager(classify, q, g, LastId(page), |page| == PageSize, pageCount + 1, calls + [PageRequest(cursor)]).progress);
    } else {
      PagerStops(classify, p, g, cursor, hasMore, pageCount, calls);
    }
  }

  /** The pager makes at most one call per remaining page, and one at least
      while it has pages left; every call is for a page of 1000, the first
      after `cursor`; the calls before it are kept. */
  lemma {:induction false} PagerCalls(classify: Classifier, p: Progress, g: Guild, cursor: Option<MemberId>, hasMore: bool,
                                      pageCount: nat, calls: seq<FetchRequest>)
    requires pageCount <= MaxPages
    ensures var r := Pager(classify, p, g, cursor, hasMore, pageCount, calls).calls;
      && |calls| <= |r| <= |calls| + MaxPages - pageCount
      && r[..|calls|] == calls
      && (forall k :: |calls| <= k < |r| ==> r[k].limit == Some(PageSize))
      && (|r| > |calls| ==> r[|calls|] == PageRequest(cursor))
      && (hasMore && pageCount < MaxPages ==> |r| > |calls|)
    decreases MaxPages - pageCount
  {
    if hasMore && pageCount < MaxPages {
      var req := PageRequest(cursor);
      var reply := g.directory(|calls|, req);
      if reply.Fetched? {
        var page := Collection(reply.members);
        var q := VisitAll(classify, p, page, g.name);
        PagerCalls(classify, q, g, LastId(page), |page| == PageSize, pageCount + 1, calls + [req]);
        var r := Pager(classify, q, g, LastId(page), |page| == PageSize, pageCount + 1, calls + [req]).calls;
        assert r[..|calls|] == r[..|calls| + 1][..|calls|];
        assert r[|calls|] == r[..|calls| + 1][|calls|];
      }
    }
  }

  /** A page with fewer than 1000 members ends the fallback: no further call
      is made, and the pager's progress is that page's scan. */
  lemma PagerStopsAfterShortPage(classify: Classifier, p: Progress, g: Guild, cursor: Option<MemberId>,
                                 pageCount: nat, calls: seq<FetchRequest>)
    requires pageCount < MaxPages
    requires g.directory(|calls|, PageRequest(cursor)).Fetched?
    requires |Collection(g.directory(|calls|, PageRequest(cursor)).members)| != PageSize
    ensures var r := Pager(classify, p, g, cursor, true, pageCount, calls);
      var page := Collection(g.directory(|calls|, PageRequest(cursor)).members);
      && r.calls == calls + [PageRequest(cursor)]
      && !r.threw
      && r.progress == VisitAll(classify, p, page, g.name)
  {
  }

  /** After a full page, with pages left, the next call asks for the page
      after the last member of that page. */
  lemma PagerCursorStep(classify: Classifier, p: Progress, g: Guild, cursor: Option<MemberId>,
                        pageCount: nat, calls: seq<FetchRequest>)
    requires pageCount + 1 < MaxPages
    requires g.directory(|calls|, PageRequest(cursor)).Fetched?
    requires |Collection(g.directory(|calls|, PageRequest(cursor)).members)| == PageSize
    ensures var r := Pager(classify, p, g, cursor, true, pageCount, calls).calls;
      var page := Collection(g.directory(|calls|, PageRequest(cursor)).members);
      |r| > |calls| + 1 && r[|calls| + 1] == PageRequest(Some(page[|page| - 1].id))
  {
    var page := Collection(g.directory(|calls|, PageRequest(cursor)).members);
    var q := VisitAll(classify, p, page, g.name);
    PagerStep(classify, p, g, cursor, pageCount, calls);
    PagerCalls(classify, q, g, LastId(page), true, pageCount + 1, calls + [PageRequest(cursor)]);
  }

  /** `scanGuild` on the state `s`: the guild's counters with the new state.
      After the `try` block's fetches the cache is scanned; if one of them
      threw, the fallback pager runs, and if a page throws the guild reports
      `{scanned: 0, found: 0}` while the state keeps what the pager did. */
  function ScanGuildSpec(classify: Classifier, s: ScanState, g: Guild): Progress {
    var loaded := LoadMembers(g);
    if loaded.Loaded? then VisitAll(classify, Progress(s, 0, 0), loaded.cache, g.name)
    else
      var paged := Pager(classify, Progress(s, 0, 0), g, None, true, 0, loaded.calls);
      if paged.threw then Progress(paged.progress.state, 0, 0) else paged.progress
  }

  /** A guild scan keeps the invariant; `checkedUsers`, the notices and the
      totals only grow; the guild finds no more than it scans; its counters
      are both 0 when the fallback threw and the growth of the totals
      otherwise; and
      after a successful fetch, it scans every cached member that is not a bot
      and checks exactly the matching ones. */
  lemma ScanGuildFacts(classify: Classifier, s: ScanState, g: Guild)
    requires Inv(s)
    ensures var r := ScanGuildSpec(classify, s, g);
      && Inv(r.state)
      && s.checked <= r.state.checked
      && s.sent <= r.state.sent
      && s.totalScanned <= r.state.totalScanned && s.totalFound <= r.state.totalFound
      && r.found <= r.scanned
      && (var loaded := LoadMembers(g);
          if loaded.Threw? && Pager(classify, Progress(s, 0, 0), g, None, true, 0, loaded.calls).threw
          then r.scanned == 0 && r.found == 0
          else r.scanned == r.state.totalScanned - s.totalScanned && r.found == r.state.totalFound - s.totalFound)
      && (LoadMembers(g).Loaded? ==>
            r.scanned == Humans(LoadMembers(g).cache)
            && r.state.checked == s.checked + MatchedIds(classify, LoadMembers(g).cache))
  {
    var loaded := LoadMembers(g);
    if loaded.Loaded? {
      VisitAllFacts(classify, Progress(s, 0, 0), loaded.cache, g.name);
    } else {
      PagerKeepsInv(classify, Progress(s, 0, 0), g, None, true, 0, loaded.calls);
      PagerAdvances(classify, Progress(s, 0, 0), g, None, true, 0, loaded.calls);
    }
  }

  /** `startXboxScan`: the guilds one after another; no guild's failure stops
      the others. */
  function ScanAll(classify: Classifier, s: ScanState, guilds: seq<Guild>): ScanState {
    if guilds == [] then s
    else ScanGuildSpec(classify, ScanAll(classify, s, guilds[..|guilds| - 1]), guilds[|guilds| - 1]).state
  }

  /** Across all guilds of a scan, the invariant holds and the state only grows. */
  lemma {:induction false} ScanAllFacts(classify: Classifier, s: ScanState, guilds: seq<Guild>)
    requires Inv(s)
    ensures Inv(ScanAll(classify, s, guilds))
    ensures s.checked <= ScanAll(classify, s, guilds).checked && s.sent <= ScanAll(classify, s, guilds).sent
  {
    if guilds != [] {
      ScanAllFacts(classify, s, guilds[..|guilds| - 1]);
      ScanGuildFacts(classify, ScanAll(classify, s, guilds[..|guilds| - 1]), guilds[|guilds| - 1]);
    }
  }

  /** At most one notification per member id for the life of the process,
      across all guilds and both scan paths: the notified ids are exactly
      `checkedUsers`, none twice, and `totalFound` equals `checkedUsers.size`. */
  lemma AtMostOnce(classify: Classifier, guilds: seq<Guild>)
    ensures var s := ScanAll(classify, Initial, guilds);
      && DistinctSent(s.sent)
      && SentIds(s.sent) == s.checked
      && s.totalFound == |s.checked| == |s.sent|
      && s.totalFound <= s.totalScanned
  {
    ScanAllFacts(classify, Initial, guilds);
    SentIdsCount(ScanAll(classify, Initial, guilds).sent);
  }

  /** The scanner's module-level state, updated in place. */
  class XboxScanner {
    var checkedUsers: set<MemberId>
    var totalScanned: nat
    var totalFound: nat
    var sent: seq<Notice>
    /** `checkForXboxGamertag`, which the constructor fixes to `Classify` (the
        function that `Gamertag.CheckForXboxGamertag` computes). */
    const classify: Classifier

    function State(): ScanState
      reads this
    {
      ScanState(checkedUsers, totalScanned, totalFound, sent)
    }

    ghost predicate Valid()
      reads this
    {
      Inv(State())
    }

    constructor ()
      ensures Valid() && State() == Initial && classify == Classify
    {
      classify := Classify;
      checkedUsers := {};
      totalScanned := 0;
      totalFound := 0;
      sent := [];
    }

    /** The body shared by both member loops of `scanGuild`, with the guild's
        counters passed in and returned. */
    method VisitMember(m: Member, guildName: string, scanned: nat, found: nat) returns (scanned': nat, found': nat)
      modifies this
      ensures Progress(State(), scanned', found') == Visit(classify, Progress(old(State()), scanned, found), m, guildName)
    {
      scanned', found' := scanned, found;
      if m.bot {
        return;
      }
      scanned' := scanned' + 1;
      totalScanned := totalScanned + 1;
      if m.id in checkedUsers {
        return;
      }
      var hit := classify(m.username, m.displayName);
      if hit.Some? {
        found' := found' + 1;
        totalFound := totalFound + 1;
        checkedUsers := checkedUsers + {m.id};
        // sendGamertagInfo(member, guild, gamertag)
        sent := sent + [Notice(m.id, guildName, hit.value, totalFound, totalScanned)];
      }
    }

    /** The member loop over one sequence of members. */
    method VisitMembers(ms: seq<Member>, guildName: string, scanned: nat, found: nat) returns (scanned': nat, found': nat)
      modifies this
      ensures Progress(State(), scanned', found') == VisitAll(classify, Progress(old(State()), scanned, found), ms, guildName)
    {
      scanned', found' := scanned, found;
      for i := 0 to |ms|
        invariant Progress(State(), scanned', found') == VisitAll(classify, Progress(old(State()), scanned, found), ms[..i], guildName)
      {
        assert ms[..i + 1][..i] == ms[..i];
        scanned', found' := VisitMember(ms[i], guildName, scanned', found');
      }
      assert ms[..|ms|] == ms;
    }

    /** `scanGuild(guild)`, returning `{scanned, found}`. */
    method ScanGuild(g: Guild) returns (scanned: nat, found: nat)
      requires Valid()
      modifies this
      ensures Valid()
      ensures Progress(State(), scanned, found) == ScanGuildSpec(classify, old(State()), g)
    {
      var loaded := FetchMembers(g);
      if loaded.Loaded? {
        VisitAllFacts(classify, Progress(State(), 0, 0), loaded.cache, g.name);
        scanned, found := VisitMembers(loaded.cache, g.name, 0, 0);
      } else {
        scanned, found := Fallback(g, loaded.calls);
      }
    }

    /** The `catch` block of `scanGuild`: the paged fallback after the fetch
        calls `calls0`, returning `{scanned: 0, found: 0}` if a page throws. */
    method Fallback(g: Guild, calls0: seq<FetchRequest>) returns (scanned: nat, found: nat)
      requires Valid()
      modifies this
      ensures Valid()
      ensures var r := Pager(classify, Progress(old(State()), 0, 0), g, None, true, 0, calls0);
        Progress(State(), scanned, found) == if r.threw then Progress(r.progress.state, 0, 0) else r.progress
    {
      ghost var target := Pager(classify, Progress(State(), 0, 0), g, None, true, 0, calls0);
      PagerKeepsInv(classify, Progress(State(), 0, 0), g, None, true, 0, calls0);
      var altScanned, altFound := 0, 0;
      var lastId: Option<MemberId> := None;
      var hasMore := true;
      var pageCount := 0;
      var calls := calls0;
      while hasMore && pageCount < MaxPages
        invariant pageCount <= MaxPages
        invariant Pager(classify, Progress(State(), altScanned, altFound), g, lastId, hasMore, pageCount, calls) == target
        decreases MaxPages - pageCount
      {
        var req := PageRequest(lastId);
        var reply := g.directory(|calls|, req);
        if reply.Failed? {
          // the fallback threw too
          return 0, 0;
        }
        var page := Collection(reply.members);
        PagerStep(classify, Progress(State(), altScanned, altFound), g, lastId, pageCount, calls);
        altScanned, altFound := VisitMembers(page, g.name, altScanned, altFound);
        lastId := LastId(page);
        hasMore := |page| == PageSize;
        pageCount := pageCount + 1;
        calls := calls + [req];
      }
      return altScanned, altFound;
    }

    /** `startXboxScan()` over the guilds of the client's cache. */
    method StartXboxScan(guilds: seq<Guild>)
      requires Valid()
      modifies this
      ensures Valid()
      ensures State() == ScanAll(classify, old(State()), guilds)
    {
      for i := 0 to |guilds|
        invariant Valid()
        invariant State() == ScanAll(classify, old(State()), guilds[..i])
      {
        assert guilds[..i + 1][..i] == guilds[..i];
        var scanned, found := ScanGuild(guilds[i]);
      }
      assert guilds[..|guilds|] == guilds;
    }
  }
}
