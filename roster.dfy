/** The member roster as `scanGuild` (index.js) obtains it: the guild's member
    cache (a discord.js `Collection`, a `Map` keyed by member id that keeps
    insertion order), the `guild.members.fetch` calls that fill it, and the
    first two retrieval tiers. The directory behind `fetch` is an oracle. */
module Roster {
  import opened Wrappers

  /** A member id (a Discord snowflake string, never empty). */
  type MemberId = s: string | |s| > 0 witness "0"

  /** The parts of a guild member that the scan reads; an absent or empty
      display name is "". */
  datatype Member = Member(id: MemberId, bot: bool, username: string, displayName: string)

  /** The options of a `guild.members.fetch` call that vary between calls
      (`force` and `cache` are always true): `limit`, and the `after` cursor. */
  datatype FetchRequest = FetchRequest(limit: Option<nat>, after: Option<MemberId>)

  /** A fetch either delivers members or throws. */
  datatype FetchOutcome = Fetched(members: seq<Member>) | Failed

  /** A guild as one scan sees it: its name, its declared `memberCount`, its
      member cache when the scan starts, and the directory, which answers the
      k-th fetch call of the scan (counting from 0) for a given request. */
  datatype Guild = Guild(name: string, memberCount: nat, cache: seq<Member>,
                         directory: (nat, FetchRequest) -> FetchOutcome)

  function Ids(ms: seq<Member>): set<MemberId> {
    if ms == [] then {} else {ms[0].id} + Ids(ms[1..])
  }

  /** The key uniqueness of a `Collection`. */
  predicate DistinctIds(ms: seq<Member>) {
    ms == [] || (ms[0].id !in Ids(ms[1..]) && DistinctIds(ms[1..]))
  }

  /** `collection.set(m.id, m)`: an existing key keeps its position and takes
      the new member, a new key goes to the end. */
  function Upsert(cache: seq<Member>, m: Member): seq<Member> {
    if cache == [] then [m]
    else if cache[0].id == m.id then [m] + cache[1..]
    else [cache[0]] + Upsert(cache[1..], m)
  }

  /** Setting a key adds exactly that key, keeps the keys unique and in their
      order, and appends only a new key. */
  lemma {:induction false} UpsertFacts(cache: seq<Member>, m: Member)
    ensures Ids(Upsert(cache, m)) == Ids(cache) + {m.id}
    ensures DistinctIds(cache) ==> DistinctIds(Upsert(cache, m))
    ensures |Upsert(cache, m)| == if m.id in Ids(cache) then |cache| else |cache| + 1
    ensures forall i :: 0 <= i < |cache| ==> Upsert(cache, m)[i].id == cache[i].id
    ensures m.id !in Ids(cache) ==> Upsert(cache, m) == cache + [m]
  {
    if cache != [] && cache[0].id != m.id {
      UpsertFacts(cache[1..], m);
      var r := Upsert(cache, m);
      assert r[1..] == Upsert(cache[1..], m);
    }
  }

  /** The fetched members merged into the cache one by one, in order. */
  function Merge(cache: seq<Member>, fetched: seq<Member>): seq<Member>
    decreases |fetched|
  {
    if fetched == [] then cache
    else Merge(Upsert(cache, fetched[0]), fetched[1..])
  }

  /** Merging adds exactly the fetched keys, keeps the keys unique, and keeps
      the keys already present in their positions. */
  lemma {:induction false} MergeFacts(cache: seq<Member>, fetched: seq<Member>)
    ensures Ids(Merge(cache, fetched)) == Ids(cache) + Ids(fetched)
    ensures DistinctIds(cache) ==> DistinctIds(Merge(cache, fetched))
    ensures |cache| <= |Merge(cache, fetched)| <= |cache| + |fetched|
    ensures forall i :: 0 <= i < |cache| ==> Merge(cache, fetched)[i].id == cache[i].id
    decreases |fetched|
  {
    if fetched != [] {
      UpsertFacts(cache, fetched[0]);
      MergeFacts(Upsert(cache, fetched[0]), fetched[1..]);
    }
  }

  /** The `Collection` that one fetch call returns. */
  function Collection(fetched: seq<Member>): seq<Member> {
    Merge([], fetched)
  }

  /** A fetched collection has unique keys, all of them from the reply. */
  lemma CollectionFacts(fetched: seq<Member>)
    ensures DistinctIds(Collection(fetched)) && Ids(Collection(fetched)) == Ids(fetched)
    ensures |Collection(fetched)| <= |fetched|
  {
    MergeFacts([], fetched);
  }

  /** The last key of a collection, or `undefined` for an empty one. */
  function LastId(ms: seq<Member>): (r: Option<MemberId>)
    ensures r.Some? <==> |ms| > 0
  {
    if ms == [] then None else Some(ms[|ms| - 1].id)
  }

  /** The first call: `fetch({force, cache, limit: guild.memberCount})`. */
  function BulkRequest(g: Guild): FetchRequest {
    FetchRequest(Some(g.memberCount), None)
  }

  /** The first supplementary call: `fetch({force, cache})`, without a limit. */
  const FullRequest: FetchRequest := FetchRequest(None, None)

  /** A page of 1000 after an optional cursor. */
  function PageRequest(after: Option<MemberId>): FetchRequest {
    FetchRequest(Some(PageSize), after)
  }

  const PageSize: nat := 1000
  const SupplementRounds: nat := 5

  /** `guild.members.cache.size < guild.memberCount * 0.9`, over the integers. */
  predicate Insufficient(size: nat, memberCount: nat) {
    10 * size < 9 * memberCount
  }

  /** The outcome of the fetches before the member loop: the cache to scan and
      the calls made, or the calls made up to and including one that threw. */
  datatype Loaded = Loaded(cache: seq<Member>, calls: seq<FetchRequest>) | Threw(calls: seq<FetchRequest>)

  /** The bulk fetch, the sufficiency test, and when the cache holds less than
      90% of `memberCount`, a fetch without limit and five paged rounds. */
  function LoadMembers(g: Guild): Loaded {
    var bulk := BulkRequest(g);
    match g.directory(0, bulk)
    case Failed => Threw([bulk])
    case Fetched(first) =>
      var cache := Merge(g.cache, first);
      if !Insufficient(|cache|, g.memberCount) then Loaded(cache, [bulk])
      else
        match g.directory(1, FullRequest)
        case Failed => Threw([bulk, FullRequest])
        case Fetched(second) => Supplement(g, Merge(cache, second), 0, [bulk, FullRequest])
  }

  /** Rounds `round` to 4 of the supplementary fetch: each asks for a page of
      1000 after the cache's current last key, with no early exit. */
  function Supplement(g: Guild, cache: seq<Member>, round: nat, calls: seq<FetchRequest>): Loaded
    requires round <= SupplementRounds
    decreases SupplementRounds - round
  {
    if round == SupplementRounds then Loaded(cache, calls)
    else
      var req := PageRequest(LastId(cache));
      var reply := g.directory(|calls|, req);
      if reply.Failed? then Threw(calls + [req])
      else
        Supplement(g, Merge(cache, reply.members), round + 1, calls + [req])
  }

  /** The supplementary rounds keep the calls already made and add one call
      per round, for a page of 1000, up to the first that throws. */
  lemma {:induction false} SupplementCalls(g: Guild, cache: seq<Member>, round: nat, calls: seq<FetchRequest>)
    requires round <= SupplementRounds
    ensures var r := Supplement(g, cache, round, calls);
      && |calls| <= |r.calls| <= |calls| + SupplementRounds - round
      && r.calls[..|calls|] == calls
      && (r.Threw? ==> |calls| < |r.calls|)
      && (r.Loaded? ==> |r.calls| == |calls| + SupplementRounds - round)
      && forall k :: |calls| <= k < |r.calls| ==> r.calls[k].limit == Some(PageSize)
    decreases SupplementRounds - round
  {
    if round < SupplementRounds {
      var req := PageRequest(LastId(cache));
      var reply := g.directory(|calls|, req);
      if reply.Fetched? {
        var next := Merge(cache, reply.members);
        SupplementCalls(g, next, round + 1, calls + [req]);
        var r := Supplement(g, next, round + 1, calls + [req]);
        assert r.calls[..|calls|] == r.calls[..|calls| + 1][..|calls|];
        assert r.calls[|calls|] == r.calls[..|calls| + 1][|calls|];
      }
    }
  }

  /** Each supplementary round asks for the page after the cache's last key
      as it stands at that round. */
  lemma SupplementCursor(g: Guild, cache: seq<Member>, round: nat, calls: seq<FetchRequest>)
    requires round < SupplementRounds
    ensures var r := Supplement(g, cache, round, calls).calls;
      |r| > |calls| && r[|calls|] == PageRequest(LastId(cache))
  {
    var req := PageRequest(LastId(cache));
    var reply := g.directory(|calls|, req);
    if reply.Fetched? {
      var next := Merge(cache, reply.members);
      SupplementCalls(g, next, round + 1, calls + [req]);
      var r := Supplement(g, next, round + 1, calls + [req]).calls;
      assert r[|calls|] == r[..|calls| + 1][|calls|];
    }
  }

  /** After a successful round with rounds left, the next call asks for the
      page after the last key of the cache merged with that round's reply. */
  lemma SupplementCursorStep(g: Guild, cache: seq<Member>, round: nat, calls: seq<FetchRequest>)
    requires round + 1 < SupplementRounds
    requires g.directory(|calls|, PageRequest(LastId(cache))).Fetched?
    ensures var reply := g.directory(|calls|, PageRequest(LastId(cache)));
      var r := Supplement(g, cache, round, calls).calls;
      |r| > |calls| + 1 && r[|calls| + 1] == PageRequest(LastId(Merge(cache, reply.members)))
  {
    var req := PageRequest(LastId(cache));
    SupplementCursor(g, Merge(cache, g.directory(|calls|, req).members), round + 1, calls + [req]);
  }

  /** The supplementary rounds lose no member already in the cache and keep
      the keys unique. */
  lemma {:induction false} SupplementKeepsMembers(g: Guild, cache: seq<Member>, round: nat, calls: seq<FetchRequest>)
    requires round <= SupplementRounds && DistinctIds(cache)
    ensures var r := Supplement(g, cache, round, calls);
      r.Loaded? ==> Ids(cache) <= Ids(r.cache) && DistinctIds(r.cache)
    decreases SupplementRounds - round
  {
    if round < SupplementRounds {
      var req := PageRequest(LastId(cache));
      var reply := g.directory(|calls|, req);
      if reply.Fetched? {
        MergeFacts(cache, reply.members);
        SupplementKeepsMembers(g, Merge(cache, reply.members), round + 1, calls + [req]);
      }
    }
  }

  /** Tier selection. The bulk fetch is always the first call. When it leaves
      the cache at 90% of `memberCount` or more, nothing else is fetched; when
      it leaves less, the call without limit is always the second call (also
      when it or a later round throws), exactly six more calls are made unless
      one throws, and the resulting cache still holds every member of the cache
      after the bulk fetch. */
  lemma LoadMembersTiers(g: Guild)
    requires DistinctIds(g.cache)
    ensures LoadMembers(g).calls[0] == BulkRequest(g)
    ensures 1 <= |LoadMembers(g).calls| <= 2 + SupplementRounds
    ensures g.directory(0, BulkRequest(g)).Fetched? ==>
              var bulkCache := Merge(g.cache, g.directory(0, BulkRequest(g)).members);
              (!Insufficient(|bulkCache|, g.memberCount) ==> LoadMembers(g) == Loaded(bulkCache, [BulkRequest(g)]))
              && (Insufficient(|bulkCache|, g.memberCount) ==>
                    |LoadMembers(g).calls| >= 2 && LoadMembers(g).calls[1] == FullRequest)
              && (Insufficient(|bulkCache|, g.memberCount) && LoadMembers(g).Loaded? ==>
                    |LoadMembers(g).calls| == 2 + SupplementRounds
                    && LoadMembers(g).calls[1] == FullRequest
                    && Ids(bulkCache) <= Ids(LoadMembers(g).cache))
    ensures LoadMembers(g).Loaded? ==> DistinctIds(LoadMembers(g).cache)
  {
    var bulk := BulkRequest(g);
    var first := g.directory(0, bulk);
    if first.Fetched? {
      var cache := Merge(g.cache, first.members);
      MergeFacts(g.cache, first.members);
      if Insufficient(|cache|, g.memberCount) {
        var second := g.directory(1, FullRequest);
        if second.Fetched? {
          var next := Merge(cache, second.members);
          MergeFacts(cache, second.members);
          SupplementCalls(g, next, 0, [bulk, FullRequest]);
          SupplementKeepsMembers(g, next, 0, [bulk, FullRequest]);
          var r := Supplement(g, next, 0, [bulk, FullRequest]);
          assert r.calls[0] == r.calls[..2][0];
          assert r.calls[1] == r.calls[..2][1];
        }
      }
    }
  }

  /** The fetches of the `try` block as `scanGuild` makes them: the bulk call,
      the sufficiency test, then the call without limit and the `for` loop of
      five rounds. A thrown fetch ends the block. */
  method FetchMembers(g: Guild) returns (loaded: Loaded)
    ensures loaded == LoadMembers(g)
  {
    var bulk := BulkRequest(g);
    var first := g.directory(0, bulk);
    if first.Failed? {
      return Threw([bulk]);
    }
    var cache := Merge(g.cache, first.members);
    if !Insufficient(|cache|, g.memberCount) {
      return Loaded(cache, [bulk]);
    }
    var second := g.directory(1, FullRequest);
    if second.Failed? {
      return Threw([bulk, FullRequest]);
    }
    cache := Merge(cache, second.members);
    var calls := [bulk, FullRequest];
    for round := 0 to SupplementRounds
      invariant Supplement(g, cache, round, calls) == LoadMembers(g)
    {
      var req := PageRequest(LastId(cache));
      var reply := g.directory(|calls|, req);
      if reply.Failed? {
        return Threw(calls + [req]);
      }
      cache := Merge(cache, reply.members);
      calls := calls + [req];
    }
    return Loaded(cache, calls);
  }
}
