/** The conversation and memory collections: records are appended, queried per user
    in recency order, and ranked for relevance to a query. */
module MemoryManager {
  import opened Wrappers
  import opened Values
  import opened Seqs
  import opened Sorting
  import Ai

  /** A stored memory; `createdAt` and `lastAccessed` are timestamps, `id` the insertion number. */
  datatype Memory = Memory(
    id: nat,
    userId: string,
    memoryType: string,
    content: string,
    aiEnhancedContent: string,
    importance: real,
    metadata: Metadata,
    createdAt: int,
    lastAccessed: int)

  /** A stored conversation turn; `kind` is the constant "conversation". */
  datatype Conversation = Conversation(
    id: nat,
    userId: string,
    timestamp: int,
    message: string,
    response: string,
    context: Metadata,
    aiAnalysis: Ai.Reply,
    kind: string)

  /** A record as a query returns it, with the insights the model added. */
  datatype Annotated<T> = Annotated(record: T, aiInsights: Ai.Reply)

  // ---------------------------------------------------------------------------
  // Query order

  /** `sort=[("last_accessed", -1), ("importance", -1)]`. */
  function MemoryKey(m: Memory): Key { Key(m.lastAccessed as real, m.importance) }

  /** `sort=[("timestamp", -1)]`. */
  function ConversationKey(c: Conversation): Key { Key(c.timestamp as real, 0.0) }

  function MemoryId(m: Memory): int { m.id }
  function ConversationId(c: Conversation): int { c.id }

  /** The memories of `userId`, newest access first, then most important first;
      memories with equal keys stay in insertion order. */
  function Candidates(memories: seq<Memory>, userId: string): seq<Memory> {
    SortDesc(Filter(memories, (m: Memory) => m.userId == userId), MemoryKey)
  }

  /** The memories of `userId` and type `kind`, in the same order, up to `limit` (0: all). */
  function OfKind(memories: seq<Memory>, userId: string, kind: string, limit: nat): seq<Memory> {
    Limit(SortDesc(Filter(memories, (m: Memory) => m.userId == userId && m.memoryType == kind), MemoryKey), limit)
  }

  /** The conversations of `userId`, newest first, up to `limit` (0: all). */
  function Recent(conversations: seq<Conversation>, userId: string, limit: nat): seq<Conversation> {
    Limit(SortDesc(Filter(conversations, (c: Conversation) => c.userId == userId), ConversationKey), limit)
  }

  predicate IdsIncreasing<T>(s: seq<T>, id: T -> int) {
    forall i, j :: 0 <= i < j < |s| ==> id(s[i]) < id(s[j])
  }

  /** Every element of `s` has an id above `bound`. */
  predicate IdsAbove<T>(s: seq<T>, id: T -> int, bound: int) {
    forall k :: 0 <= k < |s| ==> bound < id(s[k])
  }

  lemma {:induction false} FilterAbove<T>(s: seq<T>, p: T -> bool, id: T -> int, bound: int)
    requires IdsAbove(s, id, bound)
    ensures IdsAbove(Filter(s, p), id, bound)
  {
    if s != [] {
      FilterAbove(s[1..], p, id, bound);
      var head := if p(s[0]) then [s[0]] else [];
      assert Filter(s, p) == head + Filter(s[1..], p);
    }
  }

  lemma ConsIncreasing<T>(x: T, rest: seq<T>, id: T -> int)
    requires IdsIncreasing(rest, id) && IdsAbove(rest, id, id(x))
    ensures IdsIncreasing([x] + rest, id)
  {
    var s := [x] + rest;
    forall i, j | 0 <= i < j < |s| ensures id(s[i]) < id(s[j]) {
      assert s[j] == rest[j - 1];
      if i > 0 {
        assert s[i] == rest[i - 1];
      }
    }
  }

  lemma {:induction false} FilterIncreasing<T>(s: seq<T>, p: T -> bool, id: T -> int)
    requires IdsIncreasing(s, id)
    ensures IdsIncreasing(Filter(s, p), id)
  {
    if s != [] {
      var tail := s[1..];
      assert IdsIncreasing(tail, id) by {
        forall i, j | 0 <= i < j < |tail| ensures id(tail[i]) < id(tail[j]) {
          assert tail[i] == s[i + 1] && tail[j] == s[j + 1];
        }
      }
      assert IdsAbove(tail, id, id(s[0])) by {
        forall k | 0 <= k < |tail| ensures id(s[0]) < id(tail[k]) {
          assert tail[k] == s[k + 1];
        }
      }
      FilterIncreasing(tail, p, id);
      FilterAbove(tail, p, id, id(s[0]));
      var rest := Filter(tail, p);
      if p(s[0]) {
        assert Filter(s, p) == [s[0]] + rest;
        ConsIncreasing(s[0], rest, id);
      } else {
        assert Filter(s, p) == rest;
      }
    }
  }

  /** The candidates are exactly the user's memories, ordered by access time, then
      importance, then insertion order. */
  lemma CandidatesOrdered(memories: seq<Memory>, userId: string)
    requires IdsIncreasing(memories, MemoryId)
    ensures multiset(Candidates(memories, userId)) == multiset(Filter(memories, (m: Memory) => m.userId == userId))
    ensures forall k :: 0 <= k < |Candidates(memories, userId)| ==> Candidates(memories, userId)[k].userId == userId
    ensures RankedBy(Candidates(memories, userId), MemoryKey, MemoryId)
  {
    var mine := Filter(memories, (m: Memory) => m.userId == userId);
    FilterIncreasing(memories, (m: Memory) => m.userId == userId, MemoryId);
    SortDescRanked(mine, MemoryKey, MemoryId);
    forall k | 0 <= k < |Candidates(memories, userId)| ensures Candidates(memories, userId)[k].userId == userId {
      assert Candidates(memories, userId)[k] in multiset(mine);
    }
  }

  /** A typed query returns at most `limit` of the user's memories of that type, in the
      recency order. */
  lemma OfKindShape(memories: seq<Memory>, userId: string, kind: string, limit: nat)
    requires IdsIncreasing(memories, MemoryId)
    ensures limit > 0 ==> |OfKind(memories, userId, kind, limit)| <= limit
    ensures forall k :: 0 <= k < |OfKind(memories, userId, kind, limit)| ==>
      OfKind(memories, userId, kind, limit)[k].userId == userId
      && OfKind(memories, userId, kind, limit)[k].memoryType == kind
      && OfKind(memories, userId, kind, limit)[k] in memories
    ensures RankedBy(OfKind(memories, userId, kind, limit), MemoryKey, MemoryId)
  {
    var p := (m: Memory) => m.userId == userId && m.memoryType == kind;
    var mine := Filter(memories, p);
    var sorted := SortDesc(mine, MemoryKey);
    FilterIncreasing(memories, p, MemoryId);
    SortDescRanked(mine, MemoryKey, MemoryId);
    var r := OfKind(memories, userId, kind, limit);
    assert r <= sorted;
    forall k | 0 <= k < |r| ensures r[k].userId == userId && r[k].memoryType == kind && r[k] in memories {
      assert r[k] == sorted[k];
      assert sorted[k] in multiset(mine);
    }
  }

  /** `get_recent_conversations` returns at most `limit` of the user's conversations,
      newest first. */
  lemma RecentShape(conversations: seq<Conversation>, userId: string, limit: nat)
    requires IdsIncreasing(conversations, ConversationId)
    ensures limit > 0 ==> |Recent(conversations, userId, limit)| <= limit
    ensures forall k :: 0 <= k < |Recent(conversations, userId, limit)| ==>
      Recent(conversations, userId, limit)[k].userId == userId && Recent(conversations, userId, limit)[k] in conversations
    ensures RankedBy(Recent(conversations, userId, limit), ConversationKey, ConversationId)
  {
    var p := (c: Conversation) => c.userId == userId;
    var mine := Filter(conversations, p);
    var sorted := SortDesc(mine, ConversationKey);
    FilterIncreasing(conversations, p, ConversationId);
    SortDescRanked(mine, ConversationKey, ConversationId);
    var r := Recent(conversations, userId, limit);
    assert r <= sorted;
    forall k | 0 <= k < |r| ensures r[k].userId == userId && r[k] in conversations {
      assert r[k] == sorted[k];
      assert sorted[k] in multiset(mine);
    }
  }

  // ---------------------------------------------------------------------------
  // Relevance ranking

  type Embedding = seq<real>

  /** The embedding and similarity-search collaborators; `None` stands for a call that raised. */
  datatype Ranker = Ranker(
    embed: string -> Option<Embedding>,
    search: (Embedding, seq<Embedding>, nat) -> Option<seq<int>>)

  /** The text embedded for a memory: its content and its enhanced content. */
  function MemoryText(m: Memory): string { m.content + " " + m.aiEnhancedContent }

  /** `prefix` followed by the result of a step that may have failed. */
  function Then<T>(prefix: seq<T>, r: Option<seq<T>>): Option<seq<T>> {
    if r.Some? then Some(prefix + r.value) else None
  }

  lemma ThenAppend<T>(a: seq<T>, b: seq<T>, r: Option<seq<T>>)
    ensures Then(a, Then(b, r)) == Then(a + b, r)
    ensures Then([], r) == r
    ensures Then(a, Some([])) == Some(a)
  {
    if r.Some? {
      assert a + (b + r.value) == (a + b) + r.value;
      assert [] + r.value == r.value;
    }
    assert a + [] == a;
  }

  /** The embeddings of the memories, in order, or `None` when one of them fails. */
  function EmbedAll(ms: seq<Memory>, embed: string -> Option<Embedding>): (r: Option<seq<Embedding>>)
    ensures r.Some? ==> |r.value| == |ms|
  {
    if ms == [] then Some([])
    else
      var e := embed(MemoryText(ms[0]));
      if e.None? then None else Then([e.value], EmbedAll(ms[1..], embed))
  }

  /** Python's index `i` into a list of length `n`, for `-n <= i < n`. */
  function Wrap(i: int, n: nat): int { if i >= 0 then i else n + i }

  /** The ranker's indices that pass the `idx < len(all_memories)` check, in order. */
  function Kept(indices: seq<int>, n: nat): (r: seq<int>)
    ensures forall k :: 0 <= k < |r| ==> r[k] < n
  {
    if indices == [] then []
    else (if indices[0] < n then [indices[0]] else []) + Kept(indices[1..], n)
  }

  /** The memories at the kept indices; `None` when one of them is below `-len(all)`,
      where Python raises an `IndexError`. */
  function Pick(all: seq<Memory>, indices: seq<int>): (r: Option<seq<Memory>>)
    ensures r.Some? ==> forall k :: 0 <= k < |r.value| ==> r.value[k] in all
  {
    if indices == [] then Some([])
    else
      var i := indices[0];
      if i >= |all| then Pick(all, indices[1..])
      else if i >= 0 then Then([all[i]], Pick(all, indices[1..]))
      else if i >= -|all| then Then([all[|all| + i]], Pick(all, indices[1..]))
      else None
  }

  /** The picked memories are those at the kept indices, in the ranker's order. */
  lemma {:induction false} PickInOrder(all: seq<Memory>, indices: seq<int>)
    requires Pick(all, indices).Some?
    ensures |Pick(all, indices).value| == |Kept(indices, |all|)|
    ensures forall k :: 0 <= k < |Kept(indices, |all|)| ==>
      -|all| <= Kept(indices, |all|)[k] && Pick(all, indices).value[k] == all[Wrap(Kept(indices, |all|)[k], |all|)]
  {
    if indices != [] {
      PickInOrder(all, indices[1..]);
      var i := indices[0];
      var kept := Kept(indices[1..], |all|);
      var tail := Pick(all, indices[1..]).value;
      if i < |all| {
        var x := if i >= 0 then all[i] else all[|all| + i];
        assert Kept(indices, |all|) == [i] + kept;
        assert Pick(all, indices).value == [x] + tail;
        assert x == all[Wrap(i, |all|)];
      } else {
        assert Kept(indices, |all|) == kept;
        assert Pick(all, indices).value == tail;
      }
    }
  }

  /** `get_relevant_memories` once the candidates are known: `[]` without candidates,
      the ranker's picks when every step succeeds, otherwise the first `limit`
      candidates in recency order. */
  function Relevant(all: seq<Memory>, query: string, limit: nat, ranker: Ranker): (r: seq<Memory>)
    ensures forall k :: 0 <= k < |r| ==> r[k] in all
    ensures all == [] ==> r == []
  {
    if all == [] then []
    else
      var q := ranker.embed(query);
      var es := EmbedAll(all, ranker.embed);
      if q.None? || es.None? then Limit(all, limit)
      else
        var indices := ranker.search(q.value, es.value, limit);
        if indices.None? then Limit(all, limit)
        else
          var picked := Pick(all, indices.value);
          if picked.None? then Limit(all, limit) else picked.value
  }

  /** One of the ranking steps fails: embedding the query, embedding a candidate,
      the similarity search, or an index below `-len(all)`. */
  predicate RankingFails(all: seq<Memory>, query: string, limit: nat, ranker: Ranker) {
    var q := ranker.embed(query);
    var es := EmbedAll(all, ranker.embed);
    || q.None?
    || es.None?
    || ranker.search(q.value, es.value, limit).None?
    || Pick(all, ranker.search(q.value, es.value, limit).value).None?
  }

  /** When any ranking step fails, the result is the first `limit` candidates, in order. */
  lemma RelevantFallback(all: seq<Memory>, query: string, limit: nat, ranker: Ranker)
    requires RankingFails(all, query, limit, ranker)
    ensures Relevant(all, query, limit, ranker) == Limit(all, limit)
    ensures Relevant(all, query, limit, ranker) <= all
    ensures |Relevant(all, query, limit, ranker)| == if limit == 0 || |all| <= limit then |all| else limit
  {
  }

  /** When every ranking step succeeds, the result is the candidates at the indices the
      search returned, in its order, skipping those at or past `len(all)`. */
  lemma RelevantRanked(all: seq<Memory>, query: string, limit: nat, ranker: Ranker)
    requires all != [] && !RankingFails(all, query, limit, ranker)
    ensures var q := ranker.embed(query).value;
      var indices := ranker.search(q, EmbedAll(all, ranker.embed).value, limit).value;
      var r := Relevant(all, query, limit, ranker);
      && |r| == |Kept(indices, |all|)|
      && forall k :: 0 <= k < |r| ==> -|all| <= Kept(indices, |all|)[k] && r[k] == all[Wrap(Kept(indices, |all|)[k], |all|)]
  {
    var q := ranker.embed(query).value;
    PickInOrder(all, ranker.search(q, EmbedAll(all, ranker.embed).value, limit).value);
  }

  /** The embedding loop of `get_relevant_memories`: one embedding per memory, in order;
      `None` as soon as one of them fails. */
  method EmbedMemories(all: seq<Memory>, embed: string -> Option<Embedding>) returns (r: Option<seq<Embedding>>)
    ensures r == EmbedAll(all, embed)
  {
    var embeddings: seq<Embedding> := [];
    var i := 0;
    ThenAppend(embeddings, embeddings, EmbedAll(all, embed));
    assert all[0..] == all;
    while i < |all|
      invariant 0 <= i <= |all|
      invariant EmbedAll(all, embed) == Then(embeddings, EmbedAll(all[i..], embed))
    {
      assert all[i..][1..] == all[i + 1..];
      var e := embed(MemoryText(all[i]));
      if e.None? {
        return None;
      }
      ThenAppend(embeddings, [e.value], EmbedAll(all[i + 1..], embed));
      embeddings := embeddings + [e.value];
      i := i + 1;
    }
    assert all[i..] == [];
    ThenAppend(embeddings, [], Some([]));
    r := Some(embeddings);
  }

  /** The loop of `get_relevant_memories` that collects the memories at the ranker's
      indices; `None` where an index below `-len(all)` raises. */
  method PickMemories(all: seq<Memory>, ids: seq<int>) returns (r: Option<seq<Memory>>)
    ensures r == Pick(all, ids)
  {
    var relevant: seq<Memory> := [];
    var k := 0;
    ThenAppend(relevant, relevant, Pick(all, ids));
    assert ids[0..] == ids;
    while k < |ids|
      invariant 0 <= k <= |ids|
      invariant Pick(all, ids) == Then(relevant, Pick(all, ids[k..]))
    {
      assert ids[k..][1..] == ids[k + 1..];
      var idx := ids[k];
      if idx < |all| {
        if idx >= 0 {
          ThenAppend(relevant, [all[idx]], Pick(all, ids[k + 1..]));
          relevant := relevant + [all[idx]];
        } else if idx >= -|all| {
          ThenAppend(relevant, [all[|all| + idx]], Pick(all, ids[k + 1..]));
          relevant := relevant + [all[|all| + idx]];
        } else {
          return None;
        }
      }
      k := k + 1;
    }
    assert ids[k..] == [];
    ThenAppend(relevant, [], Some([]));
    r := Some(relevant);
  }

  /** The collections: `memories` and `conversations` in insertion order, `nextId` the
      next insertion number, `online` whether the database answers. */
  class MemoryStore {
    var memories: seq<Memory>
    var conversations: seq<Conversation>
    var nextId: nat
    var online: bool

    ghost predicate Valid()
      reads this
    {
      && IdsIncreasing(memories, MemoryId)
      && IdsIncreasing(conversations, ConversationId)
      && (forall i :: 0 <= i < |memories| ==> memories[i].id < nextId)
      && (forall i :: 0 <= i < |conversations| ==> conversations[i].id < nextId)
    }

    constructor (online: bool)
      ensures memories == [] && conversations == [] && this.online == online && Valid()
    {
      memories := [];
      conversations := [];
      nextId := 0;
      this.online := online;
    }

    /** `store_conversation`: appends one turn with the model's analysis, or fails
        when the database is unavailable. */
    method StoreConversation(userId: string, message: string, response: string, context: Option<Metadata>,
                             ai: Ai.Model, now: int) returns (r: Result<nat, string>)
      requires Valid()
      modifies this
      ensures Valid() && online == old(online) && memories == old(memories)
      ensures !online ==> r.Err? && conversations == old(conversations) && nextId == old(nextId)
      ensures online ==> (r == Ok(old(nextId)) && nextId == old(nextId) + 1
        && conversations == old(conversations) + [Conversation(old(nextId), userId, now, message, response,
             context.GetOr(map[]), ai.ask(Ai.AnalyzeConversation(userId, message, response, context)), "conversation")])
    {
      var analysis := ai.ask(Ai.AnalyzeConversation(userId, message, response, context));
      if !online {
        return Err("database unavailable");
      }
      conversations := conversations + [Conversation(nextId, userId, now, message, response, context.GetOr(map[]), analysis, "conversation")];
      r := Ok(nextId);
      nextId := nextId + 1;
    }

    /** `store_memory`: appends one memory whose creation and access times are both
        `now`, with the model's enhanced content and `{}` for missing metadata. */
    method StoreMemory(userId: string, memoryType: string, content: string, importance: real,
                       metadata: Option<Metadata>, ai: Ai.Model, now: int) returns (r: Result<nat, string>)
      requires Valid()
      modifies this
      ensures Valid() && online == old(online) && conversations == old(conversations)
      ensures !online ==> r.Err? && memories == old(memories) && nextId == old(nextId)
      ensures online ==> (r == Ok(old(nextId)) && nextId == old(nextId) + 1
        && memories == old(memories) + [Memory(old(nextId), userId, memoryType, content,
             ai.write(Ai.EnhanceMemory(userId, memoryType, content, metadata)), importance,
             metadata.GetOr(map[]), now, now)])
    {
      var enhanced := ai.write(Ai.EnhanceMemory(userId, memoryType, content, metadata));
      if !online {
        return Err("database unavailable");
      }
      memories := memories + [Memory(nextId, userId, memoryType, content, enhanced, importance, metadata.GetOr(map[]), now, now)];
      r := Ok(nextId);
      nextId := nextId + 1;
    }

    /** `store_medical_memory`: a memory of type "medical" whose metadata names the
        document type and holds the model's analysis. */
    method StoreMedicalMemory(userId: string, documentType: string, content: string, importance: real,
                              ai: Ai.Model, now: int) returns (r: Result<nat, string>)
      requires Valid()
      modifies this
      ensures Valid() && online == old(online) && conversations == old(conversations)
      ensures !online ==> r.Err? && memories == old(memories) && nextId == old(nextId)
      ensures online ==> (r == Ok(old(nextId)) && nextId == old(nextId) + 1
        && |memories| == |old(memories)| + 1 && memories[..|old(memories)|] == old(memories)
        && memories[|old(memories)|].id == old(nextId)
        && memories[|old(memories)|].userId == userId
        && memories[|old(memories)|].memoryType == "medical"
        && memories[|old(memories)|].content == content
        && memories[|old(memories)|].importance == importance
        && memories[|old(memories)|].metadata == map[
             "document_type" := Str(documentType),
             "ai_medical_analysis" := Dict(ai.ask(Ai.AnalyzeMedicalMemory(userId, documentType, content)))]
        && memories[|old(memories)|].createdAt == now && memories[|old(memories)|].lastAccessed == now)
    {
      var analysis := ai.ask(Ai.AnalyzeMedicalMemory(userId, documentType, content));
      var metadata := map["document_type" := Str(documentType), "ai_medical_analysis" := Dict(analysis)];
      r := StoreMemory(userId, "medical", content, importance, Some(metadata), ai, now);
    }

    /** `store_pregnancy_memory`: a memory of type "pregnancy" whose metadata holds the
        week and the model's insights. */
    method StorePregnancyMemory(userId: string, week: int, content: string, importance: real,
                                ai: Ai.Model, now: int) returns (r: Result<nat, string>)
      requires Valid()
      modifies this
      ensures Valid() && online == old(online) && conversations == old(conversations)
      ensures !online ==> r.Err? && memories == old(memories) && nextId == old(nextId)
      ensures online ==> (r == Ok(old(nextId)) && nextId == old(nextId) + 1
        && |memories| == |old(memories)| + 1 && memories[..|old(memories)|] == old(memories)
        && memories[|old(memories)|].id == old(nextId)
        && memories[|old(memories)|].userId == userId
        && memories[|old(memories)|].memoryType == "pregnancy"
        && memories[|old(memories)|].content == content
        && memories[|old(memories)|].importance == importance
        && memories[|old(memories)|].metadata == map[
             "pregnancy_week" := Int(week),
             "ai_pregnancy_insights" := Dict(ai.ask(Ai.AnalyzePregnancyMemory(userId, week, content)))]
        && memories[|old(memories)|].createdAt == now && memories[|old(memories)|].lastAccessed == now)
    {
      var insights := ai.ask(Ai.AnalyzePregnancyMemory(userId, week, content));
      var metadata := map["pregnancy_week" := Int(week), "ai_pregnancy_insights" := Dict(insights)];
      r := StoreMemory(userId, "pregnancy", content, importance, Some(metadata), ai, now);
    }

    /** `update_memory_access`: sets `last_accessed` of the memory with that id; an
        unknown id or an unavailable database changes nothing and reports nothing. */
    method UpdateMemoryAccess(memoryId: nat, now: int)
      requires Valid()
      modifies this
      ensures Valid()
      ensures conversations == old(conversations) && nextId == old(nextId) && online == old(online)
      ensures |memories| == |old(memories)|
      ensures forall i :: 0 <= i < |memories| ==>
        memories[i] == if online && old(memories)[i].id == memoryId then old(memories)[i].(lastAccessed := now) else old(memories)[i]
    {
      if online {
        var i := 0;
        while i < |memories| && memories[i].id != memoryId
          invariant 0 <= i <= |memories|
          invariant forall k :: 0 <= k < i ==> memories[k].id != memoryId
        {
          i := i + 1;
        }
        if i < |memories| {
          forall k | 0 <= k < |memories| && k != i ensures memories[k].id != memoryId {
            if k > i {
              assert memories[i].id < memories[k].id;
            }
          }
          memories := memories[i := memories[i].(lastAccessed := now)];
        }
      }
    }

    /** Annotates each record with the insights the model gives for it. */
    static method Annotate<T>(records: seq<T>, insight: T -> Ai.Reply) returns (r: seq<Annotated<T>>)
      ensures |r| == |records|
      ensures forall k :: 0 <= k < |r| ==> r[k] == Annotated(records[k], insight(records[k]))
    {
      r := [];
      var i := 0;
      while i < |records|
        invariant 0 <= i <= |records| && |r| == i
        invariant forall k :: 0 <= k < i ==> r[k] == Annotated(records[k], insight(records[k]))
      {
        r := r + [Annotated(records[i], insight(records[i]))];
        i := i + 1;
      }
    }

    /** `get_recent_conversations`: the user's latest turns with insights, `[]` when the
        database is unavailable. */
    method GetRecentConversations(userId: string, limit: nat, ai: Ai.Model) returns (r: seq<Annotated<Conversation>>)
      ensures !online ==> r == []
      ensures online ==> (|r| == |Recent(conversations, userId, limit)|
        && (forall k :: 0 <= k < |r| ==> (r[k].record == Recent(conversations, userId, limit)[k]
             && r[k].aiInsights == ai.ask(Ai.ConversationInsights(userId, r[k].record.id)))))
    {
      if !online {
        return [];
      }
      r := Annotate(Recent(conversations, userId, limit), (c: Conversation) => ai.ask(Ai.ConversationInsights(userId, c.id)));
    }

    /** `get_relevant_memories`: fails when the database is unavailable (the fallback
        query raises as well); otherwise `Relevant` of the user's candidates. */
    method GetRelevantMemories(userId: string, query: string, limit: nat, ranker: Ranker)
      returns (r: Result<seq<Memory>, string>)
      ensures !online ==> r.Err?
      ensures online ==> r == Ok(Relevant(Candidates(memories, userId), query, limit, ranker))
      ensures online && RankingFails(Candidates(memories, userId), query, limit, ranker) ==>
        r == Ok(Limit(Candidates(memories, userId), limit))
    {
      if !online {
        return Err("database unavailable");
      }
      var all := Candidates(memories, userId);
      if all == [] {
        return Ok([]);
      }
      var fallback := Limit(all, limit);
      var q := ranker.embed(query);
      if q.None? {
        return Ok(fallback);
      }
      var embeddings := EmbedMemories(all, ranker.embed);
      if embeddings.None? {
        return Ok(fallback);
      }
      var indices := ranker.search(q.value, embeddings.value, limit);
      if indices.None? {
        return Ok(fallback);
      }
      var relevant := PickMemories(all, indices.value);
      if relevant.None? {
        return Ok(fallback);
      }
      r := Ok(relevant.value);
    }

    /** `get_medical_memories`: the user's "medical" memories with insights, `[]` when the
        database is unavailable. */
    method GetMedicalMemories(userId: string, limit: nat, ai: Ai.Model) returns (r: seq<Annotated<Memory>>)
      ensures !online ==> r == []
      ensures online ==> (|r| == |OfKind(memories, userId, "medical", limit)|
        && (forall k :: 0 <= k < |r| ==> (r[k].record == OfKind(memories, userId, "medical", limit)[k]
             && r[k].aiInsights == ai.ask(Ai.MedicalMemoryInsights(userId, r[k].record.id)))))
    {
      if !online {
        return [];
      }
      r := Annotate(OfKind(memories, userId, "medical", limit), (m: Memory) => ai.ask(Ai.MedicalMemoryInsights(userId, m.id)));
    }

    /** `get_pregnancy_memories`: the user's "pregnancy" memories with insights, `[]` when
        the database is unavailable. */
    method GetPregnancyMemories(userId: string, limit: nat, ai: Ai.Model) returns (r: seq<Annotated<Memory>>)
      ensures !online ==> r == []
      ensures online ==> (|r| == |OfKind(memories, userId, "pregnancy", limit)|
        && (forall k :: 0 <= k < |r| ==> (r[k].record == OfKind(memories, userId, "pregnancy", limit)[k]
             && r[k].aiInsights == ai.ask(Ai.PregnancyMemoryInsights(userId, r[k].record.id)))))
    {
      if !online {
        return [];
      }
      r := Annotate(OfKind(memories, userId, "pregnancy", limit), (m: Memory) => ai.ask(Ai.PregnancyMemoryInsights(userId, m.id)));
    }
  }
}
