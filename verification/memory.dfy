/** The assistant's memory document (`MemoryAgent`): the chat history, kept to
    its most recent entries, and a knowledge list keyed by query in which the
    first writer wins. Every mutation that persists rewrites the whole
    document; `writes` records those rewrites in order. */
module Memory {
  import opened Wrappers
  import opened Json

  /** One turn of conversation; `time` is the clock reading when it was added. */
  datatype ChatEntry = ChatEntry(role: string, text: string, time: real)

  /** A remembered plan for a query. */
  datatype KnowledgeEntry = KnowledgeEntry(query: string, actions: Json)

  datatype Document = Document(chatHistory: seq<ChatEntry>, knowledge: seq<KnowledgeEntry>)

  /** The in-memory document and the full-document rewrites attempted so far. */
  datatype MemoryAgent = MemoryAgent(data: Document, writes: seq<Document>)

  /** How many chat entries `compact` keeps. */
  const HistoryLimit: nat := 50

  /** The document a fresh install starts from. */
  function EmptyDocument(): Document {
    Document([], [])
  }

  /** Construction and `_load`: the empty document unless the memory file
      exists (`file` is its text) and parses; a read or parse failure is
      logged and the empty document kept. Nothing is compacted or deduplicated,
      and nothing is written back. */
  function Load(file: Option<string>, parse: string -> Option<Document>): (m: MemoryAgent)
    ensures m.writes == []
    ensures file.Some? && parse(file.value).Some? ==> m.data == parse(file.value).value
    ensures file.None? || parse(file.value).None? ==> m.data == Document([], [])
  {
    var data :=
      match file
      case None => EmptyDocument()
      case Some(text) => parse(text).GetOr(EmptyDocument());
    MemoryAgent(data, [])
  }

  /** `save`: one full rewrite of the document as it now stands. Whether the
      write succeeds is not modelled; the in-memory document never changes. */
  function Save(m: MemoryAgent): (r: MemoryAgent)
    ensures r.data == m.data
    ensures r.writes == m.writes + [m.data]
    ensures Persisted(r)
  {
    m.(writes := m.writes + [m.data])
  }

  /** The file holds the document as it now stands: the last rewrite wrote
      exactly the in-memory document. */
  predicate Persisted(m: MemoryAgent) {
    |m.writes| > 0 && m.writes[|m.writes| - 1] == m.data
  }

  /** Restarting after a save gives the document back: if reading back what
      `json.dumps` wrote yields that document, loading the file as last
      written restores the in-memory document exactly. */
  lemma ReloadAfterSave(m: MemoryAgent, dumps: Document -> string, parse: string -> Option<Document>)
    requires Persisted(m)
    requires parse(dumps(m.data)) == Some(m.data)
    ensures Load(Some(dumps(m.writes[|m.writes| - 1])), parse).data == m.data
  {
  }

  /** `compact`: `history[-50:]`, the most recent entries in their order. */
  function Compact(history: seq<ChatEntry>): (r: seq<ChatEntry>)
    ensures |r| == if |history| < HistoryLimit then |history| else HistoryLimit
    ensures r == history[|history| - |r|..]
  {
    if |history| <= HistoryLimit then history else history[|history| - HistoryLimit..]
  }

  /** `add_chat`: append the entry, compact, save. */
  function AddChat(m: MemoryAgent, role: string, text: string, time: real): (r: MemoryAgent)
    ensures var h := m.data.chatHistory + [ChatEntry(role, text, time)];
            && |r.data.chatHistory| <= HistoryLimit
            && |r.data.chatHistory| == (if |h| < HistoryLimit then |h| else HistoryLimit)
            && r.data.chatHistory == h[|h| - |r.data.chatHistory|..]
    ensures r.data.chatHistory[|r.data.chatHistory| - 1] == ChatEntry(role, text, time)
    ensures |m.data.chatHistory| < HistoryLimit ==>
              r.data.chatHistory == m.data.chatHistory + [ChatEntry(role, text, time)]
    ensures r.data.knowledge == m.data.knowledge
    ensures r.writes == m.writes + [r.data]
    ensures Persisted(r)
  {
    var history := Compact(m.data.chatHistory + [ChatEntry(role, text, time)]);
    Save(m.(data := m.data.(chatHistory := history)))
  }

  /** Several `add_chat` calls in a row. */
  function AddChats(m: MemoryAgent, turns: seq<ChatEntry>): MemoryAgent
    decreases |turns|
  {
    if |turns| == 0 then m
    else
      var t := turns[0];
      AddChats(AddChat(m, t.role, t.text, t.time), turns[1..])
  }

  /** The history after appending each of `turns` with a compaction after
      every append, as `add_chat` does. */
  function CompactEach(history: seq<ChatEntry>, turns: seq<ChatEntry>): seq<ChatEntry>
    decreases |turns|
  {
    if |turns| == 0 then history else CompactEach(Compact(history + [turns[0]]), turns[1..])
  }

  lemma {:induction false} AddChatsHistory(m: MemoryAgent, turns: seq<ChatEntry>)
    ensures AddChats(m, turns).data.chatHistory == CompactEach(m.data.chatHistory, turns)
    decreases |turns|
  {
    if |turns| > 0 {
      var t := turns[0];
      AddChatsHistory(AddChat(m, t.role, t.text, t.time), turns[1..]);
    }
  }

  /** Compacting after every append keeps what one compaction at the end keeps. */
  lemma {:induction false} CompactEachIsCompact(history: seq<ChatEntry>, turns: seq<ChatEntry>)
    requires |turns| > 0
    ensures CompactEach(history, turns) == Compact(history + turns)
    decreases |turns|
  {
    var t := turns[0];
    var rest := turns[1..];
    if |rest| > 0 {
      calc {
        CompactEach(history, turns);
        CompactEach(Compact(history + [t]), rest);
        { CompactEachIsCompact(Compact(history + [t]), rest); }
        Compact(Compact(history + [t]) + rest);
        { CompactOfAppended(history, t, rest); }
        Compact(history + [t] + rest);
        { assert history + [t] + rest == history + turns; }
        Compact(history + turns);
      }
    } else {
      assert turns == [t];
    }
  }

  /** Whatever calls are made, the history holds exactly the most recent (at
      most 50) entries in call order, whatever state loading left it in. */
  lemma AddChatsKeepsMostRecent(m: MemoryAgent, turns: seq<ChatEntry>)
    requires |turns| > 0
    ensures AddChats(m, turns).data.chatHistory == Compact(m.data.chatHistory + turns)
    ensures |AddChats(m, turns).data.chatHistory| <= HistoryLimit
  {
    AddChatsHistory(m, turns);
    CompactEachIsCompact(m.data.chatHistory, turns);
  }

  /** A run of `add_chat` calls never touches the knowledge list and rewrites
      the document once per call. */
  lemma {:induction false} AddChatsFrame(m: MemoryAgent, turns: seq<ChatEntry>)
    ensures AddChats(m, turns).data.knowledge == m.data.knowledge
    ensures |AddChats(m, turns).writes| == |m.writes| + |turns|
    decreases |turns|
  {
    if |turns| > 0 {
      var t := turns[0];
      AddChatsFrame(AddChat(m, t.role, t.text, t.time), turns[1..]);
    }
  }

  /** Compaction of a prefix does not change what a later compaction keeps. */
  lemma CompactOfAppended(history: seq<ChatEntry>, e: ChatEntry, rest: seq<ChatEntry>)
    ensures Compact(Compact(history + [e]) + rest) == Compact(history + [e] + rest)
  {
    var h := history + [e];
    var c := Compact(h);
    var long := h + rest;
    var short := c + rest;
    assert short == long[|long| - |short|..];
  }

  /** Python's `any(item["query"] == query for item in k)`, scanning in order. */
  function AnyQuery(k: seq<KnowledgeEntry>, query: string): bool
  {
    |k| > 0 && (k[0].query == query || AnyQuery(k[1..], query))
  }

  /** Some stored entry answers `query`. */
  ghost predicate Known(k: seq<KnowledgeEntry>, query: string) {
    exists i :: 0 <= i < |k| && k[i].query == query
  }

  lemma {:induction false} AnyQueryIsKnown(k: seq<KnowledgeEntry>, query: string)
    ensures AnyQuery(k, query) <==> Known(k, query)
  {
    if |k| > 0 {
      AnyQueryIsKnown(k[1..], query);
      if Known(k, query) && k[0].query != query {
        var i :| 0 <= i < |k| && k[i].query == query;
        assert k[1..][i - 1] == k[i];
      }
    }
  }

  /** At most one entry per query. */
  ghost predicate DistinctQueries(k: seq<KnowledgeEntry>) {
    forall i, j :: 0 <= i < j < |k| ==> k[i].query != k[j].query
  }

  /** `add_knowledge`: insert-if-absent keyed on the query string. A known query
      leaves the memory exactly as it was, with no rewrite; a fresh one is
      appended once at the end and the document is rewritten. */
  function AddKnowledge(m: MemoryAgent, query: string, actions: Json): (r: MemoryAgent)
    ensures Known(m.data.knowledge, query) ==> r == m
    ensures !Known(m.data.knowledge, query) ==>
              && r.data.knowledge == m.data.knowledge + [KnowledgeEntry(query, actions)]
              && r.data.chatHistory == m.data.chatHistory
              && r.writes == m.writes + [r.data]
    ensures DistinctQueries(m.data.knowledge) ==> DistinctQueries(r.data.knowledge)
    ensures Known(r.data.knowledge, query)
    ensures Persisted(m) ==> Persisted(r)
  {
    AnyQueryIsKnown(m.data.knowledge, query);
    var k := m.data.knowledge;
    if AnyQuery(k, query) then m
    else
      var r := Save(m.(data := m.data.(knowledge := k + [KnowledgeEntry(query, actions)])));
      assert r.data.knowledge[|k|].query == query;
      r
  }

  /** The actions remembered for `query`: those of its first entry. */
  function Recall(k: seq<KnowledgeEntry>, query: string): (r: Option<Json>)
    ensures r.None? <==> !Known(k, query)
  {
    if |k| == 0 then None
    else if k[0].query == query then Some(k[0].actions)
    else
      var r := Recall(k[1..], query);
      assert forall i :: 1 <= i < |k| ==> k[1..][i - 1] == k[i];
      r
  }

  lemma {:induction false} RecallAppend(k: seq<KnowledgeEntry>, e: KnowledgeEntry, query: string)
    ensures Recall(k + [e], query) == if Known(k, query) then Recall(k, query)
                                      else if e.query == query then Some(e.actions) else None
  {
    if |k| > 0 {
      assert (k + [e])[1..] == k[1..] + [e];
      RecallAppend(k[1..], e, query);
      if k[0].query != query && Known(k, query) {
        var i :| 0 <= i < |k| && k[i].query == query;
        assert k[1..][i - 1] == k[i];
      }
    }
  }

  /** First writer wins: once `query` is stored, a later `add_knowledge` with
      any other plan changes nothing, and the stored plan stays the first one. */
  lemma {:induction false} FirstWriterWins(m: MemoryAgent, query: string, first: Json, second: Json)
    requires !Known(m.data.knowledge, query)
    ensures var m1 := AddKnowledge(m, query, first);
            && AddKnowledge(m1, query, second) == m1
            && Recall(m1.data.knowledge, query) == Some(first)
  {
    RecallAppend(m.data.knowledge, KnowledgeEntry(query, first), query);
  }

  /** A known query recalls the same plan after any `add_knowledge`. */
  lemma {:induction false} AddKnowledgeKeepsRecall(m: MemoryAgent, q: string, query: string, actions: Json)
    requires Known(m.data.knowledge, q)
    ensures Recall(AddKnowledge(m, query, actions).data.knowledge, q) == Recall(m.data.knowledge, q)
  {
    if !Known(m.data.knowledge, query) {
      RecallAppend(m.data.knowledge, KnowledgeEntry(query, actions), q);
    }
  }
}
