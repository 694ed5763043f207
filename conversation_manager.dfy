/**
 * `ConversationManager`: the conversation store and the session
 * coordinator around the orchestration loop.
 *
 * Redis is modelled by two maps: `records` holds the JSON record stored
 * under key `conversation:<id>`, and `index` holds the sorted set
 * `conversations:list` (member id, score). `datetime.now(UTC)` is a clock
 * whose readings strictly increase; the ISO string written into a record
 * and the float score are both modelled as readings of that clock.
 * `uuid.uuid4()` is a parameter of `CreateConversation`.
 */
module Conversations {
  import opened Wrappers
  import opened Messages
  import opened DialSpec
  import opened Dial

  /** A stored record `{id, title, messages, created_at, updated_at}`. */
  datatype Conversation = Conversation(id: string, title: string, messages: seq<Message>, createdAt: nat, updatedAt: nat)

  /** One entry of `list_conversations`. */
  datatype Summary = Summary(id: string, title: string, createdAt: nat, updatedAt: nat, messageCount: nat)

  /** The dict `_non_stream_chat` returns. */
  datatype ChatAnswer = ChatAnswer(content: string, conversationId: string)

  /** What `chat` produces: the not-found error, a non-streamed answer or its failure, or a stream consumed to the end. */
  datatype ChatOutcome =
    | NotFound(conversationId: string)          // the `ValueError` of an unknown id
    | Answered(answer: ChatAnswer)
    | Failed(fault: Fault)                      // `response` raised
    | Streamed(events: seq<Event>, streamFault: Option<Fault>)

  function SummaryOf(c: Conversation): Summary {
    Summary(c.id, c.title, c.createdAt, c.updatedAt, |c.messages|)
  }

  /** The summaries the listing loop collects for ids `ids`: one per id whose record exists, in order. */
  function Summaries(ids: seq<string>, records: map<string, Conversation>): seq<Summary>
    decreases |ids|
  {
    if ids == [] then []
    else
      var last := ids[|ids| - 1];
      Summaries(ids[..|ids| - 1], records) + (if last in records then [SummaryOf(records[last])] else [])
  }

  /** `zrevrange(key, 0, -1)`: every member once, highest score first (order among equal scores unspecified). */
  ghost predicate RevRanged(ids: seq<string>, index: map<string, nat>) {
    && (forall id :: id in ids <==> id in index)
    && (forall a, b :: 0 <= a < b < |ids| ==> ids[a] != ids[b])
    && (forall a, b :: 0 <= a < b < |ids| ==> index[ids[b]] <= index[ids[a]])
  }

  /**
   * The store invariant the operations keep: every indexed id has a record
   * filed under its own id and vice versa; a record's `created_at` is no
   * later than its `updated_at`, which precedes its score, which precedes
   * the clock; scores are distinct; and a record scored above another was
   * updated after that other was scored.
   */
  predicate StoreInvariant(records: map<string, Conversation>, index: map<string, nat>, clock: nat) {
    && records.Keys == index.Keys
    && (forall id :: id in records ==>
          records[id].id == id && records[id].createdAt <= records[id].updatedAt < index[id] <= clock)
    && (forall x, y :: x in index && y in index && x != y ==> index[x] != index[y])
    && (forall x, y :: x in index && y in index && index[x] < index[y] ==> index[x] < records[y].updatedAt)
  }

  /** `chat` history seeding: the system prompt first when the stored history is empty, then the user message. */
  function Seeded(stored: seq<Message>, user: Message, systemPrompt: string): (h: seq<Message>)
  {
    (if stored == [] then [Message(System, systemPrompt, [], None)] else stored) + [user]
  }

  /**
   * The seeded history ends with the user message; it starts with the
   * system prompt exactly when nothing was stored, and otherwise extends
   * the stored history unchanged.
   */
  lemma SeededShape(stored: seq<Message>, user: Message, systemPrompt: string)
    ensures |Seeded(stored, user, systemPrompt)| == |stored| + (if stored == [] then 2 else 1)
    ensures Seeded(stored, user, systemPrompt)[|Seeded(stored, user, systemPrompt)| - 1] == user
    ensures stored == [] ==> Seeded(stored, user, systemPrompt) == [Message(System, systemPrompt, [], None), user]
    ensures stored != [] ==> Seeded(stored, user, systemPrompt)[..|stored|] == stored
  {
  }

  // ---------------------------------------------------------------------
  // Listing
  // ---------------------------------------------------------------------

  /** Every summary comes from an existing record; ids without a record are skipped. */
  lemma {:induction false} SummariesFromRecords(ids: seq<string>, records: map<string, Conversation>)
    ensures |Summaries(ids, records)| <= |ids|
    ensures forall s :: s in Summaries(ids, records) ==>
      exists k :: 0 <= k < |ids| && ids[k] in records && s == SummaryOf(records[ids[k]])
    decreases |ids|
  {
    if ids != [] {
      var init := ids[..|ids| - 1];
      SummariesFromRecords(init, records);
      forall s | s in Summaries(ids, records)
        ensures exists k :: 0 <= k < |ids| && ids[k] in records && s == SummaryOf(records[ids[k]])
      {
        if s in Summaries(init, records) {
          var k :| 0 <= k < |init| && init[k] in records && s == SummaryOf(records[init[k]]);
          assert ids[k] == init[k];
        } else {
          assert ids[|ids| - 1] in records && s == SummaryOf(records[ids[|ids| - 1]]);
        }
      }
    }
  }

  /** When every id has a record, the listing has one summary per id, in order. */
  lemma {:induction false} SummariesComplete(ids: seq<string>, records: map<string, Conversation>)
    requires forall k :: 0 <= k < |ids| ==> ids[k] in records
    ensures |Summaries(ids, records)| == |ids|
    ensures forall k :: 0 <= k < |ids| ==> Summaries(ids, records)[k] == SummaryOf(records[ids[k]])
    decreases |ids|
  {
    if ids != [] {
      var init := ids[..|ids| - 1];
      assert forall k :: 0 <= k < |init| ==> init[k] == ids[k];
      SummariesComplete(init, records);
    }
  }

  /**
   * In a store that keeps the invariant, the listing holds every
   * conversation exactly once, most recently updated first, with its
   * message count.
   */
  lemma NewestFirst(records: map<string, Conversation>, index: map<string, nat>, clock: nat, ids: seq<string>)
    requires StoreInvariant(records, index, clock) && RevRanged(ids, index)
    ensures |ids| == |records|
    ensures |Summaries(ids, records)| == |records|
    ensures forall k :: 0 <= k < |ids| ==>
      Summaries(ids, records)[k] == SummaryOf(records[ids[k]]) && Summaries(ids, records)[k].id == ids[k]
    ensures forall a, b :: 0 <= a < b < |ids| ==>
      Summaries(ids, records)[a].updatedAt > Summaries(ids, records)[b].updatedAt
  {
    assert forall k :: 0 <= k < |ids| ==> ids[k] in records;
    SummariesComplete(ids, records);
    DistinctCovers(ids, records.Keys);
    forall a, b | 0 <= a < b < |ids|
      ensures records[ids[a]].updatedAt > records[ids[b]].updatedAt
    {
      assert index[ids[b]] < index[ids[a]];
    }
  }

  /** A duplicate-free sequence that lists exactly the elements of a set has the set's size. */
  lemma {:induction false} DistinctCovers(ids: seq<string>, keys: set<string>)
    requires forall id :: id in ids <==> id in keys
    requires forall a, b :: 0 <= a < b < |ids| ==> ids[a] != ids[b]
    ensures |ids| == |keys|
    decreases |ids|
  {
    if ids != [] {
      var last := ids[|ids| - 1];
      var init := ids[..|ids| - 1];
      forall id
        ensures id in init <==> id in keys - {last}
      {
        if id in init {
          var k :| 0 <= k < |init| && init[k] == id;
          assert ids[k] == id;
        }
        if id in keys - {last} {
          var k :| 0 <= k < |ids| && ids[k] == id;
          assert k < |init|;
          assert init[k] == id;
        }
      }
      DistinctCovers(init, keys - {last});
    } else {
      assert keys == {};
    }
  }

  /** A non-empty set of indexed ids has one with the highest score. */
  lemma {:induction false} HighestExists(index: map<string, nat>, s: set<string>)
    requires s != {} && s <= index.Keys
    ensures exists top :: top in s && forall o :: o in s ==> index[o] <= index[top]
    decreases |s|
  {
    var x :| x in s;
    if s == {x} {
      assert forall o :: o in s ==> o == x;
    } else {
      var rest := s - {x};
      var y :| y in s && y != x;
      assert y in rest;
      HighestExists(index, rest);
      var top :| top in rest && forall o :: o in rest ==> index[o] <= index[top];
      if index[x] <= index[top] {
        assert forall o :: o in s ==> index[o] <= index[top];
      } else {
        assert forall o :: o in s ==> index[o] <= index[x];
      }
    }
  }

  /**
   * Writing a record stamped after every earlier reading and scoring it
   * with a still later one keeps the store invariant, and the record then
   * outranks every other.
   */
  lemma Restamped(records: map<string, Conversation>, index: map<string, nat>, clock: nat, c: Conversation, score: nat)
    requires StoreInvariant(records, index, clock)
    requires c.createdAt <= c.updatedAt && clock < c.updatedAt < score
    ensures StoreInvariant(records[c.id := c], index[c.id := score], score)
    ensures forall id :: id in index ==> index[id] < score
  {
  }

  class ConversationManager {
    const dial: DialClient
    /** `SYSTEM_PROMPT`, an opaque constant. */
    const systemPrompt: string
    /** `conversation:<id>` → stored record. */
    var records: map<string, Conversation>
    /** The sorted set `conversations:list`: id → score. */
    var index: map<string, nat>
    /** The last reading of `datetime.now(UTC)`. */
    var clock: nat

    ghost predicate Valid()
      reads this
    {
      StoreInvariant(records, index, clock)
    }

    constructor (dial: DialClient, systemPrompt: string)
      ensures this.dial == dial && this.systemPrompt == systemPrompt
      ensures records == map[] && index == map[] && clock == 0
      ensures Valid()
    {
      this.dial := dial;
      this.systemPrompt := systemPrompt;
      records := map[];
      index := map[];
      clock := 0;
    }

    /** One reading of `datetime.now(UTC)`: later than every earlier reading. */
    method Now() returns (t: nat)
      modifies this
      ensures old(clock) < t && clock == t
      ensures records == old(records) && index == old(index)
    {
      t := clock + 1;
      clock := t;
    }

    /**
     * `create_conversation`: stores an empty conversation stamped with one
     * reading and scores it with a later one, so it lists first.
     */
    method CreateConversation(title: string, newId: string) returns (conversation: Conversation)
      modifies this
      ensures conversation.id == newId && conversation.title == title && conversation.messages == []
      ensures conversation.createdAt == conversation.updatedAt
      ensures old(clock) < conversation.updatedAt < clock
      ensures records == old(records)[newId := conversation]
      ensures index == old(index)[newId := clock]
      ensures old(Valid()) ==> Valid() && forall id :: id in old(index) ==> old(index)[id] < index[newId]
    {
      var now := Now();
      conversation := Conversation(newId, title, [], now, now);
      records := records[newId := conversation];
      var score := Now();
      index := index[newId := score];
      if old(Valid()) {
        Restamped(old(records), old(index), old(clock), conversation, score);
      }
    }

    /** `zrevrange(CONVERSATION_LIST_KEY, 0, -1)`: repeatedly takes a remaining member with the highest score. */
    method RevRange() returns (ids: seq<string>)
      ensures RevRanged(ids, index)
    {
      var remaining := index.Keys;
      ids := [];
      while remaining != {}
        invariant remaining <= index.Keys
        invariant forall id :: id in ids ==> id in index
        invariant forall id :: id in index ==> (id in ids <==> id !in remaining)
        invariant forall a, b :: 0 <= a < b < |ids| ==> ids[a] != ids[b]
        invariant forall a, b :: 0 <= a < b < |ids| ==> index[ids[b]] <= index[ids[a]]
        invariant forall a, r :: 0 <= a < |ids| && r in remaining ==> index[r] <= index[ids[a]]
        decreases |remaining|
      {
        HighestExists(index, remaining);
        var top :| top in remaining && forall o :: o in remaining ==> index[o] <= index[top];
        ids := ids + [top];
        remaining := remaining - {top};
      }
    }

    /**
     * `list_conversations`: a summary of each indexed conversation whose
     * record exists, highest score first (`ids` is the member order the
     * sorted set returned).
     */
    method ListConversations() returns (summaries: seq<Summary>, ids: seq<string>)
      ensures RevRanged(ids, index)
      ensures summaries == Summaries(ids, records)
      ensures Valid() ==> (|summaries| == |records| &&
        forall a, b :: 0 <= a < b < |summaries| ==> summaries[a].updatedAt > summaries[b].updatedAt)
    {
      ids := RevRange();
      summaries := SummariesOf(ids);
      if Valid() {
        NewestFirst(records, index, clock, ids);
      }
    }

    /** The loop of `list_conversations`: a summary per id whose record exists, in order. */
    method SummariesOf(ids: seq<string>) returns (summaries: seq<Summary>)
      ensures summaries == Summaries(ids, records)
    {
      summaries := [];
      for i := 0 to |ids|
        invariant summaries == Summaries(ids[..i], records)
      {
        var convId := ids[i];
        assert ids[..i + 1][..i] == ids[..i];
        var convData := if convId in records then Some(records[convId]) else None;
        if convData.Some? {
          var conv := convData.value;
          summaries := summaries + [Summary(conv.id, conv.title, conv.createdAt, conv.updatedAt, |conv.messages|)];
        }
      }
      assert ids[..|ids|] == ids;
    }

    /** `get_conversation`: the stored record, or `None` exactly when its key is absent. */
    method GetConversation(conversationId: string) returns (r: Option<Conversation>)
      ensures r.None? <==> conversationId !in records
      ensures r.Some? ==> r.value == records[conversationId]
    {
      if conversationId !in records {
        return None;
      }
      return Some(records[conversationId]);
    }

    /**
     * `delete_conversation`: on an absent id reports `false` and changes
     * nothing; otherwise removes the record and its index entry.
     */
    method DeleteConversation(conversationId: string) returns (deleted: bool)
      modifies this
      ensures deleted <==> conversationId in old(records)
      ensures records == old(records) - {conversationId}
      ensures index == if deleted then old(index) - {conversationId} else old(index)
      ensures clock == old(clock)
      ensures old(Valid()) ==> Valid()
    {
      var existed := conversationId in records;
      records := records - {conversationId};
      if !existed {
        return false;
      }
      index := index - {conversationId};
      return true;
    }

    /** `_save_conversation`: writes the record under its own id and scores it with a fresh reading. */
    method SaveConversation(conversation: Conversation)
      modifies this
      ensures records == old(records)[conversation.id := conversation]
      ensures index == old(index)[conversation.id := clock]
      ensures old(clock) < clock
    {
      var conversationId := conversation.id;
      records := records[conversationId := conversation];
      var score := Now();
      index := index[conversationId := score];
    }

    /**
     * `_save_conversation_messages`: replaces the messages of the stored
     * record, stamps `updated_at` with a reading and re-scores it with a
     * later one; `id`, `title` and `created_at` are kept. A missing record
     * (where the source's `json.loads(None)` raises) changes nothing.
     */
    method SaveConversationMessages(conversationId: string, messages: seq<Message>) returns (saved: bool)
      modifies this
      ensures saved <==> conversationId in old(records)
      ensures !saved ==> records == old(records) && index == old(index) && clock == old(clock)
      ensures saved ==>
        var c := old(records)[conversationId];
        && c.id in records
        && old(clock) < records[c.id].updatedAt < clock
        && records == old(records)[c.id := Conversation(c.id, c.title, messages, c.createdAt, records[c.id].updatedAt)]
        && index == old(index)[c.id := clock]
      ensures old(Valid()) ==> Valid()
      ensures old(Valid()) && saved ==>
        records.Keys == old(records.Keys) && forall id :: id in old(index) && id != conversationId ==> old(index)[id] < index[conversationId]
    {
      if conversationId !in records {
        return false;
      }
      var conversation := records[conversationId];
      var now := Now();
      conversation := conversation.(messages := messages, updatedAt := now);
      SaveConversation(conversation);
      if old(Valid()) {
        Restamped(old(records), old(index), old(clock), conversation, clock);
      }
      return true;
    }

    /**
     * `_stream_chat` consumed to the end: the conversation-id frame, then
     * the orchestration frames unchanged and in order; the history is saved
     * only when the stream completes.
     */
    method StreamChat(conversationId: string, history: MessageLog, script: seq<seq<StreamChunk>>)
      returns (events: seq<Event>, fault: Option<Fault>)
      modifies this, history
      ensures events == [ConversationIdFrame(conversationId)] + StreamRespond(dial.toolbox, script).events
      ensures fault == StreamRespond(dial.toolbox, script).fault
      ensures history.items == old(history.items) + StreamRespond(dial.toolbox, script).appended
      ensures fault.Some? ==> records == old(records) && index == old(index) && clock == old(clock)
      ensures fault.None? && conversationId in old(records) ==>
        var c := old(records)[conversationId];
        && c.id in records
        && records[c.id] == Conversation(c.id, c.title, history.items, c.createdAt, records[c.id].updatedAt)
        && old(clock) < records[c.id].updatedAt < clock
        && records == old(records)[c.id := records[c.id]]
        && index == old(index)[c.id := clock]
      ensures old(Valid()) ==> Valid()
    {
      events := [ConversationIdFrame(conversationId)];
      var forwarded: seq<Event>;
      var calls: nat;
      forwarded, fault, calls := dial.StreamResponse(script, history);
      events := events + forwarded;
      if fault.Some? {
        return;
      }
      var saved := SaveConversationMessages(conversationId, history.items);
    }

    /**
     * `_non_stream_chat`: runs `response`, saves the history it left behind
     * (which does not hold the returned answer) and returns the answer's
     * content; a failing `response` saves nothing.
     */
    method NonStreamChat(conversationId: string, history: MessageLog, script: seq<Completion>)
      returns (r: Result<ChatAnswer, Fault>)
      modifies this, history
      ensures history.items == old(history.items) + Respond(dial.toolbox, script).appended
      ensures Respond(dial.toolbox, script).outcome.Failure? ==>
        r == Failure(Respond(dial.toolbox, script).outcome.error)
        && records == old(records) && index == old(index) && clock == old(clock)
      ensures Respond(dial.toolbox, script).outcome.Success? ==>
        r == Success(ChatAnswer(Respond(dial.toolbox, script).outcome.value.content, conversationId))
      ensures r.Success? && conversationId in old(records) ==>
        var c := old(records)[conversationId];
        && c.id in records
        && records[c.id] == Conversation(c.id, c.title, history.items, c.createdAt, records[c.id].updatedAt)
        && old(clock) < records[c.id].updatedAt < clock
        && records == old(records)[c.id := records[c.id]]
        && index == old(index)[c.id := clock]
      ensures old(Valid()) ==> Valid()
    {
      var outcome, calls := dial.Response(script, history);
      if outcome.Failure? {
        return Failure(outcome.error);
      }
      var aiMessage := outcome.value;
      var saved := SaveConversationMessages(conversationId, history.items);
      return Success(ChatAnswer(aiMessage.content, conversationId));
    }

    /** Whether a chat turn runs to completion, so that its history is saved. */
    predicate Committed(stream: bool, completions: seq<Completion>, chunks: seq<seq<StreamChunk>>) {
      if stream then StreamRespond(dial.toolbox, chunks).fault.None? else Respond(dial.toolbox, completions).outcome.Success?
    }

    /**
     * `chat`: rejects an unknown id; otherwise seeds the working history
     * from the stored one and hands it to the streaming or non-streaming
     * path, which saves it once the turn has succeeded.
     */
    method Chat(userMessage: Message, conversationId: string, stream: bool,
                completions: seq<Completion>, chunks: seq<seq<StreamChunk>>)
      returns (outcome: ChatOutcome)
      modifies this
      ensures outcome.NotFound? <==> conversationId !in old(records)
      ensures outcome.NotFound? ==> (outcome == NotFound(conversationId) &&
        records == old(records) && index == old(index) && clock == old(clock))
      ensures conversationId in old(records) && stream ==>
        var run := StreamRespond(dial.toolbox, chunks);
        outcome == Streamed([ConversationIdFrame(conversationId)] + run.events, run.fault)
      ensures conversationId in old(records) && !stream ==>
        var reply := Respond(dial.toolbox, completions);
        && (reply.outcome.Success? ==> outcome == Answered(ChatAnswer(reply.outcome.value.content, conversationId)))
        && (reply.outcome.Failure? ==> outcome == Failed(reply.outcome.error))
      // a turn that raises commits nothing
      ensures conversationId in old(records) && !Committed(stream, completions, chunks) ==>
        records == old(records) && index == old(index) && clock == old(clock)
      // a completed turn rewrites only this conversation: its messages become the seeded history and
      // what the turn appended, its title and creation time are kept, and it is re-stamped and re-scored
      ensures conversationId in old(records) && Committed(stream, completions, chunks) && old(Valid()) ==>
        var c := old(records)[conversationId];
        var seeded := Seeded(c.messages, userMessage, systemPrompt);
        var appended := if stream then StreamRespond(dial.toolbox, chunks).appended else Respond(dial.toolbox, completions).appended;
        && conversationId in records
        && records[conversationId] == Conversation(conversationId, c.title, seeded + appended, c.createdAt, records[conversationId].updatedAt)
        && old(clock) < records[conversationId].updatedAt < clock
        && records == old(records)[conversationId := records[conversationId]]
        && index == old(index)[conversationId := clock]
      ensures old(Valid()) ==> Valid()
    {
      var conversation := GetConversation(conversationId);
      if conversation.None? {
        return NotFound(conversationId);
      }
      var history := new MessageLog(conversation.value.messages);
      if history.items == [] {
        history.Append(Message(System, systemPrompt, [], None));
      }
      history.Append(userMessage);
      assert history.items == Seeded(conversation.value.messages, userMessage, systemPrompt);
      if stream {
        var events, fault := StreamChat(conversationId, history, chunks);
        return Streamed(events, fault);
      }
      var r := NonStreamChat(conversationId, history, completions);
      if r.Failure? {
        return Failed(r.error);
      }
      return Answered(r.value);
    }
  }
}
