/**
 * The document store of app/services/persistence.py, held in memory: two append-only
 * collections, `messages` and `triages`, and a counter that stands for the clock and
 * also supplies the inserted ids.
 */
module Persistence {
  import opened Wrappers
  import opened ChatSchemas
  import opened TriageSchema

  /** A document of the `messages` collection: one user turn and the agent's answer. */
  datatype MessageDoc = MessageDoc(
    id: nat,
    conversationId: Option<string>,
    userId: Option<string>,
    channel: Option<Channel>,
    userMessage: string,
    agentMessage: Option<string>,
    timestamp: nat)

  /** A document of the `triages` collection. */
  datatype TriageDoc = TriageDoc(
    id: nat,
    conversationId: string,
    data: map<string, Value>,
    createdAt: nat)

  /** The documents `find({"conversation_id": id})` selects, in stored order. */
  function Matching(docs: seq<MessageDoc>, conversationId: string): (r: seq<MessageDoc>)
    ensures |r| <= |docs|
    ensures forall i :: 0 <= i < |r| ==> r[i].conversationId == Some(conversationId) && r[i] in docs
    ensures forall d :: d in docs && d.conversationId == Some(conversationId) ==> d in r
    decreases |docs|
  {
    if |docs| == 0 then []
    else if docs[0].conversationId == Some(conversationId) then [docs[0]] + Matching(docs[1..], conversationId)
    else Matching(docs[1..], conversationId)
  }

  /** `.limit(n)`: the first `n` elements, or all of them when there are fewer. */
  function Take<T>(s: seq<T>, n: nat): (r: seq<T>)
    ensures |r| <= n && r <= s
    ensures |s| <= n ==> r == s
  {
    if |s| <= n then s else s[..n]
  }

  /** Timestamps strictly increase along the sequence. */
  predicate Ascending(docs: seq<MessageDoc>) {
    forall i, j :: 0 <= i < j < |docs| ==> docs[i].timestamp < docs[j].timestamp
  }

  /** Creation times strictly increase along the sequence. */
  predicate TriagesAscending(docs: seq<TriageDoc>) {
    forall i, j :: 0 <= i < j < |docs| ==> docs[i].createdAt < docs[j].createdAt
  }

  /** What `get_conversation(conversation_id, limit)` reads from a `messages` collection. */
  function ConversationView(messages: seq<MessageDoc>, conversationId: string, limit: nat): (r: seq<MessageDoc>)
    ensures |r| <= limit
    ensures forall d :: d in r ==> d in messages && d.conversationId == Some(conversationId)
  {
    Take(Matching(messages, conversationId), limit)
  }

  /** What `find_one({"conversation_id": id})` finds in a `triages` collection: the first match. */
  function FirstTriage(triages: seq<TriageDoc>, conversationId: string): (r: Option<TriageDoc>)
    ensures r.Some? ==> r.value in triages && r.value.conversationId == conversationId
    ensures r.None? <==> forall d :: d in triages ==> d.conversationId != conversationId
    decreases |triages|
  {
    if |triages| == 0 then None
    else if triages[0].conversationId == conversationId then Some(triages[0])
    else FirstTriage(triages[1..], conversationId)
  }

  class PersistenceService {
    var messages: seq<MessageDoc>
    var triages: seq<TriageDoc>
    var clock: nat

    /**
   * Every stored time lies before the clock, and each collection is in time order.
   * The clock is a counter, so stored times never tie; `datetime.utcnow()` at the
   * store's millisecond precision can tie or step back, which the model leaves out.
   */
    predicate Valid()
      reads this
    {
      Ascending(messages) && TriagesAscending(triages)
      && (forall i :: 0 <= i < |messages| ==> messages[i].timestamp < clock)
      && (forall i :: 0 <= i < |triages| ==> triages[i].createdAt < clock)
    }

    /** A store over two empty collections. */
    constructor()
      ensures Valid()
      ensures messages == [] && triages == [] && clock == 0
    {
      messages := [];
      triages := [];
      clock := 0;
    }

    /**
     * `save_message(chat_request, chat_response)`: appends one document copying the ids,
     * the channel and the message of the request and the response text, stamped with
     * the current time, and returns its id; the triages are untouched.
     */
    method SaveMessage(request: ChatRequest, response: ChatResponse) returns (id: nat)
      requires Valid()
      modifies this
      ensures Valid()
      ensures messages == old(messages) + [MessageDoc(old(clock), request.conversationId, request.userId,
        request.channel, request.message, response.response, old(clock))]
      ensures id == old(clock) && clock == old(clock) + 1
      ensures triages == old(triages)
    {
      id := clock;
      messages := messages + [MessageDoc(clock, request.conversationId, request.userId,
        request.channel, request.message, response.response, clock)];
      clock := clock + 1;
    }

    /**
     * `get_conversation(conversation_id, limit)`: the documents of that conversation, in
     * ascending time, at most `limit` of them.
     */
    method GetConversation(conversationId: string, limit: nat := 100) returns (docs: seq<MessageDoc>)
      requires Valid() && limit > 0
      ensures docs == ConversationView(messages, conversationId, limit)
      ensures forall i :: 0 <= i < |docs| ==> docs[i].conversationId == Some(conversationId)
      ensures Ascending(docs) && |docs| <= limit
    {
      docs := ConversationView(messages, conversationId, limit);
      ViewIsAscending(messages, conversationId, limit);
    }

    /**
     * `save_triage(conversation_id, triage_data)`: appends one document holding the data
     * unchanged, stamped with the current time, and returns its id; the messages are untouched.
     */
    method SaveTriage(conversationId: string, data: map<string, Value>) returns (id: nat)
      requires Valid()
      modifies this
      ensures Valid()
      ensures triages == old(triages) + [TriageDoc(old(clock), conversationId, data, old(clock))]
      ensures id == old(clock) && clock == old(clock) + 1
      ensures messages == old(messages)
    {
      id := clock;
      triages := triages + [TriageDoc(clock, conversationId, data, clock)];
      clock := clock + 1;
    }

    /** `get_triage(conversation_id)`: a triage of that conversation, or none when it has none. */
    method GetTriage(conversationId: string) returns (doc: Option<TriageDoc>)
      ensures doc == FirstTriage(triages, conversationId)
      ensures doc.Some? ==> doc.value in triages && doc.value.conversationId == conversationId
      ensures doc.None? <==> forall d :: d in triages ==> d.conversationId != conversationId
    {
      doc := FirstTriage(triages, conversationId);
    }
  }

  /** Filtering keeps the stored order, so it keeps the documents ascending. */
  lemma {:induction false} MatchingKeepsAscending(docs: seq<MessageDoc>, conversationId: string)
    requires Ascending(docs)
    ensures Ascending(Matching(docs, conversationId))
    decreases |docs|
  {
    if |docs| > 0 {
      var rest := Matching(docs[1..], conversationId);
      MatchingKeepsAscending(docs[1..], conversationId);
      if docs[0].conversationId == Some(conversationId) {
        var r := [docs[0]] + rest;
        forall i, j | 0 <= i < j < |r|
          ensures r[i].timestamp < r[j].timestamp
        {
          if i == 0 {
            assert r[j] in docs[1..];
          }
        }
      }
    }
  }

  lemma ViewIsAscending(messages: seq<MessageDoc>, conversationId: string, limit: nat)
    requires Ascending(messages)
    ensures Ascending(ConversationView(messages, conversationId, limit))
  {
    MatchingKeepsAscending(messages, conversationId);
  }

  /**
   * Sorting by timestamp is forced: two ascending sequences holding the same documents
   * are equal, so the matching documents in stored order are the sorted result.
   */
  lemma {:induction false} AscendingIsUnique(a: seq<MessageDoc>, b: seq<MessageDoc>)
    requires Ascending(a) && Ascending(b) && multiset(a) == multiset(b)
    ensures a == b
    decreases |a|
  {
    if |a| > 0 {
      assert |b| == |multiset(b)| == |multiset(a)| == |a|;
      assert a[0] in multiset(b) && b[0] in multiset(a);
      SameHead(a, b);
      assert a == [a[0]] + a[1..] && b == [b[0]] + b[1..];
      assert multiset(a[1..]) == multiset(b[1..]) by {
        assert multiset(a) == multiset([a[0]] + a[1..]) == multiset{a[0]} + multiset(a[1..]);
        assert multiset(b) == multiset([b[0]] + b[1..]) == multiset{b[0]} + multiset(b[1..]);
        assert multiset(a[1..]) == multiset(a) - multiset{a[0]};
        assert multiset(b[1..]) == multiset(b) - multiset{b[0]};
      }
      AscendingTail(a);
      AscendingTail(b);
      AscendingIsUnique(a[1..], b[1..]);
    }
  }

  /** Two ascending sequences holding each other's first document start alike. */
  lemma SameHead(a: seq<MessageDoc>, b: seq<MessageDoc>)
    requires Ascending(a) && Ascending(b) && |a| > 0 && |b| > 0
    requires a[0] in b && b[0] in a
    ensures a[0] == b[0]
  {
    var k :| 0 <= k < |b| && b[k] == a[0];
    var j :| 0 <= j < |a| && a[j] == b[0];
    assert a[0].timestamp <= a[j].timestamp;
    assert b[0].timestamp <= b[k].timestamp;
  }

  lemma AscendingTail(s: seq<MessageDoc>)
    requires Ascending(s) && |s| > 0
    ensures Ascending(s[1..])
  {
    forall i, j | 0 <= i < j < |s[1..]|
      ensures s[1..][i].timestamp < s[1..][j].timestamp
    {
      assert s[1..][i] == s[i + 1] && s[1..][j] == s[j + 1];
    }
  }

  /**
   * On a valid store the view is the filter, sorted ascending by time, cut at `limit`:
   * any ascending arrangement of the matching documents is the one returned before the cut.
   */
  lemma ViewIsSortedFilter(messages: seq<MessageDoc>, conversationId: string, limit: nat, sorted: seq<MessageDoc>)
    requires Ascending(messages)
    requires Ascending(sorted) && multiset(sorted) == multiset(Matching(messages, conversationId))
    ensures ConversationView(messages, conversationId, limit) == Take(sorted, limit)
  {
    MatchingKeepsAscending(messages, conversationId);
    AscendingIsUnique(sorted, Matching(messages, conversationId));
  }

  /** Every matching document is returned when there are no more than `limit` of them. */
  lemma ViewIsCompleteUnderLimit(messages: seq<MessageDoc>, conversationId: string, limit: nat, d: MessageDoc)
    requires |Matching(messages, conversationId)| <= limit
    requires d in messages && d.conversationId == Some(conversationId)
    ensures d in ConversationView(messages, conversationId, limit)
  {
  }

  /** On a fresh store, a saved interaction reads back as the only document of its conversation. */
  method SaveThenGetConversation(request: ChatRequest, response: ChatResponse) returns (docs: seq<MessageDoc>)
    requires request.conversationId.Some?
    ensures |docs| == 1
    ensures docs[0].userMessage == request.message && docs[0].agentMessage == response.response
    ensures docs[0].conversationId == request.conversationId && docs[0].userId == request.userId
  {
    var store := new PersistenceService();
    var _ := store.SaveMessage(request, response);
    docs := store.GetConversation(request.conversationId.value);
  }

  /** On a fresh store, a saved triage reads back with its data unchanged. */
  method SaveThenGetTriage(conversationId: string, data: map<string, Value>) returns (doc: Option<TriageDoc>)
    ensures doc.Some? && doc.value.conversationId == conversationId && doc.value.data == data
  {
    var store := new PersistenceService();
    var _ := store.SaveTriage(conversationId, data);
    doc := store.GetTriage(conversationId);
  }

  /** The stored intensity of the documented triage stays the text "7". */
  lemma TriageDataIsKeptAsGiven(triages: seq<TriageDoc>, data: map<string, Value>, now: nat)
    requires IntensidadeKey in data && data[IntensidadeKey] == Str("7")
    requires forall d :: d in triages ==> d.conversationId != "conv2"
    ensures var found := FirstTriage(triages + [TriageDoc(now, "conv2", data, now)], "conv2");
      found.Some? && found.value.data[IntensidadeKey] == Str("7")
  {
    FirstTriageAfterAppend(triages, TriageDoc(now, "conv2", data, now));
  }

  /** Appending a triage to a collection without one for its conversation makes it the one found. */
  lemma {:induction false} FirstTriageAfterAppend(triages: seq<TriageDoc>, doc: TriageDoc)
    requires forall d :: d in triages ==> d.conversationId != doc.conversationId
    ensures FirstTriage(triages + [doc], doc.conversationId) == Some(doc)
    decreases |triages|
  {
    if |triages| > 0 {
      assert (triages + [doc])[1..] == triages[1..] + [doc];
      FirstTriageAfterAppend(triages[1..], doc);
    } else {
      assert triages + [doc] == [doc];
    }
  }

  /** No triage is found for a conversation that has none. */
  lemma NoTriageForUnknownConversation(conversationId: string)
    ensures FirstTriage([], conversationId) == None
  {
  }
}
