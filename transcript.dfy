/**
 * The transcript log the session manager keeps (`chatMessages`): its
 * entries, the edits the session makes to it, and the bounded history
 * written to and read back from local storage.
 *
 * The functions here say what each edit does to the log as a value; the
 * session's methods perform the same edits in place and are proved
 * against them.
 */
module Transcript {
  import opened Wrappers

  datatype Role = User | Assistant

  datatype ChatMessage = ChatMessage(
    id: string,
    role: Role,
    text: string,
    streaming: bool,
    timestamp: int)

  /** How many entries `saveHistory` keeps. */
  const HistoryLimit: nat := 40
  /** The placeholder text shown while the user's speech is transcribed. */
  const ListeningText: string := "Listening..."

  /** `findIndex(msg => msg.id === id)`: the first entry with that id, or -1. */
  function FindIndex(msgs: seq<ChatMessage>, id: string): (i: int)
    ensures -1 <= i < |msgs|
    ensures i == -1 <==> forall k :: 0 <= k < |msgs| ==> msgs[k].id != id
    ensures i >= 0 ==> msgs[i].id == id && forall k :: 0 <= k < i ==> msgs[k].id != id
  {
    if msgs == [] then -1
    else if msgs[0].id == id then 0
    else
      var j := FindIndex(msgs[1..], id);
      if j == -1 then -1 else j + 1
  }

  /** The number of entries carrying an id. */
  function CountId(msgs: seq<ChatMessage>, id: string): nat
  {
    if msgs == [] then 0
    else CountId(msgs[..|msgs| - 1], id) + (if msgs[|msgs| - 1].id == id then 1 else 0)
  }

  /** `updateMessage`: the first entry with the id gets the text, and the flag when one is given. */
  function Updated(msgs: seq<ChatMessage>, id: string, text: string, streaming: Option<bool>): seq<ChatMessage>
  {
    var i := FindIndex(msgs, id);
    if i == -1 then msgs
    else msgs[i := msgs[i].(text := text, streaming := streaming.GetOr(msgs[i].streaming))]
  }

  /** `removeMessage`: the first entry with the id is spliced out. */
  function Removed(msgs: seq<ChatMessage>, id: string): seq<ChatMessage>
  {
    var i := FindIndex(msgs, id);
    if i == -1 then msgs else msgs[..i] + msgs[i + 1..]
  }

  /** The transcript side of `handleAssistantDelta`: replace the entry's text, or push a new one. */
  function Upserted(msgs: seq<ChatMessage>, id: string, text: string, now: int): seq<ChatMessage>
  {
    var i := FindIndex(msgs, id);
    if i == -1 then msgs + [ChatMessage(id, Assistant, text, true, now)]
    else msgs[i := msgs[i].(text := text, streaming := true)]
  }

  /** The transcript side of `finalizeAssistantResponse`. */
  function Finalized(msgs: seq<ChatMessage>, id: string): seq<ChatMessage>
  {
    var i := FindIndex(msgs, id);
    if i == -1 then msgs else msgs[i := msgs[i].(streaming := false)]
  }

  lemma {:induction false} CountAppend(msgs: seq<ChatMessage>, m: ChatMessage, id: string)
    ensures CountId(msgs + [m], id) == CountId(msgs, id) + (if m.id == id then 1 else 0)
  {
    assert (msgs + [m])[..|msgs|] == msgs;
  }

  /** Counting only looks at ids: two logs with the same ids have the same counts. */
  lemma {:induction false} CountSameIds(a: seq<ChatMessage>, b: seq<ChatMessage>, id: string)
    requires |a| == |b| && forall k :: 0 <= k < |a| ==> a[k].id == b[k].id
    ensures CountId(a, id) == CountId(b, id)
  {
    if a != [] {
      CountSameIds(a[..|a| - 1], b[..|b| - 1], id);
    }
  }

  /** No entry with the id means a count of zero, and the converse. */
  lemma {:induction false} CountZero(msgs: seq<ChatMessage>, id: string)
    ensures CountId(msgs, id) == 0 <==> forall k :: 0 <= k < |msgs| ==> msgs[k].id != id
  {
    if msgs != [] {
      CountZero(msgs[..|msgs| - 1], id);
      assert forall k :: 0 <= k < |msgs| - 1 ==> msgs[..|msgs| - 1][k] == msgs[k];
    }
  }

  /**
   * `updateMessage` on an unknown id changes nothing; on a known id it
   * changes only the first entry carrying it: that entry gets the text
   * (and the flag when given), keeps its id, role and timestamp, and every
   * other entry is unchanged.
   */
  lemma UpdatedSpec(msgs: seq<ChatMessage>, id: string, text: string, streaming: Option<bool>)
    ensures var r := Updated(msgs, id, text, streaming);
      var i := FindIndex(msgs, id);
      && |r| == |msgs|
      && (i == -1 ==> r == msgs)
      && (i >= 0 ==> r[i].text == text && r[i].id == id && r[i].role == msgs[i].role
                     && r[i].timestamp == msgs[i].timestamp
                     && r[i].streaming == (if streaming.Some? then streaming.value else msgs[i].streaming))
      && (forall k :: 0 <= k < |msgs| && k != i ==> r[k] == msgs[k])
  {
  }

  /**
   * `removeMessage` on an unknown id changes nothing; on a known id the
   * log loses exactly one entry with that id and keeps the others in order.
   */
  lemma RemovedSpec(msgs: seq<ChatMessage>, id: string)
    ensures var r := Removed(msgs, id);
      var i := FindIndex(msgs, id);
      && (i == -1 ==> r == msgs)
      && (i >= 0 ==> |r| == |msgs| - 1 && CountId(r, id) + 1 == CountId(msgs, id)
                     && r == msgs[..i] + msgs[i + 1..])
  {
    var i := FindIndex(msgs, id);
    if i >= 0 {
      RemovedCount(msgs, i, id);
    }
  }

  lemma {:induction false} RemovedCount(msgs: seq<ChatMessage>, i: nat, id: string)
    requires i < |msgs| && msgs[i].id == id
    ensures CountId(msgs[..i] + msgs[i + 1..], id) + 1 == CountId(msgs, id)
  {
    if i == |msgs| - 1 {
      assert msgs[..i] + msgs[i + 1..] == msgs[..|msgs| - 1];
    } else {
      var front := msgs[..|msgs| - 1];
      RemovedCount(front, i, id);
      assert msgs[..i] + msgs[i + 1..] == (front[..i] + front[i + 1..]) + [msgs[|msgs| - 1]];
      CountAppend(front[..i] + front[i + 1..], msgs[|msgs| - 1], id);
    }
  }

  /**
   * The assistant upsert: if at most one entry carried the id before,
   * exactly one does afterwards, and it is the streaming assistant entry
   * holding the text; no other entry changes, and the log grows only when
   * the id was new.
   */
  lemma UpsertedSpec(msgs: seq<ChatMessage>, id: string, text: string, now: int)
    requires CountId(msgs, id) <= 1
    ensures var r := Upserted(msgs, id, text, now);
      var j := FindIndex(r, id);
      && CountId(r, id) == 1
      && j >= 0 && r[j].text == text && r[j].streaming
      && (FindIndex(msgs, id) == -1 ==> r == msgs + [ChatMessage(id, Assistant, text, true, now)])
      && (FindIndex(msgs, id) >= 0 ==>
            |r| == |msgs| && j == FindIndex(msgs, id) && forall k :: 0 <= k < |msgs| && k != j ==> r[k] == msgs[k])
  {
    var i := FindIndex(msgs, id);
    var r := Upserted(msgs, id, text, now);
    if i == -1 {
      CountZero(msgs, id);
      CountAppend(msgs, ChatMessage(id, Assistant, text, true, now), id);
      assert r[|msgs|].id == id;
    } else {
      CountSameIds(msgs, r, id);
      CountZero(msgs, id);
    }
  }

  /**
   * Finalising sets the entry's streaming flag to false and leaves every
   * other entry, and every other field, unchanged; an unknown id changes
   * nothing.
   */
  lemma FinalizedSpec(msgs: seq<ChatMessage>, id: string)
    ensures var r := Finalized(msgs, id);
      var i := FindIndex(msgs, id);
      && |r| == |msgs|
      && (i == -1 ==> r == msgs)
      && (i >= 0 ==> r[i] == msgs[i].(streaming := false))
      && (forall k :: 0 <= k < |msgs| && k != i ==> r[k] == msgs[k])
      && CountId(r, id) == CountId(msgs, id)
  {
    CountSameIds(msgs, Finalized(msgs, id), id);
  }

  /** The deltas of one response, joined in arrival order. */
  function ConcatDeltas(ds: seq<string>): string
  {
    if ds == [] then [] else ConcatDeltas(ds[..|ds| - 1]) + ds[|ds| - 1]
  }

  /** The text accumulated so far for a response id (`assistantSegments.get(id) ?? ''`). */
  function Segment(segments: map<string, string>, id: string): string
  {
    if id in segments then segments[id] else ""
  }

  /** The accumulator map after `handleAssistantDelta` has run once per delta of `ds`, all for `id`. */
  function StreamedSegments(segments: map<string, string>, id: string, ds: seq<string>): map<string, string>
  {
    if ds == [] then segments
    else
      var s := StreamedSegments(segments, id, ds[..|ds| - 1]);
      s[id := Segment(s, id) + ds[|ds| - 1]]
  }

  /** The log after the same deltas: each one upserts the entry with the text accumulated so far. */
  function StreamedLog(msgs: seq<ChatMessage>, segments: map<string, string>, id: string,
                       ds: seq<string>, now: int): seq<ChatMessage>
  {
    if ds == [] then msgs
    else Upserted(StreamedLog(msgs, segments, id, ds[..|ds| - 1], now), id,
                  Segment(StreamedSegments(segments, id, ds), id), now)
  }

  /**
   * After deltas d1..dk for response r, the accumulator for r is what it
   * held before followed by d1 + ... + dk.
   */
  lemma {:induction false} StreamedSegmentsSpec(segments: map<string, string>, id: string, ds: seq<string>)
    ensures var s := StreamedSegments(segments, id, ds);
      && Segment(s, id) == Segment(segments, id) + ConcatDeltas(ds)
      && (ds != [] ==> id in s)
  {
    if ds != [] {
      var front := ds[..|ds| - 1];
      StreamedSegmentsSpec(segments, id, front);
      var s := StreamedSegments(segments, id, front);
      assert StreamedSegments(segments, id, ds) == s[id := Segment(s, id) + ds[|ds| - 1]];
      assert ConcatDeltas(ds) == ConcatDeltas(front) + ds[|ds| - 1];
    }
  }

  /** The deltas for response r leave every other accumulator as it was. */
  lemma {:induction false} StreamedSegmentsFrame(segments: map<string, string>, id: string, ds: seq<string>)
    ensures var s := StreamedSegments(segments, id, ds);
      && (forall k :: k != id ==> (k in s <==> k in segments))
      && (forall k :: k in segments && k != id ==> s[k] == segments[k])
  {
    if ds != [] {
      StreamedSegmentsFrame(segments, id, ds[..|ds| - 1]);
    }
  }

  /**
   * After deltas d1..dk (k > 0) for response r, exactly one log entry has
   * id r, given at most one had it before; it is streaming and holds the
   * accumulated text, so the response is never duplicated in the log.
   */
  lemma {:induction false} StreamedLogSpec(msgs: seq<ChatMessage>, segments: map<string, string>,
                                           id: string, ds: seq<string>, now: int)
    requires CountId(msgs, id) <= 1 && ds != []
    ensures var m := StreamedLog(msgs, segments, id, ds, now);
      var j := FindIndex(m, id);
      && CountId(m, id) == 1
      && j >= 0 && m[j].streaming
      && m[j].text == Segment(segments, id) + ConcatDeltas(ds)
  {
    var front := ds[..|ds| - 1];
    var m := StreamedLog(msgs, segments, id, front, now);
    if front != [] {
      StreamedLogSpec(msgs, segments, id, front, now);
    }
    StreamedSegmentsSpec(segments, id, ds);
    UpsertedSpec(m, id, Segment(StreamedSegments(segments, id, ds), id), now);
  }

  /** `messages.slice(-40)`: the most recent HistoryLimit entries, in order. */
  function TrimHistory(msgs: seq<ChatMessage>): (r: seq<ChatMessage>)
    ensures |r| == if |msgs| <= HistoryLimit then |msgs| else HistoryLimit
    ensures r == msgs[|msgs| - |r|..]
  {
    if |msgs| <= HistoryLimit then msgs else msgs[|msgs| - HistoryLimit..]
  }

  /** Saving an already trimmed log keeps it as it is. */
  lemma TrimHistoryIdempotent(msgs: seq<ChatMessage>)
    ensures TrimHistory(TrimHistory(msgs)) == TrimHistory(msgs)
  {
  }

  /** What `JSON.parse` of the stored text yields, as far as `loadHistory` looks at it. */
  datatype Parsed = Malformed | JsonArray(items: seq<ChatMessage>) | OtherJson

  /**
   * `loadHistory`: a missing or empty stored value, text that does not
   * parse, or JSON that is not an array all load as the empty log.
   */
  function LoadHistory(stored: Option<string>, parse: string -> Parsed): (r: seq<ChatMessage>)
    ensures stored.None? || stored == Some("") ==> r == []
    ensures stored.Some? && stored.value != "" && !parse(stored.value).JsonArray? ==> r == []
    ensures stored.Some? && stored.value != "" && parse(stored.value).JsonArray? ==> r == parse(stored.value).items
    ensures r != [] ==> stored.Some? && parse(stored.value) == JsonArray(r)
  {
    if stored.None? || stored.value == "" then []
    else match parse(stored.value)
      case JsonArray(items) => items
      case _ => []
  }

  /**
   * Whatever `saveHistory` writes loads back as the most recent 40
   * entries, given a serializer that `JSON.parse` inverts (`JSON.stringify`
   * of an array is never the empty text).
   */
  lemma SaveLoadRoundTrip(msgs: seq<ChatMessage>, serialize: seq<ChatMessage> -> string, parse: string -> Parsed)
    requires forall m :: serialize(m) != "" && parse(serialize(m)) == JsonArray(m)
    ensures LoadHistory(Some(serialize(TrimHistory(msgs))), parse) == TrimHistory(msgs)
  {
    var t := TrimHistory(msgs);
    assert parse(serialize(t)) == JsonArray(t);
  }
}
