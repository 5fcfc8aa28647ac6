/** A streamed chat turn from the agent to the browser and to the session file
    (chat_completions in server.py). */
module Chat {
  import opened Wrappers
  import opened Selections
  import opened SessionFiles
  import opened HistoryStore
  import opened EventStream
  import E = Executor

  /** The generator with the persistence in its `finally`: the turn is persisted once the
      terminator has been handed out, whether or not the consumer asks for more. */
  method StreamedTurn(
    json: Json, store: Store, sessionId: Option<string>, request: seq<Message>,
    source: seq<Yield>, failure: Option<string>, taken: nat,
    stamp: string, readFails: bool, raises: bool, io: SaveIo) returns (frames: seq<string>, saved: bool)
    requires sessionId.Some? ==> TempName(sessionId.value, io.middle) !in store.files
    modifies store`files
    ensures frames == Prefix(taken, AllFrames(json, source, failure))
    ensures saved <==>
              && taken >= |AllFrames(json, source, failure)|
              && sessionId.Some? && sessionId.value != "" && store.enabled && Accepted(sessionId.value)
              && !raises && Succeeds(io)
    ensures sessionId.Some? && Accepted(sessionId.value) ==>
              TextAt(store.files, PathName(sessionId.value)) ==
              AfterTurn(store.codec, TextAt(old(store.files), PathName(sessionId.value)),
                        Turn(request, Collected("", source), stamp, readFails, saved))
    ensures forall id :: Accepted(id) && sessionId != Some(id) ==>
                           TextAt(store.files, PathName(id)) == TextAt(old(store.files), PathName(id))
  {
    var persisted;
    frames, persisted := EventSource(json, source, failure, taken);
    saved := false;
    if persisted.Some? {
      saved := store.PersistTurn(sessionId, request, persisted.value, stamp, readFails, raises, io);
    }
  }

  /** From the wire to the file: after a saved turn whose read succeeded, what the session loads
      is, of what it loaded before, the messages of the request that were said, in order, and
      the last answer the browser was shown, if there was one, the last 200. */
  lemma BrowserAndFileAgree(
    json: Json, codec: Codec, stored: Option<string>, request: seq<Message>,
    source: seq<Yield>, failure: Option<string>, stamp: string)
    requires EventStream.Faithful(json) && HistoryStore.Faithful(codec)
    requires forall y :: y in source ==> IsReport(y.event)
    requires forall y :: y in source && y.fault.Some? ==> !(y.event.Done? && y.event.answer.Text?)
    ensures var view := OnLines(json, NOTHING_SEEN, Lines(Joined(AllFrames(json, source, failure))));
            var turn := Turn(request, Collected("", source), stamp, false, true);
            var loaded := Contents(codec, AfterTurn(codec, stored, turn));
            exists shown, said ::
              && IsLastText(view.seen, shown) && Selection(request, IsSpoken, Stored, said)
              && loaded == Last(200, Contents(codec, stored) + said + AnswerItems(shown))
  {
    hide OnLines, Lines, Joined, AllFrames, Contents, HeardLast, Delivered, Collected, Sent, FaultOf, Selection;
    hide IsLastText, AfterTurn;
    var view := OnLines(json, NOTHING_SEEN, Lines(Joined(AllFrames(json, source, failure))));
    BrowserAndLogAgree(json, source, failure);
    SentIsDelivered(source, failure, "");
    if FaultOf(source, failure).Some? {
      HeardLastOfError("", Delivered(source), E.Error(FaultOf(source, failure).value));
    }
    assert Delivered(source) + [] == Delivered(source);
    HeardIsLastText(view.seen);
    var shown := HeardLast("", view.seen);
    var turn := Turn(request, shown, stamp, false, true);
    var said, added := TurnAddsWhatWasSaid(codec, stored, turn);
    assert Contents(codec, stored) + said + AnswerItems(shown) == Contents(codec, stored) + added;
    assert IsLastText(view.seen, shown) && Selection(request, IsSpoken, Stored, said);
  }

  function AnswerItems(answer: string): seq<Item> {
    if answer == "" then [] else [Item(Some("assistant"), Some(answer), "")]
  }

  lemma {:induction false} HeardLastOfError(answer: string, events: seq<E.Event>, e: E.Event)
    requires e.Error?
    ensures HeardLast(answer, events + [e]) == HeardLast(answer, events)
    decreases |events|
  {
    if events == [] {
      assert HeardLast(answer, [e]) == HeardLast(Heard(answer, e), [e][1..]);
    } else {
      assert (events + [e])[1..] == events[1..] + [e];
      HeardLastOfError(Heard(answer, events[0]), events[1..], e);
    }
  }
}
