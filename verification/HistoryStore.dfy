/** The session log: HistoryStore (history.py) and the turn that is appended to it
    (_persist_turn in server.py). */
module HistoryStore {
  import opened Wrappers
  import opened SessionFiles
  import opened Selections

  const MAX_PERSISTED_MESSAGES := 200

  /** An element of a stored message list: an object with its role and content when they are
      strings, and with whatever else it holds, or something that is not an object. */
  datatype Item = NotAnObject | Item(role: Option<string>, content: Option<string>, others: string)

  datatype Payload = Payload(messages: seq<Item>, updatedAt: string)

  /** A message of a request. */
  datatype Message = Message(role: string, content: string)

  /** JSON encoding and decoding. */
  datatype Codec = Codec(encode: Payload -> string, decode: string -> Option<Payload>)

  ghost predicate Faithful(codec: Codec) {
    forall p :: codec.decode(codec.encode(p)) == Some(p)
  }

  predicate IsKept(m: Item) {
    m.Item? && m.content.Some? && m.role.Some? && m.role.value in {"user", "assistant", "system", "tool"}
  }

  function Kept(items: seq<Item>): seq<Item> {
    if items == [] then []
    else Kept(items[..|items| - 1]) + if IsKept(items[|items| - 1]) then [items[|items| - 1]] else []
  }

  lemma {:induction false} KeptAreKept(items: seq<Item>)
    ensures forall m :: m in Kept(items) ==> IsKept(m)
  {
    if items != [] { KeptAreKept(items[..|items| - 1]); }
  }

  lemma {:induction false} KeptIsAll(items: seq<Item>)
    requires forall m :: m in items ==> IsKept(m)
    ensures Kept(items) == items
  {
    if items != [] {
      KeptIsAll(items[..|items| - 1]);
      assert items == items[..|items| - 1] + [items[|items| - 1]];
    }
  }

  datatype LoadResult = Loaded(messages: seq<Item>) | InvalidId

  /** What a file holds for its reader; a missing or undecodable one holds nothing. */
  function Contents(codec: Codec, stored: Option<string>): seq<Item> {
    if stored.None? then []
    else
      match codec.decode(stored.value)
      case None => []
      case Some(p) => Kept(p.messages)
  }

  function TextAt(files: Files, name: string): Option<string> {
    if name in files then Some(files[name].text) else None
  }

  /** How the steps of a save fare; `written` is how much of the text a failing write leaves. */
  datatype SaveIo = SaveIo(
    middle: string, makeFails: bool, openFails: bool, writeFails: bool, written: nat,
    syncFails: bool, replaceFails: bool, unlinkFails: bool)

  predicate Succeeds(io: SaveIo) {
    !io.makeFails && !io.openFails && !io.writeFails && !io.replaceFails
  }

  /** Nothing to do, saved, given up with a warning, or an exception for the caller. */
  datatype SaveResult = Disabled | Saved | GivenUp | RaisedOSError | RaisedValueError

  function Text(codec: Codec, messages: seq<Item>, stamp: string): string {
    codec.encode(Payload(Last(MAX_PERSISTED_MESSAGES, messages), stamp))
  }

  lemma SavedText(codec: Codec, messages: seq<Item>, stamp: string)
    ensures Text(codec, messages, stamp) == codec.encode(Payload(
              if |messages| > MAX_PERSISTED_MESSAGES then messages[|messages| - MAX_PERSISTED_MESSAGES..] else messages,
              stamp))
  {
  }

  class Store {
    const codec: Codec
    var enabled: bool
    var files: Files

    /** Persistence is on when a directory is given and can be made. */
    constructor (codec: Codec, directory: Option<string>, madeDirectory: bool, files: Files)
      ensures this.codec == codec && this.files == files
      ensures enabled == (directory.Some? && directory.value != "" && madeDirectory)
    {
      this.codec := codec;
      this.files := files;
      this.enabled := directory.Some? && directory.value != "" && madeDirectory;
    }

    method Load(id: string, readFails: bool) returns (r: LoadResult)
      ensures r == if !enabled then Loaded([])
                   else if !Accepted(id) then InvalidId
                   else if readFails then Loaded([])
                   else Loaded(Contents(codec, TextAt(files, PathName(id))))
    {
      if !enabled { return Loaded([]); }
      if !Accepted(id) { return InvalidId; }
      var path := PathName(id);
      if path !in files || readFails { return Loaded([]); }
      var payload := codec.decode(files[path].text);
      if payload.None? { return Loaded([]); }
      return Loaded(Kept(payload.value.messages));
    }

    /** Best-effort removal of a temporary file. */
    method CleanUp(temp: string, unlinkFails: bool)
      modifies this`files
      ensures files == if unlinkFails then old(files) else Unlinked(old(files), temp)
    {
      if !unlinkFails { files := Unlinked(files, temp); }
    }

    /** Writes a temporary file and renames it over the session file. A save either puts the
        whole text of the last messages under the session's name, or leaves every file but its
        temporary one as it was. */
    method Save(id: string, messages: seq<Item>, stamp: string, io: SaveIo) returns (r: SaveResult)
      requires TempName(id, io.middle) !in files
      modifies this`files
      ensures r == Saved <==> enabled && Accepted(id) && Succeeds(io)
      ensures r == Disabled <==> !enabled
      ensures r == RaisedValueError <==> enabled && !Accepted(id)
      ensures r == RaisedOSError <==> enabled && Accepted(id) && (io.makeFails || io.openFails)
      ensures r == Saved ==>
                files == old(files)[PathName(id) := File(Text(codec, messages, stamp), !io.syncFails)]
      ensures r != Saved ==> Unlinked(files, TempName(id, io.middle)) == old(files)
    {
      hide PathName, TempName, Accepted, Text;
      ghost var before := files;
      var temp, path := TempName(id, io.middle), PathName(id);
      NamesAreSafe(id, id, io.middle);
      assert Unlinked(before, temp) == before;
      if !enabled { return Disabled; }
      if !Accepted(id) { return RaisedValueError; }
      var kept := messages;
      if |kept| > MAX_PERSISTED_MESSAGES { kept := kept[|kept| - MAX_PERSISTED_MESSAGES..]; }
      var data := codec.encode(Payload(kept, stamp));
      if io.makeFails { return RaisedOSError; }
      files := Written(files, temp, "");
      if io.openFails {
        CleanUp(temp, io.unlinkFails);
        return RaisedOSError;
      }
      if io.writeFails {
        files := Written(files, temp, if io.written <= |data| then data[..io.written] else data);
        CleanUp(temp, io.unlinkFails);
        return GivenUp;
      }
      files := Written(files, temp, data);
      if !io.syncFails { files := Synced(files, temp); }
      if io.replaceFails {
        CleanUp(temp, io.unlinkFails);
        return GivenUp;
      }
      files := Replaced(files, temp, path);
      SavedText(codec, messages, stamp);
      assert files == before[path := File(data, !io.syncFails)];
      return Saved;
    }

    /** Appends a turn to a session and reports whether the file was written. `raises` is any
        other exception while loading. */
    method PersistTurn(sessionId: Option<string>, request: seq<Message>, answer: string, stamp: string,
                       readFails: bool, raises: bool, io: SaveIo) returns (saved: bool)
      requires sessionId.Some? ==> TempName(sessionId.value, io.middle) !in files
      modifies this`files
      ensures saved <==> sessionId.Some? && sessionId.value != "" && enabled && Accepted(sessionId.value) &&
                         !raises && Succeeds(io)
      ensures sessionId.Some? && Accepted(sessionId.value) ==>
                TextAt(files, PathName(sessionId.value)) ==
                AfterTurn(codec, TextAt(old(files), PathName(sessionId.value)),
                          Turn(request, answer, stamp, readFails, saved))
      ensures forall id :: Accepted(id) && sessionId != Some(id) ==>
                             TextAt(files, PathName(id)) == TextAt(old(files), PathName(id))
    {
      if sessionId.None? || sessionId.value == "" || !enabled { return false; }
      var id := sessionId.value;
      var prior := Load(id, readFails);
      if prior.InvalidId? || raises { return false; }
      var conversational := [];
      for i := 0 to |request|
        invariant conversational == Conversational(request[..i])
      {
        assert request[..i + 1][..i] == request[..i];
        if request[i].role in {"user", "assistant", "system"} {
          conversational := conversational + [AsItem(request[i])];
        }
      }
      assert request[..|request|] == request;
      var combined := prior.messages + conversational;
      if answer != "" {
        combined := combined + [AsItem(Message("assistant", answer))];
      }
      assert combined == prior.messages + Entries(request, answer);
      var result := Save(id, combined, stamp, io);
      saved := result == Saved;
      forall other | Accepted(other) ensures TempName(id, io.middle) != PathName(other)
                                             && (PathName(id) == PathName(other) <==> id == other)
      {
        NamesAreSafe(id, other, io.middle);
      }
      if !saved {
        forall other | Accepted(other) ensures TextAt(files, PathName(other)) == TextAt(old(files), PathName(other)) {
          assert TextAt(Unlinked(files, TempName(id, io.middle)), PathName(other)) == TextAt(files, PathName(other));
        }
      }
    }
  }

  // ---------------------------------------------------------------- turns

  function AsItem(m: Message): Item {
    Item(Some(m.role), Some(m.content), "")
  }

  function Conversational(request: seq<Message>): seq<Item> {
    if request == [] then []
    else
      var m := request[|request| - 1];
      Conversational(request[..|request| - 1]) +
      if m.role in {"user", "assistant", "system"} then [AsItem(m)] else []
  }

  /** What a turn adds: the conversational messages of the request and a non-empty answer. */
  function Entries(request: seq<Message>, answer: string): seq<Item> {
    Conversational(request) + if answer != "" then [AsItem(Message("assistant", answer))] else []
  }

  lemma {:induction false} EntriesAreKept(request: seq<Message>, answer: string)
    ensures forall m :: m in Entries(request, answer) ==> IsKept(m)
    decreases |request|
  {
    if request != [] { EntriesAreKept(request[..|request| - 1], answer); }
  }

  datatype Turn = Turn(request: seq<Message>, answer: string, stamp: string, readFails: bool, saved: bool)

  /** The session file after a turn. */
  function AfterTurn(codec: Codec, stored: Option<string>, t: Turn): Option<string> {
    if !t.saved then stored
    else
      var prior := if t.readFails then [] else Contents(codec, stored);
      Some(Text(codec, prior + Entries(t.request, t.answer), t.stamp))
  }

  function AfterTurns(codec: Codec, stored: Option<string>, turns: seq<Turn>): Option<string> {
    if turns == [] then stored
    else AfterTurn(codec, AfterTurns(codec, stored, turns[..|turns| - 1]), turns[|turns| - 1])
  }

  /** The unbounded log: everything the saved turns added. */
  function Log(turns: seq<Turn>): seq<Item> {
    if turns == [] then []
    else
      var t := turns[|turns| - 1];
      Log(turns[..|turns| - 1]) + if t.saved then Entries(t.request, t.answer) else []
  }

  predicate AnySaved(turns: seq<Turn>) {
    turns != [] && (turns[|turns| - 1].saved || AnySaved(turns[..|turns| - 1]))
  }

  /** What is saved is what is loaded, up to the cap. */
  lemma SavedIsLoaded(codec: Codec, items: seq<Item>, stamp: string)
    requires Faithful(codec) && forall m :: m in items ==> IsKept(m)
    ensures Contents(codec, Some(Text(codec, items, stamp))) == Last(MAX_PERSISTED_MESSAGES, items)
    ensures codec.decode(Text(codec, items, stamp)) == Some(Payload(Last(200, items), stamp))
  {
    var last := Last(MAX_PERSISTED_MESSAGES, items);
    assert codec.decode(codec.encode(Payload(last, stamp))) == Some(Payload(last, stamp));
    KeptIsAll(last);
  }

  lemma ContentsAreKept(codec: Codec, stored: Option<string>)
    ensures forall m :: m in Contents(codec, stored) ==> IsKept(m)
  {
    if stored.Some? && codec.decode(stored.value).Some? { KeptAreKept(codec.decode(stored.value).value.messages); }
  }

  lemma TurnLoads(codec: Codec, stored: Option<string>, t: Turn)
    requires Faithful(codec) && t.saved
    ensures Contents(codec, AfterTurn(codec, stored, t)) ==
            Last(MAX_PERSISTED_MESSAGES,
                 (if t.readFails then [] else Contents(codec, stored)) + Entries(t.request, t.answer))
  {
    ContentsAreKept(codec, stored);
    EntriesAreKept(t.request, t.answer);
    var prior := if t.readFails then [] else Contents(codec, stored);
    SavedIsLoaded(codec, prior + Entries(t.request, t.answer), t.stamp);
  }

  lemma UnsavedTurn(codec: Codec, stored: Option<string>, t: Turn)
    requires !t.saved
    ensures AfterTurn(codec, stored, t) == stored
  {
  }

  /** The bounded file refines the unbounded log. After any turns whose reads succeed, loading
      gives the last 200 entries of the initial valid messages followed by what the saved turns
      added; before the first saved turn it gives the initial valid messages, all of them. */
  lemma {:induction false} BoundedLog(codec: Codec, stored: Option<string>, turns: seq<Turn>)
    requires Faithful(codec) && forall t :: t in turns ==> !t.readFails
    ensures Contents(codec, AfterTurns(codec, stored, turns)) ==
            if AnySaved(turns) then Last(MAX_PERSISTED_MESSAGES, Contents(codec, stored) + Log(turns))
            else Contents(codec, stored)
    ensures !AnySaved(turns) ==> Log(turns) == []
  {
    hide Contents, Text, AfterTurn, Entries, Last, Faithful;
    if turns != [] {
      var before, t := turns[..|turns| - 1], turns[|turns| - 1];
      BoundedLog(codec, stored, before);
      if t.saved {
        TurnLoads(codec, AfterTurns(codec, stored, before), t);
        LogGrows(Contents(codec, stored), Log(before), Entries(t.request, t.answer));
      } else {
        UnsavedTurn(codec, AfterTurns(codec, stored, before), t);
        assert Log(turns) == Log(before);
      }
    }
  }

  lemma LogGrows(initial: seq<Item>, log: seq<Item>, added: seq<Item>)
    ensures Last(MAX_PERSISTED_MESSAGES, Last(MAX_PERSISTED_MESSAGES, initial + log) + added) ==
            Last(MAX_PERSISTED_MESSAGES, initial + (log + added))
    ensures [] + added == added
  {
    LastOfLast(MAX_PERSISTED_MESSAGES, initial + log, added);
    assert initial + (log + added) == (initial + log) + added;
  }

  /** A failed read does more than hide the log for one turn: when that turn is saved, whatever
      the file held is gone. */
  lemma FailedReadForgets(codec: Codec, stored: Option<string>, t: Turn)
    requires Faithful(codec) && t.readFails && t.saved
    ensures Contents(codec, AfterTurn(codec, stored, t)) == Last(MAX_PERSISTED_MESSAGES, Entries(t.request, t.answer))
  {
    TurnLoads(codec, stored, t);
    assert [] + Entries(t.request, t.answer) == Entries(t.request, t.answer);
  }

  // ---------------------------------------------------------------- what is kept

  predicate ValidRole(role: string) {
    role == "user" || role == "assistant" || role == "system" || role == "tool"
  }

  /** A stored element with a text content and a known role. */
  predicate IsValid(m: Item) {
    m.Item? && m.content.Some? && m.role.Some? && ValidRole(m.role.value)
  }

  predicate IsSpoken(m: Message) {
    m.role == "user" || m.role == "assistant" || m.role == "system"
  }

  /** What is stored of a message: its role and its content, as they are. */
  function Stored(m: Message): Item {
    Item(Some(m.role), Some(m.content), "")
  }

  lemma {:induction false} KeptIsSelection(items: seq<Item>)
    ensures Selection(items, IsValid, (m: Item) => m, Kept(items))
  {
    hide Selection;
    var id := (m: Item) => m;
    if items == [] {
      NoSelection(IsValid, id);
    } else {
      var before, m := items[..|items| - 1], items[|items| - 1];
      KeptIsSelection(before);
      SelectionMore(before, m, IsValid, id, Kept(before));
      assert before + [m] == items;
    }
  }

  lemma {:induction false} ConversationalIsSelection(request: seq<Message>)
    ensures Selection(request, IsSpoken, Stored, Conversational(request))
  {
    hide Selection;
    if request == [] {
      NoSelection(IsSpoken, Stored);
    } else {
      var before, m := request[..|request| - 1], request[|request| - 1];
      ConversationalIsSelection(before);
      SelectionMore(before, m, IsSpoken, Stored, Conversational(before));
      assert before + [m] == request;
    }
  }

  /** What a load gives: nothing if there is no file or it is no JSON, and otherwise exactly the
      valid elements of its list, unchanged and in order. */
  lemma LoadKeepsTheValid(codec: Codec, stored: Option<string>)
    ensures stored.None? || codec.decode(stored.value).None? ==> Contents(codec, stored) == []
    ensures stored.Some? && codec.decode(stored.value).Some? ==>
              Selection(codec.decode(stored.value).value.messages, IsValid, (m: Item) => m, Contents(codec, stored))
  {
    if stored.Some? && codec.decode(stored.value).Some? {
      KeptIsSelection(codec.decode(stored.value).value.messages);
    }
  }

  /** A saved turn whose read succeeded, by position: a session then loads what it held before,
      the messages of the request that the user, the assistant and the system said, with role
      and content unchanged and in order, and the answer, if there is one; of all that, the last
      200. */
  lemma TurnAddsWhatWasSaid(codec: Codec, stored: Option<string>, t: Turn)
    returns (said: seq<Item>, added: seq<Item>)
    requires Faithful(codec) && t.saved && !t.readFails
    ensures Selection(t.request, IsSpoken, Stored, said)
    ensures added == if t.answer == "" then said else said + [Item(Some("assistant"), Some(t.answer), "")]
    ensures var all, loaded := Contents(codec, stored) + added, Contents(codec, AfterTurn(codec, stored, t));
            if |all| <= 200 then loaded == all
            else |loaded| == 200 && forall i :: 0 <= i < 200 ==> loaded[i] == all[|all| - 200 + i]
  {
    said := Conversational(t.request);
    added := Entries(t.request, t.answer);
    assert said + [] == said;
    ConversationalIsSelection(t.request);
    TurnLoads(codec, stored, t);
  }

  /** So a request in which only these speak is added message by message. */
  lemma TurnAddsTheRequest(codec: Codec, stored: Option<string>, t: Turn)
    requires Faithful(codec) && t.saved && !t.readFails
    requires forall i :: 0 <= i < |t.request| ==> t.request[i].role in {"user", "assistant", "system"}
    requires |Contents(codec, stored)| + |t.request| + 1 <= 200
    ensures var prior, loaded := Contents(codec, stored), Contents(codec, AfterTurn(codec, stored, t));
            && |loaded| == |prior| + |t.request| + (if t.answer == "" then 0 else 1)
            && prior <= loaded
            && (forall i :: 0 <= i < |t.request| ==>
                              loaded[|prior| + i] == Item(Some(t.request[i].role), Some(t.request[i].content), ""))
            && (t.answer != "" ==> loaded[|loaded| - 1] == Item(Some("assistant"), Some(t.answer), ""))
  {
    hide Selection, Contents, AfterTurn, Faithful;
    var said, added := TurnAddsWhatWasSaid(codec, stored, t);
    SelectionOfAll(t.request, IsSpoken, Stored, said);
  }
}
