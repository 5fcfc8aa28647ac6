/** Saves as they run: several writers, one file operation at a time, with a crash or a failure
    between any two. */
module HistoryCrash {
  import opened Wrappers
  import opened SessionFiles
  import opened HistoryStore

  datatype Save = Save(id: string, payload: Payload)

  /** Where a save stands; `done` counts the characters written. */
  datatype Stage =
    | Opening
    | Writing(temp: string, done: nat)
    | Syncing(temp: string)
    | Replacing(temp: string)
    | Cleaning(temp: string)
    | Over

  datatype Writer = Writer(save: Save, stage: Stage)

  /** The directory, the running saves, and the finished ones in the order of their renames. */
  datatype Disk = Disk(files: Files, writers: map<nat, Writer>, finished: seq<Save>)

  /** File operations of a running save; `Fail` is an error in any of them. */
  datatype Operation =
    | Make(middle: string)
    | Write(n: nat)
    | Sync(ok: bool)
    | Rename
    | Fail
    | Clean(ok: bool)

  datatype Event =
    | Begin(w: nat, id: string, messages: seq<Item>, stamp: string)
    | Work(w: nat, op: Operation)
    | ProcessCrash
    | PowerLoss(kept: map<string, nat>)

  predicate HasTemp(x: Writer) {
    !x.stage.Opening? && !x.stage.Over?
  }

  function At(d: Disk, w: nat, stage: Stage): Disk
    requires w in d.writers
  {
    d.(writers := d.writers[w := d.writers[w].(stage := stage)])
  }

  function SaveText(codec: Codec, s: Save): string {
    codec.encode(s.payload)
  }

  /** Losing power leaves of every file not synced some prefix, and no running save. */
  function Torn(files: Files, kept: map<string, nat>): Files {
    map name | name in files ::
      var f := files[name];
      if f.synced then f
      else if name in kept && kept[name] <= |f.text| then File(f.text[..kept[name]], true)
      else File(f.text, true)
  }

  /** One operation of the save of writer `w`; one that is not its next changes nothing. */
  function Operated(codec: Codec, d: Disk, w: nat, op: Operation): Disk
    requires w in d.writers
  {
    var x := d.writers[w];
    var text := SaveText(codec, x.save);
    match op
    case Make(middle) =>
      var temp := TempName(x.save.id, middle);
      if !x.stage.Opening? || temp in d.files then d
      else At(d.(files := Written(d.files, temp, "")), w, Writing(temp, 0))
    case Write(n) =>
      if !x.stage.Writing? then d
      else
        var done := if x.stage.done + n < |text| then x.stage.done + n else |text|;
        At(d.(files := Written(d.files, x.stage.temp, text[..done])), w,
           if done == |text| then Syncing(x.stage.temp) else Writing(x.stage.temp, done))
    case Sync(ok) =>
      if !x.stage.Syncing? || x.stage.temp !in d.files then d
      else At(if ok then d.(files := Synced(d.files, x.stage.temp)) else d, w, Replacing(x.stage.temp))
    case Rename =>
      if !x.stage.Replacing? || x.stage.temp !in d.files then d
      else At(d.(files := Replaced(d.files, x.stage.temp, PathName(x.save.id)), finished := d.finished + [x.save]),
              w, Over)
    case Fail =>
      if !HasTemp(x) then At(d, w, Over) else At(d, w, Cleaning(x.stage.temp))
    case Clean(ok) =>
      if !x.stage.Cleaning? then d
      else At(if ok then d.(files := Unlinked(d.files, x.stage.temp)) else d, w, Over)
  }

  /** One event; an event that is not enabled changes nothing. */
  function Step(codec: Codec, d: Disk, ev: Event): Disk {
    match ev
    case Begin(w, id, messages, stamp) =>
      if w in d.writers || !Accepted(id) then d
      else
        var save := Save(id, Payload(Last(MAX_PERSISTED_MESSAGES, messages), stamp));
        d.(writers := d.writers[w := Writer(save, Opening)])
    case Work(w, op) => if w in d.writers then Operated(codec, d, w, op) else d
    case ProcessCrash => d.(writers := map[])
    case PowerLoss(kept) => d.(files := Torn(d.files, kept), writers := map[])
  }

  function Run(codec: Codec, d: Disk, evs: seq<Event>): Disk
    decreases evs
  {
    if evs == [] then d else Run(codec, Step(codec, d, evs[0]), evs[1..])
  }

  /** The text that belongs under a name: that of the last finished save for it, or the initial
      one. */
  function Published(codec: Codec, initial: Files, finished: seq<Save>, name: string): Option<string> {
    if finished == [] then TextAt(initial, name)
    else
      var s := finished[|finished| - 1];
      if PathName(s.id) == name then Some(SaveText(codec, s))
      else Published(codec, initial, finished[..|finished| - 1], name)
  }

  ghost predicate IsTemp(name: string) {
    exists id, middle :: name == TempName(id, middle)
  }

  ghost predicate WriterOk(codec: Codec, d: Disk, x: Writer) {
    var text := SaveText(codec, x.save);
    && Accepted(x.save.id) && |x.save.payload.messages| <= MAX_PERSISTED_MESSAGES
    && (HasTemp(x) ==> IsTemp(x.stage.temp) && x.stage.temp in d.files)
    && (x.stage.Writing? ==> x.stage.done <= |text| && TextAt(d.files, x.stage.temp) == Some(text[..x.stage.done]))
    && (x.stage.Syncing? || x.stage.Replacing? ==> TextAt(d.files, x.stage.temp) == Some(text))
  }

  /** Running saves have a temporary file each, with as much of their text as they have written;
      finished ones respected the cap. */
  ghost predicate Inv(codec: Codec, d: Disk) {
    && (forall w :: w in d.writers ==> WriterOk(codec, d, d.writers[w]))
    && (forall v, w :: v in d.writers && w in d.writers && v != w && HasTemp(d.writers[v]) && HasTemp(d.writers[w]) ==>
                         d.writers[v].stage.temp != d.writers[w].stage.temp)
    && (forall s :: s in d.finished ==> |s.payload.messages| <= MAX_PERSISTED_MESSAGES && Accepted(s.id))
  }

  lemma PathsAreNotTemps(id: string)
    ensures !IsTemp(PathName(id))
  {
    forall id', middle ensures PathName(id) != TempName(id', middle) { NamesAreSafe(id', id, middle); }
  }

  /** Whoever changes a file other than the writer's own temporary one breaks nobody's. */
  lemma OthersKept(codec: Codec, d: Disk, d': Disk, x: Writer)
    requires WriterOk(codec, d, x) && (HasTemp(x) ==> Lookup(d'.files, x.stage.temp) == Lookup(d.files, x.stage.temp))
    ensures WriterOk(codec, d', x)
  {
  }

  lemma WorkKeepsInv(codec: Codec, d: Disk, w: nat, op: Operation)
    requires Inv(codec, d) && w in d.writers
    ensures Inv(codec, Operated(codec, d, w, op))
  {
    hide IsTemp, PathName, TempName, WriterOk, Operated;
    var d' := Operated(codec, d, w, op);
    OwnWriterOk(codec, d, w, op);
    forall v | v in d.writers && v != w
      ensures WriterOk(codec, d', d'.writers[v])
      ensures HasTemp(d'.writers[v]) && HasTemp(d'.writers[w]) ==> d'.writers[v].stage.temp != d'.writers[w].stage.temp
    {
      OtherWriterOk(codec, d, w, op, v);
    }
    FinishedKept(codec, d, w, op);
  }

  lemma FinishedKept(codec: Codec, d: Disk, w: nat, op: Operation)
    requires w in d.writers && WriterOk(codec, d, d.writers[w])
    requires forall s :: s in d.finished ==> |s.payload.messages| <= MAX_PERSISTED_MESSAGES && Accepted(s.id)
    ensures forall s :: s in Operated(codec, d, w, op).finished ==>
                          |s.payload.messages| <= MAX_PERSISTED_MESSAGES && Accepted(s.id)
  {
    hide IsTemp, PathName, TempName, Accepted;
  }

  lemma OwnWriterOk(codec: Codec, d: Disk, w: nat, op: Operation)
    requires w in d.writers && WriterOk(codec, d, d.writers[w])
    ensures WriterOk(codec, Operated(codec, d, w, op), Operated(codec, d, w, op).writers[w])
    ensures var d' := Operated(codec, d, w, op);
            && d'.writers.Keys == d.writers.Keys
            && forall v :: v in d.writers && v != w ==> d'.writers[v] == d.writers[v]
  {
    var x := d.writers[w];
    var text := SaveText(codec, x.save);
    assert text[..|text|] == text;
    if op.Make? { assert IsTemp(TempName(x.save.id, op.middle)); }
  }

  lemma OtherWriterOk(codec: Codec, d: Disk, w: nat, op: Operation, v: nat)
    requires Inv(codec, d) && w in d.writers && v in d.writers && v != w
    ensures var d' := Operated(codec, d, w, op);
            && WriterOk(codec, d', d.writers[v])
            && (HasTemp(d.writers[v]) && HasTemp(d'.writers[w]) ==> d.writers[v].stage.temp != d'.writers[w].stage.temp)
  {
    hide TempName, PathName;
    var d' := Operated(codec, d, w, op);
    assert WriterOk(codec, d, d.writers[v]) && WriterOk(codec, d, d.writers[w]);
    if HasTemp(d.writers[v]) {
      PathsAreNotTemps(d.writers[w].save.id);
      assert Lookup(d'.files, d.writers[v].stage.temp) == Lookup(d.files, d.writers[v].stage.temp);
    }
    OthersKept(codec, d, d', d.writers[v]);
  }

  lemma StepKeepsInv(codec: Codec, d: Disk, ev: Event)
    requires Inv(codec, d)
    ensures Inv(codec, Step(codec, d, ev))
  {
    match ev {
      case Begin(w, id, messages, stamp) =>
        var d' := Step(codec, d, ev);
        forall v | v in d'.writers ensures WriterOk(codec, d', d'.writers[v]) {
          if v in d.writers { OthersKept(codec, d, d', d.writers[v]); }
        }
      case Work(w, op) => if w in d.writers { WorkKeepsInv(codec, d, w, op); }
      case ProcessCrash =>
      case PowerLoss(kept) =>
    }
  }

  // ---------------------------------------------------------------- session files

  /** The session file holds the complete text of the last finished save for it, or what was
      there at the start if none finished. */
  predicate Whole(codec: Codec, initial: Files, d: Disk, id: string) {
    TextAt(d.files, PathName(id)) == Published(codec, initial, d.finished, PathName(id))
  }

  /** The one event that harms a session file: a power loss that cuts its unsynced text short. */
  predicate Tears(d: Disk, ev: Event, id: string) {
    && ev.PowerLoss? && PathName(id) in d.files && !d.files[PathName(id)].synced
    && PathName(id) in ev.kept && ev.kept[PathName(id)] < |d.files[PathName(id)].text|
  }

  /** A file operation leaves a session file alone, or is the rename of a save for it. */
  lemma WorkAtPath(codec: Codec, d: Disk, w: nat, op: Operation, id: string)
    requires Inv(codec, d) && w in d.writers
    ensures var d', x, path := Operated(codec, d, w, op), d.writers[w], PathName(id);
            if op.Rename? && x.stage.Replacing? && x.stage.temp in d.files && x.save.id == id then
              && d'.finished == d.finished + [x.save]
              && Lookup(d'.files, path) == Some(d.files[x.stage.temp])
              && d.files[x.stage.temp].text == SaveText(codec, x.save)
            else
              && Lookup(d'.files, path) == Lookup(d.files, path)
              && (d'.finished == d.finished || (d'.finished == d.finished + [x.save] && x.save.id != id))
  {
    hide TempName, PathName;
    var x := d.writers[w];
    assert WriterOk(codec, d, x);
    PathsAreNotTemps(id);
    NamesAreSafe(x.save.id, id, "");
    if op.Make? { assert IsTemp(TempName(x.save.id, op.middle)); }
  }

  lemma PublishedMore(codec: Codec, initial: Files, finished: seq<Save>, s: Save, id: string)
    ensures Published(codec, initial, finished + [s], PathName(id)) ==
            if s.id == id then Some(SaveText(codec, s)) else Published(codec, initial, finished, PathName(id))
  {
    assert (finished + [s])[..|finished|] == finished;
    NamesAreSafe(s.id, id, "");
  }

  lemma StepWholeIff(codec: Codec, initial: Files, d: Disk, ev: Event, id: string)
    requires Inv(codec, d) && Whole(codec, initial, d, id)
    ensures Whole(codec, initial, Step(codec, d, ev), id) <==> !Tears(d, ev, id)
  {
    hide PathName, Inv;
    match ev {
      case Begin(_, _, _, _) =>
      case Work(w, op) =>
        if w in d.writers {
          WorkAtPath(codec, d, w, op, id);
          PublishedMore(codec, initial, d.finished, d.writers[w].save, id);
        }
      case ProcessCrash =>
      case PowerLoss(kept) =>
        var path := PathName(id);
        if Tears(d, ev, id) { assert |Torn(d.files, kept)[path].text| < |d.files[path].text|; }
        else if path in d.files && !d.files[path].synced && path in kept {
          assert d.files[path].text[..|d.files[path].text|] == d.files[path].text;
        }
    }
  }

  /** No event of a run tears the session file. */
  predicate NeverTorn(codec: Codec, d: Disk, evs: seq<Event>, id: string)
    decreases evs
  {
    evs == [] || (!Tears(d, evs[0], id) && NeverTorn(codec, Step(codec, d, evs[0]), evs[1..], id))
  }

  /** The session file is whole at every moment of a run. */
  predicate AlwaysWhole(codec: Codec, initial: Files, d: Disk, evs: seq<Event>, id: string)
    decreases evs
  {
    && Whole(codec, initial, d, id)
    && (evs == [] || AlwaysWhole(codec, initial, Step(codec, d, evs[0]), evs[1..], id))
  }

  lemma {:induction false} WholeKept(codec: Codec, initial: Files, d: Disk, evs: seq<Event>, id: string)
    requires Inv(codec, d) && Whole(codec, initial, d, id)
    ensures Inv(codec, Run(codec, d, evs))
    ensures AlwaysWhole(codec, initial, d, evs, id) <==> NeverTorn(codec, d, evs, id)
    ensures NeverTorn(codec, d, evs, id) ==> Whole(codec, initial, Run(codec, d, evs), id)
    decreases evs
  {
    hide Inv, Whole, Step, Tears;
    if evs != [] {
      var d' := Step(codec, d, evs[0]);
      StepKeepsInv(codec, d, evs[0]);
      StepWholeIff(codec, initial, d, evs[0], id);
      if Whole(codec, initial, d', id) {
        WholeKept(codec, initial, d', evs[1..], id);
      } else {
        InvKept(codec, d', evs[1..]);
        assert !AlwaysWhole(codec, initial, d', evs[1..], id);
      }
    }
  }

  lemma {:induction false} InvKept(codec: Codec, d: Disk, evs: seq<Event>)
    requires Inv(codec, d)
    ensures Inv(codec, Run(codec, d, evs))
    decreases evs
  {
    hide Inv, Step;
    if evs != [] {
      StepKeepsInv(codec, d, evs[0]);
      InvKept(codec, Step(codec, d, evs[0]), evs[1..]);
    }
  }

  /** Crash safety: under any interleaving of saves, with a failure or a crash of the process
      between any two file operations, and with losses of power, a session file is whole at
      every moment if and only if no loss of power cuts its unsynced text short; and every save
      that finished stored at most 200 messages under an accepted id. */
  lemma CrashSafety(codec: Codec, initial: Files, evs: seq<Event>, id: string)
    ensures var d := Disk(initial, map[], []);
            && (AlwaysWhole(codec, initial, d, evs, id) <==> NeverTorn(codec, d, evs, id))
            && forall s :: s in Run(codec, d, evs).finished ==>
                             |s.payload.messages| <= MAX_PERSISTED_MESSAGES && Accepted(s.id)
  {
    WholeKept(codec, initial, Disk(initial, map[], []), evs, id);
  }

  /** What a save stores of what it was asked to store. */
  predicate AskedFor(evs: seq<Event>, s: Save) {
    exists i :: 0 <= i < |evs| && evs[i].Begin? && s.id == evs[i].id && Accepted(evs[i].id) &&
                s.payload.updatedAt == evs[i].stamp &&
                (var all, kept := evs[i].messages, s.payload.messages;
                 if |all| <= 200 then kept == all
                 else |kept| == 200 && forall j :: 0 <= j < 200 ==> kept[j] == all[|all| - 200 + j])
  }

  lemma {:induction false} SavesWereAskedFor(codec: Codec, d: Disk, evs: seq<Event>, asked: seq<Event>)
    requires forall s :: s in d.finished ==> AskedFor(asked, s)
    requires forall w :: w in d.writers ==> AskedFor(asked, d.writers[w].save)
    ensures forall s :: s in Run(codec, d, evs).finished ==> AskedFor(asked + evs, s)
    decreases evs
  {
    hide AskedFor, TempName, PathName, Accepted, Last;
    if evs == [] {
      assert asked + evs == asked;
    } else {
      var d', more := Step(codec, d, evs[0]), asked + [evs[0]];
      forall s | AskedFor(asked, s) ensures AskedFor(more, s) { AskedForMore(asked, evs[0], s); }
      forall w | w in d'.writers ensures AskedFor(more, d'.writers[w].save) {
        SaveOf(codec, d, evs[0], w);
        if !(w in d.writers && d'.writers[w].save == d.writers[w].save) { BegunIsAskedFor(asked, evs[0]); }
      }
      FinishedOf(codec, d, evs[0]);
      SavesWereAskedFor(codec, d', evs[1..], more);
      assert more + evs[1..] == asked + evs;
    }
  }

  lemma AskedForMore(asked: seq<Event>, ev: Event, s: Save)
    requires AskedFor(asked, s)
    ensures AskedFor(asked + [ev], s)
  {
    var i :| 0 <= i < |asked| && asked[i].Begin? && s.id == asked[i].id && Accepted(asked[i].id) &&
      s.payload.updatedAt == asked[i].stamp &&
      (var all, kept := asked[i].messages, s.payload.messages;
       if |all| <= 200 then kept == all
       else |kept| == 200 && forall j :: 0 <= j < 200 ==> kept[j] == all[|all| - 200 + j]);
    assert (asked + [ev])[i] == asked[i];
  }

  function Begun(ev: Event): Save
    requires ev.Begin?
  {
    Save(ev.id, Payload(Last(MAX_PERSISTED_MESSAGES, ev.messages), ev.stamp))
  }

  lemma BegunIsAskedFor(asked: seq<Event>, ev: Event)
    requires ev.Begin? && Accepted(ev.id)
    ensures AskedFor(asked + [ev], Begun(ev))
  {
    assert (asked + [ev])[|asked|] == ev;
  }

  lemma SaveOf(codec: Codec, d: Disk, ev: Event, w: nat)
    requires w in Step(codec, d, ev).writers
    ensures var d' := Step(codec, d, ev);
            || (w in d.writers && d'.writers[w].save == d.writers[w].save)
            || (ev.Begin? && Accepted(ev.id) && d'.writers[w].save == Begun(ev))
  {
  }

  lemma FinishedOf(codec: Codec, d: Disk, ev: Event)
    ensures var d' := Step(codec, d, ev);
            || d'.finished == d.finished
            || (ev.Work? && ev.w in d.writers && d'.finished == d.finished + [d.writers[ev.w].save])
  {
  }

  /** Over every run: a finished save was begun under its accepted id, and stores the last 200 of
      the messages it was begun with. */
  lemma FinishedSavesWereAskedFor(codec: Codec, initial: Files, evs: seq<Event>)
    ensures forall s :: s in Run(codec, Disk(initial, map[], []), evs).finished ==> AskedFor(evs, s)
  {
    SavesWereAskedFor(codec, Disk(initial, map[], []), evs, []);
    assert [] + evs == evs;
  }

  /** A save that nothing disturbs finishes, and leaves its whole text under the session's name. */
  lemma UndisturbedSaveFinishes(codec: Codec, d: Disk, w: nat, ok: bool, middle: string)
    requires w in d.writers && d.writers[w].stage == Opening
    requires TempName(d.writers[w].save.id, middle) !in d.files
    ensures var s := d.writers[w].save;
            var n := |SaveText(codec, s)|;
            var d' := Run(codec, d, [Work(w, Make(middle)), Work(w, Write(n)), Work(w, Sync(ok)), Work(w, Rename)]);
            && d'.finished == d.finished + [s]
            && d'.files == d.files[PathName(s.id) := File(SaveText(codec, s), ok)]
  {
    var s, temp := d.writers[w].save, TempName(d.writers[w].save.id, middle);
    var text := SaveText(codec, s);
    var evs := [Work(w, Make(middle)), Work(w, Write(|text|)), Work(w, Sync(ok)), Work(w, Rename)];
    var d1 := Step(codec, d, evs[0]);
    var d2 := Step(codec, d1, evs[1]);
    var d3 := Step(codec, d2, evs[2]);
    var d4 := Step(codec, d3, evs[3]);
    assert text[..|text|] == text;
    assert d1.writers[w] == Writer(s, Writing(temp, 0)) && d1.files == d.files[temp := File("", false)];
    assert d2.writers[w] == Writer(s, Syncing(temp)) && d2.files == d.files[temp := File(text, false)];
    assert d3.writers[w] == Writer(s, Replacing(temp)) && d3.files == d.files[temp := File(text, ok)];
    NamesAreSafe(s.id, s.id, middle);
    assert d4.files == d.files[PathName(s.id) := File(text, ok)];
    assert evs[1..] == [evs[1], evs[2], evs[3]] && evs[1..][1..] == [evs[2], evs[3]];
    assert evs[1..][1..][1..] == [evs[3]] && evs[1..][1..][1..][1..] == [];
    assert Run(codec, d, evs) == Run(codec, d1, evs[1..]) == Run(codec, d2, evs[1..][1..])
        == Run(codec, d3, evs[1..][1..][1..]) == Run(codec, d4, []);
  }

  // ---------------------------------------------------------------- power loss

  /** A session file survives every possible loss of power exactly when it is synced or empty. */
  lemma SurvivesIffSynced(d: Disk, id: string)
    requires PathName(id) in d.files
    ensures (forall kept :: !Tears(d, PowerLoss(kept), id)) <==>
            d.files[PathName(id)].synced || d.files[PathName(id)].text == ""
  {
    if d.files[PathName(id)].text != "" {
      var kept := map[PathName(id) := 0];
      assert !d.files[PathName(id)].synced ==> Tears(d, PowerLoss(kept), id);
    }
  }

  /** Every sync of a save for the session succeeds; saves for other sessions may do as they
      like. */
  predicate SyncsSucceed(codec: Codec, d: Disk, evs: seq<Event>, id: string)
    decreases evs
  {
    || evs == []
    || (&& (evs[0].Work? && evs[0].op.Sync? && evs[0].w in d.writers && d.writers[evs[0].w].save.id == id ==>
              evs[0].op.ok)
        && SyncsSucceed(codec, Step(codec, d, evs[0]), evs[1..], id))
  }

  /** The session file is synced, and so is what is about to replace it. */
  ghost predicate Durable(d: Disk, id: string) {
    && (PathName(id) in d.files ==> d.files[PathName(id)].synced)
    && forall w :: w in d.writers && d.writers[w].save.id == id && d.writers[w].stage.Replacing? ==>
                     d.writers[w].stage.temp in d.files && d.files[d.writers[w].stage.temp].synced
  }

  lemma WorkKeepsDurable(codec: Codec, d: Disk, w: nat, op: Operation, id: string)
    requires Inv(codec, d) && Durable(d, id) && w in d.writers
    requires op.Sync? && d.writers[w].save.id == id ==> op.ok
    ensures Durable(Operated(codec, d, w, op), id)
  {
    hide TempName, PathName, WriterOk;
    var d' := Operated(codec, d, w, op);
    WorkAtPath(codec, d, w, op, id);
    forall v | v in d'.writers && d'.writers[v].save.id == id && d'.writers[v].stage.Replacing?
      ensures d'.writers[v].stage.temp in d'.files && d'.files[d'.writers[v].stage.temp].synced
    {
      if v != w { OtherTempKept(codec, d, w, op, v); }
    }
  }

  lemma OtherTempKept(codec: Codec, d: Disk, w: nat, op: Operation, v: nat)
    requires Inv(codec, d) && w in d.writers && v in d.writers && v != w && HasTemp(d.writers[v])
    ensures var d' := Operated(codec, d, w, op);
            d'.writers[v] == d.writers[v] &&
            Lookup(d'.files, d.writers[v].stage.temp) == Lookup(d.files, d.writers[v].stage.temp)
  {
    hide TempName, PathName;
    assert WriterOk(codec, d, d.writers[v]) && WriterOk(codec, d, d.writers[w]);
    PathsAreNotTemps(d.writers[w].save.id);
  }

  lemma {:induction false} DurableKept(codec: Codec, d: Disk, evs: seq<Event>, id: string)
    requires Inv(codec, d) && Durable(d, id) && SyncsSucceed(codec, d, evs, id)
    ensures NeverTorn(codec, d, evs, id)
    decreases evs
  {
    hide Inv;
    if evs != [] {
      StepKeepsInv(codec, d, evs[0]);
      if evs[0].Work? && evs[0].w in d.writers { WorkKeepsDurable(codec, d, evs[0].w, evs[0].op, id); }
      DurableKept(codec, Step(codec, d, evs[0]), evs[1..], id);
    }
  }

  /** So a session whose own syncs succeed comes through any losses of power, whatever the syncs
      of other sessions do. */
  lemma SyncedSessionsAreDurable(codec: Codec, initial: Files, evs: seq<Event>, id: string)
    requires PathName(id) in initial ==> initial[PathName(id)].synced
    requires SyncsSucceed(codec, Disk(initial, map[], []), evs, id)
    ensures AlwaysWhole(codec, initial, Disk(initial, map[], []), evs, id)
  {
    DurableKept(codec, Disk(initial, map[], []), evs, id);
    CrashSafety(codec, initial, evs, id);
  }

  /** The sync matters: one that fails is ignored, and losing power after the rename that
      follows can leave any prefix of the text in the session file. */
  lemma UnsyncedRenameIsNotDurable(codec: Codec, d: Disk, w: nat, n: nat)
    requires w in d.writers && d.writers[w].stage.Syncing? && d.writers[w].stage.temp in d.files
    requires d.files[d.writers[w].stage.temp] == File(SaveText(codec, d.writers[w].save), false)
    requires n <= |SaveText(codec, d.writers[w].save)|
    ensures var s := d.writers[w].save;
            var d' := Run(codec, d, [Work(w, Sync(false)), Work(w, Rename), PowerLoss(map[PathName(s.id) := n])]);
            d'.finished == d.finished + [s] && TextAt(d'.files, PathName(s.id)) == Some(SaveText(codec, s)[..n])
  {
    var s := d.writers[w].save;
    var evs := [Work(w, Sync(false)), Work(w, Rename), PowerLoss(map[PathName(s.id) := n])];
    var d1 := Step(codec, d, evs[0]);
    var d2 := Step(codec, d1, evs[1]);
    var d3 := Step(codec, d2, evs[2]);
    assert evs[1..] == [evs[1], evs[2]] && evs[1..][1..] == [evs[2]] && evs[1..][1..][1..] == [];
    assert Run(codec, d, evs) == Run(codec, d1, [evs[1], evs[2]]) == Run(codec, d2, [evs[2]]) == Run(codec, d3, []) by {
      assert [evs[1], evs[2]][1..] == [evs[2]] && [evs[2]][1..] == [];
    }
    assert d2.files[PathName(s.id)] == File(SaveText(codec, s), false);
  }
}
