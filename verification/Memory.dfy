/**
 Memory notes (apps/api/src/memory/memory.service.ts), their search index and its triggers
 (apps/api/src/db/memory-search-schema.ts), and the MEMORY.md file each agent reads
 (apps/api/src/workspace/workspace.service.ts). A file is its lines, without white space at
 its end; which file an agent reads is a parameter.
 */
module Memory {
  import opened Wrappers
  import opened Text
  import opened Sequences
  import opened Numbers
  import opened Bullet
  import Frames
  import Fts

  datatype Note = Note(agent: string, kind: MemoryKind, title: string, body: string, noteDate: Option<string>)

  datatype Entry = Entry(noteId: nat, title: string, body: string, kind: MemoryKind, agent: string)

  // ---------------------------------------------------------------------------
  // The index and its triggers
  // ---------------------------------------------------------------------------

  function Project(id: nat, note: Note): Entry {
    Entry(id, note.title, note.body, note.kind, note.agent)
  }

  /** DELETE ... WHERE note_id = id. */
  function Without(index: seq<Entry>, id: nat): seq<Entry> {
    if index == [] then []
    else Without(index[..|index| - 1], id) + if index[|index| - 1].noteId == id then [] else [index[|index| - 1]]
  }

  /** The entries of one note. */
  function EntriesOf(index: seq<Entry>, id: nat): seq<Entry> {
    if index == [] then []
    else EntriesOf(index[..|index| - 1], id) + if index[|index| - 1].noteId == id then [index[|index| - 1]] else []
  }

  function AfterInsert(index: seq<Entry>, id: nat, note: Note): seq<Entry> {
    index + [Project(id, note)]
  }

  function AfterUpdate(index: seq<Entry>, id: nat, note: Note): seq<Entry> {
    Without(index, id) + [Project(id, note)]
  }

  function AfterDelete(index: seq<Entry>, id: nat): seq<Entry> {
    Without(index, id)
  }

  /** The index holds one entry for each note, its projection, and nothing else. */
  ghost predicate InStep(notes: map<nat, Note>, index: seq<Entry>) {
    forall id :: EntriesOf(index, id) ==
      if id in notes then [Entry(id, notes[id].title, notes[id].body, notes[id].kind, notes[id].agent)] else []
  }

  lemma EntriesAppend(index: seq<Entry>, e: Entry, id: nat)
    ensures EntriesOf(index + [e], id) == EntriesOf(index, id) + if e.noteId == id then [e] else []
  {
    assert (index + [e])[..|index|] == index;
  }

  lemma {:induction false} EntriesWithout(index: seq<Entry>, gone: nat, id: nat)
    ensures EntriesOf(Without(index, gone), id) == if id == gone then [] else EntriesOf(index, id)
  {
    if index != [] {
      var init, last := index[..|index| - 1], index[|index| - 1];
      EntriesWithout(init, gone, id);
      if last.noteId == gone {
        assert Without(index, gone) == Without(init, gone);
      } else {
        EntriesAppend(Without(init, gone), last, id);
      }
    }
  }

  /** Each trigger keeps the index in step with the statement that fired it. */
  lemma TriggersKeepInStep(notes: map<nat, Note>, index: seq<Entry>, id: nat, note: Note)
    requires InStep(notes, index)
    ensures id !in notes ==> InStep(notes[id := note], AfterInsert(index, id, note))
    ensures InStep(notes[id := note], AfterUpdate(index, id, note))
    ensures InStep(notes - {id}, AfterDelete(index, id))
  {
    forall other: nat
      ensures id !in notes ==>
        EntriesOf(AfterInsert(index, id, note), other) ==
          if other in notes[id := note] then [Project(other, notes[id := note][other])] else []
      ensures EntriesOf(AfterUpdate(index, id, note), other) ==
              if other in notes[id := note] then [Project(other, notes[id := note][other])] else []
      ensures EntriesOf(AfterDelete(index, id), other) ==
              if other in notes - {id} then [Project(other, (notes - {id})[other])] else []
    {
      EntriesAppend(index, Project(id, note), other);
      EntriesWithout(index, id, other);
      EntriesAppend(Without(index, id), Project(id, note), other);
      assert EntriesOf(index, other) == if other in notes then [Project(other, notes[other])] else [];
    }
  }

  // ---------------------------------------------------------------------------
  // Reconciling at boot
  // ---------------------------------------------------------------------------

  datatype TableState = Missing | Matching | Mismatched | Collides

  /** The notes that are not left have been copied. */
  ghost predicate Copied(notes: map<nat, Note>, left: set<nat>, index: seq<Entry>) {
    forall id :: EntriesOf(index, id) == if id in notes && id !in left then [Project(id, notes[id])] else []
  }

  lemma CopyOneMore(notes: map<nat, Note>, left: set<nat>, index: seq<Entry>, next: nat)
    requires Copied(notes, left, index) && next in left && next in notes
    ensures Copied(notes, left - {next}, AfterInsert(index, next, notes[next]))
  {
    var e := Project(next, notes[next]);
    forall id ensures EntriesOf(index + [e], id) == EntriesOf(index, id) + if next == id then [e] else [] {
      EntriesAppend(index, e, id);
    }
    hide EntriesOf;
  }

  lemma CopiedFromNoneToAll(notes: map<nat, Note>, index: seq<Entry>)
    ensures Copied(notes, notes.Keys, [])
    ensures Copied(notes, {}, index) ==> InStep(notes, index)
  {
  }

  /** Re-copy every note into an emptied index. */
  method RebuildMemoryFts(notes: map<nat, Note>) returns (index: seq<Entry>)
    ensures InStep(notes, index)
  {
    hide Copied, InStep, AfterInsert;
    index := [];
    CopiedFromNoneToAll(notes, index);
    var left := notes.Keys;
    while left != {}
      invariant left <= notes.Keys && Copied(notes, left, index)
      decreases |left|
    {
      HasElement(left);
      var next :| next in left;
      CopyOneMore(notes, left, index, next);
      index := AfterInsert(index, next, notes[next]);
      left := left - {next};
    }
    CopiedFromNoneToAll(notes, index);
  }

  /**
   The boot's decision. Afterwards the index agrees with the notes exactly when something made
   the boot suspicious, or it agreed already: a fresh or replaced table, a missing trigger, or
   a different number of rows. `index` is what a table that is there holds.
   */
  method EnsureMemoryFts(fts5: bool, state: TableState, triggersMissing: bool, notes: map<nat, Note>, index: seq<Entry>)
    returns (available: bool, rebuilt: bool, now: seq<Entry>)
    ensures available == (fts5 && !state.Collides?)
    ensures !available ==> !rebuilt && now == index
    ensures available && !rebuilt ==> now == if state.Missing? then [] else index
    ensures available ==>
      (rebuilt <==> (
         || state.Mismatched? || |notes| != (if state.Missing? then 0 else |index|)
         || (!state.Missing? && triggersMissing)))
    ensures available ==>
      (InStep(notes, now) <==>
         state.Missing? || state.Mismatched? || triggersMissing || |notes| != |index| || InStep(notes, index))
  {
    if !fts5 || state.Collides? {
      return false, false, index;
    }
    var replaced := state.Mismatched?;
    now := if replaced || state.Missing? then [] else index;
    var outOfStep := |notes| != |now|;
    rebuilt := replaced || outOfStep || (!state.Missing? && triggersMissing);
    available := true;
    if rebuilt {
      now := RebuildMemoryFts(notes);
    } else if state.Missing? {
      NoNotes(notes);
    }
  }

  lemma NoNotes(notes: map<nat, Note>)
    requires |notes| == 0
    ensures InStep(notes, [])
  {
    assert notes.Keys == {};
  }

  /** As many rows, but not the same ones, with every trigger in place: the boot trusts an index that is wrong. */
  lemma SameCountDriftIsTrusted(note: Note)
    ensures var notes, index := map[0 := note], [Project(1, note)];
            |notes| == |index| && !InStep(notes, index)
  {
    var index := [Project(1, note)];
    EntriesAppend([], Project(1, note), 0);
    assert [] + [Project(1, note)] == index;
    assert EntriesOf(index, 0) == [];
  }

  // ---------------------------------------------------------------------------
  // The file
  // ---------------------------------------------------------------------------

  function Joined(lines: seq<string>): string {
    if lines == [] then "" else Joined(lines[..|lines| - 1]) + lines[|lines| - 1] + "\n"
  }

  predicate Contains(text: string, part: string) {
    exists i :: 0 <= i <= |text| && Fts.IncludesAt(text, part, i)
  }

  lemma ContainsExactly(text: string, part: string)
    ensures Contains(text, part) <==> exists before, after :: text == before + part + after
  {
    if i :| 0 <= i <= |text| && Fts.IncludesAt(text, part, i) {
      assert text == text[..i] + part + text[i + |part|..];
    }
    if before, after :| text == before + part + after {
      assert Fts.IncludesAt(text, part, |before|);
    }
  }

  /** Append a bullet, unless the file already contains that text anywhere. */
  function AppendMemory(file: seq<string>, bullet: string): seq<string> {
    if Contains(Joined(file), bullet) then file else file + Frames.Lines(bullet)
  }

  predicate Says(line: string, body: string) {
    ParseMemoryBullet(line).Some? && ParseMemoryBullet(line).value.body == body
  }

  /** Drop every line that reads back as this body. */
  function RemoveMemory(file: seq<string>, body: string): seq<string> {
    if file == [] then []
    else RemoveMemory(file[..|file| - 1], body) + if Says(file[|file| - 1], body) then [] else [file[|file| - 1]]
  }

  predicate FileSays(file: seq<string>, body: string) {
    exists i :: 0 <= i < |file| && Says(file[i], body)
  }

  lemma {:induction false} RemovedIsUnsaid(file: seq<string>, body: string)
    ensures !FileSays(RemoveMemory(file, body), body)
    ensures forall other :: other != body ==> (FileSays(RemoveMemory(file, body), other) <==> FileSays(file, other))
  {
    hide Says;
    if file != [] {
      var init, last := file[..|file| - 1], file[|file| - 1];
      RemovedIsUnsaid(init, body);
      assert file == init + [last];
      forall other ensures FileSays(init + [last], other) <==> FileSays(init, other) || Says(last, other) {
        SaysMore(init, last, other);
      }
      forall other
        ensures FileSays(RemoveMemory(init, body) + [last], other)
           <==> FileSays(RemoveMemory(init, body), other) || Says(last, other)
      {
        SaysMore(RemoveMemory(init, body), last, other);
      }
      SaysOne(last);
      if Says(last, body) {
        assert RemoveMemory(file, body) == RemoveMemory(init, body);
      }
    }
  }

  lemma SaysMore(file: seq<string>, line: string, body: string)
    ensures FileSays(file + [line], body) <==> FileSays(file, body) || Says(line, body)
  {
    hide Says;
    var more := file + [line];
    assert more[|file|] == line;
    assert forall i :: 0 <= i < |file| ==> more[i] == file[i];
  }

  /** A line reads back as one body at most. */
  lemma SaysOne(line: string)
    ensures forall a, b :: Says(line, a) && Says(line, b) ==> a == b
  {
  }

  lemma BulletIsOneLine(kind: MemoryKind, body: string, noteDate: string)
    requires SingleLine(body) && IsDate(noteDate)
    ensures '\n' !in FormatMemoryBullet(kind, body, noteDate)
  {
    assert '\n' !in KindName(kind);
    assert '\n' !in body;
    assert '\n' !in noteDate by {
      assert forall i :: 0 <= i < 10 ==> noteDate[i] == '-' || IsDigit(noteDate[i]);
    }
  }

  /** A well-formed note is in its file after `remember`, unless its bullet was only part of another line. */
  lemma RememberedIsWritten(file: seq<string>, kind: MemoryKind, body: string, noteDate: string)
    requires body != "" && Trimmed(body) && SingleLine(body) && IsDate(noteDate)
    ensures var bullet := FormatMemoryBullet(kind, body, noteDate);
            FileSays(AppendMemory(file, bullet), body) <==> FileSays(file, body) || !Contains(Joined(file), bullet)
  {
    hide ParseMemoryBullet, FormatMemoryBullet, FileSays, Contains, IsDate;
    var bullet := FormatMemoryBullet(kind, body, noteDate);
    RoundTrip(kind, body, noteDate);
    BulletIsOneLine(kind, body, noteDate);
    Frames.OneLine(bullet);
    SaysMore(file, bullet, body);
  }

  /** Such a line: the same note with the date written out in its body. The shorter note then never reaches the file. */
  lemma BulletInsideAnother(kind: MemoryKind, body: string, noteDate: string)
    requires body != "" && Trimmed(body) && SingleLine(body) && IsDate(noteDate)
    ensures var bullet := FormatMemoryBullet(kind, body, noteDate);
            var line := FormatMemoryBullet(kind, body + DateText(noteDate), noteDate);
            AppendMemory([line], bullet) == [line] && !FileSays([line], body)
  {
    hide ParseMemoryBullet, IsDate, SingleLine, Trimmed;
    var longer := body + DateText(noteDate);
    var bullet, line := FormatMemoryBullet(kind, body, noteDate), FormatMemoryBullet(kind, longer, noteDate);
    LongerBody(body, noteDate);
    RoundTrip(kind, longer, noteDate);
    Reassociate(kind, body, noteDate);
    hide FormatMemoryBullet, DateText;
    LineHoldsItsStart(bullet, DateText(noteDate));
  }

  lemma Reassociate(kind: MemoryKind, body: string, noteDate: string)
    ensures FormatMemoryBullet(kind, body + DateText(noteDate), noteDate) ==
            FormatMemoryBullet(kind, body, noteDate) + DateText(noteDate)
  {
  }

  lemma LineHoldsItsStart(start: string, more: string)
    ensures Contains(Joined([start + more]), start)
  {
    var line := start + more;
    assert [line][..0] == [] && Joined([line]) == line + "\n";
    assert (line + "\n")[0..0 + |start|] == start;
    assert Fts.IncludesAt(Joined([line]), start, 0);
  }

  lemma LongerBody(body: string, noteDate: string)
    requires body != "" && Trimmed(body) && SingleLine(body) && IsDate(noteDate)
    ensures var longer := body + DateText(noteDate); Trimmed(longer) && SingleLine(longer) && longer != body
  {
    var longer := body + DateText(noteDate);
    assert longer[0] == body[0] && longer[|longer| - 1] == ')';
    assert forall i :: 0 <= i < 10 ==> noteDate[i] == '-' || IsDigit(noteDate[i]);
    hide IsDate;
    var tail := DateText(noteDate);
    assert SingleLine(tail);
    forall i | 0 <= i < |longer| ensures !IsLineEnd(longer[i]) {
      assert longer[i] == if i < |body| then body[i] else tail[i - |body|];
    }
  }

  /** Every bullet of a file, in order. */
  function Bullets(lines: seq<string>): seq<MemoryBullet> {
    if lines == [] then []
    else
      var last := ParseMemoryBullet(lines[|lines| - 1]);
      Bullets(lines[..|lines| - 1]) + if last.Some? then [last.value] else []
  }

  method ParseMemoryBullets(lines: seq<string>) returns (bullets: seq<MemoryBullet>)
    ensures bullets == Bullets(lines)
  {
    hide ParseMemoryBullet;
    bullets := [];
    assert lines[..0] == [];
    for i := 0 to |lines|
      invariant bullets == Bullets(lines[..i])
    {
      assert lines[..i + 1][..i] == lines[..i];
      var bullet := ParseMemoryBullet(lines[i]);
      if bullet.Some? {
        bullets := bullets + [bullet.value];
      }
    }
    assert lines[..|lines|] == lines;
  }

  predicate Lists(bullets: seq<MemoryBullet>, body: string) {
    exists k :: 0 <= k < |bullets| && bullets[k].body == body
  }

  lemma ListsMore(bullets: seq<MemoryBullet>, bullet: MemoryBullet, body: string)
    ensures Lists(bullets + [bullet], body) <==> Lists(bullets, body) || bullet.body == body
  {
    var more := bullets + [bullet];
    assert more[|bullets|] == bullet;
    assert forall k :: 0 <= k < |bullets| ==> more[k] == bullets[k];
  }

  lemma {:induction false} BulletsSay(lines: seq<string>, body: string)
    ensures Lists(Bullets(lines), body) <==> FileSays(lines, body)
  {
    hide ParseMemoryBullet, Lists, FileSays;
    if lines == [] {
      NothingSaid(body);
    } else {
      var init, last := lines[..|lines| - 1], lines[|lines| - 1];
      BulletsSay(init, body);
      assert lines == init + [last];
      SaysMore(init, last, body);
      if ParseMemoryBullet(last).Some? {
        ListsMore(Bullets(init), ParseMemoryBullet(last).value, body);
      } else {
        assert Bullets(lines) == Bullets(init);
      }
    }
  }

  lemma NothingSaid(body: string)
    ensures !Lists([], body) && !FileSays([], body)
  {
  }

  // ---------------------------------------------------------------------------
  // The service
  // ---------------------------------------------------------------------------

  datatype State = State(notes: map<nat, Note>, index: seq<Entry>, files: map<string, seq<string>>, next: nat)

  function FileAt(s: State, path: string): seq<string> {
    if path in s.files then s.files[path] else []
  }

  predicate HasBody(notes: map<nat, Note>, agent: string, body: string) {
    exists id :: id in notes && notes[id].agent == agent && notes[id].body == body
  }

  /** INSERT INTO memory_notes, and the trigger it fires. */
  function Insert(s: State, note: Note): State {
    s.(notes := s.notes[s.next := note], index := AfterInsert(s.index, s.next, note), next := s.next + 1)
  }

  function AfterRemember(s: State, path: string, note: Note, noteDate: string): State {
    if HasBody(s.notes, note.agent, note.body) then s
    else
      Insert(s, note.(noteDate := Some(noteDate)))
        .(files := s.files[path := AppendMemory(FileAt(s, path), FormatMemoryBullet(note.kind, note.body, noteDate))])
  }

  function AfterForget(s: State, path: string, agent: string, id: nat): State {
    if id !in s.notes || s.notes[id].agent != agent then s
    else
      s.(notes := s.notes - {id}, index := AfterDelete(s.index, id),
         files := s.files[path := RemoveMemory(FileAt(s, path), s.notes[id].body)])
  }

  function TitleOf(body: string): string {
    if |body| > 52 then body[..52] + "\U{2026}" else body
  }

  function ImportBullet(s: State, agent: string, b: MemoryBullet): State {
    if HasBody(s.notes, agent, b.body) then s
    else Insert(s, Note(agent, b.kind, TitleOf(b.body), b.body, b.noteDate))
  }

  function ImportBullets(s: State, agent: string, bullets: seq<MemoryBullet>): State {
    if bullets == [] then s
    else ImportBullet(ImportBullets(s, agent, bullets[..|bullets| - 1]), agent, bullets[|bullets| - 1])
  }

  lemma NoBullets(s: State, agent: string, bullets: seq<MemoryBullet>)
    ensures ImportBullets(s, agent, bullets[..0]) == s
  {
  }

  lemma NextBullet(s: State, agent: string, bullets: seq<MemoryBullet>, i: nat)
    requires i < |bullets|
    ensures ImportBullets(s, agent, bullets[..i + 1])
            == ImportBullet(ImportBullets(s, agent, bullets[..i]), agent, bullets[i])
  {
    hide ImportBullet;
    assert bullets[..i + 1][..i] == bullets[..i];
  }

  function AfterImport(s: State, path: string, agent: string): State {
    ImportBullets(s, agent, Bullets(FileAt(s, path)))
  }

  // ---------------------------------------------------------------------------
  // What every run keeps
  // ---------------------------------------------------------------------------

  ghost predicate OneRowPerBody(notes: map<nat, Note>) {
    forall a, b :: a in notes && b in notes && notes[a].agent == notes[b].agent && notes[a].body == notes[b].body ==>
      a == b
  }

  ghost predicate Agrees(s: State) {
    && InStep(s.notes, s.index) && OneRowPerBody(s.notes)
    && forall id :: id in s.notes ==> id < s.next
  }

  lemma InsertAgrees(s: State, note: Note)
    requires Agrees(s) && !HasBody(s.notes, note.agent, note.body)
    ensures Agrees(Insert(s, note))
    ensures forall agent, body ::
              HasBody(Insert(s, note).notes, agent, body) <==>
              HasBody(s.notes, agent, body) || (agent == note.agent && body == note.body)
  {
    hide InStep;
    TriggersKeepInStep(s.notes, s.index, s.next, note);
    var t := Insert(s, note);
    assert t.notes[s.next] == note;
    assert forall id :: id in s.notes ==> id in t.notes && t.notes[id] == s.notes[id];
  }

  lemma ForgetAgrees(s: State, path: string, agent: string, id: nat)
    requires Agrees(s) && id in s.notes && s.notes[id].agent == agent
    ensures Agrees(AfterForget(s, path, agent, id))
    ensures forall other, body :: HasBody(AfterForget(s, path, agent, id).notes, other, body) <==> (
              HasBody(s.notes, other, body) && (other != agent || body != s.notes[id].body))
  {
    hide InStep, RemoveMemory;
    TriggersKeepInStep(s.notes, s.index, id, s.notes[id]);
    var t := AfterForget(s, path, agent, id);
    assert forall other :: other in t.notes <==> other in s.notes && other != id;
    assert forall other :: other in t.notes ==> t.notes[other] == s.notes[other];
  }

  /** Importing adds exactly the bodies the bullets list, changes no file and no row that is there. */
  lemma {:induction false} ImportAdds(s: State, agent: string, bullets: seq<MemoryBullet>)
    requires Agrees(s)
    ensures var t := ImportBullets(s, agent, bullets);
            && Agrees(t) && t.files == s.files
            && (forall id :: id in s.notes ==> id in t.notes && t.notes[id] == s.notes[id])
            && (forall other, body ::
                  HasBody(t.notes, other, body) <==>
                  HasBody(s.notes, other, body) || (other == agent && Lists(bullets, body)))
  {
    hide HasBody, Lists, InStep, OneRowPerBody;
    if bullets == [] {
      forall body ensures !Lists(bullets, body) {
        NothingSaid(body);
      }
    } else {
      var init, last := bullets[..|bullets| - 1], bullets[|bullets| - 1];
      ImportAdds(s, agent, init);
      var t := ImportBullets(s, agent, init);
      assert bullets == init + [last];
      forall body ensures Lists(bullets, body) <==> Lists(init, body) || last.body == body {
        ListsMore(init, last, body);
      }
      if !HasBody(t.notes, agent, last.body) {
        InsertAgrees(t, Note(agent, last.kind, TitleOf(last.body), last.body, last.noteDate));
      }
    }
  }

  /** A row an import adds is one of the bullets, under its agent. */
  lemma {:induction false} ImportedRowsAreBullets(s: State, agent: string, bullets: seq<MemoryBullet>, id: nat)
    requires Agrees(s) && id in ImportBullets(s, agent, bullets).notes && id !in s.notes
    ensures var note := ImportBullets(s, agent, bullets).notes[id];
            exists b :: b in bullets && note == Note(agent, b.kind, TitleOf(b.body), b.body, b.noteDate)
  {
    hide HasBody, Agrees;
    if |bullets| > 0 {
      var init, last := bullets[..|bullets| - 1], bullets[|bullets| - 1];
      var t := ImportBullets(s, agent, init);
      assert last in bullets && forall b :: b in init ==> b in bullets;
      if id in t.notes {
        ImportedRowsAreBullets(s, agent, init, id);
        ImportAdds(s, agent, init);
        RowsStay(t, agent, last, id);
      }
    }
  }

  lemma RowsStay(s: State, agent: string, b: MemoryBullet, id: nat)
    requires Agrees(s) && id in s.notes
    ensures id in ImportBullet(s, agent, b).notes && ImportBullet(s, agent, b).notes[id] == s.notes[id]
  {
    hide HasBody;
  }

  lemma {:induction false} NothingToImport(s: State, agent: string, bullets: seq<MemoryBullet>)
    requires forall body :: Lists(bullets, body) ==> HasBody(s.notes, agent, body)
    ensures ImportBullets(s, agent, bullets) == s
  {
    hide HasBody, Lists;
    if bullets != [] {
      var init, last := bullets[..|bullets| - 1], bullets[|bullets| - 1];
      assert bullets == init + [last];
      forall body ensures Lists(bullets, body) <==> Lists(init, body) || last.body == body {
        ListsMore(init, last, body);
      }
      NothingToImport(s, agent, init);
    }
  }

  /**
   A note that is new to its agent gets a row of its own; its file keeps what it said and, short of
   a containing line, says it too.
   */
  lemma RememberedIsKnown(s: State, path: string, note: Note, noteDate: string)
    requires Agrees(s) && !HasBody(s.notes, note.agent, note.body)
    requires note.body != "" && Trimmed(note.body) && SingleLine(note.body) && IsDate(noteDate)
    ensures
      var t, before := AfterRemember(s, path, note, noteDate), FileAt(s, path);
      && s.next in t.notes && t.notes[s.next] == note.(noteDate := Some(noteDate))
      && (forall body :: FileSays(before, body) ==> FileSays(FileAt(t, path), body))
      && (FileSays(FileAt(t, path), note.body) <==>
            FileSays(before, note.body)
              || !Contains(Joined(before), FormatMemoryBullet(note.kind, note.body, noteDate)))
  {
    hide ParseMemoryBullet, FormatMemoryBullet, Agrees, HasBody, Contains, IsDate, FileSays;
    var before, bullet := FileAt(s, path), FormatMemoryBullet(note.kind, note.body, noteDate);
    RememberedIsWritten(before, note.kind, note.body, noteDate);
    BulletIsOneLine(note.kind, note.body, noteDate);
    Frames.OneLine(bullet);
    forall body ensures FileSays(before, body) ==> FileSays(before + [bullet], body) {
      SaysMore(before, bullet, body);
    }
  }

  /** Importing the same file again changes nothing. */
  lemma ImportTwice(s: State, path: string, agent: string)
    requires Agrees(s)
    ensures AfterImport(AfterImport(s, path, agent), path, agent) == AfterImport(s, path, agent)
  {
    hide HasBody, Lists, Bullets, Agrees;
    var bullets := Bullets(FileAt(s, path));
    ImportAdds(s, agent, bullets);
    NothingToImport(AfterImport(s, path, agent), agent, bullets);
  }

  /** What an agent knows after an import: what it knew, and what its file says. */
  lemma ImportReadsTheFile(s: State, path: string, agent: string, other: string, body: string)
    requires Agrees(s)
    ensures HasBody(AfterImport(s, path, agent).notes, other, body)
      <==> HasBody(s.notes, other, body) || (other == agent && FileSays(FileAt(s, path), body))
  {
    hide HasBody, Lists, Bullets, Agrees, FileSays;
    ImportAdds(s, agent, Bullets(FileAt(s, path)));
    BulletsSay(FileAt(s, path), body);
  }

  // ---------------------------------------------------------------------------
  // Notes made through the API
  // ---------------------------------------------------------------------------

  /** Every run of white space becomes one space. */
  function Collapse(s: string): string {
    if s == "" then ""
    else if !IsSpace(s[0]) then [s[0]] + Collapse(s[1..])
    else if |s| > 1 && IsSpace(s[1]) then Collapse(s[1..])
    else " " + Collapse(s[1..])
  }

  /** The words of a text: its runs without white space. */
  function WordsOf(s: string): seq<string> {
    Fts.Words(c => !IsSpace(c), s)
  }

  /** Words with one space between them. */
  function Spaced(words: seq<string>): string {
    if words == [] then "" else if |words| == 1 then words[0] else words[0] + " " + Spaced(words[1..])
  }

  function LeadingSpace(s: string): string {
    if s != "" && IsSpace(s[0]) then " " else ""
  }

  function TrailingSpace(s: string): string {
    if WordsOf(s) != [] && IsSpace(s[|s| - 1]) then " " else ""
  }

  lemma {:induction false} CollapseRun(s: string, n: nat)
    requires n <= |s| && forall i :: 0 <= i < n ==> !IsSpace(s[i])
    ensures Collapse(s) == s[..n] + Collapse(s[n..])
  {
    hide IsSpace;
    if n > 0 {
      CollapseRun(s[1..], n - 1);
      assert s[1..][n - 1..] == s[n..] && [s[0]] + s[1..][..n - 1] == s[..n];
    } else {
      assert s[0..] == s;
    }
  }

  lemma WordsFromSpace(s: string)
    requires s != "" && IsSpace(s[0])
    ensures WordsOf(s) == WordsOf(s[1..])
  {
    hide IsSpace;
  }

  lemma WordsFromWord(s: string) returns (n: nat)
    requires s != "" && !IsSpace(s[0])
    ensures 0 < n <= |s| && (forall i :: 0 <= i < n ==> !IsSpace(s[i])) && (n < |s| ==> IsSpace(s[n]))
    ensures WordsOf(s) == [s[..n]] + WordsOf(s[n..])
  {
    hide IsSpace;
    var isWord := c => !IsSpace(c);
    n := Fts.RunLength(isWord, s);
    Fts.RunIsOfWords(isWord, s);
    Fts.RunIsAWord(isWord, s);
  }

  lemma {:induction false} NoWordsIsBlank(s: string)
    requires WordsOf(s) == []
    ensures Blank(s)
  {
    hide IsSpace;
    if s != "" {
      if IsSpace(s[0]) {
        WordsFromSpace(s);
        NoWordsIsBlank(s[1..]);
        SplitFirst(s);
        BlankJoin([s[0]], s[1..]);
      } else {
        var n := WordsFromWord(s);
      }
    }
  }

  lemma SpaceCollapses(s: string)
    requires s != "" && IsSpace(s[0])
    ensures Collapse(s) == if |s| > 1 && IsSpace(s[1]) then Collapse(s[1..]) else " " + Collapse(s[1..])
  {
  }

  lemma TrailingSpaceStays(s: string)
    requires s != "" && IsSpace(s[0])
    ensures TrailingSpace(s) == TrailingSpace(s[1..])
  {
    WordsFromSpace(s);
    hide IsSpace, WordsOf;
    if |s| == 1 {
      NothingHasNoWords();
      assert s[1..] == "";
    }
  }

  lemma OneMoreSpace(s: string)
    requires s != "" && IsSpace(s[0])
    requires Collapse(s[1..]) == LeadingSpace(s[1..]) + Spaced(WordsOf(s[1..])) + TrailingSpace(s[1..])
    ensures Collapse(s) == LeadingSpace(s) + Spaced(WordsOf(s)) + TrailingSpace(s)
  {
    WordsFromSpace(s);
    SpaceCollapses(s);
    TrailingSpaceStays(s);
    hide IsSpace, WordsOf, Collapse, Spaced, TrailingSpace;
    var words, end := Spaced(WordsOf(s)), TrailingSpace(s);
    assert LeadingSpace(s) == " ";
    if |s| == 1 || !IsSpace(s[1]) {
      assert LeadingSpace(s[1..]) == "";
      assert "" + words == words;
      Associative(" ", words, end);
    }
  }

  /** Collapsing keeps the words, one space between them, and at most one at either end. */
  lemma {:induction false} CollapseKeepsWords(s: string)
    ensures Collapse(s) == LeadingSpace(s) + Spaced(WordsOf(s)) + TrailingSpace(s)
    decreases |s|
  {
    if s == "" {
      NothingHasNoWords();
    } else if IsSpace(s[0]) {
      CollapseKeepsWords(s[1..]);
      OneMoreSpace(s);
    } else {
      var n := WordsFromWord(s);
      CollapseRun(s, n);
      CollapseKeepsWords(s[n..]);
      hide IsSpace, WordsOf, Collapse, Spaced, LeadingSpace, TrailingSpace;
      OneMoreWord(s, n);
    }
  }

  lemma NothingHasNoWords()
    ensures WordsOf("") == []
  {
  }

  lemma WordsFollow(s: string, n: nat)
    requires n <= |s|
    ensures WordsOf(s[n..]) != [] ==> n < |s|
  {
    if n == |s| {
      assert s[n..] == "";
      NothingHasNoWords();
    }
  }

  lemma OneMoreWord(s: string, n: nat)
    requires 0 < n <= |s| && !IsSpace(s[0]) && (n < |s| ==> IsSpace(s[n])) && !IsSpace(s[n - 1])
    requires WordsOf(s) == [s[..n]] + WordsOf(s[n..])
    ensures s[..n] + (LeadingSpace(s[n..]) + Spaced(WordsOf(s[n..])) + TrailingSpace(s[n..]))
         == LeadingSpace(s) + Spaced(WordsOf(s)) + TrailingSpace(s)
  {
    hide IsSpace, WordsOf;
    var rest := WordsOf(s[n..]);
    if rest == [] {
      NoWordsIsBlank(s[n..]);
      if n < |s| {
        assert IsSpace(s[n..][|s| - n - 1]);
      }
    } else {
      WordsFollow(s, n);
      assert WordsOf(s)[1..] == rest;
    }
  }

  /** A created body is the words it was given, with one space between them. */
  lemma CreatedBodyIsItsWords(raw: string)
    ensures CreatedBody(raw) == Spaced(WordsOf(raw))
  {
    hide Collapse, WordsOf;
    CollapseKeepsWords(raw);
    SpacedIsTrimmed(raw);
    TrimDrops(LeadingSpace(raw), Spaced(WordsOf(raw)), TrailingSpace(raw));
  }

  lemma {:induction false} SpacedIsTrimmed(s: string)
    ensures Trimmed(Spaced(WordsOf(s))) && (WordsOf(s) != [] ==> Spaced(WordsOf(s)) != "")
    decreases |s|
  {
    hide IsSpace, WordsOf;
    if s == "" {
      NothingHasNoWords();
    } else if IsSpace(s[0]) {
      WordsFromSpace(s);
      SpacedIsTrimmed(s[1..]);
    } else {
      var n := WordsFromWord(s);
      SpacedIsTrimmed(s[n..]);
      assert WordsOf(s)[1..] == WordsOf(s[n..]);
    }
  }

  /** A created note keeps the title it is given; without one it shows the body, or its first 52 characters. */
  lemma CreatedTitles(agent: string, kind: MemoryKind, title: string, raw: string)
    ensures var note := CreatedNote(agent, kind, title, raw);
            && note.agent == agent && note.kind == kind && note.body == Spaced(WordsOf(raw)) && note.noteDate == None
            && (title != "" ==> note.title == title)
            && (title == "" && |note.body| <= 52 ==> note.title == note.body)
            && (title == "" && |note.body| > 52 ==>
                  |note.title| == 53 && note.title[..52] == note.body[..52] && note.title[52] == '\U{2026}')
  {
    CreatedBodyIsItsWords(raw);
  }

  lemma {:induction false} CollapsedIsOneLine(s: string)
    ensures SingleLine(Collapse(s))
    ensures Blank(Collapse(s)) ==> Blank(s)
  {
    if s != "" {
      CollapsedIsOneLine(s[1..]);
      var rest := Collapse(s[1..]);
      if !IsSpace(s[0]) {
        assert Collapse(s)[0] == s[0];
      } else {
        BlankJoin(" ", rest);
      }
    }
  }

  predicate IsClean(body: string, noteDate: string) {
    body != "" && Trimmed(body) && SingleLine(body) && IsDate(noteDate)
  }

  function CreatedBody(raw: string): string {
    Trim(Collapse(raw))
  }

  /** The note `create` remembers; a title left empty is cut from the body. */
  function CreatedNote(agent: string, kind: MemoryKind, title: string, raw: string): Note {
    var body := CreatedBody(raw);
    Note(agent, kind, if title != "" then title else TitleOf(body), body, None)
  }

  lemma CreatedBodiesAreClean(raw: string, noteDate: string)
    requires !Blank(raw) && IsDate(noteDate)
    ensures IsClean(CreatedBody(raw), noteDate)
  {
    hide Trim, IsDate;
    var s := Collapse(raw);
    CollapsedIsOneLine(raw);
    TrimKeepsSingleLine(s);
    OnlyBlankTrimsAway(s);
  }

  /** What `create` stores is always printed and read back as itself. */
  lemma CreatedBodiesRoundTrip(kind: MemoryKind, raw: string, noteDate: string)
    requires !Blank(raw) && IsDate(noteDate)
    ensures ParseMemoryBullet(FormatMemoryBullet(kind, CreatedBody(raw), noteDate))
         == Some(MemoryBullet(kind, CreatedBody(raw), Some(noteDate)))
  {
    hide ParseMemoryBullet, FormatMemoryBullet, IsDate, CreatedBody;
    CreatedBodiesAreClean(raw, noteDate);
    RoundTrip(kind, CreatedBody(raw), noteDate);
  }

  lemma OnlyBlankTrimsAway(s: string)
    ensures Trim(s) == "" ==> Blank(s)
  {
    var r := TrimStart(s);
    TrimStartSplits(s);
    TrimEndSplits(r);
    hide TrimStart, TrimEnd;
    if Trim(s) == "" {
      assert r[|TrimEnd(r)|..] == r;
      var before := s[..|s| - |r|];
      assert s == before + r;
      BlankJoin(before, r);
    }
  }

  // ---------------------------------------------------------------------------
  // Runs
  // ---------------------------------------------------------------------------

  datatype Event =
    | Remembered(note: Note, noteDate: string)
    | Created(agent: string, kind: MemoryKind, title: string, raw: string, noteDate: string)
    | Forgotten(agent: string, id: nat)
    | Imported(agent: string)

  /** One operation; `paths` says which MEMORY.md an agent reads. */
  function Step(paths: string -> string, s: State, e: Event): State {
    match e
    case Remembered(note, noteDate) => AfterRemember(s, paths(note.agent), note, noteDate)
    case Created(agent, kind, title, raw, noteDate) =>
      AfterRemember(s, paths(agent), CreatedNote(agent, kind, title, raw), noteDate)
    case Forgotten(agent, id) => AfterForget(s, paths(agent), agent, id)
    case Imported(agent) => AfterImport(s, paths(agent), agent)
  }

  function Run(paths: string -> string, start: State, events: seq<Event>): State {
    if events == [] then start
    else Step(paths, Run(paths, start, events[..|events| - 1]), events[|events| - 1])
  }

  lemma RunGoesOn(paths: string -> string, start: State, events: seq<Event>, e: Event)
    ensures Run(paths, start, []) == start
    ensures Run(paths, start, events + [e]) == Step(paths, Run(paths, start, events), e)
  {
    hide Step;
    assert (events + [e])[..|events|] == events;
  }

  lemma RememberAgrees(s: State, path: string, note: Note, noteDate: string)
    requires Agrees(s)
    ensures Agrees(AfterRemember(s, path, note, noteDate))
    ensures forall agent, body :: HasBody(AfterRemember(s, path, note, noteDate).notes, agent, body) <==> (
              HasBody(s.notes, agent, body) || (agent == note.agent && body == note.body))
  {
    hide InStep, OneRowPerBody, HasBody, AppendMemory;
    if !HasBody(s.notes, note.agent, note.body) {
      InsertAgrees(s, note.(noteDate := Some(noteDate)));
    }
  }

  lemma StepAgrees(paths: string -> string, s: State, e: Event)
    requires Agrees(s)
    ensures Agrees(Step(paths, s, e))
  {
    hide InStep, OneRowPerBody, HasBody, AppendMemory, RemoveMemory, Bullets, CreatedNote;
    match e {
      case Remembered(note, noteDate) => RememberAgrees(s, paths(note.agent), note, noteDate);
      case Created(agent, kind, title, raw, noteDate) =>
        RememberAgrees(s, paths(agent), CreatedNote(agent, kind, title, raw), noteDate);
      case Forgotten(agent, id) =>
        if id in s.notes && s.notes[id].agent == agent {
          ForgetAgrees(s, paths(agent), agent, id);
        }
      case Imported(agent) =>
        ImportAdds(s, agent, Bullets(FileAt(s, paths(agent))));
    }
  }

  /** Over any run from an agreeing start: one row per body and agent, and the index is the table's projection. */
  lemma {:induction false} EveryRunAgrees(paths: string -> string, start: State, events: seq<Event>)
    requires Agrees(start)
    ensures Agrees(Run(paths, start, events))
  {
    hide Agrees, Step;
    if events != [] {
      EveryRunAgrees(paths, start, events[..|events| - 1]);
      StepAgrees(paths, Run(paths, start, events[..|events| - 1]), events[|events| - 1]);
    }
  }

  /** Neither the table nor the file an agent reads has this body. */
  ghost predicate IsForgotten(paths: string -> string, s: State, agent: string, body: string) {
    !HasBody(s.notes, agent, body) && !FileSays(FileAt(s, paths(agent)), body)
  }

  lemma ForgetForgets(paths: string -> string, s: State, agent: string, id: nat)
    requires Agrees(s) && id in s.notes && s.notes[id].agent == agent
    ensures IsForgotten(paths, AfterForget(s, paths(agent), agent, id), agent, s.notes[id].body)
  {
    hide HasBody, FileSays, Agrees, RemoveMemory;
    ForgetAgrees(s, paths(agent), agent, id);
    RemovedIsUnsaid(FileAt(s, paths(agent)), s.notes[id].body);
  }

  /** Remembering this note makes the agent know the body, or writes it into the file the agent reads. */
  predicate Brings(paths: string -> string, note: Note, noteDate: string, agent: string, body: string) {
    || (note.agent == agent && note.body == body)
    || (paths(note.agent) == paths(agent)
      && FileSays(Frames.Lines(FormatMemoryBullet(note.kind, note.body, noteDate)), body))
  }

  /** A well-formed note brings its own body only, to its agent and to those who read the same file. */
  lemma CleanNotesBringThemselves(paths: string -> string, note: Note, noteDate: string, agent: string, body: string)
    requires IsClean(note.body, noteDate)
    ensures Brings(paths, note, noteDate, agent, body)
            <==> note.body == body && (note.agent == agent || paths(note.agent) == paths(agent))
  {
    hide FormatMemoryBullet, ParseMemoryBullet, IsDate, SingleLine, Trimmed;
    var bullet := FormatMemoryBullet(note.kind, note.body, noteDate);
    BulletIsOneLine(note.kind, note.body, noteDate);
    Frames.OneLine(bullet);
    RoundTrip(note.kind, note.body, noteDate);
    assert [bullet][0] == bullet;
    assert FileSays([bullet], body) <==> Says(bullet, body);
  }

  /** The event that may bring a body back. */
  predicate MayBring(paths: string -> string, e: Event, agent: string, body: string) {
    || (e.Remembered? && Brings(paths, e.note, e.noteDate, agent, body))
    || (e.Created? && Brings(paths, CreatedNote(e.agent, e.kind, e.title, e.raw), e.noteDate, agent, body))
  }

  lemma SaysAppend(a: seq<string>, b: seq<string>, body: string)
    ensures FileSays(a + b, body) <==> FileSays(a, body) || FileSays(b, body)
  {
    hide Says;
    var all := a + b;
    forall i | 0 <= i < |a| ensures all[i] == a[i] {
    }
    forall i | 0 <= i < |b| ensures all[|a| + i] == b[i] {
    }
    forall i | 0 <= i < |all| && Says(all[i], body) ensures FileSays(a, body) || FileSays(b, body) {
      if i >= |a| {
        assert b[i - |a|] == all[i];
      }
    }
  }

  lemma RememberingSpares(paths: string -> string, s: State, agent: string, body: string, note: Note, noteDate: string)
    requires Agrees(s) && IsForgotten(paths, s, agent, body) && !Brings(paths, note, noteDate, agent, body)
    ensures IsForgotten(paths, AfterRemember(s, paths(note.agent), note, noteDate), agent, body)
  {
    hide HasBody, FileSays, Agrees, Contains, FormatMemoryBullet;
    RememberAgrees(s, paths(note.agent), note, noteDate);
    SaysAppend(FileAt(s, paths(note.agent)), Frames.Lines(FormatMemoryBullet(note.kind, note.body, noteDate)), body);
  }

  lemma StaysForgotten(paths: string -> string, s: State, agent: string, body: string, e: Event)
    requires Agrees(s) && IsForgotten(paths, s, agent, body) && !MayBring(paths, e, agent, body)
    ensures IsForgotten(paths, Step(paths, s, e), agent, body)
  {
    hide HasBody, FileSays, InStep, OneRowPerBody, RemoveMemory, Bullets, Brings, AfterRemember, CreatedNote;
    match e {
      case Remembered(note, noteDate) => RememberingSpares(paths, s, agent, body, note, noteDate);
      case Created(other, kind, title, raw, noteDate) =>
        RememberingSpares(paths, s, agent, body, CreatedNote(other, kind, title, raw), noteDate);
        CreatedNoteIsOf(other, kind, title, raw);
      case Forgotten(other, id) =>
        if id in s.notes && s.notes[id].agent == other {
          ForgetAgrees(s, paths(other), other, id);
          RemovedIsUnsaid(FileAt(s, paths(other)), s.notes[id].body);
        }
      case Imported(other) =>
        ImportReadsTheFile(s, paths(other), other, agent, body);
        ImportAdds(s, other, Bullets(FileAt(s, paths(other))));
    }
  }

  lemma CreatedNoteIsOf(agent: string, kind: MemoryKind, title: string, raw: string)
    ensures CreatedNote(agent, kind, title, raw).agent == agent
    ensures CreatedNote(agent, kind, title, raw).body == CreatedBody(raw)
  {
  }

  /** A forgotten body does not come back over any run, unless a note that brings it is remembered. */
  lemma {:induction false} ForgottenStaysForgotten(paths: string -> string, s: State, agent: string, id: nat,
                                                   more: seq<Event>)
    requires Agrees(s) && id in s.notes && s.notes[id].agent == agent
    requires forall e :: e in more ==> !MayBring(paths, e, agent, s.notes[id].body)
    ensures IsForgotten(paths, Run(paths, AfterForget(s, paths(agent), agent, id), more), agent, s.notes[id].body)
  {
    hide Agrees, IsForgotten, Step, AfterForget, MayBring;
    var start := AfterForget(s, paths(agent), agent, id);
    if more == [] {
      ForgetForgets(paths, s, agent, id);
    } else {
      var init, last := more[..|more| - 1], more[|more| - 1];
      ForgottenStaysForgotten(paths, s, agent, id, init);
      StepAgrees(paths, s, Forgotten(agent, id));
      assert Step(paths, s, Forgotten(agent, id)) == start by {
        ForgettingIsAStep(paths, s, agent, id);
      }
      EveryRunAgrees(paths, start, init);
      StaysForgotten(paths, Run(paths, start, init), agent, s.notes[id].body, last);
    }
  }

  /** As its callers use it: well-formed notes with other bodies may be remembered and created in between. */
  predicate Spares(e: Event, body: string) {
    && (e.Remembered? ==> IsClean(e.note.body, e.noteDate) && e.note.body != body)
    && (e.Created? ==> !Blank(e.raw) && IsDate(e.noteDate) && CreatedBody(e.raw) != body)
  }

  lemma OtherNotesSpare(paths: string -> string, s: State, agent: string, id: nat, more: seq<Event>)
    requires Agrees(s) && id in s.notes && s.notes[id].agent == agent
    requires forall e :: e in more ==> Spares(e, s.notes[id].body)
    ensures IsForgotten(paths, Run(paths, AfterForget(s, paths(agent), agent, id), more), agent, s.notes[id].body)
  {
    hide Agrees, IsForgotten, Run, AfterForget, IsDate, Blank, CreatedBody, CreatedNote, Brings, IsClean;
    var body := s.notes[id].body;
    forall e | e in more ensures !MayBring(paths, e, agent, body) {
      assert Spares(e, body);
      if e.Remembered? {
        CleanNotesBringThemselves(paths, e.note, e.noteDate, agent, body);
      } else if e.Created? {
        CreatedBodiesAreClean(e.raw, e.noteDate);
        CreatedNoteIsOf(e.agent, e.kind, e.title, e.raw);
        CleanNotesBringThemselves(paths, CreatedNote(e.agent, e.kind, e.title, e.raw), e.noteDate, agent, body);
      }
    }
    ForgottenStaysForgotten(paths, s, agent, id, more);
  }

  lemma ForgettingIsAStep(paths: string -> string, s: State, agent: string, id: nat)
    ensures Step(paths, s, Forgotten(agent, id)) == AfterForget(s, paths(agent), agent, id)
  {
  }

  // ---------------------------------------------------------------------------
  // The tables and files as they change
  // ---------------------------------------------------------------------------

  class MemoryService {
    var notes: map<nat, Note>
    var index: seq<Entry>
    var files: map<string, seq<string>>
    var next: nat

    ghost function Now(): State
      reads this
    {
      State(notes, index, files, next)
    }

    ghost predicate Valid()
      reads this
    {
      Agrees(Now())
    }

    constructor (files: map<string, seq<string>>)
      ensures Valid() && Now() == State(map[], [], files, 0)
    {
      notes, index, next := map[], [], 0;
      this.files := files;
    }

    method InsertRow(note: Note) returns (id: nat)
      requires Valid() && !HasBody(notes, note.agent, note.body)
      modifies this
      ensures Valid() && Now() == Insert(old(Now()), note) && id in notes && notes[id] == note
      ensures id == old(next) && next == id + 1 && notes == old(notes)[id := note]
    {
      InsertAgrees(Now(), note);
      id := next;
      notes := notes[id := note];
      index := AfterInsert(index, id, note);
      next := next + 1;
    }

    /** Remember a note once, and write its bullet. */
    method Remember(path: string, note: Note, noteDate: string) returns (id: nat)
      requires Valid()
      modifies this
      ensures Valid() && Now() == AfterRemember(old(Now()), path, note, noteDate)
      ensures Now() == Step(_ => path, old(Now()), Remembered(note, noteDate))
      ensures id in notes && notes[id].agent == note.agent && notes[id].body == note.body
      ensures HasBody(old(notes), note.agent, note.body) ==> Now() == old(Now())
      ensures !HasBody(old(notes), note.agent, note.body) ==>
                && id == old(next) && next == id + 1
                && notes == old(notes)[id := note.(noteDate := Some(noteDate))]
                && index == old(index) + [Entry(id, note.title, note.body, note.kind, note.agent)]
                && files.Keys == old(files).Keys + {path}
                && forall other :: other in old(files) && other != path ==> files[other] == old(files)[other]
    {
      hide Agrees;
      if HasBody(notes, note.agent, note.body) {
        id :| id in notes && notes[id].agent == note.agent && notes[id].body == note.body;
        return;
      }
      id := InsertRow(note.(noteDate := Some(noteDate)));
      ghost var inserted := Now();
      var bullet := FormatMemoryBullet(note.kind, note.body, noteDate);
      files := files[path := AppendMemory(if path in files then files[path] else [], bullet)];
      FilesDoNotMatter(inserted, files);
    }

    method Create(path: string, agent: string, kind: MemoryKind, title: string, raw: string, noteDate: string)
      returns (id: nat)
      requires Valid()
      modifies this
      ensures Valid() && Now() == AfterRemember(old(Now()), path, CreatedNote(agent, kind, title, raw), noteDate)
      ensures Now() == Step(_ => path, old(Now()), Created(agent, kind, title, raw, noteDate))
      ensures id in notes && notes[id].agent == agent && notes[id].body == CreatedBody(raw)
    {
      var body := CreatedBody(raw);
      id := Remember(path, Note(agent, kind, if title != "" then title else TitleOf(body), body, None), noteDate);
    }

    method Forget(path: string, agent: string, id: nat) returns (found: bool)
      requires Valid()
      modifies this
      ensures Valid() && Now() == AfterForget(old(Now()), path, agent, id)
      ensures Now() == Step(_ => path, old(Now()), Forgotten(agent, id))
      ensures found == (id in old(notes) && old(notes)[id].agent == agent)
      ensures !found ==> Now() == old(Now())
      ensures found ==>
                && notes == old(notes) - {id} && next == old(next)
                && files.Keys == old(files).Keys + {path}
                && !FileSays(files[path], old(notes)[id].body)
                && forall other :: other in old(files) && other != path ==> files[other] == old(files)[other]
    {
      hide Agrees;
      if id !in notes || notes[id].agent != agent {
        return false;
      }
      ForgetAgrees(Now(), path, agent, id);
      RemovedIsUnsaid(FileAt(Now(), path), notes[id].body);
      var body := notes[id].body;
      notes := notes - {id};
      index := AfterDelete(index, id);
      files := files[path := RemoveMemory(if path in files then files[path] else [], body)];
      found := true;
    }

    method ImportFile(path: string, agent: string)
      requires Valid()
      modifies this
      ensures Valid() && Now() == AfterImport(old(Now()), path, agent)
      ensures Now() == Step(_ => path, old(Now()), Imported(agent))
    {
      hide Agrees, HasBody, ImportBullets;
      var bullets := ParseMemoryBullets(if path in files then files[path] else []);
      NoBullets(Now(), agent, bullets);
      for i := 0 to |bullets|
        invariant Valid() && Now() == ImportBullets(old(Now()), agent, bullets[..i])
      {
        NextBullet(old(Now()), agent, bullets, i);
        var b := bullets[i];
        if !HasBody(notes, agent, b.body) {
          var id := InsertRow(Note(agent, b.kind, TitleOf(b.body), b.body, b.noteDate));
        }
      }
      assert bullets[..|bullets|] == bullets;
    }
  }

  lemma FilesDoNotMatter(s: State, files: map<string, seq<string>>)
    requires Agrees(s)
    ensures Agrees(s.(files := files))
  {
  }
}
