/** The cleanup of files that nothing refers to. The sets of candidates shrink in place while references
    are read; what remains is deleted. */
module OrphanCleanup {
  import opened Options
  import opened MessagePages

  /** Everything the cleanup has no hand in; None is a read that throws, and a removal that fails leaves
      part of the files. `vanished` are files that are gone when they are looked at again. */
  datatype World = World(
    conversationAttachments: Option<seq<Path>>, knownDownloads: Option<seq<Path>>,
    turns: seq<Turn>, finishes: bool, protectedPaths: Option<seq<Path>>, vanished: set<Path>,
    removedAttachments: Option<set<Path>>, removedDownloads: Option<set<Path>>)

  datatype Outcome = Cleaned | ReadFailed | FinishFailed | RemovalFailed

  /** What a run over these pages comes to. A finish that fails hides a read that failed before it. */
  function OutcomeOf(w: World, pages: Pages): Outcome {
    if w.conversationAttachments.None? || w.knownDownloads.None? then ReadFailed
    else if pages != [] && !w.finishes then FinishFailed
    else if !EndsShort(pages) || w.protectedPaths.None? then ReadFailed
    else if w.removedAttachments.Some? || w.removedDownloads.Some? then RemovalFailed
    else Cleaned
  }

  /** The snapshot without conversation files, the files of every page, protected and vanished files. */
  function Orphans(w: World, t: Table, onDisk: set<Path>, pages: Pages): set<Path>
    requires w.conversationAttachments.Some? && w.protectedPaths.Some? && |pages| <= |w.turns|
  {
    onDisk - ToSet(w.conversationAttachments.value) - PagedAttachments(t, w.turns, pages, |pages|)
    - ToSet(w.protectedPaths.value) - w.vanished
  }

  function OrphanedDownloads(w: World, t: Table, onDisk: set<Path>, pages: Pages): set<Path>
    requires w.knownDownloads.Some? && |pages| <= |w.turns|
  {
    onDisk - ToSet(w.knownDownloads.value) - PagedDownloads(t, w.turns, pages, |pages|)
  }

  /** The files of which the removal fails somewhere go in part; the downloads come second. */
  function Gone(files: set<Path>, removed: Option<set<Path>>): set<Path> {
    if removed.None? then files else files * removed.value
  }

  /** Some page that was read has a message that refers to the file. */
  ghost predicate PageRefersTo(t: Table, turns: seq<Turn>, pages: Pages, n: nat, path: Path)
    requires n <= |pages| && n <= |turns|
  {
    exists k, row :: 0 <= k < n && row in pages[k] && row in TableAt(t, turns, pages, k).messages
                     && path in TableAt(t, turns, pages, k).messages[row].attachments
  }

  ghost predicate PageDownloads(t: Table, turns: seq<Turn>, pages: Pages, n: nat, path: Path)
    requires n <= |pages| && n <= |turns|
  {
    exists k, row :: 0 <= k < n && row in pages[k] && row in TableAt(t, turns, pages, k).messages
                     && path in TableAt(t, turns, pages, k).messages[row].downloads
  }

  lemma {:induction false} PagedExactly(t: Table, turns: seq<Turn>, pages: Pages, n: nat, path: Path)
    requires n <= |pages| && n <= |turns|
    ensures path in PagedAttachments(t, turns, pages, n) <==> PageRefersTo(t, turns, pages, n, path)
    ensures path in PagedDownloads(t, turns, pages, n) <==> PageDownloads(t, turns, pages, n, path)
    decreases n
  {
    hide TableAt;
    if n > 0 { PagedExactly(t, turns, pages, n - 1, path); }
  }

  /** For each file of the disk: it is an orphan if and only if no conversation and no page refers to it,
      it is not protected, and it has not vanished. */
  lemma OrphanExactly(w: World, t: Table, onDisk: set<Path>, pages: Pages, path: Path)
    requires w.conversationAttachments.Some? && w.protectedPaths.Some? && |pages| <= |w.turns|
    ensures path in Orphans(w, t, onDisk, pages) <==>
              && path in onDisk && path !in w.conversationAttachments.value && path !in w.protectedPaths.value
              && path !in w.vanished && !PageRefersTo(t, w.turns, pages, |pages|, path)
  {
    hide PagedAttachments, PageRefersTo;
    PagedExactly(t, w.turns, pages, |pages|, path);
  }

  lemma OrphanedDownloadExactly(w: World, t: Table, onDisk: set<Path>, pages: Pages, path: Path)
    requires w.knownDownloads.Some? && |pages| <= |w.turns|
    ensures path in OrphanedDownloads(w, t, onDisk, pages) <==>
              path in onDisk && path !in w.knownDownloads.value && !PageDownloads(t, w.turns, pages, |pages|, path)
  {
    hide PagedDownloads, PageDownloads;
    PagedExactly(t, w.turns, pages, |pages|, path);
  }

  /** What each outcome says, and which files a removal takes. */
  lemma OutcomeExactly(w: World, pages: Pages, files: set<Path>, removed: Option<set<Path>>, path: Path)
    ensures var outcome := OutcomeOf(w, pages);
            var known := w.conversationAttachments.Some? && w.knownDownloads.Some?;
            var short := pages != [] && |pages[|pages| - 1]| < 1000;
            && (outcome == FinishFailed <==> known && pages != [] && !w.finishes)
            && (outcome == ReadFailed <==> !known || pages == [] || (w.finishes && (!short || w.protectedPaths.None?)))
            && (outcome == Cleaned <==> known && short && w.finishes && w.protectedPaths.Some?
                                        && w.removedAttachments.None? && w.removedDownloads.None?)
            && (path in Gone(files, removed) <==> path in files && (removed.Some? ==> path in removed.value))
  {
  }

  /** A read that fails is reached before a short page: at `k`, when the messages of the start fill `k` pages. */
  ghost predicate FailsEarly(t: Table, turns: seq<Turn>) {
    exists k :: 0 <= k < |turns| && turns[k].Fails? && |t.messages| >= k * CHUNK_SIZE
  }

  lemma EarlyFailureShows(t: Table, turns: seq<Turn>, pages: Pages)
    requires t.updated.None? && ReadOut(t, turns, pages) && FailsEarly(t, turns)
    ensures !EndsShort(pages)
  {
    var k :| 0 <= k < |turns| && turns[k].Fails? && |t.messages| >= k * CHUNK_SIZE;
    FailingTurnIsReached(t, turns, pages, k);
  }

  lemma NoPages(t: Table, turns: seq<Turn>, attachments: set<Path>, downloads: set<Path>)
    ensures ArePages(t, turns, []) && TableAt(t, turns, [], 0) == Opened(t)
    ensures attachments == attachments - PagedAttachments(t, turns, [], 0)
    ensures downloads == downloads - PagedDownloads(t, turns, [], 0)
  {
  }

  lemma PagesFit(t: Table, turns: seq<Turn>, pages: Pages)
    requires ReadOut(t, turns, pages)
    ensures |pages| <= |turns| && (EndsShort(pages) ==> pages != [])
    ensures forall k | 0 <= k < |pages| :: turns[k].Succeeds?
  {
  }

  lemma GoneAreSome(files: set<Path>, removed: Option<set<Path>>)
    ensures Gone(files, removed) <= files
  {
  }

  lemma OrphansUnreferenced(w: World, t: Table, onDisk: set<Path>, downloads: set<Path>, pages: Pages,
                            goneAttachments: set<Path>, goneDownloads: set<Path>)
    requires t.updated.None? && AllOrderly(w.turns) && ReadOut(t, w.turns, pages) && EndsShort(pages)
    requires w.conversationAttachments.Some? && w.knownDownloads.Some? && w.protectedPaths.Some?
    requires goneAttachments <= Orphans(w, t, onDisk, pages) && goneDownloads <= OrphanedDownloads(w, t, downloads, pages)
    ensures Unreferenced(TableAt(t, w.turns, pages, |pages| - 1).messages, goneAttachments, goneDownloads)
  {
    hide AllOrderly, TableAt, IsPage, PagedAttachments, PagedDownloads, ToSet;
    ShortPageCoversAll(t, w.turns, pages, onDisk, downloads);
  }

  /** Changes have to be noticed: the update of a full table's row, without its json, after the row was
      read, makes the cleanup take a file that the message refers to. */
  lemma UnnoticedFileIsTaken(w: World, t: Table, onDisk: set<Path>, row: RowId, path: Path)
    requires t.updated.None? && |t.messages| == CHUNK_SIZE && row in t.messages
    requires forall r | r in t.messages :: path !in t.messages[r].attachments
    requires w.conversationAttachments.Some? && w.protectedPaths.Some?
    requires path in onDisk && path !in w.conversationAttachments.value && path !in w.protectedPaths.value
    requires path !in w.vanished
    ensures var message := Message(t.messages[row].attachments + {path}, t.messages[row].downloads);
            var turns := [Succeeds([Put(row, message, false)]), Succeeds([])];
            var pages := [t.messages.Keys, {}];
            && ReadOut(t, turns, pages) && EndsShort(pages)
            && path in Orphans(w.(turns := turns), t, onDisk, pages)
            && row in TableAt(t, turns, pages, 1).messages && path in TableAt(t, turns, pages, 1).messages[row].attachments
  {
    var message := Message(t.messages[row].attachments + {path}, t.messages[row].downloads);
    var turns := [Succeeds([Put(row, message, false)]), Succeeds([])];
    var pages: Pages := [t.messages.Keys, {}];
    assert TableAt(t, turns, pages, 0) == Opened(t);
    var second := TableAt(t, turns, pages, 1);
    OneChange(Taken(Opened(t), t.messages.Keys), Put(row, message, false));
    assert t.messages.Keys - t.messages.Keys == {};
    assert second == Table(t.messages[row := message], Some({}));
    assert path !in AttachmentsOf(Opened(t), pages[0]);
    assert AttachmentsOf(second, {}) == {};
    PagedOfTwo(t, turns, pages);
  }

  lemma OneChange(t: Table, c: Change)
    ensures AllChanged(t, [c]) == Changed(t, c)
  {
    assert [c][1..] == [];
  }

  lemma PagedOfTwo(t: Table, turns: seq<Turn>, pages: Pages)
    requires |pages| == |turns| == 2
    ensures PagedAttachments(t, turns, pages, 2)
         == AttachmentsOf(TableAt(t, turns, pages, 0), pages[0]) + AttachmentsOf(TableAt(t, turns, pages, 1), pages[1])
  {
    hide TableAt, AttachmentsOf;
    assert PagedAttachments(t, turns, pages, 0) == {};
    assert PagedAttachments(t, turns, pages, 1) == AttachmentsOf(TableAt(t, turns, pages, 0), pages[0]);
  }

  lemma OneMoreKnown(known: seq<Path>, i: nat)
    requires i < |known|
    ensures ToSet(known[..i + 1]) == ToSet(known[..i]) + {known[i]}
  {
    assert known[..i + 1] == known[..i] + [known[i]];
  }

  lemma KeptOneMore(start: set<Path>, seen: set<Path>, path: Path)
    ensures start - (seen + {path}) == (start - seen) - {path}
    ensures |start * (seen + {path})| == |start * seen| + if path in start - seen then 1 else 0
  {
    if path in start - seen {
      assert start * (seen + {path}) == start * seen + {path};
    } else {
      assert start * (seen + {path}) == start * seen;
    }
  }

  lemma NoneKnown(start: set<Path>, known: seq<Path>)
    ensures start - ToSet(known[..0]) == start && start * ToSet(known[..0]) == {} && known[..|known|] == known
  {
  }

  class Cleanup {
    var orphanedAttachments: set<Path>
    var orphanedDownloads: set<Path>
    var attachmentsOnDisk: set<Path>
    var downloadsOnDisk: set<Path>
    var table: Table

    constructor (attachments: set<Path>, downloads: set<Path>, messages: Messages)
      ensures attachmentsOnDisk == attachments && downloadsOnDisk == downloads && table == Table(messages, None)
    {
      attachmentsOnDisk, downloadsOnDisk, table := attachments, downloads, Table(messages, None);
      orphanedAttachments, orphanedDownloads := {}, {};
    }

    /** `missing` counts the references without a file, a repeated one as missing the second time. */
    method KeepKnownAttachments(known: seq<Path>) returns (missing: nat)
      modifies this`orphanedAttachments
      ensures orphanedAttachments == old(orphanedAttachments) - ToSet(known)
      ensures missing + |old(orphanedAttachments) * ToSet(known)| == |known|
    {
      hide ToSet;
      missing := 0;
      ghost var start := orphanedAttachments;
      NoneKnown(start, known);
      for i := 0 to |known|
        invariant orphanedAttachments == start - ToSet(known[..i])
        invariant missing + |start * ToSet(known[..i])| == i
      {
        OneMoreKnown(known, i);
        KeptOneMore(start, ToSet(known[..i]), known[i]);
        if known[i] in orphanedAttachments {
          orphanedAttachments := orphanedAttachments - {known[i]};
        } else {
          missing := missing + 1;
        }
      }
    }

    method KeepKnownDownloads(known: seq<Path>)
      modifies this`orphanedDownloads
      ensures orphanedDownloads == old(orphanedDownloads) - ToSet(known)
    {
      hide ToSet;
      ghost var start := orphanedDownloads;
      NoneKnown(start, known);
      for i := 0 to |known|
        invariant orphanedDownloads == start - ToSet(known[..i])
      {
        OneMoreKnown(known, i);
        KeptOneMore(start, ToSet(known[..i]), known[i]);
        orphanedDownloads := orphanedDownloads - {known[i]};
      }
    }

    /** `getKnownMessageAttachments` and `pageMessages`. */
    method ReadPage() returns (attachments: seq<Path>, downloads: seq<Path>, done: bool, ghost rows: set<RowId>)
      modifies this`table
      ensures var t := Opened(old(table));
              && IsPage(t, rows) && table == Taken(t, rows) && done == (|rows| < CHUNK_SIZE)
              && ToSet(attachments) == AttachmentsOf(t, rows) && ToSet(downloads) == DownloadsOf(t, rows)
    {
      var t := Opened(table);
      var page := TakeChunk(t.updated.value);
      attachments := Listed(AttachmentsOf(t, page));
      downloads := Listed(DownloadsOf(t, page));
      rows, table, done := page, Taken(t, page), |page| < CHUNK_SIZE;
    }

    /** The loop over the pages, with its `finally`: an exception of the finish hides one of a read. */
    method KeepMessageFiles(turns: seq<Turn>, finishes: bool) returns (outcome: Outcome, ghost pages: Pages)
      requires table.updated.None?
      modifies this`table, this`orphanedAttachments, this`orphanedDownloads
      ensures ReadOut(old(table), turns, pages)
      ensures outcome == if pages != [] && !finishes then FinishFailed else if EndsShort(pages) then Cleaned else ReadFailed
      ensures orphanedAttachments == old(orphanedAttachments) - PagedAttachments(old(table), turns, pages, |pages|)
      ensures orphanedDownloads == old(orphanedDownloads) - PagedDownloads(old(table), turns, pages, |pages|)
      ensures table.updated.None? <==> finishes || pages == []
    {
      hide IsPage, AttachmentsOf, DownloadsOf, AllChanged, PagedAttachments, PagedDownloads, TableAt, ArePages, ToSet;
      ghost var start, attachments, downloads := table, orphanedAttachments, orphanedDownloads;
      pages := [];
      NoPages(start, turns, attachments, downloads);
      var cursor: Option<bool> := None;
      var i := 0;
      while i < |turns| && turns[i].Succeeds? && (cursor.None? || !cursor.value)
        invariant |pages| == i <= |turns| && (cursor.None? <==> i == 0)
        invariant cursor.Some? ==> cursor.value == EndsShort(pages)
        invariant if i == 0 then table == start else table.updated.Some?
        invariant !EndsShort(pages) ==> Opened(table) == TableAt(start, turns, pages, i)
        invariant ArePages(start, turns, pages)
        invariant orphanedAttachments == attachments - PagedAttachments(start, turns, pages, i)
        invariant orphanedDownloads == downloads - PagedDownloads(start, turns, pages, i)
      {
        var known, knownDownloads, done;
        ghost var rows;
        known, knownDownloads, done, rows := ReadPage();
        PageAdded(start, turns, pages, rows);
        PageKeeps(start, turns, pages, rows);
        MinusTwice(attachments, PagedAttachments(start, turns, pages, i), ToSet(known));
        MinusTwice(downloads, PagedDownloads(start, turns, pages, i), ToSet(knownDownloads));
        var missing := KeepKnownAttachments(known);
        KeepKnownDownloads(knownDownloads);
        cursor, pages := Some(done), pages + [rows];
        if !done {
          table := AllChanged(table, turns[i].changes);
        }
        i := i + 1;
      }
      outcome := if cursor.Some? && cursor.value then Cleaned else ReadFailed;
      if cursor.Some? {
        if finishes {
          table := Finished(table);
        } else {
          outcome := FinishFailed;
        }
      }
    }

    /** Removing a list of files; a failure leaves some of them. */
    method RemoveFiles(onDisk: set<Path>, files: set<Path>, removed: Option<set<Path>>) returns (rest: set<Path>, ok: bool)
      ensures ok == removed.None? && rest == onDisk - Gone(files, removed)
    {
      match removed {
        case None => return onDisk - files, true;
        case Some(some) => return onDisk - files * some, false;
      }
    }

    /** `deleteOrphanedAttachments`; the outcomes other than Cleaned are exceptions, which are logged. */
    method DeleteOrphaned(w: World) returns (outcome: Outcome, ghost pages: Pages)
      requires table.updated.None? && w.conversationAttachments.Some? && w.knownDownloads.Some?
      modifies this
      ensures ReadOut(old(table), w.turns, pages) && outcome == OutcomeOf(w, pages)
      ensures table.updated.None? <==> w.finishes || pages == []
      ensures outcome == ReadFailed || outcome == FinishFailed ==>
                attachmentsOnDisk == old(attachmentsOnDisk) && downloadsOnDisk == old(downloadsOnDisk)
      ensures outcome == Cleaned || outcome == RemovalFailed ==>
                && attachmentsOnDisk == old(attachmentsOnDisk)
                     - Gone(old(orphanedAttachments) - PagedAttachments(old(table), w.turns, pages, |pages|)
                            - ToSet(w.protectedPaths.value) - w.vanished, w.removedAttachments)
                && downloadsOnDisk == old(downloadsOnDisk)
                     - if w.removedAttachments.Some? then {}
                       else Gone(old(orphanedDownloads) - PagedDownloads(old(table), w.turns, pages, |pages|), w.removedDownloads)
    {
      hide ToSet, PagedAttachments, PagedDownloads, EndsShort, ReadOut, Gone;
      outcome, pages := KeepMessageFiles(w.turns, w.finishes);
      PagesFit(old(table), w.turns, pages);
      if outcome != Cleaned {
        return;
      }
      if w.protectedPaths.None? {
        outcome := ReadFailed;
        return;
      }
      var missing := KeepKnownAttachments(w.protectedPaths.value);
      orphanedAttachments := orphanedAttachments - w.vanished;
      var ok;
      attachmentsOnDisk, ok := RemoveFiles(attachmentsOnDisk, orphanedAttachments, w.removedAttachments);
      if ok {
        downloadsOnDisk, ok := RemoveFiles(downloadsOnDisk, orphanedDownloads, w.removedDownloads);
      }
      outcome := if ok then Cleaned else RemovalFailed;
    }

    /** `cleanupOrphanedAttachments` from the snapshot of the disk on. Pages are read until a short one or
        a failure, and the outcome follows from them. Without failure exactly the orphans go; when a read
        or the finish fails nothing goes, which is certain as soon as a failing read comes early. No
        message of the table at the time of the last page refers to anything that goes. */
    method CleanupOrphaned(w: World) returns (outcome: Outcome, ghost pages: Pages)
      requires table.updated.None?
      modifies this
      ensures outcome == OutcomeOf(w, pages)
      ensures if w.conversationAttachments.Some? && w.knownDownloads.Some? then ReadOut(old(table), w.turns, pages) else pages == []
      ensures |pages| <= |w.turns| && forall k | 0 <= k < |pages| :: w.turns[k].Succeeds?
      ensures table.updated.None? <==> w.finishes || pages == []
      ensures outcome == ReadFailed || outcome == FinishFailed ==>
                attachmentsOnDisk == old(attachmentsOnDisk) && downloadsOnDisk == old(downloadsOnDisk)
      ensures outcome == Cleaned || outcome == RemovalFailed ==>
                && attachmentsOnDisk == old(attachmentsOnDisk)
                     - Gone(Orphans(w, old(table), old(attachmentsOnDisk), pages), w.removedAttachments)
                && downloadsOnDisk == old(downloadsOnDisk)
                     - if w.removedAttachments.Some? then {}
                       else Gone(OrphanedDownloads(w, old(table), old(downloadsOnDisk), pages), w.removedDownloads)
      ensures FailsEarly(old(table), w.turns) ==>
                && (outcome == ReadFailed || outcome == FinishFailed)
                && attachmentsOnDisk == old(attachmentsOnDisk) && downloadsOnDisk == old(downloadsOnDisk)
      ensures (outcome == Cleaned || outcome == RemovalFailed) && AllOrderly(w.turns) ==>
                Unreferenced(TableAt(old(table), w.turns, pages, |pages| - 1).messages,
                             old(attachmentsOnDisk) - attachmentsOnDisk, old(downloadsOnDisk) - downloadsOnDisk)
    {
      hide ToSet, PagedAttachments, PagedDownloads, ReadOut, AllOrderly, TableAt, Unreferenced, FailsEarly, Gone, EndsShort;
      orphanedAttachments := attachmentsOnDisk;
      orphanedDownloads := downloadsOnDisk;
      if w.conversationAttachments.None? || w.knownDownloads.None? {
        return ReadFailed, [];
      }
      var missing := KeepKnownAttachments(w.conversationAttachments.value);
      KeepKnownDownloads(w.knownDownloads.value);
      outcome, pages := DeleteOrphaned(w);
      PagesFit(old(table), w.turns, pages);
      if FailsEarly(old(table), w.turns) { EarlyFailureShows(old(table), w.turns, pages); }
      if (outcome == Cleaned || outcome == RemovalFailed) && AllOrderly(w.turns) {
        GoneAreSome(Orphans(w, old(table), old(attachmentsOnDisk), pages), w.removedAttachments);
        GoneAreSome(OrphanedDownloads(w, old(table), old(downloadsOnDisk), pages), w.removedDownloads);
        OrphansUnreferenced(w, old(table), old(attachmentsOnDisk), old(downloadsOnDisk), pages,
                            old(attachmentsOnDisk) - attachmentsOnDisk, old(downloadsOnDisk) - downloadsOnDisk);
      }
    }
  }
}
