/** Going through all messages page by page while they change. A run keeps the rows still to be read in a
    table of its own, and triggers put a row back when it is inserted or its json is updated. */
module MessagePages {
  import opened Options

  type Path = string
  type RowId = nat

  /** The files a message refers to. */
  datatype Message = Message(attachments: set<Path>, downloads: set<Path>)

  type Messages = map<RowId, Message>

  datatype Table = Table(messages: Messages, updated: Option<set<RowId>>)

  datatype Change = Put(row: RowId, message: Message, json: bool) | Delete(row: RowId)

  const CHUNK_SIZE := 1000

  /** The insert trigger always fires, the update trigger when the json column is written. */
  function Changed(t: Table, c: Change): Table {
    match c
    case Put(row, message, json) =>
      Table(t.messages[row := message],
            if t.updated.Some? && (json || row !in t.messages) then Some(t.updated.value + {row}) else t.updated)
    case Delete(row) => t.(messages := t.messages - {row})
  }

  /** A row is to be read again when it is new or its json was written; a deleted one need not be read. */
  lemma ChangeExactly(t: Table, c: Change, row: RowId)
    requires t.updated.Some?
    ensures var u := Changed(t, c);
            && u.updated.Some?
            && (row in u.messages <==> if c.row == row then c.Put? else row in t.messages)
            && (row in u.messages ==> u.messages[row] == if c.row == row then c.message else t.messages[row])
            && (row in u.updated.value <==>
                  row in t.updated.value || (c.Put? && c.row == row && (c.json || row !in t.messages)))
  {
  }

  function AllChanged(t: Table, cs: seq<Change>): (u: Table)
    ensures t.updated.Some? ==> u.updated.Some? && t.updated.value <= u.updated.value
    decreases |cs|
  {
    if cs == [] then t else AllChanged(Changed(t, cs[0]), cs[1..])
  }

  /** The first page of a run creates its table, with every row. */
  function Opened(t: Table): (u: Table)
    ensures u.updated.Some?
  {
    if t.updated.Some? then t else t.(updated := Some(t.messages.Keys))
  }

  /** What a page may take: a full chunk, or all that is left. */
  ghost predicate IsPage(t: Table, taken: set<RowId>)
    requires t.updated.Some?
  {
    && taken <= t.updated.value && |taken| <= CHUNK_SIZE
    && (|taken| == CHUNK_SIZE || taken == t.updated.value)
  }

  function AttachmentsOf(t: Table, rows: set<RowId>): set<Path> {
    set row, p | row in rows && row in t.messages && p in t.messages[row].attachments :: p
  }

  function DownloadsOf(t: Table, rows: set<RowId>): set<Path> {
    set row, p | row in rows && row in t.messages && p in t.messages[row].downloads :: p
  }

  function Taken(t: Table, rows: set<RowId>): Table
    requires t.updated.Some?
  {
    t.(updated := Some(t.updated.value - rows))
  }

  function Finished(t: Table): Table { t.(updated := None) }

  /** A row still to be read, or one whose files are none of those in question. */
  ghost predicate Covered(t: Table, attachments: set<Path>, downloads: set<Path>) {
    t.updated.Some? &&
    forall row | row in t.messages && row !in t.updated.value ::
      t.messages[row].attachments !! attachments && t.messages[row].downloads !! downloads
  }

  /** The files of a message change together with its json. */
  predicate Orderly(c: Change) { c.Put? ==> c.json }

  lemma OpeningCovers(t: Table, attachments: set<Path>, downloads: set<Path>)
    requires t.updated.None?
    ensures Covered(Opened(t), attachments, downloads)
  {
  }

  /** The rows of a page are read: their files are out of question. */
  lemma PageCovers(t: Table, rows: set<RowId>, attachments: set<Path>, downloads: set<Path>)
    requires Covered(t, attachments, downloads)
    ensures Covered(Taken(t, rows), attachments - AttachmentsOf(t, rows), downloads - DownloadsOf(t, rows))
  {
    forall row | row in t.messages && row in rows
      ensures t.messages[row].attachments <= AttachmentsOf(t, rows) && t.messages[row].downloads <= DownloadsOf(t, rows)
    {
    }
  }

  /** Changes between two pages are not missed. */
  lemma {:induction false} ChangesStayCovered(t: Table, cs: seq<Change>, attachments: set<Path>, downloads: set<Path>)
    requires Covered(t, attachments, downloads) && forall c | c in cs :: Orderly(c)
    ensures Covered(AllChanged(t, cs), attachments, downloads)
    decreases |cs|
  {
    if cs != [] {
      assert cs[0] in cs;
      ChangesStayCovered(Changed(t, cs[0]), cs[1..], attachments, downloads);
    }
  }

  // ---------- runs ----------

  /** What happens around a page read: it fails, or it succeeds and messages change before the next one. */
  datatype Turn = Fails | Succeeds(changes: seq<Change>)

  ghost predicate AllOrderly(turns: seq<Turn>) {
    forall i | 0 <= i < |turns| && turns[i].Succeeds? :: forall c | c in turns[i].changes :: Orderly(c)
  }

  /** The rows of the pages read so far. */
  type Pages = seq<set<RowId>>

  /** The table when page `k` is read. */
  function TableAt(t: Table, turns: seq<Turn>, pages: Pages, k: nat): (u: Table)
    requires k <= |pages| && k <= |turns|
    ensures u.updated.Some?
  {
    if k == 0 then Opened(t)
    else AllChanged(Taken(TableAt(t, turns, pages, k - 1), pages[k - 1]),
                    if turns[k - 1].Succeeds? then turns[k - 1].changes else [])
  }

  /** Pages that a run can read: only the last may be short. */
  ghost predicate ArePages(t: Table, turns: seq<Turn>, pages: Pages) {
    && |pages| <= |turns|
    && (forall k | 0 <= k < |pages| :: turns[k].Succeeds? && IsPage(TableAt(t, turns, pages, k), pages[k]))
    && (forall k | 0 <= k < |pages| - 1 :: |pages[k]| == CHUNK_SIZE)
  }

  predicate EndsShort(pages: Pages) { pages != [] && |pages[|pages| - 1]| < CHUNK_SIZE }

  /** The pages of a run that goes on until a short page, or a read that fails. */
  ghost predicate ReadOut(t: Table, turns: seq<Turn>, pages: Pages) {
    ArePages(t, turns, pages) && (EndsShort(pages) || |pages| == |turns| || turns[|pages|].Fails?)
  }

  /** The files that the first `n` pages refer to. */
  function PagedAttachments(t: Table, turns: seq<Turn>, pages: Pages, n: nat): set<Path>
    requires n <= |pages| && n <= |turns|
  {
    if n == 0 then {}
    else PagedAttachments(t, turns, pages, n - 1) + AttachmentsOf(TableAt(t, turns, pages, n - 1), pages[n - 1])
  }

  function PagedDownloads(t: Table, turns: seq<Turn>, pages: Pages, n: nat): set<Path>
    requires n <= |pages| && n <= |turns|
  {
    if n == 0 then {}
    else PagedDownloads(t, turns, pages, n - 1) + DownloadsOf(TableAt(t, turns, pages, n - 1), pages[n - 1])
  }

  lemma {:induction false} EarlierPagesSame(t: Table, turns: seq<Turn>, pages: Pages, rows: set<RowId>, n: nat)
    requires n <= |pages| <= |turns|
    ensures TableAt(t, turns, pages + [rows], n) == TableAt(t, turns, pages, n)
    ensures PagedAttachments(t, turns, pages + [rows], n) == PagedAttachments(t, turns, pages, n)
    ensures PagedDownloads(t, turns, pages + [rows], n) == PagedDownloads(t, turns, pages, n)
    decreases n
  {
    hide AllChanged, AttachmentsOf, DownloadsOf;
    if n > 0 {
      EarlierPagesSame(t, turns, pages, rows, n - 1);
    }
  }

  lemma PageSize(t: Table, rows: set<RowId>)
    requires t.updated.Some? && IsPage(t, rows)
    ensures |rows| <= CHUNK_SIZE
  {
  }

  /** One more page after full ones. */
  lemma PageAdded(t: Table, turns: seq<Turn>, pages: Pages, rows: set<RowId>)
    requires ArePages(t, turns, pages) && !EndsShort(pages) && |pages| < |turns| && turns[|pages|].Succeeds?
    requires IsPage(TableAt(t, turns, pages, |pages|), rows)
    ensures ArePages(t, turns, pages + [rows])
  {
    hide TableAt, IsPage, AllChanged, Opened;
    var more := pages + [rows];
    forall k | 0 <= k < |more|
      ensures turns[k].Succeeds? && IsPage(TableAt(t, turns, more, k), more[k])
    {
      EarlierPagesSame(t, turns, pages, rows, k);
    }
    forall k | 0 <= k < |more| - 1
      ensures |more[k]| == CHUNK_SIZE
    {
      PageSize(TableAt(t, turns, pages, k), pages[k]);
      assert more[k] == pages[k] && (k < |pages| - 1 || k == |pages| - 1);
    }
  }

  lemma PageKeeps(t: Table, turns: seq<Turn>, pages: Pages, rows: set<RowId>)
    requires |pages| < |turns| && turns[|pages|].Succeeds?
    ensures var more := pages + [rows]; var n := |pages|; var now := TableAt(t, turns, pages, n);
            && TableAt(t, turns, more, n) == now
            && PagedAttachments(t, turns, more, n + 1) == PagedAttachments(t, turns, pages, n) + AttachmentsOf(now, rows)
            && PagedDownloads(t, turns, more, n + 1) == PagedDownloads(t, turns, pages, n) + DownloadsOf(now, rows)
            && TableAt(t, turns, more, n + 1) == AllChanged(Taken(now, rows), turns[n].changes)
  {
    hide AllChanged, AttachmentsOf, DownloadsOf, Opened;
    EarlierPagesSame(t, turns, pages, rows, |pages|);
    NextPage(t, turns, pages + [rows], |pages|);
  }

  lemma NextPage(t: Table, turns: seq<Turn>, pages: Pages, n: nat)
    requires n < |pages| <= |turns| && turns[n].Succeeds?
    ensures var now := TableAt(t, turns, pages, n);
            && PagedAttachments(t, turns, pages, n + 1) == PagedAttachments(t, turns, pages, n) + AttachmentsOf(now, pages[n])
            && PagedDownloads(t, turns, pages, n + 1) == PagedDownloads(t, turns, pages, n) + DownloadsOf(now, pages[n])
            && TableAt(t, turns, pages, n + 1) == AllChanged(Taken(now, pages[n]), turns[n].changes)
  {
    hide AllChanged, AttachmentsOf, DownloadsOf, Opened;
  }

  lemma MinusTwice(a: set<Path>, b: set<Path>, c: set<Path>)
    ensures a - b - c == a - (b + c) && a - {} == a
  {
  }

  lemma TurnIsOrderly(turns: seq<Turn>, k: nat)
    requires AllOrderly(turns) && k < |turns| && turns[k].Succeeds?
    ensures forall c | c in turns[k].changes :: Orderly(c)
  {
  }

  /** While pages are read and messages change, each row is still to be read or its files are kept. */
  lemma {:induction false} CoveredOverPages(t: Table, turns: seq<Turn>, pages: Pages, n: nat,
                                            attachments: set<Path>, downloads: set<Path>)
    requires t.updated.None? && AllOrderly(turns) && ArePages(t, turns, pages) && n <= |pages|
    ensures Covered(TableAt(t, turns, pages, n), attachments - PagedAttachments(t, turns, pages, n),
                    downloads - PagedDownloads(t, turns, pages, n))
    decreases n
  {
    hide Covered, AllChanged, AttachmentsOf, DownloadsOf, Opened, AllOrderly, Orderly, IsPage;
    if n == 0 {
      OpeningCovers(t, attachments, downloads);
      MinusTwice(attachments, {}, {});
      MinusTwice(downloads, {}, {});
    } else {
      CoveredOverPages(t, turns, pages, n - 1, attachments, downloads);
      var before, rows := TableAt(t, turns, pages, n - 1), pages[n - 1];
      PageCoversMore(t, turns, pages, n - 1, attachments, downloads);
      TurnIsOrderly(turns, n - 1);
      ChangesStayCovered(Taken(before, rows), turns[n - 1].changes, attachments - PagedAttachments(t, turns, pages, n),
                         downloads - PagedDownloads(t, turns, pages, n));
    }
  }

  lemma PageCoversMore(t: Table, turns: seq<Turn>, pages: Pages, n: nat, attachments: set<Path>, downloads: set<Path>)
    requires n < |pages| <= |turns|
    requires Covered(TableAt(t, turns, pages, n), attachments - PagedAttachments(t, turns, pages, n),
                     downloads - PagedDownloads(t, turns, pages, n))
    ensures Covered(Taken(TableAt(t, turns, pages, n), pages[n]), attachments - PagedAttachments(t, turns, pages, n + 1),
                    downloads - PagedDownloads(t, turns, pages, n + 1))
  {
    hide Covered, AllChanged, AttachmentsOf, DownloadsOf, Opened, TableAt;
    var before := TableAt(t, turns, pages, n);
    var a, d := PagedAttachments(t, turns, pages, n), PagedDownloads(t, turns, pages, n);
    PageCovers(before, pages[n], attachments - a, downloads - d);
    MinusTwice(attachments, a, AttachmentsOf(before, pages[n]));
    MinusTwice(downloads, d, DownloadsOf(before, pages[n]));
  }

  /** No message refers to any of the files. */
  ghost predicate Unreferenced(m: Messages, attachments: set<Path>, downloads: set<Path>) {
    forall row | row in m :: m[row].attachments !! attachments && m[row].downloads !! downloads
  }

  lemma NothingLeftToRead(t: Table, attachments: set<Path>, downloads: set<Path>)
    requires t.updated == Some({}) && Covered(t, attachments, downloads)
    ensures Unreferenced(t.messages, attachments, downloads)
  {
  }

  /** After a short page no message of the table at that time refers to anything that is not kept. */
  lemma ShortPageCoversAll(t: Table, turns: seq<Turn>, pages: Pages, attachments: set<Path>, downloads: set<Path>)
    requires t.updated.None? && AllOrderly(turns) && ArePages(t, turns, pages) && EndsShort(pages)
    ensures var n := |pages|;
            Unreferenced(TableAt(t, turns, pages, n - 1).messages, attachments - PagedAttachments(t, turns, pages, n),
                         downloads - PagedDownloads(t, turns, pages, n))
  {
    hide Covered, AllOrderly, TableAt, PagedAttachments, PagedDownloads, Unreferenced;
    var m := |pages| - 1;
    CoveredOverPages(t, turns, pages, m, attachments, downloads);
    PageCoversMore(t, turns, pages, m, attachments, downloads);
    var last := TableAt(t, turns, pages, m);
    assert last.updated.value - pages[m] == {};
    NothingLeftToRead(Taken(last, pages[m]), attachments - PagedAttachments(t, turns, pages, m + 1),
                      downloads - PagedDownloads(t, turns, pages, m + 1));
  }

  // ---------- how far a run gets ----------

  /** Every page takes a chunk at most, and changes only add rows to be read. */
  lemma {:induction false} RowsLeft(t: Table, turns: seq<Turn>, pages: Pages, n: nat)
    requires t.updated.None? && ArePages(t, turns, pages) && n <= |pages|
    ensures |TableAt(t, turns, pages, n).updated.value| + n * CHUNK_SIZE >= |t.messages|
    decreases n
  {
    hide AllChanged, Opened;
    if n == 0 {
      FirstTable(t, turns, pages);
    } else {
      RowsLeft(t, turns, pages, n - 1);
      var before, after := TableAt(t, turns, pages, n - 1).updated.value, TableAt(t, turns, pages, n).updated.value;
      SetSizes(before, pages[n - 1], after);
    }
  }

  lemma OpenedRows(t: Table)
    requires t.updated.None?
    ensures |Opened(t).updated.value| == |t.messages|
  {
  }

  lemma SetSizes(all: set<RowId>, taken: set<RowId>, more: set<RowId>)
    requires taken <= all && all - taken <= more
    ensures |all - taken| == |all| - |taken| && |more| >= |all| - |taken|
  {
    assert all == (all - taken) + taken;
    assert more == (all - taken) + (more - (all - taken));
  }

  /** A read that fails is reached when the messages at the start fill the pages before it. */
  lemma FailingTurnIsReached(t: Table, turns: seq<Turn>, pages: Pages, k: nat)
    requires t.updated.None? && ReadOut(t, turns, pages)
    requires k < |turns| && turns[k].Fails? && |t.messages| >= k * CHUNK_SIZE
    ensures !EndsShort(pages)
  {
    hide TableAt;
    if EndsShort(pages) {
      var m := |pages| - 1;
      RowsLeft(t, turns, pages, m);
    }
  }

  /** Without changes: a run gets to a short page if and only if the first `size / 1000 + 1` reads succeed. */
  lemma UndisturbedRunExactly(t: Table, turns: seq<Turn>, pages: Pages)
    requires t.updated.None? && ReadOut(t, turns, pages)
    requires forall k | 0 <= k < |turns| && turns[k].Succeeds? :: turns[k].changes == []
    ensures EndsShort(pages) <==>
              |t.messages| / 1000 < |turns| && forall k | 0 <= k <= |t.messages| / 1000 :: turns[k].Succeeds?
  {
    hide TableAt;
    var q := |t.messages| / CHUNK_SIZE;
    if EndsShort(pages) {
      var m := |pages| - 1;
      RowsLeftExactly(t, turns, pages, m);
      assert |pages[m]| < CHUNK_SIZE;
      assert m * CHUNK_SIZE <= |t.messages| < (m + 1) * CHUNK_SIZE;
      assert q == m;
    } else {
      RowsLeftExactly(t, turns, pages, |pages|);
      assert |pages| * CHUNK_SIZE <= |t.messages|;
      assert |pages| <= q;
    }
  }

  lemma {:induction false} RowsLeftExactly(t: Table, turns: seq<Turn>, pages: Pages, n: nat)
    requires t.updated.None? && ArePages(t, turns, pages) && n <= |pages| && (n == |pages| ==> !EndsShort(pages))
    requires forall k | 0 <= k < |turns| && turns[k].Succeeds? :: turns[k].changes == []
    ensures |TableAt(t, turns, pages, n).updated.value| + n * CHUNK_SIZE == |t.messages|
    decreases n
  {
    hide Opened, TableAt, AllChanged;
    if n == 0 {
      FirstTable(t, turns, pages);
    } else {
      RowsLeftExactly(t, turns, pages, n - 1);
      FullPageTaken(t, turns, pages, n - 1);
    }
  }

  lemma FirstTable(t: Table, turns: seq<Turn>, pages: Pages)
    requires t.updated.None?
    ensures |TableAt(t, turns, pages, 0).updated.value| == |t.messages|
  {
    OpenedRows(t);
  }

  lemma FullPageTaken(t: Table, turns: seq<Turn>, pages: Pages, n: nat)
    requires n < |pages| <= |turns| && turns[n].Succeeds? && turns[n].changes == []
    requires IsPage(TableAt(t, turns, pages, n), pages[n]) && |pages[n]| == CHUNK_SIZE
    ensures |TableAt(t, turns, pages, n + 1).updated.value| == |TableAt(t, turns, pages, n).updated.value| - CHUNK_SIZE
  {
    hide TableAt;
    NextPage(t, turns, pages, n);
    var before := TableAt(t, turns, pages, n).updated.value;
    SetSizes(before, pages[n], before - pages[n]);
  }

  /** The next rows to read; the order in which they are taken does not matter here. */
  method TakeChunk(rows: set<RowId>) returns (taken: set<RowId>)
    ensures taken <= rows && |taken| <= CHUNK_SIZE && (|taken| == CHUNK_SIZE || taken == rows)
  {
    taken := {};
    var rest := rows;
    while rest != {} && |taken| < CHUNK_SIZE
      invariant taken !! rest && taken + rest == rows && |taken| <= CHUNK_SIZE
      decreases |rest|
    {
      var row :| row in rest;
      rest := rest - {row};
      taken := taken + {row};
    }
  }

  function ToSet(paths: seq<Path>): set<Path> { set p | p in paths }

  method Listed(paths: set<Path>) returns (list: seq<Path>)
    ensures ToSet(list) == paths && |list| == |paths|
  {
    list := [];
    var rest := paths;
    while rest != {}
      invariant rest <= paths && ToSet(list) == paths - rest && |list| + |rest| == |paths|
      decreases |rest|
    {
      var path :| path in rest;
      assert ToSet(list + [path]) == ToSet(list) + {path};
      rest := rest - {path};
      list := list + [path];
    }
  }
}
