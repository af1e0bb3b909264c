/**
 The log forwarder: a durable cursor over a rotating directory of log files. The directory changes
 under the reader: every directory listing, stat and open below sees a later world than the one
 before it, and only the bytes of one opened file are read as a snapshot.
 */
module LogForwarder {
  import opened Prelude

  const BATCH_SIZE: nat := 100

  type Bytes = seq<char>

  // ---------------------------------------------------------------- the directory

  /** Every file ever created, oldest first: the index of a file is its inode. Those before `oldest` have
      expired. The last one is `current` while `live`; all before it are archives, the newest of which is
      still called `previous` while a rotation is under way. */
  datatype Directory = Directory(files: seq<Bytes>, oldest: nat, live: bool, previous: bool)

  function Archived(w: Directory): int {
    if w.live then |w.files| - 1 else |w.files|
  }

  /** Archives that carry a rotated name. */
  function Named(w: Directory): int {
    if w.previous then Archived(w) - 1 else Archived(w)
  }

  /** Expiry leaves the newest rotated name. */
  type World = d: Directory | 0 <= Named(d) && (d.oldest < Named(d) || d.oldest == Named(d) == 0)
    witness Directory([], 0, false, false)

  /** The writer appends to `current`, rotates it by way of `previous` and expires the oldest archives, in
      any mixture. */
  predicate Evolves(v: Directory, w: Directory) {
    && |v.files| <= |w.files| && v.oldest <= w.oldest && Archived(v) <= Archived(w) && Named(v) <= Named(w)
    && (forall i :: 0 <= i < |v.files| ==> v.files[i] <= w.files[i])
    && (forall i :: 0 <= i < Archived(v) ==> v.files[i] == w.files[i])
  }

  type Timeline = nat -> World

  ghost predicate Chain(world: Timeline) {
    forall i: nat, j: nat {:trigger Evolves(world(i), world(j))} :: i <= j ==> Evolves(world(i), world(j))
  }

  datatype Path = Archive(index: nat) | Previous | Current

  datatype Listing = Listing(archives: seq<nat>, previous: bool, current: bool)

  function ListDir(w: Directory): Listing
    requires w.oldest <= Named(w)
  {
    Listing(seq(Named(w) - w.oldest, i => w.oldest + i), w.previous, w.live)
  }

  /** `stat` and `open` resolve a path to an inode, or fail. */
  function Resolve(w: Directory, path: Path): (inode: Option<nat>)
    ensures inode.Some? ==> inode.value < |w.files|
  {
    match path
    case Archive(i) => if w.oldest <= i < Named(w) then Some(i) else None
    case Previous => if w.previous && Named(w) >= 0 then Some(Named(w)) else None
    case Current => if w.live && w.files != [] then Some(|w.files| - 1) else None
  }

  datatype Entry = Entry(path: Path, inode: nat)

  /** A listing the reader may trust: consecutive files, nothing retained before the first, and
      `current` only at the end. */
  predicate Trusted(entries: seq<Entry>, w: World) {
    && (forall k :: 0 <= k < |entries| ==> entries[k].inode == entries[0].inode + k)
    && (entries != [] ==> entries[0].inode <= w.oldest)
    && (forall k :: 0 <= k < |entries| ==> entries[k].inode < |w.files|)
    && (forall k :: 0 <= k < |entries| - 1 ==> entries[k].path != Current)
  }

  predicate Listed(entries: seq<Entry>, inode: nat) {
    exists k :: 0 <= k < |entries| && entries[k].inode == inode
  }

  /** One inode is listed under one path only. */
  function AddUnseen(files: seq<Entry>, path: Path, inode: Option<nat>): (r: seq<Entry>)
    ensures r == files || (inode.Some? && r == files + [Entry(path, inode.value)] && !Listed(files, inode.value))
    ensures inode.Some? ==> Listed(r, inode.value)
  {
    if inode.None? || Listed(files, inode.value) then files
    else
      var r := files + [Entry(path, inode.value)];
      assert r[|files|].inode == inode.value;
      r
  }

  function Known(archives: seq<nat>, k: nat): seq<Entry>
    requires k <= |archives|
  {
    seq(k, (i: nat) requires i < k => Entry(Archive(archives[i]), archives[i]))
  }

  /** Stats every listed archive; those that moved in the meantime are missing from the result. */
  method StatArchives(world: Timeline, start: nat, archives: seq<nat>) returns (files: seq<Entry>, t: nat)
    requires Chain(world) && archives == ListDir(world(start)).archives
    ensures t == start + |archives|
    ensures world(t).oldest == world(start).oldest ==> files == Known(archives, |archives|)
  {
    t, files := start, [];
    for k := 0 to |archives|
      invariant t == start + k
      invariant world(t).oldest == world(start).oldest ==> files == Known(archives, k)
    {
      assert Evolves(world(start), world(t)) && Evolves(world(t), world(t + 1)) && Evolves(world(start), world(t + 1));
      t := t + 1;
      var inode := Resolve(world(t), Archive(archives[k]));
      files := AddUnseen(files, Archive(archives[k]), inode);
    }
  }

  /** The files a directory at rest is listed with. */
  function Scan(w: World): seq<Entry> {
    var archives := ListDir(w).archives;
    Known(archives, |archives|)
    + (if w.previous then [Entry(Previous, Named(w))] else [])
    + (if w.live then [Entry(Current, |w.files| - 1)] else [])
  }

  lemma ScanListsAll(w: World)
    ensures forall inode :: w.oldest <= inode < |w.files| ==> Listed(Scan(w), inode)
  {
    forall inode | w.oldest <= inode < |w.files| ensures Listed(Scan(w), inode) {
      assert Scan(w)[inode - w.oldest].inode == inode;
    }
  }

  lemma ScanAt(w: World, k: nat)
    requires k < |Scan(w)|
    ensures Scan(w)[k].inode == w.oldest + k < |w.files|
    ensures Resolve(w, Scan(w)[k].path) == Some(Scan(w)[k].inode)
    ensures k < |Scan(w)| - 1 ==> Scan(w)[k].path != Current
  {
  }

  lemma ScanIsComplete(w: World)
    ensures Trusted(Scan(w), w) && forall e <- Scan(w) :: Resolve(w, e.path) == Some(e.inode)
    ensures forall inode :: w.oldest <= inode < |w.files| ==> Listed(Scan(w), inode)
  {
    ScanListsAll(w);
    var entries := Scan(w);
    forall k | 0 <= k < |entries|
      ensures entries[k].inode == w.oldest + k < |w.files| && Resolve(w, entries[k].path) == Some(entries[k].inode)
      ensures k < |entries| - 1 ==> entries[k].path != Current
    {
      ScanAt(w, k);
    }
  }

  /** The same files under the same names; only `current` may have grown. */
  predicate SameShape(v: World, w: World) {
    v.oldest == w.oldest && |v.files| == |w.files| && v.live == w.live && v.previous == w.previous
  }

  /** Names that come out the same at both ends of a scan never moved in between. */
  lemma NothingMoved(world: Timeline, start: nat, middle: nat, t: nat)
    requires Chain(world) && start <= middle <= t && ListDir(world(start)) == ListDir(world(t))
    ensures SameShape(world(start), world(middle)) && SameShape(world(middle), world(t))
  {
    assert Evolves(world(start), world(middle)) && Evolves(world(middle), world(t)) && Evolves(world(start), world(t));
    var names := ListDir(world(start)).archives;
    if names != [] { assert names[0] == world(start).oldest == world(t).oldest; }
    assert Named(world(start)) == world(start).oldest + |names| && Named(world(t)) == world(t).oldest + |names|;
  }

  /** None when rotation raced the scan. Otherwise no file moved since the scan began: every retained file
      is listed once, under a name that opens it. */
  method RetainedLogFiles(world: Timeline, start: nat) returns (entries: Option<seq<Entry>>, t: nat)
    requires Chain(world)
    ensures t >= start
    ensures entries.Some? <==> ListDir(world(start)) == ListDir(world(t))
    ensures entries.Some? ==> entries.value == Scan(world(t)) && SameShape(world(start), world(t))
  {
    var names := ListDir(world(start));
    var files, scanned := StatArchives(world, start, names.archives);
    t := scanned + 1;
    var previous := Resolve(world(t), Previous);
    files := AddUnseen(files, Previous, previous);
    t := t + 1;
    var current := Resolve(world(t), Current);
    files := AddUnseen(files, Current, current);
    t := t + 1;
    if ListDir(world(t)) != names { return None, t; }
    NothingMoved(world, start, scanned, t);
    NothingMoved(world, start, scanned + 1, t);
    NothingMoved(world, start, scanned + 2, t);
    ScanIsMade(world(t), Known(names.archives, |names.archives|), previous, current);
    return Some(files), t;
  }

  lemma ScanIsMade(w: World, known: seq<Entry>, previous: Option<nat>, current: Option<nat>)
    requires known == Known(ListDir(w).archives, |ListDir(w).archives|)
    requires previous == Resolve(w, Previous) && current == Resolve(w, Current)
    ensures AddUnseen(AddUnseen(known, Previous, previous), Current, current) == Scan(w)
  {
  }

  /** No change is ever undone. */
  lemma NeverBack(v: Directory, w: Directory)
    requires Evolves(v, w) && Evolves(w, v)
    ensures v == w
  {
    forall i | 0 <= i < |v.files| ensures v.files[i] == w.files[i] {
      assert v.files[i] <= w.files[i] && w.files[i] <= v.files[i];
    }
    assert v.files == w.files;
  }

  lemma Frozen(world: Timeline, start: nat, middle: nat, t: nat)
    requires Chain(world) && start <= middle <= t && world(start) == world(t)
    ensures world(middle) == world(start)
  {
    assert Evolves(world(start), world(middle)) && Evolves(world(middle), world(t));
    NeverBack(world(start), world(middle));
  }

  // ---------------------------------------------------------------- lines

  /** One past the line feed that ends the line at `p`, or the end of the content. */
  function LineEnd(c: Bytes, p: nat): (e: nat)
    requires p <= |c|
    ensures p <= e <= |c|
    ensures p < |c| ==> p < e
    ensures e > p ==> c[e - 1] == '\n' || e == |c|
    ensures forall k :: p <= k < e - 1 ==> c[k] != '\n'
    decreases |c| - p
  {
    if p == |c| then p else if c[p] == '\n' then p + 1 else LineEnd(c, p + 1)
  }

  function Strip(line: Bytes): Bytes {
    if line == [] then [] else
    var last := line[|line| - 1];
    if last == '\n' || last == '\r' then Strip(line[..|line| - 1]) else line
  }

  predicate LineStart(c: Bytes, p: nat) {
    p == 0 || (p <= |c| && c[p - 1] == '\n')
  }

  function Message(c: Bytes, p: nat): Bytes
    requires p <= |c|
  {
    Strip(c[p..LineEnd(c, p)])
  }

  predicate Nonblank(c: Bytes, p: nat) {
    p < |c| && LineStart(c, p) && Message(c, p) != []
  }

  /** The writer has not finished the line at `p`. */
  predicate Pending(c: Bytes, p: nat)
    requires p < |c|
  {
    c[LineEnd(c, p) - 1] != '\n'
  }

  /** The lines are the messages at these offsets, in order. */
  predicate LinesAt(c: Bytes, start: nat, lines: seq<Bytes>, starts: seq<nat>, position: nat)
    requires position <= |c|
  {
    && |lines| == |starts|
    && (forall k :: 0 <= k < |starts| ==> start <= starts[k] < position && lines[k] == Message(c, starts[k]) != [])
    && (forall j, k :: 0 <= j < k < |starts| ==> starts[j] < starts[k])
    && (forall k :: 0 <= k < |starts| ==> starts[k] == start || LineStart(c, starts[k]))
  }

  predicate AllFound(c: Bytes, start: nat, starts: seq<nat>, position: nat) {
    forall p :: start <= p < position && Nonblank(c, p) ==> p in starts
  }

  /** What has been read from `start` up to `position`: exactly the nonblank lines that begin there, in
      order, and `position` sits between lines or at the end of an archive. */
  predicate ReadUpTo(c: Bytes, start: nat, path: Path, lines: seq<Bytes>, starts: seq<nat>, position: nat) {
    && start <= position <= |c|
    && (position == start || c[position - 1] == '\n' || (position == |c| && path != Current))
    && LinesAt(c, start, lines, starts, position) && AllFound(c, start, starts, position)
  }

  function Collect<T>(items: seq<T>, item: T, message: Bytes): seq<T> {
    if message == [] then items else items + [item]
  }

  lemma NextLineFound(c: Bytes, start: nat, starts: seq<nat>, position: nat)
    requires start <= position < |c| && AllFound(c, start, starts, position)
    ensures AllFound(c, start, Collect(starts, position, Message(c, position)), LineEnd(c, position))
  {
    var more := Collect(starts, position, Message(c, position));
    forall p | start <= p < LineEnd(c, position) && Nonblank(c, p) ensures p in more {
      if p < position { assert p in starts; }
    }
  }

  lemma NextLineAt(c: Bytes, start: nat, lines: seq<Bytes>, starts: seq<nat>, position: nat, end: nat)
    requires start <= position < end <= |c| && LinesAt(c, start, lines, starts, position)
    requires Message(c, position) != [] && (position == start || LineStart(c, position))
    ensures LinesAt(c, start, lines + [Message(c, position)], starts + [position], end)
  {
  }

  lemma NextLineRead(c: Bytes, start: nat, path: Path, lines: seq<Bytes>, starts: seq<nat>, position: nat)
    requires ReadUpTo(c, start, path, lines, starts, position) && position < |c|
    requires c[LineEnd(c, position) - 1] == '\n' || path != Current
    ensures
      var message := Message(c, position);
      ReadUpTo(c, start, path, Collect(lines, message, message), Collect(starts, position, message),
               LineEnd(c, position))
  {
    NextLineFound(c, start, starts, position);
    if Message(c, position) != [] { NextLineAt(c, start, lines, starts, position, LineEnd(c, position)); }
  }

  lemma OnlyThatLineLeft(c: Bytes, position: nat)
    requires position < |c| && c[LineEnd(c, position) - 1] != '\n'
    ensures forall p :: position <= p && Nonblank(c, p) ==> Pending(c, p)
  {
    assert forall p :: position < p < |c| ==> !LineStart(c, p);
  }

  /** Reads at most a batch of nonblank lines from one opened file. An unterminated last line is left
      pending in `current`, and is a line like any other in an archive. `starts` are the line offsets. */
  method ReadCompleteLines(c: Bytes, start: nat, path: Path)
      returns (lines: seq<Bytes>, ghost starts: seq<nat>, position: nat)
    requires start <= |c|
    ensures ReadUpTo(c, start, path, lines, starts, position) && |lines| <= BATCH_SIZE
    ensures lines == [] && path != Current ==> position == |c|
    ensures |lines| < BATCH_SIZE ==> forall p :: position <= p && Nonblank(c, p) ==> path == Current && Pending(c, p)
  {
    lines, starts, position := [], [], start;
    while |lines| < BATCH_SIZE
      invariant ReadUpTo(c, start, path, lines, starts, position) && |lines| <= BATCH_SIZE
      decreases |c| - position
    {
      if position == |c| { break; }
      var end := LineEnd(c, position);
      if c[end - 1] != '\n' && path == Current {
        OnlyThatLineLeft(c, position);
        break;
      }
      NextLineRead(c, start, path, lines, starts, position);
      var message := Strip(c[position..end]);
      if message != [] {
        lines := lines + [message];
        starts := starts + [position];
      }
      position := end;
    }
  }

  // ---------------------------------------------------------------- the cursor

  /** A saved cursor; no inode before anything was acknowledged. */
  datatype Cursor = Cursor(position: nat, inode: Option<nat>)

  const FRESH := Cursor(0, None)

  datatype LineRef = LineRef(inode: nat, start: nat)

  predicate Before(r: LineRef, cursor: Cursor) {
    cursor.inode.Some? && (r.inode < cursor.inode.value || (r.inode == cursor.inode.value && r.start < cursor.position))
  }

  predicate Precedes(q: LineRef, r: LineRef) {
    q.inode < r.inode || (q.inode == r.inode && q.start < r.start)
  }

  /** A nonblank line of a file that is still retained. */
  predicate RetainedLine(w: Directory, r: LineRef) {
    w.oldest <= r.inode < |w.files| && Nonblank(w.files[r.inode], r.start)
  }

  /** The cursor sits between lines. */
  predicate OnBoundary(w: Directory, cursor: Cursor) {
    cursor.inode.Some? ==>
      && cursor.inode.value < |w.files|
      && var c := w.files[cursor.inode.value];
         cursor.position <= |c|
         && (LineStart(c, cursor.position) || (cursor.position == |c| && cursor.inode.value < Archived(w)))
  }

  /** Nothing retained and nonblank lies before the cursor without having been delivered. */
  ghost predicate NothingSkipped(w: Directory, cursor: Cursor, delivered: set<LineRef>) {
    forall r :: RetainedLine(w, r) && Before(r, cursor) ==> r in delivered
  }

  ghost predicate Safe(w: Directory, cursor: Cursor, delivered: set<LineRef>) {
    OnBoundary(w, cursor) && NothingSkipped(w, cursor, delivered)
  }

  lemma LineEndSurvivesAppend(c: Bytes, d: Bytes, p: nat, q: nat)
    requires c <= d && p < q <= |c| && (c[q - 1] == '\n' || c == d)
    ensures LineEnd(c, p) == LineEnd(d, p) <= |c|
    ensures c[p..LineEnd(c, p)] == d[p..LineEnd(d, p)]
  {
    var e, f := LineEnd(c, p), LineEnd(d, p);
    if c != d {
      assert d[q - 1] == '\n';
      assert e <= q && f <= q;
      assert c[e - 1] == '\n' && d[e - 1] == '\n' && d[f - 1] == '\n' && c[f - 1] == '\n';
    }
  }

  /** Appends, rotations and expiry never endanger a safe cursor. */
  lemma SafetySurvives(v: World, w: World, cursor: Cursor, delivered: set<LineRef>)
    requires Evolves(v, w) && Safe(v, cursor, delivered)
    ensures Safe(w, cursor, delivered)
  {
    forall r | RetainedLine(w, r) && Before(r, cursor) ensures r in delivered {
      var c, d := v.files[r.inode], w.files[r.inode];
      if r.inode < cursor.inode.value {
        assert c == d;
      } else if cursor.inode.value >= Archived(v) {
        LineEndSurvivesAppend(c, d, r.start, cursor.position);
      }
      assert RetainedLine(v, r);
    }
  }

  /** Whatever was delivered, so was every retained line before it. */
  ghost predicate NoGap(w: World, delivered: set<LineRef>) {
    && (forall q :: q in delivered ==> Begun(w, q))
    && (forall q, r :: q in delivered && RetainedLine(w, r) && Precedes(r, q) ==> r in delivered)
  }

  /** The line has been started, so everything before it in its file is complete. */
  predicate Begun(w: World, q: LineRef) {
    q.inode < |w.files| && q.start < |w.files[q.inode]| && LineStart(w.files[q.inode], q.start)
  }

  lemma NoGapSurvives(v: World, w: World, delivered: set<LineRef>)
    requires Evolves(v, w) && NoGap(v, delivered)
    ensures NoGap(w, delivered)
  {
    forall q | q in delivered ensures Begun(w, q) { assert Begun(v, q) && v.files[q.inode] <= w.files[q.inode]; }
    forall q, r | q in delivered && RetainedLine(w, r) && Precedes(r, q) ensures r in delivered {
      var c, d := v.files[r.inode], w.files[r.inode];
      assert Begun(v, q);
      if r.inode == q.inode {
        LineEndSurvivesAppend(c, d, r.start, q.start);
      } else {
        assert c == d;
      }
      assert RetainedLine(v, r);
    }
  }

  /** Handing a batch over closes the gap up to the cursor behind it, and its new lines come after all
      that was delivered before. */
  lemma BatchLeavesNoGap(w: World, next: Cursor, known: set<LineRef>, lines: seq<Bytes>, refs: seq<LineRef>)
    requires NoGap(w, known) && Safe(w, next, Delivered(known, refs)) && InFileOrder(w, lines, refs)
    requires Handed(w, refs, next)
    ensures NoGap(w, Delivered(known, refs))
    ensures forall q, r :: q in known && r in refs && r !in known ==> Precedes(q, r)
  {
    forall q, r | q in Delivered(known, refs) && RetainedLine(w, r) && Precedes(r, q)
      ensures r in Delivered(known, refs)
    {
      if q in refs { assert Before(r, next); }
    }
  }

  // ---------------------------------------------------------------- one poll

  /** The first entry of the saved inode, from index `k` on. */
  function FindInode(entries: seq<Entry>, inode: Option<nat>, k: nat): (index: Option<nat>)
    requires k <= |entries|
    ensures index.Some? ==> k <= index.value < |entries| && inode == Some(entries[index.value].inode)
    ensures index.None? && inode.Some? ==> forall j :: k <= j < |entries| ==> entries[j].inode != inode.value
    decreases |entries| - k
  {
    if k == |entries| then None
    else if inode == Some(entries[k].inode) then Some(k)
    else FindInode(entries, inode, k + 1)
  }

  function Refs(inode: nat, starts: seq<nat>): (refs: seq<LineRef>)
    ensures |refs| == |starts|
    ensures forall k :: 0 <= k < |refs| ==> refs[k] == LineRef(inode, starts[k])
  {
    seq(|starts|, (k: nat) requires k < |starts| => LineRef(inode, starts[k]))
  }

  /** The lines handed on are nonblank lines of the files, at most a batch, in file order. */
  predicate InFileOrder(w: World, lines: seq<Bytes>, refs: seq<LineRef>) {
    && |lines| == |refs| <= BATCH_SIZE
    && (forall k :: 0 <= k < |refs| ==>
          && refs[k].inode < |w.files| && refs[k].start < |w.files[refs[k].inode]|
          && lines[k] == Message(w.files[refs[k].inode], refs[k].start) != [])
    && (forall j, k :: 0 <= j < k < |refs| ==> Precedes(refs[j], refs[k]))
  }

  ghost function Delivered(delivered: set<LineRef>, refs: seq<LineRef>): set<LineRef> {
    delivered + set r <- refs
  }

  lemma NextFileIsSafe(w: World, entries: seq<Entry>, k: nat, here: Cursor, delivered: set<LineRef>)
    requires 0 < k < |entries| && entries[k].inode == entries[k - 1].inode + 1 < |w.files|
    requires here.inode == Some(entries[k - 1].inode) && here.position == |w.files[entries[k - 1].inode]|
    requires Safe(w, here, delivered)
    ensures Safe(w, Cursor(0, Some(entries[k].inode)), delivered)
  {
  }

  /** The lines are retained and nonblank, and the cursor is behind them. */
  predicate Handed(w: World, refs: seq<LineRef>, next: Cursor) {
    forall r <- refs :: RetainedLine(w, r) && Before(r, next)
  }

  lemma ReadIsSafe(w: World, from: Cursor, to: Cursor, path: Path, lines: seq<Bytes>, starts: seq<nat>,
                   delivered: set<LineRef>)
    requires Safe(w, from, delivered) && from.inode.Some? && to.inode == from.inode
    requires from.inode.value >= w.oldest && (path != Current ==> from.inode.value < Archived(w))
    requires ReadUpTo(w.files[from.inode.value], from.position, path, lines, starts, to.position)
    ensures Safe(w, to, Delivered(delivered, Refs(from.inode.value, starts)))
    ensures Handed(w, Refs(from.inode.value, starts), to)
  {
    var refs := Refs(from.inode.value, starts);
    forall r | RetainedLine(w, r) && Before(r, to) && r !in delivered ensures r in refs {
      assert !Before(r, from);
      assert r.start in starts;
      var k :| 0 <= k < |starts| && starts[k] == r.start;
      assert refs[k] == r;
    }
  }

  predicate ComeFrom(refs: seq<LineRef>, inode: nat, position: nat) {
    forall k :: 0 <= k < |refs| ==> refs[k].inode == inode && refs[k].start >= position
  }

  /** The lines come from one file, from its start position on, and the cursor moves past it. */
  predicate Origin(w: World, inode: nat, cursor: Cursor, refs: seq<LineRef>, next: Cursor) {
    && inode < |w.files| && ComeFrom(refs, inode, StartPosition(w, inode, cursor))
    && next.inode == Some(inode) && next.position > StartPosition(w, inode, cursor)
  }

  function StartPosition(w: Directory, inode: nat, cursor: Cursor): (position: nat)
    requires inode < |w.files|
    ensures position <= |w.files[inode]|
  {
    if cursor.inode == Some(inode) && cursor.position <= |w.files[inode]| then cursor.position else 0
  }

  lemma RefsAreInFileOrder(w: World, inode: nat, from: nat, path: Path, lines: seq<Bytes>, starts: seq<nat>, to: nat)
    requires inode < |w.files| && |lines| <= BATCH_SIZE
    requires ReadUpTo(w.files[inode], from, path, lines, starts, to)
    ensures InFileOrder(w, lines, Refs(inode, starts)) && ComeFrom(Refs(inode, starts), inode, from)
    ensures lines != [] ==> to > from
  {
    assert lines != [] ==> from <= starts[0] < to;
  }

  /** Reads one opened file, from the cursor if it is the saved one and from its beginning otherwise. */
  method ReadEntry(w: World, entry: Entry, cursor: Cursor, ghost delivered: set<LineRef>)
      returns (lines: seq<Bytes>, ghost refs: seq<LineRef>, next: Cursor)
    requires Resolve(w, entry.path) == Some(entry.inode)
    ensures next.inode == Some(entry.inode) && next.position <= |w.files[entry.inode]|
    ensures lines == [] && entry.path != Current ==>
              next.position == |w.files[entry.inode]| && entry.inode < Archived(w)
    ensures InFileOrder(w, lines, refs)
    ensures lines != [] ==> next.position > StartPosition(w, entry.inode, cursor)
    ensures lines == [] ==> forall p :: next.position <= p && Nonblank(w.files[entry.inode], p) ==>
              entry.path == Current && Pending(w.files[entry.inode], p)
    ensures ComeFrom(refs, entry.inode, StartPosition(w, entry.inode, cursor))
    ensures Safe(w, Cursor(StartPosition(w, entry.inode, cursor), Some(entry.inode)), delivered) ==>
              Safe(w, next, Delivered(delivered, refs)) && Handed(w, refs, next)
  {
    var content := w.files[entry.inode];
    var position := if cursor.inode == Some(entry.inode) then cursor.position else 0;
    if |content| < position { position := 0; }
    ghost var from := Cursor(position, Some(entry.inode));
    ghost var starts;
    lines, starts, position := ReadCompleteLines(content, position, entry.path);
    next := Cursor(position, Some(entry.inode));
    refs := Refs(entry.inode, starts);
    RefsAreInFileOrder(w, entry.inode, from.position, entry.path, lines, starts, position);
    if Safe(w, from, delivered) { ReadIsSafe(w, from, next, entry.path, lines, starts, delivered); }
  }

  // ---------------------------------------------------------------- why the newest rotated name has to stay

  /** A scan that finds no rotated name, then looks `previous` up in `first` and `current` in `second`, with
      the same names before and after it; and `current` still is that file when it is opened. */
  predicate Race(start: Directory, first: Directory, second: Directory, end: Directory) {
    && Evolves(start, first) && Evolves(first, second) && Evolves(second, end)
    && start.oldest == Named(start) && end.oldest == Named(end) && ListDir(start) == ListDir(end)
    && Resolve(first, Previous).None? && Resolve(end, Previous).Some?
    && Resolve(second, Current).Some? && Resolve(end, Current) == Resolve(second, Current)
  }

  /** What such a scan lists. */
  function RacedScan(first: Directory, second: Directory): seq<Entry> {
    AddUnseen(AddUnseen([], Previous, Resolve(first, Previous)), Current, Resolve(second, Current))
  }

  /** If every rotated file could expire within one scan, the names at both ends could agree while the
      saved file, retained as `previous`, was never listed. Whatever is then read from `current`, no
      nonblank line from the cursor on is read or acknowledged, and the new cursor is behind it. */
  lemma RaceSkipsLine(start: Directory, first: Directory, second: Directory, end: Directory, saved: Cursor,
                      r: LineRef, delivered: set<LineRef>, lines: seq<Bytes>, starts: seq<nat>, next: Cursor)
    requires Race(start, first, second, end) && next.inode == Resolve(second, Current)
    requires saved.inode == Resolve(end, Previous) == Some(r.inode)
    requires RetainedLine(end, r) && !Before(r, saved) && r !in delivered
    requires ReadUpTo(end.files[next.inode.value], StartPosition(end, next.inode.value, saved), Current, lines, starts,
                      next.position)
    ensures RacedScan(first, second) == [Entry(Current, next.inode.value)]
    ensures FindInode(RacedScan(first, second), saved.inode, 0).None?
    ensures var refs := Refs(next.inode.value, starts);
            r !in refs && Before(r, next) && !Safe(end, next, Delivered(delivered, refs))
  {
    var refs := Refs(next.inode.value, starts);
    assert r.inode < next.inode.value;
    assert r !in Delivered(delivered, refs);
  }

  lemma NothingBefore(w: Directory)
    requires |w.files| >= 2 && w.files[0] == []
    ensures Safe(w, Cursor(0, Some(1)), {})
  {
  }

  /** Such a race, from a cursor that was safe: three directories that keep their newest rotated file and
      one that does not, a retained line at the saved cursor, and an empty `current`. */
  lemma RaceHidesPrevious()
      returns (start: World, first: World, second: World, end: Directory, saved: Cursor, next: Cursor)
    ensures Race(start, first, second, end) && Safe(start, saved, {}) && OnBoundary(end, saved)
    ensures saved.inode == Resolve(end, Previous) && next.inode == Resolve(second, Current)
    ensures saved.inode.Some? && RetainedLine(end, LineRef(saved.inode.value, saved.position))
    ensures next.inode.Some? && ReadUpTo(end.files[next.inode.value], 0, Current, [], [], next.position)
    ensures Before(LineRef(saved.inode.value, saved.position), next) && !Safe(end, next, {})
  {
    var line: Bytes := ['x', '\n'];
    start := Directory([[], line], 0, true, true);
    first := Directory([[], line], 0, true, false);
    second := Directory([[], line, []], 0, true, true);
    end := Directory([[], line, []], 1, true, true);
    saved, next := Cursor(0, Some(1)), Cursor(0, Some(2));
    NothingBefore(start);
    NothingBefore(end);
    assert LineEnd(line, 0) == 2 && line[0..2] == line;
    assert RetainedLine(end, LineRef(1, 0));
    RaceSkipsLine(start, first, second, end, saved, LineRef(1, 0), {}, [], [], next);
    assert Delivered({}, Refs(2, [])) == {};
  }

  // ---------------------------------------------------------------- the files of a listing

  /** Where the reader stands before entry `k`: at the saved cursor, or at the end of the exhausted
      archive before it. */
  ghost predicate Between(w: World, entries: seq<Entry>, first: nat, k: nat, cursor: Cursor, here: Cursor)
    requires first <= k <= |entries|
  {
    if k == first then here == cursor
    else
      && here.inode == Some(entries[k - 1].inode) && here.inode.value < Archived(w)
      && here.position == |w.files[here.inode.value]|
  }

  lemma StartIsSafe(w: World, entries: seq<Entry>, k: nat, cursor: Cursor, here: Cursor, delivered: set<LineRef>)
    requires Trusted(entries, w) && Safe(w, cursor, delivered) && Safe(w, here, delivered)
    requires var first := FindInode(entries, cursor.inode, 0).GetOr(0);
             first <= k < |entries| && Between(w, entries, first, k, cursor, here)
    ensures Safe(w, Cursor(StartPosition(w, entries[k].inode, cursor), Some(entries[k].inode)), delivered)
  {
    var first := FindInode(entries, cursor.inode, 0);
    if k > first.GetOr(0) {
      assert entries[k].inode == entries[k - 1].inode + 1;
      assert cursor.inode != Some(entries[k].inode) by {
        if first.Some? { assert entries[k].inode > entries[first.value].inode; }
      }
      NextFileIsSafe(w, entries, k, here, delivered);
    } else if first.None? {
      assert cursor.inode != Some(entries[0].inode);
    }
  }

  /** A retained nonblank line the reader may hand on: finished, or in an archive. */
  predicate Readable(w: World, r: LineRef) {
    RetainedLine(w, r) && (r.inode < Archived(w) || !Pending(w.files[r.inode], r.start))
  }

  /** Nothing readable is left at or after the cursor. */
  ghost predicate Drained(w: World, cursor: Cursor) {
    forall r :: Readable(w, r) ==> Before(r, cursor)
  }

  lemma NothingListed(w: World)
    requires forall inode :: w.oldest <= inode < |w.files| ==> Listed([], inode)
    ensures forall cursor :: Drained(w, cursor)
  {
    assert !Listed([], w.oldest);
    assert |w.files| <= w.oldest;
  }

  lemma LastFileDrained(w: World, entries: seq<Entry>, k: nat, cursor: Cursor)
    requires Trusted(entries, w) && k < |entries| && (k == |entries| - 1 || entries[k].path == Current)
    requires forall inode :: w.oldest <= inode < |w.files| ==> Listed(entries, inode)
    requires Resolve(w, entries[k].path) == cursor.inode == Some(entries[k].inode)
    requires forall p :: cursor.position <= p && Nonblank(w.files[entries[k].inode], p) ==>
               entries[k].path == Current && Pending(w.files[entries[k].inode], p)
    ensures Drained(w, cursor)
  {
    forall r | Readable(w, r) ensures Before(r, cursor) {
      assert Listed(entries, r.inode);
      var j :| 0 <= j < |entries| && entries[j].inode == r.inode;
      assert j <= k;
    }
  }

  /** The loop invariant of the reader, as the world moves on between two system calls. */
  ghost predicate Reading(w: World, entries: seq<Entry>, k: nat, cursor: Cursor, here: Cursor,
                          delivered: set<LineRef>, safe: bool) {
    && Trusted(entries, w)
    && (safe ==> Safe(w, here, delivered) && Safe(w, cursor, delivered))
    && var first := FindInode(entries, cursor.inode, 0).GetOr(0);
       first <= k <= |entries| && Between(w, entries, first, k, cursor, here)
  }

  lemma NextReading(w: World, entries: seq<Entry>, k: nat, cursor: Cursor, here: Cursor,
                    delivered: set<LineRef>, refs: seq<LineRef>, safe: bool)
    requires Trusted(entries, w) && FindInode(entries, cursor.inode, 0).GetOr(0) <= k < |entries|
    requires here.inode == Some(entries[k].inode) && entries[k].inode < Archived(w)
    requires here.position == |w.files[entries[k].inode]| && refs == []
    requires safe ==> Safe(w, here, Delivered(delivered, refs)) && Safe(w, cursor, delivered)
    ensures Reading(w, entries, k + 1, cursor, here, delivered, safe)
  {
    assert Delivered(delivered, []) == delivered;
  }

  lemma ReadingSurvives(v: World, w: World, entries: seq<Entry>, k: nat, cursor: Cursor, here: Cursor,
                        delivered: set<LineRef>, safe: bool)
    requires Evolves(v, w) && Reading(v, entries, k, cursor, here, delivered, safe)
    ensures Reading(w, entries, k, cursor, here, delivered, safe)
  {
    if safe {
      SafetySurvives(v, w, here, delivered);
      SafetySurvives(v, w, cursor, delivered);
    }
  }

  /** A listing made of a directory that did not move is complete and can be found. */
  ghost predicate Complete(entries: seq<Entry>, w: World) {
    && (forall inode :: w.oldest <= inode < |w.files| ==> Listed(entries, inode))
    && (forall e <- entries :: Resolve(w, e.path) == Some(e.inode))
  }

  /** Opens entry `k`, unless its name now belongs to another file or to none. */
  method OpenEntry(w: World, entries: seq<Entry>, k: nat, cursor: Cursor, ghost here: Cursor,
                   ghost delivered: set<LineRef>, ghost safe: bool)
      returns (found: bool, lines: seq<Bytes>, ghost refs: seq<LineRef>, next: Cursor)
    requires Reading(w, entries, k, cursor, here, delivered, safe) && k < |entries|
    ensures found <==> Resolve(w, entries[k].path) == Some(entries[k].inode)
    ensures !found ==> lines == [] && next == cursor && !Complete(entries, w)
    ensures InFileOrder(w, lines, refs)
    ensures safe ==> Safe(w, next, Delivered(delivered, refs)) && Handed(w, refs, next)
    ensures refs != [] ==> Origin(w, entries[k].inode, cursor, refs, next)
    ensures lines == [] && entries[k].path == Current && Complete(entries, w) ==> Drained(w, next)
    ensures found && lines == [] && entries[k].path != Current ==>
              Reading(w, entries, k + 1, cursor, next, delivered, safe)
  {
    found := Resolve(w, entries[k].path) == Some(entries[k].inode);
    if !found {
      lines, refs, next := [], [], cursor;
      assert Delivered(delivered, refs) == delivered && entries[k] in entries;
      return;
    }
    if safe { StartIsSafe(w, entries, k, cursor, here, delivered); }
    lines, refs, next := ReadEntry(w, entries[k], cursor, delivered);
    if lines == [] {
      if entries[k].path != Current {
        NextReading(w, entries, k, cursor, next, delivered, refs, safe);
      } else if Complete(entries, w) {
        LastFileDrained(w, entries, k, next);
      }
    }
  }

  lemma NextInstant(world: Timeline, t: nat, entries: seq<Entry>, k: nat, cursor: Cursor, here: Cursor,
                    delivered: set<LineRef>, safe: bool)
    requires Chain(world) && Reading(world(t), entries, k, cursor, here, delivered, safe)
    ensures Reading(world(t + 1), entries, k, cursor, here, delivered, safe)
  {
    assert Evolves(world(t), world(t + 1));
    ReadingSurvives(world(t), world(t + 1), entries, k, cursor, here, delivered, safe);
  }

  lemma AllArchivesDrained(w: World, entries: seq<Entry>, cursor: Cursor)
    requires Complete(entries, w) && Trusted(entries, w) && entries != []
    requires cursor.inode == Some(entries[|entries| - 1].inode) && cursor.position == |w.files[cursor.inode.value]|
    ensures Drained(w, cursor)
  {
    LastFileDrained(w, entries, |entries| - 1, cursor);
  }

  lemma AllRead(w: World, entries: seq<Entry>, cursor: Cursor, here: Cursor, delivered: set<LineRef>, safe: bool)
    requires entries != [] && Reading(w, entries, |entries|, cursor, here, delivered, safe)
    ensures Complete(entries, w) ==> Drained(w, here)
  {
    if Complete(entries, w) { AllArchivesDrained(w, entries, here); }
  }

  /** Opens the entries from the saved inode on, until one yields lines or `current` is reached. The
      lines come from entry `at`, from its start position on. */
  method DrainEntries(world: Timeline, scanned: nat, entries: seq<Entry>, cursor: Cursor,
                      ghost delivered: set<LineRef>, ghost safe: bool)
      returns (lines: seq<Bytes>, ghost refs: seq<LineRef>, next: Cursor, t: nat, ghost at: nat)
    requires Chain(world) && entries != []
    requires Reading(world(scanned), entries, FindInode(entries, cursor.inode, 0).GetOr(0), cursor, cursor,
                     delivered, safe)
    ensures t >= scanned && InFileOrder(world(t), lines, refs)
    ensures safe ==> Safe(world(t), next, Delivered(delivered, refs)) && Handed(world(t), refs, next)
    ensures refs != [] ==>
              FindInode(entries, cursor.inode, 0).GetOr(0) <= at < |entries|
              && Origin(world(t), entries[at].inode, cursor, refs, next)
    ensures Complete(entries, world(t)) && lines == [] ==> Drained(world(t), next)
  {
    lines, refs, next, t := [], [], cursor, scanned;
    assert Delivered(delivered, []) == delivered;
    at := FindInode(entries, cursor.inode, 0).GetOr(0);
    var k := FindInode(entries, cursor.inode, 0).GetOr(0);
    while k < |entries|
      invariant scanned <= t && k <= |entries| && lines == [] && refs == []
      invariant Reading(world(t), entries, k, cursor, next, delivered, safe)
    {
      NextInstant(world, t, entries, k, cursor, next, delivered, safe);
      t := t + 1;
      var found;
      found, lines, refs, next := OpenEntry(world(t), entries, k, cursor, next, delivered, safe);
      if !found || lines != [] || entries[k].path == Current { return lines, refs, next, t, k; }
      k := k + 1;
    }
    AllRead(world(t), entries, cursor, next, delivered, safe);
  }

  lemma CursorMoved(world: Timeline, start: nat, t: nat, inode: nat, cursor: Cursor, refs: seq<LineRef>, next: Cursor)
    requires Chain(world) && start <= t && OnBoundary(world(start), cursor)
    requires Origin(world(t), inode, cursor, refs, next)
    ensures next != cursor
  {
    assert Evolves(world(start), world(t));
  }

  lemma NothingReplayed(world: Timeline, start: nat, scanned: nat, t: nat, entries: seq<Entry>, k: nat, cursor: Cursor,
                        refs: seq<LineRef>)
    requires Chain(world) && start <= scanned <= t && Trusted(entries, world(scanned)) && k < |entries|
    requires FindInode(entries, cursor.inode, 0).GetOr(0) <= k
    requires forall inode :: world(scanned).oldest <= inode < |world(start).files| ==> Listed(entries, inode)
    requires entries[k].inode < |world(t).files|
    requires ComeFrom(refs, entries[k].inode, StartPosition(world(t), entries[k].inode, cursor))
    ensures OnBoundary(world(start), cursor) && cursor.inode.Some? && world(t).oldest <= cursor.inode.value ==>
              forall r <- refs :: !Before(r, cursor)
  {
    assert Evolves(world(start), world(t)) && Evolves(world(scanned), world(t));
    if OnBoundary(world(start), cursor) && cursor.inode.Some? && world(t).oldest <= cursor.inode.value {
      assert Listed(entries, cursor.inode.value);
      var first := FindInode(entries, cursor.inode, 0);
      assert first.Some?;
      assert entries[k].inode >= entries[first.value].inode;
    }
  }

  /** The listing was made of this directory, and nothing moved while it was made. */
  ghost predicate ListingOf(entries: seq<Entry>, w: World) {
    && Trusted(entries, w) && Complete(entries, w)
  }

  lemma ListedIn(w: World, entries: seq<Entry>)
    requires entries == Scan(w)
    ensures ListingOf(entries, w)
  {
    ScanIsComplete(w);
  }

  /** Drains the files of a listing, whatever has changed since it was made. */
  method ReadListed(world: Timeline, start: nat, scanned: nat, entries: seq<Entry>, cursor: Cursor,
                    ghost delivered: set<LineRef>)
      returns (lines: seq<Bytes>, ghost refs: seq<LineRef>, next: Cursor, t: nat)
    requires Chain(world) && start <= scanned && entries != [] && ListingOf(entries, world(scanned))
    requires SameShape(world(start), world(scanned))
    ensures t >= scanned && InFileOrder(world(t), lines, refs)
    ensures Safe(world(start), cursor, delivered) ==>
              Safe(world(t), next, Delivered(delivered, refs)) && Handed(world(t), refs, next)
    ensures OnBoundary(world(start), cursor) && cursor.inode.Some? && world(t).oldest <= cursor.inode.value ==>
              forall r <- refs :: !Before(r, cursor)
    ensures OnBoundary(world(start), cursor) && lines != [] ==> next != cursor
    ensures world(start) == world(t) && lines == [] ==> Drained(world(t), next)
  {
    assert Evolves(world(start), world(scanned));
    ghost var safe := Safe(world(start), cursor, delivered);
    if safe { SafetySurvives(world(start), world(scanned), cursor, delivered); }
    ghost var at;
    lines, refs, next, t, at := DrainEntries(world, scanned, entries, cursor, delivered, safe);
    if refs != [] && OnBoundary(world(start), cursor) {
      NothingReplayed(world, start, scanned, t, entries, at, cursor, refs);
      CursorMoved(world, start, t, entries[at].inode, cursor, refs, next);
    }
    if world(start) == world(t) { Frozen(world, start, scanned, t); }
  }

  /** Drains the saved inode and newer retained files. Whatever changes underneath, a safe cursor stays
      safe once the returned lines are delivered: no nonblank retained line is passed over. While the
      saved inode is retained, nothing already acknowledged is read again; and a poll that returns no
      line from a directory at rest leaves nothing unread. */
  method ReadNewLines(world: Timeline, start: nat, cursor: Cursor, ghost delivered: set<LineRef>)
      returns (lines: seq<Bytes>, ghost refs: seq<LineRef>, next: Cursor, t: nat)
    requires Chain(world)
    ensures t >= start
    ensures InFileOrder(world(t), lines, refs)
    ensures Safe(world(start), cursor, delivered) ==>
              Safe(world(t), next, Delivered(delivered, refs)) && Handed(world(t), refs, next)
    ensures OnBoundary(world(start), cursor) && cursor.inode.Some? && world(t).oldest <= cursor.inode.value ==>
              forall r <- refs :: !Before(r, cursor)
    ensures OnBoundary(world(start), cursor) && lines != [] ==> next != cursor
    ensures world(start) == world(t) && lines == [] ==> Drained(world(t), next)
  {
    var files;
    files, t := RetainedLogFiles(world, start);
    assert Evolves(world(start), world(t));
    if files.None? || files.value == [] {
      if Safe(world(start), cursor, delivered) { SafetySurvives(world(start), world(t), cursor, delivered); }
      if world(start) == world(t) {
        ScanIsComplete(world(t));
        NothingListed(world(t));
      }
      assert Delivered(delivered, []) == delivered;
      return [], [], cursor, t;
    }
    ListedIn(world(t), files.value);
    lines, refs, next, t := ReadListed(world, start, t, files.value, cursor, delivered);
  }

  // ---------------------------------------------------------------- all services, over every run

  function CursorOf(state: map<string, Cursor>, service: string): Cursor {
    if service in state then state[service] else FRESH
  }

  /** One batch handed to Loki: in which poll and for which service, the world it was read in, and whether
      the push succeeded. */
  datatype Push = Push(poll: nat, index: nat, service: string, at: nat, lines: seq<Bytes>, refs: seq<LineRef>, ok: bool)

  /** Only a push that succeeded acknowledges anything. */
  ghost function Acknowledged(known: set<LineRef>, refs: seq<LineRef>, ok: bool): set<LineRef> {
    if ok then Delivered(known, refs) else known
  }

  /** The union of the batches of one service that were pushed successfully. */
  ghost function Acked(pushes: seq<Push>, service: string): set<LineRef> {
    if pushes == [] then {}
    else
      var n := |pushes| - 1;
      if pushes[n].service == service then Acknowledged(Acked(pushes[..n], service), pushes[n].refs, pushes[n].ok)
      else Acked(pushes[..n], service)
  }

  lemma AckedGrows(pushes: seq<Push>, p: Push, service: string)
    ensures Acked(pushes + [p], service)
            == if p.service == service then Acknowledged(Acked(pushes, service), p.refs, p.ok)
            else Acked(pushes, service)
  {
    assert (pushes + [p])[..|pushes|] == pushes;
  }

  ghost predicate ServiceSafe(w: World, cursor: Cursor, acked: set<LineRef>) {
    Safe(w, cursor, acked) && NoGap(w, acked)
  }

  ghost predicate AllSafe(worlds: string -> Timeline, t: nat, state: map<string, Cursor>, pushes: seq<Push>) {
    forall service :: ServiceSafe(worlds(service)(t), CursorOf(state, service), Acked(pushes, service))
  }

  ghost predicate AllChains(worlds: string -> Timeline) {
    forall service :: Chain(worlds(service))
  }

  lemma AllSafetySurvives(worlds: string -> Timeline, t: nat, later: nat, state: map<string, Cursor>, pushes: seq<Push>)
    requires AllChains(worlds) && t <= later && AllSafe(worlds, t, state, pushes)
    ensures AllSafe(worlds, later, state, pushes)
  {
    forall service ensures ServiceSafe(worlds(service)(later), CursorOf(state, service), Acked(pushes, service)) {
      assert Chain(worlds(service));
      assert Evolves(worlds(service)(t), worlds(service)(later));
      SafetySurvives(worlds(service)(t), worlds(service)(later), CursorOf(state, service), Acked(pushes, service));
      NoGapSurvives(worlds(service)(t), worlds(service)(later), Acked(pushes, service));
    }
  }

  lemma AllFrozen(worlds: string -> Timeline, start: nat, middle: nat, t: nat)
    requires AllChains(worlds) && start <= middle <= t
    ensures forall service :: worlds(service)(start) == worlds(service)(t) ==>
              worlds(service)(middle) == worlds(service)(start)
  {
    forall service | worlds(service)(start) == worlds(service)(t)
      ensures worlds(service)(middle) == worlds(service)(start)
    {
      assert Chain(worlds(service));
      Frozen(worlds(service), start, middle, t);
    }
  }

  /** What was pushed for one service changes nothing for the others. */
  lemma OneServiceMoves(worlds: string -> Timeline, t: nat, state: map<string, Cursor>, pushes: seq<Push>,
                        service: string, state': map<string, Cursor>, pushes': seq<Push>)
    requires AllSafe(worlds, t, state, pushes)
    requires forall other :: other != service ==>
      CursorOf(state', other) == CursorOf(state, other) && Acked(pushes', other) == Acked(pushes, other)
    requires ServiceSafe(worlds(service)(t), CursorOf(state', service), Acked(pushes', service))
    ensures AllSafe(worlds, t, state', pushes')
  {
    forall other ensures ServiceSafe(worlds(other)(t), CursorOf(state', other), Acked(pushes', other)) {
      assert ServiceSafe(worlds(other)(t), CursorOf(state, other), Acked(pushes, other));
    }
  }

  /** Over a directory at rest the cursor moved, or nothing is left to read. */
  ghost predicate Moved(before: World, after: World, saved: Cursor, next: Cursor) {
    before == after ==> next != saved || Drained(after, next)
  }

  /** A line pushed for the first time comes after every line acknowledged before. */
  predicate FollowsAll(known: set<LineRef>, refs: seq<LineRef>) {
    forall q, r :: q in known && r in refs && r !in known ==> Precedes(q, r)
  }

  /** Serves one service from its cursor. Exactly a successful push acknowledges the batch and lets the
      cursor pass its lines; a failed one leaves both where they were. */
  method Serve(world: Timeline, start: nat, cursor: Cursor, ghost known: set<LineRef>, pushed: bool)
      returns (lines: seq<Bytes>, ghost refs: seq<LineRef>, next: Option<Cursor>, t: nat)
    requires Chain(world) && ServiceSafe(world(start), cursor, known)
    ensures t >= start && InFileOrder(world(t), lines, refs)
    ensures forall r <- refs :: RetainedLine(world(t), r)
    ensures lines != [] ==> (next.Some? <==> pushed)
    ensures ServiceSafe(world(t), next.GetOr(cursor), Acknowledged(known, refs, pushed))
    ensures ServiceSafe(world(t), cursor, Acknowledged(known, refs, pushed))
    ensures FollowsAll(known, refs)
    ensures pushed ==> Moved(world(start), world(t), cursor, next.GetOr(cursor))
  {
    var after;
    lines, refs, after, t := ReadNewLines(world, start, cursor, known);
    assert Evolves(world(start), world(t));
    SafetySurvives(world(start), world(t), cursor, known);
    NoGapSurvives(world(start), world(t), known);
    BatchLeavesNoGap(world(t), after, known, lines, refs);
    next := None;
    if lines != [] {
      if pushed { next := Some(after); }
    } else {
      assert Delivered(known, refs) == known;
      if after != cursor { next := Some(after); }
    }
  }

  /** The fate of one iteration: which pushes succeed, how many services are served before the process
      dies (if it does), and whether the final replacement of the state file takes effect. */
  datatype Poll = Poll(pushes: seq<bool>, served: nat, saved: bool)

  ghost predicate AllMoved(worlds: string -> Timeline, services: seq<string>, pushes: seq<bool>, n: nat, start: nat,
                           t: nat, saved: map<string, Cursor>, state: map<string, Cursor>)
    requires n <= |services| == |pushes|
  {
    forall j :: 0 <= j < n && pushes[j] ==>
      Moved(worlds(services[j])(start), worlds(services[j])(t), CursorOf(saved, services[j]),
            CursorOf(state, services[j]))
  }

  lemma AnotherMoved(worlds: string -> Timeline, services: seq<string>, pushes: seq<bool>, i: nat, start: nat,
                     before: nat, t: nat, saved: map<string, Cursor>, state: map<string, Cursor>, next: Option<Cursor>)
    requires AllChains(worlds) && start <= before <= t && i < |services| == |pushes|
    requires forall j, k :: 0 <= j < k < |services| ==> services[j] != services[k]
    requires AllMoved(worlds, services, pushes, i, start, before, saved, state)
    requires CursorOf(state, services[i]) == CursorOf(saved, services[i])
    requires pushes[i] ==>
      Moved(worlds(services[i])(before), worlds(services[i])(t), CursorOf(saved, services[i]),
            next.GetOr(CursorOf(saved, services[i])))
    ensures AllMoved(worlds, services, pushes, i + 1, start, t, saved, Updated(state, services[i], next))
  {
    AllFrozen(worlds, start, before, t);
    var state' := Updated(state, services[i], next);
    forall j | 0 <= j < i + 1 && pushes[j]
      ensures Moved(worlds(services[j])(start), worlds(services[j])(t), CursorOf(saved, services[j]),
                    CursorOf(state', services[j]))
    {
      if j < i {
        assert Moved(worlds(services[j])(start), worlds(services[j])(before), CursorOf(saved, services[j]),
                     CursorOf(state, services[j]));
      }
    }
  }

  // ---------------------------------------------------------------- the trace of pushes

  /** The push happened in this poll, for the service and with the fate the poll gives it, and carried the
      nonblank lines of retained files. */
  ghost predicate Genuine(p: Push, services: seq<string>, worlds: string -> Timeline, poll: Poll) {
    && p.index < |services| == |poll.pushes| && p.index < poll.served && p.service == services[p.index]
    && p.ok == poll.pushes[p.index]
    && p.lines != [] && InFileOrder(worlds(p.service)(p.at), p.lines, p.refs)
    && forall r <- p.refs :: RetainedLine(worlds(p.service)(p.at), r)
  }

  /** Polls in order, at most one push for each service in each. */
  predicate InSequence(pushes: seq<Push>) {
    forall j, k :: 0 <= j < k < |pushes| ==>
      pushes[j].poll < pushes[k].poll || (pushes[j].poll == pushes[k].poll && pushes[j].index < pushes[k].index)
  }

  /** Every push that succeeded brings its new lines after all lines of its service acknowledged before. */
  ghost predicate NewLinesInOrder(pushes: seq<Push>) {
    pushes != [] ==>
      var n := |pushes| - 1;
      NewLinesInOrder(pushes[..n])
      && (pushes[n].ok ==> FollowsAll(Acked(pushes[..n], pushes[n].service), pushes[n].refs))
  }

  lemma {:induction false} AckedByAPush(pushes: seq<Push>, service: string, r: LineRef)
    ensures r in Acked(pushes, service) <==>
            exists k :: 0 <= k < |pushes| && pushes[k].ok && pushes[k].service == service && r in pushes[k].refs
    decreases |pushes|
  {
    if pushes != [] {
      var n := |pushes| - 1;
      AckedByAPush(pushes[..n], service, r);
      if r in Acked(pushes[..n], service) {
        var k :| 0 <= k < n && pushes[..n][k].ok && pushes[..n][k].service == service && r in pushes[..n][k].refs;
        assert pushes[k] == pushes[..n][k];
      }
      if k :| 0 <= k < |pushes| && pushes[k].ok && pushes[k].service == service && r in pushes[k].refs {
        if k < n { assert pushes[..n][k] == pushes[k]; }
      }
    }
  }

  /** Read off the trace: between two successful pushes of one service, each line of the later one is a
      replay, or comes after each line of the earlier one in the files. */
  lemma {:induction false} FirstPushesKeepFileOrder(pushes: seq<Push>, j: nat, k: nat, q: LineRef, r: LineRef)
    requires NewLinesInOrder(pushes) && j < k < |pushes| && pushes[j].ok && pushes[k].ok
    requires pushes[j].service == pushes[k].service && q in pushes[j].refs && r in pushes[k].refs
    ensures Precedes(q, r)
        || exists i :: 0 <= i < k && pushes[i].ok && pushes[i].service == pushes[k].service && r in pushes[i].refs
    decreases |pushes|
  {
    var n := |pushes| - 1;
    if k < n {
      assert pushes[..n][j] == pushes[j] && pushes[..n][k] == pushes[k];
      FirstPushesKeepFileOrder(pushes[..n], j, k, q, r);
      if !Precedes(q, r) {
        var i :| 0 <= i < k && pushes[..n][i].ok && pushes[..n][i].service == pushes[..n][k].service
            && r in pushes[..n][i].refs;
        assert pushes[i] == pushes[..n][i];
      }
    } else {
      var service := pushes[k].service;
      assert pushes[..n][j] == pushes[j];
      AckedByAPush(pushes[..n], service, q);
      AckedByAPush(pushes[..n], service, r);
      if !Precedes(q, r) {
        var i :| 0 <= i < n && pushes[..n][i].ok && pushes[..n][i].service == service && r in pushes[..n][i].refs;
        assert pushes[i] == pushes[..n][i];
      }
    }
  }

  /** The trace of one poll so far: the earlier pushes, and genuine ones of this poll for the first `i`
      services. */
  ghost predicate Extends(pushes: seq<Push>, before: seq<Push>, services: seq<string>, worlds: string -> Timeline,
                          poll: Poll, number: nat, i: nat) {
    && before <= pushes
    && forall k :: |before| <= k < |pushes| ==>
         pushes[k].poll == number && pushes[k].index < i && Genuine(pushes[k], services, worlds, poll)
  }

  lemma StaysInSequence(pushes: seq<Push>, before: seq<Push>, services: seq<string>, worlds: string -> Timeline,
                        poll: Poll, number: nat, p: Push)
    requires InSequence(pushes) && Extends(pushes, before, services, worlds, poll, number, p.index)
    requires (forall k :: 0 <= k < |before| ==> before[k].poll < number) && p.poll == number
    ensures InSequence(pushes + [p])
  {
    forall k | 0 <= k < |pushes|
      ensures pushes[k].poll < number || (pushes[k].poll == number && pushes[k].index < p.index)
    {
      if k < |before| { assert pushes[k] == before[k]; }
    }
  }

  lemma AnotherPush(pushes: seq<Push>, before: seq<Push>, services: seq<string>, worlds: string -> Timeline, poll: Poll,
                    number: nat, p: Push)
    requires InSequence(pushes) && NewLinesInOrder(pushes)
    requires Extends(pushes, before, services, worlds, poll, number, p.index)
    requires forall k :: 0 <= k < |before| ==> before[k].poll < number
    requires p.poll == number && Genuine(p, services, worlds, poll)
    requires p.ok ==> FollowsAll(Acked(pushes, p.service), p.refs)
    ensures InSequence(pushes + [p]) && NewLinesInOrder(pushes + [p])
    ensures Extends(pushes + [p], before, services, worlds, poll, number, p.index + 1)
  {
    assert (pushes + [p])[..|pushes|] == pushes;
    StaysInSequence(pushes, before, services, worlds, poll, number, p);
  }

  /** A batch without lines is not pushed. */
  ghost function Traced(pushes: seq<Push>, p: Push): seq<Push> {
    if p.lines == [] then pushes else pushes + [p]
  }

  lemma TracedAcknowledges(pushes: seq<Push>, p: Push)
    requires |p.lines| == |p.refs|
    ensures Acked(Traced(pushes, p), p.service) == Acknowledged(Acked(pushes, p.service), p.refs, p.ok)
    ensures forall other :: other != p.service ==> Acked(Traced(pushes, p), other) == Acked(pushes, other)
  {
    if p.lines == [] {
      assert Delivered(Acked(pushes, p.service), p.refs) == Acked(pushes, p.service);
    } else {
      AckedGrows(pushes, p, p.service);
      forall other | other != p.service ensures Acked(pushes + [p], other) == Acked(pushes, other) {
        AckedGrows(pushes, p, other);
      }
    }
  }

  /** What one iteration keeps while it serves its services: the cursors it has and those it saved are
      safe, and the trace is in order. */
  ghost predicate Serving(services: seq<string>, worlds: string -> Timeline, poll: Poll, number: nat, i: nat, t: nat,
                          saved: map<string, Cursor>, state: map<string, Cursor>, before: seq<Push>,
                          pushes: seq<Push>) {
    && AllSafe(worlds, t, state, pushes) && AllSafe(worlds, t, saved, pushes)
    && InSequence(pushes) && NewLinesInOrder(pushes)
    && Extends(pushes, before, services, worlds, poll, number, i)
    && (forall k :: 0 <= k < |before| ==> before[k].poll < number)
  }

  lemma ServingStarts(services: seq<string>, worlds: string -> Timeline, poll: Poll, number: nat, t: nat,
                      saved: map<string, Cursor>, pushes: seq<Push>)
    requires AllSafe(worlds, t, saved, pushes) && InSequence(pushes) && NewLinesInOrder(pushes)
    requires forall k :: 0 <= k < |pushes| ==> pushes[k].poll < number
    ensures Serving(services, worlds, poll, number, 0, t, saved, saved, pushes, pushes)
  {
  }

  lemma ServingEnds(services: seq<string>, worlds: string -> Timeline, poll: Poll, number: nat, i: nat, t: nat,
                    saved: map<string, Cursor>, state: map<string, Cursor>, before: seq<Push>, pushes: seq<Push>)
    requires i <= |services| && Serving(services, worlds, poll, number, i, t, saved, state, before, pushes)
    ensures AllSafe(worlds, t, state, pushes) && AllSafe(worlds, t, saved, pushes)
    ensures InSequence(pushes) && NewLinesInOrder(pushes)
    ensures Extends(pushes, before, services, worlds, poll, number, |services|)
  {
  }

  lemma ServingSurvives(services: seq<string>, worlds: string -> Timeline, poll: Poll, number: nat, i: nat, t: nat,
                        later: nat, saved: map<string, Cursor>, state: map<string, Cursor>, before: seq<Push>,
                        pushes: seq<Push>)
    requires AllChains(worlds) && t <= later
    requires Serving(services, worlds, poll, number, i, t, saved, state, before, pushes)
    ensures Serving(services, worlds, poll, number, i, later, saved, state, before, pushes)
  {
    AllSafetySurvives(worlds, t, later, state, pushes);
    AllSafetySurvives(worlds, t, later, saved, pushes);
  }

  lemma ServiceServed(services: seq<string>, worlds: string -> Timeline, poll: Poll, number: nat, p: Push,
                      saved: map<string, Cursor>, state: map<string, Cursor>, state': map<string, Cursor>,
                      before: seq<Push>, pushes: seq<Push>)
    requires p.index < |services| == |poll.pushes| && p.index < poll.served
    requires p.poll == number && p.service == services[p.index] && p.ok == poll.pushes[p.index]
    requires Serving(services, worlds, poll, number, p.index, p.at, saved, state, before, pushes)
    requires InFileOrder(worlds(p.service)(p.at), p.lines, p.refs) && FollowsAll(Acked(pushes, p.service), p.refs)
    requires forall r <- p.refs :: RetainedLine(worlds(p.service)(p.at), r)
    requires forall other :: other != p.service ==> CursorOf(state', other) == CursorOf(state, other)
    requires ServiceSafe(worlds(p.service)(p.at), CursorOf(state', p.service),
                         Acknowledged(Acked(pushes, p.service), p.refs, p.ok))
    requires ServiceSafe(worlds(p.service)(p.at), CursorOf(saved, p.service),
                         Acknowledged(Acked(pushes, p.service), p.refs, p.ok))
    ensures Serving(services, worlds, poll, number, p.index + 1, p.at, saved, state', before, Traced(pushes, p))
  {
    TracedAcknowledges(pushes, p);
    OneServiceMoves(worlds, p.at, saved, pushes, p.service, saved, Traced(pushes, p));
    OneServiceMoves(worlds, p.at, state, pushes, p.service, state', Traced(pushes, p));
    if p.lines != [] { AnotherPush(pushes, before, services, worlds, poll, number, p); }
  }

  function Updated(state: map<string, Cursor>, service: string, next: Option<Cursor>): map<string, Cursor> {
    if next.Some? then state[service := next.value] else state
  }

  predicate Untouched(services: seq<string>, i: nat, saved: map<string, Cursor>, state: map<string, Cursor>) {
    forall j :: i <= j < |services| ==> CursorOf(state, services[j]) == CursorOf(saved, services[j])
  }

  /** One turn of the loop over the services, from the instant it begins to the instant of its push. */
  lemma TurnTaken(services: seq<string>, worlds: string -> Timeline, poll: Poll, number: nat, start: nat, begun: nat,
                  p: Push, next: Option<Cursor>, saved: map<string, Cursor>, state: map<string, Cursor>,
                  before: seq<Push>, pushes: seq<Push>)
    requires AllChains(worlds) && start <= begun <= p.at && p.index < |services| == |poll.pushes|
    requires forall j, k :: 0 <= j < k < |services| ==> services[j] != services[k]
    requires p.index < poll.served && p.poll == number && p.service == services[p.index]
    requires p.ok == poll.pushes[p.index]
    requires Serving(services, worlds, poll, number, p.index, begun, saved, state, before, pushes)
    requires AllMoved(worlds, services, poll.pushes, p.index, start, begun, saved, state)
    requires Untouched(services, p.index, saved, state)
    requires InFileOrder(worlds(p.service)(p.at), p.lines, p.refs) && FollowsAll(Acked(pushes, p.service), p.refs)
    requires forall r <- p.refs :: RetainedLine(worlds(p.service)(p.at), r)
    requires var (world, cursor) := (worlds(p.service), CursorOf(state, p.service));
             && ServiceSafe(world(p.at), next.GetOr(cursor), Acknowledged(Acked(pushes, p.service), p.refs, p.ok))
             && ServiceSafe(world(p.at), cursor, Acknowledged(Acked(pushes, p.service), p.refs, p.ok))
             && (p.ok ==> Moved(world(begun), world(p.at), cursor, next.GetOr(cursor)))
    ensures Serving(services, worlds, poll, number, p.index + 1, p.at, saved, Updated(state, p.service, next), before,
                    Traced(pushes, p))
    ensures AllMoved(worlds, services, poll.pushes, p.index + 1, start, p.at, saved, Updated(state, p.service, next))
    ensures Untouched(services, p.index + 1, saved, Updated(state, p.service, next))
  {
    AnotherMoved(worlds, services, poll.pushes, p.index, start, begun, p.at, saved, state, next);
    ServingSurvives(services, worlds, poll, number, p.index, begun, p.at, saved, state, before, pushes);
    ServiceServed(services, worlds, poll, number, p, saved, state, Updated(state, p.service, next), before, pushes);
  }

  /** Serves service `i` in its turn and puts the push it makes, if any, on the trace. */
  method TakeTurn(services: seq<string>, worlds: string -> Timeline, i: nat, start: nat, begun: nat, poll: Poll,
                  ghost number: nat, ghost saved: map<string, Cursor>, state: map<string, Cursor>,
                  ghost before: seq<Push>, ghost pushes: seq<Push>)
      returns (next: Option<Cursor>, ghost push: Push, t: nat)
    requires AllChains(worlds) && start <= begun && i < |services| == |poll.pushes| && i < poll.served
    requires forall j, k :: 0 <= j < k < |services| ==> services[j] != services[k]
    requires Serving(services, worlds, poll, number, i, begun, saved, state, before, pushes)
    requires AllMoved(worlds, services, poll.pushes, i, start, begun, saved, state)
    requires Untouched(services, i, saved, state)
    ensures t >= begun && (push.lines != [] ==> (next.Some? <==> push.ok))
    ensures Serving(services, worlds, poll, number, i + 1, t, saved, Updated(state, services[i], next), before,
                    Traced(pushes, push))
    ensures AllMoved(worlds, services, poll.pushes, i + 1, start, t, saved, Updated(state, services[i], next))
    ensures Untouched(services, i + 1, saved, Updated(state, services[i], next))
  {
    var service := services[i];
    var cursor := CursorOf(state, service);
    assert Chain(worlds(service)) && ServiceSafe(worlds(service)(begun), cursor, Acked(pushes, service));
    var lines;
    ghost var refs;
    lines, refs, next, t := Serve(worlds(service), begun, cursor, Acked(pushes, service), poll.pushes[i]);
    push := Push(number, i, service, t, lines, refs, poll.pushes[i]);
    TurnTaken(services, worlds, poll, number, start, begun, push, next, saved, state, before, pushes);
  }

  class Forwarder {
    /** The durable state file, replaced atomically. */
    var stateFile: map<string, Cursor>
    /** Every batch handed to Loki. */
    ghost var pushes: seq<Push>

    constructor ()
      ensures stateFile == map[] && pushes == []
    {
      stateFile, pushes := map[], [];
    }

    /** One iteration. Every push it makes is on the trace with the fate it had; nothing else
        acknowledges a line, and the saved and the working cursors never pass a line that no successful
        push acknowledged. */
    method ProcessLogs(services: seq<string>, worlds: string -> Timeline, start: nat, poll: Poll, ghost number: nat)
        returns (t: nat)
      requires AllChains(worlds) && |poll.pushes| == |services|
      requires AllSafe(worlds, start, stateFile, pushes) && InSequence(pushes) && NewLinesInOrder(pushes)
      requires forall k :: 0 <= k < |pushes| ==> pushes[k].poll < number
      requires forall i, j :: 0 <= i < j < |services| ==> services[i] != services[j]
      modifies this
      ensures t >= start && AllSafe(worlds, t, stateFile, pushes) && InSequence(pushes) && NewLinesInOrder(pushes)
      ensures Extends(pushes, old(pushes), services, worlds, poll, number, |services|)
      ensures !poll.saved || poll.served < |services| ==> stateFile == old(stateFile)
      ensures poll.saved && poll.served >= |services| && (forall i :: 0 <= i < |services| ==> poll.pushes[i]) ==>
                AllMoved(worlds, services, poll.pushes, |services|, start, t, old(stateFile), stateFile)
    {
      t := start;
      ghost var saved, before := stateFile, pushes;
      var state := stateFile;
      var changed := false;
      ServingStarts(services, worlds, poll, number, t, saved, pushes);
      for i := 0 to |services|
        invariant t >= start && stateFile == saved
        invariant Serving(services, worlds, poll, number, i, t, saved, state, before, pushes)
        invariant Untouched(services, i, saved, state)
        invariant !changed ==> state == saved
        invariant AllMoved(worlds, services, poll.pushes, i, start, t, saved, state)
      {
        if i >= poll.served {
          ServingEnds(services, worlds, poll, number, i, t, saved, state, before, pushes);
          return;
        }
        var next;
        ghost var push;
        next, push, t := TakeTurn(services, worlds, i, start, t, poll, number, saved, state, before, pushes);
        if next.Some? {
          state := state[services[i] := next.value];
          changed := true;
        }
        pushes := Traced(pushes, push);
      }
      ServingEnds(services, worlds, poll, number, |services|, t, saved, state, before, pushes);
      if changed && poll.saved && poll.served >= |services| { stateFile := state; }
    }
  }

  /** Every push on the trace is one that its poll made, with the fate the poll gave it. */
  ghost predicate AllGenuine(pushes: seq<Push>, services: seq<string>, worlds: string -> Timeline, polls: seq<Poll>) {
    forall k :: 0 <= k < |pushes| ==>
      pushes[k].poll < |polls| && Genuine(pushes[k], services, worlds, polls[pushes[k].poll])
  }

  lemma OnePollIsGenuine(pushes: seq<Push>, before: seq<Push>, services: seq<string>, worlds: string -> Timeline,
                         polls: seq<Poll>, i: nat)
    requires i < |polls| && AllGenuine(before, services, worlds, polls)
    requires Extends(pushes, before, services, worlds, polls[i], i, |services|)
    requires forall k :: 0 <= k < |before| ==> before[k].poll < i
    ensures AllGenuine(pushes, services, worlds, polls) && forall k :: 0 <= k < |pushes| ==> pushes[k].poll < i + 1
  {
    forall k | 0 <= k < |pushes|
      ensures pushes[k].poll < i + 1 && Genuine(pushes[k], services, worlds, polls[pushes[k].poll])
    {
      if k < |before| { assert pushes[k] == before[k]; }
    }
  }

  /** Every run from an empty state file: any number of polls at any instants, each with failing pushes,
      a crash or a lost save, over directories that change all the while. The trace holds exactly genuine
      pushes; the saved cursors sit between lines and pass no retained nonblank line but those of the
      pushes that succeeded; and lines pushed for the first time keep file order. */
  method Polls(services: seq<string>, worlds: string -> Timeline, polls: seq<Poll>, pauses: seq<nat>)
      returns (state: map<string, Cursor>, ghost pushes: seq<Push>, t: nat)
    requires AllChains(worlds) && |pauses| == |polls|
    requires forall poll <- polls :: |poll.pushes| == |services|
    requires forall i, j :: 0 <= i < j < |services| ==> services[i] != services[j]
    ensures forall service :: OnBoundary(worlds(service)(t), CursorOf(state, service))
    ensures AllGenuine(pushes, services, worlds, polls) && InSequence(pushes)
    ensures AllSafe(worlds, t, state, pushes)
    ensures NewLinesInOrder(pushes)
  {
    var forwarder := new Forwarder();
    t := 0;
    for i := 0 to |polls|
      invariant AllSafe(worlds, t, forwarder.stateFile, forwarder.pushes)
      invariant InSequence(forwarder.pushes) && NewLinesInOrder(forwarder.pushes)
      invariant AllGenuine(forwarder.pushes, services, worlds, polls)
      invariant forall k :: 0 <= k < |forwarder.pushes| ==> forwarder.pushes[k].poll < i
    {
      ghost var before := forwarder.pushes;
      AllSafetySurvives(worlds, t, t + pauses[i], forwarder.stateFile, before);
      t := forwarder.ProcessLogs(services, worlds, t + pauses[i], polls[i], i);
      OnePollIsGenuine(forwarder.pushes, before, services, worlds, polls, i);
    }
    state, pushes := forwarder.stateFile, forwarder.pushes;
    forall service ensures OnBoundary(worlds(service)(t), CursorOf(state, service)) {
      assert ServiceSafe(worlds(service)(t), CursorOf(state, service), Acked(pushes, service));
    }
  }
}
