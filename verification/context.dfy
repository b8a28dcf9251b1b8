/**
 * The shared extension context of the buf editor integration: the language
 * server's lifecycle status, a busy flag and the detected buf binary, each
 * behind a setter that decides whether the "context changed" event fires.
 *
 * The context is an immutable record here; every setter returns the next
 * record together with the number of change notifications it fired (0 or 1).
 */
module Context {
  import opened Wrappers

  /** The five lifecycle states of the language server. Any state may follow
      any other: the context enforces no transition table. */
  datatype ServerStatus =
    | ServerDisabled
    | ServerStarting
    | ServerRunning
    | ServerStopped
    | ServerErrored

  /** A file known to the language server and the buf module that owns it. */
  datatype BufFile = BufFile(path: string, moduleName: string)

  /**
   * A detected buf binary: its path and the accepted version range (kept as
   * opaque text). `ref` is the identity of the object: every construction
   * gets a reference no earlier construction received, so two values with the
   * same `ref` are the same object, and comparing whole values (`ref`
   * included) is exactly reference comparison. Two descriptors built
   * separately from the same path and range differ in `ref`.
   */
  datatype BufVersion = BufVersion(ref: nat, path: string, range: string)

  /** The server output channel owned by the context. */
  datatype Channel = Open | Disposed

  /** The observable fields of the context. `moduleName` and `bufFiles` are
      only declared here; other components write them. */
  datatype BufContext = BufContext(
    moduleName: string,
    bufFiles: map<string, BufFile>,
    serverOutputChannel: Channel,
    busy: bool,
    buf: Option<BufVersion>,
    status: ServerStatus)

  /** The result of a setter: the next context and how many change
      notifications the write fired. */
  datatype Update = Update(next: BufContext, fired: nat)

  /** A context as the constructor leaves it. */
  function Fresh(): (c: BufContext)
    ensures c.status == ServerStopped
    ensures !c.busy
    ensures c.buf == None
    ensures c.moduleName == ""
    ensures c.bufFiles == map[]
    ensures c.serverOutputChannel == Open
  {
    BufContext("", map[], Open, false, None, ServerStopped)
  }

  /**
   * Constructs a descriptor. `nextRef` is the first reference not yet handed
   * out; the second component of the result is the new first free reference.
   */
  function NewBufVersion(nextRef: nat, path: string, range: string): (r: (BufVersion, nat))
    ensures r.0.path == path && r.0.range == range
    ensures nextRef <= r.0.ref < r.1
  {
    (BufVersion(nextRef, path, range), nextRef + 1)
  }

  /** Constructs one descriptor per (path, range) pair, threading the first
      free reference from each construction to the next. */
  function NewBufVersions(nextRef: nat, specs: seq<(string, string)>): (r: (seq<BufVersion>, nat))
    ensures |r.0| == |specs|
    ensures nextRef <= r.1
    ensures forall i :: 0 <= i < |r.0| ==> nextRef <= r.0[i].ref < r.1
    ensures forall i :: 0 <= i < |r.0| ==> r.0[i].path == specs[i].0 && r.0[i].range == specs[i].1
    decreases |specs|
  {
    if specs == [] then ([], nextRef)
    else
      var (v, free) := NewBufVersion(nextRef, specs[0].0, specs[0].1);
      var (rest, last) := NewBufVersions(free, specs[1..]);
      ([v] + rest, last)
  }

  /** No two descriptors in `vs` share a reference, so no two are the same object. */
  predicate DistinctRefs(vs: seq<BufVersion>)
  {
    forall i, j :: 0 <= i < j < |vs| ==> vs[i].ref != vs[j].ref
  }

  /** Threaded constructions hand out pairwise different references, so every
      two descriptors they build are different objects, even from equal paths. */
  lemma {:induction false} ThreadedConstructionsAreDistinct(nextRef: nat, specs: seq<(string, string)>)
    ensures DistinctRefs(NewBufVersions(nextRef, specs).0)
    decreases |specs|
  {
    if specs != [] {
      var free := nextRef + 1;
      ThreadedConstructionsAreDistinct(free, specs[1..]);
      var vs := NewBufVersions(nextRef, specs).0;
      var rest := NewBufVersions(free, specs[1..]).0;
      assert vs == [NewBufVersion(nextRef, specs[0].0, specs[0].1).0] + rest;
      forall i, j | 0 <= i < j < |vs|
        ensures vs[i].ref != vs[j].ref
      {
        assert vs[j] == rest[j - 1];
        if i > 0 {
          assert vs[i] == rest[i - 1];
        } else {
          assert vs[i].ref == nextRef && rest[j - 1].ref >= free;
        }
      }
    }
  }

  /** The `status` setter: stores and notifies only when the value differs. */
  function SetStatus(c: BufContext, value: ServerStatus): (u: Update)
    ensures u.next.status == value
    ensures u.next == c.(status := value)
    ensures u.fired <= 1
    ensures u.fired == 1 <==> c.status != value
  {
    if c.status != value then Update(c.(status := value), 1) else Update(c, 0)
  }

  /** The `busy` setter: stores and notifies on every write, changed or not. */
  function SetBusy(c: BufContext, value: bool): (u: Update)
    ensures u.next.busy == value
    ensures u.next == c.(busy := value)
    ensures u.fired == 1
  {
    Update(c.(busy := value), 1)
  }

  /** The `buf` setter: stores and notifies only when the reference differs,
      including a change from a descriptor to absent and back. */
  function SetBuf(c: BufContext, value: Option<BufVersion>): (u: Update)
    ensures u.next.buf == value
    ensures u.next == c.(buf := value)
    ensures u.fired <= 1
    ensures u.fired == 1 <==> c.buf != value
  {
    if c.buf != value then Update(c.(buf := value), 1) else Update(c, 0)
  }

  /** Releases the server output channel; the other fields are untouched and
      nothing is notified. */
  function Dispose(c: BufContext): (u: Update)
    ensures u.next.serverOutputChannel == Disposed
    ensures u.next == c.(serverOutputChannel := Disposed)
    ensures u.fired == 0
  {
    Update(c.(serverOutputChannel := Disposed), 0)
  }

  /** One write through a setter, as it would appear in a log of writes. */
  datatype Write =
    | StatusWrite(status: ServerStatus)
    | BusyWrite(busy: bool)
    | BufWrite(buf: Option<BufVersion>)

  function Apply(c: BufContext, w: Write): (u: Update)
    ensures u.fired <= 1
    ensures u.fired == 0 <==> u.next == c && !w.BusyWrite?
  {
    match w
    case StatusWrite(s) => SetStatus(c, s)
    case BusyWrite(b) => SetBusy(c, b)
    case BufWrite(v) => SetBuf(c, v)
  }

  /** Performs a log of writes in order and adds up the notifications. */
  function Run(c: BufContext, ws: seq<Write>): (u: Update)
    ensures u.fired <= |ws|
    ensures u.next.moduleName == c.moduleName
    ensures u.next.bufFiles == c.bufFiles
    ensures u.next.serverOutputChannel == c.serverOutputChannel
    decreases |ws|
  {
    if ws == [] then Update(c, 0)
    else
      var first := Apply(c, ws[0]);
      var rest := Run(first.next, ws[1..]);
      Update(rest.next, first.fired + rest.fired)
  }

  /** The number of `busy` writes in a log. */
  function BusyWrites(ws: seq<Write>): nat
  {
    if ws == [] then 0
    else (if ws[0].BusyWrite? then 1 else 0) + BusyWrites(ws[1..])
  }

  /** The status a reader sees after a log: the last status written, or the
      one held before if the log writes none. */
  function LastStatus(before: ServerStatus, ws: seq<Write>): ServerStatus
  {
    if ws == [] then before
    else if ws[|ws| - 1].StatusWrite? then ws[|ws| - 1].status
    else LastStatus(before, ws[..|ws| - 1])
  }

  /** The busy flag a reader sees after a log. */
  function LastBusy(before: bool, ws: seq<Write>): bool
  {
    if ws == [] then before
    else if ws[|ws| - 1].BusyWrite? then ws[|ws| - 1].busy
    else LastBusy(before, ws[..|ws| - 1])
  }

  /** The descriptor a reader sees after a log. */
  function LastBuf(before: Option<BufVersion>, ws: seq<Write>): Option<BufVersion>
  {
    if ws == [] then before
    else if ws[|ws| - 1].BufWrite? then ws[|ws| - 1].buf
    else LastBuf(before, ws[..|ws| - 1])
  }

  /** Running two logs one after the other is running their concatenation. */
  lemma {:induction false} RunAppend(c: BufContext, a: seq<Write>, b: seq<Write>)
    ensures Run(c, a + b).next == Run(Run(c, a).next, b).next
    ensures Run(c, a + b).fired == Run(c, a).fired + Run(Run(c, a).next, b).fired
    decreases |a|
  {
    if a == [] {
      assert a + b == b;
    } else {
      assert (a + b)[0] == a[0];
      assert (a + b)[1..] == a[1..] + b;
      RunAppend(Apply(c, a[0]).next, a[1..], b);
    }
  }

  /** Every getter returns the last value its setter stored; no other write
      disturbs it. */
  lemma {:induction false} RunKeepsLastWrites(c: BufContext, ws: seq<Write>)
    ensures Run(c, ws).next.status == LastStatus(c.status, ws)
    ensures Run(c, ws).next.busy == LastBusy(c.busy, ws)
    ensures Run(c, ws).next.buf == LastBuf(c.buf, ws)
    decreases |ws|
  {
    if ws != [] {
      var init, last := ws[..|ws| - 1], ws[|ws| - 1];
      assert ws == init + [last];
      RunKeepsLastWrites(c, init);
      RunAppend(c, init, [last]);
      var mid := Run(c, init).next;
      assert Run(mid, [last]).next == Apply(mid, last).next;
    }
  }

  /** Every `busy` write in a log fires, so a log fires at least once per
      `busy` write. */
  lemma {:induction false} RunFiresForEveryBusyWrite(c: BufContext, ws: seq<Write>)
    ensures Run(c, ws).fired >= BusyWrites(ws)
    decreases |ws|
  {
    if ws != [] {
      RunFiresForEveryBusyWrite(Apply(c, ws[0]).next, ws[1..]);
    }
  }

  /** A log that fired nothing left the context exactly as it was. */
  lemma {:induction false} SilentRunChangesNothing(c: BufContext, ws: seq<Write>)
    requires Run(c, ws).fired == 0
    ensures Run(c, ws).next == c
    ensures BusyWrites(ws) == 0
    decreases |ws|
  {
    if ws != [] {
      SilentRunChangesNothing(Apply(c, ws[0]).next, ws[1..]);
    }
  }

  /** Writing the current status, or the current descriptor, again is silent;
      writing the current busy value again is not. */
  lemma RepeatedWrites(c: BufContext, s: ServerStatus, b: bool, v: Option<BufVersion>)
    ensures SetStatus(SetStatus(c, s).next, s).fired == 0
    ensures SetBuf(SetBuf(c, v).next, v).fired == 0
    ensures SetBusy(SetBusy(c, b).next, b).fired == 1
  {
  }

  /** Two descriptors constructed one after the other from the same path and
      range are different references, so replacing one by the other notifies. */
  lemma SeparateConstructionsNotify(c: BufContext, nextRef: nat, path: string, range: string)
    ensures var (v1, free1) := NewBufVersion(nextRef, path, range);
            var (v2, _) := NewBufVersion(free1, path, range);
            v1 != v2 && v1.path == v2.path
            && SetBuf(SetBuf(c, Some(v1)).next, Some(v2)).fired == 1
  {
  }

  /** In a fresh context, writing the initial values back is silent for
      `status` and `buf` and still notifies for `busy`. */
  lemma FreshContextFirstWrites(s: ServerStatus)
    ensures SetStatus(Fresh(), s).fired == (if s == ServerStopped then 0 else 1)
    ensures SetBuf(Fresh(), None).fired == 0
    ensures SetBusy(Fresh(), false).fired == 1
  {
  }

  /** Disposal is idempotent and leaves status, busy and buf as they were. */
  lemma DisposeIdempotent(c: BufContext)
    ensures Dispose(Dispose(c).next) == Dispose(c)
    ensures var d := Dispose(c).next;
            d.status == c.status && d.busy == c.busy && d.buf == c.buf
  {
  }
}
