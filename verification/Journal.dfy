/**
 * The write-ahead journal (venue/include/flox-venue/journal.h:394-1010): framed, checksummed records,
 * and a loader that tells a clean end from a cut and a cut from rot. A file is a sequence of bytes and
 * the checksum an arbitrary function of the bytes it covers.
 */
module Journal {

  type Byte = x: int | 0 <= x < 256
  type Bytes = seq<Byte>

  const HEADER := 14                 // timestamp, stamp, tag, length
  const LADDER_TAG := 35
  const LADDER_HEAD := 64
  const LADDER_RUNG := 32
  const LADDER_RUNGS := 8
  const LADDER_MAX := LADDER_HEAD + LADDER_RUNGS * LADDER_RUNG
  const LEVELS_AT := 52              // offset of the live-rung count in a ladder's body

  /** A command as it lies in memory: its tag and the bytes of its struct. */
  datatype Command = Command(tag: Byte, body: Bytes)

  datatype Entry = Entry(ts: Bytes, command: Command)

  /** What a build knows about its format. */
  datatype Format = Format(stamp: Byte, sizes: map<Byte, nat>, maxBody: nat, crc: Bytes -> Bytes)

  ghost predicate FormatOk(f: Format) {
    && (forall t :: t in f.sizes ==> 0 < f.sizes[t] <= f.maxBody)
    && f.maxBody < 0x1_0000_0000
    && LADDER_TAG in f.sizes && f.sizes[LADDER_TAG] == LADDER_MAX
    && forall b :: |f.crc(b)| == 4
  }

  /** Body size of the command that owns a tag, 0 for a tag nobody owns. */
  function ExpectedSize(f: Format, tag: Byte): nat {
    if tag in f.sizes then f.sizes[tag] else 0
  }

  ghost predicate EntryOk(f: Format, e: Entry) {
    |e.ts| == 8 && e.command.tag in f.sizes && |e.command.body| == f.sizes[e.command.tag] && Fit(e)
  }

  // ---- lengths ------------------------------------------------------------

  function Le4(n: nat): (r: Bytes)
    requires n < 0x1_0000_0000
    ensures |r| == 4
  {
    [n % 256, n / 256 % 256, n / 65536 % 256, n / 16777216]
  }

  function FromLe4(b: Bytes): (n: nat)
    requires |b| == 4
  {
    (b[0] as int) + 256 * (b[1] as int) + 65536 * (b[2] as int) + 16777216 * (b[3] as int)
  }

  lemma {:induction false} Le4RoundTrip(n: nat)
    requires n < 0x1_0000_0000
    ensures FromLe4(Le4(n)) == n
  {
    var a := n / 256;
    var b := a / 256;
    assert n == 256 * a + n % 256 && a == 256 * b + a % 256 && b == 256 * (b / 256) + b % 256;
    assert n / 65536 == b && n / 16777216 == b / 256;
  }

  /** Rungs a ladder names, clamped to the block it has. */
  function LiveRungs(levels: Byte): nat {
    if levels > LADDER_RUNGS then LADDER_RUNGS else levels
  }

  /** Where rung `k` of a ladder's block ends. */
  function RungEnd(k: nat): nat {
    LADDER_HEAD + (k + 1) * LADDER_RUNG
  }

  /** Whole rungs, and rung `k` of the block among them exactly when it is named. */
  function LadderSize(levels: Byte): (n: nat)
    ensures LADDER_HEAD <= n <= LADDER_MAX && (n - LADDER_HEAD) % LADDER_RUNG == 0
    ensures forall k {:trigger RungEnd(k)} :: 0 <= k < LADDER_RUNGS ==> (RungEnd(k) <= n <==> k < levels)
  {
    LADDER_HEAD + LiveRungs(levels) * LADDER_RUNG
  }

  /** Bytes a command occupies on disk: a ladder only as many as the rungs it names. */
  function BodySize(c: Command): (n: nat)
    requires c.tag == LADDER_TAG ==> |c.body| == LADDER_MAX
    ensures n <= |c.body|
  {
    if c.tag == LADDER_TAG then LadderSize(c.body[LEVELS_AT]) else |c.body|
  }

  // ---- writing ------------------------------------------------------------

  /** A struct of this size can be framed. */
  predicate Fit(e: Entry) {
    (e.command.tag == LADDER_TAG ==> |e.command.body| == LADDER_MAX) && |e.command.body| < 0x1_0000_0000
  }

  predicate AllFit(es: seq<Entry>) {
    forall k :: 0 <= k < |es| ==> Fit(es[k])
  }

  function Frame(f: Format, e: Entry): Bytes
    requires Fit(e)
  {
    var n := BodySize(e.command);
    e.ts + [f.stamp, e.command.tag] + Le4(n) + e.command.body[..n]
  }

  function Record(f: Format, e: Entry): Bytes
    requires Fit(e)
  {
    Frame(f, e) + f.crc(Frame(f, e))
  }

  ghost predicate Writable(f: Format, es: seq<Entry>) {
    FormatOk(f) && AllFit(es) && forall k :: 0 <= k < |es| ==> EntryOk(f, es[k])
  }

  function File(f: Format, es: seq<Entry>): Bytes
    requires AllFit(es)
  {
    if es == [] then [] else Record(f, es[0]) + File(f, es[1..])
  }

  // ---- reading ------------------------------------------------------------

  datatype Tail = Intact | Torn | Corrupt

  datatype Report = Report(records: seq<Entry>, tail: Tail, stop: nat)

  datatype Refusal = Unreadable | ForeignVersion | UnknownTag

  datatype Loaded = Loaded(report: Report) | Refused(why: Refusal)

  function Zeros(n: nat): (z: Bytes)
    ensures |z| == n && forall k :: 0 <= k < n ==> z[k] == 0
  {
    seq(n, _ => 0)
  }

  predicate SizeAccepted(tag: Byte, len: nat, full: nat) {
    if tag != LADDER_TAG then len == full
    else LADDER_HEAD <= len <= full && (len - LADDER_HEAD) % LADDER_RUNG == 0
  }

  /** A decoded body: a ladder's missing tail reads as zeros. */
  function Decoded(tag: Byte, body: Bytes, full: nat): Command {
    if tag == LADDER_TAG && |body| < full then Command(tag, body + Zeros(full - |body|)) else Command(tag, body)
  }

  /** A stop that recovered nothing refuses the file. */
  function Stop(records: seq<Entry>, tail: Tail, off: nat): Loaded {
    if records == [] then Refused(Unreadable) else Loaded(Report(records, tail, off))
  }

  /** The record at `off`, judged: a stop, or an entry and where it ends. */
  datatype Verdict = Halt(outcome: Loaded) | Read(entry: Entry, next: nat)

  function Judge(f: Format, file: Bytes, off: nat, records: seq<Entry>): (v: Verdict)
    requires off <= |file| && forall b :: |f.crc(b)| == 4
    ensures v.Read? ==> off + HEADER < v.next <= |file|
    ensures v.Read? ==> v.entry.command.tag in f.sizes && |v.entry.command.body| == f.sizes[v.entry.command.tag]
    ensures v.Read? ==> file[off + 8] == f.stamp && |v.entry.ts| == 8
  {
    var left := |file| - off;
    if left == 0 then Halt(Loaded(Report(records, Intact, off)))
    else if left < HEADER then Halt(Loaded(Report(records, Torn, off)))
    else
      var len := FromLe4(file[off + 10..off + 14]);
      var need := HEADER + len + 4;
      if len > f.maxBody then Halt(Stop(records, if off + HEADER < |file| then Corrupt else Torn, off))
      else if need > left then Halt(Loaded(Report(records, Torn, off)))
      else
        var frame := file[off..off + HEADER + len];
        var damaged := if off + need < |file| then Corrupt else Torn;
        if f.crc(frame) != file[off + HEADER + len..off + need] then Halt(Stop(records, damaged, off))
        else if file[off + 8] != f.stamp then Halt(Refused(ForeignVersion))
        else
          var tag, full := file[off + 9], ExpectedSize(f, file[off + 9]);
          var body := frame[HEADER..];
          if full == 0 then Halt(Refused(UnknownTag))
          else if !SizeAccepted(tag, len, full) then Halt(Stop(records, damaged, off))
          else if tag == LADDER_TAG && LadderSize(body[LEVELS_AT]) != len then Halt(Stop(records, damaged, off))
          else Read(Entry(frame[..8], Decoded(tag, body, full)), off + need)
  }

  function LoadFrom(f: Format, file: Bytes, off: nat, records: seq<Entry>): Loaded
    requires off <= |file| && forall b :: |f.crc(b)| == 4
    decreases |file| - off
  {
    match Judge(f, file, off, records)
    case Halt(outcome) => outcome
    case Read(e, next) => LoadFrom(f, file, next, records + [e])
  }

  // ---- a record as written ------------------------------------------------

  /** What a load gives back for an entry: the same command, unnamed rungs zeroed. */
  function Replayed(e: Entry): Entry
    requires e.command.tag == LADDER_TAG ==> |e.command.body| == LADDER_MAX
  {
    var n := BodySize(e.command);
    e.(command := Command(e.command.tag, e.command.body[..n] + Zeros(|e.command.body| - n)))
  }

  /**
   * What must come back of an entry: its time, its tag and its whole body, except that a ladder's block
   * comes back only up to the rungs it names and as zeros from there on.
   */
  ghost predicate Survives(e: Entry, r: Entry) {
    && r.ts == e.ts && r.command.tag == e.command.tag && |r.command.body| == |e.command.body|
    && forall i :: 0 <= i < |e.command.body| ==>
         r.command.body[i] ==
           if e.command.tag == LADDER_TAG && i >= LADDER_HEAD + LADDER_RUNG * Named(e.command.body) then 0
           else e.command.body[i]
  }

  /** How many rungs a ladder says it has, whether or not its block holds as many. */
  function Named(body: Bytes): nat {
    if LEVELS_AT < |body| then body[LEVELS_AT] else 0
  }

  lemma {:induction false} ReplayedSurvives(e: Entry)
    requires Fit(e)
    ensures Survives(e, Replayed(e))
  {
  }

  /** A record carries every byte that must come back, and of a ladder's block nothing more. */
  ghost predicate Written(e: Entry, r: Bytes) {
    var ladder, kept := e.command.tag == LADDER_TAG, LADDER_HEAD + LADDER_RUNG * Named(e.command.body);
    && |r| >= HEADER && r[..8] == e.ts
    && (forall i :: 0 <= i < |e.command.body| && (ladder ==> i < kept) ==>
          HEADER + i < |r| && r[HEADER + i] == e.command.body[i])
    && FromLe4(r[10..14]) == if ladder && kept < |e.command.body| then kept else |e.command.body|
  }

  lemma {:induction false} RecordWritten(f: Format, e: Entry)
    requires Fit(e) && |e.ts| == 8
    ensures Written(e, Record(f, e))
  {
    hide Le4, FromLe4;
    var n := BodySize(e.command);
    Le4RoundTrip(n);
    var r := Record(f, e);
    var rest := [f.stamp, e.command.tag] + Le4(n) + e.command.body[..n] + f.crc(Frame(f, e));
    assert r == e.ts + rest;
    assert r[10..14] == Le4(n);
  }

  /** Entry by entry, `rs` is what must come back of the first |rs| entries of `es`. */
  ghost predicate AllSurvive(es: seq<Entry>, rs: seq<Entry>) {
    |rs| <= |es| && forall k :: 0 <= k < |rs| ==> Survives(es[k], rs[k])
  }

  lemma {:induction false} RecordShape(f: Format, e: Entry)
    requires FormatOk(f) && EntryOk(f, e)
    ensures var r, n := Record(f, e), BodySize(e.command);
            && |r| == HEADER + n + 4 && n <= f.maxBody
            && r[..8] == e.ts && r[8] == f.stamp && r[9] == e.command.tag && FromLe4(r[10..14]) == n
            && r[..HEADER + n] == Frame(f, e) && r[HEADER + n..] == f.crc(Frame(f, e))
            && Frame(f, e)[HEADER..] == e.command.body[..n] && Frame(f, e)[..8] == e.ts
  {
    var n := BodySize(e.command);
    Le4RoundTrip(n);
    var frame := Frame(f, e);
    assert frame == e.ts + ([f.stamp, e.command.tag] + (Le4(n) + e.command.body[..n]));
    assert frame[10..14] == Le4(n);
    var r := Record(f, e);
    assert r[10..14] == frame[10..14] && r[..8] == frame[..8];
  }

  /** `file` holds exactly `r` at `off`. */
  ghost predicate Holds(file: Bytes, off: nat, r: Bytes) {
    off + |r| <= |file| && file[off..off + |r|] == r
  }

  lemma {:induction false} HoldsPart(file: Bytes, off: nat, r: Bytes, i: nat, j: nat)
    requires Holds(file, off, r) && i <= j <= |r|
    ensures off + j <= |file| && file[off + i..off + j] == r[i..j]
    ensures forall k :: i <= k < j ==> file[off + k] == r[k]
  {
    var slice := file[off..off + |r|];
    forall k | i <= k < j ensures file[off + k] == r[k] { assert slice[k] == file[off + k]; }
    forall k | 0 <= k < j - i ensures file[off + i..off + j][k] == r[i..j][k] {
      assert file[off + i..off + j][k] == file[off + (i + k)];
    }
  }

  /** A whole record of ours reads back. */
  lemma {:induction false} JudgeWhole(f: Format, file: Bytes, off: nat, records: seq<Entry>, e: Entry)
    requires FormatOk(f) && EntryOk(f, e) && Holds(file, off, Record(f, e))
    ensures Judge(f, file, off, records) == Read(Replayed(e), off + |Record(f, e)|)
    ensures Survives(e, Judge(f, file, off, records).entry)
  {
    hide Record, Frame, FromLe4, Survives, Holds, BodySize, LadderSize, Replayed, Decoded, SizeAccepted, ExpectedSize;
    var r, n := Record(f, e), BodySize(e.command);
    RecordShape(f, e);
    ReplayedSurvives(e);
    DecodesBack(f, e);
    HoldsPart(file, off, r, 10, 14);
    HoldsPart(file, off, r, 0, HEADER + n);
    HoldsPart(file, off, r, HEADER + n, |r|);
    HoldsPart(file, off, r, 8, 10);
    assert file[off + 8] == file[off + 8..off + 10][0] && file[off + 9] == file[off + 8..off + 10][1];
    assert file[off..off + HEADER + n] == Frame(f, e);
  }

  /** The bytes on disk are accepted as what they are and decode to what must come back. */
  lemma {:induction false} DecodesBack(f: Format, e: Entry)
    requires FormatOk(f) && EntryOk(f, e)
    ensures var n, full := BodySize(e.command), ExpectedSize(f, e.command.tag);
            var body := e.command.body[..n];
            && full > 0 && SizeAccepted(e.command.tag, n, full)
            && (e.command.tag == LADDER_TAG ==> LEVELS_AT < n && LadderSize(body[LEVELS_AT]) == n)
            && Entry(e.ts, Decoded(e.command.tag, body, full)) == Replayed(e) && Fit(e)
  {
    var n := BodySize(e.command);
    var body := e.command.body[..n];
    if e.command.tag == LADDER_TAG {
      assert body[LEVELS_AT] == e.command.body[LEVELS_AT];
      assert n == LADDER_MAX ==> body + Zeros(0) == body;
    } else {
      assert body + Zeros(0) == body;
    }
  }

  /** A file that ends inside a record of ours is torn there, whatever came before. */
  lemma {:induction false} JudgeTorn(f: Format, file: Bytes, off: nat, records: seq<Entry>, e: Entry)
    requires FormatOk(f) && EntryOk(f, e) && off <= |file| && 0 < |file| - off < |Record(f, e)|
    requires file[off..] == Record(f, e)[..|file| - off]
    ensures Judge(f, file, off, records) == Halt(Loaded(Report(records, Torn, off)))
  {
    hide Record, Frame, FromLe4;
    RecordShape(f, e);
    var part, r := file[off..], Record(f, e);
    if |part| >= HEADER {
      assert file[off + 10..off + 14] == part[10..14];
      assert part == r[..|part|] && r[..|part|][10..14] == r[10..14];
    }
  }

  // ---- every cut ----------------------------------------------------------

  /** The entries whose records end at or before the cut, as replayed. */
  function Whole(f: Format, es: seq<Entry>, cut: nat): seq<Entry>
    requires AllFit(es)
  {
    if es == [] || |Record(f, es[0])| > cut then []
    else [Replayed(es[0])] + Whole(f, es[1..], cut - |Record(f, es[0])|)
  }

  /** Where the last whole record before the cut ends. */
  function Boundary(f: Format, es: seq<Entry>, cut: nat): (b: nat)
    requires AllFit(es)
    ensures b <= cut
  {
    if es == [] || |Record(f, es[0])| > cut then 0
    else |Record(f, es[0])| + Boundary(f, es[1..], cut - |Record(f, es[0])|)
  }

  lemma {:induction false} LoadCutFrom(f: Format, before: Bytes, es: seq<Entry>, cut: nat, records: seq<Entry>)
    requires Writable(f, es) && cut <= |File(f, es)|
    ensures var b := Boundary(f, es, cut);
            LoadFrom(f, before + File(f, es)[..cut], |before|, records)
            == Loaded(Report(records + Whole(f, es, cut), if b == cut then Intact else Torn, |before| + b))
    decreases |es|
  {
    hide Record, Judge, FormatOk, EntryOk;
    var file := before + File(f, es)[..cut];
    Sized(f);
    if es == [] {
      assert records + [] == records && file == before;
      JudgeEnd(f, file, records);
    } else {
      var e, rest := es[0], es[1..];
      var r := Record(f, e);
      RecordSized(f, e);
      assert Writable(f, rest);
      if cut == 0 {
        assert records + [] == records && file == before;
        JudgeEnd(f, file, records);
      } else if cut < |r| {
        assert file[|before|..] == r[..cut];
        assert records + [] == records;
        JudgeTorn(f, file, |before|, records, e);
      } else {
        var tail := File(f, rest)[..cut - |r|];
        assert File(f, es)[..cut] == r + tail;
        assert file == (before + r) + tail;
        assert Holds(file, |before|, r) by { assert file[|before|..|before| + |r|] == r; }
        JudgeWhole(f, file, |before|, records, e);
        LoadCutFrom(f, before + r, rest, cut - |r|, records + [Replayed(e)]);
        assert (records + [Replayed(e)]) + Whole(f, rest, cut - |r|) ==
               records + ([Replayed(e)] + Whole(f, rest, cut - |r|));
      }
    }
  }

  lemma {:induction false} Sized(f: Format)
    requires FormatOk(f)
    ensures forall b :: |f.crc(b)| == 4
  {
  }

  lemma {:induction false} RecordSized(f: Format, e: Entry)
    requires FormatOk(f) && EntryOk(f, e)
    ensures |Record(f, e)| > 0
  {
    RecordShape(f, e);
  }

  lemma {:induction false} JudgeEnd(f: Format, file: Bytes, records: seq<Entry>)
    requires forall b :: |f.crc(b)| == 4
    ensures Judge(f, file, |file|, records) == Halt(Loaded(Report(records, Intact, |file|)))
  {
  }

  /** The entries given back are the longest run of whole records before the cut, and each survives. */
  lemma {:induction false} CutSurvives(f: Format, es: seq<Entry>, cut: nat)
    requires AllFit(es)
    ensures var n := |Whole(f, es, cut)|;
            && AllSurvive(es, Whole(f, es, cut))
            && Boundary(f, es, cut) == |File(f, es[..n])| <= cut
            && (n < |es| ==> |File(f, es[..n + 1])| > cut)
    decreases |es|
  {
    hide Record, Replayed, Survives;
    if es == [] {
      assert es[..0] == [];
    } else if |Record(f, es[0])| > cut {
      assert es[..0] == [] && es[..1] == [es[0]] && es[..1][1..] == [];
    } else {
      var e, rest, left := es[0], es[1..], cut - |Record(f, es[0])|;
      assert Fit(e);
      ReplayedSurvives(e);
      CutSurvives(f, rest, left);
      var w, ws := Whole(f, rest, left), Whole(f, es, cut);
      var n := |w|;
      assert ws == [Replayed(e)] + w;
      forall k | 0 <= k < |ws| ensures Survives(es[k], ws[k]) {
        if k > 0 { assert es[k] == rest[k - 1] && ws[k] == w[k - 1]; }
      }
      assert es[..n + 1][1..] == rest[..n] && es[..n + 1][0] == e;
      if n < |rest| { assert es[..n + 2][1..] == rest[..n + 1] && es[..n + 2][0] == e; }
    }
  }

  /** What a load of a journal cut at `cut` has to answer. */
  ghost predicate LoadsCut(f: Format, es: seq<Entry>, cut: nat, r: Loaded)
    requires AllFit(es)
  {
    && r.Loaded? && AllSurvive(es, r.report.records)
    && var n := |r.report.records|;
    && r.report.stop == |File(f, es[..n])| <= cut && (n < |es| ==> |File(f, es[..n + 1])| > cut)
    && r.report.tail == (if r.report.stop == cut then Intact else Torn)
  }

  /**
   * Every cut of every journal: the load gives back exactly the entries whose records lie wholly before
   * the cut, each with every byte that names something, says Intact only on a record boundary, and never
   * calls the file foreign.
   */
  lemma {:induction false} LoadCut(f: Format, es: seq<Entry>, cut: nat)
    requires Writable(f, es) && cut <= |File(f, es)|
    ensures var b := Boundary(f, es, cut);
            LoadFrom(f, File(f, es)[..cut], 0, []) ==
              Loaded(Report(Whole(f, es, cut), if b == cut then Intact else Torn, b))
    ensures LoadsCut(f, es, cut, LoadFrom(f, File(f, es)[..cut], 0, []))
  {
    hide Record, Replayed, Survives, Judge, LoadFrom, Whole, Boundary;
    LoadCutFrom(f, [], es, cut, []);
    CutSurvives(f, es, cut);
    assert [] + File(f, es)[..cut] == File(f, es)[..cut];
    assert [] + Whole(f, es, cut) == Whole(f, es, cut);
  }

  function AllReplayed(es: seq<Entry>): seq<Entry>
    requires AllFit(es)
  {
    if es == [] then [] else [Replayed(es[0])] + AllReplayed(es[1..])
  }

  /** The uncut journal comes back whole. */
  lemma {:induction false} WholeFile(f: Format, es: seq<Entry>)
    requires Writable(f, es)
    ensures Whole(f, es, |File(f, es)|) == AllReplayed(es) && Boundary(f, es, |File(f, es)|) == |File(f, es)|
    ensures |AllReplayed(es)| == |es| && AllSurvive(es, AllReplayed(es))
  {
    hide Record, Replayed, Survives;
    if es != [] {
      assert Writable(f, es[1..]);
      WholeFile(f, es[1..]);
      assert Fit(es[0]);
      ReplayedSurvives(es[0]);
      forall k | 0 <= k < |es| ensures Survives(es[k], AllReplayed(es)[k]) {
        if k > 0 { assert es[k] == es[1..][k - 1]; }
      }
    }
  }

  // ---- rot ----------------------------------------------------------------

  /** A header that names more bytes than any body this build writes. */
  ghost predicate Oversize(f: Format, bad: Bytes) {
    |bad| == HEADER && FromLe4(bad[10..14]) > f.maxBody
  }

  /** A whole record by its own length. */
  ghost predicate Extent(f: Format, bad: Bytes) {
    |bad| >= HEADER + 4 && FromLe4(bad[10..14]) <= f.maxBody && |bad| == HEADER + FromLe4(bad[10..14]) + 4
  }

  /** A stored checksum that does not match the frame it stands behind. */
  ghost predicate Rotten(f: Format, bad: Bytes) {
    Extent(f, bad) && f.crc(bad[..|bad| - 4]) != bad[|bad| - 4..]
  }

  /** An intact record of a known command with a body no writer gives it: not its size, or not the rungs it names. */
  ghost predicate Misshapen(f: Format, bad: Bytes) {
    && Extent(f, bad) && f.crc(bad[..|bad| - 4]) == bad[|bad| - 4..] && bad[8] == f.stamp && bad[9] in f.sizes
    && var len := |bad| - HEADER - 4;
       if bad[9] != LADDER_TAG then len != f.sizes[bad[9]]
       else
         len < LADDER_HEAD ||
         var named := bad[HEADER + LEVELS_AT];
         len != LADDER_HEAD + LADDER_RUNG * if named < LADDER_RUNGS then named else LADDER_RUNGS
  }

  /** Nothing this build wrote and a crash cut short. */
  ghost predicate Damaged(f: Format, bad: Bytes) {
    Oversize(f, bad) || Rotten(f, bad) || Misshapen(f, bad)
  }

  lemma {:induction false} JudgeOversize(f: Format, before: Bytes, bad: Bytes, after: Bytes, records: seq<Entry>)
    requires FormatOk(f) && Oversize(f, bad)
    ensures Judge(f, before + bad + after, |before|, records) ==
              Halt(Stop(records, if after == [] then Torn else Corrupt, |before|))
  {
    hide FromLe4, LadderSize;
    var file, off := before + bad + after, |before|;
    assert file[off + 10..off + 14] == bad[10..14];
  }

  lemma {:induction false} HoldsBetween(before: Bytes, bad: Bytes, after: Bytes)
    ensures Holds(before + bad + after, |before|, bad)
  {
    assert (before + bad + after)[|before|..|before| + |bad|] == bad;
  }

  lemma {:induction false} JudgeMisshapen(f: Format, before: Bytes, bad: Bytes, after: Bytes, records: seq<Entry>)
    requires FormatOk(f) && Misshapen(f, bad)
    ensures Judge(f, before + bad + after, |before|, records) ==
              Halt(Stop(records, if after == [] then Torn else Corrupt, |before|))
  {
    hide Replayed, Holds, FromLe4;
    var file, off, len := before + bad + after, |before|, |bad| - HEADER - 4;
    HoldsBetween(before, bad, after);
    HoldsPart(file, off, bad, 10, 14);
    HoldsPart(file, off, bad, 0, HEADER + len);
    HoldsPart(file, off, bad, HEADER + len, |bad|);
    assert file[off + 8] == bad[8] && file[off + 9] == bad[9];
    if len > LEVELS_AT { assert bad[..HEADER + len][HEADER..][LEVELS_AT] == bad[HEADER + LEVELS_AT]; }
  }

  lemma {:induction false} JudgeRotten(f: Format, before: Bytes, bad: Bytes, after: Bytes, records: seq<Entry>)
    requires FormatOk(f) && Rotten(f, bad)
    ensures Judge(f, before + bad + after, |before|, records) ==
              Halt(Stop(records, if after == [] then Torn else Corrupt, |before|))
  {
    hide Replayed, Holds, FromLe4;
    var file, off, len := before + bad + after, |before|, |bad| - HEADER - 4;
    HoldsBetween(before, bad, after);
    HoldsPart(file, off, bad, 10, 14);
    HoldsPart(file, off, bad, 0, HEADER + len);
    HoldsPart(file, off, bad, HEADER + len, |bad|);
  }

  lemma {:induction false} LoadDamagedFrom(f: Format, before: Bytes, es: seq<Entry>, bad: Bytes, after: Bytes,
                                          records: seq<Entry>)
    requires Writable(f, es) && Damaged(f, bad)
    ensures LoadFrom(f, before + File(f, es) + bad + after, |before|, records)
            == Stop(records + AllReplayed(es), if after == [] then Torn else Corrupt, |before| + |File(f, es)|)
    decreases |es|
  {
    hide Record, Judge, FormatOk, EntryOk, Rotten, Oversize, Misshapen;
    Sized(f);
    if es == [] {
      assert before + File(f, es) == before && records + [] == records;
      if Rotten(f, bad) {
        JudgeRotten(f, before, bad, after, records);
      } else if Oversize(f, bad) {
        JudgeOversize(f, before, bad, after, records);
      } else {
        JudgeMisshapen(f, before, bad, after, records);
      }
    } else {
      var e, rest := es[0], es[1..];
      var r := Record(f, e);
      var file := before + File(f, es) + bad + after;
      assert Writable(f, rest);
      assert file == (before + r) + File(f, rest) + bad + after;
      assert Holds(file, |before|, r) by { assert file[|before|..|before| + |r|] == r; }
      JudgeWhole(f, file, |before|, records, e);
      LoadDamagedFrom(f, before + r, rest, bad, after, records + [Replayed(e)]);
      assert (records + [Replayed(e)]) + AllReplayed(rest) == records + AllReplayed(es);
    }
  }

  /**
   * A record whose checksum fails, whose length nobody writes or whose body is not the command's ends the load with
   * the entries before it; as the first record it refuses the file.
   */
  lemma {:induction false} LoadDamaged(f: Format, es: seq<Entry>, bad: Bytes, after: Bytes)
    requires Writable(f, es) && Damaged(f, bad)
    ensures LoadFrom(f, File(f, es) + bad + after, 0, [])
            == if es == [] then Refused(Unreadable)
            else Loaded(Report(AllReplayed(es), if after == [] then Torn else Corrupt, |File(f, es)|))
  {
    hide LoadFrom, AllReplayed, File, Damaged, FormatOk;
    LoadDamagedFrom(f, [], es, bad, after, []);
    NoneReplayed(es);
    assert [] + File(f, es) + bad + after == File(f, es) + bad + after;
    assert [] + AllReplayed(es) == AllReplayed(es);
  }

  lemma {:induction false} NoneReplayed(es: seq<Entry>)
    requires AllFit(es)
    ensures AllReplayed(es) == [] <==> es == []
  {
  }

  /**
   * A record another build wrote, under a stamp or a tag this build does not have: intact, so its writer
   * is believed, and the load is refused outright rather than handed back as a prefix.
   */
  lemma {:induction false} JudgeForeign(f: Format, stamp: Byte, sizes: map<Byte, nat>, file: Bytes, off: nat,
                                        records: seq<Entry>, e: Entry)
    requires FormatOk(f) && FormatOk(f.(stamp := stamp, sizes := sizes)) &&
             EntryOk(f.(stamp := stamp, sizes := sizes), e)
    requires Holds(file, off, Record(f.(stamp := stamp, sizes := sizes), e)) &&
             (stamp != f.stamp || e.command.tag !in f.sizes)
    ensures Judge(f, file, off, records) == Halt(Refused(if stamp != f.stamp then ForeignVersion else UnknownTag))
  {
    hide FromLe4, LadderSize, Holds, Record, Fit;
    var g := f.(stamp := stamp, sizes := sizes);
    RecordShape(g, e);
    var r, n := Record(g, e), BodySize(e.command);
    HoldsPart(file, off, r, 10, 14);
    HoldsPart(file, off, r, 8, 10);
    HoldsPart(file, off, r, 0, HEADER + n);
    HoldsPart(file, off, r, HEADER + n, |r|);
    assert r[0..HEADER + n] == r[..HEADER + n] && r[HEADER + n..|r|] == r[HEADER + n..];
    assert file[off + 0..off + HEADER + n] == file[off..off + HEADER + n];
  }

  lemma {:induction false} LoadForeignFrom(f: Format, stamp: Byte, sizes: map<Byte, nat>, before: Bytes,
                                           es: seq<Entry>, e: Entry, after: Bytes, records: seq<Entry>)
    requires Writable(f, es) && FormatOk(f.(stamp := stamp, sizes := sizes)) &&
             EntryOk(f.(stamp := stamp, sizes := sizes), e)
    requires stamp != f.stamp || e.command.tag !in f.sizes
    ensures LoadFrom(f, before + File(f, es) + Record(f.(stamp := stamp, sizes := sizes), e) + after, |before|, records)
            == Refused(if stamp != f.stamp then ForeignVersion else UnknownTag)
    decreases |es|
  {
    hide Judge, Record;
    var alien := Record(f.(stamp := stamp, sizes := sizes), e);
    var file := before + File(f, es) + alien + after;
    if es == [] {
      assert file[|before|..|before| + |alien|] == alien;
      JudgeForeign(f, stamp, sizes, file, |before|, records, e);
    } else {
      var r, rest := Record(f, es[0]), File(f, es[1..]);
      assert file == (before + r) + rest + alien + after;
      assert file[|before|..|before| + |r|] == r;
      JudgeWhole(f, file, |before|, records, es[0]);
      LoadForeignFrom(f, stamp, sizes, before + r, es[1..], e, after, records + [Replayed(es[0])]);
    }
  }

  /** However much was read before it, a foreign record refuses the file. */
  lemma {:induction false} LoadForeign(f: Format, stamp: Byte, sizes: map<Byte, nat>, es: seq<Entry>, e: Entry,
                                       after: Bytes)
    requires Writable(f, es) && FormatOk(f.(stamp := stamp, sizes := sizes)) &&
             EntryOk(f.(stamp := stamp, sizes := sizes), e)
    requires stamp != f.stamp || e.command.tag !in f.sizes
    ensures LoadFrom(f, File(f, es) + Record(f.(stamp := stamp, sizes := sizes), e) + after, 0, [])
            == Refused(if stamp != f.stamp then ForeignVersion else UnknownTag)
  {
    hide Record;
    LoadForeignFrom(f, stamp, sizes, [], es, e, after, []);
    assert [] + File(f, es) == File(f, es);
  }

  // ---- the journal --------------------------------------------------------

  class Writer {
    const format: Format
    var bytes: Bytes
    var count: nat

    constructor (format: Format)
      ensures this.format == format && bytes == [] && count == 0
    {
      this.format := format;
      bytes, count := [], 0;
    }

    /** Stage one record and write it out. */
    method Append(e: Entry)
      requires Fit(e)
      modifies this
      ensures bytes == old(bytes) + Record(format, e) && count == old(count) + 1
      ensures |e.ts| == 8 ==> Written(e, bytes[|old(bytes)|..])
    {
      if |e.ts| == 8 { RecordWritten(format, e); }
      var len := BodySize(e.command);
      var rec := e.ts;
      rec := rec + [format.stamp];
      rec := rec + [e.command.tag];
      rec := rec + Le4(len);
      rec := rec + e.command.body[..len];
      assert rec == Frame(format, e) by {
        assert e.ts + [format.stamp] + [e.command.tag] == e.ts + [format.stamp, e.command.tag];
      }
      rec := rec + format.crc(rec);
      bytes := bytes + rec;
      count := count + 1;
    }
  }

  /** Read a file record by record until something stops the read. */
  method LoadReported(f: Format, file: Bytes) returns (r: Loaded)
    requires forall b :: |f.crc(b)| == 4
    ensures r == LoadFrom(f, file, 0, [])
  {
    var off := 0;
    var records: seq<Entry> := [];
    while true
      invariant off <= |file| && LoadFrom(f, file, off, records) == LoadFrom(f, file, 0, [])
      decreases |file| - off
    {
      var v := Judge(f, file, off, records);
      match v {
        case Halt(outcome) => return outcome;
        case Read(e, next) => records, off := records + [e], next;
      }
    }
  }

  lemma {:induction false} FileNext(f: Format, es: seq<Entry>, e: Entry)
    requires AllFit(es + [e]) && AllFit(es) && Fit(e)
    ensures File(f, es + [e]) == File(f, es) + Record(f, e)
  {
    hide Record;
    if es == [] {
      assert es + [e] == [e] && File(f, [e][1..]) == [];
    } else {
      assert (es + [e])[1..] == es[1..] + [e];
      FileNext(f, es[1..], e);
    }
  }

  /** A journal written record by record is the file of its entries. */
  method WriteAll(f: Format, es: seq<Entry>) returns (w: Writer)
    requires AllFit(es)
    ensures fresh(w) && w.format == f && w.bytes == File(f, es) && w.count == |es|
  {
    hide Record;
    w := new Writer(f);
    for k := 0 to |es|
      invariant fresh(w) && w.format == f && w.count == k && AllFit(es[..k]) && w.bytes == File(f, es[..k])
    {
      w.Append(es[k]);
      assert es[..k + 1] == es[..k] + [es[k]];
      FileNext(f, es[..k], es[k]);
    }
    assert es[..|es|] == es;
  }

  /** Write a journal, lose its end at any byte, load what is left. */
  method CrashAndLoad(f: Format, es: seq<Entry>, cut: nat) returns (r: Loaded)
    requires Writable(f, es) && cut <= |File(f, es)|
    ensures var b := Boundary(f, es, cut);
            r == Loaded(Report(Whole(f, es, cut), if b == cut then Intact else Torn, b))
    ensures LoadsCut(f, es, cut, r)
  {
    hide LoadsCut, File, Record, Judge, LoadFrom, Whole, Boundary;
    var w := WriteAll(f, es);
    LoadCut(f, es, cut);
    r := LoadReported(f, w.bytes[..cut]);
  }
}
