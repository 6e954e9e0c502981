/**
 The Vector backend as it is written: nine parallel arrays of 64 slots kept dense by a swap, and
 an open and a close that call the driver step by step. Every method is tied to the map that
 VectorPins reasons about, so what is proved of every run there holds of these arrays.
 */
module VectorTable {
  import opened VectorPins

  // ---- rows and the map they stand for -------------------------------------------------------

  datatype Row = Row(mask: Mask, record: Record)

  ghost predicate Distinct(rows: seq<Row>) {
    forall i, j :: 0 <= i < j < |rows| ==> rows[i].mask != rows[j].mask
  }

  ghost predicate Listed(rows: seq<Row>, t: map<Mask, Record>) {
    forall i :: 0 <= i < |rows| ==> rows[i].mask in t && t[rows[i].mask] == rows[i].record
  }

  ghost predicate Covered(rows: seq<Row>, t: map<Mask, Record>) {
    forall m :: m in t ==> exists i :: 0 <= i < |rows| && rows[i].mask == m
  }

  ghost predicate Holds(rows: seq<Row>, t: map<Mask, Record>) {
    |rows| == |t| && Distinct(rows) && Listed(rows, t) && Covered(rows, t)
  }

  lemma CoveredAppended(rows: seq<Row>, t: map<Mask, Record>, r: Row)
    requires Covered(rows, t)
    ensures Covered(rows + [r], t[r.mask := r.record])
  {
    var rows' := rows + [r];
    var t' := t[r.mask := r.record];
    forall m | m in t' ensures exists i :: 0 <= i < |rows'| && rows'[i].mask == m {
      if m == r.mask {
        assert rows'[|rows|].mask == m;
      } else {
        var i :| 0 <= i < |rows| && rows[i].mask == m;
        assert rows'[i].mask == m;
      }
    }
  }

  lemma HoldsAppended(rows: seq<Row>, t: map<Mask, Record>, r: Row)
    requires Holds(rows, t) && r.mask !in t
    ensures Holds(rows + [r], t[r.mask := r.record])
  {
    assert t[r.mask := r.record].Keys == t.Keys + {r.mask};
    CoveredAppended(rows, t, r);
    ListedAppended(rows, t, r);
  }

  lemma ListedAppended(rows: seq<Row>, t: map<Mask, Record>, r: Row)
    requires Distinct(rows) && Listed(rows, t) && r.mask !in t
    ensures Distinct(rows + [r]) && Listed(rows + [r], t[r.mask := r.record])
  {
    var rows' := rows + [r];
    forall k | 0 <= k < |rows| ensures rows'[k] == rows[k] && rows[k].mask != r.mask {
      assert rows[k].mask in t;
    }
  }

  lemma ReplacedCovered(rows: seq<Row>, t: map<Mask, Record>, i: nat, rec: Record)
    requires Covered(rows, t) && i < |rows|
    ensures Covered(rows[i := Row(rows[i].mask, rec)], t[rows[i].mask := rec])
  {
    var rows', t' := rows[i := Row(rows[i].mask, rec)], t[rows[i].mask := rec];
    forall m | m in t' ensures exists k :: 0 <= k < |rows'| && rows'[k].mask == m {
      if m == rows[i].mask {
        assert rows'[i].mask == m;
      } else {
        var k :| 0 <= k < |rows| && rows[k].mask == m;
        assert rows'[k].mask == m;
      }
    }
  }

  lemma ReplacedListed(rows: seq<Row>, t: map<Mask, Record>, i: nat, rec: Record)
    requires Distinct(rows) && Listed(rows, t) && i < |rows|
    ensures Distinct(rows[i := Row(rows[i].mask, rec)])
    ensures Listed(rows[i := Row(rows[i].mask, rec)], t[rows[i].mask := rec])
  {
    var rows' := rows[i := Row(rows[i].mask, rec)];
    assert forall k :: 0 <= k < |rows| ==> rows'[k].mask == rows[k].mask;
  }

  lemma SizeReplaced(t: map<Mask, Record>, m: Mask, rec: Record)
    requires m in t
    ensures |t[m := rec]| == |t|
  {
    assert t[m := rec].Keys == t.Keys;
  }

  lemma HoldsReplaced(rows: seq<Row>, t: map<Mask, Record>, i: nat, rec: Record)
    requires Holds(rows, t) && i < |rows|
    ensures Holds(rows[i := Row(rows[i].mask, rec)], t[rows[i].mask := rec])
  {
    assert rows[i].mask in t;
    SizeReplaced(t, rows[i].mask, rec);
    ReplacedCovered(rows, t, i, rec);
    ReplacedListed(rows, t, i, rec);
  }

  /** The compaction: the last row moves into the gap. */
  function Compacted(rows: seq<Row>, i: nat): seq<Row>
    requires i < |rows|
  {
    if i == |rows| - 1 then rows[..|rows| - 1] else rows[..|rows| - 1][i := rows[|rows| - 1]]
  }

  lemma CompactedMasks(rows: seq<Row>, i: nat, k: nat)
    requires i < |rows| && k < |rows| - 1
    ensures |Compacted(rows, i)| == |rows| - 1
    ensures Compacted(rows, i)[k] == rows[if k == i then |rows| - 1 else k]
  {}

  lemma CompactedCovered(rows: seq<Row>, t: map<Mask, Record>, i: nat)
    requires Covered(rows, t) && i < |rows|
    ensures Covered(Compacted(rows, i), t - {rows[i].mask})
  {
    var rows', t', last := Compacted(rows, i), t - {rows[i].mask}, |rows| - 1;
    forall m | m in t' ensures exists k :: 0 <= k < |rows'| && rows'[k].mask == m {
      var k :| 0 <= k < |rows| && rows[k].mask == m;
      var k' := if k == last then i else k;
      CompactedMasks(rows, i, k');
      assert rows'[k'].mask == m;
    }
  }

  lemma CompactedListed(rows: seq<Row>, t: map<Mask, Record>, i: nat)
    requires Distinct(rows) && Listed(rows, t) && i < |rows|
    ensures Listed(Compacted(rows, i), t - {rows[i].mask})
  {
    var rows' := Compacted(rows, i);
    forall k | 0 <= k < |rows'|
      ensures rows'[k].mask in t && rows'[k].mask != rows[i].mask && t[rows'[k].mask] == rows'[k].record
    {
      CompactedMasks(rows, i, k);
    }
  }

  lemma HoldsCompacted(rows: seq<Row>, t: map<Mask, Record>, i: nat)
    requires Holds(rows, t) && i < |rows|
    ensures Holds(Compacted(rows, i), t - {rows[i].mask})
  {
    assert t.Keys == (t - {rows[i].mask}).Keys + {rows[i].mask};
    CompactedCovered(rows, t, i);
    CompactedListed(rows, t, i);
    CompactedDistinct(rows, i);
  }

  lemma CompactedDistinct(rows: seq<Row>, i: nat)
    requires i < |rows| && Distinct(rows)
    ensures Distinct(Compacted(rows, i))
  {
    var rows', last := Compacted(rows, i), |rows| - 1;
    forall a, b | 0 <= a < b < last ensures rows'[a].mask != rows'[b].mask {
      CompactedMasks(rows, i, a);
      CompactedMasks(rows, i, b);
    }
  }

  lemma Overwritten(t: map<Mask, Record>, m: Mask, a: Record, b: Record)
    ensures t[m := a][m := b] == t[m := b] && (m in t ==> t[m := a] - {m} == t - {m})
  {}

  lemma HoldsFound(rows: seq<Row>, t: map<Mask, Record>, m: Mask)
    requires Holds(rows, t) && forall i :: 0 <= i < |rows| ==> rows[i].mask != m
    ensures m !in t
  {}

  // ---- the arrays ----------------------------------------------------------------------------

  class PinTable {
    const mask: array<nat>
    const rate: array<nat>
    const dbr: array<nat>
    const gen: array<nat>
    const ports: array<int>
    const owner: array<int>
    const silent: array<bool>
    const fd: array<bool>
    const stale: array<bool>
    var n: nat
    var genSeq: nat
    ghost var rows: seq<Row>
    ghost var contents: map<Mask, Record>

    ghost const repr: set<object>

    ghost predicate Shape() {
      && this in repr && mask in repr && rate in repr && dbr in repr && gen in repr && ports in repr
      && owner in repr && silent in repr && fd in repr && stale in repr
      && mask.Length == rate.Length == dbr.Length == ports.Length == owner.Length == gen.Length == MAX_CHANNELS
      && silent.Length == fd.Length == stale.Length == MAX_CHANNELS
      && mask !in {rate, dbr, gen} && rate !in {dbr, gen} && dbr != gen && ports != owner
      && silent !in {fd, stale} && fd != stale
    }

    ghost function At(i: nat): Row
      requires Shape() && i < MAX_CHANNELS
      reads mask, rate, dbr, gen, ports, owner, silent, fd, stale
    {
      Row(mask[i], Record(rate[i], silent[i], fd[i], dbr[i], ports[i], owner[i], stale[i], gen[i]))
    }

    /** The live slots, field by field, are the rows. */
    ghost predicate Tied()
      reads repr
    {
      Shape() && n == |rows| <= MAX_CHANNELS && forall i :: 0 <= i < |rows| ==> rows[i] == At(i)
    }

    ghost predicate Valid()
      reads repr
    {
      Tied() && Holds(rows, contents)
    }

    constructor ()
      ensures Valid() && contents == map[] && genSeq == 0 && fresh(repr)
    {
      mask := new nat[MAX_CHANNELS];
      rate := new nat[MAX_CHANNELS];
      dbr := new nat[MAX_CHANNELS];
      gen := new nat[MAX_CHANNELS];
      ports := new int[MAX_CHANNELS];
      owner := new int[MAX_CHANNELS];
      silent := new bool[MAX_CHANNELS];
      fd := new bool[MAX_CHANNELS];
      stale := new bool[MAX_CHANNELS];
      n, genSeq, rows, contents := 0, 0, [], map[];
      repr := {this, mask, rate, dbr, ports, owner, gen, silent, fd, stale};
    }

    // -- slots: what each group of array writes does to the rows

    /** A slot for a new channel: no port counted yet, under the next generation. */
    method AddRow(m: Mask)
      requires Tied() && n < MAX_CHANNELS
      modifies this`n, this`genSeq, this`rows, mask, ports, gen, stale
      ensures Tied() && genSeq == old(genSeq) + 1 && |rows| == |old(rows)| + 1
      ensures rows[..|rows| - 1] == old(rows)
      ensures var r := rows[|rows| - 1]; r.mask == m && r.record.ports == 0 && r.record.gen == genSeq
    {
      mask[n] := m;
      ports[n] := 0;
      genSeq := genSeq + 1;
      gen[n] := genSeq;
      stale[n] := false;
      rows := rows + [At(n)];
      n := n + 1;
    }

    /** Slot `i` now says what was configured, and says it freshly. */
    method SetRow(i: nat, r: Request, opener: Port)
      requires Tied() && i < n
      modifies this`rows, rate, silent, owner, fd, dbr, stale
      ensures Tied()
      ensures rows == old(rows)[i := Row(old(rows)[i].mask, Restated(old(rows)[i].record, r, opener))]
    {
      rate[i] := r.rate;
      silent[i] := r.silent;
      owner[i] := opener;
      fd[i] := r.fd;
      dbr[i] := r.dbr;
      stale[i] := false;
      rows := rows[i := At(i)];
    }

    /** One port more or less against slot `i`. */
    method Count(i: nat, delta: int)
      requires Tied() && i < n
      modifies this`rows, ports
      ensures Tied()
      ensures rows == old(rows)[i := Row(old(rows)[i].mask, Recounted(old(rows)[i].record, delta))]
    {
      ports[i] := ports[i] + delta;
      rows := rows[i := At(i)];
    }

    /** The owner's reference leaves a stale record behind while siblings are open. */
    method Disown(i: nat)
      requires Tied() && i < n
      modifies this`rows, stale, owner
      ensures Tied()
      ensures rows == old(rows)[i := Row(old(rows)[i].mask, Disowned(old(rows)[i].record))]
    {
      stale[i] := true;
      owner[i] := INVALID_PORT;
      rows := rows[i := At(i)];
    }

    /** What slot `from` was configured to and under which generation, into slot `to`. */
    method MoveNumbers(to: nat, from: nat)
      requires Shape() && to < MAX_CHANNELS && from < MAX_CHANNELS
      modifies mask, rate, dbr, gen
      ensures mask[..] == old(mask[..])[to := old(mask[from])] && rate[..] == old(rate[..])[to := old(rate[from])]
      ensures dbr[..] == old(dbr[..])[to := old(dbr[from])] && gen[..] == old(gen[..])[to := old(gen[from])]
    {
      mask[to] := mask[from];
      rate[to] := rate[from];
      dbr[to] := dbr[from];
      gen[to] := gen[from];
    }

    /** Who holds it, and how. */
    method MoveHolders(to: nat, from: nat)
      requires Shape() && to < MAX_CHANNELS && from < MAX_CHANNELS
      modifies ports, owner, silent, fd, stale
      ensures ports[..] == old(ports[..])[to := old(ports[from])] && owner[..] == old(owner[..])[to := old(owner[from])]
      ensures silent[..] == old(silent[..])[to := old(silent[from])] && fd[..] == old(fd[..])[to := old(fd[from])]
      ensures stale[..] == old(stale[..])[to := old(stale[from])]
    {
      ports[to] := ports[from];
      owner[to] := owner[from];
      silent[to] := silent[from];
      fd[to] := fd[from];
      stale[to] := stale[from];
    }

    /** Slot `to` is slot `from`, all nine fields of it. */
    method MoveRow(to: nat, from: nat)
      requires Shape() && to < MAX_CHANNELS && from < MAX_CHANNELS
      modifies mask, rate, silent, ports, owner, gen, stale, fd, dbr
      ensures At(to) == old(At(from)) && forall k: nat :: k < MAX_CHANNELS && k != to ==> At(k) == old(At(k))
    {
      MoveNumbers(to, from);
      MoveHolders(to, from);
      forall k: nat | k < MAX_CHANNELS
        ensures At(k) == old(At(if k == to then from else k))
      {
        assert mask[..][k] == mask[k] && rate[..][k] == rate[k] && dbr[..][k] == dbr[k] && gen[..][k] == gen[k];
        assert ports[..][k] == ports[k] && owner[..][k] == owner[k];
        assert silent[..][k] == silent[k] && fd[..][k] == fd[k] && stale[..][k] == stale[k];
      }
    }

    /** Drops slot `i` and keeps the arrays dense: every field of the last row moves with it. */
    method Forget(i: nat)
      requires Tied() && i < n
      modifies this`n, this`rows, mask, rate, silent, ports, owner, gen, stale, fd, dbr
      ensures Tied() && rows == Compacted(old(rows), i)
    {
      n := n - 1;
      if i != n { MoveRow(i, n); }
      rows := Compacted(rows, i);
    }

    // -- the table's operations

    /** The slot of `m`'s record, or -1. */
    method Find(m: Mask) returns (i: int)
      requires Valid()
      ensures i < 0 <==> m !in contents
      ensures i >= 0 ==> i < n && rows[i].mask == m && contents[m] == rows[i].record
    {
      i := 0;
      while i < n
        invariant 0 <= i <= n
        invariant forall k :: 0 <= k < i ==> rows[k].mask != m
      {
        assert rows[i] == At(i);
        if mask[i] == m { return; }
        i := i + 1;
      }
      HoldsFound(rows, contents, m);
      i := -1;
    }

    /** Records how `m` was just configured: false when there is no slot left. */
    method Note(m: Mask, r: Request, opener: Port) returns (ok: bool)
      requires Valid()
      modifies repr
      ensures Valid()
      ensures ok <==> m in old(contents) || |old(contents)| < MAX_CHANNELS
      ensures ok ==> contents == Noted(old(contents), old(genSeq), m, r, opener).0
      ensures ok ==> genSeq == Noted(old(contents), old(genSeq), m, r, opener).1
      ensures !ok ==> contents == old(contents) && genSeq == old(genSeq)
    {
      var i := Find(m);
      if i < 0 {
        if n >= MAX_CHANNELS { return false; }
        NoteNew(m, r, opener);
      } else {
        SetIn(i, m, r, opener);
      }
      ok := true;
    }

    method NoteNew(m: Mask, r: Request, opener: Port)
      requires Valid() && n < MAX_CHANNELS && m !in contents
      modifies repr
      ensures Valid() && genSeq == old(genSeq) + 1
      ensures contents == old(contents)[m := Record(r.rate, r.silent, r.fd, r.dbr, 0, opener, false, genSeq)]
    {
      hide Holds;
      ghost var t := contents;
      AddIn(m);
      Overwritten(t, m, contents[m], Restated(contents[m], r, opener));
      SetIn(n - 1, m, r, opener);
    }

    method AddIn(m: Mask)
      requires Valid() && n < MAX_CHANNELS && m !in contents
      modifies this`n, this`genSeq, this`rows, this`contents, mask, ports, gen, stale
      ensures Valid() && genSeq == old(genSeq) + 1 && n > 0
      ensures rows[n - 1].mask == m && rows[n - 1].record.ports == 0 && rows[n - 1].record.gen == genSeq
      ensures contents == old(contents)[m := rows[n - 1].record]
    {
      hide Holds;
      AddRow(m);
      assert rows == rows[..n - 1] + [rows[n - 1]];
      HoldsAppended(rows[..n - 1], contents, rows[n - 1]);
      contents := contents[m := rows[n - 1].record];
    }

    method SetIn(i: nat, m: Mask, r: Request, opener: Port)
      requires Valid() && i < n && rows[i].mask == m && m in contents && contents[m] == rows[i].record
      modifies this`rows, this`contents, rate, silent, owner, fd, dbr, stale
      ensures Valid()
      ensures contents == old(contents)[m := Restated(old(contents)[m], r, opener)]
    {
      hide Holds;
      HoldsReplaced(rows, contents, i, Restated(contents[m], r, opener));
      SetRow(i, r, opener);
      contents := contents[m := Restated(contents[m], r, opener)];
    }

    method Ref(m: Mask)
      requires Valid()
      modifies repr
      ensures Valid() && genSeq == old(genSeq)
      ensures contents == Referenced(old(contents), m)
    {
      hide Holds;
      var i := Find(m);
      if i >= 0 { CountIn(i, m, 1); }
    }

    method NoteAndRef(m: Mask, r: Request, opener: Port) returns (ok: bool)
      requires Valid()
      modifies repr
      ensures Valid()
      ensures ok <==> m in old(contents) || |old(contents)| < MAX_CHANNELS
      ensures ok ==> contents == Referenced(Noted(old(contents), old(genSeq), m, r, opener).0, m)
      ensures ok ==> genSeq == Noted(old(contents), old(genSeq), m, r, opener).1
      ensures !ok ==> contents == old(contents) && genSeq == old(genSeq)
    {
      hide Holds;
      ok := Note(m, r, opener);
      if ok { Ref(m); }
    }

    method GenerationOf(m: Mask) returns (g: nat)
      requires Valid() && m in contents
      ensures g == contents[m].gen
    {
      var i := Find(m);
      assert rows[i] == At(i);
      g := gen[i];
    }

    /** Whether a port denied initialisation access may join `m`: 0, or the code that refuses it. */
    method Admits(m: Mask, r: Request) returns (code: int, g: nat)
      requires Valid()
      ensures code == JoinCode(contents, m, r)
      ensures code == 0 ==> m in contents && g == contents[m].gen
    {
      g := 0;
      var i := Find(m);
      if i < 0 { code := -1003; return; }
      assert rows[i] == At(i);
      if stale[i] { code := -1009; return; }
      if r.silent != silent[i] { code := -1004; return; }
      if rate[i] != r.rate { code := -1005; return; }
      if r.fd != fd[i] { code := -1011; return; }
      if r.fd && dbr[i] != r.dbr { code := -1012; return; }
      code, g := 0, gen[i];
    }

    method CountIn(i: nat, m: Mask, delta: int)
      requires Valid() && i < n && rows[i].mask == m && m in contents && contents[m] == rows[i].record
      modifies this`rows, this`contents, ports
      ensures Valid() && i < n && rows[i] == Row(m, Recounted(old(contents)[m], delta))
      ensures contents == old(contents)[m := Recounted(old(contents)[m], delta)]
    {
      hide Holds;
      HoldsReplaced(rows, contents, i, Recounted(contents[m], delta));
      Count(i, delta);
      contents := contents[m := Recounted(contents[m], delta)];
    }

    method ForgetIn(i: nat, m: Mask)
      requires Valid() && i < n && rows[i].mask == m
      modifies repr
      ensures Valid() && genSeq == old(genSeq) && contents == old(contents) - {m}
    {
      hide Holds;
      HoldsCompacted(rows, contents, i);
      Forget(i);
      contents := contents - {m};
    }

    method DisownIn(i: nat, m: Mask)
      requires Valid() && i < n && rows[i].mask == m && m in contents && contents[m] == rows[i].record
      modifies this`rows, this`contents, stale, owner
      ensures Valid()
      ensures contents == old(contents)[m := Disowned(old(contents)[m])]
    {
      hide Holds;
      HoldsReplaced(rows, contents, i, Disowned(contents[m]));
      Disown(i);
      contents := contents[m := Disowned(contents[m])];
    }

    method Unref(m: Mask, p: Port, g: nat)
      requires Valid()
      modifies repr
      ensures Valid() && genSeq == old(genSeq)
      ensures contents == Unreferenced(old(contents), m, p, g)
    {
      hide Holds;
      var i := Find(m);
      if i < 0 { return; }
      assert rows[i] == At(i);
      if gen[i] != g { return; }
      if owner[i] == p {
        ReleaseOwner(i, m);
      } else {
        ReleaseOther(i, m);
      }
    }

    method ReleaseOwner(i: nat, m: Mask)
      requires Valid() && i < n && rows[i].mask == m && m in contents && contents[m] == rows[i].record
      modifies repr
      ensures Valid() && genSeq == old(genSeq)
      ensures contents == Unreferenced(old(contents), m, old(contents)[m].owner, old(contents)[m].gen)
    {
      hide Holds;
      ghost var t := contents;
      CountIn(i, m, -1);
      Overwritten(t, m, Recounted(t[m], -1), Disowned(Recounted(t[m], -1)));
      assert rows[i] == At(i);
      if ports[i] > 0 { DisownIn(i, m); } else { ForgetIn(i, m); }
    }

    method ReleaseOther(i: nat, m: Mask)
      requires Valid() && i < n && rows[i].mask == m && m in contents && contents[m] == rows[i].record
      modifies repr
      ensures Valid() && genSeq == old(genSeq)
      ensures forall p :: p != old(contents)[m].owner ==>
                contents == Unreferenced(old(contents), m, p, old(contents)[m].gen)
    {
      hide Holds;
      ghost var t := contents;
      CountIn(i, m, -1);
      Overwritten(t, m, Recounted(t[m], -1), Disowned(Recounted(t[m], -1)));
      assert rows[i] == At(i);
      if ports[i] <= 0 { ForgetIn(i, m); }
    }
  }

  // ---- the driver and the two calls made under the lock ---------------------------------------

  /** The XL driver as this process meets it: every answer is the environment's. */
  class XlDriver {
    var ports: map<Port, Access>
    var wire: map<Mask, Wire>

    constructor ()
      ensures ports == map[] && wire == map[]
    {
      ports, wire := map[], map[];
    }

    method OpenPort(m: Mask, a: Answers) returns (st: int, port: Port, permission: bool)
      modifies this`ports
      ensures st == a.openStatus && port == a.port && permission == a.granted
      ensures ports == if st == 0 && port != INVALID_PORT then old(ports)[port := Access(m, permission)] else old(ports)
    {
      st, port, permission := a.openStatus, a.port, a.granted;
      if st == 0 && port != INVALID_PORT { ports := ports[port := Access(m, permission)]; }
    }

    method Configure(m: Mask, r: Request, a: Answers) returns (st: int)
      modifies this`wire
      ensures st == a.configStatus
      ensures wire == old(wire)[m := if st != 0 then a.mangled else Configured(r, old(wire), m)]
    {
      st := a.configStatus;
      wire := wire[m := if st != 0 then a.mangled else Configured(r, wire, m)];
    }

    method SetOutput(m: Mask, silent: bool, a: Answers) returns (st: int)
      requires m in wire
      modifies this`wire
      ensures st == a.outputStatus
      ensures wire == old(wire)[m := if st != 0 then a.outputMangled else old(wire)[m].(silent := silent)]
    {
      st := a.outputStatus;
      wire := wire[m := if st != 0 then a.outputMangled else wire[m].(silent := silent)];
    }

    method ClosePort(p: Port, closes: bool)
      modifies this`ports
      ensures ports == VectorPins.ClosePort(old(ports), p, closes)
    {
      if closes { ports := ports - {p}; }
    }
  }

  class Backend {
    const table: PinTable
    const driver: XlDriver
    ghost var held: map<Port, Handle>
    ghost var epoch: map<Mask, nat>
    ghost var epochs: nat

    ghost predicate Valid()
      reads table.repr
    {
      this !in table.repr && driver !in table.repr && table.Valid()
    }

    /** The state VectorPins reasons about. */
    ghost function View(): State
      reads this, driver, table
    {
      State(table.contents, table.genSeq, driver.ports, driver.wire, held, epoch, epochs)
    }

    constructor ()
      ensures Valid() && View() == Initial && fresh({this, driver} + table.repr)
    {
      table := new PinTable();
      driver := new XlDriver();
      held, epoch, epochs := map[], map[], 0;
    }

    /** Closes the port just opened and refuses with `code`. */
    method Abandon(a: Answers, code: int) returns (out: Outcome)
      requires Valid()
      modifies driver
      ensures Valid() && View() == Failed(old(View()), a, code).0 && out == Failed(old(View()), a, code).1
    {
      hide Holds;
      driver.ClosePort(a.port, a.closes);
      out := Refused(code);
    }

    /** The channel would not activate: the reference is dropped, then the port. */
    method Undo(a: Answers, gen: nat, code: int) returns (out: Outcome)
      requires Valid()
      modifies this, driver, table.repr
      ensures Valid()
      ensures (View(), out) ==
                Failed(old(View()).(table := Unreferenced(old(View()).table, a.mask, a.port, gen)), a, code)
    {
      hide Holds;
      table.Unref(a.mask, a.port, gen);
      out := Abandon(a, code);
    }

    method Finish(r: Request, a: Answers, gen: nat) returns (out: Outcome)
      requires Valid() && a.mask in table.contents && gen == table.contents[a.mask].gen
      modifies this, driver, table.repr
      ensures Valid() && View() == Activate(old(View()), r, a).0 && out == Activate(old(View()), r, a).1
    {
      hide Holds;
      if a.activateStatus != 0 {
        out := Undo(a, gen, -a.activateStatus);
        return;
      }
      held := held[a.port := Handle(a.mask, gen, if a.mask in epoch then epoch[a.mask] else 0, a.granted, r)];
      out := Opened(a.port, gen);
    }

    /** Records the channel as configured for `p` and takes the port's reference. */
    method NoteChannel(m: Mask, r: Request, p: Port) returns (ok: bool)
      requires Valid()
      modifies this, driver, table.repr
      ensures Valid()
      ensures ok <==> m in old(table.contents) || |old(table.contents)| < MAX_CHANNELS
      ensures ok ==> View() == NotedState(old(View()), m, r, p)
      ensures !ok ==> View() == old(View())
    {
      hide Holds;
      ghost var before := View();
      ok := table.NoteAndRef(m, r, p);
      if !ok { return; }
      epoch, epochs := epoch[m := epochs + 1], epochs + 1;
      assert View().table == NotedState(before, m, r, p).table;
    }

    method RecordChannel(r: Request, a: Answers) returns (out: Outcome)
      requires Valid()
      modifies this, driver, table.repr
      ensures Valid() && View() == RecordOpen(old(View()), r, a).0 && out == RecordOpen(old(View()), r, a).1
    {
      hide Holds;
      var ok := NoteChannel(a.mask, r, a.port);
      if !ok {
        out := Abandon(a, -1006);
        return;
      }
      var gen := table.GenerationOf(a.mask);
      out := Finish(r, a, gen);
    }

    method SetOutput(r: Request, a: Answers) returns (out: Outcome)
      requires Valid() && a.mask in driver.wire
      modifies this, driver, table.repr
      ensures Valid() && View() == VectorPins.SetOutput(old(View()), r, a).0
      ensures out == VectorPins.SetOutput(old(View()), r, a).1
    {
      hide Holds;
      if !a.outputPresent {
        out := Abandon(a, -1002);
        return;
      }
      var st := driver.SetOutput(a.mask, r.silent, a);
      if st != 0 {
        out := Abandon(a, -st);
      } else {
        out := RecordChannel(r, a);
      }
    }

    method ConfigureFirst(r: Request, a: Answers) returns (out: Outcome)
      requires Valid()
      modifies this, driver, table.repr
      ensures Valid() && View() == OpenFirst(old(View()), r, a).0 && out == OpenFirst(old(View()), r, a).1
    {
      hide Holds;
      var st := driver.Configure(a.mask, r, a);
      if st != 0 {
        out := Abandon(a, -st);
      } else {
        out := SetOutput(r, a);
      }
    }

    method JoinExisting(r: Request, a: Answers) returns (out: Outcome)
      requires Valid()
      modifies this, driver, table.repr
      ensures Valid() && View() == OpenJoin(old(View()), r, a).0 && out == OpenJoin(old(View()), r, a).1
    {
      hide Holds;
      var code, gen := table.Admits(a.mask, r);
      if code != 0 {
        out := Abandon(a, code);
        return;
      }
      table.Ref(a.mask);
      out := Finish(r, a, gen);
    }

    method Open(r: Request, a: Answers) returns (out: Outcome)
      requires Valid()
      modifies this, driver, table.repr
      ensures Valid() && View() == VectorPins.Open(old(View()), r, a).0 && out == VectorPins.Open(old(View()), r, a).1
    {
      hide Holds;
      if a.mask == 0 { return Refused(if a.why != 0 then a.why else -1000); }
      if r.fd && !a.fdPresent { return Refused(-1010); }
      var st, port, permission := driver.OpenPort(a.mask, a);
      if st != 0 || port == INVALID_PORT { return Refused(if st != 0 then -st else -1001); }
      if permission {
        out := ConfigureFirst(r, a);
      } else {
        out := JoinExisting(r, a);
      }
    }

    method Close(p: Port, m: Mask, gen: nat, closes: bool)
      requires Valid()
      modifies this, driver, table.repr
      ensures Valid() && View() == VectorPins.Close(old(View()), p, m, gen, closes)
    {
      hide Holds;
      if p == INVALID_PORT { return; }
      table.Unref(m, p, gen);
      driver.ClosePort(p, closes);
      held := held - {p};
    }
  }
}
