/**
  Backup and restore of model rows. A model is read from the database page by page, appended to a storage, and read
  back from it in batches. The archive storage writes numbered files of rows and finds them again by trying numbers
  until one is missing; the plain dictionary storage is the simple form it has to agree with.
 */
module Backup {
  import opened Prelude

  /** A row's id and the rest of it, in the form that is stored. */
  datatype Row = Row(id: int, data: string)

  /** The page size of a backup, and the size that an archive file and a restored batch have to exceed. */
  const BATCH: nat := 1000

  // ------------------------------------------------------------------ names of archive files

  function HexDigit(d: nat): char
    requires d < 16
  {
    if d < 10 then '0' + d as char else 'a' + (d - 10) as char
  }

  /** At least so many hexadecimal digits. */
  function Hex(n: nat, width: nat): string
    decreases n, width
  {
    if n == 0 && width == 0 then ""
    else Hex(n / 16, if width == 0 then 0 else width - 1) + [HexDigit(n % 16)]
  }

  function FileName(model: string, counter: nat): string {
    model + "/" + Hex(counter, 8) + ".json"
  }

  predicate Plain(model: string) {
    forall i :: 0 <= i < |model| ==> model[i] != '/'
  }

  lemma HexDigitInjective(a: nat, b: nat)
    requires a < 16 && b < 16 && HexDigit(a) == HexDigit(b)
    ensures a == b
  {
  }

  lemma {:induction false} HexZero(width: nat)
    ensures |Hex(0, width)| == width && forall i :: 0 <= i < width ==> Hex(0, width)[i] == '0'
  {
    if width > 0 { HexZero(width - 1); }
  }

  lemma {:induction false} HexInjective(m: nat, n: nat, width: nat)
    requires Hex(m, width) == Hex(n, width)
    ensures m == n
    decreases m + n + width
  {
    var a, b := Hex(m, width), Hex(n, width);
    if !(m == 0 && width == 0) && !(n == 0 && width == 0) {
      assert a[|a| - 1] == b[|b| - 1];
      HexDigitInjective(m % 16, n % 16);
      var less: nat := if width == 0 then 0 else width - 1;
      assert a[..|a| - 1] == Hex(m / 16, less) && b[..|b| - 1] == Hex(n / 16, less);
      if m != 0 || n != 0 {
        HexInjective(m / 16, n / 16, less);
      }
    }
  }

  /** Files of different models, or with different numbers, have different names. */
  lemma FileNameInjective(a: string, m: nat, b: string, n: nat)
    requires Plain(a) && Plain(b) && FileName(a, m) == FileName(b, n)
    ensures a == b && m == n
  {
    var x := FileName(a, m);
    var p, q := Hex(m, 8) + ".json", Hex(n, 8) + ".json";
    assert x == a + ("/" + p) && x == b + ("/" + q);
    assert x[..|a|] == a && x[|a|] == '/' && x[..|b|] == b && x[|b|] == '/';
    assert |a| == |b|;
    assert x[|a| + 1..] == p && x[|b| + 1..] == q;
    assert p[..|p| - 5] == Hex(m, 8) && q[..|q| - 5] == Hex(n, 8);
    HexInjective(m, n, 8);
  }

  // ------------------------------------------------------------------ reading a table by pages

  predicate Sorted(rows: seq<Row>) {
    forall i, j :: 0 <= i < j < |rows| ==> rows[i].id < rows[j].id
  }

  function Above(rows: seq<Row>, id: int): seq<Row> {
    if rows == [] then [] else (if rows[0].id > id then [rows[0]] else []) + Above(rows[1..], id)
  }

  lemma {:induction false} AboveSorted(rows: seq<Row>, id: int)
    requires Sorted(rows)
    ensures Sorted(Above(rows, id))
    ensures forall i :: 0 <= i < |Above(rows, id)| ==> Above(rows, id)[i].id > id && Above(rows, id)[i] in rows
  {
    if rows != [] {
      AboveSorted(rows[1..], id);
      var rest := Above(rows[1..], id);
      forall i | 0 <= i < |rest| ensures rows[0].id < rest[i].id && rest[i] in rows {
        assert rest[i] in rows[1..];
      }
      if rows[0].id > id {
        FirstIsSmaller(rows[0], rest);
      } else {
        NothingAdded(rest);
      }
    }
  }

  lemma FirstIsSmaller(row: Row, rest: seq<Row>)
    requires Sorted(rest) && forall i :: 0 <= i < |rest| ==> row.id < rest[i].id
    ensures Sorted([row] + rest)
  {
  }

  lemma {:induction false} AboveTwice(rows: seq<Row>, a: int, b: int)
    requires a <= b
    ensures Above(Above(rows, a), b) == Above(rows, b)
  {
    if rows != [] {
      AboveTwice(rows[1..], a, b);
      var rest := Above(rows[1..], a);
      if rows[0].id > a {
        assert ([rows[0]] + rest)[1..] == rest;
      } else {
        assert Above(rows, a) == rest;
      }
    }
  }

  lemma {:induction false} AboveAll(rows: seq<Row>, id: int)
    requires forall i :: 0 <= i < |rows| ==> rows[i].id > id
    ensures Above(rows, id) == rows
  {
    if rows != [] { AboveAll(rows[1..], id); }
  }

  lemma {:induction false} AboveAfter(rows: seq<Row>, k: nat)
    requires Sorted(rows) && k < |rows|
    ensures Above(rows, rows[k].id) == rows[k + 1..]
  {
    if k == 0 {
      AboveAll(rows[1..], rows[0].id);
    } else {
      AboveAfter(rows[1..], k - 1);
      assert rows[0].id < rows[k].id;
    }
  }

  /** A page and what is above its last row make up what was above the cursor. */
  lemma PageAndRest(rows: seq<Row>, id: int, size: nat)
    requires Sorted(rows) && size > 0
    ensures var page := Take(Above(rows, id), size);
            && (page == [] ==> Above(rows, id) == [])
            && (page != [] ==> id < page[|page| - 1].id
                               && Above(rows, id) == page + Above(rows, page[|page| - 1].id))
            && (|page| < size ==> page == Above(rows, id))
  {
    var all := Above(rows, id);
    var page := Take(all, size);
    AboveSorted(rows, id);
    if page != [] {
      var k := |page| - 1;
      assert page[k] == all[k];
      AboveAfter(all, k);
      AboveTwice(rows, id, page[k].id);
      assert all == page + all[k + 1..];
    }
  }

  // ------------------------------------------------------------------ the archive

  type Archive = map<string, seq<Row>>

  /** Files are tried by number until one is missing. */
  function ReadFrom(archive: Archive, model: string, counter: nat): seq<Row>
    decreases |archive|
  {
    var name := FileName(model, counter);
    if name in archive then archive[name] + ReadFrom(archive - {name}, model, counter + 1) else []
  }

  predicate HasFiles(archive: Archive, model: string, from: nat, to: nat) {
    forall i :: from <= i < to ==> FileName(model, i) in archive
  }

  /** The rows of the files numbered from `from` up to `to`. */
  function Stored(archive: Archive, model: string, from: nat, to: nat): seq<Row>
    requires from <= to && HasFiles(archive, model, from, to)
    decreases if from <= to then to - from else 0
  {
    if from == to then [] else archive[FileName(model, from)] + Stored(archive, model, from + 1, to)
  }

  /** The archive has exactly this many files of the model, with these rows. */
  ghost predicate Holds(archive: Archive, model: string, count: nat, rows: seq<Row>) {
    && HasFiles(archive, model, 0, count)
    && (forall i :: i >= count ==> FileName(model, i) !in archive)
    && Stored(archive, model, 0, count) == rows
  }

  lemma {:induction false} StoredSame(a: Archive, b: Archive, model: string, from: nat, to: nat)
    requires from <= to && HasFiles(a, model, from, to) && HasFiles(b, model, from, to)
    requires forall i :: from <= i < to ==> a[FileName(model, i)] == b[FileName(model, i)]
    ensures Stored(a, model, from, to) == Stored(b, model, from, to)
    decreases if from <= to then to - from else 0
  {
    if from < to { StoredSame(a, b, model, from + 1, to); }
  }

  lemma {:induction false} ReadsStored(archive: Archive, model: string, from: nat, to: nat)
    requires Plain(model) && from <= to && HasFiles(archive, model, from, to)
    requires FileName(model, to) !in archive
    ensures ReadFrom(archive, model, from) == Stored(archive, model, from, to)
    decreases if from <= to then to - from else 0
  {
    if from < to {
      var name := FileName(model, from);
      var rest := archive - {name};
      forall i | from < i <= to ensures FileName(model, i) != name {
        if FileName(model, i) == name {
          FileNameInjective(model, i, model, from);
        }
      }
      ReadsStored(rest, model, from + 1, to);
      StoredSame(rest, archive, model, from + 1, to);
    }
  }

  /** Reading back gives exactly the rows of the model's files, in order. */
  lemma ReadsBack(archive: Archive, model: string, count: nat, rows: seq<Row>)
    requires Plain(model) && Holds(archive, model, count, rows)
    ensures ReadFrom(archive, model, 0) == rows
  {
    ReadsStored(archive, model, 0, count);
  }

  lemma {:induction false} StoredSnoc(archive: Archive, model: string, from: nat, to: nat)
    requires from <= to && HasFiles(archive, model, from, to + 1)
    ensures Stored(archive, model, from, to + 1) == Stored(archive, model, from, to) + archive[FileName(model, to)]
    decreases if from <= to then to - from else 0
  {
    if from < to { StoredSnoc(archive, model, from + 1, to); }
  }

  /** Writing the next file of one model appends its rows and touches no other model. */
  lemma WriteNext(archive: Archive, model: string, count: nat, rows: seq<Row>, batch: seq<Row>)
    requires Plain(model) && Holds(archive, model, count, rows)
    ensures Holds(archive[FileName(model, count) := batch], model, count + 1, rows + batch)
  {
    var name := FileName(model, count);
    var after := archive[name := batch];
    forall i: nat | FileName(model, i) == name ensures i == count {
      FileNameInjective(model, i, model, count);
    }
    StoredSame(archive, after, model, 0, count);
    StoredSnoc(after, model, 0, count);
  }

  lemma WriteElsewhere(archive: Archive, model: string, counter: nat, batch: seq<Row>, other: string, count: nat, rows: seq<Row>)
    requires Plain(model) && Plain(other) && model != other && Holds(archive, other, count, rows)
    ensures Holds(archive[FileName(model, counter) := batch], other, count, rows)
  {
    var after := archive[FileName(model, counter) := batch];
    forall i: nat ensures FileName(other, i) != FileName(model, counter) {
      if FileName(other, i) == FileName(model, counter) {
        FileNameInjective(other, i, model, counter);
      }
    }
    StoredSame(archive, after, other, 0, count);
  }

  // ------------------------------------------------------------------ the two storages as values

  /** The plain storage: the model being written and a list of rows for each model. */
  datatype Dict = Dict(currentModel: Option<string>, contents: map<string, seq<Row>>)

  /** The archive storage: rows wait in a batch until they are more than the batch size. */
  datatype Zip = Zip(currentModel: Option<string>, batch: seq<Row>, counter: nat, archive: Archive)

  function DictStart(d: Dict, model: string): Dict {
    Dict(Some(model), d.contents[model := []])
  }

  function DictAppend(d: Dict, row: Row): Dict
    requires d.currentModel.Some? && d.currentModel.value in d.contents
  {
    d.(contents := d.contents[d.currentModel.value := d.contents[d.currentModel.value] + [row]])
  }

  function DictEnd(d: Dict): Dict {
    d.(currentModel := None)
  }

  function DictRead(d: Dict, model: string): seq<Row> {
    if model in d.contents then d.contents[model] else []
  }

  function ZipStart(z: Zip, model: string): Zip {
    Zip(Some(model), [], 0, z.archive)
  }

  function ZipWrite(z: Zip): Zip
    requires z.currentModel.Some?
  {
    Zip(z.currentModel, [], z.counter + 1, z.archive[FileName(z.currentModel.value, z.counter) := z.batch])
  }

  function ZipAppend(z: Zip, row: Row): Zip
    requires z.currentModel.Some?
  {
    var more := z.(batch := z.batch + [row]);
    if |more.batch| > BATCH then ZipWrite(more) else more
  }

  function ZipEnd(z: Zip): Zip
    requires z.currentModel.Some?
  {
    (if z.batch != [] then ZipWrite(z) else z).(currentModel := None)
  }

  function ZipRead(z: Zip, model: string): seq<Row> {
    ReadFrom(z.archive, model, 0)
  }

  /** A model that is complete in the archive. */
  ghost predicate Complete(archive: Archive, model: string, rows: seq<Row>) {
    exists count: nat :: Holds(archive, model, count, rows)
  }

  /** Files and batch of the model being written, together, are its rows so far. */
  ghost predicate InProgress(z: Zip, rows: seq<Row>)
    requires z.currentModel.Some?
  {
    exists written :: Holds(z.archive, z.currentModel.value, z.counter, written) && rows == written + z.batch
  }

  /** Every model of the plain storage, but the one being written, is complete in the archive; there are no others. */
  ghost predicate OthersComplete(archive: Archive, d: Dict) {
    && (forall m :: m in d.contents ==> Plain(m))
    && (forall m :: m in d.contents && d.currentModel != Some(m) ==> Complete(archive, m, d.contents[m]))
    && (forall m :: Plain(m) && m !in d.contents ==> Complete(archive, m, []) && Holds(archive, m, 0, []))
  }

  /** The archive storage stands for the plain one. */
  ghost predicate Represents(z: Zip, d: Dict) {
    && z.currentModel == d.currentModel
    && OthersComplete(z.archive, d)
    && (z.currentModel.Some? ==> z.currentModel.value in d.contents && InProgress(z, d.contents[z.currentModel.value]))
  }

  const EMPTY_ZIP: Zip := Zip(None, [], 0, map[])

  const EMPTY_DICT: Dict := Dict(None, map[])

  lemma EmptyRepresents()
    ensures Represents(EMPTY_ZIP, EMPTY_DICT)
  {
    forall m | Plain(m) ensures Holds(map[], m, 0, []) {
    }
  }

  lemma StartRefines(z: Zip, d: Dict, model: string)
    requires Represents(z, d) && z.currentModel == None && Plain(model) && model !in d.contents
    ensures Represents(ZipStart(z, model), DictStart(d, model))
  {
    assert Holds(z.archive, model, 0, []);
    assert [] == [] + ZipStart(z, model).batch;
    assert InProgress(ZipStart(z, model), []);
  }

  lemma WriteKeepsOthers(archive: Archive, d: Dict, counter: nat, batch: seq<Row>)
    requires d.currentModel.Some? && d.currentModel.value in d.contents && OthersComplete(archive, d)
    ensures OthersComplete(archive[FileName(d.currentModel.value, counter) := batch], d)
  {
    var model := d.currentModel.value;
    var after := archive[FileName(model, counter) := batch];
    forall m | m in d.contents && m != model ensures Complete(after, m, d.contents[m]) {
      var count: nat :| Holds(archive, m, count, d.contents[m]);
      WriteElsewhere(archive, model, counter, batch, m, count, d.contents[m]);
    }
    forall m | Plain(m) && m !in d.contents ensures Holds(after, m, 0, []) {
      WriteElsewhere(archive, model, counter, batch, m, 0, []);
    }
  }

  lemma WriteRefines(z: Zip, d: Dict)
    requires Represents(z, d) && z.currentModel.Some?
    ensures Represents(ZipWrite(z), d)
  {
    var model := z.currentModel.value;
    var written :| Holds(z.archive, model, z.counter, written) && d.contents[model] == written + z.batch;
    WriteNext(z.archive, model, z.counter, written, z.batch);
    WriteKeepsOthers(z.archive, d, z.counter, z.batch);
    assert d.contents[model] == (written + z.batch) + ZipWrite(z).batch;
    assert InProgress(ZipWrite(z), d.contents[model]);
  }

  lemma AppendRefines(z: Zip, d: Dict, row: Row)
    requires Represents(z, d) && z.currentModel.Some?
    ensures Represents(ZipAppend(z, row), DictAppend(d, row))
  {
    var model := z.currentModel.value;
    var more := z.(batch := z.batch + [row]);
    var written :| Holds(z.archive, model, z.counter, written) && d.contents[model] == written + z.batch;
    assert d.contents[model] + [row] == written + more.batch;
    var after := DictAppend(d, row);
    assert forall m :: m in after.contents && m != model ==> after.contents[m] == d.contents[m];
    assert Represents(more, after);
    if |more.batch| > BATCH {
      WriteRefines(more, after);
    }
  }

  lemma EndRefines(z: Zip, d: Dict)
    requires Represents(z, d) && z.currentModel.Some?
    ensures Represents(ZipEnd(z), DictEnd(d))
  {
    var model := z.currentModel.value;
    if z.batch != [] {
      WriteRefines(z, d);
    }
    var flushed := if z.batch != [] then ZipWrite(z) else z;
    var written :| Holds(flushed.archive, model, flushed.counter, written) && d.contents[model] == written + flushed.batch;
    assert written + [] == written;
    assert Complete(flushed.archive, model, d.contents[model]);
  }

  /** Between models, the archive storage reads back what the plain storage would. */
  lemma ReadRefines(z: Zip, d: Dict, model: string)
    requires Represents(z, d) && z.currentModel == None && Plain(model)
    ensures ZipRead(z, model) == DictRead(d, model)
  {
    if model in d.contents {
      var count: nat :| Holds(z.archive, model, count, d.contents[model]);
      ReadsBack(z.archive, model, count, d.contents[model]);
    } else {
      ReadsBack(z.archive, model, 0, []);
    }
  }

  // ------------------------------------------------------------------ the backup of a site

  /** A model and its rows in the order of their ids. */
  datatype Table = Table(name: string, rows: seq<Row>)

  predicate Site(tables: seq<Table>) {
    && (forall i :: 0 <= i < |tables| ==> Plain(tables[i].name) && Sorted(tables[i].rows))
    && (forall i, j :: 0 <= i < j < |tables| ==> tables[i].name != tables[j].name)
  }

  function AppendAll(z: Zip, rows: seq<Row>): (r: Zip)
    requires z.currentModel.Some?
    ensures r.currentModel == z.currentModel
  {
    if rows == [] then z else ZipAppend(AppendAll(z, rows[..|rows| - 1]), rows[|rows| - 1])
  }

  /** The archive after every model in turn has been read, from the smallest positive id on. */
  function BackupOf(tables: seq<Table>): Zip {
    if tables == [] then EMPTY_ZIP
    else
      var last := tables[|tables| - 1];
      ZipEnd(AppendAll(ZipStart(BackupOf(tables[..|tables| - 1]), last.name), Above(last.rows, 0)))
  }

  function PlainBackupOf(tables: seq<Table>): Dict {
    if tables == [] then EMPTY_DICT
    else
      var last := tables[|tables| - 1];
      Dict(None, PlainBackupOf(tables[..|tables| - 1]).contents[last.name := Above(last.rows, 0)])
  }

  function DictAppendAll(d: Dict, rows: seq<Row>): Dict
    requires d.currentModel.Some? && d.currentModel.value in d.contents
  {
    d.(contents := d.contents[d.currentModel.value := d.contents[d.currentModel.value] + rows])
  }

  lemma DictAppendAllSteps(d: Dict, rows: seq<Row>)
    requires d.currentModel.Some? && d.currentModel.value in d.contents
    ensures rows == [] ==> DictAppendAll(d, rows) == d
    ensures rows != [] ==>
              DictAppendAll(d, rows) == DictAppend(DictAppendAll(d, rows[..|rows| - 1]), rows[|rows| - 1])
  {
    var m := d.currentModel.value;
    if rows == [] {
      assert d.contents[m] + rows == d.contents[m];
    } else {
      assert d.contents[m] + rows[..|rows| - 1] + [rows[|rows| - 1]] == d.contents[m] + rows;
    }
  }

  lemma {:induction false} AppendAllRefines(z: Zip, d: Dict, rows: seq<Row>)
    requires Represents(z, d) && z.currentModel.Some?
    ensures Represents(AppendAll(z, rows), DictAppendAll(d, rows))
  {
    DictAppendAllSteps(d, rows);
    if rows != [] {
      AppendAllRefines(z, d, rows[..|rows| - 1]);
      AppendRefines(AppendAll(z, rows[..|rows| - 1]), DictAppendAll(d, rows[..|rows| - 1]), rows[|rows| - 1]);
    }
  }

  lemma DictModel(d: Dict, model: string, rows: seq<Row>)
    ensures DictEnd(DictAppendAll(DictStart(d, model), rows)) == Dict(None, d.contents[model := rows])
  {
    assert [] + rows == rows;
    assert d.contents[model := []][model := rows] == d.contents[model := rows];
  }

  /** One whole model. */
  lemma ModelRefines(z: Zip, d: Dict, model: string, rows: seq<Row>)
    requires Represents(z, d) && z.currentModel == None && Plain(model) && model !in d.contents
    ensures Represents(ZipEnd(AppendAll(ZipStart(z, model), rows)), Dict(None, d.contents[model := rows]))
  {
    var started, dict := ZipStart(z, model), DictStart(d, model);
    StartRefines(z, d, model);
    AppendAllRefines(started, dict, rows);
    EndRefines(AppendAll(started, rows), DictAppendAll(dict, rows));
    DictModel(d, model, rows);
  }

  lemma {:induction false} PlainBackupReads(tables: seq<Table>)
    requires Site(tables)
    ensures forall m :: m in PlainBackupOf(tables).contents ==> exists i :: 0 <= i < |tables| && tables[i].name == m
    ensures forall i :: 0 <= i < |tables| ==> DictRead(PlainBackupOf(tables), tables[i].name) == Above(tables[i].rows, 0)
  {
    if tables != [] {
      var front, last := tables[..|tables| - 1], tables[|tables| - 1];
      PlainBackupReads(front);
      forall i | 0 <= i < |tables| ensures DictRead(PlainBackupOf(tables), tables[i].name) == Above(tables[i].rows, 0) {
        if i < |front| {
          assert front[i] == tables[i] && tables[i].name != last.name;
        }
      }
      forall m | m in PlainBackupOf(tables).contents ensures exists i :: 0 <= i < |tables| && tables[i].name == m {
        if m != last.name {
          var i :| 0 <= i < |front| && front[i].name == m;
          assert tables[i].name == m;
        } else {
          assert tables[|tables| - 1].name == m;
        }
      }
    }
  }

  lemma {:induction false} BackupRefines(tables: seq<Table>)
    requires Site(tables)
    ensures Represents(BackupOf(tables), PlainBackupOf(tables)) && BackupOf(tables).currentModel == None
  {
    if tables == [] {
      EmptyRepresents();
    } else {
      var front, last := tables[..|tables| - 1], tables[|tables| - 1];
      BackupRefines(front);
      PlainBackupReads(front);
      assert last.name !in PlainBackupOf(front).contents by {
        assert forall i :: 0 <= i < |front| ==> front[i] == tables[i];
      }
      ModelRefines(BackupOf(front), PlainBackupOf(front), last.name, Above(last.rows, 0));
    }
  }

  predicate AllPositive(rows: seq<Row>) {
    forall i :: 0 <= i < |rows| ==> rows[i].id > 0
  }

  /** Reading any model back from the archive of a site gives its rows with positive ids, in order. */
  lemma BackupReadsBack(tables: seq<Table>, i: nat)
    requires Site(tables) && i < |tables|
    ensures ZipRead(BackupOf(tables), tables[i].name) == Above(tables[i].rows, 0)
    ensures AllPositive(tables[i].rows) ==> ZipRead(BackupOf(tables), tables[i].name) == tables[i].rows
  {
    BackupRefines(tables);
    PlainBackupReads(tables);
    ReadRefines(BackupOf(tables), PlainBackupOf(tables), tables[i].name);
    if AllPositive(tables[i].rows) {
      AboveAll(tables[i].rows, 0);
    }
  }

  // ------------------------------------------------------------------ the objects

  datatype Failure = SizeLimitExceeded

  class DictStorage {
    var currentModel: Option<string>
    var contents: map<string, seq<Row>>

    function Value(): Dict
      reads this
    {
      Dict(currentModel, contents)
    }

    constructor ()
      ensures Value() == EMPTY_DICT
    {
      currentModel, contents := None, map[];
    }

    method StartModel(model: string)
      modifies this
      ensures Value() == DictStart(old(Value()), model)
    {
      currentModel := Some(model);
      contents := contents[model := []];
    }

    method Append(row: Row)
      requires currentModel.Some? && currentModel.value in contents
      modifies this
      ensures Value() == DictAppend(old(Value()), row)
    {
      var m := currentModel.value;
      contents := contents[m := contents[m] + [row]];
    }

    method EndModel()
      modifies this
      ensures Value() == DictEnd(old(Value()))
    {
      currentModel := None;
    }

    method GetModelStorage(model: string) returns (rows: seq<Row>)
      ensures rows == DictRead(Value(), model)
    {
      rows := if model in contents then contents[model] else [];
    }
  }

  /** `limit` is the size an archive must not exceed, if there is one; `weigh` is what a written file adds to it. */
  class SolutionZipStorage {
    const limit: Option<nat>
    const weigh: seq<Row> -> nat
    var currentModel: Option<string>
    var batch: seq<Row>
    var counter: nat
    var archive: Archive
    var size: nat

    function Value(): Zip
      reads this
    {
      Zip(currentModel, batch, counter, archive)
    }

    constructor (limit: Option<nat>, weigh: seq<Row> -> nat)
      ensures Value() == EMPTY_ZIP && this.limit == limit && size == 0
    {
      this.limit, this.weigh := limit, weigh;
      currentModel, batch, counter, archive, size := None, [], 0, map[], 0;
    }

    method StartModel(model: string)
      modifies this
      ensures Value() == ZipStart(old(Value()), model)
    {
      currentModel := Some(model);
      batch := [];
      counter := 0;
    }

    /** The file is written before its size is judged. */
    method WriteBatch() returns (r: Result<(), Failure>)
      requires currentModel.Some?
      modifies this
      ensures Value() == ZipWrite(old(Value())) && size == old(size) + weigh(old(batch))
      ensures r.Failure? <==> limit.Some? && limit.value > 0 && limit.value < size
    {
      archive := archive[FileName(currentModel.value, counter) := batch];
      size := size + weigh(batch);
      counter := counter + 1;
      batch := [];
      r := if limit.Some? && limit.value > 0 && limit.value < size then Failure(SizeLimitExceeded) else Success(());
    }

    method Append(row: Row) returns (r: Result<(), Failure>)
      requires currentModel.Some?
      modifies this
      ensures Value() == ZipAppend(old(Value()), row)
      ensures limit == None ==> r.Success?
    {
      r := Success(());
      batch := batch + [row];
      if |batch| > BATCH {
        r := WriteBatch();
      }
    }

    method EndModel() returns (r: Result<(), Failure>)
      requires currentModel.Some?
      modifies this
      ensures Value() == ZipEnd(old(Value()))
      ensures limit == None ==> r.Success?
    {
      r := Success(());
      if batch != [] {
        r := WriteBatch();
      }
      currentModel := None;
    }

    method GetModelStorage(model: string) returns (rows: seq<Row>)
      ensures rows == ZipRead(Value(), model)
    {
      rows := [];
      var number := 0;
      var left := archive;
      while FileName(model, number) in left
        invariant rows + ReadFrom(left, model, number) == ReadFrom(archive, model, 0)
        decreases |left|
      {
        var name := FileName(model, number);
        rows := rows + left[name];
        left := left - {name};
        number := number + 1;
      }
    }
  }

  lemma {:induction false} AppendAllConcat(z: Zip, a: seq<Row>, b: seq<Row>)
    requires z.currentModel.Some?
    ensures AppendAll(AppendAll(z, a), b) == AppendAll(z, a + b)
  {
    if b == [] {
      assert a + b == a;
    } else {
      AppendAllConcat(z, a, b[..|b| - 1]);
      assert (a + b)[..|a + b| - 1] == a + b[..|b| - 1];
    }
  }

  method AppendPage(page: seq<Row>, storage: SolutionZipStorage) returns (r: Result<(), Failure>)
    requires storage.currentModel.Some?
    modifies storage
    ensures storage.currentModel == old(storage.currentModel)
    ensures storage.limit == None ==> r.Success?
    ensures r.Success? ==> storage.Value() == AppendAll(old(storage.Value()), page)
  {
    ghost var before := storage.Value();
    for fetched := 0 to |page|
      invariant storage.currentModel == before.currentModel
      invariant storage.Value() == AppendAll(before, page[..fetched])
    {
      assert page[..fetched + 1][..fetched] == page[..fetched];
      r := storage.Append(page[fetched]);
      if r.Failure? {
        return;
      }
    }
    assert page[..|page|] == page;
    r := Success(());
  }

  /** One page more: less is left above its last row, and a short page is the last. */
  lemma NextPage(rows: seq<Row>, id: int, sent: seq<Row>, page: seq<Row>)
    requires Sorted(rows) && sent + Above(rows, id) == Above(rows, 0) && page == Take(Above(rows, id), BATCH)
    ensures page != [] ==> sent + page + Above(rows, page[|page| - 1].id) == Above(rows, 0)
                           && |Above(rows, page[|page| - 1].id)| < |Above(rows, id)|
    ensures |page| < BATCH ==> sent + page == Above(rows, 0)
  {
    PageAndRest(rows, id, BATCH);
    if page != [] {
      var rest := Above(rows, page[|page| - 1].id);
      assert sent + (page + rest) == sent + page + rest;
    }
  }

  /** Reads the table page by page, each page from the last id of the one before. */
  method BackupModel(rows: seq<Row>, storage: SolutionZipStorage) returns (r: Result<(), Failure>)
    requires Sorted(rows) && storage.currentModel.Some?
    modifies storage
    ensures storage.currentModel == old(storage.currentModel)
    ensures storage.limit == None ==> r.Success?
    ensures r.Success? ==> storage.Value() == AppendAll(old(storage.Value()), Above(rows, 0))
  {
    ghost var before := storage.Value();
    ghost var sent: seq<Row> := [];
    var lastPk := 0;
    var done := false;
    while !done
      invariant storage.currentModel == before.currentModel
      invariant storage.Value() == AppendAll(before, sent)
      invariant sent + Above(rows, lastPk) == Above(rows, 0)
      invariant done ==> sent == Above(rows, 0)
      decreases !done, |Above(rows, lastPk)|
    {
      var page := Take(Above(rows, lastPk), BATCH);
      NextPage(rows, lastPk, sent, page);
      r := AppendPage(page, storage);
      if r.Failure? {
        return;
      }
      AppendAllConcat(before, sent, page);
      sent := sent + page;
      if page != [] {
        lastPk := page[|page| - 1].id;
      }
      done := |page| < BATCH;
    }
    r := Success(());
  }

  /** Every model in turn; without a size limit the backup cannot fail. */
  method BackupSite(tables: seq<Table>, storage: SolutionZipStorage) returns (r: Result<(), Failure>)
    requires Site(tables) && storage.Value() == EMPTY_ZIP
    modifies storage
    ensures storage.limit == None ==> r.Success?
    ensures r.Success? ==> storage.Value() == BackupOf(tables)
  {
    for n := 0 to |tables|
      invariant storage.Value() == BackupOf(tables[..n])
    {
      assert tables[..n + 1][..n] == tables[..n];
      storage.StartModel(tables[n].name);
      r := BackupModel(tables[n].rows, storage);
      if r.Failure? {
        return;
      }
      r := storage.EndModel();
      if r.Failure? {
        return;
      }
    }
    assert tables[..|tables|] == tables;
    r := Success(());
  }

  /** The batches that are saved one after the other: none is empty, and together they are the rows. */
  method RestoreBatches(rows: seq<Row>) returns (saved: seq<seq<Row>>)
    ensures Flatten(saved) == rows
    ensures forall i :: 0 <= i < |saved| ==> 0 < |saved[i]| <= BATCH + 1
  {
    saved := [];
    var batch: seq<Row> := [];
    for i := 0 to |rows|
      invariant Flatten(saved) + batch == rows[..i] && |batch| <= BATCH
      invariant forall k :: 0 <= k < |saved| ==> 0 < |saved[k]| <= BATCH + 1
    {
      batch := batch + [rows[i]];
      assert rows[..i + 1] == rows[..i] + [rows[i]];
      if |batch| > BATCH {
        FlattenSnoc(saved, batch);
        saved := saved + [batch];
        batch := [];
      }
    }
    assert rows[..|rows|] == rows;
    if batch != [] {
      FlattenSnoc(saved, batch);
      saved := saved + [batch];
    }
  }

  /** Backing a site up and restoring one of its models gives the model its rows with positive ids, in order. */
  method BackupAndRestore(tables: seq<Table>, i: nat, storage: SolutionZipStorage) returns (restored: seq<Row>)
    requires Site(tables) && i < |tables| && storage.Value() == EMPTY_ZIP && storage.limit == None
    modifies storage
    ensures restored == Above(tables[i].rows, 0)
    ensures AllPositive(tables[i].rows) ==> restored == tables[i].rows
  {
    var _ := BackupSite(tables, storage);
    BackupReadsBack(tables, i);
    var rows := storage.GetModelStorage(tables[i].name);
    var saved := RestoreBatches(rows);
    restored := Flatten(saved);
  }
}
