/**
 * The resource store of goapi/resource/resource.go.
 *
 * The package keeps two pieces of global state, the database handle and the
 * four query strings that `Init` instantiates from templates; `Store` holds
 * them. The PostgreSQL table behind the handle is replaced by `Table`, an
 * in-memory table from id to row that also remembers the order rows were
 * inserted in. The database's choices (a fresh id, `current_timestamp`) are
 * arbitrary values, constrained only as the code relies on them, and so are
 * the failures a driver can report at any round trip.
 *
 * JSON encoding and decoding of the payload column is a library call:
 * `Codec` stands for it, and only the byte-slice type check of `Scan` is
 * modelled here. What the code relies on of the library is `JsonCodec`:
 * decoding restores every payload whose date `civil.Date` can read back,
 * and fails on the others.
 */
module Resource {
  import opened Results
  import opened GoStrings

  newtype byte = x: int | 0 <= x < 256
  type Bytes = seq<byte>

  /** A database timestamp; only its presence matters to the code. */
  type Time = nat

  datatype Creator = Creator(Name: string)

  /** `civil.Date`. */
  datatype Date = Date(year: int, month: int, day: int)

  /** The payload stored in the JSON column `fields`. */
  datatype FieldSet = FieldSet(Title: string, Creator: seq<Creator>, Description: string, DatePublished: Option<Date>)

  /** The value of a Go `Resource` struct; `None` is a nil pointer field. */
  datatype Record = Record(
    ID: string,
    Label: string,
    Fields: Option<FieldSet>,
    CreatedAt: Option<Time>,
    UpdatedAt: Option<Time>)

  /** One row of the table; `Fields` is the JSON column, `None` for SQL NULL. */
  datatype Row = Row(Label: string, Fields: Option<Bytes>, CreatedAt: Time, UpdatedAt: Option<Time>)

  /** `json.Marshal` of a `FieldSet` (its `Value` method) and `json.Unmarshal` into one. */
  datatype Codec = Codec(encode: FieldSet -> Bytes, decode: Bytes -> Result<FieldSet>)

  predicate IsLeap(year: int) {
    year % 4 == 0 && (year % 100 != 0 || year % 400 == 0)
  }

  /** The length of a month of the proleptic Gregorian calendar. */
  function DaysIn(year: int, month: int): int
    requires 1 <= month <= 12
  {
    if month == 2 then (if IsLeap(year) then 29 else 28)
    else if month in {4, 6, 9, 11} then 30
    else 31
  }

  /**
   * `civil.Date` is written as `%04d-%02d-%02d` and read back with
   * `civil.ParseDate`, which takes a four-digit year and a real calendar
   * date; any other date is written but cannot be read back.
   */
  predicate ReadableDate(d: Date) {
    0 <= d.year <= 9999 && 1 <= d.month <= 12 && 1 <= d.day <= DaysIn(d.year, d.month)
  }

  /** A payload that `json.Unmarshal` can read back from what `json.Marshal` wrote. */
  predicate Storable(fs: FieldSet) {
    fs.DatePublished.None? || ReadableDate(fs.DatePublished.value)
  }

  /** `json.Marshal` and `json.Unmarshal` of a `FieldSet`: a storable payload round-trips, any other fails to decode. */
  ghost predicate JsonCodec(c: Codec) {
    && (forall fs :: Storable(fs) ==> c.decode(c.encode(fs)) == Success(fs))
    && (forall fs :: !Storable(fs) ==> c.decode(c.encode(fs)).Failure?)
  }

  /** A date that does not exist, 30 February, is not storable. */
  lemma February30Unreadable(title: string)
    ensures !Storable(FieldSet(title, [], "", Some(Date(2021, 2, 30))))
  {
    assert !IsLeap(2021);
  }

  /** The column value a query parameter `r.Fields` becomes: NULL for a nil pointer. */
  function EncodeFields(c: Codec, fields: Option<FieldSet>): (r: Option<Bytes>)
    ensures r.None? <==> fields.None?
  {
    match fields
    case None => None
    case Some(fs) => Some(c.encode(fs))
  }

  /** A driver failure while scanning a query's rows: after `at` rows, with error text `msg`. */
  datatype Fault = Fault(at: nat, msg: string)

  /** The dynamic type of what the driver hands to `Scan`. */
  datatype DriverValue = ByteSlice(b: Bytes) | OtherType(text: string)

  const TypeAssertionFailed := "type assertion to []byte failed"

  /** `database/sql`'s `ErrNoRows`, returned by `QueryRow(...).Scan` when the query yields no row. */
  const ErrNoRows := "sql: no rows in result set"

  /** `FieldSet.Scan`: only a byte slice is decoded; any other value is refused. */
  function Scan(value: DriverValue, c: Codec): (r: Result<FieldSet>)
    ensures r.Success? ==> value.ByteSlice?
    ensures !value.ByteSlice? ==> r == Failure(TypeAssertionFailed)
    ensures value.ByteSlice? ==> r == c.decode(value.b)
  {
    match value
    case ByteSlice(b) => c.decode(b)
    case OtherType(_) => Failure(TypeAssertionFailed)
  }

  /**
   * A payload written through `Value` scans back to itself exactly when it
   * is storable; otherwise `Scan` fails.
   */
  lemma ScanRoundTrip(c: Codec, fs: FieldSet)
    requires JsonCodec(c)
    ensures Storable(fs) ==> Scan(ByteSlice(c.encode(fs)), c) == Success(fs)
    ensures !Storable(fs) ==> Scan(ByteSlice(c.encode(fs)), c).Failure?
  {
  }

  /** `database/sql`'s report of a `Scanner` that failed on `fields`, the third column of the get query. */
  function FieldsScanError(err: string): (r: string)
    ensures |r| > |err| && r[|r| - |err|..] == err
  {
    "sql: Scan error on column index 2, name \"fields\": " + err
  }

  // The query templates, each split around its one `%s`.

  const IndexHead := "SELECT id, label, " + "created_at, updated_at FROM "
  const IndexTail := " LIMIT $1 OFFSET $2"
  const GetHead := "SELECT id, label, " + "fields, created_at, " + "updated_at FROM "
  const GetTail := " WHERE id=$1"
  const CreateHead := "INSERT INTO "
  const CreateTail := " (label, fields, " + "created_at) VALUES " + "($1, $2, current_timestamp) " + "\n\t\tRETURNING  id, created_at"
  const UpdateHead := "UPDATE "
  const UpdateTail := " SET label=$1, " + "fields=$2, " + "updated_at=current_timestamp " + "\n\t\tWHERE id=$3 " + "RETURNING updated_at"
  const DeleteHead := "DELETE FROM "
  const DeleteTail := " WHERE id=$1"

  /** The five templates, in the order index, get, create, update, delete. */
  function Templates(): (t: seq<string>)
    ensures |t| == 5
  {
    [ IndexHead + "%s" + IndexTail,
      GetHead + "%s" + GetTail,
      CreateHead + "%s" + CreateTail,
      UpdateHead + "%s" + UpdateTail,
      DeleteHead + "%s" + DeleteTail ]
  }

  /** The `%s` is the only `%` of each template: neither its head nor its tail holds one. */
  lemma TemplatesHaveOneVerb()
    ensures '%' !in IndexHead && '%' !in GetHead && '%' !in CreateHead
    ensures '%' !in UpdateHead && '%' !in DeleteHead
    ensures '%' !in IndexTail && '%' !in GetTail && '%' !in CreateTail
    ensures '%' !in UpdateTail && '%' !in DeleteTail
  {
    NoPercentInCreateTail();
    NoPercentInUpdateTail();
  }

  lemma NoPercentInCreateTail()
    ensures '%' !in CreateTail
  {
    var a, b, c, d := " (label, fields, ", "created_at) VALUES ", "($1, $2, current_timestamp) ", "\n\t\tRETURNING  id, created_at";
    assert '%' !in a && '%' !in b;
    assert '%' !in c && '%' !in d;
    assert CreateTail == a + b + c + d;
  }

  lemma NoPercentInUpdateTail()
    ensures '%' !in UpdateTail
  {
    var a, b, c, d, e := " SET label=$1, ", "fields=$2, ", "updated_at=current_timestamp ", "\n\t\tWHERE id=$3 ", "RETURNING updated_at";
    assert '%' !in a && '%' !in b && '%' !in c;
    assert '%' !in d && '%' !in e;
    assert UpdateTail == a + b + c + d + e;
  }

  /** The query `Init` makes of template `i` for `table`: the table name in place of `%s`. */
  lemma InstantiatedQuery(i: nat, table: string)
    requires i < 5
    ensures FormatOne(Templates()[i], table) ==
      [IndexHead, GetHead, CreateHead, UpdateHead, DeleteHead][i] + table +
      [IndexTail, GetTail, CreateTail, UpdateTail, DeleteTail][i]
  {
    TemplatesHaveOneVerb();
    if i == 0 {
      FormatOneSplice(IndexHead, IndexTail, table);
    } else if i == 1 {
      FormatOneSplice(GetHead, GetTail, table);
    } else if i == 2 {
      FormatOneSplice(CreateHead, CreateTail, table);
    } else if i == 3 {
      FormatOneSplice(UpdateHead, UpdateTail, table);
    } else {
      FormatOneSplice(DeleteHead, DeleteTail, table);
    }
  }

  /**
   * Whatever the table names, no query `Init` instantiates is the deletion
   * statement: the four slots hold the list, get, create and update queries.
   */
  lemma DeleteNeverInstantiated(i: nat, table: string, other: string)
    requires i < 4
    ensures FormatOne(Templates()[i], table) != FormatOne(Templates()[4], other)
  {
    InstantiatedQuery(i, table);
    InstantiatedQuery(4, other);
    var heads := [IndexHead, GetHead, CreateHead, UpdateHead];
    var tails := [IndexTail, GetTail, CreateTail, UpdateTail];
    assert (DeleteHead + other + DeleteTail)[0] == 'D';
    assert (heads[i] + table + tails[i])[0] == heads[i][0] != 'D';
  }

  /** Some string is longer than every string of `used`. */
  lemma {:induction false} LongerThanAll(used: set<string>) returns (n: nat)
    ensures forall s :: s in used ==> |s| < n
    decreases used
  {
    if used == {} {
      n := 0;
    } else {
      var x :| x in used;
      var m := LongerThanAll(used - {x});
      n := if m > |x| then m else |x| + 1;
    }
  }

  /** However many rows exist, a non-empty id none of them uses exists. */
  lemma FreshIdExists(used: set<string>)
    ensures exists id :: id != "" && id !in used
  {
    var n := LongerThanAll(used);
    var id := seq(n + 1, _ => 'r');
    assert |id| == n + 1;
    assert id != "" && id !in used;
  }

  /** The rows `order[lo..hi]` as `List` scans them: id, label and timestamps, no payload. */
  function Summaries(ids: seq<string>, rows: map<string, Row>): (r: seq<Record>)
    requires forall i :: 0 <= i < |ids| ==> ids[i] in rows
    ensures |r| == |ids|
    ensures forall k :: 0 <= k < |r| ==>
      r[k] == Record(ids[k], rows[ids[k]].Label, None, Some(rows[ids[k]].CreatedAt), rows[ids[k]].UpdatedAt)
  {
    if ids == [] then []
    else
      var row := rows[ids[0]];
      [Record(ids[0], row.Label, None, Some(row.CreatedAt), row.UpdatedAt)] + Summaries(ids[1..], rows)
  }

  function Min(a: int, b: int): int {
    if a < b then a else b
  }

  /**
   * `LIMIT limit OFFSET offset` over the rows in table order: skip the first
   * `offset` rows, then take at most `limit`.
   */
  function Page(rows: map<string, Row>, order: seq<string>, limit: nat, offset: nat): (p: seq<Record>)
    requires forall i :: 0 <= i < |order| ==> order[i] in rows
    ensures |p| == Min(limit, if offset < |order| then |order| - offset else 0)
    ensures forall k :: 0 <= k < |p| ==> offset + k < |order| && p[k].ID == order[offset + k]
    ensures forall k :: 0 <= k < |p| ==> p[k].Fields.None? && p[k].Label == rows[p[k].ID].Label
  {
    var lo := Min(offset, |order|);
    var hi := Min(lo + limit, |order|);
    Summaries(order[lo..hi], rows)
  }

  /**
   * The `rows.Next()` loop of `List` over the rows `ids` the query yields:
   * each row is scanned into an item until the driver fails (`fault`) after
   * `fault.at` rows, or the rows run out.
   */
  method ScanRows(ids: seq<string>, rows: map<string, Row>, fault: Option<Fault>)
    returns (items: seq<Record>, err: Option<string>)
    requires forall k :: 0 <= k < |ids| ==> ids[k] in rows
    ensures fault.None? ==> items == Summaries(ids, rows) && err.None?
    ensures fault.Some? ==>
      items == Summaries(ids, rows)[..Min(fault.value.at, |ids|)] && err == Some(fault.value.msg)
  {
    ghost var all := Summaries(ids, rows);
    items := [];
    var i := 0;
    while i < |ids| && !(fault.Some? && fault.value.at == i)
      invariant 0 <= i <= |ids|
      invariant items == all[..i]
      invariant fault.Some? ==> fault.value.at >= i
    {
      var row := rows[ids[i]];
      items := items + [Record(ids[i], row.Label, None, Some(row.CreatedAt), row.UpdatedAt)];
      i := i + 1;
    }
    if fault.Some? {
      // a scan error, or `rows.Err()` once the rows ran out
      assert i == Min(fault.value.at, |ids|);
      return items, Some(fault.value.msg);
    }
    assert items == all;
    return items, None;
  }

  /** The in-memory stand-in for the PostgreSQL table. */
  class Table {
    var rows: map<string, Row>
    var order: seq<string>

    /** Ids are non-empty, and `order` lists every row exactly once. */
    ghost predicate Valid()
      reads this
    {
      && "" !in rows
      && (forall id :: id in rows <==> id in order)
      && (forall i, j :: 0 <= i < j < |order| ==> order[i] != order[j])
    }

    constructor ()
      ensures Valid() && rows == map[] && order == []
    {
      rows := map[];
      order := [];
    }

    /** `INSERT ... RETURNING id, created_at`: the database picks a fresh id and the time. */
    method Insert(lbl: string, payload: Option<Bytes>) returns (id: string, createdAt: Time)
      requires Valid()
      modifies this
      ensures Valid()
      ensures id != "" && id !in old(rows)
      ensures rows == old(rows)[id := Row(lbl, payload, createdAt, None)]
      ensures order == old(order) + [id]
    {
      FreshIdExists(rows.Keys);
      id :| id != "" && id !in rows.Keys;
      createdAt := *;
      rows := rows[id := Row(lbl, payload, createdAt, None)];
      order := order + [id];
    }

    /**
     * `UPDATE ... WHERE id=$3 RETURNING updated_at`: the new time when the row
     * exists, no row (`None`) otherwise.
     */
    method Update(id: string, lbl: string, payload: Option<Bytes>) returns (updatedAt: Option<Time>)
      requires Valid()
      modifies this
      ensures Valid()
      ensures id !in old(rows) ==> updatedAt.None? && unchanged(this)
      ensures id in old(rows) ==>
        && updatedAt.Some?
        && rows == old(rows)[id := Row(lbl, payload, old(rows)[id].CreatedAt, updatedAt)]
        && order == old(order)
    {
      if id !in rows {
        return None;
      }
      var now: Time := *;
      updatedAt := Some(now);
      rows := rows[id := Row(lbl, payload, rows[id].CreatedAt, updatedAt)];
    }
  }

  /** The package state: the database handle and the instantiated queries. */
  class Store {
    const codec: Codec
    const queries: array<string>
    var db: Table?

    /** The package before `Init`: no handle and four empty query strings. */
    constructor (codec: Codec)
      ensures this.codec == codec && db == null
      ensures fresh(queries) && queries.Length == 4
      ensures forall i :: 0 <= i < 4 ==> queries[i] == ""
    {
      this.codec := codec;
      queries := new string[4](_ => "");
      db := null;
    }

    /** `Init` has bound a database whose table is well formed. */
    ghost predicate Ready()
      reads this, db
    {
      db != null && db.Valid()
    }

    /**
     * `Init(db, table)`: keep the handle and fill each of the four query
     * slots with its template, the table name substituted for `%s`. The
     * deletion template has no slot.
     */
    method Init(db: Table, table: string)
      requires queries.Length == 4
      modifies this, queries
      ensures this.db == db
      ensures forall i :: 0 <= i < 4 ==> queries[i] == FormatOne(Templates()[i], table)
    {
      this.db := db;
      for i := 0 to queries.Length
        invariant this.db == db
        invariant forall k :: 0 <= k < i ==> queries[k] == FormatOne(Templates()[k], table)
      {
        queries[i] := FormatOne(Templates()[i], table);
      }
    }

    /**
     * `Get(id)`: the row with that id, its payload decoded. A missing row is
     * an error (`sql.ErrNoRows`), not an empty Resource.
     */
    function Get(id: string): (r: Result<Record>)
      reads this, db
      requires Ready()
      ensures id !in db.rows ==> r == Failure(ErrNoRows)
      ensures r.Success? ==>
        && id in db.rows
        && r.value.ID == id
        && r.value.Label == db.rows[id].Label
        && r.value.CreatedAt == Some(db.rows[id].CreatedAt)
        && r.value.UpdatedAt == db.rows[id].UpdatedAt
      ensures id in db.rows && db.rows[id].Fields.None? ==> r.Success? && r.value.Fields.None?
      ensures id in db.rows && db.rows[id].Fields.Some? ==>
        match Scan(ByteSlice(db.rows[id].Fields.value), codec)
        case Success(fs) => r.Success? && r.value.Fields == Some(fs)
        case Failure(e) => r == Failure(FieldsScanError(e))
    {
      if id !in db.rows then Failure(ErrNoRows)
      else
        var row := db.rows[id];
        match row.Fields
        case None => Success(Record(id, row.Label, None, Some(row.CreatedAt), row.UpdatedAt))
        case Some(b) =>
          match Scan(ByteSlice(b), codec)
          case Failure(e) => Failure(FieldsScanError(e))
          case Success(fs) => Success(Record(id, row.Label, Some(fs), Some(row.CreatedAt), row.UpdatedAt))
    }

    /**
     * `List(limit, offset)`: the page of rows in table order, without
     * payloads. A negative offset or limit is refused by the database, the
     * offset being checked first. Otherwise `fault`, when present, is the
     * driver failing after `fault.at` rows were scanned (on the query, on a
     * row, or as `rows.Err()` after the last); the rows scanned until then
     * are returned with its error.
     */
    method List(limit: int, offset: int, fault: Option<Fault>) returns (items: seq<Record>, err: Option<string>)
      requires Ready()
      ensures offset < 0 ==> items == [] && err == Some(NegativeOffsetError)
      ensures offset >= 0 && limit < 0 ==> items == [] && err == Some(NegativeLimitError)
      ensures limit >= 0 && offset >= 0 && fault.None? ==>
        items == Page(db.rows, db.order, limit, offset) && err.None?
      ensures limit >= 0 && offset >= 0 && fault.Some? ==>
        var page := Page(db.rows, db.order, limit, offset);
        items == page[..Min(fault.value.at, |page|)] && err == Some(fault.value.msg)
    {
      items := [];
      if offset < 0 {
        return items, Some(NegativeOffsetError);
      }
      if limit < 0 {
        return items, Some(NegativeLimitError);
      }
      var rows, order := db.rows, db.order;
      var lo := Min(offset, |order|);
      var hi := Min(lo + limit, |order|);
      var cursor := order[lo..hi];
      assert forall k :: 0 <= k < |cursor| ==> cursor[k] in rows;
      assert Summaries(cursor, rows) == Page(rows, order, limit, offset);
      items, err := ScanRows(cursor, rows, fault);
    }

    /**
     * A row written with label `lbl` and payload `fields` reads back as
     * written when the payload is storable; a payload with a date that
     * cannot be read back makes every later `Get` of the row fail.
     */
    lemma GetAfterWrite(id: string, lbl: string, fields: Option<FieldSet>, createdAt: Time, updatedAt: Option<Time>)
      requires Ready() && JsonCodec(codec)
      requires id in db.rows && db.rows[id] == Row(lbl, EncodeFields(codec, fields), createdAt, updatedAt)
      ensures fields.None? || Storable(fields.value) ==>
        Get(id) == Success(Record(id, lbl, fields, Some(createdAt), updatedAt))
      ensures fields.Some? && !Storable(fields.value) ==> Get(id).Failure?
    {
      if fields.Some? {
        ScanRoundTrip(codec, fields.value);
      }
    }
  }

  /** PostgreSQL's refusals of a negative `OFFSET` and `LIMIT`, as lib/pq reports them. */
  const NegativeOffsetError := "pq: OFFSET must not be negative"
  const NegativeLimitError := "pq: LIMIT must not be negative"

  const ExistingIdError := "cannot create resource with existing id: "
  const MissingIdError := "cannot update Resource without existing id"

  /** A Go `Resource` struct that `Create` and `Update` fill in through their receiver. */
  class Resource {
    var ID: string
    var Label: string
    var Fields: Option<FieldSet>
    var CreatedAt: Option<Time>
    var UpdatedAt: Option<Time>

    /** A struct literal, or the struct a JSON body was decoded into. */
    constructor (value: Record)
      ensures Value() == value
    {
      ID, Label, Fields := value.ID, value.Label, value.Fields;
      CreatedAt, UpdatedAt := value.CreatedAt, value.UpdatedAt;
    }

    function Value(): Record
      reads this
    {
      Record(ID, Label, Fields, CreatedAt, UpdatedAt)
    }

    /**
     * `r.Create()`: refuse a Resource that already has an ID; otherwise
     * insert its label and payload and take back the ID and creation time
     * the database assigned. `UpdatedAt` is left as it was. `fault`, when
     * present, is the driver's error for the insertion.
     */
    method Create(s: Store, fault: Option<string>) returns (err: Option<string>)
      requires s.Ready()
      modifies this, s.db
      ensures s.Ready()
      ensures old(ID) != "" ==> err == Some(ExistingIdError + old(ID))
      ensures old(ID) == "" ==> err == fault
      ensures err.Some? ==> unchanged(this) && unchanged(s.db)
      ensures err.None? ==>
        && old(ID) == "" && ID != "" && ID !in old(s.db.rows)
        && CreatedAt.Some?
        && Label == old(Label) && Fields == old(Fields) && UpdatedAt == old(UpdatedAt)
        && s.db.rows == old(s.db.rows)[ID := Row(Label, EncodeFields(s.codec, Fields), CreatedAt.value, None)]
        && s.db.order == old(s.db.order) + [ID]
    {
      if ID != "" {
        return Some(ExistingIdError + ID);
      }
      if fault.Some? {
        // the driver reports a failure and nothing is inserted
        return fault;
      }
      var newId, now := s.db.Insert(Label, EncodeFields(s.codec, Fields));
      ID, CreatedAt := newId, Some(now);
      return None;
    }

    /**
     * `r.Update()`: refuse a Resource without an ID; otherwise rewrite the
     * row's label and payload and take back the new `updated_at`. An ID no
     * row has makes the query return no row, which is `sql.ErrNoRows`.
     * `fault`, when present, is the driver's error for the update.
     */
    method Update(s: Store, fault: Option<string>) returns (err: Option<string>)
      requires s.Ready()
      modifies this, s.db
      ensures s.Ready()
      ensures old(ID) == "" ==> err == Some(MissingIdError)
      ensures old(ID) != "" && fault.Some? ==> err == fault
      ensures old(ID) != "" && fault.None? ==>
        (old(ID) in old(s.db.rows) <==> err.None?) && (err.Some? ==> err == Some(ErrNoRows))
      ensures err.Some? ==> unchanged(this) && unchanged(s.db)
      ensures err.None? ==>
        && old(ID) in old(s.db.rows)
        && UpdatedAt.Some?
        && ID == old(ID) && Label == old(Label) && Fields == old(Fields) && CreatedAt == old(CreatedAt)
        && s.db.rows == old(s.db.rows)[ID := Row(Label, EncodeFields(s.codec, Fields), old(s.db.rows)[ID].CreatedAt, UpdatedAt)]
        && s.db.order == old(s.db.order)
    {
      if ID == "" {
        return Some(MissingIdError);
      }
      if fault.Some? {
        return fault;
      }
      var t := s.db.Update(ID, Label, EncodeFields(s.codec, Fields));
      if t.None? {
        return Some(ErrNoRows);
      }
      UpdatedAt := t;
      return None;
    }
  }

  /**
   * The create, update and get sequence of the package's tests, with the
   * driver's errors for the insertion and the update: a fresh Resource gets
   * an id and a creation time and no update time; once both writes went
   * through, reading it back gives the new label and description, the
   * creation time and an update time.
   */
  method CreateUpdateGet(s: Store, createFault: Option<string>, updateFault: Option<string>)
    returns (created: Record, got: Result<Record>)
    requires s.Ready() && JsonCodec(s.codec)
    modifies s.db
    ensures createFault.Some? ==> created.ID == "" && got == Failure(createFault.value)
    ensures createFault.None? ==> created.ID != "" && created.CreatedAt.Some? && created.UpdatedAt.None?
    ensures createFault.None? && updateFault.Some? ==> got == Failure(updateFault.value)
    ensures createFault.None? && updateFault.None? ==>
      && got.Success?
      && got.value == Record(created.ID, "New Label",
           Some(FieldSet("This is a something", [], "Add a description", None)),
           created.CreatedAt, got.value.UpdatedAt)
      && got.value.UpdatedAt.Some?
  {
    var r := new Resource(Record("", "test", Some(FieldSet("This is a something", [], "", None)), None, None));
    var err := r.Create(s, createFault);
    created := r.Value();
    if err.Some? {
      return created, Failure(err.value);
    }
    r.Label := "New Label";
    r.Fields := Some(r.Fields.value.(Description := "Add a description"));
    err := r.Update(s, updateFault);
    if err.Some? {
      return created, Failure(err.value);
    }
    s.GetAfterWrite(r.ID, r.Label, r.Fields, s.db.rows[r.ID].CreatedAt, r.UpdatedAt);
    got := s.Get(r.ID);
  }
}
