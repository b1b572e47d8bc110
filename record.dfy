/** Records (Record.swift): a row of named values held by the object, the
    primary key read from it, the hooks run before a write, and the schema
    every record table starts from. A record type is named by `kind`, the
    text `String(describing:)` gives for its class. */
module Records {
  import opened Errors
  import opened Values
  import opened Results
  import opened Schemas

  /** `primaryKey`: the integer stored under "id", 0 when there is none. */
  function KeyOf(row: Row): (key: int64)
    ensures "id" in row && row["id"].Int64? ==> key == row["id"].n
    ensures !("id" in row && row["id"].Int64?) ==> key == 0
  {
    var id := IntegerFor(row, "id");
    if id.Some? then id.value else 0
  }

  /** Setting any other key leaves the primary key alone. */
  lemma KeyOfIgnoresOtherKeys(row: Row, key: string, v: Value)
    requires key != "id"
    ensures KeyOf(row[key := v]) == KeyOf(row)
  {
  }

  class Record {
    const kind: string
    var storage: Row

    /** `init(withRow:)`: the record holds exactly the given row. */
    constructor (kind: string, row: Row)
      ensures this.kind == kind && storage == row
    {
      this.kind := kind;
      storage := row;
    }

    /** `init()`: a new record carries its two timestamps, both `now`. */
    constructor New(kind: string, now: Value)
      ensures this.kind == kind && storage == map["createdAt" := now, "updatedAt" := now]
      ensures KeyOf(storage) == 0
    {
      this.kind := kind;
      storage := map["createdAt" := now, "updatedAt" := now];
    }

    function PrimaryKey(): int64
      reads this
    {
      KeyOf(storage)
    }

    /** `row()`. */
    method Row() returns (r: Outcome<Row>)
      ensures r == Ok(storage)
    {
      r := Ok(storage);
    }

    /** `value(forKey:)`: what was last stored under `key`, if anything. */
    function ValueFor(key: string): (r: Option<Value>)
      reads this
      ensures r.Some? <==> key in storage
      ensures r.Some? ==> r.value == storage[key]
    {
      if key in storage then Some(storage[key]) else None
    }

    /** `set(value:forKey:)`: only `key` changes. */
    method Set(value: Value, key: string)
      modifies this
      ensures storage == old(storage)[key := value]
      ensures ValueFor(key) == Some(value)
      ensures forall k :: k != key ==> ValueFor(k) == old(ValueFor(k))
    {
      storage := storage[key := value];
    }

    /** `inserted(withRowID:)`: the row id becomes the primary key. */
    method Inserted(id: int64)
      modifies this
      ensures storage == old(storage)["id" := Int64(id)]
      ensures PrimaryKey() == id
    {
      Set(Int64(id), "id");
    }

    /** `_willInsert`: only the `willSave` hook, which a plain record leaves
        empty. */
    method WillInsert()
      ensures storage == old(storage)
    {
    }

    /** `_willUpdate`: stamp `updatedAt` with `now`, then `willSave`; the key
        is untouched. */
    method WillUpdate(now: Value)
      modifies this
      ensures storage == old(storage)["updatedAt" := now]
      ensures PrimaryKey() == old(PrimaryKey())
    {
      Set(now, "updatedAt");
      KeyOfIgnoresOtherKeys(old(storage), "updatedAt", now);
    }
  }

  /** The three columns every record table has. */
  const BaseColumns := [
    Schemas.Column("id", IntegerStorage, Union(NotNull, PrimaryKeyAutoIncrement)),
    Schemas.Column("createdAt", IntegerStorage, NotNull),
    Schemas.Column("updatedAt", IntegerStorage, NotNull)]

  /** `createTableSchema()` of the base class: a table named after the type
      with the key and the two timestamps, in that order, and nothing else. */
  method CreateTableSchema(kind: string) returns (schema: TableSchema)
    ensures fresh(schema) && schema.tableName == kind
    ensures schema.columns == BaseColumns && schema.indices == [] && schema.foreignKeys == []
  {
    schema := new TableSchema(kind);
    schema.AddColumn("id", IntegerStorage, Union(NotNull, PrimaryKeyAutoIncrement));
    schema.AddColumn("createdAt", IntegerStorage, NotNull);
    schema.AddColumn("updatedAt", IntegerStorage, NotNull);
  }

  /** The base schema's key column is the auto-incremented primary key and
      both timestamps are required; none of the three is UNIQUE. */
  lemma BaseColumnsOptions()
    ensures Has(BaseColumns[0].options, PrimaryKeyAutoIncrement) && Has(BaseColumns[0].options, NotNull)
    ensures Has(BaseColumns[1].options, NotNull) && Has(BaseColumns[2].options, NotNull)
    ensures forall c <- BaseColumns :: !Has(c.options, Unique) && !Has(c.options, PrimaryKey)
  {
    assert BaseColumns[0].options.raw == 9 && BaseColumns[1].options.raw == 1 && BaseColumns[2].options.raw == 1;
  }
}
