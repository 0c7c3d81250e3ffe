/** The database behind the state machine. */
module KvStore {
  import opened Types
  import opened Quorum

  datatype BatchOp = Delete(key: string) | Put(key: string, value: string)

  function ApplyOp(db: map<string, string>, op: BatchOp): map<string, string> {
    match op
    case Delete(key) => db - {key}
    case Put(key, value) => db[key := value]
  }

  function ApplyBatch(db: map<string, string>, batch: seq<BatchOp>): map<string, string> {
    if batch == [] then db else ApplyOp(ApplyBatch(db, batch[..|batch| - 1]), batch[|batch| - 1])
  }

  lemma BatchSnoc(db: map<string, string>, batch: seq<BatchOp>, op: BatchOp)
    ensures ApplyBatch(db, batch + [op]) == ApplyOp(ApplyBatch(db, batch), op)
  {
    assert (batch + [op])[..|batch|] == batch;
  }

  class KVStore {
    var db: map<string, string>

    constructor ()
      ensures db == map[]
    {
      db := map[];
    }

    method Apply(e: LogEntry)
      modifies this
      ensures db == ApplyToStore(old(db), e)
    {
      match e.op
      case PUT => db := db[e.key := e.value];
      case DEL => db := db - {e.key};
      case _ =>
    }

    method Get(key: string) returns (found: bool, value: string)
      ensures found <==> key in db
      ensures found ==> value == db[key]
    {
      found, value := false, "";
      if key in db {
        found, value := true, db[key];
      }
    }

    /** Walks the keys in whatever order the iterator yields them. */
    method Dump() returns (data: map<string, string>)
      ensures data == db
    {
      data := map[];
      var rest := db.Keys;
      while rest != {}
        invariant rest <= db.Keys && data.Keys == db.Keys - rest
        invariant forall k | k in data :: data[k] == db[k]
        decreases |rest|
      {
        ghost var some := Pick(rest);
        assert some in rest;
        var k :| k in rest;
        data := data[k := db[k]];
        rest := rest - {k};
      }
    }

    /** Replaces the whole content by one atomic batch: delete every old key, then put every new pair. */
    method LoadFromSnapshot(data: map<string, string>)
      modifies this
      ensures db == data
    {
      var oldData := Dump();
      var deletes := Deletes(oldData);
      var batch := Puts(deletes, data);
      db := ApplyBatch(db, batch);
    }

    method Deletes(oldData: map<string, string>) returns (batch: seq<BatchOp>)
      requires oldData == db
      ensures ApplyBatch(db, batch).Keys == {}
    {
      batch := [];
      var rest := oldData.Keys;
      while rest != {}
        invariant rest <= oldData.Keys
        invariant ApplyBatch(db, batch).Keys == rest
        decreases |rest|
      {
        ghost var some := Pick(rest);
        assert some in rest;
        var k :| k in rest;
        BatchSnoc(db, batch, Delete(k));
        batch := batch + [Delete(k)];
        rest := rest - {k};
      }
    }

    method Puts(deletes: seq<BatchOp>, data: map<string, string>) returns (batch: seq<BatchOp>)
      requires ApplyBatch(db, deletes).Keys == {}
      ensures ApplyBatch(db, batch) == data
    {
      hide ApplyBatch;
      batch := deletes;
      var rest := data.Keys;
      while rest != {}
        invariant rest <= data.Keys
        invariant ApplyBatch(db, batch).Keys == data.Keys - rest
        invariant forall k | k in ApplyBatch(db, batch) :: ApplyBatch(db, batch)[k] == data[k]
        decreases |rest|
      {
        ghost var some := Pick(rest);
        assert some in rest;
        var k :| k in rest;
        BatchSnoc(db, batch, Put(k, data[k]));
        batch := batch + [Put(k, data[k])];
        rest := rest - {k};
      }
    }
  }
}
