// The one mutable thing: the SQLite file that every service and process shares.

module Database {
  import opened Tables
  import opened Kernel

  /** One SQLite file, shared by every service and every process. */
  class OgraDatabase {
    var tables: Db

    constructor ()
      ensures tables == EmptyDb
    {
      tables := EmptyDb;
    }

    /** Whatever other callers do before this caller's transaction gets the lock. */
    method OthersRun(ops: seq<Op>)
      modifies this
      ensures tables == Exec(old(tables), ops)
    {
      var n := 0;
      while n < |ops|
        invariant n <= |ops| && tables == Exec(old(tables), ops[..n])
      {
        assert ops[..n + 1][..n] == ops[..n];
        tables := Apply(tables, ops[n]);
        n := n + 1;
      }
      assert ops[..n] == ops;
    }
  }
}
