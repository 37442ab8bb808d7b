/** The data access layer (`DataProgram`): the one cell that holds the
    balance, with read and replace primitives and no business rules. */
module Store {
  import opened Wrappers
  import opened Money

  /** The operation requested of `execute`: 'READ', 'WRITE' with a value,
      or any other operation string, which `execute` ignores. */
  datatype StoreOp = ReadOp | WriteOp(balance: int) | OtherOp(name: string)

  class DataProgram {
    /** The stored balance, in cents. Writes are not range-checked. */
    var storageBalance: int

    constructor ()
      ensures storageBalance == InitialBalance
    {
      storageBalance := InitialBalance;
    }

    /** The 'READ' branch of `execute`: the stored balance, with nothing changed. */
    method ExecuteRead() returns (b: int)
      ensures b == storageBalance
    {
      b := storageBalance;
    }

    /** The 'WRITE' branch of `execute`: the stored balance becomes exactly
        `b`, whatever it is, and `b` is returned. */
    method ExecuteWrite(b: int) returns (r: int)
      modifies this
      ensures storageBalance == b && r == b
    {
      storageBalance := b;
      r := b;
    }

    /** `execute`: a read returns the stored balance; a write replaces it and
        returns the value written; any other request does nothing and returns
        nothing (`undefined`). */
    method Execute(op: StoreOp) returns (r: Option<int>)
      modifies this
      ensures op.ReadOp? ==> r == Some(old(storageBalance)) && storageBalance == old(storageBalance)
      ensures op.WriteOp? ==> r == Some(op.balance) && storageBalance == op.balance
      ensures op.OtherOp? ==> r == None && storageBalance == old(storageBalance)
    {
      match op
      case ReadOp =>
        var b := ExecuteRead();
        r := Some(b);
      case WriteOp(b) =>
        var written := ExecuteWrite(b);
        r := Some(written);
      case OtherOp(_) =>
        r := None;
    }

    /** `getBalance`: the stored balance, with nothing changed. */
    method GetBalance() returns (b: int)
      ensures b == storageBalance
    {
      b := storageBalance;
    }
  }
}
