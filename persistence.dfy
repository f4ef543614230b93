/** `save_receipt_into_db`: one `ReceiptInfo` becomes one stored `Receipt` row. The
    database is a store of rows with a counter that hands out primary keys, reached through
    a synchronous session (add, commit, refresh); `app/db.py` itself offers only an async
    one. */
module Persistence {
  import opened Wrappers
  import opened Receipts

  /** The `Receipt` table row; `id` is `None` until the database assigns it. */
  datatype Receipt = Receipt(
    id: Option<int>,
    issuedAt: Timestamp,
    vendorName: Option<string>,
    vendorRuc: Option<string>,
    currency: string,
    totalAmount: Decimal,
    tip: Decimal,
    paymentMethod: string,
    note: string)

  /** The fields of a row, read back as a `ReceiptInfo`. */
  function RowInfo(row: Receipt): ReceiptInfo {
    ReceiptInfo(row.issuedAt, row.vendorName, row.vendorRuc, row.currency,
                row.totalAmount, row.tip, row.paymentMethod, row.note)
  }

  /** The unsaved row `Receipt(issued_at=..., ..., note=...)`: every field copied, no id. */
  function NewRow(info: ReceiptInfo): (row: Receipt)
    ensures row.id.None?
    ensures RowInfo(row) == info
  {
    Receipt(None, info.issuedAt, info.vendorName, info.vendorRuc, info.currency,
            info.totalAmount, info.tip, info.paymentMethod, info.note)
  }

  /** Two rows hold the same receipt exactly when they agree on everything but the id. */
  lemma RowsDetermineInfo(a: Receipt, b: Receipt)
    ensures RowInfo(a) == RowInfo(b) <==> a.(id := None) == b.(id := None)
  {
  }

  /** The `receipt` table: its rows in insertion order and the next key it will assign. */
  class ReceiptStore {
    var rows: seq<Receipt>
    var nextId: int

    /** Every stored row has a key below the counter, and keys are distinct. */
    ghost predicate Valid()
      reads this
    {
      && nextId >= 1
      && (forall i :: 0 <= i < |rows| ==> rows[i].id.Some? && 1 <= rows[i].id.value < nextId)
      && (forall i, j :: 0 <= i < j < |rows| ==> rows[i].id != rows[j].id)
    }

    constructor ()
      ensures Valid() && rows == [] && nextId == 1
    {
      rows := [];
      nextId := 1;
    }

    /** `session.add`, `session.commit`, `session.refresh`: exactly one row is appended,
        the existing rows are untouched, and the returned row is the stored one. */
    method Save(info: ReceiptInfo) returns (row: Receipt)
      requires Valid()
      modifies this
      ensures Valid()
      ensures row == NewRow(info).(id := Some(old(nextId)))
      ensures RowInfo(row) == info
      ensures rows == old(rows) + [row]
      ensures nextId == old(nextId) + 1
      ensures forall i :: 0 <= i < |old(rows)| ==> row.id != old(rows)[i].id
    {
      var added := NewRow(info);
      rows := rows + [added];
      // the database assigns the key on commit; refresh reads it back into the row
      added := added.(id := Some(nextId));
      rows := rows[|rows| - 1 := added];
      nextId := nextId + 1;
      row := added;
    }
  }

  /** The scenario of saving 19.99 with no tip paid by Yape into an empty table: the stored
      row carries the input's fields and the key 1. */
  method SaveScenario(issuedAt: Timestamp, note: string) returns (row: Receipt)
    ensures row.id == Some(1)
    ensures RowInfo(row) == ReceiptInfo(issuedAt, None, None, "PEN", Decimal(1999, 2), Decimal(0, 0), "yape", note)
  {
    var store := new ReceiptStore();
    var info := ReceiptInfo(issuedAt, None, None, "PEN", Decimal(1999, 2), Decimal(0, 0), "yape", note);
    row := store.Save(info);
  }
}
