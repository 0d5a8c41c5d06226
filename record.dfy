/**
 * One ledger entry.  Its date is fixed when it is made (there is no setter
 * for it, so it is a `const` here); the other four fields are overwritten
 * in place by the setters, and every list holding the entry sees the change.
 */
module Records {

  class Record {
    const date: string
    var kind: string        // the Java field `type`, e.g. "INCOME" or "EXPENSE"
    var category: string
    var description: string
    var amount: int         // in cents

    constructor (date: string, kind: string, category: string, description: string, amount: int)
      ensures this.date == date && this.kind == kind && this.category == category
      ensures this.description == description && this.amount == amount
    {
      this.date := date;
      this.kind := kind;
      this.category := category;
      this.description := description;
      this.amount := amount;
    }

    method GetDate() returns (d: string)
      ensures d == date
    {
      d := date;
    }

    method GetType() returns (t: string)
      ensures t == kind
    {
      t := kind;
    }

    method GetCategory() returns (c: string)
      ensures c == category
    {
      c := category;
    }

    method GetDescription() returns (d: string)
      ensures d == description
    {
      d := description;
    }

    method GetAmount() returns (a: int)
      ensures a == amount
    {
      a := amount;
    }

    method SetType(t: string)
      modifies this
      ensures kind == t
      ensures category == old(category) && description == old(description) && amount == old(amount)
    {
      kind := t;
    }

    method SetCategory(c: string)
      modifies this
      ensures category == c
      ensures kind == old(kind) && description == old(description) && amount == old(amount)
    {
      category := c;
    }

    method SetDescription(d: string)
      modifies this
      ensures description == d
      ensures kind == old(kind) && category == old(category) && amount == old(amount)
    {
      description := d;
    }

    method SetAmount(a: int)
      modifies this
      ensures amount == a
      ensures kind == old(kind) && category == old(category) && description == old(description)
    {
      amount := a;
    }
  }
}
