/** The dashboard's own entry records (src/pages/Index.tsx) and the list
    transformers its handlers pass to the React state setters: append a new
    entry, replace the data of the entries with a given id, and drop the
    entries with a given id. Income and cost entries obey the same rules, so
    the transformers are written once over the entry's data part. */
module Entries {
  import opened Common

  /** The fields a user types into the income form. */
  datatype IncomeData = IncomeData(date: string, jobTitle: string, clientName: string, billAmount: real)

  /** The fields a user types into the cost form. */
  datatype CostData = CostData(date: string, costTitle: string, costAmount: real)

  /** An entry as the dashboard stores it: `{ id, ...data, isEditing }`. */
  datatype Entry<D> = Entry(id: string, data: D, isEditing: bool)

  type IncomeEntry = Entry<IncomeData>
  type CostEntry = Entry<CostData>

  /** A profit-sharing partner of the "Work Together" card. */
  datatype Collaborator = Collaborator(id: string, name: string, sharePercentage: int)

  function SharePercentage(c: Collaborator): int { c.sharePercentage }

  /** `[...prev, { ...data, id, isEditing: false }]`. */
  function Append<D>(entries: seq<Entry<D>>, id: string, data: D): (r: seq<Entry<D>>)
    ensures |r| == |entries| + 1
    ensures r[..|entries|] == entries
    ensures r[|entries|] == Entry(id, data, false)
  {
    entries + [Entry(id, data, false)]
  }

  /** `prev.map(e => e.id === id ? { ...e, ...data, isEditing: false } : e)`. */
  function EditById<D>(entries: seq<Entry<D>>, id: string, data: D): (r: seq<Entry<D>>)
    ensures |r| == |entries|
    ensures forall i :: 0 <= i < |entries| ==>
      r[i] == if entries[i].id == id then Entry(id, data, false) else entries[i]
  {
    if entries == [] then []
    else
      var last := entries[|entries| - 1];
      EditById(entries[..|entries| - 1], id, data)
        + [if last.id == id then last.(data := data, isEditing := false) else last]
  }

  /** `prev.filter(e => e.id !== id)`. */
  function DeleteById<D>(entries: seq<Entry<D>>, id: string): (r: seq<Entry<D>>)
    ensures |r| <= |entries|
    ensures forall i :: 0 <= i < |r| ==> r[i].id != id && r[i] in entries
    ensures forall i :: 0 <= i < |entries| && entries[i].id != id ==> entries[i] in r
  {
    if entries == [] then []
    else
      var last := entries[|entries| - 1];
      DeleteById(entries[..|entries| - 1], id) + (if last.id == id then [] else [last])
  }

  predicate HasId<D>(entries: seq<Entry<D>>, id: string)
  {
    exists i :: 0 <= i < |entries| && entries[i].id == id
  }

  /** Deleting distributes over concatenation, so the entries that stay keep
      their relative order. */
  lemma {:induction false} DeleteByIdAppend<D>(a: seq<Entry<D>>, b: seq<Entry<D>>, id: string)
    ensures DeleteById(a + b, id) == DeleteById(a, id) + DeleteById(b, id)
  {
    if b == [] {
      assert a + b == a;
    } else {
      var c := b[..|b| - 1];
      assert (a + b)[..|a + b| - 1] == a + c;
      assert (a + b)[|a + b| - 1] == b[|b| - 1];
      DeleteByIdAppend(a, c, id);
    }
  }

  /** Deleting an id nobody has leaves the list as it was. */
  lemma {:induction false} DeleteAbsentId<D>(entries: seq<Entry<D>>, id: string)
    requires !HasId(entries, id)
    ensures DeleteById(entries, id) == entries
  {
    if entries != [] {
      var init := entries[..|entries| - 1];
      assert forall i :: 0 <= i < |init| ==> init[i] == entries[i];
      DeleteAbsentId(init, id);
      assert entries[|entries| - 1].id != id;
      assert init + [entries[|entries| - 1]] == entries;
    }
  }

  /** Adding an entry under a fresh id and then deleting that id restores the
      original list. */
  lemma AppendThenDelete<D>(entries: seq<Entry<D>>, id: string, data: D)
    requires !HasId(entries, id)
    ensures DeleteById(Append(entries, id, data), id) == entries
  {
    DeleteByIdAppend(entries, [Entry(id, data, false)], id);
    DeleteAbsentId(entries, id);
    assert DeleteById([Entry(id, data, false)], id) == [];
  }

  /** Editing an id nobody has changes nothing. */
  lemma EditAbsentId<D>(entries: seq<Entry<D>>, id: string, data: D)
    requires !HasId(entries, id)
    ensures EditById(entries, id, data) == entries
  {
    var r := EditById(entries, id, data);
    assert forall i :: 0 <= i < |entries| ==> r[i] == entries[i];
  }

  // ---------------------------------------------------------------------
  // Totals (src/pages/Index.tsx lines 57-59)

  function BillAmount(e: IncomeEntry): real { e.data.billAmount }
  function CostAmount(e: CostEntry): real { e.data.costAmount }

  function TotalIncome(entries: seq<IncomeEntry>): real
  {
    Sum(entries, BillAmount)
  }

  function TotalCosts(entries: seq<CostEntry>): real
  {
    Sum(entries, CostAmount)
  }

  /** Appending an income entry raises the income total by exactly its bill
      amount. */
  lemma TotalIncomeAfterAppend(entries: seq<IncomeEntry>, id: string, data: IncomeData)
    ensures TotalIncome(Append(entries, id, data)) == TotalIncome(entries) + data.billAmount
  {
    var e := Entry(id, data, false);
    assert Append(entries, id, data)[..|entries|] == entries;
  }

  /** Appending a cost entry raises the cost total by exactly its amount. */
  lemma TotalCostsAfterAppend(entries: seq<CostEntry>, id: string, data: CostData)
    ensures TotalCosts(Append(entries, id, data)) == TotalCosts(entries) + data.costAmount
  {
    assert Append(entries, id, data)[..|entries|] == entries;
  }

  /** Deleting never raises the income total when amounts are non-negative. */
  lemma {:induction false} TotalIncomeAfterDelete(entries: seq<IncomeEntry>, id: string)
    requires forall i :: 0 <= i < |entries| ==> entries[i].data.billAmount >= 0.0
    ensures 0.0 <= TotalIncome(DeleteById(entries, id)) <= TotalIncome(entries)
  {
    if entries != [] {
      var init, last := entries[..|entries| - 1], entries[|entries| - 1];
      TotalIncomeAfterDelete(init, id);
      var kept := if last.id == id then [] else [last];
      SumAppend(DeleteById(init, id), kept, BillAmount);
      assert Sum(kept, BillAmount) == (if last.id == id then 0.0 else last.data.billAmount) by {
        if last.id != id { assert kept[..0] == []; }
      }
    }
  }
}
