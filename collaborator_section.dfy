/** The "Work Together" card (src/components/CollaboratorSection.tsx): the
    effect that rebuilds the collaborator list whenever the count changes,
    the per-field edit handler, the displayed total and the count input. */
module CollaboratorSection {
  import opened Common
  import opened Text
  import opened Entries

  /** The share a slot gets when it has none: `floor(100 / n)`, or 100 when
      the count is not positive. */
  function DefaultShare(n: int): (d: int)
    ensures n > 0 ==> 0 <= d <= 100 && n * d <= 100 && 100 - n < n * d
  {
    if n > 0 then
      var d := 100 / n;
      assert n * d <= 100 < n * (d + 1);
      d
    else 100
  }

  /** Slot `i` after resizing `prev` to `n` slots. An existing slot keeps its
      name and its id unless the id is empty; its share is kept unless it is
      0 (JavaScript's `||` treats 0 as missing). A new slot is
      `collab-<i>` with no name and the default share. */
  function ResizedSlot(prev: seq<Collaborator>, n: int, i: nat): Collaborator
  {
    if i < |prev| then
      Collaborator(
        if prev[i].id != "" then prev[i].id else "collab-" + IntToString(i),
        prev[i].name,
        if prev[i].sharePercentage != 0 then prev[i].sharePercentage else DefaultShare(n))
    else Collaborator("collab-" + IntToString(i), "", DefaultShare(n))
  }

  /** The effect of lines 22-36: build the new list slot by slot. */
  method Resize(prev: seq<Collaborator>, n: int) returns (r: seq<Collaborator>)
    ensures |r| == if n > 0 then n else 0
    ensures forall i :: 0 <= i < |r| ==> r[i] == ResizedSlot(prev, n, i)
  {
    var defaultPercentage := if n > 0 then 100 / n else 100;
    r := [];
    var i := 0;
    while i < n
      invariant 0 <= i && (n > 0 ==> i <= n) && (n <= 0 ==> i == 0)
      invariant |r| == i
      invariant forall j :: 0 <= j < i ==> r[j] == ResizedSlot(prev, n, j)
    {
      var id, name, share;
      if i < |prev| {
        var existing := prev[i];
        id := if existing.id != "" then existing.id else "collab-" + IntToString(i);
        name := existing.name;
        share := if existing.sharePercentage != 0 then existing.sharePercentage else defaultPercentage;
      } else {
        id := "collab-" + IntToString(i);
        name := "";
        share := defaultPercentage;
      }
      r := r + [Collaborator(id, name, share)];
      i := i + 1;
    }
  }

  /** `totalPercentage`. */
  function TotalPercentage(cs: seq<Collaborator>): int
  {
    SumInt(cs, SharePercentage)
  }

  /** Resizing an empty list to n slots gives every slot `floor(100 / n)`,
      so the total is at most 100 and short of it by less than n points. */
  lemma FreshResizeTotal(r: seq<Collaborator>, n: int)
    requires n > 0 && |r| == n
    requires forall i :: 0 <= i < n ==> r[i] == ResizedSlot([], n, i)
    ensures 100 - n < TotalPercentage(r) <= 100
  {
    SumIntConstant(r, SharePercentage, DefaultShare(n));
  }

  /** Resizing keeps every existing name and every non-empty id, and keeps
      the list's non-zero shares. */
  lemma ResizeKeepsExisting(prev: seq<Collaborator>, n: int, i: nat)
    requires i < |prev| && i < n
    ensures ResizedSlot(prev, n, i).name == prev[i].name
    ensures prev[i].id != "" ==> ResizedSlot(prev, n, i).id == prev[i].id
    ensures prev[i].sharePercentage != 0 ==> ResizedSlot(prev, n, i).sharePercentage == prev[i].sharePercentage
    ensures prev[i].sharePercentage == 0 ==> ResizedSlot(prev, n, i).sharePercentage == DefaultShare(n)
  {
  }

  /** Ids of fresh slots differ from each other. */
  lemma FreshIdsDistinct(prev: seq<Collaborator>, n: int, i: nat, j: nat)
    requires |prev| <= i < j
    ensures ResizedSlot(prev, n, i).id != ResizedSlot(prev, n, j).id
  {
    var p := "collab-";
    if ResizedSlot(prev, n, i).id == ResizedSlot(prev, n, j).id {
      assert (p + IntToString(i))[|p|..] == IntToString(i);
      assert (p + IntToString(j))[|p|..] == IntToString(j);
      IntToStringInjective(i, j);
    }
  }

  /** Which field an edit writes, and its new value. */
  datatype FieldEdit = SetName(name: string) | SetShare(share: int)

  function ApplyEdit(c: Collaborator, e: FieldEdit): Collaborator
  {
    match e
    case SetName(name) => c.(name := name)
    case SetShare(share) => c.(sharePercentage := share)
  }

  /** `handleCollaboratorChange(index, field, value)`: copy the list, replace
      one field of one slot. The inputs only exist for slots of the list, so
      `index` is one of its positions. */
  method ChangeCollaborator(cs: seq<Collaborator>, index: int, edit: FieldEdit) returns (r: seq<Collaborator>)
    requires 0 <= index < |cs|
    ensures |r| == |cs|
    ensures r[index].id == cs[index].id
    ensures edit.SetName? ==> r[index].name == edit.name && r[index].sharePercentage == cs[index].sharePercentage
    ensures edit.SetShare? ==> r[index].sharePercentage == edit.share && r[index].name == cs[index].name
    ensures forall j :: 0 <= j < |cs| && j != index ==> r[j] == cs[j]
    ensures TotalPercentage(r) == TotalPercentage(cs) - cs[index].sharePercentage + r[index].sharePercentage
  {
    var updated := new Collaborator[|cs|](i requires 0 <= i < |cs| => cs[i]);
    updated[index] := ApplyEdit(updated[index], edit);
    r := updated[..];
    assert r == cs[index := ApplyEdit(cs[index], edit)];
    SumIntUpdate(cs, index, ApplyEdit(cs[index], edit), SharePercentage);
  }

  /** The count input: `Math.max(1, parseInt(value) || 1)`. */
  function CountInput(text: string): (n: int)
    ensures n >= 1
    ensures JsParseInt(text).None? ==> n == 1
    ensures JsParseInt(text).Some? && JsParseInt(text).value >= 1 ==> n == JsParseInt(text).value
    ensures JsParseInt(text).Some? && JsParseInt(text).value < 1 ==> n == 1
  {
    var v := IntOr(JsParseInt(text), 1);
    if v < 1 then 1 else v
  }

  /** Typing a positive count sets exactly that count. */
  lemma CountInputOfPositive(n: int)
    requires n >= 1
    ensures CountInput(IntToString(n)) == n
  {
    JsParseIntOfIntToString(n);
  }
}
