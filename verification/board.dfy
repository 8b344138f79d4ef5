/**
 The board as a whole: the drag-and-drop handshake that carries a lead's id from
 the card being picked up to the column it is released over, and the effect of
 a release on the rendered columns.
 */
module Board {
  import opened Leads
  import opened Columns
  import opened Partition
  import opened StatusChange

  /** The drag payload store of one drag gesture: format key to string value. */
  type DataTransfer = map<string, string>

  /** The single key under which the dragged lead's id travels. */
  const LeadIdKey: string := "leadId"

  /** Writing a payload under a key replaces whatever that key held. */
  function SetData(dt: DataTransfer, key: string, value: string): (r: DataTransfer)
    ensures key in r && r[key] == value
    ensures forall k :: k in dt && k != key ==> k in r && r[k] == dt[k]
    ensures r.Keys == dt.Keys + {key}
  {
    dt[key := value]
  }

  /** Reading a key that was never written yields the empty string. */
  function GetData(dt: DataTransfer, key: string): (v: string)
    ensures key in dt ==> v == dt[key]
    ensures key !in dt ==> v == ""
  {
    if key in dt then dt[key] else ""
  }

  /** Reading a key gives back the value last written under it; other keys are untouched. */
  lemma PayloadRoundTrip(dt: DataTransfer, key: string, value: string, other: string)
    ensures GetData(SetData(dt, key, value), key) == value
    ensures other != key ==> GetData(SetData(dt, key, value), other) == GetData(dt, other)
  {
  }

  /** Picking up a card: the card hands over its own lead's id as the payload. */
  function DragStart(dt: DataTransfer, lead: Lead): (r: DataTransfer)
    ensures GetData(r, LeadIdKey) == lead.id
  {
    SetData(dt, LeadIdKey, lead.id)
  }

  /** Releasing over the column of stage `s`: the payload's id is dropped onto `s`. */
  function HandleDrop(leads: seq<Lead>, dt: DataTransfer, s: LeadStatus): (r: seq<Lead>)
    ensures Ids(r) == Ids(leads)
    ensures LeadIdKey !in dt && "" !in Ids(leads) ==> r == leads
  {
    Drop(leads, GetData(dt, LeadIdKey), s)
  }

  /** The id that is dropped is the id of the card that was picked up. */
  lemma DragThenDrop(leads: seq<Lead>, dt: DataTransfer, lead: Lead, s: LeadStatus)
    ensures HandleDrop(leads, DragStart(dt, lead), s) == Drop(leads, lead.id, s)
  {
  }

  /**
   After a card of a collection with unique ids is picked up and released over
   the column of stage `s`, that card is shown in column `s` with all its other
   fields unchanged, it is shown in no other column, and every other card keeps
   its column.
   */
  lemma DroppedCardMovesToColumn(leads: seq<Lead>, i: nat, s: LeadStatus, dt: DataTransfer)
    requires i < |leads|
    requires UniqueIds(leads)
    ensures var after := HandleDrop(leads, DragStart(dt, leads[i]), s);
            && after[i] in Filter(after, s)
            && SameExceptStatus(after[i], leads[i])
            && (forall t :: t != s ==> forall l :: l in Filter(after, t) ==> l.id != leads[i].id)
            && (forall j :: 0 <= j < |leads| && j != i ==> after[j] == leads[j])
  {
  }

  /**
   The seed board: moving lead "2" (contacted) onto the negotiating column leaves
   it negotiating and leaves lead "1" as it was.
   */
  lemma SeedMoveExample(createdAt1: string, createdAt2: string)
    ensures var before := InitialLeads(createdAt1, createdAt2);
            var after := Drop(before, "2", Negotiating);
            && after[1].id == "2" && after[1].status == Negotiating
            && SameExceptStatus(after[1], before[1])
            && after[0] == before[0]
            && Filter(after, Contacted) == []
            && Filter(after, Negotiating) == [after[1]]
  {
  }
}
