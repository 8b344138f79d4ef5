/**
 The status change performed when a card is released over a column: every lead
 whose id is the dropped id takes the column's stage; every other lead is kept
 as it is. The collection is replaced by a new sequence of the same length.
 */
module StatusChange {
  import opened Leads

  /** One lead after a drop of `id` onto stage `s`. */
  function Relabel(lead: Lead, id: string, s: LeadStatus): Lead
  {
    if lead.id == id then lead.(status := s) else lead
  }

  /** The collection after a drop of `id` onto the column of stage `s`. */
  function Drop(leads: seq<Lead>, id: string, s: LeadStatus): (r: seq<Lead>)
    ensures |r| == |leads|
    ensures forall i :: 0 <= i < |leads| ==> r[i].id == leads[i].id
    ensures forall i :: 0 <= i < |leads| && leads[i].id == id ==>
              r[i].status == s && SameExceptStatus(r[i], leads[i])
    ensures forall i :: 0 <= i < |leads| && leads[i].id != id ==> r[i] == leads[i]
  {
    if |leads| == 0 then [] else [Relabel(leads[0], id, s)] + Drop(leads[1..], id, s)
  }

  /** A drop keeps the id sequence, and so the id set and id uniqueness. */
  lemma DropPreservesIds(leads: seq<Lead>, id: string, s: LeadStatus)
    ensures Ids(Drop(leads, id, s)) == Ids(leads)
    ensures UniqueIds(leads) ==> UniqueIds(Drop(leads, id, s))
  {
  }

  /** Dropping an id that no lead carries leaves the collection as it was. */
  lemma DropUnknownId(leads: seq<Lead>, id: string, s: LeadStatus)
    requires id !in Ids(leads)
    ensures Drop(leads, id, s) == leads
  {
  }

  /** Dropping a card onto the column it is already in leaves the collection as it was. */
  lemma DropOntoCurrentColumn(leads: seq<Lead>, id: string, s: LeadStatus)
    requires forall i :: 0 <= i < |leads| && leads[i].id == id ==> leads[i].status == s
    ensures Drop(leads, id, s) == leads
  {
  }

  /** Repeating the same drop changes nothing further. */
  lemma DropIdempotent(leads: seq<Lead>, id: string, s: LeadStatus)
    ensures Drop(Drop(leads, id, s), id, s) == Drop(leads, id, s)
  {
  }

  /**
   Dropping one id and then another, different id onto any stages gives the
   same collection in either order: drops of distinct cards do not interfere.
   */
  lemma DropsOfDistinctIdsCommute(leads: seq<Lead>, a: string, s: LeadStatus,
                                     b: string, t: LeadStatus)
    requires a != b
    ensures Drop(Drop(leads, a, s), b, t) == Drop(Drop(leads, b, t), a, s)
  {
  }
}
