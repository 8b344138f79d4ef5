/**
 The lead record of the sales pipeline and the fixed seed collection the board
 starts with. A lead's status is a closed five-value enumeration, so a lead can
 never hold a status outside the pipeline.
 */
module Leads {

  /** An optional value; `assignedTo` is the only optional field of a lead. */
  datatype Option<+T> = None | Some(value: T)

  /** The five pipeline stages. Every stage may be reached from every other one. */
  datatype LeadStatus = New | Contacted | Negotiating | Won | Lost

  /** A prospective customer. `createdAt` is an opaque timestamp string. */
  datatype Lead = Lead(
    id: string,
    name: string,
    email: string,
    phone: string,
    status: LeadStatus,
    source: string,
    assignedTo: Option<string>,
    createdAt: string
  )

  /** The ids of a collection, position by position. */
  function Ids(leads: seq<Lead>): (ids: seq<string>)
    ensures |ids| == |leads|
    ensures forall i :: 0 <= i < |leads| ==> ids[i] == leads[i].id
  {
    if |leads| == 0 then [] else [leads[0].id] + Ids(leads[1..])
  }

  /** No two leads of the collection share an id. */
  predicate UniqueIds(leads: seq<Lead>)
  {
    forall i, j :: 0 <= i < j < |leads| ==> leads[i].id != leads[j].id
  }

  /** Two leads agree on every field except, possibly, the status. */
  predicate SameExceptStatus(a: Lead, b: Lead)
  {
    && a.id == b.id
    && a.name == b.name
    && a.email == b.email
    && a.phone == b.phone
    && a.source == b.source
    && a.assignedTo == b.assignedTo
    && a.createdAt == b.createdAt
  }

  /**
   The two leads the board is seeded with. Each seed lead reads the clock once
   for its creation time; those two readings are the parameters.
   */
  function InitialLeads(createdAt1: string, createdAt2: string): (leads: seq<Lead>)
    ensures |leads| == 2
    ensures UniqueIds(leads)
    ensures Ids(leads) == ["1", "2"]
    ensures leads[0].status == New && leads[1].status == Contacted
    ensures leads[0].assignedTo == None && leads[1].assignedTo == Some("Alice Cooper")
  {
    [ Lead("1", "John Smith", "john@example.com", "(555) 123-4567",
           New, "Facebook Ads", None, createdAt1),
      Lead("2", "Sarah Johnson", "sarah@example.com", "(555) 234-5678",
           Contacted, "Google Ads", Some("Alice Cooper"), createdAt2) ]
  }
}
