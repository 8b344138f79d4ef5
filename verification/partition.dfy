/**
 The per-column view of the lead collection. Each column shows the leads whose
 status is the column's stage, in collection order; the view is recomputed from
 the collection on every render and never stored.
 */
module Partition {
  import opened Leads
  import opened Columns

  /** The leads of stage `s`, in the order they have in `leads`. */
  function Filter(leads: seq<Lead>, s: LeadStatus): (r: seq<Lead>)
    ensures |r| <= |leads|
    ensures forall i :: 0 <= i < |r| ==> r[i].status == s
    ensures forall l :: l in r <==> l in leads && l.status == s
  {
    if |leads| == 0 then []
    else (if leads[0].status == s then [leads[0]] else []) + Filter(leads[1..], s)
  }

  /** `r` is obtained from `s` by deleting elements, keeping the rest in order. */
  ghost predicate SubsequenceOf(r: seq<Lead>, s: seq<Lead>)
    decreases |s|
  {
    if |r| == 0 then true
    else if |s| == 0 then false
    else (r[0] == s[0] && SubsequenceOf(r[1..], s[1..])) || SubsequenceOf(r, s[1..])
  }

  /** Filtering distributes over concatenation: the relative order of the leads survives. */
  lemma {:induction false} FilterConcat(a: seq<Lead>, b: seq<Lead>, s: LeadStatus)
    ensures Filter(a + b, s) == Filter(a, s) + Filter(b, s)
    decreases |a|
  {
    if |a| == 0 {
      assert a + b == b;
    } else {
      assert (a + b)[1..] == a[1..] + b;
      FilterConcat(a[1..], b, s);
    }
  }

  /** A column's leads appear in the collection in the same relative order. */
  lemma {:induction false} FilterIsSubsequence(leads: seq<Lead>, s: LeadStatus)
    ensures SubsequenceOf(Filter(leads, s), leads)
    decreases |leads|
  {
    if |leads| > 0 {
      FilterIsSubsequence(leads[1..], s);
      var rest := Filter(leads[1..], s);
      if leads[0].status == s {
        assert Filter(leads, s) == [leads[0]] + rest;
        assert ([leads[0]] + rest)[1..] == rest;
      } else {
        assert Filter(leads, s) == rest;
      }
    }
  }

  /**
   A column holds every copy of a lead of its stage and no copy of any other lead:
   the number of times `l` appears in column `s` is its number of occurrences in
   the collection when its status is `s`, and zero otherwise.
   */
  lemma {:induction false} FilterMultiplicity(leads: seq<Lead>, s: LeadStatus, l: Lead)
    ensures multiset(Filter(leads, s))[l] == if l.status == s then multiset(leads)[l] else 0
    decreases |leads|
  {
    if |leads| > 0 {
      var rest := leads[1..];
      FilterMultiplicity(rest, s, l);
      assert leads == [leads[0]] + rest;
      assert multiset(leads) == multiset([leads[0]]) + multiset(rest);
      if leads[0].status == s {
        assert Filter(leads, s) == [leads[0]] + Filter(rest, s);
        assert multiset(Filter(leads, s)) == multiset([leads[0]]) + multiset(Filter(rest, s));
      } else {
        assert Filter(leads, s) == Filter(rest, s);
        assert leads[0] != l || l.status != s;
      }
    }
  }

  /** The leads shown in the `k`-th column of the board, counted from the left. */
  function ColumnLeads(leads: seq<Lead>, k: nat): seq<Lead>
    requires k < |BoardColumns()|
  {
    Filter(leads, BoardColumns()[k].id)
  }

  /**
   Every lead appears in exactly one column, the one of its own status, with its
   full multiplicity: no lead is duplicated across columns or omitted.
   */
  lemma ExactlyOneColumn(leads: seq<Lead>, l: Lead, k: nat)
    requires k < |BoardColumns()|
    ensures l in leads ==> (l in ColumnLeads(leads, k) <==> k == ColumnIndex(l.status))
    ensures multiset(ColumnLeads(leads, k))[l]
            == if k == ColumnIndex(l.status) then multiset(leads)[l] else 0
  {
    FilterMultiplicity(leads, BoardColumns()[k].id, l);
  }

  /** The leads of the first `n` columns of the board taken together, as a multiset. */
  function ColumnsUnion(leads: seq<Lead>, n: nat): multiset<Lead>
    requires n <= |BoardColumns()|
  {
    if n == 0 then multiset{} else ColumnsUnion(leads, n - 1) + multiset(ColumnLeads(leads, n - 1))
  }

  /** The lengths of the first `n` columns of the board added up. */
  function ColumnsLength(leads: seq<Lead>, n: nat): (total: nat)
    requires n <= |BoardColumns()|
    ensures total == |ColumnsUnion(leads, n)|
  {
    if n == 0 then 0 else ColumnsLength(leads, n - 1) + |ColumnLeads(leads, n - 1)|
  }

  /** The first `n` columns hold every copy of the leads whose column is among them, and nothing else. */
  lemma {:induction false} ColumnsUnionMultiplicity(leads: seq<Lead>, n: nat, l: Lead)
    requires n <= |BoardColumns()|
    ensures ColumnsUnion(leads, n)[l] == if ColumnIndex(l.status) < n then multiset(leads)[l] else 0
  {
    if n > 0 {
      ColumnsUnionMultiplicity(leads, n - 1, l);
      ExactlyOneColumn(leads, l, n - 1);
    }
  }

  /** All columns of the board together hold the collection exactly, as a multiset. */
  lemma PartitionComplete(leads: seq<Lead>)
    ensures ColumnsUnion(leads, |BoardColumns()|) == multiset(leads)
  {
    forall l: Lead
      ensures ColumnsUnion(leads, |BoardColumns()|)[l] == multiset(leads)[l]
    {
      ColumnsUnionMultiplicity(leads, |BoardColumns()|, l);
    }
  }

  /** The lengths of all columns of the board add up to the length of the collection. */
  lemma PartitionLengths(leads: seq<Lead>)
    ensures ColumnsLength(leads, |BoardColumns()|) == |leads|
  {
    PartitionComplete(leads);
  }

  /** One column of the render: the collection's leads of stage `s`, in order. */
  method FilterByStatus(leads: seq<Lead>, s: LeadStatus) returns (r: seq<Lead>)
    ensures r == Filter(leads, s)
  {
    r := [];
    var i := 0;
    while i < |leads|
      invariant 0 <= i <= |leads|
      invariant r == Filter(leads[..i], s)
    {
      assert leads[..i + 1] == leads[..i] + [leads[i]];
      FilterConcat(leads[..i], [leads[i]], s);
      if leads[i].status == s {
        r := r + [leads[i]];
      }
      i := i + 1;
    }
    assert leads[..i] == leads;
  }

  /** The whole board render: one filtered column per column definition, left to right. */
  method RenderColumns(leads: seq<Lead>) returns (cols: seq<seq<Lead>>)
    ensures |cols| == |BoardColumns()|
    ensures forall k :: 0 <= k < |cols| ==> cols[k] == Filter(leads, BoardColumns()[k].id)
  {
    var cs := BoardColumns();
    cols := [];
    var k := 0;
    while k < |cs|
      invariant 0 <= k <= |cs|
      invariant |cols| == k
      invariant forall j :: 0 <= j < k ==> cols[j] == Filter(leads, cs[j].id)
    {
      var col := FilterByStatus(leads, cs[k].id);
      cols := cols + [col];
      k := k + 1;
    }
  }
}
