/** The condition list of a status and its in-place upsert. */
module Conditions {
  import opened Text
  import opened ServiceObjects

  datatype Entry = Entry(kind: string, cond: Condition)

  /** One entry a type: what every upsert keeps. */
  ghost predicate OnePerKind(conds: seq<Entry>) {
    forall i, j :: 0 <= i < j < |conds| ==> conds[i].kind != conds[j].kind
  }

  /** What a reader of the list sees under a type. */
  function Find(conds: seq<Entry>, kind: string): (r: Option<Condition>) {
    if conds == [] then None
    else if conds[0].kind == kind then Some(conds[0].cond)
    else Find(conds[1..], kind)
  }

  lemma {:induction false} FindAt(conds: seq<Entry>, i: nat)
    requires i < |conds| && forall j :: 0 <= j < i ==> conds[j].kind != conds[i].kind
    ensures Find(conds, conds[i].kind) == Some(conds[i].cond)
  {
    if i > 0 { FindAt(conds[1..], i - 1); }
  }

  lemma {:induction false} FindNone(conds: seq<Entry>, kind: string)
    requires forall j :: 0 <= j < |conds| ==> conds[j].kind != kind
    ensures Find(conds, kind) == None
  {
    if conds != [] { FindNone(conds[1..], kind); }
  }

  /** Lists that agree outside one type are read alike outside it. */
  lemma {:induction false} FindSkips(conds: seq<Entry>, i: nat, e: Entry, kind: string)
    requires i < |conds| && conds[i].kind == e.kind && kind != e.kind
    ensures Find(conds[i := e], kind) == Find(conds, kind)
  {
    if i > 0 {
      assert conds[i := e][1..] == conds[1..][i - 1 := e];
      FindSkips(conds[1..], i - 1, e, kind);
    } else {
      assert conds[i := e][1..] == conds[1..];
    }
  }

  lemma {:induction false} FindAppended(conds: seq<Entry>, e: Entry, kind: string)
    ensures Find(conds + [e], kind) == if Find(conds, kind).Some? then Find(conds, kind)
                                       else if kind == e.kind then Some(e.cond) else None
  {
    if conds == [] {
      assert conds + [e] == [e];
    } else {
      assert (conds + [e])[1..] == conds[1..] + [e];
      FindAppended(conds[1..], e, kind);
    }
  }

  /** upsertCondition: overwrite the entry of the type where it is, or append. */
  method UpsertCondition(conds: seq<Entry>, kind: string, next: Condition) returns (r: seq<Entry>)
    ensures Find(r, kind) == Some(Upsert(Find(conds, kind), next))
    ensures forall other :: other != kind ==> Find(r, other) == Find(conds, other)
    ensures OnePerKind(conds) ==> OnePerKind(r)
    ensures |conds| <= |r| && forall i :: 0 <= i < |conds| ==> r[i].kind == conds[i].kind
  {
    for i := 0 to |conds|
      invariant forall j :: 0 <= j < i ==> conds[j].kind != kind
    {
      if conds[i].kind == kind {
        var c := next;
        if conds[i].cond.holds == next.holds { c := c.(since := conds[i].cond.since); }
        r := conds[i := Entry(kind, c)];
        FindAt(conds, i);
        FindAt(r, i);
        forall other | other != kind ensures Find(r, other) == Find(conds, other) {
          FindSkips(conds, i, Entry(kind, c), other);
        }
        return;
      }
    }
    r := conds + [Entry(kind, next)];
    FindNone(conds, kind);
    forall other ensures Find(r, other) == if Find(conds, other).Some? then Find(conds, other)
                                           else if other == kind then Some(next) else None {
      FindAppended(conds, Entry(kind, next), other);
    }
  }
}
