/** The NetBox purge helper (scripts/netbox-helpers/netbox_purge.py): behind
    an exact confirmation string and the credentials check, it walks a fixed
    deletion plan in the order the script lists it, lists every object of each
    endpoint and deletes them one by one, tolerating failed deletes, and
    totals the objects it listed. */
module Purge {
  import opened Wrappers
  import opened Plan

  type Id = nat

  /** The server's objects: app, then endpoint, then the ids an endpoint
      lists, in listing order. */
  type Tables = map<string, map<string, seq<Id>>>

  /** The text the operator has to type. */
  const Confirmation := "DELETE ALL DATA"

  /** How a run of the script ends. */
  datatype RunOutcome = Cancelled | MissingCredentials | Purged(total: nat)

  /** The checks before any deletion: the confirmation prompt first, then
      `NETBOX_URL` and `NETBOX_APITOKEN`, each of which must be set and
      non-empty. `None` lets the purge go ahead. */
  function Admit(response: string, url: Option<string>, token: Option<string>): (r: Option<RunOutcome>)
    ensures r.None? <==>
      response == Confirmation && url.Some? && url.value != "" && token.Some? && token.value != ""
    ensures r == Some(Cancelled) <==> response != Confirmation
    ensures r.Some? ==> r.value in {Cancelled, MissingCredentials}
  {
    if response != Confirmation then Some(Cancelled)
    else if url.None? || url.value == "" || token.None? || token.value == "" then Some(MissingCredentials)
    else None
  }

  /** There is an endpoint `app.endpoint` to list. */
  predicate Present(t: Tables, app: string, endpoint: string) {
    app in t && endpoint in t[app]
  }

  /** The same apps and endpoints exist in both. */
  ghost predicate SameShape(s: Tables, t: Tables) {
    && (forall a :: a in s <==> a in t)
    && (forall a, p :: Present(s, a, p) <==> Present(t, a, p))
  }

  /** Some plan entry names `app.endpoint`. */
  predicate Planned(plan: seq<Entry>, app: string, endpoint: string) {
    exists i :: 0 <= i < |plan| && plan[i].app == app && plan[i].endpoint == endpoint
  }

  function Elements(s: seq<Id>): set<Id> {
    set x | x in s
  }

  /** The table after `obj.delete()` of object `id`. */
  function Without(t: seq<Id>, id: Id): (r: seq<Id>)
    ensures forall x :: x in r <==> x in t && x != id
    ensures |r| <= |t|
  {
    if t == [] then []
    else if t[0] == id then Without(t[1..], id)
    else [t[0]] + Without(t[1..], id)
  }

  /** The tables with the objects of `app.endpoint` replaced. */
  function Put(t: Tables, app: string, endpoint: string, objects: seq<Id>): Tables
    requires app in t
  {
    t[app := t[app][endpoint := objects]]
  }

  lemma PutTwice(t: Tables, app: string, endpoint: string, first: seq<Id>, second: seq<Id>)
    requires app in t
    ensures Put(Put(t, app, endpoint, first), app, endpoint, second) == Put(t, app, endpoint, second)
  {
    assert t[app][endpoint := first][endpoint := second] == t[app][endpoint := second];
  }

  lemma PutSame(t: Tables, app: string, endpoint: string)
    requires Present(t, app, endpoint)
    ensures Put(t, app, endpoint, t[app][endpoint]) == t
  {
    assert t[app][endpoint := t[app][endpoint]] == t[app];
  }

  /** What is left of the listed `objects` once a delete has been tried on
      every id in `tried`: the untried objects and those whose delete failed. */
  function Survivors(
    objects: seq<Id>, tried: set<Id>, deleteFails: (string, string, Id) -> bool,
    app: string, endpoint: string): (r: seq<Id>)
    ensures forall x :: x in r <==> x in objects && (x !in tried || deleteFails(app, endpoint, x))
    ensures |r| <= |objects|
  {
    if objects == [] then []
    else
      var rest := Survivors(objects[1..], tried, deleteFails, app, endpoint);
      if objects[0] !in tried || deleteFails(app, endpoint, objects[0]) then [objects[0]] + rest else rest
  }

  /** Before any delete, every listed object is there. */
  lemma {:induction false} SurvivorsUntried(
    objects: seq<Id>, deleteFails: (string, string, Id) -> bool, app: string, endpoint: string)
    ensures Survivors(objects, {}, deleteFails, app, endpoint) == objects
  {
    if objects != [] {
      SurvivorsUntried(objects[1..], deleteFails, app, endpoint);
      assert [objects[0]] + objects[1..] == objects;
    }
  }

  /** A delete that goes through removes the object. */
  lemma {:induction false} SurvivorsDeleted(
    objects: seq<Id>, tried: set<Id>, deleteFails: (string, string, Id) -> bool,
    app: string, endpoint: string, id: Id)
    requires !deleteFails(app, endpoint, id)
    ensures Without(Survivors(objects, tried, deleteFails, app, endpoint), id) ==
      Survivors(objects, tried + {id}, deleteFails, app, endpoint)
  {
    if objects != [] {
      SurvivorsDeleted(objects[1..], tried, deleteFails, app, endpoint, id);
    }
  }

  /** A delete that fails leaves the table as it was. */
  lemma {:induction false} SurvivorsKept(
    objects: seq<Id>, tried: set<Id>, deleteFails: (string, string, Id) -> bool,
    app: string, endpoint: string, id: Id)
    requires deleteFails(app, endpoint, id)
    ensures Survivors(objects, tried + {id}, deleteFails, app, endpoint) ==
      Survivors(objects, tried, deleteFails, app, endpoint)
  {
    if objects != [] {
      SurvivorsKept(objects[1..], tried, deleteFails, app, endpoint, id);
    }
  }

  /** What processing one plan entry reported. */
  datatype Visit = NotFound | ListFailed | Listed(count: nat)

  /** The body of the plan loop for one entry: a missing endpoint is skipped,
      a listing that raises is logged, otherwise every listed object gets a
      delete and the entry counts all of them. */
  function PurgeEntry(
    t: Tables, e: Entry, listFails: (string, string) -> bool,
    deleteFails: (string, string, Id) -> bool): (out: (Tables, Visit))
    ensures !Present(t, e.app, e.endpoint) ==> out == (t, NotFound)
    ensures Present(t, e.app, e.endpoint) && listFails(e.app, e.endpoint) ==> out == (t, ListFailed)
    ensures Present(t, e.app, e.endpoint) && !listFails(e.app, e.endpoint) ==>
      && out.1 == Listed(|t[e.app][e.endpoint]|)
      && Present(out.0, e.app, e.endpoint)
      && (forall x :: x in out.0[e.app][e.endpoint] <==>
            x in t[e.app][e.endpoint] && deleteFails(e.app, e.endpoint, x))
    ensures forall a, p :: Present(t, a, p) && (a != e.app || p != e.endpoint) ==>
      Present(out.0, a, p) && out.0[a][p] == t[a][p]
    ensures SameShape(t, out.0)
  {
    if !Present(t, e.app, e.endpoint) then (t, NotFound)
    else if listFails(e.app, e.endpoint) then (t, ListFailed)
    else
      var objects := t[e.app][e.endpoint];
      if |objects| > 0 then
        var left := Survivors(objects, Elements(objects), deleteFails, e.app, e.endpoint);
        (t[e.app := t[e.app][e.endpoint := left]], Listed(|objects|))
      else (t, Listed(0))
  }

  /** The plan loop of `purge_netbox`: the tables afterwards and what each
      entry reported, in plan order. */
  function PurgePlan(
    t: Tables, plan: seq<Entry>, listFails: (string, string) -> bool,
    deleteFails: (string, string, Id) -> bool): (out: (Tables, seq<Visit>))
    ensures |out.1| == |plan|
    decreases |plan|
  {
    if plan == [] then (t, [])
    else
      var before := PurgePlan(t, plan[..|plan| - 1], listFails, deleteFails);
      var step := PurgeEntry(before.0, plan[|plan| - 1], listFails, deleteFails);
      (step.0, before.1 + [step.1])
  }

  function Counted(v: Visit): nat {
    if v.Listed? then v.count else 0
  }

  /** `total_deleted`. */
  function Total(visits: seq<Visit>): nat
    decreases |visits|
  {
    if visits == [] then 0 else Total(visits[..|visits| - 1]) + Counted(visits[|visits| - 1])
  }

  /** `total_deleted` accumulates the counts of the listed entries: each such
      count is part of it, and missing or unlistable endpoints add nothing. */
  lemma {:induction false} TotalCounts(visits: seq<Visit>)
    ensures forall i :: 0 <= i < |visits| && visits[i].Listed? ==> visits[i].count <= Total(visits)
    ensures (forall i :: 0 <= i < |visits| ==> !visits[i].Listed?) ==> Total(visits) == 0
    decreases |visits|
  {
    if visits != [] {
      var init := visits[..|visits| - 1];
      TotalCounts(init);
      assert forall i :: 0 <= i < |init| ==> init[i] == visits[i];
    }
  }

  /** What an entry would count on the tables before the purge. */
  function ListedBefore(t: Tables, e: Entry, listFails: (string, string) -> bool): nat {
    if Present(t, e.app, e.endpoint) && !listFails(e.app, e.endpoint) then |t[e.app][e.endpoint]| else 0
  }

  function SumListed(t: Tables, plan: seq<Entry>, listFails: (string, string) -> bool): nat
    decreases |plan|
  {
    if plan == [] then 0
    else SumListed(t, plan[..|plan| - 1], listFails) + ListedBefore(t, plan[|plan| - 1], listFails)
  }

  /** Entry `i` of the plan is run on the tables the entries before it left:
      the plan is processed strictly in order. */
  lemma {:induction false} PurgeInOrder(
    t: Tables, plan: seq<Entry>, listFails: (string, string) -> bool,
    deleteFails: (string, string, Id) -> bool, i: nat)
    requires i < |plan|
    ensures PurgePlan(t, plan, listFails, deleteFails).1[i] ==
      PurgeEntry(PurgePlan(t, plan[..i], listFails, deleteFails).0, plan[i], listFails, deleteFails).1
    decreases |plan|
  {
    var init := plan[..|plan| - 1];
    if i < |plan| - 1 {
      PurgeInOrder(t, init, listFails, deleteFails, i);
      assert init[..i] == plan[..i];
    }
  }

  /** Adding entry `i` to the processed prefix: the tables are those entry
      `i` leaves and the total grows by what it reports. */
  lemma PurgeStep(
    t: Tables, plan: seq<Entry>, listFails: (string, string) -> bool,
    deleteFails: (string, string, Id) -> bool, i: nat)
    requires i < |plan|
    ensures
      var before := PurgePlan(t, plan[..i], listFails, deleteFails);
      var step := PurgeEntry(before.0, plan[i], listFails, deleteFails);
      && PurgePlan(t, plan[..i + 1], listFails, deleteFails).0 == step.0
      && Total(PurgePlan(t, plan[..i + 1], listFails, deleteFails).1) == Total(before.1) + Counted(step.1)
  {
    assert plan[..i + 1][..i] == plan[..i];
    var visits := PurgePlan(t, plan[..i], listFails, deleteFails).1;
    var step := PurgeEntry(PurgePlan(t, plan[..i], listFails, deleteFails).0, plan[i], listFails, deleteFails);
    assert (visits + [step.1])[..|visits|] == visits;
  }

  lemma SameShapeTransitive(r: Tables, s: Tables, t: Tables)
    requires SameShape(r, s) && SameShape(s, t)
    ensures SameShape(r, t)
  {
  }

  /** Purging keeps every app and endpoint, and leaves the objects of every
      endpoint the plan does not name as they were. */
  lemma {:induction false} PurgeKeepsUnplanned(
    t: Tables, plan: seq<Entry>, listFails: (string, string) -> bool,
    deleteFails: (string, string, Id) -> bool)
    ensures SameShape(t, PurgePlan(t, plan, listFails, deleteFails).0)
    ensures forall a, p :: Present(t, a, p) && !Planned(plan, a, p) ==>
      PurgePlan(t, plan, listFails, deleteFails).0[a][p] == t[a][p]
    decreases |plan|
  {
    if plan != [] {
      var init := plan[..|plan| - 1];
      PurgeKeepsUnplanned(t, init, listFails, deleteFails);
      var before := PurgePlan(t, init, listFails, deleteFails).0;
      SameShapeTransitive(t, before, PurgePlan(t, plan, listFails, deleteFails).0);
      forall a, p | Present(t, a, p) && !Planned(plan, a, p)
        ensures PurgePlan(t, plan, listFails, deleteFails).0[a][p] == t[a][p]
      {
        PlannedPrefix(plan, a, p);
      }
    }
  }

  /** An endpoint the plan does not name is named neither by its first
      entries nor by its last. */
  lemma PlannedPrefix(plan: seq<Entry>, app: string, endpoint: string)
    requires plan != [] && !Planned(plan, app, endpoint)
    ensures !Planned(plan[..|plan| - 1], app, endpoint)
    ensures !Names(plan[|plan| - 1], app, endpoint)
  {
  }

  /** In a plan that names no endpoint twice, the entries before the last
      do not name the last one's endpoint. */
  lemma LastUnplanned(plan: seq<Entry>)
    requires Distinct(plan) && plan != []
    ensures Distinct(plan[..|plan| - 1])
    ensures !Planned(plan[..|plan| - 1], plan[|plan| - 1].app, plan[|plan| - 1].endpoint)
  {
  }

  /** What each entry reported: `NotFound` exactly for the endpoints the
      server does not have, and a listing failure exactly where listing
      raises; either way the rest of the plan still runs. */
  lemma PurgeVisits(
    t: Tables, plan: seq<Entry>, listFails: (string, string) -> bool,
    deleteFails: (string, string, Id) -> bool, i: nat)
    requires i < |plan|
    ensures PurgePlan(t, plan, listFails, deleteFails).1[i] == NotFound <==>
      !Present(t, plan[i].app, plan[i].endpoint)
    ensures PurgePlan(t, plan, listFails, deleteFails).1[i] == ListFailed <==>
      Present(t, plan[i].app, plan[i].endpoint) && listFails(plan[i].app, plan[i].endpoint)
  {
    PurgeInOrder(t, plan, listFails, deleteFails, i);
    PurgeKeepsUnplanned(t, plan[..i], listFails, deleteFails);
  }

  /** With no entry named twice, what is left of a planned endpoint after
      the purge is exactly what could not be removed: everything, when its
      listing failed, otherwise the objects whose delete failed. */
  lemma {:induction false} PurgeLeaves(
    t: Tables, plan: seq<Entry>, listFails: (string, string) -> bool,
    deleteFails: (string, string, Id) -> bool, i: nat)
    requires Distinct(plan) && i < |plan| && Present(t, plan[i].app, plan[i].endpoint)
    ensures
      var out := PurgePlan(t, plan, listFails, deleteFails).0;
      var app, endpoint := plan[i].app, plan[i].endpoint;
      && Present(out, app, endpoint)
      && forall x :: x in out[app][endpoint] <==>
           x in t[app][endpoint] && (listFails(app, endpoint) || deleteFails(app, endpoint, x))
    decreases |plan|
  {
    var init := plan[..|plan| - 1];
    var app, endpoint := plan[i].app, plan[i].endpoint;
    var before := PurgePlan(t, init, listFails, deleteFails).0;
    if i == |plan| - 1 {
      LastUnplanned(plan);
      PurgeKeepsUnplanned(t, init, listFails, deleteFails);
      assert before[app][endpoint] == t[app][endpoint];
    } else {
      assert Distinct(init);
      PurgeLeaves(t, init, listFails, deleteFails, i);
      assert init[i] == plan[i];
      assert !Names(plan[|plan| - 1], app, endpoint);
    }
  }

  /** On a server that refuses nothing, purging empties every endpoint the
      plan names. */
  lemma PurgeEmpties(
    t: Tables, plan: seq<Entry>, listFails: (string, string) -> bool,
    deleteFails: (string, string, Id) -> bool, i: nat)
    requires Distinct(plan) && i < |plan| && Present(t, plan[i].app, plan[i].endpoint)
    requires forall a, p :: !listFails(a, p)
    requires forall a, p, x :: !deleteFails(a, p, x)
    ensures Present(PurgePlan(t, plan, listFails, deleteFails).0, plan[i].app, plan[i].endpoint)
    ensures PurgePlan(t, plan, listFails, deleteFails).0[plan[i].app][plan[i].endpoint] == []
  {
    PurgeLeaves(t, plan, listFails, deleteFails, i);
    NoneLeft(PurgePlan(t, plan, listFails, deleteFails).0[plan[i].app][plan[i].endpoint]);
  }

  lemma NoneLeft(s: seq<Id>)
    requires forall x :: x !in s
    ensures s == []
  {
    if s != [] {
      HeadIn(s);
    }
  }

  lemma HeadIn(s: seq<Id>)
    requires s != []
    ensures s[0] in s
  {
  }

  /** With no entry named twice, `total_deleted` is the number of objects
      the listed endpoints held before the purge, including those whose
      delete then failed; endpoints that are missing or fail to list add
      nothing. */
  lemma {:induction false} TotalIsListedBefore(
    t: Tables, plan: seq<Entry>, listFails: (string, string) -> bool,
    deleteFails: (string, string, Id) -> bool)
    requires Distinct(plan)
    ensures Total(PurgePlan(t, plan, listFails, deleteFails).1) == SumListed(t, plan, listFails)
    decreases |plan|
  {
    if plan != [] {
      var init := plan[..|plan| - 1];
      LastUnplanned(plan);
      TotalIsListedBefore(t, init, listFails, deleteFails);
      PurgeKeepsUnplanned(t, init, listFails, deleteFails);
      PurgeStep(t, plan, listFails, deleteFails, |plan| - 1);
      assert plan[..|plan| - 1 + 1] == plan;
    }
  }

  /** For `deletion_plan` itself, which names no endpoint twice:
      `total_deleted` is the number of objects the listed endpoints held, and
      each planned endpoint keeps exactly what could not be removed. */
  lemma DeletionPlanPurge(
    t: Tables, listFails: (string, string) -> bool, deleteFails: (string, string, Id) -> bool)
    ensures Total(PurgePlan(t, DeletionPlan, listFails, deleteFails).1) == SumListed(t, DeletionPlan, listFails)
    ensures var out := PurgePlan(t, DeletionPlan, listFails, deleteFails).0;
      forall i :: 0 <= i < |DeletionPlan| && Present(t, DeletionPlan[i].app, DeletionPlan[i].endpoint) ==>
        var app, endpoint := DeletionPlan[i].app, DeletionPlan[i].endpoint;
        && Present(out, app, endpoint)
        && forall x :: x in out[app][endpoint] <==>
             x in t[app][endpoint] && (listFails(app, endpoint) || deleteFails(app, endpoint, x))
  {
    PlanDistinct();
    TotalIsListedBefore(t, DeletionPlan, listFails, deleteFails);
    forall i | 0 <= i < |DeletionPlan| && Present(t, DeletionPlan[i].app, DeletionPlan[i].endpoint) {
      PurgeLeaves(t, DeletionPlan, listFails, deleteFails, i);
    }
  }

  /** On a server that refuses nothing, purging with `deletion_plan` empties
      every endpoint it names. */
  lemma DeletionPlanEmpties(
    t: Tables, listFails: (string, string) -> bool, deleteFails: (string, string, Id) -> bool)
    requires forall a, p :: !listFails(a, p)
    requires forall a, p, x :: !deleteFails(a, p, x)
    ensures var out := PurgePlan(t, DeletionPlan, listFails, deleteFails).0;
      forall i :: 0 <= i < |DeletionPlan| && Present(t, DeletionPlan[i].app, DeletionPlan[i].endpoint) ==>
        Present(out, DeletionPlan[i].app, DeletionPlan[i].endpoint) &&
        out[DeletionPlan[i].app][DeletionPlan[i].endpoint] == []
  {
    PlanDistinct();
    forall i | 0 <= i < |DeletionPlan| && Present(t, DeletionPlan[i].app, DeletionPlan[i].endpoint) {
      PurgeEmpties(t, DeletionPlan, listFails, deleteFails, i);
    }
  }

  /** The `pynetbox` API object the purge talks to: the server's endpoint
      tables, and which listings and deletes the server refuses. */
  class Api {
    var apps: Tables
    const listFails: (string, string) -> bool
    const deleteFails: (string, string, Id) -> bool

    constructor(apps: Tables, listFails: (string, string) -> bool, deleteFails: (string, string, Id) -> bool)
      ensures this.apps == apps
      ensures this.listFails == listFails && this.deleteFails == deleteFails
    {
      this.apps := apps;
      this.listFails := listFails;
      this.deleteFails := deleteFails;
    }

    /** `obj.delete()`: removes the object, unless the server refuses, in
        which case nothing changes and the caller is told. */
    method Delete(app: string, endpoint: string, id: Id) returns (deleted: bool)
      requires Present(apps, app, endpoint)
      modifies this
      ensures deleted == !deleteFails(app, endpoint, id)
      ensures deleted ==> apps == Put(old(apps), app, endpoint, Without(old(apps)[app][endpoint], id))
      ensures !deleted ==> apps == old(apps)
    {
      deleted := !deleteFails(app, endpoint, id);
      if deleted {
        apps := Put(apps, app, endpoint, Without(apps[app][endpoint], id));
      }
    }

    /** The inner loop: a delete is tried on every listed object, and a
        failed one does not stop the others. */
    method DeleteEach(app: string, endpoint: string, objects: seq<Id>)
      requires Present(apps, app, endpoint) && apps[app][endpoint] == objects
      modifies this
      ensures apps == Put(old(apps), app, endpoint, Survivors(objects, Elements(objects), deleteFails, app, endpoint))
    {
      SurvivorsUntried(objects, deleteFails, app, endpoint);
      assert Elements(objects[..0]) == {};
      PutSame(apps, app, endpoint);
      var j := 0;
      while j < |objects|
        invariant 0 <= j <= |objects|
        invariant apps == Put(old(apps), app, endpoint, Survivors(objects, Elements(objects[..j]), deleteFails, app, endpoint))
      {
        var id := objects[j];
        assert objects[..j + 1] == objects[..j] + [id];
        assert Elements(objects[..j + 1]) == Elements(objects[..j]) + {id};
        ghost var left := Survivors(objects, Elements(objects[..j]), deleteFails, app, endpoint);
        PutTwice(old(apps), app, endpoint, left, Without(left, id));
        var deleted := Delete(app, endpoint, id);
        if deleted {
          SurvivorsDeleted(objects, Elements(objects[..j]), deleteFails, app, endpoint, id);
        } else {
          SurvivorsKept(objects, Elements(objects[..j]), deleteFails, app, endpoint, id);
        }
        j := j + 1;
      }
      assert objects[..j] == objects;
    }

    /** One pass of the plan loop: find the endpoint, list its objects and,
        when there are any, delete each of them. */
    method PurgeEndpoint(e: Entry) returns (visit: Visit)
      modifies this
      ensures apps == PurgeEntry(old(apps), e, listFails, deleteFails).0
      ensures visit == PurgeEntry(old(apps), e, listFails, deleteFails).1
    {
      if !Present(apps, e.app, e.endpoint) {
        return NotFound;
      }
      if listFails(e.app, e.endpoint) {
        return ListFailed;
      }
      var objects := apps[e.app][e.endpoint];
      var count := |objects|;
      if count > 0 {
        DeleteEach(e.app, e.endpoint, objects);
      }
      visit := Listed(count);
    }

    /** The plan loop of `purge_netbox`: every entry in order, and
        `total_deleted`, which grows by the listed count of every endpoint
        that had objects. */
    method PurgeAll(plan: seq<Entry>) returns (total: nat)
      modifies this
      ensures apps == PurgePlan(old(apps), plan, listFails, deleteFails).0
      ensures total == Total(PurgePlan(old(apps), plan, listFails, deleteFails).1)
    {
      total := 0;
      var i := 0;
      while i < |plan|
        invariant 0 <= i <= |plan|
        invariant apps == PurgePlan(old(apps), plan[..i], listFails, deleteFails).0
        invariant total == Total(PurgePlan(old(apps), plan[..i], listFails, deleteFails).1)
      {
        PurgeStep(old(apps), plan, listFails, deleteFails, i);
        var visit := PurgeEndpoint(plan[i]);
        if visit.Listed? && visit.count > 0 {
          total := total + visit.count;
        }
        i := i + 1;
      }
      assert plan[..i] == plan;
    }

    /** `purge_netbox` once the credentials are in place. */
    method PurgeNetbox() returns (total: nat)
      modifies this
      ensures apps == PurgePlan(old(apps), DeletionPlan, listFails, deleteFails).0
      ensures total == Total(PurgePlan(old(apps), DeletionPlan, listFails, deleteFails).1)
      ensures total == SumListed(old(apps), DeletionPlan, listFails)
    {
      DeletionPlanPurge(apps, listFails, deleteFails);
      total := PurgeAll(DeletionPlan);
    }

    /** The script as a whole: the confirmation prompt, the credentials
        check, then the purge. Nothing is deleted unless both pass. */
    method Run(response: string, url: Option<string>, token: Option<string>) returns (outcome: RunOutcome)
      modifies this
      ensures Admit(response, url, token).Some? ==>
        outcome == Admit(response, url, token).value && apps == old(apps)
      ensures Admit(response, url, token).None? ==>
        && apps == PurgePlan(old(apps), DeletionPlan, listFails, deleteFails).0
        && outcome == Purged(Total(PurgePlan(old(apps), DeletionPlan, listFails, deleteFails).1))
        && outcome == Purged(SumListed(old(apps), DeletionPlan, listFails))
    {
      var refused := Admit(response, url, token);
      if refused.Some? {
        return refused.value;
      }
      var total := PurgeNetbox();
      outcome := Purged(total);
    }
  }
}
