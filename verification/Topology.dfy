/** The lane topology Dispatch publishes, and the lanes a tick polls and escalates into. */
module Topology {
  import opened Outcomes
  import opened Text
  import opened Coders

  /** A row of the lane listing; an absent role is empty. */
  datatype Row = Row(id: string, role: string, claimable: bool)

  function IdOf(row: Row): string {
    Strip(row.id)
  }

  function RoleIn(row: Row): string {
    Strip(row.role)
  }

  predicate Gives(row: Row, id: string) {
    id != "" && IdOf(row) == id
  }

  /** The last row with a role for the lane decides. */
  function RoleOf(rows: seq<Row>, id: string): string {
    if rows == [] then ""
    else
      var n := |rows| - 1;
      if Gives(rows[n], id) && RoleIn(rows[n]) != "" then RoleIn(rows[n]) else RoleOf(rows[..n], id)
  }

  /** Row i is the last one to give the lane a role. */
  predicate LastRole(rows: seq<Row>, id: string, i: nat) {
    && i < |rows| && id != "" && Strip(rows[i].id) == id && Strip(rows[i].role) != ""
    && forall j :: i < j < |rows| && Strip(rows[j].id) == id ==> Strip(rows[j].role) == ""
  }

  lemma LastRoleStays(rows: seq<Row>, id: string, i: nat)
    requires rows != [] && !(id != "" && Strip(rows[|rows| - 1].id) == id && Strip(rows[|rows| - 1].role) != "")
    ensures LastRole(rows, id, i) <==> LastRole(rows[..|rows| - 1], id, i)
  {
    var front := rows[..|rows| - 1];
    assert forall j :: 0 <= j < |front| ==> rows[j] == front[j];
  }

  lemma {:induction false} RoleExactly(rows: seq<Row>, id: string)
    ensures RoleOf(rows, id) != "" <==> exists i: nat :: LastRole(rows, id, i)
    ensures forall i: nat :: LastRole(rows, id, i) ==> RoleOf(rows, id) == Strip(rows[i].role)
  {
    if rows != [] {
      var n := |rows| - 1;
      var front := rows[..n];
      RoleExactly(front, id);
      if id != "" && Strip(rows[n].id) == id && Strip(rows[n].role) != "" {
        assert LastRole(rows, id, n);
      } else {
        forall i: nat ensures LastRole(rows, id, i) <==> LastRole(front, id, i) {
          LastRoleStays(rows, id, i);
        }
      }
    }
  }

  function ClaimableIds(rows: seq<Row>): seq<string> {
    if rows == [] then []
    else
      var n := |rows| - 1;
      ClaimableIds(rows[..n]) + (if rows[n].claimable && IdOf(rows[n]) != "" then [IdOf(rows[n])] else [])
  }

  /** The row's role for the lane, where it gives one. */
  function RoleGiven(row: Row, id: string, otherwise: string): string {
    if Gives(row, id) && RoleIn(row) != "" then RoleIn(row) else otherwise
  }

  lemma OneMoreRow(rows: seq<Row>, i: nat)
    requires i < |rows|
    ensures forall id :: RoleOf(rows[..i + 1], id) == RoleGiven(rows[i], id, RoleOf(rows[..i], id))
    ensures ClaimableIds(rows[..i + 1])
      == ClaimableIds(rows[..i]) + (if rows[i].claimable && IdOf(rows[i]) != "" then [IdOf(rows[i])] else [])
  {
    assert rows[..i + 1][..i] == rows[..i];
  }

  const ESCALATION := "escalation"

  class Lanes {
    var roles: Roles
    var claimable: seq<string>

    constructor ()
      ensures roles == map[] && claimable == []
    {
      roles, claimable := map[], [];
    }

    /** `set_topology`. */
    method SetTopology(rows: seq<Row>)
      modifies this
      ensures forall id :: id in roles <==> RoleOf(rows, id) != ""
      ensures forall id :: id in roles ==> roles[id] == RoleOf(rows, id)
      ensures claimable == ClaimableIds(rows)
    {
      roles, claimable := map[], [];
      for i := 0 to |rows|
        invariant forall id :: id in roles <==> RoleOf(rows[..i], id) != ""
        invariant forall id :: id in roles ==> roles[id] == RoleOf(rows[..i], id)
        invariant claimable == ClaimableIds(rows[..i])
      {
        var row := rows[i];
        OneMoreRow(rows, i);
        if IdOf(row) != "" {
          if RoleIn(row) != "" {
            roles := roles[IdOf(row) := RoleIn(row)];
          }
          if row.claimable {
            claimable := claimable + [IdOf(row)];
          }
        }
      }
      assert rows[..|rows|] == rows;
    }

    /** `reset_topology`: no lane holds any role afterwards, as after a listing that could not be fetched. */
    method ResetTopology()
      modifies this
      ensures roles == map[] && claimable == []
      ensures forall lane, role :: !Holds(lane, role, claimable, roles)
    {
      roles, claimable := map[], [];
    }

    /** `lane_for_role`. */
    method LaneForRole(role: string) returns (lane: Option<string>)
      ensures lane.Some? ==> lane.value in claimable && lane.value in roles && roles[lane.value] == role
      ensures lane.None? ==> forall id :: id in claimable && id in roles ==> roles[id] != role
      ensures OneHolder(role, claimable, roles) ==> forall id :: Holds(id, role, claimable, roles) <==> lane == Some(id)
    {
      for i := 0 to |claimable|
        invariant forall k :: 0 <= k < i ==> !Holds(claimable[k], role, claimable, roles)
      {
        if claimable[i] in roles && roles[claimable[i]] == role {
          assert Holds(claimable[i], role, claimable, roles);
          return Some(claimable[i]);
        }
      }
      lane := None;
    }

    /** `resolve_polled_lanes`. */
    method PolledLanes(configured: seq<string>, fallback: seq<string>) returns (lanes: seq<string>)
      ensures configured != [] ==> lanes == configured
      ensures configured == [] ==> lanes == (if claimable != [] then claimable else fallback)
    {
      lanes := if configured != [] then configured else if claimable != [] then claimable else fallback;
    }

    /** `resolve_escalation_lane`; an empty answer switches escalation off. */
    method EscalationLane(configured: string) returns (lane: string)
      requires "" !in claimable
      ensures configured != "" ==> lane == configured
      ensures configured == "" && lane != "" ==> lane in claimable && lane in roles && roles[lane] == "escalation"
      ensures configured == "" && lane == "" ==> forall id :: id in claimable && id in roles ==> roles[id] != "escalation"
    {
      if configured != "" {
        return configured;
      }
      var found := LaneForRole(ESCALATION);
      lane := if found.Some? then found.value else "";
    }

    /** The lanes of a tick: a discovered escalation lane is polled whenever the polled lanes are discovered as well. */
    method ResolveLanes(rows: seq<Row>, polled: seq<string>, fallback: seq<string>, escalation: string)
      returns (lanes: seq<string>, escalationLane: string)
      modifies this
      ensures polled == [] && escalation == "" && escalationLane != "" ==> escalationLane in lanes
      ensures escalationLane != "" && escalation == "" ==> RoleOf(rows, escalationLane) == ESCALATION
    {
      SetTopology(rows);
      NoEmptyId(rows);
      lanes := PolledLanes(polled, fallback);
      escalationLane := EscalationLane(escalation);
    }
  }

  /** The lane is claimable and holds the role. */
  predicate Holds(lane: string, role: string, claimable: seq<string>, roles: Roles) {
    lane in claimable && lane in roles && roles[lane] == role
  }

  /** What Dispatch validates: no two claimable lanes share a role. */
  ghost predicate OneHolder(role: string, claimable: seq<string>, roles: Roles) {
    forall a, b :: Holds(a, role, claimable, roles) && Holds(b, role, claimable, roles) ==> a == b
  }

  lemma {:induction false} NoEmptyId(rows: seq<Row>)
    ensures "" !in ClaimableIds(rows)
  {
    if rows != [] {
      NoEmptyId(rows[..|rows| - 1]);
    }
  }

  lemma {:induction false} ClaimableExactly(rows: seq<Row>, id: string)
    ensures id in ClaimableIds(rows) <==> exists i :: 0 <= i < |rows| && Gives(rows[i], id) && rows[i].claimable
  {
    if rows != [] {
      var n := |rows| - 1;
      ClaimableExactly(rows[..n], id);
      if Gives(rows[n], id) && rows[n].claimable {
        assert id in ClaimableIds(rows);
      }
      if id in ClaimableIds(rows[..n]) {
        var i :| 0 <= i < n && Gives(rows[..n][i], id) && rows[..n][i].claimable;
        assert Gives(rows[i], id) && rows[i].claimable;
      }
    }
  }
}
