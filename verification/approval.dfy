/** The in-process approval gate with N-of-M role-bound approvals
    (`src/maof/approval/service.py`). */
module Approval {
  import opened Base

  datatype Principal = Principal(id: string, roles: seq<string>)

  datatype Resolution = Resolution(principal: string, roles: seq<string>)

  /** A pending approval; `decided` is its event. */
  datatype Pending = Pending(decided: bool, approved: bool, reason: string, requiredRoles: seq<string>, parties: int,
                             resolutions: seq<Resolution>)

  function NewPending(requiredRoles: seq<string>, parties: int): Pending {
    Pending(false, false, "", requiredRoles, parties, [])
  }

  datatype Call = Call(approved: bool, reason: string, principal: Option<Principal>)

  /** Some role is a required one. */
  predicate HoldsOne(roles: seq<string>, required: seq<string>) {
    exists r | r in roles :: r in required
  }

  predicate Qualified(required: seq<string>, c: Call) {
    c.principal.Some? && HoldsOne(c.principal.value.roles, required)
  }

  predicate Seen(resolutions: seq<Resolution>, id: string) {
    exists i | 0 <= i < |resolutions| :: resolutions[i].principal == id
  }

  function Recorded(resolutions: seq<Resolution>, who: Principal): seq<Resolution> {
    if Seen(resolutions, who.id) then resolutions else resolutions + [Resolution(who.id, who.roles)]
  }

  /** `resolve` on the pending approval. An unqualified call raises `PermissionError`, so it
      changes nothing. */
  function Resolved(p: Pending, c: Call): Pending {
    if p.requiredRoles == [] then p.(approved := c.approved, reason := c.reason, decided := true)
    else if !Qualified(p.requiredRoles, c) then p
    else if !c.approved then p.(approved := false, reason := c.reason, decided := true)
    else
      var recorded := Recorded(p.resolutions, c.principal.value);
      if |recorded| < p.parties then p.(resolutions := recorded)
      else p.(resolutions := recorded, approved := true, decided := true)
  }

  function AfterCalls(p: Pending, calls: seq<Call>): Pending {
    if calls == [] then p else Resolved(AfterCalls(p, calls[..|calls| - 1]), calls[|calls| - 1])
  }

  /** The principals that made a qualified approving call. */
  function Approvers(required: seq<string>, calls: seq<Call>): set<string> {
    set i | 0 <= i < |calls| && Qualified(required, calls[i]) && calls[i].approved :: calls[i].principal.value.id
  }

  /** The last call that decided something: a qualified denial, or a qualified approval made
      when enough distinct principals had approved. */
  function Decision(required: seq<string>, parties: int, calls: seq<Call>): Option<bool> {
    if calls == [] then None
    else
      var c := calls[|calls| - 1];
      if Qualified(required, c) && !c.approved then Some(false)
      else if Qualified(required, c) && |Approvers(required, calls)| >= parties then Some(true)
      else Decision(required, parties, calls[..|calls| - 1])
  }

  function Principals(resolutions: seq<Resolution>): set<string> {
    set i | 0 <= i < |resolutions| :: resolutions[i].principal
  }

  ghost predicate RoleBound(p: Pending) {
    && (forall i, j | 0 <= i < j < |p.resolutions| :: p.resolutions[i].principal != p.resolutions[j].principal)
    && (forall i | 0 <= i < |p.resolutions| :: HoldsOne(p.resolutions[i].roles, p.requiredRoles))
    && |Principals(p.resolutions)| == |p.resolutions|
  }

  lemma ApproversGrow(required: seq<string>, calls: seq<Call>)
    requires calls != []
    ensures var n := |calls| - 1;
      Approvers(required, calls) == Approvers(required, calls[..n]) +
        if Qualified(required, calls[n]) && calls[n].approved then {calls[n].principal.value.id} else {}
  {
  }

  lemma RecordedLaw(rs: seq<Resolution>, who: Principal)
    ensures Principals(Recorded(rs, who)) == Principals(rs) + {who.id}
    ensures |Principals(rs)| == |rs| ==> |Principals(Recorded(rs, who))| == |Recorded(rs, who)|
  {
    var more := Recorded(rs, who);
    if Seen(rs, who.id) {
      assert who.id in Principals(rs);
      assert Principals(rs) == Principals(rs) + {who.id};
    } else {
      assert more[..|rs|] == rs && more[|rs|].principal == who.id;
      forall id
        ensures id in Principals(more) <==> id in Principals(rs) || id == who.id
      {
        if i :| 0 <= i < |rs| && rs[i].principal == id { assert more[i].principal == id; }
      }
      assert Principals(more) == Principals(rs) + {who.id};
    }
  }

  lemma RecordedKeepsRoleBound(p: Pending, c: Call)
    requires RoleBound(p) && Qualified(p.requiredRoles, c)
    ensures RoleBound(p.(resolutions := Recorded(p.resolutions, c.principal.value)))
  {
    RecordedLaw(p.resolutions, c.principal.value);
  }

  /** What is true of a role-bound approval after these calls: the recorded resolutions come
      from pairwise different principals, each holding a required role, and name exactly the
      principals with a qualified approving call; it is decided, and granted, exactly as the
      last deciding call says; a grant rests on at least `parties` resolutions. */
  ghost predicate Tells(p: Pending, required: seq<string>, parties: int, calls: seq<Call>) {
    && p.requiredRoles == required && p.parties == parties
    && RoleBound(p)
    && Principals(p.resolutions) == Approvers(required, calls)
    && (p.decided <==> Decision(required, parties, calls).Some?)
    && (p.approved <==> Decision(required, parties, calls) == Some(true))
    && (p.approved ==> |p.resolutions| >= parties)
  }

  lemma DecisionOfLast(required: seq<string>, parties: int, before: seq<Call>, c: Call)
    ensures Decision(required, parties, before + [c]) ==
      if Qualified(required, c) && !c.approved then Some(false)
      else if Qualified(required, c) && |Approvers(required, before + [c])| >= parties then Some(true)
      else Decision(required, parties, before)
    ensures Approvers(required, before + [c]) == Approvers(required, before) +
      if Qualified(required, c) && c.approved then {c.principal.value.id} else {}
  {
    var calls := before + [c];
    assert calls[..|before|] == before && calls[|before|] == c;
    ApproversGrow(required, calls);
  }

  lemma ApprovalTells(p: Pending, required: seq<string>, parties: int, before: seq<Call>, c: Call)
    requires required != [] && Tells(p, required, parties, before)
    requires Qualified(required, c) && c.approved
    ensures Tells(Resolved(p, c), required, parties, before + [c])
  {
    DecisionOfLast(required, parties, before, c);
    RecordedLaw(p.resolutions, c.principal.value);
    RecordedKeepsRoleBound(p, c);
    var recorded := Recorded(p.resolutions, c.principal.value);
    assert |recorded| == |Approvers(required, before + [c])| && |p.resolutions| <= |recorded|;
    var p1 := p.(resolutions := recorded);
    assert RoleBound(p1);
    var p2 := Resolved(p, c);
    assert RoleBound(p2) by { assert p2.resolutions == p1.resolutions && p2.requiredRoles == p1.requiredRoles; }
  }

  lemma ResolveTells(p: Pending, required: seq<string>, parties: int, before: seq<Call>, c: Call)
    requires required != [] && Tells(p, required, parties, before)
    ensures Tells(Resolved(p, c), required, parties, before + [c])
  {
    if Qualified(required, c) && c.approved {
      ApprovalTells(p, required, parties, before, c);
    } else {
      DecisionOfLast(required, parties, before, c);
      var p2 := Resolved(p, c);
      assert RoleBound(p2) by { assert p2.resolutions == p.resolutions && p2.requiredRoles == p.requiredRoles; }
    }
  }

  /** Over every sequence of calls on a role-bound approval. */
  lemma {:induction false} RoleBoundApproval(required: seq<string>, parties: int, calls: seq<Call>)
    requires required != []
    ensures Tells(AfterCalls(NewPending(required, parties), calls), required, parties, calls)
  {
    if calls == [] {
      assert Principals([]) == {} && Approvers(required, calls) == {};
    } else {
      var n := |calls| - 1;
      RoleBoundApproval(required, parties, calls[..n]);
      assert calls == calls[..n] + [calls[n]];
      ResolveTells(AfterCalls(NewPending(required, parties), calls[..n]), required, parties, calls[..n], calls[n]);
    }
  }

  /** The reason of a role-bound approval is that of its last qualified denial. */
  lemma {:induction false} ReasonIsLastDenial(required: seq<string>, parties: int, calls: seq<Call>)
    requires required != []
    ensures var reason := AfterCalls(NewPending(required, parties), calls).reason;
      && (forall i | LastDenial(required, calls, i) :: reason == calls[i].reason)
      && ((forall i | 0 <= i < |calls| :: !IsDenial(required, calls[i])) ==> reason == "")
  {
    if calls != [] {
      var n := |calls| - 1;
      ReasonIsLastDenial(required, parties, calls[..n]);
      RolesStay(NewPending(required, parties), calls[..n]);
      assert forall i | LastDenial(required, calls, i) && i < n :: LastDenial(required, calls[..n], i);
    }
  }

  lemma {:induction false} RolesStay(p: Pending, calls: seq<Call>)
    ensures AfterCalls(p, calls).requiredRoles == p.requiredRoles
  {
    if calls != [] { RolesStay(p, calls[..|calls| - 1]); }
  }

  predicate IsDenial(required: seq<string>, c: Call) { Qualified(required, c) && !c.approved }

  predicate LastDenial(required: seq<string>, calls: seq<Call>, i: int) {
    && 0 <= i < |calls| && IsDenial(required, calls[i])
    && forall j | i < j < |calls| :: !IsDenial(required, calls[j])
  }

  /** Without required roles anybody decides, and the last call does. */
  lemma {:induction false} LastCallDecides(parties: int, calls: seq<Call>)
    ensures var p := AfterCalls(NewPending([], parties), calls);
      && p.resolutions == [] && p.parties == parties
      && (p.decided <==> calls != [])
      && (calls != [] ==> p.approved == calls[|calls| - 1].approved && p.reason == calls[|calls| - 1].reason)
      && (calls == [] ==> !p.approved)
    ensures AfterCalls(NewPending([], parties), calls).requiredRoles == []
  {
    if calls != [] { LastCallDecides(parties, calls[..|calls| - 1]); }
  }

  /** A denial is not final: enough approvals after it still grant. */
  lemma DenialIsNotAbsorbing()
    ensures exists denial, approval ::
      Decision(["lead"], 1, [denial]) == Some(false) && AfterCalls(NewPending(["lead"], 1), [denial, approval]).approved
  {
    var boss := Principal("b", ["lead"]);
    var denial, approval := Call(false, "no", Some(boss)), Call(true, "", Some(boss));
    assert "lead" in boss.roles && Qualified(["lead"], denial) && Qualified(["lead"], approval);
    var calls := [denial, approval];
    assert calls[..1] == [denial];
    assert calls[1] == approval && boss.id in Approvers(["lead"], calls);
    RoleBoundApproval(["lead"], 1, calls);
    assert Approvers(["lead"], calls) != {};
  }

  // ---------- the gate object ----------

  datatype ApprovalId = ApprovalId(run: string, number: nat)

  class ApprovalGate {
    var pending: map<ApprovalId, Pending>
    var counter: nat

    ghost predicate Valid()
      reads this
    {
      forall id | id in pending :: id.number <= counter
    }

    constructor ()
      ensures Valid() && pending == map[] && counter == 0
    {
      pending, counter := map[], 0;
    }

    /** Every request gets an id of its own. */
    method Request(run: string, requiredRoles: seq<string>, parties: int) returns (id: ApprovalId)
      requires Valid()
      modifies this
      ensures Valid() && id !in old(pending)
      ensures pending == old(pending)[id := NewPending(requiredRoles, parties)]
    {
      counter := counter + 1;
      id := ApprovalId(run, counter);
      pending := pending[id := NewPending(requiredRoles, parties)];
    }

    function Resolutions(id: ApprovalId): seq<Resolution>
      reads this
    {
      if id in pending then pending[id].resolutions else []
    }

    /** `resolve`; `ok` is false when it raises `PermissionError`. */
    method Resolve(id: ApprovalId, c: Call) returns (ok: bool)
      requires Valid()
      modifies this`pending
      ensures Valid()
      ensures ok
            <==> || id !in old(pending) || old(pending)[id].requiredRoles == []
                 || Qualified(old(pending)[id].requiredRoles, c)
      ensures !ok || id !in old(pending) ==> pending == old(pending)
      ensures id in old(pending) ==> pending == old(pending)[id := Resolved(old(pending)[id], c)]
    {
      if id !in pending {
        return true;
      }
      var p := pending[id];
      if p.requiredRoles != [] {
        if c.principal.None? || !exists r | r in c.principal.value.roles :: r in p.requiredRoles {
          return false;
        }
        if !c.approved {
          p := p.(approved := false, reason := c.reason, decided := true);
        } else {
          if !Seen(p.resolutions, c.principal.value.id) {
            p := p.(resolutions := p.resolutions + [Resolution(c.principal.value.id, c.principal.value.roles)]);
          }
          if |p.resolutions| >= p.parties {
            p := p.(approved := true, decided := true);
          }
        }
      } else {
        p := p.(approved := c.approved, reason := c.reason, decided := true);
      }
      pending := pending[id := p];
      return true;
    }
  }
}
