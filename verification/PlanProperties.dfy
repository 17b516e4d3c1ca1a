/** What holds of every plan, whatever the world and the failing reads. */
module PlanProperties {
  import opened Wrappers
  import opened Homeserver
  import opened Planning

  // The entries of a plan

  ghost predicate RefusesJoin(errors: seq<RoomPlanError>) {
    exists e :: e in errors && e.JoinRefused?
  }

  lemma OnlyJoinErrorsRefuse(m: Migration, r: RoomId)
    ensures RefusesJoin(m.RoomErrors(r)) <==> !m.EndsJoined(r)
  {
    var power, join := m.RoomPowerErrors(r), m.JoinErrors(r);
    var tags, visibility := m.RoomTagErrors(r), m.VisibilityErrors(r, r !in m.newJoined);
    assert forall e :: e in m.RoomErrors(r) <==> e in power || e in join || e in tags || e in visibility;
    assert forall e :: e in power ==> !e.JoinRefused?;
    assert forall e :: e in tags ==> !e.JoinRefused?;
    if !m.EndsJoined(r) {
      assert JoinRefused(m.JoinOutcome(r).error) in join;
    }
  }

  /** The plan of a room of the old user; a room without entry has the empty plan. */
  function EntryOf(plan: Plan, r: RoomId): RoomPlan {
    if r in plan.rooms then plan.rooms[r] else EMPTY_ROOM_PLAN
  }

  /** The entry of a room, up to the leave mark, the alias and an alias error. */
  lemma EntryOfFinalPlan(m: Migration, r: RoomId)
    requires r in m.oldJoined
    ensures var entry, planned := EntryOf(m.FinalPlan(), r), m.RoomPlanFor(r);
            && entry.invite == planned.invite && entry.join == planned.join
            && entry.powerLevel == planned.powerLevel && entry.accountData == planned.accountData
            && (entry.errors == planned.errors || entry.errors == planned.errors + [RoomPlanError.GetAlias])
            && (entry.leave <==> m.MarksLeaves() && planned.errors == [])
            && (r in m.FinalPlan().rooms ==>
                  && entry.alias == (if ReadAlias(r) in m.faults then None else m.world.RoomOf(r).alias)
                  && (ReadAlias(r) in m.faults <==> entry.errors == planned.errors + [RoomPlanError.GetAlias]))
  {
    if r in m.MarkedRooms() {
      assert m.FinalRooms()[r] == m.WithAlias(r, m.MarkedRooms()[r]);
    }
  }

  /**
    Every room of the old user is in exactly one of three cases: the new user
    is in it, a join is planned, or the refusal to join is recorded. An invite
    is planned only with a join, and a power level or account data only when
    the new user ends up in the room.
   */
  lemma RoomTrichotomy(m: Migration, r: RoomId)
    requires r in m.oldJoined
    ensures var entry := EntryOf(m.FinalPlan(), r);
            && (r in m.newJoined || entry.join || RefusesJoin(entry.errors))
            && !(r in m.newJoined && entry.join)
            && !(r in m.newJoined && RefusesJoin(entry.errors))
            && !(entry.join && RefusesJoin(entry.errors))
            && (entry.invite ==> entry.join)
            && (entry.powerLevel.Some? || entry.accountData != map[] ==> r in m.newJoined || entry.join)
  {
    EntryOfFinalPlan(m, r);
    OnlyJoinErrorsRefuse(m, r);
    var entry, errors := EntryOf(m.FinalPlan(), r), m.RoomErrors(r);
    assert RefusesJoin(entry.errors) <==> RefusesJoin(errors) by {
      if entry.errors != errors {
        assert forall e :: e in entry.errors <==> e in errors || e == RoomPlanError.GetAlias;
      }
    }
  }

  /**
    With the setting and no global error, every room of the old user has an
    entry, marked to be left exactly when it has no error other than a failed
    alias lookup. Otherwise nothing is marked, and a room has an entry exactly
    when there is something to do or to report for it.
   */
  lemma LeaveMarkingIsExact(m: Migration)
    ensures var plan := m.FinalPlan();
            && plan.rooms.Keys <= m.oldJoined
            && (m.leave && plan.errors == [] ==>
                  && plan.rooms.Keys == m.oldJoined
                  && forall r :: r in plan.rooms ==>
                       (plan.rooms[r].leave <==> OnlyAliasErrors(plan.rooms[r].errors)))
            && (!m.leave || plan.errors != [] ==>
                  && (forall r :: r in plan.rooms ==> !plan.rooms[r].leave)
                  && forall r :: r in m.oldJoined ==> (r in plan.rooms <==> SomethingToDo(m, r)))
  {
    hide Migration.RoomPlanFor, Migration.WithAlias, Migration.GlobalErrors, Migration.GlobalData;
    var plan := m.FinalPlan();
    forall r | r in plan.rooms
      ensures r in m.oldJoined
      ensures plan.rooms[r].leave <==> m.MarksLeaves() && OnlyAliasErrors(plan.rooms[r].errors)
    {
      LeaveMark(m, r);
    }
    forall r
      ensures m.RoomPlanFor(r).IsEmpty() <==> !SomethingToDo(m, r)
    {
      EmptyExactly(m, r);
    }
    hide RoomPlan.IsEmpty, SomethingToDo;
  }

  lemma EmptyExactly(m: Migration, r: RoomId)
    ensures m.RoomPlanFor(r).IsEmpty() <==> !SomethingToDo(m, r)
  {
    hide Migration.RoomErrors, Migration.RoomTags, Migration.RoomPowerLevel, Migration.JoinOutcome;
  }

  /** An action is planned for the room or an error is recorded. */
  predicate SomethingToDo(m: Migration, r: RoomId) {
    var planned := m.RoomPlanFor(r);
    planned.invite || planned.join || planned.powerLevel.Some? || planned.accountData != map[] || m.RoomErrors(r) != []
  }

  ghost predicate OnlyAliasErrors(errors: seq<RoomPlanError>) {
    forall e :: e in errors ==> e.GetAlias?
  }

  lemma LeaveMark(m: Migration, r: RoomId)
    requires r in m.FinalPlan().rooms
    ensures var entry := m.FinalPlan().rooms[r];
            entry.leave <==> m.MarksLeaves() && OnlyAliasErrors(entry.errors)
  {
    hide Migration.GlobalErrors, Migration.RoomErrors, Migration.WithAlias, Migration.GlobalData;
    EntryOfFinalPlan(m, r);
    NoAliasErrorsInRoomErrors(m, r);
    OnlyAliasAdded(m.RoomErrors(r), m.FinalPlan().rooms[r].errors);
  }

  lemma OnlyAliasAdded(before: seq<RoomPlanError>, after: seq<RoomPlanError>)
    requires after == before || after == before + [RoomPlanError.GetAlias]
    requires forall e :: e in before ==> !e.GetAlias?
    ensures OnlyAliasErrors(after) <==> before == []
  {
    if before != [] {
      assert after[0] == before[0] && before[0] in before;
    }
  }

  lemma NoAliasErrorsInRoomErrors(m: Migration, r: RoomId)
    ensures forall e :: e in m.RoomErrors(r) ==> !e.GetAlias?
  {
    var power, join := m.RoomPowerErrors(r), m.JoinErrors(r);
    var tags, visibility := m.RoomTagErrors(r), m.VisibilityErrors(r, r !in m.newJoined);
    assert forall e :: e in m.RoomErrors(r) <==> e in power || e in join || e in tags || e in visibility;
    assert forall e :: e in power ==> !e.GetAlias?;
    assert forall e :: e in tags ==> !e.GetAlias?;
  }

  /**
    The plan of a room depends on that room alone: two migrations that agree
    about it plan it alike, whatever else differs between them.
   */
  lemma RoomPlanIsLocal(a: Migration, b: Migration, r: RoomId)
    requires a.oldUser == b.oldUser && a.newUser == b.newUser
    requires r in a.newJoined <==> r in b.newJoined
    requires a.world.RoomOf(r) == b.world.RoomOf(r)
    requires forall u :: a.world.RoomData(u, r) == b.world.RoomData(u, r)
    requires forall read: Read ::
               !read.ReadUserId? && !read.ReadJoinedRooms? && !read.ReadGlobal? && read.room == r
               ==> (read in a.faults <==> read in b.faults)
    ensures a.RoomPlanFor(r) == b.RoomPlanFor(r)
    ensures forall plan :: a.WithAlias(r, plan) == b.WithAlias(r, plan)
  {
    hide World.RoomOf, World.RoomData;
    ReadsAgree(a, b, r);
    hide Migration.GetTags, Migration.GetPowerLevels, Migration.GetMembership, Migration.GetServerAcl;
    hide Migration.GetJoinRule, Migration.GetHistoryVisibility, Migration.GetAlias;
    JoinsAgree(a, b, r);
    hide Migration.JoinOutcome;
    assert a.RoomPowerErrors(r) == b.RoomPowerErrors(r) && a.RoomPowerLevel(r) == b.RoomPowerLevel(r);
  }

  lemma JoinsAgree(a: Migration, b: Migration, r: RoomId)
    requires a.oldUser == b.oldUser
    requires a.GetPowerLevels(r) == b.GetPowerLevels(r) && a.GetMembership(r) == b.GetMembership(r)
    requires a.GetServerAcl(r) == b.GetServerAcl(r) && a.GetJoinRule(r) == b.GetJoinRule(r) && a.newUser == b.newUser
    ensures a.JoinOutcome(r) == b.JoinOutcome(r)
  {
    hide Migration.GetPowerLevels, Migration.GetMembership, Migration.GetServerAcl, Migration.GetJoinRule;
  }

  lemma ReadsAgree(a: Migration, b: Migration, r: RoomId)
    requires a.oldUser == b.oldUser && a.newUser == b.newUser
    requires a.world.RoomOf(r) == b.world.RoomOf(r)
    requires forall u :: a.world.RoomData(u, r) == b.world.RoomData(u, r)
    requires forall read: Read ::
               !read.ReadUserId? && !read.ReadJoinedRooms? && !read.ReadGlobal? && read.room == r
               ==> (read in a.faults <==> read in b.faults)
    ensures a.GetTags(OldUser, r) == b.GetTags(OldUser, r) && a.GetTags(NewUser, r) == b.GetTags(NewUser, r)
    ensures a.GetPowerLevels(r) == b.GetPowerLevels(r) && a.GetMembership(r) == b.GetMembership(r)
    ensures a.GetServerAcl(r) == b.GetServerAcl(r) && a.GetJoinRule(r) == b.GetJoinRule(r)
    ensures a.GetHistoryVisibility(r) == b.GetHistoryVisibility(r) && a.GetAlias(r) == b.GetAlias(r)
  {
    hide World.RoomOf, World.RoomData, FetchTags;
  }

  // Direct messages

  /** `a` first occurs in `s` before `b` does. */
  ghost predicate FirstOccursBefore(s: seq<RoomId>, a: RoomId, b: RoomId) {
    exists k :: 0 <= k < |s| && s[k] == a && b !in s[..k + 1]
  }

  /** `added` are exactly the wanted rooms, each once, in the order they were offered. */
  ghost predicate Wanted(have: seq<RoomId>, offered: seq<RoomId>, keep: set<RoomId>, added: seq<RoomId>) {
    && (forall r :: r in added <==> r in offered && r in keep && r !in have)
    && (forall i, j :: 0 <= i < j < |added| ==> added[i] != added[j])
    && (forall i, j :: 0 <= i < j < |added| ==> FirstOccursBefore(offered, added[i], added[j]))
  }

  /** The missing rooms of a list. */
  lemma {:induction false} MissingExact(have: seq<RoomId>, offered: seq<RoomId>, keep: set<RoomId>)
    ensures Wanted(have, offered, keep, Missing(have, offered, keep))
  {
    if offered != [] {
      var n := |offered| - 1;
      var init, last := offered[..n], offered[n];
      MissingExact(have, init, keep);
      assert forall r :: r in offered <==> r in init || r == last;
      var before, added := Missing(have, init, keep), Missing(have, offered, keep);
      forall i, j | 0 <= i < j < |added|
        ensures added[i] != added[j] && FirstOccursBefore(offered, added[i], added[j])
      {
        assert added[i] == before[i] && added[i] in before;
        if j < |before| {
          assert FirstOccursBefore(init, added[i], added[j]);
          var k :| 0 <= k < |init| && init[k] == added[i] && added[j] !in init[..k + 1];
          assert offered[..k + 1] == init[..k + 1];
        } else {
          assert added[j] == last && last !in before;
          var k :| 0 <= k < |init| && init[k] == added[i];
          assert offered[..k + 1] == init[..k + 1];
          assert forall x :: x in init[..k + 1] ==> x in init;
        }
      }
    }
  }

  /**
    The merged `m.direct`: each user keeps their list and gets, after it, exactly
    the wanted rooms of the old list; the new user's own key is left alone, no
    empty list appears, and nothing is written exactly when nothing is missing.
   */
  lemma MergedDirectExact(from: Direct, into: Direct, self: UserId, keep: set<RoomId>)
    ensures var merged := MergedDirect(from, into, self, keep);
            && (merged.None? <==>
                  forall u, r :: u in from && u != self && r in from[u] && r in keep ==> r in RoomsWith(into, u))
            && (merged.Some? ==>
                  && (self in merged.value <==> self in into)
                  && RoomsWith(merged.value, self) == RoomsWith(into, self)
                  && merged.value != into)
            && (merged.Some? ==> forall u :: u != self ==>
                  var have, result := RoomsWith(into, u), RoomsWith(merged.value, u);
                  && (u in merged.value <==> u in into || result != [])
                  && have <= result
                  && (forall r :: r in result <==> r in have || (r in RoomsWith(from, u) && r in keep)))
  {
    hide Missing, Wanted, FirstOccursBefore;
    var merged := MergedDirect(from, into, self, keep);
    forall u | u in from && u != self
      ensures DirectAdditions(from, into, self, keep, u) == [] <==>
              forall r :: r in from[u] && r in keep ==> r in RoomsWith(into, u)
    {
      AdditionsExact(from, into, self, keep, u);
    }
    if merged.Some? {
      forall u | u != self
        ensures forall r :: r in RoomsWith(merged.value, u) <==>
                            r in RoomsWith(into, u) || (r in RoomsWith(from, u) && r in keep)
      {
        AdditionsExact(from, into, self, keep, u);
      }
      var u :| u in from && DirectAdditions(from, into, self, keep, u) != [];
      assert RoomsWith(merged.value, u) != RoomsWith(into, u);
    }
  }

  lemma AdditionsExact(from: Direct, into: Direct, self: UserId, keep: set<RoomId>, u: UserId)
    requires u != self
    ensures var added := DirectAdditions(from, into, self, keep, u);
            && (forall r :: r in added <==> r in RoomsWith(from, u) && r in keep && r !in RoomsWith(into, u))
            && (added == [] <==> forall r :: r in RoomsWith(from, u) && r in keep ==> r in RoomsWith(into, u))
  {
    hide Missing, FirstOccursBefore;
    var added := DirectAdditions(from, into, self, keep, u);
    MissingExact(RoomsWith(into, u), RoomsWith(from, u), keep);
    if added != [] {
      assert added[0] in added;
    }
  }

  /** What the merge appends to a list: the wanted rooms, each once and in the old order. */
  lemma MergedDirectKeepsOrder(from: Direct, into: Direct, self: UserId, keep: set<RoomId>, u: UserId)
    requires MergedDirect(from, into, self, keep).Some? && u != self
    ensures var have, result := RoomsWith(into, u), RoomsWith(MergedDirect(from, into, self, keep).value, u);
            have <= result && Wanted(have, RoomsWith(from, u), keep, result[|have|..])
  {
    var have := RoomsWith(into, u);
    MissingExact(have, RoomsWith(from, u), keep);
    hide Missing, Wanted;
    assert RoomsWith(from, u) == [] ==> Missing(have, RoomsWith(from, u), keep) == [] by {
      MissingNone(have, keep);
    }
    assert RoomsWith(MergedDirect(from, into, self, keep).value, u) == have + Missing(have, RoomsWith(from, u), keep);
  }

  lemma MissingNone(have: seq<RoomId>, keep: set<RoomId>)
    ensures Missing(have, [], keep) == []
  {
  }

  /** Once the merge has been written, merging again adds nothing. */
  lemma RemergeDirectIsStable(from: Direct, into: Direct, self: UserId, keep: set<RoomId>, later: set<RoomId>)
    requires later <= keep
    ensures MergedDirect(from, MergedDirect(from, into, self, keep).GetOr(into), self, later) == None
  {
    var written := MergedDirect(from, into, self, keep).GetOr(into);
    MergedDirectExact(from, into, self, keep);
    MergedDirectExact(from, written, self, later);
  }
}
