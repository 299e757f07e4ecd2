/** validatePlan of lib/ai-optimizer.ts: an untrusted tanker-to-village plan is
    cut down to assignments naming a known tanker and a known village without an
    open dispatch, each tanker and each village at most once, with the distance
    recomputed and the priority made valid. */
module AiOptimizer {
  import opened Numeric
  import opened Domain
  import opened Geo
  import opened Sorting

  datatype VillageData = VillageData(
    id: string,
    villageCode: string,
    name: string,
    lat: real,
    lng: real,
    stressScore: int,
    hasActiveDispatch: bool)

  datatype TankerData = TankerData(id: string, registrationNo: string, depotLat: real, depotLng: real)

  /** An assignment as the model produced it; the priority is whatever token it sent. */
  datatype AIAssignment = AIAssignment(
    tankerId: string,
    tankerReg: string,
    villageId: string,
    villageName: string,
    priority: string,
    reasoning: string,
    estimatedDistance: real)

  datatype AIPlan = AIPlan(summary: string, assignments: seq<AIAssignment>)

  /** `new Map(tankers.map(t => [t.id, t]))`: a later tanker with the same id wins. */
  function TankerMap(tankers: seq<TankerData>): (m: map<string, TankerData>)
    ensures forall id :: id in m <==> exists t :: t in tankers && t.id == id
    ensures forall id :: id in m ==> m[id] in tankers && m[id].id == id
  {
    if tankers == [] then map[]
    else
      var last := tankers[|tankers| - 1];
      assert forall t :: t in tankers <==> t in tankers[..|tankers| - 1] || t == last;
      TankerMap(tankers[..|tankers| - 1])[last.id := last]
  }

  /** `new Map(villages.map(v => [v.villageCode, v]))`, keyed by villageCode. */
  function VillageMap(villages: seq<VillageData>): (m: map<string, VillageData>)
    ensures forall code :: code in m <==> exists v :: v in villages && v.villageCode == code
    ensures forall code :: code in m ==> m[code] in villages && m[code].villageCode == code
  {
    if villages == [] then map[]
    else
      var last := villages[|villages| - 1];
      assert forall v :: v in villages <==> v in villages[..|villages| - 1] || v == last;
      VillageMap(villages[..|villages| - 1])[last.villageCode := last]
  }

  predicate IsPriorityToken(p: string)
  {
    p in ["low", "medium", "high", "urgent"]
  }

  /** A valid token is kept; anything else is replaced by the stress-derived one. */
  function NormalizePriority(token: string, stressScore: int): (p: string)
    ensures IsPriorityToken(p)
    ensures IsPriorityToken(token) ==> p == token
    ensures !IsPriorityToken(token) ==> p == PriorityToken(PriorityFromStress(stressScore)) && p != "low"
  {
    if IsPriorityToken(token) then token else PriorityToken(PriorityFromStress(stressScore))
  }

  /** The two in-place overwrites an accepted assignment receives. */
  function Repair(dist: DistanceFn, a: AIAssignment, tanker: TankerData, village: VillageData)
    : (r: AIAssignment)
    ensures r.tankerId == a.tankerId && r.tankerReg == a.tankerReg && r.villageId == a.villageId
    ensures r.villageName == a.villageName && r.reasoning == a.reasoning
    ensures r.estimatedDistance == RoundTenth(dist(tanker.depotLat, tanker.depotLng, village.lat, village.lng))
    ensures r.estimatedDistance >= 0.0
    ensures r.priority == NormalizePriority(a.priority, village.stressScore)
  {
    var d := dist(tanker.depotLat, tanker.depotLng, village.lat, village.lng);
    RoundMonotone(0.0, d * 10.0);
    a.(estimatedDistance := RoundTenth(d), priority := NormalizePriority(a.priority, village.stressScore))
  }

  /** Whether the filter callback keeps `a` given what earlier kept assignments used. */
  predicate Accepted(a: AIAssignment, tankerMap: map<string, TankerData>,
                     villageMap: map<string, VillageData>, usedTankers: set<string>, usedVillages: set<string>)
  {
    && a.tankerId in tankerMap && a.villageId in villageMap
    && !villageMap[a.villageId].hasActiveDispatch
    && a.tankerId !in usedTankers && a.villageId !in usedVillages
  }

  /** The filter over the assignments from a given state of the two used sets. */
  function ValidFrom(dist: DistanceFn, assignments: seq<AIAssignment>, tankerMap: map<string, TankerData>,
                     villageMap: map<string, VillageData>, usedTankers: set<string>, usedVillages: set<string>)
    : seq<AIAssignment>
  {
    if assignments == [] then []
    else
      var a := assignments[0];
      if Accepted(a, tankerMap, villageMap, usedTankers, usedVillages) then
        [Repair(dist, a, tankerMap[a.tankerId], villageMap[a.villageId])]
          + ValidFrom(dist, assignments[1..], tankerMap, villageMap,
                      usedTankers + {a.tankerId}, usedVillages + {a.villageId})
      else ValidFrom(dist, assignments[1..], tankerMap, villageMap, usedTankers, usedVillages)
  }

  /** The plan validatePlan returns. */
  function ValidatedPlan(dist: DistanceFn, plan: AIPlan, villages: seq<VillageData>, tankers: seq<TankerData>)
    : (r: AIPlan)
    ensures r.summary == plan.summary
  {
    AIPlan(plan.summary, ValidFrom(dist, plan.assignments, TankerMap(tankers), VillageMap(villages), {}, {}))
  }

  /** validatePlan: the filter callback updates the two used sets as it goes. */
  method ValidatePlan(dist: DistanceFn, plan: AIPlan, villages: seq<VillageData>, tankers: seq<TankerData>)
    returns (r: AIPlan)
    ensures r == ValidatedPlan(dist, plan, villages, tankers)
  {
    var tankerMap := TankerMap(tankers);
    var villageMap := VillageMap(villages);
    var usedTankers: set<string> := {};
    var usedVillages: set<string> := {};
    var validAssignments: seq<AIAssignment> := [];
    var i := 0;
    while i < |plan.assignments|
      invariant 0 <= i <= |plan.assignments|
      invariant validAssignments
                + ValidFrom(dist, plan.assignments[i..], tankerMap, villageMap, usedTankers, usedVillages)
             == ValidFrom(dist, plan.assignments, tankerMap, villageMap, {}, {})
    {
      var a := plan.assignments[i];
      assert plan.assignments[i..][0] == a && plan.assignments[i..][1..] == plan.assignments[i + 1..];
      i := i + 1;
      if a.tankerId !in tankerMap || a.villageId !in villageMap {
        continue;
      }
      var tanker := tankerMap[a.tankerId];
      var village := villageMap[a.villageId];
      if village.hasActiveDispatch {
        continue;
      }
      if a.tankerId in usedTankers {
        continue;
      }
      if a.villageId in usedVillages {
        continue;
      }
      usedTankers := usedTankers + {a.tankerId};
      usedVillages := usedVillages + {a.villageId};
      var kept := Repair(dist, a, tanker, village);
      validAssignments := validAssignments + [kept];
    }
    assert plan.assignments[|plan.assignments|..] == [];
    r := AIPlan(plan.summary, validAssignments);
  }

  /** The fields the validator never touches. */
  function Untouched(a: AIAssignment): (string, string, string, string, string)
  {
    (a.tankerId, a.tankerReg, a.villageId, a.villageName, a.reasoning)
  }

  function UntouchedAll(assignments: seq<AIAssignment>): (r: seq<(string, string, string, string, string)>)
    ensures |r| == |assignments|
  {
    if assignments == [] then [] else [Untouched(assignments[0])] + UntouchedAll(assignments[1..])
  }

  /** The output is the input with some assignments dropped, order kept, and no
      field but the distance and the priority changed. */
  lemma {:induction false} ValidIsSubsequence(dist: DistanceFn, assignments: seq<AIAssignment>,
                                              tankerMap: map<string, TankerData>,
                                              villageMap: map<string, VillageData>,
                                              usedTankers: set<string>, usedVillages: set<string>)
    ensures IsSubsequence(
              UntouchedAll(ValidFrom(dist, assignments, tankerMap, villageMap, usedTankers, usedVillages)),
              UntouchedAll(assignments))
  {
    if assignments != [] {
      var a := assignments[0];
      var out := ValidFrom(dist, assignments, tankerMap, villageMap, usedTankers, usedVillages);
      if Accepted(a, tankerMap, villageMap, usedTankers, usedVillages) {
        var rest := ValidFrom(dist, assignments[1..], tankerMap, villageMap,
                              usedTankers + {a.tankerId}, usedVillages + {a.villageId});
        ValidIsSubsequence(dist, assignments[1..], tankerMap, villageMap,
          usedTankers + {a.tankerId}, usedVillages + {a.villageId});
        assert out[1..] == rest;
      } else {
        ValidIsSubsequence(dist, assignments[1..], tankerMap, villageMap, usedTankers, usedVillages);
        SubsequenceSkip(UntouchedAll(out), Untouched(a), UntouchedAll(assignments[1..]));
      }
    }
  }

  /** A kept assignment names a known tanker and a known village without an open
      dispatch, and carries a valid priority and the recomputed distance. */
  predicate Admissible(dist: DistanceFn, a: AIAssignment, tankerMap: map<string, TankerData>,
                       villageMap: map<string, VillageData>)
  {
    && a.tankerId in tankerMap && a.villageId in villageMap
    && !villageMap[a.villageId].hasActiveDispatch
    && IsPriorityToken(a.priority)
    && a.estimatedDistance
       == RoundTenth(dist(tankerMap[a.tankerId].depotLat, tankerMap[a.tankerId].depotLng,
                          villageMap[a.villageId].lat, villageMap[a.villageId].lng))
  }

  /** Every assignment in `out` is admissible and uses no tanker or village of
      the given used sets. */
  predicate AllSound(dist: DistanceFn, out: seq<AIAssignment>, tankerMap: map<string, TankerData>,
                     villageMap: map<string, VillageData>, usedTankers: set<string>, usedVillages: set<string>)
  {
    forall i :: 0 <= i < |out| ==>
      && Admissible(dist, out[i], tankerMap, villageMap)
      && out[i].tankerId !in usedTankers && out[i].villageId !in usedVillages
  }

  /** No two assignments of `out` share a tanker, and none share a village. */
  predicate AllExclusive(out: seq<AIAssignment>)
  {
    forall i, j :: 0 <= i < j < |out| ==>
      out[i].tankerId != out[j].tankerId && out[i].villageId != out[j].villageId
  }

  /** Every assignment of the input that names a known tanker and a known village
      without an open dispatch either clashes with the initial used sets or
      shares its tanker or its village with an assignment of `out`. */
  predicate NoneDroppedWithoutReason(assignments: seq<AIAssignment>, out: seq<AIAssignment>,
                                     tankerMap: map<string, TankerData>, villageMap: map<string, VillageData>,
                                     usedTankers: set<string>, usedVillages: set<string>)
  {
    forall a :: a in assignments && a.tankerId in tankerMap && a.villageId in villageMap
                && !villageMap[a.villageId].hasActiveDispatch ==>
      || a.tankerId in usedTankers || a.villageId in usedVillages
      || (exists k :: 0 <= k < |out| && out[k].tankerId == a.tankerId)
      || (exists k :: 0 <= k < |out| && out[k].villageId == a.villageId)
  }

  /** Every kept assignment is admissible and uses no tanker or village used
      before it. */
  lemma {:induction false} ValidAssignmentsSound(dist: DistanceFn, assignments: seq<AIAssignment>,
                                                 tankerMap: map<string, TankerData>,
                                                 villageMap: map<string, VillageData>,
                                                 usedTankers: set<string>, usedVillages: set<string>)
    ensures AllSound(dist, ValidFrom(dist, assignments, tankerMap, villageMap, usedTankers, usedVillages),
                     tankerMap, villageMap, usedTankers, usedVillages)
  {
    if assignments != [] {
      var a := assignments[0];
      var out := ValidFrom(dist, assignments, tankerMap, villageMap, usedTankers, usedVillages);
      if Accepted(a, tankerMap, villageMap, usedTankers, usedVillages) {
        var ut := usedTankers + {a.tankerId};
        var uv := usedVillages + {a.villageId};
        ValidAssignmentsSound(dist, assignments[1..], tankerMap, villageMap, ut, uv);
        var rest := ValidFrom(dist, assignments[1..], tankerMap, villageMap, ut, uv);
        assert out == [Repair(dist, a, tankerMap[a.tankerId], villageMap[a.villageId])] + rest;
        forall i | 1 <= i < |out| ensures out[i] == rest[i - 1] {
        }
      } else {
        ValidAssignmentsSound(dist, assignments[1..], tankerMap, villageMap, usedTankers, usedVillages);
        assert out == ValidFrom(dist, assignments[1..], tankerMap, villageMap, usedTankers, usedVillages);
      }
    }
  }

  /** No two kept assignments share a tanker, and none share a village. */
  lemma {:induction false} ValidExclusive(dist: DistanceFn, assignments: seq<AIAssignment>,
                                          tankerMap: map<string, TankerData>,
                                          villageMap: map<string, VillageData>,
                                          usedTankers: set<string>, usedVillages: set<string>)
    ensures AllExclusive(ValidFrom(dist, assignments, tankerMap, villageMap, usedTankers, usedVillages))
  {
    if assignments != [] {
      var a := assignments[0];
      if Accepted(a, tankerMap, villageMap, usedTankers, usedVillages) {
        var ut := usedTankers + {a.tankerId};
        var uv := usedVillages + {a.villageId};
        ValidExclusive(dist, assignments[1..], tankerMap, villageMap, ut, uv);
        ValidAssignmentsSound(dist, assignments[1..], tankerMap, villageMap, ut, uv);
        var rest := ValidFrom(dist, assignments[1..], tankerMap, villageMap, ut, uv);
        var out := ValidFrom(dist, assignments, tankerMap, villageMap, usedTankers, usedVillages);
        assert out == [Repair(dist, a, tankerMap[a.tankerId], villageMap[a.villageId])] + rest;
        forall i, j | 0 <= i < j < |out|
          ensures out[i].tankerId != out[j].tankerId && out[i].villageId != out[j].villageId
        {
          assert out[j] == rest[j - 1];
          if i > 0 {
            assert out[i] == rest[i - 1];
          }
        }
      } else {
        ValidExclusive(dist, assignments[1..], tankerMap, villageMap, usedTankers, usedVillages);
        assert ValidFrom(dist, assignments, tankerMap, villageMap, usedTankers, usedVillages)
            == ValidFrom(dist, assignments[1..], tankerMap, villageMap, usedTankers, usedVillages);
      }
    }
  }

  /** Nothing that could have been kept is dropped without a reason: an assignment
      naming a known tanker and a known village without an open dispatch is
      missing from the output only because an earlier kept one (or the initial
      state) already used its tanker or its village. */
  lemma {:induction false} ValidMaximal(dist: DistanceFn, assignments: seq<AIAssignment>,
                                        tankerMap: map<string, TankerData>,
                                        villageMap: map<string, VillageData>,
                                        usedTankers: set<string>, usedVillages: set<string>)
    ensures NoneDroppedWithoutReason(assignments,
              ValidFrom(dist, assignments, tankerMap, villageMap, usedTankers, usedVillages),
              tankerMap, villageMap, usedTankers, usedVillages)
  {
    if assignments != [] {
      var a0 := assignments[0];
      var out := ValidFrom(dist, assignments, tankerMap, villageMap, usedTankers, usedVillages);
      if Accepted(a0, tankerMap, villageMap, usedTankers, usedVillages) {
        var ut := usedTankers + {a0.tankerId};
        var uv := usedVillages + {a0.villageId};
        ValidMaximal(dist, assignments[1..], tankerMap, villageMap, ut, uv);
        var rest := ValidFrom(dist, assignments[1..], tankerMap, villageMap, ut, uv);
        assert out == [Repair(dist, a0, tankerMap[a0.tankerId], villageMap[a0.villageId])] + rest;
        forall a | a in assignments && a.tankerId in tankerMap && a.villageId in villageMap
                   && !villageMap[a.villageId].hasActiveDispatch
          ensures || a.tankerId in usedTankers || a.villageId in usedVillages
                  || (exists k :: 0 <= k < |out| && out[k].tankerId == a.tankerId)
                  || (exists k :: 0 <= k < |out| && out[k].villageId == a.villageId)
        {
          if a.tankerId == a0.tankerId {
            assert out[0].tankerId == a.tankerId;
          } else if a.villageId == a0.villageId {
            assert out[0].villageId == a.villageId;
          } else if a != a0 {
            assert a in assignments[1..];
            if k :| 0 <= k < |rest| && rest[k].tankerId == a.tankerId {
              assert out[k + 1].tankerId == a.tankerId;
            } else if k :| 0 <= k < |rest| && rest[k].villageId == a.villageId {
              assert out[k + 1].villageId == a.villageId;
            }
          }
        }
      } else {
        ValidMaximal(dist, assignments[1..], tankerMap, villageMap, usedTankers, usedVillages);
        assert out == ValidFrom(dist, assignments[1..], tankerMap, villageMap, usedTankers, usedVillages);
        assert forall a :: a in assignments ==> a == a0 || a in assignments[1..];
      }
    }
  }

  /** The tanker ids of a list of assignments. */
  function TankerIds(out: seq<AIAssignment>): set<string>
  {
    if out == [] then {} else {out[0].tankerId} + TankerIds(out[1..])
  }

  /** The village ids of a list of assignments. */
  function VillageIds(out: seq<AIAssignment>): set<string>
  {
    if out == [] then {} else {out[0].villageId} + VillageIds(out[1..])
  }

  /** The filter reads its input front to back: what it keeps of `s + t` is what
      it keeps of `s`, followed by what it keeps of `t` once the tankers and
      villages kept from `s` count as used. */
  lemma {:induction false} ValidFromAppend(dist: DistanceFn, s: seq<AIAssignment>, t: seq<AIAssignment>,
                                           tankerMap: map<string, TankerData>,
                                           villageMap: map<string, VillageData>,
                                           usedTankers: set<string>, usedVillages: set<string>)
    ensures var before := ValidFrom(dist, s, tankerMap, villageMap, usedTankers, usedVillages);
            ValidFrom(dist, s + t, tankerMap, villageMap, usedTankers, usedVillages)
            == before + ValidFrom(dist, t, tankerMap, villageMap,
                                  usedTankers + TankerIds(before), usedVillages + VillageIds(before))
  {
    if s == [] {
      assert s + t == t;
      assert usedTankers + TankerIds([]) == usedTankers && usedVillages + VillageIds([]) == usedVillages;
    } else {
      var a := s[0];
      assert (s + t)[0] == a && (s + t)[1..] == s[1..] + t;
      if Accepted(a, tankerMap, villageMap, usedTankers, usedVillages) {
        var ut := usedTankers + {a.tankerId};
        var uv := usedVillages + {a.villageId};
        ValidFromAppend(dist, s[1..], t, tankerMap, villageMap, ut, uv);
        var head := Repair(dist, a, tankerMap[a.tankerId], villageMap[a.villageId]);
        var rest := ValidFrom(dist, s[1..], tankerMap, villageMap, ut, uv);
        assert ([head] + rest)[0] == head && ([head] + rest)[1..] == rest;
        assert TankerIds([head] + rest) == {a.tankerId} + TankerIds(rest);
        assert VillageIds([head] + rest) == {a.villageId} + VillageIds(rest);
        assert usedTankers + TankerIds([head] + rest) == ut + TankerIds(rest);
        assert usedVillages + VillageIds([head] + rest) == uv + VillageIds(rest);
      } else {
        ValidFromAppend(dist, s[1..], t, tankerMap, villageMap, usedTankers, usedVillages);
      }
    }
  }

  /** The first acceptable occurrence wins. Proposal `i` of the plan is kept
      exactly when it names a known tanker and a known village without an open
      dispatch, neither taken by a proposal kept before it. A rejected proposal
      consumes nothing, and what is kept up to `i` is a prefix of the answer. */
  lemma FirstAcceptedWins(dist: DistanceFn, plan: AIPlan, villages: seq<VillageData>, tankers: seq<TankerData>,
                          i: nat)
    requires i < |plan.assignments|
    ensures var s := plan.assignments;
            var tm := TankerMap(tankers);
            var vm := VillageMap(villages);
            var before := ValidFrom(dist, s[..i], tm, vm, {}, {});
            var a := s[i];
            && ValidFrom(dist, s[..i + 1], tm, vm, {}, {})
               == before + (if Accepted(a, tm, vm, TankerIds(before), VillageIds(before))
                            then [Repair(dist, a, tm[a.tankerId], vm[a.villageId])] else [])
            && ValidFrom(dist, s[..i + 1], tm, vm, {}, {}) <= ValidatedPlan(dist, plan, villages, tankers).assignments
  {
    var s := plan.assignments;
    var tm := TankerMap(tankers);
    var vm := VillageMap(villages);
    var before := ValidFrom(dist, s[..i], tm, vm, {}, {});
    assert s[..i + 1] == s[..i] + [s[i]];
    ValidFromAppend(dist, s[..i], [s[i]], tm, vm, {}, {});
    assert {} + TankerIds(before) == TankerIds(before) && {} + VillageIds(before) == VillageIds(before);
    var a := s[i];
    assert [a][0] == a && [a][1..] == [];
    var upTo := ValidFrom(dist, s[..i + 1], tm, vm, {}, {});
    assert s == s[..i + 1] + s[i + 1..];
    ValidFromAppend(dist, s[..i + 1], s[i + 1..], tm, vm, {}, {});
  }

  /** The whole promise of validatePlan, from empty used sets. */
  lemma ValidatedPlanSpec(dist: DistanceFn, plan: AIPlan, villages: seq<VillageData>, tankers: seq<TankerData>)
    ensures var out := ValidatedPlan(dist, plan, villages, tankers).assignments;
            && IsSubsequence(UntouchedAll(out), UntouchedAll(plan.assignments))
            && (forall i, j :: 0 <= i < j < |out| ==>
                  out[i].tankerId != out[j].tankerId && out[i].villageId != out[j].villageId)
            && (forall i :: 0 <= i < |out| ==>
                  && (exists t :: t in tankers && t.id == out[i].tankerId)
                  && (exists v :: v in villages && v.villageCode == out[i].villageId)
                  && Admissible(dist, out[i], TankerMap(tankers), VillageMap(villages)))
  {
    var tm := TankerMap(tankers);
    var vm := VillageMap(villages);
    var out := ValidatedPlan(dist, plan, villages, tankers).assignments;
    assert out == ValidFrom(dist, plan.assignments, tm, vm, {}, {});
    ValidIsSubsequence(dist, plan.assignments, tm, vm, {}, {});
    ValidExclusive(dist, plan.assignments, tm, vm, {}, {});
    ValidAssignmentsSound(dist, plan.assignments, tm, vm, {}, {});
    forall i | 0 <= i < |out|
      ensures && (exists t :: t in tankers && t.id == out[i].tankerId)
              && (exists v :: v in villages && v.villageCode == out[i].villageId)
    {
      assert tm[out[i].tankerId] in tankers;
      assert vm[out[i].villageId] in villages;
    }
  }

  /** A repeated tanker: the first assignment is kept, the second dropped. */
  lemma FirstOccurrenceWins(dist: DistanceFn, a: AIAssignment, b: AIAssignment,
                            tankers: seq<TankerData>, villages: seq<VillageData>)
    requires a.tankerId == b.tankerId
    requires Accepted(a, TankerMap(tankers), VillageMap(villages), {}, {})
    ensures var out := ValidatedPlan(dist, AIPlan("", [a, b]), villages, tankers).assignments;
            |out| == 1 && Untouched(out[0]) == Untouched(a)
  {
    var tm := TankerMap(tankers);
    var vm := VillageMap(villages);
    assert [a, b][0] == a && [a, b][1..] == [b] && [b][0] == b && [b][1..] == [];
    assert !Accepted(b, tm, vm, {a.tankerId}, {a.villageId});
    assert ValidFrom(dist, [b], tm, vm, {a.tankerId}, {a.villageId})
        == ValidFrom(dist, [], tm, vm, {a.tankerId}, {a.villageId});
    assert ValidFrom(dist, [b], tm, vm, {a.tankerId}, {a.villageId}) == [];
    assert ValidFrom(dist, [a, b], tm, vm, {}, {})
        == [Repair(dist, a, tm[a.tankerId], vm[a.villageId])]
           + ValidFrom(dist, [b], tm, vm, {} + {a.tankerId}, {} + {a.villageId});
    assert ValidFrom(dist, [a, b], tm, vm, {}, {}) == [Repair(dist, a, tm[a.tankerId], vm[a.villageId])];
  }
}
