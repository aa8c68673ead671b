/**
 * The stateful part of the 3D scene (frontend/src/components/ExoplanetScene.tsx):
 * the list of drawn planetary systems, the orbital angles, the hovered planet,
 * the memoized visual defaults and the camera, as the reconciliation effect,
 * the animation loop and the click handlers change them.
 */
module Scene {
  import opened Wrappers
  import opened Seqs
  import opened App
  import opened SceneRules

  /** One drawn planetary system: the record it was created from and its materials. */
  datatype SceneEntry = SceneEntry(params: VisualizationParams, style: Style)

  function EntryIds(es: seq<SceneEntry>): (ids: seq<string>)
    ensures |ids| == |es|
    ensures forall i :: 0 <= i < |es| ==> ids[i] == es[i].params.kepoi_name
  {
    seq(|es|, i requires 0 <= i < |es| => es[i].params.kepoi_name)
  }

  function PlanetIds(ps: seq<VisualizationParams>): (ids: seq<string>)
    ensures |ids| == |ps|
    ensures forall i :: 0 <= i < |ps| ==> ids[i] == ps[i].kepoi_name
  {
    seq(|ps|, i requires 0 <= i < |ps| => ps[i].kepoi_name)
  }

  function IdSet(es: seq<SceneEntry>): set<string>
  {
    set i | 0 <= i < |es| :: es[i].params.kepoi_name
  }

  /** The systems the reconciliation keeps: those whose id is still requested, in order. */
  function KeptEntries(es: seq<SceneEntry>, requested: seq<string>): seq<SceneEntry>
  {
    Filter(es, (e: SceneEntry) => e.params.kepoi_name in requested)
  }

  function KeptIds(ids: seq<string>, requested: seq<string>): seq<string>
  {
    Filter(ids, (x: string) => x in requested)
  }

  /** The requested ids that were not drawn before, in request order. */
  function FreshIds(ids: seq<string>, existing: seq<string>): seq<string>
  {
    Filter(ids, (x: string) => x !in existing)
  }

  /** The ids among the first `n` systems that are no longer requested. */
  function RemovedBefore(es: seq<SceneEntry>, requested: seq<string>, n: nat): set<string>
    requires n <= |es|
  {
    set i | 0 <= i < n && es[i].params.kepoi_name !in requested :: es[i].params.kepoi_name
  }

  /** All ids that are no longer requested. */
  lemma RemovedAll(es: seq<SceneEntry>, requested: seq<string>)
    ensures RemovedBefore(es, requested, |es|) == IdSet(es) - (set x | x in requested)
  {
  }

  lemma IdSetIsIds(es: seq<SceneEntry>)
    ensures forall x :: x in IdSet(es) <==> x in EntryIds(es)
  {
    forall x ensures x in IdSet(es) <==> x in EntryIds(es) {
      if x in EntryIds(es) {
        var i :| 0 <= i < |es| && EntryIds(es)[i] == x;
      }
    }
  }

  /** The kept systems are exactly the old ones with a requested id, unchanged. */
  lemma KeptEntriesFacts(es: seq<SceneEntry>, requested: seq<string>, defaults: map<string, VisualizationParams>)
    ensures forall x :: x in IdSet(KeptEntries(es, requested)) <==> x in IdSet(es) && x in requested
    ensures (forall i :: 0 <= i < |es| ==> Drawn(es[i], defaults)) ==>
              forall i :: 0 <= i < |KeptEntries(es, requested)| ==> Drawn(KeptEntries(es, requested)[i], defaults)
  {
    var kept := KeptEntries(es, requested);
    forall x ensures x in IdSet(kept) <==> x in IdSet(es) && x in requested {
      if x in IdSet(kept) {
        var i :| 0 <= i < |kept| && kept[i].params.kepoi_name == x;
        assert kept[i] in es;
      }
      if x in IdSet(es) && x in requested {
        var i :| 0 <= i < |es| && es[i].params.kepoi_name == x;
        assert es[i] in kept;
        var k :| 0 <= k < |kept| && kept[k] == es[i];
      }
    }
    if forall i :: 0 <= i < |es| ==> Drawn(es[i], defaults) {
      forall i | 0 <= i < |kept| ensures Drawn(kept[i], defaults) {
        assert kept[i] in es;
      }
    }
  }

  /** The kept systems of a longer prefix. */
  lemma KeptStep(es: seq<SceneEntry>, i: nat, requested: seq<string>)
    requires i < |es|
    ensures KeptEntries(es[..i + 1], requested)
         == KeptEntries(es[..i], requested) + (if es[i].params.kepoi_name in requested then [es[i]] else [])
    ensures KeptIds(EntryIds(es)[..i + 1], requested)
         == KeptIds(EntryIds(es)[..i], requested)
            + (if es[i].params.kepoi_name in requested then [es[i].params.kepoi_name] else [])
    ensures EntryIds(KeptEntries(es[..i], requested) + [es[i]])
         == EntryIds(KeptEntries(es[..i], requested)) + [es[i].params.kepoi_name]
  {
    assert es[..i + 1] == es[..i] + [es[i]];
    FilterSnoc(es[..i], es[i], (e: SceneEntry) => e.params.kepoi_name in requested);
    assert EntryIds(es)[..i + 1] == EntryIds(es)[..i] + [es[i].params.kepoi_name];
    FilterSnoc(EntryIds(es)[..i], es[i].params.kepoi_name, (x: string) => x in requested);
  }

  /** The removed ids of a longer prefix. */
  lemma RemovedStep(es: seq<SceneEntry>, i: nat, requested: seq<string>)
    requires i < |es|
    ensures RemovedBefore(es, requested, i + 1)
         == RemovedBefore(es, requested, i)
            + (if es[i].params.kepoi_name in requested then {} else {es[i].params.kepoi_name})
  {
  }

  /** The drawn ids after reconciliation: the old ones still requested, in their order,
      then the requested ones not drawn before, in request order. */
  function ReconciledIdSeq(oldIds: seq<string>, newIds: seq<string>): seq<string>
  {
    KeptIds(oldIds, newIds) + FreshIds(newIds, oldIds)
  }

  /** Nothing is fresh when every requested id is drawn already. */
  lemma NoFreshIds(es: seq<SceneEntry>, requested: seq<string>)
    requires forall x :: x in IdSet(es) <==> x in requested
    ensures FreshIds(requested, EntryIds(es)) == []
  {
    IdSetIsIds(es);
    FilterKeepsNone(requested, (x: string) => x !in EntryIds(es));
  }

  /** What reconciliation does to the drawn ids: the result holds exactly the requested
      ids, without duplicates when neither input has any, and a request for the ids
      already drawn changes nothing. */
  lemma ReconciledIds(oldIds: seq<string>, newIds: seq<string>)
    ensures forall x :: x in ReconciledIdSeq(oldIds, newIds) <==> x in newIds
    ensures Distinct(oldIds) && Distinct(newIds) ==> Distinct(ReconciledIdSeq(oldIds, newIds))
    ensures (forall x :: x in oldIds <==> x in newIds) ==> ReconciledIdSeq(oldIds, newIds) == oldIds
  {
    var kept, added := KeptIds(oldIds, newIds), FreshIds(newIds, oldIds);
    forall x ensures x in kept + added <==> x in newIds {
      if x in newIds {
        var j :| 0 <= j < |newIds| && newIds[j] == x;
        if x in oldIds {
          var i :| 0 <= i < |oldIds| && oldIds[i] == x;
          assert oldIds[i] in kept;
        } else {
          assert newIds[j] in added;
        }
      }
      if x in kept {
        var i :| 0 <= i < |kept| && kept[i] == x;
      }
      if x in added {
        var i :| 0 <= i < |added| && added[i] == x;
      }
    }
    if Distinct(oldIds) && Distinct(newIds) {
      FilterDistinct(oldIds, (x: string) => x in newIds);
      FilterDistinct(newIds, (x: string) => x !in oldIds);
      DistinctConcat(kept, added);
    }
    if forall x :: x in oldIds <==> x in newIds {
      FilterKeepsAll(oldIds, (x: string) => x in newIds);
      FilterKeepsNone(newIds, (x: string) => x !in oldIds);
    }
  }

  /** A system is drawn with the memoized geometry of its id. */
  ghost predicate Drawn(e: SceneEntry, defaults: map<string, VisualizationParams>)
  {
    e.params.kepoi_name in defaults && Geometry(e.params) == Geometry(defaults[e.params.kepoi_name])
  }

  ghost predicate AllDrawn(es: seq<SceneEntry>, defaults: map<string, VisualizationParams>)
  {
    forall i :: 0 <= i < |es| ==> Drawn(es[i], defaults)
  }

  /** The systems from index `from` on carry their creation materials. */
  ghost predicate NewSystems(es: seq<SceneEntry>, from: nat)
  {
    from <= |es| && forall i :: from <= i < |es| ==> es[i].style == InitialStyle(es[i].params)
  }

  /** The ids of the systems from index `from` on. */
  function NewIds(es: seq<SceneEntry>, from: nat): set<string>
  {
    set i | from <= i < |es| :: es[i].params.kepoi_name
  }

  /** No id occurs twice among the systems from index `from` on. */
  ghost predicate DistinctFrom(es: seq<SceneEntry>, from: nat)
  {
    forall i, j :: from <= i < j < |es| ==> es[i].params.kepoi_name != es[j].params.kepoi_name
  }

  /** Every system from index `from` on has the starting angle for its position. */
  ghost predicate StartAngles(es: seq<SceneEntry>, from: nat, angles: map<string, Angle>, count: nat)
  {
    forall i :: from <= i < |es| ==>
      es[i].params.kepoi_name in angles && angles[es[i].params.kepoi_name] == Finite(StartAngle(i, count))
  }

  lemma AllDrawnSnoc(es: seq<SceneEntry>, e: SceneEntry, d0: map<string, VisualizationParams>,
                     d1: map<string, VisualizationParams>)
    requires AllDrawn(es, d0) && Drawn(e, d1)
    requires forall k :: k in d0 ==> k in d1 && d1[k] == d0[k]
    ensures AllDrawn(es + [e], d1)
  {
    forall i | 0 <= i < |es + [e]| ensures Drawn((es + [e])[i], d1) {
      if i < |es| {
        assert (es + [e])[i] == es[i];
        assert Drawn(es[i], d0);
      }
    }
  }

  lemma NewSystemsSnoc(es: seq<SceneEntry>, e: SceneEntry, from: nat)
    requires NewSystems(es, from) && e.style == InitialStyle(e.params)
    ensures NewSystems(es + [e], from)
  {
    forall i | from <= i < |es + [e]| ensures (es + [e])[i].style == InitialStyle((es + [e])[i].params) {
      if i < |es| {
        assert (es + [e])[i] == es[i];
      }
    }
  }

  lemma NewIdsSnoc(es: seq<SceneEntry>, e: SceneEntry, from: nat)
    requires from <= |es|
    ensures NewIds(es + [e], from) == NewIds(es, from) + {e.params.kepoi_name}
  {
    var l, r := NewIds(es + [e], from), NewIds(es, from) + {e.params.kepoi_name};
    forall x | x in l ensures x in r {
      var i :| from <= i < |es + [e]| && (es + [e])[i].params.kepoi_name == x;
      if i < |es| {
        assert (es + [e])[i] == es[i];
      }
    }
    forall x | x in r ensures x in l {
      if x == e.params.kepoi_name {
        assert (es + [e])[|es|] == e;
      } else {
        var i :| from <= i < |es| && es[i].params.kepoi_name == x;
        assert (es + [e])[i] == es[i];
      }
    }
  }

  lemma StartAnglesSnoc(es: seq<SceneEntry>, e: SceneEntry, from: nat, a0: map<string, Angle>,
                        a1: map<string, Angle>, a2: map<string, Angle>, count: nat)
    requires from <= |es|
    requires DistinctFrom(es, from) ==> StartAngles(es, from, a1, count)
    requires e.params.kepoi_name !in a0 && a1.Keys == a0.Keys + NewIds(es, from)
    requires a2 == if e.params.kepoi_name in a1 then a1
                   else a1[e.params.kepoi_name := Finite(StartAngle(|es|, count))]
    ensures DistinctFrom(es + [e], from) ==> StartAngles(es + [e], from, a2, count)
  {
    var es' := es + [e];
    var id := e.params.kepoi_name;
    if DistinctFrom(es', from) {
      assert forall i :: from <= i < |es| ==> es'[i] == es[i];
      assert DistinctFrom(es, from);
      forall k | from <= k < |es| ensures es[k].params.kepoi_name != id {
        assert es'[k] == es[k] && es'[|es|] == e;
      }
      assert id !in NewIds(es, from);
      assert es'[|es|] == e;
    }
  }

  /** The defaults of the addition loop: stored ones untouched, new keys exactly the
      added ids, each filed under its own id. */
  ghost predicate DefaultsGrown(defaults: map<string, VisualizationParams>,
                                defaults0: map<string, VisualizationParams>, es: seq<SceneEntry>, from: nat)
  {
    && (forall k :: k in defaults0 ==> k in defaults && defaults[k] == defaults0[k])
    && defaults.Keys == defaults0.Keys + NewIds(es, from)
    && (forall k :: k in defaults ==> defaults[k].kepoi_name == k)
  }

  /** The angles of the addition loop: old ones untouched, new keys exactly the added
      ids, and with no repeated id every added system has the starting angle for its
      position. */
  ghost predicate AnglesGrown(angles: map<string, Angle>, angles0: map<string, Angle>,
                              es: seq<SceneEntry>, from: nat, count: nat)
  {
    && (forall k :: k in angles0 ==> k in angles && angles[k] == angles0[k])
    && angles.Keys == angles0.Keys + NewIds(es, from)
    && (DistinctFrom(es, from) ==> StartAngles(es, from, angles, count))
  }

  /** The invariant of the addition loop, on values: the systems before `from` are the
      old ones, every system is drawn with its memoized geometry, the added ones carry
      their creation materials, and defaults and angles grow only by the added ids. */
  ghost predicate AddingState(es: seq<SceneEntry>, angles: map<string, Angle>,
                              defaults: map<string, VisualizationParams>, from: nat,
                              entries0: seq<SceneEntry>, angles0: map<string, Angle>,
                              defaults0: map<string, VisualizationParams>, existing: seq<string>, count: nat)
  {
    && |es| >= from && es[..from] == entries0
    && AllDrawn(es, defaults)
    && NewSystems(es, from)
    && DefaultsGrown(defaults, defaults0, es, from)
    && AnglesGrown(angles, angles0, es, from, count)
    && (forall k :: k in angles0 ==> k in existing)
  }

  lemma DefaultsGrownSnoc(d1: map<string, VisualizationParams>, d2: map<string, VisualizationParams>,
                          d0: map<string, VisualizationParams>, es: seq<SceneEntry>, e: SceneEntry, from: nat)
    requires from <= |es|
    requires DefaultsGrown(d1, d0, es, from)
    requires d2.Keys == d1.Keys + {e.params.kepoi_name}
    requires forall k :: k in d1 ==> d2[k] == d1[k]
    requires forall k :: k in d2 ==> d2[k].kepoi_name == k
    ensures DefaultsGrown(d2, d0, es + [e], from)
  {
    NewIdsSnoc(es, e, from);
  }

  lemma AnglesGrownSnoc(a1: map<string, Angle>, a2: map<string, Angle>, a0: map<string, Angle>,
                        es: seq<SceneEntry>, e: SceneEntry, from: nat, count: nat)
    requires from <= |es|
    requires AnglesGrown(a1, a0, es, from, count)
    requires e.params.kepoi_name !in a0
    requires a2 == if e.params.kepoi_name in a1 then a1
                   else a1[e.params.kepoi_name := Finite(StartAngle(|es|, count))]
    ensures AnglesGrown(a2, a0, es + [e], from, count)
  {
    NewIdsSnoc(es, e, from);
    StartAnglesSnoc(es, e, from, a0, a1, a2, count);
  }

  /** The systems part of the scene's state, as a value: the drawn systems, their
      angles, the hovered planet and the memoized defaults. */
  datatype Systems = Systems(entries: seq<SceneEntry>, angles: map<string, Angle>, hovered: Option<string>,
                             defaults: map<string, VisualizationParams>)

  /** One iteration of the addition loop for a planet that gets a system: the record
      from `getPlanetDefaults` (stored geometry for a known id, fresh hash defaults,
      which are stored, for a new one), the starting angle for the current number of
      systems unless the id already has an angle, then the new system at the end. */
  function AddedSystem(s: Systems, planet: VisualizationParams, count: nat): (r: Systems)
    ensures |r.entries| == |s.entries| + 1 && r.entries[..|s.entries|] == s.entries
    ensures r.entries[|s.entries|].params.kepoi_name == planet.kepoi_name
    ensures WithGeometry(r.entries[|s.entries|].params, planet) == planet
    ensures r.entries[|s.entries|].style == InitialStyle(r.entries[|s.entries|].params)
    ensures Drawn(r.entries[|s.entries|], r.defaults)
    ensures r.defaults.Keys == s.defaults.Keys + {planet.kepoi_name}
    ensures forall k :: k in s.defaults ==> r.defaults[k] == s.defaults[k]
    ensures (forall k :: k in s.defaults ==> s.defaults[k].kepoi_name == k) ==>
              forall k :: k in r.defaults ==> r.defaults[k].kepoi_name == k
    ensures r.angles.Keys == s.angles.Keys + {planet.kepoi_name}
    ensures forall k :: k in s.angles ==> r.angles[k] == s.angles[k]
    ensures planet.kepoi_name !in s.angles ==> r.angles[planet.kepoi_name] == Finite(StartAngle(|s.entries|, count))
    ensures r.hovered == s.hovered
  {
    var id := planet.kepoi_name;
    var props := WithGeometry(planet, if id in s.defaults then s.defaults[id] else FreshDefaults(planet));
    Systems(s.entries + [SceneEntry(props, InitialStyle(props))],
            if id in s.angles then s.angles else s.angles[id := Finite(StartAngle(|s.entries|, count))],
            s.hovered,
            if id in s.defaults then s.defaults else s.defaults[id := FreshDefaults(planet)])
  }

  /** The addition loop over `planets`, in order: each planet whose id is not in
      `existing` gets a system; the hover is never touched. */
  function AddedSystems(s: Systems, planets: seq<VisualizationParams>, existing: seq<string>, count: nat): (r: Systems)
    ensures r.hovered == s.hovered
    ensures |r.entries| >= |s.entries|
    decreases |planets|
  {
    if planets == [] then s
    else
      var before := AddedSystems(s, planets[..|planets| - 1], existing, count);
      var p := planets[|planets| - 1];
      if p.kepoi_name in existing then before else AddedSystem(before, p, count)
  }

  /** Adding one fresh system keeps the invariant of the addition loop. */
  lemma AddingSnoc(s: Systems, planet: VisualizationParams, from: nat, s0: Systems, existing: seq<string>, count: nat)
    requires planet.kepoi_name !in existing
    requires AddingState(s.entries, s.angles, s.defaults, from, s0.entries, s0.angles, s0.defaults, existing, count)
    ensures var r := AddedSystem(s, planet, count);
            AddingState(r.entries, r.angles, r.defaults, from, s0.entries, s0.angles, s0.defaults, existing, count)
  {
    var r := AddedSystem(s, planet, count);
    var e := r.entries[|s.entries|];
    assert r.entries == s.entries + [e];
    AllDrawnSnoc(s.entries, e, s.defaults, r.defaults);
    NewSystemsSnoc(s.entries, e, from);
    DefaultsGrownSnoc(s.defaults, r.defaults, s0.defaults, s.entries, e, from);
    AnglesGrownSnoc(s.angles, r.angles, s0.angles, s.entries, e, from, count);
    assert r.entries[..from] == s.entries[..from];
  }

  /** The ids of a sequence of systems are those of a prefix and of the rest. */
  lemma IdSetSplit(es: seq<SceneEntry>, from: nat)
    requires from <= |es|
    ensures IdSet(es) == IdSet(es[..from]) + NewIds(es, from)
  {
    forall x | x in IdSet(es) ensures x in IdSet(es[..from]) + NewIds(es, from) {
      var i :| 0 <= i < |es| && es[i].params.kepoi_name == x;
      if i < from {
        assert es[..from][i] == es[i];
      }
    }
    forall x | x in IdSet(es[..from]) ensures x in IdSet(es) {
      var i :| 0 <= i < from && es[..from][i].params.kepoi_name == x;
      assert es[i] == es[..from][i];
    }
  }

  /** After the removal half of reconciliation from a valid state, the angles and the
      hover belong exactly to the kept systems. */
  lemma RemovalKeys(es0: seq<SceneEntry>, a0: map<string, Angle>, h0: Option<string>,
                    defaults: map<string, VisualizationParams>, requested: seq<string>,
                    kept: seq<SceneEntry>, a1: map<string, Angle>, h1: Option<string>)
    requires a0.Keys == IdSet(es0) && (h0.Some? ==> h0.value in IdSet(es0)) && AllDrawn(es0, defaults)
    requires kept == KeptEntries(es0, requested)
    requires a1 == a0 - RemovedBefore(es0, requested, |es0|)
    requires h1 == if h0.Some? && h0.value in RemovedBefore(es0, requested, |es0|) then None else h0
    ensures a1.Keys == IdSet(kept) && (h1.Some? ==> h1.value in IdSet(kept)) && AllDrawn(kept, defaults)
    ensures forall k :: k in a1 ==> k in EntryIds(es0)
  {
    RemovedAll(es0, requested);
    KeptEntriesFacts(es0, requested, defaults);
    IdSetIsIds(es0);
  }

  /** The removal half keeps the angles of requested ids and clears a hover exactly
      when the hovered id is no longer requested. */
  lemma RemovalKeepsRequested(es0: seq<SceneEntry>, a0: map<string, Angle>, h0: Option<string>,
                              requested: seq<string>, a1: map<string, Angle>, h1: Option<string>)
    requires h0.Some? ==> h0.value in IdSet(es0)
    requires a1 == a0 - RemovedBefore(es0, requested, |es0|)
    requires h1 == if h0.Some? && h0.value in RemovedBefore(es0, requested, |es0|) then None else h0
    ensures forall k :: k in a0 && k in requested ==> k in a1 && a1[k] == a0[k]
    ensures h1 == if h0.Some? && h0.value !in requested then None else h0
  {
    RemovedAll(es0, requested);
  }

  /** Removal changes nothing when every drawn id is still requested. */
  lemma RemovalIdempotent(es0: seq<SceneEntry>, a0: map<string, Angle>, h0: Option<string>,
                          requested: seq<string>, kept: seq<SceneEntry>, a1: map<string, Angle>, h1: Option<string>)
    requires forall x :: x in IdSet(es0) <==> x in requested
    requires kept == KeptEntries(es0, requested)
    requires a1 == a0 - RemovedBefore(es0, requested, |es0|)
    requires h1 == if h0.Some? && h0.value in RemovedBefore(es0, requested, |es0|) then None else h0
    ensures kept == es0 && a1 == a0 && h1 == h0
    ensures RemovedBefore(es0, requested, |es0|) == {}
  {
    assert forall i :: 0 <= i < |es0| ==> es0[i].params.kepoi_name in IdSet(es0);
    FilterKeepsAll(es0, (e: SceneEntry) => e.params.kepoi_name in requested);
    assert RemovedBefore(es0, requested, |es0|) == {};
    assert a1 == a0;
  }

  /** The state after the addition half of reconciliation. */
  lemma AfterAddition(kept: seq<SceneEntry>, a1: map<string, Angle>, d1: map<string, VisualizationParams>,
                      h: Option<string>, es: seq<SceneEntry>, a2: map<string, Angle>,
                      d2: map<string, VisualizationParams>, existing: seq<string>, count: nat)
    requires AddingState(es, a2, d2, |kept|, kept, a1, d1, existing, count)
    requires a1.Keys == IdSet(kept) && (h.Some? ==> h.value in IdSet(kept))
    ensures a2.Keys == IdSet(es) && (h.Some? ==> h.value in IdSet(es))
    ensures AllDrawn(es, d2) && forall k :: k in d2 ==> d2[k].kepoi_name == k
    ensures forall k :: k in a1 ==> k in a2 && a2[k] == a1[k]
    ensures forall k :: k in d1 ==> k in d2 && d2[k] == d1[k]
    ensures |es| == |kept| ==> es == kept && a2 == a1 && d2 == d1
  {
    IdSetSplit(es, |kept|);
    if |es| == |kept| {
      assert es == es[..|kept|];
      assert NewIds(es, |kept|) == {};
      assert a2 == a1;
      assert d2 == d1;
    }
  }

  /** The requested planets whose id was not drawn before the update, in request order. */
  function FreshPlanets(planets: seq<VisualizationParams>, existing: seq<string>): seq<VisualizationParams>
  {
    Filter(planets, (p: VisualizationParams) => p.kepoi_name !in existing)
  }

  /** The system drawn for a planet that was not drawn before: the planet's own record
      with the geometry stored for its id (fresh hash defaults for an id never seen),
      and the creation materials. */
  function Created(p: VisualizationParams, defaults0: map<string, VisualizationParams>): (e: SceneEntry)
    ensures e.params.kepoi_name == p.kepoi_name
    ensures WithGeometry(e.params, p) == p
    ensures p.kepoi_name in defaults0 ==> Geometry(e.params) == Geometry(defaults0[p.kepoi_name])
    ensures p.kepoi_name !in defaults0 ==> Geometry(e.params) == Geometry(FreshDefaults(p))
    ensures e.style == InitialStyle(e.params)
  {
    var props := WithGeometry(p, if p.kepoi_name in defaults0 then defaults0[p.kepoi_name] else FreshDefaults(p));
    SceneEntry(props, InitialStyle(props))
  }

  function CreatedAll(ps: seq<VisualizationParams>, defaults0: map<string, VisualizationParams>): (es: seq<SceneEntry>)
    ensures |es| == |ps|
    ensures forall i :: 0 <= i < |ps| ==> es[i] == Created(ps[i], defaults0)
  {
    seq(|ps|, i requires 0 <= i < |ps| => Created(ps[i], defaults0))
  }

  /** What the addition loop keeps true about records, after handling the first `j`
      planets: the systems are the old ones followed by those created for the fresh
      planets so far, and every id stored during the loop holds fresh hash geometry. */
  ghost predicate CreatedState(es: seq<SceneEntry>, d: map<string, VisualizationParams>,
                               planets: seq<VisualizationParams>, j: nat, existing: seq<string>,
                               entries0: seq<SceneEntry>, defaults0: map<string, VisualizationParams>)
    requires j <= |planets|
  {
    && es == entries0 + CreatedAll(FreshPlanets(planets[..j], existing), defaults0)
    && (forall k :: k in defaults0 ==> k in d && d[k] == defaults0[k])
    && (forall k :: k in d ==> d[k].kepoi_name == k)
    && (forall k :: k in d && k !in defaults0 ==> Geometry(d[k]) == Geometry(FreshDefaults(d[k])))
  }

  /** One step of the addition loop keeps CreatedState: a planet drawn before changes
      nothing; a fresh one gets exactly the system Created describes, whichever
      defaults the loop has stored for its id meanwhile. */
  lemma CreatedSnoc(es: seq<SceneEntry>, d1: map<string, VisualizationParams>,
                    es2: seq<SceneEntry>, d2: map<string, VisualizationParams>,
                    planets: seq<VisualizationParams>, j: nat, existing: seq<string>,
                    entries0: seq<SceneEntry>, defaults0: map<string, VisualizationParams>)
    requires j < |planets|
    requires CreatedState(es, d1, planets, j, existing, entries0, defaults0)
    requires planets[j].kepoi_name in existing ==> es2 == es && d2 == d1
    requires planets[j].kepoi_name !in existing ==>
               var p := planets[j];
               var props := WithGeometry(p, if p.kepoi_name in d1 then d1[p.kepoi_name] else FreshDefaults(p));
               && es2 == es + [SceneEntry(props, InitialStyle(props))]
               && d2 == if p.kepoi_name in d1 then d1 else d1[p.kepoi_name := FreshDefaults(p)]
    ensures CreatedState(es2, d2, planets, j + 1, existing, entries0, defaults0)
  {
    var p := planets[j];
    var keep := (q: VisualizationParams) => q.kepoi_name !in existing;
    assert planets[..j + 1] == planets[..j] + [p];
    FilterSnoc(planets[..j], p, keep);
    var added := FreshPlanets(planets[..j], existing);
    if p.kepoi_name !in existing {
      var id := p.kepoi_name;
      assert FreshPlanets(planets[..j + 1], existing) == added + [p];
      var g := if id in d1 then d1[id] else FreshDefaults(p);
      if id in d1 && id !in defaults0 {
        FreshDefaultsDependOnIdOnly(d1[id], p);
      }
      assert WithGeometry(p, g) == Created(p, defaults0).params;
      assert CreatedAll(added + [p], defaults0) == CreatedAll(added, defaults0) + [Created(p, defaults0)];
      if id !in d1 {
        assert WithGeometry(FreshDefaults(p), p) == p;
        FreshDefaultsDependOnIdOnly(FreshDefaults(p), p);
      }
    } else {
      assert FreshPlanets(planets[..j + 1], existing) == added;
    }
  }

  /** The systems after reconciliation: the kept ones in their old order, then one
      created system per fresh planet in request order; when no id repeats among them,
      each created system has the starting angle for its position. */
  ghost predicate Reconciled(es0: seq<SceneEntry>, d0: map<string, VisualizationParams>,
                             planets: seq<VisualizationParams>, es: seq<SceneEntry>, angles: map<string, Angle>)
  {
    var kept := KeptEntries(es0, PlanetIds(planets));
    && es == kept + CreatedAll(FreshPlanets(planets, EntryIds(es0)), d0)
    && (UniqueFrom(es, |kept|) ==> StartAnglesFrom(es, |kept|, angles, |planets|))
  }

  /** No id occurs twice among the systems from index `i` on (stated one system at a time). */
  ghost predicate UniqueFrom(es: seq<SceneEntry>, i: nat)
    decreases |es| - i
  {
    i >= |es| || (es[i].params.kepoi_name !in EntryIds(es[i + 1..]) && UniqueFrom(es, i + 1))
  }

  /** Every system from index `i` on has the starting angle for its position (stated one
      system at a time). */
  ghost predicate StartAnglesFrom(es: seq<SceneEntry>, i: nat, angles: map<string, Angle>, count: nat)
    decreases |es| - i
  {
    i >= |es|
    || (&& es[i].params.kepoi_name in angles
        && angles[es[i].params.kepoi_name] == Finite(StartAngle(i, count))
        && StartAnglesFrom(es, i + 1, angles, count))
  }

  lemma {:induction false} UniqueIsDistinct(es: seq<SceneEntry>, i: nat)
    requires i <= |es| && UniqueFrom(es, i)
    ensures DistinctFrom(es, i)
    decreases |es| - i
  {
    if i < |es| {
      UniqueIsDistinct(es, i + 1);
      forall j | i < j < |es| ensures es[i].params.kepoi_name != es[j].params.kepoi_name {
        assert EntryIds(es[i + 1..])[j - i - 1] == es[j].params.kepoi_name;
      }
    }
  }

  lemma {:induction false} StartAnglesOneByOne(es: seq<SceneEntry>, i: nat, angles: map<string, Angle>, count: nat)
    requires StartAngles(es, i, angles, count)
    ensures StartAnglesFrom(es, i, angles, count)
    decreases |es| - i
  {
    if i < |es| {
      StartAnglesOneByOne(es, i + 1, angles, count);
    }
  }

  /** Every drawn system has exactly one angle and nothing else has one, the hovered
      planet is drawn, and every drawn system uses its id's memoized geometry. */
  ghost predicate Consistent(es: seq<SceneEntry>, angles: map<string, Angle>, hovered: Option<string>,
                             defaults: map<string, VisualizationParams>)
  {
    && angles.Keys == IdSet(es)
    && (hovered.Some? ==> hovered.value in IdSet(es))
    && (forall k :: k in defaults ==> defaults[k].kepoi_name == k)
    && AllDrawn(es, defaults)
  }

  /** Without repeated ids, the added systems have the starting angles of their positions. */
  lemma StartAnglesOfAdded(es: seq<SceneEntry>, from: nat, angles: map<string, Angle>, count: nat)
    requires from <= |es|
    requires DistinctFrom(es, from) ==> StartAngles(es, from, angles, count)
    ensures UniqueFrom(es, from) ==> StartAnglesFrom(es, from, angles, count)
  {
    if UniqueFrom(es, from) {
      UniqueIsDistinct(es, from);
      StartAnglesOneByOne(es, from, angles, count);
    }
  }

  /** What reconciling the systems with `planets` and the focus prop `focusedProp`
      promises, from the systems `es0` with angles `a0`, hover `h0` and defaults `d0` to
      `es`, `a`, `h` and `d`: the drawn ids are the reconciled ones, record by record as
      `Reconciled` says; requested ids keep their angles and stored defaults are kept;
      `clearFocus` says exactly that the focused prop was drawn and is no longer
      requested; a hover on an id no longer requested is cleared and any other hover
      kept; and a request for exactly the drawn ids changes nothing. */
  ghost predicate SystemsReconciled(es0: seq<SceneEntry>, a0: map<string, Angle>, h0: Option<string>,
                                    d0: map<string, VisualizationParams>, planets: seq<VisualizationParams>,
                                    focusedProp: Option<string>, es: seq<SceneEntry>, a: map<string, Angle>,
                                    h: Option<string>, d: map<string, VisualizationParams>, clearFocus: bool)
  {
    && EntryIds(es) == ReconciledIdSeq(EntryIds(es0), PlanetIds(planets))
    && Reconciled(es0, d0, planets, es, a)
    && (forall k :: k in a0 && k in PlanetIds(planets) ==> k in a && a[k] == a0[k])
    && (forall k :: k in d0 ==> k in d && d[k] == d0[k])
    && (clearFocus <==> focusedProp.Some? && focusedProp.value in IdSet(es0)
                        && focusedProp.value !in PlanetIds(planets))
    && h == (if h0.Some? && h0.value !in PlanetIds(planets) then None else h0)
    && ((forall x :: x in IdSet(es0) <==> x in PlanetIds(planets)) ==>
          es == es0 && a == a0 && d == d0 && !clearFocus)
  }

  /** Both halves of reconciliation, system by system: the kept systems followed by
      the created ones. */
  lemma ReconciledSystems(es0: seq<SceneEntry>, d0: map<string, VisualizationParams>,
                          planets: seq<VisualizationParams>, kept: seq<SceneEntry>,
                          es: seq<SceneEntry>, a2: map<string, Angle>)
    requires kept == KeptEntries(es0, PlanetIds(planets))
    requires EntryIds(kept) == KeptIds(EntryIds(es0), PlanetIds(planets))
    requires EntryIds(es) == EntryIds(kept) + FreshIds(PlanetIds(planets), EntryIds(es0))
    requires es == kept + CreatedAll(FreshPlanets(planets, EntryIds(es0)), d0)
    requires UniqueFrom(es, |kept|) ==> StartAnglesFrom(es, |kept|, a2, |planets|)
    ensures EntryIds(es) == ReconciledIdSeq(EntryIds(es0), PlanetIds(planets))
    ensures Reconciled(es0, d0, planets, es, a2)
  {
  }

  /** The addition loop keeps its invariant: the old systems come first, every system
      is drawn with its memoized geometry, the added ones carry their creation
      materials, and defaults and angles grow only by the added ids. */
  lemma {:induction false} AddedSystemsGrow(s: Systems, planets: seq<VisualizationParams>, existing: seq<string>, count: nat)
    requires forall k :: k in s.defaults ==> s.defaults[k].kepoi_name == k
    requires AllDrawn(s.entries, s.defaults) && forall k :: k in s.angles ==> k in existing
    ensures var r := AddedSystems(s, planets, existing, count);
            AddingState(r.entries, r.angles, r.defaults, |s.entries|, s.entries, s.angles, s.defaults, existing, count)
    decreases |planets|
  {
    if planets == [] {
      assert NewIds(s.entries, |s.entries|) == {};
      assert s.entries[..|s.entries|] == s.entries;
    } else {
      var init, p := planets[..|planets| - 1], planets[|planets| - 1];
      AddedSystemsGrow(s, init, existing, count);
      if p.kepoi_name !in existing {
        AddingSnoc(AddedSystems(s, init, existing, count), p, |s.entries|, s, existing, count);
      }
    }
  }

  /** The drawn ids after the addition loop: the old ones followed by the fresh ids, in
      request order. */
  lemma {:induction false} AddedSystemsIds(s: Systems, planets: seq<VisualizationParams>, existing: seq<string>, count: nat)
    ensures EntryIds(AddedSystems(s, planets, existing, count).entries)
         == EntryIds(s.entries) + FreshIds(PlanetIds(planets), existing)
    decreases |planets|
  {
    if planets == [] {
      assert PlanetIds(planets) == [];
    } else {
      var n := |planets|;
      var init, p := planets[..n - 1], planets[n - 1];
      AddedSystemsIds(s, init, existing, count);
      assert PlanetIds(planets)[..n - 1] == PlanetIds(init);
      assert PlanetIds(planets)[..n] == PlanetIds(planets);
      FreshIdsStep(PlanetIds(planets), n - 1, existing);
      var before := AddedSystems(s, init, existing, count);
      if p.kepoi_name !in existing {
        var r := AddedSystem(before, p, count);
        assert r.entries == before.entries + [r.entries[|before.entries|]];
        assert EntryIds(r.entries) == EntryIds(before.entries) + [p.kepoi_name];
      }
    }
  }

  /** The systems after the addition loop, record by record: the old ones followed by
      the one Created describes for each fresh planet. */
  lemma {:induction false} AddedSystemsCreated(s: Systems, planets: seq<VisualizationParams>, existing: seq<string>,
                                               count: nat)
    requires forall k :: k in s.defaults ==> s.defaults[k].kepoi_name == k
    ensures var r := AddedSystems(s, planets, existing, count);
            CreatedState(r.entries, r.defaults, planets, |planets|, existing, s.entries, s.defaults)
    decreases |planets|
  {
    if planets == [] {
      assert planets[..0] == [];
      assert s.entries + [] == s.entries;
    } else {
      var n := |planets|;
      var init := planets[..n - 1];
      AddedSystemsCreated(s, init, existing, count);
      assert init[..n - 1] == init;
      assert planets[..n - 1] == init;
      var before := AddedSystems(s, init, existing, count);
      var r := AddedSystems(s, planets, existing, count);
      CreatedSnoc(before.entries, before.defaults, r.entries, r.defaults, planets, n - 1, existing, s.entries, s.defaults);
    }
  }

  /** What the addition half of reconciliation promises, from systems whose angles and
      hover belong to the drawn ones: the result is consistent, old angles and stored
      defaults are kept, the systems are the old ones followed by one created system
      per fresh planet, with their starting angles when no id repeats, and nothing
      changes when nothing is fresh. */
  lemma AddedSystemsMeetSpec(s: Systems, planets: seq<VisualizationParams>, existing: seq<string>)
    requires Consistent(s.entries, s.angles, s.hovered, s.defaults)
    requires forall k :: k in s.angles ==> k in existing
    ensures var r := AddedSystems(s, planets, existing, |planets|);
      && Consistent(r.entries, r.angles, r.hovered, r.defaults)
      && (forall k :: k in s.angles ==> k in r.angles && r.angles[k] == s.angles[k])
      && (forall k :: k in s.defaults ==> k in r.defaults && r.defaults[k] == s.defaults[k])
      && (|r.entries| == |s.entries| ==> r == s)
      && EntryIds(r.entries) == EntryIds(s.entries) + FreshIds(PlanetIds(planets), existing)
      && r.entries == s.entries + CreatedAll(FreshPlanets(planets, existing), s.defaults)
      && (UniqueFrom(r.entries, |s.entries|) ==> StartAnglesFrom(r.entries, |s.entries|, r.angles, |planets|))
  {
    var r := AddedSystems(s, planets, existing, |planets|);
    AddedSystemsGrow(s, planets, existing, |planets|);
    AddedSystemsIds(s, planets, existing, |planets|);
    AddedSystemsCreated(s, planets, existing, |planets|);
    assert planets[..|planets|] == planets;
    StartAnglesOfAdded(r.entries, |s.entries|, r.angles, |planets|);
    AfterAddition(s.entries, s.angles, s.defaults, s.hovered, r.entries, r.angles, r.defaults, existing, |planets|);
  }

  /** Reconciliation as a whole, on values: from a consistent state `s0`, dropping the
      stale systems (giving `w`) and then adding the fresh ones (giving `r`) yields a
      consistent state reconciled with `planets` as SystemsReconciled says. */
  lemma ReconciliationMeetsSpec(s0: Systems, planets: seq<VisualizationParams>, focusedProp: Option<string>,
                                w: Systems, r: Systems, clearFocus: bool)
    requires Consistent(s0.entries, s0.angles, s0.hovered, s0.defaults)
    requires w.entries == KeptEntries(s0.entries, PlanetIds(planets))
    requires EntryIds(w.entries) == KeptIds(EntryIds(s0.entries), PlanetIds(planets))
    requires w.angles == s0.angles - RemovedBefore(s0.entries, PlanetIds(planets), |s0.entries|)
    requires w.hovered == if s0.hovered.Some? && s0.hovered.value in RemovedBefore(s0.entries, PlanetIds(planets), |s0.entries|)
                         then None else s0.hovered
    requires w.defaults == s0.defaults
    requires clearFocus <==> focusedProp.Some? && focusedProp.value in IdSet(s0.entries)
                             && focusedProp.value !in PlanetIds(planets)
    requires r == AddedSystems(w, planets, EntryIds(s0.entries), |planets|)
    ensures Consistent(r.entries, r.angles, r.hovered, r.defaults)
    ensures SystemsReconciled(s0.entries, s0.angles, s0.hovered, s0.defaults, planets, focusedProp,
                              r.entries, r.angles, r.hovered, r.defaults, clearFocus)
  {
    var requested := PlanetIds(planets);
    RemovalKeys(s0.entries, s0.angles, s0.hovered, s0.defaults, requested, w.entries, w.angles, w.hovered);
    RemovalKeepsRequested(s0.entries, s0.angles, s0.hovered, requested, w.angles, w.hovered);
    AddedSystemsMeetSpec(w, planets, EntryIds(s0.entries));
    ReconciledSystems(s0.entries, s0.defaults, planets, w.entries, r.entries, r.angles);
    if forall x :: x in IdSet(s0.entries) <==> x in requested {
      RemovalIdempotent(s0.entries, s0.angles, s0.hovered, requested, w.entries, w.angles, w.hovered);
      NoFreshIds(s0.entries, requested);
      assert w == s0;
    }
  }

  /** The scene's state, kept across renders in React refs. */
  class SceneManager {
    var entries: seq<SceneEntry>
    var angles: map<string, Angle>
    var hovered: Option<string>
    var focused: Option<string>
    var defaults: map<string, VisualizationParams>
    var camera: Vec3
    var transition: CameraTransition
    var time: real

    /** Every drawn system has exactly one angle and nothing else has one, the hovered
        planet is drawn, every drawn system uses its id's memoized geometry, and a
        transition's progress stays in [0, 1). */
    ghost predicate Valid()
      reads this
    {
      Consistent(entries, angles, hovered, defaults) && 0.0 <= transition.progress < 1.0
    }

    /** The mount effect: an empty scene with the camera placed by the framing rule for
        the initial props and no transition. */
    constructor (planets: seq<VisualizationParams>, focusedProp: Option<string>)
      ensures Valid()
      ensures entries == [] && angles == map[] && defaults == map[]
      ensures hovered.None? && focused.None? && time == 0.0
      ensures camera == CameraAt(CameraBaseDistance(planets, focusedProp))
      ensures !transition.isTransitioning && transition.progress == 0.0
    {
      entries := [];
      angles := map[];
      hovered := None;
      focused := None;
      defaults := map[];
      camera := CameraAt(CameraBaseDistance(planets, focusedProp));
      transition := CameraTransition(false, Vec3(0.0, 0.0, 0.0), Vec3(0.0, 0.0, 0.0), 0.0);
      time := 0.0;
    }

    /** The effect that copies the focus prop into its ref. */
    method SyncFocus(focusedProp: Option<string>)
      requires Valid()
      modifies this`focused
      ensures Valid() && focused == focusedProp
    {
      focused := focusedProp;
    }

    /** `getPlanetDefaults`: a known id gets its stored geometry over the current
        record; a new id gets fresh hash defaults, which are stored. */
    method GetPlanetDefaults(planet: VisualizationParams) returns (props: VisualizationParams)
      requires forall k :: k in defaults ==> defaults[k].kepoi_name == k
      modifies this`defaults
      ensures props == WithGeometry(planet,
                if planet.kepoi_name in old(defaults) then old(defaults)[planet.kepoi_name] else FreshDefaults(planet))
      ensures planet.kepoi_name in defaults && Geometry(props) == Geometry(defaults[planet.kepoi_name])
      ensures defaults.Keys == old(defaults).Keys + {planet.kepoi_name}
      ensures forall k :: k in old(defaults) ==> defaults[k] == old(defaults)[k]
      ensures defaults == if planet.kepoi_name in old(defaults) then old(defaults)
                          else old(defaults)[planet.kepoi_name := FreshDefaults(planet)]
      ensures forall k :: k in defaults ==> defaults[k].kepoi_name == k
    {
      if planet.kepoi_name in defaults {
        var existing := defaults[planet.kepoi_name];
        props := WithGeometry(planet, existing);
      } else {
        props := FreshDefaults(planet);
        defaults := defaults[planet.kepoi_name := props];
      }
    }

    /** The removal half of reconciliation: systems whose id is not requested are
        dropped in order, their angles deleted, a hover on them cleared, and whether
        one of them was the focused prop is reported (`onPlanetFocus(null)`). */
    method RemoveStale(requested: seq<string>, focusedProp: Option<string>) returns (clearFocus: bool)
      requires Valid()
      modifies this`entries, this`angles, this`hovered
      ensures entries == KeptEntries(old(entries), requested)
      ensures EntryIds(entries) == KeptIds(EntryIds(old(entries)), requested)
      ensures angles == old(angles) - RemovedBefore(old(entries), requested, |old(entries)|)
      ensures hovered == if old(hovered).Some? && old(hovered).value in RemovedBefore(old(entries), requested, |old(entries)|)
                         then None else old(hovered)
      ensures clearFocus <==> focusedProp.Some? && focusedProp.value in RemovedBefore(old(entries), requested, |old(entries)|)
      ensures clearFocus <==> focusedProp.Some? && focusedProp.value in IdSet(old(entries))
                              && focusedProp.value !in requested
      ensures angles.Keys == IdSet(entries) && (hovered.Some? ==> hovered.value in IdSet(entries))
      ensures AllDrawn(entries, defaults) && forall k :: k in angles ==> k in EntryIds(old(entries))
      ensures forall k :: k in old(angles) && k in requested ==> k in angles && angles[k] == old(angles)[k]
      ensures hovered == if old(hovered).Some? && old(hovered).value !in requested then None else old(hovered)
      ensures (forall x :: x in IdSet(old(entries)) <==> x in requested) ==>
                entries == old(entries) && angles == old(angles)
    {
      ghost var entries0, angles0, hovered0 := entries, angles, hovered;
      entries, angles, hovered, clearFocus := DropStale(entries, requested, angles, hovered, focusedProp);
      RemovedAll(entries0, requested);
      RemovalKeys(entries0, angles0, hovered0, defaults, requested, entries, angles, hovered);
      RemovalKeepsRequested(entries0, angles0, hovered0, requested, angles, hovered);
      if forall x :: x in IdSet(entries0) <==> x in requested {
        RemovalIdempotent(entries0, angles0, hovered0, requested, entries, angles, hovered);
      }
    }

    /** The systems part of the state, as a value. */
    ghost function Current(): Systems
      reads this
    {
      Systems(entries, angles, hovered, defaults)
    }

    /** Draws one new system at the end, as AddedSystem describes. */
    method AddSystem(planet: VisualizationParams, count: nat)
      requires forall k :: k in defaults ==> defaults[k].kepoi_name == k
      modifies this`entries, this`angles, this`defaults
      ensures Current() == AddedSystem(old(Current()), planet, count)
      ensures forall k :: k in defaults ==> defaults[k].kepoi_name == k
    {
      var props := GetPlanetDefaults(planet);
      if props.kepoi_name !in angles {
        angles := angles[props.kepoi_name := Finite(StartAngle(|entries|, count))];
      }
      entries := entries + [SceneEntry(props, InitialStyle(props))];
    }

    /** One step of the addition loop: a planet whose id was not drawn before the update
        gets a system; any other planet changes nothing. */
    method AddIfNew(planet: VisualizationParams, count: nat, existing: seq<string>)
      requires forall k :: k in defaults ==> defaults[k].kepoi_name == k
      modifies this`entries, this`angles, this`defaults
      ensures Current() == if planet.kepoi_name in existing then old(Current())
                           else AddedSystem(old(Current()), planet, count)
      ensures forall k :: k in defaults ==> defaults[k].kepoi_name == k
    {
      if planet.kepoi_name !in existing {
        AddSystem(planet, count);
      }
    }

    /** The addition half of reconciliation: every requested planet whose id was not
        drawn before the update gets a system, in request order. */
    method AddNew(planets: seq<VisualizationParams>, existing: seq<string>)
      requires forall k :: k in defaults ==> defaults[k].kepoi_name == k
      modifies this`entries, this`angles, this`defaults
      ensures Current() == AddedSystems(old(Current()), planets, existing, |planets|)
    {
      ghost var s0 := Current();
      var j := 0;
      while j < |planets|
        invariant 0 <= j <= |planets|
        invariant Current() == AddedSystems(s0, planets[..j], existing, |planets|)
        invariant forall k :: k in defaults ==> defaults[k].kepoi_name == k
      {
        assert planets[..j + 1][..j] == planets[..j];
        AddIfNew(planets[j], |planets|, existing);
        j := j + 1;
      }
      assert planets[..|planets|] == planets;
    }

    /** The camera half of reconciliation: a target more than 0.1 away starts a fresh
        transition from the current position; otherwise the camera jumps there and a
        running transition is left as it is. */
    method RetargetCamera(planets: seq<VisualizationParams>, focusedProp: Option<string>)
      requires Valid()
      modifies this`camera, this`transition
      ensures Valid()
      ensures var target := CameraAt(CameraBaseDistance(planets, focusedProp));
        if MovesFarEnough(old(camera), target)
        then camera == old(camera) && transition == CameraTransition(true, old(camera), target, 0.0)
        else camera == target && transition == old(transition)
    {
      var target := CameraAt(CameraBaseDistance(planets, focusedProp));
      if MovesFarEnough(camera, target) {
        transition := CameraTransition(true, camera, target, 0.0);
      } else {
        camera := target;
      }
    }

    /** The systems half of the effect run when the planets or the focus prop change.
        Kept systems stay unchanged in their old order with their angles; after them
        comes, in request order, one new system per requested planet not drawn before:
        that planet's record with its memoized or fresh geometry and the creation
        materials, at the starting angle for its position when no id repeats. Returns
        whether the focused planet was removed. */
    method UpdateSystems(planets: seq<VisualizationParams>, focusedProp: Option<string>) returns (clearFocus: bool)
      requires Valid()
      modifies this`entries, this`angles, this`hovered, this`defaults
      ensures Consistent(entries, angles, hovered, defaults)
      ensures SystemsReconciled(old(entries), old(angles), old(hovered), old(defaults), planets, focusedProp,
                                entries, angles, hovered, defaults, clearFocus)
    {
      var existing := EntryIds(entries);
      clearFocus := RemoveStale(PlanetIds(planets), focusedProp);
      ghost var w := Current();
      AddNew(planets, existing);
      ReconciliationMeetsSpec(old(Current()), planets, focusedProp, w, Current(), clearFocus);
    }

    /** The effect run when the planets or the focus prop change: the systems are
        reconciled, then the camera is retargeted for the new framing. */
    method Reconcile(planets: seq<VisualizationParams>, focusedProp: Option<string>) returns (clearFocus: bool)
      requires Valid()
      modifies this`entries, this`angles, this`hovered, this`defaults, this`camera, this`transition
      ensures Valid()
      ensures SystemsReconciled(old(entries), old(angles), old(hovered), old(defaults), planets, focusedProp,
                                entries, angles, hovered, defaults, clearFocus)
      ensures var target := CameraAt(CameraBaseDistance(planets, focusedProp));
        if MovesFarEnough(old(camera), target)
        then camera == old(camera) && transition == CameraTransition(true, old(camera), target, 0.0)
        else camera == target && transition == old(transition)
    {
      clearFocus := UpdateSystems(planets, focusedProp);
      RetargetCamera(planets, focusedProp);
    }

    /** One frame of the animation loop: the clock advances, the camera takes one step
        of its transition, the hovered planet becomes `hover`, every system's angle
        advances unless it is hovered, and every system is restyled for the focus. */
    method Frame(hover: Option<string>)
      requires Valid()
      requires hover.None? || hover.value in IdSet(entries)
      modifies this`time, this`camera, this`transition, this`hovered, this`angles, this`entries
      ensures Valid()
      ensures time == old(time) + FrameDelta
      ensures (camera, transition) == CameraStep(old(camera), old(transition))
      ensures hovered == hover
      ensures entries == Restyled(old(entries), focused)
      ensures angles == AnglesAfter(old(angles), old(entries), |old(entries)|, hover)
    {
      time := time + FrameDelta;
      var next := CameraStep(camera, transition);
      camera, transition := next.0, next.1;
      hovered := hover;
      AdvanceSystems();
    }

    /** The frame loop over the systems, in order. */
    method AdvanceSystems()
      requires Valid()
      modifies this`angles, this`entries
      ensures Valid()
      ensures entries == Restyled(old(entries), focused)
      ensures angles == AnglesAfter(old(angles), old(entries), |old(entries)|, hovered)
    {
      var restyled, advanced := FrameSystems(entries, angles, focused, hovered);
      FrameKeepsValid(angles, entries, hovered, focused, defaults);
      entries, angles := restyled, advanced;
    }
  }

  /** The removal loop over the drawn systems, in drawing order: a system whose id is
      requested is kept; any other loses its angle and a hover on it, and is reported
      when it is the focused prop. */
  method DropStale(all: seq<SceneEntry>, requested: seq<string>, a0: map<string, Angle>,
                   hovered0: Option<string>, focusedProp: Option<string>)
    returns (kept: seq<SceneEntry>, angles: map<string, Angle>, hovered: Option<string>, clearFocus: bool)
    ensures kept == KeptEntries(all, requested)
    ensures EntryIds(kept) == KeptIds(EntryIds(all), requested)
    ensures angles == a0 - RemovedBefore(all, requested, |all|)
    ensures hovered == if hovered0.Some? && hovered0.value in RemovedBefore(all, requested, |all|)
                       then None else hovered0
    ensures clearFocus <==> focusedProp.Some? && focusedProp.value in RemovedBefore(all, requested, |all|)
  {
    kept, angles, hovered, clearFocus := [], a0, hovered0, false;
    ghost var removed: set<string> := {};
    var i := 0;
    while i < |all|
      invariant 0 <= i <= |all|
      invariant removed == RemovedBefore(all, requested, i)
      invariant kept == KeptEntries(all[..i], requested)
      invariant EntryIds(kept) == KeptIds(EntryIds(all)[..i], requested)
      invariant angles == a0 - removed
      invariant hovered == if hovered0.Some? && hovered0.value in removed then None else hovered0
      invariant clearFocus <==> focusedProp.Some? && focusedProp.value in removed
    {
      var e := all[i];
      var id := e.params.kepoi_name;
      KeptStep(all, i, requested);
      RemovedStep(all, i, requested);
      if id in requested {
        ghost var ids := EntryIds(kept) + [id];
        assert KeptIds(EntryIds(all)[..i + 1], requested) == ids;
        kept := kept + [e];
        assert EntryIds(kept) == ids;
      } else {
        assert KeptIds(EntryIds(all)[..i + 1], requested) == EntryIds(kept);
        angles := angles - {id};
        removed := removed + {id};
        if hovered == Some(id) {
          hovered := None;
        }
        if focusedProp == Some(id) {
          clearFocus := true;
        }
      }
      i := i + 1;
    }
    assert all[..|all|] == all;
    assert EntryIds(all)[..|all|] == EntryIds(all);
  }

  /** The loop of one frame over the systems, in drawing order: a system without an
      angle gets its starting angle, every system but the hovered one advances, and
      every system gets the materials of the focus. */
  method FrameSystems(all: seq<SceneEntry>, a0: map<string, Angle>, focused: Option<string>,
                      hovered: Option<string>)
    returns (restyled: seq<SceneEntry>, angles: map<string, Angle>)
    ensures restyled == Restyled(all, focused)
    ensures angles == AnglesAfter(a0, all, |all|, hovered)
  {
    restyled := [];
    angles := a0;
    var i := 0;
    while i < |all|
      invariant 0 <= i <= |all|
      invariant restyled == Restyled(all, focused)[..i]
      invariant angles == AnglesAfter(a0, all, i, hovered)
    {
      var p := all[i].params;
      var id := p.kepoi_name;
      ghost var before := angles;
      if id !in angles {
        angles := angles[id := Finite(StartAngle(i, |all|))];
      }
      if hovered != Some(id) {
        angles := angles[id := Advance(angles[id], p.planetOrbitalPeriod)];
      }
      assert angles == FrameAngle(before, p, i, |all|, hovered);
      RestyledStep(all, focused, i);
      restyled := restyled + [all[i].(style := FocusStyle(p, focused))];
      i := i + 1;
    }
    assert Restyled(all, focused)[..|all|] == Restyled(all, focused);
  }

  /** The restyled systems of a longer prefix. */
  lemma RestyledStep(es: seq<SceneEntry>, focused: Option<string>, i: nat)
    requires i < |es|
    ensures Restyled(es, focused)[..i + 1]
         == Restyled(es, focused)[..i] + [es[i].(style := FocusStyle(es[i].params, focused))]
  {
  }

  /** A frame keeps one angle per drawn system and the systems' geometry. */
  lemma FrameKeepsValid(a: map<string, Angle>, es: seq<SceneEntry>, hover: Option<string>,
                        focused: Option<string>, defaults: map<string, VisualizationParams>)
    requires a.Keys == IdSet(es) && AllDrawn(es, defaults)
    ensures AnglesAfter(a, es, |es|, hover).Keys == IdSet(Restyled(es, focused))
    ensures IdSet(Restyled(es, focused)) == IdSet(es)
    ensures AllDrawn(Restyled(es, focused), defaults)
  {
    AnglesAfterKeys(a, es, |es|, hover);
    var r := Restyled(es, focused);
    assert IdSet(r) == IdSet(es) by {
      assert forall i :: 0 <= i < |es| ==> r[i].params == es[i].params;
    }
    assert (set i | 0 <= i < |es| :: es[i].params.kepoi_name) == IdSet(es);
    forall m | 0 <= m < |r| ensures Drawn(r[m], defaults) {
      assert r[m].params == es[m].params;
    }
  }

  /** The fresh ids of a longer prefix. */
  lemma FreshIdsStep(ids: seq<string>, j: nat, existing: seq<string>)
    requires j < |ids|
    ensures FreshIds(ids[..j + 1], existing)
         == FreshIds(ids[..j], existing) + (if ids[j] !in existing then [ids[j]] else [])
  {
    assert ids[..j + 1] == ids[..j] + [ids[j]];
    FilterSnoc(ids[..j], ids[j], (x: string) => x !in existing);
  }

  /** The systems with their materials reassigned for the focus. */
  function Restyled(es: seq<SceneEntry>, focused: Option<string>): (r: seq<SceneEntry>)
    ensures |r| == |es|
    ensures forall i :: 0 <= i < |es| ==> r[i].params == es[i].params
  {
    seq(|es|, i requires 0 <= i < |es| => es[i].(style := FocusStyle(es[i].params, focused)))
  }

  /** One system's step in the frame loop: an angle is created if missing, then it
      advances unless this planet is hovered. */
  function FrameAngle(a: map<string, Angle>, p: VisualizationParams, index: nat, count: nat,
                      hover: Option<string>): map<string, Angle>
  {
    var id := p.kepoi_name;
    var a1 := if id in a then a else a[id := Finite(StartAngle(index, count))];
    if hover == Some(id) then a1 else a1[id := Advance(a1[id], p.planetOrbitalPeriod)]
  }

  /** The angles after the frame loop has handled the first `n` systems. */
  function AnglesAfter(a: map<string, Angle>, es: seq<SceneEntry>, n: nat, hover: Option<string>): map<string, Angle>
    requires n <= |es|
  {
    if n == 0 then a
    else FrameAngle(AnglesAfter(a, es, n - 1, hover), es[n - 1].params, n - 1, |es|, hover)
  }

  /** The frame loop gives an angle to every drawn system and to nothing else. */
  lemma {:induction false} AnglesAfterKeys(a: map<string, Angle>, es: seq<SceneEntry>, n: nat, hover: Option<string>)
    requires n <= |es|
    ensures AnglesAfter(a, es, n, hover).Keys == a.Keys + (set i | 0 <= i < n :: es[i].params.kepoi_name)
  {
    if n > 0 {
      AnglesAfterKeys(a, es, n - 1, hover);
      assert (set i | 0 <= i < n :: es[i].params.kepoi_name)
          == (set i | 0 <= i < n - 1 :: es[i].params.kepoi_name) + {es[n - 1].params.kepoi_name};
    }
  }

  /** The hovered planet is paused: a frame leaves its angle as it was. */
  lemma {:induction false} HoveredPlanetPaused(a: map<string, Angle>, es: seq<SceneEntry>, n: nat, id: string)
    requires n <= |es| && id in a
    ensures id in AnglesAfter(a, es, n, Some(id)) && AnglesAfter(a, es, n, Some(id))[id] == a[id]
  {
    if n > 0 {
      HoveredPlanetPaused(a, es, n - 1, id);
    }
  }

  /** A planet that is drawn once and not hovered moves by exactly one step of its own
      period per frame; ids that are not drawn keep their angles. */
  lemma {:induction false} FrameAdvancesOnce(a: map<string, Angle>, es: seq<SceneEntry>, n: nat,
                                             hover: Option<string>, id: string)
    requires n <= |es| && id in a && hover != Some(id)
    requires forall i, j :: 0 <= i < j < n ==> es[i].params.kepoi_name != id || es[j].params.kepoi_name != id
    ensures id in AnglesAfter(a, es, n, hover)
    ensures (forall i :: 0 <= i < n ==> es[i].params.kepoi_name != id) ==> AnglesAfter(a, es, n, hover)[id] == a[id]
    ensures forall i :: 0 <= i < n && es[i].params.kepoi_name == id ==>
              AnglesAfter(a, es, n, hover)[id] == Advance(a[id], es[i].params.planetOrbitalPeriod)
  {
    if n > 0 {
      FrameAdvancesOnce(a, es, n - 1, hover, id);
    }
  }

  /** `handleInfoClick`: with the popover open it asks to show nothing (which closes
      it); otherwise it opens it. */
  method InfoClicked(app: AppState)
    modifies app
    ensures old(app.showPopover) ==> !app.showPopover && app.selectedKepoiName.None?
    ensures !old(app.showPopover) ==> app.showPopover && app.selectedKepoiName == old(app.selectedKepoiName)
    ensures app.selectedPlanets == old(app.selectedPlanets) && app.focusedPlanet == old(app.focusedPlanet)
  {
    if app.showPopover {
      app.HandlePlanetInfoSelect(None);
    } else {
      app.showPopover := true;
    }
  }

  /** `handleClick`: a click that hits a planet focuses it; a miss does nothing. */
  method PlanetClicked(app: AppState, hit: Option<string>)
    modifies app
    ensures hit.Some? ==> app.focusedPlanet == hit && app.selectedKepoiName == hit && app.showPopover
    ensures hit.None? ==> app.focusedPlanet == old(app.focusedPlanet) && app.showPopover == old(app.showPopover)
                          && app.selectedKepoiName == old(app.selectedKepoiName)
    ensures app.selectedPlanets == old(app.selectedPlanets)
  {
    if hit.Some? {
      app.HandlePlanetFocus(hit);
    }
  }

  /** The "Show All Systems" button, shown while a (non-empty) focus is set, clears it. */
  method ShowAllClicked(app: AppState)
    requires IsTruthy(app.focusedPlanet)
    modifies app
    ensures app.focusedPlanet.None? && app.selectedKepoiName.None? && app.showPopover
    ensures app.selectedPlanets == old(app.selectedPlanets)
  {
    app.HandlePlanetFocus(None);
  }

  /** The reconciliation effect wired to the application: the scene receives the
      current selection and focus, and a removed focused planet clears the focus. */
  method PropsChanged(scene: SceneManager, app: AppState) returns (clearFocus: bool)
    requires scene.Valid()
    modifies scene, app
    ensures scene.Valid()
    ensures SystemsReconciled(old(scene.entries), old(scene.angles), old(scene.hovered), old(scene.defaults),
                              old(app.VisualizationParamsNow()), old(app.focusedPlanet),
                              scene.entries, scene.angles, scene.hovered, scene.defaults, clearFocus)
    ensures clearFocus <==> old(app.focusedPlanet).Some? && old(app.focusedPlanet).value in IdSet(old(scene.entries))
                            && old(app.focusedPlanet).value !in PlanetIds(old(app.VisualizationParamsNow()))
    ensures clearFocus ==> app.focusedPlanet.None? && app.selectedKepoiName.None? && app.showPopover
    ensures !clearFocus ==> app.focusedPlanet == old(app.focusedPlanet) && app.selectedKepoiName == old(app.selectedKepoiName)
                            && app.showPopover == old(app.showPopover)
    ensures app.selectedPlanets == old(app.selectedPlanets)
  {
    clearFocus := scene.Reconcile(app.VisualizationParamsNow(), app.focusedPlanet);
    if clearFocus {
      app.HandlePlanetFocus(None);
    }
  }
}
