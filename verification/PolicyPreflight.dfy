/**
 The audit of stored policy snapshots. A tick counts as complete when its features and its
 decisions pass a series of counts and row checks; together they make a one-to-one pairing.
 Optional values stand for columns that may be null or malformed.
 */
module PolicyPreflight {
  import opened Common

  type Id = string

  datatype Replay = SnapshotComplete | SnapshotPending | LegacyUnreplayable | OtherReplay

  datatype Tick = Tick(
    id: Option<Id>, channel: Id, replay: Replay, policy: Option<Id>, setHash: Option<string>, asOf: Option<int>,
        scored: Option<int>)

  datatype Policy = Policy(id: Id, schema: string, configHash: Option<string>, version: string)

  datatype Feature = Feature(
    id: Option<Id>, tick: Option<Id>, policy: Option<Id>, candidate: string, sourceKind: string,
    lane: string, format: string, account: string, schema: string, asOf: Option<int>, setHash: Option<string>,
        hash: Option<string>)

  datatype Verdict = Accepted | Rejected | OtherVerdict

  datatype Decision = Decision(
    id: Option<Id>, tick: Option<Id>, channel: Id, policy: Option<Id>, snapshot: Option<Id>, candidate: string,
        source: string,
    lane: string, format: string, account: string, setHash: Option<string>, hash: Option<string>, verdict: Verdict,
        selected: bool)

  const FEATURE_SCHEMA := "channelops-candidate-v1"

  // ----- grouping -----

  function Select<T, K(==)>(rows: seq<T>, key: T -> K, k: K): (r: seq<T>)
    ensures forall x :: x in r ==> x in rows && key(x) == k
  {
    if rows == [] then []
    else Select(rows[..|rows| - 1], key, k) + (if key(rows[|rows| - 1]) == k then [rows[|rows| - 1]] else [])
  }

  /** One pass that appends each row to the list of its key. */
  method GroupBy<T, K(==)>(rows: seq<T>, key: T -> K) returns (groups: map<K, seq<T>>)
    ensures forall k :: k in groups ==> groups[k] == Select(rows, key, k)
    ensures forall i :: 0 <= i < |rows| ==> key(rows[i]) in groups
  {
    hide Select;
    groups := map[];
    for i := 0 to |rows|
      invariant forall k :: k in groups ==> groups[k] == Select(rows[..i], key, k)
      invariant forall j :: 0 <= j < i ==> key(rows[j]) in groups
    {
      var k := key(rows[i]);
      if k !in groups {
        NoneSelected(rows[..i], key, k);
      }
      ghost var before := groups;
      groups := groups[k := (if k in groups then groups[k] else []) + [rows[i]]];
      forall x | x in groups
        ensures groups[x] == Select(rows[..i + 1], key, x)
      {
        SelectNext(rows, key, i, x);
        if x == k {
          assert groups[x] == Select(rows[..i], key, x) + [rows[i]];
        } else {
          assert x in before && groups[x] == before[x];
        }
      }
    }
    assert rows[..|rows|] == rows;
  }

  lemma SelectNext<T, K>(rows: seq<T>, key: T -> K, i: nat, k: K)
    requires i < |rows|
    ensures Select(rows[..i + 1], key, k)
            == if key(rows[i]) == k then Select(rows[..i], key, k) + [rows[i]] else Select(rows[..i], key, k)
  {
    assert rows[..i + 1][..i] == rows[..i];
  }

  lemma {:induction false} NoneSelected<T, K>(rows: seq<T>, key: T -> K, k: K)
    requires forall j :: 0 <= j < |rows| ==> key(rows[j]) != k
    ensures Select(rows, key, k) == []
  {
    if rows != [] {
      NoneSelected(rows[..|rows| - 1], key, k);
    }
  }

  lemma {:induction false} Selected<T, K>(rows: seq<T>, key: T -> K, i: nat)
    requires i < |rows|
    ensures rows[i] in Select(rows, key, key(rows[i]))
  {
    if i < |rows| - 1 {
      Selected(rows[..|rows| - 1], key, i);
    }
  }

  // ----- the completeness check -----

  function Ids(features: seq<Feature>): set<Option<Id>> {
    set i | 0 <= i < |features| :: features[i].id
  }

  function Candidates(features: seq<Feature>): set<string> {
    set i | 0 <= i < |features| :: features[i].candidate
  }

  function DecisionIds(decisions: seq<Decision>): set<Option<Id>> {
    set j | 0 <= j < |decisions| :: decisions[j].id
  }

  function Snapshots(decisions: seq<Decision>): set<Option<Id>> {
    set j | 0 <= j < |decisions| :: decisions[j].snapshot
  }

  predicate HeaderOk(tick: Tick, policies: seq<Policy>, count: int) {
    && |policies| == 1
    && tick.replay.SnapshotComplete? && tick.id.Some? && tick.policy.Some? && tick.setHash.Some? && tick.asOf.Some?
    && policies[0].schema == FEATURE_SCHEMA && policies[0].configHash.Some?
    && policies[0].version == "sha256:" + policies[0].configHash.value
    && tick.scored == Some(count) && count >= 0
  }

  predicate CountsOk(features: seq<Feature>, decisions: seq<Decision>, count: int) {
    && |features| == |decisions| == count
    && |Ids(features)| == count && |Candidates(features)| == count
    && |DecisionIds(decisions)| == count && |Snapshots(decisions)| == count
  }

  predicate FeatureOk(tick: Tick, policy: Policy, f: Feature, references: seq<Decision>) {
    && f.id.Some? && |references| == 1 && references[0].tick == tick.id
    && Strip(f.candidate) != "" && f.policy == tick.policy && f.setHash == tick.setHash && f.asOf == tick.asOf
    && f.schema == policy.schema && f.hash.Some?
  }

  predicate DecisionOk(tick: Tick, d: Decision, f: Feature) {
    && d.id.Some? && d.channel == tick.channel && d.policy == tick.policy && d.setHash == tick.setHash && d.hash.Some?
    && !d.verdict.OtherVerdict? && d.selected == d.verdict.Accepted?
    && Matches(d, f)
  }

  /** The decision is about this feature's candidate. */
  predicate Matches(d: Decision, f: Feature) {
    d.source == f.sourceKind && d.candidate == f.candidate && d.lane == f.lane && d.format == f.format
        && d.account == f.account
  }

  /** `all` are the decisions of every tick. */
  predicate Complete(tick: Tick, policies: seq<Policy>, features: seq<Feature>, decisions: seq<Decision>,
                     all: seq<Decision>) {
    && HeaderOk(tick, policies, |features|)
    && CountsOk(features, decisions, |features|)
    && (forall i :: 0 <= i < |features| ==>
          FeatureOk(tick, policies[0], features[i], Select(all, (d: Decision) => d.snapshot, features[i].id)))
    && (forall j :: 0 <= j < |decisions| ==>
          exists i :: 0 <= i < |features| && features[i].id == decisions[j].snapshot
              && DecisionOk(tick, decisions[j], features[i]))
  }

  /** The check as it runs: counts first, then the features, then the decisions against a lookup by id. */
  method TickIsComplete(tick: Tick, policies: seq<Policy>, features: seq<Feature>, decisions: seq<Decision>,
                        all: seq<Decision>)
    returns (ok: bool)
    ensures ok <==> Complete(tick, policies, features, decisions, all)
  {
    hide FeatureOk;
    hide DecisionOk;
    hide HeaderOk;
    hide Select;
    if !HeaderOk(tick, policies, |features|) || !CountsOk(features, decisions, |features|) { return false; }
    HeaderMeans(tick, policies, |features|);
    for i := 0 to |features|
      invariant forall k :: 0 <= k < i ==>
                  FeatureOk(tick, policies[0], features[k], Select(all, (d: Decision) => d.snapshot, features[k].id))
    {
      var references := Select(all, (d: Decision) => d.snapshot, features[i].id);
      if !FeatureOk(tick, policies[0], features[i], references) { return false; }
    }
    for j := 0 to |decisions|
      invariant forall k :: 0 <= k < j ==>
                  exists i :: 0 <= i < |features| && features[i].id == decisions[k].snapshot
                      && DecisionOk(tick, decisions[k], features[i])
    {
      var at := First(features, (f: Feature) => f.id == decisions[j].snapshot, 0);
      IdsDistinct(features);
      if at == |features| || !DecisionOk(tick, decisions[j], features[at]) { return false; }
    }
    return true;
  }

  lemma HeaderMeans(tick: Tick, policies: seq<Policy>, count: int)
    requires HeaderOk(tick, policies, count)
    ensures |policies| == 1
  {
  }

  // ----- counting implies distinctness -----

  function Values<T>(s: seq<T>): set<T> {
    set x | x in s
  }

  /** A list has at most as many values as places. */
  lemma {:induction false} FewerValues<T>(s: seq<T>)
    ensures |Values(s)| <= |s|
    decreases |s|
  {
    if s != [] {
      var front, last := s[..|s| - 1], s[|s| - 1];
      assert Values(s) == Values(front) + {last};
      FewerValues(front);
    }
  }

  lemma {:induction false} CountMeansDistinct<T>(s: seq<T>)
    requires |Values(s)| == |s|
    ensures forall i, j :: 0 <= i < j < |s| ==> s[i] != s[j]
    decreases |s|
  {
    if s != [] {
      var front, last := s[..|s| - 1], s[|s| - 1];
      assert Values(s) == Values(front) + {last};
      FewerValues(front);
      assert last !in Values(front);
      CountMeansDistinct(front);
    }
  }

  lemma IdsDistinct(features: seq<Feature>)
    requires |Ids(features)| == |features|
    ensures forall i, j :: 0 <= i < j < |features| ==> features[i].id != features[j].id
  {
    IdsCount(features);
  }

  // ----- the pairing -----

  /** `to` sends each feature to its decision: onto all of them, one to one, with matching candidates. */
  ghost predicate Pairing(features: seq<Feature>, decisions: seq<Decision>, to: seq<nat>) {
    && |to| == |features| == |decisions|
    && (forall i :: 0 <= i < |to| ==> to[i] < |decisions|)
    && (forall i, j :: 0 <= i < j < |to| ==> to[i] != to[j])
    && (forall j :: 0 <= j < |decisions| ==> j in to)
    && (forall i :: 0 <= i < |to| ==>
        decisions[to[i]].snapshot == features[i].id && Matches(decisions[to[i]], features[i]))
  }

  /** The only decision anywhere that points at a feature. */
  predicate OnlyReference(all: seq<Decision>, f: Feature, d: Decision) {
    Select(all, (e: Decision) => e.snapshot, f.id) == [d]
  }

  /** The one reference of a feature is among its own tick's decisions. */
  lemma OwnDecision(tick: Tick, policies: seq<Policy>, features: seq<Feature>, decisions: seq<Decision>,
                    all: seq<Decision>, i: nat)
    returns (j: nat)
    requires decisions == Select(all, (d: Decision) => d.tick, tick.id)
    requires Complete(tick, policies, features, decisions, all) && i < |features|
    ensures j < |decisions| && decisions[j].snapshot == features[i].id && OnlyReference(all, features[i], decisions[j])
  {
    hide DecisionOk;
    hide Strip;
    hide CountsOk;
    var references := Select(all, (d: Decision) => d.snapshot, features[i].id);
    assert FeatureOk(tick, policies[0], features[i], references);
    var d := references[0];
    assert d in references && d in all;
    var k :| 0 <= k < |all| && all[k] == d;
    Selected(all, (e: Decision) => e.tick, k);
    assert d in decisions;
    j :| 0 <= j < |decisions| && decisions[j] == d;
  }

  /** Every decision finds its feature, so pointing back at them is a pairing. */
  lemma PairingFrom(tick: Tick, features: seq<Feature>, decisions: seq<Decision>, to: seq<nat>)
    requires |to| == |features| == |decisions| == |Ids(features)| == |Snapshots(decisions)|
    requires forall i :: 0 <= i < |to| ==> to[i] < |decisions| && decisions[to[i]].snapshot == features[i].id
    requires forall j :: 0 <= j < |decisions| ==>
               exists i :: 0 <= i < |features| && features[i].id == decisions[j].snapshot
                   && DecisionOk(tick, decisions[j], features[i])
    ensures Pairing(features, decisions, to)
  {
    IdsDistinct(features);
    SnapshotsDistinct(decisions);
    forall j | 0 <= j < |decisions|
      ensures j in to
    {
      var i :| 0 <= i < |features| && features[i].id == decisions[j].snapshot
          && DecisionOk(tick, decisions[j], features[i]);
      assert to[i] == j;
    }
    forall i | 0 <= i < |to|
      ensures Matches(decisions[to[i]], features[i])
    {
      var k :| 0 <= k < |features| && features[k].id == decisions[to[i]].snapshot
          && DecisionOk(tick, decisions[to[i]], features[k]);
      assert k == i;
    }
  }

  lemma ChosenDecisions(tick: Tick, policies: seq<Policy>, features: seq<Feature>, decisions: seq<Decision>,
                        all: seq<Decision>, n: nat)
    returns (to: seq<nat>)
    requires decisions == Select(all, (d: Decision) => d.tick, tick.id)
    requires Complete(tick, policies, features, decisions, all) && n <= |features|
    ensures |to| == n
    ensures forall i :: 0 <= i < n ==>
              to[i] < |decisions| && decisions[to[i]].snapshot == features[i].id
                  && OnlyReference(all, features[i], decisions[to[i]])
  {
    hide Complete;
    hide OnlyReference;
    hide Select;
    if n == 0 {
      to := [];
    } else {
      var front := ChosenDecisions(tick, policies, features, decisions, all, n - 1);
      var j := OwnDecision(tick, policies, features, decisions, all, n - 1);
      to := front + [j];
    }
  }

  /**
   Completeness is a bijection: the tick's features and decisions pair off with matching
   candidates, and no decision of any tick but the paired one points at a feature.
   */
  lemma CompleteIsPairing(tick: Tick, policies: seq<Policy>, features: seq<Feature>, decisions: seq<Decision>,
                          all: seq<Decision>)
    returns (to: seq<nat>)
    requires decisions == Select(all, (d: Decision) => d.tick, tick.id)
    requires Complete(tick, policies, features, decisions, all)
    ensures Pairing(features, decisions, to)
    ensures forall i :: 0 <= i < |features| ==> OnlyReference(all, features[i], decisions[to[i]])
  {
    to := ChosenDecisions(tick, policies, features, decisions, all, |features|);
    hide OnlyReference;
    hide HeaderOk;
    hide FeatureOk;
    hide DecisionOk;
    hide Select;
    PairingFrom(tick, features, decisions, to);
  }

  lemma SnapshotsDistinct(decisions: seq<Decision>)
    requires |Snapshots(decisions)| == |decisions|
    ensures forall i, j :: 0 <= i < j < |decisions| ==> decisions[i].snapshot != decisions[j].snapshot
  {
    SnapshotsCount(decisions);
  }

  // ----- what a complete tick looks like -----

  lemma {:induction false} DistinctMeansCount<T>(s: seq<T>)
    requires forall i, j :: 0 <= i < j < |s| ==> s[i] != s[j]
    ensures |Values(s)| == |s|
    decreases |s|
  {
    if s != [] {
      var front, last := s[..|s| - 1], s[|s| - 1];
      assert Values(s) == Values(front) + {last};
      assert last !in front;
      DistinctMeansCount(front);
    }
  }

  predicate DistinctFeatures(features: seq<Feature>) {
    forall i, j :: 0 <= i < j < |features| ==>
      features[i].id != features[j].id && features[i].candidate != features[j].candidate
  }

  predicate DistinctDecisions(decisions: seq<Decision>) {
    forall i, j :: 0 <= i < j < |decisions| ==>
      decisions[i].id != decisions[j].id && decisions[i].snapshot != decisions[j].snapshot
  }

  /** A list has as many keys as places exactly when no two places have the same key. */
  lemma KeysCount<T, K>(s: seq<T>, key: T -> K, keys: set<K>)
    requires forall i :: 0 <= i < |s| ==> key(s[i]) in keys
    requires forall k :: k in keys ==> exists i :: 0 <= i < |s| && key(s[i]) == k
    ensures |keys| == |s| <==> forall i, j :: 0 <= i < j < |s| ==> key(s[i]) != key(s[j])
  {
    var all := seq(|s|, i requires 0 <= i < |s| => key(s[i]));
    assert forall i :: 0 <= i < |s| ==> all[i] == key(s[i]);
    forall k | k in keys
      ensures k in all
    {
      var i :| 0 <= i < |s| && key(s[i]) == k;
      assert all[i] == k;
    }
    assert Values(all) == keys;
    if |keys| == |s| {
      CountMeansDistinct(all);
    }
    if forall i, j :: 0 <= i < j < |s| ==> key(s[i]) != key(s[j]) {
      DistinctMeansCount(all);
    }
  }

  function IdOf(f: Feature): Option<Id> {
    f.id
  }

  function NameOf(f: Feature): string {
    f.candidate
  }

  function DecisionIdOf(d: Decision): Option<Id> {
    d.id
  }

  function PointOf(d: Decision): Option<Id> {
    d.snapshot
  }

  lemma IdsCount(features: seq<Feature>)
    ensures |Ids(features)| == |features| <==>
            forall i, j :: 0 <= i < j < |features| ==> features[i].id != features[j].id
  {
    KeysCount(features, IdOf, Ids(features));
    assert forall i :: 0 <= i < |features| ==> IdOf(features[i]) == features[i].id;
  }

  lemma CandidatesCount(features: seq<Feature>)
    ensures |Candidates(features)| == |features| <==>
            forall i, j :: 0 <= i < j < |features| ==> features[i].candidate != features[j].candidate
  {
    KeysCount(features, NameOf, Candidates(features));
    assert forall i :: 0 <= i < |features| ==> NameOf(features[i]) == features[i].candidate;
  }

  lemma FeatureCounts(features: seq<Feature>)
    ensures DistinctFeatures(features) <==> |Ids(features)| == |features| && |Candidates(features)| == |features|
  {
    IdsCount(features);
    CandidatesCount(features);
    hide Ids;
    hide Candidates;
  }

  lemma DecisionIdsCount(decisions: seq<Decision>)
    ensures |DecisionIds(decisions)| == |decisions| <==>
            forall i, j :: 0 <= i < j < |decisions| ==> decisions[i].id != decisions[j].id
  {
    KeysCount(decisions, DecisionIdOf, DecisionIds(decisions));
    assert forall i :: 0 <= i < |decisions| ==> DecisionIdOf(decisions[i]) == decisions[i].id;
  }

  lemma SnapshotsCount(decisions: seq<Decision>)
    ensures |Snapshots(decisions)| == |decisions| <==>
            forall i, j :: 0 <= i < j < |decisions| ==> decisions[i].snapshot != decisions[j].snapshot
  {
    KeysCount(decisions, PointOf, Snapshots(decisions));
    assert forall i :: 0 <= i < |decisions| ==> PointOf(decisions[i]) == decisions[i].snapshot;
  }

  lemma DecisionCounts(decisions: seq<Decision>)
    ensures DistinctDecisions(decisions) <==>
            |DecisionIds(decisions)| == |decisions| && |Snapshots(decisions)| == |decisions|
  {
    DecisionIdsCount(decisions);
    SnapshotsCount(decisions);
    hide DecisionIds;
    hide Snapshots;
  }

  /** A feature as a tick stores it. */
  function FeatureOf(tick: Tick, f: Feature): Feature {
    f.(policy := tick.policy, schema := FEATURE_SCHEMA, asOf := tick.asOf, setHash := tick.setHash)
  }

  /** The decision a tick stores about a feature. */
  function DecisionOf(tick: Tick, f: Feature, d: Decision): Decision {
    Decision(d.id, tick.id, tick.channel, tick.policy, f.id, f.candidate, f.sourceKind, f.lane, f.format, f.account,
             tick.setHash, d.hash, d.verdict, d.verdict.Accepted?)
  }

  predicate HeaderStored(tick: Tick, policies: seq<Policy>, count: nat) {
    && tick == Tick(tick.id, tick.channel, SnapshotComplete, tick.policy, tick.setHash, tick.asOf, Some(count))
    && tick.id.Some? && tick.policy.Some? && tick.setHash.Some? && tick.asOf.Some?
    && |policies| == 1 && policies[0].configHash.Some?
    && policies[0] == Policy(policies[0].id, FEATURE_SCHEMA, policies[0].configHash,
                             "sha256:" + policies[0].configHash.value)
  }

  predicate FeatureStored(tick: Tick, f: Feature) {
    f == FeatureOf(tick, f) && f.id.Some? && f.hash.Some? && Strip(f.candidate) != ""
  }

  predicate DecisionStored(tick: Tick, f: Feature, d: Decision) {
    d == DecisionOf(tick, f, d) && d.id.Some? && d.hash.Some? && !d.verdict.OtherVerdict?
  }

  /** A tick that was stored whole: its one policy, its features, and for each of them the one decision. */
  ghost predicate StoredWhole(tick: Tick, policies: seq<Policy>, features: seq<Feature>, decisions: seq<Decision>,
                              all: seq<Decision>, to: seq<nat>)
  {
    && HeaderStored(tick, policies, |features|)
    && DistinctFeatures(features) && DistinctDecisions(decisions)
    && Pairing(features, decisions, to)
    && (forall i :: 0 <= i < |features| ==> FeatureStored(tick, features[i]))
    && (forall i :: 0 <= i < |features| ==> OnlyReference(all, features[i], decisions[to[i]]))
    && (forall i :: 0 <= i < |features| ==> DecisionStored(tick, features[i], decisions[to[i]]))
  }

  lemma HeaderMeansStored(tick: Tick, policies: seq<Policy>, count: nat)
    ensures HeaderOk(tick, policies, count) <==> HeaderStored(tick, policies, count)
  {
  }

  lemma FeatureMeansStored(tick: Tick, policies: seq<Policy>, f: Feature, references: seq<Decision>)
    requires |policies| == 1 && policies[0].schema == FEATURE_SCHEMA
    ensures FeatureOk(tick, policies[0], f, references) <==>
            FeatureStored(tick, f) && |references| == 1 && references[0].tick == tick.id
  {
    hide Strip;
  }

  lemma DecisionMeansStored(tick: Tick, f: Feature, d: Decision)
    ensures DecisionOk(tick, d, f) && d.tick == tick.id && d.snapshot == f.id <==> DecisionStored(tick, f, d)
  {
  }

  /** The decision paired with a feature is the one that was checked against it. */
  lemma PairIsChecked(tick: Tick, features: seq<Feature>, decisions: seq<Decision>, to: seq<nat>, i: nat)
    requires Pairing(features, decisions, to) && DistinctFeatures(features) && i < |features|
    requires forall j :: 0 <= j < |decisions| ==>
               exists k :: 0 <= k < |features| && features[k].id == decisions[j].snapshot
                   && DecisionOk(tick, decisions[j], features[k])
    ensures DecisionOk(tick, decisions[to[i]], features[i]) && decisions[to[i]].snapshot == features[i].id
  {
    hide DecisionOk;
    var k :| 0 <= k < |features| && features[k].id == decisions[to[i]].snapshot
        && DecisionOk(tick, decisions[to[i]], features[k]);
    assert k == i;
  }

  lemma PairIsStored(tick: Tick, policies: seq<Policy>, features: seq<Feature>, decisions: seq<Decision>,
                     all: seq<Decision>, to: seq<nat>, i: nat)
    requires decisions == Select(all, (d: Decision) => d.tick, tick.id)
    requires Complete(tick, policies, features, decisions, all) && Pairing(features, decisions, to) && i < |features|
    requires DistinctFeatures(features) && policies[0].schema == FEATURE_SCHEMA
    ensures FeatureStored(tick, features[i]) && DecisionStored(tick, features[i], decisions[to[i]])
  {
    hide DistinctFeatures;
    hide FeatureOk;
    hide FeatureStored;
    hide DecisionOk;
    hide DecisionStored;
    hide CountsOk;
    FeatureMeansStored(tick, policies, features[i], Select(all, (d: Decision) => d.snapshot, features[i].id));
    PairIsChecked(tick, features, decisions, to, i);
    assert decisions[to[i]] in decisions;
    DecisionMeansStored(tick, features[i], decisions[to[i]]);
  }

  lemma CompleteIsStoredWhole(tick: Tick, policies: seq<Policy>, features: seq<Feature>, decisions: seq<Decision>,
                              all: seq<Decision>)
    returns (to: seq<nat>)
    requires decisions == Select(all, (d: Decision) => d.tick, tick.id)
    requires Complete(tick, policies, features, decisions, all)
    ensures StoredWhole(tick, policies, features, decisions, all, to)
  {
    hide OnlyReference;
    hide FeatureOk;
    hide FeatureStored;
    hide DecisionOk;
    hide DecisionStored;
    hide DistinctFeatures;
    hide DistinctDecisions;
    hide Select;
    to := CompleteIsPairing(tick, policies, features, decisions, all);
    FeatureCounts(features);
    DecisionCounts(decisions);
    HeaderMeansStored(tick, policies, |features|);
    SchemaStored(tick, policies, |features|);
    forall i | 0 <= i < |features|
      ensures FeatureStored(tick, features[i]) && DecisionStored(tick, features[i], decisions[to[i]])
    {
      PairIsStored(tick, policies, features, decisions, all, to, i);
    }
    hide HeaderOk;
    hide HeaderStored;
  }

  lemma SchemaStored(tick: Tick, policies: seq<Policy>, count: nat)
    requires HeaderStored(tick, policies, count)
    ensures |policies| == 1 && policies[0].schema == FEATURE_SCHEMA
  {
  }

  lemma StoredFeature(tick: Tick, policies: seq<Policy>, features: seq<Feature>, decisions: seq<Decision>,
                      all: seq<Decision>, to: seq<nat>, i: nat)
    requires StoredWhole(tick, policies, features, decisions, all, to) && i < |features|
    requires policies[0].schema == FEATURE_SCHEMA
    ensures FeatureOk(tick, policies[0], features[i], Select(all, (d: Decision) => d.snapshot, features[i].id))
  {
    hide DistinctFeatures;
    hide DistinctDecisions;
    hide FeatureOk;
    hide FeatureStored;
    hide Select;
    var references := Select(all, (d: Decision) => d.snapshot, features[i].id);
    assert OnlyReference(all, features[i], decisions[to[i]]);
    assert references == [decisions[to[i]]];
    assert DecisionStored(tick, features[i], decisions[to[i]]);
    FeatureMeansStored(tick, policies, features[i], references);
  }

  lemma StoredDecision(tick: Tick, policies: seq<Policy>, features: seq<Feature>, decisions: seq<Decision>,
                       all: seq<Decision>, to: seq<nat>, j: nat)
    requires StoredWhole(tick, policies, features, decisions, all, to) && j < |decisions|
    ensures exists i :: 0 <= i < |features| && features[i].id == decisions[j].snapshot
                && DecisionOk(tick, decisions[j], features[i])
  {
    hide DistinctFeatures;
    hide DistinctDecisions;
    hide FeatureStored;
    hide DecisionStored;
    hide DecisionOk;
    hide OnlyReference;
    assert j in to;
    var i :| 0 <= i < |to| && to[i] == j;
    DecisionMeansStored(tick, features[i], decisions[to[i]]);
  }

  lemma StoredWholeIsComplete(tick: Tick, policies: seq<Policy>, features: seq<Feature>, decisions: seq<Decision>,
                              all: seq<Decision>, to: seq<nat>)
    requires StoredWhole(tick, policies, features, decisions, all, to)
    ensures Complete(tick, policies, features, decisions, all)
  {
    hide FeatureOk;
    hide DecisionOk;
    hide Select;
    hide FeatureStored;
    hide DecisionStored;
    hide DistinctFeatures;
    hide DistinctDecisions;
    hide OnlyReference;
    FeatureCounts(features);
    DecisionCounts(decisions);
    HeaderMeansStored(tick, policies, |features|);
    SchemaStored(tick, policies, |features|);
    forall i | 0 <= i < |features|
      ensures FeatureOk(tick, policies[0], features[i], Select(all, (d: Decision) => d.snapshot, features[i].id))
    {
      StoredFeature(tick, policies, features, decisions, all, to, i);
    }
    forall j | 0 <= j < |decisions|
      ensures exists i :: 0 <= i < |features| && features[i].id == decisions[j].snapshot
                  && DecisionOk(tick, decisions[j], features[i])
    {
      StoredDecision(tick, policies, features, decisions, all, to, j);
    }
  }

  /** The audit calls a tick complete exactly when it was stored whole. */
  lemma CompleteExactly(tick: Tick, policies: seq<Policy>, features: seq<Feature>, decisions: seq<Decision>,
                        all: seq<Decision>)
    requires decisions == Select(all, (d: Decision) => d.tick, tick.id)
    ensures Complete(tick, policies, features, decisions, all) <==>
            exists to :: StoredWhole(tick, policies, features, decisions, all, to)
  {
    hide Complete;
    hide StoredWhole;
    if Complete(tick, policies, features, decisions, all) {
      var to := CompleteIsStoredWhole(tick, policies, features, decisions, all);
    }
    forall to | StoredWhole(tick, policies, features, decisions, all, to)
      ensures Complete(tick, policies, features, decisions, all)
    {
      StoredWholeIsComplete(tick, policies, features, decisions, all, to);
    }
  }

  // ----- the report -----

  datatype Counts = Counts(total: nat, legacy: nat, current: nat, pending: nat, labelled: nat, complete: nat,
                           partial: nat)

  function CountIf<T>(s: seq<T>, p: T -> bool): nat {
    if s == [] then 0 else CountIf(s[..|s| - 1], p) + (if p(s[|s| - 1]) then 1 else 0)
  }

  lemma CountNext<T>(s: seq<T>, p: T -> bool, i: nat)
    requires i < |s|
    ensures CountIf(s[..i + 1], p) == CountIf(s[..i], p) + (if p(s[i]) then 1 else 0)
  {
    assert s[..i + 1][..i] == s[..i];
  }

  /** The counting loop: each number is the number of ticks it names, and they add up. */
  method CountTicks(ticks: seq<Tick>, complete: Tick -> bool) returns (c: Counts)
    ensures c.total == |ticks| == c.legacy + c.current && c.current == c.complete + c.partial
    ensures c.legacy == CountIf(ticks, (t: Tick) => t.replay.LegacyUnreplayable?)
    ensures c.pending == CountIf(ticks, (t: Tick) => t.replay.SnapshotPending?)
    ensures c.labelled == CountIf(ticks, (t: Tick) => t.replay.SnapshotComplete?)
    ensures c.complete == CountIf(ticks, (t: Tick) => !t.replay.LegacyUnreplayable? && complete(t))
  {
    hide CountIf;
    c := Counts(0, 0, 0, 0, 0, 0, 0);
    NothingCounted(ticks, complete);
    for i := 0 to |ticks|
      invariant c.total == i == c.legacy + c.current && c.current == c.complete + c.partial
      invariant c.legacy == CountIf(ticks[..i], (t: Tick) => t.replay.LegacyUnreplayable?)
      invariant c.pending == CountIf(ticks[..i], (t: Tick) => t.replay.SnapshotPending?)
      invariant c.labelled == CountIf(ticks[..i], (t: Tick) => t.replay.SnapshotComplete?)
      invariant c.complete == CountIf(ticks[..i], (t: Tick) => !t.replay.LegacyUnreplayable? && complete(t))
    {
      var tick := ticks[i];
      CountNext(ticks, (t: Tick) => t.replay.LegacyUnreplayable?, i);
      CountNext(ticks, (t: Tick) => t.replay.SnapshotPending?, i);
      CountNext(ticks, (t: Tick) => t.replay.SnapshotComplete?, i);
      CountNext(ticks, (t: Tick) => !t.replay.LegacyUnreplayable? && complete(t), i);
      c := c.(total := c.total + 1);
      if tick.replay.LegacyUnreplayable? {
        c := c.(legacy := c.legacy + 1);
      } else {
        c := c.(current := c.current + 1);
        if tick.replay.SnapshotPending? { c := c.(pending := c.pending + 1); }
        if tick.replay.SnapshotComplete? { c := c.(labelled := c.labelled + 1); }
        if complete(tick) {
          c := c.(complete := c.complete + 1);
        } else {
          c := c.(partial := c.partial + 1);
        }
      }
    }
    assert ticks[..|ticks|] == ticks;
  }

  lemma NothingCounted(ticks: seq<Tick>, complete: Tick -> bool)
    ensures CountIf(ticks[..0], (t: Tick) => t.replay.LegacyUnreplayable?) == 0
    ensures CountIf(ticks[..0], (t: Tick) => t.replay.SnapshotPending?) == 0
    ensures CountIf(ticks[..0], (t: Tick) => t.replay.SnapshotComplete?) == 0
    ensures CountIf(ticks[..0], (t: Tick) => !t.replay.LegacyUnreplayable? && complete(t)) == 0
  {
  }
}
