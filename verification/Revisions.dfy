/** Revision numbering over whole runs: template changes, rollbacks, syncs and cleanups. */
module Revisions {
  import opened Common
  import opened ReplicaSets
  import History
  import RevisionText

  /** A ReplicaSet with its pod template and its revision history. */
  datatype Versioned = Versioned(rs: ReplicaSet, template: int, history: seq<int>)

  function Bare(all: seq<Versioned>): (r: seq<ReplicaSet>)
    ensures |r| == |all| && forall i :: 0 <= i < |all| ==> r[i] == all[i].rs
  {
    seq(|all|, i requires 0 <= i < |all| => all[i].rs)
  }

  /** The revision number of a ReplicaSet; 0 without an annotation or with an unreadable one,
      which MaxRevision skips. */
  function NumberOf(rs: ReplicaSet): int {
    RevisionNumber(rs.revision).GetOr(0)
  }

  // ---------------------------------------------------------------- the new and the old ones

  /** FindNewReplicaSet: among the first n, the position of the oldest with this template. */
  function FindNew(all: seq<Versioned>, template: int, n: nat): (r: Option<nat>)
    requires n <= |all|
    ensures r.Some? ==> r.value < n && all[r.value].template == template
    ensures r.None? ==> forall i :: 0 <= i < n ==> all[i].template != template
  {
    if n == 0 then None
    else
      var best := FindNew(all, template, n - 1);
      if all[n - 1].template == template && (best.None? || Older(all[n - 1].rs, all[best.value].rs))
      then Some(n - 1) else best
  }

  /** No other with the template was created before it. */
  lemma {:induction false} FindNewIsOldest(all: seq<Versioned>, template: int, n: nat)
    requires n <= |all|
    ensures var at := FindNew(all, template, n);
            at.Some? ==> forall j :: 0 <= j < n && all[j].template == template ==>
                           !CreatedBefore(all[j].rs, all[at.value].rs)
  {
    if n > 0 {
      FindNewIsOldest(all, template, n - 1);
    }
  }

  /** FindOldReplicaSets, the second result: all but the new one. */
  function Olds(all: seq<Versioned>, at: Option<nat>): seq<Versioned>
    requires at.Some? ==> at.value < |all|
  {
    if at.None? then all else all[..at.value] + all[at.value + 1..]
  }

  /** MaxRevision: never below 0. */
  function MaxRevision(olds: seq<Versioned>, n: nat): (m: int)
    requires n <= |olds|
    ensures m >= 0 && forall i :: 0 <= i < n ==> NumberOf(olds[i].rs) <= m
    ensures m == 0 || exists i :: 0 <= i < n && NumberOf(olds[i].rs) == m
  {
    if n == 0 then 0 else Max(MaxRevision(olds, n - 1), NumberOf(olds[n - 1].rs))
  }

  method FindMaxRevision(olds: seq<Versioned>) returns (max: int)
    ensures max == MaxRevision(olds, |olds|)
  {
    max := 0;
    for i := 0 to |olds|
      invariant max == MaxRevision(olds, i)
    {
      var v := RevisionNumber(olds[i].rs.revision);
      if v.Some? && v.value > max {
        max := v.value;
      }
    }
  }

  // ---------------------------------------------------------------- stamping a revision

  const MAX_HISTORY_CHARS: int := 2000

  function Texts(ns: seq<int>): (r: seq<string>)
    ensures |r| == |ns| && forall i :: 0 <= i < |ns| ==> r[i] == RevisionText.FormatInt(ns[i])
  {
    seq(|ns|, i requires 0 <= i < |ns| => RevisionText.FormatInt(ns[i]))
  }

  /** The history with `last` appended: the longest suffix that stays within the limit. */
  function Extended(history: seq<int>, last: int): seq<int> {
    if history == [] then [last]
    else
      var start := RevisionText.FirstFit(Texts(history), 0, RevisionText.FormatInt(last), MAX_HISTORY_CHARS);
      if start.None? then history else history[start.value..] + [last]
  }

  /** An existing revision that is large enough stays, and so does one that cannot be read. */
  predicate NeedsRevision(v: Versioned, revision: int) {
    !v.rs.revision.Unparsable? && NumberOf(v.rs) < revision
  }

  /** The new ReplicaSet with a revision above all old ones. */
  function Renumbered(v: Versioned, revision: int): Versioned {
    if !NeedsRevision(v, revision) then v
    else
      v.(rs := v.rs.(revision := Number(revision)),
         history := if v.rs.revision.Absent? then v.history else Extended(v.history, NumberOf(v.rs)))
  }

  /** The annotations that say so, as text. */
  function Written(v: Versioned): map<string, string> {
    var revision := if v.rs.revision.Absent? then map[] else
                    map[RevisionText.REVISION := RevisionText.FormatInt(NumberOf(v.rs))];
    if v.history == [] then revision
    else revision[RevisionText.REVISION_HISTORY := RevisionText.Join(Texts(v.history))]
  }

  lemma TextsSuffix(ns: seq<int>, start: nat, last: int)
    requires start <= |ns|
    ensures Texts(ns)[start..] + [RevisionText.FormatInt(last)] == Texts(ns[start..] + [last])
  {
  }

  lemma TextsSplit(ns: seq<int>)
    requires ns != []
    ensures RevisionText.Split(RevisionText.Join(Texts(ns))) == Texts(ns)
    ensures Texts(ns)[0] != ""
  {
    forall k | 0 <= k < |ns| ensures ',' !in Texts(ns)[k] && Texts(ns)[k] != "" {
      RevisionText.FormatHasNoComma(ns[k]);
    }
    RevisionText.SplitOfJoin(Texts(ns));
  }

  lemma AppendedIsExtended(history: seq<int>, last: int)
    ensures var text := if history == [] then "" else RevisionText.Join(Texts(history));
            RevisionText.Appended(text, RevisionText.FormatInt(last), MAX_HISTORY_CHARS)
            == RevisionText.Join(Texts(Extended(history, last)))
  {
    hide RevisionText.Join, RevisionText.Split, RevisionText.FirstFit, RevisionText.FormatInt;
    if history == [] {
      RevisionText.SplitOfEmpty();
      RevisionText.JoinOfOne(RevisionText.FormatInt(last));
      assert Texts([last]) == [RevisionText.FormatInt(last)];
    } else {
      TextsSplit(history);
      var start := RevisionText.FirstFit(Texts(history), 0, RevisionText.FormatInt(last), MAX_HISTORY_CHARS);
      if start.Some? {
        TextsSuffix(history, start.value, last);
      }
    }
  }

  lemma KeysDiffer()
    ensures RevisionText.REVISION != RevisionText.REVISION_HISTORY
  {
  }

  /** The text level and the number level agree: stamping the written annotations gives the
      annotations of the renumbered ReplicaSet. */
  lemma StampedIsRenumbered(v: Versioned, revision: int)
    requires !v.rs.revision.Unparsable? && (v.rs.revision.Absent? ==> v.history == [])
    requires RevisionText.MIN_INT64 <= NumberOf(v.rs) <= RevisionText.MAX_INT64
    requires RevisionText.MIN_INT64 <= revision <= RevisionText.MAX_INT64
    ensures RevisionText.Stamped(Written(v), RevisionText.FormatInt(revision), MAX_HISTORY_CHARS)
         == (Written(Renumbered(v, revision)), NumberOf(v.rs) < revision)
  {
    hide RevisionText.Join, RevisionText.ParseInt, RevisionText.Appended, RevisionText.FormatInt, Texts, Extended;
    RevisionText.ParseFormatRoundTrip(revision);
    RevisionText.ParseFormatRoundTrip(NumberOf(v.rs));
    RevisionText.FormatHasNoComma(NumberOf(v.rs));
    RevisionText.EmptyIsNoNumber();
    KeysDiffer();
    AppendedIsExtended(v.history, NumberOf(v.rs));
    ExtendedIsNotEmpty(v.history, NumberOf(v.rs));
    if NumberOf(v.rs) < revision {
      var stamped := Written(v)[RevisionText.REVISION := RevisionText.FormatInt(revision)];
      var r := Renumbered(v, revision);
      if v.rs.revision.Absent? {
        assert Written(r) == stamped;
      } else {
        assert RevisionText.Lookup(Written(v), RevisionText.REVISION_HISTORY)
            == if v.history == [] then "" else RevisionText.Join(Texts(v.history));
        assert Written(r) == stamped[RevisionText.REVISION_HISTORY := RevisionText.Join(Texts(r.history))];
      }
    }
  }

  lemma ExtendedIsNotEmpty(history: seq<int>, last: int)
    ensures Extended(history, last) != []
  {
  }

  // ---------------------------------------------------------------- one reconcile

  /** getNewReplicaSet: the ReplicaSets afterwards, the position of the new one, and whether
      anything was written. */
  datatype Synced = Synced(all: seq<Versioned>, at: Option<nat>, wrote: bool)

  function NextRevision(all: seq<Versioned>, at: Option<nat>): int
    requires at.Some? ==> at.value < |all|
  {
    MaxRevision(Olds(all, at), |Olds(all, at)|) + 1
  }

  function SyncRevision(all: seq<Versioned>, template: int, create: bool, name: int, now: int): (s: Synced)
    ensures s.at.Some? ==> s.at.value < |s.all|
  {
    var at := FindNew(all, template, |all|);
    var revision := NextRevision(all, at);
    if at.Some? then
      Synced(all[at.value := Renumbered(all[at.value], revision)], at, NeedsRevision(all[at.value], revision))
    else if create then
      var rs := ReplicaSet(name, now, 0, 0, 0, false, false, None, None, Number(revision));
      Synced(all + [Versioned(rs, template, [])], Some(|all|), true)
    else Synced(all, None, false)
  }

  /** The ReplicaSets the server still has. */
  function Keep(all: seq<Versioned>, gone: seq<ReplicaSet>): (r: seq<Versioned>)
    ensures forall v :: v in r <==> v in all && v.rs !in gone
  {
    if all == [] then []
    else (if all[0].rs in gone then [] else [all[0]]) + Keep(all[1..], gone)
  }

  /** What cleanupDeployment deletes among the old ones. */
  function Gone(all: seq<Versioned>, at: Option<nat>, d: Deployment, budget: nat): History.Pruning
    requires (at.Some? ==> at.value < |all|) && History.ValidLimit(d)
  {
    History.CleanedUp(Bare(Olds(all, at)), d, budget)
  }

  /** The ReplicaSets of a Deployment, and whether the API server accepts a write. */
  class RevisionKeeper {
    var all: seq<Versioned>
    var writeOk: bool

    method FindNewReplicaSet(template: int) returns (at: Option<nat>)
      ensures at == FindNew(all, template, |all|)
    {
      at := None;
      for i := 0 to |all|
        invariant at == FindNew(all, template, i)
      {
        if all[i].template == template && (at.None? || Older(all[i].rs, all[at.value].rs)) {
          at := Some(i);
        }
      }
    }

    /** getNewReplicaSet: renumbers the existing new ReplicaSet, or creates one. */
    method GetNewReplicaSet(template: int, createIfNotExisted: bool, name: int, now: int)
      returns (at: Option<nat>, err: bool)
      modifies this`all
      ensures var s := SyncRevision(old(all), template, createIfNotExisted, name, now);
              && err == (s.wrote && !writeOk)
              && all == (if err then old(all) else s.all)
              && (!err ==> at == s.at)
    {
      hide FindNew, Olds, Renumbered, NumberOf;
      var existing := FindNewReplicaSet(template);
      var maxOldRevision := FindMaxRevision(Olds(all, existing));
      var newRevision := maxOldRevision + 1;
      if existing.Some? {
        var rsCopy := all[existing.value];
        if NeedsRevision(rsCopy, newRevision) {
          if !writeOk {
            return None, true;
          }
          all := all[existing.value := Renumbered(rsCopy, newRevision)];
        } else {
          UnchangedIfNewest(rsCopy, newRevision);
          assert all[existing.value := rsCopy] == all;
        }
        return existing, false;
      }
      if !createIfNotExisted {
        return None, false;
      }
      if !writeOk {
        return None, true;
      }
      var rs := ReplicaSet(name, now, 0, 0, 0, false, false, None, None, Number(newRevision));
      all := all + [Versioned(rs, template, [])];
      return Some(|all| - 1), false;
    }
  }

  lemma UnchangedIfNewest(v: Versioned, revision: int)
    requires !NeedsRevision(v, revision)
    ensures Renumbered(v, revision) == v
  {
  }

  // ---------------------------------------------------------------- what stays true

  ghost predicate Increasing(history: seq<int>, below: int) {
    && (forall i, j :: 0 <= i < j < |history| ==> history[i] < history[j])
    && (forall i :: 0 <= i < |history| ==> 0 < history[i] < below)
  }

  ghost predicate SaneOne(v: Versioned) {
    v.rs.revision.Number? && v.rs.revision.n >= 1 && !v.rs.deleting && Increasing(v.history, v.rs.revision.n)
  }

  ghost predicate Apart(a: Versioned, b: Versioned) {
    a.rs.name != b.rs.name && NumberOf(a.rs) != NumberOf(b.rs)
  }

  /** Names and revisions are distinct, and each history lists earlier revisions in order. */
  ghost predicate Sane(all: seq<Versioned>) {
    && (forall i :: 0 <= i < |all| ==> SaneOne(all[i]))
    && (forall i, j :: 0 <= i < j < |all| ==> Apart(all[i], all[j]))
  }

  /** The greatest revision there is. */
  function Top(all: seq<Versioned>): int {
    MaxRevision(all, |all|)
  }

  /** The old ones are all but the new one. */
  lemma OldsAreOthers(all: seq<Versioned>, at: Option<nat>)
    requires at.Some? ==> at.value < |all|
    ensures forall i :: 0 <= i < |all| && at != Some(i) ==> all[i] in Olds(all, at)
    ensures forall v :: v in Olds(all, at) ==> exists i :: 0 <= i < |all| && at != Some(i) && all[i] == v
  {
  }

  lemma ExtendedIncreases(history: seq<int>, last: int, below: int)
    requires Increasing(history, last) && 0 < last < below
    ensures Increasing(Extended(history, last), below)
  {
    hide RevisionText.FirstFit, RevisionText.FormatInt;
  }

  lemma RenumberedIsSane(v: Versioned, revision: int)
    requires SaneOne(v)
    ensures SaneOne(Renumbered(v, revision)) && NumberOf(Renumbered(v, revision).rs) == Max(NumberOf(v.rs), revision)
    ensures Renumbered(v, revision).rs.name == v.rs.name
  {
    hide Extended, Increasing;
    if NumberOf(v.rs) < revision {
      ExtendedIncreases(v.history, NumberOf(v.rs), revision);
    } else {
      assert Increasing(v.history, NumberOf(v.rs));
    }
  }

  /** NextRevision is one more than every old revision, and no more than needed. */
  lemma NextRevisionBounds(all: seq<Versioned>, at: Option<nat>)
    requires at.Some? ==> at.value < |all|
    ensures var m := NextRevision(all, at);
            && m >= 1
            && (forall i :: 0 <= i < |all| && at != Some(i) ==> NumberOf(all[i].rs) < m)
            && (m > 1 ==> exists i :: 0 <= i < |all| && at != Some(i) && NumberOf(all[i].rs) == m - 1)
  {
    hide NumberOf, Olds;
    OldsAreOthers(all, at);
    var olds := Olds(all, at);
    forall i | 0 <= i < |all| && at != Some(i) ensures NumberOf(all[i].rs) < NextRevision(all, at) {
      var j :| 0 <= j < |olds| && olds[j] == all[i];
    }
    if NextRevision(all, at) > 1 {
      var j: nat :| j < |olds| && NumberOf(olds[j].rs) == NextRevision(all, at) - 1;
      assert olds[j] in olds;
    }
  }

  lemma TopIs(all: seq<Versioned>, m: int)
    requires m >= 0 && forall i :: 0 <= i < |all| ==> NumberOf(all[i].rs) <= m
    requires m > 0 ==> exists i :: 0 <= i < |all| && NumberOf(all[i].rs) == m
    ensures Top(all) == m
  {
  }

  /** One ReplicaSet replaced by one with the greatest revision. */
  lemma ReplacedIsSane(all: seq<Versioned>, at: nat, v: Versioned)
    requires Sane(all) && at < |all| && SaneOne(v) && v.rs.name == all[at].rs.name
    requires forall i :: 0 <= i < |all| && i != at ==> NumberOf(all[i].rs) < NumberOf(v.rs)
    ensures Sane(all[at := v]) && Top(all[at := v]) == NumberOf(v.rs)
  {
    hide SaneOne, NumberOf;
    var after := all[at := v];
    forall i, j | 0 <= i < j < |after| ensures Apart(after[i], after[j]) {
      assert Apart(all[i], all[j]);
    }
    assert after[at] == v;
    TopIs(after, NumberOf(v.rs)) by {
      SaneIsPositive(v);
    }
  }

  lemma AddedIsSane(all: seq<Versioned>, v: Versioned)
    requires Sane(all) && SaneOne(v)
    requires forall i :: 0 <= i < |all| ==> all[i].rs.name != v.rs.name && NumberOf(all[i].rs) < NumberOf(v.rs)
    ensures Sane(all + [v]) && Top(all + [v]) == NumberOf(v.rs)
  {
  }

  lemma SaneIsPositive(v: Versioned)
    requires SaneOne(v)
    ensures NumberOf(v.rs) >= 1
  {
  }

  /** A sync that finds or creates the new ReplicaSet leaves it with the strictly greatest
      revision; when it writes one, that number is one above every number in use, and nothing
      else changes. */
  lemma SyncMakesNewest(all: seq<Versioned>, template: int, create: bool, name: int, now: int)
    requires Sane(all) && forall i :: 0 <= i < |all| ==> all[i].rs.name != name
    ensures var s := SyncRevision(all, template, create, name, now);
            && Sane(s.all)
            && (s.at.Some? ==>
                  && s.all[s.at.value].template == template
                  && forall i :: 0 <= i < |s.all| && i != s.at.value ==>
                       NumberOf(s.all[i].rs) < NumberOf(s.all[s.at.value].rs))
            && (if s.wrote then s.at.Some? && NumberOf(s.all[s.at.value].rs) == Top(all) + 1 == Top(s.all)
                else s.all == all)
            && (forall i :: 0 <= i < |all| && s.at != Some(i) ==> s.all[i] == all[i])
  {
    hide Renumbered, Olds, NumberOf, SaneOne, Apart, MaxRevision, NextRevision;
    var at := FindNew(all, template, |all|);
    var revision := NextRevision(all, at);
    NextRevisionBounds(all, at);
    var s := SyncRevision(all, template, create, name, now);
    if at.Some? {
      RenumberedIsSane(all[at.value], revision);
      RenumberedTemplate(all[at.value], revision);
      ReplacedIsSane(all, at.value, s.all[at.value]);
      if s.wrote {
        TopIs(all, revision - 1);
      } else {
        assert s.all == all;
      }
    } else if create {
      CreatedIsSane(name, now, revision, template);
      AddedIsSane(all, s.all[|all|]);
      TopIs(all, revision - 1);
    }
  }

  lemma RenumberedTemplate(v: Versioned, revision: int)
    ensures Renumbered(v, revision).template == v.template
    ensures !NeedsRevision(v, revision) ==> Renumbered(v, revision) == v
  {
  }

  lemma CreatedIsSane(name: int, now: int, revision: int, template: int)
    requires revision >= 1
    ensures var rs := ReplicaSet(name, now, 0, 0, 0, false, false, None, None, Number(revision));
            SaneOne(Versioned(rs, template, [])) && NumberOf(rs) == revision && rs.name == name
  {
  }

  // ---------------------------------------------------------------- cleanup and the greatest revision

  lemma {:induction false} KeepIsSane(all: seq<Versioned>, gone: seq<ReplicaSet>)
    requires Sane(all)
    ensures Sane(Keep(all, gone))
  {
    hide SaneOne, Apart;
    if all != [] {
      KeepIsSane(all[1..], gone);
      forall v | v in Keep(all[1..], gone) ensures Apart(all[0], v) {
        assert v in all[1..];
      }
    }
  }

  lemma BareElements(vs: seq<Versioned>)
    ensures forall rs :: rs in Bare(vs) ==> exists v :: v in vs && v.rs == rs
    ensures forall v :: v in vs ==> v.rs in Bare(vs)
  {
  }

  lemma BareOldsAreDistinct(all: seq<Versioned>, at: Option<nat>)
    requires Sane(all) && (at.Some? ==> at.value < |all|)
    ensures DistinctNames(Bare(Olds(all, at)))
  {
  }

  lemma BareOldsAreFit(all: seq<Versioned>, at: Option<nat>)
    requires Sane(all) && (at.Some? ==> at.value < |all|)
    ensures DistinctNames(Bare(Olds(all, at))) && Sortable(ByRevision, History.Alive(Bare(Olds(all, at))))
    ensures forall rs :: rs in Bare(Olds(all, at)) ==> exists i :: 0 <= i < |all| && at != Some(i) && all[i].rs == rs
    ensures forall i :: 0 <= i < |all| && at != Some(i) ==> all[i].rs in Bare(Olds(all, at))
  {
    hide Increasing, Olds, Bare, Apart;
    BareOldsAreDistinct(all, at);
    OldsAreOthers(all, at);
    BareElements(Olds(all, at));
    forall rs | rs in Bare(Olds(all, at))
      ensures !rs.revision.Unparsable? && exists i :: 0 <= i < |all| && at != Some(i) && all[i].rs == rs
    {
      var v :| v in Olds(all, at) && v.rs == rs;
      var i :| 0 <= i < |all| && at != Some(i) && all[i] == v;
      assert SaneOne(all[i]);
    }
  }

  /** The position of the greatest revision. */
  ghost predicate IsTop(all: seq<Versioned>, t: nat) {
    t < |all| && forall i :: 0 <= i < |all| ==> NumberOf(all[i].rs) <= NumberOf(all[t].rs)
  }

  lemma SamePlace(all: seq<Versioned>, i: nat, j: nat)
    requires Sane(all) && i < |all| && j < |all|
    ensures NumberOf(all[i].rs) == NumberOf(all[j].rs) || all[i].rs == all[j].rs ==> i == j
  {
  }

  lemma NothingIsNewerThanTop(all: seq<Versioned>, at: Option<nat>, t: nat)
    requires Sane(all) && (at.Some? ==> at.value < |all|) && IsTop(all, t) && at != Some(t)
    ensures History.Newer(all[t].rs, Bare(Olds(all, at))) == {}
  {
  }

  /** When cleanup loses the greatest revision: a complete pass deletes that ReplicaSet exactly
      when it is not the new one, it is drained, and the limit is zero. */
  lemma CleanupLosesTopIff(all: seq<Versioned>, at: Option<nat>, d: Deployment, budget: nat, t: nat)
    requires Sane(all) && (at.Some? ==> at.value < |all|) && IsTop(all, t)
    requires History.ValidLimit(d) && !Gone(all, at, d, budget).failed
    ensures all[t].rs in Gone(all, at, d, budget).gone
            <==> at != Some(t) && History.Drained(all[t].rs) && d.revisionHistoryLimit == Some(0)
  {
    hide Olds, Bare, History.CleanedUp, History.Newer, History.Drained, Increasing;
    BareOldsAreFit(all, at);
    if !History.HasRevisionHistoryLimit(d) {
      NoLimitNoCleanup(Bare(Olds(all, at)), d, budget);
    } else {
      History.CleanupDeletesExactly(Bare(Olds(all, at)), d, budget, all[t].rs);
      assert SaneOne(all[t]);
      if at != Some(t) {
        NothingIsNewerThanTop(all, at, t);
      } else if all[t].rs in Bare(Olds(all, at)) {
        var i :| 0 <= i < |all| && at != Some(i) && all[i].rs == all[t].rs;
        SamePlace(all, i, t);
        assert false;
      }
    }
  }

  lemma NoLimitNoCleanup(olds: seq<ReplicaSet>, d: Deployment, budget: nat)
    requires History.ValidLimit(d) && !History.HasRevisionHistoryLimit(d)
    ensures History.CleanedUp(olds, d, budget).gone == []
  {
  }

  /** A cleanup that knows the new ReplicaSet, or is to keep at least one old one, never loses
      the greatest revision, complete or not. */
  lemma CleanupKeepsTop(all: seq<Versioned>, at: Option<nat>, d: Deployment, budget: nat)
    requires Sane(all) && (at.Some? ==> at.value < |all| && IsTop(all, at.value))
    requires History.ValidLimit(d) && (at.Some? || d.revisionHistoryLimit != Some(0))
    ensures Top(Keep(all, Gone(all, at, d, budget).gone)) == Top(all)
  {
    hide Olds, Bare, History.CleanedUp, History.Newer, History.Drained, Increasing, NumberOf;
    var gone := Gone(all, at, d, budget).gone;
    var kept := Keep(all, gone);
    if all == [] {
      assert kept == [];
    } else {
      var t: nat := TopPosition(all);
      TopSurvives(all, at, d, budget, t);
      assert all[t] in kept;
      var j :| 0 <= j < |kept| && kept[j] == all[t];
      TopIs(all, NumberOf(all[t].rs)) by {
        PositiveNumber(all, t);
      }
      TopIs(kept, NumberOf(all[t].rs)) by {
        PositiveNumber(all, t);
        forall i | 0 <= i < |kept| ensures NumberOf(kept[i].rs) <= NumberOf(all[t].rs) {
          assert kept[i] in all;
        }
      }
    }
  }

  lemma PositiveNumber(all: seq<Versioned>, t: nat)
    requires Sane(all) && t < |all|
    ensures NumberOf(all[t].rs) >= 1
  {
  }

  lemma TopPosition(all: seq<Versioned>) returns (t: nat)
    requires Sane(all) && all != []
    ensures IsTop(all, t)
  {
    hide NumberOf;
    PositiveNumber(all, 0);
    assert forall i :: 0 <= i < |all| ==> NumberOf(all[i].rs) <= Top(all);
    var p :| 0 <= p < |all| && NumberOf(all[p].rs) == Top(all);
    t := p;
  }

  lemma TopSurvives(all: seq<Versioned>, at: Option<nat>, d: Deployment, budget: nat, t: nat)
    requires Sane(all) && (at.Some? ==> at.value < |all| && IsTop(all, at.value)) && IsTop(all, t)
    requires History.ValidLimit(d) && (at.Some? || d.revisionHistoryLimit != Some(0))
    ensures all[t].rs !in Gone(all, at, d, budget).gone
  {
    hide Olds, Bare, History.CleanedUp, History.Newer, History.Drained, Increasing;
    BareOldsAreFit(all, at);
    if !History.HasRevisionHistoryLimit(d) {
      NoLimitNoCleanup(Bare(Olds(all, at)), d, budget);
    } else {
      History.CleanupDeletesExactly(Bare(Olds(all, at)), d, budget, all[t].rs);
      if at.Some? {
        SamePlace(all, at.value, t);
        if all[t].rs in Bare(Olds(all, at)) {
          var i :| 0 <= i < |all| && at != Some(i) && all[i].rs == all[t].rs;
          SamePlace(all, i, t);
          assert false;
        }
      } else {
        NothingIsNewerThanTop(all, at, t);
      }
    }
  }

  // ---------------------------------------------------------------- whole runs

  datatype Event =
    | Reconcile(template: int, create: bool, name: int, now: int, ok: bool,  // a sync, whose write may be refused,
                cleanup: bool, d: Deployment, budget: nat)                   // and perhaps a cleanup after it
    | Resize(k: nat, spec: int, available: int, replicas: int, observed: bool)

  function Apply(all: seq<Versioned>, e: Event): seq<Versioned> {
    match e
    case Reconcile(template, create, name, now, ok, cleanup, d, budget) =>
      var s := SyncRevision(all, template, create, name, now);
      if s.wrote && !ok then all
      else if cleanup && History.ValidLimit(d) then Keep(s.all, Gone(s.all, s.at, d, budget).gone)
      else s.all
    case Resize(k, spec, available, replicas, observed) =>
      if k >= |all| then all
      else all[k := all[k].(rs := all[k].rs.(spec := spec, available := available, replicas := replicas, observed := observed))]
  }

  /** The number an event assigns, if any. */
  function Assigned(all: seq<Versioned>, e: Event): seq<int> {
    match e
    case Reconcile(template, create, name, now, ok, _, _, _) =>
      var s := SyncRevision(all, template, create, name, now);
      if s.wrote && ok && s.at.Some? then [NumberOf(s.all[s.at.value].rs)] else []
    case Resize(_, _, _, _, _) => []
  }

  function Run(all: seq<Versioned>, run: seq<Event>): seq<Versioned>
    decreases run
  {
    if run == [] then all else Run(Apply(all, run[0]), run[1..])
  }

  /** All numbers assigned along a run, in order. */
  function AllAssigned(all: seq<Versioned>, run: seq<Event>): seq<int>
    decreases run
  {
    if run == [] then [] else Assigned(all, run[0]) + AllAssigned(Apply(all, run[0]), run[1..])
  }

  /** New ReplicaSets get new names, and no cleanup runs that is to keep nothing and does not
      know the new ReplicaSet. */
  ghost predicate Careful(all: seq<Versioned>, e: Event) {
    e.Reconcile? ==>
      && (forall i :: 0 <= i < |all| ==> all[i].rs.name != e.name)
      && (e.cleanup ==> SyncRevision(all, e.template, e.create, e.name, e.now).at.Some?
                        || e.d.revisionHistoryLimit != Some(0))
  }

  ghost predicate CarefulRun(all: seq<Versioned>, run: seq<Event>)
    decreases run
  {
    run == [] || (Careful(all, run[0]) && CarefulRun(Apply(all, run[0]), run[1..]))
  }

  lemma ResizeKeepsRevisions(all: seq<Versioned>, e: Event)
    requires Sane(all) && e.Resize?
    ensures Sane(Apply(all, e)) && Top(Apply(all, e)) == Top(all)
  {
    hide Increasing;
    var after := Apply(all, e);
    assert |after| == |all|;
    forall i | 0 <= i < |all|
      ensures SaneOne(after[i]) && NumberOf(after[i].rs) == NumberOf(all[i].rs) && after[i].rs.name == all[i].rs.name
    {
      assert SaneOne(all[i]);
    }
    forall i, j | 0 <= i < j < |all| ensures Apart(after[i], after[j]) {
      assert Apart(all[i], all[j]);
    }
    SameNumbersSameTop(all, after);
  }

  lemma SameNumbersSameTop(a: seq<Versioned>, b: seq<Versioned>)
    requires |a| == |b| && forall i :: 0 <= i < |a| ==> NumberOf(a[i].rs) == NumberOf(b[i].rs)
    ensures Top(a) == Top(b)
  {
  }

  lemma ReconcileAdvances(all: seq<Versioned>, e: Event)
    requires Sane(all) && Careful(all, e) && e.Reconcile?
    ensures Sane(Apply(all, e))
    ensures || (Assigned(all, e) == [] && Top(Apply(all, e)) == Top(all))
            || (Assigned(all, e) == [Top(all) + 1] && Top(Apply(all, e)) == Top(all) + 1)
  {
    hide Sane, Keep, Gone, Top, NumberOf, SyncRevision;
    SyncMakesNewest(all, e.template, e.create, e.name, e.now);
    var s := SyncRevision(all, e.template, e.create, e.name, e.now);
    if e.cleanup && History.ValidLimit(e.d) && !(s.wrote && !e.ok) {
      KeepIsSane(s.all, Gone(s.all, s.at, e.d, e.budget).gone);
      CleanupKeepsTop(s.all, s.at, e.d, e.budget);
    }
  }

  ghost predicate StrictlyIncreasing(ns: seq<int>, above: int) {
    (forall i :: 0 <= i < |ns| ==> above < ns[i]) && forall i, j :: 0 <= i < j < |ns| ==> ns[i] < ns[j]
  }

  /** Revisions over a whole run: names and revisions stay distinct and histories in order, and
      every number assigned is above all numbers there were and all assigned before it. */
  lemma {:induction false} NumbersAreNeverReused(all: seq<Versioned>, run: seq<Event>)
    requires Sane(all) && CarefulRun(all, run)
    ensures Sane(Run(all, run))
    ensures StrictlyIncreasing(AllAssigned(all, run), Top(all))
    decreases run
  {
    hide Sane, Apply, Assigned, Careful, Top;
    if run != [] {
      if run[0].Reconcile? {
        ReconcileAdvances(all, run[0]);
      } else {
        ResizeKeepsRevisions(all, run[0]);
        ResizeAssignsNothing(all, run[0]);
      }
      NumbersAreNeverReused(Apply(all, run[0]), run[1..]);
    }
  }

  lemma ResizeAssignsNothing(all: seq<Versioned>, e: Event)
    requires e.Resize?
    ensures Assigned(all, e) == []
  {
  }

  /** The condition matters: a paused Deployment with a limit of zero and no ReplicaSet for its
      template deletes its only, drained ReplicaSet, and the next one reuses revision 1. */
  lemma ZeroLimitReusesRevisions() returns (all: seq<Versioned>, run: seq<Event>)
    ensures Sane(all) && Top(all) == 1
    ensures |run| == 2 && AllAssigned(all, run) == [1]
  {
    var rs := ReplicaSet(0, 0, 0, 0, 0, true, false, None, None, Number(1));
    all := [Versioned(rs, 5, [])];
    var d := Deployment(1, RollingUpdate, None, None, 0, Some(0));
    var prune := Reconcile(6, false, 1, 10, true, true, d, 9);
    var create := Reconcile(6, true, 1, 20, true, false, d, 9);
    run := [prune, create];
    assert NumberOf(all[0].rs) == 1;
    TopIs(all, 1);
    PrunedAway(all[0], d, prune);
    CreatedFirst(create);
    TwoEvents(all, prune, create);
  }

  lemma PrunedAway(v: Versioned, d: Deployment, e: Event)
    requires v.rs.revision == Number(1) && History.Drained(v.rs) && !v.rs.deleting && v.template != 6
    requires d.revisionHistoryLimit == Some(0) && e == Reconcile(6, false, 1, 10, true, true, d, 9)
    ensures Apply([v], e) == [] && Assigned([v], e) == []
  {
    hide History.CleanedUp, MaxRevision;
    OnlyOne(v, d);
  }

  lemma CreatedFirst(e: Event)
    requires e.Reconcile? && e.create
    ensures e.ok ==> Assigned([], e) == [1]
  {
    assert MaxRevision([], 0) == 0 && FindNew([], e.template, 0).None?;
  }

  lemma TwoEvents(all: seq<Versioned>, a: Event, b: Event)
    ensures AllAssigned(all, [a, b]) == Assigned(all, a) + Assigned(Apply(all, a), b)
  {
    hide Assigned, Apply;
    assert [a, b][1..] == [b] && [b][1..] == [];
    assert AllAssigned(Apply(all, a), [b]) == Assigned(Apply(all, a), b) + AllAssigned(Apply(Apply(all, a), b), []);
  }

  lemma OnlyOne(v: Versioned, d: Deployment)
    requires v.rs.revision == Number(1) && History.Drained(v.rs) && !v.rs.deleting && v.template != 6
    requires d.revisionHistoryLimit == Some(0)
    ensures FindNew([v], 6, 1).None? && Keep([v], Gone([v], None, d, 9).gone) == []
  {
    assert FindNew([v], 6, 0).None?;
    DeletesOnlyOne(v.rs, d);
    assert Bare([v]) == [v.rs];
  }

  lemma DeletesOnlyOne(rs: ReplicaSet, d: Deployment)
    requires History.Drained(rs) && !rs.deleting && d.revisionHistoryLimit == Some(0)
    ensures History.CleanedUp([rs], d, 9).gone == [rs]
  {
    assert History.Alive([rs]) == [rs];
    assert Sort(ByRevision, [rs]) == [rs];
    assert History.Prune([rs], 1, 1, 9, [rs]) == History.Pruning([rs], false);
  }
}
