/** What one sync does to the revision of a ReplicaSet, told by numbers and annotation texts. */
module RevisionCases {
  import opened Common
  import opened ReplicaSets
  import opened Revisions
  import opened RevisionText

  // ---------------------------------------------------------------- numbers

  /** The greatest readable revision of the others, and never below 0. */
  ghost predicate GreatestOther(all: seq<Versioned>, at: Option<nat>, greatest: int) {
    && greatest >= 0
    && (forall i :: 0 <= i < |all| && at != Some(i) && all[i].rs.revision.Number? ==> all[i].rs.revision.n <= greatest)
    && (greatest > 0 ==>
          exists i :: 0 <= i < |all| && at != Some(i) && all[i].rs.revision == Number(greatest))
  }

  lemma OldsAt(all: seq<Versioned>, at: Option<nat>, i: nat)
    requires (at.Some? ==> at.value < |all|) && i < |all| && at != Some(i)
    ensures var j := if at.Some? && i > at.value then i - 1 else i;
            j < |Olds(all, at)| && Olds(all, at)[j] == all[i]
  {
  }

  lemma OthersAt(all: seq<Versioned>, at: Option<nat>, j: nat)
    requires (at.Some? ==> at.value < |all|) && j < |Olds(all, at)|
    ensures var i := if at.Some? && j >= at.value then j + 1 else j;
            i < |all| && at != Some(i) && Olds(all, at)[j] == all[i]
  {
  }

  lemma OldsAreTheOthers(all: seq<Versioned>, at: Option<nat>)
    requires at.Some? ==> at.value < |all|
    ensures var greatest := MaxRevision(Olds(all, at), |Olds(all, at)|); GreatestOther(all, at, greatest)
  {
    hide MaxRevision, Olds;
    var olds := Olds(all, at);
    var greatest := MaxRevision(olds, |olds|);
    forall i | 0 <= i < |all| && at != Some(i) && all[i].rs.revision.Number? ensures all[i].rs.revision.n <= greatest {
      OldsAt(all, at, i);
      assert NumberOf(olds[if at.Some? && i > at.value then i - 1 else i].rs) <= greatest;
    }
    if greatest > 0 {
      var j :| 0 <= j < |olds| && NumberOf(olds[j].rs) == greatest;
      OthersAt(all, at, j);
      var i := if at.Some? && j >= at.value then j + 1 else j;
      assert all[i].rs.revision == Number(greatest);
    }
  }

  /** A ReplicaSet keeps a revision that cannot be read, or that is above those of all the others;
      a smaller one becomes the next number, and goes into the history if it was written. */
  predicate Renumbers(before: Versioned, after: Versioned, greatest: int, wrote: bool) {
    match before.rs.revision
    case Unparsable => after == before && !wrote
    case Absent => wrote && after == before.(rs := before.rs.(revision := Number(greatest + 1)))
    case Number(n) =>
      if n > greatest then after == before && !wrote
      else && wrote && after.rs == before.rs.(revision := Number(greatest + 1))
           && after == before.(rs := after.rs, history := after.history)
           && (|FormatInt(n)| <= 2000 ==> after.history != [] && after.history[|after.history| - 1] == n)
  }

  lemma RenumberedRenumbers(v: Versioned, greatest: int)
    requires greatest >= 0
    ensures Renumbers(v, Renumbered(v, greatest + 1), greatest, NeedsRevision(v, greatest + 1))
  {
    hide Extended, FormatInt;
    ExtendedEndsWith(v.history, NumberOf(v.rs));
  }

  /** What a sync does: the ReplicaSet it finds for the template is renumbered; without one, one is
      created with the next number, or nothing happens. */
  lemma SyncCases(all: seq<Versioned>, template: int, create: bool, name: int, now: int) returns (greatest: int)
    ensures var s := SyncRevision(all, template, create, name, now);
            && GreatestOther(all, if s.at.Some? && s.at.value < |all| then s.at else None, greatest)
            && if exists i :: 0 <= i < |all| && all[i].template == template then
                 && s.at.Some? && s.at.value < |all| == |s.all| && all[s.at.value].template == template
                 && (forall i :: 0 <= i < |all| && i != s.at.value ==> s.all[i] == all[i])
                 && Renumbers(all[s.at.value], s.all[s.at.value], greatest, s.wrote)
               else if create then
                 && s.wrote && s.at == Some(|all|)
                 && s.all == all + [Versioned(ReplicaSet(name, now, 0, 0, 0, false, false, None, None, Number(greatest + 1)),
                                              template, [])]
               else s == Synced(all, None, false)
  {
    hide MaxRevision, Olds, GreatestOther, Renumbered, NeedsRevision, Renumbers;
    var at := FindNew(all, template, |all|);
    OldsAreTheOthers(all, at);
    greatest := MaxRevision(Olds(all, at), |Olds(all, at)|);
    GreatestIsNatural(all, at, greatest);
    if at.Some? {
      assert all[at.value].template == template;
      RenumberedRenumbers(all[at.value], greatest);
    }
  }

  lemma ExtendedEndsWith(history: seq<int>, last: int)
    ensures |FormatInt(last)| <= 2000 ==>
              Extended(history, last) != [] && Extended(history, last)[|Extended(history, last)| - 1] == last
  {
    hide Join, FormatInt;
    if history != [] {
      var texts := Texts(history);
      JoinOfLast(texts, FormatInt(last));
      assert |FormatInt(last)| <= 2000 ==> FitsFrom(texts, |texts|, FormatInt(last), MAX_HISTORY_CHARS);
    }
  }

  lemma GreatestIsNatural(all: seq<Versioned>, at: Option<nat>, greatest: int)
    requires GreatestOther(all, at, greatest)
    ensures greatest >= 0
  {
  }

  // ---------------------------------------------------------------- texts

  /** strconv.ParseInt: an optional sign and digits, within 64 bits. */
  lemma ParseReads(n: nat)
    ensures ParseInt(Digits(n)) == ParseInt("+" + Digits(n)) == if n < 0x8000_0000_0000_0000 then Some(n) else None
    ensures if n <= 0x8000_0000_0000_0000 then ParseInt("-" + Digits(n)).Some? && ParseInt("-" + Digits(n)).value == 0 - n
            else ParseInt("-" + Digits(n)) == None
  {
    hide ParseDigits, Digits, DigitOf;
    ParseOfDigits(n);
    var digits := Digits(n);
    assert ("+" + digits)[1..] == digits && ("-" + digits)[1..] == digits;
    assert IsDigit(digits[0]);
    MinusIsNegative(digits);
  }

  lemma MinusIsNegative(digits: string)
    ensures ("+" + digits)[0] == '+' && ("-" + digits)[0] == '-'
  {
  }

  /** Anything else is an error. */
  lemma OnlyNumbersParse(s: string)
    ensures ParseInt(s).Some? ==>
              |s| > 0 && forall k :: 0 <= k < |s| ==> '0' <= s[k] <= '9' || (k == 0 && |s| > 1 && s[0] in {'+', '-'})
  {
    hide ParseDigits;
    OnlyDigitsParse(s);
    if |s| > 0 {
      OnlyDigitsParse(s[1..]);
      assert forall k :: 1 <= k < |s| ==> s[k] == s[1..][k - 1];
    }
  }

  lemma {:induction false} OnlyDigitsParse(s: string)
    ensures ParseDigits(s).Some? ==> |s| > 0 && forall k :: 0 <= k < |s| ==> '0' <= s[k] <= '9'
  {
    if |s| > 1 {
      OnlyDigitsParse(s[..|s| - 1]);
      assert forall k :: 0 <= k < |s| - 1 ==> s[k] == s[..|s| - 1][k];
    }
  }

  /** The history takes the superseded revision at its end and drops as few of its oldest entries
      as the limit asks for; where not even the new entry alone fits, it stays. */
  lemma HistoryIsTrimmed(history: string, last: string, limit: int, k: nat)
    requires k <= |Split(history)| && Split(history)[0] != ""
    ensures var parts := Split(history);
            && (|last| > limit ==> Appended(history, last, limit) == history)
            && (|Join(parts[k..] + [last])| <= limit && (k == 0 || |Join(parts[k - 1..] + [last])| > limit) ==>
                  Appended(history, last, limit) == Join(parts[k..] + [last]))
  {
    hide Join, Split;
    var parts := Split(history);
    var start := FirstFit(parts, 0, last, limit);
    ShorterIsShorter(parts, |parts|, last, if start.Some? then start.value else 0);
    JoinOfLast(parts, last);
    assert FitsFrom(parts, k, last, limit) <==> |Join(parts[k..] + [last])| <= limit;
    if start.Some? {
      ShorterIsShorter(parts, start.value, last, k);
      if k > 0 {
        ShorterIsShorter(parts, k - 1, last, start.value);
      }
    }
  }

  lemma JoinOfLast(parts: seq<string>, last: string)
    ensures |Join(parts[|parts|..] + [last])| == |last|
  {
    assert parts[|parts|..] + [last] == [last];
  }

  lemma {:induction false} ShorterIsShorter(parts: seq<string>, from: nat, last: string, to: nat)
    requires from <= |parts| && to <= |parts|
    ensures to <= from ==> |Join(parts[from..] + [last])| <= |Join(parts[to..] + [last])|
    decreases from
  {
    hide Join;
    if to < from {
      ShorterIsShorter(parts, from - 1, last, to);
      SuffixLength(parts, from - 1, last);
      SuffixLength(parts, from, last);
    }
  }

  /** The annotations afterwards: a revision that is absent or empty counts as 0; nothing changes
      unless both can be read and the new one is greater; then the revision is replaced, and the
      old one, if there was an annotation at all, is appended to the history; all other keys
      stay. */
  lemma AnnotationCases(annotations: map<string, string>, newRevision: string, limit: int)
    ensures var (after, changed) := Stamped(annotations, newRevision, limit);
            var key, historyKey := "deployment.kubernetes.io/revision", "deployment.kubernetes.io/revision-history";
            var old_ := if key in annotations then annotations[key] else "";
            var before := if old_ == "" then Some(0) else ParseInt(old_);
            && (changed <==> before.Some? && ParseInt(newRevision).Some? && before.value < ParseInt(newRevision).value)
            && (!changed ==> after == annotations)
            && (changed ==> key in after && after[key] == newRevision)
            && (forall k :: k != key && k != historyKey ==>
                  (k in after <==> k in annotations) && (k in annotations ==> after[k] == annotations[k]))
            && (changed && key !in annotations ==> (historyKey in after <==> historyKey in annotations)
                                                   && (historyKey in annotations ==> after[historyKey] == annotations[historyKey]))
            && (changed && key in annotations ==>
                  && historyKey in after
                  && after[historyKey] == if historyKey !in annotations || Split(annotations[historyKey])[0] == "" then old_
                                          else Appended(annotations[historyKey], old_, limit))
  {
    hide ParseInt, Appended;
    EmptyFirst(Lookup(annotations, REVISION_HISTORY), Lookup(annotations, REVISION), limit);
    DistinctKeys();
  }

  lemma EmptyFirst(history: string, last: string, limit: int)
    ensures Split("")[0] == ""
    ensures Split(history)[0] == "" ==> Appended(history, last, limit) == last
  {
  }

  lemma DistinctKeys()
    ensures REVISION != REVISION_HISTORY
  {
    assert |REVISION| != |REVISION_HISTORY|;
  }
}
