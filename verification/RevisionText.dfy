/** Revision annotations as text: decimal numbers, comma-separated histories, and the history
    that stays within a number of characters. */
module RevisionText {
  import opened Common

  const MIN_INT64: int := -0x8000_0000_0000_0000
  const MAX_INT64: int := 0x7fff_ffff_ffff_ffff

  // ---------------------------------------------------------------- numbers

  function DigitOf(n: nat): char
    requires n < 10
  {
    (n + '0' as int) as char
  }

  predicate IsDigit(c: char) {
    '0' <= c <= '9'
  }

  function Digits(n: nat): (s: string)
    ensures s != "" && forall k :: 0 <= k < |s| ==> IsDigit(s[k])
  {
    if n < 10 then [DigitOf(n)] else Digits(n / 10) + [DigitOf(n % 10)]
  }

  /** strconv.FormatInt in base 10. */
  function FormatInt(n: int): string {
    if n < 0 then "-" + Digits(-n) else Digits(n)
  }

  function ParseDigits(s: string): Option<nat> {
    if s == "" then None
    else if !IsDigit(s[|s| - 1]) then None
    else
      var low := s[|s| - 1] as int - '0' as int;
      if |s| == 1 then Some(low)
      else
        var high := ParseDigits(s[..|s| - 1]);
        if high.None? then None else Some(10 * high.value + low)
  }

  /** strconv.ParseInt for 64 bits in base 10; None stands for an error. */
  function ParseInt(s: string): Option<int> {
    var negative := s != "" && s[0] == '-';
    var digits := ParseDigits(if s != "" && (s[0] == '-' || s[0] == '+') then s[1..] else s);
    if digits.None? then None
    else
      var size: int := digits.value;
      var n := if negative then -size else size;
      if MIN_INT64 <= n <= MAX_INT64 then Some(n) else None
  }

  lemma DigitValue(d: nat)
    requires d < 10
    ensures IsDigit(DigitOf(d)) && DigitOf(d) as int - '0' as int == d
  {
  }

  lemma ParseSnoc(s: string, d: nat)
    requires d < 10
    ensures ParseDigits(s + [DigitOf(d)])
         == if s == "" then Some(d)
            else if ParseDigits(s).None? then None
            else Some(10 * ParseDigits(s).value + d)
  {
    hide DigitOf, IsDigit;
    var t := s + [DigitOf(d)];
    assert t[..|t| - 1] == s && t[|t| - 1] == DigitOf(d);
    DigitValue(d);
  }

  lemma {:induction false} ParseOfDigits(n: nat)
    ensures ParseDigits(Digits(n)) == Some(n)
  {
    hide ParseDigits, DigitOf;
    if n < 10 {
      ParseSnoc("", n);
      assert Digits(n) == "" + [DigitOf(n)];
    } else {
      ParseOfDigits(n / 10);
      ParseSnoc(Digits(n / 10), n % 10);
    }
  }

  /** A revision written out reads back. */
  lemma ParseFormatRoundTrip(n: int)
    requires MIN_INT64 <= n <= MAX_INT64
    ensures ParseInt(FormatInt(n)) == Some(n)
  {
    hide ParseDigits, Digits, DigitOf;
    ParseOfDigits(if n < 0 then -n else n);
    var s := FormatInt(n);
    if n < 0 {
      assert s[1..] == Digits(-n);
    } else {
      assert IsDigit(s[0]);
    }
  }

  /** A revision never contains the separator. */
  lemma FormatHasNoComma(n: int)
    ensures ',' !in FormatInt(n) && FormatInt(n) != ""
  {
  }

  // ---------------------------------------------------------------- lists

  /** strings.Join with commas. */
  function Join(parts: seq<string>): string {
    if parts == [] then ""
    else if |parts| == 1 then parts[0]
    else parts[0] + "," + Join(parts[1..])
  }

  /** strings.Split at commas: always at least one part. */
  function Split(s: string): (parts: seq<string>)
    ensures parts != []
  {
    if s == "" then [""]
    else
      var rest := Split(s[1..]);
      if s[0] == ',' then [""] + rest
      else [[s[0]] + rest[0]] + rest[1..]
  }

  lemma JoinCons(first: string, rest: seq<string>)
    requires rest != []
    ensures Join([""] + rest) == "," + Join(rest)
    ensures Join([first + rest[0]] + rest[1..]) == first + Join(rest)
  {
    assert ([""] + rest)[1..] == rest;
    assert ([first + rest[0]] + rest[1..])[1..] == rest[1..];
  }

  lemma {:induction false} JoinOfSplit(s: string)
    ensures Join(Split(s)) == s
  {
    hide Join;
    if s == "" {
      JoinOfOne("");
    } else {
      JoinOfSplit(s[1..]);
      JoinCons([s[0]], Split(s[1..]));
      assert s == [s[0]] + s[1..];
    }
  }

  lemma JoinOfOne(text: string)
    ensures Join([text]) == text
  {
  }

  lemma {:induction false} SplitAtComma(a: string, b: string)
    requires ',' !in a
    ensures Split(a + "," + b) == [a] + Split(b)
    ensures Split(a) == [a]
  {
    if a == "" {
      assert (a + "," + b)[1..] == b;
    } else {
      SplitAtComma(a[1..], b);
      assert (a + "," + b)[1..] == a[1..] + "," + b;
      assert [a[0]] + a[1..] == a;
    }
  }

  /** Splitting what was joined gives the parts back, when none contains a comma. */
  lemma {:induction false} SplitOfJoin(parts: seq<string>)
    requires parts != [] && forall k :: 0 <= k < |parts| ==> ',' !in parts[k]
    ensures Split(Join(parts)) == parts
  {
    if |parts| == 1 {
      SplitAtComma(parts[0], "");
    } else {
      SplitOfJoin(parts[1..]);
      SplitAtComma(parts[0], Join(parts[1..]));
      assert parts == [parts[0]] + parts[1..];
    }
  }

  function LengthOf(parts: seq<string>): nat {
    if parts == [] then 0 else |parts[0]| + 1 + LengthOf(parts[1..])
  }

  lemma JoinLength(parts: seq<string>)
    requires parts != []
    ensures |Join(parts)| == LengthOf(parts) - 1
  {
  }

  lemma {:induction false} LengthSnoc(parts: seq<string>, x: string)
    ensures LengthOf(parts + [x]) == LengthOf(parts) + |x| + 1
  {
    if parts != [] {
      assert (parts + [x])[1..] == parts[1..] + [x];
      LengthSnoc(parts[1..], x);
    }
  }

  // ---------------------------------------------------------------- the history

  /** The parts from `start` on with `last` appended fit the limit once joined. */
  predicate FitsFrom(parts: seq<string>, start: nat, last: string, limit: int)
    requires start <= |parts|
  {
    |Join(parts[start..] + [last])| <= limit
  }

  /** The longest suffix of `parts` that still fits with `last` appended: where it starts. */
  function FirstFit(parts: seq<string>, start: nat, last: string, limit: int): (r: Option<nat>)
    requires start <= |parts|
    ensures r.Some? ==> start <= r.value <= |parts| && FitsFrom(parts, r.value, last, limit)
    ensures forall k :: start <= k < (if r.Some? then r.value else |parts| + 1) ==> !FitsFrom(parts, k, last, limit)
    decreases |parts| - start
  {
    if FitsFrom(parts, start, last, limit) then Some(start)
    else if start == |parts| then None
    else FirstFit(parts, start + 1, last, limit)
  }

  /** The history annotation once `last` has been superseded; an empty first entry starts the
      history over, and a history that cannot take `last` stays as it is. */
  function Appended(history: string, last: string, limit: int): string {
    var parts := Split(history);
    if parts[0] == "" then last
    else
      var start := FirstFit(parts, 0, last, limit);
      if start.None? then history else Join(parts[start.value..] + [last])
  }

  const REVISION := "deployment.kubernetes.io/revision"
  const REVISION_HISTORY := "deployment.kubernetes.io/revision-history"

  function Lookup(annotations: map<string, string>, key: string): string {
    if key in annotations then annotations[key] else ""
  }

  /** The revision part of SetNewReplicaSetAnnotations: the annotations afterwards, and whether
      the revision changed. */
  function Stamped(annotations: map<string, string>, newRevision: string, limit: int): (map<string, string>, bool) {
    var oldRevision := Lookup(annotations, REVISION);
    var before := if oldRevision == "" then Some(0) else ParseInt(oldRevision);
    var after := ParseInt(newRevision);
    if before.None? || after.None? || before.value >= after.value then (annotations, false)
    else
      var stamped := annotations[REVISION := newRevision];
      if REVISION !in annotations then (stamped, true)
      else (stamped[REVISION_HISTORY := Appended(Lookup(annotations, REVISION_HISTORY), oldRevision, limit)], true)
  }

  lemma SuffixLength(parts: seq<string>, start: nat, last: string)
    requires start <= |parts|
    ensures |Join(parts[start..] + [last])| == LengthOf(parts[start..]) + |last|
    ensures start < |parts| ==> LengthOf(parts[start..]) == LengthOf(parts[start + 1..]) + |parts[start]| + 1
  {
    LengthSnoc(parts[start..], last);
    JoinLength(parts[start..] + [last]);
    if start < |parts| {
      assert parts[start..][1..] == parts[start + 1..];
    }
  }

  /** A ReplicaSet whose annotations the controller edits in place. */
  class AnnotatedReplicaSet {
    var annotations: map<string, string>

    constructor (annotations: map<string, string>)
      ensures this.annotations == annotations
    {
      this.annotations := annotations;
    }

    method SetRevision(newRevision: string, revHistoryLimitInChars: int) returns (changed: bool)
      modifies this
      ensures (annotations, changed) == Stamped(old(annotations), newRevision, revHistoryLimitInChars)
    {
      hide ParseInt, Join, Split, FitsFrom;
      changed := false;
      var oldRevision, ok := Lookup(annotations, REVISION), REVISION in annotations;
      var oldRevisionInt := ParseInt(oldRevision);
      if oldRevisionInt.None? {
        if oldRevision != "" {
          return false;
        }
        oldRevisionInt := Some(0);
      }
      EmptyIsNoNumber();
      var newRevisionInt := ParseInt(newRevision);
      if newRevisionInt.None? {
        return false;
      }
      if oldRevisionInt.value < newRevisionInt.value {
        annotations := annotations[REVISION := newRevision];
        changed := true;
      }
      if ok && oldRevisionInt.value < newRevisionInt.value {
        var revisionHistoryAnnotation := Lookup(annotations, REVISION_HISTORY);
        var oldRevisions := Split(revisionHistoryAnnotation);
        if |oldRevisions[0]| == 0 {
          annotations := annotations[REVISION_HISTORY := oldRevision];
        } else {
          var start, fits := TrimHistory(revisionHistoryAnnotation, oldRevisions, oldRevision, revHistoryLimitInChars);
          if fits {
            annotations := annotations[REVISION_HISTORY := Join(oldRevisions[start..] + [oldRevision])];
          } else {
            SplitOfEmpty();
            assert annotations[REVISION_HISTORY := revisionHistoryAnnotation] == annotations;
          }
        }
      }
    }
  }

  lemma SplitOfEmpty()
    ensures Split("") == [""]
  {
  }

  lemma EmptyIsNoNumber()
    ensures ParseInt("") == None
  {
  }

  /** The loop that drops the oldest entries until the new one fits. */
  method TrimHistory(history: string, oldRevisions: seq<string>, oldRevision: string, limit: int)
    returns (start: nat, fits: bool)
    requires oldRevisions == Split(history)
    ensures start <= |oldRevisions|
    ensures FirstFit(oldRevisions, 0, oldRevision, limit) == if fits then Some(start) else None
  {
    hide Join, Split;
    JoinOfSplit(history);
    SuffixLength(oldRevisions, 0, oldRevision);
    assert oldRevisions[0..] == oldRevisions;
    JoinLength(oldRevisions);
    var totalLen := |history| + |oldRevision| + 1;
    start := 0;
    while totalLen > limit && start < |oldRevisions|
      invariant start <= |oldRevisions|
      invariant totalLen == |Join(oldRevisions[start..] + [oldRevision])|
      invariant FirstFit(oldRevisions, start, oldRevision, limit) == FirstFit(oldRevisions, 0, oldRevision, limit)
    {
      SuffixLength(oldRevisions, start, oldRevision);
      SuffixLength(oldRevisions, start + 1, oldRevision);
      totalLen := totalLen - |oldRevisions[start]| - 1;
      start := start + 1;
    }
    fits := totalLen <= limit;
  }
}
