/**
 * The report aggregator shared by the project-details page and the report page:
 * the four test-case statuses, per-status counts keyed by their labels, and the
 * resolved percentage rounded as `Math.round` rounds.
 */
module Aggregation {

  /** The four-value union 'Pending' | 'In Progress' | 'Passed' | 'Failed'. */
  datatype Status = Pending | InProgress | Passed | Failed

  /** The text of each status, which is also its key in the counts record. */
  function Label(s: Status): string {
    match s
    case Pending => "Pending"
    case InProgress => "In Progress"
    case Passed => "Passed"
    case Failed => "Failed"
  }

  const Labels: set<string> := {"Pending", "In Progress", "Passed", "Failed"}

  lemma LabelsAreDistinct(s: Status, t: Status)
    ensures Label(s) == Label(t) <==> s == t
    ensures Label(s) in Labels
  {
  }

  /** A resolved case is one that was Passed or Failed: both count as "completed". */
  predicate IsResolved(s: Status) {
    s == Passed || s == Failed
  }

  /** `cases.filter(tc => tc.status === s).length`, over the statuses of the cases. */
  function CountOf(ss: seq<Status>, s: Status): (n: nat)
    ensures n <= |ss|
    ensures n == 0 <==> s !in ss
    ensures n == |ss| <==> forall i :: 0 <= i < |ss| ==> ss[i] == s
  {
    if ss == [] then 0
    else
      var last := ss[|ss| - 1];
      var rest := ss[..|ss| - 1];
      assert forall i :: 0 <= i < |rest| ==> rest[i] == ss[i];
      assert s in ss <==> s in rest || last == s;
      CountOf(rest, s) + (if last == s then 1 else 0)
  }

  lemma {:induction false} CountOfAppend(a: seq<Status>, b: seq<Status>, s: Status)
    ensures CountOf(a + b, s) == CountOf(a, s) + CountOf(b, s)
    decreases |b|
  {
    if b == [] {
      assert a + b == a;
    } else {
      var b' := b[..|b| - 1];
      assert (a + b)[..|a + b| - 1] == a + b';
      CountOfAppend(a, b', s);
    }
  }

  /** Since every case carries one of the four statuses, the four counts add up to the number of cases. */
  lemma {:induction false} CountsSumToLength(ss: seq<Status>)
    ensures CountOf(ss, Pending) + CountOf(ss, InProgress) + CountOf(ss, Passed) + CountOf(ss, Failed) == |ss|
  {
    if ss != [] {
      CountsSumToLength(ss[..|ss| - 1]);
    }
  }

  /** The `statusCounts` record: one key per status label, present even when its count is zero. */
  function StatusCounts(ss: seq<Status>): (m: map<string, nat>)
    ensures m.Keys == Labels
    ensures forall s :: m[Label(s)] == CountOf(ss, s)
  {
    map["Pending" := CountOf(ss, Pending),
        "In Progress" := CountOf(ss, InProgress),
        "Passed" := CountOf(ss, Passed),
        "Failed" := CountOf(ss, Failed)]
  }

  lemma StatusCountsAddUp(ss: seq<Status>)
    ensures var m := StatusCounts(ss);
      m["Pending"] + m["In Progress"] + m["Passed"] + m["Failed"] == |ss|
  {
    CountsSumToLength(ss);
  }

  /** `statusCounts.Passed + statusCounts.Failed`. */
  function Resolved(ss: seq<Status>): (n: nat)
    ensures n <= |ss|
  {
    CountsSumToLength(ss);
    CountOf(ss, Passed) + CountOf(ss, Failed)
  }

  /**
   * `Math.round(c / t * 100)` for a positive total: the nearest integer to 100·c/t,
   * halves rounded up. Dafny's `/` on a positive divisor is the floor.
   */
  function RoundPercent(c: int, t: int): (r: int)
    requires t > 0
    ensures 2 * t * r <= 200 * c + t < 2 * t * r + 2 * t
    ensures 0 <= c <= t ==> 0 <= r <= 100
    ensures c == 0 ==> r == 0
    ensures c == t ==> r == 100
  {
    RoundPercentBounds(c, t);
    (200 * c + t) / (2 * t)
  }

  /** Helper: the bounds of the half-up quotient for a share between none and all. */
  lemma RoundPercentBounds(c: int, t: int)
    requires t > 0
    ensures 0 <= c <= t ==> 0 <= (200 * c + t) / (2 * t) <= 100
    ensures c == t ==> (200 * c + t) / (2 * t) == 100
  {
    var a, d := 200 * c + t, 2 * t;
    var q := a / d;
    assert d * q <= a < d * q + d;
    if 0 <= c <= t {
      if q < 0 {
        MulMonotone(d, q, -1);
      }
      if q > 100 {
        MulMonotone(d, 101, q);
      }
    }
    if c == t {
      assert a == d * 100 + t;
      if q < 100 {
        MulMonotone(d, q, 99);
      } else if q > 100 {
        MulMonotone(d, 101, q);
      }
    }
  }

  /** Helper: multiplying by a non-negative factor keeps the order. */
  lemma MulMonotone(k: int, x: int, y: int)
    requires k >= 0 && x <= y
    ensures k * x <= k * y
  {
    assert k * y - k * x == k * (y - x);
  }

  /** `progressPercent`: 0 for no cases, otherwise the rounded share of resolved cases. */
  function ProgressPercent(ss: seq<Status>): (p: int)
    ensures 0 <= p <= 100
    ensures ss == [] ==> p == 0
    ensures ss != [] ==> 2 * |ss| * p <= 200 * Resolved(ss) + |ss| < 2 * |ss| * p + 2 * |ss|
    ensures p == 100 <== ss != [] && Resolved(ss) == |ss|
  {
    if |ss| > 0 then RoundPercent(Resolved(ss), |ss|) else 0
  }

  /**
   * Only whether each case is resolved matters to the resolved count, so turning a Passed
   * case into a Failed one (or back) leaves the progress where it was.
   */
  lemma {:induction false} ResolvedDependsOnResolution(a: seq<Status>, b: seq<Status>)
    requires |a| == |b|
    requires forall i :: 0 <= i < |a| ==> (IsResolved(a[i]) <==> IsResolved(b[i]))
    ensures Resolved(a) == Resolved(b)
    ensures ProgressPercent(a) == ProgressPercent(b)
  {
    if a != [] {
      var n := |a| - 1;
      ResolvedDependsOnResolution(a[..n], b[..n]);
    }
  }

  /** The boundary cases the rounding rule is checked against. */
  lemma ProgressExamples()
    ensures ProgressPercent([Passed, Failed, Pending]) == 67
    ensures ProgressPercent([Passed, InProgress, Pending]) == 33
    ensures ProgressPercent([Passed, Passed, Pending, Pending]) == 50
  {
    assert Resolved([Passed, Failed, Pending]) == 2;
    assert Resolved([Passed, InProgress, Pending]) == 1;
    assert Resolved([Passed, Passed, Pending, Pending]) == 2;
  }
}
