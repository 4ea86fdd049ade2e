/** The usage meter: a static quota table, the admission decision made from a
    stored count, and the per-(user, feature) counter table that successful
    uses increment. */
module UsageTracking {
  import opened Common

  /** The features that are metered. */
  datatype Feature = EssayWrites | CollegeSaves

  /** The plan vocabulary of the meter (`free | plus | pro`). */
  datatype Plan = Free | Plus | Pro

  function Rank(p: Plan): nat {
    match p
    case Free => 0
    case Plus => 1
    case Pro => 2
  }

  /** The quota table. */
  function FeatureLimit(f: Feature, p: Plan): (l: Limit)
    ensures l == Finite(0) <==> f == EssayWrites && p == Free
    ensures l.Unbounded? <==> f == CollegeSaves && p != Free
    ensures l.Finite? ==> l.n <= 100
  {
    match f
    case EssayWrites =>
      (match p
       case Free => Finite(0)
       case Plus => Finite(30)
       case Pro => Finite(100))
    case CollegeSaves =>
      (match p
       case Free => Finite(5)
       case Plus => Unbounded
       case Pro => Unbounded)
  }

  /** `a <= b` on quotas, with Infinity above every number. */
  predicate LimitAtMost(a: Limit, b: Limit) {
    b.Unbounded? || (a.Finite? && a.n <= b.n)
  }

  /** A higher plan never has a smaller quota for any feature. */
  lemma FeatureLimitMonotone(f: Feature, p: Plan, q: Plan)
    requires Rank(p) <= Rank(q)
    ensures LimitAtMost(FeatureLimit(f, p), FeatureLimit(f, q))
  {
  }

  /** What the admission check reports. */
  datatype UsageResponse = UsageResponse(allowed: bool, currentUsage: nat, limit: Limit, remaining: Limit)

  /** The count a successful read supplies: the row's count, 0 without a row. */
  function StoredCount(read: QueryResult<nat>): nat {
    if read.Row? then read.row else 0
  }

  /** The admission decision. `read` is what the counter query would return;
      it is consulted only for a finite, positive quota. A failed read (or a
      thrown error) lets the use through. */
  function CheckFeatureUsage(f: Feature, p: Plan, read: QueryResult<nat>): (u: UsageResponse)
    ensures u.limit == FeatureLimit(f, p)
    ensures u.limit.Unbounded? ==> u == UsageResponse(true, 0, Unbounded, Unbounded)
    ensures u.limit == Finite(0) ==> u == UsageResponse(false, 0, Finite(0), Finite(0))
    ensures u.limit.Finite? && u.limit.n > 0 && read.Failed? ==>
      u == UsageResponse(true, 0, u.limit, u.limit)
    ensures u.limit.Finite? && u.limit.n > 0 && !read.Failed? ==>
      u.currentUsage == StoredCount(read) &&
      u.remaining == Finite(Max(0, u.limit.n - StoredCount(read))) &&
      (u.allowed <==> StoredCount(read) < u.limit.n)
    // the report is self-consistent
    ensures u.allowed <==> u.remaining != Finite(0)
    ensures u.limit.Finite? ==> u.remaining.Finite? && u.remaining.n <= u.limit.n
    ensures u.allowed && u.limit.Finite? ==> u.currentUsage + u.remaining.n == u.limit.n
  {
    var limit := FeatureLimit(f, p);
    if limit.Unbounded? then UsageResponse(true, 0, Unbounded, Unbounded)
    else if limit.n == 0 then UsageResponse(false, 0, Finite(0), Finite(0))
    else if read.Failed? then UsageResponse(true, 0, limit, limit)
    else
      var current := StoredCount(read);
      UsageResponse(current < limit.n, current, limit, Finite(Max(0, limit.n - current)))
  }

  /** With an unbounded or a zero quota the decision does not depend on the
      counter table at all. */
  lemma CheckIgnoresStore(f: Feature, p: Plan, r1: QueryResult<nat>, r2: QueryResult<nat>)
    requires FeatureLimit(f, p).Unbounded? || FeatureLimit(f, p) == Finite(0)
    ensures CheckFeatureUsage(f, p, r1) == CheckFeatureUsage(f, p, r2)
  {
  }

  /** A row of the counter table is identified by user and feature. */
  datatype UsageKey = UsageKey(userId: string, feature: Feature)

  type Counts = map<UsageKey, nat>

  /** The answer of the counter query on a healthy store. */
  function Lookup(counts: Counts, k: UsageKey): (r: QueryResult<nat>)
    ensures !r.Failed?
    ensures r.Row? <==> k in counts
    ensures StoredCount(r) == if k in counts then counts[k] else 0
  {
    if k in counts then Row(counts[k]) else NoRows
  }

  /** The table after one successful increment of row `k`. */
  function Incremented(counts: Counts, k: UsageKey): (c: Counts)
    ensures c.Keys == counts.Keys + {k}
    ensures c[k] == StoredCount(Lookup(counts, k)) + 1
    ensures forall j :: j in counts && j != k ==> c[j] == counts[j]
  {
    if k in counts then counts[k := counts[k] + 1] else counts[k := 1]
  }

  /** How the store misbehaves during one increment: the lookup fails, the
      write (update or insert) fails, or a call throws. */
  datatype StoreFault = Healthy | FetchError | WriteError | Thrown

  /** Why an increment reported failure. */
  datatype IncrementError = CheckingUsage | UpdatingUsage | RecordingUsage | UnexpectedError

  datatype IncrementOutcome = Done | Error(reason: IncrementError)

  /** The effect of one increment: its outcome and the table afterwards. */
  function IncrementSpec(counts: Counts, k: UsageKey, fault: StoreFault): (r: (IncrementOutcome, Counts))
    ensures r.0.Done? <==> fault == Healthy
    ensures r.0.Done? ==> r.1 == Incremented(counts, k)
    ensures r.0.Error? ==> r.1 == counts
    ensures r.0 == Error(CheckingUsage) <==> fault == FetchError
    ensures r.0 == Error(UpdatingUsage) <==> fault == WriteError && k in counts
    ensures r.0 == Error(RecordingUsage) <==> fault == WriteError && k !in counts
  {
    match fault
    case FetchError => (Error(CheckingUsage), counts)
    case Thrown => (Error(UnexpectedError), counts)
    case WriteError => (Error(if k in counts then UpdatingUsage else RecordingUsage), counts)
    case Healthy => (Done, Incremented(counts, k))
  }

  /** Re-running the check on the incremented row sees one more use, one fewer
      remaining use, and the same quota. */
  lemma CheckAfterIncrement(counts: Counts, k: UsageKey, p: Plan)
    requires FeatureLimit(k.feature, p).Finite? && FeatureLimit(k.feature, p).n > 0
    ensures var before := CheckFeatureUsage(k.feature, p, Lookup(counts, k));
            var after := CheckFeatureUsage(k.feature, p, Lookup(Incremented(counts, k), k));
            after.currentUsage == before.currentUsage + 1 &&
            after.remaining == before.remaining.Decremented() &&
            after.limit == before.limit
  {
  }

  /** The `feature_usage` table. */
  class FeatureUsageTable {
    var counts: Counts

    constructor (initial: Counts)
      ensures counts == initial
    {
      counts := initial;
    }

    /** Read the user's row for the feature, then either bump its count or
        insert a row with count 1. */
    method Increment(userId: string, f: Feature, fault: StoreFault) returns (r: IncrementOutcome)
      modifies this
      ensures (r, counts) == IncrementSpec(old(counts), UsageKey(userId, f), fault)
    {
      var key := UsageKey(userId, f);
      if fault == FetchError {
        return Error(CheckingUsage);
      } else if fault == Thrown {
        return Error(UnexpectedError);
      }
      var existing := Lookup(counts, key);
      if existing.Row? {
        if fault == WriteError {
          return Error(UpdatingUsage);
        }
        counts := counts[key := existing.row + 1];
      } else {
        if fault == WriteError {
          return Error(RecordingUsage);
        }
        counts := counts[key := 1];
      }
      r := Done;
    }
  }
}
