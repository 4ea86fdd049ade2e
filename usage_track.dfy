/** The usage-tracking endpoint: authenticate, read the feature type, check
    the quota, and only then increment the counter. */
module UsageTrack {
  import opened Common
  import opened UsageTracking

  /** The wire names of the metered features. */
  function ParseFeature(s: string): (f: Option<Feature>)
    ensures f == Some(EssayWrites) <==> s == "essayWrites"
    ensures f == Some(CollegeSaves) <==> s == "collegeSaves"
  {
    if s == "essayWrites" then Some(EssayWrites)
    else if s == "collegeSaves" then Some(CollegeSaves)
    else None
  }

  /** The request body: not JSON at all, or an object whose `featureType`
      may be absent. */
  datatype TrackBody = Unparsable | Body(featureType: Option<string>)

  /** Store behaviour during one request: whether the check's count query
      fails, and how the increment's calls behave. */
  datatype TrackFaults = TrackFaults(checkReadFails: bool, increment: StoreFault)

  datatype TrackResponse =
    | Unauthorized
    | FeatureTypeRequired
    | LimitReached(usage: UsageResponse)
    | TrackingFailed(error: IncrementError, usage: UsageResponse)
    | Tracked(usage: UsageResponse)
    | TrackingError
  {
    function Status(): int {
      match this
      case Unauthorized => 401
      case FeatureTypeRequired => 400
      case LimitReached(_) => 403
      case TrackingFailed(_, _) => 500
      case Tracked(_) => 200
      case TrackingError => 500
    }
  }

  /** The usage record returned after a successful increment: one more use,
      one fewer remaining (never below zero), quota and verdict unchanged. */
  function UpdatedUsage(u: UsageResponse): (v: UsageResponse)
    ensures v.allowed == u.allowed && v.limit == u.limit
    ensures v.currentUsage == u.currentUsage + 1
    ensures u.remaining.Unbounded? ==> v.remaining.Unbounded?
    ensures u.remaining.Finite? ==> v.remaining.Finite? && v.remaining.n == Max(0, u.remaining.n - 1)
  {
    u.(currentUsage := u.currentUsage + 1, remaining := u.remaining.Decremented())
  }

  /** The record sent back after a counted use agrees with what a fresh check
      of the updated table would report, whenever the check saw the real
      count of a finite quota. */
  lemma UpdatedUsageMatchesRecheck(counts: Counts, k: UsageKey, p: Plan)
    requires FeatureLimit(k.feature, p).Finite?
    requires CheckFeatureUsage(k.feature, p, Lookup(counts, k)).allowed
    ensures var u := UpdatedUsage(CheckFeatureUsage(k.feature, p, Lookup(counts, k)));
            var again := CheckFeatureUsage(k.feature, p, Lookup(Incremented(counts, k), k));
            u.currentUsage == again.currentUsage && u.remaining == again.remaining && u.limit == again.limit
  {
    CheckAfterIncrement(counts, k, p);
  }

  /** The plan the endpoint meters against: the loaded plan, or free. */
  function EffectivePlan(plan: Option<Plan>): Plan {
    plan.GetOr(Free)
  }

  /** One request to the endpoint: the response and the counter table after it.
      An unknown feature name makes the quota lookup throw, which the
      handler's outer catch turns into a 500. */
  function Track(counts: Counts, user: Option<string>, body: TrackBody, plan: Option<Plan>, faults: TrackFaults)
    : (r: (TrackResponse, Counts))
    ensures user.None? ==> r == (Unauthorized, counts)
    ensures r.0.Status() == 401 <==> user.None?
    ensures r.0.Status() == 403 <==> r.0.LimitReached?
    ensures r.0.Status() == 200 <==> r.0.Tracked?
    ensures r.0 == FeatureTypeRequired <==> user.Some? && body.Body? && !Truthy(body.featureType)
    ensures !r.0.Tracked? ==> r.1 == counts
    ensures r.0.Tracked? ==>
      user.Some? && body.Body? && body.featureType.Some? &&
      ParseFeature(body.featureType.value).Some? &&
      var k := UsageKey(user.value, ParseFeature(body.featureType.value).value);
      r.1 == Incremented(counts, k) && faults.increment == Healthy
    ensures r.0.LimitReached? ==> !r.0.usage.allowed
    ensures r.0.TrackingFailed? ==> r.0.usage.allowed && faults.increment != Healthy
    ensures r.0.Tracked? ==> r.0.usage.allowed && r.0.usage.currentUsage >= 1
    ensures user.Some? && body.Unparsable? ==> r == (TrackingError, counts)
    ensures user.Some? && body.Body? && Truthy(body.featureType) && ParseFeature(body.featureType.value).None? ==>
      r == (TrackingError, counts)
    ensures user.Some? && body.Body? && Truthy(body.featureType) && ParseFeature(body.featureType.value).Some? ==>
      var f := ParseFeature(body.featureType.value).value;
      var k := UsageKey(user.value, f);
      var check := CheckFeatureUsage(f, EffectivePlan(plan), if faults.checkReadFails then Failed else Lookup(counts, k));
      (!check.allowed ==> r == (LimitReached(check), counts)) &&
      (check.allowed && faults.increment == Healthy ==> r == (Tracked(UpdatedUsage(check)), Incremented(counts, k))) &&
      (check.allowed && faults.increment != Healthy ==>
         r.0.TrackingFailed? && r.0.usage == check && r.1 == counts &&
         r.0.error == IncrementSpec(counts, k, faults.increment).0.reason)
  {
    if user.None? then (Unauthorized, counts)
    else if body.Unparsable? then (TrackingError, counts)
    else if !Truthy(body.featureType) then (FeatureTypeRequired, counts)
    else match ParseFeature(body.featureType.value)
      case None => (TrackingError, counts)
      case Some(f) =>
        var key := UsageKey(user.value, f);
        var check := CheckFeatureUsage(f, EffectivePlan(plan), if faults.checkReadFails then Failed else Lookup(counts, key));
        if !check.allowed then (LimitReached(check), counts)
        else
          var (outcome, after) := IncrementSpec(counts, key, faults.increment);
          if outcome.Error? then (TrackingFailed(outcome.reason, check), counts)
          else (Tracked(UpdatedUsage(check)), after)
  }

  /** Every row of `userId` is within the quota `p` gives its feature. */
  predicate WithinQuota(counts: Counts, userId: string, p: Plan) {
    forall k :: k in counts && k.userId == userId ==> FeatureLimit(k.feature, p).Bounds(counts[k])
  }

  /** Handled one at a time, a request whose quota check read the real count
      keeps the user within quota, and leaves every other user's rows alone. */
  lemma TrackKeepsQuota(counts: Counts, userId: string, body: TrackBody, plan: Option<Plan>, faults: TrackFaults)
    requires !faults.checkReadFails
    requires WithinQuota(counts, userId, EffectivePlan(plan))
    ensures WithinQuota(Track(counts, Some(userId), body, plan, faults).1, userId, EffectivePlan(plan))
    ensures forall k :: k in counts && k.userId != userId ==>
      k in Track(counts, Some(userId), body, plan, faults).1 &&
      Track(counts, Some(userId), body, plan, faults).1[k] == counts[k]
  {
    var r := Track(counts, Some(userId), body, plan, faults);
    if r.0.Tracked? {
      var f := ParseFeature(body.featureType.value).value;
      var key := UsageKey(userId, f);
      var check := CheckFeatureUsage(f, EffectivePlan(plan), Lookup(counts, key));
      assert check.allowed;
      assert FeatureLimit(f, EffectivePlan(plan)).Admits(StoredCount(Lookup(counts, key)));
      forall k | k in r.1 && k.userId == userId
        ensures FeatureLimit(k.feature, EffectivePlan(plan)).Bounds(r.1[k])
      {
        if k != key {
          assert k in counts;
        }
      }
    }
  }

  /** One request in a sequence handled by the endpoint for a fixed user. */
  datatype TrackRequest = TrackRequest(body: TrackBody, faults: TrackFaults)

  /** The counter table after handling `reqs` in order. */
  function Replay(counts: Counts, userId: string, plan: Option<Plan>, reqs: seq<TrackRequest>): Counts
    decreases |reqs|
  {
    if reqs == [] then counts
    else Replay(Track(counts, Some(userId), reqs[0].body, plan, reqs[0].faults).1, userId, plan, reqs[1..])
  }

  /** However many requests a user makes on a fixed plan, as long as no quota
      check fails open, no counter goes past its quota. */
  lemma {:induction false} ReplayKeepsQuota(counts: Counts, userId: string, plan: Option<Plan>, reqs: seq<TrackRequest>)
    requires forall i :: 0 <= i < |reqs| ==> !reqs[i].faults.checkReadFails
    requires WithinQuota(counts, userId, EffectivePlan(plan))
    ensures WithinQuota(Replay(counts, userId, plan, reqs), userId, EffectivePlan(plan))
    decreases |reqs|
  {
    if reqs != [] {
      TrackKeepsQuota(counts, userId, reqs[0].body, plan, reqs[0].faults);
      var next := Track(counts, Some(userId), reqs[0].body, plan, reqs[0].faults).1;
      assert forall i :: 0 <= i < |reqs[1..]| ==> reqs[1..][i] == reqs[i + 1];
      ReplayKeepsQuota(next, userId, plan, reqs[1..]);
    }
  }

  /** The fail-open path is real: when the check's query fails, a user already
      at the plus quota of 30 essay writes gets a 31st. */
  lemma FailOpenExceedsQuota()
    ensures var k := UsageKey("u", EssayWrites);
            var r := Track(map[k := 30], Some("u"), Body(Some("essayWrites")), Some(Plus), TrackFaults(true, Healthy));
            r.0.Tracked? && r.1[k] == 31 && !FeatureLimit(EssayWrites, Plus).Bounds(r.1[k])
  {
    var k := UsageKey("u", EssayWrites);
    assert ParseFeature("essayWrites") == Some(EssayWrites);
    assert Incremented(map[k := 30], k)[k] == 31;
  }

  /** On the plus plan (30 essay writes), the 30th write is counted and
      reports nothing remaining, and the one after it is refused. */
  lemma LastWriteThenRefused(userId: string, faults: TrackFaults)
    requires faults.increment == Healthy && !faults.checkReadFails
    ensures var k := UsageKey(userId, EssayWrites);
            var body := Body(Some("essayWrites"));
            var first := Track(map[k := 29], Some(userId), body, Some(Plus), faults);
            var second := Track(first.1, Some(userId), body, Some(Plus), faults);
            first.0 == Tracked(UsageResponse(true, 30, Finite(30), Finite(0))) &&
            second.0.LimitReached? && second.0.usage.currentUsage == 30 && second.1 == first.1
  {
    var k := UsageKey(userId, EssayWrites);
    assert ParseFeature("essayWrites") == Some(EssayWrites);
    assert Incremented(map[k := 29], k) == map[k := 30];
  }

  /** The endpoint, over the counter table. */
  method Post(table: FeatureUsageTable, user: Option<string>, body: TrackBody, plan: Option<Plan>, faults: TrackFaults)
    returns (resp: TrackResponse)
    modifies table
    ensures (resp, table.counts) == Track(old(table.counts), user, body, plan, faults)
  {
    if user.None? {
      return Unauthorized;
    }
    if body.Unparsable? {
      return TrackingError;
    }
    if !Truthy(body.featureType) {
      return FeatureTypeRequired;
    }
    var feature := ParseFeature(body.featureType.value);
    if feature.None? {
      return TrackingError;
    }
    var f := feature.value;
    var key := UsageKey(user.value, f);
    var read := if faults.checkReadFails then Failed else Lookup(table.counts, key);
    var usageCheck := CheckFeatureUsage(f, EffectivePlan(plan), read);
    if !usageCheck.allowed {
      return LimitReached(usageCheck);
    }
    var result := table.Increment(user.value, f, faults.increment);
    if result.Error? {
      return TrackingFailed(result.reason, usageCheck);
    }
    resp := Tracked(UpdatedUsage(usageCheck));
  }
}
