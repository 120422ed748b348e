/**
 * The daily analysis allowance of a subscription plan, read from and written to a user's public
 * metadata. Today's date is the text the browser gives for the current day, passed in as `today`.
 */
module UsageTracker {
  import opened Wrappers

  /**
   * A user's public metadata: the plan name ("" when absent), the analyses counted for the day
   * (0 when absent), the day they were counted for, and every other field, kept opaque.
   */
  datatype Metadata = Metadata(plan: string, usageToday: nat, lastReset: Option<string>, others: map<string, string>)

  /** The signed-in user, if any; a user without public metadata has the empty record. */
  type User = Option<Metadata>

  const FreePlan: string := "free"
  const ProPlan: string := "pro"

  const EmptyMetadata: Metadata := Metadata("", 0, None, map[])

  /** PLAN_LIMITS: free 3, pro 20; any other plan name has no entry. */
  function PlanLimit(plan: string): (limit: Option<nat>)
    ensures limit.Some? <==> plan == FreePlan || plan == ProPlan
    ensures plan == FreePlan ==> limit == Some(3)
    ensures plan == ProPlan ==> limit == Some(20)
  {
    if plan == FreePlan then Some(3) else if plan == ProPlan then Some(20) else None
  }

  /** getUserPlan: the stored plan, "free" when there is no user or no plan. */
  function UserPlan(user: User): (plan: string)
    ensures plan != ""
    ensures user.Some? && user.value.plan != "" ==> plan == user.value.plan
    ensures user.None? || user.value.plan == "" ==> plan == FreePlan
  {
    if user.Some? && user.value.plan != "" then user.value.plan else FreePlan
  }

  /** getUserUsageToday: the stored count if it was recorded for today, otherwise 0. */
  function UsageToday(user: User, today: string): (n: nat)
    ensures n != 0 ==> user.Some? && user.value.lastReset == Some(today) && n == user.value.usageToday
    ensures user.Some? && user.value.lastReset == Some(today) ==> n == user.value.usageToday
  {
    if user.Some? && user.value.lastReset == Some(today) then user.value.usageToday else 0
  }

  /** canUserAnalyze: today's count is below the plan's limit; a plan without a limit never may. */
  predicate CanAnalyze(user: User, today: string)
    ensures CanAnalyze(user, today) ==> PlanLimit(UserPlan(user)).Some?
    ensures user.None? ==> CanAnalyze(user, today)
  {
    var limit := PlanLimit(UserPlan(user));
    limit.Some? && UsageToday(user, today) < limit.value
  }

  /**
   * getRemainingAnalyses: max(0, limit - today's count). For a plan without a limit the source
   * computes no number at all; that case is None here.
   */
  function Remaining(user: User, today: string): (left: Option<nat>)
    ensures left.Some? <==> PlanLimit(UserPlan(user)).Some?
    ensures left.Some? ==> left.value <= PlanLimit(UserPlan(user)).value
  {
    var limit := PlanLimit(UserPlan(user));
    if limit.None? then None
    else if UsageToday(user, today) >= limit.value then Some(0)
    else Some(limit.value - UsageToday(user, today))
  }

  /**
   * The metadata incrementUsage writes: the old fields, with today's count one higher and the day
   * set to today; None when there is no user (the source returns false without writing).
   */
  function IncrementPayload(user: User, today: string): (written: Option<Metadata>)
    ensures written.None? <==> user.None?
  {
    if user.None? then None
    else Some(user.value.(usageToday := UsageToday(user, today) + 1, lastReset := Some(today)))
  }

  // ---------------------------------------------------------------- properties

  /** An analysis is allowed exactly when the remaining count is positive. */
  lemma CanAnalyzeIffRemaining(user: User, today: string)
    ensures CanAnalyze(user, today) <==> Remaining(user, today).Some? && Remaining(user, today).value > 0
  {
  }

  /** Remaining is the limit minus today's count while that is not negative, and 0 past it. */
  lemma RemainingIsDifference(user: User, today: string)
    requires PlanLimit(UserPlan(user)).Some?
    ensures var limit := PlanLimit(UserPlan(user)).value;
      Remaining(user, today).value == if UsageToday(user, today) <= limit then limit - UsageToday(user, today) else 0
  {
  }

  /** A count recorded for another day reads as 0: every plan with a limit may analyse on a new day. */
  lemma NewDayStartsAtZero(user: User, today: string)
    requires user.Some? ==> user.value.lastReset != Some(today)
    ensures UsageToday(user, today) == 0
    ensures PlanLimit(UserPlan(user)).Some? ==> CanAnalyze(user, today) && Remaining(user, today) == PlanLimit(UserPlan(user))
  {
  }

  /** Without a user the plan is "free", the count 0, three analyses remain, and nothing is written. */
  lemma AnonymousIsFree(today: string)
    ensures UserPlan(None) == FreePlan && UsageToday(None, today) == 0
    ensures Remaining(None, today) == Some(3) && CanAnalyze(None, today)
    ensures IncrementPayload(None, today).None?
  {
  }

  /**
   * The written metadata keeps the plan and every other field, records today, and counts one more
   * analysis than before: the remaining allowance drops by one, and never below 0.
   */
  lemma IncrementCountsOne(user: User, today: string)
    requires user.Some?
    ensures var written := IncrementPayload(user, today).value;
      && written.plan == user.value.plan && written.others == user.value.others
      && written.lastReset == Some(today)
      && UsageToday(Some(written), today) == UsageToday(user, today) + 1
      && UserPlan(Some(written)) == UserPlan(user)
      && (Remaining(user, today).Some? ==>
            Remaining(Some(written), today).value == if Remaining(user, today).value > 0 then Remaining(user, today).value - 1 else 0)
  {
  }

  /** The metadata after `n` analyses recorded today. */
  function IncrementTimes(user: User, today: string, n: nat): (u: User)
    requires user.Some?
    ensures u.Some?
    decreases n
  {
    if n == 0 then user else IncrementTimes(IncrementPayload(user, today), today, n - 1)
  }

  /** After `n` more analyses today, the count has grown by `n` and the plan is unchanged. */
  lemma {:induction false} IncrementTimesCounts(user: User, today: string, n: nat)
    requires user.Some?
    ensures UsageToday(IncrementTimes(user, today, n), today) == UsageToday(user, today) + n
    ensures n > 0 ==> IncrementTimes(user, today, n).value.lastReset == Some(today)
    ensures UserPlan(IncrementTimes(user, today, n)) == UserPlan(user)
    decreases n
  {
    if n > 0 {
      IncrementCountsOne(user, today);
      IncrementTimesCounts(IncrementPayload(user, today), today, n - 1);
    }
  }

  /** A plan's allowance admits exactly `limit - count` further analyses on the same day. */
  lemma AllowanceIsExhausted(user: User, today: string, n: nat)
    requires user.Some? && PlanLimit(UserPlan(user)).Some?
    ensures CanAnalyze(IncrementTimes(user, today, n), today)
            <==> UsageToday(user, today) + n < PlanLimit(UserPlan(user)).value
  {
    IncrementTimesCounts(user, today, n);
  }

  /** A new free user may run three analyses on a day, and not a fourth. */
  lemma FreeUserGetsThree(today: string)
    ensures CanAnalyze(IncrementTimes(Some(EmptyMetadata), today, 2), today)
    ensures !CanAnalyze(IncrementTimes(Some(EmptyMetadata), today, 3), today)
  {
    AllowanceIsExhausted(Some(EmptyMetadata), today, 2);
    AllowanceIsExhausted(Some(EmptyMetadata), today, 3);
  }
}
