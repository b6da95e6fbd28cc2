/**
 * The remote viewer's manual treat button: a cap on treats, a cooldown
 * between treats, and a bounded log of recent treats. The cap is named a
 * daily limit, but nothing ever resets the count: it starts from zero only
 * when the page is loaded. Time is the wall clock in
 * integer milliseconds, passed in as `now`.
 */
module TreatDispenser {
  import opened Wrappers

  const DailyTreatLimit := 8
  const CooldownMs := 30000
  /** The log keeps this many previous entries before appending a new one. */
  const KeptEntries := 19
  const ManualTreat := "Manual Treat"

  datatype TreatEntry = TreatEntry(time: int, kind: string)

  datatype TreatState = TreatState(treatCount: nat, lastTreatTime: Option<int>, treatLog: seq<TreatEntry>)

  /** What the button reports: refusal at the cap, refusal with a wait, or a treat. */
  datatype Outcome =
    | LimitReached
    | TooSoon(waitSeconds: int)
    | Dispensed(treatsToday: int, remaining: int)

  const Initial := TreatState(0, None, [])

  /** `s.slice(-n)` for n > 0: the last `n` elements, or all of them. */
  function KeepLast<T>(s: seq<T>, n: nat): (r: seq<T>)
    requires n > 0
    ensures |r| == if |s| <= n then |s| else n
    ensures s == s[..|s| - |r|] + r
  {
    if |s| <= n then s else s[|s| - n..]
  }

  /**
   * The whole seconds still to wait, `Math.ceil((30000 - elapsed) / 1000)`:
   * the least `w` with `w * 1000` covering the remaining milliseconds.
   */
  function WaitSeconds(elapsed: int): (w: int)
    requires elapsed < CooldownMs
    ensures (w - 1) * 1000 < CooldownMs - elapsed <= w * 1000
    ensures 0 <= elapsed ==> 1 <= w <= 30
  {
    (CooldownMs - elapsed + 999) / 1000
  }

  /** `dispenseTreat`: the limit is checked first, then the cooldown. */
  function DispenseTreat(st: TreatState, now: int): (r: (Outcome, TreatState))
    ensures st.treatCount >= DailyTreatLimit ==> r == (LimitReached, st)
    ensures st.treatCount < DailyTreatLimit && st.lastTreatTime.Some?
            && now - st.lastTreatTime.value < CooldownMs ==>
              r.0.TooSoon? && r.1 == st
              && (r.0.waitSeconds - 1) * 1000 < CooldownMs - (now - st.lastTreatTime.value) <= r.0.waitSeconds * 1000
    ensures r.0.Dispensed? <==>
              st.treatCount < DailyTreatLimit
              && (st.lastTreatTime.None? || now - st.lastTreatTime.value >= CooldownMs)
    ensures r.0.Dispensed? ==>
              && r.1.treatCount == st.treatCount + 1
              && r.1.lastTreatTime == Some(now)
              && r.0.treatsToday == st.treatCount + 1
              && r.0.remaining == DailyTreatLimit - st.treatCount - 1 >= 0
              && 1 <= |r.1.treatLog| <= KeptEntries + 1
              && r.1.treatLog[|r.1.treatLog| - 1] == TreatEntry(now, ManualTreat)
              && r.1.treatLog[..|r.1.treatLog| - 1] == KeepLast(st.treatLog, KeptEntries)
  {
    if st.treatCount >= DailyTreatLimit then (LimitReached, st)
    else if st.lastTreatTime.Some? && now - st.lastTreatTime.value < CooldownMs then
      (TooSoon(WaitSeconds(now - st.lastTreatTime.value)), st)
    else
      var log := KeepLast(st.treatLog, KeptEntries) + [TreatEntry(now, ManualTreat)];
      (Dispensed(st.treatCount + 1, DailyTreatLimit - st.treatCount - 1),
       TreatState(st.treatCount + 1, Some(now), log))
  }

  /** Presses of the button at the given times, in order. */
  function Presses(st: TreatState, times: seq<int>): (r: (seq<Outcome>, TreatState))
    ensures |r.0| == |times|
    decreases |times|
  {
    if times == [] then ([], st)
    else
      var (o, st1) := DispenseTreat(st, times[0]);
      var (rest, st2) := Presses(st1, times[1..]);
      ([o] + rest, st2)
  }

  /** The number of presses that produced a treat. */
  function TreatsGiven(outcomes: seq<Outcome>): (n: nat)
    ensures n <= |outcomes|
    decreases |outcomes|
  {
    if outcomes == [] then 0
    else (if outcomes[0].Dispensed? then 1 else 0) + TreatsGiven(outcomes[1..])
  }

  /**
   * Starting within the daily limit, no sequence of presses exceeds it,
   * the count grows by exactly the treats given, and a log within its
   * bound stays within it.
   */
  lemma {:induction false} PressesStayWithinLimit(st: TreatState, times: seq<int>)
    requires st.treatCount <= DailyTreatLimit
    requires |st.treatLog| <= KeptEntries + 1
    ensures Presses(st, times).1.treatCount <= DailyTreatLimit
    ensures Presses(st, times).1.treatCount == st.treatCount + TreatsGiven(Presses(st, times).0)
    ensures |Presses(st, times).1.treatLog| <= KeptEntries + 1
    decreases |times|
  {
    if times != [] {
      var (o, st1) := DispenseTreat(st, times[0]);
      var (rest, st2) := Presses(st1, times[1..]);
      assert Presses(st, times) == ([o] + rest, st2);
      assert ([o] + rest)[0] == o && ([o] + rest)[1..] == rest;
      PressesStayWithinLimit(st1, times[1..]);
    }
  }

  /** At most eight treats are given after the page loads, whatever the presses and however far apart. */
  lemma AtMostEightTreatsPerPageLoad(times: seq<int>)
    ensures TreatsGiven(Presses(Initial, times).0) <= DailyTreatLimit
  {
    PressesStayWithinLimit(Initial, times);
  }

  /** A press less than 30 seconds after a treat (or earlier than it) gives no treat. */
  lemma CooldownBetweenTreats(st: TreatState, t1: int, t2: int)
    requires DispenseTreat(st, t1).0.Dispensed?
    requires t2 < t1 + CooldownMs
    ensures !DispenseTreat(DispenseTreat(st, t1).1, t2).0.Dispensed?
    ensures DispenseTreat(DispenseTreat(st, t1).1, t2).1 == DispenseTreat(st, t1).1
  {
  }
}
