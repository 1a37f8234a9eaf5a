/** The fixed-window request counter of the Alpha Vantage scripts
    (`req_counter` and `minute_start`). */
module RateLimit {
  import opened Wrappers

  const MaxRequestsPerMinute: nat := 75
  /** The window length the throttle test compares with (the literal 60). */
  const WindowSeconds: real := 60.0
  /** `COOLDOWN_SECS`, from which the pause is computed. */
  const CooldownSeconds: real := 60.0

  datatype RateWindow = RateWindow(counter: nat, minuteStart: real)

  /** The throttle test: the cap is reached and the window is still young. */
  predicate MustPause(w: RateWindow, now: real)
  {
    w.counter >= MaxRequestsPerMinute && now - w.minuteStart < WindowSeconds
  }

  /** The check made before a fetch, given the clock reading `now` and the reading
      `resumed` taken after the pause. Returns the window the fetch is made under
      and the length of the pause, if one is made. */
  function Throttle(w: RateWindow, now: real, resumed: real): (RateWindow, Option<real>)
  {
    if MustPause(w, now) then
      var sleepFor := CooldownSeconds - (now - w.minuteStart);
      (RateWindow(0, resumed), if sleepFor > 0.0 then Some(sleepFor) else None)
    else
      (w, None)
  }

  /** `req_counter += 1`, done only when the fetch returned a series. */
  function Count(w: RateWindow, succeeded: bool): RateWindow
  {
    if succeeded then w.(counter := w.counter + 1) else w
  }

  /** When the cap is reached inside the window, the script pauses for the rest of
      the window (always a positive time: the `sleep_for > 0` test never fails),
      then starts a new window with the counter at 0. */
  lemma ThrottleResets(w: RateWindow, now: real, resumed: real)
    requires w.counter >= MaxRequestsPerMinute && now - w.minuteStart < WindowSeconds
    ensures Throttle(w, now, resumed).0 == RateWindow(0, resumed)
    ensures Throttle(w, now, resumed).1 == Some(CooldownSeconds - (now - w.minuteStart))
    ensures Throttle(w, now, resumed).1.value > 0.0
    ensures now >= w.minuteStart ==> Throttle(w, now, resumed).1.value <= CooldownSeconds
  {
  }

  /** Otherwise the counter and the window are left as they are and nothing pauses,
      even when the cap is reached: a window older than 60 s is never reset. */
  lemma ThrottlePassesThrough(w: RateWindow, now: real, resumed: real)
    requires !(w.counter >= MaxRequestsPerMinute && now - w.minuteStart < WindowSeconds)
    ensures Throttle(w, now, resumed) == (w, None)
  {
  }

  /** Every fetch is made under a counter below the cap, or in a window at least 60 s old. */
  lemma ThrottleAdmits(w: RateWindow, now: real, resumed: real)
    ensures var w' := Throttle(w, now, resumed).0;
      w'.counter < MaxRequestsPerMinute || now - w.minuteStart >= WindowSeconds
  {
  }

  /** One pass of the rate check: the clock readings and whether the fetch succeeded. */
  datatype Attempt = Attempt(now: real, resumed: real, succeeded: bool)

  function Step(w: RateWindow, a: Attempt): RateWindow
  {
    Count(Throttle(w, a.now, a.resumed).0, a.succeeded)
  }

  /** The window after a sequence of fetch attempts. */
  function Replay(w: RateWindow, attempts: seq<Attempt>): RateWindow
    decreases |attempts|
  {
    if attempts == [] then w else Replay(Step(w, attempts[0]), attempts[1..])
  }

  /** Replaying one more attempt is one more step. */
  lemma {:induction false} ReplaySnoc(w: RateWindow, attempts: seq<Attempt>, a: Attempt)
    ensures Replay(w, attempts + [a]) == Step(Replay(w, attempts), a)
    decreases |attempts|
  {
    if attempts == [] {
      assert attempts + [a] == [a];
      assert [a][1..] == [];
    } else {
      assert (attempts + [a])[1..] == attempts[1..] + [a];
      ReplaySnoc(Step(w, attempts[0]), attempts[1..], a);
    }
  }

  function Successes(attempts: seq<Attempt>): nat
  {
    if attempts == [] then 0 else (if attempts[0].succeeded then 1 else 0) + Successes(attempts[1..])
  }

  /** The quirk of the counter: once `minute_start` is 60 s or more behind every later
      reading, the window never resets and the counter only grows, by one per
      successful fetch, past the cap. */
  lemma {:induction false} StaleWindowKeepsGrowing(w: RateWindow, attempts: seq<Attempt>)
    requires forall i :: 0 <= i < |attempts| ==> attempts[i].now - w.minuteStart >= WindowSeconds
    ensures Replay(w, attempts) == RateWindow(w.counter + Successes(attempts), w.minuteStart)
    decreases |attempts|
  {
    if attempts != [] {
      var w' := Step(w, attempts[0]);
      assert w'.minuteStart == w.minuteStart;
      StaleWindowKeepsGrowing(w', attempts[1..]);
    }
  }

  /** The counter can stay at or above the cap only in a window at least 60 s old. */
  ghost predicate WithinCap(w: RateWindow, t: real)
  {
    w.counter <= MaxRequestsPerMinute || t - w.minuteStart >= WindowSeconds
  }

  /** Clock readings that never go back, starting from `t`. */
  ghost predicate Monotone(t: real, attempts: seq<Attempt>)
  {
    && (forall i :: 0 <= i < |attempts| ==> t <= attempts[i].now <= attempts[i].resumed)
    && (forall i, j :: 0 <= i < j < |attempts| ==> attempts[i].resumed <= attempts[j].now)
  }

  /** With a clock that never goes back, the counter is at most the cap whenever the
      window is younger than 60 s: within one window no more than 75 successful
      fetches are counted. */
  lemma {:induction false} ReplayWithinCap(w: RateWindow, t: real, attempts: seq<Attempt>)
    requires WithinCap(w, t) && t >= w.minuteStart
    requires Monotone(t, attempts)
    ensures WithinCap(Replay(w, attempts), if attempts == [] then t else attempts[|attempts| - 1].resumed)
    decreases |attempts|
  {
    if attempts != [] {
      var a := attempts[0];
      var w' := Step(w, a);
      assert t <= a.now <= a.resumed;
      assert WithinCap(w', a.resumed) && a.resumed >= w'.minuteStart;
      assert Monotone(a.resumed, attempts[1..]) by {
        forall i | 0 <= i < |attempts[1..]| ensures a.resumed <= attempts[1..][i].now {
          assert attempts[1..][i] == attempts[i + 1];
        }
      }
      ReplayWithinCap(w', a.resumed, attempts[1..]);
    }
  }
}
