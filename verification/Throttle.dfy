/**
 The update window: updates on different nodes are spaced
 (internal/controller/yanet_controller.go, checkUpdateRequeue). Times are integers.
 */
module Throttle {

  /** lastUpdateTS and lastUpdateHost. */
  datatype State = State(ts: int, host: string)

  datatype Request = Request(now: int, host: string)

  datatype Answer = Answer(state: State, delay: int, recorded: bool)

  /** One call of checkUpdateRequeue; delay 0 lets the caller write. */
  function Ask(s: State, window: nat, r: Request): Answer {
    if window == 0 then Answer(s, 0, false)
    else if !(s.ts + window < r.now) && r.host != s.host then Answer(s, window - (r.now - s.ts), false)
    else Answer(State(r.now, r.host), 0, true)
  }

  class UpdateThrottle {
    var lastUpdateTS: int
    var lastUpdateHost: string

    function Value(): State
      reads this
    {
      State(lastUpdateTS, lastUpdateHost)
    }

    constructor (start: int)
      ensures Value() == State(start, "")
    {
      lastUpdateTS, lastUpdateHost := start, "";
    }

    method CheckUpdateRequeue(updateWindow: nat, updateHost: string, timeNow: int) returns (retryTimer: int)
      modifies this
      ensures var a := Ask(old(Value()), updateWindow, Request(timeNow, updateHost));
              Value() == a.state && retryTimer == a.delay
    {
      retryTimer := 0;
      if updateWindow == 0 {
        return;
      }
      var timerExpired := lastUpdateTS + updateWindow < timeNow;
      if !timerExpired && updateHost != lastUpdateHost {
        retryTimer := updateWindow - (timeNow - lastUpdateTS);
      } else {
        lastUpdateTS := timeNow;
        lastUpdateHost := updateHost;
      }
    }
  }

  /** The state before request `i` of a history. */
  function Before(s: State, window: nat, h: seq<Request>, i: nat): State
    requires i <= |h|
  {
    if i == 0 then s else Ask(Before(s, window, h, i - 1), window, h[i - 1]).state
  }

  function AnswerTo(s: State, window: nat, h: seq<Request>, i: nat): Answer
    requires i < |h|
  {
    Ask(Before(s, window, h, i), window, h[i])
  }

  /** Time does not run backwards, and starts after the stored instant. */
  ghost predicate Monotone(s: State, h: seq<Request>) {
    && (forall i :: 0 <= i < |h| ==> s.ts <= h[i].now)
    && (forall i, j :: 0 <= i < j < |h| ==> h[i].now <= h[j].now)
  }

  /** A recorded grant leaves its own trace in the state until the next one. */
  lemma {:induction false} StateAfterGrant(s: State, window: nat, h: seq<Request>, i: nat, j: nat)
    requires Monotone(s, h) && window > 0 && i < j <= |h| && AnswerTo(s, window, h, i).recorded
    ensures h[i].now <= Before(s, window, h, j).ts
    ensures Before(s, window, h, j).host == h[i].host || h[i].now + window < Before(s, window, h, j).ts
    ensures j > 0 ==> Before(s, window, h, j).ts <= h[j - 1].now
  {
    if j > i + 1 {
      StateAfterGrant(s, window, h, i, j - 1);
    }
  }

  /** Any two recorded grants for different nodes lie more than the window apart. */
  lemma RecordedGrantsAreSpaced(s: State, window: nat, h: seq<Request>, i: nat, j: nat)
    requires Monotone(s, h) && window > 0 && i < j < |h|
    requires AnswerTo(s, window, h, i).recorded && AnswerTo(s, window, h, j).recorded
    requires h[i].host != h[j].host
    ensures h[i].now + window < h[j].now
  {
    StateAfterGrant(s, window, h, i, j);
  }

  /** A refused node that waits out its delay, with no grant in between, need not wait again. */
  lemma {:induction false} WaitingOnceIsEnough(s: State, window: nat, h: seq<Request>, i: nat, j: nat)
    requires Monotone(s, h) && i < j < |h| && h[j].host == h[i].host
    requires AnswerTo(s, window, h, i).delay > 0 && h[j].now >= h[i].now + AnswerTo(s, window, h, i).delay
    requires forall m :: i < m < j ==> !AnswerTo(s, window, h, m).recorded
    ensures AnswerTo(s, window, h, j).delay == 0
  {
    NothingRecorded(s, window, h, i, j);
  }

  lemma {:induction false} NothingRecorded(s: State, window: nat, h: seq<Request>, i: nat, j: nat)
    requires i <= j <= |h| && forall m :: i <= m < j ==> !AnswerTo(s, window, h, m).recorded
    ensures Before(s, window, h, j) == Before(s, window, h, i)
  {
    if i < j {
      NothingRecorded(s, window, h, i, j - 1);
      assert !AnswerTo(s, window, h, j - 1).recorded;
    }
  }

  // ---- Answers told by earlier grants -------------------------------------------------------------

  /** Request `m` is the last one before `i` that was granted and recorded. */
  ghost predicate LastGrant(s: State, window: nat, h: seq<Request>, m: nat, i: nat)
    requires i <= |h|
  {
    && m < i && AnswerTo(s, window, h, m).recorded
    && forall n :: m < n < i ==> !AnswerTo(s, window, h, n).recorded
  }

  /** The node and instant that count before request `i`: those of the last grant, or the stored ones. */
  ghost predicate Counts(s: State, window: nat, h: seq<Request>, i: nat, host: string, ts: int)
    requires i <= |h|
  {
    || (exists m: nat :: LastGrant(s, window, h, m, i) && host == h[m].host && ts == h[m].now)
    || ((forall n :: 0 <= n < i ==> !AnswerTo(s, window, h, n).recorded) && host == s.host && ts == s.ts)
  }

  lemma {:induction false} LastGrantCounts(s: State, window: nat, h: seq<Request>, i: nat)
    requires window > 0 && i <= |h|
    ensures Counts(s, window, h, i, Before(s, window, h, i).host, Before(s, window, h, i).ts)
  {
    if i > 0 {
      if AnswerTo(s, window, h, i - 1).recorded {
        assert LastGrant(s, window, h, i - 1, i);
      } else {
        LastGrantCounts(s, window, h, i - 1);
        assert Before(s, window, h, i) == Before(s, window, h, i - 1);
        if m: nat :| LastGrant(s, window, h, m, i - 1) && Before(s, window, h, i).host == h[m].host
                     && Before(s, window, h, i).ts == h[m].now {
          assert LastGrant(s, window, h, m, i);
        }
      }
    }
  }

  /**
   A node is delayed exactly while the last grant belongs to another node and its window has not ended, and then
   until that instant. It is granted exactly when the last grant is its own or its window has passed. So the node of
   the last grant never waits.
   */
  lemma AnswersFollowTheLastGrant(s: State, window: nat, h: seq<Request>, i: nat, host: string, ts: int)
    requires window > 0 && i < |h| && Counts(s, window, h, i, host, ts)
    ensures AnswerTo(s, window, h, i).delay == if h[i].host != host && h[i].now < ts + window
                                               then ts + window - h[i].now else 0
    ensures AnswerTo(s, window, h, i).recorded <==> h[i].host == host || ts + window < h[i].now
  {
    LastGrantCounts(s, window, h, i);
    var last := Before(s, window, h, i);
    if m: nat :| LastGrant(s, window, h, m, i) && host == h[m].host && ts == h[m].now {
      assert forall n: nat :: LastGrant(s, window, h, n, i) ==> n == m;
    }
    assert last == State(ts, host);
  }

  /** Without a window nobody waits and nothing is remembered. */
  lemma {:induction false} NoWindowNoWaiting(s: State, h: seq<Request>, i: nat)
    requires i < |h|
    ensures AnswerTo(s, 0, h, i) == Answer(s, 0, false)
    decreases i
  {
    if i > 0 {
      NoWindowNoWaiting(s, h, i - 1);
    }
  }

  // ---- Permissions are not grants ------------------------------------------------------------

  /** The caller may write. */
  predicate Permitted(s: State, window: nat, h: seq<Request>, i: nat)
    requires i < |h|
  {
    AnswerTo(s, window, h, i).delay == 0
  }

  /** Permissions for different nodes lie more than the window apart. */
  ghost predicate PermissionsSpaced(s: State, window: nat, h: seq<Request>) {
    forall i, j :: 0 <= i < j < |h| && Permitted(s, window, h, i) && Permitted(s, window, h, j)
                   && h[i].host != h[j].host
                   ==> h[i].now + window < h[j].now
  }

  /** Another node asks at the very instant the window of the last grant ends. */
  predicate OnBoundary(s: State, window: nat, h: seq<Request>, i: nat)
    requires i < |h|
  {
    var last := Before(s, window, h, i);
    h[i].now == last.ts + window && h[i].host != last.host
  }

  /** The stored instant is the initial one or that of an earlier recorded grant. */
  lemma {:induction false} StateComesFromGrant(s: State, window: nat, h: seq<Request>, j: nat) returns (i: nat)
    requires window > 0 && j <= |h| && Before(s, window, h, j) != s
    ensures i < j && AnswerTo(s, window, h, i).recorded
    ensures Before(s, window, h, j) == State(h[i].now, h[i].host)
  {
    if AnswerTo(s, window, h, j - 1).recorded {
      i := j - 1;
    } else {
      i := StateComesFromGrant(s, window, h, j - 1);
    }
  }

  /**
   On a freshly started operator, permissions are spaced if and only if no other node asks at
   the very instant the window ends: there the call answers 0 without recording a grant.
   */
  lemma PermissionsSpacedUnlessOnBoundary(s: State, window: nat, h: seq<Request>)
    requires Monotone(s, h) && window > 0 && forall i :: 0 <= i < |h| ==> s.ts + window < h[i].now
    ensures PermissionsSpaced(s, window, h) <==> forall i :: 0 <= i < |h| ==> !OnBoundary(s, window, h, i)
  {
    if forall i :: 0 <= i < |h| ==> !OnBoundary(s, window, h, i) {
      forall i, j | 0 <= i < j < |h| && Permitted(s, window, h, i) && Permitted(s, window, h, j)
          && h[i].host != h[j].host
        ensures h[i].now + window < h[j].now
      {
        assert !OnBoundary(s, window, h, i) && !OnBoundary(s, window, h, j);
        RecordedGrantsAreSpaced(s, window, h, i, j);
      }
    } else {
      var j :| 0 <= j < |h| && OnBoundary(s, window, h, j);
      var i := StateComesFromGrant(s, window, h, j);
      assert Permitted(s, window, h, i) && Permitted(s, window, h, j);
    }
  }

  /** At the boundary a second and a third node write one tick apart, inside a window of ten. */
  lemma BoundaryLetsTwoNodesWrite()
    ensures var h := [Request(100, "a"), Request(110, "b"), Request(111, "c")];
            var s := State(0, "");
            && Monotone(s, h) && OnBoundary(s, 10, h, 1)
            && Permitted(s, 10, h, 1) && Permitted(s, 10, h, 2) && !AnswerTo(s, 10, h, 1).recorded
  {
    var h := [Request(100, "a"), Request(110, "b"), Request(111, "c")];
    var s := State(0, "");
    assert Before(s, 10, h, 1) == State(100, "a");
    assert Before(s, 10, h, 2) == State(100, "a");
  }
}
