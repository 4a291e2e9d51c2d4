/**
 The in-memory config snapshot. Any number of refreshers read the API and publish, each
 holding the snapshot lock over both (internal/controller/yanetconfig_controller.go,
 refreshYanetConfigSnapshot). API reads never go backwards.
 */
module Snapshot {

  /** What a refresher read: a version of the config, nothing, or an error. */
  datatype Answer = Config(version: nat, stop: bool) | Absent | Broken

  datatype Position = Outside | Locked | HasRead(answer: Answer)

  /**
   `configs` holds the stop flag of every version written so far, `served` is the newest version any read has
   returned, and `shown` what readers of the snapshot see.
   */
  datatype State = State(
    refreshers: map<nat, Position>, configs: seq<bool>, served: nat,
    shown: Answer, published: seq<Answer>)

  datatype Step =
    | Edit(stop: bool)
    | Join(who: nat)
    | Lock(who: nat)
    | Read(who: nat, answer: Answer)
    | Publish(who: nat)

  ghost predicate Holds(s: State, who: nat) {
    who in s.refreshers && !s.refreshers[who].Outside?
  }

  /** The answer is a version that was written, with its own flag. */
  predicate Stored(s: State, answer: Answer) {
    answer.Config? ==> answer.version < |s.configs| && answer.stop == s.configs[answer.version]
  }

  ghost predicate Enabled(s: State, step: Step) {
    match step
    case Edit(_) => true
    case Join(who) => who !in s.refreshers
    case Lock(who) => who in s.refreshers && forall other :: !Holds(s, other)
    case Read(who, answer) =>
      && who in s.refreshers && s.refreshers[who].Locked?
      && (answer.Config? ==> s.served <= answer.version && Stored(s, answer))
    case Publish(who) => who in s.refreshers && s.refreshers[who].HasRead?
  }

  /** A failed or empty read clears the snapshot; both are no publication of a config. */
  ghost function Next(s: State, step: Step): State
    requires Enabled(s, step)
  {
    match step
    case Edit(stop) => s.(configs := s.configs + [stop])
    case Join(who) => s.(refreshers := s.refreshers[who := Outside])
    case Lock(who) => s.(refreshers := s.refreshers[who := Locked])
    case Read(who, answer) =>
      s.(refreshers := s.refreshers[who := HasRead(answer)],
         served := if answer.Config? then answer.version else s.served)
    case Publish(who) =>
      var answer := s.refreshers[who].answer;
      s.(refreshers := s.refreshers[who := Outside], shown := answer,
         published := if answer.Config? then s.published + [answer] else s.published)
  }

  ghost predicate Valid(s: State, run: seq<Step>)
    decreases |run|
  {
    run == [] || (Enabled(s, run[0]) && Valid(Next(s, run[0]), run[1..]))
  }

  ghost function After(s: State, run: seq<Step>): State
    requires Valid(s, run)
    decreases |run|
  {
    if run == [] then s else After(Next(s, run[0]), run[1..])
  }

  ghost function Initial(): State {
    State(map[], [], 0, Absent, [])
  }

  ghost predicate NonDecreasing(published: seq<Answer>) {
    && (forall i :: 0 <= i < |published| ==> published[i].Config?)
    && (forall i, j :: 0 <= i < j < |published| ==> published[i].version <= published[j].version)
  }

  ghost predicate Invariant(s: State) {
    && NonDecreasing(s.published)
    && (forall i :: 0 <= i < |s.published| ==> s.published[i].version <= s.served)
    && (forall a, b :: Holds(s, a) && Holds(s, b) ==> a == b)
    && (forall a :: Holds(s, a) && s.refreshers[a].HasRead? && s.refreshers[a].answer.Config?
                    ==> s.refreshers[a].answer.version == s.served)
    && (forall a :: Holds(s, a) && s.refreshers[a].HasRead? ==> Stored(s, s.refreshers[a].answer))
    && (s.shown.Config? ==> s.published != [] && s.shown == s.published[|s.published| - 1])
  }

  lemma StepKeepsInvariant(s: State, step: Step)
    requires Invariant(s) && Enabled(s, step)
    ensures Invariant(Next(s, step))
  {
    var t := Next(s, step);
    match step
    case Edit(_) => assert forall a :: Holds(t, a) <==> Holds(s, a);
    case Join(who) => assert forall a :: Holds(t, a) <==> Holds(s, a);
    case Lock(who) =>
      forall a | Holds(t, a) ensures a == who {
        assert a == who || Holds(s, a);
      }
    case Read(who, answer) =>
      assert Holds(s, who);
      assert forall a :: Holds(t, a) <==> Holds(s, a);
    case Publish(who) =>
      assert Holds(s, who);
      forall a | Holds(t, a) ensures false {
        assert a != who;
        assert Holds(s, a);
      }
  }

  lemma {:induction false} RunKeepsInvariant(s: State, run: seq<Step>)
    requires Invariant(s) && Valid(s, run)
    ensures Invariant(After(s, run))
    decreases |run|
  {
    if run != [] {
      StepKeepsInvariant(s, run[0]);
      RunKeepsInvariant(Next(s, run[0]), run[1..]);
    }
  }

  /**
   For every interleaving, published config versions never decrease, and a visible config is
   the newest published one: an older read in flight cannot overwrite a newer stop.
   */
  lemma PublicationsNeverGoBack(run: seq<Step>)
    requires Valid(Initial(), run)
    ensures var s := After(Initial(), run);
            && NonDecreasing(s.published)
            && (s.shown.Config? ==> s.published != [] && forall p :: p in s.published ==> p.version <= s.shown.version)
  {
    RunKeepsInvariant(Initial(), run);
  }

  /** The switch is on in the snapshot. */
  predicate StopVisible(s: State) {
    s.shown.Config? && s.shown.stop
  }
}
