/**
 * The round state machine and its scoring rules, as values: the game state
 * (points, throws left, running flag), the balls in flight and the cups.
 * Each operation of script.js on that state is a function here; the Game
 * class performs the same operations in place and is proved against them.
 *
 * The geometric tests of the frame loop are parameters: `hit(b, c)` says
 * ball b is inside cup c (script.js line 94), `gone(b)` says b is out of
 * play or has come to rest (script.js line 104).
 */
module Round {
  import opened Wrappers
  import opened Physics
  import opened Cups

  /** Throws per round (script.js lines 3 and 179). */
  const THROWS: int := 10

  /** The most a single ball can score: landing in the gold cup. */
  const BEST_CUP: int := 100

  datatype State = State(
    points: int,
    ballsRemaining: int,
    running: bool,
    balls: seq<Ball>,
    cups: seq<Cup>)

  /** The state the page starts in, once the cups are on the table. */
  function Initial(cups: seq<Cup>): (s: State)
    ensures Budgeted(s) && !s.running
  {
    State(0, THROWS, false, [], cups)
  }

  /**
   * Everything a round can still score is bounded by the gold cup's value
   * for each ball in flight or still to throw; nothing is negative.
   */
  predicate Budgeted(s: State) {
    && 0 <= s.ballsRemaining
    && 0 <= s.points
    && s.points + BEST_CUP * (s.ballsRemaining + |s.balls|) <= BEST_CUP * THROWS
  }

  // ---------------------------------------------------------------------
  // Lifecycle operations

  /** resetGameplayState (script.js lines 177-186): the running flag and the cups are left alone. */
  function ResetGameplay(s: State): (r: State)
    ensures Budgeted(r)
    ensures r.running == s.running && r.cups == s.cups
  {
    s.(points := 0, ballsRemaining := THROWS, balls := [])
  }

  /** The confirm-start button (script.js lines 128-132): reset, then run. */
  function Start(s: State): (r: State)
    ensures Budgeted(r) && r.running && r.cups == s.cups
  {
    ResetGameplay(s).(running := true)
  }

  /** exitToMainMenu (script.js lines 165-175): stop, then reset. */
  function Exit(s: State): (r: State)
    ensures Budgeted(r) && !r.running && r.cups == s.cups
  {
    ResetGameplay(s.(running := false))
  }

  /** The mousedown handler (script.js lines 151-162); ignored unless a throw is allowed. */
  function Launch(s: State, aim: Vec3): (r: State)
    ensures Budgeted(s) ==> Budgeted(r)
    ensures r.points == s.points && r.running == s.running && r.cups == s.cups
  {
    if s.running && s.ballsRemaining > 0 then
      s.(balls := s.balls + [Launched(aim)], ballsRemaining := s.ballsRemaining - 1)
    else
      s
  }

  /**
   * A throw happens exactly when the round is running and throws are left;
   * it appends one ball at the launch origin and uses up exactly one throw.
   * Otherwise nothing changes.
   */
  lemma LaunchGuard(s: State, aim: Vec3)
    ensures s.running && s.ballsRemaining > 0 ==>
      && Launch(s, aim).balls == s.balls + [Ball(LAUNCH_ORIGIN, aim)]
      && Launch(s, aim).ballsRemaining == s.ballsRemaining - 1
    ensures !(s.running && s.ballsRemaining > 0) ==> Launch(s, aim) == s
    ensures s.ballsRemaining >= 0 ==> Launch(s, aim).ballsRemaining >= 0
  {
  }

  // ---------------------------------------------------------------------
  // One frame: moving, scoring and removing balls

  /** The first cup, in table order, that the ball is in. */
  function FirstHit(b: Ball, cups: seq<Cup>, hit: (Ball, Cup) -> bool): (k: Option<nat>)
    ensures k.None? <==> forall j :: 0 <= j < |cups| ==> !hit(b, cups[j])
    ensures k.Some? ==> k.value < |cups| && hit(b, cups[k.value])
    ensures k.Some? ==> forall j :: 0 <= j < k.value ==> !hit(b, cups[j])
  {
    if cups == [] then None
    else if hit(b, cups[0]) then Some(0)
    else
      match FirstHit(b, cups[1..], hit)
      case None => None
      case Some(k) => Some(k + 1)
  }

  /** What a frame does to one ball. */
  datatype Outcome =
    | Scored(cup: nat, gain: int)  // landed in a cup and was removed
    | Lost                         // out of play or at rest, removed
    | Flying(ball: Ball)           // still in flight, moved

  /**
   * One ball in one frame (script.js lines 79-107): it moves; the first cup
   * it is in wins and pays the cup's value; only a ball that did not score
   * is checked for leaving play.
   */
  function Resolve(b: Ball, cups: seq<Cup>, hit: (Ball, Cup) -> bool, gone: Ball -> bool): (o: Outcome)
    ensures o.Scored? <==> exists j :: 0 <= j < |cups| && hit(Step(b), cups[j])
    ensures o.Scored? ==> && o.cup < |cups| && hit(Step(b), cups[o.cup])
                          && (forall j :: 0 <= j < o.cup ==> !hit(Step(b), cups[j]))
                          && o.gain == Value(cups[o.cup].tier)
    ensures o.Lost? <==> !o.Scored? && gone(Step(b))
    ensures o.Flying? ==> o.ball == Step(b)
  {
    var moved := Step(b);
    match FirstHit(moved, cups, hit)
    case Some(k) => Scored(k, Value(cups[k].tier))
    case None => if gone(moved) then Lost else Flying(moved)
  }

  function GainOf(o: Outcome): int {
    if o.Scored? then o.gain else 0
  }

  /** Points the balls earn in one frame. */
  function FrameGain(balls: seq<Ball>, cups: seq<Cup>, hit: (Ball, Cup) -> bool, gone: Ball -> bool): (g: int)
    ensures 0 <= g <= BEST_CUP * |balls|
  {
    if balls == [] then 0
    else GainOf(Resolve(balls[0], cups, hit, gone)) + FrameGain(balls[1..], cups, hit, gone)
  }

  function KeptOf(o: Outcome): seq<Ball> {
    if o.Flying? then [o.ball] else []
  }

  /** The balls still in flight after one frame, moved. */
  function Survivors(balls: seq<Ball>, cups: seq<Cup>, hit: (Ball, Cup) -> bool, gone: Ball -> bool): (r: seq<Ball>)
    ensures |r| <= |balls|
    ensures forall j :: 0 <= j < |r| ==> r[j].pos.y >= BALL_RADIUS
  {
    if balls == [] then []
    else KeptOf(Resolve(balls[0], cups, hit, gone)) + Survivors(balls[1..], cups, hit, gone)
  }

  /** Peeling the ball at index i off the front of the suffix balls[i..]. */
  lemma SuffixStep(balls: seq<Ball>, i: nat, cups: seq<Cup>, hit: (Ball, Cup) -> bool, gone: Ball -> bool)
    requires i < |balls|
    ensures var o := Resolve(balls[i], cups, hit, gone);
            && Survivors(balls[i..], cups, hit, gone) == KeptOf(o) + Survivors(balls[i + 1..], cups, hit, gone)
            && FrameGain(balls[i..], cups, hit, gone) == GainOf(o) + FrameGain(balls[i + 1..], cups, hit, gone)
  {
    assert balls[i..][1..] == balls[i + 1..];
  }

  /** The result of a frame: the new state, and whether the end screen was scheduled. */
  datatype FrameResult = FrameResult(next: State, endScheduled: bool)

  /**
   * The round-end check (script.js lines 110-113): once no throws are left
   * and no ball is in flight, a running round stops and schedules its end
   * screen.
   */
  function RoundEnd(s: State): (r: FrameResult)
    ensures r.endScheduled <==> s.running && s.ballsRemaining == 0 && s.balls == []
    ensures r.next == if r.endScheduled then s.(running := false) else s
  {
    if s.ballsRemaining == 0 && s.balls == [] && s.running then
      FrameResult(s.(running := false), true)
    else
      FrameResult(s, false)
  }

  /** One call of animate (script.js lines 78-113), rendering and particles aside. */
  function Tick(s: State, hit: (Ball, Cup) -> bool, gone: Ball -> bool): (r: FrameResult)
    ensures r.next.points >= s.points
    ensures r.next.ballsRemaining == s.ballsRemaining && r.next.cups == s.cups
    ensures |r.next.balls| <= |s.balls|
    ensures r.endScheduled <==> s.running && !r.next.running
    ensures r.endScheduled ==> r.next.ballsRemaining == 0 && r.next.balls == []
    ensures !s.running ==> !r.next.running
  {
    var moved := s.(points := s.points + FrameGain(s.balls, s.cups, hit, gone),
                    balls := Survivors(s.balls, s.cups, hit, gone));
    RoundEnd(moved)
  }

  // ---------------------------------------------------------------------
  // Properties of a frame

  /** The indices of the balls that stay in flight, in increasing order. */
  function KeptIndices(balls: seq<Ball>, cups: seq<Cup>, hit: (Ball, Cup) -> bool, gone: Ball -> bool): seq<nat> {
    if balls == [] then []
    else
      var rest := KeptIndices(balls[1..], cups, hit, gone);
      var shifted := seq(|rest|, j requires 0 <= j < |rest| => rest[j] + 1);
      (if Resolve(balls[0], cups, hit, gone).Flying? then [0] else []) + shifted
  }

  /** Survivor j is kept index j's ball, moved. */
  lemma {:induction false} KeptIndicesPick(balls: seq<Ball>, cups: seq<Cup>, hit: (Ball, Cup) -> bool, gone: Ball -> bool)
    ensures var ks := KeptIndices(balls, cups, hit, gone);
            var r := Survivors(balls, cups, hit, gone);
            && |ks| == |r|
            && (forall j :: 0 <= j < |ks| ==> ks[j] < |balls| && r[j] == Step(balls[ks[j]]))
  {
    if balls != [] {
      KeptIndicesPick(balls[1..], cups, hit, gone);
      var rest := KeptIndices(balls[1..], cups, hit, gone);
      forall j | 0 <= j < |rest| ensures balls[rest[j] + 1] == balls[1..][rest[j]] { }
    }
  }

  predicate Increasing(s: seq<nat>) {
    forall j, l :: 0 <= j < l < |s| ==> s[j] < s[l]
  }

  /** The kept indices are strictly increasing. */
  lemma {:induction false} KeptIndicesIncreasing(balls: seq<Ball>, cups: seq<Cup>, hit: (Ball, Cup) -> bool, gone: Ball -> bool)
    ensures Increasing(KeptIndices(balls, cups, hit, gone))
  {
    if balls != [] {
      KeptIndicesIncreasing(balls[1..], cups, hit, gone);
      var rest := KeptIndices(balls[1..], cups, hit, gone);
      var shifted := seq(|rest|, j requires 0 <= j < |rest| => rest[j] + 1);
      assert forall j :: 0 <= j < |shifted| ==> shifted[j] >= 1;
      var head: seq<nat> := if Resolve(balls[0], cups, hit, gone).Flying? then [0] else [];
      var ks := KeptIndices(balls, cups, hit, gone);
      assert ks == head + shifted;
      forall j, l | 0 <= j < l < |ks| ensures ks[j] < ks[l] {
        var h := |head|;
        assert ks[l] == shifted[l - h];
        if j >= h {
          assert ks[j] == shifted[j - h] && rest[j - h] < rest[l - h];
        }
      }
    }
  }

  /** An index is kept exactly when that ball neither scored nor left play. */
  lemma {:induction false} KeptIndicesExact(balls: seq<Ball>, cups: seq<Cup>, hit: (Ball, Cup) -> bool, gone: Ball -> bool)
    ensures var ks := KeptIndices(balls, cups, hit, gone);
            forall k :: 0 <= k < |balls| ==> (k in ks <==> Resolve(balls[k], cups, hit, gone).Flying?)
  {
    if balls != [] {
      var tail := balls[1..];
      KeptIndicesExact(tail, cups, hit, gone);
      var rest := KeptIndices(tail, cups, hit, gone);
      var shifted := seq(|rest|, j requires 0 <= j < |rest| => rest[j] + 1);
      var ks := KeptIndices(balls, cups, hit, gone);
      var head: seq<nat> := if Resolve(balls[0], cups, hit, gone).Flying? then [0] else [];
      assert ks == head + shifted;
      forall k | 0 <= k < |balls|
        ensures k in ks <==> Resolve(balls[k], cups, hit, gone).Flying?
      {
        if k > 0 {
          assert balls[k] == tail[k - 1];
          assert k in shifted ==> k - 1 in rest;
          if k - 1 in rest {
            var j :| 0 <= j < |rest| && rest[j] == k - 1;
            assert shifted[j] == k;
          }
        }
      }
    }
  }

  /**
   * A frame removes exactly the balls that scored or left play, and the
   * survivors are the others, moved, in their original order.
   */
  lemma SurvivorsKeepOrder(balls: seq<Ball>, cups: seq<Cup>, hit: (Ball, Cup) -> bool, gone: Ball -> bool)
    ensures var ks := KeptIndices(balls, cups, hit, gone);
            var r := Survivors(balls, cups, hit, gone);
            && |ks| == |r|
            && (forall j :: 0 <= j < |ks| ==> ks[j] < |balls| && r[j] == Step(balls[ks[j]]))
            && Increasing(ks)
            && (forall k :: 0 <= k < |balls| ==>
                  (k in ks <==> Resolve(balls[k], cups, hit, gone).Flying?))
  {
    KeptIndicesPick(balls, cups, hit, gone);
    KeptIndicesIncreasing(balls, cups, hit, gone);
    KeptIndicesExact(balls, cups, hit, gone);
  }

  /**
   * Each ball in flight is worth at most one gold cup: what a frame pays out
   * plus what its survivors could still earn never exceeds what the balls
   * could earn before it.
   */
  lemma {:induction false} FrameWithinBudget(balls: seq<Ball>, cups: seq<Cup>, hit: (Ball, Cup) -> bool, gone: Ball -> bool)
    ensures FrameGain(balls, cups, hit, gone) + BEST_CUP * |Survivors(balls, cups, hit, gone)| <= BEST_CUP * |balls|
  {
    if balls != [] {
      FrameWithinBudget(balls[1..], cups, hit, gone);
    }
  }

  /** A frame keeps the score budget, so a round never scores more than ten gold cups. */
  lemma TickKeepsBudget(s: State, hit: (Ball, Cup) -> bool, gone: Ball -> bool)
    requires Budgeted(s)
    ensures Budgeted(Tick(s, hit, gone).next)
    ensures Tick(s, hit, gone).next.points <= BEST_CUP * THROWS
  {
    FrameWithinBudget(s.balls, s.cups, hit, gone);
  }

  /**
   * Cups are never taken off the table, so a cup, the gold one included,
   * pays out again for every ball that lands in it, even in the same frame.
   */
  lemma {:induction false} EveryHitPays(balls: seq<Ball>, cups: seq<Cup>, hit: (Ball, Cup) -> bool, gone: Ball -> bool, c: nat)
    requires c < |cups|
    requires forall i :: 0 <= i < |balls| ==> FirstHit(Step(balls[i]), cups, hit) == Some(c)
    ensures FrameGain(balls, cups, hit, gone) == |balls| * Value(cups[c].tier)
    ensures Survivors(balls, cups, hit, gone) == []
  {
    if balls != [] {
      var tail := balls[1..];
      assert FirstHit(Step(balls[0]), cups, hit) == Some(c);
      assert Resolve(balls[0], cups, hit, gone) == Scored(c, Value(cups[c].tier));
      forall i | 0 <= i < |tail| ensures FirstHit(Step(tail[i]), cups, hit) == Some(c) {
        assert tail[i] == balls[i + 1];
      }
      EveryHitPays(tail, cups, hit, gone, c);
    }
  }

  // ---------------------------------------------------------------------
  // Sequences of events

  datatype Event =
    | StartRound        // the confirm-start button
    | Throw(aim: Vec3)  // a mousedown with the current aim velocity
    | Frame             // one animate call
    | ExitToMenu        // the exit button

  function Apply(s: State, e: Event, hit: (Ball, Cup) -> bool, gone: Ball -> bool): FrameResult {
    match e
    case StartRound => FrameResult(Start(s), false)
    case Throw(aim) => FrameResult(Launch(s, aim), false)
    case Frame => Tick(s, hit, gone)
    case ExitToMenu => FrameResult(Exit(s), false)
  }

  /**
   * What a run of events leaves behind: the state, the throws made (balls a
   * Throw event put in flight) and the end screens scheduled.
   */
  datatype Trace = Trace(final: State, throws: nat, endScreens: nat)

  /** The event is a throw that put a new ball in flight with its aim. */
  predicate Threw(s: State, e: Event, next: State) {
    e.Throw? && next.balls == s.balls + [Launched(e.aim)]
  }

  function Run(s: State, events: seq<Event>, hit: (Ball, Cup) -> bool, gone: Ball -> bool): Trace
    decreases |events|
  {
    if events == [] then Trace(s, 0, 0)
    else
      var step := Apply(s, events[0], hit, gone);
      var threw := if Threw(s, events[0], step.next) then 1 else 0;
      var rest := Run(step.next, events[1..], hit, gone);
      Trace(rest.final, rest.throws + threw, rest.endScreens + (if step.endScheduled then 1 else 0))
  }

  predicate NoRestart(events: seq<Event>) {
    forall i :: 0 <= i < |events| ==> !events[i].StartRound? && !events[i].ExitToMenu?
  }

  /**
   * Between resets every ball put in flight uses up one of the remaining
   * throws, which never go negative and are never given back; the score
   * never drops.
   */
  lemma {:induction false} ThrowBudget(s: State, events: seq<Event>, hit: (Ball, Cup) -> bool, gone: Ball -> bool)
    requires s.ballsRemaining >= 0
    requires NoRestart(events)
    ensures var t := Run(s, events, hit, gone);
            && t.final.ballsRemaining >= 0
            && t.throws + t.final.ballsRemaining == s.ballsRemaining
            && t.final.points >= s.points
    decreases |events|
  {
    if events != [] {
      var step := Apply(s, events[0], hit, gone);
      if events[0].Throw? {
        LaunchGuard(s, events[0].aim);
        if !(s.running && s.ballsRemaining > 0) {
          assert |step.next.balls| == |s.balls|;
        }
      }
      ThrowBudget(step.next, events[1..], hit, gone);
    }
  }

  /** After a start, at most ten balls are put in flight before the next start or exit. */
  lemma AtMostTenThrowsPerRound(s: State, events: seq<Event>, hit: (Ball, Cup) -> bool, gone: Ball -> bool)
    requires NoRestart(events)
    ensures Run(Start(s), events, hit, gone).throws <= THROWS
  {
    ThrowBudget(Start(s), events, hit, gone);
  }

  /**
   * The end screen is scheduled only by a running round, which it stops, and
   * only a start sets a round running again.
   */
  lemma {:induction false} EndScreenAtMostOnce(s: State, events: seq<Event>, hit: (Ball, Cup) -> bool, gone: Ball -> bool)
    requires forall i :: 0 <= i < |events| ==> !events[i].StartRound?
    ensures var t := Run(s, events, hit, gone);
            t.endScreens + (if t.final.running then 1 else 0) <= (if s.running then 1 else 0)
    decreases |events|
  {
    if events != [] {
      var step := Apply(s, events[0], hit, gone);
      assert step.endScheduled ==> s.running && !step.next.running;
      assert !s.running ==> !step.next.running;
      EndScreenAtMostOnce(step.next, events[1..], hit, gone);
    }
  }

  /** Hence a started round schedules its end screen at most once. */
  lemma OneEndScreenPerRound(s: State, events: seq<Event>, hit: (Ball, Cup) -> bool, gone: Ball -> bool)
    requires forall i :: 0 <= i < |events| ==> !events[i].StartRound?
    ensures Run(Start(s), events, hit, gone).endScreens <= 1
  {
    EndScreenAtMostOnce(Start(s), events, hit, gone);
  }

  /** Every event keeps the score budget: no round ends above ten gold cups. */
  lemma {:induction false} RunKeepsBudget(s: State, events: seq<Event>, hit: (Ball, Cup) -> bool, gone: Ball -> bool)
    requires Budgeted(s)
    ensures Budgeted(Run(s, events, hit, gone).final)
    ensures Run(s, events, hit, gone).final.points <= BEST_CUP * THROWS
    decreases |events|
  {
    if events != [] {
      if events[0].Frame? {
        TickKeepsBudget(s, hit, gone);
      }
      RunKeepsBudget(Apply(s, events[0], hit, gone).next, events[1..], hit, gone);
    }
  }
}
