/**
 * The page's mutable game state (script.js lines 3, 10 and 11) and the
 * handlers that change it in place. Each method is proved to leave the
 * state that the matching function of module Round describes.
 */
module Game {
  import opened Wrappers
  import opened Physics
  import opened Cups
  import Round

  /**
   * The cup scan inside the frame loop (script.js lines 92-103): the first
   * cup, in table order, that the ball is in.
   */
  method FindHit(b: Ball, cups: seq<Cup>, hit: (Ball, Cup) -> bool) returns (k: Option<nat>)
    ensures k.None? ==> forall j :: 0 <= j < |cups| ==> !hit(b, cups[j])
    ensures k.Some? ==> k.value < |cups| && hit(b, cups[k.value])
    ensures k.Some? ==> forall j :: 0 <= j < k.value ==> !hit(b, cups[j])
    ensures k == Round.FirstHit(b, cups, hit)
  {
    var i := 0;
    while i < |cups|
      invariant 0 <= i <= |cups|
      invariant forall j :: 0 <= j < i ==> !hit(b, cups[j])
    {
      if hit(b, cups[i]) {
        k := Some(i);
        FirstHitUnique(b, cups, hit, i);
        return;
      }
      i := i + 1;
    }
    k := None;
  }

  /** The first cup a ball is in is the one Round.FirstHit names. */
  lemma FirstHitUnique(b: Ball, cups: seq<Cup>, hit: (Ball, Cup) -> bool, i: nat)
    requires i < |cups| && hit(b, cups[i])
    requires forall j :: 0 <= j < i ==> !hit(b, cups[j])
    ensures Round.FirstHit(b, cups, hit) == Some(i)
  {
    var k := Round.FirstHit(b, cups, hit);
    if k.Some? {
      assert !(k.value < i) && !(i < k.value);
    }
  }

  /**
   * In p + [x] + k, index |p| holds x; overwriting it with y, or splicing it
   * out, leaves p and k intact.
   */
  lemma SpliceAt(p: seq<Ball>, x: Ball, y: Ball, k: seq<Ball>)
    ensures (p + [x] + k)[|p|] == x
    ensures (p + [x] + k)[|p| := y] == p + [y] + k
    ensures (p + [y] + k)[..|p|] + (p + [y] + k)[|p| + 1..] == p + k
  {
    assert (p + [y] + k)[..|p|] == p;
    assert (p + [y] + k)[|p| + 1..] == k;
  }

  class Game {
    var points: int
    var ballsRemaining: int
    var isGameRunning: bool
    var activeBalls: seq<Ball>
    var targetCups: seq<Cup>

    /** The state as a value, as module Round speaks of it. */
    function Snapshot(): Round.State
      reads this
    {
      Round.State(points, ballsRemaining, isGameRunning, activeBalls, targetCups)
    }

    /** The page's start-up: the initial game state, then the cups (init, createWorld). */
    constructor ()
      ensures Snapshot() == Round.Initial(Layout())
      ensures Round.Budgeted(Snapshot())
    {
      points := 0;
      ballsRemaining := Round.THROWS;
      isGameRunning := false;
      activeBalls := [];
      targetCups := [];
      new;
      CreateWorld();
    }

    /** Pushes the cups row by row, front row first (script.js lines 51-63). */
    method CreateWorld()
      modifies this
      ensures Snapshot() == old(Snapshot()).(cups := old(targetCups) + Layout())
    {
      var rowIndex := 0;
      while rowIndex < |ROWS|
        invariant 0 <= rowIndex <= |ROWS|
        invariant targetCups == old(targetCups) + LayoutPrefix(ROWS, rowIndex)
        invariant points == old(points) && ballsRemaining == old(ballsRemaining)
        invariant isGameRunning == old(isGameRunning) && activeBalls == old(activeBalls)
      {
        PushRow(rowIndex, ROWS[rowIndex]);
        rowIndex := rowIndex + 1;
      }
    }

    /** The inner loop of createWorld (script.js lines 55-61): one row's cups, left to right. */
    method PushRow(rowIndex: nat, count: nat)
      modifies this
      ensures Snapshot() == old(Snapshot()).(cups := old(targetCups) + Row(rowIndex, count))
    {
      ghost var row := Row(rowIndex, count);
      var i := 0;
      while i < count
        invariant 0 <= i <= count
        invariant targetCups == old(targetCups) + row[..i]
        invariant points == old(points) && ballsRemaining == old(ballsRemaining)
        invariant isGameRunning == old(isGameRunning) && activeBalls == old(activeBalls)
      {
        targetCups := targetCups + [CupAt(rowIndex, count, i)];
        assert row[..i + 1] == row[..i] + [row[i]];
        i := i + 1;
      }
      assert row[..count] == row;
    }

    /** resetGameplayState (script.js lines 177-186). */
    method ResetGameplayState()
      modifies this
      ensures Snapshot() == Round.ResetGameplay(old(Snapshot()))
    {
      points := 0;
      ballsRemaining := Round.THROWS;
      activeBalls := [];
    }

    /** The confirm-start button (script.js lines 128-132). */
    method ConfirmStart()
      modifies this
      ensures Snapshot() == Round.Start(old(Snapshot()))
    {
      ResetGameplayState();
      isGameRunning := true;
    }

    /** exitToMainMenu (script.js lines 165-175), the state fields only. */
    method ExitToMainMenu()
      modifies this
      ensures Snapshot() == Round.Exit(old(Snapshot()))
    {
      isGameRunning := false;
      ResetGameplayState();
    }

    /** The mousedown handler (script.js lines 151-162), throwing with the current aim. */
    method MouseDown(aim: Vec3)
      modifies this
      ensures Snapshot() == Round.Launch(old(Snapshot()), aim)
    {
      if isGameRunning && ballsRemaining > 0 {
        activeBalls := activeBalls + [Launched(aim)];
        ballsRemaining := ballsRemaining - 1;
      }
    }

    /**
     * The body of the frame loop for the ball at index i (script.js lines
     * 79-107): move it, then score it in the first cup it is in, or drop it
     * if it left play, splicing it out of the list; otherwise it stays, moved.
     */
    method ResolveBall(i: nat, hit: (Ball, Cup) -> bool, gone: Ball -> bool)
      requires i < |activeBalls|
      modifies this
      ensures var o := Round.Resolve(old(activeBalls[i]), targetCups, hit, gone);
              && activeBalls == old(activeBalls[..i]) + Round.KeptOf(o) + old(activeBalls[i + 1..])
              && points == old(points) + Round.GainOf(o)
      ensures ballsRemaining == old(ballsRemaining) && isGameRunning == old(isGameRunning)
      ensures targetCups == old(targetCups)
    {
      ghost var o := Round.Resolve(activeBalls[i], targetCups, hit, gone);
      ghost var done := activeBalls[..i];
      ghost var kept := activeBalls[i + 1..];
      assert activeBalls == done + [activeBalls[i]] + kept;
      var b := Step(activeBalls[i]);
      SpliceAt(done, activeBalls[i], b, kept);
      activeBalls := activeBalls[i := b];
      var removed := false;
      var k := FindHit(b, targetCups, hit);
      if k.Some? {
        points := points + Value(targetCups[k.value].tier);
        activeBalls := activeBalls[..i] + activeBalls[i + 1..];
        removed := true;
        assert activeBalls == done + Round.KeptOf(o) + kept;
      }
      if !removed && gone(b) {
        activeBalls := activeBalls[..i] + activeBalls[i + 1..];
        assert activeBalls == done + Round.KeptOf(o) + kept;
      }
    }

    /**
     * The frame loop (script.js lines 78-108): walks the balls from last to
     * first and resolves each one, so that exactly the survivors remain, in
     * order, and the points grow by what the frame scored.
     */
    method MoveBalls(hit: (Ball, Cup) -> bool, gone: Ball -> bool)
      modifies this
      ensures activeBalls == Round.Survivors(old(activeBalls), targetCups, hit, gone)
      ensures points == old(points) + Round.FrameGain(old(activeBalls), targetCups, hit, gone)
      ensures ballsRemaining == old(ballsRemaining) && isGameRunning == old(isGameRunning)
      ensures targetCups == old(targetCups)
    {
      ghost var balls := activeBalls;
      var i := |activeBalls|;
      while i > 0
        invariant 0 <= i <= |balls|
        invariant activeBalls == balls[..i] + Round.Survivors(balls[i..], targetCups, hit, gone)
        invariant points == old(points) + Round.FrameGain(balls[i..], targetCups, hit, gone)
        invariant ballsRemaining == old(ballsRemaining) && isGameRunning == old(isGameRunning)
        invariant targetCups == old(targetCups)
      {
        i := i - 1;
        Round.SuffixStep(balls, i, targetCups, hit, gone);
        ghost var done := balls[..i];
        ghost var kept := Round.Survivors(balls[i + 1..], targetCups, hit, gone);
        assert balls[..i + 1] == done + [balls[i]];
        assert activeBalls == done + [balls[i]] + kept;
        assert activeBalls[..i] == done && activeBalls[i] == balls[i] && activeBalls[i + 1..] == kept;
        ResolveBall(i, hit, gone);
      }
      assert balls[0..] == balls;
    }

    /** The round-end check (script.js lines 110-113). */
    method CheckRoundEnd() returns (endScheduled: bool)
      modifies this
      ensures Round.FrameResult(Snapshot(), endScheduled) == Round.RoundEnd(old(Snapshot()))
    {
      if ballsRemaining == 0 && |activeBalls| == 0 && isGameRunning {
        isGameRunning := false;
        endScheduled := true;
      } else {
        endScheduled := false;
      }
    }

    /** One animation frame's game logic (script.js lines 78-113). */
    method Animate(hit: (Ball, Cup) -> bool, gone: Ball -> bool) returns (endScheduled: bool)
      modifies this
      ensures Round.FrameResult(Snapshot(), endScheduled) == Round.Tick(old(Snapshot()), hit, gone)
    {
      MoveBalls(hit, gone);
      endScheduled := CheckRoundEnd();
    }
  }
}
