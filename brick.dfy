/** A brick (Brick.cs): hit points and score scaled by the difficulty level,
    one hit point lost per hit, destruction at zero or below with its score
    and removal calls, and the index of the colour that shows the remaining
    hit points. */
module Bricks {
  import opened Mathf

  datatype Option<T> = None | Some(value: T)

  /** The calls a brick makes on its collaborators, in order:
      GameManager.AddScore, BrickManager.RemoveBrick and Object.Destroy of
      its game object. */
  datatype Call = AddScore(points: int) | RemoveBrick | DestroyGameObject

  /** C#'s `/` on int, which truncates toward zero: the remainder takes the
      sign of the dividend. */
  function TruncDiv(a: int, d: int): (q: int)
    requires d > 0
    ensures a >= 0 ==> 0 <= a - q * d < d
    ensures a < 0 ==> -d < a - q * d <= 0
  {
    if a >= 0 then a / d else -((-a) / d)
  }

  /** Hit points at a difficulty level: one more than the base every three
      levels above level 1. Truncation makes levels -1 and 0 give the base
      too. */
  function DifficultyHitPoints(baseHitPoints: int, level: int): (hp: int)
    ensures level >= 1 ==> 3 * (hp - baseHitPoints) <= level - 1 < 3 * (hp - baseHitPoints) + 3
    ensures -1 <= level <= 3 ==> hp == baseHitPoints
  {
    baseHitPoints + TruncDiv(level - 1, 3)
  }

  /** Three levels more give exactly one hit point more. */
  lemma DifficultyEveryThirdLevel(baseHitPoints: int, level: int)
    requires level >= 1
    ensures DifficultyHitPoints(baseHitPoints, level + 3) == DifficultyHitPoints(baseHitPoints, level) + 1
  {
  }

  /** From level 1 on, hit points never fall as the level rises. */
  lemma {:induction false} DifficultyMonotone(baseHitPoints: int, level: int, higher: int)
    requires 1 <= level <= higher
    ensures DifficultyHitPoints(baseHitPoints, level) <= DifficultyHitPoints(baseHitPoints, higher)
    decreases higher - level
  {
    if level < higher {
      DifficultyMonotone(baseHitPoints, level + 1, higher);
      assert DifficultyHitPoints(baseHitPoints, level) <= DifficultyHitPoints(baseHitPoints, level + 1);
    }
  }

  /** The state colour for the remaining hit points: one colour per hit
      point, the first colour at one hit point or fewer, the last one for
      every count beyond the palette. */
  function ColorIndex(hitPoints: int, colorCount: nat): (r: nat)
    requires colorCount > 0
    ensures r < colorCount
    ensures 1 <= hitPoints <= colorCount ==> r == hitPoints - 1
    ensures hitPoints <= 1 ==> r == 0
    ensures hitPoints >= colorCount ==> r == colorCount - 1
  {
    ClampInt(hitPoints - 1, 0, colorCount - 1)
  }

  /** Total points a sequence of calls adds to the score. */
  function ScoreAdded(calls: seq<Call>): int
  {
    if calls == [] then 0
    else
      var last := calls[|calls| - 1];
      ScoreAdded(calls[..|calls| - 1]) + (if last.AddScore? then last.points else 0)
  }

  lemma {:induction false} ScoreAddedAppend(a: seq<Call>, b: seq<Call>)
    ensures ScoreAdded(a + b) == ScoreAdded(a) + ScoreAdded(b)
    decreases |b|
  {
    if b != [] {
      var init := b[..|b| - 1];
      assert (a + b)[..|a + b| - 1] == a + init;
      assert (a + b)[|a + b| - 1] == b[|b| - 1];
      ScoreAddedAppend(a, init);
    } else {
      assert a + b == a;
    }
  }

  /** The calls of Brick.Destroy: the score once, the removal only when a
      brick manager was found, then the game object. */
  function DestroyCalls(scoreValue: int, hasBrickManager: bool): (calls: seq<Call>)
    ensures ScoreAdded(calls) == scoreValue
    ensures (RemoveBrick in calls) == hasBrickManager
    ensures |calls| > 0 && calls[|calls| - 1] == DestroyGameObject
  {
    var removal := if hasBrickManager then [RemoveBrick] else [];
    ScoreAddedAppend([AddScore(scoreValue)], removal);
    ScoreAddedAppend([AddScore(scoreValue)] + removal, [DestroyGameObject]);
    [AddScore(scoreValue)] + removal + [DestroyGameObject]
  }

  /** How many of `hits` successive hits on a brick with `hitPoints` left end
      in Destroy: every hit that leaves zero or fewer, including the hits
      after the first destroying one. */
  function DestroyCount(hitPoints: int, hits: nat): nat
  {
    if hits == 0 then 0
    else DestroyCount(hitPoints, hits - 1) + (if hitPoints - hits <= 0 then 1 else 0)
  }

  /** Closed form: no hit destroys before the remaining hit points (at least
      one) are used up, and from then on every hit does. */
  lemma {:induction false} DestroyCountClosedForm(hitPoints: int, hits: nat)
    ensures var first := if hitPoints < 1 then 1 else hitPoints;
      DestroyCount(hitPoints, hits) == if hits < first then 0 else hits - first + 1
  {
    if hits > 0 {
      DestroyCountClosedForm(hitPoints, hits - 1);
    }
  }

  lemma MulSucc(a: int, n: int)
    ensures a * (n + 1) == a * n + a
  {
  }

  class Brick {
    const baseHitPoints: int
    const baseScoreValue: int
    /** stateColors.Length, 0 when the array is missing or empty. */
    const colorCount: nat
    const hasBrickManager: bool

    var hitPoints: int
    var scoreValue: int
    /** The index of the state colour last given to the sprite renderer. */
    var colorIndex: Option<nat>

    /** Every call made on the collaborators, oldest first. */
    ghost var log: seq<Call>
    /** Length of the log, hit points and hits counted since the last
        SetDifficulty (or since Awake). */
    ghost var mark: nat
    ghost var startHitPoints: int
    ghost var hits: nat

    /** Each hit took one hit point, and the score handed out since the
        difficulty was set is the score value once per destroying hit. */
    ghost predicate Valid()
      reads this
    {
      mark <= |log|
      && hitPoints == startHitPoints - hits
      && ScoreAdded(log[mark..]) == scoreValue * DestroyCount(startHitPoints, hits)
    }

    /** Hit points used up; since the difficulty was set, that is once the
        hits have reached the hit points it gave. */
    function ShouldBeDestroyed(): (r: bool)
      reads this
      ensures r <==> hitPoints <= 0
      ensures Valid() ==> (r <==> hits >= startHitPoints)
    {
      hitPoints <= 0
    }

    /** Awake: hit points and score are still 0 and the colour is set for
        them. */
    constructor (baseHitPoints: int, baseScoreValue: int, colorCount: nat, hasBrickManager: bool)
      ensures this.baseHitPoints == baseHitPoints && this.baseScoreValue == baseScoreValue
      ensures this.colorCount == colorCount && this.hasBrickManager == hasBrickManager
      ensures hitPoints == 0 && scoreValue == 0 && log == []
      ensures colorIndex == if colorCount > 0 then Some(0) else None
      ensures Valid()
    {
      this.baseHitPoints := baseHitPoints;
      this.baseScoreValue := baseScoreValue;
      this.colorCount := colorCount;
      this.hasBrickManager := hasBrickManager;
      hitPoints, scoreValue, colorIndex := 0, 0, None;
      log, mark, startHitPoints, hits := [], 0, 0, 0;
      new;
      UpdateColor();
    }

    method SetDifficulty(level: int)
      modifies this
      ensures hitPoints == DifficultyHitPoints(baseHitPoints, level)
      ensures scoreValue == baseScoreValue * level
      ensures colorIndex == if colorCount > 0 then Some(ColorIndex(hitPoints, colorCount)) else old(colorIndex)
      ensures log == old(log)
      ensures startHitPoints == hitPoints && hits == 0 && mark == |log|
      ensures Valid()
    {
      hitPoints := baseHitPoints + TruncDiv(level - 1, 3);
      scoreValue := baseScoreValue * level;
      UpdateColor();
      mark, startHitPoints, hits := |log|, hitPoints, 0;
    }

    /** One hit point less; at zero or below the brick is destroyed, otherwise
        recoloured. Nothing stops a hit on a brick already at zero: it is
        destroyed, and scores, again. */
    method Hit()
      requires Valid()
      modifies this`hitPoints, this`colorIndex, this`log, this`hits
      ensures hitPoints == old(hitPoints) - 1 && hits == old(hits) + 1
      ensures ShouldBeDestroyed() ==>
        log == old(log) + DestroyCalls(scoreValue, hasBrickManager) && colorIndex == old(colorIndex)
      ensures !ShouldBeDestroyed() ==>
        log == old(log)
        && colorIndex == if colorCount > 0 then Some(ColorIndex(hitPoints, colorCount)) else old(colorIndex)
      ensures Valid()
    {
      hitPoints := hitPoints - 1;
      hits := hits + 1;
      if hitPoints <= 0 {
        ghost var before := log;
        ghost var destroyed := DestroyCount(startHitPoints, hits - 1);
        Destroy();
        ghost var calls := DestroyCalls(scoreValue, hasBrickManager);
        assert log[mark..] == before[mark..] + calls;
        ScoreAddedAppend(before[mark..], calls);
        assert DestroyCount(startHitPoints, hits) == destroyed + 1;
        MulSucc(scoreValue, destroyed);
      } else {
        assert DestroyCount(startHitPoints, hits) == DestroyCount(startHitPoints, hits - 1);
        UpdateColor();
      }
    }

    /** Adds the score value to the score once, removes the brick from the
        brick manager when there is one, and destroys the game object. */
    method Destroy()
      modifies this`log
      ensures log == old(log) + DestroyCalls(scoreValue, hasBrickManager)
    {
      log := log + [AddScore(scoreValue)];
      if hasBrickManager {
        log := log + [RemoveBrick];
      }
      log := log + [DestroyGameObject];
    }

    /** With a non-empty palette, shows the colour for the remaining hit
        points; otherwise takes no index. */
    method UpdateColor()
      modifies this`colorIndex
      ensures colorIndex == if colorCount > 0 then Some(ColorIndex(hitPoints, colorCount)) else old(colorIndex)
    {
      if colorCount > 0 {
        colorIndex := Some(ColorIndex(hitPoints, colorCount));
      }
    }
  }
}
