/** The experience curve of `incrementLevel`: how much experience each level costs, and the
    settled (level, experience) pair that repeated level-ups reach. */
module Leveling {

  /** Experience needed to leave `level`: 50, 75, 100, 150 for levels 1 to 4, then
      level*100-300 from level 6 on; every other level below 6 (5, but also 0 and the
      negative levels the code never produces) takes the 200 branch. */
  function Threshold(level: int): (r: nat)
    ensures r >= 50
  {
    if level < 6 then
      if level == 1 then 50
      else if level == 2 then 75
      else if level == 3 then 100
      else if level == 4 then 150
      else 200
    else level * 100 - 300
  }

  /** The experience spent leveling from level `lo` up to level `hi`: the thresholds of
      the levels lo, lo+1, ..., hi-1. */
  function Consumed(lo: int, hi: int): (r: nat)
    ensures lo <= hi ==> r >= 50 * (hi - lo)
    decreases hi - lo
  {
    if lo >= hi then 0 else Threshold(lo) + Consumed(lo + 1, hi)
  }

  datatype Progress = Progress(level: int, xp: int)

  /** Level up while the experience reaches the current level's threshold. */
  function Settle(level: int, xp: int): (r: Progress)
    ensures r.level >= level
    ensures r.xp < Threshold(r.level)
    ensures xp >= 0 ==> r.xp >= 0
    decreases xp
  {
    if xp >= Threshold(level) then Settle(level + 1, xp - Threshold(level))
    else Progress(level, xp)
  }

  /** Settling loses no experience: what is left plus the thresholds of the levels gained
      is the experience settled. */
  lemma {:induction false} SettleConsumes(level: int, xp: int)
    ensures xp == Consumed(level, Settle(level, xp).level) + Settle(level, xp).xp
    decreases xp
  {
    if xp >= Threshold(level) {
      SettleConsumes(level + 1, xp - Threshold(level));
    }
  }

  /** Thresholds grow strictly from level 1 on: 50, 75, 100, 150, 200, 300, 400, ... */
  lemma ThresholdIncreasing(a: int, b: int)
    requires 1 <= a < b
    ensures Threshold(a) < Threshold(b)
  {
  }

  lemma {:induction false} ConsumedSplit(a: int, b: int, c: int)
    requires a <= b <= c
    ensures Consumed(a, c) == Consumed(a, b) + Consumed(b, c)
    decreases b - a
  {
    if a < b {
      ConsumedSplit(a + 1, b, c);
    }
  }

  /** Settle is the only settled split of the experience: any level at or above `level`
      whose thresholds, together with a remainder below the next threshold, add up to `xp`
      is the one `Settle` reaches. */
  lemma {:induction false} SettleUnique(level: int, xp: int, p: Progress)
    requires level <= p.level
    requires 0 <= p.xp < Threshold(p.level)
    requires xp == Consumed(level, p.level) + p.xp
    ensures Settle(level, xp) == p
    decreases p.level - level
  {
    if level < p.level {
      SettleUnique(level + 1, xp - Threshold(level), p);
    }
  }

  /** A settled state is a fixed point: settling again, or awarding 0, changes nothing. */
  lemma SettleIdempotent(level: int, xp: int)
    ensures Settle(Settle(level, xp).level, Settle(level, xp).xp) == Settle(level, xp)
  {
  }

  /** Awarding x and then y, settling after each, ends where awarding x + y at once does. */
  lemma SettleThenAward(level: int, x: int, y: int)
    requires x >= 0 && y >= 0
    ensures var a := Settle(level, x);
            Settle(a.level, a.xp + y) == Settle(level, x + y)
  {
    var a := Settle(level, x);
    var b := Settle(a.level, a.xp + y);
    SettleConsumes(level, x);
    SettleConsumes(a.level, a.xp + y);
    ConsumedSplit(level, a.level, b.level);
    SettleUnique(level, x + y, b);
  }

  /** More experience never yields a lower level. */
  lemma {:induction false} SettleMonotone(level: int, x1: int, x2: int)
    requires x1 <= x2
    ensures Settle(level, x1).level <= Settle(level, x2).level
    decreases x2
  {
    if x1 >= Threshold(level) {
      SettleMonotone(level + 1, x1 - Threshold(level), x2 - Threshold(level));
    }
  }

  /** The examples of the leveling curve: 50 points take a new user to level 2, 60 leave 10
      over, and 225 climb three levels (50 + 75 + 100) to level 4 with nothing left. */
  lemma SettleExamples()
    ensures Settle(1, 50) == Progress(2, 0)
    ensures Settle(1, 60) == Progress(2, 10)
    ensures Settle(1, 225) == Progress(4, 0)
  {
    assert Settle(3, 100) == Progress(4, 0);
    assert Settle(2, 175) == Progress(4, 0);
  }
}
