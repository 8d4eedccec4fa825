/** The speed ramp: a timer accumulates frame time and, each time it reaches
    the interval, resets and raises the speed by one step up to the cap. */
module Speed {
  import opened Config
  import opened State

  /** One step of the ramp, clamped at the cap. */
  function Bump(speed: real): real {
    Min(MaxSpeed, speed + SpeedGain)
  }

  /** The ramp part of a frame. */
  function Accelerate(s: RunState, dt: real): (r: RunState)
    ensures r.accelTimer < SpeedEveryMs
    ensures s.accelTimer + dt >= SpeedEveryMs ==> r.accelTimer == 0.0 && r.speed == Bump(s.speed)
    ensures s.accelTimer + dt < SpeedEveryMs ==> r.accelTimer == s.accelTimer + dt && r.speed == s.speed
    ensures s.speed <= MaxSpeed ==> s.speed <= r.speed <= MaxSpeed
    ensures BaseSpeed <= s.speed ==> BaseSpeed <= r.speed
    ensures r == s.(speed := r.speed, accelTimer := r.accelTimer)
  {
    var timer := s.accelTimer + dt;
    if timer >= SpeedEveryMs then s.(accelTimer := 0.0, speed := Bump(s.speed))
    else s.(accelTimer := timer)
  }

  /** The speed after k steps of the ramp. */
  function BumpN(speed: real, k: nat): real {
    if k == 0 then speed else Bump(BumpN(speed, k - 1))
  }

  /** From the base speed, k steps give the base plus k increments, capped. */
  lemma {:induction false} BumpNClosedForm(k: nat)
    ensures BumpN(BaseSpeed, k) == Min(MaxSpeed, BaseSpeed + k as real * SpeedGain)
  {
    if k > 0 {
      var j: nat := k - 1;
      BumpNClosedForm(j);
      assert j as real * SpeedGain + SpeedGain == k as real * SpeedGain;
    }
  }

  /** The cap is first reached at the 62nd step. */
  lemma CapReachedAtStep62()
    ensures forall k: nat :: k < 62 ==> BumpN(BaseSpeed, k) < MaxSpeed
    ensures BumpN(BaseSpeed, 62) == MaxSpeed
  {
    forall k: nat | k < 62
      ensures BumpN(BaseSpeed, k) < MaxSpeed
    {
      BumpNClosedForm(k);
    }
    BumpNClosedForm(62);
  }
}
