/** Player input and the vertical physics step. */
module Physics {
  import opened Config
  import opened State

  /** A jump is taken only while running and standing on the ground. */
  function Jump(s: RunState): (r: RunState)
    ensures r.player.y == s.player.y
    ensures s.running && s.player.onGround ==>
              r == s.(player := Player(s.player.y, JumpV, false))
    ensures !(s.running && s.player.onGround) ==> r == s
  {
    if !s.running then s
    else if s.player.onGround then s.(player := s.player.(vy := JumpV, onGround := false))
    else s
  }

  /** Pressing jump again before landing does nothing. */
  lemma JumpIdempotent(s: RunState)
    ensures Jump(Jump(s)) == Jump(s)
  {
  }

  /** The ground clamp fires when the bottom edge reaches or passes the ground line. */
  predicate Lands(p: Player, ground: real) {
    p.y + p.vy + Gravity + PlayerH >= ground
  }

  /** One frame of gravity followed by the ground clamp. */
  function Fall(p: Player, ground: real): (r: Player)
    ensures r.y + PlayerH <= ground
    ensures Lands(p, ground) ==> r == Resting(ground)
    ensures !Lands(p, ground) ==>
              r.vy == p.vy + Gravity && r.y == p.y + r.vy && r.onGround == p.onGround
  {
    if Lands(p, ground) then Resting(ground)
    else
      var vy := p.vy + Gravity;
      Player(p.y + vy, vy, p.onGround)
  }

  /** The step keeps the player grounded, and afterwards the on-ground flag
      holds exactly when the bottom edge is on the ground line. */
  lemma FallKeepsGrounded(p: Player, ground: real)
    requires Grounded(p, ground)
    ensures Grounded(Fall(p, ground), ground)
    ensures Fall(p, ground).onGround <==> Fall(p, ground).y + PlayerH == ground
  {
    if p.onGround {
      assert Lands(p, ground);
    }
  }

  /** A player standing on the ground stays exactly where it is. */
  lemma RestingIsFixed(ground: real)
    ensures Fall(Resting(ground), ground) == Resting(ground)
  {
  }

  /** Jumping from the ground, the first frame moves the player up by
      9.5 pixels with vertical velocity -9.5. */
  lemma JumpThenFall(s: RunState, ground: real)
    requires s.running && s.player == Resting(ground)
    ensures Fall(Jump(s).player, ground) == Player(ground - PlayerH - 9.5, -9.5, false)
  {
    assert !Lands(Jump(s).player, ground);
  }
}
