/** Score and high score. The stored high score is a plain field here. */
module Score {
  import opened State

  /** Sets the score and raises the high score to it when it is exceeded. */
  function SetScore(s: RunState, n: nat): (r: RunState)
    ensures r.score == n
    ensures r.high >= s.high && r.high >= n
    ensures r.high == s.high || r.high == n
    ensures r == s.(score := n, high := r.high)
  {
    if n > s.high then s.(score := n, high := n) else s.(score := n)
  }
}
