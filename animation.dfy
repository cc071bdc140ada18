/** The part of an animation player that the gameplay systems observe and
    drive: which clips are active (with their repeat and speed settings), and
    whether all active clips have finished, which the animation library reports. */
module Animation {

  /** The four clips of the shared animation graph. */
  datatype Clip = IdleClip | RunClip | PunchClip | JumpClip

  datatype Playback = Playback(repeat: bool, speed: real)

  datatype AnimPlayer = AnimPlayer(active: map<Clip, Playback>, allFinished: bool)

  predicate IsPlaying(a: AnimPlayer, c: Clip) {
    c in a.active
  }

  /** The settings every system gives a clip when it starts it: the looping
      clips repeat (running at one and a half times speed), the one-shot
      punch and jump clips do not. */
  function Settings(c: Clip): (p: Playback)
    ensures p.repeat <==> c == IdleClip || c == RunClip
    ensures p.speed == (if c == RunClip then 1.5 else 1.0)
  {
    match c
    case IdleClip => Playback(true, 1.0)
    case RunClip => Playback(true, 1.5)
    case PunchClip => Playback(false, 1.0)
    case JumpClip => Playback(false, 1.0)
  }

  /** Start clip `c` unless it is already playing. Starting a clip leaves the
      other active clips as they are. */
  function Select(a: AnimPlayer, c: Clip): (r: AnimPlayer)
    ensures IsPlaying(r, c)
    ensures IsPlaying(a, c) ==> r == a
    ensures !IsPlaying(a, c) ==> r.active[c] == Settings(c)
    ensures forall d :: d != c ==> (d in r.active <==> d in a.active)
    ensures forall d :: d != c && d in a.active ==> r.active[d] == a.active[d]
    ensures r.allFinished == a.allFinished
  {
    if IsPlaying(a, c) then a else a.(active := a.active[c := Settings(c)])
  }

  /** Selecting the same clip again has no further effect. */
  lemma SelectIdempotent(a: AnimPlayer, c: Clip)
    ensures Select(Select(a, c), c) == Select(a, c)
  {
  }
}
