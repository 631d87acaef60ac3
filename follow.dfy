/** The follow (spectate) selector: a circular search over the world's player slots. */
module Follow {
  import opened Types

  /**
   * Whether the slot may become the followed player: it is occupied, on the local
   * team when the local player is on a playing team (myTeam < 2), alive when in
   * addition the skip-dead setting is on, has a usable front vector, and is not a
   * spectator itself.
   */
  predicate Eligible(s: Slot, myTeam: int, skipDead: bool) {
    && s.Some?
    && !(myTeam < 2 && s.value.team != myTeam)
    && !(myTeam < 2 && skipDead && !s.value.alive)
    && s.value.hasValidFront
    && s.value.team < 2
  }

  /** The slot reached after k single steps from `start` in the chosen direction, wrapping over n slots. */
  function Pos(start: int, k: int, n: int, reverse: bool): (p: int)
    requires 0 <= start < n && 0 <= k <= n
    ensures 0 <= p < n
    ensures p == start <==> k == 0 || k == n
  {
    if !reverse then
      (if start + k < n then start + k else start + k - n)
    else
      (if start - k >= 0 then start - k else start - k + n)
  }

  /**
   * The number of steps, from step k on, until the search stops: at the first
   * eligible slot, or after a full turn (step n lands back on the start).
   */
  function StopStep(slots: seq<Slot>, start: int, reverse: bool, myTeam: int, skipDead: bool, k: int): (j: int)
    requires 0 <= start < |slots| && 1 <= k <= |slots|
    ensures k <= j <= |slots|
    ensures forall i :: k <= i < j ==> !Eligible(slots[Pos(start, i, |slots|, reverse)], myTeam, skipDead)
    ensures j < |slots| ==> Eligible(slots[Pos(start, j, |slots|, reverse)], myTeam, skipDead)
    decreases |slots| - k
  {
    if k == |slots| || Eligible(slots[Pos(start, k, |slots|, reverse)], myTeam, skipDead) then k
    else StopStep(slots, start, reverse, myTeam, skipDead, k + 1)
  }

  /** The slot FollowNextPlayer moves the followed player to. */
  function NextTarget(slots: seq<Slot>, start: int, reverse: bool, myTeam: int, skipDead: bool): (r: int)
    requires 0 <= start < |slots|
    ensures 0 <= r < |slots|
    ensures Eligible(slots[r], myTeam, skipDead) || r == start
    ensures (forall i :: 0 <= i < |slots| ==> !Eligible(slots[i], myTeam, skipDead)) ==> r == start
  {
    Pos(start, StopStep(slots, start, reverse, myTeam, skipDead, 1), |slots|, reverse)
  }

  /** The search stops at step j exactly when j is the first eligible step (or the full turn). */
  lemma StopStepIsFirst(slots: seq<Slot>, start: int, reverse: bool, myTeam: int, skipDead: bool, j: int)
    requires 0 <= start < |slots| && 1 <= j <= |slots|
    requires forall i :: 1 <= i < j ==> !Eligible(slots[Pos(start, i, |slots|, reverse)], myTeam, skipDead)
    requires j == |slots| || Eligible(slots[Pos(start, j, |slots|, reverse)], myTeam, skipDead)
    ensures StopStep(slots, start, reverse, myTeam, skipDead, 1) == j
    ensures NextTarget(slots, start, reverse, myTeam, skipDead) == Pos(start, j, |slots|, reverse)
  {
  }

  /** Walking i steps back from the slot j steps ahead lands j - i steps ahead. */
  lemma PosBack(start: int, j: int, i: int, n: int, reverse: bool)
    requires 0 <= start < n && 0 <= i <= j <= n
    ensures Pos(Pos(start, j, n, reverse), i, n, !reverse) == Pos(start, j - i, n, reverse)
  {
  }

  /**
   * Stepping once in one direction and once in the other returns to an eligible
   * start slot: every slot skipped on the way out is skipped again on the way back.
   */
  lemma {:induction false} FollowThereAndBack(slots: seq<Slot>, start: int, reverse: bool, myTeam: int, skipDead: bool)
    requires 0 <= start < |slots|
    requires Eligible(slots[start], myTeam, skipDead)
    ensures NextTarget(slots, NextTarget(slots, start, reverse, myTeam, skipDead), !reverse, myTeam, skipDead) == start
  {
    var n := |slots|;
    var j := StopStep(slots, start, reverse, myTeam, skipDead, 1);
    var mid := Pos(start, j, n, reverse);
    var back := !reverse;
    forall i | 1 <= i < j
      ensures !Eligible(slots[Pos(mid, i, n, back)], myTeam, skipDead)
    {
      PosBack(start, j, i, n, reverse);
    }
    PosBack(start, j, j, n, reverse);
    StopStepIsFirst(slots, mid, !reverse, myTeam, skipDead, j);
  }
}
