/** Round robin counted in grants: a turn of the rotation can go to a waiter that was cancelled and has not resumed. */
module FairGrants {
  import opened Wrappers
  import opened FairPool

  /** The turns of a key after the first `n`. */
  function TurnsOf(turns: seq<Turn>, key: Key, n: nat): nat {
    if |turns| <= n then 0
    else TurnsOf(turns[..|turns| - 1], key, n) + if turns[|turns| - 1].key == key then 1 else 0
  }

  /** Those that were grants, and those that were not. */
  function GrantsOf(turns: seq<Turn>, key: Key, n: nat, granted: bool): nat {
    if |turns| <= n then 0
    else
      var last := turns[|turns| - 1];
      GrantsOf(turns[..|turns| - 1], key, n, granted) + if last.key == key && last.granted == granted then 1 else 0
  }

  lemma {:induction false} TurnsSplit(turns: seq<Turn>, key: Key, n: nat)
    ensures TurnsOf(turns, key, n) == GrantsOf(turns, key, n, true) + GrantsOf(turns, key, n, false)
  {
    if |turns| > n {
      TurnsSplit(turns[..|turns| - 1], key, n);
    }
  }

  /** `k` has someone in its queue throughout. */
  ghost predicate Queues(path: seq<Pool>, k: Key) {
    forall p :: p in path ==> k in p.waiters
  }

  function Ahead(p: Pool, x: Key, k: Key): nat {
    if x in Front(p.rotation, k) then 1 else 0
  }

  /** One step: `x` takes a turn only from the front of `k`, and gets there again only by a turn of `k`. */
  lemma StepKeepsPace(p: Pool, step: Step, k: Key, x: Key, n: nat)
    requires Inv(p) && Enabled(p, step) && k in p.waiters && k in Apply(p, step).waiters && x != k && n <= |p.turns|
    ensures var q := Apply(p, step);
            && n <= |q.turns|
            && TurnsOf(q.turns, x, n) + Ahead(q, x, k) + TurnsOf(p.turns, k, n)
               <= TurnsOf(p.turns, x, n) + Ahead(p, x, k) + TurnsOf(q.turns, k, n)
  {
    hide Inv, Front;
    var q := Apply(p, step);
    if step == Pop {
      PopIsTurn(p);
      if p.rotation[0] == k {
        NobodyAhead(p.rotation, k);
      } else {
        StepShrinksFront(p, step, k);
      }
    } else {
      StepShrinksFront(p, step, k);
    }
  }

  lemma PopIsTurn(p: Pool)
    requires Enabled(p, Pop)
    ensures var q := PopFront(p);
            |q.turns| == |p.turns| + 1 && q.turns[..|p.turns|] == p.turns && q.turns[|p.turns|].key == p.rotation[0]
  {
  }

  lemma NobodyAhead(rotation: seq<Key>, k: Key)
    requires rotation != [] && rotation[0] == k
    ensures Front(rotation, k) == {}
  {
  }

  /** While a key has someone in its queue, every other key takes at most one turn more than it does. */
  lemma {:induction false} TurnsKeepPace(path: seq<Pool>, k: Key, x: Key)
    requires IsPath(path) && Queues(path, k) && x != k
    ensures var p, n := path[|path| - 1], |path[0].turns|;
            && Inv(p) && n <= |p.turns|
            && TurnsOf(p.turns, x, n) + Ahead(p, x, k) <= TurnsOf(p.turns, k, n) + 1
    decreases |path|
  {
    hide Inv, Front, Enabled, Apply, Ahead;
    if |path| == 1 {
      AheadOnce(path[0], x, k);
    } else {
      var init := path[..|path| - 1];
      var p, q := init[|init| - 1], path[|path| - 1];
      assert forall y :: y in init ==> y in path;
      TurnsKeepPace(init, k, x);
      assert FairPool.Follows(p, q);
      var step :| Enabled(p, step) && q == Apply(p, step);
      assert p in path && q in path;
      StepKeepsInv(p, step);
      StepKeepsPace(p, step, k, x, |path[0].turns|);
    }
  }

  lemma AheadOnce(p: Pool, x: Key, k: Key)
    ensures Ahead(p, x, k) <= 1
  {
  }

  /** In grants: while a key has someone in its queue, every other key is granted at most one slot more than it is,
      and one more for each of its turns that went to a cancelled waiter. */
  lemma GrantsKeepPace(path: seq<Pool>, k: Key, x: Key)
    requires IsPath(path) && Queues(path, k) && x != k
    ensures var turns, n := path[|path| - 1].turns, |path[0].turns|;
            GrantsOf(turns, x, n, true) <= GrantsOf(turns, k, n, true) + GrantsOf(turns, k, n, false) + 1
  {
    hide Queues, TurnsOf, GrantsOf, Ahead;
    var turns, n := path[|path| - 1].turns, |path[0].turns|;
    TurnsKeepPace(path, k, x);
    TurnsSplit(turns, x, n);
    TurnsSplit(turns, k, n);
  }

  /** Between two grants of a key that has someone in its queue, with at most `dead` of its turns gone to cancelled
      waiters, every other key is granted at most one slot. */
  ghost predicate OneGrantEach(dead: nat) {
    forall path: seq<Pool>, k: Key, x: Key :: IsPath(path) && Queues(path, k) && x != k && Quiet(path, k, dead) ==>
      OneGrant(path, x)
  }

  ghost predicate OneGrant(path: seq<Pool>, x: Key)
    requires path != []
  {
    GrantsOf(path[|path| - 1].turns, x, |path[0].turns|, true) <= 1
  }

  ghost predicate Quiet(path: seq<Pool>, k: Key, dead: nat)
    requires path != []
  {
    var turns, n := path[|path| - 1].turns, |path[0].turns|;
    GrantsOf(turns, k, n, true) == 0 && GrantsOf(turns, k, n, false) <= dead
  }

  // ---------------------------------------------------------------------------
  // A dead turn costs a grant
  // ---------------------------------------------------------------------------

  const H := Ticket(2, Holding)
  const A := Ticket(1, Waiting)
  const B := Ticket(0, Waiting)

  /** Key 2 holds the only slot; keys 1 and 0 wait, each with two calls, the first of key 0 cancelled. */
  const CROWDED := Pool(1, 1, map[1 := [1, 2], 0 := [3, 4]], [1, 0], [H, A, A, B.(state := Cancelled), B], [])

  /** The way there. */
  const ALONE := Pool(1, 1, map[], [], [H], [])
  const ONE := Pool(1, 1, map[1 := [1]], [1], [H, A], [])
  const TWO := Pool(1, 1, map[1 := [1, 2]], [1], [H, A, A], [])
  const THREE := Pool(1, 1, map[1 := [1, 2], 0 := [3]], [1, 0], [H, A, A, B], [])
  const FOUR := Pool(1, 1, map[1 := [1, 2], 0 := [3, 4]], [1, 0], [H, A, A, B, B], [])

  lemma CrowdedInv()
    ensures Inv(CROWDED)
  {
    hide Inv;
    StartInv(1);
    StepKeepsInv(Start(1), FastGrant(2));
    assert Apply(Start(1), FastGrant(2)) == ALONE;
    var none: seq<nat> := [];
    assert none + [1] == [1] && [1] + [2] == [1, 2] && none + [3] == [3] && [3] + [4] == [3, 4];
    assert ALONE.waiters[1 := [1]] == ONE.waiters && ONE.waiters[1 := [1, 2]] == TWO.waiters;
    assert TWO.waiters[0 := [3]] == THREE.waiters && THREE.waiters[0 := [3, 4]] == FOUR.waiters;
    Enqueues(ALONE, 1, ONE);
    Enqueues(ONE, 1, TWO);
    Enqueues(TWO, 0, THREE);
    Enqueues(THREE, 0, FOUR);
    StepKeepsInv(FOUR, Cancel(3));
    assert Apply(FOUR, Cancel(3)) == CROWDED;
  }

  /** A call that queues. */
  lemma Enqueues(p: Pool, key: Key, q: Pool)
    requires Inv(p) && Enabled(p, Enqueue(key))
    requires q == p.(waiters := q.waiters, rotation := q.rotation, tickets := p.tickets + [Ticket(key, Waiting)])
    requires q.waiters == p.waiters[key := (if key in p.waiters then p.waiters[key] else []) + [|p.tickets|]]
    requires q.rotation == if key in p.waiters then p.rotation else p.rotation + [key]
    ensures Inv(q)
  {
    hide Inv;
    StepKeepsInv(p, Enqueue(key));
  }

  /** Key 1 is granted the slot, gives it back, the turn of key 0 goes to its cancelled call, and key 1 is granted
      the slot again. */
  const FREED := Pool(1, 0, map[1 := [1, 2], 0 := [3, 4]], [1, 0],
                      [H.(state := Gone), A, A, B.(state := Cancelled), B], [])
  const GRANTED := Pool(1, 1, map[1 := [2], 0 := [3, 4]], [0, 1],
                        [H.(state := Gone), A.(state := Granted), A, B.(state := Cancelled), B], [Turn(1, 1, true)])
  const BACK := GRANTED.(active := 0, tickets := [H.(state := Gone), A.(state := Gone), A, B.(state := Cancelled), B])
  const DEAD := BACK.(waiters := map[1 := [2], 0 := [4]], rotation := [1, 0],
                      turns := [Turn(1, 1, true), Turn(0, 3, false)])
  const AGAIN := Pool(1, 1, map[0 := [4]], [0],
                      [H.(state := Gone), A.(state := Gone), A.(state := Granted), B.(state := Cancelled), B],
                      [Turn(1, 1, true), Turn(0, 3, false), Turn(1, 2, true)])

  lemma FirstGrant()
    ensures FairPool.Follows(CROWDED, FREED) && FairPool.Follows(FREED, GRANTED)
  {
    assert Enabled(CROWDED, GiveBack(0)) && Apply(CROWDED, GiveBack(0)) == FREED;
    var q := PopFront(FREED);
    assert q.waiters == GRANTED.waiters;
    assert Enabled(FREED, Pop) && Apply(FREED, Pop) == GRANTED;
  }

  lemma DeadTurn()
    ensures FairPool.Follows(GRANTED, BACK) && FairPool.Follows(BACK, DEAD)
  {
    assert Enabled(GRANTED, GiveBack(1)) && Apply(GRANTED, GiveBack(1)) == BACK;
    var q := PopFront(BACK);
    assert q.waiters == DEAD.waiters;
    assert Enabled(BACK, Pop) && Apply(BACK, Pop) == DEAD;
  }

  lemma SecondGrant()
    ensures FairPool.Follows(DEAD, AGAIN)
  {
    var q := PopFront(DEAD);
    assert q.waiters == AGAIN.waiters;
    assert Enabled(DEAD, Pop) && Apply(DEAD, Pop) == AGAIN;
  }

  lemma DeadTurnGrantsTwice() returns (path: seq<Pool>)
    ensures IsPath(path) && path[0] == CROWDED && Queues(path, 0) && Quiet(path, 0, 1)
    ensures GrantsOf(path[|path| - 1].turns, 1, |path[0].turns|, true) == 2
  {
    hide Inv, Enabled, Apply, FairPool.Follows;
    CrowdedInv();
    FirstGrant();
    DeadTurn();
    SecondGrant();
    path := [CROWDED, FREED, GRANTED, BACK, DEAD, AGAIN];
    var turns := AGAIN.turns;
    assert turns[..2] == DEAD.turns && turns[..2][..1] == GRANTED.turns && turns[..2][..1][..0] == [];
  }

  lemma FewerAreDead(path: seq<Pool>, k: Key, few: nat, dead: nat)
    requires path != [] && Quiet(path, k, few) && few <= dead
    ensures path != [] && Quiet(path, k, dead)
  {
  }

  /** At most one grant each, if and only if none of the key's turns went to a cancelled waiter. */
  lemma OneGrantExactly(dead: nat)
    ensures OneGrantEach(dead) <==> dead == 0
  {
    hide Queues, GrantsOf;
    if dead == 0 {
      forall path: seq<Pool>, k: Key, x: Key | IsPath(path) && Queues(path, k) && x != k && Quiet(path, k, 0)
        ensures OneGrant(path, x)
      {
        GrantsKeepPace(path, k, x);
      }
    } else {
      var path := DeadTurnGrantsTwice();
      FewerAreDead(path, 0, 1, dead);
      assert !OneGrant(path, 1);
    }
  }
}
