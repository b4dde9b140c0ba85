/** The choice timers of a game as the JavaScript runtime holds them: every
    `setTimeout` in `_startChoiceTimer` (rps-game.js) creates a new handle,
    and `clearTimeout(h)` drops the timer with handle `h` if it has not fired. */
module Timers {
  import opened Basics

  /** A scheduled callback: its handle and the index of the player who armed it. */
  datatype Timer = Timer(handle: nat, tag: nat)

  /** Pending timers are kept in arming order, so their handles increase; every
      handle was issued before `next`, and every tag is a player index. */
  ghost predicate Armed(ts: seq<Timer>, next: nat)
  {
    (forall i :: 0 <= i < |ts| ==> ts[i].handle < next && ts[i].tag < 2) &&
    (forall i, j :: 0 <= i < j < |ts| ==> ts[i].handle < ts[j].handle)
  }

  /** `clearTimeout(h)`: the pending timers other than the one with handle `h`;
      clearing `null` or a handle that already fired changes nothing. */
  function Cancelled(ts: seq<Timer>, h: Option<nat>): (r: seq<Timer>)
    ensures |r| <= |ts|
  {
    if ts == [] then []
    else if h == Some(ts[0].handle) then Cancelled(ts[1..], h)
    else [ts[0]] + Cancelled(ts[1..], h)
  }

  /** Clearing keeps exactly the pending timers whose handle differs from `h`. */
  lemma {:induction false} CancelledKeepsOthers(ts: seq<Timer>, h: Option<nat>, t: Timer)
    ensures t in Cancelled(ts, h) <==> t in ts && h != Some(t.handle)
  {
    if ts != [] {
      CancelledKeepsOthers(ts[1..], h, t);
      assert t in ts <==> t == ts[0] || t in ts[1..];
    }
  }

  /** Clearing a handle no pending timer carries changes nothing. */
  lemma {:induction false} CancelAbsent(ts: seq<Timer>, h: nat)
    requires forall i :: 0 <= i < |ts| ==> ts[i].handle != h
    ensures Cancelled(ts, Some(h)) == ts
  {
    if ts != [] {
      CancelAbsent(ts[1..], h);
      assert [ts[0]] + ts[1..] == ts;
    }
  }

  /** Clearing works on each part of the pending list separately. */
  lemma {:induction false} CancelAppend(a: seq<Timer>, b: seq<Timer>, h: Option<nat>)
    ensures Cancelled(a + b, h) == Cancelled(a, h) + Cancelled(b, h)
  {
    if a != [] {
      CancelAppend(a[1..], b, h);
      assert (a + b)[0] == a[0] && (a + b)[1..] == a[1..] + b;
    } else {
      assert a + b == b;
    }
  }

  /** In arming order, every pending timer but the last is older than the last. */
  lemma OlderThanLast(ts: seq<Timer>, next: nat)
    requires Armed(ts, next) && ts != []
    ensures forall i :: 0 <= i < |ts| - 1 ==> ts[i].handle < ts[|ts| - 1].handle
    ensures ts[|ts| - 1].handle < next
  {
  }

  /** Only the most recently armed timer can be cancelled: clearing handle
      `next - 1` removes the last pending timer if it is that one, and leaves
      every older (orphaned) timer pending. */
  lemma {:induction false} CancelDropsOnlyLastArmed(ts: seq<Timer>, next: nat)
    requires Armed(ts, next) && next > 0
    ensures Cancelled(ts, Some(next - 1)) ==
      if ts != [] && ts[|ts| - 1].handle == next - 1 then ts[..|ts| - 1] else ts
  {
    if ts != [] {
      var h: nat := next - 1;
      var front, last := ts[..|ts| - 1], ts[|ts| - 1];
      OlderThanLast(ts, next);
      assert forall i :: 0 <= i < |front| ==> front[i].handle < last.handle;
      CancelLast(front, last, h);
      assert ts == front + [last];
      assert Cancelled(ts, Some(h)) == if last.handle == h then front else ts;
    }
  }

  lemma {:induction false} CancelLast(front: seq<Timer>, last: Timer, h: nat)
    requires forall i :: 0 <= i < |front| ==> front[i].handle < last.handle
    requires last.handle <= h
    ensures Cancelled(front + [last], Some(h)) ==
      if last.handle == h then front else front + [last]
  {
    CancelAbsent(front, h);
    CancelAppend(front, [last], Some(h));
    CancelOne(last, h);
  }

  lemma CancelOne(last: Timer, h: nat)
    ensures Cancelled([last], Some(h)) == if last.handle == h then [] else [last]
  {
  }

  /** When the only pending timer is the one `h` names, clearing `h` leaves none. */
  lemma CancelCurrent(ts: seq<Timer>, h: Option<nat>)
    requires |ts| <= 1 && forall t :: t in ts ==> h == Some(t.handle)
    ensures Cancelled(ts, h) == []
  {
    if ts != [] {
      assert ts[0] in ts;
    }
  }

  /** A prefix of pending timers is still well armed. */
  lemma ArmedPrefix(ts: seq<Timer>, next: nat, n: nat)
    requires Armed(ts, next) && n <= |ts|
    ensures Armed(ts[..n], next)
  {
  }
}
