/** The browser's pending-timer list as the page uses it: setTimeout and
    setInterval registrations share one id space, fire in deadline order
    (earliest first, first registered among equal deadlines) and
    clearInterval removes a registration by id. */
module Timers {
  import opened Tones

  datatype Option<T> = None | Some(value: T)

  /** What a registered callback does when its timer fires. */
  datatype Action =
    | SetScene(target: int)        // the progression timeouts of startExperience
    | Play(tone: Tone, ctx: bool)  // a delayed phrase tone; ctx: audio context seen by the closure
    | Ambient(ctx: bool)           // one tick of the scene-1 interval

  /** A pending registration; only `Ambient` timers repeat. */
  datatype Timer = Timer(id: nat, due: int, action: Action)

  /** `i` is the timer that fires next: no deadline is earlier, and every
      timer registered before it is due strictly later. */
  ghost predicate IsEarliest(p: seq<Timer>, i: int)
  {
    && 0 <= i < |p|
    && (forall j :: 0 <= j < |p| ==> p[i].due <= p[j].due)
    && (forall j :: 0 <= j < i ==> p[i].due < p[j].due)
  }

  function EarliestIndex(p: seq<Timer>): (i: nat)
    requires p != []
    ensures IsEarliest(p, i)
  {
    if |p| == 1 then 0
    else
      var k := EarliestIndex(p[..|p| - 1]);
      if p[|p| - 1].due < p[k].due then |p| - 1 else k
  }

  /** The list once the timer at index `i` has been taken out to fire. */
  function RemoveAt(p: seq<Timer>, i: nat): (r: seq<Timer>)
    requires i < |p|
    ensures |r| == |p| - 1
  {
    p[..i] + p[i + 1..]
  }

  /** Taking a timer out keeps the others, in order. */
  lemma RemoveAtKeeps(p: seq<Timer>, i: nat)
    requires i < |p|
    ensures forall j :: 0 <= j < i ==> RemoveAt(p, i)[j] == p[j]
    ensures forall j :: i <= j < |p| - 1 ==> RemoveAt(p, i)[j] == p[j + 1]
    ensures forall x :: x in RemoveAt(p, i) ==> x in p
  {
    var r := RemoveAt(p, i);
    forall x | x in r ensures x in p {
      var j :| 0 <= j < |r| && r[j] == x;
      if j < i { assert x == p[j]; } else { assert x == p[j + 1]; }
    }
  }

  /** clearInterval(id): every registration with that id is dropped, the rest keep their order. */
  function RemoveId(p: seq<Timer>, id: nat): (r: seq<Timer>)
    ensures |r| <= |p|
  {
    if p == [] then []
    else if p[0].id == id then RemoveId(p[1..], id)
    else [p[0]] + RemoveId(p[1..], id)
  }

  /** Exactly the timers with another id survive clearInterval(id). */
  lemma {:induction false} RemoveIdMembers(p: seq<Timer>, id: nat)
    ensures forall tm :: tm in RemoveId(p, id) <==> tm in p && tm.id != id
  {
    if p != [] {
      RemoveIdMembers(p[1..], id);
      assert forall tm :: tm in p <==> tm == p[0] || tm in p[1..];
    }
  }

  /** Number of timers due at or before `t`. */
  function CountDue(p: seq<Timer>, t: int): (n: nat)
    ensures n <= |p|
  {
    if p == [] then 0
    else (if p[0].due <= t then 1 else 0) + CountDue(p[1..], t)
  }

  lemma {:induction false} CountDueAppend(a: seq<Timer>, b: seq<Timer>, t: int)
    ensures CountDue(a + b, t) == CountDue(a, t) + CountDue(b, t)
  {
    if a == [] {
      assert a + b == b;
    } else {
      assert (a + b)[1..] == a[1..] + b;
      CountDueAppend(a[1..], b, t);
    }
  }

  lemma {:induction false} CountDueRemoveId(p: seq<Timer>, id: nat, t: int)
    ensures CountDue(RemoveId(p, id), t) <= CountDue(p, t)
  {
    if p != [] {
      CountDueRemoveId(p[1..], id, t);
      if p[0].id != id {
        assert RemoveId(p, id) == [p[0]] + RemoveId(p[1..], id);
        CountDueAppend([p[0]], RemoveId(p[1..], id), t);
      }
    }
  }

  lemma {:induction false} CountDueRemoveAt(p: seq<Timer>, i: nat, t: int)
    requires i < |p| && p[i].due <= t
    ensures CountDue(RemoveAt(p, i), t) + 1 == CountDue(p, t)
  {
    var pre, post := p[..i], p[i + 1..];
    assert p == pre + ([p[i]] + post);
    CountDueAppend(pre, [p[i]] + post, t);
    CountDueAppend([p[i]], post, t);
    assert CountDue([p[i]], t) == 1 by {
      assert [p[i]][1..] == [];
    }
    assert RemoveAt(p, i) == pre + post;
    CountDueAppend(pre, post, t);
  }

  /** The (deadline, target scene) of a progression timer, nothing for other timers. */
  function SceneEntry(tm: Timer): seq<(int, int)>
  {
    if tm.action.SetScene? then [(tm.due, tm.action.target)] else []
  }

  /** The pending progression timers, in registration order. */
  function SceneTimers(p: seq<Timer>): seq<(int, int)>
  {
    if p == [] then [] else SceneEntry(p[0]) + SceneTimers(p[1..])
  }

  lemma {:induction false} SceneTimersAppend(a: seq<Timer>, b: seq<Timer>)
    ensures SceneTimers(a + b) == SceneTimers(a) + SceneTimers(b)
  {
    if a == [] {
      assert a + b == b;
    } else {
      assert (a + b)[1..] == a[1..] + b;
      SceneTimersAppend(a[1..], b);
    }
  }

  lemma SceneTimersSingle(tm: Timer)
    ensures SceneTimers([tm]) == SceneEntry(tm)
  {
    assert [tm][1..] == [];
  }

  /** Every listed progression timer stands for a pending timer. */
  lemma {:induction false} SceneTimersMember(p: seq<Timer>, x: (int, int))
    requires x in SceneTimers(p)
    ensures exists j :: 0 <= j < |p| && p[j].due == x.0 && p[j].action == SetScene(x.1)
  {
    if x !in SceneEntry(p[0]) {
      SceneTimersMember(p[1..], x);
      var j :| 0 <= j < |p[1..]| && p[1..][j].due == x.0 && p[1..][j].action == SetScene(x.1);
      assert p[j + 1] == p[1..][j];
    }
  }

  /** Clearing an id no progression timer carries leaves the progression untouched. */
  lemma {:induction false} SceneTimersRemoveId(p: seq<Timer>, id: nat)
    requires forall tm :: tm in p && tm.id == id ==> !tm.action.SetScene?
    ensures SceneTimers(RemoveId(p, id)) == SceneTimers(p)
  {
    if p != [] {
      SceneTimersRemoveId(p[1..], id);
      if p[0].id != id {
        assert RemoveId(p, id) == [p[0]] + RemoveId(p[1..], id);
        SceneTimersAppend([p[0]], RemoveId(p[1..], id));
      }
    }
  }

  /** Taking the timer at `i` out removes exactly its entry from the progression. */
  lemma {:induction false} SceneTimersRemoveAt(p: seq<Timer>, i: nat)
    requires i < |p|
    ensures SceneTimers(p) == SceneTimers(p[..i]) + SceneEntry(p[i]) + SceneTimers(p[i + 1..])
    ensures SceneTimers(RemoveAt(p, i)) == SceneTimers(p[..i]) + SceneTimers(p[i + 1..])
  {
    var pre, post := p[..i], p[i + 1..];
    assert p == pre + ([p[i]] + post);
    SceneTimersAppend(pre, [p[i]] + post);
    SceneTimersAppend([p[i]], post);
    assert SceneTimers([p[i]]) == SceneEntry(p[i]) by {
      assert [p[i]][1..] == [];
    }
    assert RemoveAt(p, i) == pre + post;
    SceneTimersAppend(pre, post);
  }
}
