/** The bounded travel trail: at most Capacity positions, oldest first. */
module Trail {
  import opened Geo

  const Capacity: nat := 100

  /** One trail step as both the fix handler and the demo timer do it: below capacity
      the position is appended, otherwise the oldest entry is shifted out first. */
  function Push(trail: seq<Coord>, p: Coord): (r: seq<Coord>)
    ensures |r| > 0 && r[|r| - 1] == p
    ensures |trail| < Capacity ==> r[..|r| - 1] == trail
    ensures |trail| >= Capacity ==> |trail| > 0 && r[..|r| - 1] == trail[1..]
    ensures |trail| <= Capacity ==> |r| <= Capacity
  {
    var kept := if |trail| < Capacity then trail else trail[1..];
    assert (kept + [p])[..|kept|] == kept;
    kept + [p]
  }

  /** The trail after pushing ps in order. */
  function PushAll(trail: seq<Coord>, ps: seq<Coord>): seq<Coord>
    decreases |ps|
  {
    if ps == [] then trail else Push(PushAll(trail, ps[..|ps| - 1]), ps[|ps| - 1])
  }

  /** The last n entries of s (all of s when it is shorter). */
  function Newest(s: seq<Coord>, n: nat): (r: seq<Coord>)
    ensures |r| == if |s| < n then |s| else n
  {
    if |s| <= n then s else s[|s| - n..]
  }

  lemma NewestPush(s: seq<Coord>, p: Coord)
    ensures Newest(s + [p], Capacity) == Push(Newest(s, Capacity), p)
  {
    if Capacity <= |s| {
      var k := |s| - Capacity;
      assert (s + [p])[k + 1..] == s[k..][1..] + [p];
    }
  }

  /** However many positions are pushed onto a trail within capacity, it then holds
      exactly the newest Capacity of old entries and new positions, in push order. */
  lemma {:induction false} PushAllKeepsNewest(trail: seq<Coord>, ps: seq<Coord>)
    requires |trail| <= Capacity
    ensures PushAll(trail, ps) == Newest(trail + ps, Capacity)
    decreases |ps|
  {
    if ps == [] {
      assert trail + ps == trail;
    } else {
      var init, last := ps[..|ps| - 1], ps[|ps| - 1];
      PushAllKeepsNewest(trail, init);
      assert trail + ps == (trail + init) + [last];
      NewestPush(trail + init, last);
    }
  }
}
