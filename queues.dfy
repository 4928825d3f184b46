/**
 * The queue tracker of the person-detection script: a list of rectangular
 * queue regions and the per-frame occupancy tally that attributes each
 * detection box to every region whose horizontal extent strictly contains it.
 */
module Queues {

  /** A detection box in frame pixels: (xmin, ymin, xmax, ymax). */
  datatype Box = Box(xMin: int, yMin: int, xMax: int, yMax: int)

  /** A configured queue region in frame pixels: (x_min, y_min, x_max, y_max). */
  datatype Region = Region(xMin: int, yMin: int, xMax: int, yMax: int)

  /**
   * The containment test of check_coords: open interval on the horizontal
   * axis only; the vertical coordinates of box and region are not consulted.
   */
  function InQueue(b: Box, q: Region): (r: bool)
    ensures r ==> b.xMin != q.xMin && b.xMax != q.xMax
    ensures r && b.xMin <= b.xMax ==> q.xMax - q.xMin >= 2
  {
    b.xMin > q.xMin && b.xMax < q.xMax
  }

  /** Queue identifiers are 1-based: queue k is the k-th region of the list. */
  function QueueAt(queues: seq<Region>, k: int): (r: Region)
    requires 1 <= k <= |queues|
  {
    queues[k - 1]
  }

  /** Number of boxes of `coords` that count toward region `q`. */
  function CountIn(coords: seq<Box>, q: Region): (n: nat)
    ensures n <= |coords|
  {
    if coords == [] then 0
    else (if InQueue(coords[0], q) then 1 else 0) + CountIn(coords[1..], q)
  }

  /** The positions in `coords` of the boxes that count toward `q`. */
  ghost function Hits(coords: seq<Box>, q: Region): (s: set<int>)
  {
    set j | 0 <= j < |coords| && InQueue(coords[j], q)
  }

  /**
   * The occupancy tally for one frame: queue identifiers 1..|queues|, each
   * mapped to the number of boxes that count toward that queue.
   */
  function Tally(queues: seq<Region>, coords: seq<Box>): (d: map<int, nat>)
    ensures forall k :: k in d <==> 1 <= k <= |queues|
    ensures forall k :: k in d ==> d[k] <= |coords|
  {
    map k | 1 <= k <= |queues| :: CountIn(coords, QueueAt(queues, k))
  }

  /**
   * The queue-full rule of the per-frame report: a count at or above the
   * limit.  A limit of zero or less makes every queue full, even an empty one.
   */
  function QueueFull(count: nat, maxPeople: int): (full: bool)
    ensures maxPeople <= 0 ==> full
    ensures full && maxPeople > 0 ==> count > 0
  {
    count >= maxPeople
  }

  /** Sum of the counts of queues 1..n of a tally. */
  function SumCounts(d: map<int, nat>, n: nat): (total: nat)
    requires forall k :: 1 <= k <= n ==> k in d
  {
    if n == 0 then 0 else SumCounts(d, n - 1) + d[n]
  }

  class Queue {
    /** The configured regions, in the order they were added; queue k is QueueAt(queues, k). */
    var queues: seq<Region>

    constructor ()
      ensures queues == []
    {
      queues := [];
    }

    /** Appends a region, with no validation and no de-duplication. */
    method AddQueue(points: Region)
      modifies this
      ensures queues == old(queues) + [points]
    {
      queues := queues + [points];
    }

    /**
     * The per-frame tally: starts every queue at 0, then for every box and
     * every queue adds one when the box counts toward the queue.  Changes nothing.
     */
    method CheckCoords(coords: seq<Box>) returns (d: map<int, nat>)
      ensures d == Tally(queues, coords)
    {
      d := map[];
      for k := 0 to |queues|
        invariant forall key :: key in d <==> 1 <= key <= k
        invariant forall key :: key in d ==> d[key] == 0
      {
        d := d[k + 1 := 0];
      }
      var j := 0;
      while j < |coords|
        invariant 0 <= j <= |coords|
        invariant d == Tally(queues, coords[..j])
      {
        var coord := coords[j];
        assert coords[..j + 1] == coords[..j] + [coord];
        var i := 0;
        while i < |queues|
          invariant 0 <= i <= |queues|
          invariant forall k :: k in d <==> 1 <= k <= |queues|
          invariant forall k :: 1 <= k <= i ==> d[k] == CountIn(coords[..j + 1], QueueAt(queues, k))
          invariant forall k :: i < k <= |queues| ==> d[k] == CountIn(coords[..j], QueueAt(queues, k))
        {
          var q := queues[i];
          CountConcat(coords[..j], [coord], q);
          if InQueue(coord, q) {
            d := d[i + 1 := d[i + 1] + 1];
          }
          i := i + 1;
        }
        j := j + 1;
      }
      assert coords[..j] == coords;
    }
  }

  /** Counting distributes over concatenation of box lists. */
  lemma {:induction false} CountConcat(a: seq<Box>, b: seq<Box>, q: Region)
    ensures CountIn(a + b, q) == CountIn(a, q) + CountIn(b, q)
  {
    if a == [] {
      assert a + b == b;
    } else {
      assert (a + b)[1..] == a[1..] + b;
      CountConcat(a[1..], b, q);
    }
  }

  /** CountIn agrees with the independent definition: the number of positions that count. */
  lemma {:induction false} CountIsHitCount(coords: seq<Box>, q: Region)
    ensures CountIn(coords, q) == |Hits(coords, q)|
  {
    if coords == [] {
      assert Hits(coords, q) == {};
    } else {
      var n := |coords| - 1;
      var init, last := coords[..n], coords[n];
      assert coords == init + [last];
      CountIsHitCount(init, q);
      CountConcat(init, [last], q);
      assert [last][1..] == [];
      var extra := if InQueue(last, q) then {n} else {};
      assert Hits(coords, q) == Hits(init, q) + extra;
      assert n !in Hits(init, q);
    }
  }

  /**
   * Adding one box raises queue k's count by one exactly when the box
   * counts toward region k, and leaves it unchanged otherwise.
   */
  lemma TallyAddBox(queues: seq<Region>, coords: seq<Box>, b: Box, k: int)
    requires 1 <= k <= |queues|
    ensures Tally(queues, coords + [b])[k] ==
            Tally(queues, coords)[k] + (if InQueue(b, QueueAt(queues, k)) then 1 else 0)
  {
    CountConcat(coords, [b], QueueAt(queues, k));
    assert [b][1..] == [];
  }

  /** A box touching a region's left or right edge is not counted toward it. */
  lemma BoundaryNotCounted(coords: seq<Box>, b: Box, q: Region)
    requires b.xMin == q.xMin || b.xMax == q.xMax
    ensures CountIn(coords + [b], q) == CountIn(coords, q)
  {
    CountConcat(coords, [b], q);
    assert [b][1..] == [];
  }

  /** A box strictly inside two regions' horizontal extents counts toward both. */
  lemma OverlapCountsTwice(queues: seq<Region>, coords: seq<Box>, b: Box, k1: int, k2: int)
    requires 1 <= k1 <= |queues| && 1 <= k2 <= |queues|
    requires InQueue(b, QueueAt(queues, k1)) && InQueue(b, QueueAt(queues, k2))
    ensures Tally(queues, coords + [b])[k1] == Tally(queues, coords)[k1] + 1
    ensures Tally(queues, coords + [b])[k2] == Tally(queues, coords)[k2] + 1
  {
    TallyAddBox(queues, coords, b, k1);
    TallyAddBox(queues, coords, b, k2);
  }

  /** With no configured queues the tally has no keys. */
  lemma TallyNoQueues(coords: seq<Box>)
    ensures Tally([], coords) == map[]
  {
    assert Tally([], coords).Keys == {};
  }

  /** Two box lists of the same length whose boxes agree, position by position, on xmin and xmax. */
  predicate SameBoxSpans(a: seq<Box>, b: seq<Box>)
  {
    |a| == |b| && forall j :: 0 <= j < |a| ==> a[j].xMin == b[j].xMin && a[j].xMax == b[j].xMax
  }

  /** The same relation for region lists: they agree, position by position, on x_min and x_max. */
  predicate SameRegionSpans(a: seq<Region>, b: seq<Region>)
  {
    |a| == |b| && forall j :: 0 <= j < |a| ==> a[j].xMin == b[j].xMin && a[j].xMax == b[j].xMax
  }

  lemma {:induction false} CountIgnoresVertical(a: seq<Box>, b: seq<Box>, p: Region, q: Region)
    requires SameBoxSpans(a, b)
    requires p.xMin == q.xMin && p.xMax == q.xMax
    ensures CountIn(a, p) == CountIn(b, q)
  {
    if a != [] {
      CountIgnoresVertical(a[1..], b[1..], p, q);
    }
  }

  /** Vertical coordinates of boxes and regions have no effect on any count. */
  lemma TallyIgnoresVertical(queues: seq<Region>, queues': seq<Region>, coords: seq<Box>, coords': seq<Box>)
    requires SameRegionSpans(queues, queues')
    requires SameBoxSpans(coords, coords')
    ensures Tally(queues, coords) == Tally(queues', coords')
  {
    forall k | 1 <= k <= |queues|
      ensures CountIn(coords, QueueAt(queues, k)) == CountIn(coords', QueueAt(queues', k))
    {
      CountIgnoresVertical(coords, coords', QueueAt(queues, k), QueueAt(queues', k));
    }
  }

  /** Adding a region keeps the earlier queues' counts and gives the new one identifier |queues| + 1. */
  lemma TallyAfterAddQueue(queues: seq<Region>, r: Region, coords: seq<Box>)
    ensures Tally(queues + [r], coords) == Tally(queues, coords)[|queues| + 1 := CountIn(coords, r)]
  {
    var n := |queues|;
    assert forall k :: 1 <= k <= n ==> QueueAt(queues + [r], k) == QueueAt(queues, k);
  }

  lemma {:induction false} SumCountsBound(d: map<int, nat>, n: nat, c: nat)
    requires forall k :: 1 <= k <= n ==> k in d && d[k] <= c
    ensures SumCounts(d, n) <= n * c
  {
    if n > 0 {
      SumCountsBound(d, n - 1, c);
      assert (n - 1) * c + c == n * c;
    }
  }

  /** Over all queues the counts add up to at most |coords| * |queues|. */
  lemma TallyTotalBound(queues: seq<Region>, coords: seq<Box>)
    ensures SumCounts(Tally(queues, coords), |queues|) <= |queues| * |coords|
  {
    SumCountsBound(Tally(queues, coords), |queues|, |coords|);
  }

  /** A queue reported full stays full when more boxes are detected in the frame. */
  lemma FullStaysFull(queues: seq<Region>, coords: seq<Box>, more: seq<Box>, k: int, maxPeople: int)
    requires 1 <= k <= |queues|
    requires QueueFull(Tally(queues, coords)[k], maxPeople)
    ensures QueueFull(Tally(queues, coords + more)[k], maxPeople)
  {
    CountConcat(coords, more, QueueAt(queues, k));
  }

  /**
   * Three regions and two detections, one strictly inside region 1 and one
   * straddling region 1's right edge, give the tally {1: 1, 2: 0, 3: 0}.
   */
  method ThreeQueueScenario() returns (d: map<int, nat>)
    ensures d == map[1 := 1, 2 := 0, 3 := 0]
  {
    var queue := new Queue();
    queue.AddQueue(Region(0, 0, 100, 200));
    queue.AddQueue(Region(200, 0, 300, 200));
    queue.AddQueue(Region(400, 0, 500, 200));
    var inside := Box(10, 20, 60, 180);
    var straddling := Box(80, 20, 130, 180);
    d := queue.CheckCoords([inside, straddling]);
    assert [inside, straddling][1..] == [straddling];
    assert CountIn([inside, straddling], Region(0, 0, 100, 200)) == 1;
    assert CountIn([inside, straddling], Region(200, 0, 300, 200)) == 0;
    assert CountIn([inside, straddling], Region(400, 0, 500, 200)) == 0;
  }
}
