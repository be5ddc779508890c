// The serpentine scan of one region, and the laser path through all of them.
module LaserPath {
  import opened Bytes
  import opened RegionOrder

  datatype MotionPoint = MotionPoint(x: int, y: int, laserOn: bool)

  type Image = seq<seq<byte>>

  // The box lies in the image, as the component statistics it comes from do.
  ghost predicate Fits(box: Rect, img: Image) {
    0 <= box.x && 0 <= box.y && box.y + box.height <= |img|
    && forall y :: box.y <= y < box.y + box.height ==> box.x + box.width <= |img[y]|
  }

  function Foreground(img: Image, x: int, y: int): bool {
    0 <= y < |img| && 0 <= x < |img[y]| && img[y][x] > 0
  }

  predicate InBox(box: Rect, x: int, y: int) {
    box.x <= x < box.x + box.width && box.y <= y < box.y + box.height
  }

  // ---- One region ---------------------------------------------------------

  // The k-th point of row r of the box: even rows to the right, odd ones back.
  function PointAt(img: Image, box: Rect, r: nat, k: nat): MotionPoint {
    var x, y := if r % 2 == 0 then box.x + k else box.x + box.width - 1 - k, box.y + r;
    MotionPoint(x, y, Foreground(img, x, y))
  }

  function RowPath(img: Image, box: Rect, r: nat, n: nat): (p: seq<MotionPoint>)
    ensures |p| == n
  {
    seq(n, k requires 0 <= k < n => PointAt(img, box, r, k))
  }

  function SnakePath(img: Image, box: Rect, rows: nat): seq<MotionPoint> {
    if rows == 0 then [] else SnakePath(img, box, rows - 1) + RowPath(img, box, rows - 1, box.width)
  }

  method GenerateSnakePathForRegion(img: Image, region: Region) returns (path: seq<MotionPoint>)
    requires Fits(region.bbox, img)
    ensures path == SnakePath(img, region.bbox, region.bbox.height)
  {
    path := [];
    var box := region.bbox;
    var y := box.y;
    while y < box.y + box.height
      invariant box.y <= y <= box.y + box.height
      invariant path == SnakePath(img, box, y - box.y)
    {
      ghost var before := path;
      ghost var r: nat := y - box.y;
      if (y - box.y) % 2 == 0 {
        var x := box.x;
        while x < box.x + box.width
          invariant box.x <= x <= box.x + box.width
          invariant path == before + RowPath(img, box, r, x - box.x)
        {
          var fg := img[y][x] > 0;
          assert MotionPoint(x, y, fg) == PointAt(img, box, r, x - box.x);
          path := path + [MotionPoint(x, y, fg)];
          RowGrows(img, box, r, x - box.x);
          x := x + 1;
        }
      } else {
        var x := box.x + box.width - 1;
        while x >= box.x
          invariant box.x - 1 <= x <= box.x + box.width - 1
          invariant path == before + RowPath(img, box, r, box.x + box.width - 1 - x)
        {
          var fg := img[y][x] > 0;
          assert MotionPoint(x, y, fg) == PointAt(img, box, r, box.x + box.width - 1 - x);
          path := path + [MotionPoint(x, y, fg)];
          RowGrows(img, box, r, box.x + box.width - 1 - x);
          x := x - 1;
        }
      }
      y := y + 1;
    }
  }

  lemma RowGrows(img: Image, box: Rect, r: nat, n: nat)
    ensures RowPath(img, box, r, n + 1) == RowPath(img, box, r, n) + [PointAt(img, box, r, n)]
  {
  }

  // ---- What a path does ---------------------------------------------------

  // How often the path comes by a pixel, and how often with the laser on.
  function Visits(path: seq<MotionPoint>, x: int, y: int): nat {
    if path == [] then 0
    else
      var p := path[|path| - 1];
      Visits(path[..|path| - 1], x, y) + (if p.x == x && p.y == y then 1 else 0)
  }

  function Exposures(path: seq<MotionPoint>, x: int, y: int): nat {
    if path == [] then 0
    else
      var p := path[|path| - 1];
      Exposures(path[..|path| - 1], x, y) + (if p == MotionPoint(x, y, true) then 1 else 0)
  }

  // One pixel to the side, up or down.
  predicate UnitStep(p: MotionPoint, q: MotionPoint) {
    (p.x == q.x && (p.y == q.y + 1 || q.y == p.y + 1)) || (p.y == q.y && (p.x == q.x + 1 || q.x == p.x + 1))
  }

  ghost predicate UnitSteps(path: seq<MotionPoint>) {
    forall k :: 0 < k < |path| ==> UnitStep(path[k - 1], path[k])
  }

  lemma {:induction false} CountsAppend(a: seq<MotionPoint>, b: seq<MotionPoint>, x: int, y: int)
    ensures Visits(a + b, x, y) == Visits(a, x, y) + Visits(b, x, y)
    ensures Exposures(a + b, x, y) == Exposures(a, x, y) + Exposures(b, x, y)
  {
    if b == [] {
      assert a + b == a;
    } else {
      CountsAppend(a, b[..|b| - 1], x, y);
      assert (a + b)[..|a + b| - 1] == a + b[..|b| - 1];
    }
  }

  lemma {:induction false} RowCounts(img: Image, box: Rect, r: nat, n: nat, x: int, y: int)
    requires n <= box.width
    ensures var inRow := y == box.y + r && (if r % 2 == 0 then box.x <= x < box.x + n
                                            else box.x + box.width - n <= x < box.x + box.width);
            Visits(RowPath(img, box, r, n), x, y) == (if inRow then 1 else 0)
            && Exposures(RowPath(img, box, r, n), x, y) == (if inRow && Foreground(img, x, y) then 1 else 0)
  {
    if n > 0 {
      RowCounts(img, box, r, n - 1, x, y);
      assert RowPath(img, box, r, n)[..n - 1] == RowPath(img, box, r, n - 1);
      assert RowPath(img, box, r, n)[n - 1] == PointAt(img, box, r, n - 1);
    }
  }

  // Main result: the scan of a region visits every pixel of its box exactly
  // once, no other pixel, and with the laser on exactly at the foreground.
  lemma {:induction false} SnakeVisitsOnce(img: Image, box: Rect, rows: nat, x: int, y: int)
    requires rows <= box.height
    ensures var done := InBox(box, x, y) && y < box.y + rows;
            Visits(SnakePath(img, box, rows), x, y) == (if done then 1 else 0)
            && Exposures(SnakePath(img, box, rows), x, y) == (if done && Foreground(img, x, y) then 1 else 0)
  {
    hide RowPath;
    if rows > 0 {
      SnakeVisitsOnce(img, box, rows - 1, x, y);
      RowCounts(img, box, rows - 1, box.width, x, y);
      CountsAppend(SnakePath(img, box, rows - 1), RowPath(img, box, rows - 1, box.width), x, y);
    }
  }

  // Where the scan stands after some rows: at the end its last row ran to.
  lemma SnakeEnds(img: Image, box: Rect, rows: nat)
    requires rows > 0 && box.width > 0
    ensures SnakePath(img, box, rows) != []
    ensures SnakePath(img, box, rows)[|SnakePath(img, box, rows)| - 1] == PointAt(img, box, rows - 1, box.width - 1)
  {
  }

  lemma RowUnitSteps(img: Image, box: Rect, r: nat, n: nat)
    ensures UnitSteps(RowPath(img, box, r, n))
  {
  }

  lemma UnitStepsJoin(a: seq<MotionPoint>, b: seq<MotionPoint>)
    requires UnitSteps(a) && UnitSteps(b) && (a != [] && b != [] ==> UnitStep(a[|a| - 1], b[0]))
    ensures UnitSteps(a + b)
  {
  }

  // Main result: and it moves by single pixels only.
  lemma {:induction false} SnakeUnitSteps(img: Image, box: Rect, rows: nat)
    ensures UnitSteps(SnakePath(img, box, rows))
  {
    if rows > 0 {
      SnakeUnitSteps(img, box, rows - 1);
      RowUnitSteps(img, box, rows - 1, box.width);
      if box.width > 0 && rows > 1 { SnakeEnds(img, box, rows - 1); }
      UnitStepsJoin(SnakePath(img, box, rows - 1), RowPath(img, box, rows - 1, box.width));
    }
  }

  // The scan point by point: row by row downwards, the first row and every
  // second one to the right, the others to the left.
  lemma {:induction false} SnakeGoes(img: Image, box: Rect, rows: nat, r: nat, k: nat)
    requires Fits(box, img) && r < rows <= box.height && k < box.width
    ensures |SnakePath(img, box, rows)| == Times(rows, box.width) && Times(r, box.width) + k < Times(rows, box.width)
    ensures var p := SnakePath(img, box, rows)[Times(r, box.width) + k];
            p.y == box.y + r && p.x == (if r % 2 == 0 then box.x + k else box.x + box.width - 1 - k)
            && p.laserOn == (img[p.y][p.x] > 0)
    decreases rows
  {
    hide Times;
    TimesSuccessor(rows - 1, box.width);
    if r == rows - 1 {
      SnakeLength(img, box, rows - 1);
    } else {
      SnakeGoes(img, box, rows - 1, r, k);
    }
  }

  lemma {:induction false} SnakeLength(img: Image, box: Rect, rows: nat)
    ensures |SnakePath(img, box, rows)| == Times(rows, box.width)
  {
    hide Times;
    if rows > 0 {
      SnakeLength(img, box, rows - 1);
      TimesSuccessor(rows - 1, box.width);
    } else {
      TimesSuccessor(0, box.width);
    }
  }

  // ---- The whole path -----------------------------------------------------

  // The jump to a path: its first point, with the laser off.
  function JumpTo(path: seq<MotionPoint>): MotionPoint
    requires path != []
  {
    path[0].(laserOn := false)
  }

  function FullPath(img: Image, regions: seq<Region>): seq<MotionPoint> {
    if regions == [] then []
    else
      var box := regions[|regions| - 1].bbox;
      var before, own := FullPath(img, regions[..|regions| - 1]), SnakePath(img, box, box.height);
      before + (if before != [] && own != [] then [JumpTo(own)] else []) + own
  }

  method PlanPath(img: Image, orderedRegions: seq<Region>) returns (fullPath: seq<MotionPoint>)
    requires forall i :: 0 <= i < |orderedRegions| ==> Fits(orderedRegions[i].bbox, img)
    ensures fullPath == FullPath(img, orderedRegions)
  {
    fullPath := [];
    for i := 0 to |orderedRegions|
      invariant fullPath == FullPath(img, orderedRegions[..i])
    {
      assert orderedRegions[..i + 1][..i] == orderedRegions[..i];
      var regionPath := GenerateSnakePathForRegion(img, orderedRegions[i]);
      if fullPath != [] && regionPath != [] {
        var jumpPoint := regionPath[0];
        jumpPoint := jumpPoint.(laserOn := false);
        fullPath := fullPath + [jumpPoint];
      }
      fullPath := fullPath + regionPath;
    }
    assert orderedRegions[..|orderedRegions|] == orderedRegions;
  }

  // A step is by one pixel, stays where it is, or arrives with the laser off.
  ghost predicate SafeStep(p: MotionPoint, q: MotionPoint) {
    UnitStep(p, q) || (p.x == q.x && p.y == q.y) || !q.laserOn
  }

  ghost predicate SafeSteps(path: seq<MotionPoint>) {
    forall k :: 0 < k < |path| ==> SafeStep(path[k - 1], path[k])
  }

  lemma SafeStepsJoin(a: seq<MotionPoint>, b: seq<MotionPoint>)
    requires SafeSteps(a) && SafeSteps(b) && (a != [] && b != [] ==> SafeStep(a[|a| - 1], b[0]))
    ensures SafeSteps(a + b)
  {
    hide SafeStep;
    forall k | 0 < k < |a + b| ensures SafeStep((a + b)[k - 1], (a + b)[k]) {
      if k > |a| { assert SafeStep(b[k - |a| - 1], b[k - |a|]); }
    }
  }

  // Main result: in the path through any regions, the laser is off on arrival
  // at the end of every step that is not between neighbours.
  lemma {:induction false} FullPathIsSafe(img: Image, regions: seq<Region>)
    ensures SafeSteps(FullPath(img, regions))
  {
    hide SnakePath, SafeStep;
    if regions != [] {
      var box := regions[|regions| - 1].bbox;
      var before, own := FullPath(img, regions[..|regions| - 1]), SnakePath(img, box, box.height);
      FullPathIsSafe(img, regions[..|regions| - 1]);
      SnakeUnitSteps(img, box, box.height);
      UnitIsSafe(own);
      if before != [] && own != [] {
        JumpIsSafe(before[|before| - 1], own);
        SafeStepsJoin(before, [JumpTo(own)]);
        SafeStepsJoin(before + [JumpTo(own)], own);
      } else {
        assert before + [] == before;
        SafeStepsJoin(before, own);
      }
    }
  }

  lemma UnitIsSafe(path: seq<MotionPoint>)
    requires UnitSteps(path)
    ensures SafeSteps(path)
  {
    hide UnitStep;
  }

  lemma JumpIsSafe(p: MotionPoint, own: seq<MotionPoint>)
    requires own != []
    ensures SafeStep(p, JumpTo(own)) && SafeStep(JumpTo(own), own[0])
  {
  }

  // The regions are gone through in order: the path through some of them is
  // followed, after a jump with the laser off to where it starts, by the scan of
  // the next, and by nothing before that.
  lemma {:induction false} PathKeepsOrder(img: Image, regions: seq<Region>, i: nat)
    requires i < |regions|
    ensures var path, before := FullPath(img, regions), FullPath(img, regions[..i]);
            var own := SnakePath(img, regions[i].bbox, regions[i].bbox.height);
            var jump := if before != [] && own != [] then [MotionPoint(own[0].x, own[0].y, false)] else [];
            before + jump + own <= path
    decreases |regions|
  {
    hide SnakePath;
    var rest := regions[..|regions| - 1];
    if i < |rest| {
      PathKeepsOrder(img, rest, i);
      assert rest[..i] == regions[..i];
      PathGrows(img, regions);
    }
  }

  lemma PathGrows(img: Image, regions: seq<Region>)
    requires regions != []
    ensures FullPath(img, regions[..|regions| - 1]) <= FullPath(img, regions)
  {
    hide SnakePath;
  }

  // How many of the boxes contain a pixel.
  function Covering(regions: seq<Region>, x: int, y: int): nat {
    if regions == [] then 0
    else
      var r := regions[|regions| - 1];
      Covering(regions[..|regions| - 1], x, y) + (if InBox(r.bbox, x, y) then 1 else 0)
  }

  // Main result: a foreground pixel is exposed once for every region whose box
  // contains it, so twice where two boxes overlap; no other pixel ever is.
  lemma {:induction false} ExposedPerBox(img: Image, regions: seq<Region>, x: int, y: int)
    ensures Exposures(FullPath(img, regions), x, y) == if Foreground(img, x, y) then Covering(regions, x, y) else 0
  {
    hide SnakePath;
    if regions != [] {
      var box := regions[|regions| - 1].bbox;
      var before, own := FullPath(img, regions[..|regions| - 1]), SnakePath(img, box, box.height);
      ExposedPerBox(img, regions[..|regions| - 1], x, y);
      SnakeVisitsOnce(img, box, box.height, x, y);
      var jump := if before != [] && own != [] then [JumpTo(own)] else [];
      CountsAppend(before, jump, x, y);
      CountsAppend(before + jump, own, x, y);
      JumpExposesNothing(jump, x, y);
    }
  }

  lemma JumpExposesNothing(jump: seq<MotionPoint>, x: int, y: int)
    requires |jump| <= 1 && forall p :: p in jump ==> !p.laserOn
    ensures Exposures(jump, x, y) == 0
  {
    assert |jump| == 1 ==> jump[0] in jump && jump[..0] == [];
  }
}
