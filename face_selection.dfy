/** Choosing the main face among those the face mesh reports (main.py:59-69):
    the face whose landmark bounding box, scaled to pixels, is strictly the
    largest, the earliest one winning ties, and none at all when no box has
    a positive area. */
module FaceSelection {
  import opened Wrappers

  /** One face-mesh landmark in normalised image coordinates. */
  datatype Landmark = Landmark(x: real, y: real)

  /** The landmarks of one detected face. */
  type Face = seq<Landmark>

  /** Every face carries at least one landmark (the mesh always reports a full set). */
  predicate WellFormed(faces: seq<Face>) {
    forall i :: 0 <= i < |faces| ==> |faces[i]| > 0
  }

  function MinOf(s: seq<real>): (m: real)
    requires |s| > 0
    ensures m in s
    ensures forall i :: 0 <= i < |s| ==> m <= s[i]
  {
    if |s| == 1 then s[0]
    else
      var rest := MinOf(s[1..]);
      if s[0] <= rest then s[0] else rest
  }

  function MaxOf(s: seq<real>): (m: real)
    requires |s| > 0
    ensures m in s
    ensures forall i :: 0 <= i < |s| ==> s[i] <= m
  {
    if |s| == 1 then s[0]
    else
      var rest := MaxOf(s[1..]);
      if s[0] >= rest then s[0] else rest
  }

  /** The landmarks' x coordinates in pixels, `landmark.x * w`. */
  function PixelXs(face: Face, w: nat): (xs: seq<real>)
    ensures |xs| == |face|
  {
    seq(|face|, i requires 0 <= i < |face| => face[i].x * (w as real))
  }

  /** The landmarks' y coordinates in pixels, `landmark.y * h`. */
  function PixelYs(face: Face, h: nat): (ys: seq<real>)
    ensures |ys| == |face|
  {
    seq(|face|, i requires 0 <= i < |face| => face[i].y * (h as real))
  }

  /** `max(s) - min(s)`, the side of the bounding box along one axis. */
  function Extent(s: seq<real>): (e: real)
    requires |s| > 0
    ensures e >= 0.0
  {
    assert MinOf(s) <= s[0] <= MaxOf(s);
    MaxOf(s) - MinOf(s)
  }

  /** Area of the axis-aligned box around the face's landmarks, in square pixels. */
  function BoxArea(face: Face, w: nat, h: nat): (area: real)
    requires |face| > 0
    ensures area >= 0.0
  {
    var xs, ys := PixelXs(face, w), PixelYs(face, h);
    Extent(xs) * Extent(ys)
  }

  function Areas(faces: seq<Face>, w: nat, h: nat): (areas: seq<real>)
    requires WellFormed(faces)
    ensures |areas| == |faces|
    ensures forall i :: 0 <= i < |faces| ==> areas[i] == BoxArea(faces[i], w, h)
  {
    seq(|faces|, i requires 0 <= i < |faces| => BoxArea(faces[i], w, h))
  }

  /** `k` is the face the selection loop ends with: its area is positive, no
      area is larger, and every earlier area is strictly smaller. */
  predicate IsMainFace(areas: seq<real>, k: nat) {
    k < |areas| && areas[k] > 0.0 &&
    (forall j :: 0 <= j < |areas| ==> areas[j] <= areas[k]) &&
    (forall j :: 0 <= j < k ==> areas[j] < areas[k])
  }

  /** The scan of main.py:59-69 over a list of areas, as a fold from the left:
      `largest_area` starts at 0 and only a strictly larger area replaces it. */
  function Pick(areas: seq<real>): (r: Option<nat>)
    ensures r.None? <==> forall j :: 0 <= j < |areas| ==> areas[j] <= 0.0
    ensures r.Some? ==> IsMainFace(areas, r.value)
    decreases |areas|
  {
    if |areas| == 0 then None
    else
      var n := |areas| - 1;
      var prev := Pick(areas[..n]);
      var largest := if prev.Some? then areas[prev.value] else 0.0;
      assert forall j :: 0 <= j < n ==> areas[..n][j] == areas[j];
      if areas[n] > largest then Some(n) else prev
  }

  /** The area the scan has kept so far, `largest_area`. */
  function Largest(areas: seq<real>, r: Option<nat>): real
    requires r.Some? ==> r.value < |areas|
  {
    if r.Some? then areas[r.value] else 0.0
  }

  /** One more iteration of the scan. */
  lemma PickExtend(areas: seq<real>, i: nat)
    requires i < |areas|
    ensures Pick(areas[..i + 1]) ==
      if areas[i] > Largest(areas, Pick(areas[..i])) then Some(i) else Pick(areas[..i])
  {
    assert areas[..i + 1][..i] == areas[..i];
  }

  /** The index of the main face of one frame, if any. */
  function SelectMainFace(faces: seq<Face>, w: nat, h: nat): (r: Option<nat>)
    requires WellFormed(faces)
    ensures r.None? <==> forall i :: 0 <= i < |faces| ==> BoxArea(faces[i], w, h) == 0.0
    ensures r.Some? ==> IsMainFace(Areas(faces, w, h), r.value)
  {
    Pick(Areas(faces, w, h))
  }

  /** The first-maximum characterisation determines the selection: the face
      the scan picks is exactly the face satisfying IsMainFace. */
  lemma {:induction false} PickIsFirstMaximum(areas: seq<real>, k: nat)
    ensures Pick(areas) == Some(k) <==> IsMainFace(areas, k)
  {
    if IsMainFace(areas, k) {
      var r := Pick(areas);
      assert r.Some? by { assert areas[k] > 0.0; }
    }
  }

  /** With no face at all there is no main face. */
  lemma NoFacesNoSelection(w: nat, h: nat)
    ensures SelectMainFace([], w, h) == None
  {
  }

  /** The selection loop of main.py:59-69, step by step. */
  method FindMainFace(faces: seq<Face>, w: nat, h: nat) returns (main: Option<nat>)
    requires WellFormed(faces)
    ensures main == SelectMainFace(faces, w, h)
  {
    ghost var areas := Areas(faces, w, h);
    var largest := 0.0;
    main := None;
    var i := 0;
    while i < |faces|
      invariant 0 <= i <= |faces|
      invariant main == Pick(areas[..i])
      invariant largest == Largest(areas, main)
    {
      var area := BoxArea(faces[i], w, h);
      PickExtend(areas, i);
      if area > largest {
        largest := area;
        main := Some(i);
      }
      i := i + 1;
    }
    assert areas[..|faces|] == areas;
  }
}
