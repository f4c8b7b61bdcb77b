/**
 * The spatial deduplication rule of the discovery log: a detection is a
 * re-observation when some logged item carries the same upper-cased label and
 * lies strictly closer than the threshold (15.0 by default).
 *
 * Distances are compared squared, so no square root is needed:
 * `sqrt(d2) < t` holds exactly when `t > 0` and `d2 < t * t`.
 */
module Discovery {
  import opened Wrappers

  /** The threshold `is_new_discovery` uses when none is passed. */
  const DefaultThreshold: real := 15.0

  /** One logged discovery: its position, its `label` (here `name`) and, in backend/backend.py, the time it was logged. */
  datatype Item = Item(x: real, y: real, name: string, timestamp: Option<string>)

  function UpperChar(c: char): char {
    if 'a' <= c <= 'z' then (c as int - 32) as char else c
  }

  predicate IsUpper(s: string) {
    forall i :: 0 <= i < |s| ==> !('a' <= s[i] <= 'z')
  }

  /** `str.upper()` on ASCII letters: every lower-case letter becomes its capital, nothing else changes. */
  function Upper(s: string): (r: string)
    ensures |r| == |s| && IsUpper(r)
    ensures forall i :: 0 <= i < |s| && !('a' <= s[i] <= 'z') ==> r[i] == s[i]
    ensures forall i :: 0 <= i < |s| && 'a' <= s[i] <= 'z' ==> r[i] == (s[i] as int - 32) as char
  {
    seq(|s|, i requires 0 <= i < |s| => UpperChar(s[i]))
  }

  /** Upper-casing an upper-case label changes nothing, so it is idempotent. */
  lemma UpperIdempotent(s: string)
    requires IsUpper(s)
    ensures Upper(s) == s
  {
  }

  /** Labels that differ only in letter case name the same kind of object. */
  lemma UpperIgnoresCase()
    ensures Upper("bottle") == Upper("BOTTLE") == Upper("BoTtLe") == "BOTTLE"
  {
  }

  /** The squared distance between two points. */
  function DistSq(x1: real, y1: real, x2: real, y2: real): real {
    (x1 - x2) * (x1 - x2) + (y1 - y2) * (y1 - y2)
  }

  /** `sqrt(distSq) < threshold`, decided without the square root. */
  predicate CloserThan(distSq: real, threshold: real) {
    threshold > 0.0 && distSq < threshold * threshold
  }

  /** For the true distance `d` (non-negative, squaring to `distSq`) the test agrees with `d < threshold`. */
  lemma CloserThanIsDistanceBelow(distSq: real, d: real, threshold: real)
    requires d >= 0.0 && d * d == distSq
    ensures CloserThan(distSq, threshold) <==> d < threshold
  {
    if d < threshold {
      calc {
        distSq;
      == d * d;
      <= d * threshold;
      <  threshold * threshold;
      }
    } else if threshold > 0.0 {
      calc {
        threshold * threshold;
      <= threshold * d;
      <= d * d;
      == distSq;
      }
    }
  }

  /** Some logged item has the upper-cased label and lies strictly within the threshold of (x, y). */
  predicate IsDuplicate(resources: seq<Item>, text: string, x: real, y: real, threshold: real) {
    exists i :: 0 <= i < |resources| && resources[i].name == Upper(text)
      && CloserThan(DistSq(x, y, resources[i].x, resources[i].y), threshold)
  }

  /**
   * `is_new_discovery(new_label, new_x, new_y, threshold)` of
   * backend/backend.py: scan the log and answer False at the first item with
   * the same upper-cased label closer than the threshold, True otherwise.
   */
  method IsNewDiscovery(resources: seq<Item>, newLabel: string, newX: real, newY: real, threshold: real)
    returns (isNew: bool)
    ensures isNew <==> !IsDuplicate(resources, newLabel, newX, newY, threshold)
  {
    var target := Upper(newLabel);
    for k := 0 to |resources|
      invariant forall j :: 0 <= j < k ==>
        !(resources[j].name == target && CloserThan(DistSq(newX, newY, resources[j].x, resources[j].y), threshold))
    {
      var item := resources[k];
      var distSq := (newX - item.x) * (newX - item.x) + (newY - item.y) * (newY - item.y);
      if item.name == target && threshold > 0.0 && distSq < threshold * threshold {
        return false;
      }
    }
    return true;
  }

  /** The log's invariant: no two items with the same label lie closer than the threshold. */
  predicate Separated(resources: seq<Item>, threshold: real) {
    forall i, j :: 0 <= i < j < |resources| && resources[i].name == resources[j].name ==>
      !CloserThan(DistSq(resources[j].x, resources[j].y, resources[i].x, resources[i].y), threshold)
  }

  /** Every logged label is upper case. */
  predicate AllUpper(resources: seq<Item>) {
    forall i :: 0 <= i < |resources| ==> IsUpper(resources[i].name)
  }

  /**
   * Logging an upper-case detection that the rule judged new keeps both
   * invariants: the log stays separated and upper case.
   */
  lemma AppendNewKeepsSeparated(resources: seq<Item>, item: Item, threshold: real)
    requires Separated(resources, threshold) && AllUpper(resources)
    requires IsUpper(item.name)
    requires !IsDuplicate(resources, item.name, item.x, item.y, threshold)
    ensures Separated(resources + [item], threshold) && AllUpper(resources + [item])
  {
    UpperIdempotent(item.name);
    var r := resources + [item];
    forall i, j | 0 <= i < j < |r| && r[i].name == r[j].name
      ensures !CloserThan(DistSq(r[j].x, r[j].y, r[i].x, r[i].y), threshold)
    {
      if j == |resources| {
        assert r[j] == item && r[i] == resources[i];
        assert !(resources[i].name == Upper(item.name)
                 && CloserThan(DistSq(item.x, item.y, resources[i].x, resources[i].y), threshold));
      }
    }
  }

  /** With nothing logged every detection is new. */
  lemma EmptyLogAllNew(text: string, x: real, y: real, threshold: real)
    ensures !IsDuplicate([], text, x, y, threshold)
  {
  }

  /** An item with another label never makes a detection a duplicate, however close it is. */
  lemma OtherLabelNeverBlocks(resources: seq<Item>, other: Item, text: string, x: real, y: real, threshold: real)
    requires other.name != Upper(text)
    ensures IsDuplicate(resources + [other], text, x, y, threshold) <==> IsDuplicate(resources, text, x, y, threshold)
  {
    var r := resources + [other];
    if IsDuplicate(r, text, x, y, threshold) {
      var i :| 0 <= i < |r| && r[i].name == Upper(text) && CloserThan(DistSq(x, y, r[i].x, r[i].y), threshold);
      assert i < |resources| && resources[i] == r[i];
    }
    if IsDuplicate(resources, text, x, y, threshold) {
      var i :| 0 <= i < |resources| && resources[i].name == Upper(text)
        && CloserThan(DistSq(x, y, resources[i].x, resources[i].y), threshold);
      assert r[i] == resources[i];
    }
  }

  /**
   * The rule at its boundary, with "BOTTLE" logged at (10, 10): a lower-case
   * report at the same spot is a duplicate, one exactly 15 away is new, one
   * 14.999 away is a duplicate, and a "CUP" at the same spot is new.
   */
  lemma BoundaryExamples()
    ensures var log := [Item(10.0, 10.0, "BOTTLE", None)];
      IsDuplicate(log, "bottle", 10.0, 10.0, DefaultThreshold)
      && !IsDuplicate(log, "BOTTLE", 10.0, 25.0, DefaultThreshold)
      && IsDuplicate(log, "BOTTLE", 10.0, 24.999, DefaultThreshold)
      && !IsDuplicate(log, "cup", 10.0, 10.0, DefaultThreshold)
  {
    var log := [Item(10.0, 10.0, "BOTTLE", None)];
    assert Upper("bottle") == "BOTTLE";
    assert Upper("BOTTLE") == "BOTTLE";
    assert Upper("cup") == "CUP";
    assert log[0].name == Upper("bottle") && CloserThan(DistSq(10.0, 10.0, log[0].x, log[0].y), DefaultThreshold);
    assert log[0].name == Upper("BOTTLE") && CloserThan(DistSq(10.0, 24.999, log[0].x, log[0].y), DefaultThreshold);
  }
}
