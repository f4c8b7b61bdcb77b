/**
 * backend/backend.py: the telemetry server's global `state` (the robot's
 * last reported pose and the discovery log) and the three handlers that
 * change it. Only the effect on `state` and the returned `status` are
 * modelled, not the HTTP transport.
 */
module Backend {
  import opened Wrappers
  import opened Discovery

  /** The label a report without one is logged under (before upper-casing). */
  const UnknownLabel := "Unknown Object"

  class Server {
    var x: real
    var y: real
    var h: real
    var resources: seq<Item>

    /** The log never holds two same-label items closer than 15, and all its labels are upper case. */
    ghost predicate Valid()
      reads this
    {
      Separated(resources, DefaultThreshold) && AllUpper(resources)
    }

    constructor ()
      ensures Valid()
      ensures x == 0.0 && y == 0.0 && h == 0.0 && resources == []
    {
      x, y, h := 0.0, 0.0, 0.0;
      resources := [];
    }

    /** `update_location()`: take `x`, `y`, `h` from the request, each defaulting to 0; the log is untouched. */
    method UpdateLocation(newX: Option<real>, newY: Option<real>, newH: Option<real>) returns (status: string)
      requires Valid()
      modifies this
      ensures Valid()
      ensures x == newX.GetOr(0.0) && y == newY.GetOr(0.0) && h == newH.GetOr(0.0)
      ensures resources == old(resources)
      ensures status == "ok"
    {
      x := newX.GetOr(0.0);
      y := newY.GetOr(0.0);
      h := newH.GetOr(0.0);
      status := "ok";
    }

    /** `reset()`: back to the origin with an empty log. */
    method Reset() returns (status: string)
      modifies this
      ensures Valid()
      ensures x == 0.0 && y == 0.0 && h == 0.0 && resources == []
      ensures status == "reset"
    {
      x, y, h := 0.0, 0.0, 0.0;
      resources := [];
      status := "reset";
    }

    /**
     * `resource_found()`: upper-case the reported label (or the default),
     * and log it at the current position, stamped with `now`, exactly when
     * the deduplication rule judges it new.
     */
    method ResourceFound(reportedLabel: Option<string>, now: string) returns (status: string)
      requires Valid()
      modifies this
      ensures Valid()
      ensures x == old(x) && y == old(y) && h == old(h)
      ensures var text := Upper(reportedLabel.GetOr(UnknownLabel));
        && (status == "added" <==> !IsDuplicate(old(resources), text, old(x), old(y), DefaultThreshold))
        && (status == "added" ==> resources == old(resources) + [Item(old(x), old(y), text, Some(now))])
        && (status != "added" ==> status == "text mapped" && resources == old(resources))
    {
      var labelText := Upper(reportedLabel.GetOr(UnknownLabel));
      var currX := x;
      var currY := y;
      var isNew := IsNewDiscovery(resources, labelText, currX, currY, DefaultThreshold);
      if isNew {
        var newItem := Item(currX, currY, labelText, Some(now));
        UpperIdempotent(labelText);
        AppendNewKeepsSeparated(resources, newItem, DefaultThreshold);
        resources := resources + [newItem];
        return "added";
      }
      return "text mapped";
    }
  }
}
