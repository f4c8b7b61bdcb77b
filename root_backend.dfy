/**
 * backend.py: the older server at the repository root. Same handlers as
 * backend/backend.py but without timestamps or a reset, and its
 * `is_new_discovery` calls `math.sqrt` without `math` ever being imported:
 * the first item it inspects raises `NameError`, which aborts the request
 * before anything is logged.
 */
module RootBackend {
  import opened Wrappers
  import Discovery

  /** The exception a handler raises; the web framework turns it into an error response. */
  datatype Fault = NameError(name: string)

  /** The label a report without one is logged under (before upper-casing). */
  const UnknownLabel := "Unknown Object"

  /**
   * `is_new_discovery` as written: with an empty log the loop body never runs
   * and the answer is True; otherwise computing the first distance raises.
   * Whenever it does answer, it agrees with the intended rule.
   */
  function IsNewDiscovery(resources: seq<Discovery.Item>, newLabel: string, newX: real, newY: real, threshold: real)
    : (r: Result<bool, Fault>)
    ensures r.Success? <==> resources == []
    ensures r.Success? ==> r.value == !Discovery.IsDuplicate(resources, newLabel, newX, newY, threshold)
    ensures r.Failure? ==> r.error == NameError("math")
  {
    if resources == [] then Success(true)
    else Failure(NameError("math"))
  }

  /**
   * The input that shows the missing import: with "BOTTLE" logged at the
   * origin, a "cup" reported 100 cm away in each axis is new under the
   * intended rule, yet the handler raises instead of logging it.
   */
  lemma MissingImportRejectsNewObject()
    ensures var log := [Discovery.Item(0.0, 0.0, "BOTTLE", None)];
      !Discovery.IsDuplicate(log, "cup", 100.0, 100.0, Discovery.DefaultThreshold)
      && IsNewDiscovery(log, "cup", 100.0, 100.0, Discovery.DefaultThreshold) == Failure(NameError("math"))
  {
    var log := [Discovery.Item(0.0, 0.0, "BOTTLE", None)];
    assert Discovery.Upper("cup") == "CUP";
    assert log[0].name != Discovery.Upper("cup");
  }

  class Server {
    var x: real
    var y: real
    var h: real
    var resources: seq<Discovery.Item>

    /** As written, the log can never grow past its first item; that item's label is upper case. */
    ghost predicate Valid()
      reads this
    {
      |resources| <= 1 && Discovery.AllUpper(resources)
    }

    constructor ()
      ensures Valid()
      ensures x == 0.0 && y == 0.0 && h == 0.0 && resources == []
    {
      x, y, h := 0.0, 0.0, 0.0;
      resources := [];
    }

    /** `update_location()`: take `x`, `y`, `h` from the request, each defaulting to 0; the log is untouched. */
    method UpdateLocation(newX: Option<real>, newY: Option<real>, newH: Option<real>) returns (status: string)
      requires Valid()
      modifies this
      ensures Valid()
      ensures x == newX.GetOr(0.0) && y == newY.GetOr(0.0) && h == newH.GetOr(0.0)
      ensures resources == old(resources)
      ensures status == "ok"
    {
      x := newX.GetOr(0.0);
      y := newY.GetOr(0.0);
      h := newH.GetOr(0.0);
      status := "ok";
    }

    /**
     * `resource_found()`: upper-case the label (or the default) and ask
     * `is_new_discovery`. The first report is logged with exactly `x`, `y`
     * and the label; every later one raises and leaves the log alone.
     */
    method ResourceFound(reportedLabel: Option<string>) returns (outcome: Result<string, Fault>)
      requires Valid()
      modifies this
      ensures Valid()
      ensures x == old(x) && y == old(y) && h == old(h)
      ensures var text := Discovery.Upper(reportedLabel.GetOr(UnknownLabel));
        && (old(resources) == [] ==> outcome == Success("added") && resources == [Discovery.Item(old(x), old(y), text, None)])
        && (old(resources) != [] ==> outcome == Failure(NameError("math")) && resources == old(resources))
    {
      var labelText := Discovery.Upper(reportedLabel.GetOr(UnknownLabel));
      var currX := x;
      var currY := y;
      var check := IsNewDiscovery(resources, labelText, currX, currY, Discovery.DefaultThreshold);
      if check.Failure? {
        return Failure(check.error);
      }
      if check.value {
        var newItem := Discovery.Item(currX, currY, labelText, None);
        resources := resources + [newItem];
        return Success("added");
      }
      return Success("text mapped");
    }
  }
}
