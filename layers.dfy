/**
 * The layer-support check run before loading a model: every layer of the
 * network must be among the layers the device reports as supported.  The
 * device query is an input here: the set of supported layer names.
 */
module Layers {

  /** The layers of `layers`, in order, that the device does not support. */
  function Unsupported(layers: seq<string>, supported: set<string>): (r: seq<string>)
    ensures |r| <= |layers|
    ensures forall l :: l in r <==> l in layers && l !in supported
  {
    if layers == [] then []
    else
      var init, last := layers[..|layers| - 1], layers[|layers| - 1];
      assert layers == init + [last];
      Unsupported(init, supported) + (if last in supported then [] else [last])
  }

  /**
   * Walks every layer, clearing the result flag for each unsupported one and
   * reporting it; the walk does not stop at the first unsupported layer.
   */
  method LayerSupportChecker(allLayers: seq<string>, supportedLayers: set<string>)
    returns (returnValue: bool, reported: seq<string>)
    ensures returnValue <==> forall l :: l in allLayers ==> l in supportedLayers
    ensures reported == Unsupported(allLayers, supportedLayers)
  {
    returnValue := true;
    reported := [];
    var i := 0;
    while i < |allLayers|
      invariant 0 <= i <= |allLayers|
      invariant returnValue <==> forall k :: 0 <= k < i ==> allLayers[k] in supportedLayers
      invariant reported == Unsupported(allLayers[..i], supportedLayers)
    {
      var l := allLayers[i];
      assert allLayers[..i + 1][..i] == allLayers[..i];
      if l !in supportedLayers {
        returnValue := false;
        reported := reported + [l];
      }
      i := i + 1;
    }
    assert allLayers[..i] == allLayers;
  }
}
