/** The TNM staging scheme: for each of the T, N and M axes an ordered list of
    category labels, and the categorical-to-ordinal encoding the similarity
    page applies to the stage a clinician selects. */
module Staging {

  /** The ordered category labels of one axis (`cdm[axis]['values']`). */
  type Labels = seq<string>

  /** The three axes of the common data model, in the order the page reads them. */
  datatype Scheme = Scheme(t: Labels, n: Labels, m: Labels)

  datatype Axis = T | N | M

  ghost predicate StrictlyIncreasing(ix: seq<nat>)
  {
    forall i, j :: 0 <= i < j < |ix| ==> ix[i] < ix[j]
  }

  /** The positions at which `stage` occurs in `values`, in increasing order:
      `np.where(np.array(values) == stage)[0]`. */
  function Where(values: Labels, stage: string): (ix: seq<nat>)
    ensures forall i :: 0 <= i < |ix| ==> ix[i] < |values| && values[ix[i]] == stage
    ensures forall k :: 0 <= k < |values| && values[k] == stage ==> k in ix
    ensures StrictlyIncreasing(ix)
  {
    if values == [] then []
    else
      var last := |values| - 1;
      var front := Where(values[..last], stage);
      front + (if values[last] == stage then [last] else [])
  }

  /** The ordinal codes of an axis, `list(range(len(values)))`. */
  function Ordinals(values: Labels): (codes: seq<nat>)
    ensures |codes| == |values|
    ensures forall i :: 0 <= i < |codes| ==> codes[i] == i
  {
    if values == [] then [] else Ordinals(values[..|values| - 1]) + [|values| - 1]
  }

  /** The ordinal code of `stage`: the first hit of `np.where`, looked up in
      the axis's ordinal codes. An absent stage makes the hit list empty and
      the `[0]` subscript fail, so membership is required. */
  function Encode(values: Labels, stage: string): (code: nat)
    requires stage in values
    ensures code < |values| && values[code] == stage
    ensures forall j :: 0 <= j < code ==> values[j] != stage
  {
    var hits := Where(values, stage);
    assert exists k: nat :: k < |values| && values[k] == stage;
    assert |hits| > 0;
    Ordinals(values)[hits[0]]
  }

  /** The stage with ordinal `code`: the inverse lookup of the axis. */
  function Decode(values: Labels, code: nat): string
    requires code < |values|
  {
    values[code]
  }

  ghost predicate Distinct(values: Labels)
  {
    forall i, j :: 0 <= i < j < |values| ==> values[i] != values[j]
  }

  /** `np.where` finds nothing exactly when the stage is not on the axis:
      the case in which the source's `[0][0]` subscript fails. */
  lemma WhereEmptyIffAbsent(values: Labels, stage: string)
    ensures Where(values, stage) == [] <==> stage !in values
  {
    if stage in values {
      var k :| 0 <= k < |values| && values[k] == stage;
      assert k in Where(values, stage);
    }
  }

  /** Decoding an encoded stage gives the stage back. */
  lemma DecodeEncode(values: Labels, stage: string)
    requires stage in values
    ensures Decode(values, Encode(values, stage)) == stage
  {
  }

  /** On an axis without repeated labels, encoding the stage at position
      `code` gives `code` back. */
  lemma EncodeDecode(values: Labels, code: nat)
    requires Distinct(values) && code < |values|
    ensures Encode(values, Decode(values, code)) == code
  {
  }
}
