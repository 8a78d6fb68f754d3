/** The fixed part catalog: the five chicken parts, in the order the sheet lists them. */
module Catalog {

  /** A produced part: its display name and its material identifier. */
  datatype Part = Part(name: string, materialId: string)

  const Parts: seq<Part> := [
    Part("Thigh", "10089831"),
    Part("Drumstick", "10089827"),
    Part("Breast", "10089836"),
    Part("Wings", "10089825"),
    Part("Neck", "10089830")
  ]

  /** No two parts share a name. */
  predicate DistinctNames(parts: seq<Part>)
  {
    forall i, j :: 0 <= i < j < |parts| ==> parts[i].name != parts[j].name
  }

  /** The catalog names every part differently, so a name identifies its part. */
  lemma CatalogNamesDistinct()
    ensures DistinctNames(Parts)
  {
    assert Parts[0].name[0] == 'T' && Parts[1].name[0] == 'D' && Parts[2].name[0] == 'B';
    assert Parts[3].name[0] == 'W' && Parts[4].name[0] == 'N';
  }
}
