/** The fixed table of waste categories shared by the text and the image
    classifier (`mockWasteTypes`), the recyclable membership list, the
    shape of a classification result, and first-match search over an
    ordered list of categories. */
module Categories {
  import opened Common

  datatype Category = Plastic | Paper | Glass | Metal | Electronic | Organic | Hazardous | Mixed

  /** The entries of `mockWasteTypes`, in declaration order. */
  const AllCategories: seq<Category> :=
    [Plastic, Paper, Glass, Metal, Electronic, Organic, Hazardous, Mixed]

  /** The `type` string of a category as it is shown and stored. */
  function Name(c: Category): string {
    match c
    case Plastic => "Plastic"
    case Paper => "Paper"
    case Glass => "Glass"
    case Metal => "Metal"
    case Electronic => "Electronic"
    case Organic => "Organic"
    case Hazardous => "Hazardous"
    case Mixed => "Mixed"
  }

  function Instructions(c: Category): string {
    match c
    case Plastic => "Rinse container and place in the recycling bin."
    case Paper => "Flatten cardboard and place in the recycling bin."
    case Glass => "Rinse container and place in the glass recycling bin."
    case Metal => "Rinse container and place in the recycling bin."
    case Electronic => "Take to an e-waste collection center."
    case Organic => "Place in compost or green waste bin."
    case Hazardous => "Take to a hazardous waste facility. DO NOT place in regular trash."
    case Mixed => "Separate components if possible, otherwise place in general waste."
  }

  /** The list the image path tests with `includes` to decide recyclability. */
  const RecyclableNames: seq<string> := ["Plastic", "Paper", "Glass", "Metal"]

  predicate Recyclable(c: Category) {
    Name(c) in RecyclableNames
  }

  /** The table lists every category once, and names identify categories. */
  lemma TableIsComplete(c: Category, d: Category)
    ensures c in AllCategories
    ensures Name(c) == Name(d) ==> c == d
    ensures |AllCategories| == 8
  {
    if Name(c) == Name(d) {
      assert Name(c)[..2] == Name(d)[..2];
    }
  }

  /** The membership list selects exactly the four recyclable materials. */
  lemma RecyclableMembership(c: Category)
    ensures Recyclable(c) <==> c == Plastic || c == Paper || c == Glass || c == Metal
  {
  }

  /** The result shape shared by both classification paths. */
  datatype Classification = Classification(
    category: Category, confidence: real, recyclable: bool, instructions: string)

  /** The first category of `order` that satisfies `p`, if any. */
  function FirstWhere(order: seq<Category>, p: Category -> bool): (r: Option<Category>)
    ensures r.Some? ==> r.value in order && p(r.value)
    ensures r.None? <==> forall i :: 0 <= i < |order| ==> !p(order[i])
  {
    if |order| == 0 then None
    else if p(order[0]) then Some(order[0])
    else FirstWhere(order[1..], p)
  }

  /** First match wins: every category listed before the one chosen fails
      `p`, so a later category is never chosen over an earlier one. */
  lemma {:induction false} FirstWhereIsEarliest(order: seq<Category>, p: Category -> bool, k: nat)
    requires k < |order| && p(order[k])
    ensures FirstWhere(order, p).Some?
    ensures exists j :: 0 <= j <= k && order[j] == FirstWhere(order, p).value
                        && (forall i :: 0 <= i < j ==> !p(order[i]))
    decreases k
  {
    if !p(order[0]) {
      FirstWhereIsEarliest(order[1..], p, k - 1);
      var j :| 0 <= j <= k - 1 && order[1..][j] == FirstWhere(order[1..], p).value
        && forall i :: 0 <= i < j ==> !p(order[1..][i]);
      assert order[j + 1] == FirstWhere(order, p).value;
      assert forall i :: 0 <= i < j + 1 ==> !p(order[i]) by {
        forall i | 0 <= i < j + 1 ensures !p(order[i]) {
          if i > 0 { assert order[i] == order[1..][i - 1]; }
        }
      }
    } else {
      assert order[0] == FirstWhere(order, p).value;
    }
  }

  /** First-match search over a list of seven categories, written out as
      the cascade of tests it performs. */
  lemma FirstWhereOfSeven(order: seq<Category>, p: Category -> bool)
    requires |order| == 7
    ensures FirstWhere(order, p) ==
      if p(order[0]) then Some(order[0])
      else if p(order[1]) then Some(order[1])
      else if p(order[2]) then Some(order[2])
      else if p(order[3]) then Some(order[3])
      else if p(order[4]) then Some(order[4])
      else if p(order[5]) then Some(order[5])
      else if p(order[6]) then Some(order[6])
      else None
  {
    var o1 := order[1..];
    var o2 := o1[1..];
    var o3 := o2[1..];
    var o4 := o3[1..];
    var o5 := o4[1..];
    var o6 := o5[1..];
    assert FirstWhere(o6[1..], p) == None;
    assert FirstWhere(o6, p) == if p(order[6]) then Some(order[6]) else None;
    assert FirstWhere(o5, p) == if p(order[5]) then Some(order[5]) else FirstWhere(o6, p);
    assert FirstWhere(o4, p) == if p(order[4]) then Some(order[4]) else FirstWhere(o5, p);
    assert FirstWhere(o3, p) == if p(order[3]) then Some(order[3]) else FirstWhere(o4, p);
    assert FirstWhere(o2, p) == if p(order[2]) then Some(order[2]) else FirstWhere(o3, p);
    assert FirstWhere(o1, p) == if p(order[1]) then Some(order[1]) else FirstWhere(o2, p);
  }
}
