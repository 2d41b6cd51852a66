/** DL25 test category to test type cross-reference (src/application/utils/dl25-test-type.ts). */
module Dl25TestType {

  import opened Wrappers

  /** The `TestCategory` members the table mentions. */
  datatype TestCategory =
    | ADI2 | ADI3 | B | BE
    | C | CE | C1 | C1E | D | DE | D1 | D1E
    | F | G | H | K
    | EUA1M1 | EUA1M2 | EUA2M1 | EUA2M2 | EUAM1 | EUAM2 | EUAMM1 | EUAMM2
    | CCPC | DCPC
    | CM | CEM | C1M | C1EM | DM | DEM | D1M | D1EM
    | SC

  /** The `[key, value]` pairs the `Map` is built from, in source order. */
  const Mapping: seq<(TestCategory, nat)> := [
    (ADI2, 10),
    (ADI3, 11),
    (B, 2), (BE, 2),
    (C, 3), (CE, 3), (C1, 3), (C1E, 3),
    (D, 4), (DE, 4), (D1, 4), (D1E, 4),
    (F, 5),
    (G, 6),
    (H, 7),
    (K, 8),
    (EUA1M1, 16), (EUA1M2, 1),
    (EUA2M1, 16), (EUA2M2, 1),
    (EUAM1, 16), (EUAM2, 1),
    (EUAMM1, 17), (EUAMM2, 9),
    (CCPC, 44), (DCPC, 44),
    (CM, 18), (CEM, 18), (C1M, 18), (C1EM, 18),
    (DM, 19), (DEM, 19), (D1M, 19), (D1EM, 19),
    (SC, 12)
  ]

  /** Every test type the table can give. */
  const TestTypes: set<nat> := {1, 2, 3, 4, 5, 6, 7, 8, 9, 10, 11, 12, 16, 17, 18, 19, 44}

  /**
   * `new Map(entries).get(category)`: the keys are the categories' string values
   * (`enumValue`, from the schema package), and a later entry for a key overwrites an earlier one.
   */
  function MapGet(entries: seq<(TestCategory, nat)>, category: string, enumValue: TestCategory -> string): (r: Option<nat>)
    ensures r.None? <==> forall i :: 0 <= i < |entries| ==> enumValue(entries[i].0) != category
    ensures r.Some? ==> exists i :: 0 <= i < |entries| && enumValue(entries[i].0) == category
                                    && entries[i].1 == r.value
                                    && forall j :: i < j < |entries| ==> enumValue(entries[j].0) != category
  {
    if entries == [] then None
    else
      var n := |entries| - 1;
      if enumValue(entries[n].0) == category then Some(entries[n].1)
      else MapGet(entries[..n], category, enumValue)
  }

  /** `determineDl25TestType(category)`; `undefined` is `None`. */
  function DetermineDl25TestType(category: string, enumValue: TestCategory -> string): (r: Option<nat>)
    ensures (forall tc :: enumValue(tc) != category) ==> r.None?
    ensures r.Some? ==> r.value in TestTypes
  {
    AllTestTypesListed();
    MapGet(Mapping, category, enumValue)
  }

  lemma AllTestTypesListed()
    ensures forall i :: 0 <= i < |Mapping| ==> Mapping[i].1 in TestTypes
  {
  }

  /** The test type of each category, grouped as the DL25 cross-reference describes it. */
  function TestTypeOf(category: TestCategory): nat {
    match category
    case ADI2 => 10
    case ADI3 => 11
    case B | BE => 2
    case C | CE | C1 | C1E => 3
    case D | DE | D1 | D1E => 4
    case F => 5
    case G => 6
    case H => 7
    case K => 8
    case EUA1M1 | EUA2M1 | EUAM1 => 16
    case EUAMM1 => 17
    case EUA1M2 | EUA2M2 | EUAM2 => 1
    case EUAMM2 => 9
    case CCPC | DCPC => 44
    case CM | CEM | C1M | C1EM => 18
    case DM | DEM | D1M | D1EM => 19
    case SC => 12
  }

  /** Where each category's entry sits in the table. */
  function Position(category: TestCategory): nat {
    match category
    case ADI2 => 0 case ADI3 => 1 case B => 2 case BE => 3
    case C => 4 case CE => 5 case C1 => 6 case C1E => 7
    case D => 8 case DE => 9 case D1 => 10 case D1E => 11
    case F => 12 case G => 13 case H => 14 case K => 15
    case EUA1M1 => 16 case EUA1M2 => 17 case EUA2M1 => 18 case EUA2M2 => 19
    case EUAM1 => 20 case EUAM2 => 21 case EUAMM1 => 22 case EUAMM2 => 23
    case CCPC => 24 case DCPC => 25
    case CM => 26 case CEM => 27 case C1M => 28 case C1EM => 29
    case DM => 30 case DEM => 31 case D1M => 32 case D1EM => 33
    case SC => 34
  }

  /** The entry at index `i` sits at its key's position and holds its key's test type. */
  lemma EntryAt(i: nat)
    requires i < |Mapping|
    ensures Position(Mapping[i].0) == i && Mapping[i].1 == TestTypeOf(Mapping[i].0)
  {
    if i < 18 {
      EntriesFrom0(i);
    } else if i < 26 {
      EntriesFrom18(i);
    } else {
      EntriesFrom26(i);
    }
  }

  lemma EntriesFrom0(i: nat)
    requires i < 18
    ensures Position(Mapping[i].0) == i && Mapping[i].1 == TestTypeOf(Mapping[i].0)
  {
    match i
    case 0 =>
    case 1 =>
    case 2 =>
    case 3 =>
    case 4 =>
    case 5 =>
    case 6 =>
    case 7 =>
    case 8 =>
    case 9 =>
    case 10 =>
    case 11 =>
    case 12 =>
    case 13 =>
    case 14 =>
    case 15 =>
    case 16 =>
    case 17 =>
    case _ => assert false;
  }

  lemma EntriesFrom18(i: nat)
    requires 18 <= i < 26
    ensures Position(Mapping[i].0) == i && Mapping[i].1 == TestTypeOf(Mapping[i].0)
  {
    match i
    case 18 =>
    case 19 =>
    case 20 =>
    case 21 =>
    case 22 =>
    case 23 =>
    case 24 =>
    case 25 =>
    case _ => assert false;
  }

  lemma EntriesFrom26(i: nat)
    requires 26 <= i < 35
    ensures Position(Mapping[i].0) == i && Mapping[i].1 == TestTypeOf(Mapping[i].0)
  {
    match i
    case 26 =>
    case 27 =>
    case 28 =>
    case 29 =>
    case 30 =>
    case 31 =>
    case 32 =>
    case 33 =>
    case 34 =>
    case _ => assert false;
  }

  /** Every category has an entry, at its position. */
  lemma {:induction false} EntryOf(category: TestCategory)
    ensures Position(category) < |Mapping| && Mapping[Position(category)].0 == category
  {
    match category
    case ADI2 => case ADI3 => case B => case BE =>
    case C => case CE => case C1 => case C1E =>
    case D => case DE => case D1 => case D1E =>
    case F => case G => case H => case K =>
    case EUA1M1 => case EUA1M2 => case EUA2M1 => case EUA2M2 =>
    case EUAM1 => case EUAM2 => case EUAMM1 => case EUAMM2 =>
    case CCPC => case DCPC =>
    case CM => case CEM => case C1M => case C1EM =>
    case DM => case DEM => case D1M => case D1EM =>
    case SC =>
  }

  /** No category is listed twice, so the order of the entries does not affect a lookup. */
  lemma KeysDistinct()
    ensures forall i, j :: 0 <= i < j < |Mapping| ==> Mapping[i].0 != Mapping[j].0
  {
    forall i, j | 0 <= i < j < |Mapping| ensures Mapping[i].0 != Mapping[j].0 {
      EntryAt(i);
      EntryAt(j);
    }
  }

  ghost predicate Injective(enumValue: TestCategory -> string) {
    forall a, b :: enumValue(a) == enumValue(b) ==> a == b
  }

  /** With distinct enum strings, every category's string value looks up its own test type. */
  lemma Dl25OfCategory(category: TestCategory, enumValue: TestCategory -> string)
    requires Injective(enumValue)
    ensures DetermineDl25TestType(enumValue(category), enumValue) == Some(TestTypeOf(category))
  {
    EntryOf(category);
    var r := MapGet(Mapping, enumValue(category), enumValue);
    assert enumValue(Mapping[Position(category)].0) == enumValue(category);
    var i :| 0 <= i < |Mapping| && enumValue(Mapping[i].0) == enumValue(category) && Mapping[i].1 == r.value;
    EntryAt(i);
    assert Mapping[i].0 == category;
  }
}
