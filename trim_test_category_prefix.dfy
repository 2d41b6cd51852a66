/** Dropping the "EU" marker from a test category code (src/domain/trim-test-category-prefix.ts). */
module TestCategoryPrefix {

  import opened JsStrings

  /** `trimTestCategoryPrefix(category)`: `category.indexOf('EU') === 0` decides. */
  function TrimTestCategoryPrefix(category: string): (r: string)
    ensures "EU" <= category ==> r == category[2..]
    ensures !("EU" <= category) ==> r == category
  {
    IndexOfZeroIffPrefix(category, "EU");
    if IndexOf(category, "EU") == 0 then category[2..] else category
  }

  /** The result is a suffix of the input, two characters shorter exactly when a prefix went. */
  lemma TrimmedIsSuffix(category: string)
    ensures var r := TrimTestCategoryPrefix(category);
            |r| <= |category| && r == category[|category| - |r|..]
            && (|r| == |category| || |r| == |category| - 2)
  {
  }

  /** Only one prefix is removed, and "EU" further in is left alone. */
  lemma OnePrefixOnly(rest: string)
    ensures TrimTestCategoryPrefix("EU" + rest) == rest
    ensures TrimTestCategoryPrefix("EUEU" + rest) == "EU" + rest
  {
    assert "EU" <= "EU" + rest;
    assert "EU" <= "EUEU" + rest;
    assert ("EUEU" + rest)[2..] == "EU" + rest;
  }

  lemma EuElsewhereUntouched(category: string)
    requires |category| < 2 || category[..2] != "EU"
    ensures TrimTestCategoryPrefix(category) == category
  {
  }

  lemma PrefixExamples()
    ensures TrimTestCategoryPrefix("EUAM1") == "AM1"
    ensures TrimTestCategoryPrefix("B") == "B"
    ensures TrimTestCategoryPrefix("AEU") == "AEU"
  {
    assert "EU" <= "EUAM1";
    assert "EUAM1"[2..] == "AM1";
    assert !("EU" <= "AEU") by { assert "AEU"[0] != 'E'; }
  }
}
