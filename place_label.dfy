/** The two place labels the widget composes: the header above the current
    conditions and the second line of a search suggestion. */
module PlaceLabel {
  import opened Text

  const Separator: string := ", "

  /** The weather header: of the place name, its region (`admin1`) and its
      country, the first two that are not empty, joined by ", ". */
  function DisplayLocation(name: string, admin: string, country: string): (r: string)
    ensures name != "" ==> |name| <= |r| && r[..|name|] == name
  {
    Join(Take(NonEmpty([name, admin, country]), 2), Separator)
  }

  /** The suggestion sub-line: the region and the country that are not
      empty, joined by ", ". */
  function SubText(admin1: string, country: string): (r: string)
    ensures admin1 != "" ==> |admin1| <= |r| && r[..|admin1|] == admin1
    ensures r == "" <==> admin1 == "" && country == ""
  {
    NonEmptyPair(admin1, country);
    Join(NonEmpty([admin1, country]), Separator)
  }

  /** Filtering a list of two or three strings, case by case. */
  lemma NonEmptyPair(a: string, b: string)
    ensures NonEmpty([a, b]) == (if a != "" then [a] else []) + (if b != "" then [b] else [])
  {
    assert [a, b][1..] == [b];
    assert [b][1..] == [];
  }

  lemma NonEmptyTriple(a: string, b: string, c: string)
    ensures NonEmpty([a, b, c])
         == (if a != "" then [a] else []) + (if b != "" then [b] else []) + (if c != "" then [c] else [])
  {
    assert [a, b, c][1..] == [b, c];
    NonEmptyPair(b, c);
  }

  /** The header, spelled out for every combination of empty and non-empty
      parts: the name comes first when present, and a third part is never
      shown once two earlier ones are present. */
  lemma DisplayLocationCases(name: string, admin: string, country: string)
    ensures DisplayLocation(name, admin, country) ==
      if name != "" then
        (if admin != "" then name + ", " + admin
         else if country != "" then name + ", " + country
         else name)
      else if admin != "" then
        (if country != "" then admin + ", " + country else admin)
      else country
  {
    NonEmptyTriple(name, admin, country);
    var parts := NonEmpty([name, admin, country]);
    var shown := Take(parts, 2);
    if |shown| == 2 {
      assert shown[1..] == [shown[1]];
      assert Join(shown, Separator) == shown[0] + ", " + shown[1];
    }
  }

  /** The header holds at most two parts, each one of the three inputs, so
      it is empty exactly when all three inputs are. */
  lemma DisplayLocationEmpty(name: string, admin: string, country: string)
    ensures DisplayLocation(name, admin, country) == "" <==> name == "" && admin == "" && country == ""
  {
    DisplayLocationCases(name, admin, country);
  }

  lemma DisplayLocationAtMostTwoParts(name: string, admin: string, country: string)
    ensures var shown := Take(NonEmpty([name, admin, country]), 2);
            |shown| <= 2 && (forall p :: p in shown ==> p != "" && p in [name, admin, country])
  {
  }

  /** The sub-line, spelled out for every combination of empty and non-empty
      region and country. */
  lemma SubTextCases(admin1: string, country: string)
    ensures SubText(admin1, country) ==
      if admin1 != "" && country != "" then admin1 + ", " + country
      else if admin1 != "" then admin1
      else country
  {
    NonEmptyPair(admin1, country);
    if admin1 != "" && country != "" {
      var parts := [admin1, country];
      assert parts[1..] == [country];
      assert Join(parts, Separator) == admin1 + ", " + country;
    }
  }

  /** Two worked headers: an Austrian city whose region shares its name,
      and a place whose region is missing. */
  lemma DisplayLocationExamples()
    ensures DisplayLocation("Wien", "Wien", "Österreich") == "Wien, Wien"
    ensures DisplayLocation("Paris", "", "France") == "Paris, France"
  {
    DisplayLocationCases("Wien", "Wien", "Österreich");
    DisplayLocationCases("Paris", "", "France");
  }
}
