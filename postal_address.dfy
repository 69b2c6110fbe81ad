/** Sources/Location/PostalAddress.swift: the postal address used as a geocoding key. */
module PostalAddresses {

  /**
   * `PostalAddress.init(street:city:state:postalCode:)` with its defaults.
   * Swift's synthesized `Hashable` is field-wise, and so is datatype equality.
   */
  datatype PostalAddress = PostalAddress(street: string := "", city: string := "", state: string := "", postalCode: string := "")

  lemma DefaultAddressIsEmpty()
    ensures PostalAddress() == PostalAddress("", "", "", "")
  {
  }

  /** Equality, and so lookup in a geocoding dictionary, compares the four fields. */
  lemma EqualityIsStructural(p: PostalAddress, q: PostalAddress)
    ensures p == q <==> p.street == q.street && p.city == q.city && p.state == q.state && p.postalCode == q.postalCode
  {
  }

  /** `PostalAddress.init(street1:street2:city:state:zipCode:)`: a non-empty second line is joined with a newline. */
  function FromStreetLines(street1: string, street2: string := "", city: string := "", state: string := "", zipCode: string := ""): (p: PostalAddress)
    ensures p.city == city && p.state == state && p.postalCode == zipCode
    ensures street2 == [] ==> p.street == street1
    ensures street2 != [] ==> |p.street| == |street1| + 1 + |street2| && p.street[..|street1|] == street1
                              && p.street[|street1|] == '\n' && p.street[|street1| + 1..] == street2
  {
    PostalAddress(
      street := if street2 != [] then street1 + "\n" + street2 else street1,
      city := city,
      state := state,
      postalCode := zipCode)
  }

  /** Splits a street at its first newline: the inverse of the join above. */
  function SplitStreet(s: string): (lines: (string, string))
    ensures '\n' !in lines.0
  {
    if s == [] then ([], [])
    else if s[0] == '\n' then ([], s[1..])
    else
      var rest := SplitStreet(s[1..]);
      ([s[0]] + rest.0, rest.1)
  }

  lemma {:induction false} SplitJoined(street1: string, tail: string)
    requires '\n' !in street1
    ensures SplitStreet(street1 + tail) == (street1 + SplitStreet(tail).0, SplitStreet(tail).1)
  {
    if street1 == [] {
      assert street1 + tail == tail;
      assert street1 + SplitStreet(tail).0 == SplitStreet(tail).0;
    } else {
      assert (street1 + tail)[0] == street1[0];
      assert (street1 + tail)[1..] == street1[1..] + tail;
      SplitJoined(street1[1..], tail);
      assert [street1[0]] + (street1[1..] + SplitStreet(tail).0) == street1 + SplitStreet(tail).0;
    }
  }

  /**
   * When the first line has no newline, both lines can be read back from
   * `street`, whether or not the second line was empty.
   */
  lemma {:induction false} StreetLinesRoundTrip(street1: string, street2: string, city: string, state: string, zipCode: string)
    requires '\n' !in street1
    ensures SplitStreet(FromStreetLines(street1, street2, city, state, zipCode).street) == (street1, street2)
  {
    if street2 != [] {
      assert street1 + "\n" + street2 == street1 + ("\n" + street2);
      SplitJoined(street1, "\n" + street2);
      assert ("\n" + street2)[1..] == street2;
      assert street1 + [] == street1;
    } else {
      SplitJoined(street1, []);
      assert street1 + [] == street1;
    }
  }

  /** `description`: "street, city, state postalCode". */
  function Description(p: PostalAddress): (d: string)
    ensures |d| == |p.street| + |p.city| + |p.state| + |p.postalCode| + 5
    ensures d[..|p.street|] == p.street && d[|d| - |p.postalCode|..] == p.postalCode
    ensures var a := |p.street|; var b := a + 2 + |p.city|; var e := b + 2 + |p.state|;
            && d[a..a + 2] == ", " && d[a + 2..b] == p.city
            && d[b..b + 2] == ", " && d[b + 2..e] == p.state
            && d[e..e + 1] == " "
  {
    p.street + ", " + p.city + ", " + p.state + " " + p.postalCode
  }
}
