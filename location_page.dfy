/** The location page's helpers: the compass label shown beside a heading,
    and the area name composed from a reverse-geocoding answer. */
module LocationPage {
  import opened Js
  import opened Seqs

  // ---------------------------------------------------------------------
  // Compass direction

  const Directions: seq<string> := ["N", "NE", "E", "SE", "S", "SW", "W", "NW"]

  /** `Math.round(x)`: the nearest integer, halves rounded up. */
  function JsRound(x: real): (r: int)
    ensures r as real - 0.5 <= x < r as real + 0.5
  {
    (x + 0.5).Floor
  }

  /** The `%` of JavaScript on integers with a positive divisor: the
      remainder takes the sign of the dividend. */
  function JsRemainder(a: int, n: int): (r: int)
    requires n > 0
    ensures a >= 0 ==> r == a % n
    ensures a < 0 ==> -n < r <= 0
    ensures a < 0 ==> r == -((-a) % n)
  {
    if a >= 0 then a % n else -((-a) % n)
  }

  /** `getDirection(heading)`. `None` is null and answers ""; otherwise the
      heading is bucketed into 45-degree sectors centred on the eight
      labels, and an index outside the array (a negative remainder, or NaN
      from a non-finite heading) reads `undefined`, which is `None` here. */
  function Direction(heading: Option<JsNumber>): (r: Option<string>)
    ensures heading.None? ==> r == Some("")
    ensures heading.Some? && !heading.value.Finite? ==> r.None?
  {
    match heading
    case None => Some("")
    case Some(Finite(h)) =>
      var index := JsRemainder(JsRound(h / 45.0), 8);
      if 0 <= index < |Directions| then Some(Directions[index]) else None
    case Some(_) => None
  }

  /** A non-negative heading always reads as one of the eight labels: the
      one for its rounded sector, taken modulo a full turn. */
  lemma NonNegativeHeadingHasLabel(h: real)
    requires h >= 0.0
    ensures Direction(Some(Finite(h))) == Some(Directions[JsRound(h / 45.0) % 8])
    ensures Direction(Some(Finite(h))).value in Directions
  {
    assert JsRound(h / 45.0) >= 0;
  }

  /** Headings from 337.5 up to a full turn wrap round to "N". */
  lemma NorthWraps(h: real)
    requires 337.5 <= h < 360.0
    ensures Direction(Some(Finite(h))) == Some("N")
  {
    assert 7.5 <= h / 45.0 < 8.0;
    assert JsRound(h / 45.0) == 8;
  }

  /** A heading exactly between two labels takes the clockwise one. */
  lemma HalfRoundsUp()
    ensures Direction(Some(Finite(22.5))) == Some("NE")
  {
    assert 22.5 / 45.0 == 0.5;
    assert JsRound(0.5) == 1;
  }

  /** Adding a full turn to a non-negative heading changes nothing. */
  lemma FullTurn(h: real)
    requires h >= 0.0
    ensures Direction(Some(Finite(h + 360.0))) == Direction(Some(Finite(h)))
  {
    assert (h + 360.0) / 45.0 == h / 45.0 + 8.0;
    assert JsRound((h + 360.0) / 45.0) == JsRound(h / 45.0) + 8;
  }

  /** A negative heading only reads as a label when its rounded sector is
      a whole number of turns, and the label is then "N"; every other
      negative heading reads `undefined`. */
  lemma NegativeHeading(h: real)
    requires h < 0.0
    ensures Direction(Some(Finite(h))).Some? <==> JsRound(h / 45.0) % 8 == 0
    ensures Direction(Some(Finite(h))).Some? ==> Direction(Some(Finite(h))) == Some("N")
  {
    var k := JsRound(h / 45.0);
    assert k <= 0;
    if k < 0 {
      var m := -k;
      assert JsRemainder(k, 8) == -(m % 8);
      assert m % 8 == 0 <==> k % 8 == 0;
    }
  }

  // ---------------------------------------------------------------------
  // Area name

  /** The `address` object of a reverse-geocoding answer. Each field is a
      string, with "" standing for an absent (falsy) property. */
  datatype Address = Address(suburb: string, neighbourhood: string, city: string, town: string,
                             village: string, state: string, country: string)

  /** `a || b` on strings that may be absent. */
  function FirstPresent(a: string, b: string): (r: string)
    ensures r == "" <==> a == "" && b == ""
    ensures a != "" ==> r == a
    ensures a == "" ==> r == b
  {
    if a != "" then a else b
  }

  /** A present part as a one-element list, an absent one as none. */
  function Part(s: string): (r: seq<string>)
    ensures |r| <= 1
    ensures r == [] <==> s == ""
    ensures r != [] ==> r[0] == s
  {
    if s != "" then [s] else []
  }

  /** The four candidate parts, most local first: the locality (suburb,
      else neighbourhood), the settlement (city, else town, else village),
      the state and the country; the absent ones are dropped. */
  function AreaParts(a: Address): (parts: seq<string>)
    ensures |parts| <= 4
    ensures forall i :: 0 <= i < |parts| ==> parts[i] != ""
  {
    Part(FirstPresent(a.suburb, a.neighbourhood))
    + Part(FirstPresent(a.city, FirstPresent(a.town, a.village)))
    + Part(a.state) + Part(a.country)
  }

  /** `parts.join(sep)` */
  function Join(parts: seq<string>, sep: string): (r: string)
    ensures parts == [] ==> r == ""
    ensures |parts| == 1 ==> r == parts[0]
    ensures (forall i :: 0 <= i < |parts| ==> parts[i] != "") ==> (r == "" <==> parts == [])
  {
    if parts == [] then ""
    else if |parts| == 1 then parts[0]
    else parts[0] + sep + Join(parts[1..], sep)
  }

  /** The name `fetchAreaName` shows for an answer: `None` is an answer
      without `address`, and `displayName` is its `display_name` ("" when
      absent). The parts are gathered one by one as the page does. */
  method AreaName(address: Option<Address>, displayName: string) returns (name: string)
    ensures address.None? ==> name == "Unknown Location"
    ensures address.Some? && AreaParts(address.value) != [] ==>
      name == Join(AreaParts(address.value), ", ")
    ensures address.Some? && AreaParts(address.value) == [] ==>
      name == if displayName != "" then displayName else "Unknown Location"
    ensures name != ""
  {
    if address.None? {
      return "Unknown Location";
    }
    var a := address.value;
    var locality := FirstPresent(a.suburb, a.neighbourhood);
    var settlement := FirstPresent(a.city, FirstPresent(a.town, a.village));
    var parts: seq<string> := [];
    if a.suburb != "" || a.neighbourhood != "" {
      parts := parts + [locality];
    }
    assert parts == Part(locality);
    if a.city != "" || a.town != "" || a.village != "" {
      parts := parts + [settlement];
    }
    assert parts == Part(locality) + Part(settlement);
    if a.state != "" {
      parts := parts + [a.state];
    }
    assert parts == Part(locality) + Part(settlement) + Part(a.state);
    if a.country != "" {
      parts := parts + [a.country];
    }
    assert parts == AreaParts(a);
    var joined := Join(parts, ", ");
    if joined != "" {
      name := joined;
    } else if displayName != "" {
      name := displayName;
    } else {
      name := "Unknown Location";
    }
  }

  /** A fully filled address reads "suburb, city, state, country". */
  lemma FullAddressName(a: Address)
    requires a.suburb != "" && a.city != "" && a.state != "" && a.country != ""
    ensures Join(AreaParts(a), ", ") == a.suburb + ", " + a.city + ", " + a.state + ", " + a.country
  {
    var parts := [a.suburb, a.city, a.state, a.country];
    assert AreaParts(a) == parts;
    assert parts[1..] == [a.city, a.state, a.country];
    assert parts[1..][1..] == [a.state, a.country];
    assert parts[1..][1..][1..] == [a.country];
    var tail2 := Join(parts[1..][1..], ", ");
    assert tail2 == a.state + ", " + a.country;
    var tail1 := Join(parts[1..], ", ");
    assert tail1 == a.city + ", " + tail2;
    assert Join(parts, ", ") == a.suburb + ", " + tail1;
  }

  /** An address with only a country reads as that country; the locality
      and settlement fallbacks contribute nothing. */
  lemma CountryOnlyName(a: Address)
    requires a.suburb == "" && a.neighbourhood == "" && a.city == "" && a.town == ""
    requires a.village == "" && a.state == "" && a.country != ""
    ensures Join(AreaParts(a), ", ") == a.country
  {
    assert AreaParts(a) == [a.country];
  }
}
