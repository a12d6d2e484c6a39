/** Maidenhead locators over exact reals. */
module Locators {
  import opened Basics

  function Clamp(x: real, lo: real, hi: real): real { if x < lo then lo else if x > hi then hi else x }

  /** `x % m` for non-negative x, as the floating remainder computes it. */
  function Rem(x: real, m: real): real
    requires m > 0.0
  {
    x - m * (x / m).Floor as real
  }

  /** Where a coordinate falls: a field, a square of it, a subsquare of that. */
  datatype Cell = Cell(field: int, square: int, sub: int)

  function SquareStart(c: Cell): real { (10 * c.field + c.square) as real }

  function Start(c: Cell): real { SquareStart(c) + c.sub as real / 24.0 }

  /** One axis, in units of one square: ten squares to a field, 24 subsquares to a square. */
  function CellOf(u: real): (c: Cell)
    requires u >= 0.0
    ensures 0 <= c.field && 0 <= c.square < 10 && 0 <= c.sub < 24
    ensures Start(c) <= u < Start(c) + 1.0 / 24.0
    ensures SquareStart(c) <= u < SquareStart(c) + 1.0
  {
    var field := (u / 10.0).Floor;
    var inField := u - 10.0 * field as real;
    var square := inField.Floor;
    var inSquare := inField - square as real;
    Cell(field, square, (inSquare * 24.0).Floor)
  }

  predicate CellOk(c: Cell) { 0 <= c.field < 18 && 0 <= c.square < 10 && 0 <= c.sub < 24 }

  /** A point inside a cell falls into that cell. */
  lemma {:induction false} CellOfInside(c: Cell, u: real)
    requires CellOk(c) && Start(c) <= u < Start(c) + 1.0 / 24.0
    ensures u >= 0.0 && CellOf(u) == c
  {
    var d := CellOf(u);
    var a, b := 240 * c.field + 24 * c.square + c.sub, 240 * d.field + 24 * d.square + d.sub;
    assert Start(c) == a as real / 24.0 && Start(d) == b as real / 24.0;
    assert a == b;
  }

  lemma {:induction false} SquareOfInside(c: Cell, u: real)
    requires CellOk(c) && SquareStart(c) <= u < SquareStart(c) + 1.0
    ensures u >= 0.0 && CellOf(u).field == c.field && CellOf(u).square == c.square
  {
    var d := CellOf(u);
    assert 10 * c.field + c.square == 10 * d.field + d.square;
  }

  // ── encoding ──

  function Letter(n: int): char
    requires 0 <= n < 26
  {
    (65 + n) as char
  }

  function DigitChar(n: int): char
    requires 0 <= n < 10
  {
    (48 + n) as char
  }

  lemma {:induction false} LatBounds(lat0: real)
    requires 0.0 <= lat0 <= 180.0
    ensures var c, lat1 := CellOf(lat0), Rem(lat0, 10.0);
      && (lat0 / 10.0).Floor == c.field && c.field <= 18
      && lat1.Floor == c.square
      && (Rem(lat1, 1.0) * 60.0 / 2.5).Floor == c.sub
  {
    var c := CellOf(lat0);
    var lat1 := Rem(lat0, 10.0);
    assert lat1 == lat0 - 10.0 * c.field as real;
    assert Rem(lat1, 1.0) == lat1 - c.square as real;
  }

  /** In units of squares (2 degrees of longitude), the indices are those of the cell. */
  lemma {:induction false} LonBounds(lon0: real)
    requires 0.0 <= lon0 <= 360.0
    ensures var c, lon1 := CellOf(lon0 / 2.0), Rem(lon0, 20.0);
      && (lon0 / 20.0).Floor == c.field && c.field <= 18
      && (lon1 / 2.0).Floor == c.square
      && (Rem(lon1, 2.0) * 60.0 / 5.0).Floor == c.sub
  {
    var c := CellOf(lon0 / 2.0);
    var lon1 := Rem(lon0, 20.0);
    assert (lon0 / 20.0).Floor == c.field;
    assert lon1 == lon0 - 20.0 * c.field as real;
    assert (lon1 / 2.0).Floor == c.square;
    assert Rem(lon1, 2.0) == lon1 - 2.0 * c.square as real;
  }

  /** The characters for an offset east of the date line and north of the south pole. */
  function Encode(lon0: real, lat0: real, precision: int): (s: string)
    requires 0.0 <= lon0 <= 360.0 && 0.0 <= lat0 <= 180.0
    ensures |s| == if precision < 6 then 4 else 6
  {
    LonBounds(lon0);
    LatBounds(lat0);
    var lon1, lat1 := Rem(lon0, 20.0), Rem(lat0, 10.0);
    var four := [Letter((lon0 / 20.0).Floor), Letter((lat0 / 10.0).Floor),
                 DigitChar((lon1 / 2.0).Floor), DigitChar(lat1.Floor)];
    if precision < 6 then four
    else
      var lon2, lat2 := Rem(lon1, 2.0) * 60.0, Rem(lat1, 1.0) * 60.0;
      four + [Letter((lon2 / 5.0).Floor), Letter((lat2 / 2.5).Floor)]
  }

  function LatLngToLocator(lat: real, lng: real, precision: int): (s: string)
    ensures |s| == if precision < 6 then 4 else 6
  {
    Encode(Clamp(lng, -180.0, 180.0) + 180.0, Clamp(lat, -90.0, 90.0) + 90.0, precision)
  }

  /** The characters of a locator for a cell on each axis. */
  function Spell(lon: Cell, lat: Cell, precision: int): string
    requires 0 <= lon.field <= 18 && 0 <= lat.field <= 18
    requires 0 <= lon.square < 10 && 0 <= lat.square < 10 && 0 <= lon.sub < 24 && 0 <= lat.sub < 24
  {
    var four := [Letter(lon.field), Letter(lat.field), DigitChar(lon.square), DigitChar(lat.square)];
    if precision < 6 then four else four + [Letter(lon.sub), Letter(lat.sub)]
  }

  lemma {:induction false} OffsetsSpell(lon0: real, lat0: real, precision: int)
    requires 0.0 <= lon0 <= 360.0 && 0.0 <= lat0 <= 180.0
    ensures var lon, lat := CellOf(lon0 / 2.0), CellOf(lat0);
      lon.field <= 18 && lat.field <= 18 && Encode(lon0, lat0, precision) == Spell(lon, lat, precision)
  {
    LonBounds(lon0);
    LatBounds(lat0);
  }

  lemma {:induction false} EncodeSpells(lat: real, lng: real, precision: int)
    ensures var u, v := (Clamp(lng, -180.0, 180.0) + 180.0) / 2.0, Clamp(lat, -90.0, 90.0) + 90.0;
      && 0.0 <= u <= 180.0 && 0.0 <= v <= 180.0 && CellOf(u).field <= 18 && CellOf(v).field <= 18
      && LatLngToLocator(lat, lng, precision) == Spell(CellOf(u), CellOf(v), precision)
  {
    hide Encode;
    hide CellOf;
    hide Spell;
    hide Start;
    hide SquareStart;
    OffsetsSpell(Clamp(lng, -180.0, 180.0) + 180.0, Clamp(lat, -90.0, 90.0) + 90.0, precision);
  }

  // ── decoding ──

  function Upper(c: char): char { if 'a' <= c <= 'z' then (c as int - 32) as char else c }

  function UpperAll(s: string): (r: string)
    ensures |r| == |s|
    ensures forall i :: 0 <= i < |s| ==> r[i] == Upper(s[i])
  {
    seq(|s|, i requires 0 <= i < |s| => Upper(s[i]))
  }

  function Code(s: string, i: int, base: int): real
    requires 0 <= i < |s|
  {
    (s[i] as int - base) as real
  }

  datatype Bounds = Bounds(lat0: real, lng0: real, lat1: real, lng1: real)

  /** The box of a locator, read off the character codes whatever they are. */
  function LocatorToBounds(locator: string): Option<Bounds> {
    if |locator| < 4 then None
    else
      var s := UpperAll(locator);
      var lng := Code(s, 0, 65) * 20.0 - 180.0 + Code(s, 2, 48) * 2.0;
      var lat := Code(s, 1, 65) * 10.0 - 90.0 + Code(s, 3, 48);
      if |s| >= 6 then
        var lng6 := lng + Code(s, 4, 65) * (5.0 / 60.0);
        var lat6 := lat + Code(s, 5, 65) * (2.5 / 60.0);
        Some(Bounds(lat6, lng6, lat6 + 2.5 / 60.0, lng6 + 5.0 / 60.0))
      else Some(Bounds(lat, lng, lat + 1.0, lng + 2.0))
  }

  /** `NotANumber` stands for a point with a NaN coordinate. */
  datatype Decoded = NullPoint | NotANumber | At(lat: real, lng: real)

  /** What Number() makes of one character: a digit, zero for a blank, else NaN. */
  function NumberOf(c: char): Option<int> {
    if '0' <= c <= '9' then Some(c as int - 48) else if c == ' ' || '\t' <= c <= '\r' then Some(0) else None
  }

  /** The centre of a trimmed locator. */
  function LocatorToLatLng(locator: string): Decoded {
    if |locator| < 2 then NullPoint
    else
      var s := UpperAll(locator);
      var lng := Code(s, 0, 65) * 20.0 - 180.0;
      var lat := Code(s, 1, 65) * 10.0 - 90.0;
      if |s| < 4 then At(lat + 5.0, lng + 10.0)
      else
        var a, b := NumberOf(s[2]), NumberOf(s[3]);
        if a.None? || b.None? then NotANumber
        else
          var lng4 := lng + a.value as real * 2.0;
          var lat4 := lat + b.value as real;
          if |s| < 6 then At(lat4 + 0.5, lng4 + 1.0)
          else
            At(lat4 + (Code(s, 5, 65) * (2.5 / 60.0) + 2.5 / 120.0),
               lng4 + (Code(s, 4, 65) * (5.0 / 60.0) + 5.0 / 120.0))
  }

  // ── round trips ──

  predicate Contains(b: Bounds, lat: real, lng: real) {
    b.lat0 <= lat < b.lat1 && b.lng0 <= lng < b.lng1
  }

  lemma {:induction false} SpellIsUpper(lon: Cell, lat: Cell, precision: int)
    requires 0 <= lon.field <= 18 && 0 <= lat.field <= 18
    requires 0 <= lon.square < 10 && 0 <= lat.square < 10 && 0 <= lon.sub < 24 && 0 <= lat.sub < 24
    ensures UpperAll(Spell(lon, lat, precision)) == Spell(lon, lat, precision)
  {
  }

  /** The box of a spelled cell, in degrees. */
  lemma {:induction false} BoundsOfSpell(lon: Cell, lat: Cell, precision: int)
    requires 0 <= lon.field <= 18 && 0 <= lat.field <= 18
    requires 0 <= lon.square < 10 && 0 <= lat.square < 10 && 0 <= lon.sub < 24 && 0 <= lat.sub < 24
    ensures LocatorToBounds(Spell(lon, lat, precision)) == Some(
      if precision < 6 then
        Bounds(SquareStart(lat) - 90.0, 2.0 * SquareStart(lon) - 180.0,
               SquareStart(lat) - 89.0, 2.0 * SquareStart(lon) - 178.0)
      else
        Bounds(Start(lat) - 90.0, 2.0 * Start(lon) - 180.0,
               Start(lat) - 90.0 + 1.0 / 24.0, 2.0 * Start(lon) - 180.0 + 2.0 / 24.0))
  {
    SpellIsUpper(lon, lat, precision);
  }

  /** Any point, brought into range, lies in the box of its locator, the poles and the date line included. */
  lemma {:induction false} EncodeThenBounds(lat: real, lng: real, precision: int)
    ensures var b := LocatorToBounds(LatLngToLocator(lat, lng, precision));
      var north := if lat > 90.0 then 90.0 else if lat < -90.0 then -90.0 else lat;
      var east := if lng > 180.0 then 180.0 else if lng < -180.0 then -180.0 else lng;
      b.Some? && Contains(b.value, north, east)
  {
    var u, v := (Clamp(lng, -180.0, 180.0) + 180.0) / 2.0, Clamp(lat, -90.0, 90.0) + 90.0;
    EncodeSpells(lat, lng, precision);
    BoundsOfSpell(CellOf(u), CellOf(v), precision);
  }

  /** A well-formed 4- or 6-character locator, in any case. */
  predicate ValidLocator(s: string) {
    && (|s| == 4 || |s| == 6)
    && 'A' <= Upper(s[0]) <= 'R' && 'A' <= Upper(s[1]) <= 'R'
    && '0' <= s[2] <= '9' && '0' <= s[3] <= '9'
    && (|s| == 6 ==> 'A' <= Upper(s[4]) <= 'X' && 'A' <= Upper(s[5]) <= 'X')
  }

  /** The cells a valid locator names; the middle subsquares stand in for a missing pair. */
  function CellsOf(s: string): (c: (Cell, Cell))
    requires ValidLocator(s)
    ensures CellOk(c.0) && CellOk(c.1)
  {
    var r := UpperAll(s);
    (Cell(r[0] as int - 65, r[2] as int - 48, if |s| == 6 then r[4] as int - 65 else 12),
     Cell(r[1] as int - 65, r[3] as int - 48, if |s| == 6 then r[5] as int - 65 else 12))
  }

  lemma {:induction false} CellsSpell(s: string)
    requires ValidLocator(s)
    ensures Spell(CellsOf(s).0, CellsOf(s).1, |s|) == UpperAll(s)
  {
  }

  lemma {:induction false} CentreOf(s: string)
    requires ValidLocator(s)
    ensures var (lon, lat) := CellsOf(s);
      LocatorToLatLng(s) ==
        if |s| == 6 then At(Start(lat) + 1.0 / 48.0 - 90.0, 2.0 * (Start(lon) + 1.0 / 48.0) - 180.0)
        else At(SquareStart(lat) + 0.5 - 90.0, 2.0 * (SquareStart(lon) + 0.5) - 180.0)
  {
    var r := UpperAll(s);
    assert r[2] == s[2] && r[3] == s[3];
  }

  lemma {:induction false} SubsquareCentreEncodes(lon: Cell, lat: Cell)
    requires CellOk(lon) && CellOk(lat)
    ensures LatLngToLocator(Start(lat) + 1.0 / 48.0 - 90.0, 2.0 * (Start(lon) + 1.0 / 48.0) - 180.0, 6)
         == Spell(lon, lat, 6)
  {
    var u, v := Start(lon) + 1.0 / 48.0, Start(lat) + 1.0 / 48.0;
    EncodeSpells(v - 90.0, 2.0 * u - 180.0, 6);
    CellOfInside(lon, u);
    CellOfInside(lat, v);
  }

  lemma {:induction false} SquareCentreEncodes(lon: Cell, lat: Cell)
    requires CellOk(lon) && CellOk(lat)
    ensures LatLngToLocator(SquareStart(lat) + 0.5 - 90.0, 2.0 * (SquareStart(lon) + 0.5) - 180.0, 4)
         == Spell(lon, lat, 4)
  {
    var u, v := SquareStart(lon) + 0.5, SquareStart(lat) + 0.5;
    EncodeSpells(v - 90.0, 2.0 * u - 180.0, 4);
    SquareOfInside(lon, u);
    SquareOfInside(lat, v);
  }

  /** Encoding the decoded centre of a valid locator gives the locator back, in upper case. */
  lemma {:induction false} DecodeThenEncode(s: string)
    requires ValidLocator(s)
    ensures var p := LocatorToLatLng(s);
      p.At? && LatLngToLocator(p.lat, p.lng, |s|) == UpperAll(s)
  {
    var (lon, lat) := CellsOf(s);
    CentreOf(s);
    CellsSpell(s);
    hide LocatorToLatLng;
    hide LatLngToLocator;
    hide CellsOf;
    hide Spell;
    hide Start;
    hide SquareStart;
    if |s| == 6 {
      SubsquareCentreEncodes(lon, lat);
    } else {
      SquareCentreEncodes(lon, lat);
    }
  }

  /** The centre of a locator of four characters or more is the middle of its box, when its digits are digits. */
  lemma {:induction false} CentreOfBounds(s: string)
    requires |s| >= 4 && '0' <= s[2] <= '9' && '0' <= s[3] <= '9'
    ensures var b := LocatorToBounds(s);
      b.Some? && LocatorToLatLng(s)
                 == At((b.value.lat0 + b.value.lat1) / 2.0, (b.value.lng0 + b.value.lng1) / 2.0)
  {
    assert UpperAll(s)[2] == s[2] && UpperAll(s)[3] == s[3];
  }

  /** A field alone decodes to its middle, the corner of its middle square; a third character changes nothing. */
  lemma {:induction false} FieldCentreEncodes(s: string)
    requires 2 <= |s| < 4 && 'A' <= Upper(s[0]) <= 'R' && 'A' <= Upper(s[1]) <= 'R'
    ensures var p := LocatorToLatLng(s);
      p.At? && LatLngToLocator(p.lat, p.lng, 4) == [Upper(s[0]), Upper(s[1])] + "55"
  {
    var lon, lat := Cell(Upper(s[0]) as int - 65, 5, 0), Cell(Upper(s[1]) as int - 65, 5, 0);
    var u, v := SquareStart(lon), SquareStart(lat);
    assert LocatorToLatLng(s) == At(v - 90.0, 2.0 * u - 180.0);
    EncodeSpells(v - 90.0, 2.0 * u - 180.0, 4);
    SquareOfInside(lon, u);
    SquareOfInside(lat, v);
  }

  /** What is too short is no point; a blank counts as the digit zero; anything else there is no number. */
  lemma {:induction false} WhenDecoded(s: string)
    ensures LocatorToLatLng(s) == NullPoint <==> |s| < 2
    ensures LocatorToLatLng(s) == NotANumber
      <==> |s| >= 4 && exists i :: 2 <= i < 4 && !('0' <= Upper(s[i]) <= '9') && Upper(s[i]) !in " \t\n\U{0B}\U{0C}\r"
    ensures |s| >= 4 && s[2] == ' ' ==> LocatorToLatLng(s) == LocatorToLatLng(s[2 := '0'])
    ensures |s| >= 4 && s[3] == ' ' ==> LocatorToLatLng(s) == LocatorToLatLng(s[3 := '0'])
    ensures LocatorToBounds(s) == None <==> |s| < 4
  {
    if |s| >= 4 {
      assert UpperAll(s)[2] == Upper(s[2]) && UpperAll(s)[3] == Upper(s[3]);
      assert NumberOf(Upper(s[2])).None? || NumberOf(Upper(s[3])).None?
        <==> exists i :: 2 <= i < 4 && NumberOf(Upper(s[i])).None?;
    }
  }
}
