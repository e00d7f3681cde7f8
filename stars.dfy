/** The constellation catalogue and the star record (Models/Star.swift):
    the twenty constellation cases in declaration order, their display names,
    difficulty tiers, star patterns and colours, a star's defaults, and the
    construction of a constellation from its pattern. */
module Stars {
  import opened Wrappers
  import Seqs

  datatype ConstellationType =
    | Ursa | Orion | Cassiopeia | Draco | Lyra | Cygnus | Aquila | Perseus | Leo | Virgo
    | Scorpius | Sagittarius | Gemini | Cancer | Libra | Aries | Taurus | Capricornus | Aquarius | Pisces

  /** `ConstellationType.allCases`: every case once, in declaration order. */
  function AllCases(): (r: seq<ConstellationType>)
    ensures |r| == 20
  {
    [Ursa, Orion, Cassiopeia, Draco, Lyra, Cygnus, Aquila, Perseus, Leo, Virgo, Scorpius, Sagittarius, Gemini, Cancer, Libra, Aries, Taurus, Capricornus, Aquarius, Pisces]
  }

  /** The position of a case in `AllCases()`. */
  function Index(c: ConstellationType): (i: nat)
    ensures i < |AllCases()|
  {
    match c
    case Ursa => 0
    case Orion => 1
    case Cassiopeia => 2
    case Draco => 3
    case Lyra => 4
    case Cygnus => 5
    case Aquila => 6
    case Perseus => 7
    case Leo => 8
    case Virgo => 9
    case Scorpius => 10
    case Sagittarius => 11
    case Gemini => 12
    case Cancer => 13
    case Libra => 14
    case Aries => 15
    case Taurus => 16
    case Capricornus => 17
    case Aquarius => 18
    case Pisces => 19
  }

  /** `Index(c)` is where `c` sits in `allCases`. */
  lemma IndexLocates(c: ConstellationType)
    ensures AllCases()[Index(c)] == c
  {
    match c
    case Ursa => case Orion => case Cassiopeia => case Draco => case Lyra =>
    case Cygnus => case Aquila => case Perseus => case Leo => case Virgo =>
    case Scorpius => case Sagittarius => case Gemini => case Cancer => case Libra =>
    case Aries => case Taurus => case Capricornus => case Aquarius => case Pisces =>
  }

  /** `allCases` lists each of the twenty cases exactly once. */
  lemma AllCasesEnumerates()
    ensures forall c :: c in AllCases()
    ensures Seqs.Distinct(AllCases())
  {
    forall c ensures c in AllCases() {
      IndexLocates(c);
    }
    forall i, j | 0 <= i < j < |AllCases()| ensures AllCases()[i] != AllCases()[j] {
      IndexOfCase(i);
      IndexOfCase(j);
    }
  }

  lemma IndexOfCase(i: nat)
    requires i < |AllCases()|
    ensures Index(AllCases()[i]) == i
  {
    assert i == 0 || i == 1 || i == 2 || i == 3 || i == 4 || i == 5 || i == 6 || i == 7 || i == 8 || i == 9 || i == 10 || i == 11 || i == 12 || i == 13 || i == 14 || i == 15 || i == 16 || i == 17 || i == 18 || i == 19;
  }

  /** The raw value of the enum: the constellation's display name. */
  function RawValue(c: ConstellationType): (s: string)
    ensures s != []
  {
    match c
    case Ursa => "Ursa Major"
    case Orion => "Orion"
    case Cassiopeia => "Cassiopeia"
    case Draco => "Draco"
    case Lyra => "Lyra"
    case Cygnus => "Cygnus"
    case Aquila => "Aquila"
    case Perseus => "Perseus"
    case Leo => "Leo"
    case Virgo => "Virgo"
    case Scorpius => "Scorpius"
    case Sagittarius => "Sagittarius"
    case Gemini => "Gemini"
    case Cancer => "Cancer"
    case Libra => "Libra"
    case Aries => "Aries"
    case Taurus => "Taurus"
    case Capricornus => "Capricornus"
    case Aquarius => "Aquarius"
    case Pisces => "Pisces"
  }

  /** `ConstellationType(rawValue:)`: the case whose display name is `s`. */
  function FromRawValue(s: string): (r: Option<ConstellationType>)
    ensures r.Some? ==> RawValue(r.value) == s
  {
    if s == "Ursa Major" then Some(Ursa)
    else if s == "Orion" then Some(Orion)
    else if s == "Cassiopeia" then Some(Cassiopeia)
    else if s == "Draco" then Some(Draco)
    else if s == "Lyra" then Some(Lyra)
    else if s == "Cygnus" then Some(Cygnus)
    else if s == "Aquila" then Some(Aquila)
    else if s == "Perseus" then Some(Perseus)
    else if s == "Leo" then Some(Leo)
    else if s == "Virgo" then Some(Virgo)
    else if s == "Scorpius" then Some(Scorpius)
    else if s == "Sagittarius" then Some(Sagittarius)
    else if s == "Gemini" then Some(Gemini)
    else if s == "Cancer" then Some(Cancer)
    else if s == "Libra" then Some(Libra)
    else if s == "Aries" then Some(Aries)
    else if s == "Taurus" then Some(Taurus)
    else if s == "Capricornus" then Some(Capricornus)
    else if s == "Aquarius" then Some(Aquarius)
    else if s == "Pisces" then Some(Pisces)
    else None
  }

  /** Display names identify constellations: decoding a name gives back its case. */
  lemma RawValueRoundTrip(c: ConstellationType)
    ensures FromRawValue(RawValue(c)) == Some(c)
  {
    match c
    case Ursa =>
    case Orion =>
    case Cassiopeia =>
    case Draco =>
    case Lyra =>
    case Cygnus =>
    case Aquila =>
    case Perseus =>
    case Leo =>
    case Virgo =>
    case Scorpius =>
    case Sagittarius =>
    case Gemini =>
    case Cancer =>
    case Libra =>
    case Aries =>
    case Taurus =>
    case Capricornus =>
    case Aquarius =>
    case Pisces =>
  }

  lemma RawValueInjective(a: ConstellationType, b: ConstellationType)
    requires RawValue(a) == RawValue(b)
    ensures a == b
  {
    RawValueRoundTrip(a);
    RawValueRoundTrip(b);
  }

  /** The difficulty tier used by the guide: 1 (easy) up to 4 (hard). */
  function Difficulty(c: ConstellationType): (d: int)
    ensures 1 <= d <= 4
  {
    match c
    case Ursa | Orion | Cassiopeia => 1
    case Leo | Cygnus | Scorpius | Taurus => 2
    case Lyra | Aquila | Perseus | Gemini | Sagittarius => 3
    case Draco | Virgo | Cancer | Libra | Aries | Capricornus | Aquarius | Pisces => 4
  }

  /** The colour of each constellation, as the hex string the source decodes. */
  function ColorHex(c: ConstellationType): (s: string)
    ensures |s| == 7 && s[0] == '#'
  {
    match c
    case Ursa => "#ffbe00"
    case Orion => "#bd0e1b"
    case Cassiopeia => "#ffffff"
    case Draco => "#ffbe00"
    case Lyra => "#bd0e1b"
    case Cygnus => "#ffffff"
    case Aquila => "#ffbe00"
    case Perseus => "#bd0e1b"
    case Leo => "#ffbe00"
    case Virgo => "#ffffff"
    case Scorpius => "#bd0e1b"
    case Sagittarius => "#ffbe00"
    case Gemini => "#ffffff"
    case Cancer => "#bd0e1b"
    case Libra => "#ffbe00"
    case Aries => "#bd0e1b"
    case Taurus => "#ffffff"
    case Capricornus => "#ffbe00"
    case Aquarius => "#bd0e1b"
    case Pisces => "#ffffff"
  }

  /** An integer offset of a pattern point from the constellation's first star. */
  datatype Offset = Offset(dx: int, dy: int)

  /** A position in the play field. */
  datatype Point = Point(x: int, y: int)

  function Translate(p: Point, o: Offset): Point {
    Point(p.x + o.dx, p.y + o.dy)
  }

  /** The star pattern of each constellation: it starts at its own origin and
      has four to eight points. */
  function Pattern(c: ConstellationType): (r: seq<Offset>)
    ensures 4 <= |r| <= 8
    ensures r[0] == Offset(0, 0)
  {
    match c
    case Ursa =>
      [Offset(0, 0), Offset(30, -10), Offset(60, 0), Offset(90, -20), Offset(120, -10), Offset(150, 0), Offset(180, 10)]
    case Orion =>
      [Offset(0, 0), Offset(40, -30), Offset(80, -20), Offset(40, 20), Offset(80, 30), Offset(120, 40), Offset(160, 20)]
    case Cassiopeia =>
      [Offset(0, 0), Offset(40, -40), Offset(80, -20), Offset(120, -50), Offset(160, -30)]
    case Draco =>
      [Offset(0, 0), Offset(30, 20), Offset(60, 40), Offset(90, 30), Offset(120, 50), Offset(150, 40), Offset(180, 60), Offset(210, 50)]
    case Lyra =>
      [Offset(0, 0), Offset(40, -20), Offset(80, -40), Offset(120, -20), Offset(160, 0)]
    case Cygnus =>
      [Offset(0, 0), Offset(40, -30), Offset(80, -60), Offset(120, -30), Offset(160, 0), Offset(80, 30), Offset(80, 60)]
    case Aquila =>
      [Offset(0, 0), Offset(40, -20), Offset(80, -40), Offset(120, -60), Offset(160, -40), Offset(200, -20), Offset(240, 0)]
    case Perseus =>
      [Offset(0, 0), Offset(30, -30), Offset(60, -50), Offset(90, -30), Offset(120, -10), Offset(150, 10), Offset(180, 30)]
    case Leo =>
      [Offset(0, 0), Offset(40, -20), Offset(80, -30), Offset(120, -20), Offset(160, 0), Offset(200, 20), Offset(240, 40)]
    case Virgo =>
      [Offset(0, 0), Offset(30, -40), Offset(60, -60), Offset(90, -40), Offset(120, -20), Offset(150, 0), Offset(180, 20), Offset(210, 40)]
    case Scorpius =>
      [Offset(0, 0), Offset(30, 20), Offset(60, 30), Offset(90, 40), Offset(120, 50), Offset(150, 60), Offset(180, 70), Offset(210, 80)]
    case Sagittarius =>
      [Offset(0, 0), Offset(40, -30), Offset(80, -50), Offset(120, -30), Offset(160, -10), Offset(200, 10), Offset(240, 30)]
    case Gemini =>
      [Offset(0, 0), Offset(40, -20), Offset(80, -30), Offset(120, -20), Offset(160, 0), Offset(40, 40), Offset(80, 50), Offset(120, 40)]
    case Cancer =>
      [Offset(0, 0), Offset(40, -20), Offset(80, -10), Offset(120, -30), Offset(160, -20)]
    case Libra =>
      [Offset(0, 0), Offset(40, -30), Offset(80, -20), Offset(120, -40), Offset(160, -30), Offset(200, -10)]
    case Aries =>
      [Offset(0, 0), Offset(40, -30), Offset(80, -40), Offset(120, -30)]
    case Taurus =>
      [Offset(0, 0), Offset(40, -20), Offset(80, -30), Offset(120, -40), Offset(160, -30), Offset(200, -20), Offset(240, -10)]
    case Capricornus =>
      [Offset(0, 0), Offset(40, 20), Offset(80, 30), Offset(120, 20), Offset(160, 10), Offset(200, 0)]
    case Aquarius =>
      [Offset(0, 0), Offset(40, -20), Offset(80, -30), Offset(120, -20), Offset(160, -10), Offset(200, 0), Offset(240, 10)]
    case Pisces =>
      [Offset(0, 0), Offset(40, -30), Offset(80, -40), Offset(120, -30), Offset(160, -20), Offset(200, -10), Offset(240, 0), Offset(280, 10)]
  }

  /** A star on the play field. `id` stands for the star's UUID and
      `brightness` is a rendering hint. */
  datatype Star = Star(
    id: nat,
    position: Point,
    constellationType: ConstellationType,
    isMatched: bool,
    isSelected: bool,
    brightness: real)

  /** The memberwise initialiser with its defaults: a new star is neither
      matched nor selected, and shines at full brightness unless told otherwise. */
  function NewStar(id: nat, position: Point, t: ConstellationType, brightness: real := 1.0): (s: Star)
    ensures s.id == id && s.position == position && s.constellationType == t
    ensures !s.isMatched && !s.isSelected && s.brightness == brightness
  {
    Star(id, position, t, false, false, brightness)
  }

  datatype Constellation = Constellation(kind: ConstellationType, stars: seq<Star>, isComplete: bool)

  /** `Constellation.init(type:centerPosition:)`: one new star per pattern
      point, placed at the centre moved by that point's offset. The stars take
      the identifiers `firstId`, `firstId + 1`, ... in pattern order. */
  function MakeConstellation(t: ConstellationType, center: Point, firstId: nat): (k: Constellation)
    ensures k.kind == t && !k.isComplete
    ensures |k.stars| == |Pattern(t)|
    ensures forall i :: 0 <= i < |k.stars| ==>
      k.stars[i] == NewStar(firstId + i, Translate(center, Pattern(t)[i]), t)
  {
    var pattern := Pattern(t);
    Constellation(t, seq(|pattern|, i requires 0 <= i < |pattern| => NewStar(firstId + i, Translate(center, pattern[i]), t)), false)
  }

  /** The first star of a constellation sits exactly on its centre, and the
      constellation has between four and eight stars, all of its own kind. */
  lemma ConstellationShape(t: ConstellationType, center: Point, firstId: nat)
    ensures var k := MakeConstellation(t, center, firstId);
      4 <= |k.stars| <= 8 && k.stars[0].position == center &&
      forall i :: 0 <= i < |k.stars| ==> k.stars[i].constellationType == t && !k.stars[i].isSelected
  {
  }

  /** The constellation that follows `c` in `allCases`, wrapping from the last
      back to the first: one place on from the index of `c`. */
  function NextConstellation(c: ConstellationType): (r: ConstellationType)
    ensures Index(r) == (Index(c) + 1) % 20
  {
    match c
    case Ursa => Orion
    case Orion => Cassiopeia
    case Cassiopeia => Draco
    case Draco => Lyra
    case Lyra => Cygnus
    case Cygnus => Aquila
    case Aquila => Perseus
    case Perseus => Leo
    case Leo => Virgo
    case Virgo => Scorpius
    case Scorpius => Sagittarius
    case Sagittarius => Gemini
    case Gemini => Cancer
    case Cancer => Libra
    case Libra => Aries
    case Aries => Taurus
    case Taurus => Capricornus
    case Capricornus => Aquarius
    case Aquarius => Pisces
    case Pisces => Ursa
  }

  /** `allCases.firstIndex(of: c)` always succeeds and lands on `Index(c)`,
      so the `nextLevel` fallback for a missing case is never taken. */
  lemma FirstIndexOfCase(c: ConstellationType)
    ensures Seqs.FirstIndexOf(AllCases(), c) == Some(Index(c))
  {
    AllCasesEnumerates();
    IndexLocates(c);
    Seqs.FirstIndexOfDistinct(AllCases(), Index(c));
  }

  /** `NextConstellation(c)` is `allCases[(i + 1) % allCases.count]` for that
      index `i`. */
  lemma NextConstellationInOrder(c: ConstellationType)
    ensures NextConstellation(c) == AllCases()[(Index(c) + 1) % |AllCases()|]
  {
    IndexOfCase((Index(c) + 1) % 20);
    IndexLocates(NextConstellation(c));
  }
}
