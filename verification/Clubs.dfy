/** Clubs and handedness, the payload of a club selection (src/club.rs). */
module Clubs {
  import opened Common

  datatype Category = DriverCategory | WoodHybrid | IronWedge | PutterCategory {
    function Code(): Byte {
      match this
      case DriverCategory => 0x00
      case WoodHybrid => 0x01
      case IronWedge => 0x02
      case PutterCategory => 0x03
    }
  }

  datatype Club =
    | Driver | Wood3 | Wood5 | Wood7 | Hybrid3 | Hybrid4 | Hybrid5
    | Iron3 | Iron4 | Iron5 | Iron6 | Iron7 | Iron8 | Iron9
    | PitchingWedge | GapWedge | SandWedge | LobWedge | Putter
  {
    function Code(): (Byte, Category) {
      match this
      case Driver => (0x01, DriverCategory)
      case Wood3 => (0x03, WoodHybrid)
      case Wood5 => (0x05, WoodHybrid)
      case Wood7 => (0x07, WoodHybrid)
      case Hybrid3 => (0x0D, WoodHybrid)
      case Hybrid4 => (0x0E, WoodHybrid)
      case Hybrid5 => (0x0F, WoodHybrid)
      case Iron3 => (0x03, IronWedge)
      case Iron4 => (0x04, IronWedge)
      case Iron5 => (0x05, IronWedge)
      case Iron6 => (0x06, IronWedge)
      case Iron7 => (0x07, IronWedge)
      case Iron8 => (0x08, IronWedge)
      case Iron9 => (0x09, IronWedge)
      case PitchingWedge => (0x0A, IronWedge)
      case GapWedge => (0x0B, IronWedge)
      case SandWedge => (0x0C, IronWedge)
      case LobWedge => (0x0D, IronWedge)
      case Putter => (0x01, PutterCategory)
    }
  }

  datatype Handed = Right | Left {
    function Code(): Byte {
      if Right? then 0x00 else 0x01
    }
  }

  const ALL: seq<Club> := [
    Driver, Wood3, Wood5, Wood7, Hybrid3, Hybrid4, Hybrid5, Iron3, Iron4, Iron5, Iron6, Iron7,
    Iron8, Iron9, PitchingWedge, GapWedge, SandWedge, LobWedge, Putter
  ]

  function FindCode(clubs: seq<Club>, number: Byte, category: Byte): (r: Option<Club>)
    ensures r.Some? ==> r.value in clubs && r.value.Code().0 == number && r.value.Code().1.Code() == category
    ensures r.None? ==> forall c :: c in clubs ==> c.Code().0 != number || c.Code().1.Code() != category
  {
    if clubs == [] then None
    else if clubs[0].Code().0 == number && clubs[0].Code().1.Code() == category then Some(clubs[0])
    else FindCode(clubs[1..], number, category)
  }

  function FromCode(number: Byte, category: Byte): Option<Club> {
    FindCode(ALL, number, category)
  }

  lemma EveryClubListed(c: Club)
    ensures c in ALL
  {}

  lemma FindCodeIdentifies(clubs: seq<Club>, number: Byte, category: Byte, c: Club)
    requires c in clubs
    ensures FindCode(clubs, number, category) == Some(c) <==> c.Code().0 == number && c.Code().1.Code() == category
  {}

  /** A wire code names `c` exactly when it is `c`'s own code. */
  lemma CodeIdentifiesClub(number: Byte, category: Byte, c: Club)
    ensures FromCode(number, category) == Some(c) <==> c.Code().0 == number && c.Code().1.Code() == category
  {
    EveryClubListed(c);
    FindCodeIdentifies(ALL, number, category, c);
  }

  /** The numbering scheme of section 8 of docs/WIRE.md. Irons and woods carry their
      own number; wedges continue the irons from 10; hybrids start at 13, in the
      category they share with the woods. */
  lemma NumberingScheme()
    ensures forall i :: 0 <= i < |IRONS| ==> IRONS[i].Code() == (3 + i, IronWedge)
    ensures forall i :: 0 <= i < |WEDGES| ==> WEDGES[i].Code() == (10 + i, IronWedge)
    ensures forall i :: 0 <= i < |WOODS| ==> WOODS[i].Code() == (3 + 2 * i, WoodHybrid)
    ensures forall i :: 0 <= i < |HYBRIDS| ==> HYBRIDS[i].Code() == (13 + i, WoodHybrid)
    ensures Driver.Code() == (1, DriverCategory) && Putter.Code() == (1, PutterCategory)
    ensures ALL == [Driver] + WOODS + HYBRIDS + IRONS + WEDGES + [Putter]
  {}

  const IRONS: seq<Club> := [Iron3, Iron4, Iron5, Iron6, Iron7, Iron8, Iron9]
  const WEDGES: seq<Club> := [PitchingWedge, GapWedge, SandWedge, LobWedge]
  const WOODS: seq<Club> := [Wood3, Wood5, Wood7]
  const HYBRIDS: seq<Club> := [Hybrid3, Hybrid4, Hybrid5]
}
