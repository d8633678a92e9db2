/** The game's levels and the stage-code catalog that turns the six bytes
    read from the game's stage slot into a level (src/lib.rs, the `match`
    in `update_loop` and the `Levels` enum). */
module Levels {
  import opened Wrappers

  /** Every stage the splitter knows, in the order of the `Levels` enum;
      `NoLevel` is the enum's `None` sentinel: hub, menus, a failed read or
      an unknown code. */
  datatype Level =
      TropicalResortAct1
    | TropicalResortAct2
    | TropicalResortAct3
    | TropicalResortAct4
    | TropicalResortAct5
    | TropicalResortAct6
    | TropicalResortBoss
    | SweetMountainAct1
    | SweetMountainAct2
    | SweetMountainAct3
    | SweetMountainAct4
    | SweetMountainAct5
    | SweetMountainAct6
    | SweetMountainBoss
    | StarlightCarnivalAct1
    | StarlightCarnivalAct2
    | StarlightCarnivalAct3
    | StarlightCarnivalAct4
    | StarlightCarnivalAct5
    | StarlightCarnivalAct6
    | StarlightCarnivalBoss
    | PlanetWispAct1
    | PlanetWispAct2
    | PlanetWispAct3
    | PlanetWispAct4
    | PlanetWispAct5
    | PlanetWispAct6
    | PlanetWispBoss
    | AquariumParkAct1
    | AquariumParkAct2
    | AquariumParkAct3
    | AquariumParkAct4
    | AquariumParkAct5
    | AquariumParkAct6
    | AquariumParkBoss
    | AsteroidCoasterAct1
    | AsteroidCoasterAct2
    | AsteroidCoasterAct3
    | AsteroidCoasterAct4
    | AsteroidCoasterAct5
    | AsteroidCoasterAct6
    | AsteroidCoasterBoss
    | TerminalVelocityAct1
    | TerminalVelocityBoss
    | TerminalVelocityAct2
    | SonicSimulatorAct1_1
    | SonicSimulatorAct1_2
    | SonicSimulatorAct1_3
    | SonicSimulatorAct2_1
    | SonicSimulatorAct2_2
    | SonicSimulatorAct2_3
    | SonicSimulatorAct3_1
    | SonicSimulatorAct3_2
    | SonicSimulatorAct3_3
    | SonicSimulatorAct4_1
    | SonicSimulatorAct4_2
    | SonicSimulatorAct4_3
    | SonicSimulatorAct5_1
    | SonicSimulatorAct5_2
    | SonicSimulatorAct5_3
    | SonicSimulatorAct6_1
    | SonicSimulatorAct6_2
    | SonicSimulatorAct6_3
    | SonicSimulatorAct7_1
    | SonicSimulatorAct7_2
    | SonicSimulatorAct7_3
    | NoLevel

  /** One byte of a raw read, written as the character with that code, so
      that the byte-string literal `b"stg110"` is the string "stg110". */
  type Byte = c: char | c as int < 256

  /** The six bytes read from the stage slot (`[u8; 6]`). */
  type RawCode = s: seq<Byte> | |s| == 6 witness ['\0', '\0', '\0', '\0', '\0', '\0']

  /** The catalog, level by level: the code each level is matched on, and
      none for the sentinel. */
  function StageCode(l: Level): Option<RawCode>
  {
    match l
    case TropicalResortAct1 => Some("stg110")
    case TropicalResortAct2 => Some("stg130")
    case TropicalResortAct3 => Some("stg120")
    case TropicalResortAct4 => Some("stg140")
    case TropicalResortAct5 => Some("stg150")
    case TropicalResortAct6 => Some("stg160")
    case TropicalResortBoss => Some("stg190")
    case SweetMountainAct1 => Some("stg210")
    case SweetMountainAct2 => Some("stg230")
    case SweetMountainAct3 => Some("stg220")
    case SweetMountainAct4 => Some("stg260")
    case SweetMountainAct5 => Some("stg240")
    case SweetMountainAct6 => Some("stg250")
    case SweetMountainBoss => Some("stg290")
    case StarlightCarnivalAct1 => Some("stg310")
    case StarlightCarnivalAct2 => Some("stg330")
    case StarlightCarnivalAct3 => Some("stg340")
    case StarlightCarnivalAct4 => Some("stg350")
    case StarlightCarnivalAct5 => Some("stg320")
    case StarlightCarnivalAct6 => Some("stg360")
    case StarlightCarnivalBoss => Some("stg390")
    case PlanetWispAct1 => Some("stg410")
    case PlanetWispAct2 => Some("stg440")
    case PlanetWispAct3 => Some("stg450")
    case PlanetWispAct4 => Some("stg430")
    case PlanetWispAct5 => Some("stg460")
    case PlanetWispAct6 => Some("stg420")
    case PlanetWispBoss => Some("stg490")
    case AquariumParkAct1 => Some("stg510")
    case AquariumParkAct2 => Some("stg540")
    case AquariumParkAct3 => Some("stg550")
    case AquariumParkAct4 => Some("stg530")
    case AquariumParkAct5 => Some("stg560")
    case AquariumParkAct6 => Some("stg520")
    case AquariumParkBoss => Some("stg590")
    case AsteroidCoasterAct1 => Some("stg610")
    case AsteroidCoasterAct2 => Some("stg630")
    case AsteroidCoasterAct3 => Some("stg640")
    case AsteroidCoasterAct4 => Some("stg650")
    case AsteroidCoasterAct5 => Some("stg660")
    case AsteroidCoasterAct6 => Some("stg620")
    case AsteroidCoasterBoss => Some("stg690")
    case TerminalVelocityAct1 => Some("stg710")
    case TerminalVelocityBoss => Some("stg790")
    case TerminalVelocityAct2 => Some("stg720")
    case SonicSimulatorAct1_1 => Some("stgD10")
    case SonicSimulatorAct1_2 => Some("stgB20")
    case SonicSimulatorAct1_3 => Some("stgE50")
    case SonicSimulatorAct2_1 => Some("stgD20")
    case SonicSimulatorAct2_2 => Some("stgB30")
    case SonicSimulatorAct2_3 => Some("stgF30")
    case SonicSimulatorAct3_1 => Some("stgG10")
    case SonicSimulatorAct3_2 => Some("stgG30")
    case SonicSimulatorAct3_3 => Some("stgA10")
    case SonicSimulatorAct4_1 => Some("stgD30")
    case SonicSimulatorAct4_2 => Some("stgG20")
    case SonicSimulatorAct4_3 => Some("stgC50")
    case SonicSimulatorAct5_1 => Some("stgE30")
    case SonicSimulatorAct5_2 => Some("stgB10")
    case SonicSimulatorAct5_3 => Some("stgE40")
    case SonicSimulatorAct6_1 => Some("stgG40")
    case SonicSimulatorAct6_2 => Some("stgC40")
    case SonicSimulatorAct6_3 => Some("stgF40")
    case SonicSimulatorAct7_1 => Some("stgA30")
    case SonicSimulatorAct7_2 => Some("stgE20")
    case SonicSimulatorAct7_3 => Some("stgC10")
    case NoLevel => None
  }

  /** The level of a stage-code read. A failed read and every code outside
      the catalog give `NoLevel`. All catalogued codes read "stg", then a
      zone byte and an act byte, then "0": the fixed bytes are checked
      first, then the zone byte picks the table for the act byte. */
  function Decode(read: Option<RawCode>): Level
  {
    match read
    case None => NoLevel
    case Some(code) =>
      if code[0] == 's' && code[1] == 't' && code[2] == 'g' && code[5] == '0' then
        DecodeZone(code[3], code[4])
      else
        NoLevel
  }

  /** The level for a zone byte and an act byte. The digits 1 to 7 are the
      seven zones of the story; the letters A to G are the Sonic Simulator
      codes. */
  function DecodeZone(zone: char, act: char): Level
  {
    match zone
    case '1' => TropicalResortAct(act)
    case '2' => SweetMountainAct(act)
    case '3' => StarlightCarnivalAct(act)
    case '4' => PlanetWispAct(act)
    case '5' => AquariumParkAct(act)
    case '6' => AsteroidCoasterAct(act)
    case '7' => TerminalVelocityAct(act)
    case 'A' => SonicSimulatorA(act)
    case 'B' => SonicSimulatorB(act)
    case 'C' => SonicSimulatorC(act)
    case 'D' => SonicSimulatorD(act)
    case 'E' => SonicSimulatorE(act)
    case 'F' => SonicSimulatorF(act)
    case 'G' => SonicSimulatorG(act)
    case _ => NoLevel
  }

  /** The TropicalResort acts by act byte. */
  function TropicalResortAct(act: char): Level
  {
    match act
    case '1' => TropicalResortAct1
    case '3' => TropicalResortAct2
    case '2' => TropicalResortAct3
    case '4' => TropicalResortAct4
    case '5' => TropicalResortAct5
    case '6' => TropicalResortAct6
    case '9' => TropicalResortBoss
    case _ => NoLevel
  }

  /** The SweetMountain acts by act byte. */
  function SweetMountainAct(act: char): Level
  {
    match act
    case '1' => SweetMountainAct1
    case '3' => SweetMountainAct2
    case '2' => SweetMountainAct3
    case '6' => SweetMountainAct4
    case '4' => SweetMountainAct5
    case '5' => SweetMountainAct6
    case '9' => SweetMountainBoss
    case _ => NoLevel
  }

  /** The StarlightCarnival acts by act byte. */
  function StarlightCarnivalAct(act: char): Level
  {
    match act
    case '1' => StarlightCarnivalAct1
    case '3' => StarlightCarnivalAct2
    case '4' => StarlightCarnivalAct3
    case '5' => StarlightCarnivalAct4
    case '2' => StarlightCarnivalAct5
    case '6' => StarlightCarnivalAct6
    case '9' => StarlightCarnivalBoss
    case _ => NoLevel
  }

  /** The PlanetWisp acts by act byte. */
  function PlanetWispAct(act: char): Level
  {
    match act
    case '1' => PlanetWispAct1
    case '4' => PlanetWispAct2
    case '5' => PlanetWispAct3
    case '3' => PlanetWispAct4
    case '6' => PlanetWispAct5
    case '2' => PlanetWispAct6
    case '9' => PlanetWispBoss
    case _ => NoLevel
  }

  /** The AquariumPark acts by act byte. */
  function AquariumParkAct(act: char): Level
  {
    match act
    case '1' => AquariumParkAct1
    case '4' => AquariumParkAct2
    case '5' => AquariumParkAct3
    case '3' => AquariumParkAct4
    case '6' => AquariumParkAct5
    case '2' => AquariumParkAct6
    case '9' => AquariumParkBoss
    case _ => NoLevel
  }

  /** The AsteroidCoaster acts by act byte. */
  function AsteroidCoasterAct(act: char): Level
  {
    match act
    case '1' => AsteroidCoasterAct1
    case '3' => AsteroidCoasterAct2
    case '4' => AsteroidCoasterAct3
    case '5' => AsteroidCoasterAct4
    case '6' => AsteroidCoasterAct5
    case '2' => AsteroidCoasterAct6
    case '9' => AsteroidCoasterBoss
    case _ => NoLevel
  }

  /** The TerminalVelocity acts by act byte. */
  function TerminalVelocityAct(act: char): Level
  {
    match act
    case '1' => TerminalVelocityAct1
    case '9' => TerminalVelocityBoss
    case '2' => TerminalVelocityAct2
    case _ => NoLevel
  }

  /** The Sonic Simulator stages whose zone byte is 'A'. */
  function SonicSimulatorA(act: char): Level
  {
    match act
    case '1' => SonicSimulatorAct3_3
    case '3' => SonicSimulatorAct7_1
    case _ => NoLevel
  }

  /** The Sonic Simulator stages whose zone byte is 'B'. */
  function SonicSimulatorB(act: char): Level
  {
    match act
    case '2' => SonicSimulatorAct1_2
    case '3' => SonicSimulatorAct2_2
    case '1' => SonicSimulatorAct5_2
    case _ => NoLevel
  }

  /** The Sonic Simulator stages whose zone byte is 'C'. */
  function SonicSimulatorC(act: char): Level
  {
    match act
    case '5' => SonicSimulatorAct4_3
    case '4' => SonicSimulatorAct6_2
    case '1' => SonicSimulatorAct7_3
    case _ => NoLevel
  }

  /** The Sonic Simulator stages whose zone byte is 'D'. */
  function SonicSimulatorD(act: char): Level
  {
    match act
    case '1' => SonicSimulatorAct1_1
    case '2' => SonicSimulatorAct2_1
    case '3' => SonicSimulatorAct4_1
    case _ => NoLevel
  }

  /** The Sonic Simulator stages whose zone byte is 'E'. */
  function SonicSimulatorE(act: char): Level
  {
    match act
    case '5' => SonicSimulatorAct1_3
    case '3' => SonicSimulatorAct5_1
    case '4' => SonicSimulatorAct5_3
    case '2' => SonicSimulatorAct7_2
    case _ => NoLevel
  }

  /** The Sonic Simulator stages whose zone byte is 'F'. */
  function SonicSimulatorF(act: char): Level
  {
    match act
    case '3' => SonicSimulatorAct2_3
    case '4' => SonicSimulatorAct6_3
    case _ => NoLevel
  }

  /** The Sonic Simulator stages whose zone byte is 'G'. */
  function SonicSimulatorG(act: char): Level
  {
    match act
    case '1' => SonicSimulatorAct3_1
    case '3' => SonicSimulatorAct3_2
    case '2' => SonicSimulatorAct4_2
    case '4' => SonicSimulatorAct6_1
    case _ => NoLevel
  }

  /** A raw code is the sequence of its six bytes. */
  lemma RawCodeBytes(code: RawCode)
    ensures code == [code[0], code[1], code[2], code[3], code[4], code[5]]
  {
  }

  /** The first four Tropical Resort acts decode from their own codes. */
  lemma DecodeStageCodeTropicalResortActs1To4(l: Level)
    requires l == TropicalResortAct1
      || l == TropicalResortAct2
      || l == TropicalResortAct3
      || l == TropicalResortAct4
    ensures Decode(StageCode(l)) == l
  {
  }

  /** The last Tropical Resort acts and the boss decode from their own codes. */
  lemma DecodeStageCodeTropicalResortAct5ToBoss(l: Level)
    requires l == TropicalResortAct5
      || l == TropicalResortAct6
      || l == TropicalResortBoss
    ensures Decode(StageCode(l)) == l
  {
  }

  /** The first four Sweet Mountain acts decode from their own codes. */
  lemma DecodeStageCodeSweetMountainActs1To4(l: Level)
    requires l == SweetMountainAct1
      || l == SweetMountainAct2
      || l == SweetMountainAct3
      || l == SweetMountainAct4
    ensures Decode(StageCode(l)) == l
  {
  }

  /** The last Sweet Mountain acts and the boss decode from their own codes. */
  lemma DecodeStageCodeSweetMountainAct5ToBoss(l: Level)
    requires l == SweetMountainAct5
      || l == SweetMountainAct6
      || l == SweetMountainBoss
    ensures Decode(StageCode(l)) == l
  {
  }

  /** The first four Starlight Carnival acts decode from their own codes. */
  lemma DecodeStageCodeStarlightCarnivalActs1To4(l: Level)
    requires l == StarlightCarnivalAct1
      || l == StarlightCarnivalAct2
      || l == StarlightCarnivalAct3
      || l == StarlightCarnivalAct4
    ensures Decode(StageCode(l)) == l
  {
  }

  /** The last Starlight Carnival acts and the boss decode from their own codes. */
  lemma DecodeStageCodeStarlightCarnivalAct5ToBoss(l: Level)
    requires l == StarlightCarnivalAct5
      || l == StarlightCarnivalAct6
      || l == StarlightCarnivalBoss
    ensures Decode(StageCode(l)) == l
  {
  }

  /** The first four Planet Wisp acts decode from their own codes. */
  lemma DecodeStageCodePlanetWispActs1To4(l: Level)
    requires l == PlanetWispAct1
      || l == PlanetWispAct2
      || l == PlanetWispAct3
      || l == PlanetWispAct4
    ensures Decode(StageCode(l)) == l
  {
  }

  /** The last Planet Wisp acts and the boss decode from their own codes. */
  lemma DecodeStageCodePlanetWispAct5ToBoss(l: Level)
    requires l == PlanetWispAct5
      || l == PlanetWispAct6
      || l == PlanetWispBoss
    ensures Decode(StageCode(l)) == l
  {
  }

  /** The first four Aquarium Park acts decode from their own codes. */
  lemma DecodeStageCodeAquariumParkActs1To4(l: Level)
    requires l == AquariumParkAct1
      || l == AquariumParkAct2
      || l == AquariumParkAct3
      || l == AquariumParkAct4
    ensures Decode(StageCode(l)) == l
  {
  }

  /** The last Aquarium Park acts and the boss decode from their own codes. */
  lemma DecodeStageCodeAquariumParkAct5ToBoss(l: Level)
    requires l == AquariumParkAct5
      || l == AquariumParkAct6
      || l == AquariumParkBoss
    ensures Decode(StageCode(l)) == l
  {
  }

  /** The first four Asteroid Coaster acts decode from their own codes. */
  lemma DecodeStageCodeAsteroidCoasterActs1To4(l: Level)
    requires l == AsteroidCoasterAct1
      || l == AsteroidCoasterAct2
      || l == AsteroidCoasterAct3
      || l == AsteroidCoasterAct4
    ensures Decode(StageCode(l)) == l
  {
  }

  /** The last Asteroid Coaster acts and the boss decode from their own codes. */
  lemma DecodeStageCodeAsteroidCoasterAct5ToBoss(l: Level)
    requires l == AsteroidCoasterAct5
      || l == AsteroidCoasterAct6
      || l == AsteroidCoasterBoss
    ensures Decode(StageCode(l)) == l
  {
  }

  /** The Terminal Velocity stages decode from their own codes. */
  lemma DecodeStageCodeTerminalVelocity(l: Level)
    requires l == TerminalVelocityAct1
      || l == TerminalVelocityBoss
      || l == TerminalVelocityAct2
    ensures Decode(StageCode(l)) == l
  {
  }

  /** The Sonic Simulator act 1 stages decode from their own codes. */
  lemma DecodeStageCodeSonicSimulatorAct1(l: Level)
    requires l == SonicSimulatorAct1_1
      || l == SonicSimulatorAct1_2
      || l == SonicSimulatorAct1_3
    ensures Decode(StageCode(l)) == l
  {
  }

  /** The Sonic Simulator act 2 stages decode from their own codes. */
  lemma DecodeStageCodeSonicSimulatorAct2(l: Level)
    requires l == SonicSimulatorAct2_1
      || l == SonicSimulatorAct2_2
      || l == SonicSimulatorAct2_3
    ensures Decode(StageCode(l)) == l
  {
  }

  /** The Sonic Simulator act 3 stages decode from their own codes. */
  lemma DecodeStageCodeSonicSimulatorAct3(l: Level)
    requires l == SonicSimulatorAct3_1
      || l == SonicSimulatorAct3_2
      || l == SonicSimulatorAct3_3
    ensures Decode(StageCode(l)) == l
  {
  }

  /** The Sonic Simulator act 4 stages decode from their own codes. */
  lemma DecodeStageCodeSonicSimulatorAct4(l: Level)
    requires l == SonicSimulatorAct4_1
      || l == SonicSimulatorAct4_2
      || l == SonicSimulatorAct4_3
    ensures Decode(StageCode(l)) == l
  {
  }

  /** The Sonic Simulator act 5 stages decode from their own codes. */
  lemma DecodeStageCodeSonicSimulatorAct5(l: Level)
    requires l == SonicSimulatorAct5_1
      || l == SonicSimulatorAct5_2
      || l == SonicSimulatorAct5_3
    ensures Decode(StageCode(l)) == l
  {
  }

  /** The Sonic Simulator act 6 stages decode from their own codes. */
  lemma DecodeStageCodeSonicSimulatorAct6(l: Level)
    requires l == SonicSimulatorAct6_1
      || l == SonicSimulatorAct6_2
      || l == SonicSimulatorAct6_3
    ensures Decode(StageCode(l)) == l
  {
  }

  /** The Sonic Simulator act 7 stages decode from their own codes. */
  lemma DecodeStageCodeSonicSimulatorAct7(l: Level)
    requires l == SonicSimulatorAct7_1
      || l == SonicSimulatorAct7_2
      || l == SonicSimulatorAct7_3
    ensures Decode(StageCode(l)) == l
  {
  }

  /** Every catalogued code decodes to its own level, so no level other
      than the sentinel is unreachable. The proof goes zone by zone. */
  lemma DecodeStageCode(l: Level)
    requires l != NoLevel
    ensures Decode(StageCode(l)) == l
  {
    if l == TropicalResortAct1 || l == TropicalResortAct2 || l == TropicalResortAct3 || l == TropicalResortAct4 {
      DecodeStageCodeTropicalResortActs1To4(l);
    } else if l == TropicalResortAct5 || l == TropicalResortAct6 || l == TropicalResortBoss {
      DecodeStageCodeTropicalResortAct5ToBoss(l);
    } else if l == SweetMountainAct1 || l == SweetMountainAct2 || l == SweetMountainAct3 || l == SweetMountainAct4 {
      DecodeStageCodeSweetMountainActs1To4(l);
    } else if l == SweetMountainAct5 || l == SweetMountainAct6 || l == SweetMountainBoss {
      DecodeStageCodeSweetMountainAct5ToBoss(l);
    } else if l == StarlightCarnivalAct1 || l == StarlightCarnivalAct2 || l == StarlightCarnivalAct3 || l == StarlightCarnivalAct4 {
      DecodeStageCodeStarlightCarnivalActs1To4(l);
    } else if l == StarlightCarnivalAct5 || l == StarlightCarnivalAct6 || l == StarlightCarnivalBoss {
      DecodeStageCodeStarlightCarnivalAct5ToBoss(l);
    } else if l == PlanetWispAct1 || l == PlanetWispAct2 || l == PlanetWispAct3 || l == PlanetWispAct4 {
      DecodeStageCodePlanetWispActs1To4(l);
    } else if l == PlanetWispAct5 || l == PlanetWispAct6 || l == PlanetWispBoss {
      DecodeStageCodePlanetWispAct5ToBoss(l);
    } else if l == AquariumParkAct1 || l == AquariumParkAct2 || l == AquariumParkAct3 || l == AquariumParkAct4 {
      DecodeStageCodeAquariumParkActs1To4(l);
    } else if l == AquariumParkAct5 || l == AquariumParkAct6 || l == AquariumParkBoss {
      DecodeStageCodeAquariumParkAct5ToBoss(l);
    } else if l == AsteroidCoasterAct1 || l == AsteroidCoasterAct2 || l == AsteroidCoasterAct3 || l == AsteroidCoasterAct4 {
      DecodeStageCodeAsteroidCoasterActs1To4(l);
    } else if l == AsteroidCoasterAct5 || l == AsteroidCoasterAct6 || l == AsteroidCoasterBoss {
      DecodeStageCodeAsteroidCoasterAct5ToBoss(l);
    } else if l == TerminalVelocityAct1 || l == TerminalVelocityBoss || l == TerminalVelocityAct2 {
      DecodeStageCodeTerminalVelocity(l);
    } else if l == SonicSimulatorAct1_1 || l == SonicSimulatorAct1_2 || l == SonicSimulatorAct1_3 {
      DecodeStageCodeSonicSimulatorAct1(l);
    } else if l == SonicSimulatorAct2_1 || l == SonicSimulatorAct2_2 || l == SonicSimulatorAct2_3 {
      DecodeStageCodeSonicSimulatorAct2(l);
    } else if l == SonicSimulatorAct3_1 || l == SonicSimulatorAct3_2 || l == SonicSimulatorAct3_3 {
      DecodeStageCodeSonicSimulatorAct3(l);
    } else if l == SonicSimulatorAct4_1 || l == SonicSimulatorAct4_2 || l == SonicSimulatorAct4_3 {
      DecodeStageCodeSonicSimulatorAct4(l);
    } else if l == SonicSimulatorAct5_1 || l == SonicSimulatorAct5_2 || l == SonicSimulatorAct5_3 {
      DecodeStageCodeSonicSimulatorAct5(l);
    } else if l == SonicSimulatorAct6_1 || l == SonicSimulatorAct6_2 || l == SonicSimulatorAct6_3 {
      DecodeStageCodeSonicSimulatorAct6(l);
    } else {
      DecodeStageCodeSonicSimulatorAct7(l);
    }
  }

  /** Every level but the sentinel has a stage code. */
  lemma StageCodeDefined(l: Level)
    requires l != NoLevel
    ensures StageCode(l).Some?
  {
    DecodeStageCode(l);
    var code := StageCode(l);
    assert Decode(code) == l;
  }

  /** Codes of the story zones 1 to 4 decode only to their own level. */
  lemma DecodeOnlyCatalogZones1To4(code: RawCode)
    requires '1' <= code[3] <= '4'
    ensures Decode(Some(code)) == NoLevel || StageCode(Decode(Some(code))) == Some(code)
  {
    RawCodeBytes(code);
  }

  /** Codes of the story zones 5 to 7 decode only to their own level. */
  lemma DecodeOnlyCatalogZones5To7(code: RawCode)
    requires '5' <= code[3] <= '7'
    ensures Decode(Some(code)) == NoLevel || StageCode(Decode(Some(code))) == Some(code)
  {
    RawCodeBytes(code);
  }

  /** Codes of the Sonic Simulator zone bytes A to D decode only to their own level. */
  lemma DecodeOnlyCatalogSimulatorAToD(code: RawCode)
    requires 'A' <= code[3] <= 'D'
    ensures Decode(Some(code)) == NoLevel || StageCode(Decode(Some(code))) == Some(code)
  {
    RawCodeBytes(code);
  }

  /** Codes of the Sonic Simulator zone bytes E to G decode only to their own level. */
  lemma DecodeOnlyCatalogSimulatorEToG(code: RawCode)
    requires 'E' <= code[3] <= 'G'
    ensures Decode(Some(code)) == NoLevel || StageCode(Decode(Some(code))) == Some(code)
  {
    RawCodeBytes(code);
  }

  /** A code decodes to a level only if it is that level's catalogued code;
      a failed read decodes to the sentinel. */
  lemma DecodeOnlyCatalog(read: Option<RawCode>)
    ensures Decode(read) == NoLevel || StageCode(Decode(read)) == read
    ensures read.None? ==> Decode(read) == NoLevel
  {
    if read.Some? {
      var code := read.value;
      if '1' <= code[3] <= '4' {
        DecodeOnlyCatalogZones1To4(code);
      } else if '5' <= code[3] <= '7' {
        DecodeOnlyCatalogZones5To7(code);
      } else if 'A' <= code[3] <= 'D' {
        DecodeOnlyCatalogSimulatorAToD(code);
      } else if 'E' <= code[3] <= 'G' {
        DecodeOnlyCatalogSimulatorEToG(code);
      }
    }
  }

  /** The catalog is a bijection between the 66 levels and their codes:
      a read decodes to a level exactly when it is that level's code. */
  lemma DecodeIff(read: Option<RawCode>, l: Level)
    requires l != NoLevel
    ensures Decode(read) == l <==> StageCode(l) == read
  {
    DecodeStageCode(l);
    StageCodeDefined(l);
    DecodeOnlyCatalog(read);
  }

  /** Only real levels have a stage code. */
  lemma CodedNotSentinel(l: Level)
    requires StageCode(l).Some?
    ensures l != NoLevel
  {
  }

  /** No two levels share a stage code. */
  lemma StageCodeInjective(l1: Level, l2: Level)
    requires StageCode(l1).Some? && StageCode(l1) == StageCode(l2)
    ensures l1 == l2
  {
    CodedNotSentinel(l1);
    CodedNotSentinel(l2);
    DecodeStageCode(l1);
    DecodeStageCode(l2);
  }

  /** Any six bytes that are no level's code give `NoLevel`. */
  lemma DecodeUnknown(read: Option<RawCode>)
    requires forall l :: StageCode(l) != read
    ensures Decode(read) == NoLevel
  {
    DecodeOnlyCatalog(read);
  }
}
