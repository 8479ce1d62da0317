/**
 * The asset packer's sprite-scene construction. Every packed frame becomes
 * one sprite of the atlas, in the order the frame map is enumerated, and its
 * position in that order is written into the torso or the legs animation
 * table at the slot named by the four digits before ".png" in its file name.
 * The file names are `mage64_NNNN.png` for the torso and
 * `mage64_legs_NNNN.png` for the legs. Strings are sequences of characters,
 * and a file name's byte length is its length in characters (the names are ASCII).
 */
module AssetsPacker {
  import opened Wrappers

  const FRAMES_COUNT: nat := 20

  // ---------------------------------------------------------------------
  // Decimal formatting: `format!("{:04}", i)`
  // ---------------------------------------------------------------------

  predicate IsDigit(c: char) { '0' <= c <= '9' }

  predicate AllDigits(s: string) { forall k | 0 <= k < |s| :: IsDigit(s[k]) }

  function DigitChar(d: nat): (c: char)
    requires d < 10
    ensures IsDigit(c)
  {
    (48 + d) as char
  }

  function DigitValue(c: char): (d: nat)
    requires IsDigit(c)
    ensures d < 10 && DigitChar(d) == c
  {
    c as int - 48
  }

  /** The shortest decimal numeral of `n`. */
  function Decimal(n: nat): (s: string)
    ensures 1 <= |s| && AllDigits(s)
    ensures n >= 10 ==> s[0] != '0'
    decreases n
  {
    if n < 10 then [DigitChar(n)] else Decimal(n / 10) + [DigitChar(n % 10)]
  }

  function Pow10(k: nat): nat {
    if k == 0 then 1 else 10 * Pow10(k - 1)
  }

  /** A number below 10^k has at most k digits. */
  lemma {:induction false} DecimalFits(n: nat, k: nat)
    requires 1 <= k && n < Pow10(k)
    ensures |Decimal(n)| <= k
    decreases k
  {
    if n >= 10 {
      DecimalFits(n / 10, k - 1);
    }
  }

  /** Left-pads `s` with '0' up to `width` characters; longer strings are kept whole. */
  function ZeroPad(s: string, width: nat): string {
    if |s| >= width then s else seq(width - |s|, _ => '0') + s
  }

  /**
   * A padded numeral is a run of zeros followed by the numeral, as long as
   * the width asks for and no shorter than the numeral itself.
   */
  lemma ZeroPadSplit(s: string, width: nat) returns (zeros: string)
    ensures ZeroPad(s, width) == zeros + s
    ensures forall k | 0 <= k < |zeros| :: zeros[k] == '0'
    ensures |zeros + s| == if |s| >= width then |s| else width
  {
    if |s| >= width {
      zeros := [];
      assert zeros + s == s;
    } else {
      zeros := seq(width - |s|, _ => '0');
    }
  }

  function Format04(n: nat): string {
    ZeroPad(Decimal(n), 4)
  }

  /** `format!("mage64_{:04}.png", i)`, the file name of torso frame `i`. */
  function TorsoFrameName(i: nat): string {
    "mage64_" + Format04(i) + ".png"
  }

  /** `format!("mage64_legs_{:04}.png", i)`, the file name of legs frame `i`. */
  function LegsFrameName(i: nat): string {
    "mage64_legs_" + Format04(i) + ".png"
  }

  // ---------------------------------------------------------------------
  // Parsing: `str::parse::<usize>`
  // ---------------------------------------------------------------------

  /** The value of a numeral, accumulated left to right as `value * 10 + digit`. */
  function DigitsValue(s: string): nat
    requires AllDigits(s)
    decreases |s|
  {
    if |s| == 0 then 0 else DigitsValue(s[..|s| - 1]) * 10 + DigitValue(s[|s| - 1])
  }

  /**
   * `usize::from_str`: an optional leading '+' followed by at least one
   * decimal digit and nothing else; the empty string, a lone '+', a '-' sign
   * and any other character are errors.
   */
  function ParseUsize(s: string): Option<nat> {
    if |s| == 0 then None
    else
      var digits := if s[0] == '+' then s[1..] else s;
      if |digits| == 0 || !AllDigits(digits) then None else Some(DigitsValue(digits))
  }

  /** The accepted strings are exactly the signed or unsigned numerals. */
  lemma ParseUsizeAccepts(s: string)
    ensures ParseUsize(s).Some? <==>
      (|s| >= 1 && AllDigits(s)) || (|s| >= 2 && s[0] == '+' && AllDigits(s[1..]))
  {
  }

  lemma {:induction false} DigitsValueOfDecimal(n: nat)
    ensures DigitsValue(Decimal(n)) == n
    decreases n
  {
    if n >= 10 {
      var s := Decimal(n);
      assert s[..|s| - 1] == Decimal(n / 10);
      DigitsValueOfDecimal(n / 10);
    }
  }

  lemma {:induction false} ZerosValue(z: string)
    requires forall k | 0 <= k < |z| :: z[k] == '0'
    ensures AllDigits(z) && DigitsValue(z) == 0
    decreases |z|
  {
    if |z| > 0 {
      ZerosValue(z[..|z| - 1]);
    }
  }

  /** Leading zeros do not change a numeral's value. */
  lemma {:induction false} LeadingZeros(z: string, s: string)
    requires forall k | 0 <= k < |z| :: z[k] == '0'
    requires AllDigits(s)
    ensures AllDigits(z + s) && DigitsValue(z + s) == DigitsValue(s)
    decreases |s|
  {
    if |s| == 0 {
      assert z + s == z;
      ZerosValue(z);
    } else {
      assert (z + s)[..|z + s| - 1] == z + s[..|s| - 1];
      LeadingZeros(z, s[..|s| - 1]);
    }
  }

  /** Parsing undoes `{:04}` formatting, whatever the number. */
  lemma ParseFormat04(n: nat)
    ensures ParseUsize(Format04(n)) == Some(n)
  {
    var d := Decimal(n);
    var z := ZeroPadSplit(d, 4);
    var f := z + d;
    LeadingZeros(z, d);
    DigitsValueOfDecimal(n);
    assert f[0] != '+' by {
      if |z| > 0 { assert f[0] == z[0]; } else { assert f[0] == d[0]; }
    }
    assert ParseUsize(f) == Some(DigitsValue(f));
  }

  // ---------------------------------------------------------------------
  // Substring search: `str::contains`
  // ---------------------------------------------------------------------

  /** Whether `pattern` occurs in `s`, checked position by position from the front. */
  predicate Contains(s: string, pattern: string)
    decreases |s|
  {
    |pattern| <= |s| && (s[..|pattern|] == pattern || (|s| > 0 && Contains(s[1..], pattern)))
  }

  predicate OccursAt(s: string, pattern: string, i: int) {
    0 <= i && i + |pattern| <= |s| && s[i..i + |pattern|] == pattern
  }

  /** The search agrees with the definition: some position of `s` starts a copy of `pattern`. */
  lemma {:induction false} ContainsIffOccurs(s: string, pattern: string)
    ensures Contains(s, pattern) <==> exists i :: OccursAt(s, pattern, i)
    decreases |s|
  {
    if |pattern| <= |s| && s[..|pattern|] != pattern && |s| > 0 {
      ContainsIffOccurs(s[1..], pattern);
      if Contains(s[1..], pattern) {
        var i :| OccursAt(s[1..], pattern, i);
        assert OccursAt(s, pattern, i + 1);
      }
      if exists i :: OccursAt(s, pattern, i) {
        var i :| OccursAt(s, pattern, i);
        assert i != 0;
        assert OccursAt(s[1..], pattern, i - 1);
      }
    } else if |pattern| <= |s| && s[..|pattern|] == pattern {
      assert OccursAt(s, pattern, 0);
    }
  }

  const LEGS := "legs"

  lemma Format04Digits(n: nat)
    ensures |Format04(n)| >= 4 && AllDigits(Format04(n))
  {
    var d := Decimal(n);
    var z := ZeroPadSplit(d, 4);
    LeadingZeros(z, d);
  }

  /** A string without the first character of a non-empty pattern does not contain it. */
  lemma LacksFirstCharacter(s: string, pattern: string)
    requires |pattern| > 0 && pattern[0] !in s
    ensures !Contains(s, pattern)
  {
    ContainsIffOccurs(s, pattern);
  }

  /** A torso file name has no 'l' at all, so it never contains "legs". */
  lemma TorsoNameLacksLegs(i: nat)
    ensures !Contains(TorsoFrameName(i), LEGS)
  {
    var f := Format04(i);
    Format04Digits(i);
    assert 'l' !in f;
    assert 'l' !in "mage64_" + f + ".png";
    LacksFirstCharacter(TorsoFrameName(i), LEGS);
  }

  /** A legs file name contains "legs", right after "mage64_". */
  lemma LegsNameHasLegs(i: nat)
    ensures Contains(LegsFrameName(i), LEGS)
  {
    var s := LegsFrameName(i);
    assert s[7..11] == LEGS;
    assert OccursAt(s, LEGS, 7);
    ContainsIffOccurs(s, LEGS);
  }

  // ---------------------------------------------------------------------
  // Sprite-scene construction
  // ---------------------------------------------------------------------

  datatype Rect = Rect(x: nat, y: nat, w: nat, h: nat)

  /** A packed frame: where it sits in the atlas and where it came from in its source image. */
  datatype Frame = Frame(frame: Rect, source: Rect)

  datatype SpritePosition = SpritePosition(x: nat, y: nat, width: nat, height: nat, offsets: Option<(real, real)>)

  datatype SpriteRenderPrimitive = SpriteIndex(index: nat)

  /** The sprite sheet: the atlas file, its size and the sprite list. */
  datatype SpriteSheet = SpriteSheet(texturePath: string, textureWidth: nat, textureHeight: nat,
                                     sprites: seq<SpritePosition>)

  datatype SpriteSceneData = SpriteSceneData(sheet: SpriteSheet,
                                             torsoIndices: seq<SpriteRenderPrimitive>,
                                             legsIndices: seq<SpriteRenderPrimitive>)

  /** The sprite of a frame: its atlas rectangle, offset by the frame's source corner. */
  function SpriteOf(frame: Frame): SpritePosition {
    SpritePosition(frame.frame.x, frame.frame.y, frame.frame.w, frame.frame.h,
                   Some((frame.source.x as real, frame.source.y as real)))
  }

  /** The sprites of the frames, one per frame in enumeration order. */
  function Sprites(frames: seq<(string, Frame)>): (sprites: seq<SpritePosition>)
    ensures |sprites| == |frames|
    ensures forall k | 0 <= k < |frames| :: sprites[k] == SpriteOf(frames[k].1)
    decreases |frames|
  {
    if |frames| == 0 then []
    else Sprites(frames[..|frames| - 1]) + [SpriteOf(frames[|frames| - 1].1)]
  }

  /** One more frame adds its sprite at the end. */
  lemma SpritesExtend(frames: seq<(string, Frame)>, k: nat)
    requires k < |frames|
    ensures Sprites(frames[..k + 1]) == Sprites(frames[..k]) + [SpriteOf(frames[k].1)]
  {
    assert frames[..k + 1][..k] == frames[..k];
  }

  /** The four characters before the last four: the digits of `NNNN.png`. */
  function FrameNumber(name: string): string
    requires |name| >= 8
  {
    name[|name| - 8..|name| - 4]
  }

  /** A name the construction accepts: its number parses and fits the animation tables. */
  predicate WellNamed(name: string) {
    |name| >= 8 && ParseUsize(FrameNumber(name)).Some? && ParseUsize(FrameNumber(name)).value < FRAMES_COUNT
  }

  predicate AllWellNamed(frames: seq<(string, Frame)>) {
    forall k {:trigger WellNamed(frames[k].0)} | 0 <= k < |frames| :: WellNamed(frames[k].0)
  }

  function Slot(name: string): nat
    requires WellNamed(name)
  {
    ParseUsize(FrameNumber(name)).value
  }

  datatype IndexTables = IndexTables(torso: seq<SpriteRenderPrimitive>, legs: seq<SpriteRenderPrimitive>)

  function Table(t: IndexTables, legs: bool): seq<SpriteRenderPrimitive> {
    if legs then t.legs else t.torso
  }

  /** Both tables begin as `FRAMES_COUNT` copies of sprite 0. */
  function InitialTable(): (t: seq<SpriteRenderPrimitive>)
    ensures |t| == FRAMES_COUNT && forall k | 0 <= k < |t| :: t[k] == SpriteIndex(0)
  {
    seq(FRAMES_COUNT, _ => SpriteIndex(0))
  }

  /** Where a frame's index goes: the legs table or the torso table, and which slot of it. */
  datatype Routing = Routing(legs: bool, slot: nat)

  /** A name containing "legs" goes to the legs table, any other to the torso table, at its number. */
  function RoutingOf(name: string): (r: Routing)
    requires WellNamed(name)
    ensures r.slot < FRAMES_COUNT
  {
    Routing(Contains(name, LEGS), Slot(name))
  }

  predicate InTables(routings: seq<Routing>) {
    forall k | 0 <= k < |routings| :: routings[k].slot < FRAMES_COUNT
  }

  /** The routing of every frame, in enumeration order. */
  function Routings(frames: seq<(string, Frame)>): (rs: seq<Routing>)
    requires AllWellNamed(frames)
    ensures |rs| == |frames| && InTables(rs)
  {
    seq(|frames|, k requires 0 <= k < |frames| => RoutingOf(frames[k].0))
  }

  /** Routing the frame at enumeration index `k`: its index overwrites one slot of one table. */
  function Routed(t: IndexTables, r: Routing, k: nat): (u: IndexTables)
    requires r.slot < FRAMES_COUNT && |t.torso| == FRAMES_COUNT && |t.legs| == FRAMES_COUNT
    ensures |u.torso| == FRAMES_COUNT && |u.legs| == FRAMES_COUNT
    ensures Table(u, r.legs)[r.slot] == SpriteIndex(k)
    ensures Table(u, !r.legs) == Table(t, !r.legs)
    ensures forall slot | 0 <= slot < FRAMES_COUNT && slot != r.slot :: Table(u, r.legs)[slot] == Table(t, r.legs)[slot]
  {
    if r.legs then t.(legs := t.legs[r.slot := SpriteIndex(k)])
    else t.(torso := t.torso[r.slot := SpriteIndex(k)])
  }

  /** The tables after routing every frame in turn; a later frame overwrites an earlier one. */
  function RouteAll(routings: seq<Routing>): (t: IndexTables)
    requires InTables(routings)
    ensures |t.torso| == FRAMES_COUNT && |t.legs| == FRAMES_COUNT
    decreases |routings|
  {
    if |routings| == 0 then IndexTables(InitialTable(), InitialTable())
    else
      var k := |routings| - 1;
      Routed(RouteAll(routings[..k]), routings[k], k)
  }

  /** Routing one more frame extends the fold by one step. */
  lemma RouteAllExtend(routings: seq<Routing>, k: nat)
    requires InTables(routings) && k < |routings|
    ensures InTables(routings[..k]) && InTables(routings[..k + 1])
    ensures RouteAll(routings[..k + 1]) == Routed(RouteAll(routings[..k]), routings[k], k)
  {
    assert routings[..k + 1][..k] == routings[..k];
  }

  /** The tables built from the frames: every frame routed in enumeration order. */
  function Route(frames: seq<(string, Frame)>): (t: IndexTables)
    requires AllWellNamed(frames)
    ensures |t.torso| == FRAMES_COUNT && |t.legs| == FRAMES_COUNT
  {
    RouteAll(Routings(frames))
  }

  /** The routing of the frame at position `k`, read from its file name. */
  lemma RoutingAt(frames: seq<(string, Frame)>, k: nat)
    requires AllWellNamed(frames) && k < |frames|
    ensures WellNamed(frames[k].0) && Routings(frames)[k] == RoutingOf(frames[k].0)
  {
    assert WellNamed(frames[k].0);
  }

  /**
   * One step of the loop: the number sliced out of the name is parsed and the
   * index is written into the legs table when the name contains "legs", into
   * the torso table otherwise.
   */
  method RecordFrame(torsoIndices: seq<SpriteRenderPrimitive>, legsIndices: seq<SpriteRenderPrimitive>,
                     filename: string, spriteIndex: nat)
    returns (torso: seq<SpriteRenderPrimitive>, legs: seq<SpriteRenderPrimitive>)
    requires WellNamed(filename)
    requires |torsoIndices| == FRAMES_COUNT && |legsIndices| == FRAMES_COUNT
    ensures IndexTables(torso, legs) == Routed(IndexTables(torsoIndices, legsIndices), RoutingOf(filename), spriteIndex)
  {
    torso, legs := torsoIndices, legsIndices;
    var number := filename[|filename| - 8..|filename| - 4];
    var i := ParseUsize(number).value;
    if Contains(filename, LEGS) {
      legs := legs[i := SpriteIndex(spriteIndex)];
    } else {
      torso := torso[i := SpriteIndex(spriteIndex)];
    }
  }

  /** One step of routing seen from one slot: the last frame overwrites it or leaves it alone. */
  lemma RouteAllStep(routings: seq<Routing>, target: Routing)
    requires InTables(routings) && |routings| > 0 && target.slot < FRAMES_COUNT
    ensures Table(RouteAll(routings), target.legs)[target.slot] ==
              if routings[|routings| - 1] == target then SpriteIndex(|routings| - 1)
              else Table(RouteAll(routings[..|routings| - 1]), target.legs)[target.slot]
  {
  }

  /** A slot no frame is routed to keeps sprite 0. */
  lemma {:induction false} RouteUnwrittenSlot(routings: seq<Routing>, target: Routing)
    requires InTables(routings) && target.slot < FRAMES_COUNT
    requires forall k | 0 <= k < |routings| :: routings[k] != target
    ensures Table(RouteAll(routings), target.legs)[target.slot] == SpriteIndex(0)
    decreases |routings|
  {
    if |routings| > 0 {
      var n := |routings| - 1;
      RouteAllStep(routings, target);
      RouteUnwrittenSlot(routings[..n], target);
    }
  }

  /** A slot holds the enumeration index of the last frame routed to it. */
  lemma {:induction false} RouteLastWriterWins(routings: seq<Routing>, target: Routing, k: nat)
    requires InTables(routings) && target.slot < FRAMES_COUNT
    requires k < |routings| && routings[k] == target
    requires forall j | k < j < |routings| :: routings[j] != target
    ensures Table(RouteAll(routings), target.legs)[target.slot] == SpriteIndex(k)
    decreases |routings|
  {
    var n := |routings| - 1;
    RouteAllStep(routings, target);
    if k < n {
      RouteLastWriterWins(routings[..n], target, k);
    }
  }

  /**
   * `construct_sprite_scene`: one sprite per frame in enumeration order, and
   * each frame's index routed into the legs table when its name contains
   * "legs" and into the torso table otherwise. A number that does not parse
   * or lies outside the tables is a panic, so every name must be well formed.
   */
  method ConstructSpriteScene(frames: seq<(string, Frame)>, atlasWidth: nat, atlasHeight: nat,
                              outputFilePath: string)
    returns (data: SpriteSceneData)
    requires AllWellNamed(frames)
    ensures data.sheet.texturePath == outputFilePath
    ensures data.sheet.textureWidth == atlasWidth && data.sheet.textureHeight == atlasHeight
    ensures |data.sheet.sprites| == |frames|
    ensures data.sheet.sprites == Sprites(frames)
    ensures data.torsoIndices == Route(frames).torso && data.legsIndices == Route(frames).legs
  {
    var sprites: seq<SpritePosition> := [];
    var torsoIndices := InitialTable();
    var legsIndices := InitialTable();
    ghost var routings := Routings(frames);
    for spriteIndex := 0 to |frames|
      invariant |sprites| == spriteIndex
      invariant sprites == Sprites(frames[..spriteIndex])
      invariant IndexTables(torsoIndices, legsIndices) == RouteAll(routings[..spriteIndex])
    {
      var (filename, frame) := frames[spriteIndex];
      SpritesExtend(frames, spriteIndex);
      sprites := sprites + [SpriteOf(frame)];
      RoutingAt(frames, spriteIndex);
      RouteAllExtend(routings, spriteIndex);
      torsoIndices, legsIndices := RecordFrame(torsoIndices, legsIndices, filename, spriteIndex);
    }
    assert routings[..|frames|] == routings;
    assert frames[..|frames|] == frames;
    data := SpriteSceneData(SpriteSheet(outputFilePath, atlasWidth, atlasHeight, sprites),
                            torsoIndices, legsIndices);
  }

  // ---------------------------------------------------------------------
  // The names the packer produces
  // ---------------------------------------------------------------------

  /** Slicing out the number of either file name of frame `i` and parsing it gives `i` back. */
  lemma FrameNumberRoundTrip(i: nat)
    requires i < 10000
    ensures |TorsoFrameName(i)| >= 8 && ParseUsize(FrameNumber(TorsoFrameName(i))) == Some(i)
    ensures |LegsFrameName(i)| >= 8 && ParseUsize(FrameNumber(LegsFrameName(i))) == Some(i)
  {
    assert Pow10(4) == 10000;
    DecimalFits(i, 4);
    var f := Format04(i);
    assert |f| == 4;
    assert FrameNumber(TorsoFrameName(i)) == f;
    assert FrameNumber(LegsFrameName(i)) == f;
    ParseFormat04(i);
  }

  /** One of the 2 * FRAMES_COUNT names the packer packs. */
  predicate PackedName(name: string) {
    exists i | 0 <= i < FRAMES_COUNT :: name == TorsoFrameName(i) || name == LegsFrameName(i)
  }

  /** A packed name is well formed, and its slot and table tell which packed name it is. */
  lemma PackedNameRoutes(name: string)
    requires PackedName(name)
    ensures WellNamed(name)
    ensures Contains(name, LEGS) ==> name == LegsFrameName(Slot(name))
    ensures !Contains(name, LEGS) ==> name == TorsoFrameName(Slot(name))
  {
    var i :| 0 <= i < FRAMES_COUNT && (name == TorsoFrameName(i) || name == LegsFrameName(i));
    FrameNumberRoundTrip(i);
    if name == TorsoFrameName(i) {
      TorsoNameLacksLegs(i);
    } else {
      LegsNameHasLegs(i);
    }
  }

  /**
   * With the packed names, each once, in any enumeration order: slot `i` of
   * the torso table holds the position of `mage64_{i:04}.png` and slot `i` of
   * the legs table that of `mage64_legs_{i:04}.png`; a slot whose file is
   * missing keeps sprite 0.
   */
  lemma PackedFramesRouteByName(frames: seq<(string, Frame)>, legs: bool, i: nat)
    requires forall k | 0 <= k < |frames| :: PackedName(frames[k].0)
    requires forall j, k | 0 <= j < k < |frames| :: frames[j].0 != frames[k].0
    requires i < FRAMES_COUNT
    ensures AllWellNamed(frames)
    ensures var name := if legs then LegsFrameName(i) else TorsoFrameName(i);
            && (forall k | 0 <= k < |frames| && frames[k].0 == name :: Table(Route(frames), legs)[i] == SpriteIndex(k))
            && ((forall k | 0 <= k < |frames| :: frames[k].0 != name) ==> Table(Route(frames), legs)[i] == SpriteIndex(0))
  {
    forall k | 0 <= k < |frames|
      ensures WellNamed(frames[k].0)
    {
      PackedNameRoutes(frames[k].0);
    }
    var name := if legs then LegsFrameName(i) else TorsoFrameName(i);
    FrameNumberRoundTrip(i);
    if legs { LegsNameHasLegs(i); } else { TorsoNameLacksLegs(i); }
    var routings := Routings(frames);
    forall k | 0 <= k < |frames|
      ensures routings[k] == Routing(legs, i) <==> frames[k].0 == name
    {
      PackedNameRoutes(frames[k].0);
    }
    forall k | 0 <= k < |frames| && frames[k].0 == name
      ensures Table(Route(frames), legs)[i] == SpriteIndex(k)
    {
      RouteLastWriterWins(routings, Routing(legs, i), k);
    }
    if forall k | 0 <= k < |frames| :: frames[k].0 != name {
      RouteUnwrittenSlot(routings, Routing(legs, i));
    }
  }
}
