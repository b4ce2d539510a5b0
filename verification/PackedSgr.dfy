/**
 The bit operations of `charAttributes` (static/term.js:2675-2754) on a packed attribute, each against the style it
 stands for.
 */
module PackedSgr {
  import opened Attributes

  function WithFg(a: bv32, c: bv32): bv32 {
    (a & !(0x1ff << 9)) | (c << 9)
  }

  function WithBg(a: bv32, c: bv32): bv32 {
    (a & !0x1ff) | c
  }

  function Swapped(a: bv32): bv32 {
    (a & !0x3ffff) | (((a & 0x1ff) << 9) | ((a >> 9) & 0x1ff))
  }

  function WithFlag(a: bv32, mask: bv32): bv32 {
    a | (mask << 18)
  }

  function WithoutFlag(a: bv32, mask: bv32): bv32 {
    a & !(mask << 18)
  }

  predicate HasInverse(a: bv32) {
    (a >> 18) & 4 != 0
  }

  predicate LacksInverse(a: bv32) {
    !(a >> 18) & 4 != 0
  }

  lemma FgIs(a: bv32, c: bv9)
    requires AttrOk(a) && c <= 257
    ensures AttrOk(WithFg(a, c as bv32)) && Unpack(WithFg(a, c as bv32)) == Unpack(a).(fg := c)
  {
  }

  lemma BgIs(a: bv32, c: bv9)
    requires AttrOk(a) && c <= 257
    ensures AttrOk(WithBg(a, c as bv32)) && Unpack(WithBg(a, c as bv32)) == Unpack(a).(bg := c)
  {
  }

  lemma BoldIs(a: bv32)
    requires AttrOk(a)
    ensures AttrOk(WithFlag(a, 1)) && Unpack(WithFlag(a, 1)) == Unpack(a).(bold := true)
  {
  }

  lemma NoBoldIs(a: bv32)
    requires AttrOk(a)
    ensures AttrOk(WithoutFlag(a, 1)) && Unpack(WithoutFlag(a, 1)) == Unpack(a).(bold := false)
  {
  }

  lemma UnderlineIs(a: bv32)
    requires AttrOk(a)
    ensures AttrOk(WithFlag(a, 2)) && Unpack(WithFlag(a, 2)) == Unpack(a).(underline := true)
  {
  }

  lemma NoUnderlineIs(a: bv32)
    requires AttrOk(a)
    ensures AttrOk(WithoutFlag(a, 2)) && Unpack(WithoutFlag(a, 2)) == Unpack(a).(underline := false)
  {
  }

  lemma InverseIs(a: bv32)
    requires AttrOk(a)
    ensures AttrOk(WithFlag(a, 4)) && Unpack(WithFlag(a, 4)) == Unpack(a).(inverse := true)
  {
  }

  lemma NoInverseIs(a: bv32)
    requires AttrOk(a)
    ensures AttrOk(WithoutFlag(a, 4)) && Unpack(WithoutFlag(a, 4)) == Unpack(a).(inverse := false)
  {
  }

  lemma InverseTests(a: bv32)
    ensures HasInverse(a) <==> Unpack(a).inverse
    ensures LacksInverse(a) <==> !Unpack(a).inverse
  {
    hide AttrOk;
  }

  lemma SwappedIs(a: bv32)
    requires AttrOk(a)
    ensures AttrOk(Swapped(a)) && Unpack(Swapped(a)) == Unpack(a).(fg := Unpack(a).bg, bg := Unpack(a).fg)
  {
  }

  lemma DefaultIs()
    ensures AttrOk(DEF_ATTR) && Unpack(DEF_ATTR) == DEFAULT_STYLE
  {
  }

  /** The default colours, taken from the default attribute as the code does. */
  lemma DefaultColors(a: bv32)
    requires AttrOk(a)
    ensures AttrOk(WithFg(a, (DEF_ATTR >> 9) & 0x1ff))
    ensures Unpack(WithFg(a, (DEF_ATTR >> 9) & 0x1ff)) == Unpack(a).(fg := DEFAULT_STYLE.fg)
    ensures AttrOk(WithBg(a, DEF_ATTR & 0x1ff))
    ensures Unpack(WithBg(a, DEF_ATTR & 0x1ff)) == Unpack(a).(bg := DEFAULT_STYLE.bg)
  {
    hide AttrOk, Unpack, WithFg, WithBg;
    FgIs(a, DEFAULT_STYLE.fg);
    BgIs(a, DEFAULT_STYLE.bg);
  }

  /** One parameter that is not the start of a palette group. */
  method ApplyPacked(attr: bv32, p: nat) returns (a: bv32)
    requires AttrOk(attr)
    ensures AttrOk(a) && Unpack(a) == Apply(Unpack(attr), p)
  {
    hide AttrOk, Unpack, WithFg, WithBg, Swapped, WithFlag, WithoutFlag, HasInverse, LacksInverse, Color;
    a := attr;
    if p >= 30 && p <= 37 {
      FgIs(a, Color(p - 30));
      a := WithFg(a, Color(p - 30) as bv32);
    } else if p >= 40 && p <= 47 {
      BgIs(a, Color(p - 40));
      a := WithBg(a, Color(p - 40) as bv32);
    } else if p >= 90 && p <= 97 {
      FgIs(a, Color(p + 8 - 90));
      a := WithFg(a, Color(p + 8 - 90) as bv32);
    } else if p >= 100 && p <= 107 {
      BgIs(a, Color(p + 8 - 100));
      a := WithBg(a, Color(p + 8 - 100) as bv32);
    } else if p == 0 {
      DefaultIs();
      a := DEF_ATTR;
    } else if p == 1 {
      BoldIs(a);
      a := WithFlag(a, 1);
    } else if p == 4 {
      UnderlineIs(a);
      a := WithFlag(a, 2);
    } else if p == 7 || p == 27 {
      InverseIs(a);
      NoInverseIs(a);
      InverseTests(a);
      if p == 7 {
        if HasInverse(a) {
          return;
        }
        a := WithFlag(a, 4);
      } else {
        if LacksInverse(a) {
          return;
        }
        a := WithoutFlag(a, 4);
      }
      SwappedIs(a);
      a := Swapped(a);
    } else if p == 22 {
      NoBoldIs(a);
      a := WithoutFlag(a, 1);
    } else if p == 24 {
      NoUnderlineIs(a);
      a := WithoutFlag(a, 2);
    } else if p == 39 {
      DefaultColors(a);
      a := WithFg(a, (DEF_ATTR >> 9) & 0x1ff);
    } else if p == 49 {
      DefaultColors(a);
      a := WithBg(a, DEF_ATTR & 0x1ff);
    }
  }

  function From<T>(s: seq<T>, i: nat): seq<T> {
    if i <= |s| then s[i..] else []
  }

  /** The loop of `charAttributes` computes, on packed numbers, what SGR means on styles. */
  method SgrPacked(attr: bv32, ps: seq<nat>) returns (a: bv32)
    requires AttrOk(attr)
    ensures AttrOk(a) && a == Pack(Restyle(Unpack(attr), ps))
  {
    hide AttrOk, Unpack, Pack, WithFg, WithBg, Apply, Color;
    a := attr;
    var i := 0;
    while i < |ps|
      invariant 0 <= i
      invariant AttrOk(a) && Restyle(Unpack(a), From(ps, i)) == Restyle(Unpack(attr), ps)
      decreases |ps| - i
    {
      ghost var rest := ps[i..];
      var p := ps[i];
      if (p == 38 || p == 48) && i + 1 < |ps| && ps[i + 1] == 5 {
        assert PaletteAt(rest);
        i := i + 2;
        var c: bv9 := if i < |ps| then Color(ps[i]) else 0;
        if p == 38 {
          FgIs(a, c);
          a := WithFg(a, c as bv32);
        } else {
          BgIs(a, c);
          a := WithBg(a, c as bv32);
        }
        assert From(ps, i + 1) == AfterPalette(rest);
      } else {
        assert !PaletteAt(rest);
        assert From(ps, i + 1) == rest[1..];
        a := ApplyPacked(a, p);
      }
      i := i + 1;
    }
    assert From(ps, i) == [];
    PackedBack(a);
  }

  lemma PackedBack(a: bv32)
    requires AttrOk(a)
    ensures Pack(Unpack(a)) == a
  {
    UnpackPack(a);
  }
}
