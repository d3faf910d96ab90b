/** ColorPrimaries (color_space.py lines 61-114): the xy chromaticities of the red, green
    and blue primaries of each gamut, with the white point the gamut is defined against. */
module Primaries {
  import opened Wrappers
  import opened ConstantNames
  import WhitePoints

  type Chromaticity = WhitePoints.Chromaticity

  /** One branch of get_data: rgb_xy as three rows, and the white point name it looks up. */
  datatype Rows = Rows(r: Chromaticity, g: Chromaticity, b: Chromaticity, white: string)

  /** The 4x2 array get_data returns, row by row: [r, g, b, w]. */
  datatype PrimariesData = PrimariesData(r: Chromaticity, g: Chromaticity, b: Chromaticity, w: Chromaticity)

  /** The body of class ColorPrimaries. */
  function Body(): seq<Binding>
  {
    [ Binding("BT709", "bt709"), Binding("SRGB", "bt709"),
      Binding("BT470BG", "bt470bg"), Binding("BT601_625", "bt470bg"),
      Binding("SMPTE170M", "smpte170m"), Binding("SMPTE240M", "smpte170m"), Binding("BT601_525", "smpte170m"),
      Binding("BT2020", "bt2020"), Binding("BT470M", "bt470m"),
      Binding("SMPTE431", "smpte431"), Binding("DCI_P3", "smpte431"),
      Binding("SMPTE432", "smpte432"), Binding("DISPLAY_P3", "smpte432") ]
  }

  function Xy(x: real, y: real): Chromaticity
  {
    WhitePoints.Chromaticity(x, y)
  }

  /** The if-chain of get_data on the resolved token. */
  function Lookup(name: string): (r: Lookup<Rows>)
    ensures r.Recognised? <==> name in {"bt709", "bt470bg", "smpte170m", "bt2020", "bt470m", "smpte431", "smpte432"}
  {
    if name == "bt709" then Recognised(Rows(Xy(0.640, 0.330), Xy(0.300, 0.600), Xy(0.150, 0.060), "d65"))
    else if name == "bt470bg" then Recognised(Rows(Xy(0.640, 0.330), Xy(0.290, 0.600), Xy(0.150, 0.060), "d65"))
    else if name == "smpte170m" then Recognised(Rows(Xy(0.630, 0.340), Xy(0.310, 0.595), Xy(0.155, 0.070), "d65"))
    else if name == "bt2020" then Recognised(Rows(Xy(0.708, 0.292), Xy(0.170, 0.797), Xy(0.131, 0.046), "d65"))
    else if name == "bt470m" then Recognised(Rows(Xy(0.670, 0.330), Xy(0.210, 0.710), Xy(0.140, 0.080), "c"))
    else if name == "smpte431" then Recognised(Rows(Xy(0.680, 0.320), Xy(0.265, 0.690), Xy(0.150, 0.060), "dci"))
    else if name == "smpte432" then Recognised(Rows(Xy(0.680, 0.320), Xy(0.265, 0.690), Xy(0.150, 0.060), "d65"))
    else Default(Rows(Xy(0.640, 0.330), Xy(0.300, 0.600), Xy(0.150, 0.060), "d65"))
  }

  /** get_data's "not recognised, use bt709" branch is dead: every token of the class has a branch. */
  lemma EveryTokenRecognised(v: string)
    requires v in Tokens(Body())
    ensures Lookup(v).Recognised?
  {
    TokenDeclared(Body(), v);
  }

  /** Every branch asks for a white point that WhitePoint resolves. */
  lemma WhiteResolves(name: string)
    ensures WhitePoints.GetData(Lookup(name).data.white).Ok?
    ensures WhitePoints.GetData(Lookup(name).data.white).value.name == Lookup(name).data.white
    ensures WhitePoints.GetData(Lookup(name).data.white).value.data == WhitePoints.Lookup(Lookup(name).data.white).data
  {
    var white := Lookup(name).data.white;
    assert white == "d65" || white == "c" || white == "dci";
    assert Lower("d65") == "d65" && Lower("c") == "c" && Lower("dci") == "dci";
    WhitePoints.TokensResolve(white);
  }

  /** ColorPrimaries.get_data: the three primaries and the white point of the named gamut, with
      the resolved token and its aliases; an unknown name raises. The white row is the
      chromaticity WhitePoint.get_data returns for the branch's white point name. */
  function GetData(name: string): (r: Result<Loaded<PrimariesData>, NameError>)
    ensures r.Ok? <==> Parse(Body(), name).Ok?
    ensures r.Err? ==> r.error == InputArgumentInvalid(name)
    ensures r.Ok? ==> r.value.name == Parse(Body(), name).value.name
    ensures r.Ok? ==> r.value.alias == Parse(Body(), name).value.alias
    ensures r.Ok? ==> Lookup(r.value.name).Recognised?
    ensures r.Ok? ==>
      var rows := Lookup(r.value.name).data;
      && r.value.data.r == rows.r && r.value.data.g == rows.g && r.value.data.b == rows.b
      && r.value.data.w == WhitePoints.Lookup(rows.white).data
  {
    match Parse(Body(), name)
    case Err(e) => Err(e)
    case Ok(res) =>
      EveryTokenRecognised(res.name);
      var rows := Lookup(res.name).data;
      Ok(Loaded(PrimariesData(rows.r, rows.g, rows.b, WhitePoints.Lookup(rows.white).data), res.name, res.alias))
  }

  /** The white row is illuminant C for bt470m, the DCI white for smpte431 and D65 for every
      other gamut. */
  lemma WhiteRow(s: string)
    requires GetData(s).Ok?
    ensures
      var d := GetData(s).value;
      d.data.w ==
        if d.name == "bt470m" then Xy(0.3100, 0.3160)
        else if d.name == "smpte431" then Xy(0.3140, 0.3510)
        else Xy(0.3127, 0.3290)
  {
    WhiteOfBranch(GetData(s).value.name);
  }

  /** The white point each branch asks for, as WhitePoint's table gives it. */
  lemma WhiteOfBranch(name: string)
    ensures WhitePoints.Lookup(Lookup(name).data.white).data ==
      if name == "bt470m" then Xy(0.3100, 0.3160)
      else if name == "smpte431" then Xy(0.3140, 0.3510)
      else Xy(0.3127, 0.3290)
  {
  }

  /** DCI-P3 (smpte431) and Display P3 (smpte432) share their primaries and differ only in white. */
  lemma P3VariantsShareRgb()
    ensures Lookup("smpte431").data.r == Lookup("smpte432").data.r
    ensures Lookup("smpte431").data.g == Lookup("smpte432").data.g
    ensures Lookup("smpte431").data.b == Lookup("smpte432").data.b
    ensures Lookup("smpte431").data.white != Lookup("smpte432").data.white
  {
  }

  /** Every primary and white point the table returns is a realisable chromaticity. */
  lemma DataRealisable(s: string)
    requires GetData(s).Ok?
    ensures
      var d := GetData(s).value.data;
      WhitePoints.Realisable(d.r) && WhitePoints.Realisable(d.g) &&
      WhitePoints.Realisable(d.b) && WhitePoints.Realisable(d.w)
  {
    RowsRealisable(GetData(s).value.name);
  }

  lemma RowsRealisable(name: string)
    ensures
      var rows := Lookup(name).data;
      WhitePoints.Realisable(rows.r) && WhitePoints.Realisable(rows.g) &&
      WhitePoints.Realisable(rows.b) && WhitePoints.Realisable(WhitePoints.Lookup(rows.white).data)
  {
  }

  /** The white row is what WhitePoint.get_data returns for the white point name of the branch. */
  lemma WhiteFromWhitePoint(s: string)
    requires GetData(s).Ok?
    ensures
      var rows := Lookup(GetData(s).value.name).data;
      && WhitePoints.GetData(rows.white).Ok?
      && GetData(s).value.data.w == WhitePoints.GetData(rows.white).value.data
  {
    WhiteResolves(GetData(s).value.name);
  }

  /** 'SRGB' names the bt709 primaries, in any case, through its constant name. */
  lemma SrgbIsBt709(s: string)
    requires Lower(s) == "srgb"
    ensures GetData(s).Ok? && GetData(s).value.name == "bt709"
  {
    if "srgb" in Tokens(Body()) {
      TokenDeclared(Body(), "srgb");
    }
    assert Lower("SRGB") == "srgb";
    SameLowerSameUpper(s, "SRGB");
    assert Upper("SRGB") == "SRGB";
    LastBindingWins(Body(), 1);
  }

  /** As written, parse_constant_names raises for every input here: an unknown name raises
      the RuntimeError, and for every other name the alias comprehension reaches 'BT2020', the
      first key in `dir` order, and cannot unpack it into two names. */
  lemma ParseAsWrittenRaises(name: string)
    ensures ParseAsWritten(Body(), name).Err?
    ensures Parse(Body(), name).Ok? ==> ParseAsWritten(Body(), name) == Err(CannotUnpack("BT2020"))
  {
    LastBindingWins(Body(), 7);
    FirstConstant();
    AsWrittenRaisesAtFirst(Body(), name, "BT2020");
  }

  /** 'BT2020' is the first constant name of the class in `dir` order. */
  lemma FirstConstant()
    ensures forall i :: 0 <= i < |Body()| ==> Body()[i].constant == "BT2020" || Precedes("BT2020", Body()[i].constant)
  {
  }

  /** An instance: the resolved token, its aliases, the 4x2 data and its rows. */
  class ColorPrimaries {
    const data: PrimariesData
    const name: string
    const alias: seq<string>
    const w: Chromaticity
    const r: Chromaticity
    const g: Chromaticity
    const b: Chromaticity

    constructor (loaded: Loaded<PrimariesData>)
      ensures data == loaded.data && name == loaded.name && alias == loaded.alias
      ensures w == data.w && r == data.r && g == data.g && b == data.b
    {
      data, name, alias := loaded.data, loaded.name, loaded.alias;
      w, r, g, b := loaded.data.w, loaded.data.r, loaded.data.g, loaded.data.b;
    }

    /** ColorPrimaries(name): the fields get_data returns, or the error it raises. */
    static method Create(s: string) returns (res: Result<ColorPrimaries, NameError>)
      ensures GetData(s).Err? ==> res == Err(GetData(s).error)
      ensures GetData(s).Ok? ==> res.Ok? && fresh(res.value)
      ensures res.Ok? ==> Loaded(res.value.data, res.value.name, res.value.alias) == GetData(s).value
      ensures res.Ok? ==> res.value.w == res.value.data.w && res.value.r == res.value.data.r
      ensures res.Ok? ==> res.value.g == res.value.data.g && res.value.b == res.value.data.b
    {
      var d := GetData(s);
      if d.Err? {
        return Err(d.error);
      }
      var p := new ColorPrimaries(d.value);
      return Ok(p);
    }
  }
}
