/** ColorTransfer (color_space.py lines 163-279): the transfer characteristic of each
    standard, its coefficient row, and the pair of formulas an instance is bound to. */
module Transfers {
  import opened Wrappers
  import opened ConstantNames
  import opened Curves

  /** The body of class ColorTransfer, in source order. BT470M is bound twice: first to
      SMPTE170M, then to 'bt470m'; Python keeps the later binding. */
  function Body(): seq<Binding>
  {
    [ Binding("BT709", "bt709"), Binding("SRGB", "srgb"), Binding("IEC61966_2_1", "srgb"),
      Binding("IEC61966_2_4", "iec61966_2_4"),
      Binding("SMPTE170M", "smpte170m"), Binding("BT601_525", "smpte170m"),
      Binding("BT470M", "smpte170m"), Binding("SMPTE240M", "smpte170m"),
      Binding("BT470BG", "bt470bg"), Binding("BT601_625", "bt470bg"), Binding("GAMMA22", "bt470bg"),
      Binding("BT470M", "bt470m"), Binding("GAMMA28", "bt470m"),
      Binding("BT2020_10", "bt2020_10"), Binding("BT2020_12", "bt2020_12"),
      Binding("LINEAR", "linear"),
      Binding("SMPTE2084", "smpte2084"), Binding("PQ", "smpte2084"),
      Binding("ARIB_STD_B67", "arib_std_b67"), Binding("HLG", "arib_std_b67") ]
  }

  /** The BT.709 row, shared by several standards. */
  function Bt709Row(): Coeffs
  {
    Coeffs(1.099, 0.018, 0.45, 4.5)
  }

  /** The sRGB row, also the fallback for an unrecognised token. */
  function SrgbRow(): Coeffs
  {
    Coeffs(1.055, 0.0031308, 1.0 / 2.4, 12.92)
  }

  /** The pure 2.8 power row of BT.470 BG and BT.470 M. */
  function Gamma28Row(): Coeffs
  {
    Coeffs(1.0, 0.0, 1.0 / 2.8, 0.0)
  }

  /** The if-chain of get_data on the resolved token: a coefficient row, or None for the
      three curves that are not of the parametric form. */
  function Lookup(name: string): (r: Lookup<Option<Coeffs>>)
    ensures r.Recognised? <==> name in {"bt709", "srgb", "iec61966_2_4", "smpte170m", "bt470bg", "bt470m",
                                        "bt2020_10", "bt2020_12", "linear", "smpte2084", "arib_std_b67"}
  {
    if name == "bt709" then Recognised(Some(Bt709Row()))
    else if name == "srgb" then Recognised(Some(SrgbRow()))
    else if name == "iec61966_2_4" then Recognised(Some(Bt709Row()))
    else if name == "smpte170m" then Recognised(Some(Bt709Row()))
    else if name == "bt470bg" then Recognised(Some(Gamma28Row()))
    else if name == "bt470m" then Recognised(Some(Gamma28Row()))
    else if name == "bt2020_10" then Recognised(Some(Bt709Row()))
    else if name == "bt2020_12" then Recognised(Some(Coeffs(1.0993, 0.0181, 0.45, 4.5)))
    else if name == "linear" || name == "smpte2084" || name == "arib_std_b67" then Recognised(None)
    else Default(Some(SrgbRow()))
  }

  /** get_data's "not recognised, use SRGB" branch is dead: every token of the class has a branch. */
  lemma EveryTokenRecognised(v: string)
    requires v in Tokens(Body())
    ensures Lookup(v).Recognised?
  {
    TokenListed(v);
  }

  /** The eleven tokens of the class. */
  lemma TokenListed(v: string)
    requires v in Tokens(Body())
    ensures v in {"bt709", "srgb", "iec61966_2_4", "smpte170m", "bt470bg", "bt470m",
                  "bt2020_10", "bt2020_12", "linear", "smpte2084", "arib_std_b67"}
  {
    TokenDeclared(Body(), v);
  }

  /** ColorTransfer.get_data: the coefficient row of the named curve (None for linear, PQ and
      HLG), with the resolved token and its aliases; an unknown name raises. */
  function GetData(name: string): (r: Result<Loaded<Option<Coeffs>>, NameError>)
    ensures r.Ok? <==> Parse(Body(), name).Ok?
    ensures r.Err? ==> r.error == InputArgumentInvalid(name)
    ensures r.Ok? ==> r.value.name == Parse(Body(), name).value.name
    ensures r.Ok? ==> r.value.alias == Parse(Body(), name).value.alias
    ensures r.Ok? ==> Lookup(r.value.name).Recognised? && r.value.data == Lookup(r.value.name).data
  {
    match Parse(Body(), name)
    case Err(e) => Err(e)
    case Ok(res) =>
      EveryTokenRecognised(res.name);
      Ok(Loaded(Lookup(res.name).data, res.name, res.alias))
  }

  /** Every row of the table has the shape the formulas need. */
  lemma RowsWellFormed(name: string)
    requires Lookup(name).data.Some?
    ensures WellFormed(Lookup(name).data.value)
  {
    assert 0.0 < 1.0 / 2.4 < 1.0 && 0.0 < 1.0 / 2.8 < 1.0;
  }

  /** A resolved curve has no row exactly when it is linear, PQ or HLG. */
  lemma NoRowExactlyForNonParametric(s: string)
    requires GetData(s).Ok?
    ensures GetData(s).value.data.None? <==>
      GetData(s).value.name in {"linear", "smpte2084", "arib_std_b67"}
  {
    RowAbsent(GetData(s).value.name);
  }

  /** The table has no row for exactly the three non-parametric tokens. */
  lemma RowAbsent(name: string)
    ensures Lookup(name).data.None? <==> name in {"linear", "smpte2084", "arib_std_b67"}
  {
  }

  /** BT.709, IEC 61966-2-4, SMPTE 170M and 10-bit BT.2020 share one row; 12-bit BT.2020
      differs from it. */
  lemma SharedBt709Row()
    ensures Lookup("iec61966_2_4").data == Lookup("bt709").data
    ensures Lookup("smpte170m").data == Lookup("bt709").data
    ensures Lookup("bt2020_10").data == Lookup("bt709").data
    ensures Lookup("bt2020_12").data != Lookup("bt709").data
  {
  }

  /** The rebinding of BT470M: the constant means 'bt470m', and it is not among the aliases of
      'smpte170m' although line 170 first bound it there. */
  lemma Bt470mRebinding()
    ensures "BT470M" in Namespace(Body()) && Namespace(Body())["BT470M"] == "bt470m"
    ensures "BT470M" !in Aliases(Body(), "smpte170m")
    ensures "BT470M" in Aliases(Body(), "bt470m")
  {
    LastBindingWins(Body(), 11);
  }

  /** Any spelling of 'bt470m' resolves to the 2.8 power row. */
  lemma Bt470mResolves(s: string)
    requires Lower(s) == "bt470m"
    ensures GetData(s).Ok? && GetData(s).value.name == "bt470m"
    ensures GetData(s).value.data == Some(Gamma28Row())
  {
    TokenResolves(Body(), 11, s);
  }

  /** 'PQ' is a constant name, not a token: it resolves through the class to 'smpte2084'. */
  lemma PqResolves(s: string)
    requires Lower(s) == "pq"
    ensures GetData(s).Ok? && GetData(s).value.name == "smpte2084" && GetData(s).value.data.None?
  {
    PqParses(s);
    RowAbsent("smpte2084");
  }

  lemma PqParses(s: string)
    requires Lower(s) == "pq"
    ensures Parse(Body(), s).Ok? && Parse(Body(), s).value.name == "smpte2084"
  {
    UpperOfLower(s);
    ConstantAt(17);
    LastBindingOf(17);
    NotAToken(Lower(s));
    ConstantResolves(Body(), 17, s);
  }

  /** 'IEC61966_2_1' is the sRGB curve. */
  lemma Iec61966_2_1Resolves(s: string)
    requires Lower(s) == "iec61966_2_1"
    ensures GetData(s).Ok? && GetData(s).value.name == "srgb" && GetData(s).value.data == Some(SrgbRow())
  {
    Iec61966_2_1Parses(s);
  }

  lemma Iec61966_2_1Parses(s: string)
    requires Lower(s) == "iec61966_2_1"
    ensures Parse(Body(), s).Ok? && Parse(Body(), s).value.name == "srgb"
  {
    UpperOfLower(s);
    ConstantAt(2);
    LastBindingOf(2);
    NotAToken(Lower(s));
    ConstantResolves(Body(), 2, s);
  }

  /** The bindings of IEC61966_2_1 and PQ. */
  lemma ConstantAt(i: nat)
    requires i == 2 || i == 17
    ensures i < |Body()|
    ensures Body()[i] == if i == 2 then Binding("IEC61966_2_1", "srgb") else Binding("PQ", "smpte2084")
  {
  }

  /** IEC61966_2_1 and PQ are not bound again later in the class body. */
  lemma LastBindingOf(i: nat)
    requires i == 2 || i == 17
    ensures i < |Body()|
    ensures forall j :: i < j < |Body()| ==> Body()[j].constant != Body()[i].constant
  {
  }

  /** 'iec61966_2_1' and 'pq' are spellings of constant names, not tokens of the class. */
  lemma NotAToken(v: string)
    requires v == "iec61966_2_1" || v == "pq"
    ensures forall i :: 0 <= i < |Body()| ==> Body()[i].value != v
  {
  }

  /** A name that is neither a token nor a constant raises instead of falling back to sRGB. */
  lemma UnknownNameRaises(s: string)
    requires Lower(s) == "gamma24"
    ensures GetData(s) == Err(InputArgumentInvalid(s))
  {
    UnknownNameFails(s);
  }

  lemma UnknownNameFails(s: string)
    requires Lower(s) == "gamma24"
    ensures Parse(Body(), s) == Err(InputArgumentInvalid(s))
  {
    UpperOfLower(s);
    assert Upper("gamma24") == "GAMMA24";
    Unresolvable(Body(), s);
  }

  /** As written, parse_constant_names raises for every input here: an unknown name raises
      the RuntimeError, and for every other name the alias comprehension reaches 'ARIB_STD_B67', the
      first key in `dir` order, and cannot unpack it into two names. */
  lemma ParseAsWrittenRaises(name: string)
    ensures ParseAsWritten(Body(), name).Err?
    ensures Parse(Body(), name).Ok? ==> ParseAsWritten(Body(), name) == Err(CannotUnpack("ARIB_STD_B67"))
  {
    LastBindingWins(Body(), 18);
    FirstConstant();
    AsWrittenRaisesAtFirst(Body(), name, "ARIB_STD_B67");
  }

  /** 'ARIB_STD_B67' is the first constant name of the class in `dir` order. */
  lemma FirstConstant()
    ensures forall i :: 0 <= i < |Body()| ==> Body()[i].constant == "ARIB_STD_B67" || Precedes("ARIB_STD_B67", Body()[i].constant)
  {
  }

  // ---------------------------------------------------------------------------
  // Binding the formulas (__init__)

  /** __init__, with `data is None` for the test `not self.data`: a row binds the class's
      parametric formulas on it, no row binds the linear, PQ or HLG pair by name, and a
      name without a row that is none of those leaves nothing bound (None). */
  function Bind(data: Option<Coeffs>, name: string): (f: Option<Family>)
    ensures data.Some? ==> f == Some(Parametric(data.value))
    ensures data.None? ==> (f.Some? <==> name in {"linear", "smpte2084", "arib_std_b67"})
    ensures f.Some? ==> (f.value.Parametric? <==> data.Some?)
  {
    match data
    case Some(c) => Some(Parametric(c))
    case None =>
      if name == "linear" then Some(Linear)
      else if name == "smpte2084" then Some(Pq)
      else if name == "arib_std_b67" then Some(Hlg)
      else None
  }

  /** Every curve get_data resolves is bound to a pair of formulas, and a parametric pair
      always has a well-formed row. */
  lemma EveryCurveBound(s: string)
    requires GetData(s).Ok?
    ensures Bind(GetData(s).value.data, GetData(s).value.name).Some?
    ensures Sound(Bind(GetData(s).value.data, GetData(s).value.name).value)
  {
    var d := GetData(s).value;
    if d.data.Some? {
      RowsWellFormed(d.name);
    }
  }

  /** Which pair a resolved curve is bound to: linear, PQ and HLG by their tokens, the
      parametric formulas on the curve's own row for every other token. */
  lemma FamilyByName(s: string)
    requires GetData(s).Ok?
    ensures
      var d := GetData(s).value;
      var f := Bind(d.data, d.name);
      && (f == Some(Linear) <==> d.name == "linear")
      && (f == Some(Pq) <==> d.name == "smpte2084")
      && (f == Some(Hlg) <==> d.name == "arib_std_b67")
      && (f.Some? && f.value.Parametric? <==> d.name !in {"linear", "smpte2084", "arib_std_b67"})
      && (f.Some? && f.value.Parametric? ==> Lookup(d.name).data == Some(f.value.coeffs))
  {
    NoRowExactlyForNonParametric(s);
  }

  /** The linear pair is the identity both ways, whatever the other formulas are. */
  lemma LinearIsIdentity(ops: Formulas, x: real)
    ensures FamilyDeLinearize(Linear, ops, x) == x
    ensures FamilyLinearize(Linear, ops, x) == x
  {
  }

  /** BT.709 at a dark sample x = 0.01: the encoder's linear segment gives the code 0.045.
      Decoding as written compares 0.045 with beta = 0.018 and takes the power segment;
      decoding with the threshold beta * delta = 0.081 takes the linear one and returns 0.01. */
  lemma Bt709DarkSample(pow: Power)
    ensures DeLinearize(Bt709Row(), pow, 0.01) == 0.045
    ensures DeLinearizeAsWritten(Bt709Row(), pow, 0.01) == 0.045
    ensures Linearize(Bt709Row(), pow, 0.045) == 0.01
    ensures LinearizeAsWritten(Bt709Row(), pow, 0.045) == pow((0.045 + 0.099) / 1.099, 1.0 / 0.45)
  {
  }

  /** An instance: the resolved token, its aliases, its row and the formulas it is bound to. */
  class ColorTransfer {
    const data: Option<Coeffs>
    const name: string
    const alias: seq<string>
    const family: Family

    /** The formulas bound are the ones __init__ selects for the row and the token. */
    predicate Valid()
      reads this
    {
      Bind(data, name) == Some(family) && Sound(family)
    }

    constructor (loaded: Loaded<Option<Coeffs>>, f: Family)
      requires Bind(loaded.data, loaded.name) == Some(f) && Sound(f)
      ensures data == loaded.data && name == loaded.name && alias == loaded.alias && family == f
      ensures Valid()
    {
      data, name, alias, family := loaded.data, loaded.name, loaded.alias, f;
    }

    /** ColorTransfer(name): the fields get_data returns and the formulas bound, or the error
        it raises. */
    static method Create(s: string) returns (res: Result<ColorTransfer, NameError>)
      ensures GetData(s).Err? ==> res == Err(GetData(s).error)
      ensures GetData(s).Ok? ==> res.Ok? && fresh(res.value)
      ensures res.Ok? ==> Loaded(res.value.data, res.value.name, res.value.alias) == GetData(s).value
      ensures res.Ok? ==> res.value.Valid()
    {
      var d := GetData(s);
      if d.Err? {
        return Err(d.error);
      }
      EveryCurveBound(s);
      var t := new ColorTransfer(d.value, Bind(d.value.data, d.value.name).value);
      return Ok(t);
    }

    /** de_linearize: linear light to code value with the bound formula. */
    method DeLinearize(ops: Formulas, x: real) returns (y: real)
      requires Valid()
      ensures y == FamilyDeLinearize(family, ops, x)
    {
      y := FamilyDeLinearize(family, ops, x);
    }

    /** linearize: code value to linear light with the bound formula. */
    method Linearize(ops: Formulas, x: real) returns (y: real)
      requires Valid()
      ensures y == FamilyLinearize(family, ops, x)
    {
      y := FamilyLinearize(family, ops, x);
    }
  }
}
