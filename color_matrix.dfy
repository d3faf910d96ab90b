/** ColorMatrix (color_space.py lines 117-152): the luma coefficients (Cr, Cg, Cb) of the
    RGB to YUV matrix of each standard. */
module Matrices {
  import opened Wrappers
  import opened ConstantNames

  /** The vector get_data returns: [Cr, Cg, Cb]. */
  datatype Weights = Weights(cr: real, cg: real, cb: real)

  /** The body of class ColorMatrix. */
  function Body(): seq<Binding>
  {
    [ Binding("RGB", "rgb"), Binding("BT709", "bt709"), Binding("BT470BG", "bt470bg"),
      Binding("SMPTE170M", "smpte170m"), Binding("SMPTE240M", "smpte170m"),
      Binding("BT2020_NCL", "bt2020_ncl") ]
  }

  /** The if-chain of get_data on the resolved token. */
  function Lookup(name: string): (r: Lookup<Weights>)
    ensures r.Recognised? <==> name in {"rgb", "bt709", "bt470bg", "smpte170m", "bt2020_ncl"}
  {
    if name == "rgb" then Recognised(Weights(1.0, 1.0, 1.0))
    else if name == "bt709" then Recognised(Weights(0.2126, 0.7152, 0.0722))
    else if name == "bt470bg" then Recognised(Weights(0.299, 0.587, 0.114))
    else if name == "smpte170m" then Recognised(Weights(0.299, 0.587, 0.114))
    else if name == "bt2020_ncl" then Recognised(Weights(0.2627, 0.6780, 0.0593))
    else Default(Weights(0.2126, 0.7152, 0.0722))
  }

  /** get_data's "not recognised, use bt709" branch is dead: every token of the class has a branch. */
  lemma EveryTokenRecognised(v: string)
    requires v in Tokens(Body())
    ensures Lookup(v).Recognised?
  {
    TokenDeclared(Body(), v);
  }

  /** ColorMatrix.get_data: the coefficients of the named matrix, with the resolved token and
      its aliases; an unknown name raises. */
  function GetData(name: string): (r: Result<Loaded<Weights>, NameError>)
    ensures r.Ok? <==> Parse(Body(), name).Ok?
    ensures r.Err? ==> r.error == InputArgumentInvalid(name)
    ensures r.Ok? ==> r.value.name == Parse(Body(), name).value.name
    ensures r.Ok? ==> r.value.alias == Parse(Body(), name).value.alias
    ensures r.Ok? ==> Lookup(r.value.name).Recognised? && r.value.data == Lookup(r.value.name).data
  {
    match Parse(Body(), name)
    case Err(e) => Err(e)
    case Ok(res) =>
      EveryTokenRecognised(res.name);
      Ok(Loaded(Lookup(res.name).data, res.name, res.alias))
  }

  /** Luma weights: positive and summing to one, so that white (1, 1, 1) has luma 1. */
  predicate IsLuma(w: Weights)
  {
    0.0 < w.cr && 0.0 < w.cg && 0.0 < w.cb && w.cr + w.cg + w.cb == 1.0
  }

  /** Every matrix except the identity 'rgb' has luma weights. */
  lemma DataIsLuma(s: string)
    requires GetData(s).Ok? && GetData(s).value.name != "rgb"
    ensures IsLuma(GetData(s).value.data)
  {
    RowIsLuma(GetData(s).value.name);
  }

  /** Every branch but 'rgb', the default included, holds luma weights. */
  lemma RowIsLuma(name: string)
    requires name != "rgb"
    ensures IsLuma(Lookup(name).data)
  {
  }

  /** 'rgb' gives the all-ones vector, which is not a luma weighting. */
  lemma RgbIsNotLuma(s: string)
    requires GetData(s).Ok? && GetData(s).value.name == "rgb"
    ensures GetData(s).value.data == Weights(1.0, 1.0, 1.0) && !IsLuma(GetData(s).value.data)
  {
  }

  /** SMPTE 240M is an alias of SMPTE 170M and shares BT.470 BG's coefficients. */
  lemma Smpte240mIsSmpte170m(s: string)
    requires Lower(s) == "smpte240m"
    ensures GetData(s).Ok? && GetData(s).value.name == "smpte170m"
    ensures GetData(s).value.data == Lookup("bt470bg").data
  {
    Smpte240mParses(s);
  }

  lemma Smpte240mParses(s: string)
    requires Lower(s) == "smpte240m"
    ensures Parse(Body(), s).Ok? && Parse(Body(), s).value.name == "smpte170m"
  {
    UpperOfLower(s);
    assert Body()[4] == Binding("SMPTE240M", "smpte170m");
    ConstantResolves(Body(), 4, s);
  }

  /** As written, parse_constant_names raises for every input here: an unknown name raises
      the RuntimeError, and for every other name the alias comprehension reaches 'BT2020_NCL', the
      first key in `dir` order, and cannot unpack it into two names. */
  lemma ParseAsWrittenRaises(name: string)
    ensures ParseAsWritten(Body(), name).Err?
    ensures Parse(Body(), name).Ok? ==> ParseAsWritten(Body(), name) == Err(CannotUnpack("BT2020_NCL"))
  {
    LastBindingWins(Body(), 5);
    FirstConstant();
    AsWrittenRaisesAtFirst(Body(), name, "BT2020_NCL");
  }

  /** 'BT2020_NCL' is the first constant name of the class in `dir` order. */
  lemma FirstConstant()
    ensures forall i :: 0 <= i < |Body()| ==> Body()[i].constant == "BT2020_NCL" || Precedes("BT2020_NCL", Body()[i].constant)
  {
  }

  /** An instance: the resolved token, its aliases and the three coefficients. */
  class ColorMatrix {
    const data: Weights
    const name: string
    const alias: seq<string>
    const Cr: real
    const Cg: real
    const Cb: real

    constructor (loaded: Loaded<Weights>)
      ensures data == loaded.data && name == loaded.name && alias == loaded.alias
      ensures Cr == data.cr && Cg == data.cg && Cb == data.cb
    {
      data, name, alias := loaded.data, loaded.name, loaded.alias;
      Cr, Cg, Cb := loaded.data.cr, loaded.data.cg, loaded.data.cb;
    }

    /** ColorMatrix(name): the fields get_data returns, or the error it raises. */
    static method Create(s: string) returns (res: Result<ColorMatrix, NameError>)
      ensures GetData(s).Err? ==> res == Err(GetData(s).error)
      ensures GetData(s).Ok? ==> res.Ok? && fresh(res.value)
      ensures res.Ok? ==> Loaded(res.value.data, res.value.name, res.value.alias) == GetData(s).value
      ensures res.Ok? ==> res.value.Cr == res.value.data.cr
      ensures res.Ok? ==> res.value.Cg == res.value.data.cg && res.value.Cb == res.value.data.cb
    {
      var d := GetData(s);
      if d.Err? {
        return Err(d.error);
      }
      var m := new ColorMatrix(d.value);
      return Ok(m);
    }
  }
}
