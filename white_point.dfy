/** WhitePoint (color_space.py lines 32-58): CIE 1931 xy chromaticities of the
    reference whites. */
module WhitePoints {
  import opened Wrappers
  import opened ConstantNames

  /** A CIE 1931 (x, y) chromaticity. */
  datatype Chromaticity = Chromaticity(x: real, y: real)

  /** Inside the triangle of (x, y) pairs with positive x and y and non-negative z = 1 - x - y
      (BT.2020 red lies on its edge). */
  predicate Realisable(c: Chromaticity)
  {
    0.0 < c.x && 0.0 < c.y && c.x + c.y <= 1.0
  }

  /** The body of class WhitePoint. */
  function Body(): seq<Binding>
  {
    [Binding("D65", "d65"), Binding("C", "c"), Binding("E", "e"), Binding("DCI", "dci")]
  }

  /** The if-chain of get_data on the resolved token. */
  function Lookup(name: string): (r: Lookup<Chromaticity>)
    ensures r.Recognised? <==> name in {"d65", "c", "dci", "e"}
  {
    if name == "d65" then Recognised(Chromaticity(0.3127, 0.3290))
    else if name == "c" then Recognised(Chromaticity(0.3100, 0.3160))
    else if name == "dci" then Recognised(Chromaticity(0.3140, 0.3510))
    else if name == "e" then Recognised(Chromaticity(0.3333, 0.3333))
    else Default(Chromaticity(0.3333, 0.3333))
  }

  /** get_data's "not recognised, use E" branch is dead: every token of the class has a branch. */
  lemma EveryTokenRecognised(v: string)
    requires v in Tokens(Body())
    ensures Lookup(v).Recognised?
  {
    TokenDeclared(Body(), v);
  }

  /** WhitePoint.get_data: the chromaticity of the named white, with the resolved token and
      its aliases; an unknown name raises. */
  function GetData(name: string): (r: Result<Loaded<Chromaticity>, NameError>)
    ensures r.Ok? <==> Parse(Body(), name).Ok?
    ensures r.Err? ==> r.error == InputArgumentInvalid(name)
    ensures r.Ok? ==> r.value.name == Parse(Body(), name).value.name
    ensures r.Ok? ==> r.value.alias == Parse(Body(), name).value.alias
    ensures r.Ok? ==> Lookup(r.value.name).Recognised? && r.value.data == Lookup(r.value.name).data
  {
    match Parse(Body(), name)
    case Err(e) => Err(e)
    case Ok(res) =>
      EveryTokenRecognised(res.name);
      Ok(Loaded(Lookup(res.name).data, res.name, res.alias))
  }

  /** The four tokens resolve to themselves, in any case ('d65' is what ColorPrimaries passes). */
  lemma TokensResolve(s: string)
    requires Lower(s) in ["d65", "c", "e", "dci"]
    ensures GetData(s).Ok? && GetData(s).value.name == Lower(s)
  {
    var b := Body();
    var i := if Lower(s) == "d65" then 0 else if Lower(s) == "c" then 1 else if Lower(s) == "e" then 2 else 3;
    TokenResolves(b, i, s);
  }

  /** Every white the table returns is a realisable chromaticity. */
  lemma DataRealisable(s: string)
    requires GetData(s).Ok?
    ensures Realisable(GetData(s).value.data)
  {
    RowRealisable(GetData(s).value.name);
  }

  /** Every branch of the table, the default included, is realisable. */
  lemma RowRealisable(name: string)
    ensures Realisable(Lookup(name).data)
  {
  }

  /** As written, parse_constant_names raises for every input here: an unknown name raises
      the RuntimeError, and for every other name the alias comprehension reaches 'C', the
      first key in `dir` order, and cannot unpack it into two names. */
  lemma ParseAsWrittenRaises(name: string)
    ensures ParseAsWritten(Body(), name).Err?
    ensures Parse(Body(), name).Ok? ==> ParseAsWritten(Body(), name) == Err(CannotUnpack("C"))
  {
    LastBindingWins(Body(), 1);
    FirstConstant();
    AsWrittenRaisesAtFirst(Body(), name, "C");
  }

  /** 'C' is the first constant name of the class in `dir` order. */
  lemma FirstConstant()
    ensures forall i :: 0 <= i < |Body()| ==> Body()[i].constant == "C" || Precedes("C", Body()[i].constant)
  {
  }

  /** An instance: the resolved token, its aliases and its chromaticity. */
  class WhitePoint {
    const data: Chromaticity
    const name: string
    const alias: seq<string>

    constructor (loaded: Loaded<Chromaticity>)
      ensures data == loaded.data && name == loaded.name && alias == loaded.alias
    {
      data, name, alias := loaded.data, loaded.name, loaded.alias;
    }

    /** WhitePoint(name): the fields get_data returns, or the error it raises. */
    static method Create(s: string) returns (r: Result<WhitePoint, NameError>)
      ensures GetData(s).Err? ==> r == Err(GetData(s).error)
      ensures GetData(s).Ok? ==> r.Ok? && fresh(r.value)
      ensures r.Ok? ==> Loaded(r.value.data, r.value.name, r.value.alias) == GetData(s).value
    {
      var d := GetData(s);
      if d.Err? {
        return Err(d.error);
      }
      var w := new WhitePoint(d.value);
      return Ok(w);
    }
  }
}
