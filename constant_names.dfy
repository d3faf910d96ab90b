/** Name resolution for the constants classes of color_space.py (`parse_constant_names`).

    A constants class is modelled by its body: the assignments `NAME = 'value'`
    in the order Python runs them. Its namespace, the names `dir` lists for it
    and the resolution of a user string are all functions of that body. */
module ConstantNames {
  import opened Wrappers

  /** One class-level assignment `constant = 'value'`. */
  datatype Binding = Binding(constant: string, value: string)

  /** RuntimeError('Input argument invalid!'), raised for a string that names no constant.
      The source's error carries only that fixed message; the `name` payload is added by the
      model, so that a contract can say which input was refused. */
  datatype NameError = InputArgumentInvalid(name: string)

  /** The pair parse_constant_names returns: the canonical token and its alias list. */
  datatype Resolved = Resolved(name: string, alias: seq<string>)

  /** What a `get_data` returns: the table row, the canonical token and the alias list. */
  datatype Loaded<T> = Loaded(data: T, name: string, alias: seq<string>)

  /** The outcome of a `get_data` if-chain: a branch that names the token, or the final
      `else` that logs a warning and substitutes a default row. */
  datatype Lookup<T> = Recognised(data: T) | Default(data: T)

  // ---------------------------------------------------------------------------
  // The class namespace

  /** The namespace after the class body has run: a later assignment to a name
      replaces the earlier one. */
  function Namespace(body: seq<Binding>): map<string, string>
  {
    if body == [] then map[]
    else
      var last := body[|body| - 1];
      Namespace(body[..|body| - 1])[last.constant := last.value]
  }

  /** The values a class binds: the canonical tokens of its enumeration. */
  function Tokens(body: seq<Binding>): set<string>
  {
    Namespace(body).Values
  }

  /** A name assigned for the last time at position i keeps the value assigned there. */
  lemma {:induction false} LastBindingWins(body: seq<Binding>, i: nat)
    requires i < |body|
    requires forall j :: i < j < |body| ==> body[j].constant != body[i].constant
    ensures body[i].constant in Namespace(body)
    ensures Namespace(body)[body[i].constant] == body[i].value
  {
    if i < |body| - 1 {
      var prefix := body[..|body| - 1];
      assert prefix[i] == body[i];
      forall j | i < j < |prefix| ensures prefix[j].constant != prefix[i].constant {
        assert prefix[j] == body[j];
      }
      LastBindingWins(prefix, i);
    }
  }

  /** Every entry of the namespace comes from an assignment in the body. */
  lemma {:induction false} NamespaceEntryDeclared(body: seq<Binding>, k: string)
    requires k in Namespace(body)
    ensures Binding(k, Namespace(body)[k]) in body
  {
    var last := body[|body| - 1];
    var prefix := body[..|body| - 1];
    assert body == prefix + [last];
    if k != last.constant {
      NamespaceEntryDeclared(prefix, k);
    }
  }

  /** A token of the class is the value of some assignment in its body. */
  lemma TokenDeclared(body: seq<Binding>, v: string)
    requires v in Tokens(body)
    ensures exists k :: Binding(k, v) in body
  {
    var k :| k in Namespace(body) && Namespace(body)[k] == v;
    NamespaceEntryDeclared(body, k);
  }

  // ---------------------------------------------------------------------------
  // Case conversion (str.lower / str.upper, on ASCII letters)

  function LowerChar(c: char): char
  {
    if 'A' <= c <= 'Z' then (c as int + 32) as char else c
  }

  function UpperChar(c: char): char
  {
    if 'a' <= c <= 'z' then (c as int - 32) as char else c
  }

  function Lower(s: string): string
  {
    seq(|s|, i requires 0 <= i < |s| => LowerChar(s[i]))
  }

  function Upper(s: string): string
  {
    seq(|s|, i requires 0 <= i < |s| => UpperChar(s[i]))
  }

  /** Two strings that lower-case alike also upper-case alike. */
  lemma SameLowerSameUpper(s: string, t: string)
    requires Lower(s) == Lower(t)
    ensures Upper(s) == Upper(t)
  {
    assert |s| == |Lower(s)| == |Lower(t)| == |t|;
    forall i | 0 <= i < |s| ensures Upper(s)[i] == Upper(t)[i] {
      assert Lower(s)[i] == Lower(t)[i];
    }
  }

  /** Upper-casing ignores a prior lower-casing. */
  lemma UpperOfLower(s: string)
    ensures Upper(Lower(s)) == Upper(s)
  {
    forall i | 0 <= i < |s| ensures Upper(Lower(s))[i] == Upper(s)[i] {
    }
  }

  // ---------------------------------------------------------------------------
  // The names `dir` lists: every name of the namespace, once, in ascending order

  /** Python's `a < b` on str: lexicographic by code point. */
  predicate Precedes(a: string, b: string)
  {
    if a == [] then b != []
    else if b == [] then false
    else if a[0] == b[0] then Precedes(a[1..], b[1..])
    else a[0] < b[0]
  }

  lemma {:induction false} PrecedesIrreflexive(a: string)
    ensures !Precedes(a, a)
  {
    if a != [] {
      PrecedesIrreflexive(a[1..]);
    }
  }

  lemma {:induction false} PrecedesTransitive(a: string, b: string, c: string)
    requires Precedes(a, b) && Precedes(b, c)
    ensures Precedes(a, c)
  {
    if a != [] && a[0] == b[0] && b[0] == c[0] {
      PrecedesTransitive(a[1..], b[1..], c[1..]);
    }
  }

  lemma {:induction false} PrecedesTotal(a: string, b: string)
    requires a != b
    ensures Precedes(a, b) || Precedes(b, a)
  {
    if a != [] && b != [] && a[0] == b[0] {
      assert a == [a[0]] + a[1..] && b == [b[0]] + b[1..];
      PrecedesTotal(a[1..], b[1..]);
    }
  }

  predicate Ascending(s: seq<string>)
  {
    forall i, j :: 0 <= i < j < |s| ==> Precedes(s[i], s[j])
  }

  /** Ascending and led by a name that precedes all the rest. */
  lemma PrependAscending(x: string, s: seq<string>)
    requires Ascending(s)
    requires forall y :: y in s ==> Precedes(x, y)
    ensures Ascending([x] + s)
  {
    var r := [x] + s;
    forall i, j | 0 <= i < j < |r| ensures Precedes(r[i], r[j]) {
      assert r[j] == s[j - 1];
      if i > 0 {
        assert r[i] == s[i - 1];
      }
    }
  }

  /** Inserts a name into an ascending list, leaving it unchanged when already there. */
  function Insert(x: string, s: seq<string>): (r: seq<string>)
    requires Ascending(s)
    ensures Ascending(r)
    ensures forall y :: y in r <==> y == x || y in s
  {
    if s == [] then [x]
    else if x == s[0] then s
    else if Precedes(x, s[0]) then
      assert forall y :: y in s ==> Precedes(x, y) by {
        forall y | y in s ensures Precedes(x, y) {
          var j :| 0 <= j < |s| && s[j] == y;
          if j > 0 {
            PrecedesTransitive(x, s[0], y);
          }
        }
      }
      PrependAscending(x, s);
      [x] + s
    else
      assert Ascending(s[1..]);
      var rest := Insert(x, s[1..]);
      assert forall y :: y in rest ==> Precedes(s[0], y) by {
        forall y | y in rest ensures Precedes(s[0], y) {
          if y == x {
            PrecedesTotal(x, s[0]);
          } else {
            var j :| 1 <= j < |s| && s[j] == y;
          }
        }
      }
      PrependAscending(s[0], rest);
      [s[0]] + rest
  }

  /** The constant names `dir(c)` yields for the class: the namespace's names,
      each once, in ascending order. */
  function Listing(body: seq<Binding>): (r: seq<string>)
    ensures Ascending(r)
    ensures forall y :: y in r <==> y in Namespace(body)
  {
    if body == [] then []
    else Insert(body[|body| - 1].constant, Listing(body[..|body| - 1]))
  }

  // ---------------------------------------------------------------------------
  // parse_constant_names, with the alias list it is meant to return

  /** The names, in listing order, whose value in `names` is `v`. */
  function Select(listing: seq<string>, names: map<string, string>, v: string): (r: seq<string>)
    ensures forall a :: a in r <==> a in listing && a in names && names[a] == v
    ensures Ascending(listing) ==> Ascending(r)
  {
    if listing == [] then []
    else
      var rest := Select(listing[1..], names, v);
      if listing[0] in names && names[listing[0]] == v then
        if Ascending(listing) then
          forall y | y in rest ensures Precedes(listing[0], y) {
            var j :| 1 <= j < |listing| && listing[j] == y;
          }
          PrependAscending(listing[0], rest);
          [listing[0]] + rest
        else
          [listing[0]] + rest
      else
        rest
  }

  /** The constant names of the class bound to the token v, in `dir` order. */
  function Aliases(body: seq<Binding>, v: string): (r: seq<string>)
    ensures Ascending(r)
    ensures forall a :: a in r <==> a in Namespace(body) && Namespace(body)[a] == v
  {
    Select(Listing(body), Namespace(body), v)
  }

  /** parse_constant_names(c, name): a string whose lower-case form is a token resolves to
      that token; otherwise one whose upper-case form is a constant name resolves to the
      constant's value; anything else raises. The alias list is the intended one: every
      constant name bound to the resolved token. */
  function Parse(body: seq<Binding>, name: string): (r: Result<Resolved, NameError>)
    ensures r.Ok? <==> Lower(name) in Tokens(body) || Upper(name) in Namespace(body)
    ensures r.Err? ==> r.error == InputArgumentInvalid(name)
    ensures r.Ok? ==> r.value.name in Tokens(body)
    ensures Lower(name) in Tokens(body) ==> r.Ok? && r.value.name == Lower(name)
    ensures Lower(name) !in Tokens(body) && Upper(name) in Namespace(body) ==>
      r.Ok? && r.value.name == Namespace(body)[Upper(name)]
    ensures r.Ok? ==> Ascending(r.value.alias)
    ensures r.Ok? ==> forall a :: a in r.value.alias <==>
      a in Namespace(body) && Namespace(body)[a] == r.value.name
  {
    var names := Namespace(body);
    if Lower(name) in names.Values then
      Ok(Resolved(Lower(name), Aliases(body, Lower(name))))
    else if Upper(name) in names then
      Ok(Resolved(names[Upper(name)], Aliases(body, names[Upper(name)])))
    else
      Err(InputArgumentInvalid(name))
  }

  /** Resolution ignores case: two spellings that lower-case alike resolve alike. */
  lemma CaseInsensitive(body: seq<Binding>, s: string, t: string)
    requires Lower(s) == Lower(t)
    ensures Parse(body, s).Ok? <==> Parse(body, t).Ok?
    ensures Parse(body, s).Ok? ==> Parse(body, s).value == Parse(body, t).value
  {
    SameLowerSameUpper(s, t);
  }

  /** Every token of the class is written in lower case. */
  predicate LowerCaseTokens(body: seq<Binding>)
  {
    forall b :: b in body ==> Lower(b.value) == b.value
  }

  /** Resolving a resolved token again gives the same token and alias list, so a
      name can be resolved once and handed on (as ColorPrimaries hands 'd65' to WhitePoint). */
  lemma ResolvedTokenIsFixedPoint(body: seq<Binding>, name: string)
    requires LowerCaseTokens(body)
    requires Parse(body, name).Ok?
    ensures Parse(body, Parse(body, name).value.name) == Parse(body, name)
  {
    var v := Parse(body, name).value.name;
    var k :| k in Namespace(body) && Namespace(body)[k] == v;
    NamespaceEntryDeclared(body, k);
    assert Lower(v) == v;
  }

  /** A token assigned for the last time at position i resolves, in any case, to itself. */
  lemma TokenResolves(body: seq<Binding>, i: nat, s: string)
    requires i < |body|
    requires forall j :: i < j < |body| ==> body[j].constant != body[i].constant
    requires Lower(s) == Lower(body[i].value) == body[i].value
    ensures Parse(body, s).Ok? && Parse(body, s).value.name == body[i].value
  {
    LastBindingWins(body, i);
  }

  /** A constant name assigned for the last time at position i, in a spelling that is not
      also a token, resolves through the class to the token it is bound to. */
  lemma ConstantResolves(body: seq<Binding>, i: nat, s: string)
    requires i < |body|
    requires forall j :: i < j < |body| ==> body[j].constant != body[i].constant
    requires Upper(s) == body[i].constant
    requires forall j :: 0 <= j < |body| ==> body[j].value != Lower(s)
    ensures Parse(body, s).Ok? && Parse(body, s).value.name == body[i].value
  {
    if Lower(s) in Tokens(body) {
      TokenDeclared(body, Lower(s));
    }
    LastBindingWins(body, i);
  }

  /** A spelling that is neither a token nor, upper-cased, a constant name raises. */
  lemma Unresolvable(body: seq<Binding>, s: string)
    requires forall j :: 0 <= j < |body| ==> body[j].value != Lower(s) && body[j].constant != Upper(s)
    ensures Parse(body, s) == Err(InputArgumentInvalid(s))
  {
    if Lower(s) in Tokens(body) {
      TokenDeclared(body, Lower(s));
    }
    if Upper(s) in Namespace(body) {
      NamespaceEntryDeclared(body, Upper(s));
    }
  }

  // ---------------------------------------------------------------------------
  // The alias comprehension as written

  /** `[a for a, n in valid_names if n == name]` iterates the dict's KEYS and unpacks each
      key string into two one-character names; Python raises ValueError at the first key
      that is not exactly two characters long, reported here by that key. */
  function AliasesAsWritten(keys: seq<string>, name: string): (r: Result<seq<string>, string>)
    ensures r.Err? ==> r.error in keys && |r.error| != 2
    ensures r.Ok? ==> |r.value| <= |keys| && forall i :: 0 <= i < |r.value| ==> |r.value[i]| == 1
  {
    if keys == [] then Ok([])
    else if |keys[0]| != 2 then Err(keys[0])
    else
      match AliasesAsWritten(keys[1..], name)
      case Err(k) => Err(k)
      case Ok(rest) => Ok((if [keys[0][1]] == name then [[keys[0][0]]] else []) + rest)
  }

  /** What parse_constant_names as written raises: the RuntimeError for an unknown name,
      or the ValueError of the alias comprehension on the named key. */
  datatype AsWrittenError = Invalid(cause: NameError) | CannotUnpack(key: string)

  /** parse_constant_names as written: resolution, then the alias comprehension on the keys. */
  function ParseAsWritten(body: seq<Binding>, name: string): (r: Result<Resolved, AsWrittenError>)
    ensures Parse(body, name).Err? ==> r == Err(Invalid(Parse(body, name).error))
    ensures r.Ok? ==> r.value.name == Parse(body, name).value.name
  {
    match Parse(body, name)
    case Err(e) => Err(Invalid(e))
    case Ok(res) =>
      match AliasesAsWritten(Listing(body), res.name)
      case Err(k) => Err(CannotUnpack(k))
      case Ok(alias) => Ok(Resolved(res.name, alias))
  }

  /** One key that is not two characters long makes the comprehension raise. */
  lemma {:induction false} UnpackFails(keys: seq<string>, name: string, k: string)
    requires k in keys && |k| != 2
    ensures AliasesAsWritten(keys, name).Err?
  {
    if |keys[0]| == 2 {
      UnpackFails(keys[1..], name, k);
    }
  }

  /** As written, parse_constant_names never returns for a class that has a constant
      name of other than two characters: every input raises one error or the other. */
  lemma AsWrittenNeverReturns(body: seq<Binding>, name: string, k: string)
    requires k in Namespace(body) && |k| != 2
    ensures ParseAsWritten(body, name).Err?
  {
    if Parse(body, name).Ok? {
      UnpackFails(Listing(body), Parse(body, name).value.name, k);
    }
  }

  /** The keys are visited in `dir` order, so when the first constant name of the class is
      not two characters long, every name that resolves raises the ValueError on that key. */
  lemma AsWrittenRaisesAtFirst(body: seq<Binding>, name: string, k: string)
    requires k in Namespace(body) && |k| != 2
    requires forall j :: 0 <= j < |body| ==> body[j].constant == k || Precedes(k, body[j].constant)
    ensures Parse(body, name).Ok? ==> ParseAsWritten(body, name) == Err(CannotUnpack(k))
  {
    var keys := Listing(body);
    if keys[0] != k {
      NamespaceEntryDeclared(body, keys[0]);
      assert Binding(keys[0], Namespace(body)[keys[0]]) in body;
      var j :| 0 <= j < |keys| && keys[j] == k;
      PrecedesTransitive(k, keys[0], k);
      PrecedesIrreflexive(k);
    }
  }
}
