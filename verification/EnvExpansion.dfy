/** `${VAR}` references in configuration values: `expand_env_vars_with` in src/config.rs, against
    the one way to read a value as literals and references. */
module EnvExpansion {
  import opened Common

  datatype Piece = Lit(text: string) | Ref(name: string)

  // A value as it is read; `unclosed` is what follows a "${" that is never closed.
  datatype Template = Template(pieces: seq<Piece>, unclosed: Option<string>)

  datatype EnvError = Unclosed | EmptyName | Missing(name: string)

  type Lookup = string -> Option<string>

  // ----- reading and printing

  predicate OpensAt(s: string, i: nat) {
    i + 1 < |s| && s[i] == '$' && s[i + 1] == '{'
  }

  predicate Plain(s: string) {
    forall i: nat :: i < |s| ==> !OpensAt(s, i)
  }

  // The first "${".
  function FindOpen(s: string): (r: Option<nat>)
    ensures r.None? <==> Plain(s)
    ensures r.Some? ==> OpensAt(s, r.value) && forall i: nat :: i < r.value ==> !OpensAt(s, i)
  {
    if |s| < 2 then None
    else if OpensAt(s, 0) then Some(0)
    else
      var r := FindOpen(s[1..]);
      assert forall i: nat :: i > 0 ==> (OpensAt(s, i) <==> OpensAt(s[1..], i - 1));
      assert r.Some? ==> OpensAt(s, r.value + 1);
      if r.None? then None else Some(r.value + 1)
  }

  // The first "}".
  function FindClose(s: string): (r: Option<nat>)
    ensures r.None? <==> '}' !in s
    ensures r.Some? ==> r.value < |s| && s[r.value] == '}' && '}' !in s[..r.value]
  {
    if s == "" then None
    else if s[0] == '}' then Some(0)
    else
      var r := FindClose(s[1..]);
      assert s == [s[0]] + s[1..];
      if r.None? then None else (assert s[..r.value + 1] == [s[0]] + s[1..][..r.value]; Some(r.value + 1))
  }

  function Literal(s: string): seq<Piece> {
    if s == "" then [] else [Lit(s)]
  }

  function RefText(n: string): string {
    "${" + n + "}"
  }

  // What the scanner finds next: nothing, a reference that is never closed, or a reference.
  datatype Scanned = End | OpenEnded(lit: string, after: string) | Reference(lit: string, name: string, rest: string)

  function Scan(s: string): (r: Scanned)
    ensures r.End? <==> Plain(s)
    ensures r.OpenEnded? ==> s == r.lit + "${" + r.after && Plain(r.lit) && '}' !in r.after
    ensures r.Reference? ==>
      s == r.lit + RefText(r.name) + r.rest && Plain(r.lit) && '}' !in r.name && |r.rest| < |s|
  {
    var start := FindOpen(s);
    if start.None? then End
    else
      var lit, after := s[..start.value], s[start.value + 2..];
      Opened(s, start.value);
      var end := FindClose(after);
      if end.None? then OpenEnded(lit, after)
      else
        Closed(lit, after, end.value);
        Reference(lit, after[..end.value], after[end.value + 1..])
  }

  lemma Opened(s: string, n: nat)
    requires OpensAt(s, n) && forall i: nat :: i < n ==> !OpensAt(s, i)
    ensures Plain(s[..n]) && s == s[..n] + "${" + s[n + 2..]
  {
    PrefixIsPlain(s, n);
  }

  lemma Closed(lit: string, after: string, n: nat)
    requires n < |after| && after[n] == '}'
    ensures lit + "${" + after == lit + RefText(after[..n]) + after[n + 1..]
  {
    assert after == after[..n] + "}" + after[n + 1..];
  }

  function Parse(s: string): Template
    decreases |s|
  {
    match Scan(s)
    case End => Template(Literal(s), None)
    case OpenEnded(lit, after) => Template(Literal(lit), Some(after))
    case Reference(lit, name, rest) => Reading(lit, name, Parse(rest))
  }

  // A literal, a reference and the reading of what follows, put together.
  function Reading(lit: string, n: string, rest: Template): Template {
    Template(Literal(lit) + ([Ref(n)] + rest.pieces), rest.unclosed)
  }

  function PrintPieces(ps: seq<Piece>): string {
    if ps == [] then ""
    else (match ps[0] case Lit(t) => t case Ref(n) => RefText(n)) + PrintPieces(ps[1..])
  }

  function Print(t: Template): string {
    PrintPieces(t.pieces) + if t.unclosed.Some? then "${" + t.unclosed.value else ""
  }

  // Literals are plain, not empty and not adjacent; names do not contain "}".
  predicate Normal(ps: seq<Piece>) {
    ps != [] ==>
      && (match ps[0] case Lit(t) => t != "" && Plain(t) case Ref(n) => '}' !in n)
      && (ps[0].Lit? && |ps| > 1 ==> ps[1].Ref?)
      && Normal(ps[1..])
  }

  predicate NormalTemplate(t: Template) {
    Normal(t.pieces) && (t.unclosed.Some? ==> '}' !in t.unclosed.value)
  }

  lemma PrintLiteral(text: string, ps: seq<Piece>)
    ensures PrintPieces(Literal(text) + ps) == text + PrintPieces(ps)
  {
    if text == "" {
      assert Literal(text) + ps == ps && text + PrintPieces(ps) == PrintPieces(ps);
    } else {
      assert (Literal(text) + ps)[1..] == ps;
    }
  }

  lemma PrintRef(n: string, ps: seq<Piece>)
    ensures PrintPieces([Ref(n)] + ps) == RefText(n) + PrintPieces(ps)
  {
    assert ([Ref(n)] + ps)[1..] == ps;
  }

  lemma NormalLiteral(text: string, ps: seq<Piece>)
    requires Plain(text) && Normal(ps) && (ps != [] ==> ps[0].Ref?)
    ensures Normal(Literal(text) + ps)
  {
    if text == "" {
      assert Literal(text) + ps == ps;
    } else {
      assert (Literal(text) + ps)[1..] == ps;
    }
  }

  lemma NormalRef(n: string, ps: seq<Piece>)
    requires '}' !in n && Normal(ps)
    ensures Normal([Ref(n)] + ps)
  {
    assert ([Ref(n)] + ps)[1..] == ps;
  }

  lemma PrefixIsPlain(s: string, n: nat)
    requires n <= |s| && forall i: nat :: i < n ==> !OpensAt(s, i)
    ensures Plain(s[..n])
  {
    forall i: nat | i < n ensures !OpensAt(s[..n], i) {
      assert !OpensAt(s, i);
    }
  }

  lemma ReadingPrints(lit: string, n: string, rest: Template)
    ensures Print(Reading(lit, n, rest)) == lit + RefText(n) + Print(rest)
  {
    PrintRef(n, rest.pieces);
    PrintLiteral(lit, [Ref(n)] + rest.pieces);
  }

  lemma ReadingIsNormal(lit: string, n: string, rest: Template)
    requires Plain(lit) && '}' !in n && NormalTemplate(rest)
    ensures NormalTemplate(Reading(lit, n, rest))
  {
    NormalRef(n, rest.pieces);
    NormalLiteral(lit, [Ref(n)] + rest.pieces);
  }

  /** Every value has a normal reading, and printing the reading gives the value back ... */
  lemma {:induction false} PrintOfParse(s: string)
    ensures Print(Parse(s)) == s && NormalTemplate(Parse(s))
    decreases |s|
  {
    match Scan(s)
    case End =>
      PrintLast(s, None);
      assert s + "" == s;
    case OpenEnded(lit, after) =>
      PrintLast(lit, Some(after));
      assert lit + ("${" + after) == lit + "${" + after;
    case Reference(lit, name, rest) =>
      PrintOfParse(rest);
      ReadingPrints(lit, name, Parse(rest));
      ReadingIsNormal(lit, name, Parse(rest));
  }

  lemma PrintLast(text: string, unclosed: Option<string>)
    requires Plain(text) && (unclosed.Some? ==> '}' !in unclosed.value)
    ensures var t := Template(Literal(text), unclosed);
      NormalTemplate(t) && Print(t) == text + if unclosed.Some? then "${" + unclosed.value else ""
  {
    PrintLiteral(text, []);
    NormalLiteral(text, []);
    assert Literal(text) + [] == Literal(text) && text + "" == text;
  }

  // A plain text before "${" does not make an earlier one.
  lemma OpensAfterPlain(t: string, rest: string)
    requires Plain(t)
    ensures FindOpen(t + "${" + rest) == Some(|t|)
  {
    var s := t + "${" + rest;
    assert OpensAt(s, |t|);
    forall i: nat | i < |t| ensures !OpensAt(s, i) {
      assert !OpensAt(t, i);
      assert s[i] == t[i] && s[i + 1] == if i + 1 < |t| then t[i + 1] else '$';
    }
  }

  lemma {:induction false} ClosesAfterName(n: string, rest: string)
    requires '}' !in n
    ensures FindClose(n + "}" + rest) == Some(|n|)
  {
    if n != "" {
      ClosesAfterName(n[1..], rest);
      assert (n + "}" + rest)[1..] == n[1..] + "}" + rest;
    }
  }

  // The scanner finds the parts a value was put together from.
  lemma ScanReference(t: string, n: string, rest: string)
    requires Plain(t) && '}' !in n
    ensures Scan(t + RefText(n) + rest) == Reference(t, n, rest)
  {
    var s, after := t + RefText(n) + rest, n + "}" + rest;
    assert s == t + "${" + after;
    OpensAfterPlain(t, after);
    ClosesAfterName(n, rest);
    assert s[..|t|] == t && s[|t| + 2..] == after;
    assert after[..|n|] == n && after[|n| + 1..] == rest;
  }

  lemma ScanOpenEnded(t: string, unclosed: string)
    requires Plain(t) && '}' !in unclosed
    ensures Scan(t + "${" + unclosed) == OpenEnded(t, unclosed)
  {
    var s := t + "${" + unclosed;
    OpensAfterPlain(t, unclosed);
    assert s[..|t|] == t && s[|t| + 2..] == unclosed;
  }

  lemma NormalRest(ps: seq<Piece>)
    requires Normal(ps) && ps != []
    ensures Normal(ps[1..]) && (ps[0].Lit? && |ps| > 1 ==> ps[1..][0].Ref?)
  {
  }

  lemma ParseLast(text: string, unclosed: Option<string>)
    requires Plain(text) && (unclosed.Some? ==> '}' !in unclosed.value)
    ensures Parse(text + if unclosed.Some? then "${" + unclosed.value else "") == Template(Literal(text), unclosed)
  {
    if unclosed.Some? {
      ScanOpenEnded(text, unclosed.value);
      assert text + ("${" + unclosed.value) == text + "${" + unclosed.value;
    } else {
      assert text + "" == text;
    }
  }

  /** ... and it is the only one: a normal reading is found again after printing. */
  lemma {:induction false} ParseOfPrint(t: Template)
    requires NormalTemplate(t)
    ensures Parse(Print(t)) == t
    decreases |t.pieces|, 1
  {
    var startsWithText := t.pieces != [] && t.pieces[0].Lit?;
    var text := if startsWithText then t.pieces[0].text else "";
    var others := if startsWithText then t.pieces[1..] else t.pieces;
    assert t.pieces == Literal(text) + others;
    if startsWithText { NormalRest(t.pieces); }
    if others == [] {
      assert t.pieces == Literal(text);
      PrintLast(text, t.unclosed);
      ParseLast(text, t.unclosed);
    } else {
      NormalRest(others);
      assert others == [others[0]] + others[1..];
      ParseReadingOfPrint(text, others[0].name, Template(others[1..], t.unclosed), t);
    }
  }

  lemma {:induction false} ParseReadingOfPrint(text: string, n: string, rest: Template, t: Template)
    requires Plain(text) && '}' !in n && NormalTemplate(rest)
    requires t == Reading(text, n, rest) && |rest.pieces| < |t.pieces|
    ensures Parse(Print(t)) == t
    decreases |t.pieces|, 0
  {
    ParseOfPrint(rest);
    ReadingPrints(text, n, rest);
    ScanReference(text, n, Print(rest));
  }

  // ----- meaning

  // The error of a piece, if any.
  function PieceError(p: Piece, lookup: Lookup): Option<EnvError> {
    match p
    case Lit(_) => None
    case Ref(n) => if n == "" then Some(EmptyName) else if lookup(n).None? then Some(Missing(n)) else None
  }

  function PieceValue(p: Piece, lookup: Lookup): string {
    match p
    case Lit(t) => t
    case Ref(n) => if lookup(n).Some? then lookup(n).value else ""
  }

  function Values(ps: seq<Piece>, lookup: Lookup): string {
    if ps == [] then "" else PieceValue(ps[0], lookup) + Values(ps[1..], lookup)
  }

  // Left to right, stopping at the first error.
  function Meaning(t: Template, lookup: Lookup): Result<string, EnvError>
    decreases |t.pieces|
  {
    if t.pieces == [] then (if t.unclosed.Some? then Err(Unclosed) else Ok(""))
    else
      var e := PieceError(t.pieces[0], lookup);
      if e.Some? then Err(e.value)
      else
        var rest := Meaning(Template(t.pieces[1..], t.unclosed), lookup);
        if rest.Err? then rest else Ok(PieceValue(t.pieces[0], lookup) + rest.value)
  }

  function Prepend(s: string, r: Result<string, EnvError>): Result<string, EnvError> {
    match r
    case Ok(v) => Ok(s + v)
    case Err(e) => Err(e)
  }

  lemma PrependNothing(r: Result<string, EnvError>)
    ensures Prepend("", r) == r
  {
    if r.Ok? { assert "" + r.value == r.value; }
  }

  // The pieces before number k are in order.
  ghost predicate GoodBefore(ps: seq<Piece>, k: nat, lookup: Lookup) {
    forall i :: 0 <= i < k && i < |ps| ==> PieceError(ps[i], lookup).None?
  }

  /** The meaning spelled out: the values in order when every reference is closed, named and set;
      otherwise the error of the first that is not, an unclosed one counting as the last. */
  lemma {:induction false} MeaningSpec(t: Template, lookup: Lookup)
    ensures GoodBefore(t.pieces, |t.pieces|, lookup) && t.unclosed.None? ==>
      Meaning(t, lookup) == Ok(Values(t.pieces, lookup))
    ensures GoodBefore(t.pieces, |t.pieces|, lookup) && t.unclosed.Some? ==> Meaning(t, lookup) == Err(Unclosed)
    ensures forall k ::
      0 <= k < |t.pieces| && GoodBefore(t.pieces, k, lookup) && PieceError(t.pieces[k], lookup).Some? ==>
      Meaning(t, lookup) == Err(PieceError(t.pieces[k], lookup).value)
    decreases |t.pieces|
  {
    if t.pieces != [] && PieceError(t.pieces[0], lookup).None? {
      var rest := Template(t.pieces[1..], t.unclosed);
      MeaningSpec(rest, lookup);
      if GoodBefore(t.pieces, |t.pieces|, lookup) {
        assert GoodBefore(rest.pieces, |rest.pieces|, lookup);
      }
      forall k | 0 <= k < |t.pieces| && GoodBefore(t.pieces, k, lookup) && PieceError(t.pieces[k], lookup).Some?
        ensures Meaning(t, lookup) == Err(PieceError(t.pieces[k], lookup).value)
      {
        assert k > 0 && rest.pieces[k - 1] == t.pieces[k];
        assert GoodBefore(rest.pieces, k - 1, lookup);
      }
    }
  }

  lemma LiteralThen(text: string, t: Template, lookup: Lookup)
    ensures Meaning(Template(Literal(text) + t.pieces, t.unclosed), lookup) == Prepend(text, Meaning(t, lookup))
  {
    if text == "" {
      assert Literal(text) + t.pieces == t.pieces;
      assert Meaning(t, lookup).Ok? ==> "" + Meaning(t, lookup).value == Meaning(t, lookup).value;
    } else {
      assert (Literal(text) + t.pieces)[1..] == t.pieces;
    }
  }

  // What one turn of the scanner does to the meaning of the rest.
  lemma ScanStep(s: string, lookup: Lookup)
    ensures Meaning(Parse(s), lookup) ==
      match Scan(s)
      case End => Ok(s)
      case OpenEnded(_, _) => Err(Unclosed)
      case Reference(lit, name, rest) =>
        if name == "" then Err(EmptyName)
        else if lookup(name).None? then Err(Missing(name))
        else Prepend(lit, Prepend(lookup(name).value, Meaning(Parse(rest), lookup)))
  {
    match Scan(s)
    case End =>
      LiteralThen(s, Template([], None), lookup);
      assert Literal(s) + [] == Literal(s) && s + "" == s;
    case OpenEnded(lit, after) =>
      LiteralThen(lit, Template([], Some(after)), lookup);
      assert Literal(lit) + [] == Literal(lit);
    case Reference(lit, name, rest) =>
      var more := Parse(rest);
      var tail := Template([Ref(name)] + more.pieces, more.unclosed);
      assert tail.pieces[1..] == more.pieces;
      LiteralThen(lit, tail, lookup);
  }

  lemma PrependTwice(a: string, b: string, r: Result<string, EnvError>)
    ensures Prepend(a, Prepend(b, r)) == Prepend(a + b, r)
  {
    if r.Ok? { assert a + (b + r.value) == a + b + r.value; }
  }

  lemma PrependThrice(a: string, b: string, c: string, r: Result<string, EnvError>)
    ensures Prepend(a, Prepend(b, Prepend(c, r))) == Prepend(a + b + c, r)
  {
    PrependTwice(b, c, r);
    PrependTwice(a, b + c, r);
    assert a + (b + c) == a + b + c;
  }

  type Expander = string -> Result<string, EnvError>

  function MeaningFor(lookup: Lookup): Expander {
    (s: string) => Meaning(Parse(s), lookup)
  }

  // One round of the loop, for whatever function gives the meaning of the rest.
  function RoundOf(m: Expander, lookup: Lookup, s: string): Result<string, EnvError> {
    var start := FindOpen(s);
    if start.None? then Ok(s)
    else
      var after := s[start.value + 2..];
      var end := FindClose(after);
      if end.None? then Err(Unclosed)
      else
        var name := after[..end.value];
        if name == "" then Err(EmptyName)
        else if lookup(name).None? then Err(Missing(name))
        else Prepend(s[..start.value], Prepend(lookup(name).value, m(after[end.value + 1..])))
  }

  ghost predicate GoesByRounds(m: Expander, lookup: Lookup) {
    forall s :: m(s) == RoundOf(m, lookup, s)
  }

  lemma MeaningGoesByRounds(lookup: Lookup)
    ensures GoesByRounds(MeaningFor(lookup), lookup)
  {
    forall s ensures MeaningFor(lookup)(s) == RoundOf(MeaningFor(lookup), lookup, s) {
      ScanStep(s, lookup);
    }
  }

  method ExpandByRounds(input: string, lookup: Lookup, ghost m: Expander) returns (r: Result<string, EnvError>)
    requires GoesByRounds(m, lookup)
    ensures r == m(input)
  {
    assert m(input) == RoundOf(m, lookup, input);
    if FindOpen(input).None? {
      return Ok(input);
    }
    var result, rest := "", input;
    PrependNothing(m(input));
    while FindOpen(rest).Some?
      invariant m(input) == Prepend(result, m(rest))
      decreases |rest|
    {
      assert m(rest) == RoundOf(m, lookup, rest);
      var start := FindOpen(rest).value;
      var after := rest[start + 2..];
      var end := FindClose(after);
      if end.None? {
        return Err(Unclosed);
      }
      var varName := after[..end.value];
      if varName == "" {
        return Err(EmptyName);
      }
      var value := lookup(varName);
      if value.None? {
        return Err(Missing(varName));
      }
      PrependThrice(result, rest[..start], value.value, m(after[end.value + 1..]));
      result := result + rest[..start];
      result := result + value.value;
      rest := after[end.value + 1..];
    }
    assert m(rest) == RoundOf(m, lookup, rest);
    result := result + rest;
    r := Ok(result);
  }

  /** The scanner computes the meaning of the value it is given. Looked-up values are appended to the
      result and never scanned again. */
  method ExpandEnvVarsWith(input: string, lookup: Lookup) returns (r: Result<string, EnvError>)
    ensures r == Meaning(Parse(input), lookup)
  {
    MeaningGoesByRounds(lookup);
    r := ExpandByRounds(input, lookup, MeaningFor(lookup));
  }

  /** Round trip: a printed template whose names are all set expands to its literals and values. */
  lemma ExpansionRoundTrip(ps: seq<Piece>, lookup: Lookup)
    requires Normal(ps) && GoodBefore(ps, |ps|, lookup)
    ensures Meaning(Parse(PrintPieces(ps)), lookup) == Ok(Values(ps, lookup))
  {
    var t := Template(ps, None);
    assert Print(t) == PrintPieces(ps);
    ParseOfPrint(t);
    MeaningSpec(t, lookup);
  }
}
